/** Reading the event stream of one run: progress, then one terminal event, then its recording.
    Decoding and validating the JSON documents is given as functions. */
module RunStream {
  import opened Wrappers
  import opened EventStream
  import opened EventEncoding

  datatype RunEvent = RunEvent(sequence: nat, runId: string, callId: string, traceId: string, kind: string,
                               data: string)
  datatype Payload = Payload(result: string, state: string, error: string)
  datatype RunResult = RunResult(runId: string, callId: string, traceId: string, status: string, output: string,
                                 raw: string)
  datatype RunState = RunState(lastRunId: string, lastTraceId: string, body: string)
  datatype Recording = Recording(mode: string, status: string, runId: string)
  datatype RunOutcome = RunOutcome(result: RunResult, state: RunState, evidence: string, recording: Recording)
  datatype RunFailure = RunFailure(problem: string, evidence: string)
  datatype StreamError = UnknownOutcome(cause: Error) | Failure(failure: RunFailure)

  datatype Answer = Answer(outcome: RunOutcome, error: Option<StreamError>)

  /** The decoders and validators the reader calls. */
  datatype Wire = Wire(
    event: string -> Option<RunEvent>,
    payload: string -> Option<Payload>,
    result: string -> Option<RunResult>,
    state: string -> Option<RunState>,
    problem: string -> Option<string>,
    recording: string -> Option<Recording>,
    structured: string -> bool,
    evidence: RunResult -> Result<string, Error>)

  function Zero(): RunOutcome {
    RunOutcome(RunResult("", "", "", "", "", ""), RunState("", "", ""), "", Recording("", "", ""))
  }

  /** A terminal event that has been accepted. */
  datatype Terminal = Terminal(outcome: RunOutcome, failure: Option<RunFailure>)

  /** What the reader remembers between frames. */
  datatype Memory = Memory(sequence: nat, runId: string, callId: string, traceId: string, terminal: Option<Terminal>)

  function Fresh(): Memory { Memory(0, "", "", "", None) }

  // ---- one frame ----

  predicate Follows(m: Memory, kind: string, e: RunEvent) {
    && e.kind == kind && e.sequence > m.sequence
    && (m.runId == "" || e.runId == m.runId)
    && (m.callId == "" || e.callId == "" || e.callId == m.callId)
    && (m.traceId == "" || e.traceId == "" || e.traceId == m.traceId)
  }

  function Remember(m: Memory, e: RunEvent): Memory {
    m.(sequence := e.sequence, runId := e.runId,
       callId := if e.callId != "" then e.callId else m.callId,
       traceId := if e.traceId != "" then e.traceId else m.traceId)
  }

  predicate SameIds(e: RunEvent, r: RunResult) {
    e.runId == r.runId && e.callId == r.callId && e.traceId == r.traceId
  }

  /** A terminal event, checked field by field. */
  function ReadTerminal(w: Wire, kind: string, e: RunEvent): Result<Terminal, Error> {
    var p := w.payload(e.data);
    if p.None? then Err(Protocol)
    else
      var decoded, state := w.result(p.value.result), w.state(p.value.state);
      if decoded.None? || state.None? then Err(Protocol)
      else
        var r := decoded.value.(raw := p.value.result);
        if !SameIds(e, r) || state.value.lastRunId != r.runId || state.value.lastTraceId != r.traceId then Err(Protocol)
        else if && kind == "run.completed"
                && (r.status != "succeeded" || p.value.error != "" || !w.structured(r.output)) then
          Err(Protocol)
        else if kind != "run.completed" && (r.status == "succeeded" || w.problem(p.value.error).None?) then
          Err(Protocol)
        else
          match w.evidence(r)
          case Err(cause) => Err(cause)
          case Ok(evidence) =>
            Ok(Terminal(RunOutcome(r, state.value, evidence, Recording("enabled", "unconfirmed", r.runId)),
                        if kind == "run.completed" then None
                        else Some(RunFailure(w.problem(p.value.error).value, evidence))))
  }

  datatype Verdict = Next(memory: Memory) | Final(memory: Memory, cause: Error)

  /** What one frame does: go on, or end the reading with a cause. */
  function Accept(w: Wire, m: Memory, kind: string, data: string): Verdict {
    var event := w.event(data);
    if event.None? || !Follows(m, kind, event.value) then Final(m, Protocol)
    else
      var e, now := event.value, Remember(m, event.value);
      if m.terminal.Some? then
        var t := m.terminal.value;
        var recording := w.recording(e.data);
        if kind != "history.recorded" || recording.None? || recording.value.runId != t.outcome.result.runId
           || !SameIds(e, t.outcome.result) then Final(now, Protocol)
        else  // the cause is never looked at once there is a terminal
          Final(now.(terminal := Some(t.(outcome := t.outcome.(recording := recording.value)))), Protocol)
      else if kind == "run.started" || kind == "run.progress" then Next(now)
      else if kind == "run.completed" || kind == "run.failed" then
        match ReadTerminal(w, kind, e)
        case Err(cause) => Final(now, cause)
        case Ok(t) => Next(now.(terminal := Some(t)))
      else Final(now, Protocol)
  }

  /** The answer once the reading ends. */
  function Finish(m: Memory, cause: Error): Answer {
    match m.terminal
    case None => Answer(Zero(), Some(UnknownOutcome(cause)))
    case Some(t) => Answer(t.outcome, if t.failure.Some? then Some(Failure(t.failure.value)) else None)
  }

  /** The answer of a whole reading. */
  function Run(w: Wire, m: Memory, r: Reading): Answer
    decreases r
  {
    match r
    case Ended(e) => Finish(m, e)
    case Got(kind, data, more) =>
      match Accept(w, m, kind, data)
      case Next(now) => Run(w, now, more)
      case Final(now, cause) => Finish(now, cause)
  }

  // ---- what a whole reading can answer ----

  predicate IsUnknown(a: Answer) { a.error.Some? && a.error.value.UnknownOutcome? }

  /** An accepted terminal: the status says whether there is a failure, the state and the recording are
      of this run, and the evidence is the projection of the result. */
  predicate Sound(w: Wire, t: Terminal) {
    && (t.failure.None? <==> t.outcome.result.status == "succeeded")
    && t.outcome.state.lastRunId == t.outcome.result.runId && t.outcome.state.lastTraceId == t.outcome.result.traceId
    && t.outcome.recording.runId == t.outcome.result.runId
    && w.evidence(t.outcome.result) == Ok(t.outcome.evidence)
    && (t.failure.Some? ==> t.failure.value.evidence == t.outcome.evidence)
  }

  predicate SoundMemory(w: Wire, m: Memory) { m.terminal.Some? ==> Sound(w, m.terminal.value) }

  lemma AcceptIsSound(w: Wire, m: Memory, kind: string, data: string)
    requires SoundMemory(w, m)
    ensures var v := Accept(w, m, kind, data);
            && SoundMemory(w, v.memory) && (m.terminal.Some? ==> v.Final?)
            && (v.Final? && m.terminal.None? ==> v.memory.terminal.None?)
  {
  }

  /** Some frame of the reading is accepted as its terminal event. */
  predicate Reaches(w: Wire, m: Memory, r: Reading)
    decreases r
  {
    m.terminal.Some? ||
    (r.Got? && var v := Accept(w, m, r.kind, r.data); v.Next? && Reaches(w, v.memory, r.more))
  }

  /** Every reading either accepts a terminal event and answers with it, or yields the zero outcome
      and an unknown-outcome error. */
  lemma {:induction false} AnswerShape(w: Wire, m: Memory, r: Reading)
    requires SoundMemory(w, m)
    ensures var a := Run(w, m, r);
            && (IsUnknown(a) <==> !Reaches(w, m, r))
            && (IsUnknown(a) ==> a.outcome == Zero())
            && (!IsUnknown(a) ==>
                  && (a.error.None? <==> a.outcome.result.status == "succeeded")
                  && a.outcome.recording.runId == a.outcome.result.runId == a.outcome.state.lastRunId
                  && w.evidence(a.outcome.result) == Ok(a.outcome.evidence))
    decreases r
  {
    if r.Got? {
      AcceptIsSound(w, m, r.kind, r.data);
      var v := Accept(w, m, r.kind, r.data);
      if v.Next? { AnswerShape(w, v.memory, r.more); }
    }
  }

  // ---- nothing after the terminal event matters but the recording ----

  predicate SameButRecording(a: Answer, b: Answer) {
    && a.outcome.result == b.outcome.result && a.outcome.state == b.outcome.state
    && a.outcome.evidence == b.outcome.evidence && a.error == b.error
    && b.outcome.recording.runId == b.outcome.result.runId
  }

  /** Once a terminal event is accepted, every continuation answers with it. */
  lemma AfterTerminal(w: Wire, m: Memory, r: Reading, cause: Error)
    requires m.terminal.Some? && SoundMemory(w, m)
    ensures SameButRecording(Finish(m, cause), Run(w, m, r))
  {
    if r.Got? { AcceptIsSound(w, m, r.kind, r.data); }
  }

  /** The second reading has all the frames of the first. */
  predicate Prolongs(a: Reading, b: Reading) {
    a.Ended? || (b.Got? && a.kind == b.kind && a.data == b.data && Prolongs(a.more, b.more))
  }

  lemma {:induction false} PrefixDecides(w: Wire, m: Memory, a: Reading, b: Reading)
    requires Prolongs(a, b) && SoundMemory(w, m) && !IsUnknown(Run(w, m, a))
    ensures SameButRecording(Run(w, m, a), Run(w, m, b))
    decreases a
  {
    match a
    case Ended(e) => AfterTerminal(w, m, b, e);
    case Got(kind, data, more) =>
      AcceptIsSound(w, m, kind, data);
      var v := Accept(w, m, kind, data);
      if v.Next? { PrefixDecides(w, v.memory, more, b.more); }
  }

  /** The second sequence of lines has all the complete lines of the first. */
  predicate Continues(a: Lines, b: Lines) {
    a.Tail? || (b.Line? && a.size == b.size && a.token == b.token && Continues(a.more, b.more))
  }

  lemma {:induction false} MoreBytesContinue(s: string, x: string)
    ensures Continues(LinesOf(s), LinesOf(s + x))
    decreases |s|
  {
    var i := IndexOf('\n', s);
    if i < |s| {
      var line, rest := s[..i + 1], s[i + 1..];
      assert s == line + rest && s + x == line + (rest + x) && NoFeed(line[..i]);
      EndedLine(line, rest);
      EndedLine(line, rest + x);
      MoreBytesContinue(rest, x);
    }
  }

  lemma {:induction false} DecodeContinues(a: Lines, b: Lines, e: Error, f: Error, scan: Scan)
    requires Continues(a, b)
    ensures var r, q := Decode(a, e, scan), Decode(b, f, scan);
            r.Frame? ==>
              && q.Frame? && q.kind == r.kind && q.data == r.data && q.used == r.used
              && Continues(r.rest, q.rest)
    decreases a
  {
    if a.Line? {
      var p := Take(a, e, scan);
      if p.Go? { DecodeContinues(a.more, b.more, e, f, p.scan); }
    }
  }

  lemma {:induction false} FramesContinue(a: Lines, b: Lines, e: Error, f: Error, used: nat)
    requires Continues(a, b)
    ensures Prolongs(Frames(a, e, used), Frames(b, f, used))
    decreases a
  {
    DecodeContinues(a, b, e, f, Begin(used));
    FrameIsShorter(a, e, Begin(used));
    var r, q := Decode(a, e, Begin(used)), Decode(b, f, Begin(used));
    if r.Frame? { FramesContinue(r.rest, q.rest, e, f, r.used); }
  }

  /** If the bytes `s` already contain an accepted terminal event, then whatever bytes and whatever error
      follow them, the result, the state, the evidence and the returned error are the same; only the
      recording may differ, and it keeps the run's identity. */
  lemma NoSuffixChangesTheAnswer(w: Wire, s: string, x: string, e: Error, f: Error)
    requires !IsUnknown(Run(w, Fresh(), Frames(LinesOf(s), e, 0)))
    ensures SameButRecording(Run(w, Fresh(), Frames(LinesOf(s), e, 0)), Run(w, Fresh(), Frames(LinesOf(s + x), f, 0)))
  {
    MoreBytesContinue(s, x);
    FramesContinue(LinesOf(s), LinesOf(s + x), e, f, 0);
    PrefixDecides(w, Fresh(), Frames(LinesOf(s), e, 0), Frames(LinesOf(s + x), f, 0));
  }

  /** All accepted frames belong to one run: the answer is about the run the reader first heard of. */
  lemma {:induction false} RunIsKept(w: Wire, m: Memory, r: Reading)
    requires m.runId != "" && m.terminal.None?
    ensures !IsUnknown(Run(w, m, r)) ==> Run(w, m, r).outcome.result.runId == m.runId
    decreases r
  {
    if r.Got? {
      var v := Accept(w, m, r.kind, r.data);
      if v.Next? {
        assert v.memory.runId == m.runId;
        if v.memory.terminal.None? {
          RunIsKept(w, v.memory, r.more);
        } else {
          assert v.memory.terminal.value.outcome.result.runId == m.runId && SoundMemory(w, v.memory);
          AfterTerminal(w, v.memory, r.more, Protocol);
        }
      }
    }
  }

  // ---- the reader as it runs ----

  /** One frame: check its envelope, remember it, and look at its kind. */
  method Step(w: Wire, m: Memory, kind: string, data: string) returns (v: Verdict)
    ensures v == Accept(w, m, kind, data)
  {
    var event := w.event(data);
    if event.None? { return Final(m, Protocol); }
    var e := event.value;
    if e.kind != kind || e.sequence <= m.sequence || (m.runId != "" && e.runId != m.runId) {
      return Final(m, Protocol);
    }
    if m.callId != "" && e.callId != "" && e.callId != m.callId { return Final(m, Protocol); }
    if m.traceId != "" && e.traceId != "" && e.traceId != m.traceId { return Final(m, Protocol); }
    var now := m.(sequence := e.sequence, runId := e.runId);
    if e.callId != "" { now := now.(callId := e.callId); }
    if e.traceId != "" { now := now.(traceId := e.traceId); }
    assert now == Remember(m, e) && Follows(m, kind, e);
    var stop, verdict := Judge(w, m.terminal, kind, e, m, data);
    now := now.(terminal := verdict);
    return if stop.Some? then Final(now, stop.value) else Next(now);
  }

  /** The part that looks at the kind of an event. */
  method Judge(w: Wire, terminal: Option<Terminal>, kind: string, e: RunEvent, ghost was: Memory, ghost data: string)
    returns (stop: Option<Error>, verdict: Option<Terminal>)
    requires w.event(data) == Some(e) && Follows(was, kind, e) && was.terminal == terminal
    ensures var now := Remember(was, e).(terminal := verdict);
            Accept(w, was, kind, data) == if stop.Some? then Final(now, stop.value) else Next(now)
  {
    verdict := terminal;
    if terminal.Some? {
      if kind != "history.recorded" { return Some(Protocol), verdict; }
      var t := terminal.value;
      var recording := w.recording(e.data);
      if recording.None? || recording.value.runId != t.outcome.result.runId || !SameIds(e, t.outcome.result) {
        return Some(Protocol), verdict;
      }
      return Some(Protocol), Some(t.(outcome := t.outcome.(recording := recording.value)));
    }
    if kind == "run.started" || kind == "run.progress" { return None, verdict; }
    if kind != "run.completed" && kind != "run.failed" { return Some(Protocol), verdict; }
    var t := ReadTerminal(w, kind, e);
    if t.Err? { return Some(t.error), verdict; }
    return None, Some(t.value);
  }

  /** Whatever the reads are, the answer is that of the frames of the bytes they deliver. */
  method ReadRunStream(answers: seq<Read>, w: Wire) returns (answer: Answer)
    ensures var (s, e) := Delivered(answers, 0); answer == Run(w, Fresh(), Frames(LinesOf(s), e, 0))
  {
    var stream := new StreamReader(answers);
    ghost var (s, e) := Delivered(answers, 0);
    answer := ReadEvents(stream, w, LinesOf(s), e);
  }

  /** The loop over the frames of an open stream. */
  method ReadEvents(stream: StreamReader, w: Wire, ghost lines: Lines, ghost e: Error) returns (answer: Answer)
    requires stream.reader.Valid() && stream.At(lines, e)
    modifies stream, stream.reader
    ensures answer == Run(w, Fresh(), Frames(lines, e, old(stream.bytes)))
  {
    var memory := Fresh();
    ghost var left := lines;
    while true
      invariant stream.reader.Valid() && stream.At(left, e)
      invariant Run(w, memory, Frames(left, e, stream.bytes)) == Run(w, Fresh(), Frames(lines, e, old(stream.bytes)))
      decreases left
    {
      FrameIsShorter(left, e, Begin(stream.bytes));
      ghost var read := Decode(left, e, Begin(stream.bytes));
      var frame := stream.ReadFrame(left, e);
      if frame.Err? { return Finish(memory, frame.error); }
      var v := Step(w, memory, frame.value.0, frame.value.1);
      memory, left := v.memory, read.rest;
      if v.Final? { return Finish(memory, v.cause); }
    }
  }
}
