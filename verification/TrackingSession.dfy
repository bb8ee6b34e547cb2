/** The in-memory projection of one tracked request.
    `Step` is the specification of every locked method; the class below is the
    mutable object of the source, each method proved to perform one `Step`. */
module TrackingSession {
  import opened Wrappers

  type Time = int  // nanoseconds

  datatype Status =
    | Running | Waiting | Completed | Failed | Cancelled | Unconfirmed
    | OtherStatus(text: string)

  datatype Stage =
    | Preparing | ProviderAttempt | Validation | ResponseProjection | RetryWait | AdmissionWait
    | OtherStage(text: string)

  datatype Reason =
    | ProviderThrottled | RetryBackoff | AdmissionWindow | AccountRestricted | DispatchPending
    | WorkflowRollover | PersistenceWait | WorkerUnavailable | UnresolvedExecution | PoolCapacity
    | OtherReason(text: string)

  /** The columns a reservation writes once and no update touches. */
  datatype Identity = Identity(
    id: string, owner: string, endpoint: string,
    createdAt: Time, deadlineAt: Time, retentionExpiresAt: Time)

  datatype Record = Record(
    identity: Identity,
    status: Status, stage: Option<Stage>, reason: Option<Reason>,
    updatedAt: Time, heartbeatAt: Time,
    progressAt: Option<Time>, finishedAt: Option<Time>, nextAttemptAt: Option<Time>,
    errorCode: Option<string>, attemptsUsed: int, revision: int, outcomeConfirmed: Option<bool>)

  datatype Session = Session(
    record: Record, epoch: nat, sequence: nat, received: int, events: int, providerEntered: bool)

  /** One call of a locked method. Every clock reading the call makes is an argument. */
  datatype Call =
    | Phase(stage: Stage, now: Time)
    | Attempt(n: int, now: Time)
    | AdmissionGate(reason: Reason, next: Option<Time>, now: Time)
    | Wait(reason: Reason, delay: int, scheduledAt: Time, now: Time)
    | EndWait(token: nat, now: Time)
    | Progress(sequence: nat, attempts: int, received: int, events: int, now: Time)
    | Finish(status: Status, code: string, confirmed: bool, now: Time)
    | Snapshot(heartbeat: bool, now: Time)

  /** Observation timestamps never go back, even when the clock does. */
  function TrackingTime(now: Time, previous: Time): (t: Time)
    ensures t >= previous && t >= now && (t == previous || t == now)
  {
    if now < previous then previous else now
  }

  function Changed(r: Record, now: Time): Record {
    var t := TrackingTime(now, r.updatedAt);
    r.(updatedAt := t, progressAt := Some(t), revision := r.revision + 1)
  }

  predicate KnownPhase(stage: Stage) {
    stage.Preparing? || stage.ProviderAttempt? || stage.Validation? || stage.ResponseProjection?
  }

  predicate KnownGate(reason: Reason) {
    !reason.RetryBackoff? && !reason.OtherReason?
  }

  predicate Terminal(status: Status) {
    status.Completed? || status.Failed? || status.Cancelled? || status.Unconfirmed?
  }

  function Max(a: int, b: int): int { if a > b then a else b }

  function NewRecord(identity: Identity): Record {
    Record(identity, Running, Some(Preparing), None, identity.createdAt, identity.createdAt,
           None, None, None, None, 0, 1, None)
  }

  function NewSession(r: Record): Session {
    Session(r, 0, 0, 0, 0, false)
  }

  function PhaseStep(s: Session, stage: Stage, now: Time): Session {
    if s.record.finishedAt.Some? || !KnownPhase(stage) then s
    else
      var moved := s.(epoch := s.epoch + 1, providerEntered := s.providerEntered || stage.ProviderAttempt?);
      if s.record.stage == Some(stage) && s.record.status.Running? then moved
      else moved.(record := Changed(
                    s.record.(status := Running, stage := Some(stage), reason := None, nextAttemptAt := None), now))
  }

  function GateStep(s: Session, reason: Reason, next: Option<Time>, now: Time): Session {
    if !KnownGate(reason) || s.record.finishedAt.Some? then s
    else if && s.record.status.Waiting? && s.record.stage == Some(AdmissionWait)
            && s.record.reason == Some(reason) && s.record.nextAttemptAt == next then s
    else s.(epoch := s.epoch + 1,
            record := Changed(
              s.record.(status := Waiting, stage := Some(AdmissionWait), reason := Some(reason), nextAttemptAt := next),
              now))
  }

  function WaitStep(s: Session, reason: Reason, delay: int, scheduledAt: Time, now: Time): Session {
    if s.record.finishedAt.Some? then s
    else
      var next := TrackingTime(scheduledAt, s.record.updatedAt) + Max(delay, 0);
      s.(epoch := s.epoch + 1,
         record := Changed(
           s.record.(status := Waiting, stage := Some(RetryWait), reason := Some(reason), nextAttemptAt := Some(next)),
           now))
  }

  function EndWaitStep(s: Session, token: nat, now: Time): Session {
    if s.record.finishedAt.Some? || s.epoch != token then s
    else s.(epoch := s.epoch + 1,
            record := Changed(
              s.record.(status := Running, stage := Some(Preparing), reason := None, nextAttemptAt := None), now))
  }

  function ProgressStep(s: Session, c: Call): Session
    requires c.Progress?
  {
    if s.record.finishedAt.Some? || c.sequence <= s.sequence then s
    else
      var grew := c.attempts > s.record.attemptsUsed || c.received > s.received || c.events > s.events;
      var counted := s.record.(attemptsUsed := Max(c.attempts, s.record.attemptsUsed));
      s.(sequence := c.sequence, received := Max(c.received, s.received), events := Max(c.events, s.events),
         record := if grew then Changed(counted, c.now) else s.record)
  }

  function FinishStep(s: Session, status: Status, code: string, confirmed: bool, now: Time): Session {
    if s.record.finishedAt.Some? || !Terminal(status) then s
    else
      var closed := Changed(
        s.record.(status := status, reason := None, nextAttemptAt := None, outcomeConfirmed := Some(confirmed),
                  errorCode := if code != "" then Some(code) else s.record.errorCode), now);
      s.(epoch := s.epoch + 1,
         record := closed.(finishedAt := Some(closed.updatedAt), heartbeatAt := closed.updatedAt))
  }

  function SnapshotStep(s: Session, heartbeat: bool, now: Time): Session {
    if !heartbeat || s.record.finishedAt.Some? then s
    else
      var t := TrackingTime(now, s.record.updatedAt);
      s.(record := s.record.(heartbeatAt := t, updatedAt := t, revision := s.record.revision + 1))
  }

  function Step(s: Session, c: Call): Session {
    match c
    case Phase(stage, now) => PhaseStep(s, stage, now)
    case Attempt(n, now) =>
      if s.record.finishedAt.None? && n > s.record.attemptsUsed
      then s.(record := Changed(s.record.(attemptsUsed := n), now)) else s
    case AdmissionGate(reason, next, now) => GateStep(s, reason, next, now)
    case Wait(reason, delay, scheduledAt, now) => WaitStep(s, reason, delay, scheduledAt, now)
    case EndWait(token, now) => EndWaitStep(s, token, now)
    case Progress(_, _, _, _, _) => ProgressStep(s, c)
    case Finish(status, code, confirmed, now) => FinishStep(s, status, code, confirmed, now)
    case Snapshot(heartbeat, now) => SnapshotStep(s, heartbeat, now)
  }

  /** The session after a whole run: calls take the mutex one at a time, in any order. */
  function Run(s: Session, calls: seq<Call>): Session
    decreases |calls|
  {
    if calls == [] then s else Run(Step(s, calls[0]), calls[1..])
  }

  // ---- what every reachable session satisfies ----

  ghost predicate Coherent(r: Record) {
    && r.revision >= 1 && r.attemptsUsed >= 0 && r.stage.Some?
    && (r.status.Running? || r.status.Waiting? || Terminal(r.status))
    && (r.status.Running? ==> r.reason.None? && r.nextAttemptAt.None?)
    && (r.status.Waiting? ==>
          && r.reason.Some?
          && ((r.stage == Some(RetryWait) && r.nextAttemptAt.Some?) || r.stage == Some(AdmissionWait)))
    && (Terminal(r.status) ==> r.reason.None? && r.nextAttemptAt.None?)
    && (Terminal(r.status) <==> r.finishedAt.Some?)
    && (r.finishedAt.Some? <==> r.outcomeConfirmed.Some?)
    && (r.finishedAt.Some? ==> r.finishedAt.value == r.updatedAt == r.heartbeatAt && r.progressAt == Some(r.updatedAt))
    && r.identity.createdAt <= r.heartbeatAt <= r.updatedAt
    && (r.progressAt.Some? ==> r.identity.createdAt <= r.progressAt.value <= r.updatedAt)
  }

  /** `b` is `a` or a later state of the same session. */
  ghost predicate Later(a: Record, b: Record) {
    && a.identity == b.identity
    && a.revision <= b.revision
    && (a.revision == b.revision ==> a == b)
    && (a.finishedAt.Some? ==> a == b)
    && a.updatedAt <= b.updatedAt && a.heartbeatAt <= b.heartbeatAt
    && (a.progressAt.Some? ==> b.progressAt.Some? && a.progressAt.value <= b.progressAt.value)
    && a.attemptsUsed <= b.attemptsUsed
  }

  lemma StepKeepsCoherent(s: Session, c: Call)
    requires Coherent(s.record)
    ensures Coherent(Step(s, c).record)
    ensures Later(s.record, Step(s, c).record)
    ensures s.epoch <= Step(s, c).epoch
  {
  }

  lemma LaterTransitive(a: Record, b: Record, c: Record)
    requires Later(a, b) && Later(b, c)
    ensures Later(a, c)
  {
  }

  /** In every reachable state: running has no reason and no next attempt, waiting has a
      reason and a wait stage, finished matches the terminal statuses, and the three
      observation times and the revision only grow, whatever the clock does. */
  lemma {:induction false} RunKeepsCoherent(s: Session, calls: seq<Call>)
    requires Coherent(s.record)
    ensures Coherent(Run(s, calls).record)
    ensures Later(s.record, Run(s, calls).record)
    ensures s.epoch <= Run(s, calls).epoch
    decreases |calls|
  {
    if calls != [] {
      StepKeepsCoherent(s, calls[0]);
      RunKeepsCoherent(Step(s, calls[0]), calls[1..]);
      LaterTransitive(s.record, Step(s, calls[0]).record, Run(s, calls).record);
    }
  }

  lemma {:induction false} RunSplit(s: Session, before: seq<Call>, after: seq<Call>)
    ensures Run(s, before + after) == Run(Run(s, before), after)
    decreases |before|
  {
    if before == [] {
      assert before + after == after;
    } else {
      assert (before + after)[1..] == before[1..] + after;
      RunSplit(Step(s, before[0]), before[1..], after);
    }
  }

  /** Two snapshots of one session that carry the same revision are the same record. */
  lemma EqualRevisionsEqualRecords(s: Session, before: seq<Call>, between: seq<Call>)
    requires Coherent(s.record)
    requires Run(s, before).record.revision == Run(s, before + between).record.revision
    ensures Run(s, before).record == Run(s, before + between).record
  {
    RunSplit(s, before, between);
    RunKeepsCoherent(s, before);
    RunKeepsCoherent(Run(s, before), between);
  }

  // ---- the end callback of a wait ----

  /** The four fields one wait announces. */
  ghost predicate SameWait(a: Record, b: Record) {
    a.status == b.status && a.stage == b.stage && a.reason == b.reason && a.nextAttemptAt == b.nextAttemptAt
  }

  lemma {:induction false} WaitFence(waiting: Session, calls: seq<Call>)
    requires Coherent(waiting.record) && waiting.record.finishedAt.None?
    ensures var now := Run(waiting, calls);
            now.epoch == waiting.epoch && now.record.finishedAt.None? ==> SameWait(waiting.record, now.record)
    decreases |calls|
  {
    if calls != [] {
      var next := Step(waiting, calls[0]);
      StepKeepsCoherent(waiting, calls[0]);
      RunKeepsCoherent(next, calls[1..]);
      if next.record.finishedAt.None? && next.epoch == waiting.epoch {
        WaitFence(next, calls[1..]);
      }
    }
  }

  /** However many calls run in between, the callback of a wait acts exactly when no other
      transition moved the fence, and then the record still carries the status, stage,
      reason and next-attempt time that this wait set. */
  lemma EndWaitActsOnOwnWait(s: Session, reason: Reason, delay: int, scheduledAt: Time, now: Time,
                             between: seq<Call>, endedAt: Time)
    requires Coherent(s.record) && s.record.finishedAt.None?
    ensures var waiting := Step(s, Wait(reason, delay, scheduledAt, now));
            var before := Run(waiting, between);
            var after := Step(before, EndWait(waiting.epoch, endedAt));
            && waiting.record.stage == Some(RetryWait) && waiting.record.reason == Some(reason)
            && (after != before <==> before.record.finishedAt.None? && before.epoch == waiting.epoch)
            && (after != before ==>
                  && SameWait(waiting.record, before.record)
                  && after.record.status.Running? && after.record.stage == Some(Preparing)
                  && after.record.reason.None? && after.record.nextAttemptAt.None?
                  && after.record.revision == before.record.revision + 1)
  {
    StepKeepsCoherent(s, Wait(reason, delay, scheduledAt, now));
    WaitFence(Step(s, Wait(reason, delay, scheduledAt, now)), between);
  }

  /** A callback acts at most once: after its first call no later call of it changes anything. */
  lemma EndWaitActsOnce(s: Session, token: nat, endedAt: Time, calls: seq<Call>, again: Time)
    requires Coherent(s.record) && token <= s.epoch
    ensures var ended := Run(Step(s, EndWait(token, endedAt)), calls);
            Step(ended, EndWait(token, again)) == ended
  {
    var first := Step(s, EndWait(token, endedAt));
    StepKeepsCoherent(s, EndWait(token, endedAt));
    RunKeepsCoherent(first, calls);
  }

  // ---- the object ----

  class TrackingSession {
    var record: Record
    var epoch: nat
    var sequence: nat
    var received: int
    var events: int
    var providerEntered: bool

    ghost function State(): Session
      reads this
    {
      Session(record, epoch, sequence, received, events, providerEntered)
    }

    constructor (r: Record)
      ensures State() == NewSession(r)
    {
      record, epoch, sequence, received, events, providerEntered := r, 0, 0, 0, 0, false;
    }

    method MarkChanged(now: Time)
      modifies this`record
      ensures record == Changed(old(record), now)
    {
      var t := TrackingTime(now, record.updatedAt);
      record := record.(updatedAt := t);
      record := record.(progressAt := Some(t));
      record := record.(revision := record.revision + 1);
    }

    method Phase(stage: Stage, now: Time)
      modifies this
      ensures State() == Step(old(State()), Call.Phase(stage, now))
    {
      if record.finishedAt.Some? { return; }
      if !KnownPhase(stage) { return; }
      if stage.ProviderAttempt? { providerEntered := true; }
      epoch := epoch + 1;
      if record.stage == Some(stage) && record.status.Running? { return; }
      record := record.(status := Running, stage := Some(stage));
      record := record.(reason := None, nextAttemptAt := None);
      MarkChanged(now);
    }

    method Attempt(n: int, now: Time)
      modifies this
      ensures State() == Step(old(State()), Call.Attempt(n, now))
    {
      if record.finishedAt.None? && n > record.attemptsUsed {
        record := record.(attemptsUsed := n);
        MarkChanged(now);
      }
    }

    method AdmissionWait(reason: Reason, next: Option<Time>, now: Time)
      modifies this
      ensures State() == Step(old(State()), AdmissionGate(reason, next, now))
    {
      if !KnownGate(reason) { return; }
      if record.finishedAt.Some? { return; }
      var sameNext := record.nextAttemptAt == next;
      if && record.status.Waiting? && record.stage == Some(Stage.AdmissionWait) && record.reason == Some(reason)
         && sameNext {
        return;
      }
      record := record.(status := Waiting, stage := Some(Stage.AdmissionWait), reason := Some(reason));
      record := record.(nextAttemptAt := None);
      if next.Some? {
        record := record.(nextAttemptAt := next);
      }
      epoch := epoch + 1;
      MarkChanged(now);
    }

    /** Returns the epoch captured by the end callback, or nothing for the empty callback. */
    method Wait(reason: Reason, delay: int, scheduledAt: Time, now: Time) returns (token: Option<nat>)
      modifies this
      ensures State() == Step(old(State()), Call.Wait(reason, delay, scheduledAt, now))
      ensures token == if old(record).finishedAt.Some? then None else Some(epoch)
    {
      if record.finishedAt.Some? { return None; }
      epoch := epoch + 1;
      token := Some(epoch);
      var next := TrackingTime(scheduledAt, record.updatedAt) + Max(delay, 0);
      record := record.(status := Waiting, stage := Some(RetryWait), reason := Some(reason),
                        nextAttemptAt := Some(next));
      MarkChanged(now);
    }

    /** The callback returned by `Wait`. */
    method EndWait(token: nat, now: Time)
      modifies this
      ensures State() == Step(old(State()), Call.EndWait(token, now))
    {
      if record.finishedAt.Some? || epoch != token { return; }
      record := record.(status := Running, stage := Some(Preparing));
      record := record.(reason := None, nextAttemptAt := None);
      epoch := epoch + 1;
      MarkChanged(now);
    }

    method Progress(seqNo: nat, attempts: int, receivedBytes: int, eventCount: int, now: Time)
      modifies this
      ensures State() == Step(old(State()), Call.Progress(seqNo, attempts, receivedBytes, eventCount, now))
    {
      if record.finishedAt.Some? || seqNo <= sequence { return; }
      sequence := seqNo;
      var changed := false;
      if attempts > record.attemptsUsed {
        record := record.(attemptsUsed := attempts);
        changed := true;
      }
      if receivedBytes > received {
        received := receivedBytes;
        changed := true;
      }
      if eventCount > events {
        events := eventCount;
        changed := true;
      }
      if changed {
        MarkChanged(now);
      }
    }

    method Finish(status: Status, code: string, confirmed: bool, now: Time)
      modifies this
      ensures State() == Step(old(State()), Call.Finish(status, code, confirmed, now))
    {
      if record.finishedAt.Some? { return; }
      if !Terminal(status) { return; }
      record := record.(status := status, reason := None, nextAttemptAt := None, outcomeConfirmed := Some(confirmed));
      if code != "" {
        record := record.(errorCode := Some(code));
      }
      MarkChanged(now);
      record := record.(finishedAt := Some(record.updatedAt));
      record := record.(heartbeatAt := record.updatedAt);
      epoch := epoch + 1;
    }

    method Snapshot(heartbeat: bool, now: Time) returns (r: Record)
      modifies this
      ensures State() == Step(old(State()), Call.Snapshot(heartbeat, now))
      ensures r == record
    {
      if heartbeat && record.finishedAt.None? {
        record := record.(heartbeatAt := TrackingTime(now, record.updatedAt));
        record := record.(updatedAt := record.heartbeatAt);
        record := record.(revision := record.revision + 1);
      }
      r := record;
    }
  }
}
