/** The reader of server-sent events: a buffered reader over arbitrary reads, and the frame decoder on
    top of it. Bytes are written as characters. */
module EventStream {
  import opened Wrappers

  const BUFFER_SIZE := 4096
  const EMPTY_READS := 100
  const MAX_RESPONSE_BYTES := 0x100_0000
  const MAX_ERROR_BYTES := 0x1_0000
  const MAX_STREAM_BYTES := MAX_RESPONSE_BYTES + MAX_ERROR_BYTES

  datatype Error = Eof | NoProgress | Transport(code: int) | Protocol

  // ---- what an underlying reader delivers ----

  /** One answer of the underlying reader: some bytes, perhaps none, perhaps together with an error. */
  datatype Read = Data(bytes: string) | Fail(bytes: string, error: Error)

  /** The bytes a sequence of reads delivers before its error, however they are cut; a hundred empty
      reads in a row are an error of their own. */
  function Delivered(script: seq<Read>, empties: nat): (string, Error)
    decreases |script|
  {
    if empties >= EMPTY_READS then ("", NoProgress)
    else if script == [] then ("", Eof)
    else match script[0]
      case Fail(b, e) => (b, e)
      case Data(b) =>
        if b == "" then Delivered(script[1..], empties + 1)
        else var d := Delivered(script[1..], 0); (b + d.0, d.1)
  }

  function Flatten(cuts: seq<string>): string
    decreases |cuts|
  {
    if cuts == [] then "" else cuts[0] + Flatten(cuts[1..])
  }

  function Reads(cuts: seq<string>, last: Read): seq<Read>
    decreases |cuts|
  {
    if cuts == [] then [last] else [Data(cuts[0])] + Reads(cuts[1..], last)
  }

  /** No hundred cuts in a row are empty, counting `empties` just before. */
  predicate Lively(cuts: seq<string>, empties: nat)
    decreases |cuts|
  {
    empties < EMPTY_READS && (cuts == [] || Lively(cuts[1..], if cuts[0] == "" then empties + 1 else 0))
  }

  /** Every partition of the bytes into reads delivers the same bytes and the same error, unless it
      stalls; a partition that stalls delivers a prefix and says so. */
  lemma {:induction false} EveryPartitionDelivers(cuts: seq<string>, last: string, e: Error, empties: nat)
    ensures var d := Delivered(Reads(cuts, Fail(last, e)), empties);
            if Lively(cuts, empties) then d == (Flatten(cuts) + last, e)
            else d.0 <= Flatten(cuts) && d.1 == NoProgress
    decreases |cuts|
  {
    if cuts == [] {
      assert Flatten(cuts) + last == last;
    } else {
      var next, d := if cuts[0] == "" then empties + 1 else 0, Delivered(Reads(cuts[1..], Fail(last, e)), 0);
      assert Reads(cuts, Fail(last, e))[1..] == Reads(cuts[1..], Fail(last, e));
      EveryPartitionDelivers(cuts[1..], last, e, next);
      if cuts[0] == "" {
        assert Flatten(cuts) == Flatten(cuts[1..]);
      } else {
        assert cuts[0] + (Flatten(cuts[1..]) + last) == Flatten(cuts) + last;
        assert d.0 <= Flatten(cuts[1..]) ==> cuts[0] + d.0 <= Flatten(cuts);
      }
    }
  }

  // ---- lines and fields ----

  /** The first place of a character, or the length. */
  function IndexOf(c: char, s: string): (i: nat)
    ensures i <= |s| && (i < |s| ==> s[i] == c)
    ensures forall j :: 0 <= j < i ==> s[j] != c
  {
    IndexFrom(c, s, 0)
  }

  function IndexFrom(c: char, s: string, from: nat): (i: nat)
    requires from <= |s|
    ensures from <= i <= |s| && (i < |s| ==> s[i] == c)
    ensures forall j :: from <= j < i ==> s[j] != c
    decreases |s| - from
  {
    if from == |s| || s[from] == c then from else IndexFrom(c, s, from + 1)
  }

  function StripReturn(s: string): string {
    if s != "" && s[|s| - 1] == '\r' then s[..|s| - 1] else s
  }

  function StripSpace(s: string): string {
    if s != "" && s[0] == ' ' then s[1..] else s
  }

  function StripFeed(s: string): string {
    if s != "" && s[|s| - 1] == '\n' then s[..|s| - 1] else s
  }

  /** The field name and value of a line. */
  function Cut(text: string): (string, string) {
    var c := IndexOf(':', text);
    if c < |text| then (text[..c], StripSpace(text[c + 1..])) else (text, "")
  }

  predicate NoFeed(s: string) { forall j :: 0 <= j < |s| ==> s[j] != '\n' }

  /** What a line says to the decoder. */
  datatype Token = SetKind(value: string) | AddData(value: string) | Blank | Ignore

  /** A line without its line feed; a comment has an empty field name. */
  function TokenOf(raw: string): Token {
    var text := StripReturn(raw);
    if text == "" then Blank
    else
      var (field, value) := Cut(text);
      if field == "event" then SetKind(value) else if field == "data" then AddData(value) else Ignore
  }

  /** The bytes seen as lines: complete ones with their sizes, and the size of what follows the last. */
  datatype Lines = Tail(size: nat) | Line(size: nat, token: Token, more: Lines)

  function LinesOf(s: string): Lines
    decreases |s|
  {
    var i := IndexOf('\n', s);
    if i < |s| then Line(i + 1, TokenOf(s[..i]), LinesOf(s[i + 1..])) else Tail(|s|)
  }

  /** Where the first line feed is, the first line ends. */
  lemma LineIs(text: string, later: string)
    requires NoFeed(text)
    ensures LinesOf(text + "\n" + later) == Line(|text| + 1, TokenOf(text), LinesOf(later))
  {
    var s, n := text + "\n" + later, |text|;
    assert s[n] == '\n' && s[..n] == text && s[n + 1..] == later;
    assert forall j :: 0 <= j < n ==> s[j] == text[j];
    assert IndexOf('\n', s) == n;
  }

  /** A complete line. */
  predicate EndsLine(s: string) { s != "" && s[|s| - 1] == '\n' && NoFeed(s[..|s| - 1]) }

  lemma EndedLine(line: string, later: string)
    requires EndsLine(line)
    ensures LinesOf(line + later) == Line(|line|, TokenOf(StripFeed(line)), LinesOf(later))
  {
    var text := line[..|line| - 1];
    assert line + later == text + "\n" + later;
    LineIs(text, later);
  }

  lemma Joins(a: string, b: string, c: string)
    ensures a + (b + c) == (a + b) + c
  {
  }

  lemma LineEnds(line: string, part: string, later: string)
    requires NoFeed(line) && EndsLine(part)
    ensures EndsLine(line + part) && LinesOf(line + part + later).size == |line + part|
  {
    assert (line + part)[..|line + part| - 1] == line + part[..|part| - 1];
    EndedLine(line + part, later);
  }

  /** A line is at least as long as any part of the bytes without a line feed. */
  lemma LineIsLonger(part: string, later: string)
    requires NoFeed(part)
    ensures LinesOf(part + later).size >= |part|
    ensures NoFeed(later) ==> LinesOf(part + later) == Tail(|part + later|)
  {
    var s := part + later;
    assert forall j :: 0 <= j < |part| ==> s[j] == part[j];
  }

  // ---- the decoder on bytes ----

  datatype Outcome = Frame(kind: string, data: string, rest: Lines, used: nat) | Limit | Broken(error: Error)

  /** What a caller of the reader gets. */
  function Answer(r: Outcome): Result<(string, string), Error> {
    match r
    case Frame(kind, data, _, _) => Ok((kind, data))
    case Limit => Err(Protocol)
    case Broken(e) => Err(e)
  }

  predicate Over(used: nat, size: nat) { used > MAX_STREAM_BYTES || size > MAX_RESPONSE_BYTES }

  /** Why no line can be read from these bytes. */
  function Failing(s: string, e: Error, used: nat, size: nat): Option<Error> {
    var lines := LinesOf(s);
    if Over(used + lines.size, size + lines.size) then Some(Protocol)
    else if lines.Tail? then Some(e)
    else None
  }

  /** A frame being read: the bytes of the stream and of the frame so far, its kind and its data. */
  datatype Scan = Scan(used: nat, size: nat, kind: string, data: string)

  datatype Progress = Go(scan: Scan) | Stop(outcome: Outcome)

  /** The effect of the next line, or of its absence. */
  function Take(lines: Lines, e: Error, scan: Scan): (p: Progress)
    ensures p.Go? ==> lines.Line?
  {
    var used, size := scan.used + lines.size, scan.size + lines.size;
    if Over(used, size) then Stop(Limit)
    else if lines.Tail? then Stop(Broken(e))
    else match lines.token
      case SetKind(value) => Go(Scan(used, size, value, scan.data))
      case AddData(value) => Go(Scan(used, size, scan.kind, scan.data + value + "\n"))
      case Ignore => Go(Scan(used, size, scan.kind, scan.data))
      case Blank =>
        if scan.data == "" then Go(Scan(used, 0, "", ""))
        else Stop(Frame(scan.kind, StripFeed(scan.data), lines.more, used))
  }

  /** The next frame of the lines that end in the error `e`, with no mention of buffers or reads. */
  function Decode(lines: Lines, e: Error, scan: Scan): Outcome
    decreases lines
  {
    match Take(lines, e, scan)
    case Go(next) => Decode(lines.more, e, next)
    case Stop(outcome) => outcome
  }

  /** Nothing read of the next frame yet. */
  function Begin(used: nat): Scan { Scan(used, 0, "", "") }

  // ---- the decoder as it runs ----

  datatype Part = Whole | Full | Failed(error: Error)

  class BufferedReader {
    const capacity: nat
    var script: seq<Read>
    var buffer: string
    var pending: Option<Error>

    predicate Valid()
      reads this
    {
      |buffer| <= capacity && capacity > 0
    }

    /** The bytes still to come. */
    ghost function Rest(): string
      reads this
    {
      if pending.Some? then buffer else buffer + Delivered(script, 0).0
    }

    /** The error behind them. */
    ghost function Ending(): Error
      reads this
    {
      if pending.Some? then pending.value else Delivered(script, 0).1
    }

    constructor (answers: seq<Read>, size: nat)
      requires size > 0
      ensures Valid() && capacity == size && Rest() == Delivered(answers, 0).0 && Ending() == Delivered(answers, 0).1
    {
      capacity := size;
      script, buffer, pending := answers, "", None;
      new;
      assert buffer + Delivered(script, 0).0 == Delivered(script, 0).0;
    }

    /** Read until some bytes or an error arrive. */
    method Fill()
      requires Valid() && pending.None? && |buffer| < capacity
      modifies this
      ensures Valid() && Rest() == old(Rest()) && Ending() == old(Ending())
      ensures pending.Some? || |buffer| > |old(buffer)|
    {
      var tries := 0;
      while tries < EMPTY_READS
        invariant tries <= EMPTY_READS && pending.None? && buffer == old(buffer)
        invariant Delivered(script, tries) == Delivered(old(script), 0)
      {
        if script == [] {
          assert buffer + "" == buffer;
          pending := Some(Eof);
          return;
        }
        var read, room := script[0], capacity - |buffer|;
        if |read.bytes| > room {
          Split(read.bytes, room);
          Regroup(buffer, read.bytes, room, script[1..]);
          script := [read.(bytes := read.bytes[room..])] + script[1..];
          buffer := buffer + read.bytes[..room];
          return;
        }
        script := script[1..];
        if read.Fail? {
          buffer, pending := buffer + read.bytes, Some(read.error);
          return;
        }
        if read.bytes != "" {
          assert buffer + (read.bytes + Delivered(script, 0).0) == buffer + read.bytes + Delivered(script, 0).0;
          buffer := buffer + read.bytes;
          return;
        }
        tries := tries + 1;
      }
      assert buffer + "" == buffer;
      pending := Some(NoProgress);
    }

    /** Read until a line feed, an error or a full buffer. */
    method Refill()
      requires Valid()
      modifies this
      ensures Valid() && Rest() == old(Rest()) && Ending() == old(Ending())
      ensures IndexOf('\n', buffer) < |buffer| || pending.Some? || |buffer| >= capacity
    {
      while IndexOf('\n', buffer) == |buffer| && pending.None? && |buffer| < capacity
        invariant Valid() && Rest() == old(Rest()) && Ending() == old(Ending())
        decreases if pending.Some? then 0 else 1 + capacity - |buffer|
      {
        Fill();
      }
    }

    /** Up to the next line feed, at most a buffer at a time. */
    method ReadSlice() returns (part: string, outcome: Part)
      requires Valid()
      modifies this
      ensures Valid()
      ensures outcome.Failed? ==> part == old(Rest()) && outcome.error == old(Ending())
      ensures !outcome.Failed? ==> old(Rest()) == part + Rest() && Ending() == old(Ending())
      ensures outcome.Whole? ==> part != "" && part[|part| - 1] == '\n' && NoFeed(part[..|part| - 1])
      ensures !outcome.Whole? ==> NoFeed(part)
      ensures |part| <= capacity
      ensures outcome.Full? ==> |part| == capacity
    {
      Refill();
      var i := IndexOf('\n', buffer);
      if i < |buffer| {
        part, outcome := buffer[..i + 1], Whole;
        Splice(buffer, i + 1, Delivered(script, 0).0);
        buffer := buffer[i + 1..];
      } else if pending.Some? {
        part, outcome := buffer, Failed(pending.value);
        buffer, pending := "", None;
      } else {
        part, outcome := buffer, Full;
        Splice(buffer, |buffer|, Delivered(script, 0).0);
        buffer := "";
      }
    }
  }

  lemma Splice(b: string, n: nat, later: string)
    requires n <= |b|
    ensures b + later == b[..n] + (b[n..] + later) && b == b[..n] + b[n..]
    ensures b + later == b + ("" + later)
  {
  }

  lemma Split(b: string, n: nat)
    requires n <= |b|
    ensures b == b[..n] + b[n..]
  {
  }

  lemma Regroup(buffer: string, b: string, n: nat, rest: seq<Read>)
    requires n < |b|
    ensures forall t: string :: buffer + (b + t) == (buffer + b[..n]) + (b[n..] + t)
    ensures buffer + b == (buffer + b[..n]) + b[n..]
    ensures forall read: Read :: ([read] + rest)[1..] == rest
  {
    forall t: string ensures buffer + (b + t) == (buffer + b[..n]) + (b[n..] + t) {
      Split(b, n);
    }
  }

  /** One line: blank, a comment, a kind, more data, or a field that means nothing here. */
  method Classify(raw: string) returns (token: Token)
    ensures token == TokenOf(raw)
  {
    var text := StripReturn(raw);
    if text == "" { return Blank; }
    if text[0] == ':' {
      assert IndexOf(':', text) == 0 && |text[..0]| == 0;
      return Ignore;
    }
    var (field, value) := Cut(text);
    if field == "event" {
      token := SetKind(value);
    } else if field == "data" {
      token := AddData(value);
    } else {
      token := Ignore;
    }
  }

  class StreamReader {
    const reader: BufferedReader
    var bytes: nat

    constructor (answers: seq<Read>)
      ensures fresh(reader) && reader.Valid() && bytes == 0
      ensures At(LinesOf(Delivered(answers, 0).0), Delivered(answers, 0).1)
    {
      reader := new BufferedReader(answers, BUFFER_SIZE);
      bytes := 0;
    }

    /** One part of a line, checked against the limits; `s` is the whole line and what follows. */
    method ReadPart(size: nat, line: string, ghost s: string) returns (longer: string, outcome: Part)
      requires reader.Valid() && s == line + reader.Rest() && NoFeed(line) && |line| <= bytes
      modifies this, reader
      ensures reader.Valid()
      ensures outcome.Full? ==> s == longer + reader.Rest() && NoFeed(longer) && |longer| > |line|
      ensures outcome.Whole? ==> s == longer + reader.Rest() && EndsLine(longer)
      ensures outcome.Failed? ==> Some(outcome.error) == Failing(s, old(reader.Ending()), old(bytes) - |line|, size)
      ensures !outcome.Failed? ==> bytes == old(bytes) + |longer| - |line| && reader.Ending() == old(reader.Ending())
      ensures outcome.Whole? ==> !Over(bytes, size + |longer|)
    {
      var part;
      part, outcome := reader.ReadSlice();
      Joins(line, part, reader.Rest());
      ghost var later := if outcome.Failed? then "" else reader.Rest();
      assert s == (line + part) + later;
      if outcome.Whole? { LineEnds(line, part, later); } else { LineIsLonger(line + part, later); }
      bytes := bytes + |part|;
      longer := line + part;
      if Over(bytes, size + |longer|) { return "", Failed(Protocol); }
    }

    /** One line, checked against the limits after every part. */
    method ReadLine(size: nat) returns (line: string, failure: Option<Error>)
      requires reader.Valid()
      modifies this, reader
      ensures reader.Valid()
      ensures failure.Some? ==> failure == Failing(old(reader.Rest()), old(reader.Ending()), old(bytes), size)
      ensures failure.None? ==>
                && old(reader.Rest()) == line + reader.Rest() && EndsLine(line)
                && !Over(bytes, size + |line|) && bytes == old(bytes) + |line|
                && reader.Ending() == old(reader.Ending())
    {
      ghost var s := reader.Rest();
      line := "";
      while true
        invariant reader.Valid() && s == line + reader.Rest() && reader.Ending() == old(reader.Ending())
        invariant NoFeed(line) && bytes == old(bytes) + |line|
        decreases |s| - |line|
      {
        var longer, outcome := ReadPart(size, line, s);
        if outcome.Failed? { return "", Some(outcome.error); }
        line := longer;
        if outcome.Whole? { return line, None; }
      }
    }

    /** The reader stands before these lines and this error. */
    ghost predicate At(lines: Lines, e: Error)
      reads reader
    {
      lines == LinesOf(reader.Rest()) && e == reader.Ending()
    }

    method ReadToken(size: nat, ghost lines: Lines, ghost e: Error)
      returns (token: Token, n: nat, failure: Option<Error>)
      requires reader.Valid() && At(lines, e)
      modifies this, reader
      ensures reader.Valid()
      ensures if Over(old(bytes) + lines.size, size + lines.size) then failure == Some(Protocol)
              else if lines.Tail? then failure == Some(e)
              else
                && failure == None && token == lines.token && n == lines.size
                && At(lines.more, e) && bytes == old(bytes) + n
    {
      ghost var s := reader.Rest();
      var line, ended := ReadLine(size);
      if ended.Some? { return Blank, 0, ended; }
      EndedLine(line, reader.Rest());
      token := Classify(StripFeed(line));
      return token, |line|, None;
    }

    /** One line of a frame: the frame goes on, is ready, or cannot be read. */
    method Advance(size: nat, kind: string, data: string, ghost lines: Lines, ghost e: Error)
      returns (ready: Option<Result<(string, string), Error>>, size': nat, kind': string, data': string)
      requires reader.Valid() && At(lines, e)
      modifies this, reader
      ensures reader.Valid()
      ensures var p := Take(lines, e, Scan(old(bytes), size, kind, data));
              if ready.None? then p == Go(Scan(bytes, size', kind', data')) && At(lines.more, e)
              else
                && p.Stop? && ready.value == Answer(p.outcome)
                && (p.outcome.Frame? ==> At(p.outcome.rest, e) && bytes == p.outcome.used)
    {
      var token, n, failure := ReadToken(size, lines, e);
      ready, size', kind', data' := None, size + n, kind, data;
      if failure.Some? { return Some(Err(failure.value)), size', kind', data'; }
      match token {
        case Blank =>
          if data != "" { return Some(Ok((kind, StripFeed(data)))), size', kind', data'; }
          size', kind', data' := 0, "", "";
        case SetKind(value) => kind' := value;
        case AddData(value) => data' := data + value + "\n";
        case Ignore =>
      }
    }

    /** The next frame: exactly what `Decode` says of the bytes, whatever the reads were. */
    method ReadFrame(ghost lines: Lines, ghost e: Error) returns (r: Result<(string, string), Error>)
      requires reader.Valid() && At(lines, e)
      modifies this, reader
      ensures reader.Valid()
      ensures var whole := Decode(lines, e, Begin(old(bytes)));
              r == Answer(whole) && (whole.Frame? ==> At(whole.rest, e) && bytes == whole.used)
    {
      var kind, data, size: nat := "", "", 0;
      ghost var left, whole := lines, Decode(lines, e, Begin(bytes));
      while true
        invariant reader.Valid() && At(left, e)
        invariant Decode(left, e, Scan(bytes, size, kind, data)) == whole
        decreases left
      {
        var ready;
        ready, size, kind, data := Advance(size, kind, data, left, e);
        if ready.Some? { return ready.value; }
        left := left.more;
      }
    }
  }
}
