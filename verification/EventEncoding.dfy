/** Writing events and reading them back. */
module EventEncoding {
  import opened EventStream

  /** Data cut at its line feeds. */
  datatype Chunks = Last(line: string) | Then(line: string, more: Chunks)

  function Chop(data: string): Chunks
    decreases |data|
  {
    var k := IndexOf('\n', data);
    if k == |data| then Last(data) else Then(data[..k], Chop(data[k + 1..]))
  }

  function Joined(c: Chunks): string {
    match c
    case Last(line) => line
    case Then(line, more) => line + "\n" + Joined(more)
  }

  function Prefixed(name: string, value: string): string { name + ": " + value }

  function Field(name: string, value: string): string { Prefixed(name, value) + "\n" }

  /** One data field for each line, and a blank line. */
  function DataFields(c: Chunks): string {
    match c
    case Last(line) => Field("data", line) + "\n"
    case Then(line, more) => Field("data", line) + DataFields(more)
  }

  /** An event as the server writes it. */
  function Encode(kind: string, data: string): string {
    Field("event", kind) + DataFields(Chop(data))
  }

  // ---- what comes back ----

  /** The data with one carriage return dropped from the end of every line. */
  function Stripped(c: Chunks): string {
    match c
    case Last(line) => StripReturn(line)
    case Then(line, more) => StripReturn(line) + "\n" + Stripped(more)
  }

  predicate EndsInReturn(s: string) { s != "" && s[|s| - 1] == '\r' }

  predicate AnyEndsInReturn(c: Chunks) { EndsInReturn(c.line) || (c.Then? && AnyEndsInReturn(c.more)) }

  predicate OneLiners(c: Chunks) { NoFeed(c.line) && (c.Then? ==> OneLiners(c.more)) }

  /** Exactly the data in which no line ends in a carriage return is unchanged; any other gets shorter. */
  lemma {:induction false} StrippedExact(c: Chunks)
    ensures |Stripped(c)| <= |Joined(c)|
    ensures |Stripped(c)| == |Joined(c)| <==> !AnyEndsInReturn(c)
    ensures !AnyEndsInReturn(c) ==> Stripped(c) == Joined(c)
    decreases c
  {
    if c.Then? { StrippedExact(c.more); }
  }

  /** A carriage return ends a line of the data. */
  predicate ReturnEndsLine(data: string) {
    exists i :: 0 <= i < |data| && data[i] == '\r' && (i + 1 == |data| || data[i + 1] == '\n')
  }

  /** Cutting loses nothing. */
  lemma {:induction false} ChopJoins(data: string)
    ensures Joined(Chop(data)) == data && OneLiners(Chop(data))
    ensures AnyEndsInReturn(Chop(data)) <==> ReturnEndsLine(data)
    decreases |data|
  {
    var k := IndexOf('\n', data);
    if k == |data| {
      LastLine(data);
    } else {
      ChopJoins(data[k + 1..]);
      assert data == data[..k] + "\n" + data[k + 1..];
      SplitLines(data, k);
    }
  }

  lemma LastLine(data: string)
    requires IndexOf('\n', data) == |data|
    ensures ReturnEndsLine(data) <==> EndsInReturn(data)
  {
    if data != "" && data[|data| - 1] == '\r' {
      var i := |data| - 1;
      assert data[i] == '\r' && i + 1 == |data|;
    }
  }

  lemma SplitLines(data: string, k: nat)
    requires k == IndexOf('\n', data) < |data|
    ensures ReturnEndsLine(data) <==> EndsInReturn(data[..k]) || ReturnEndsLine(data[k + 1..])
  {
    var first, rest := data[..k], data[k + 1..];
    if EndsInReturn(first) {
      assert data[k - 1] == '\r' && data[k - 1 + 1] == '\n';
    }
    if ReturnEndsLine(rest) {
      var i :| 0 <= i < |rest| && rest[i] == '\r' && (i + 1 == |rest| || rest[i + 1] == '\n');
      assert data[k + 1 + i] == '\r' && (k + 1 + i + 1 == |data| || data[k + 1 + i + 1] == '\n');
    }
    if ReturnEndsLine(data) {
      var i :| 0 <= i < |data| && data[i] == '\r' && (i + 1 == |data| || data[i + 1] == '\n');
      if i > k {
        assert rest[i - k - 1] == '\r' && (i - k == |rest| || rest[i - k - 1 + 1] == '\n');
      } else {
        assert i + 1 == k && first[|first| - 1] == '\r';
      }
    }
  }

  // ---- the lines of an encoded event ----

  lemma FieldParts(name: string, value: string)
    requires name == "event" || name == "data"
    ensures Cut(Prefixed(name, value)) == (name, value)
  {
    var text, n := Prefixed(name, value), |name|;
    assert ':' !in name;
    assert text[n] == ':' && text[..n] == name;
    assert IndexOf(':', text) == n;
    assert text[n + 1..] == " " + value && StripSpace(" " + value) == value;
  }

  lemma StripPrefixed(name: string, value: string)
    ensures StripReturn(Prefixed(name, value)) == Prefixed(name, StripReturn(value))
    ensures Prefixed(name, StripReturn(value)) != ""
  {
  }

  lemma TokenIs(value: string)
    ensures TokenOf(Prefixed("event", value)) == SetKind(StripReturn(value))
    ensures TokenOf(Prefixed("data", value)) == AddData(StripReturn(value))
  {
    StripPrefixed("event", value);
    FieldParts("event", StripReturn(value));
    StripPrefixed("data", value);
    FieldParts("data", StripReturn(value));
    assert |"data"| != |"event"|;
  }

  function DataLines(c: Chunks, later: Lines): Lines {
    match c
    case Last(line) => Line(|Field("data", line)|, AddData(StripReturn(line)), Line(1, Blank, later))
    case Then(line, more) => Line(|Field("data", line)|, AddData(StripReturn(line)), DataLines(more, later))
  }

  lemma FieldLine(name: string, value: string, later: string)
    requires (name == "event" || name == "data") && NoFeed(value)
    ensures LinesOf(Field(name, value) + later)
            == Line(|Field(name, value)|, TokenOf(Prefixed(name, value)), LinesOf(later))
  {
    assert NoFeed(name) && NoFeed(": ");
    LineIs(Prefixed(name, value), later);
  }

  lemma {:induction false} DataFieldLines(c: Chunks, later: string)
    requires OneLiners(c)
    ensures LinesOf(DataFields(c) + later) == DataLines(c, LinesOf(later))
    decreases c
  {
    TokenIs(c.line);
    match c
    case Last(line) =>
      Joins(Field("data", line), "\n", later);
      FieldLine("data", line, "\n" + later);
      BlankLine(later);
    case Then(line, more) =>
      Joins(Field("data", line), DataFields(more), later);
      FieldLine("data", line, DataFields(more) + later);
      DataFieldLines(more, later);
  }

  lemma BlankLine(later: string)
    ensures LinesOf("\n" + later) == Line(1, Blank, LinesOf(later))
  {
    LineIs("", later);
    assert "\n" + later == "" + "\n" + later;
  }

  function EventLines(kind: string, data: string, later: Lines): Lines {
    Line(|Field("event", kind)|, SetKind(StripReturn(kind)), DataLines(Chop(data), later))
  }

  lemma EncodedLines(kind: string, data: string, later: string)
    requires NoFeed(kind)
    ensures LinesOf(Encode(kind, data) + later) == EventLines(kind, data, LinesOf(later))
  {
    var rest := DataFields(Chop(data)) + later;
    assert Encode(kind, data) + later == Field("event", kind) + rest;
    FieldLine("event", kind, rest);
    TokenIs(kind);
    ChopJoins(data);
    DataFieldLines(Chop(data), later);
  }

  // ---- reading them ----

  /** The outcome of reading `n` more bytes that complete a frame. */
  function Completed(scan: Scan, n: nat, data: string, later: Lines): Outcome {
    if Over(scan.used + n, scan.size + n) then Limit else Frame(scan.kind, data, later, scan.used + n)
  }

  lemma DataThen(size: nat, value: string, more: Lines, e: Error, scan: Scan, n: nat, data: string, later: Lines)
    requires var next := Scan(scan.used + size, scan.size + size, scan.kind, scan.data + value + "\n");
             Decode(more, e, next) == Completed(next, n, data, later)
    ensures Decode(Line(size, AddData(value), more), e, scan) == Completed(scan, size + n, data, later)
  {
  }

  lemma KindThen(size: nat, value: string, more: Lines, e: Error, used: nat, n: nat, data: string, later: Lines)
    requires var next := Scan(used + size, size, value, "");
             Decode(more, e, next) == Completed(next, n, data, later)
    ensures Decode(Line(size, SetKind(value), more), e, Begin(used))
            == Completed(Scan(used, 0, value, ""), size + n, data, later)
  {
  }

  lemma BlankThen(later: Lines, e: Error, scan: Scan, data: string)
    requires scan.data == data + "\n"
    ensures Decode(Line(1, Blank, later), e, scan) == Completed(scan, 1, data, later)
  {
    assert StripFeed(scan.data) == data;
  }

  /** The decoder reads the data fields and the blank line behind them. */
  lemma {:induction false} ReadDataLines(c: Chunks, later: Lines, e: Error, scan: Scan)
    ensures Decode(DataLines(c, later), e, scan)
            == Completed(scan, |DataFields(c)|, scan.data + Stripped(c), later)
    decreases c
  {
    var n, value := |Field("data", c.line)|, StripReturn(c.line);
    var next := Scan(scan.used + n, scan.size + n, scan.kind, scan.data + value + "\n");
    match c
    case Last(line) =>
      BlankThen(later, e, next, scan.data + value);
      DataThen(n, value, Line(1, Blank, later), e, scan, 1, scan.data + value, later);
    case Then(line, more) =>
      ReadDataLines(more, later, e, next);
      assert next.data + Stripped(more) == scan.data + Stripped(c);
      DataThen(n, value, DataLines(more, later), e, scan, |DataFields(more)|, scan.data + Stripped(c), later);
  }

  /** What the decoder makes of every encoded event whose kind is one line. */
  lemma DecodeEvent(kind: string, data: string, later: Lines, e: Error, used: nat)
    ensures Decode(EventLines(kind, data, later), e, Begin(used))
            == Completed(Scan(used, 0, StripReturn(kind), ""), |Encode(kind, data)|, Stripped(Chop(data)), later)
  {
    var c, n := Chop(data), |Field("event", kind)|;
    ReadDataLines(c, later, e, Scan(used + n, n, StripReturn(kind), ""));
    assert "" + Stripped(c) == Stripped(c);
    KindThen(n, StripReturn(kind), DataLines(c, later), e, used, |DataFields(c)|, Stripped(c), later);
  }

  /** An event that can be read back. */
  predicate CleanEvent(kind: string, data: string) {
    NoFeed(kind) && !EndsInReturn(kind) && !ReturnEndsLine(data)
  }

  lemma DecodeEventIff(kind: string, data: string, later: Lines, e: Error, used: nat)
    requires NoFeed(kind)
    ensures var n := |Encode(kind, data)|;
            Decode(EventLines(kind, data, later), e, Begin(used)) == Frame(kind, data, later, used + n)
            <==> CleanEvent(kind, data) && !Over(used + n, n)
  {
    DecodeEvent(kind, data, later, e, used);
    ChopJoins(data);
    StrippedExact(Chop(data));
  }

  /** No kind holds a line feed. */
  predicate KindsOnly(lines: Lines) {
    lines.Line? ==> (lines.token.SetKind? ==> NoFeed(lines.token.value)) && KindsOnly(lines.more)
  }

  lemma CutNoFeed(raw: string)
    requires NoFeed(raw)
    ensures NoFeed(Cut(StripReturn(raw)).1)
  {
    var text := StripReturn(raw);
    assert NoFeed(text);
    var c := IndexOf(':', text);
    if c < |text| {
      var value := text[c + 1..];
      assert NoFeed(value);
    }
  }

  lemma {:induction false} LinesOfKinds(s: string)
    ensures KindsOnly(LinesOf(s))
    decreases |s|
  {
    var i := IndexOf('\n', s);
    if i < |s| {
      CutNoFeed(s[..i]);
      LinesOfKinds(s[i + 1..]);
    }
  }

  /** No decoded kind holds a line feed. */
  lemma {:induction false} KindIsOneLine(lines: Lines, e: Error, scan: Scan)
    requires KindsOnly(lines) && NoFeed(scan.kind)
    ensures var r := Decode(lines, e, scan); r.Frame? ==> NoFeed(r.kind)
    decreases lines
  {
    if lines.Line? {
      var t := Take(lines, e, scan);
      if t.Go? { KindIsOneLine(lines.more, e, t.scan); }
    }
  }

  /** Reading back an encoded event gives it exactly when the kind is one line, neither the kind nor a
      line of the data ends in a carriage return, and the event fits the limits. */
  lemma RoundTripIff(kind: string, data: string, later: string, e: Error, used: nat)
    ensures var n := |Encode(kind, data)|;
            Decode(LinesOf(Encode(kind, data) + later), e, Begin(used)) == Frame(kind, data, LinesOf(later), used + n)
            <==> CleanEvent(kind, data) && !Over(used + n, n)
  {
    if !NoFeed(kind) {
      LinesOfKinds(Encode(kind, data) + later);
      KindIsOneLine(LinesOf(Encode(kind, data) + later), e, Begin(used));
    } else {
      EncodedLines(kind, data, later);
      DecodeEventIff(kind, data, LinesOf(later), e, used);
    }
  }

  // ---- whole streams ----

  lemma {:induction false} FrameIsShorter(lines: Lines, e: Error, scan: Scan)
    ensures var r := Decode(lines, e, scan); r.Frame? ==> r.rest < lines
    decreases lines
  {
    if lines.Line? {
      var t := Take(lines, e, scan);
      if t.Go? { FrameIsShorter(lines.more, e, t.scan); }
    }
  }

  /** The frames of a stream and the error that ends it. */
  datatype Reading = Ended(error: Error) | Got(kind: string, data: string, more: Reading)

  function Frames(lines: Lines, e: Error, used: nat): Reading
    decreases lines
  {
    FrameIsShorter(lines, e, Begin(used));
    match Decode(lines, e, Begin(used))
    case Frame(kind, data, rest, now) => Got(kind, data, Frames(rest, e, now))
    case Limit => Ended(Protocol)
    case Broken(error) => Ended(error)
  }

  function EncodeAll(r: Reading): string {
    match r
    case Ended(_) => ""
    case Got(kind, data, more) => Encode(kind, data) + EncodeAll(more)
  }

  function EndOf(r: Reading): Error {
    match r
    case Ended(e) => e
    case Got(_, _, more) => EndOf(more)
  }

  /** Every event can be read back and fits a response. */
  predicate Clean(r: Reading) {
    r.Got? ==> CleanEvent(r.kind, r.data) && |Encode(r.kind, r.data)| <= MAX_RESPONSE_BYTES && Clean(r.more)
  }

  function StreamLines(r: Reading): Lines {
    match r
    case Ended(_) => Tail(0)
    case Got(kind, data, more) => EventLines(kind, data, StreamLines(more))
  }

  function StreamSize(r: Reading): nat {
    match r
    case Ended(_) => 0
    case Got(kind, data, more) => |Encode(kind, data)| + StreamSize(more)
  }

  lemma {:induction false} EncodedStream(r: Reading)
    requires Clean(r)
    ensures LinesOf(EncodeAll(r)) == StreamLines(r) && |EncodeAll(r)| == StreamSize(r)
    decreases r
  {
    match r
    case Ended(_) =>
      assert LinesOf("") == Tail(0);
    case Got(kind, data, more) =>
      EncodedStream(more);
      EncodedLines(kind, data, EncodeAll(more));
  }

  lemma FramesThen(lines: Lines, e: Error, used: nat, rest: Lines, now: nat, r: Reading)
    requires r.Got? && Decode(lines, e, Begin(used)) == Frame(r.kind, r.data, rest, now)
    requires Frames(rest, e, now) == r.more
    ensures Frames(lines, e, used) == r
  {
  }

  lemma {:induction false} FramesOfStream(r: Reading, used: nat)
    requires Clean(r) && used + StreamSize(r) <= MAX_STREAM_BYTES
    ensures Frames(StreamLines(r), EndOf(r), used) == r
    decreases r
  {
    match r
    case Ended(e) =>
      assert Take(Tail(0), e, Begin(used)) == Stop(Broken(e));
    case Got(kind, data, more) =>
      var n, rest, e := |Encode(kind, data)|, StreamLines(more), EndOf(more);
      FramesOfStream(more, used + n);
      DecodeEventIff(kind, data, rest, e, used);
      FramesThen(EventLines(kind, data, rest), e, used, rest, used + n, r);
  }

  /** Any number of clean events written one after the other within the stream limit are read back
      exactly, followed by the error that ends the stream. */
  lemma StreamRoundTrip(events: Reading, used: nat)
    requires Clean(events) && used + |EncodeAll(events)| <= MAX_STREAM_BYTES
    ensures Frames(LinesOf(EncodeAll(events)), EndOf(events), used) == events
  {
    EncodedStream(events);
    FramesOfStream(events, used);
  }
}
