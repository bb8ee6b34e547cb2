/** The text operations of the two event collectors, reduced to lines. */
module EventText {
  import opened EventStream
  import opened EventEncoding
  import opened ByteText

  /** Every "\r\n" replaced by "\n". */
  function Unify(s: string): string
    decreases |s|
  {
    if s == "" then ""
    else if |s| >= 2 && s[0] == '\r' && s[1] == '\n' then "\n" + Unify(s[2..])
    else [s[0]] + Unify(s[1..])
  }

  /** Text put in front of the first piece. */
  function Push(text: string, c: Chunks): Chunks { c.(line := text + c.line) }

  /** The pieces between the places where two line feeds meet, leftmost first. */
  function SplitBlocks(s: string): Chunks
    decreases |s|
  {
    if s == "" then Last("")
    else if |s| >= 2 && s[0] == '\n' && s[1] == '\n' then Then("", SplitBlocks(s[2..]))
    else Push([s[0]], SplitBlocks(s[1..]))
  }

  /** The value of a data line. */
  function Value(line: string): seq<string> {
    if |line| >= 5 && line[..5] == "data:" then [TrimBytes(line[5..])] else []
  }

  function Values(c: Chunks): seq<string> {
    match c
    case Last(line) => Value(line)
    case Then(line, more) => Value(line) + Values(more)
  }

  /** Lines as the whole-body collector looks at them. */
  function Bare(c: Chunks): Chunks {
    match c
    case Last(line) => Last(StripReturn(line))
    case Then(line, more) => Then(StripReturn(line), Bare(more))
  }

  // ---- lines at the front ----

  lemma ChopFront(line: string, rest: string)
    requires NoFeed(line)
    ensures Chop(line + "\n" + rest) == Then(line, Chop(rest))
  {
    var s, n := line + "\n" + rest, |line|;
    assert s[n] == '\n' && s[..n] == line && s[n + 1..] == rest;
    assert forall j :: 0 <= j < n ==> s[j] == line[j];
    assert IndexOf('\n', s) == n;
  }

  lemma ChopLast(line: string)
    requires NoFeed(line)
    ensures Chop(line) == Last(line)
  {
  }

  lemma {:induction false} UnifyFront(line: string, rest: string)
    requires NoFeed(line)
    ensures Unify(line + "\n" + rest) == StripReturn(line) + "\n" + Unify(rest)
    decreases |line|
  {
    if line == "" {
      assert (line + "\n" + rest)[1..] == rest;
    } else if |line| == 1 && line[0] == '\r' {
      assert (line + "\n" + rest)[2..] == rest;
    } else {
      UnifyFront(line[1..], rest);
      UnifyStep(line, rest);
    }
  }

  lemma UnifyHead(s: string)
    requires s != "" && !(|s| >= 2 && s[0] == '\r' && s[1] == '\n')
    ensures Unify(s) == [s[0]] + Unify(s[1..])
  {
  }

  lemma StripHead(line: string)
    requires line != "" && !(|line| == 1 && line[0] == '\r')
    ensures StripReturn(line) == [line[0]] + StripReturn(line[1..])
  {
  }

  lemma UnifyStep(line: string, rest: string)
    requires NoFeed(line) && line != "" && !(|line| == 1 && line[0] == '\r')
    requires Unify(line[1..] + "\n" + rest) == StripReturn(line[1..]) + "\n" + Unify(rest)
    ensures Unify(line + "\n" + rest) == StripReturn(line) + "\n" + Unify(rest)
  {
    var s, tail := line + "\n" + rest, line[1..];
    assert s[1..] == tail + "\n" + rest && s[0] == line[0];
    assert |line| >= 2 ==> s[1] == line[1];
    UnifyHead(s);
    StripHead(line);
    Joins([line[0]], StripReturn(tail), "\n");
    Joins([line[0]], StripReturn(tail) + "\n", Unify(rest));
  }

  lemma {:induction false} UnifyLast(line: string)
    requires NoFeed(line)
    ensures Unify(line) == line
    decreases |line|
  {
    if line != "" {
      UnifyLast(line[1..]);
      assert line == [line[0]] + line[1..];
    }
  }

  lemma {:induction false} SplitFront(line: string, rest: string)
    requires NoFeed(line)
    ensures SplitBlocks(line + rest) == Push(line, SplitBlocks(rest))
    decreases |line|
  {
    if line == "" {
      assert line + rest == rest && line + SplitBlocks(rest).line == SplitBlocks(rest).line;
    } else {
      var s, tail := line + rest, line[1..];
      assert s[1..] == tail + rest && s[0] != '\n';
      SplitFront(tail, rest);
      var b := SplitBlocks(rest);
      assert [line[0]] + (tail + b.line) == line + b.line;
    }
  }

  // ---- carriage returns do not matter to values ----

  lemma ValueStrip(line: string)
    ensures Value(StripReturn(line)) == Value(line)
  {
    if line != "" && line[|line| - 1] == '\r' {
      var bare := StripReturn(line);
      assert line == bare + "\r";
      if |bare| >= 5 {
        assert line[..5] == bare[..5] && line[5..] == bare[5..] + "\r";
        TrimReturn(bare[5..]);
      } else if |line| == 5 {
        assert line[..5][4] == '\r';
      }
    }
  }

  // ---- values of text built from the back ----

  /** Whole lines, the latest last. */
  datatype Rows = Zero | Row(before: Rows, line: string)

  function TextOf(rows: Rows): string {
    match rows
    case Zero => ""
    case Row(before, line) => TextOf(before) + (line + "\n")
  }

  function RowValues(rows: Rows): seq<string> {
    match rows
    case Zero => []
    case Row(before, line) => RowValues(before) + Value(line)
  }

  predicate RowsOnly(rows: Rows) { rows.Row? ==> NoFeed(rows.line) && RowsOnly(rows.before) }

  /** The values the incremental collector finds in a block. */
  function Found(block: string): seq<string> { Values(Chop(Unify(block))) }

  /** The values the whole-body collector finds in a block. */
  function Listed(block: string): seq<string> { Values(Bare(Chop(block))) }

  lemma StrippedNoFeed(line: string)
    requires NoFeed(line)
    ensures NoFeed(StripReturn(line))
  {
  }

  lemma FoundFront(line: string, rest: string)
    requires NoFeed(line)
    ensures Found(line + "\n" + rest) == Value(line) + Found(rest)
  {
    UnifyFront(line, rest);
    StrippedNoFeed(line);
    ChopFront(StripReturn(line), Unify(rest));
    ValueStrip(line);
  }

  lemma FoundLast(line: string)
    requires NoFeed(line)
    ensures Found(line) == Value(line)
  {
    UnifyLast(line);
    ChopLast(line);
  }

  lemma {:induction false} FoundRows(rows: Rows, x: string)
    requires RowsOnly(rows)
    ensures Found(TextOf(rows) + x) == RowValues(rows) + Found(x)
    decreases rows
  {
    match rows
    case Zero =>
      assert TextOf(rows) + x == x;
    case Row(before, line) =>
      var more := line + "\n" + x;
      Joins(TextOf(before), line + "\n", x);
      FoundRows(before, more);
      FoundFront(line, x);
      assert RowValues(before) + (Value(line) + Found(x)) == RowValues(before) + Value(line) + Found(x);
  }

  lemma ListedFront(line: string, rest: string)
    requires NoFeed(line)
    ensures Listed(line + "\n" + rest) == Value(line) + Listed(rest)
  {
    ChopFront(line, rest);
    ValueStrip(line);
  }

  lemma {:induction false} ListedRows(rows: Rows, x: string)
    requires RowsOnly(rows)
    ensures Listed(TextOf(rows) + x) == RowValues(rows) + Listed(x)
    decreases rows
  {
    match rows
    case Zero =>
      assert TextOf(rows) + x == x;
    case Row(before, line) =>
      var more := line + "\n" + x;
      Joins(TextOf(before), line + "\n", x);
      ListedRows(before, more);
      ListedFront(line, x);
      assert RowValues(before) + (Value(line) + Listed(x)) == RowValues(before) + Value(line) + Listed(x);
  }

  lemma ListedLast(line: string)
    requires NoFeed(line)
    ensures Listed(line) == Value(line)
  {
    ChopLast(line);
    ValueStrip(line);
  }
}
