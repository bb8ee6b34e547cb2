/** The two collectors of a Responses event stream: one that reads a connection line by line and stops
    at the first terminal event, and one that splits a whole body into blocks. Decoding an event and
    validating a completion are given as functions. */
module ResponsesCollector {
  import opened Wrappers
  import opened EventStream
  import opened EventEncoding
  import opened EventText
  import opened ByteText

  const READ_BUFFER := 32768
  const DEFAULT_MAXIMUM := 0x100_0000

  /** A response object, of which only the status matters here. */
  datatype Object = Object(body: string, status: Option<string>)

  datatype Problem =
    | MalformedStream | CompletionMalformed | TooLarge | TerminalRequired
    | Invalid(code: int) | StreamFailed(code: int) | ReadFailed(cause: Error)

  /** What an event says; a response that is missing, no object or empty is None. */
  datatype Parsed =
    | Malformed | Progress | Completed(response: Option<Object>)
    | Incomplete(response: Option<Object>) | Failure(response: Option<Object>, code: int)

  datatype Api = Api(decode: string -> Parsed, validate: Object -> Option<Problem>)

  datatype Held = Held(terminal: Option<Object>, observed: Option<Object>)

  datatype Reply = Reply(response: Option<Object>, problem: Option<Problem>)

  function Nothing(): Held { Held(None, None) }

  function Join(values: seq<string>): string
    decreases |values|
  {
    if |values| == 0 then "" else if |values| == 1 then values[0] else values[0] + "\n" + Join(values[1..])
  }

  predicate Skipped(data: string) { data == "" || data == "[DONE]" }

  function WithStatus(o: Object, status: string): Object {
    if o.status.None? then o.(status := Some(status)) else o
  }

  function Latest(observed: Option<Object>, response: Option<Object>): Option<Object> {
    if response.Some? then response else observed
  }

  /** The status is filled in on the observed object itself, or on a new one when there is none. */
  function FilledIn(observed: Option<Object>, status: string): Object {
    WithStatus(if observed.Some? then observed.value else Object("", None), status)
  }

  function Kept(observed: Option<Object>, status: string): Option<Object> {
    if observed.Some? then Some(WithStatus(observed.value, status)) else None
  }

  // ---- one event ----

  datatype Effect = Effect(held: Held, stop: bool, problem: Option<Problem>)

  /** One event as the reader of a connection treats it. */
  function Process(api: Api, h: Held, data: string): Effect {
    if Skipped(data) then Effect(h, false, None)
    else match api.decode(data)
      case Malformed => Effect(h, false, Some(MalformedStream))
      case Progress => Effect(h, false, None)
      case Completed(None) => Effect(h, false, Some(CompletionMalformed))
      case Completed(Some(r)) => var t := WithStatus(r, "completed"); Effect(Held(Some(t), Some(t)), true, None)
      case Incomplete(r) =>
        var o := Latest(h.observed, r);
        Effect(h.(observed := Kept(o, "incomplete")), true, api.validate(FilledIn(o, "incomplete")))
      case Failure(r, code) => Effect(h.(observed := Latest(h.observed, r)), true, Some(StreamFailed(code)))
  }

  datatype BodyStep = Continue(held: Held) | Return(reply: Reply)

  /** One event as the collector of a whole body treats it. */
  function Look(api: Api, h: Held, data: string): BodyStep {
    if Skipped(data) then Continue(h)
    else match api.decode(data)
      case Malformed => Return(Reply(h.observed, Some(MalformedStream)))
      case Progress => Continue(h)
      case Completed(None) => Return(Reply(h.observed, Some(CompletionMalformed)))
      case Completed(Some(r)) => var t := WithStatus(r, "completed"); Continue(Held(Some(t), Some(t)))
      case Incomplete(r) =>
        var o := Latest(h.observed, r);
        Return(Reply(Kept(o, "incomplete"), api.validate(FilledIn(o, "incomplete"))))
      case Failure(r, code) => Return(Reply(Latest(h.observed, r), Some(StreamFailed(code))))
  }

  function TerminalOrObserved(h: Held): Option<Object> { if h.terminal.Some? then h.terminal else h.observed }

  /** The reply that ends the reading of a connection. */
  function Ending(p: Effect): Reply
  {
    if p.problem.Some? then Reply(p.held.observed, p.problem) else Reply(TerminalOrObserved(p.held), None)
  }

  predicate Ends(p: Effect) { p.problem.Some? || p.stop }

  /** The reply at the end of a whole body. */
  function Missing(h: Held): Reply {
    if h.terminal.Some? then Reply(h.terminal, None) else Reply(h.observed, Some(TerminalRequired))
  }

  // ---- the whole body ----

  function BodyBlocks(api: Api, h: Held, blocks: Chunks): Reply
    decreases blocks
  {
    match Look(api, h, Join(Listed(blocks.line)))
    case Return(reply) => reply
    case Continue(now) => if blocks.Last? then Missing(now) else BodyBlocks(api, now, blocks.more)
  }

  function CollectBody(api: Api, body: string): Reply { BodyBlocks(api, Nothing(), SplitBlocks(Unify(body))) }

  // ---- the connection ----

  /** The pieces in which a buffered reader hands out bytes: lines with their line feed, full buffers,
      and what is left before the error. */
  datatype Pieces = End(text: string) | Piece(text: string, more: Pieces)

  function PiecesOf(s: string, size: nat): Pieces
    requires size > 0
    decreases |s|
  {
    var i := IndexOf('\n', s);
    if i < |s| && i < size then Piece(s[..i + 1], PiecesOf(s[i + 1..], size))
    else if |s| >= size then Piece(s[..size], PiecesOf(s[size..], size))
    else End(s)
  }

  predicate BlankText(line: string) { TrimBytes(StripReturn(line)) == "" }

  /** How the reader of a connection treats a block: finding its data values, telling a blank line, and
      acting on an event. */
  datatype Handler = Handler(find: string -> seq<string>, blank: string -> bool, process: (Held, seq<string>) -> Effect)

  function Connection(api: Api): Handler {
    Handler(Found, BlankText, (h: Held, values: seq<string>) => Process(api, h, Join(values)))
  }

  /** What the reader of a connection carries from piece to piece. */
  datatype Carry = Carry(held: Held, block: string, received: nat)

  datatype PieceStep = More(carry: Carry) | Halt(reply: Reply)

  /** One piece: it is added to the block, and a blank one ends the block. */
  function TakePiece(k: Handler, c: Carry, text: string, maximum: nat): PieceStep {
    var now, all := c.received + |text|, c.block + text;
    if now > maximum then Halt(Reply(c.held.observed, Some(TooLarge)))
    else if !k.blank(StripFeed(text)) then More(Carry(c.held, all, now))
    else Settle(k.process(c.held, k.find(all)), now)
  }

  /** After the event of a block: stop, or start the next block. */
  function Settle(p: Effect, received: nat): PieceStep {
    if Ends(p) then Halt(Ending(p)) else More(Carry(p.held, "", received))
  }

  /** The last piece, and the block it leaves at the end of the stream. */
  function TakeLast(k: Handler, c: Carry, text: string, e: Error, maximum: nat): Reply {
    match TakePiece(k, c, text, maximum)
    case Halt(reply) => reply
    case More(now) =>
      var p := k.process(now.held, k.find(now.block));
      if e != Eof then Reply(now.held.observed, Some(ReadFailed(e)))
      else if now.block != "" && Ends(p) then Ending(p)
      else Reply((if now.block != "" then p.held else now.held).observed, Some(TerminalRequired))
  }

  /** The reply for the pieces that end in the error `e`. */
  function CollectPieces(k: Handler, c: Carry, pieces: Pieces, e: Error, maximum: nat): Reply
    decreases pieces
  {
    match pieces
    case End(text) => TakeLast(k, c, text, e, maximum)
    case Piece(text, more) =>
      match TakePiece(k, c, text, maximum)
      case Halt(reply) => reply
      case More(now) => CollectPieces(k, now, more, e, maximum)
  }

  // ---- both on lines ----

  /** The connection, line by line. */
  function ReadLines(k: Handler, h: Held, lines: Chunks, acc: seq<string>): Reply
    decreases lines
  {
    var values := acc + Value(lines.line);
    var p := k.process(h, values);
    match lines
    case Last(_) => if Ends(p) then Ending(p) else Reply(p.held.observed, Some(TerminalRequired))
    case Then(line, more) =>
      if k.blank(line) && Ends(p) then Ending(p)
      else ReadLines(k, if k.blank(line) then p.held else h, more, if k.blank(line) then [] else values)
  }

  /** The whole body, line by line. */
  function BodyLines(api: Api, h: Held, lines: Chunks, acc: seq<string>): Reply
    decreases lines
  {
    var s := Look(api, h, Join(acc + Value(lines.line)));
    match lines
    case Last(_) => if s.Return? then s.reply else Missing(s.held)
    case Then(line, more) =>
      if line != "" then BodyLines(api, h, more, acc + Value(line))
      else if s.Return? then s.reply
      else BodyLines(api, s.held, more, [])
  }

  /** Lines with "\r\n" read as "\n". */
  function Normal(c: Chunks): Chunks {
    match c
    case Last(_) => c
    case Then(line, more) => Then(StripReturn(line), Normal(more))
  }

  /** The lines up to and including the first terminal event, with its blank line. */
  function UpToTerminal(k: Handler, h: Held, lines: Chunks, acc: seq<string>): Chunks
    decreases lines
  {
    match lines
    case Last(_) => lines
    case Then(line, more) =>
      var values := acc + Value(line);
      var p := k.process(h, values);
      if k.blank(line) && p.stop then Then(line, Last(""))
      else if k.blank(line) && p.problem.Some? then lines
      else Then(line, UpToTerminal(k, if k.blank(line) then p.held else h, more, if k.blank(line) then [] else values))
  }

  /** No more data up to the next empty line. */
  predicate Quiet(lines: Chunks) {
    Value(lines.line) == [] && (lines.Then? && StripReturn(lines.line) != "" ==> Quiet(lines.more))
  }

  /** Before the first terminal event no line of white space has data on both sides within a block. */
  predicate Tidy(k: Handler, h: Held, lines: Chunks, acc: seq<string>)
    decreases lines
  {
    lines.Then? ==>
      var line, more, values := lines.line, lines.more, acc + Value(lines.line);
      var p := k.process(h, values);
      if !k.blank(line) then Tidy(k, h, more, values)
      else p.stop ||
           (&& (StripReturn(line) == "" || values == [] || Quiet(more))
            && (p.problem.Some? || Tidy(k, p.held, more, [])))
  }

  lemma ProcessIsLook(api: Api, h: Held, data: string)
    requires h.terminal.None?
    ensures var p, s := Process(api, h, data), Look(api, h, data);
            && (!Ends(p) ==> s == Continue(p.held) && p.held.terminal.None?)
            && (Ends(p) ==> (s.Return? && s.reply == Ending(p))
                            || (s == Continue(p.held) && p.problem.None? && p.stop && Missing(p.held) == Ending(p)))
            && (p.problem.Some? ==> s.Return?)
  {
  }

  lemma LookAtNothing(api: Api, h: Held)
    ensures Look(api, h, Join([])) == Continue(h)
  {
  }

  lemma EmptyValue()
    ensures Value("") == [] && Value("\r") == []
  {
  }

  lemma {:induction false} QuietPrefix(k: Handler, h: Held, lines: Chunks, acc: seq<string>)
    requires Quiet(lines)
    ensures Quiet(UpToTerminal(k, h, lines, acc))
    decreases lines
  {
    EmptyValue();
    if lines.Then? && StripReturn(lines.line) != "" {
      var values := acc + Value(lines.line);
      if k.blank(lines.line) {
        QuietPrefix(k, k.process(h, values).held, lines.more, []);
      } else {
        QuietPrefix(k, h, lines.more, values);
      }
    }
  }

  /** Data looked at before the end of its block, when no more data follows: the body refuses it later,
      or goes on as if it had not been there. */
  lemma {:induction false} QuietBody(api: Api, h: Held, lines: Chunks, values: seq<string>)
    requires Quiet(lines)
    ensures var s := Look(api, h, Join(values));
            && (s.Return? ==> BodyLines(api, h, Normal(lines), values) == s.reply)
            && (s == Continue(h) ==>
                  BodyLines(api, h, Normal(lines), values) == BodyLines(api, h, Normal(lines), []))
    decreases lines
  {
    var line := lines.line;
    ValueStrip(line);
    LookAtNothing(api, h);
    assert values + [] == values;
    if lines.Then? && StripReturn(line) != "" { QuietBody(api, h, lines.more, values); }
  }

  /** The connection's reply is the body's reply on the lines up to the terminal event. */
  ghost predicate Agree(api: Api, h: Held, lines: Chunks, acc: seq<string>) {
    var k := Connection(api);
    ReadLines(k, h, lines, acc) == BodyLines(api, h, Normal(UpToTerminal(k, h, lines, acc)), acc)
  }

  /** Line by line, both collectors give the same reply. */
  lemma {:induction false} LinesAgree(api: Api, h: Held, lines: Chunks, acc: seq<string>)
    requires h.terminal.None? && Tidy(Connection(api), h, lines, acc)
    ensures Agree(api, h, lines, acc)
    decreases lines
  {
    var values := acc + Value(lines.line);
    var p := Process(api, h, Join(values));
    if lines.Last? {
      LastAgrees(api, h, lines, acc);
    } else if !BlankText(lines.line) {
      LinesAgree(api, h, lines.more, values);
      TextAgrees(api, h, lines, acc);
    } else if Ends(p) {
      if StripReturn(lines.line) == "" {
        BlankEnds(api, h, lines, acc, p);
      } else if p.stop {
        SpaceStops(api, h, lines, acc, p);
      } else {
        SpaceRefuses(api, h, lines, acc, p);
      }
    } else {
      assert p.held == h;
      LinesAgree(api, h, lines.more, []);
      if StripReturn(lines.line) == "" {
        BlankGoesOn(api, h, lines, acc, p);
      } else {
        SpaceGoesOn(api, h, lines, acc, p);
      }
    }
  }

  lemma LastAgrees(api: Api, h: Held, lines: Chunks, acc: seq<string>)
    requires h.terminal.None? && lines.Last?
    ensures Agree(api, h, lines, acc)
  {
    ProcessIsLook(api, h, Join(acc + Value(lines.line)));
  }

  lemma TextAgrees(api: Api, h: Held, lines: Chunks, acc: seq<string>)
    requires lines.Then? && !BlankText(lines.line) && Agree(api, h, lines.more, acc + Value(lines.line))
    ensures Agree(api, h, lines, acc)
  {
    var k := Connection(api);
    assert StripReturn(lines.line) != "" by { EmptyIsBlank(); }
    NormalThen(lines.line, UpToTerminal(k, h, lines.more, acc + Value(lines.line)));
    SpaceInBody(api, h, lines.line, Normal(UpToTerminal(k, h, lines.more, acc + Value(lines.line))), acc,
                acc + Value(lines.line));
  }

  /** An empty line ends a block for both. */
  lemma BlankEnds(api: Api, h: Held, lines: Chunks, acc: seq<string>, p: Effect)
    requires h.terminal.None? && lines.Then? && BlankText(lines.line) && StripReturn(lines.line) == ""
    requires p == Process(api, h, Join(acc + Value(lines.line))) && Ends(p)
    ensures Agree(api, h, lines, acc)
  {
    EmptyValue();
    ValueStrip(lines.line);
    ProcessIsLook(api, h, Join(acc + Value(lines.line)));
    LookAtNothing(api, p.held);
    assert [] + Value("") == [];
  }

  lemma BlankGoesOn(api: Api, h: Held, lines: Chunks, acc: seq<string>, p: Effect)
    requires h.terminal.None? && lines.Then? && BlankText(lines.line) && StripReturn(lines.line) == ""
    requires p == Process(api, h, Join(acc + Value(lines.line))) && !Ends(p) && Agree(api, h, lines.more, [])
    ensures Agree(api, h, lines, acc)
  {
    var k, values := Connection(api), acc + Value(lines.line);
    assert p == Effect(h, false, None);
    ValueStrip(lines.line);
    ProcessIsLook(api, h, Join(values));
    BlankStep(k, h, lines.line, lines.more, acc, values);
    NormalThen(lines.line, UpToTerminal(k, h, lines.more, []));
  }

  lemma SpaceInBody(api: Api, h: Held, line: string, rest: Chunks, acc: seq<string>, values: seq<string>)
    requires StripReturn(line) != "" && values == acc + Value(line)
    ensures BodyLines(api, h, Then(StripReturn(line), rest), acc) == BodyLines(api, h, rest, values)
  {
    ValueStrip(line);
  }

  lemma SpaceStops(api: Api, h: Held, lines: Chunks, acc: seq<string>, p: Effect)
    requires h.terminal.None? && lines.Then? && BlankText(lines.line) && StripReturn(lines.line) != ""
    requires p == Process(api, h, Join(acc + Value(lines.line))) && p.stop
    ensures Agree(api, h, lines, acc)
  {
    var values := acc + Value(lines.line);
    EmptyValue();
    ProcessIsLook(api, h, Join(values));
    SpaceInBody(api, h, lines.line, Last(""), acc, values);
    assert values + Value("") == values;
  }

  lemma SpaceRefuses(api: Api, h: Held, lines: Chunks, acc: seq<string>, p: Effect)
    requires h.terminal.None? && lines.Then? && BlankText(lines.line) && StripReturn(lines.line) != ""
    requires p == Process(api, h, Join(acc + Value(lines.line))) && !p.stop && p.problem.Some?
    requires acc + Value(lines.line) == [] || Quiet(lines.more)
    ensures Agree(api, h, lines, acc)
  {
    var values := acc + Value(lines.line);
    LookAtNothing(api, h);
    ProcessIsLook(api, h, Join(values));
    SpaceInBody(api, h, lines.line, Normal(lines.more), acc, values);
    QuietBody(api, h, lines.more, values);
  }

  /** A blank line whose event does not end the reading. */
  lemma BlankStep(k: Handler, h: Held, line: string, more: Chunks, acc: seq<string>, values: seq<string>)
    requires values == acc + Value(line) && k.blank(line) && k.process(h, values) == Effect(h, false, None)
    ensures ReadLines(k, h, Then(line, more), acc) == ReadLines(k, h, more, [])
    ensures UpToTerminal(k, h, Then(line, more), acc) == Then(line, UpToTerminal(k, h, more, []))
  {
  }

  lemma SpaceGoesOn(api: Api, h: Held, lines: Chunks, acc: seq<string>, p: Effect)
    requires h.terminal.None? && lines.Then? && BlankText(lines.line) && StripReturn(lines.line) != ""
    requires p == Process(api, h, Join(acc + Value(lines.line))) && !Ends(p) && Agree(api, h, lines.more, [])
    requires acc + Value(lines.line) == [] || Quiet(lines.more)
    ensures Agree(api, h, lines, acc)
  {
    var k, values := Connection(api), acc + Value(lines.line);
    assert p == Effect(h, false, None);
    BlankStep(k, h, lines.line, lines.more, acc, values);
    var rest := UpToTerminal(k, h, lines.more, []);
    SpaceInBody(api, h, lines.line, Normal(rest), acc, values);
    assert BodyLines(api, h, Normal(rest), values) == BodyLines(api, h, Normal(rest), []) by {
      if values != [] {
        ProcessIsLook(api, h, Join(values));
        QuietPrefix(k, h, lines.more, []);
        QuietBody(api, h, rest, values);
      }
    }
    NormalThen(lines.line, rest);
  }

  lemma NormalThen(line: string, rest: Chunks)
    ensures Normal(Then(line, rest)) == Then(StripReturn(line), Normal(rest))
  {
  }

  lemma EmptyIsBlank()
    ensures TrimBytes("") == ""
  {
  }

  // ---- the whole body on lines ----

  lemma {:induction false} UnifyLines(c: Chunks)
    requires OneLiners(c)
    ensures Unify(Joined(c)) == Joined(Normal(c)) && OneLiners(Normal(c))
    decreases c
  {
    match c
    case Last(line) => UnifyLast(line);
    case Then(line, more) =>
      UnifyLines(more);
      UnifyFront(line, Joined(more));
  }

  lemma PushTwice(a: string, b: string, c: Chunks)
    ensures Push(a, Push(b, c)) == Push(a + b, c)
  {
    Joins(a, b, c.line);
  }

  lemma PushNothing(c: Chunks)
    ensures Push("", c) == c
  {
    assert "" + c.line == c.line;
  }

  lemma SplitLast(line: string)
    requires NoFeed(line)
    ensures SplitBlocks(line) == Last(line)
  {
    SplitFront(line, "");
    assert line + "" == line;
  }

  /** A line followed by an empty one ends its block. */
  lemma SplitAtBlank(line: string, rest: string)
    requires NoFeed(line)
    ensures SplitBlocks(line + "\n" + ("" + "\n" + rest)) == Then(line, SplitBlocks(rest))
  {
    var x := "\n\n" + rest;
    assert x[2..] == rest;
    assert line + "\n" + ("" + "\n" + rest) == line + x;
    SplitFront(line, x);
    assert line + "" == line;
  }

  /** A line followed by another stays in its block. */
  lemma SplitInside(line: string, rest: string)
    requires NoFeed(line) && (rest != "" ==> rest[0] != '\n')
    ensures SplitBlocks(line + "\n" + rest) == Push(line + "\n", SplitBlocks(rest))
  {
    var x := "\n" + rest;
    assert x[1..] == rest;
    assert line + "\n" + rest == line + x;
    SplitFront(line, x);
    PushTwice(line, "\n", SplitBlocks(rest));
  }

  lemma JoinedStart(c: Chunks)
    requires OneLiners(c) && !(c.Then? && c.line == "")
    ensures Joined(c) != "" ==> Joined(c)[0] != '\n'
  {
  }

  /** The blocks of a body, the first one continued from `rows`, give what its lines give. */
  lemma {:induction false} BlocksAreLines(api: Api, h: Held, lines: Chunks, rows: Rows)
    requires OneLiners(lines) && RowsOnly(rows) && (lines.Then? && lines.line == "" ==> rows.Zero?)
    ensures BodyBlocks(api, h, Push(TextOf(rows), SplitBlocks(Joined(lines))))
            == BodyLines(api, h, lines, RowValues(rows))
    decreases lines
  {
    match lines
    case Last(line) =>
      SplitLast(line);
      ListedRows(rows, line);
      ListedLast(line);
    case Then(line, more) =>
      if more.Then? && more.line == "" {
        BlockEnds(api, h, lines, rows);
      } else {
        JoinedStart(more);
        SplitInside(line, Joined(more));
        PushTwice(TextOf(rows), line + "\n", SplitBlocks(Joined(more)));
        BlocksAreLines(api, h, more, Row(rows, line));
        BlankStart(api, h, lines, RowValues(rows));
      }
  }

  lemma BlankStart(api: Api, h: Held, lines: Chunks, acc: seq<string>)
    requires lines.Then? && (lines.line == "" ==> acc == [])
    ensures BodyLines(api, h, lines, acc) == BodyLines(api, h, lines.more, acc + Value(lines.line))
  {
    EmptyValue();
    if lines.line == "" {
      assert acc + Value(lines.line) == [];
      LookAtNothing(api, h);
    }
  }

  lemma BlockEnds(api: Api, h: Held, lines: Chunks, rows: Rows)
    requires OneLiners(lines) && RowsOnly(rows) && lines.Then? && lines.more.Then? && lines.more.line == ""
    requires lines.line == "" ==> rows.Zero?
    ensures BodyBlocks(api, h, Push(TextOf(rows), SplitBlocks(Joined(lines))))
            == BodyLines(api, h, lines, RowValues(rows))
    decreases lines, 0
  {
    var rest, values := lines.more.more, RowValues(rows) + Value(lines.line);
    SplitAtBlank(lines.line, Joined(rest));
    ListedRows(rows, lines.line);
    ListedLast(lines.line);
    EmptyValue();
    BlankStart(api, h, lines, RowValues(rows));
    assert values + Value("") == values;
    var s := Look(api, h, Join(values));
    if s.Continue? {
      BlocksAreLines(api, s.held, rest, Zero);
      PushNothing(SplitBlocks(Joined(rest)));
    }
  }

  /** The collector of a whole body, on the lines of the body. */
  lemma BodyIsLines(api: Api, lines: Chunks)
    requires OneLiners(lines)
    ensures CollectBody(api, Joined(lines)) == BodyLines(api, Nothing(), Normal(lines), [])
  {
    UnifyLines(lines);
    BlocksAreLines(api, Nothing(), Normal(lines), Zero);
    PushNothing(SplitBlocks(Joined(Normal(lines))));
  }

  // ---- the connection on lines ----

  /** Every line, with its line feed, fits the buffer. */
  predicate Fits(c: Chunks, size: nat) {
    match c
    case Last(line) => |line| <= size
    case Then(line, more) => |line| < size && Fits(more, size)
  }

  function LinePieces(c: Chunks, size: nat): Pieces {
    match c
    case Last(line) => if |line| == size then Piece(line, End("")) else End(line)
    case Then(line, more) => Piece(line + "\n", LinePieces(more, size))
  }

  lemma PieceFront(line: string, rest: string, size: nat)
    requires NoFeed(line) && |line| < size
    ensures PiecesOf(line + "\n" + rest, size) == Piece(line + "\n", PiecesOf(rest, size))
  {
    var s, n := line + "\n" + rest, |line|;
    assert s[n] == '\n' && s[..n + 1] == line + "\n" && s[n + 1..] == rest;
    assert forall j :: 0 <= j < n ==> s[j] == line[j];
    assert IndexOf('\n', s) == n;
  }

  lemma PieceLast(line: string, size: nat)
    requires NoFeed(line) && 0 < size && |line| <= size
    ensures PiecesOf(line, size) == if |line| == size then Piece(line, End("")) else End(line)
  {
    if |line| == size { assert line[..size] == line && line[size..] == ""; }
  }

  /** Whole lines and one more have the values of each. */
  ghost predicate Reads(k: Handler, rows: Rows, line: string) {
    RowsOnly(rows) && NoFeed(line) ==> k.find(TextOf(rows) + line) == RowValues(rows) + Value(line)
  }

  /** A handler that finds all values, takes the empty line as blank and ignores an empty block. */
  ghost predicate Good(k: Handler) {
    && (forall rows: Rows, line: string :: Reads(k, rows, line))
    && k.blank("")
    && (forall h: Held :: k.process(h, []) == Effect(h, false, None))
  }

  lemma ConnectionIsGood(api: Api)
    ensures Good(Connection(api))
  {
    var k := Connection(api);
    forall rows: Rows, line: string ensures Reads(k, rows, line) {
      if RowsOnly(rows) && NoFeed(line) {
        FoundRows(rows, line);
        FoundLast(line);
      }
    }
    EmptyIsBlank();
  }

  lemma EmptyFound(k: Handler)
    requires Good(k)
    ensures k.find("") == []
  {
    assert Reads(k, Zero, "");
    assert TextOf(Zero) + "" == "";
    EmptyValue();
  }

  /** A last piece that fills the buffer exactly makes no difference at the end of a stream. */
  lemma FullEnd(k: Handler, c: Carry, text: string, maximum: nat)
    requires Good(k)
    ensures CollectPieces(k, c, Piece(text, End("")), Eof, maximum) == TakeLast(k, c, text, Eof, maximum)
  {
    var s := TakePiece(k, c, text, maximum);
    if s.More? {
      assert s.carry.block + "" == s.carry.block;
      EmptyFound(k);
      assert StripFeed("") == "";
    }
  }

  lemma {:induction false} PiecesOfLines(lines: Chunks, size: nat)
    requires OneLiners(lines) && size > 0 && Fits(lines, size)
    ensures PiecesOf(Joined(lines), size) == LinePieces(lines, size)
    decreases lines
  {
    match lines
    case Last(line) => PieceLast(line, size);
    case Then(line, more) =>
      PieceFront(line, Joined(more), size);
      PiecesOfLines(more, size);
  }

  lemma NextFound(k: Handler, next: Rows)
    requires RowsOnly(next) && Good(k)
    ensures k.find(TextOf(next)) == RowValues(next)
  {
    assert Reads(k, next, "");
    assert TextOf(next) + "" == TextOf(next);
    EmptyValue();
    assert RowValues(next) + [] == RowValues(next);
  }

  lemma StripAdded(line: string)
    ensures StripFeed(line + "\n") == line
  {
    assert (line + "\n")[..|line|] == line;
  }

  /** One piece, with what it adds up to and what is found in it given. */
  lemma StepAs(k: Handler, c: Carry, text: string, maximum: nat, line: string, all: string, values: seq<string>)
    requires all == c.block + text && k.find(all) == values && line == StripFeed(text)
    requires c.received + |text| <= maximum
    ensures var now, p := c.received + |text|, k.process(c.held, values);
            TakePiece(k, c, text, maximum) ==
              if !k.blank(line) then More(Carry(c.held, all, now))
              else if Ends(p) then Halt(Ending(p))
              else More(Carry(p.held, "", now))
  {
  }

  lemma LineStep(k: Handler, h: Held, line: string, rows: Rows, received: nat, maximum: nat)
    requires NoFeed(line) && RowsOnly(rows) && received + |line + "\n"| <= maximum && Good(k)
    ensures var next, now := Row(rows, line), received + |line + "\n"|;
            var p := k.process(h, RowValues(next));
            TakePiece(k, Carry(h, TextOf(rows), received), line + "\n", maximum) ==
              if !k.blank(line) then More(Carry(h, TextOf(next), now))
              else if Ends(p) then Halt(Ending(p))
              else More(Carry(p.held, "", now))
  {
    var next := Row(rows, line);
    StripAdded(line);
    NextFound(k, next);
    StepAs(k, Carry(h, TextOf(rows), received), line + "\n", maximum, line, TextOf(next), RowValues(next));
  }

  lemma LastStep(k: Handler, h: Held, line: string, rows: Rows, received: nat, maximum: nat)
    requires NoFeed(line) && RowsOnly(rows) && received + |line| <= maximum && Good(k)
    ensures TakeLast(k, Carry(h, TextOf(rows), received), line, Eof, maximum)
            == ReadLines(k, h, Last(line), RowValues(rows))
  {
    var all := TextOf(rows) + line;
    assert k.find(all) == RowValues(rows) + Value(line) by { assert Reads(k, rows, line); }
    assert StripFeed(line) == line;
    if !k.blank(line) {
      assert line != "";
      assert |all| > 0;
    }
  }

  lemma PieceThen(k: Handler, c: Carry, text: string, more: Pieces, maximum: nat, step: PieceStep, reply: Reply)
    requires TakePiece(k, c, text, maximum) == step
    requires if step.Halt? then reply == step.reply else CollectPieces(k, step.carry, more, Eof, maximum) == reply
    ensures CollectPieces(k, c, Piece(text, more), Eof, maximum) == reply
  {
  }

  lemma LineThen(k: Handler, h: Held, line: string, more: Chunks, acc: seq<string>, values: seq<string>, reply: Reply)
    requires values == acc + Value(line)
    requires var p := k.process(h, values);
             reply == if !k.blank(line) then ReadLines(k, h, more, values)
                      else if Ends(p) then Ending(p) else ReadLines(k, p.held, more, [])
    ensures ReadLines(k, h, Then(line, more), acc) == reply
  {
  }

  lemma {:induction false} PiecesAreLines(k: Handler, h: Held, lines: Chunks, rows: Rows, size: nat, received: nat,
                                          maximum: nat)
    requires OneLiners(lines) && RowsOnly(rows) && received + |Joined(lines)| <= maximum && Good(k)
    ensures CollectPieces(k, Carry(h, TextOf(rows), received), LinePieces(lines, size), Eof, maximum)
            == ReadLines(k, h, lines, RowValues(rows))
    decreases lines
  {
    var c := Carry(h, TextOf(rows), received);
    match lines
    case Last(line) =>
      FullEnd(k, c, line, maximum);
      LastStep(k, h, line, rows, received, maximum);
    case Then(line, more) =>
      var now, next := received + |line + "\n"|, Row(rows, line);
      LineStep(k, h, line, rows, received, maximum);
      var p, later := k.process(h, RowValues(next)), LinePieces(more, size);
      if !k.blank(line) {
        var reply := ReadLines(k, h, more, RowValues(next));
        PiecesAreLines(k, h, more, next, size, now, maximum);
        LineThen(k, h, line, more, RowValues(rows), RowValues(next), reply);
        PieceThen(k, c, line + "\n", later, maximum, More(Carry(h, TextOf(next), now)), reply);
      } else if Ends(p) {
        LineThen(k, h, line, more, RowValues(rows), RowValues(next), Ending(p));
        PieceThen(k, c, line + "\n", later, maximum, Halt(Ending(p)), Ending(p));
      } else {
        var reply := ReadLines(k, p.held, more, []);
        PiecesAreLines(k, p.held, more, Zero, size, now, maximum);
        LineThen(k, h, line, more, RowValues(rows), RowValues(next), reply);
        PieceThen(k, c, line + "\n", later, maximum, More(Carry(p.held, "", now)), reply);
      }
  }

  // ---- the two collectors ----

  /** The bytes up to and including the first terminal event. */
  function Heard(api: Api, body: string): string {
    Joined(UpToTerminal(Connection(api), Nothing(), Chop(body), []))
  }

  lemma UnderPrefix(a: string, x: string, y: string)
    requires x <= y
    ensures a + x <= a + y
  {
  }

  lemma {:induction false} UpToTerminalIsPrefix(k: Handler, h: Held, lines: Chunks, acc: seq<string>)
    requires OneLiners(lines)
    ensures var u := UpToTerminal(k, h, lines, acc); OneLiners(u) && Joined(u) <= Joined(lines)
    decreases lines
  {
    if lines.Then? {
      var line, more, values := lines.line, lines.more, acc + Value(lines.line);
      var p := k.process(h, values);
      if k.blank(line) && (p.stop || p.problem.Some?) {
        UnderPrefix(line + "\n", "", Joined(more));
      } else if k.blank(line) {
        UpToTerminalIsPrefix(k, p.held, more, []);
        UnderPrefix(line + "\n", Joined(UpToTerminal(k, p.held, more, [])), Joined(more));
      } else {
        UpToTerminalIsPrefix(k, h, more, values);
        UnderPrefix(line + "\n", Joined(UpToTerminal(k, h, more, values)), Joined(more));
      }
    }
  }

  /** For every body within the size bound whose lines fit the read buffer and in which no line of white
      space separates data of one block, reading the connection and collecting the whole body up to and
      including the first terminal event give the same response and the same error. */
  lemma CollectorsAgree(api: Api, body: string, size: nat, maximum: nat)
    requires size > 0 && Fits(Chop(body), size) && Tidy(Connection(api), Nothing(), Chop(body), []) && |body| <= maximum
    ensures CollectPieces(Connection(api), Carry(Nothing(), "", 0), PiecesOf(body, size), Eof, maximum)
            == CollectBody(api, Heard(api, body))
    ensures Heard(api, body) <= body
  {
    var lines, k := Chop(body), Connection(api);
    ChopJoins(body);
    PiecesOfLines(lines, size);
    ConnectionIsGood(api);
    PiecesAreLines(k, Nothing(), lines, Zero, size, 0, maximum);
    LinesAgree(api, Nothing(), lines, []);
    UpToTerminalIsPrefix(k, Nothing(), lines, []);
    BodyIsLines(api, UpToTerminal(k, Nothing(), lines, []));
  }

  // ---- the collectors as they run ----

  /** The data values of some lines. */
  method Extract(lines: Chunks) returns (values: seq<string>)
    ensures values == Values(lines)
  {
    var rest := lines;
    values := Value(rest.line);
    while rest.Then?
      invariant values + (if rest.Then? then Values(rest.more) else []) == Values(lines)
      decreases rest
    {
      rest := rest.more;
      values := values + Value(rest.line);
    }
  }

  method CollectWholeBody(api: Api, body: string) returns (reply: Reply)
    ensures reply == CollectBody(api, body)
  {
    var blocks := SplitBlocks(Unify(body));
    var held := Nothing();
    while true
      invariant BodyBlocks(api, held, blocks) == CollectBody(api, body)
      decreases blocks
    {
      var values := Extract(Bare(Chop(blocks.line)));
      var step := Look(api, held, Join(values));
      if step.Return? { return step.reply; }
      held := step.held;
      if blocks.Last? { break; }
      blocks := blocks.more;
    }
    return Missing(held);
  }

  /** A last full buffer that no line feed ends. */
  predicate FullLast(pieces: Pieces) {
    pieces.Piece? && pieces.more.End? && pieces.more.text == "" && NoFeed(pieces.text)
  }

  /** The pieces when the error arrives together with such a last full buffer. */
  function Together(pieces: Pieces): Pieces {
    match pieces
    case End(_) => pieces
    case Piece(text, more) => if FullLast(pieces) then End(text) else Piece(text, Together(more))
  }

  lemma PieceOf(part: string, rest: string, size: nat, whole: bool)
    requires size > 0 && |part| <= size
    requires if whole then EndsLine(part) else NoFeed(part) && |part| == size
    ensures PiecesOf(part + rest, size) == Piece(part, PiecesOf(rest, size))
  {
    var s := part + rest;
    assert s[..|part|] == part && s[|part|..] == rest;
    assert forall j :: 0 <= j < |part| ==> s[j] == part[j];
    if whole {
      assert forall j :: 0 <= j < |part| - 1 ==> part[..|part| - 1][j] == part[j];
      assert IndexOf('\n', s) == |part| - 1;
    } else {
      assert IndexOf('\n', s) >= size;
    }
  }

  /** A complete block: find its data and act on the event. */
  method Act(api: Api, h: Held, block: string) returns (p: Effect)
    ensures var k := Connection(api); p == k.process(h, k.find(block))
  {
    var values := Extract(Chop(Unify(block)));
    p := Process(api, h, Join(values));
  }

  method IsBlank(api: Api, line: string) returns (blank: bool)
    ensures blank == Connection(api).blank(line)
  {
    blank := TrimBytes(StripReturn(line)) == "";
  }

  /** One piece of the connection: add it to the block, and act on a block that is complete. */
  method Receive(api: Api, c: Carry, text: string, maximum: nat) returns (step: PieceStep)
    ensures step == TakePiece(Connection(api), c, text, maximum)
  {
    var received := c.received + |text|;
    if received > maximum { return Halt(Reply(c.held.observed, Some(TooLarge))); }
    var block := c.block + text;
    var blank := IsBlank(api, StripFeed(text));
    if !blank { return More(Carry(c.held, block, received)); }
    step := ActAndSettle(api, c.held, block, received);
  }

  method ActAndSettle(api: Api, h: Held, block: string, received: nat) returns (step: PieceStep)
    ensures var k := Connection(api); step == Settle(k.process(h, k.find(block)), received)
  {
    var p := Act(api, h, block);
    if p.problem.Some? { return Halt(Reply(p.held.observed, p.problem)); }
    if p.stop { return Halt(Reply(TerminalOrObserved(p.held), None)); }
    return More(Carry(p.held, "", received));
  }

  /** The end of the connection. */
  method Close(api: Api, c: Carry, e: Error) returns (reply: Reply)
    ensures var k := Connection(api);
            var p := k.process(c.held, k.find(c.block));
            reply == if e != Eof then Reply(c.held.observed, Some(ReadFailed(e)))
                     else if c.block != "" && Ends(p) then Ending(p)
                     else Reply((if c.block != "" then p.held else c.held).observed, Some(TerminalRequired))
  {
    if e != Eof { return Reply(c.held.observed, Some(ReadFailed(e))); }
    if c.block == "" { return Reply(c.held.observed, Some(TerminalRequired)); }
    var p := Act(api, c.held, c.block);
    if p.problem.Some? { return Reply(p.held.observed, p.problem); }
    if p.stop { return Reply(TerminalOrObserved(p.held), None); }
    return Reply(p.held.observed, Some(TerminalRequired));
  }

  /** Reading a connection gives the reply of its bytes, however they arrive; only an error other than the
      end of the stream right after a full buffer has two replies, by whether it arrives with the bytes. */
  method CollectConnection(reader: BufferedReader, api: Api, maximum: nat) returns (reply: Reply)
    requires reader.Valid()
    modifies reader
    ensures var pieces, e := PiecesOf(old(reader.Rest()), reader.capacity), old(reader.Ending());
            var k, c := Connection(api), Carry(Nothing(), "", 0);
            || reply == CollectPieces(k, c, pieces, e, maximum)
            || (e != Eof && reply == CollectPieces(k, c, Together(pieces), e, maximum))
  {
    var c := Carry(Nothing(), "", 0);
    ghost var k, e, whole := Connection(api), reader.Ending(), PiecesOf(reader.Rest(), reader.capacity);
    ghost var left, apart := whole, false;
    while true
      invariant reader.Valid() && reader.Ending() == e && left == PiecesOf(reader.Rest(), reader.capacity)
      invariant CollectPieces(k, c, left, e, maximum) == CollectPieces(k, Carry(Nothing(), "", 0), whole, e, maximum)
      invariant apart ==> left == End("")
      invariant !apart ==> CollectPieces(k, c, Together(left), e, maximum)
                           == CollectPieces(k, Carry(Nothing(), "", 0), Together(whole), e, maximum)
      decreases left
    {
      ghost var before := reader.Rest();
      var part, outcome := reader.ReadSlice();
      var step := Receive(api, c, part, maximum);
      if outcome.Failed? {
        PieceLast(part, reader.capacity);
        ConnectionIsGood(api);
        if e == Eof { FullEnd(k, c, part, maximum); }
        if step.Halt? { return step.reply; }
        reply := Close(api, step.carry, outcome.error);
        return;
      }
      PieceOf(part, reader.Rest(), reader.capacity, outcome.Whole?);
      if step.Halt? { return step.reply; }
      apart := FullLast(left);
      c, left := step.carry, left.more;
    }
  }

  /** From the reads of a connection to the reply: on a body that ends normally, fits the bound and the
      buffer, and is tidy up to the terminal event, it is the reply of the whole-body collector. */
  method CollectResponses(answers: seq<Read>, api: Api, limit: int) returns (reply: Reply)
    ensures var (body, e) := Delivered(answers, 0);
            var maximum := if limit <= 0 then DEFAULT_MAXIMUM else limit;
            && e == Eof && |body| <= maximum && Fits(Chop(body), READ_BUFFER)
            && Tidy(Connection(api), Nothing(), Chop(body), []) ==>
              reply == CollectBody(api, Heard(api, body))
  {
    var maximum := if limit <= 0 then DEFAULT_MAXIMUM else limit;
    var reader := new BufferedReader(answers, READ_BUFFER);
    ghost var (body, e) := Delivered(answers, 0);
    reply := CollectConnection(reader, api, maximum);
    if && e == Eof && |body| <= maximum && Fits(Chop(body), READ_BUFFER)
       && Tidy(Connection(api), Nothing(), Chop(body), []) {
      CollectorsAgree(api, body, READ_BUFFER, maximum);
    }
  }
}
