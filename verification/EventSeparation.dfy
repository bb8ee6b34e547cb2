/** Which events the two collectors find in a body. They find the same ones exactly when no line of white
    space has data on both sides within a block. */
module EventSeparation {
  import opened Wrappers
  import opened EventStream
  import opened EventEncoding
  import opened EventText
  import opened ByteText
  import opened ResponsesCollector

  /** The event made of some data values, unless it is skipped. */
  function Event(values: seq<string>): seq<string> {
    if Skipped(Join(values)) then [] else [Join(values)]
  }

  /** The events that the reader of a connection decodes while none of them ends the reading. */
  function ConnectionEvents(lines: Chunks, acc: seq<string>): seq<string>
    decreases lines
  {
    var values := acc + Value(lines.line);
    match lines
    case Last(_) => Event(values)
    case Then(line, more) =>
      if BlankText(line) then Event(values) + ConnectionEvents(more, []) else ConnectionEvents(more, values)
  }

  /** The events that the collector of a whole body decodes while none of them ends it. */
  function BodyEvents(lines: Chunks, acc: seq<string>): seq<string>
    decreases lines
  {
    var values := acc + Value(lines.line);
    match lines
    case Last(_) => Event(values)
    case Then(line, more) =>
      if StripReturn(line) == "" then Event(values) + BodyEvents(more, []) else BodyEvents(more, values)
  }

  /** No line of white space has data on both sides within a block; `open` says that the block has data
      already. */
  predicate Plain(lines: Chunks, open: bool) {
    lines.Then? ==>
      var line, more, now := lines.line, lines.more, open || Value(lines.line) != [];
      if StripReturn(line) == "" then Plain(more, false)
      else if BlankText(line) && now then Quiet(more) && Plain(more, false)
      else Plain(more, now)
  }

  // ---- what the events decide ----

  function ConnectionReply(api: Api, h: Held, events: seq<string>): Reply
    decreases |events|
  {
    if events == [] then Reply(h.observed, Some(TerminalRequired))
    else
      var p := Process(api, h, events[0]);
      if Ends(p) then Ending(p) else ConnectionReply(api, p.held, events[1..])
  }

  function BodyReply(api: Api, h: Held, events: seq<string>): Reply
    decreases |events|
  {
    if events == [] then Missing(h)
    else match Look(api, h, events[0])
      case Return(reply) => reply
      case Continue(now) => BodyReply(api, now, events[1..])
  }

  lemma ConnectionEvent(api: Api, h: Held, values: seq<string>, rest: seq<string>)
    ensures var p := Process(api, h, Join(values));
            ConnectionReply(api, h, Event(values) + rest)
            == if Ends(p) then Ending(p) else ConnectionReply(api, p.held, rest)
  {
    var es := Event(values) + rest;
    if Skipped(Join(values)) {
      assert es == rest;
    } else {
      assert es[0] == Join(values) && es[1..] == rest;
    }
  }

  /** The reply of the reader of a connection is decided by its events. */
  lemma {:induction false} ReadLinesIsEvents(api: Api, h: Held, lines: Chunks, acc: seq<string>)
    ensures ReadLines(Connection(api), h, lines, acc) == ConnectionReply(api, h, ConnectionEvents(lines, acc))
    decreases lines
  {
    var values := acc + Value(lines.line);
    var p := Process(api, h, Join(values));
    match lines
    case Last(_) =>
      ConnectionEvent(api, h, values, []);
      assert Event(values) + [] == Event(values);
    case Then(line, more) =>
      if BlankText(line) {
        ConnectionEvent(api, h, values, ConnectionEvents(more, []));
        ReadLinesIsEvents(api, p.held, more, []);
      } else {
        ReadLinesIsEvents(api, h, more, values);
      }
  }

  lemma BodyEvent(api: Api, h: Held, values: seq<string>, rest: seq<string>)
    ensures var s := Look(api, h, Join(values));
            BodyReply(api, h, Event(values) + rest)
            == if s.Return? then s.reply else BodyReply(api, s.held, rest)
  {
    var es := Event(values) + rest;
    if Skipped(Join(values)) {
      assert es == rest;
    } else {
      assert es[0] == Join(values) && es[1..] == rest;
    }
  }

  /** The reply of the collector of a whole body is decided by its events. */
  lemma {:induction false} BodyLinesIsEvents(api: Api, h: Held, lines: Chunks, acc: seq<string>)
    ensures BodyLines(api, h, Normal(lines), acc) == BodyReply(api, h, BodyEvents(lines, acc))
    decreases lines
  {
    var values := acc + Value(lines.line);
    var s := Look(api, h, Join(values));
    ValueStrip(lines.line);
    match lines
    case Last(_) =>
      BodyEvent(api, h, values, []);
      assert Event(values) + [] == Event(values);
    case Then(line, more) =>
      if StripReturn(line) == "" {
        BodyEvent(api, h, values, BodyEvents(more, []));
        if s.Continue? { BodyLinesIsEvents(api, s.held, more, []); }
      } else {
        BodyLinesIsEvents(api, h, more, values);
      }
  }

  // ---- without separation the events are the same ----

  lemma EmptyIsBlankText(line: string)
    requires StripReturn(line) == ""
    ensures BlankText(line)
  {
    EmptyIsBlank();
  }

  lemma {:induction false} QuietEvents(lines: Chunks, values: seq<string>)
    requires Quiet(lines)
    ensures BodyEvents(lines, values) == Event(values) + BodyEvents(lines, [])
    decreases lines
  {
    assert values + [] == values && Event([]) == [];
    if lines.Then? && StripReturn(lines.line) != "" {
      QuietEvents(lines.more, values);
    } else if lines.Then? {
      assert Event([]) + BodyEvents(lines.more, []) == BodyEvents(lines.more, []);
    }
  }

  lemma {:induction false} PlainEvents(lines: Chunks, acc: seq<string>)
    requires Plain(lines, acc != [])
    ensures ConnectionEvents(lines, acc) == BodyEvents(lines, acc)
    decreases lines
  {
    if lines.Then? {
      var line, more, values := lines.line, lines.more, acc + Value(lines.line);
      if StripReturn(line) == "" {
        EmptyIsBlankText(line);
        PlainEvents(more, []);
      } else if BlankText(line) && values != [] {
        PlainEvents(more, []);
        QuietEvents(more, values);
      } else if BlankText(line) {
        PlainEvents(more, []);
        assert Event([]) + ConnectionEvents(more, []) == ConnectionEvents(more, []);
      } else {
        PlainEvents(more, values);
      }
    }
  }

  /** A body without separation is tidy for every decoder, so its replies agree. */
  lemma {:induction false} PlainIsTidy(api: Api, h: Held, lines: Chunks, acc: seq<string>)
    requires Plain(lines, acc != [])
    ensures Tidy(Connection(api), h, lines, acc)
    decreases lines
  {
    if lines.Then? {
      var line, more, values := lines.line, lines.more, acc + Value(lines.line);
      if BlankText(line) {
        PlainIsTidy(api, Process(api, h, Join(values)).held, more, []);
      } else {
        if StripReturn(line) == "" { EmptyIsBlankText(line); }
        PlainIsTidy(api, h, more, values);
      }
    }
  }

  // ---- with separation they differ: counting the line feeds inside events ----

  function Feeds(s: string): nat {
    if s == "" then 0 else (if s[0] == '\n' then 1 else 0) + Feeds(s[1..])
  }

  function AllFeeds(events: seq<string>): nat {
    if events == [] then 0 else Feeds(events[0]) + AllFeeds(events[1..])
  }

  lemma {:induction false} FeedsAdd(a: string, b: string)
    ensures Feeds(a + b) == Feeds(a) + Feeds(b)
    decreases |a|
  {
    if a == "" {
      assert a + b == b;
    } else {
      assert (a + b)[1..] == a[1..] + b;
      FeedsAdd(a[1..], b);
    }
  }

  lemma {:induction false} AllFeedsAdd(a: seq<string>, b: seq<string>)
    ensures AllFeeds(a + b) == AllFeeds(a) + AllFeeds(b)
    decreases |a|
  {
    if a == [] {
      assert a + b == b;
    } else {
      assert (a + b)[1..] == a[1..] + b;
      AllFeedsAdd(a[1..], b);
    }
  }

  lemma {:induction false} NoFeeds(s: string)
    requires NoFeed(s)
    ensures Feeds(s) == 0
    decreases |s|
  {
    if s != "" { NoFeeds(s[1..]); }
  }

  predicate OneLineEach(values: seq<string>) { forall i :: 0 <= i < |values| ==> NoFeed(values[i]) }

  /** Line feeds needed to join so many values. */
  function Weight(n: nat): nat { if n == 0 then 0 else n - 1 }

  lemma {:induction false} FeedsOfJoin(values: seq<string>)
    requires OneLineEach(values)
    ensures Feeds(Join(values)) == Weight(|values|)
    decreases |values|
  {
    if |values| == 1 {
      NoFeeds(values[0]);
    } else if |values| > 1 {
      NoFeeds(values[0]);
      FeedsOfJoin(values[1..]);
      FeedsAdd(values[0] + "\n", Join(values[1..]));
      FeedsAdd(values[0], "\n");
    }
  }

  lemma FeedsOfEvent(values: seq<string>)
    requires OneLineEach(values)
    ensures AllFeeds(Event(values)) == Weight(|values|)
  {
    FeedsOfJoin(values);
    var data := Join(values);
    if Skipped(data) {
      assert NoFeed(data);
      NoFeeds(data);
    } else {
      assert [data][1..] == [];
    }
  }

  lemma ValueIsOneLine(line: string)
    requires NoFeed(line)
    ensures OneLineEach(Value(line))
  {
    if Value(line) != [] {
      var text := line[5..];
      TrimFrontIsSuffix(text);
      TrimEndIsPrefix(TrimFront(text));
    }
  }

  lemma BlankHasNoValue(line: string)
    requires BlankText(line)
    ensures Value(line) == []
  {
    ValueStrip(line);
    var bare := StripReturn(line);
    if Value(bare) != [] {
      assert bare[0] == bare[..5][0] == 'd';
      assert SpaceInFront(bare) == 0;
      TrimEndKeeps(bare);
    }
  }

  lemma {:induction false} TrimEndKeeps(s: string)
    requires s != "" && s[0] == 'd'
    ensures TrimEnd(s) != ""
    decreases |s|
  {
    var n := SpaceAtEnd(s);
    if n > 0 {
      assert s[..|s| - n] != "" && s[..|s| - n][0] == 'd';
      TrimEndKeeps(s[..|s| - n]);
    }
  }

  datatype Kind = Empty | Space | Other

  function KindOf(line: string): Kind {
    if StripReturn(line) == "" then Empty else if BlankText(line) then Space else Other
  }

  /** What matters of each line: its kind and how many values it has. */
  datatype Marks = Rest(v: nat) | Mark(kind: Kind, v: nat, more: Marks)

  function MarksOf(lines: Chunks): Marks {
    match lines
    case Last(line) => Rest(|Value(line)|)
    case Then(line, more) => Mark(KindOf(line), |Value(line)|, MarksOf(more))
  }

  predicate QuietMarks(ms: Marks) {
    ms.v == 0 && (ms.Mark? && !ms.kind.Empty? ==> QuietMarks(ms.more))
  }

  predicate PlainMarks(ms: Marks, open: bool) {
    ms.Mark? ==>
      var now := open || ms.v > 0;
      match ms.kind
      case Empty => PlainMarks(ms.more, false)
      case Space => if now then QuietMarks(ms.more) && PlainMarks(ms.more, false) else PlainMarks(ms.more, now)
      case Other => PlainMarks(ms.more, now)
  }

  lemma {:induction false} MarksQuiet(lines: Chunks)
    ensures QuietMarks(MarksOf(lines)) <==> Quiet(lines)
    decreases lines
  {
    if lines.Then? { MarksQuiet(lines.more); }
  }

  lemma {:induction false} MarksPlain(lines: Chunks, open: bool)
    ensures PlainMarks(MarksOf(lines), open) <==> Plain(lines, open)
    decreases lines
  {
    if lines.Then? {
      MarksQuiet(lines.more);
      MarksPlain(lines.more, false);
      MarksPlain(lines.more, open || Value(lines.line) != []);
    }
  }

  /** The line feeds in the events of the connection, and in those of the body, by the number of values
      in the block so far. */
  function ConnectionWeight(ms: Marks, m: nat): nat
    decreases ms
  {
    var n := m + ms.v;
    match ms
    case Rest(_) => Weight(n)
    case Mark(kind, _, more) =>
      if kind.Other? then ConnectionWeight(more, n) else Weight(n) + ConnectionWeight(more, 0)
  }

  function BodyWeight(ms: Marks, m: nat): nat
    decreases ms
  {
    var n := m + ms.v;
    match ms
    case Rest(_) => Weight(n)
    case Mark(kind, _, more) =>
      if kind.Empty? then Weight(n) + BodyWeight(more, 0) else BodyWeight(more, n)
  }

  lemma {:induction false} FeedsOfConnection(lines: Chunks, acc: seq<string>)
    requires OneLiners(lines) && OneLineEach(acc)
    ensures AllFeeds(ConnectionEvents(lines, acc)) == ConnectionWeight(MarksOf(lines), |acc|)
    decreases lines
  {
    var values := acc + Value(lines.line);
    ValueIsOneLine(lines.line);
    FeedsOfEvent(values);
    if lines.Then? {
      if KindOf(lines.line).Other? {
        FeedsOfConnection(lines.more, values);
        ConnectionText(lines, acc, values);
      } else {
        FeedsOfConnection(lines.more, []);
        ConnectionBlank(lines, acc, values);
        AllFeedsAdd(Event(values), ConnectionEvents(lines.more, []));
      }
    }
  }

  lemma ConnectionText(lines: Chunks, acc: seq<string>, values: seq<string>)
    requires lines.Then? && values == acc + Value(lines.line) && KindOf(lines.line).Other?
    ensures ConnectionEvents(lines, acc) == ConnectionEvents(lines.more, values)
    ensures ConnectionWeight(MarksOf(lines), |acc|) == ConnectionWeight(MarksOf(lines.more), |values|)
  {
  }

  lemma ConnectionBlank(lines: Chunks, acc: seq<string>, values: seq<string>)
    requires lines.Then? && values == acc + Value(lines.line) && !KindOf(lines.line).Other?
    ensures ConnectionEvents(lines, acc) == Event(values) + ConnectionEvents(lines.more, [])
    ensures ConnectionWeight(MarksOf(lines), |acc|) == Weight(|values|) + ConnectionWeight(MarksOf(lines.more), 0)
  {
    if StripReturn(lines.line) == "" { EmptyIsBlankText(lines.line); }
  }

  lemma {:induction false} FeedsOfBody(lines: Chunks, acc: seq<string>)
    requires OneLiners(lines) && OneLineEach(acc)
    ensures AllFeeds(BodyEvents(lines, acc)) == BodyWeight(MarksOf(lines), |acc|)
    decreases lines
  {
    var values := acc + Value(lines.line);
    ValueIsOneLine(lines.line);
    FeedsOfEvent(values);
    if lines.Then? {
      if StripReturn(lines.line) == "" {
        FeedsOfBody(lines.more, []);
        BodyBlank(lines, acc, values);
        AllFeedsAdd(Event(values), BodyEvents(lines.more, []));
      } else {
        FeedsOfBody(lines.more, values);
        BodyText(lines, acc, values);
      }
    }
  }

  lemma BodyText(lines: Chunks, acc: seq<string>, values: seq<string>)
    requires lines.Then? && values == acc + Value(lines.line) && StripReturn(lines.line) != ""
    ensures BodyEvents(lines, acc) == BodyEvents(lines.more, values)
    ensures BodyWeight(MarksOf(lines), |acc|) == BodyWeight(MarksOf(lines.more), |values|)
  {
    NotEmpty(lines.line);
    MarkedWeight(KindOf(lines.line), |Value(lines.line)|, MarksOf(lines.more), |acc|);
  }

  lemma NotEmpty(line: string)
    requires StripReturn(line) != ""
    ensures !KindOf(line).Empty?
  {
  }

  lemma MarkedWeight(kind: Kind, v: nat, more: Marks, m: nat)
    requires !kind.Empty?
    ensures BodyWeight(Mark(kind, v, more), m) == BodyWeight(more, m + v)
  {
  }

  lemma BodyBlank(lines: Chunks, acc: seq<string>, values: seq<string>)
    requires lines.Then? && values == acc + Value(lines.line) && StripReturn(lines.line) == ""
    ensures BodyEvents(lines, acc) == Event(values) + BodyEvents(lines.more, [])
    ensures BodyWeight(MarksOf(lines), |acc|) == Weight(|values|) + BodyWeight(MarksOf(lines.more), 0)
  {
  }

  /** At most one value in a line, and none in a blank one. */
  predicate Marked(ms: Marks) {
    ms.v <= 1 && (ms.Mark? ==> (!ms.kind.Other? ==> ms.v == 0) && Marked(ms.more))
  }

  lemma {:induction false} LinesAreMarked(lines: Chunks)
    ensures Marked(MarksOf(lines))
    decreases lines
  {
    if lines.Then? {
      LinesAreMarked(lines.more);
      if !KindOf(lines.line).Other? {
        if StripReturn(lines.line) == "" { EmptyIsBlankText(lines.line); }
        BlankHasNoValue(lines.line);
      }
    }
  }

  /** The body joins at least as much as the connection. */
  lemma {:induction false} BodyJoinsAsMuch(ms: Marks, n: nat, m: nat)
    requires Marked(ms) && n >= m
    ensures BodyWeight(ms, n) + Weight(m) >= ConnectionWeight(ms, m) + Weight(n)
    decreases ms
  {
    if ms.Mark? {
      match ms.kind
      case Empty => BodyJoinsAsMuch(ms.more, 0, 0);
      case Space => BodyJoinsAsMuch(ms.more, n, 0);
      case Other => BodyJoinsAsMuch(ms.more, n + ms.v, m + ms.v);
    }
  }

  /** It joins more as soon as data follows data across a line of white space. */
  lemma {:induction false} QuietWhenEqual(ms: Marks, n: nat)
    requires Marked(ms) && n > 0 && BodyWeight(ms, n) == ConnectionWeight(ms, 0) + Weight(n)
    ensures QuietMarks(ms) && PlainMarks(ms, false)
    decreases ms
  {
    if ms.Mark? {
      match ms.kind
      case Empty => PlainWhenEqual(ms.more, 0);
      case Space => QuietWhenEqual(ms.more, n);
      case Other =>
        BodyJoinsAsMuch(ms.more, n + 1, 1);
        assert ms.v == 0;
        QuietWhenEqual(ms.more, n);
    }
  }

  lemma {:induction false} PlainWhenEqual(ms: Marks, n: nat)
    requires Marked(ms) && BodyWeight(ms, n) == ConnectionWeight(ms, n)
    ensures PlainMarks(ms, n > 0)
    decreases ms
  {
    if ms.Mark? {
      match ms.kind
      case Empty => PlainWhenEqual(ms.more, 0);
      case Space => if n > 0 { QuietWhenEqual(ms.more, n); } else { PlainWhenEqual(ms.more, 0); }
      case Other => PlainWhenEqual(ms.more, n + ms.v);
    }
  }

  /** Both collectors find the same events in a body exactly when no line of white space has data on both
      sides within a block. */
  lemma SameEventsIff(lines: Chunks)
    requires OneLiners(lines)
    ensures ConnectionEvents(lines, []) == BodyEvents(lines, []) <==> Plain(lines, false)
    ensures AllFeeds(BodyEvents(lines, [])) > AllFeeds(ConnectionEvents(lines, [])) <==> !Plain(lines, false)
  {
    FeedsOfConnection(lines, []);
    FeedsOfBody(lines, []);
    if Plain(lines, false) {
      PlainEvents(lines, []);
    } else {
      var ms := MarksOf(lines);
      LinesAreMarked(lines);
      MarksPlain(lines, false);
      BodyJoinsAsMuch(ms, 0, 0);
      if BodyWeight(ms, 0) == ConnectionWeight(ms, 0) { PlainWhenEqual(ms, 0); }
    }
  }

  // ---- and then a decoder can tell ----

  /** The place where two sequences of events part. */
  predicate Parts(es: seq<string>, bs: seq<string>, i: nat) {
    i <= |es| && i < |bs| && es[..i] == bs[..i] && (i < |es| ==> es[i] != bs[i])
  }

  lemma PrefixFeeds(es: seq<string>, bs: seq<string>)
    requires |bs| <= |es| && es[..|bs|] == bs
    ensures AllFeeds(es) >= AllFeeds(bs)
  {
    AllFeedsAdd(bs, es[|bs|..]);
    assert es == bs + es[|bs|..];
  }

  lemma {:induction false} FindParting(es: seq<string>, bs: seq<string>, i: nat) returns (j: nat)
    requires i <= |es| && i <= |bs| && es[..i] == bs[..i] && AllFeeds(es) < AllFeeds(bs)
    ensures Parts(es, bs, j)
    decreases |es| - i
  {
    j := i;
    if i == |bs| {
      PrefixFeeds(es, bs);
      assert false;
    } else if i < |es| && es[i] == bs[i] {
      assert es[..i + 1] == es[..i] + [es[i]] && bs[..i + 1] == bs[..i] + [bs[i]];
      j := FindParting(es, bs, i + 1);
    }
  }

  /** A decoder that refuses one event in one way and another in another, and hears nothing in the rest. */
  function Telling(b: string, c: Option<string>): Api {
    Api((s: string) => if s == b then Malformed else if c == Some(s) then Completed(None) else Progress,
        (o: Object) => None)
  }

  ghost predicate Heedless(api: Api, events: seq<string>) {
    forall i :: 0 <= i < |events| ==> api.decode(events[i]) == Progress
  }

  lemma {:induction false} HeedlessReplies(api: Api, h: Held, events: seq<string>, rest: seq<string>)
    requires Heedless(api, events)
    ensures ConnectionReply(api, h, events + rest) == ConnectionReply(api, h, rest)
    ensures BodyReply(api, h, events + rest) == BodyReply(api, h, rest)
    decreases |events|
  {
    if events == [] {
      assert events + rest == rest;
    } else {
      var all := events + rest;
      assert all[0] == events[0] && all[1..] == events[1..] + rest;
      HeedlessReplies(api, h, events[1..], rest);
    }
  }

  lemma {:induction false} NeverStopped(k: Handler, h: Held, lines: Chunks, acc: seq<string>)
    requires forall g: Held, values: seq<string> :: !k.process(g, values).stop
    ensures UpToTerminal(k, h, lines, acc) == lines
    decreases lines
  {
    if lines.Then? {
      var values := acc + Value(lines.line);
      var p := k.process(h, values);
      if k.blank(lines.line) {
        NeverStopped(k, p.held, lines.more, []);
      } else {
        NeverStopped(k, h, lines.more, values);
      }
    }
  }

  lemma {:induction false} NotSkipped(lines: Chunks, acc: seq<string>)
    ensures forall e :: e in ConnectionEvents(lines, acc) || e in BodyEvents(lines, acc) ==> !Skipped(e)
    decreases lines
  {
    if lines.Then? {
      NotSkipped(lines.more, []);
      NotSkipped(lines.more, acc + Value(lines.line));
    }
  }

  /** Where data is separated the events part, and unless the first differing events were heard before,
      there is a decoder with which the two collectors give different replies. */
  lemma SeparationShows(lines: Chunks) returns (i: nat)
    requires OneLiners(lines) && !Plain(lines, false)
    ensures var es, bs := ConnectionEvents(lines, []), BodyEvents(lines, []);
            && Parts(es, bs, i)
            && (bs[i] !in es[..i] && (i < |es| ==> es[i] !in es[..i]) ==>
                  !Agree(Telling(bs[i], if i < |es| then Some(es[i]) else None), Nothing(), lines, []))
  {
    var es, bs := ConnectionEvents(lines, []), BodyEvents(lines, []);
    SameEventsIff(lines);
    i := FindParting(es, bs, 0);
    var c := if i < |es| then Some(es[i]) else None;
    if bs[i] !in es[..i] && (i < |es| ==> es[i] !in es[..i]) {
      NotSkipped(lines, []);
      RepliesDiffer(lines, es, bs, i, Telling(bs[i], c));
    }
  }

  lemma RepliesDiffer(lines: Chunks, es: seq<string>, bs: seq<string>, i: nat, api: Api)
    requires es == ConnectionEvents(lines, []) && bs == BodyEvents(lines, []) && Parts(es, bs, i)
    requires bs[i] !in es[..i] && (i < |es| ==> es[i] !in es[..i])
    requires !Skipped(bs[i]) && (i < |es| ==> !Skipped(es[i]))
    requires api == Telling(bs[i], if i < |es| then Some(es[i]) else None)
    ensures !Agree(api, Nothing(), lines, [])
  {
    var h := Nothing();
    ReadLinesIsEvents(api, h, lines, []);
    BodyLinesIsEvents(api, h, lines, []);
    TellingNeverStops(api, bs[i], if i < |es| then Some(es[i]) else None);
    NeverStopped(Connection(api), h, lines, []);
    EventsTold(api, es, bs, i);
  }

  lemma TellingNeverStops(api: Api, b: string, c: Option<string>)
    requires api == Telling(b, c)
    ensures forall g: Held, values: seq<string> :: !Connection(api).process(g, values).stop
  {
  }

  lemma EventsTold(api: Api, es: seq<string>, bs: seq<string>, i: nat)
    requires Parts(es, bs, i) && bs[i] !in es[..i] && (i < |es| ==> es[i] !in es[..i])
    requires !Skipped(bs[i]) && (i < |es| ==> !Skipped(es[i]))
    requires api == Telling(bs[i], if i < |es| then Some(es[i]) else None)
    ensures ConnectionReply(api, Nothing(), es) != BodyReply(api, Nothing(), bs)
  {
    var h := Nothing();
    assert Heedless(api, es[..i]);
    assert es == es[..i] + es[i..] && bs == bs[..i] + bs[i..];
    HeedlessReplies(api, h, es[..i], es[i..]);
    HeedlessReplies(api, h, bs[..i], bs[i..]);
    var b := bs[i..];
    assert b[0] == bs[i];
    if i < |es| { assert es[i..][0] == es[i]; }
  }

  // ---- repeated events hide a separation ----

  /** An event that changes nothing. */
  predicate Idle(api: Api, values: seq<string>) {
    Process(api, Nothing(), Join(values)) == Effect(Nothing(), false, None)
  }

  lemma DataStep(api: Api, x: string, v: string, more: Chunks, acc: seq<string>)
    requires Value(x) == [v] && !BlankText(x)
    ensures var k, h := Connection(api), Nothing();
            && ReadLines(k, h, Then(x, more), acc) == ReadLines(k, h, more, acc + [v])
            && UpToTerminal(k, h, Then(x, more), acc) == Then(x, UpToTerminal(k, h, more, acc + [v]))
            && (Tidy(k, h, more, acc + [v]) ==> Tidy(k, h, Then(x, more), acc))
            && BodyLines(api, h, Normal(Then(x, more)), acc) == BodyLines(api, h, Normal(more), acc + [v])
  {
    if StripReturn(x) == "" { EmptyIsBlankText(x); }
    SpaceInBody(api, Nothing(), x, Normal(more), acc, acc + [v]);
  }

  lemma IdleStep(api: Api, more: Chunks, acc: seq<string>)
    requires Idle(api, acc)
    ensures var k, h := Connection(api), Nothing();
            && ReadLines(k, h, Then("", more), acc) == ReadLines(k, h, more, [])
            && UpToTerminal(k, h, Then("", more), acc) == Then("", UpToTerminal(k, h, more, []))
            && (Tidy(k, h, more, []) ==> Tidy(k, h, Then("", more), acc))
            && BodyLines(api, h, Normal(Then("", more)), acc) == BodyLines(api, h, Normal(more), [])
  {
    EmptyIsBlank();
    EmptyValue();
    assert acc + Value("") == acc;
    BlankStep(Connection(api), Nothing(), "", more, acc, acc);
    ProcessIsLook(api, Nothing(), Join(acc));
  }

  lemma EndingStep(api: Api, more: Chunks, acc: seq<string>)
    requires !Idle(api, acc)
    ensures Tidy(Connection(api), Nothing(), Then("", more), acc)
  {
    EmptyIsBlank();
    EmptyValue();
    assert acc + Value("") == acc;
  }

  lemma SpaceStep(api: Api, space: string, more: Chunks, acc: seq<string>)
    requires Value(space) == [] && BlankText(space) && StripReturn(space) != "" && Idle(api, acc)
    ensures var k, h := Connection(api), Nothing();
            && ReadLines(k, h, Then(space, more), acc) == ReadLines(k, h, more, [])
            && UpToTerminal(k, h, Then(space, more), acc) == Then(space, UpToTerminal(k, h, more, []))
            && BodyLines(api, h, Normal(Then(space, more)), acc) == BodyLines(api, h, Normal(more), acc)
  {
    assert acc + Value(space) == acc;
    BlankStep(Connection(api), Nothing(), space, more, acc, acc);
    SpaceInBody(api, Nothing(), space, Normal(more), acc, acc);
  }

  lemma LastStepBoth(api: Api)
    ensures var k, h := Connection(api), Nothing();
            && ReadLines(k, h, Last(""), []) == Reply(None, Some(TerminalRequired))
            && UpToTerminal(k, h, Last(""), []) == Last("")
            && BodyLines(api, h, Normal(Last("")), []) == Reply(None, Some(TerminalRequired))
  {
    EmptyValue();
    assert [] + Value("") == [];
  }

  function Separated(x: string, space: string): Chunks { Then(x, Then(space, Then(x, Then("", Last(""))))) }

  function Repeating(x: string, space: string): Chunks {
    Then(x, Then(x, Then("", Then(x, Then("", Separated(x, space))))))
  }

  lemma SeparatedIdle(api: Api, x: string, space: string, v: string)
    requires Value(x) == [v] && !BlankText(x) && Value(space) == [] && BlankText(space) && StripReturn(space) != ""
    requires Idle(api, [v]) && Idle(api, [v, v])
    ensures var k, h, lines := Connection(api), Nothing(), Separated(x, space);
            && ReadLines(k, h, lines, []) == Reply(None, Some(TerminalRequired))
            && UpToTerminal(k, h, lines, []) == lines
            && BodyLines(api, h, Normal(lines), []) == Reply(None, Some(TerminalRequired))
  {
    var end := Then("", Last(""));
    LastStepBoth(api);
    assert [] + [v] == [v] && [v] + [v] == [v, v];
    DataStep(api, x, v, Then(space, Then(x, end)), []);
    SpaceStep(api, space, Then(x, end), [v]);
    DataStep(api, x, v, end, []);
    DataStep(api, x, v, end, [v]);
    IdleStep(api, Last(""), [v]);
    IdleStep(api, Last(""), [v, v]);
  }

  /** A body with separated data on which the two collectors agree with every decoder: all events of the
      last block, joined or apart, were decoded before. */
  lemma RepeatsHide(api: Api, x: string, space: string, v: string)
    requires Value(x) == [v] && !BlankText(x) && Value(space) == [] && BlankText(space) && StripReturn(space) != ""
    ensures !Plain(Separated(x, space), false) && !Plain(Repeating(x, space), false)
    ensures Agree(api, Nothing(), Repeating(x, space), [])
  {
    SeparatedIsNotPlain(x, space);
    var last := Separated(x, space);
    var one := Then(x, Then("", last));
    assert [] + [v] == [v] && [v] + [v] == [v, v];
    DataStep(api, x, v, Then("", last), []);
    DataStep(api, x, v, Then("", one), [v]);
    DataStep(api, x, v, Then(x, Then("", one)), []);
    if !Idle(api, [v, v]) {
      EndingStep(api, one, [v, v]);
      LinesAgree(api, Nothing(), Repeating(x, space), []);
    } else if !Idle(api, [v]) {
      EndingStep(api, last, [v]);
      IdleStep(api, one, [v, v]);
      LinesAgree(api, Nothing(), Repeating(x, space), []);
    } else {
      IdleStep(api, one, [v, v]);
      IdleStep(api, last, [v]);
      SeparatedIdle(api, x, space, v);
    }
  }

  lemma SeparatedIsNotPlain(x: string, space: string)
    requires Value(x) != [] && !BlankText(x) && BlankText(space) && StripReturn(space) != ""
    ensures !Plain(Separated(x, space), false) && !Plain(Repeating(x, space), false)
  {
    if StripReturn(x) == "" { EmptyIsBlankText(x); }
    var end := Then("", Last(""));
    assert !Quiet(Then(x, end));
    assert !Plain(Then(space, Then(x, end)), true);
    assert !Plain(Separated(x, space), false);
    assert !Plain(Then("", Separated(x, space)), true);
    assert !Plain(Then(x, Then("", Separated(x, space))), false);
    assert !Plain(Then("", Then(x, Then("", Separated(x, space)))), true);
  }
}
