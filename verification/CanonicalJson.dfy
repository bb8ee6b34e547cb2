/** Canonical JSON text: the writer, and a parser that inverts it.
    A `string` is a sequence of Unicode scalar values; order by scalar value is the order of the
    UTF-8 bytes that `sort.Strings` compares. */
module CanonicalJson {
  import opened Wrappers

  /** A decoded value. Numbers keep their lexeme. */
  datatype Json =
    | Null
    | Bool(truth: bool)
    | Str(text: string)
    | Num(lexeme: string)
    | Arr(items: seq<Json>)
    | Obj(fields: map<string, Json>)

  predicate NumberChar(c: char) {
    '0' <= c <= '9' || c == '-' || c == '+' || c == '.' || c == 'e' || c == 'E'
  }

  /** Holds of every number token of section 6 of RFC 8259. */
  predicate NumberText(s: string) {
    s != "" && forall i :: 0 <= i < |s| ==> NumberChar(s[i])
  }

  predicate WellFormed(j: Json) {
    match j
    case Num(lexeme) => NumberText(lexeme)
    case Arr(items) => forall i :: 0 <= i < |items| ==> WellFormed(items[i])
    case Obj(fields) => forall k :: k in fields ==> WellFormed(fields[k])
    case _ => true
  }

  // ---- key order ----

  predicate Less(a: string, b: string) {
    b != "" && (a == "" || a[0] < b[0] || (a[0] == b[0] && Less(a[1..], b[1..])))
  }

  lemma {:induction false} LessTransitive(a: string, b: string, c: string)
    requires Less(a, b) && Less(b, c)
    ensures Less(a, c)
  {
    if a != "" && b[0] == c[0] && a[0] == b[0] {
      LessTransitive(a[1..], b[1..], c[1..]);
    }
  }

  lemma {:induction false} LessTotal(a: string, b: string)
    ensures a == b || Less(a, b) || Less(b, a)
    ensures !(Less(a, b) && Less(b, a))
    ensures Less(a, b) ==> a != b
  {
    if a != "" && b != "" && a[0] == b[0] {
      LessTotal(a[1..], b[1..]);
      assert a == [a[0]] + a[1..] && b == [b[0]] + b[1..];
    }
  }

  ghost predicate StrictlySorted(s: seq<string>) {
    forall i, j :: 0 <= i < j < |s| ==> Less(s[i], s[j])
  }

  ghost function Elements(s: seq<string>): set<string> { set x | x in s }

  /** A strictly sorted listing of a set of keys is unique, so the order in which a map
      hands out its keys cannot show. */
  lemma {:induction false} SortedListingUnique(a: seq<string>, b: seq<string>)
    requires StrictlySorted(a) && StrictlySorted(b) && Elements(a) == Elements(b)
    ensures a == b
  {
    assert a != [] ==> a[0] in Elements(b);
    assert b != [] ==> b[0] in Elements(a);
    if a != [] {
      FirstIsLeast(a, b);
      FirstIsLeast(b, a);
      LessTotal(a[0], b[0]);
      assert a[0] == b[0];
      forall x ensures x in Elements(a[1..]) <==> x in Elements(b[1..]) {
        RestOfSorted(a, x);
        RestOfSorted(b, x);
      }
      SortedListingUnique(a[1..], b[1..]);
      assert a == [a[0]] + a[1..] && b == [b[0]] + b[1..];
    }
  }

  lemma FirstIsLeast(a: seq<string>, b: seq<string>)
    requires a != [] && b != [] && StrictlySorted(a) && Elements(a) == Elements(b)
    ensures a[0] == b[0] || Less(a[0], b[0])
  {
    assert b[0] in Elements(b);
  }

  lemma RestOfSorted(a: seq<string>, x: string)
    requires a != [] && StrictlySorted(a)
    ensures x in Elements(a[1..]) <==> x in Elements(a) && x != a[0]
  {
    if x in a[1..] {
      var i :| 1 <= i < |a| && a[i] == x;
      LessTotal(a[0], a[i]);
    }
  }

  ghost predicate IsLeast(m: string, keys: set<string>) {
    m in keys && forall k :: k in keys ==> k == m || Less(m, k)
  }

  lemma {:induction false} LeastExists(keys: set<string>)
    requires keys != {}
    ensures exists m :: IsLeast(m, keys)
    decreases |keys|
  {
    var x :| x in keys;
    if keys == {x} {
      assert IsLeast(x, keys);
    } else {
      LeastExists(keys - {x});
      var m :| IsLeast(m, keys - {x});
      LessTotal(m, x);
      if Less(x, m) {
        forall k | k in keys ensures k == x || Less(x, k) {
          if k != x && k != m { LessTransitive(x, m, k); }
        }
        assert IsLeast(x, keys);
      } else {
        assert IsLeast(m, keys);
      }
    }
  }

  /** The keys of an object in ascending order. */
  ghost function SortedKeys(keys: set<string>): (s: seq<string>)
    ensures Elements(s) == keys && StrictlySorted(s)
    decreases |keys|
  {
    if keys == {} then []
    else
      LeastExists(keys);
      var m :| IsLeast(m, keys);
      var rest := SortedKeys(keys - {m});
      LeastFirst(m, rest, keys);
      [m] + rest
  }

  lemma LeastFirst(m: string, rest: seq<string>, keys: set<string>)
    requires IsLeast(m, keys) && StrictlySorted(rest) && Elements(rest) == keys - {m}
    ensures Elements([m] + rest) == keys && StrictlySorted([m] + rest)
  {
    forall i | 0 <= i < |rest| ensures Less(m, rest[i]) {
      assert rest[i] in Elements(rest);
    }
    forall k ensures k in Elements([m] + rest) <==> k in keys {
      assert k in [m] + rest <==> k == m || k in Elements(rest);
    }
  }

  // ---- text of strings ----

  function HexDigit(n: int): char
    requires 0 <= n < 16
  {
    "0123456789abcdef"[n]
  }

  function HexValue(c: char): (v: int)
    ensures -1 <= v < 16
  {
    if '0' <= c <= '9' then c as int - '0' as int
    else if 'a' <= c <= 'f' then c as int - 'a' as int + 10
    else -1
  }

  lemma HexRoundTrip(n: int)
    requires 0 <= n < 16
    ensures HexValue(HexDigit(n)) == n
  {
  }

  /** The characters `json.Marshal` does not copy: controls, quote, backslash, the three
      HTML characters and the two JavaScript line separators. */
  predicate Escaped(c: char) {
    c as int < 0x20 || c == '"' || c == '\\' || c == '<' || c == '>' || c == '&'
    || c as int == 0x2028 || c as int == 0x2029
  }

  /** The letter of a two-character escape, if the character has one. */
  function ShortEscape(c: char): Option<char> {
    if c == '"' || c == '\\' then Some(c)
    else if c as int == 8 then Some('b')
    else if c as int == 12 then Some('f')
    else if c == '\n' then Some('n')
    else if c == '\r' then Some('r')
    else if c == '\t' then Some('t')
    else None
  }

  function Unescape(letter: char): Option<char> {
    if letter == '"' || letter == '\\' || letter == '/' then Some(letter)
    else if letter == 'b' then Some(8 as char)
    else if letter == 'f' then Some(12 as char)
    else if letter == 'n' then Some('\n')
    else if letter == 'r' then Some('\r')
    else if letter == 't' then Some('\t')
    else None
  }

  function Hex4(n: int): (s: string)
    requires 0 <= n < 0x10000
    ensures |s| == 4
  {
    [HexDigit(n / 0x1000), HexDigit(n / 0x100 % 16), HexDigit(n / 16 % 16), HexDigit(n % 16)]
  }

  function EscapeChar(c: char): (s: string)
    ensures s != ""
  {
    if !Escaped(c) then [c]
    else if ShortEscape(c).Some? then ['\\', ShortEscape(c).value]
    else ['\\', 'u'] + Hex4(c as int)
  }

  function EscapeAll(text: string): string {
    if text == "" then "" else EscapeChar(text[0]) + EscapeAll(text[1..])
  }

  function Quoted(text: string): string { ['"'] + EscapeAll(text) + ['"'] }

  // ---- text of values ----

  ghost function Canon(j: Json): string
    decreases j, 1
  {
    match j
    case Null => "null"
    case Bool(truth) => if truth then "true" else "false"
    case Str(text) => Quoted(text)
    case Num(lexeme) => lexeme
    case Arr(items) => ['['] + Items(items, true) + [']']
    case Obj(fields) => ['{'] + Members(j, SortedKeys(fields.Keys), true) + ['}']
  }

  function Comma(first: bool): string { if first then [] else [','] }

  ghost function Items(items: seq<Json>, first: bool): string
    decreases items, 0
  {
    if items == [] then "" else Comma(first) + Canon(items[0]) + Items(items[1..], false)
  }

  ghost function Members(j: Json, keys: seq<string>, first: bool): string
    requires j.Obj? && forall k :: k in keys ==> k in j.fields
    decreases j, 0, |keys|
  {
    if keys == [] then ""
    else Comma(first) + Quoted(keys[0]) + [':'] + Canon(j.fields[keys[0]]) + Members(j, keys[1..], false)
  }

  // ---- the parser ----

  datatype Parsed<T> = Failure | Success(value: T, rest: string)

  function ParseHex4(s: string): Parsed<char> {
    if |s| < 4 || HexValue(s[0]) < 0 || HexValue(s[1]) < 0 || HexValue(s[2]) < 0 || HexValue(s[3]) < 0 then Failure
    else
      var n := HexValue(s[0]) * 0x1000 + HexValue(s[1]) * 0x100 + HexValue(s[2]) * 16 + HexValue(s[3]);
      if 0xd800 <= n < 0xe000 then Failure else Success(n as char, s[4..])
  }

  /** The inside of a string, after its opening quote. */
  function ParseChars(s: string): (p: Parsed<string>)
    ensures p.Success? ==> |p.rest| < |s|
    decreases |s|
  {
    if s == "" then Failure
    else if s[0] == '"' then Success("", s[1..])
    else if s[0] != '\\' then
      var tail := ParseChars(s[1..]);
      if tail.Failure? then Failure else Success([s[0]] + tail.value, tail.rest)
    else if |s| < 2 then Failure
    else if s[1] == 'u' then
      var c := ParseHex4(s[2..]);
      if c.Failure? then Failure
      else
        var tail := ParseChars(c.rest);
        if tail.Failure? then Failure else Success([c.value] + tail.value, tail.rest)
    else if Unescape(s[1]).None? then Failure
    else
      var tail := ParseChars(s[2..]);
      if tail.Failure? then Failure else Success([Unescape(s[1]).value] + tail.value, tail.rest)
  }

  /** Length of the longest number text at the start of `s`. */
  function NumberSpan(s: string): (n: nat)
    ensures n <= |s|
  {
    if s == "" || !NumberChar(s[0]) then 0 else 1 + NumberSpan(s[1..])
  }

  function ParseValue(s: string): (p: Parsed<Json>)
    ensures p.Success? ==> |p.rest| < |s|
    decreases |s|, 0
  {
    if s == "" then Failure
    else if s[0] == 'n' then if "null" <= s then Success(Null, s[4..]) else Failure
    else if s[0] == 't' then if "true" <= s then Success(Bool(true), s[4..]) else Failure
    else if s[0] == 'f' then if "false" <= s then Success(Bool(false), s[5..]) else Failure
    else if s[0] == '"' then
      var t := ParseChars(s[1..]);
      if t.Failure? then Failure else Success(Str(t.value), t.rest)
    else if s[0] == '[' then
      var t := ParseItems(s[1..], true);
      if t.Failure? then Failure else Success(Arr(t.value), t.rest)
    else if s[0] == '{' then
      var t := ParseMembers(s[1..], true);
      if t.Failure? then Failure else Success(Obj(t.value), t.rest)
    else
      var n := NumberSpan(s);
      if n == 0 then Failure else Success(Num(s[..n]), s[n..])
  }

  function ParseItems(s: string, first: bool): (p: Parsed<seq<Json>>)
    ensures p.Success? ==> |p.rest| < |s|
    decreases |s|, 1
  {
    if s == "" then Failure
    else if s[0] == ']' then Success([], s[1..])
    else if !first && s[0] != ',' then Failure
    else
      var head := ParseValue(if first then s else s[1..]);
      if head.Failure? then Failure
      else
        var tail := ParseItems(head.rest, false);
        if tail.Failure? then Failure else Success([head.value] + tail.value, tail.rest)
  }

  function ParseMembers(s: string, first: bool): (p: Parsed<map<string, Json>>)
    ensures p.Success? ==> |p.rest| < |s|
    decreases |s|, 1
  {
    if s == "" then Failure
    else if s[0] == '}' then Success(map[], s[1..])
    else if !first && s[0] != ',' then Failure
    else
      var body := if first then s else s[1..];
      if body == "" || body[0] != '"' then Failure
      else
        var key := ParseChars(body[1..]);
        if key.Failure? || key.rest == "" || key.rest[0] != ':' then Failure
        else
          var value := ParseValue(key.rest[1..]);
          if value.Failure? then Failure
          else
            var tail := ParseMembers(value.rest, false);
            if tail.Failure? then Failure
            else Success(map[key.value := value.value] + tail.value, tail.rest)
  }

  // ---- the parser inverts the writer ----

  lemma HexDigitsOf(n: int)
    requires 0 <= n < 0x10000
    ensures n == n / 0x1000 * 0x1000 + n / 0x100 % 16 * 0x100 + n / 16 % 16 * 16 + n % 16
  {
    var a, b, c := n / 0x1000, n / 0x100, n / 16;
    assert b / 16 == a && c / 16 == b;
  }

  lemma Hex4RoundTrip(c: char, rest: string)
    requires c as int < 0x10000
    ensures ParseHex4(Hex4(c as int) + rest) == Success(c, rest)
  {
    var n := c as int;
    var s := Hex4(n) + rest;
    var a, b, d, e := n / 0x1000, n / 0x100 % 16, n / 16 % 16, n % 16;
    HexDigitsOf(n);
    assert s == [HexDigit(a), HexDigit(b), HexDigit(d), HexDigit(e)] + rest;
    HexRoundTrip(a);
    HexRoundTrip(b);
    HexRoundTrip(d);
    HexRoundTrip(e);
    assert s[4..] == rest;
  }

  lemma Reassociate(a: string, b: string, c: string)
    ensures (a + b) + c == a + (b + c)
  {
  }

  lemma EscapeCharRoundTrip(c: char, rest: string)
    ensures var tail := ParseChars(rest);
            ParseChars(EscapeChar(c) + rest)
            == if tail.Failure? then Failure else Success([c] + tail.value, tail.rest)
  {
    var s := EscapeChar(c) + rest;
    if !Escaped(c) {
      assert s[0] == c && s[1..] == rest;
    } else if ShortEscape(c).Some? {
      assert s[0] == '\\' && s[1] == ShortEscape(c).value && s[2..] == rest;
      assert Unescape(s[1]) == Some(c);
    } else {
      assert s[0] == '\\' && s[1] == 'u' && s[2..] == Hex4(c as int) + rest;
      Hex4RoundTrip(c, rest);
    }
  }

  lemma {:induction false} QuotedRoundTrip(text: string, rest: string)
    ensures ParseChars(EscapeAll(text) + (['"'] + rest)) == Success(text, rest)
  {
    var end := ['"'] + rest;
    if text == "" {
      assert EscapeAll(text) + end == end;
      assert end[0] == '"' && end[1..] == rest;
    } else {
      QuotedRoundTrip(text[1..], rest);
      Reassociate(EscapeChar(text[0]), EscapeAll(text[1..]), end);
      EscapeCharRoundTrip(text[0], EscapeAll(text[1..]) + end);
      assert [text[0]] + text[1..] == text;
    }
  }

  /** After the opening quote of a quoted text comes its inside. */
  lemma QuotedInside(text: string, rest: string)
    ensures var s := Quoted(text) + rest;
            s != "" && s[0] == '"' && s[1..] == EscapeAll(text) + (['"'] + rest)
  {
  }

  lemma {:induction false} NumberSpanOf(lexeme: string, rest: string)
    requires forall i :: 0 <= i < |lexeme| ==> NumberChar(lexeme[i])
    requires rest == "" || !NumberChar(rest[0])
    ensures NumberSpan(lexeme + rest) == |lexeme|
  {
    if lexeme == "" {
      assert lexeme + rest == rest;
    } else {
      assert (lexeme + rest)[1..] == lexeme[1..] + rest;
      NumberSpanOf(lexeme[1..], rest);
    }
  }

  /** What may follow a value in canonical text: nothing that would extend a number. */
  predicate Delimited(rest: string) { rest == "" || !NumberChar(rest[0]) }

  lemma CanonFirst(j: Json)
    requires WellFormed(j)
    ensures Canon(j) != "" && Canon(j)[0] !in {']', '}', ','}
  {
  }

  lemma ParseWord(j: Json, rest: string)
    requires j.Null? || j.Bool?
    ensures ParseValue(Canon(j) + rest) == Success(j, rest)
  {
    var s := Canon(j) + rest;
    if j.Null? {
      assert s[..4] == "null" && s[4..] == rest;
    } else if j.truth {
      assert s[..4] == "true" && s[4..] == rest;
    } else {
      assert s[..5] == "false" && s[5..] == rest;
    }
  }

  lemma ParseText(text: string, rest: string)
    ensures ParseValue(Quoted(text) + rest) == Success(Str(text), rest)
  {
    QuotedInside(text, rest);
    QuotedRoundTrip(text, rest);
  }

  lemma ParseNumber(lexeme: string, rest: string)
    requires NumberText(lexeme) && Delimited(rest)
    ensures ParseValue(lexeme + rest) == Success(Num(lexeme), rest)
  {
    var s := lexeme + rest;
    NumberSpanOf(lexeme, rest);
    assert s[0] == lexeme[0] && NumberChar(lexeme[0]);
    assert s[..|lexeme|] == lexeme && s[|lexeme|..] == rest;
  }

  lemma Bracketed(open: char, inner: string, close: char, rest: string)
    ensures var s := [open] + inner + [close] + rest;
            s != "" && s[0] == open && s[1..] == inner + ([close] + rest)
  {
  }

  /** Parsing the canonical text of any tree gives the tree back and leaves the rest. */
  lemma {:induction false} ParseCanon(j: Json, rest: string)
    requires WellFormed(j) && Delimited(rest)
    ensures ParseValue(Canon(j) + rest) == Success(j, rest)
    decreases j, 1
  {
    match j
    case Null => ParseWord(j, rest);
    case Bool(_) => ParseWord(j, rest);
    case Str(text) => ParseText(text, rest);
    case Num(lexeme) => ParseNumber(lexeme, rest);
    case Arr(items) =>
      Bracketed('[', Items(items, true), ']', rest);
      ParseItemsOf(items, true, rest);
    case Obj(fields) =>
      var keys := SortedKeys(fields.Keys);
      Bracketed('{', Members(j, keys, true), '}', rest);
      ParseMembersOf(j, keys, true, rest);
      AllFields(fields, keys);
  }

  lemma AllFields(fields: map<string, Json>, keys: seq<string>)
    requires Elements(keys) == fields.Keys
    ensures forall k :: k in keys ==> k in fields
    ensures (map k | k in keys :: fields[k]) == fields
  {
    assert forall k :: k in keys <==> k in Elements(keys);
  }

  lemma ItemsText(items: seq<Json>, first: bool, end: string)
    requires items != []
    ensures Items(items, first) + end == Comma(first) + (Canon(items[0]) + (Items(items[1..], false) + end))
  {
  }

  lemma ItemsEnd(items: seq<Json>, rest: string)
    ensures Delimited(Items(items, false) + ([']'] + rest))
  {
  }

  lemma {:induction false} ParseItemsOf(items: seq<Json>, first: bool, rest: string)
    requires forall i :: 0 <= i < |items| ==> WellFormed(items[i])
    ensures ParseItems(Items(items, first) + ([']'] + rest), first) == Success(items, rest)
    decreases items, 0
  {
    var end := [']'] + rest;
    var s := Items(items, first) + end;
    if items == [] {
      assert s == end;
      assert end[0] == ']' && end[1..] == rest;
    } else {
      var tail := Items(items[1..], false) + end;
      ItemsText(items, first, end);
      ItemsEnd(items[1..], rest);
      CanonFirst(items[0]);
      assert (if first then s else s[1..]) == Canon(items[0]) + tail;
      ParseCanon(items[0], tail);
      ParseItemsOf(items[1..], false, rest);
      assert [items[0]] + items[1..] == items;
    }
  }

  /** One unfolding of the member parser, given how its pieces parse. */
  lemma MembersStep(s: string, first: bool, key: string, afterKey: string, value: Json, tail: string)
    requires s != "" && s[0] != '}' && (first || s[0] == ',')
    requires var body := if first then s else s[1..];
             body != "" && body[0] == '"' && ParseChars(body[1..]) == Success(key, afterKey)
    requires afterKey != "" && afterKey[0] == ':' && ParseValue(afterKey[1..]) == Success(value, tail)
    ensures var more := ParseMembers(tail, false);
            ParseMembers(s, first)
            == if more.Failure? then Failure else Success(map[key := value] + more.value, more.rest)
  {
  }

  function MemberText(key: string, valueText: string): string { Quoted(key) + ([':'] + valueText) }

  /** The parser reads one member of canonical text and goes on with the tail. */
  lemma ParseMember(key: string, value: Json, valueText: string, tail: string, first: bool)
    requires ParseValue(valueText) == Success(value, tail)
    ensures var more := ParseMembers(tail, false);
            ParseMembers(Comma(first) + MemberText(key, valueText), first)
            == if more.Failure? then Failure else Success(map[key := value] + more.value, more.rest)
  {
    var afterKey := [':'] + valueText;
    var body := MemberText(key, valueText);
    var s := Comma(first) + body;
    assert (if first then s else s[1..]) == body;
    QuotedInside(key, afterKey);
    QuotedRoundTrip(key, afterKey);
    assert afterKey[0] == ':' && afterKey[1..] == valueText;
    MembersStep(s, first, key, afterKey, value, tail);
  }

  lemma JoinMember(comma: string, quoted: string, value: string, members: string, end: string)
    ensures comma + quoted + [':'] + value + members + end == comma + (quoted + ([':'] + (value + (members + end))))
  {
  }

  lemma MembersText(j: Json, keys: seq<string>, first: bool, end: string)
    requires j.Obj? && keys != [] && forall k :: k in keys ==> k in j.fields
    ensures Members(j, keys, first) + end
         == Comma(first) + MemberText(keys[0], Canon(j.fields[keys[0]]) + (Members(j, keys[1..], false) + end))
  {
    JoinMember(Comma(first), Quoted(keys[0]), Canon(j.fields[keys[0]]), Members(j, keys[1..], false), end);
  }

  lemma MembersEnd(j: Json, keys: seq<string>, rest: string)
    requires j.Obj? && forall k :: k in keys ==> k in j.fields
    ensures Delimited(Members(j, keys, false) + (['}'] + rest))
  {
  }

  lemma {:induction false} ParseMembersOf(j: Json, keys: seq<string>, first: bool, rest: string)
    requires WellFormed(j) && j.Obj? && StrictlySorted(keys) && forall k :: k in keys ==> k in j.fields
    ensures ParseMembers(Members(j, keys, first) + (['}'] + rest), first)
         == Success(map k | k in keys :: j.fields[k], rest)
    decreases j, 0, |keys|
  {
    var end := ['}'] + rest;
    if keys == [] {
      assert Members(j, keys, first) + end == end;
      assert end[0] == '}' && end[1..] == rest;
    } else {
      var tail := Members(j, keys[1..], false) + end;
      MembersText(j, keys, first, end);
      MembersEnd(j, keys[1..], rest);
      ParseCanon(j.fields[keys[0]], tail);
      ParseMembersOf(j, keys[1..], false, rest);
      ParseMember(keys[0], j.fields[keys[0]], Canon(j.fields[keys[0]]) + tail, tail, first);
      SplitFirstKey(j.fields, keys);
    }
  }

  lemma SplitFirstKey(fields: map<string, Json>, keys: seq<string>)
    requires keys != [] && StrictlySorted(keys) && forall k :: k in keys ==> k in fields
    ensures map[keys[0] := fields[keys[0]]] + (map k | k in keys[1..] :: fields[k]) == map k | k in keys :: fields[k]
  {
    assert keys == [keys[0]] + keys[1..];
  }

  /** Distinct trees have distinct canonical texts. */
  lemma CanonInjective(a: Json, b: Json)
    requires WellFormed(a) && WellFormed(b)
    ensures Canon(a) == Canon(b) <==> a == b
  {
    ParseCanon(a, "");
    ParseCanon(b, "");
    assert Canon(a) + "" == Canon(a) && Canon(b) + "" == Canon(b);
  }

  // ---- the writer of the source ----

  class Buffer {
    var contents: string

    constructor ()
      ensures contents == ""
    {
      contents := "";
    }

    method Write(text: string)
      modifies this
      ensures contents == old(contents) + text
    {
      contents := contents + text;
    }
  }

  /** Insertion into a strictly sorted listing. */
  method Insert(sorted: seq<string>, key: string) returns (r: seq<string>)
    requires StrictlySorted(sorted) && key !in sorted
    ensures StrictlySorted(r) && Elements(r) == Elements(sorted) + {key}
  {
    var i := 0;
    while i < |sorted| && Less(sorted[i], key)
      invariant 0 <= i <= |sorted|
      invariant forall j :: 0 <= j < i ==> Less(sorted[j], key)
    {
      i := i + 1;
    }
    r := sorted[..i] + [key] + sorted[i..];
    forall j | i <= j < |sorted| ensures Less(key, sorted[j]) {
      LessTotal(sorted[i], key);
      if j > i { LessTransitive(key, sorted[i], sorted[j]); }
    }
    assert sorted == sorted[..i] + sorted[i..];
  }

  /** Whatever order a map hands out its keys in, sorting gives the one ascending listing. */
  method CollectKeys<V>(fields: map<string, V>) returns (keys: seq<string>)
    ensures keys == SortedKeys(fields.Keys)
  {
    keys := [];
    var pending := fields.Keys;
    while pending != {}
      invariant pending <= fields.Keys
      invariant StrictlySorted(keys) && Elements(keys) == fields.Keys - pending
      decreases |pending|
    {
      var key :| key in pending;
      assert key !in Elements(keys);
      keys := Insert(keys, key);
      pending := pending - {key};
    }
    SortedListingUnique(keys, SortedKeys(fields.Keys));
  }

  method WriteItems(buffer: Buffer, items: seq<Json>)
    modifies buffer
    ensures buffer.contents == old(buffer.contents) + Items(items, true)
    decreases items, 0
  {
    ghost var target := buffer.contents + Items(items, true);
    var i := 0;
    assert items[i..] == items;
    while i < |items|
      invariant 0 <= i <= |items|
      invariant buffer.contents + Items(items[i..], i == 0) == target
    {
      ghost var tail := Items(items[i + 1..], false);
      assert items[i..][1..] == items[i + 1..];
      ghost var done := buffer.contents;
      if i > 0 { buffer.Write([',']); }
      assert buffer.contents == done + Comma(i == 0);
      WriteCanonical(buffer, items[i]);
      Reassociate(done, Comma(i == 0), Canon(items[i]));
      Reassociate(done, Comma(i == 0) + Canon(items[i]), tail);
      i := i + 1;
    }
  }

  method WriteMembers(buffer: Buffer, whole: Json, keys: seq<string>)
    requires whole.Obj? && forall k :: k in keys ==> k in whole.fields
    modifies buffer
    ensures buffer.contents == old(buffer.contents) + Members(whole, keys, true)
    decreases whole, 0
  {
    ghost var target := buffer.contents + Members(whole, keys, true);
    var i := 0;
    assert keys[i..] == keys;
    while i < |keys|
      invariant 0 <= i <= |keys|
      invariant buffer.contents + Members(whole, keys[i..], i == 0) == target
    {
      ghost var tail := Members(whole, keys[i + 1..], false);
      assert keys[i..][1..] == keys[i + 1..];
      ghost var done := buffer.contents;
      if i > 0 { buffer.Write([',']); }
      assert buffer.contents == done + Comma(i == 0);
      buffer.Write(Quoted(keys[i]));
      buffer.Write([':']);
      WriteCanonical(buffer, whole.fields[keys[i]]);
      ghost var text := Comma(i == 0) + Quoted(keys[i]) + [':'];
      Reassociate(done, Comma(i == 0), Quoted(keys[i]));
      Reassociate(done, Comma(i == 0) + Quoted(keys[i]), [':']);
      Reassociate(done, text, Canon(whole.fields[keys[i]]));
      Reassociate(done, text + Canon(whole.fields[keys[i]]), tail);
      i := i + 1;
    }
  }

  method WriteCanonical(buffer: Buffer, value: Json)
    modifies buffer
    ensures buffer.contents == old(buffer.contents) + Canon(value)
    decreases value, 1
  {
    match value
    case Null => buffer.Write("null");
    case Bool(truth) => buffer.Write(if truth then "true" else "false");
    case Str(text) => buffer.Write(Quoted(text));
    case Num(lexeme) => buffer.Write(lexeme);
    case Arr(items) =>
      ghost var done := buffer.contents;
      buffer.Write(['[']);
      WriteItems(buffer, items);
      buffer.Write([']']);
      Reassociate(done, ['['], Items(items, true));
      Reassociate(done, ['['] + Items(items, true), [']']);
    case Obj(fields) =>
      var keys := CollectKeys(fields);
      AllFields(fields, keys);
      ghost var done := buffer.contents;
      buffer.Write(['{']);
      WriteMembers(buffer, value, keys);
      buffer.Write(['}']);
      Reassociate(done, ['{'], Members(value, keys, true));
      Reassociate(done, ['{'] + Members(value, keys, true), ['}']);
  }
}
