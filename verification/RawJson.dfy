/** Values before they are encoded: their strings are Go strings, that is bytes. Encoding replaces invalid
    bytes and writes the members of an object in the order of their keys; decoding assigns the members
    one after the other. */
module RawJson {
  import opened CanonicalJson
  import opened ByteText

  /** A value without cycles. `NotFinite` is an infinite number or NaN, `Unsupported` a value that JSON
      cannot carry, such as a function or a map with other keys. */
  datatype Raw =
    | RawNull
    | RawBool(truth: bool)
    | RawText(bytes: string)
    | RawNumber(lexeme: string)
    | RawList(items: seq<Raw>)
    | RawMap(fields: map<string, Raw>)
    | NotFinite
    | Unsupported

  /** The check before encoding. */
  predicate Safe(v: Raw) {
    match v
    case NotFinite => false
    case Unsupported => false
    case RawList(items) => forall i :: 0 <= i < |items| ==> Safe(items[i])
    case RawMap(fields) => forall k :: k in fields ==> Safe(fields[k])
    case _ => true
  }

  // ---- numbers ----

  predicate Digit(c: char) { '0' <= c <= '9' }

  function SkipDigits(s: string): (r: string)
    ensures |r| <= |s| && s[|s| - |r|..] == r && forall i :: 0 <= i < |s| - |r| ==> Digit(s[i])
    decreases |s|
  {
    if s != "" && Digit(s[0]) then SkipDigits(s[1..]) else s
  }

  /** An exponent, or nothing. */
  predicate Exponent(t: string) {
    if |t| >= 2 && (t[0] == 'e' || t[0] == 'E') then
      if t[1] == '+' || t[1] == '-' then |t| >= 3 && SkipDigits(t[2..]) == "" else SkipDigits(t[1..]) == ""
    else t == ""
  }

  /** A fraction and an exponent, each of which may be missing. */
  predicate AfterInteger(s: string) {
    Exponent(if |s| >= 2 && s[0] == '.' && Digit(s[1]) then SkipDigits(s[2..]) else s)
  }

  predicate Unsigned(t: string) {
    && t != ""
    && (if t[0] == '0' then AfterInteger(t[1..]) else Digit(t[0]) && AfterInteger(SkipDigits(t[1..])))
  }

  /** The number literals that the encoder accepts. */
  predicate ValidNumber(s: string) { Unsigned(if s != "" && s[0] == '-' then s[1..] else s) }

  predicate NumberChars(s: string) { forall i :: 0 <= i < |s| ==> NumberChar(s[i]) }

  lemma DigitsThen(s: string)
    requires NumberChars(SkipDigits(s))
    ensures NumberChars(s)
  {
    var r := SkipDigits(s);
    forall i | 0 <= i < |s| ensures NumberChar(s[i]) {
      if i >= |s| - |r| { assert s[i] == r[i - (|s| - |r|)]; }
    }
  }

  lemma CharThen(s: string, n: nat)
    requires n <= |s| && NumberChars(s[..n]) && NumberChars(s[n..])
    ensures NumberChars(s)
  {
    forall i | 0 <= i < |s| ensures NumberChar(s[i]) {
      if i < n { assert s[i] == s[..n][i]; } else { assert s[i] == s[n..][i - n]; }
    }
  }

  lemma ExponentChars(t: string)
    requires Exponent(t)
    ensures NumberChars(t)
  {
    if t != "" {
      if t[1] == '+' || t[1] == '-' {
        DigitsThen(t[2..]);
        CharThen(t, 2);
      } else {
        DigitsThen(t[1..]);
        CharThen(t, 1);
      }
    }
  }

  lemma AfterIntegerChars(s: string)
    requires AfterInteger(s)
    ensures NumberChars(s)
  {
    if |s| >= 2 && s[0] == '.' && Digit(s[1]) {
      ExponentChars(SkipDigits(s[2..]));
      DigitsThen(s[2..]);
      CharThen(s, 2);
    } else {
      ExponentChars(s);
    }
  }

  lemma UnsignedChars(t: string)
    requires Unsigned(t)
    ensures NumberChars(t)
  {
    var rest := t[1..];
    if t[0] == '0' {
      AfterIntegerChars(rest);
    } else {
      AfterIntegerChars(SkipDigits(rest));
      DigitsThen(rest);
    }
    CharThen(t, 1);
  }

  lemma ValidNumberChars(s: string)
    requires ValidNumber(s)
    ensures NumberText(s)
  {
    if s[0] == '-' {
      UnsignedChars(s[1..]);
      CharThen(s, 1);
    } else {
      UnsignedChars(s);
    }
  }

  /** The encoder accepts every number in the value; an empty literal is written as 0. */
  predicate Encodable(v: Raw) {
    match v
    case RawNumber(lexeme) => lexeme == "" || ValidNumber(lexeme)
    case RawList(items) => forall i :: 0 <= i < |items| ==> Encodable(items[i])
    case RawMap(fields) => forall k :: k in fields ==> Encodable(fields[k])
    case _ => true
  }

  const MAX_DEPTH := 10_000

  /** Lists and objects are nested at most so deep; the decoder refuses more. */
  predicate WithinDepth(v: Raw, depth: nat) {
    match v
    case RawList(items) => depth > 0 && forall i :: 0 <= i < |items| ==> WithinDepth(items[i], depth - 1)
    case RawMap(fields) => depth > 0 && forall k :: k in fields ==> WithinDepth(fields[k], depth - 1)
    case _ => true
  }

  // ---- encoding and decoding ----

  ghost function JsonOf(v: Raw): Json
    requires Safe(v)
    decreases v, 1
  {
    match v
    case RawNull => Null
    case RawBool(truth) => Bool(truth)
    case RawText(bytes) => Str(Repair(bytes))
    case RawNumber(lexeme) => Num(if lexeme == "" then "0" else lexeme)
    case RawList(items) => Arr(seq(|items|, i requires 0 <= i < |items| => JsonOf(items[i])))
    case RawMap(fields) => Obj(Assigned(v, SortedKeys(fields.Keys)))
  }

  /** The members of an object read in the given order: a later one replaces an earlier one. */
  ghost function Assigned(v: Raw, keys: seq<string>): map<string, Json>
    requires v.RawMap? && Safe(v) && Elements(keys) <= v.fields.Keys
    decreases v, 0, |keys|
  {
    if keys == [] then map[]
    else
      var n := |keys| - 1;
      assert keys[n] in Elements(keys);
      FrontElements(keys);
      Assigned(v, keys[..n])[Repair(keys[n]) := JsonOf(v.fields[keys[n]])]
  }

  lemma FrontElements(keys: seq<string>)
    requires keys != []
    ensures Elements(keys) == Elements(keys[..|keys| - 1]) + {keys[|keys| - 1]}
  {
    assert keys == keys[..|keys| - 1] + [keys[|keys| - 1]];
  }

  lemma {:induction false} JsonWellFormed(v: Raw)
    requires Safe(v) && Encodable(v)
    ensures WellFormed(JsonOf(v))
    decreases v, 1
  {
    match v
    case RawNumber(lexeme) => if lexeme != "" { ValidNumberChars(lexeme); }
    case RawList(items) =>
      forall i | 0 <= i < |items| ensures WellFormed(JsonOf(items[i])) { JsonWellFormed(items[i]); }
    case RawMap(fields) => AssignedWellFormed(v, SortedKeys(fields.Keys));
    case _ =>
  }

  lemma {:induction false} AssignedWellFormed(v: Raw, keys: seq<string>)
    requires v.RawMap? && Safe(v) && Encodable(v) && Elements(keys) <= v.fields.Keys
    ensures forall k :: k in Assigned(v, keys) ==> WellFormed(Assigned(v, keys)[k])
    decreases v, 0, |keys|
  {
    if keys != [] {
      var n := |keys| - 1;
      FrontElements(keys);
      AssignedWellFormed(v, keys[..n]);
      JsonWellFormed(v.fields[keys[n]]);
    }
  }

  // ---- what becomes of the keys of an object ----

  /** The last of the listed keys that looks like `k`. */
  ghost predicate Decides(keys: seq<string>, i: nat, k: string) {
    i < |keys| && Repair(keys[i]) == k && forall j :: i < j < |keys| ==> Repair(keys[j]) != k
  }

  lemma {:induction false} AssignedKeys(v: Raw, keys: seq<string>, k: string)
    requires v.RawMap? && Safe(v) && Elements(keys) <= v.fields.Keys
    ensures k in Assigned(v, keys) <==> exists x :: x in Elements(keys) && Repair(x) == k
    decreases |keys|
  {
    if keys != [] {
      var n := |keys| - 1;
      FrontElements(keys);
      AssignedKeys(v, keys[..n], k);
      assert keys[n] in Elements(keys);
    }
  }

  lemma {:induction false} AssignedValue(v: Raw, keys: seq<string>, i: nat, k: string)
    requires v.RawMap? && Safe(v) && Elements(keys) <= v.fields.Keys && Decides(keys, i, k)
    ensures keys[i] in v.fields && k in Assigned(v, keys) && Assigned(v, keys)[k] == JsonOf(v.fields[keys[i]])
    decreases |keys|
  {
    var n := |keys| - 1;
    assert keys[i] in Elements(keys);
    if i < n {
      FrontElements(keys);
      assert Repair(keys[n]) != k;
      AssignedValue(v, keys[..n], i, k);
    }
  }

  /** The decoded object has the repaired keys, and of keys that look the same the greatest in byte order
      gives its value. */
  lemma LastKeyWins(v: Raw, x: string)
    requires v.RawMap? && Safe(v) && x in v.fields
    requires forall y :: y in v.fields && Repair(y) == Repair(x) ==> y == x || Less(y, x)
    ensures Repair(x) in JsonOf(v).fields && JsonOf(v).fields[Repair(x)] == JsonOf(v.fields[x])
  {
    var keys := SortedKeys(v.fields.Keys);
    assert x in Elements(keys);
    var i :| 0 <= i < |keys| && keys[i] == x;
    forall j | i < j < |keys| ensures Repair(keys[j]) != Repair(x) {
      assert keys[j] in Elements(keys);
      LessTotal(x, keys[j]);
    }
    AssignedValue(v, keys, i, Repair(x));
  }

  lemma DecodedKeys(v: Raw, k: string)
    requires v.RawMap? && Safe(v)
    ensures k in JsonOf(v).fields <==> exists x :: x in v.fields && Repair(x) == k
  {
    AssignedKeys(v, SortedKeys(v.fields.Keys), k);
  }

  /** Without two keys that look the same every member survives. */
  lemma MemberSurvives(v: Raw, x: string)
    requires v.RawMap? && Safe(v) && x in v.fields
    requires forall y :: y in v.fields && Repair(y) == Repair(x) ==> y == x
    ensures Repair(x) in JsonOf(v).fields && JsonOf(v).fields[Repair(x)] == JsonOf(v.fields[x])
  {
    LastKeyWins(v, x);
  }

  /** Keys that look the same collide: the member of the smaller key is lost. */
  lemma LostMember(x: string, y: string, p: Raw, q: Raw)
    requires Repair(x) == Repair(y) && Less(x, y) && Safe(p) && Safe(q)
    ensures var a, b := RawMap(map[x := p, y := q]), RawMap(map[y := q]);
            a != b && Safe(a) && Safe(b) && JsonOf(a) == JsonOf(b)
  {
    var a, b := RawMap(map[x := p, y := q]), RawMap(map[y := q]);
    LessTotal(x, y);
    assert x in a.fields && x !in b.fields && y in a.fields && y in b.fields;
    LastKeyWins(a, y);
    LastKeyWins(b, y);
    OneLook(a, y);
    OneLook(b, y);
    SameSingle(JsonOf(a).fields, JsonOf(b).fields, Repair(y));
  }

  lemma OneLook(v: Raw, y: string)
    requires v.RawMap? && Safe(v) && y in v.fields && forall x :: x in v.fields ==> Repair(x) == Repair(y)
    ensures JsonOf(v).fields.Keys == {Repair(y)}
  {
    forall k ensures k in JsonOf(v).fields <==> k == Repair(y) { DecodedKeys(v, k); }
  }

  lemma SameSingle(a: map<string, Json>, b: map<string, Json>, k: string)
    requires a.Keys == {k} == b.Keys && a[k] == b[k]
    ensures a == b
  {
  }

  /** Such keys are the invalid bytes 80 and 81. */
  lemma KeysCollide()
    ensures var x, y := [Byte(0x80)], [Byte(0x81)]; Repair(x) == Repair(y) && Less(x, y)
  {
    var x, y := [Byte(0x80)], [Byte(0x81)];
    assert x[1..] == "" == y[1..];
  }

  // ---- valid text ----

  /** Every string and key is valid UTF-8 and no number literal is empty. */
  predicate ValidRaw(v: Raw) {
    match v
    case RawText(bytes) => ValidUtf8(bytes)
    case RawNumber(lexeme) => lexeme != ""
    case RawList(items) => forall i :: 0 <= i < |items| ==> ValidRaw(items[i])
    case RawMap(fields) => forall k :: k in fields ==> ValidUtf8(k) && ValidRaw(fields[k])
    case _ => true
  }

  lemma RepairInjective(a: string, b: string)
    requires ValidUtf8(a) && ValidUtf8(b)
    ensures Repair(a) == Repair(b) <==> a == b
  {
  }

  /** On valid text the decoded value determines the value. */
  lemma {:induction false} JsonOfInjective(a: Raw, b: Raw)
    requires Safe(a) && Safe(b) && ValidRaw(a) && ValidRaw(b) && JsonOf(a) == JsonOf(b)
    ensures a == b
    decreases a
  {
    match a
    case RawList(items) =>
      forall i | 0 <= i < |items| ensures items[i] == b.items[i] {
        assert JsonOf(a).items[i] == JsonOf(b).items[i];
        JsonOfInjective(items[i], b.items[i]);
      }
      assert items == b.items;
    case RawMap(fields) =>
      forall x | x in fields ensures x in b.fields && fields[x] == b.fields[x] {
        SharedKey(a, b, x);
        JsonOfInjective(fields[x], b.fields[x]);
      }
      forall x | x in b.fields ensures x in fields { SharedKey(b, a, x); }
      assert fields == b.fields;
    case _ =>
  }

  lemma SharedKey(a: Raw, b: Raw, x: string)
    requires a.RawMap? && b.RawMap? && Safe(a) && Safe(b) && ValidRaw(a) && ValidRaw(b) && JsonOf(a) == JsonOf(b)
    requires x in a.fields
    ensures x in b.fields && JsonOf(a.fields[x]) == JsonOf(b.fields[x])
  {
    MemberSurvives(a, x);
    DecodedKeys(b, Repair(x));
    var y :| y in b.fields && Repair(y) == Repair(x);
    RepairInjective(x, y);
    MemberSurvives(b, x);
  }

  // ---- the order of keys ----

  lemma {:induction false} LessPrefix(p: string, x: string, y: string)
    ensures Less(p + x, p + y) <==> Less(x, y)
    decreases |p|
  {
    if p == "" {
      assert p + x == x && p + y == y;
    } else {
      assert (p + x)[1..] == p[1..] + x && (p + y)[1..] == p[1..] + y;
      LessPrefix(p[1..], x, y);
    }
  }

  lemma LessFirst(s: string, t: string)
    requires s != "" && t != "" && s[0] < t[0]
    ensures Less(s, t)
  {
  }

  /** Two strings that part at a byte. */
  lemma LessAt(s: string, x: string, t: string, y: string, i: nat)
    requires i < |s| && i < |t| && s[..i] == t[..i] && s[i] < t[i]
    ensures Less(s + x, t + y)
  {
    var p, u, v := s[..i], s[i..] + x, t[i..] + y;
    assert u[0] == s[i] && v[0] == t[i];
    LessFirst(u, v);
    LessPrefix(p, u, v);
    assert s + x == p + u && t + y == p + v;
  }

  lemma TwoByteOrder(c: char, d: char) returns (i: nat)
    requires 0x80 <= c as int < d as int < 0x800
    ensures var s, t := Utf8(c), Utf8(d); i < |s| && i < |t| && s[..i] == t[..i] && s[i] < t[i]
  {
    i := if Utf8(c)[0] < Utf8(d)[0] then 0 else 1;
  }

  lemma ThreeByteOrder(c: char, d: char) returns (i: nat)
    requires 0x800 <= c as int < d as int < 0x1_0000
    ensures var s, t := Utf8(c), Utf8(d); i < |s| && i < |t| && s[..i] == t[..i] && s[i] < t[i]
  {
    var s, t := Utf8(c), Utf8(d);
    ThreeDigits(c as int);
    ThreeDigits(d as int);
    i := if s[0] < t[0] then 0 else if s[1] < t[1] then 1 else 2;
  }

  lemma FourByteOrder(c: char, d: char) returns (i: nat)
    requires 0x1_0000 <= c as int < d as int
    ensures var s, t := Utf8(c), Utf8(d); i < |s| && i < |t| && s[..i] == t[..i] && s[i] < t[i]
  {
    var s, t := Utf8(c), Utf8(d);
    FourDigits(c as int);
    FourDigits(d as int);
    i := if s[0] < t[0] then 0 else if s[1] < t[1] then 1 else if s[2] < t[2] then 2 else 3;
  }

  lemma Utf8Order(c: char, x: string, d: char, y: string)
    requires c < d
    ensures Less(Utf8(c) + x, Utf8(d) + y)
  {
    var n, m := c as int, d as int;
    var i: nat := 0;
    if 0x1_0000 <= n {
      i := FourByteOrder(c, d);
    } else if 0x800 <= n && m < 0x1_0000 {
      i := ThreeByteOrder(c, d);
    } else if 0x80 <= n && m < 0x800 {
      i := TwoByteOrder(c, d);
    }
    LessAt(Utf8(c), x, Utf8(d), y, i);
  }

  /** Texts are ordered as their bytes are, so sorting decoded keys by character is sorting them by byte. */
  lemma {:induction false} ByteOrder(a: string, b: string)
    ensures Less(a, b) <==> Less(Encode(a), Encode(b))
    decreases |a|
  {
    if a != "" && b != "" {
      var c, d, x, y := a[0], b[0], Encode(a[1..]), Encode(b[1..]);
      if c == d {
        LessPrefix(Utf8(c), x, y);
        ByteOrder(a[1..], b[1..]);
      } else if c < d {
        Utf8Order(c, x, d, y);
      } else {
        Utf8Order(d, y, c, x);
        LessTotal(Encode(a), Encode(b));
      }
    }
  }

  // ---- the pass as it runs ----

  method DecodeItems(items: seq<Raw>) returns (decoded: seq<Json>)
    requires forall i :: 0 <= i < |items| ==> Safe(items[i])
    ensures |decoded| == |items| && forall i :: 0 <= i < |items| ==> decoded[i] == JsonOf(items[i])
    decreases items, 0
  {
    decoded := [];
    for i := 0 to |items|
      invariant |decoded| == i && forall j :: 0 <= j < i ==> decoded[j] == JsonOf(items[j])
    {
      var item := EncodeAndDecode(items[i]);
      decoded := decoded + [item];
    }
  }

  method DecodeMembers(whole: Raw, keys: seq<string>) returns (members: map<string, Json>)
    requires whole.RawMap? && Safe(whole) && Elements(keys) <= whole.fields.Keys
    ensures members == Assigned(whole, keys)
    decreases whole, 0
  {
    members := map[];
    for i := 0 to |keys|
      invariant Elements(keys[..i]) <= whole.fields.Keys
      invariant members == Assigned(whole, keys[..i])
    {
      assert keys[i] in Elements(keys);
      assert keys[..i + 1][..i] == keys[..i];
      FrontElements(keys[..i + 1]);
      var value := EncodeAndDecode(whole.fields[keys[i]]);
      members := members[Repair(keys[i]) := value];
    }
    assert keys[..|keys|] == keys;
  }

  /** What encoding a value and decoding the text again gives. */
  method EncodeAndDecode(v: Raw) returns (j: Json)
    requires Safe(v)
    ensures j == JsonOf(v)
    decreases v, 1
  {
    match v
    case RawNull => j := Null;
    case RawBool(truth) => j := Bool(truth);
    case RawText(bytes) => j := Str(Repair(bytes));
    case RawNumber(lexeme) => j := Num(if lexeme == "" then "0" else lexeme);
    case RawList(items) =>
      var decoded := DecodeItems(items);
      assert decoded == JsonOf(v).items;
      j := Arr(decoded);
    case RawMap(fields) =>
      var keys := CollectKeys(fields);
      var members := DecodeMembers(v, keys);
      j := Obj(members);
  }
}
