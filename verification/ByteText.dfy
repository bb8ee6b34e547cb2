/** Trimming of white space on bytes: `strings.TrimSpace` on a string that holds UTF-8. A `char` is one
    byte here. On the encoding of a text it is the encoding of the trimmed text. */
module ByteText {
  import Text

  predicate Space1(a: char) { 9 <= a as int <= 13 || a as int == 0x20 }

  predicate Space2(a: char, b: char) { a as int == 0xc2 && (b as int == 0x85 || b as int == 0xa0) }

  predicate Space3(a: char, b: char, c: char) {
    var x, y, z := a as int, b as int, c as int;
    || (x == 0xe1 && y == 0x9a && z == 0x80)
    || (x == 0xe2 && y == 0x80 && (0x80 <= z <= 0x8a || z == 0xa8 || z == 0xa9 || z == 0xaf))
    || (x == 0xe2 && y == 0x81 && z == 0x9f)
    || (x == 0xe3 && y == 0x80 && z == 0x80)
  }

  /** The length of the white-space character at the front, or 0. */
  function SpaceInFront(s: string): (n: nat)
    ensures n <= |s|
  {
    if |s| >= 1 && Space1(s[0]) then 1
    else if |s| >= 2 && Space2(s[0], s[1]) then 2
    else if |s| >= 3 && Space3(s[0], s[1], s[2]) then 3
    else 0
  }

  /** The length of the white-space character at the end, or 0. */
  function SpaceAtEnd(s: string): (n: nat)
    ensures n <= |s|
  {
    var n := |s|;
    if n >= 1 && Space1(s[n - 1]) then 1
    else if n >= 2 && Space2(s[n - 2], s[n - 1]) then 2
    else if n >= 3 && Space3(s[n - 3], s[n - 2], s[n - 1]) then 3
    else 0
  }

  function TrimFront(s: string): string
    decreases |s|
  {
    var n := SpaceInFront(s);
    if n == 0 then s else TrimFront(s[n..])
  }

  function TrimEnd(s: string): string
    decreases |s|
  {
    var n := SpaceAtEnd(s);
    if n == 0 then s else TrimEnd(s[..|s| - n])
  }

  function TrimBytes(s: string): string { TrimEnd(TrimFront(s)) }

  /** Trimming takes a piece out of the middle. */
  lemma {:induction false} TrimFrontIsSuffix(s: string)
    ensures |TrimFront(s)| <= |s| && TrimFront(s) == s[|s| - |TrimFront(s)|..]
    decreases |s|
  {
    if SpaceInFront(s) > 0 { TrimFrontIsSuffix(s[SpaceInFront(s)..]); }
  }

  lemma {:induction false} TrimEndIsPrefix(s: string)
    ensures |TrimEnd(s)| <= |s| && TrimEnd(s) == s[..|TrimEnd(s)|]
    decreases |s|
  {
    if SpaceAtEnd(s) > 0 { TrimEndIsPrefix(s[..|s| - SpaceAtEnd(s)]); }
  }

  // ---- a carriage return at the end ----

  lemma {:induction false} TrimFrontReturn(y: string)
    ensures var t, u := TrimFront(y), TrimFront(y + "\r");
            if t == "" then u == "" || u == "\r" else u == t + "\r"
    decreases |y|
  {
    var n := SpaceInFront(y);
    assert forall i :: 0 <= i < |y| ==> (y + "\r")[i] == y[i];
    if n > 0 {
      assert SpaceInFront(y + "\r") == n;
      assert (y + "\r")[n..] == y[n..] + "\r";
      TrimFrontReturn(y[n..]);
    } else if y != "" {
      assert SpaceInFront(y + "\r") == 0;
    }
  }

  lemma TrimEndReturn(t: string)
    ensures TrimEnd(t + "\r") == TrimEnd(t)
  {
    assert (t + "\r")[..|t|] == t;
  }

  lemma TrimReturn(y: string)
    ensures TrimBytes(y + "\r") == TrimBytes(y)
  {
    TrimFrontReturn(y);
    var t := TrimFront(y);
    TrimEndReturn(t);
    if t == "" { assert t + "\r" == "\r"; }
  }

  // ---- the bytes of a text ----

  function Byte(n: int): char
    requires 0 <= n < 256
  {
    n as char
  }

  /** The UTF-8 bytes of one character. */
  function Utf8(c: char): string {
    var n := c as int;
    if n < 0x80 then [Byte(n)]
    else if n < 0x800 then [Byte(0xc0 + n / 64), Byte(0x80 + n % 64)]
    else if n < 0x1_0000 then [Byte(0xe0 + n / 4096), Byte(0x80 + n / 64 % 64), Byte(0x80 + n % 64)]
    else [Byte(0xf0 + n / 262144), Byte(0x80 + n / 4096 % 64), Byte(0x80 + n / 64 % 64), Byte(0x80 + n % 64)]
  }

  function Encode(text: string): string {
    if text == "" then "" else Utf8(text[0]) + Encode(text[1..])
  }

  lemma SpaceInTwo(n: int)
    requires 0x80 <= n < 0x800
    ensures Text.IsSpace(n as char) <==> Space2(Byte(0xc0 + n / 64), Byte(0x80 + n % 64))
  {
  }

  lemma SpaceInThree(n: int)
    requires 0x800 <= n < 0xd800 || 0xe000 <= n < 0x1_0000
    ensures Text.IsSpace(n as char)
            <==> Space3(Byte(0xe0 + n / 4096), Byte(0x80 + n / 64 % 64), Byte(0x80 + n % 64))
  {
    assert n == n / 4096 * 4096 + n / 64 % 64 * 64 + n % 64;
  }

  lemma SpaceFront(c: char, rest: string)
    ensures SpaceInFront(Utf8(c) + rest) == if Text.IsSpace(c) then |Utf8(c)| else 0
  {
    var n := c as int;
    if 0x80 <= n < 0x800 {
      SpaceInTwo(n);
    } else if 0x800 <= n < 0x1_0000 {
      SpaceInThree(n);
    }
  }

  lemma SpaceBack(before: string, c: char)
    ensures SpaceAtEnd(before + Utf8(c)) == if Text.IsSpace(c) then |Utf8(c)| else 0
  {
    var n, s := c as int, before + Utf8(c);
    if 0x80 <= n < 0x800 {
      SpaceInTwo(n);
    } else if 0x800 <= n < 0x1_0000 {
      SpaceInThree(n);
    }
  }

  lemma {:induction false} TrimFrontIsLeft(text: string)
    ensures TrimFront(Encode(text)) == Encode(Text.TrimLeft(Text.IsSpace, text))
    decreases |text|
  {
    if text != "" {
      var c, rest := text[0], Encode(text[1..]);
      SpaceFront(c, rest);
      if Text.IsSpace(c) {
        assert (Utf8(c) + rest)[|Utf8(c)|..] == rest;
        TrimFrontIsLeft(text[1..]);
      }
    }
  }

  lemma {:induction false} EncodeLast(text: string, c: char)
    ensures Encode(text + [c]) == Encode(text) + Utf8(c)
    decreases |text|
  {
    if text == "" {
      assert "" + [c] == [c] && [c][1..] == "";
      assert Utf8(c) + "" == Utf8(c) == "" + Utf8(c);
    } else {
      EncodeLast(text[1..], c);
      assert (text + [c])[1..] == text[1..] + [c];
      assert Utf8(text[0]) + (Encode(text[1..]) + Utf8(c)) == Utf8(text[0]) + Encode(text[1..]) + Utf8(c);
    }
  }

  lemma {:induction false} TrimEndIsRight(text: string)
    ensures TrimEnd(Encode(text)) == Encode(Text.TrimRight(Text.IsSpace, text))
    decreases |text|
  {
    if text != "" {
      var front, c := text[..|text| - 1], text[|text| - 1];
      assert text == front + [c];
      EncodeLast(front, c);
      SpaceBack(Encode(front), c);
      if Text.IsSpace(c) {
        assert (Encode(front) + Utf8(c))[..|Encode(front)|] == Encode(front);
        TrimEndIsRight(front);
      }
    }
  }

  /** Trimming the bytes of a text gives the bytes of the trimmed text. */
  lemma TrimBytesOfText(text: string)
    ensures TrimBytes(Encode(text)) == Encode(Text.TrimSpace(text))
  {
    TrimFrontIsLeft(text);
    TrimEndIsRight(Text.TrimLeft(Text.IsSpace, text));
  }

  // ---- the text of bytes ----

  const REPLACEMENT: char := 0xfffd as char

  predicate Continues(c: char) { 0x80 <= c as int < 0xc0 }

  /** The length of the valid encoding at the front, or 0 if there is none. */
  function RuneSize(s: string): (n: nat)
    requires s != ""
    ensures n <= |s|
  {
    var a := s[0] as int;
    if a < 0x80 then 1
    else if 0xc2 <= a < 0xe0 then if |s| >= 2 && Continues(s[1]) then 2 else 0
    else if 0xe0 <= a < 0xf0 then
      if && |s| >= 3 && Continues(s[1]) && Continues(s[2])
         && (a == 0xe0 ==> s[1] as int >= 0xa0) && (a == 0xed ==> (s[1] as int) < 0xa0)
      then 3 else 0
    else if 0xf0 <= a < 0xf5 then
      if && |s| >= 4 && Continues(s[1]) && Continues(s[2]) && Continues(s[3])
         && (a == 0xf0 ==> s[1] as int >= 0x90) && (a == 0xf4 ==> (s[1] as int) < 0x90)
      then 4 else 0
    else 0
  }

  /** The character at the front; a byte that is not part of a valid encoding counts as U+FFFD. */
  function Rune(s: string): char
    requires s != ""
  {
    var n, a := RuneSize(s), s[0] as int;
    if n == 0 then REPLACEMENT
    else if n == 1 then s[0]
    else if n == 2 then ((a - 0xc0) * 64 + (s[1] as int - 0x80)) as char
    else if n == 3 then ((a - 0xe0) * 4096 + (s[1] as int - 0x80) * 64 + (s[2] as int - 0x80)) as char
    else ((a - 0xf0) * 262144 + (s[1] as int - 0x80) * 4096 + (s[2] as int - 0x80) * 64 + (s[3] as int - 0x80)) as char
  }

  /** What JSON encoding and decoding make of a string: every invalid byte becomes U+FFFD. */
  function Repair(s: string): string
    decreases |s|
  {
    if s == "" then "" else [Rune(s)] + Repair(s[if RuneSize(s) == 0 then 1 else RuneSize(s)..])
  }

  predicate ValidUtf8(s: string) { Encode(Repair(s)) == s }

  lemma RuneOfTwo(x: int, y: int, rest: string)
    requires 2 <= x < 32 && 0 <= y < 64
    ensures var s := [Byte(0xc0 + x), Byte(0x80 + y)] + rest; RuneSize(s) == 2 && Rune(s) as int == x * 64 + y
  {
  }

  lemma RuneOfThree(x: int, y: int, z: int, rest: string)
    requires 0 <= x < 16 && 0 <= y < 64 && 0 <= z < 64 && (x == 0 ==> y >= 32) && (x == 13 ==> y < 32)
    ensures var s := [Byte(0xe0 + x), Byte(0x80 + y), Byte(0x80 + z)] + rest;
            RuneSize(s) == 3 && Rune(s) as int == x * 4096 + y * 64 + z
  {
  }

  lemma RuneOfFour(w: int, x: int, y: int, z: int, rest: string)
    requires 0 <= w <= 4 && 0 <= x < 64 && 0 <= y < 64 && 0 <= z < 64 && (w == 0 ==> x >= 16) && (w == 4 ==> x < 16)
    ensures var s := [Byte(0xf0 + w), Byte(0x80 + x), Byte(0x80 + y), Byte(0x80 + z)] + rest;
            RuneSize(s) == 4 && Rune(s) as int == w * 262144 + x * 4096 + y * 64 + z
  {
  }

  lemma ThreeDigits(n: int)
    ensures n == n / 4096 * 4096 + n / 64 % 64 * 64 + n % 64
  {
    assert n / 64 == n / 4096 * 64 + n / 64 % 64;
  }

  lemma FourDigits(n: int)
    ensures n == n / 262144 * 262144 + n / 4096 % 64 * 4096 + n / 64 % 64 * 64 + n % 64
  {
    ThreeDigits(n);
    assert n / 4096 == n / 262144 * 64 + n / 4096 % 64;
  }

  lemma RuneOfThreeBytes(c: char, rest: string)
    requires 0x800 <= c as int < 0x1_0000
    ensures RuneSize(Utf8(c) + rest) == 3 && Rune(Utf8(c) + rest) == c
  {
    var n := c as int;
    var x, y, z := n / 4096, n / 64 % 64, n % 64;
    ThreeDigits(n);
    RuneOfThree(x, y, z, rest);
  }

  lemma RuneOfFourBytes(c: char, rest: string)
    requires 0x1_0000 <= c as int
    ensures RuneSize(Utf8(c) + rest) == 4 && Rune(Utf8(c) + rest) == c
  {
    var n := c as int;
    var w, x, y, z := n / 262144, n / 4096 % 64, n / 64 % 64, n % 64;
    FourDigits(n);
    RuneOfFour(w, x, y, z, rest);
  }

  lemma RuneOfUtf8(c: char, rest: string)
    ensures RuneSize(Utf8(c) + rest) == |Utf8(c)| && Rune(Utf8(c) + rest) == c
  {
    var n := c as int;
    if n < 0x80 {
    } else if n < 0x800 {
      RuneOfTwo(n / 64, n % 64, rest);
    } else if n < 0x1_0000 {
      RuneOfThreeBytes(c, rest);
    } else {
      RuneOfFourBytes(c, rest);
    }
  }

  /** Decoding inverts encoding; so the valid byte strings are the encodings of texts. */
  lemma {:induction false} RepairEncode(text: string)
    ensures Repair(Encode(text)) == text
    decreases |text|
  {
    if text != "" {
      var c, rest := text[0], Encode(text[1..]);
      RuneOfUtf8(c, rest);
      assert (Utf8(c) + rest)[|Utf8(c)|..] == rest;
      RepairEncode(text[1..]);
      assert text == [text[0]] + text[1..];
    }
  }

  lemma ValidIff(s: string)
    ensures ValidUtf8(s) <==> exists text :: s == Encode(text)
  {
    if text :| s == Encode(text) { RepairEncode(text); }
  }

  lemma {:induction false} AsciiIsItself(s: string)
    requires forall i :: 0 <= i < |s| ==> (s[i] as int) < 0x80
    ensures Repair(s) == s && ValidUtf8(s)
    decreases |s|
  {
    if s != "" {
      AsciiIsItself(s[1..]);
      assert s == [s[0]] + s[1..];
    }
  }
}
