/** White space as `strings.TrimSpace` sees it. */
module Text {

  predicate IsSpace(c: char) {
    var n := c as int;
    || 9 <= n <= 13 || n == 0x20 || n == 0x85 || n == 0xa0 || n == 0x1680 || 0x2000 <= n <= 0x200a
    || n == 0x2028 || n == 0x2029 || n == 0x202f || n == 0x205f || n == 0x3000
  }

  function TrimLeft<T>(space: T -> bool, s: seq<T>): (t: seq<T>)
    ensures t == [] || !space(t[0])
    ensures |t| <= |s| && t == s[|s| - |t|..]
  {
    if s != [] && space(s[0]) then TrimLeft(space, s[1..]) else s
  }

  function TrimRight<T>(space: T -> bool, s: seq<T>): (t: seq<T>)
    ensures t == [] || !space(t[|t| - 1])
    ensures |t| <= |s| && t == s[..|t|]
  {
    if s != [] && space(s[|s| - 1]) then TrimRight(space, s[..|s| - 1]) else s
  }

  function Trim<T>(space: T -> bool, s: seq<T>): seq<T> {
    TrimRight(space, TrimLeft(space, s))
  }

  function TrimSpace(s: string): string { Trim(IsSpace, s) }
}
