/** Counting the elements of a sequence that satisfy a predicate. */
module Counting {

  function Count<T>(q: T -> bool, s: seq<T>): nat {
    if s == [] then 0 else Count(q, s[..|s| - 1]) + if q(s[|s| - 1]) then 1 else 0
  }

  function One(b: bool): nat { if b then 1 else 0 }

  /** Replacing one element changes a count by that element alone. */
  lemma {:induction false} CountUpdate<T>(q: T -> bool, s: seq<T>, i: nat, x: T)
    requires i < |s|
    ensures Count(q, s[i := x]) + One(q(s[i])) == Count(q, s) + One(q(x))
  {
    var n := |s| - 1;
    if i == n {
      assert s[i := x][..n] == s[..n];
    } else {
      assert s[i := x][..n] == s[..n][i := x];
      CountUpdate(q, s[..n], i, x);
    }
  }

  lemma {:induction false} CountBound<T>(q: T -> bool, s: seq<T>)
    ensures Count(q, s) <= |s|
    ensures (forall i :: 0 <= i < |s| ==> !q(s[i])) ==> Count(q, s) == 0
  {
    if s != [] { CountBound(q, s[..|s| - 1]); }
  }

  lemma {:induction false} CountPositive<T>(q: T -> bool, s: seq<T>, i: nat)
    requires i < |s| && q(s[i])
    ensures Count(q, s) >= 1
  {
    if i < |s| - 1 { CountPositive(q, s[..|s| - 1], i); }
  }
}
