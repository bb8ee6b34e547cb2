/** Left folds whose steps commute do not depend on the order of their input. */
module Folds {

  function FoldLeft<A, X>(f: (A, X) -> A, init: A, xs: seq<X>): A
    decreases |xs|
  {
    if xs == [] then init else FoldLeft(f, f(init, xs[0]), xs[1..])
  }

  /** Steps over elements satisfying `q`, from accumulators satisfying `p`, can be swapped. */
  ghost predicate Swappable<A(!new), X(!new)>(f: (A, X) -> A, p: A -> bool, q: X -> bool) {
    && (forall a, x :: p(a) && q(x) ==> p(f(a, x)))
    && (forall a, x, y :: p(a) && q(x) && q(y) ==> f(f(a, x), y) == f(f(a, y), x))
  }

  ghost predicate All<X>(q: X -> bool, xs: seq<X>) {
    forall i :: 0 <= i < |xs| ==> q(xs[i])
  }

  /** Moving one element to the front does not change the fold. */
  lemma {:induction false} FoldMove<A(!new), X(!new)>(f: (A, X) -> A, p: A -> bool, q: X -> bool,
                                                      init: A, before: seq<X>, x: X, after: seq<X>)
    requires Swappable(f, p, q) && p(init) && All(q, before) && q(x)
    ensures FoldLeft(f, init, before + [x] + after) == FoldLeft(f, f(init, x), before + after)
    decreases |before|
  {
    var xs := before + [x] + after;
    if before == [] {
      assert xs[0] == x && xs[1..] == before + after;
    } else {
      var y := before[0];
      assert xs[0] == y && xs[1..] == before[1..] + [x] + after;
      assert (before + after)[0] == y && (before + after)[1..] == before[1..] + after;
      FoldMove(f, p, q, f(init, y), before[1..], x, after);
    }
  }

  lemma RemoveFromBoth<X>(xs: seq<X>, ys: seq<X>) returns (i: nat)
    requires xs != [] && multiset(xs) == multiset(ys)
    ensures i < |ys| && ys[i] == xs[0]
    ensures ys == ys[..i] + [xs[0]] + ys[i + 1..]
    ensures multiset(xs[1..]) == multiset(ys[..i] + ys[i + 1..])
  {
    assert xs[0] in multiset(xs);
    i :| i < |ys| && ys[i] == xs[0];
    assert xs == [xs[0]] + xs[1..];
    assert ys == ys[..i] + [xs[0]] + ys[i + 1..];
    assert multiset(xs[1..]) == multiset(xs) - multiset{xs[0]};
    assert multiset(ys[..i] + ys[i + 1..]) == multiset(ys) - multiset{xs[0]};
  }

  lemma {:induction false} FoldOrderIrrelevant<A(!new), X(!new)>(f: (A, X) -> A, p: A -> bool, q: X -> bool,
                                                                 init: A, xs: seq<X>, ys: seq<X>)
    requires Swappable(f, p, q) && p(init) && All(q, xs) && All(q, ys)
    requires multiset(xs) == multiset(ys)
    ensures FoldLeft(f, init, xs) == FoldLeft(f, init, ys)
    decreases |xs|
  {
    if xs == [] {
      assert |multiset(ys)| == 0;
    } else {
      var i := RemoveFromBoth(xs, ys);
      FoldMove(f, p, q, init, ys[..i], xs[0], ys[i + 1..]);
      FoldOrderIrrelevant(f, p, q, f(init, xs[0]), xs[1..], ys[..i] + ys[i + 1..]);
    }
  }
}
