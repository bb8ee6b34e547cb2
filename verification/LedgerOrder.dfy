/** Exactly when the order of history rows shows in their fold, for rows of any kind. */
module LedgerOrder {
  import opened Wrappers
  import opened Accounting
  import Folds

  predicate MeasuredUsage(u: Usage) { !u.status.Unavailable? }
  predicate MeasuredCost(c: Cost) { !c.status.NoCost? }

  /** Called unavailable and yet not valid: refused while nothing was measured, skipped afterwards. */
  predicate StrayUsage(u: Usage) { u.status.Unavailable? && !ValidUsage(u) }
  predicate StrayCost(c: Cost) { c.status.NoCost? && !ValidCost(c) }

  // ---- rows without what addition ignores ----

  function CleanUsage(u: Usage): Usage { if u.status.Unavailable? then NO_USAGE else u }
  function CleanCost(c: Cost): Cost { if c.status.NoCost? then NO_COST else c }
  function CleanRow(row: Ledger): Ledger { Ledger(CleanUsage(row.usage), CleanCost(row.cost)) }

  function Clean(rows: seq<Ledger>): seq<Ledger> {
    if rows == [] then [] else [CleanRow(rows[0])] + Clean(rows[1..])
  }

  function AddClean(sum: Option<Ledger>, row: Ledger): Option<Ledger> { AddRow(sum, CleanRow(row)) }

  function CleanFoldFrom(sum: Option<Ledger>, rows: seq<Ledger>): Option<Ledger> { Folds.FoldLeft(AddClean, sum, rows) }

  predicate CleanCanonical(row: Ledger) { Canonical(CleanRow(row)) }

  /** Nothing measured is invalid, and the three exact sums fit an int64. */
  ghost predicate Foldable(rows: seq<Ledger>) {
    && (forall r :: r in rows ==> CleanCanonical(r))
    && TotalOf(Clean(rows)) <= MAX && KnownOf(Clean(rows)) <= MAX && UnknownOf(Clean(rows)) <= MAX
  }

  lemma {:induction false} CleanFoldIsFold(sum: Option<Ledger>, rows: seq<Ledger>)
    ensures CleanFoldFrom(sum, rows) == FoldFrom(sum, Clean(rows))
    decreases |rows|
  {
    if rows != [] {
      assert Clean(rows)[1..] == Clean(rows[1..]);
      CleanFoldIsFold(AddClean(sum, rows[0]), rows[1..]);
    }
  }

  lemma {:induction false} CleanAt(rows: seq<Ledger>)
    ensures |Clean(rows)| == |rows| && forall i :: 0 <= i < |rows| ==> Clean(rows)[i] == CleanRow(rows[i])
    decreases |rows|
  {
    if rows != [] { CleanAt(rows[1..]); }
  }

  lemma CleanAll(rows: seq<Ledger>)
    ensures AllCanonical(Clean(rows)) <==> forall r :: r in rows ==> CleanCanonical(r)
  {
    CleanAt(rows);
    if AllCanonical(Clean(rows)) {
      forall r | r in rows ensures CleanCanonical(r) {
        var i :| 0 <= i < |rows| && rows[i] == r;
        assert Canonical(Clean(rows)[i]);
      }
    }
    if forall r :: r in rows ==> CleanCanonical(r) {
      forall i | 0 <= i < |Clean(rows)| ensures Canonical(Clean(rows)[i]) {
        assert rows[i] in rows && CleanCanonical(rows[i]);
      }
    }
  }

  lemma {:induction false} InvalidFails(sum: Option<Ledger>, rows: seq<Ledger>, bad: Ledger)
    requires bad in rows && !CleanCanonical(bad) && CanonicalSum(sum)
    ensures CleanFoldFrom(sum, rows).None?
    decreases |rows|
  {
    if sum.None? || AddClean(sum, rows[0]).None? {
      CleanFailureSticks(rows[1..]);
      CleanFailureSticks(rows);
    } else {
      AddedIsCanonical(sum.value, rows[0]);
      InvalidFails(AddClean(sum, rows[0]), rows[1..], bad);
    }
  }

  lemma AddedIsCanonical(sum: Ledger, row: Ledger)
    requires Canonical(sum) && AddClean(Some(sum), row).Some?
    ensures CleanCanonical(row) && CanonicalSum(AddClean(Some(sum), row))
  {
    ValidUsageExact(CleanRow(row).usage);
    assert SoundUsage(CleanRow(row).usage);
    assert CanonicalCost(CleanRow(row).cost);
    AddLedgerCommutative(sum, CleanRow(row));
  }

  lemma {:induction false} CleanFailureSticks(rows: seq<Ledger>)
    ensures CleanFoldFrom(None, rows).None?
    decreases |rows|
  {
    if rows != [] { CleanFailureSticks(rows[1..]); }
  }

  lemma CleanSwappable()
    ensures Folds.Swappable(AddClean, CanonicalSum, CleanCanonical)
  {
    forall sum: Option<Ledger>, x: Ledger | CanonicalSum(sum) && CleanCanonical(x)
      ensures CanonicalSum(AddClean(sum, x))
    {
      AddRowSwaps(sum, CleanRow(x), CleanRow(x));
    }
    forall sum: Option<Ledger>, x: Ledger, y: Ledger | CanonicalSum(sum) && CleanCanonical(x) && CleanCanonical(y)
      ensures AddClean(AddClean(sum, x), y) == AddClean(AddClean(sum, y), x)
    {
      AddRowSwaps(sum, CleanRow(x), CleanRow(y));
    }
  }

  function CleanFold(rows: seq<Ledger>): Option<Ledger> { CleanFoldFrom(Some(EMPTY), rows) }

  lemma FromNothing(sum: Ledger, rows: seq<Ledger>)
    requires Canonical(sum) && AllCanonical(rows)
    requires Total(sum.usage) == 0 && sum.cost.known == 0 && sum.cost.unknown == 0
    ensures FoldFrom(Some(sum), rows).Some? <==> TotalOf(rows) <= MAX && KnownOf(rows) <= MAX && UnknownOf(rows) <= MAX
  {
    FoldFromExact(sum, rows);
  }

  /** The clean fold succeeds exactly on foldable rows. */
  lemma CleanFoldExact(rows: seq<Ledger>)
    ensures CleanFold(rows).Some? <==> Foldable(rows)
  {
    EmptyIsCanonical();
    CleanAll(rows);
    if forall r :: r in rows ==> CleanCanonical(r) {
      CleanFoldIsFold(Some(EMPTY), rows);
      FromNothing(EMPTY, Clean(rows));
    } else {
      var bad :| bad in rows && !CleanCanonical(bad);
      InvalidFails(Some(EMPTY), rows, bad);
    }
  }

  lemma SameMembers(xs: seq<Ledger>, ys: seq<Ledger>)
    requires multiset(xs) == multiset(ys)
    ensures forall r :: r in xs <==> r in ys
  {
    forall r ensures r in xs <==> r in ys {
      assert r in xs <==> r in multiset(xs);
      assert r in ys <==> r in multiset(ys);
    }
  }

  /** The clean fold never depends on the order. */
  lemma CleanFoldOrder(xs: seq<Ledger>, ys: seq<Ledger>)
    requires multiset(xs) == multiset(ys)
    ensures CleanFold(xs) == CleanFold(ys)
  {
    SameMembers(xs, ys);
    EmptyIsCanonical();
    if forall r :: r in xs ==> CleanCanonical(r) {
      CleanSwappable();
      Folds.FoldOrderIrrelevant(AddClean, CanonicalSum, CleanCanonical, Some(EMPTY), xs, ys);
    } else {
      var bad :| bad in xs && !CleanCanonical(bad);
      InvalidFails(Some(EMPTY), xs, bad);
      InvalidFails(Some(EMPTY), ys, bad);
    }
  }

  // ---- the fold of any rows ----

  /** Every stray value comes after something measured in its dimension. */
  predicate LedFrom(usage: bool, cost: bool, rows: seq<Ledger>)
    decreases |rows|
  {
    rows == [] ||
    (var r := rows[0];
     && (StrayUsage(r.usage) ==> usage) && (StrayCost(r.cost) ==> cost)
     && LedFrom(usage || MeasuredUsage(r.usage), cost || MeasuredCost(r.cost), rows[1..]))
  }

  /** What a sum can be: valid in both dimensions, with any source beside no cost. */
  predicate SumOk(s: Ledger) { SoundUsage(s.usage) && ValidCost(s.cost) }

  /** What adding a usage to a sound sum does, in terms of the clean usages. */
  predicate UsageStepOk(s: Usage, r: Usage, sum: Option<Usage>, clean: Option<Usage>) {
    && (sum.Some? <==> (StrayUsage(r) ==> MeasuredUsage(s)) && clean.Some?)
    && (sum.Some? ==>
          && SoundUsage(sum.value) && (MeasuredUsage(sum.value) <==> MeasuredUsage(s) || MeasuredUsage(r))
          && clean == Some(CleanUsage(sum.value)))
  }

  lemma UsageStep(s: Usage, r: Usage)
    requires SoundUsage(s)
    ensures UsageStepOk(s, r, AddUsage(s, r), AddUsage(CleanUsage(s), CleanUsage(r)))
  {
    if s.status.Unavailable? {
      UsageFirst(s, r, NO_USAGE);
    } else if r.status.Unavailable? {
      UsageSkipped(s, r, NO_USAGE);
    } else {
      UsageBoth(s, r);
    }
  }

  lemma UsageFirst(s: Usage, r: Usage, none: Usage)
    requires SoundUsage(s) && s.status.Unavailable? && none == NO_USAGE
    ensures UsageStepOk(s, r, AddUsage(s, r), AddUsage(none, CleanUsage(r)))
  {
    ValidUsageExact(r);
    ValidUsageExact(none);
    ZeroIsNone(r);
  }

  lemma UsageSkipped(s: Usage, r: Usage, none: Usage)
    requires SoundUsage(s) && !s.status.Unavailable? && r.status.Unavailable? && none == NO_USAGE
    ensures UsageStepOk(s, r, AddUsage(s, r), AddUsage(s, none))
  {
    ValidUsageExact(s);
  }

  lemma UsageBoth(s: Usage, r: Usage)
    requires SoundUsage(s) && !s.status.Unavailable? && !r.status.Unavailable?
    ensures UsageStepOk(s, r, AddUsage(s, r), AddUsage(s, r))
  {
    var sum := AddUsage(s, r);
    assert ValidUsage(r) <==> SoundUsage(r) by { ValidUsageExact(r); }
    if SoundUsage(r) {
      assert sum == PlainUsage(s, r) by { AddUsageExact(s, r); }
      PlainIsMeasured(s, r, sum);
    } else {
      InvalidIsRefused(s, r);
    }
    assert CleanUsage(s) == s && CleanUsage(r) == r;
  }

  lemma PlainIsMeasured(s: Usage, r: Usage, sum: Option<Usage>)
    requires SoundUsage(s) && SoundUsage(r) && !s.status.Unavailable? && !r.status.Unavailable?
    requires sum == PlainUsage(s, r)
    ensures sum.Some? ==> SoundUsage(sum.value) && !sum.value.status.Unavailable?
  {
    if sum.Some? {
      assert SoundUsage(sum.value) by { PlainUsageSum(s, r); }
      assert sum.value.status == JoinStatus(s.status, r.status) by { PlainUsageCounts(s, r); }
    }
  }

  lemma InvalidIsRefused(s: Usage, r: Usage)
    requires !s.status.Unavailable? && !r.status.Unavailable? && !ValidUsage(r)
    ensures AddUsage(s, r).None?
  {
  }

  lemma ZeroIsNone(u: Usage)
    ensures SoundUsage(u) && u.status.Unavailable? ==> u == NO_USAGE
  {
  }

  lemma CostStep(s: Cost, r: Cost)
    requires ValidCost(s)
    ensures AddCost(s, r).Some? <==> (StrayCost(r) ==> MeasuredCost(s)) && AddCost(CleanCost(s), CleanCost(r)).Some?
    ensures AddCost(s, r).Some? ==>
              var t := AddCost(s, r).value;
              && ValidCost(t) && (MeasuredCost(t) <==> MeasuredCost(s) || MeasuredCost(r))
              && AddCost(CleanCost(s), CleanCost(r)) == Some(CleanCost(t))
  {
    assert ValidCost(NO_COST);
    if !s.status.NoCost? && !r.status.NoCost? && ValidCost(r) {
      var source := SumSource(s, r);
      AddCostExact(s, r);
      if PlainCost(s, r, source).Some? {
        PlainCostValid(s, r, source);
        PlainCostNone(s, r, source);
      }
    }
  }

  lemma RowStep(s: Ledger, r: Ledger)
    requires SumOk(s)
    ensures var next, clean := AddRow(Some(s), r), AddClean(Some(CleanRow(s)), r);
            && (next.Some? <==>
                  && (StrayUsage(r.usage) ==> MeasuredUsage(s.usage)) && (StrayCost(r.cost) ==> MeasuredCost(s.cost))
                  && clean.Some?)
            && (next.Some? ==>
                  && SumOk(next.value) && clean == Some(CleanRow(next.value))
                  && (MeasuredUsage(next.value.usage) <==> MeasuredUsage(s.usage) || MeasuredUsage(r.usage))
                  && (MeasuredCost(next.value.cost) <==> MeasuredCost(s.cost) || MeasuredCost(r.cost)))
  {
    UsageStep(s.usage, r.usage);
    CostStep(s.cost, r.cost);
  }

  predicate AnyMeasuredCost(rows: seq<Ledger>) { exists r :: r in rows && MeasuredCost(r.cost) }

  /** The fold of any rows succeeds exactly when no stray value comes too early and the clean fold
      succeeds, and then they agree once cleaned. */
  lemma {:induction false} FoldIsClean(sum: Ledger, rows: seq<Ledger>)
    requires SumOk(sum)
    ensures var r, clean := FoldFrom(Some(sum), rows), CleanFoldFrom(Some(CleanRow(sum)), rows);
            && (r.Some? <==> LedFrom(MeasuredUsage(sum.usage), MeasuredCost(sum.cost), rows) && clean.Some?)
            && (r.Some? ==>
                  && SumOk(r.value) && clean == Some(CleanRow(r.value))
                  && (MeasuredCost(r.value.cost) <==> MeasuredCost(sum.cost) || AnyMeasuredCost(rows)))
    decreases |rows|
  {
    if rows != [] {
      RowStep(sum, rows[0]);
      var next, clean := AddRow(Some(sum), rows[0]), AddClean(Some(CleanRow(sum)), rows[0]);
      assert forall r :: r in rows <==> r == rows[0] || r in rows[1..];
      if next.Some? {
        FoldIsClean(next.value, rows[1..]);
      } else {
        FailureSticks(rows[1..]);
        if clean.None? { CleanFailureSticks(rows[1..]); }
      }
    }
  }

  lemma {:induction false} LastCost(sum: Ledger, rows: seq<Ledger>)
    requires SumOk(sum) && !MeasuredCost(sum.cost) && !AnyMeasuredCost(rows) && FoldFrom(Some(sum), rows).Some?
    ensures FoldFrom(Some(sum), rows).value.cost == if rows == [] then sum.cost else rows[|rows| - 1].cost
    decreases |rows|
  {
    if rows != [] {
      RowStep(sum, rows[0]);
      var next := AddRow(Some(sum), rows[0]);
      assert rows[0] in rows;
      if next.None? { FailureSticks(rows[1..]); }
      assert next.value.cost == rows[0].cost;
      assert forall r :: r in rows[1..] ==> r in rows;
      LastCost(next.value, rows[1..]);
    }
  }

  // ---- when the order shows ----

  predicate AnyMeasuredUsage(rows: seq<Ledger>) { exists r :: r in rows && MeasuredUsage(r.usage) }
  predicate AnyStrayUsage(rows: seq<Ledger>) { exists r :: r in rows && StrayUsage(r.usage) }
  predicate AnyStrayCost(rows: seq<Ledger>) { exists r :: r in rows && StrayCost(r.cost) }

  /** A row that can come first although both dimensions have stray values. */
  predicate Opens(r: Ledger) {
    (MeasuredUsage(r.usage) && !StrayCost(r.cost)) || (MeasuredCost(r.cost) && !StrayUsage(r.usage))
  }

  /** Some order puts something measured before every stray value. */
  predicate CanLead(rows: seq<Ledger>) {
    && (AnyStrayUsage(rows) ==> AnyMeasuredUsage(rows)) && (AnyStrayCost(rows) ==> AnyMeasuredCost(rows))
    && (AnyStrayUsage(rows) && AnyStrayCost(rows) ==> exists r :: r in rows && Opens(r))
  }

  predicate SourcesDiffer(rows: seq<Ledger>) {
    exists x, y :: x in rows && y in rows && x.cost.source != y.cost.source
  }

  /** The guards, all of them on the rows: they fold, some order succeeds, and a stray value can be put
      first or only sources beside no cost remain to tell the rows apart. */
  ghost predicate OrderShows(rows: seq<Ledger>) {
    && Foldable(rows) && CanLead(rows)
    && (AnyStrayUsage(rows) || AnyStrayCost(rows) || (!AnyMeasuredCost(rows) && SourcesDiffer(rows)))
  }

  lemma {:induction false} LedCanLead(usage: bool, cost: bool, rows: seq<Ledger>)
    requires LedFrom(usage, cost, rows)
    ensures !usage && AnyStrayUsage(rows) ==> AnyMeasuredUsage(rows)
    ensures !cost && AnyStrayCost(rows) ==> AnyMeasuredCost(rows)
    ensures !usage && !cost && AnyStrayUsage(rows) && AnyStrayCost(rows) ==> exists r :: r in rows && Opens(r)
    decreases |rows|
  {
    if rows != [] {
      var r := rows[0];
      LedCanLead(usage || MeasuredUsage(r.usage), cost || MeasuredCost(r.cost), rows[1..]);
      assert r in rows && forall q :: q in rows <==> q == r || q in rows[1..];
    }
  }

  lemma {:induction false} LedWhen(usage: bool, cost: bool, rows: seq<Ledger>)
    requires (usage || !AnyStrayUsage(rows)) && (cost || !AnyStrayCost(rows))
    ensures LedFrom(usage, cost, rows)
    decreases |rows|
  {
    if rows != [] {
      assert rows[0] in rows && forall q :: q in rows[1..] ==> q in rows;
      LedWhen(usage || MeasuredUsage(rows[0].usage), cost || MeasuredCost(rows[0].cost), rows[1..]);
    }
  }

  /** The rows with one of them moved to the front. */
  lemma ToFront(rows: seq<Ledger>, r: Ledger) returns (rest: seq<Ledger>)
    requires r in rows
    ensures multiset([r] + rest) == multiset(rows) && forall q :: q in rest ==> q in rows
    ensures forall q :: q in rows ==> q == r || q in rest
  {
    var i :| 0 <= i < |rows| && rows[i] == r;
    rest := rows[..i] + rows[i + 1..];
    assert rows == rows[..i] + [r] + rows[i + 1..];
    assert multiset([r] + rest) == multiset(rows);
    forall q | q in rows ensures q == r || q in rest {
      var j :| 0 <= j < |rows| && rows[j] == q;
      if j < i { assert rest[j] == q; } else if j > i { assert rest[j - 1] == q; }
    }
  }

  lemma LeadingOrder(rows: seq<Ledger>) returns (ys: seq<Ledger>)
    requires CanLead(rows)
    ensures multiset(ys) == multiset(rows) && LedFrom(false, false, ys)
  {
    if !AnyStrayUsage(rows) && !AnyStrayCost(rows) {
      ys := rows;
      LedWhen(false, false, rows);
    } else if !AnyStrayCost(rows) {
      var r :| r in rows && MeasuredUsage(r.usage);
      var rest := ToFront(rows, r);
      ys := [r] + rest;
      LedWhen(true, MeasuredCost(r.cost), rest);
      assert ys[1..] == rest;
    } else if !AnyStrayUsage(rows) {
      var r :| r in rows && MeasuredCost(r.cost);
      var rest := ToFront(rows, r);
      ys := [r] + rest;
      LedWhen(MeasuredUsage(r.usage), true, rest);
      assert ys[1..] == rest;
    } else {
      var r :| r in rows && Opens(r);
      ys := OpenWith(rows, r);
    }
  }

  lemma OpenWith(rows: seq<Ledger>, r: Ledger) returns (ys: seq<Ledger>)
    requires r in rows && Opens(r) && AnyMeasuredUsage(rows) && AnyMeasuredCost(rows)
    ensures multiset(ys) == multiset(rows) && LedFrom(false, false, ys)
  {
    var rest := ToFront(rows, r);
    var u, c := MeasuredUsage(r.usage), MeasuredCost(r.cost);
    if u && c {
      ys := [r] + rest;
      LedWhen(true, true, rest);
      assert ys[1..] == rest;
    } else {
      var q :| q in rows && (if u then MeasuredCost(q.cost) else MeasuredUsage(q.usage));
      var last := ToFront(rest, q);
      ys := [r] + ([q] + last);
      assert multiset(ys) == multiset{r} + multiset([q] + last) == multiset{r} + multiset(rest) == multiset([r] + rest);
      LedWhen(true, true, last);
      assert ([q] + last)[1..] == last && ys[1..] == [q] + last;
      assert LedFrom(u, c, [q] + last);
    }
  }

  lemma StrayFirstFails(rows: seq<Ledger>) returns (ys: seq<Ledger>)
    requires AnyStrayUsage(rows) || AnyStrayCost(rows)
    ensures multiset(ys) == multiset(rows) && !LedFrom(false, false, ys)
  {
    var r :| r in rows && (StrayUsage(r.usage) || StrayCost(r.cost));
    var rest := ToFront(rows, r);
    ys := [r] + rest;
  }

  /** The rows with one of them moved to the end. */
  lemma ToEnd(rows: seq<Ledger>, r: Ledger) returns (ys: seq<Ledger>)
    requires r in rows
    ensures multiset(ys) == multiset(rows) && ys != [] && ys[|ys| - 1] == r
  {
    var rest := ToFront(rows, r);
    ys := rest + [r];
    assert multiset(ys) == multiset([r] + rest);
  }

  lemma FoldOf(rows: seq<Ledger>)
    ensures Fold(rows).Some? <==> LedFrom(false, false, rows) && Foldable(rows)
    ensures Fold(rows).Some? ==>
              && SumOk(Fold(rows).value) && CleanFold(rows) == Some(CleanRow(Fold(rows).value))
              && (MeasuredCost(Fold(rows).value.cost) <==> AnyMeasuredCost(rows))
  {
    EmptyIsCanonical();
    assert CleanRow(EMPTY) == EMPTY;
    FoldIsClean(EMPTY, rows);
    CleanFoldExact(rows);
  }

  lemma GuardsOrder(xs: seq<Ledger>, ys: seq<Ledger>)
    requires multiset(xs) == multiset(ys)
    ensures Foldable(xs) <==> Foldable(ys)
    ensures CanLead(xs) <==> CanLead(ys)
    ensures AnyMeasuredCost(xs) <==> AnyMeasuredCost(ys)
    ensures AnyStrayUsage(xs) || AnyStrayCost(xs) <==> AnyStrayUsage(ys) || AnyStrayCost(ys)
  {
    SameMembers(xs, ys);
    CleanFoldOrder(xs, ys);
    CleanFoldExact(xs);
    CleanFoldExact(ys);
  }

  /** Two successful orders of the same rows give the same sum, but for the source beside no cost, which
      is that of the last row. */
  lemma SameUpToSource(xs: seq<Ledger>, ys: seq<Ledger>)
    requires multiset(xs) == multiset(ys) && Fold(xs).Some? && Fold(ys).Some?
    ensures AnyMeasuredCost(xs) ==> Fold(xs) == Fold(ys)
    ensures !AnyMeasuredCost(xs) && xs != [] && ys != [] ==>
              (Fold(xs) == Fold(ys) <==> xs[|xs| - 1].cost.source == ys[|ys| - 1].cost.source)
  {
    FoldOf(xs);
    FoldOf(ys);
    CleanFoldOrder(xs, ys);
    GuardsOrder(xs, ys);
    var a, b := Fold(xs).value, Fold(ys).value;
    ZeroIsNone(a.usage);
    ZeroIsNone(b.usage);
    assert CleanUsage(a.usage) == a.usage && CleanUsage(b.usage) == b.usage;
    if !AnyMeasuredCost(xs) && xs != [] && ys != [] {
      EmptyIsCanonical();
      LastCost(EMPTY, xs);
      LastCost(EMPTY, ys);
      NoCostIsSource(a.cost, b.cost);
    }
  }

  lemma NoCostIsSource(a: Cost, b: Cost)
    requires ValidCost(a) && ValidCost(b) && a.status.NoCost? && b.status.NoCost?
    ensures a == b <==> a.source == b.source
  {
  }

  lemma OrderHidden(xs: seq<Ledger>, ys: seq<Ledger>)
    requires multiset(xs) == multiset(ys) && !OrderShows(xs)
    ensures Fold(xs) == Fold(ys)
  {
    FoldOf(xs);
    FoldOf(ys);
    GuardsOrder(xs, ys);
    SameMembers(xs, ys);
    if LedFrom(false, false, xs) { LedCanLead(false, false, xs); }
    if LedFrom(false, false, ys) { LedCanLead(false, false, ys); }
    if Foldable(xs) && CanLead(xs) {
      LedWhen(false, false, xs);
      LedWhen(false, false, ys);
      SameUpToSource(xs, ys);
      if !AnyMeasuredCost(xs) && xs != [] {
        assert |multiset(xs)| == |multiset(ys)|;
        assert xs[|xs| - 1] in xs && ys[|ys| - 1] in ys;
      }
      if xs == [] { assert |multiset(ys)| == 0; }
    }
  }

  lemma OrderShown(xs: seq<Ledger>) returns (a: seq<Ledger>, b: seq<Ledger>)
    requires OrderShows(xs)
    ensures multiset(a) == multiset(xs) == multiset(b) && Fold(a) != Fold(b)
  {
    if AnyStrayUsage(xs) || AnyStrayCost(xs) {
      a := LeadingOrder(xs);
      b := StrayFirstFails(xs);
      GuardsOrder(xs, a);
      FoldOf(a);
      FoldOf(b);
    } else {
      var x, y :| x in xs && y in xs && x.cost.source != y.cost.source;
      a := ToEnd(xs, x);
      b := ToEnd(xs, y);
      GuardsOrder(xs, a);
      GuardsOrder(xs, b);
      LedWhen(false, false, a);
      LedWhen(false, false, b);
      FoldOf(a);
      FoldOf(b);
      SameUpToSource(a, b);
    }
  }

  /** For rows of any kind: some order of them folds differently exactly when the guards hold. */
  lemma OrderShowsIff(rows: seq<Ledger>)
    ensures (exists ys :: multiset(ys) == multiset(rows) && Fold(ys) != Fold(rows)) <==> OrderShows(rows)
  {
    if OrderShows(rows) {
      var a, b := OrderShown(rows);
      assert Fold(a) != Fold(rows) || Fold(b) != Fold(rows);
    } else {
      forall ys | multiset(ys) == multiset(rows) ensures Fold(ys) == Fold(rows) {
        OrderHidden(rows, ys);
      }
    }
  }

  /** A valid row that measures nothing, with a source beside its absent cost. */
  predicate Bare(row: Ledger, source: string) {
    row.usage == NO_USAGE && row.cost.status.NoCost? && row.cost.source == source && ValidCost(row.cost)
  }

  /** Validation never looks at the source, so two valid rows can show their order: the last one stays. */
  lemma ValidRowsDependOnOrder(x: Ledger, y: Ledger, a: string, b: string)
    requires Bare(x, a) && Bare(y, b) && a != b
    ensures Fold([x, y]) == Some(y) && Fold([y, x]) == Some(x) && x != y
  {
    LastStays(x, y);
    LastStays(y, x);
  }

  lemma LastStays(x: Ledger, y: Ledger)
    requires Bare(x, x.cost.source) && Bare(y, y.cost.source)
    ensures Fold([x, y]) == Some(y)
  {
    assert AddLedger(EMPTY, x) == Some(x) && AddLedger(x, y) == Some(y) by { ValidUsageExact(NO_USAGE); }
    assert [x, y][1..] == [y] && [y][1..] == [];
    assert FoldFrom(Some(y), []) == Some(y);
    assert FoldFrom(Some(x), [y]) == FoldFrom(AddRow(Some(x), y), []);
    assert FoldFrom(Some(EMPTY), [x, y]) == FoldFrom(AddRow(Some(EMPTY), x), [y]);
  }
}
