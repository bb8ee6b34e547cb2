/** Token usage, cost certainty and ledgers with checked arithmetic.
    Money is counted in whole picodollars, the precision the source rounds to. */
module Accounting {
  import opened Wrappers
  import opened Text
  import Folds

  const MAX: int := 0x7fff_ffff_ffff_ffff

  type Int64 = x: int | -0x8000_0000_0000_0000 <= x <= 0x7fff_ffff_ffff_ffff

  /** What unchecked int64 additions make of an exact sum. */
  function Wrap(x: int): Int64
    decreases if x > MAX then x else if x < -0x8000_0000_0000_0000 then -x else 0
  {
    if x > MAX then Wrap(x - 0x1_0000_0000_0000_0000)
    else if x < -0x8000_0000_0000_0000 then Wrap(x + 0x1_0000_0000_0000_0000)
    else x
  }

  // ---- usage ----

  datatype UsageStatus = Complete | Partial | Unavailable | Inconsistent | OtherUsage(text: string)

  /** The five token counts; every int64 is one. */
  datatype Counts = Counts(prompt: Prompt, completion: Completion)
  datatype Prompt = Prompt(input: int, cacheRead: int, cacheCreation: int)
  datatype Completion = Completion(output: int, reasoning: int)

  datatype Usage = Usage(counts: Counts, status: UsageStatus)

  const NO_COUNTS := Counts(Prompt(0, 0, 0), Completion(0, 0))
  const NO_USAGE := Usage(NO_COUNTS, Unavailable)

  function Components(u: Usage): seq<int> {
    var p, c := u.counts.prompt, u.counts.completion;
    [p.input, p.cacheRead, p.cacheCreation, c.output, c.reasoning]
  }

  function Sum(values: seq<int>): int {
    if values == [] then 0 else Sum(values[..|values| - 1]) + values[|values| - 1]
  }

  /** The exact total of the five components. */
  function Total(u: Usage): int { CountsTotal(u.counts) }

  function CountsTotal(c: Counts): int {
    c.prompt.input + c.prompt.cacheRead + c.prompt.cacheCreation + c.completion.output + c.completion.reasoning
  }

  function AddCounts(a: Counts, b: Counts): Counts {
    Counts(AddPrompts(a.prompt, b.prompt), AddCompletions(a.completion, b.completion))
  }

  function AddPrompts(a: Prompt, b: Prompt): Prompt {
    Prompt(a.input + b.input, a.cacheRead + b.cacheRead, a.cacheCreation + b.cacheCreation)
  }

  function AddCompletions(a: Completion, b: Completion): Completion {
    Completion(a.output + b.output, a.reasoning + b.reasoning)
  }

  /** One turn of the summation loop. */
  function CheckedStep(sum: Option<int>, value: int): Option<int> {
    if sum.None? || value < 0 || value > MAX - Max(sum.value, 0) then None else Some(sum.value + value)
  }

  function Max(a: int, b: int): int { if a > b then a else b }

  function CheckedSum(values: seq<int>): (r: Option<int>)
    ensures r.Some? ==> r.value >= 0
  {
    if values == [] then Some(0) else CheckedStep(CheckedSum(values[..|values| - 1]), values[|values| - 1])
  }

  /** Checked summation succeeds exactly when no term is negative and the exact sum fits. */
  lemma {:induction false} CheckedSumExact(values: seq<int>)
    ensures CheckedSum(values).Some? <==> (forall i :: 0 <= i < |values| ==> values[i] >= 0) && Sum(values) <= MAX
    ensures CheckedSum(values).Some? ==> CheckedSum(values).value == Sum(values)
  {
    if values != [] {
      var front, last := values[..|values| - 1], values[|values| - 1];
      CheckedSumExact(front);
      assert values == front + [last];
    }
  }

  method CheckedSumLoop(values: seq<int>) returns (r: Option<int>)
    ensures r == CheckedSum(values)
    ensures r.Some? <==> (forall i :: 0 <= i < |values| ==> values[i] >= 0) && Sum(values) <= MAX
    ensures r.Some? ==> r.value == Sum(values)
  {
    CheckedSumExact(values);
    var result := 0;
    for i := 0 to |values|
      invariant result >= 0
      invariant CheckedSum(values[..i]) == Some(result)
    {
      assert values[..i + 1][..i] == values[..i];
      if values[i] < 0 || values[i] > MAX - result {
        if values[i] >= 0 { PrefixFits(values, i + 1); }
        return None;
      }
      result := result + values[i];
    }
    assert values[..|values|] == values;
    r := Some(result);
  }

  /** A sum that succeeds on a sequence succeeds on each prefix. */
  lemma {:induction false} PrefixFits(values: seq<int>, n: nat)
    requires n <= |values|
    ensures CheckedSum(values).Some? ==> CheckedSum(values[..n]).Some?
  {
    if n < |values| {
      assert values[..|values| - 1][..n] == values[..n];
      PrefixFits(values[..|values| - 1], n);
    } else {
      assert values[..n] == values;
    }
  }

  /** The summation loop on the five components, written out. */
  function CheckedTotal(u: Usage): Option<int> {
    var c := u.counts;
    if || !NonNegative(u)
       || c.prompt.cacheRead > MAX - c.prompt.input
       || c.prompt.cacheCreation > MAX - (c.prompt.input + c.prompt.cacheRead)
       || c.completion.output > MAX - (c.prompt.input + c.prompt.cacheRead + c.prompt.cacheCreation)
       || c.completion.reasoning
          > MAX - (c.prompt.input + c.prompt.cacheRead + c.prompt.cacheCreation + c.completion.output)
    then None else Some(Total(u))
  }

  /** The summation loop on a pair. */
  function CheckedPair(a: int, b: int): Option<int> {
    if a < 0 || b < 0 || b > MAX - a then None else Some(a + b)
  }

  lemma CheckedTotalIsLoop(u: Usage)
    ensures CheckedTotal(u) == CheckedSum(Components(u))
  {
    CheckedSumExact(Components(u));
    SumOfFive(u);
    ComponentsAt(u);
  }

  lemma CheckedPairIsLoop(a: int, b: int)
    ensures CheckedPair(a, b) == CheckedSum([a, b])
  {
    var pair := [a, b];
    CheckedSumExact(pair);
    assert pair[..1] == [a] && pair[..1][..0] == [];
    assert Sum(pair[..1]) == a;
    assert pair[0] == a && pair[1] == b;
  }

  predicate NonNegative(u: Usage) {
    NonNegativeCounts(u.counts)
  }

  predicate NonNegativeCounts(c: Counts) {
    && c.prompt.input >= 0 && c.prompt.cacheRead >= 0 && c.prompt.cacheCreation >= 0
    && c.completion.output >= 0 && c.completion.reasoning >= 0
  }

  predicate ValidUsage(u: Usage) {
    && !u.status.OtherUsage?
    && NonNegative(u)
    && !(u.status.Unavailable? && Wrap(Total(u)) != 0)
    && !u.status.Inconsistent?
    && CheckedTotal(u).Some?
  }

  /** Validity in closed form: exact arithmetic, and unavailable usage is all zero. */
  predicate SoundUsage(u: Usage) {
    && NonNegative(u) && Total(u) <= MAX
    && !u.status.OtherUsage? && !u.status.Inconsistent? && (u.status.Unavailable? ==> AllZero(u.counts))
  }

  predicate AllZero(c: Counts) {
    && c.prompt.input == 0 && c.prompt.cacheRead == 0 && c.prompt.cacheCreation == 0
    && c.completion.output == 0 && c.completion.reasoning == 0
  }

  /** Validation means just that, although the total it tests unavailable usage with wraps around. */
  lemma ValidUsageExact(u: Usage)
    ensures ValidUsage(u) <==> SoundUsage(u)
  {
  }

  lemma ComponentsAt(u: Usage)
    ensures NonNegative(u) <==> forall i :: 0 <= i < |Components(u)| ==> Components(u)[i] >= 0
  {
    var c := Components(u);
    assert c[0] == u.counts.prompt.input && c[1] == u.counts.prompt.cacheRead && c[2] == u.counts.prompt.cacheCreation;
    assert c[3] == u.counts.completion.output && c[4] == u.counts.completion.reasoning;
  }

  lemma SumOfFive(u: Usage)
    ensures Sum(Components(u)) == Total(u)
  {
    var c := Components(u);
    var c1, c2, c3, c4 := c[..1], c[..2], c[..3], c[..4];
    assert c4[..3] == c3 && c3[..2] == c2 && c2[..1] == c1 && c1[..0] == [];
    assert Sum(c1) == u.counts.prompt.input;
    assert Sum(c2) == Sum(c1) + u.counts.prompt.cacheRead;
    assert Sum(c3) == Sum(c2) + u.counts.prompt.cacheCreation;
    assert Sum(c4) == Sum(c3) + u.counts.completion.output;
  }

  /** The wrapped total can be zero for usage that is not: validation must not rely on it. */
  lemma WrappedTotalCanVanish()
    ensures var u := Usage(Counts(Prompt(MAX, MAX, 2), Completion(0, 0)), Unavailable);
            Wrap(Total(u)) == 0 && Total(u) > 0 && !ValidUsage(u)
  {
  }

  function AddUsage(left: Usage, right: Usage): Option<Usage> {
    if left.status.Unavailable? then if ValidUsage(right) then Some(right) else None
    else if right.status.Unavailable? then if ValidUsage(left) then Some(left) else None
    else if !ValidUsage(left) || !ValidUsage(right) then None
    else AddMeasured(left, right)
  }

  /** Component-wise checked sums, then validation of the result. */
  function AddMeasured(left: Usage, right: Usage): Option<Usage> {
    var input := CheckedPair(left.counts.prompt.input, right.counts.prompt.input);
    var cacheRead := CheckedPair(left.counts.prompt.cacheRead, right.counts.prompt.cacheRead);
    var cacheCreation := CheckedPair(left.counts.prompt.cacheCreation, right.counts.prompt.cacheCreation);
    var output := CheckedPair(left.counts.completion.output, right.counts.completion.output);
    var reasoning := CheckedPair(left.counts.completion.reasoning, right.counts.completion.reasoning);
    if input.None? || cacheRead.None? || cacheCreation.None? || output.None? || reasoning.None? then None
    else
      var status := if left.status.Partial? || right.status.Partial? then Partial else Complete;
      var sum := Counts(Prompt(input.value, cacheRead.value, cacheCreation.value),
                        Completion(output.value, reasoning.value));
      var u := Usage(sum, status);
      if ValidUsage(u) then Some(u) else None
  }

  /** Addition without overflow checks of its own: one bound on the exact total. */
  function PlainUsage(a: Usage, b: Usage): Option<Usage>
    requires NonNegative(a) && NonNegative(b)
  {
    if a.status.Unavailable? then Some(b)
    else if b.status.Unavailable? then Some(a)
    else if Total(a) + Total(b) > MAX then None
    else Some(Usage(AddCounts(a.counts, b.counts),
                    if a.status.Partial? || b.status.Partial? then Partial else Complete))
  }

  lemma AddCountsLaws(a: Counts, b: Counts, c: Counts)
    ensures AddCounts(a, b) == AddCounts(b, a) && AddCounts(AddCounts(a, b), c) == AddCounts(a, AddCounts(b, c))
    ensures CountsTotal(AddCounts(a, b)) == CountsTotal(a) + CountsTotal(b)
    ensures NonNegativeCounts(a) && NonNegativeCounts(b) ==> NonNegativeCounts(AddCounts(a, b))
  {
  }

  lemma AddMeasuredExact(a: Usage, b: Usage)
    requires NonNegative(a) && NonNegative(b) && !a.status.Unavailable? && !b.status.Unavailable?
    ensures AddMeasured(a, b) == PlainUsage(a, b)
  {
    if Total(a) + Total(b) <= MAX {
      ValidUsageExact(PlainUsage(a, b).value);
    } else if AddMeasured(a, b).Some? {
      ValidUsageExact(AddMeasured(a, b).value);
    }
  }

  /** On valid usage, addition is component-wise and fails exactly when the exact total overflows. */
  lemma AddUsageExact(a: Usage, b: Usage)
    requires SoundUsage(a) && SoundUsage(b)
    ensures AddUsage(a, b) == PlainUsage(a, b)
  {
    if a.status.Unavailable? {
      ValidUsageExact(b);
    } else if b.status.Unavailable? {
      ValidUsageExact(a);
    } else {
      ValidUsageExact(a);
      ValidUsageExact(b);
      AddMeasuredExact(a, b);
    }
  }

  /** The status of a sum: partial if anything is, unavailable only if nothing was measured. */
  function JoinStatus(a: UsageStatus, b: UsageStatus): UsageStatus {
    if a.Unavailable? then b else if b.Unavailable? then a else if a.Partial? || b.Partial? then Partial else Complete
  }

  lemma PlainUsageCounts(a: Usage, b: Usage)
    requires SoundUsage(a) && SoundUsage(b) && PlainUsage(a, b).Some?
    ensures PlainUsage(a, b).value == Usage(AddCounts(a.counts, b.counts), JoinStatus(a.status, b.status))
  {
    if a.status.Unavailable? {
      AddZero(a.counts, b.counts);
    } else if b.status.Unavailable? {
      AddZero(b.counts, a.counts);
    }
  }

  lemma AddZero(zero: Counts, c: Counts)
    requires AllZero(zero)
    ensures AddCounts(zero, c) == c && AddCounts(c, zero) == c
  {
  }

  lemma PlainUsageSum(a: Usage, b: Usage)
    requires SoundUsage(a) && SoundUsage(b)
    ensures PlainUsage(a, b) == PlainUsage(b, a)
    ensures PlainUsage(a, b).Some? <==> Total(a) + Total(b) <= MAX
    ensures PlainUsage(a, b).Some? ==>
              SoundUsage(PlainUsage(a, b).value) && Total(PlainUsage(a, b).value) == Total(a) + Total(b)
  {
  }

  lemma PlainUsageAssociative(a: Usage, b: Usage, c: Usage)
    requires SoundUsage(a) && SoundUsage(b) && SoundUsage(c)
    requires PlainUsage(a, b).Some? && PlainUsage(b, c).Some?
    requires NonNegative(PlainUsage(a, b).value) && NonNegative(PlainUsage(b, c).value)
    ensures PlainUsage(PlainUsage(a, b).value, c) == PlainUsage(a, PlainUsage(b, c).value)
  {
    AddCountsLaws(a.counts, b.counts, c.counts);
    AddCountsLaws(b.counts, c.counts, a.counts);
  }

  lemma PlainUsageLaws(a: Usage, b: Usage, c: Usage)
    requires SoundUsage(a) && SoundUsage(b) && SoundUsage(c)
    ensures var ab, bc := PlainUsage(a, b), PlainUsage(b, c);
            && (ab.Some? ==> SoundUsage(ab.value)) && (bc.Some? ==> SoundUsage(bc.value))
            && (ab.Some? && PlainUsage(ab.value, c).Some? <==> bc.Some? && PlainUsage(a, bc.value).Some?)
            && (ab.Some? && bc.Some? ==> PlainUsage(ab.value, c) == PlainUsage(a, bc.value))
  {
    PlainUsageSum(a, b);
    PlainUsageSum(b, c);
    var ab, bc := PlainUsage(a, b), PlainUsage(b, c);
    if ab.Some? { PlainUsageSum(ab.value, c); }
    if bc.Some? { PlainUsageSum(a, bc.value); }
    if ab.Some? && bc.Some? { PlainUsageAssociative(a, b, c); }
  }

  // ---- cost ----

  datatype CostStatus = Exact | PartialCost | Unknown | NoCost | OtherCost(text: string)

  datatype Cost = Cost(subtotal: int, status: CostStatus, source: string, known: Int64, unknown: Int64)

  const NO_COST := Cost(0, NoCost, "", 0, 0)

  function UnknownCost(source: string): Cost { Cost(0, Unknown, TrimSpace(source), 0, 1) }

  predicate ValidCost(c: Cost) {
    && c.subtotal >= 0 && c.known >= 0 && c.unknown >= 0
    && match c.status
       case Exact => c.known != 0 && c.unknown == 0
       case PartialCost => c.known != 0 && c.unknown != 0
       case Unknown => c.known == 0 && c.unknown != 0 && c.subtotal == 0
       case NoCost => c.known == 0 && c.unknown == 0 && c.subtotal == 0
       case OtherCost(_) => false
  }

  function MergeSource(left: string, right: string): string {
    JoinSources(TrimSpace(left), TrimSpace(right))
  }

  function JoinSources(l: string, r: string): string {
    if l == "" then r else if r == "" || l == r then l else "mixed"
  }

  /** The source of a sum: a cost that is not there has no say. */
  function SumSource(a: Cost, b: Cost): string {
    if a.status.NoCost? then b.source else if b.status.NoCost? then a.source else MergeSource(a.source, b.source)
  }

  function CoverageStatus(known: int, unknown: int): CostStatus {
    if known > 0 && unknown > 0 then PartialCost else if known > 0 then Exact else Unknown
  }

  function AddCost(left: Cost, right: Cost): Option<Cost> {
    if left.status.NoCost? then if ValidCost(right) then Some(right) else None
    else if right.status.NoCost? then if ValidCost(left) then Some(left) else None
    else if !ValidCost(left) || !ValidCost(right) then None
    else AddMeasuredCost(left, right, MergeSource(left.source, right.source))
  }

  /** Unchecked counts, then validation of the result. */
  function AddMeasuredCost(left: Cost, right: Cost, source: string): Option<Cost> {
    var known, unknown := Wrap(left.known + right.known), Wrap(left.unknown + right.unknown);
    var c := Cost(left.subtotal + right.subtotal, CoverageStatus(known, unknown), source, known, unknown);
    if ValidCost(c) then Some(c) else None
  }

  lemma WrapOfPair(a: Int64, b: Int64)
    requires a >= 0 && b >= 0
    ensures Wrap(a + b) == if a + b <= MAX then a + b else a + b - 0x1_0000_0000_0000_0000
  {
  }

  function PlainStatus(known: int, unknown: int): CostStatus {
    if known > 0 || unknown > 0 then CoverageStatus(known, unknown) else NoCost
  }

  /** Addition of costs in closed form. */
  function PlainCost(a: Cost, b: Cost, source: string): Option<Cost>
    requires a.known >= 0 && b.known >= 0 && a.unknown >= 0 && b.unknown >= 0
  {
    var known, unknown := a.known + b.known, a.unknown + b.unknown;
    if known > MAX || unknown > MAX then None
    else Some(Cost(a.subtotal + b.subtotal, PlainStatus(known, unknown), source, known, unknown))
  }

  lemma AddMeasuredCostExact(a: Cost, b: Cost, source: string)
    requires ValidCost(a) && ValidCost(b) && !a.status.NoCost? && !b.status.NoCost?
    ensures AddMeasuredCost(a, b, source) == PlainCost(a, b, source)
  {
    WrapOfPair(a.known, b.known);
    WrapOfPair(a.unknown, b.unknown);
  }

  /** On valid costs, addition fails exactly when an observation count overflows: the unchecked
      sums wrap to a negative count, which validation catches. */
  lemma AddCostExact(a: Cost, b: Cost)
    requires ValidCost(a) && ValidCost(b)
    ensures AddCost(a, b) == PlainCost(a, b, SumSource(a, b))
  {
    if !a.status.NoCost? && !b.status.NoCost? {
      AddMeasuredCostExact(a, b, MergeSource(a.source, b.source));
    }
  }

  // ---- ledgers ----

  datatype Ledger = Ledger(usage: Usage, cost: Cost)

  const EMPTY := Ledger(NO_USAGE, NO_COST)

  /** Both dimensions must succeed. */
  function Both(usage: Option<Usage>, cost: Option<Cost>): Option<Ledger> {
    if usage.None? || cost.None? then None else Some(Ledger(usage.value, cost.value))
  }

  function AddLedger(left: Ledger, right: Ledger): Option<Ledger> {
    Both(AddUsage(left.usage, right.usage), AddCost(left.cost, right.cost))
  }

  predicate Trimmed(s: string) { s == "" || (!IsSpace(s[0]) && !IsSpace(s[|s| - 1])) }

  /** A valid cost that names a source only where there is a cost. */
  predicate CanonicalCost(c: Cost) { ValidCost(c) && (c.status.NoCost? ==> c.source == "") }

  predicate Canonical(l: Ledger) { SoundUsage(l.usage) && CanonicalCost(l.cost) }

  /** Addition of possibly failed sums. */
  function Plus(a: Option<Ledger>, b: Option<Ledger>): Option<Ledger> {
    if a.None? || b.None? then None else AddLedger(a.value, b.value)
  }

  lemma TrimmedIsFixed(s: string)
    requires Trimmed(s)
    ensures TrimSpace(s) == s
  {
  }

  lemma TrimmedResult(s: string)
    ensures Trimmed(TrimSpace(s))
  {
  }

  lemma JoinSourcesLaws(a: string, b: string, c: string)
    ensures JoinSources(JoinSources(a, b), c) == JoinSources(a, JoinSources(b, c))
    ensures JoinSources(a, b) == JoinSources(b, a)
    ensures Trimmed(a) && Trimmed(b) ==> Trimmed(JoinSources(a, b))
  {
    assert Trimmed("mixed");
  }

  lemma MergeCommutes(a: string, b: string)
    ensures MergeSource(a, b) == MergeSource(b, a)
  {
  }

  lemma MergeIsTrimmed(a: string, b: string)
    ensures Trimmed(MergeSource(a, b))
  {
    TrimmedResult(a);
    TrimmedResult(b);
    JoinSourcesLaws(TrimSpace(a), TrimSpace(b), TrimSpace(b));
  }

  lemma MergeTrimmed(m: string, c: string)
    requires Trimmed(m)
    ensures MergeSource(m, c) == JoinSources(m, TrimSpace(c)) && MergeSource(c, m) == JoinSources(TrimSpace(c), m)
  {
    TrimmedIsFixed(m);
  }

  /** Merging trims, so it is associative on every text. */
  lemma MergeAssociates(a: string, b: string, c: string, ab: string, bc: string)
    requires ab == MergeSource(a, b) && bc == MergeSource(b, c)
    ensures MergeSource(ab, c) == MergeSource(a, bc)
  {
    MergeIsTrimmed(a, b);
    MergeIsTrimmed(b, c);
    MergeTrimmed(ab, c);
    MergeTrimmed(bc, a);
    JoinSourcesLaws(TrimSpace(a), TrimSpace(b), TrimSpace(c));
  }

  function JoinCost(a: Cost, b: Cost): Option<Cost>
    requires a.known >= 0 && b.known >= 0 && a.unknown >= 0 && b.unknown >= 0
  {
    PlainCost(a, b, SumSource(a, b))
  }

  lemma PlainCostValid(a: Cost, b: Cost, source: string)
    requires ValidCost(a) && ValidCost(b) && PlainCost(a, b, source).Some?
    ensures ValidCost(PlainCost(a, b, source).value)
  {
  }

  lemma PlainCostNone(a: Cost, b: Cost, source: string)
    requires ValidCost(a) && ValidCost(b) && PlainCost(a, b, source).Some?
    ensures PlainCost(a, b, source).value.status.NoCost? <==> a.status.NoCost? && b.status.NoCost?
  {
  }

  /** A canonical sum with the joint source. */
  predicate JointCost(sum: Cost, a: Cost, b: Cost) {
    && CanonicalCost(sum) && sum.source == SumSource(a, b)
    && (sum.status.NoCost? <==> a.status.NoCost? && b.status.NoCost?)
  }

  lemma JoinCostSum(a: Cost, b: Cost)
    requires CanonicalCost(a) && CanonicalCost(b)
    ensures JoinCost(a, b) == JoinCost(b, a)
    ensures JoinCost(a, b).Some? ==> JointCost(JoinCost(a, b).value, a, b)
  {
    var source := SumSource(a, b);
    assert source == SumSource(b, a) by { MergeCommutes(a.source, b.source); }
    if JoinCost(a, b).Some? {
      PlainCostValid(a, b, source);
      PlainCostNone(a, b, source);
    }
  }

  lemma SumSourceLaws(a: Cost, b: Cost, c: Cost, ab: Cost, bc: Cost)
    requires JointCost(ab, a, b) && JointCost(bc, b, c)
    ensures SumSource(ab, c) == SumSource(a, bc)
  {
    MergeAssociates(a.source, b.source, c.source, MergeSource(a.source, b.source), MergeSource(b.source, c.source));
  }

  lemma PlainCostLaws(a: Cost, b: Cost, c: Cost)
    requires CanonicalCost(a) && CanonicalCost(b) && CanonicalCost(c)
    ensures JoinCost(a, b) == JoinCost(b, a)
    ensures var ab, bc := JoinCost(a, b), JoinCost(b, c);
            && (ab.Some? ==> CanonicalCost(ab.value)) && (bc.Some? ==> CanonicalCost(bc.value))
            && (ab.Some? && JoinCost(ab.value, c).Some? <==> bc.Some? && JoinCost(a, bc.value).Some?)
            && (ab.Some? && bc.Some? ==> JoinCost(ab.value, c) == JoinCost(a, bc.value))
  {
    JoinCostSum(a, b);
    JoinCostSum(b, c);
    var ab, bc := JoinCost(a, b), JoinCost(b, c);
    if ab.Some? && bc.Some? {
      SumSourceLaws(a, b, c, ab.value, bc.value);
      PlainCostAssociates(a, b, c, ab.value, bc.value, SumSource(ab.value, c));
    } else {
      PlainCostFails(a, b, c);
    }
  }

  lemma PlainCostAssociates(a: Cost, b: Cost, c: Cost, ab: Cost, bc: Cost, source: string)
    requires ValidCost(a) && ValidCost(b) && ValidCost(c)
    requires PlainCost(a, b, ab.source) == Some(ab) && PlainCost(b, c, bc.source) == Some(bc)
    ensures PlainCost(ab, c, source) == PlainCost(a, bc, source)
  {
  }

  lemma PlainCostFails(a: Cost, b: Cost, c: Cost)
    requires ValidCost(a) && ValidCost(b) && ValidCost(c) && (JoinCost(a, b).None? || JoinCost(b, c).None?)
    ensures JoinCost(a, b).Some? ==> JoinCost(JoinCost(a, b).value, c).None?
    ensures JoinCost(b, c).Some? ==> JoinCost(a, JoinCost(b, c).value).None?
  {
  }

  function PlainLedger(a: Ledger, b: Ledger): Option<Ledger>
    requires Canonical(a) && Canonical(b)
  {
    Both(PlainUsage(a.usage, b.usage), JoinCost(a.cost, b.cost))
  }

  /** On canonical ledgers `AddLedger` is plain addition with three overflow bounds. */
  lemma AddLedgerIsPlain(a: Ledger, b: Ledger)
    requires Canonical(a) && Canonical(b)
    ensures AddLedger(a, b) == PlainLedger(a, b)
  {
    AddUsageExact(a.usage, b.usage);
    AddCostExact(a.cost, b.cost);
  }

  predicate CanonicalSum(sum: Option<Ledger>) { sum.Some? ==> Canonical(sum.value) }

  /** Plain addition of possibly failed sums. */
  function PlainPlus(a: Option<Ledger>, b: Option<Ledger>): Option<Ledger> {
    if a.None? || b.None? || !Canonical(a.value) || !Canonical(b.value) then None else PlainLedger(a.value, b.value)
  }

  lemma PlusIsPlain(a: Option<Ledger>, b: Option<Ledger>)
    requires CanonicalSum(a) && CanonicalSum(b)
    ensures Plus(a, b) == PlainPlus(a, b)
  {
    if a.Some? && b.Some? { AddLedgerIsPlain(a.value, b.value); }
  }

  lemma PlainPlusSum(a: Option<Ledger>, b: Option<Ledger>)
    requires CanonicalSum(a) && CanonicalSum(b)
    ensures PlainPlus(a, b) == PlainPlus(b, a)
    ensures CanonicalSum(PlainPlus(a, b))
  {
    if a.Some? && b.Some? {
      PlainUsageSum(a.value.usage, b.value.usage);
      PlainCostLaws(a.value.cost, b.value.cost, b.value.cost);
    }
  }

  lemma PlainPlusAssociative(a: Ledger, b: Ledger, c: Ledger)
    requires Canonical(a) && Canonical(b) && Canonical(c)
    ensures PlainPlus(PlainPlus(Some(a), Some(b)), Some(c)) == PlainPlus(Some(a), PlainPlus(Some(b), Some(c)))
  {
    PlainPlusSum(Some(a), Some(b));
    PlainPlusSum(Some(b), Some(c));
    PlainUsageLaws(a.usage, b.usage, c.usage);
    PlainCostLaws(a.cost, b.cost, c.cost);
  }

  lemma AddLedgerCommutative(a: Ledger, b: Ledger)
    requires Canonical(a) && Canonical(b)
    ensures AddLedger(a, b) == AddLedger(b, a)
    ensures CanonicalSum(AddLedger(a, b))
  {
    PlusIsPlain(Some(a), Some(b));
    PlusIsPlain(Some(b), Some(a));
    PlainPlusSum(Some(a), Some(b));
  }

  /** Associativity, failure included: one bracketing overflows exactly when the other does. */
  lemma PlusAssociative(a: Option<Ledger>, b: Option<Ledger>, c: Option<Ledger>)
    requires CanonicalSum(a) && CanonicalSum(b) && CanonicalSum(c)
    ensures Plus(Plus(a, b), c) == Plus(a, Plus(b, c))
  {
    PlainPlusSum(a, b);
    PlainPlusSum(b, c);
    if a.Some? && b.Some? && c.Some? { PlainPlusAssociative(a.value, b.value, c.value); }
    var ab, bc := PlainPlus(a, b), PlainPlus(b, c);
    assert Plus(a, b) == ab by { PlusIsPlain(a, b); }
    assert Plus(b, c) == bc by { PlusIsPlain(b, c); }
    assert Plus(ab, c) == PlainPlus(ab, c) by { PlusIsPlain(ab, c); }
    assert Plus(a, bc) == PlainPlus(a, bc) by { PlusIsPlain(a, bc); }
  }

  lemma EmptyIsCanonical()
    ensures Canonical(EMPTY)
  {
  }

  lemma EmptyIsIdentity(a: Ledger)
    requires Canonical(a)
    ensures AddLedger(EMPTY, a) == Some(a) && AddLedger(a, EMPTY) == Some(a)
  {
    ValidUsageExact(a.usage);
    EmptyIsCanonical();
    AddLedgerCommutative(EMPTY, a);
  }

  // ---- folding rows that come in no particular order ----

  function AddRow(sum: Option<Ledger>, row: Ledger): Option<Ledger> { Plus(sum, Some(row)) }

  function FoldFrom(sum: Option<Ledger>, rows: seq<Ledger>): Option<Ledger> { Folds.FoldLeft(AddRow, sum, rows) }

  function Fold(rows: seq<Ledger>): Option<Ledger> { FoldFrom(Some(EMPTY), rows) }

  ghost predicate AllCanonical(rows: seq<Ledger>) {
    forall i :: 0 <= i < |rows| ==> Canonical(rows[i])
  }

  lemma AddRowSwaps(sum: Option<Ledger>, x: Ledger, y: Ledger)
    requires CanonicalSum(sum) && Canonical(x) && Canonical(y)
    ensures AddRow(AddRow(sum, x), y) == AddRow(AddRow(sum, y), x)
    ensures CanonicalSum(AddRow(sum, x))
  {
    var xy := Plus(Some(x), Some(y));
    assert xy == Plus(Some(y), Some(x)) by { AddLedgerCommutative(x, y); }
    assert AddRow(AddRow(sum, x), y) == Plus(sum, xy) by { PlusAssociative(sum, Some(x), Some(y)); }
    assert AddRow(AddRow(sum, y), x) == Plus(sum, xy) by { PlusAssociative(sum, Some(y), Some(x)); }
    assert CanonicalSum(AddRow(sum, x)) by {
      if sum.Some? { AddLedgerCommutative(sum.value, x); }
    }
  }

  /** The fold over history rows does not depend on the order the database returns them in,
      neither in its value nor in whether it fails. */
  lemma FoldOrderIrrelevant(xs: seq<Ledger>, ys: seq<Ledger>)
    requires AllCanonical(xs) && AllCanonical(ys) && multiset(xs) == multiset(ys)
    ensures Fold(xs) == Fold(ys)
  {
    RowsSwappable();
    RowsAll(xs);
    RowsAll(ys);
    Folds.FoldOrderIrrelevant(AddRow, CanonicalSum, Canonical, Some(EMPTY), xs, ys);
  }

  lemma RowsAll(rows: seq<Ledger>)
    requires AllCanonical(rows)
    ensures Folds.All(Canonical, rows) && CanonicalSum(Some(EMPTY))
  {
  }

  lemma RowsSwappable()
    ensures Folds.Swappable(AddRow, CanonicalSum, Canonical)
  {
    forall sum: Option<Ledger>, x: Ledger | CanonicalSum(sum) && Canonical(x) ensures CanonicalSum(AddRow(sum, x)) {
      AddRowSwaps(sum, x, x);
    }
    forall sum: Option<Ledger>, x: Ledger, y: Ledger | CanonicalSum(sum) && Canonical(x) && Canonical(y)
      ensures AddRow(AddRow(sum, x), y) == AddRow(AddRow(sum, y), x)
    {
      AddRowSwaps(sum, x, y);
    }
  }

  /** The five token sums of the rows, count by count. */
  function CountsOf(rows: seq<Ledger>): Counts {
    if rows == [] then NO_COUNTS else AddCounts(rows[0].usage.counts, CountsOf(rows[1..]))
  }

  function StatusOver(rows: seq<Ledger>): UsageStatus {
    if rows == [] then Unavailable else JoinStatus(rows[0].usage.status, StatusOver(rows[1..]))
  }

  function TotalOf(rows: seq<Ledger>): int { CountsTotal(CountsOf(rows)) }
  function KnownOf(rows: seq<Ledger>): int { if rows == [] then 0 else rows[0].cost.known + KnownOf(rows[1..]) }
  function UnknownOf(rows: seq<Ledger>): int { if rows == [] then 0 else rows[0].cost.unknown + UnknownOf(rows[1..]) }
  function SubtotalOf(rows: seq<Ledger>): int {
    if rows == [] then 0 else rows[0].cost.subtotal + SubtotalOf(rows[1..])
  }

  lemma {:induction false} SumsNonNegative(rows: seq<Ledger>)
    requires AllCanonical(rows)
    ensures TotalOf(rows) >= 0 && KnownOf(rows) >= 0 && UnknownOf(rows) >= 0
    ensures rows != [] ==> TotalOf(rows) == Total(rows[0].usage) + TotalOf(rows[1..])
  {
    if rows != [] {
      var rest := rows[1..];
      SumsNonNegative(rest);
      assert CountsOf(rows) == AddCounts(rows[0].usage.counts, CountsOf(rest));
      TotalAdds(rows[0].usage.counts, CountsOf(rest));
    }
  }

  lemma TotalAdds(a: Counts, b: Counts)
    ensures CountsTotal(AddCounts(a, b)) == CountsTotal(a) + CountsTotal(b)
  {
  }

  /** The sum carries every count, the joint status and the cost of the rows. */
  ghost predicate Carries(r: Ledger, sum: Ledger, rows: seq<Ledger>) {
    && r.usage.counts == AddCounts(sum.usage.counts, CountsOf(rows))
    && r.usage.status == JoinStatus(sum.usage.status, StatusOver(rows))
    && r.cost.known == sum.cost.known + KnownOf(rows)
    && r.cost.unknown == sum.cost.unknown + UnknownOf(rows)
    && r.cost.subtotal == sum.cost.subtotal + SubtotalOf(rows)
    && r.cost.status == PlainStatus(r.cost.known, r.cost.unknown)
  }

  lemma CarriesNothing(sum: Ledger)
    requires Canonical(sum)
    ensures Carries(sum, sum, [])
  {
    AddZero(NO_COUNTS, sum.usage.counts);
  }

  lemma CarriesMore(r: Ledger, sum: Ledger, next: Ledger, rows: seq<Ledger>)
    requires rows != [] && Carries(r, next, rows[1..])
    requires next.usage.counts == AddCounts(sum.usage.counts, rows[0].usage.counts)
    requires next.usage.status == JoinStatus(sum.usage.status, rows[0].usage.status)
    requires next.cost.known == sum.cost.known + rows[0].cost.known
    requires next.cost.unknown == sum.cost.unknown + rows[0].cost.unknown
    requires next.cost.subtotal == sum.cost.subtotal + rows[0].cost.subtotal
    requires !rows[0].usage.status.Inconsistent? && !rows[0].usage.status.OtherUsage?
    requires !sum.usage.status.Inconsistent? && !sum.usage.status.OtherUsage?
    ensures Carries(r, sum, rows)
  {
    AddCountsLaws(sum.usage.counts, rows[0].usage.counts, CountsOf(rows[1..]));
  }

  /** The fold fails exactly when one of three exact sums exceeds an int64, and otherwise it
      carries the sums of the rows, count by count. */
  lemma {:induction false} FoldFromExact(sum: Ledger, rows: seq<Ledger>)
    requires Canonical(sum) && AllCanonical(rows)
    ensures var r := FoldFrom(Some(sum), rows);
            && (r.Some? <==>
                  && Total(sum.usage) + TotalOf(rows) <= MAX
                  && sum.cost.known + KnownOf(rows) <= MAX
                  && sum.cost.unknown + UnknownOf(rows) <= MAX)
            && (r.Some? ==> Carries(r.value, sum, rows))
    decreases |rows|
  {
    if rows == [] {
      CarriesNothing(sum);
    } else {
      SumsNonNegative(rows);
      SumsNonNegative(rows[1..]);
      AddRowExact(sum, rows[0]);
      var next := AddRow(Some(sum), rows[0]);
      if next.Some? {
        FoldFromExact(next.value, rows[1..]);
        var r := FoldFrom(Some(sum), rows);
        if r.Some? { CarriesMore(r.value, sum, next.value, rows); }
      } else {
        FailureSticks(rows[1..]);
      }
    }
  }

  lemma AddRowExact(sum: Ledger, row: Ledger)
    requires Canonical(sum) && Canonical(row)
    ensures var r := AddRow(Some(sum), row);
            && (r.Some? <==>
                  && Total(sum.usage) + Total(row.usage) <= MAX
                  && sum.cost.known + row.cost.known <= MAX
                  && sum.cost.unknown + row.cost.unknown <= MAX)
            && (r.Some? ==>
                  && Canonical(r.value)
                  && Total(r.value.usage) == Total(sum.usage) + Total(row.usage)
                  && r.value.usage.counts == AddCounts(sum.usage.counts, row.usage.counts)
                  && r.value.usage.status == JoinStatus(sum.usage.status, row.usage.status)
                  && r.value.cost.known == sum.cost.known + row.cost.known
                  && r.value.cost.unknown == sum.cost.unknown + row.cost.unknown
                  && r.value.cost.subtotal == sum.cost.subtotal + row.cost.subtotal)
  {
    PlusIsPlain(Some(sum), Some(row));
    PlainPlusSum(Some(sum), Some(row));
    PlainUsageSum(sum.usage, row.usage);
    if PlainUsage(sum.usage, row.usage).Some? { PlainUsageCounts(sum.usage, row.usage); }
  }

  lemma {:induction false} FailureSticks(rows: seq<Ledger>)
    ensures FoldFrom(None, rows) == None
    decreases |rows|
  {
    if rows != [] { FailureSticks(rows[1..]); }
  }

  /** Order does matter for rows that are not valid: an unavailable usage with tokens is rejected
      as the first row and skipped after a measured one. */
  lemma InvalidRowsDependOnOrder()
    ensures var bad := Ledger(Usage(Counts(Prompt(1, 0, 0), Completion(0, 0)), Unavailable), NO_COST);
            var good := Ledger(Usage(Counts(Prompt(1, 0, 0), Completion(0, 0)), Complete), NO_COST);
            Fold([bad, good]).None? && Fold([good, bad]) == Some(good)
  {
    var bad := Ledger(Usage(Counts(Prompt(1, 0, 0), Completion(0, 0)), Unavailable), NO_COST);
    var good := Ledger(Usage(Counts(Prompt(1, 0, 0), Completion(0, 0)), Complete), NO_COST);
    ValidUsageExact(bad.usage);
    ValidUsageExact(good.usage);
    assert [bad, good][1..] == [good] && [good, bad][1..] == [bad];
    assert AddLedger(EMPTY, bad) == None;
    assert AddLedger(EMPTY, good) == Some(good);
    assert AddLedger(good, bad) == Some(good);
    FailureSticks([good]);
    assert FoldFrom(Some(good), [bad]) == FoldFrom(Some(good), []);
  }

  method FoldRows(rows: seq<Ledger>) returns (r: Option<Ledger>)
    ensures r == Fold(rows)
  {
    var sum := EMPTY;
    for i := 0 to |rows|
      invariant FoldFrom(Some(sum), rows[i..]) == Fold(rows)
    {
      assert rows[i..][1..] == rows[i + 1..];
      var next := AddLedger(sum, rows[i]);
      if next.None? {
        FailureSticks(rows[i + 1..]);
        return None;
      }
      sum := next.value;
    }
    assert rows[|rows|..] == [];
    r := Some(sum);
  }
}
