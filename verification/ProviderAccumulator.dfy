/** The dispatch-aware accumulator of one logical call, over every sequence of observations. */
module ProviderAccumulator {
  import opened Wrappers
  import opened Text
  import opened Accounting

  datatype Observation = Observation(dispatched: bool, ledger: Ledger)

  datatype Accumulator = Accumulator(ledger: Ledger, missingUsage: bool)

  datatype Fault = UsageFault | CostFault

  const INITIAL := Accumulator(EMPTY, false)

  predicate UsageMeasured(o: Observation) { ValidUsage(o.ledger.usage) && !o.ledger.usage.status.Unavailable? }

  predicate CostMeasured(o: Observation) { ValidCost(o.ledger.cost) && !o.ledger.cost.status.NoCost? }

  /** An attempt counts as observed when it was dispatched or measured in either dimension. */
  predicate Observed(o: Observation) { o.dispatched || UsageMeasured(o) || CostMeasured(o) }

  /** One more observation without usable cost, if it still fits. */
  function AddUnknown(cost: Cost, unknown: Cost): Cost {
    var r := AddCost(cost, unknown);
    if r.Some? then r.value else cost
  }

  function UsageAfter(usage: Usage, o: Observation): Usage {
    if !UsageMeasured(o) || AddUsage(usage, o.ledger.usage).None? then usage
    else AddUsage(usage, o.ledger.usage).value
  }

  predicate UsageMissed(usage: Usage, o: Observation) {
    Observed(o) && (!UsageMeasured(o) || AddUsage(usage, o.ledger.usage).None?)
  }

  function CostAfter(cost: Cost, o: Observation, unknown: Cost): Cost {
    if !CostMeasured(o) then if Observed(o) then AddUnknown(cost, unknown) else cost
    else if AddCost(cost, o.ledger.cost).None? then AddUnknown(cost, unknown)
    else AddCost(cost, o.ledger.cost).value
  }

  function FaultOf(a: Accumulator, o: Observation): Option<Fault> {
    if !ValidUsage(o.ledger.usage) || (UsageMeasured(o) && AddUsage(a.ledger.usage, o.ledger.usage).None?)
    then Some(UsageFault)
    else if !ValidCost(o.ledger.cost) || (CostMeasured(o) && AddCost(a.ledger.cost, o.ledger.cost).None?)
    then Some(CostFault)
    else None
  }

  function ObserveStep(a: Accumulator, o: Observation): Accumulator {
    Accumulator(Ledger(UsageAfter(a.ledger.usage, o), CostAfter(a.ledger.cost, o, UnknownCost("unknown"))),
                a.missingUsage || UsageMissed(a.ledger.usage, o))
  }

  function Reported(a: Accumulator): Ledger {
    if a.missingUsage && !a.ledger.usage.status.Unavailable?
    then a.ledger.(usage := a.ledger.usage.(status := Partial)) else a.ledger
  }

  /** The accumulator after a whole history of attempts. */
  function Run(h: seq<Observation>): Accumulator {
    if h == [] then INITIAL else ObserveStep(Run(h[..|h| - 1]), h[|h| - 1])
  }

  // ---- the reference: exact tallies that never look at the accumulator ----

  /** Does usage `o` still fit after the usages accepted from `before`? */
  predicate Accepted(before: seq<Observation>, o: Observation)
    decreases before, 1
  {
    UsageMeasured(o) && CountsTotal(AcceptedCounts(before)) + Total(o.ledger.usage) <= MAX
  }

  /** The exact token counts of all accepted usages, count by count. */
  function AcceptedCounts(h: seq<Observation>): Counts
    decreases h, 0
  {
    if h == [] then NO_COUNTS
    else
      var before, o := h[..|h| - 1], h[|h| - 1];
      if Accepted(before, o) then AddCounts(AcceptedCounts(before), o.ledger.usage.counts) else AcceptedCounts(before)
  }

  datatype Tally = Tally(subtotal: int, known: int, unknown: int)

  /** Exact cost coverage: an attempt without usable cost is one unknown observation. */
  function TallyStep(t: Tally, o: Observation): Tally {
    var c := o.ledger.cost;
    if CostMeasured(o) && t.known + c.known <= MAX && t.unknown + c.unknown <= MAX
    then Tally(t.subtotal + c.subtotal, t.known + c.known, t.unknown + c.unknown)
    else if Observed(o) && t.unknown < MAX then t.(unknown := t.unknown + 1)
    else t
  }

  function CostTally(h: seq<Observation>): Tally {
    if h == [] then Tally(0, 0, 0) else TallyStep(CostTally(h[..|h| - 1]), h[|h| - 1])
  }

  /** The attempt at `i` contributed its whole, complete usage. */
  predicate Contributed(h: seq<Observation>, i: nat)
    requires i < |h|
  {
    Accepted(h[..i], h[i]) && h[i].ledger.usage.status.Complete?
  }

  // ---- usage ----

  predicate AnyAccepted(h: seq<Observation>) {
    h != [] && (AnyAccepted(h[..|h| - 1]) || Accepted(h[..|h| - 1], h[|h| - 1]))
  }

  /** Some accepted usage was only partial. */
  predicate AnyPartial(h: seq<Observation>) {
    h != [] &&
    (|| AnyPartial(h[..|h| - 1])
     || (Accepted(h[..|h| - 1], h[|h| - 1]) && h[|h| - 1].ledger.usage.status.Partial?))
  }

  /** Some observed attempt was not accepted. */
  predicate AnyMissed(h: seq<Observation>) {
    h != [] && (AnyMissed(h[..|h| - 1]) || (Observed(h[|h| - 1]) && !Accepted(h[..|h| - 1], h[|h| - 1])))
  }

  function StatusOf(h: seq<Observation>): UsageStatus {
    if !AnyAccepted(h) then Unavailable else if AnyPartial(h) then Partial else Complete
  }

  lemma {:induction false} PartialIsAccepted(h: seq<Observation>)
    ensures AnyPartial(h) ==> AnyAccepted(h)
  {
    if h != [] { PartialIsAccepted(h[..|h| - 1]); }
  }

  lemma MeasuredStatus(a: Usage, b: Usage)
    requires SoundUsage(a) && SoundUsage(b) && !b.status.Unavailable? && PlainUsage(a, b).Some?
    ensures var c := PlainUsage(a, b).value;
            !c.status.Unavailable? && (c.status.Partial? <==> a.status.Partial? || b.status.Partial?)
  {
  }

  lemma AcceptedStep(before: seq<Observation>, usage: Usage, o: Observation)
    requires SoundUsage(usage) && usage.counts == AcceptedCounts(before) && Accepted(before, o)
    ensures var next := UsageAfter(usage, o);
            && SoundUsage(next) && !UsageMissed(usage, o)
            && next.counts == AddCounts(usage.counts, o.ledger.usage.counts)
            && !next.status.Unavailable?
            && (next.status.Partial? <==> usage.status.Partial? || o.ledger.usage.status.Partial?)
  {
    ValidUsageExact(o.ledger.usage);
    AddUsageExact(usage, o.ledger.usage);
    PlainUsageSum(usage, o.ledger.usage);
    PlainUsageCounts(usage, o.ledger.usage);
    MeasuredStatus(usage, o.ledger.usage);
  }

  lemma RejectedStep(before: seq<Observation>, usage: Usage, o: Observation)
    requires SoundUsage(usage) && usage.counts == AcceptedCounts(before) && !Accepted(before, o)
    ensures UsageAfter(usage, o) == usage && (UsageMissed(usage, o) <==> Observed(o))
  {
    if UsageMeasured(o) {
      ValidUsageExact(o.ledger.usage);
      AddUsageExact(usage, o.ledger.usage);
      PlainUsageSum(usage, o.ledger.usage);
    }
  }

  ghost predicate UsageInv(h: seq<Observation>, usage: Usage, missing: bool) {
    SoundUsage(usage) && usage.counts == AcceptedCounts(h) && usage.status == StatusOf(h) && missing == AnyMissed(h)
  }

  /** The bookkeeping of one step, given what the step did to the usage. */
  lemma UsageInvStep(h: seq<Observation>, usage: Usage, missing: bool, next: Usage, missed: bool)
    requires h != [] && UsageInv(h[..|h| - 1], usage, missing)
    requires var before, o := h[..|h| - 1], h[|h| - 1];
             if Accepted(before, o) then
               && SoundUsage(next) && !missed
               && next.counts == AddCounts(usage.counts, o.ledger.usage.counts)
               && !next.status.Unavailable?
               && (next.status.Partial? <==> usage.status.Partial? || o.ledger.usage.status.Partial?)
             else next == usage && (missed <==> Observed(o))
    ensures UsageInv(h, next, missing || missed)
  {
    PartialIsAccepted(h[..|h| - 1]);
  }

  /** The usage dimension after any history, in terms of the reference. */
  lemma {:induction false} RunUsage(h: seq<Observation>)
    ensures UsageInv(h, Run(h).ledger.usage, Run(h).missingUsage)
  {
    if h != [] {
      var before, o := h[..|h| - 1], h[|h| - 1];
      RunUsage(before);
      var usage := Run(before).ledger.usage;
      if Accepted(before, o) { AcceptedStep(before, usage, o); } else { RejectedStep(before, usage, o); }
      UsageInvStep(h, usage, Run(before).missingUsage, UsageAfter(usage, o), UsageMissed(usage, o));
    }
  }

  lemma {:induction false} AnyAcceptedAt(h: seq<Observation>)
    ensures AnyAccepted(h) <==> exists i :: 0 <= i < |h| && Accepted(h[..i], h[i])
  {
    if h != [] {
      var before := h[..|h| - 1];
      AnyAcceptedAt(before);
      assert forall i :: 0 <= i < |before| ==> before[..i] == h[..i] && before[i] == h[i];
      if AnyAccepted(before) {
        var i :| 0 <= i < |before| && Accepted(before[..i], before[i]);
        assert Accepted(h[..i], h[i]);
      } else if Accepted(before, h[|h| - 1]) {
        assert Accepted(h[..|h| - 1], h[|h| - 1]);
      }
    }
  }

  /** No gap and nothing partial means that each observed attempt contributed fully. */
  lemma {:induction false} CoveredAt(h: seq<Observation>)
    ensures !AnyMissed(h) && !AnyPartial(h) <==> forall i :: 0 <= i < |h| && Observed(h[i]) ==> Contributed(h, i)
  {
    if h != [] {
      var n := |h| - 1;
      var before := h[..n];
      CoveredAt(before);
      assert forall i :: 0 <= i < n ==> before[..i] == h[..i] && before[i] == h[i];
      assert forall i :: 0 <= i < n ==> (Contributed(before, i) <==> Contributed(h, i));
      LastContributes(h);
      if forall i :: 0 <= i < |h| && Observed(h[i]) ==> Contributed(h, i) {
        assert forall i :: 0 <= i < n && Observed(before[i]) ==> Contributed(before, i);
      }
    }
  }

  lemma LastContributes(h: seq<Observation>)
    requires h != []
    ensures var before, o := h[..|h| - 1], h[|h| - 1];
            (Observed(o) ==> Contributed(h, |h| - 1))
            <==> !(Observed(o) && !Accepted(before, o)) && !(Accepted(before, o) && o.ledger.usage.status.Partial?)
  {
    ValidUsageExact(h[|h| - 1].ledger.usage);
  }

  /** Over every history the stored usage is valid and carries exactly the accepted tokens. */
  lemma TokensAreAcceptedSum(h: seq<Observation>)
    ensures ValidUsage(Run(h).ledger.usage) && Run(h).ledger.usage.counts == AcceptedCounts(h)
  {
    RunUsage(h);
    ValidUsageExact(Run(h).ledger.usage);
  }

  lemma AcceptedIsObserved(h: seq<Observation>)
    ensures AnyAccepted(h) ==> exists i :: 0 <= i < |h| && Observed(h[i])
    ensures (exists i :: 0 <= i < |h| && Observed(h[i])) && !AnyMissed(h) && !AnyPartial(h) ==> AnyAccepted(h)
  {
    AnyAcceptedAt(h);
    CoveredAt(h);
    if AnyAccepted(h) {
      var i :| 0 <= i < |h| && Accepted(h[..i], h[i]);
      assert Observed(h[i]);
    }
    if i :| 0 <= i < |h| && Observed(h[i]) {
      assert Contributed(h, i) ==> Accepted(h[..i], h[i]);
    }
  }

  /** Over every history the reported ledger is complete exactly when some attempt was observed and
      every observed attempt contributed a valid complete usage. */
  lemma CompleteExactlyWhenCovered(h: seq<Observation>)
    ensures Reported(Run(h)).usage.status.Complete? <==>
              && (exists i :: 0 <= i < |h| && Observed(h[i]))
              && (forall i :: 0 <= i < |h| && Observed(h[i]) ==> Contributed(h, i))
  {
    RunUsage(h);
    CoveredAt(h);
    AcceptedIsObserved(h);
    PartialIsAccepted(h);
    assert Reported(Run(h)).usage.status.Complete? <==> StatusOf(h).Complete? && !AnyMissed(h);
  }

  // ---- cost ----

  ghost predicate CostInv(t: Tally, cost: Cost) {
    ValidCost(cost) && cost.subtotal == t.subtotal && cost.known == t.known && cost.unknown == t.unknown
  }

  lemma AddCostTally(t: Tally, cost: Cost, more: Cost)
    requires CostInv(t, cost) && ValidCost(more)
    ensures var r := AddCost(cost, more);
            && (r.Some? <==> t.known + more.known <= MAX && t.unknown + more.unknown <= MAX)
            && (r.Some? ==>
                  CostInv(Tally(t.subtotal + more.subtotal, t.known + more.known, t.unknown + more.unknown), r.value))
  {
    AddCostExact(cost, more);
  }

  /** One observation of unknown cost. */
  predicate IsUnknownCost(c: Cost) { ValidCost(c) && c.subtotal == 0 && c.known == 0 && c.unknown == 1 }

  lemma AddUnknownTally(t: Tally, cost: Cost, unknown: Cost)
    requires CostInv(t, cost) && IsUnknownCost(unknown)
    ensures CostInv(OneMoreUnknown(t), AddUnknown(cost, unknown))
  {
    AddCostTally(t, cost, unknown);
  }

  function OneMoreUnknown(t: Tally): Tally { if t.unknown < MAX then t.(unknown := t.unknown + 1) else t }

  /** The tally follows whichever cost the step chose. */
  lemma StepChoice(t: Tally, cost: Cost, o: Observation, sum: Option<Cost>, more: Cost, after: Cost)
    requires CostInv(t, cost) && CostInv(OneMoreUnknown(t), more)
    requires var c := o.ledger.cost;
             CostMeasured(o) ==>
               && (sum.Some? <==> t.known + c.known <= MAX && t.unknown + c.unknown <= MAX)
               && (sum.Some? ==>
                     CostInv(Tally(t.subtotal + c.subtotal, t.known + c.known, t.unknown + c.unknown), sum.value))
    requires after == if !CostMeasured(o) then if Observed(o) then more else cost
                      else if sum.None? then more else sum.value
    ensures CostInv(TallyStep(t, o), after)
  {
  }

  lemma CostStep(t: Tally, cost: Cost, o: Observation, unknown: Cost)
    requires CostInv(t, cost) && IsUnknownCost(unknown)
    ensures CostInv(TallyStep(t, o), CostAfter(cost, o, unknown))
  {
    var sum, more := AddCost(cost, o.ledger.cost), AddUnknown(cost, unknown);
    if CostMeasured(o) { AddCostTally(t, cost, o.ledger.cost); }
    AddUnknownTally(t, cost, unknown);
    StepChoice(t, cost, o, sum, more, CostAfter(cost, o, unknown));
  }

  lemma UnknownIsUnknown()
    ensures IsUnknownCost(UnknownCost("unknown"))
  {
  }

  /** Over every history the cost stays valid and its three totals are the exact tally: measured
      costs are summed, and every other observed attempt adds one unknown observation unless that
      count would overflow. */
  lemma {:induction false} CostIsTally(h: seq<Observation>)
    ensures CostInv(CostTally(h), Run(h).ledger.cost)
    ensures Run(h).ledger.cost.status == PlainStatus(CostTally(h).known, CostTally(h).unknown)
  {
    if h != [] {
      var before, o := h[..|h| - 1], h[|h| - 1];
      CostIsTally(before);
      UnknownIsUnknown();
      CostStep(CostTally(before), Run(before).ledger.cost, o, UnknownCost("unknown"));
    }
  }

  // ---- the object ----

  class ProviderAccumulator {
    var ledger: Ledger
    var missingUsage: bool

    ghost function State(): Accumulator
      reads this
    {
      Accumulator(ledger, missingUsage)
    }

    constructor ()
      ensures State() == INITIAL
    {
      ledger, missingUsage := EMPTY, false;
    }

    method Observe(dispatched: bool, observation: Ledger) returns (fault: Option<Fault>)
      modifies this
      ensures State() == ObserveStep(old(State()), Observation(dispatched, observation))
      ensures fault == FaultOf(old(State()), Observation(dispatched, observation))
    {
      var usageOk := ValidUsage(observation.usage);
      var costOk := ValidCost(observation.cost);
      var usageMeasured := usageOk && !observation.usage.status.Unavailable?;
      var costMeasured := costOk && !observation.cost.status.NoCost?;
      var observed := dispatched || usageMeasured || costMeasured;
      fault := None;
      if !usageOk {
        fault := Some(UsageFault);
      } else if observation.usage.status.Unavailable? {
        if observed { missingUsage := true; }
      } else {
        var usage := AddUsage(ledger.usage, observation.usage);
        if usage.None? {
          fault := Some(UsageFault);
          missingUsage := true;
        } else {
          ledger := ledger.(usage := usage.value);
        }
      }
      if !usageOk && observed { missingUsage := true; }

      if !costOk {
        if fault.None? { fault := Some(CostFault); }
        if observed { AddUnknownCost(); }
      } else if observation.cost.status.NoCost? {
        if observed { AddUnknownCost(); }
      } else {
        var cost := AddCost(ledger.cost, observation.cost);
        if cost.None? {
          if fault.None? { fault := Some(CostFault); }
          if observed { AddUnknownCost(); }
        } else {
          ledger := ledger.(cost := cost.value);
        }
      }
    }

    method AddUnknownCost()
      modifies this`ledger
      ensures ledger == old(ledger).(cost := AddUnknown(old(ledger).cost, UnknownCost("unknown")))
    {
      var cost := AddCost(ledger.cost, UnknownCost("unknown"));
      if cost.Some? {
        ledger := ledger.(cost := cost.value);
      }
    }

    method Report() returns (l: Ledger)
      ensures l == Reported(State())
    {
      l := ledger;
      if missingUsage && !l.usage.status.Unavailable? {
        l := l.(usage := l.usage.(status := Partial));
      }
    }
  }
}
