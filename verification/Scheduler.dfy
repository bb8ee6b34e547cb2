/** The budgeted two-route scheduler of a live capacity campaign.
    Times count nanoseconds from the zero time; money counts whole picodollars, so the
    tolerance of the source is one unit. */
module Scheduler {
  import opened Wrappers
  import opened Counting

  const SECOND: int := 1_000_000_000
  const MILLISECOND: int := 1_000_000

  /** The reservation of one paid attempt, 0.00128 USD, and the tolerance of the budget test. */
  const RESERVATION: int := 1_280_000_000
  const TOLERANCE: int := 1

  const MAX_ATTEMPTS := 3

  datatype Route = Unrouted | Cpa | OpenAI

  datatype Status =
    | Queued | Active | Completed | Rejected | Failed | Unconfirmed | Policy
    | OtherKind(text: string)

  datatype RouteConfig = RouteConfig(
    concurrency: int, interval: int, active: int, next: int, pauseUntil: int, failures: nat, disabled: bool)

  datatype Item = Item(
    admissionConcurrency: int, status: Status, route: Route, attempts: int,
    enqueued: int, started: int, queueWait: int, retryWait: int, retryAt: int)

  datatype Outcome = Outcome(kind: Status, retryAfter: int, usageKnown: bool, cost: int)

  datatype State = State(
    items: seq<Item>, cpa: RouteConfig, api: RouteConfig, peakCpa: int, peakApi: int,
    budget: int, spent: int, reserved: int, stopReason: string, lastCompletion: int)

  function Max(a: int, b: int): int { if a > b then a else b }

  function Min(a: int, b: int): int { if a < b then a else b }

  function Pow2(n: nat): nat { if n == 0 then 1 else 2 * Pow2(n - 1) }

  function NewItem(now: int): Item { Item(0, Queued, Unrouted, 0, now, 0, 0, 0, 0) }

  function NewState(n: nat, now: int, cpa: RouteConfig, budget: int): State {
    State(seq(n, i => NewItem(now)), cpa, RouteConfig(4, SECOND, 0, 0, 0, 0, false), 0, 0, budget, 0, 0, "", 0)
  }

  function RouteOf(s: State, route: Route): RouteConfig { if route.OpenAI? then s.api else s.cpa }

  function WithRoute(s: State, route: Route, r: RouteConfig): State {
    if route.OpenAI? then s.(api := r) else s.(cpa := r)
  }

  predicate Ready(r: RouteConfig, now: int) {
    !r.disabled && r.active < r.concurrency && now >= r.next && now >= r.pauseUntil
  }

  // ---- admission ----

  /** The route an item may start on right now, if any. */
  function Eligible(s: State, item: Item, now: int, overflow: bool): Option<Route> {
    if !item.status.Queued? || now < item.retryAt then None
    else
      var route :=
        if !item.route.Unrouted? then item.route
        else if Ready(s.cpa, now) then Cpa
        else if overflow && (now - item.enqueued >= 30 * SECOND || s.cpa.pauseUntil - now > 30 * SECOND) then OpenAI
        else Unrouted;
      if route.Unrouted? || !Ready(RouteOf(s, route), now) then None
      else if route.OpenAI? && s.spent + s.reserved + RESERVATION > s.budget + TOLERANCE then None
      else Some(route)
  }

  /** The first item at or after `from` that may start. */
  function Pick(s: State, now: int, overflow: bool, from: nat): (i: nat)
    requires from <= |s.items|
    ensures from <= i <= |s.items|
    ensures i < |s.items| ==> Eligible(s, s.items[i], now, overflow).Some?
    ensures forall j :: from <= j < i ==> Eligible(s, s.items[j], now, overflow).None?
    decreases |s.items| - from
  {
    if from == |s.items| || Eligible(s, s.items[from], now, overflow).Some? then from
    else Pick(s, now, overflow, from + 1)
  }

  function StartedItem(item: Item, route: Route, concurrency: int, now: int): Item {
    item.(retryWait := if item.retryAt != 0 then item.retryWait + (now - item.started) else item.retryWait,
          retryAt := 0,
          queueWait := if item.attempts == 0 then now - item.enqueued else item.queueWait,
          admissionConcurrency := concurrency, status := Active, route := route,
          attempts := item.attempts + 1, started := now)
  }

  function Start(s: State, i: nat, route: Route, now: int): State
    requires i < |s.items|
  {
    var r := RouteOf(s, route);
    var t := WithRoute(s, route, r.(active := r.active + 1, next := now + r.interval));
    t.(items := s.items[i := StartedItem(s.items[i], route, r.concurrency, now)],
       reserved := if route.OpenAI? then s.reserved + RESERVATION else s.reserved,
       peakCpa := Max(s.peakCpa, t.cpa.active), peakApi := Max(s.peakApi, t.api.active))
  }

  function AdmitStep(s: State, now: int, overflow: bool): State {
    if s.stopReason != "" then s
    else
      var i := Pick(s, now, overflow, 0);
      if i == |s.items| then s else Start(s, i, Eligible(s, s.items[i], now, overflow).value, now)
  }

  /** The index an admission starts, if any. */
  function Admitted(s: State, now: int, overflow: bool): Option<nat> {
    var i := Pick(s, now, overflow, 0);
    if s.stopReason != "" || i == |s.items| then None else Some(i)
  }

  // ---- completion ----

  function Stopped(s: State, reason: string): State { if s.stopReason == "" then s.(stopReason := reason) else s }

  /** Release of the slot and settlement of the reservation. */
  function Settled(s: State, route: Route, o: Outcome): State {
    var r := RouteOf(s, route);
    var t := WithRoute(s, route, r.(active := r.active - 1));
    if route.OpenAI? && o.usageKnown then
      var u := t.(reserved := Max(0, t.reserved - RESERVATION), spent := t.spent + o.cost);
      if o.cost > RESERVATION then Stopped(u, "reservation_exceeded") else u
    else t
  }

  function Backoff(r: RouteConfig, o: Outcome, id: nat, attempts: int): int {
    (if o.retryAfter <= 0 then SECOND * Pow2(Min(r.failures, 6)) else o.retryAfter)
    + (id * 7919 + attempts * 997) % 2000 * MILLISECOND
  }

  function Narrowed(r: RouteConfig, admissionConcurrency: int): RouteConfig {
    if admissionConcurrency == 1 then r.(disabled := true) else r.(concurrency := Max(1, r.concurrency / 2))
  }

  function RejectedRoute(r: RouteConfig, item: Item, id: nat, o: Outcome, now: int): RouteConfig {
    var counted := r.(failures := r.failures + 1);
    var until := now + Backoff(counted, o, id, item.attempts);
    Narrowed(counted.(pauseUntil := Max(until, counted.pauseUntil)), item.admissionConcurrency)
    .(interval := Min(30 * SECOND, Max(SECOND, r.interval * 2)))
  }

  /** The route after an outcome; its slot is already released. */
  function RouteAfter(r: RouteConfig, item: Item, id: nat, o: Outcome, now: int): (after: RouteConfig)
    ensures after.active == r.active && after.pauseUntil >= r.pauseUntil
  {
    match o.kind
    case Completed => r.(failures := 0)
    case Unconfirmed =>
      Narrowed(r.(failures := r.failures + 1, pauseUntil := Max(r.pauseUntil, now + 60 * SECOND)),
               item.admissionConcurrency)
    case Rejected => RejectedRoute(r, item, id, o, now)
    case _ => r
  }

  function ItemAfter(r: RouteConfig, item: Item, id: nat, o: Outcome, now: int): (after: Item)
    ensures after.route == item.route && after.attempts == item.attempts
  {
    if !o.kind.Rejected? then item.(status := o.kind)
    else if item.attempts >= MAX_ATTEMPTS then item.(status := Failed)
    else item.(status := Queued, started := now,
               retryAt := now + Backoff(r.(failures := r.failures + 1), o, id, item.attempts))
  }

  function FinishStep(s: State, id: nat, o: Outcome, now: int): State
    requires id < |s.items|
  {
    var item := s.items[id];
    if !item.status.Active? then s
    else
      var t := Settled(s, item.route, o);
      var r := RouteOf(t, item.route);
      var u := WithRoute(t, item.route, RouteAfter(r, item, id, o, now))
               .(items := s.items[id := ItemAfter(r, item, id, o, now)],
                 lastCompletion := if o.kind.Completed? then now else s.lastCompletion);
      if o.kind.Policy? then Stopped(u, "account_or_policy_rejection") else u
  }

  // ---- runs ----

  datatype Event =
    | Admit(now: int, overflow: bool)
    | Finish(id: nat, outcome: Outcome, now: int)
    | Stop(reason: string)

  predicate Documented(kind: Status) {
    kind.Completed? || kind.Rejected? || kind.Failed? || kind.Unconfirmed? || kind.Policy?
  }

  predicate Enabled(s: State, e: Event) {
    e.Finish? ==> e.id < |s.items| && Documented(e.outcome.kind)
  }

  function Step(s: State, e: Event): State
    requires e.Finish? ==> e.id < |s.items|
  {
    match e
    case Admit(now, overflow) => AdmitStep(s, now, overflow)
    case Finish(id, outcome, now) => FinishStep(s, id, outcome, now)
    case Stop(reason) => Stopped(s, reason)
  }

  predicate IsRun(s: State, events: seq<Event>)
    decreases |events|
  {
    events == [] || (Enabled(s, events[0]) && IsRun(Step(s, events[0]), events[1..]))
  }

  function After(s: State, events: seq<Event>): State
    requires IsRun(s, events)
    decreases |events|
  {
    if events == [] then s else After(Step(s, events[0]), events[1..])
  }

  // ---- the invariant ----

  predicate ActiveOn(route: Route, item: Item) { item.status.Active? && item.route == route }

  function ActiveCount(s: State, route: Route): nat { Count((item: Item) => ActiveOn(route, item), s.items) }

  predicate Terminal(item: Item) {
    item.status.Completed? || item.status.Failed? || item.status.Unconfirmed? || item.status.Policy?
  }

  predicate ItemOk(item: Item) {
    && 0 <= item.attempts <= MAX_ATTEMPTS
    && (item.status.Queued? || item.status.Active? || Terminal(item))
    && (item.status.Queued? ==> item.attempts < MAX_ATTEMPTS)
    && (item.route.Unrouted? <==> item.attempts == 0)
    && (item.status.Active? ==> item.attempts >= 1)
  }

  ghost predicate Inv(s: State) {
    && (forall i :: 0 <= i < |s.items| ==> ItemOk(s.items[i]))
    && s.cpa.active == ActiveCount(s, Cpa)
    && s.api.active == ActiveCount(s, OpenAI)
  }

  lemma NewStateInv(n: nat, now: int, cpa: RouteConfig, budget: int)
    requires cpa.active == 0
    ensures Inv(NewState(n, now, cpa, budget))
  {
    var s := NewState(n, now, cpa, budget);
    CountBound((item: Item) => ActiveOn(Cpa, item), s.items);
    CountBound((item: Item) => ActiveOn(OpenAI, item), s.items);
  }

  /** What replacing one item does to the number of active items of a route. */
  lemma ActiveUpdate(s: State, i: nat, item: Item, route: Route)
    requires i < |s.items|
    ensures ActiveCount(s.(items := s.items[i := item]), route) + One(ActiveOn(route, s.items[i]))
         == ActiveCount(s, route) + One(ActiveOn(route, item))
  {
    CountUpdate((x: Item) => ActiveOn(route, x), s.items, i, item);
  }

  lemma SameItemsSameCount(s: State, t: State, route: Route)
    requires s.items == t.items
    ensures ActiveCount(s, route) == ActiveCount(t, route)
  {
  }

  lemma AdmitKeepsInv(s: State, now: int, overflow: bool)
    requires Inv(s)
    ensures Inv(AdmitStep(s, now, overflow))
  {
    var i := Pick(s, now, overflow, 0);
    if s.stopReason == "" && i < |s.items| {
      var route := Eligible(s, s.items[i], now, overflow).value;
      var item := StartedItem(s.items[i], route, RouteOf(s, route).concurrency, now);
      var t := AdmitStep(s, now, overflow);
      assert t.items == s.items[i := item];
      ActiveUpdate(s, i, item, Cpa);
      ActiveUpdate(s, i, item, OpenAI);
      SameItemsSameCount(t, s.(items := s.items[i := item]), Cpa);
      SameItemsSameCount(t, s.(items := s.items[i := item]), OpenAI);
    }
  }

  lemma FinishShape(s: State, id: nat, o: Outcome, now: int)
    requires id < |s.items| && s.items[id].status.Active? && !s.items[id].route.Unrouted?
    ensures var t := FinishStep(s, id, o, now);
            var item := s.items[id];
            && t.items == s.items[id := t.items[id]]
            && t.items[id].route == item.route && t.items[id].attempts == item.attempts
            && t.cpa.active == s.cpa.active - One(item.route.Cpa?)
            && t.api.active == s.api.active - One(item.route.OpenAI?)
            && t.items[id].status == (if o.kind.Rejected? then if item.attempts >= MAX_ATTEMPTS then Failed else Queued
                                      else o.kind)
  {
  }

  /** A completion keeps the invariant exactly when its kind is one of the five documented ones, or
      would put back an item that still has attempts left. */
  lemma FinishKeepsInvIff(s: State, id: nat, o: Outcome, now: int)
    requires Inv(s) && id < |s.items| && s.items[id].status.Active?
    ensures Inv(FinishStep(s, id, o, now)) <==>
              Documented(o.kind) || (o.kind.Queued? && s.items[id].attempts < MAX_ATTEMPTS)
  {
    var item := s.items[id];
    assert ItemOk(item);
    FinishShape(s, id, o, now);
    var t := FinishStep(s, id, o, now);
    ActiveUpdate(s, id, t.items[id], Cpa);
    ActiveUpdate(s, id, t.items[id], OpenAI);
    SameItemsSameCount(t, s.(items := s.items[id := t.items[id]]), Cpa);
    SameItemsSameCount(t, s.(items := s.items[id := t.items[id]]), OpenAI);
    if !Documented(o.kind) {
      assert t.items[id].status == o.kind;
    }
    assert ItemOk(t.items[id]) <==>
           || Documented(o.kind) || o.kind.Active?
           || (o.kind.Queued? && item.attempts < MAX_ATTEMPTS);
  }

  lemma StepKeepsInv(s: State, e: Event)
    requires Inv(s) && Enabled(s, e)
    ensures Inv(Step(s, e))
    ensures |Step(s, e).items| == |s.items|
  {
    match e
    case Admit(now, overflow) => AdmitKeepsInv(s, now, overflow);
    case Finish(id, outcome, now) =>
      if s.items[id].status.Active? {
        assert ItemOk(s.items[id]);
        FinishKeepsInvIff(s, id, outcome, now);
        FinishShape(s, id, outcome, now);
      }
    case Stop(reason) =>
      SameItemsSameCount(s, Step(s, e), Cpa);
      SameItemsSameCount(s, Step(s, e), OpenAI);
  }

  /** In every run no item is attempted more than three times and each route's active counter is
      its number of active items. */
  lemma {:induction false} RunKeepsInv(s: State, events: seq<Event>)
    requires Inv(s) && IsRun(s, events)
    ensures Inv(After(s, events))
    ensures |After(s, events).items| == |s.items|
    decreases |events|
  {
    if events != [] {
      StepKeepsInv(s, events[0]);
      RunKeepsInv(Step(s, events[0]), events[1..]);
    }
  }

  // ---- what never changes ----

  lemma StepKeepsItems(s: State, e: Event, id: nat)
    requires Inv(s) && Enabled(s, e) && id < |s.items|
    ensures id < |Step(s, e).items|
    ensures Terminal(s.items[id]) ==> Step(s, e).items[id] == s.items[id]
    ensures !s.items[id].route.Unrouted? ==> Step(s, e).items[id].route == s.items[id].route
    ensures Step(s, e).items[id].attempts >= s.items[id].attempts
  {
    assert ItemOk(s.items[id]);
    if e.Finish? && s.items[e.id].status.Active? {
      assert ItemOk(s.items[e.id]);
      FinishShape(s, e.id, e.outcome, e.now);
    }
  }

  /** In every run a terminal item is never touched again, unconfirmed included, and a route once
      chosen never changes. */
  lemma {:induction false} TerminalAndRouteAreFinal(s: State, events: seq<Event>, id: nat)
    requires Inv(s) && IsRun(s, events) && id < |s.items|
    ensures id < |After(s, events).items|
    ensures Terminal(s.items[id]) ==> After(s, events).items[id] == s.items[id]
    ensures !s.items[id].route.Unrouted? ==> After(s, events).items[id].route == s.items[id].route
    ensures After(s, events).items[id].attempts >= s.items[id].attempts
    decreases |events|
  {
    if events != [] {
      StepKeepsInv(s, events[0]);
      StepKeepsItems(s, events[0], id);
      TerminalAndRouteAreFinal(Step(s, events[0]), events[1..], id);
    }
  }

  /** An admission only starts a queued item, on a route that is ready. */
  lemma AdmissionIsEligible(s: State, now: int, overflow: bool)
    requires Admitted(s, now, overflow).Some?
    ensures var i := Admitted(s, now, overflow).value;
            var t := AdmitStep(s, now, overflow);
            && s.items[i].status.Queued? && now >= s.items[i].retryAt
            && t.items[i].status.Active? && t.items[i].attempts == s.items[i].attempts + 1
            && Ready(RouteOf(s, t.items[i].route), now)
            && forall j :: 0 <= j < |s.items| && j != i ==> t.items[j] == s.items[j]
  {
  }

  lemma StepRaisesPause(s: State, e: Event)
    requires Enabled(s, e)
    ensures Step(s, e).cpa.pauseUntil >= s.cpa.pauseUntil && Step(s, e).api.pauseUntil >= s.api.pauseUntil
  {
  }

  lemma {:induction false} RunRaisesPause(s: State, events: seq<Event>)
    requires IsRun(s, events)
    ensures After(s, events).cpa.pauseUntil >= s.cpa.pauseUntil
    ensures After(s, events).api.pauseUntil >= s.api.pauseUntil
    decreases |events|
  {
    if events != [] {
      StepRaisesPause(s, events[0]);
      RunRaisesPause(Step(s, events[0]), events[1..]);
    }
  }

  lemma RejectionPauses(s: State, id: nat, o: Outcome, now: int)
    requires Inv(s) && id < |s.items| && s.items[id].status.Active? && o.kind.Rejected? && o.retryAfter > 0
    ensures var t := FinishStep(s, id, o, now);
            RouteOf(t, s.items[id].route).pauseUntil >= now + o.retryAfter
  {
    assert ItemOk(s.items[id]);
  }

  /** After a rejection with a hint, whatever happens next, nothing starts on that route before
      the finish time plus the hint. */
  lemma HintIsHonoured(s: State, id: nat, o: Outcome, now: int, events: seq<Event>, at: int, overflow: bool)
    requires Inv(s) && id < |s.items| && s.items[id].status.Active? && o.kind.Rejected? && o.retryAfter > 0
    requires IsRun(FinishStep(s, id, o, now), events)
    requires at < now + o.retryAfter
    ensures var t := After(FinishStep(s, id, o, now), events);
            Admitted(t, at, overflow).Some? ==>
              AdmitStep(t, at, overflow).items[Admitted(t, at, overflow).value].route != s.items[id].route
  {
    assert ItemOk(s.items[id]);
    RejectionPauses(s, id, o, now);
    var first := FinishStep(s, id, o, now);
    RunRaisesPause(first, events);
    var t := After(first, events);
    if Admitted(t, at, overflow).Some? { AdmissionIsEligible(t, at, overflow); }
  }

  // ---- money ----

  /** A paid attempt that ends without known usage keeps its reservation for good. */
  predicate LosesReservation(s: State, e: Event)
    requires e.Finish? ==> e.id < |s.items|
  {
    e.Finish? && ActiveOn(OpenAI, s.items[e.id]) && !e.outcome.usageKnown
  }

  function Lost(s: State, events: seq<Event>): nat
    requires IsRun(s, events)
    decreases |events|
  {
    if events == [] then 0
    else One(LosesReservation(s, events[0])) + Lost(Step(s, events[0]), events[1..])
  }

  /** Settled costs lie between zero and the reservation. */
  predicate Affordable(events: seq<Event>) {
    forall i :: 0 <= i < |events| && events[i].Finish? && events[i].outcome.usageKnown ==>
      0 <= events[i].outcome.cost <= RESERVATION
  }

  ghost predicate Balanced(s: State, lost: nat) {
    && s.reserved == RESERVATION * (ActiveCount(s, OpenAI) + lost)
    && s.spent >= 0
    && s.spent + s.reserved <= Max(0, s.budget + TOLERANCE)
  }

  lemma AdmitKeepsBalance(s: State, lost: nat, now: int, overflow: bool)
    requires Inv(s) && Balanced(s, lost)
    ensures Balanced(AdmitStep(s, now, overflow), lost)
  {
    var i := Pick(s, now, overflow, 0);
    if s.stopReason == "" && i < |s.items| {
      var t := AdmitStep(s, now, overflow);
      var route := Eligible(s, s.items[i], now, overflow).value;
      ActiveUpdate(s, i, t.items[i], OpenAI);
      SameItemsSameCount(t, s.(items := s.items[i := t.items[i]]), OpenAI);
      assert ActiveCount(t, OpenAI) == ActiveCount(s, OpenAI) + One(route.OpenAI?);
    }
  }

  lemma FinishMoney(s: State, id: nat, o: Outcome, now: int)
    requires id < |s.items| && s.items[id].status.Active?
    ensures var t := FinishStep(s, id, o, now);
            var settled := s.items[id].route.OpenAI? && o.usageKnown;
            && t.budget == s.budget
            && t.reserved == (if settled then Max(0, s.reserved - RESERVATION) else s.reserved)
            && t.spent == (if settled then s.spent + o.cost else s.spent)
  {
  }

  lemma FinishKeepsBalance(s: State, lost: nat, id: nat, o: Outcome, now: int)
    requires Inv(s) && Balanced(s, lost) && id < |s.items| && Documented(o.kind)
    requires o.usageKnown ==> 0 <= o.cost <= RESERVATION
    ensures Balanced(FinishStep(s, id, o, now), lost + One(LosesReservation(s, Finish(id, o, now))))
    ensures LeavesClampIdle(s, id, o)
  {
    if s.items[id].status.Active? {
      assert ItemOk(s.items[id]);
      FinishShape(s, id, o, now);
      FinishMoney(s, id, o, now);
      var t := FinishStep(s, id, o, now);
      ActiveUpdate(s, id, t.items[id], OpenAI);
      SameItemsSameCount(t, s.(items := s.items[id := t.items[id]]), OpenAI);
      if s.items[id].route.OpenAI? {
        CountPositive((x: Item) => ActiveOn(OpenAI, x), s.items, id);
      }
    }
  }

  /** The clamp of the reservation at zero does not act. */
  predicate LeavesClampIdle(s: State, id: nat, o: Outcome)
    requires id < |s.items|
  {
    ActiveOn(OpenAI, s.items[id]) && o.usageKnown ==> s.reserved >= RESERVATION
  }

  /** In every run whose settled costs are within the reservation, committed money never exceeds the
      budget, and the reservation is exactly one unit per paid attempt that is active or ended
      with unknown usage. */
  lemma {:induction false} RunStaysInBudget(s: State, lost: nat, events: seq<Event>)
    requires Inv(s) && Balanced(s, lost) && IsRun(s, events) && Affordable(events)
    ensures Balanced(After(s, events), lost + Lost(s, events))
    decreases |events|
  {
    if events != [] {
      var e := events[0];
      StepKeepsInv(s, e);
      match e {
        case Admit(now, overflow) => AdmitKeepsBalance(s, lost, now, overflow);
        case Finish(id, outcome, now) => FinishKeepsBalance(s, lost, id, outcome, now);
        case Stop(reason) => SameItemsSameCount(s, Step(s, e), OpenAI);
      }
      RunStaysInBudget(Step(s, e), lost + One(LosesReservation(s, e)), events[1..]);
    }
  }

  lemma BudgetFromStart(n: nat, start: int, cpa: RouteConfig, budget: int, events: seq<Event>)
    requires cpa.active == 0 && IsRun(NewState(n, start, cpa, budget), events) && Affordable(events)
    ensures var s := After(NewState(n, start, cpa, budget), events);
            && s.spent + s.reserved <= Max(0, budget + TOLERANCE)
            && s.reserved == RESERVATION * (s.api.active + Lost(NewState(n, start, cpa, budget), events))
  {
    var s := NewState(n, start, cpa, budget);
    NewStateInv(n, start, cpa, budget);
    RunStaysInBudget(s, 0, events);
    RunKeepsInv(s, events);
    RunKeepsBudget(s, events);
  }

  lemma {:induction false} RunKeepsBudget(s: State, events: seq<Event>)
    requires IsRun(s, events)
    ensures After(s, events).budget == s.budget
    decreases |events|
  {
    if events != [] { RunKeepsBudget(Step(s, events[0]), events[1..]); }
  }

  // ---- progress counts ----

  datatype Progress = Progress(
    accepted: nat, completed: nat, failed: nat, unconfirmed: nat,
    queuedCpa: nat, queuedApi: nat, activeCpa: int, activeApi: int)

  function Tally(items: seq<Item>): (p: Progress)
    ensures p.accepted == |items| && p.activeCpa == 0 && p.activeApi == 0
  {
    if items == [] then Progress(0, 0, 0, 0, 0, 0, 0, 0)
    else
      var p := Tally(items[..|items| - 1]);
      TallyItem(p, items[|items| - 1]).(accepted := p.accepted + 1)
  }

  function TallyItem(p: Progress, item: Item): Progress {
    match item.status
    case Completed => p.(completed := p.completed + 1)
    case Failed => p.(failed := p.failed + 1)
    case Policy => p.(failed := p.failed + 1)
    case Unconfirmed => p.(unconfirmed := p.unconfirmed + 1)
    case Queued => if item.route.OpenAI? then p.(queuedApi := p.queuedApi + 1) else p.(queuedCpa := p.queuedCpa + 1)
    case _ => p
  }

  lemma {:induction false} TallyPartitions(items: seq<Item>)
    requires forall i :: 0 <= i < |items| ==> ItemOk(items[i])
    ensures var p := Tally(items);
            p.completed + p.failed + p.unconfirmed + p.queuedCpa + p.queuedApi
            + Count((x: Item) => ActiveOn(Cpa, x), items) + Count((x: Item) => ActiveOn(OpenAI, x), items) == |items|
  {
    if items != [] {
      TallyPartitions(items[..|items| - 1]);
      assert ItemOk(items[|items| - 1]);
    }
  }

  function Snapshotted(s: State): Progress { Tally(s.items).(activeCpa := s.cpa.active, activeApi := s.api.active) }

  /** In every reachable state the progress counts partition the accepted items. */
  lemma SnapshotPartitions(s: State)
    requires Inv(s)
    ensures var p := Snapshotted(s);
            p.accepted == p.completed + p.failed + p.unconfirmed + p.queuedCpa + p.queuedApi + p.activeCpa + p.activeApi
    ensures var p := Snapshotted(s);
            (p.queuedCpa + p.queuedApi + p.activeCpa + p.activeApi == 0)
            == (p.completed + p.failed + p.unconfirmed == |s.items|)
  {
    TallyPartitions(s.items);
  }

  // ---- the object ----

  class Scheduler {
    var items: seq<Item>
    var cpa: RouteConfig
    var api: RouteConfig
    var peakCpa: int
    var peakApi: int
    var budget: int
    var spent: int
    var reserved: int
    var stopReason: string
    var lastCompletion: int

    ghost function Value(): State
      reads this
    {
      State(items, cpa, api, peakCpa, peakApi, budget, spent, reserved, stopReason, lastCompletion)
    }

    constructor (n: nat, now: int, cpaConfig: RouteConfig, amount: int)
      ensures Value() == NewState(n, now, cpaConfig, amount)
    {
      items := seq(n, i => NewItem(now));
      cpa, api := cpaConfig, RouteConfig(4, SECOND, 0, 0, 0, 0, false);
      peakCpa, peakApi, budget, spent, reserved, stopReason, lastCompletion := 0, 0, amount, 0, 0, "", 0;
    }

    method SetRoute(route: Route, r: RouteConfig)
      modifies this`cpa, this`api
      ensures Value() == WithRoute(old(Value()), route, r)
    {
      if route.OpenAI? { api := r; } else { cpa := r; }
    }

    method Admit(now: int, overflow: bool) returns (started: Option<nat>)
      modifies this
      ensures Value() == AdmitStep(old(Value()), now, overflow)
      ensures started == Admitted(old(Value()), now, overflow)
    {
      if stopReason != "" { return None; }
      var i := 0;
      while i < |items|
        invariant 0 <= i <= |items|
        invariant Value() == old(Value())
        invariant Pick(Value(), now, overflow, 0) == Pick(Value(), now, overflow, i)
      {
        var item := items[i];
        var route := item.route;
        if item.status.Queued? && now >= item.retryAt {
          if route.Unrouted? {
            if Ready(cpa, now) {
              route := Cpa;
            } else if overflow && (now - item.enqueued >= 30 * SECOND || cpa.pauseUntil - now > 30 * SECOND) {
              route := OpenAI;
            }
          }
          if !route.Unrouted? {
            var r := if route.OpenAI? then api else cpa;
            if Ready(r, now) && !(route.OpenAI? && spent + reserved + RESERVATION > budget + TOLERANCE) {
              assert Eligible(Value(), item, now, overflow) == Some(route);
              Dispatch(i, route, now);
              return Some(i);
            }
          }
        }
        i := i + 1;
      }
      started := None;
    }

    method Dispatch(i: nat, route: Route, now: int)
      requires i < |items|
      modifies this
      ensures Value() == Start(old(Value()), i, route, now)
    {
      var r := if route.OpenAI? then api else cpa;
      if route.OpenAI? { reserved := reserved + RESERVATION; }
      var item := items[i];
      if item.retryAt != 0 {
        item := item.(retryWait := item.retryWait + (now - item.started));
        item := item.(retryAt := 0);
      }
      if item.attempts == 0 {
        item := item.(queueWait := now - item.enqueued);
      }
      item := item.(admissionConcurrency := r.concurrency);
      item := item.(status := Active, route := route);
      item := item.(attempts := item.attempts + 1);
      item := item.(started := now);
      items := items[i := item];
      SetRoute(route, r.(active := r.active + 1, next := now + r.interval));
      peakCpa := Max(peakCpa, cpa.active);
      peakApi := Max(peakApi, api.active);
    }

    method Finish(id: nat, outcome: Outcome, now: int)
      requires id < |items|
      modifies this
      ensures Value() == FinishStep(old(Value()), id, outcome, now)
    {
      var item := items[id];
      if !item.status.Active? { return; }
      var r := if item.route.OpenAI? then api else cpa;
      r := r.(active := r.active - 1);
      SetRoute(item.route, r);
      if item.route.OpenAI? && outcome.usageKnown {
        reserved := Max(0, reserved - RESERVATION);
        spent := spent + outcome.cost;
        if outcome.cost > RESERVATION { Stop("reservation_exceeded"); }
      }
      Conclude(id, r, outcome, now);
    }

    /** The part of a completion after the settlement. */
    method Conclude(id: nat, route: RouteConfig, outcome: Outcome, now: int)
      requires id < |items|
      modifies this
      ensures var item := old(items)[id];
              var u := WithRoute(old(Value()), item.route, RouteAfter(route, item, id, outcome, now))
                       .(items := old(items)[id := ItemAfter(route, item, id, outcome, now)],
                         lastCompletion := if outcome.kind.Completed? then now else old(lastCompletion));
              Value() == if outcome.kind.Policy? then Stopped(u, "account_or_policy_rejection") else u
    {
      var item, r := items[id], route;
      items := items[id := item.(status := outcome.kind)];
      SetRoute(item.route, r);
      if outcome.kind.Completed? {
        SetRoute(item.route, r.(failures := 0));
        lastCompletion := now;
        return;
      }
      if outcome.kind.Policy? {
        Stop("account_or_policy_rejection");
        return;
      }
      if outcome.kind.Unconfirmed? {
        r := r.(failures := r.failures + 1);
        r := r.(pauseUntil := Max(r.pauseUntil, now + 60 * SECOND));
        SetRoute(item.route, Narrowed(r, item.admissionConcurrency));
        return;
      }
      if !outcome.kind.Rejected? { return; }
      var until, after := Back(id, item, r, outcome, now);
      SetRoute(item.route, after);
      if item.attempts >= MAX_ATTEMPTS {
        items := items[id := item.(status := Failed)];
      } else {
        items := items[id := item.(status := Queued, retryAt := until, started := now)];
      }
    }

    /** What a refusal does to its route, and when the item may try again. */
    method Back(id: nat, item: Item, route: RouteConfig, outcome: Outcome, now: int)
      returns (until: int, r: RouteConfig)
      ensures until == now + Backoff(route.(failures := route.failures + 1), outcome, id, item.attempts)
      ensures r == RejectedRoute(route, item, id, outcome, now)
    {
      r := route.(failures := route.failures + 1);
      var delay := outcome.retryAfter;
      if delay <= 0 {
        delay := SECOND * Pow2(Min(r.failures, 6));
      }
      delay := delay + (id * 7919 + item.attempts * 997) % 2000 * MILLISECOND;
      until := now + delay;
      if until > r.pauseUntil {
        r := r.(pauseUntil := until);
      }
      if item.admissionConcurrency == 1 {
        r := r.(disabled := true);
      } else {
        r := r.(concurrency := Max(1, r.concurrency / 2));
      }
      r := r.(interval := Min(30 * SECOND, Max(SECOND, r.interval * 2)));
    }

    method Stop(reason: string)
      modifies this`stopReason
      ensures Value() == Stopped(old(Value()), reason)
    {
      if stopReason == "" { stopReason := reason; }
    }

    method Done() returns (done: bool)
      ensures done <==> forall i :: 0 <= i < |items| ==> !items[i].status.Queued? && !items[i].status.Active?
    {
      for i := 0 to |items|
        invariant forall j :: 0 <= j < i ==> !items[j].status.Queued? && !items[j].status.Active?
      {
        if items[i].status.Queued? || items[i].status.Active? { return false; }
      }
      done := true;
    }

    method Snapshot() returns (p: Progress)
      ensures p == Snapshotted(Value())
    {
      p := Progress(0, 0, 0, 0, 0, 0, 0, 0);
      for i := 0 to |items|
        invariant p == Tally(items[..i]).(accepted := 0)
      {
        assert items[..i + 1][..i] == items[..i];
        match items[i].status {
          case Completed => p := p.(completed := p.completed + 1);
          case Failed => p := p.(failed := p.failed + 1);
          case Policy => p := p.(failed := p.failed + 1);
          case Unconfirmed => p := p.(unconfirmed := p.unconfirmed + 1);
          case Queued =>
            if items[i].route.OpenAI? {
              p := p.(queuedApi := p.queuedApi + 1);
            } else {
              p := p.(queuedCpa := p.queuedCpa + 1);
            }
          case _ =>
        }
      }
      assert items[..|items|] == items;
      p := p.(accepted := |items|, activeCpa := cpa.active, activeApi := api.active);
    }
  }
}
