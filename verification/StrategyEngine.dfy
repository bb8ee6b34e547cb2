/** The strategy experiment: actors that share a token budget take turns, each gated by an
    admission controller whose decisions are arbitrary inputs. */
module StrategyEngine {
  import opened Wrappers
  import opened Counting

  type Time = int

  const RESERVATION: int := 32768
  const UNKNOWN_RESERVATION: int := 32768
  const ATTEMPT_LIMIT := 16
  const UNKNOWN_LIMIT := 5

  datatype Actor = Actor(control: nat, refusalIsTerminal: bool)

  datatype ItemState = Queued | Active | Done | NotDispatched

  datatype Item = Item(actor: nat, readyAt: Time, attempt: int, state: ItemState, reserved: Time)

  datatype Kind = Completed | Rejected | Policy | Failed | Unknown

  datatype Measurement = Measurement(id: int, attempt: int, input: int, output: int, kind: Kind)

  datatype Stats = Stats(dispatched: int, completed: int, rejected: int, terminalRefusals: int, policy: int,
                         failed: int, unknown: int, active: int, peak: int, input: int, output: int)

  datatype Engine = Engine(
    started: Time, actors: seq<Actor>, items: seq<Item>, stats: seq<Stats>, controlActive: seq<int>,
    active: int, peak: int, turn: nat, reported: int, unknown: int, budget: int, stopReason: string)

  function Max(a: int, b: int): int { if a > b then a else b }

  /** What NewStrategyEngine checks and builds. */
  predicate Shaped(e: Engine) {
    && |e.actors| >= 1 && |e.stats| == |e.actors| && e.turn < |e.actors|
    && (forall a :: 0 <= a < |e.actors| ==> e.actors[a].control < |e.controlActive|)
    && (forall i :: 0 <= i < |e.items| ==> e.items[i].actor < |e.actors|)
  }

  // ---- taking turns ----

  /** The actor `n` places after the current turn, around the circle. */
  function Place(turn: nat, n: nat, actors: nat): (a: nat)
    requires turn < actors && n < actors
    ensures a < actors && a == (turn + n) % actors
  {
    if turn + n < actors then turn + n else turn + n - actors
  }

  /** How many places after the turn the actor sits. */
  function Distance(turn: nat, a: nat, actors: nat): (d: nat)
    requires turn < actors && a < actors
    ensures d < actors && Place(turn, d, actors) == a
  {
    if a >= turn then a - turn else a - turn + actors
  }

  predicate Ready(e: Engine, item: Item, a: nat, now: Time) {
    item.actor == a && item.state.Queued? && now >= e.started + item.readyAt
  }

  /** The first ready item of the actor, or the number of items. */
  function FirstReady(e: Engine, a: nat, now: Time, from: nat): (i: nat)
    requires from <= |e.items|
    ensures from <= i <= |e.items|
    ensures i < |e.items| ==> Ready(e, e.items[i], a, now)
    ensures forall j :: from <= j < i ==> !Ready(e, e.items[j], a, now)
    decreases |e.items| - from
  {
    if from == |e.items| || Ready(e, e.items[from], a, now) then from else FirstReady(e, a, now, from + 1)
  }

  /** The controller lets the actor start and it has something to start. */
  predicate Eligible(e: Engine, a: nat, now: Time, canStart: nat -> bool)
    requires a < |e.actors|
  {
    canStart(e.actors[a].control) && FirstReady(e, a, now, 0) < |e.items|
  }

  /** The first eligible place at or after `n`, or the number of actors. */
  function FirstPlace(e: Engine, now: Time, canStart: nat -> bool, n: nat): (m: nat)
    requires Shaped(e) && n <= |e.actors|
    ensures n <= m <= |e.actors|
    ensures m < |e.actors| ==> Eligible(e, Place(e.turn, m, |e.actors|), now, canStart)
    ensures forall k :: n <= k < m ==> !Eligible(e, Place(e.turn, k, |e.actors|), now, canStart)
    decreases |e.actors| - n
  {
    if n == |e.actors| || Eligible(e, Place(e.turn, n, |e.actors|), now, canStart) then n
    else FirstPlace(e, now, canStart, n + 1)
  }

  predicate OverBudget(e: Engine) {
    e.reported + e.unknown + (e.active + 1) * RESERVATION > e.budget
  }

  /** The actor and item a Take starts, if any. */
  function Taken(e: Engine, now: Time, canStart: nat -> bool): (t: Option<(nat, nat)>)
    requires Shaped(e)
    ensures t.Some? ==> t.value.0 < |e.actors| && t.value.1 < |e.items| && Ready(e, e.items[t.value.1], t.value.0, now)
  {
    var m := FirstPlace(e, now, canStart, 0);
    if e.stopReason != "" || m == |e.actors| || OverBudget(e) then None
    else
      var a := Place(e.turn, m, |e.actors|);
      Some((a, FirstReady(e, a, now, 0)))
  }

  function StartStats(s: Stats): Stats {
    s.(active := s.active + 1, dispatched := s.dispatched + 1, peak := Max(s.peak, s.active + 1))
  }

  function Started(e: Engine, a: nat, i: nat, now: Time): Engine
    requires Shaped(e) && a < |e.actors| && i < |e.items|
  {
    var c := e.actors[a].control;
    e.(items := e.items[i := e.items[i].(attempt := e.items[i].attempt + 1, state := Active, reserved := now)],
       active := e.active + 1, peak := Max(e.peak, e.active + 1),
       controlActive := e.controlActive[c := e.controlActive[c] + 1],
       stats := e.stats[a := StartStats(e.stats[a])],
       turn := (a + 1) % |e.actors|)
  }

  function TakeStep(e: Engine, now: Time, canStart: nat -> bool): Engine
    requires Shaped(e)
  {
    var t := Taken(e, now, canStart);
    if t.Some? then Started(e, t.value.0, t.value.1, now)
    else if e.stopReason == "" && FirstPlace(e, now, canStart, 0) < |e.actors| && e.active == 0
    then e.(stopReason := "token_budget")
    else e
  }

  // ---- completions ----

  function UnknownTotal(stats: seq<Stats>): int {
    if stats == [] then 0 else UnknownTotal(stats[..|stats| - 1]) + stats[|stats| - 1].unknown
  }

  predicate Matches(e: Engine, m: Measurement) {
    0 <= m.id < |e.items| && e.items[m.id].state.Active? && m.attempt == e.items[m.id].attempt
  }

  /** The item after its outcome: a refusal goes back to the queue below the attempt limit. */
  function ItemAfter(item: Item, kind: Kind, terminal: bool): Item {
    item.(state := if kind.Rejected? && !terminal && item.attempt < ATTEMPT_LIMIT then Queued else Done)
  }

  function StatsAfter(s: Stats, m: Measurement, terminal: bool, attempt: int): Stats {
    var t := s.(active := s.active - 1, input := s.input + Max(0, m.input), output := s.output + Max(0, m.output));
    match m.kind
    case Completed => t.(completed := t.completed + 1)
    case Rejected =>
      if terminal then t.(rejected := t.rejected + 1, terminalRefusals := t.terminalRefusals + 1)
      else if attempt < ATTEMPT_LIMIT then t.(rejected := t.rejected + 1)
      else t.(rejected := t.rejected + 1, failed := t.failed + 1)
    case Policy => t.(policy := t.policy + 1)
    case Failed => t.(failed := t.failed + 1)
    case Unknown => t.(unknown := t.unknown + 1)
  }

  /** The stop reason after a completion: later checks overwrite earlier ones. */
  function StopAfter(stop: string, m: Measurement, terminal: bool, attempt: int, unknowns: int): string {
    var checked := if m.input + m.output > RESERVATION then "attempt_token_reservation_exceeded" else stop;
    match m.kind
    case Rejected => if !terminal && attempt >= ATTEMPT_LIMIT then "refusal_attempt_limit" else checked
    case Policy => "account_restriction"
    case Unknown => if unknowns >= UNKNOWN_LIMIT then "substantial_unknown_outcomes" else checked
    case _ => checked
  }

  function Released(e: Engine, i: nat, m: Measurement): Engine
    requires Shaped(e) && i < |e.items|
  {
    var item := e.items[i];
    var actor := e.actors[item.actor];
    e.(active := e.active - 1,
       controlActive := e.controlActive[actor.control := e.controlActive[actor.control] - 1],
       stats := e.stats[item.actor := StatsAfter(e.stats[item.actor], m, actor.refusalIsTerminal, item.attempt)],
       reported := e.reported + Max(0, m.input) + Max(0, m.output),
       unknown := if m.kind.Unknown? then e.unknown + UNKNOWN_RESERVATION else e.unknown)
  }

  function FinishStep(e: Engine, m: Measurement): Engine
    requires Shaped(e)
  {
    if !Matches(e, m) then e.(stopReason := "invalid_measurement_identity")
    else
      var item := e.items[m.id];
      var terminal := e.actors[item.actor].refusalIsTerminal;
      var f := Released(e, m.id, m);
      f.(items := e.items[m.id := ItemAfter(item, m.kind, terminal)],
         stopReason := StopAfter(e.stopReason, m, terminal, item.attempt, UnknownTotal(f.stats)))
  }

  /** A start that could not be written down is taken back. */
  function WithdrawStep(e: Engine, i: nat): Engine
    requires Shaped(e) && i < |e.items|
  {
    var item := e.items[i];
    var c := e.actors[item.actor].control;
    e.(items := e.items[i := item.(state := NotDispatched)], active := e.active - 1,
       controlActive := e.controlActive[c := e.controlActive[c] - 1],
       stats := e.stats[item.actor := e.stats[item.actor].(active := e.stats[item.actor].active - 1)],
       stopReason := "artifact_write_failed")
  }

  // ---- runs ----

  datatype Event =
    | Take(now: Time, canStart: nat -> bool)
    | Finish(m: Measurement)
    | Withdraw(i: nat)

  predicate Enabled(e: Engine, ev: Event) {
    Shaped(e) && (ev.Withdraw? ==> ev.i < |e.items| && e.items[ev.i].state.Active?)
  }

  function Step(e: Engine, ev: Event): Engine
    requires Enabled(e, ev)
  {
    match ev
    case Take(now, canStart) => TakeStep(e, now, canStart)
    case Finish(m) => FinishStep(e, m)
    case Withdraw(i) => WithdrawStep(e, i)
  }

  ghost predicate IsRun(e: Engine, events: seq<Event>)
    decreases |events|
  {
    events == [] || (Enabled(e, events[0]) && IsRun(Step(e, events[0]), events[1..]))
  }

  ghost function After(e: Engine, events: seq<Event>): Engine
    requires IsRun(e, events)
    decreases |events|
  {
    if events == [] then e else After(Step(e, events[0]), events[1..])
  }

  // ---- the counters ----

  predicate ActiveItem(item: Item) { item.state.Active? }

  function SumActive(stats: seq<Stats>): int {
    if stats == [] then 0 else SumActive(stats[..|stats| - 1]) + stats[|stats| - 1].active
  }

  function Sum(xs: seq<int>): int {
    if xs == [] then 0 else Sum(xs[..|xs| - 1]) + xs[|xs| - 1]
  }

  lemma {:induction false} SumUpdate(xs: seq<int>, i: nat, x: int)
    requires i < |xs|
    ensures Sum(xs[i := x]) == Sum(xs) - xs[i] + x
  {
    var n := |xs| - 1;
    if i == n {
      assert xs[i := x][..n] == xs[..n];
    } else {
      assert xs[i := x][..n] == xs[..n][i := x];
      SumUpdate(xs[..n], i, x);
    }
  }

  lemma {:induction false} SumActiveUpdate(stats: seq<Stats>, i: nat, s: Stats)
    requires i < |stats|
    ensures SumActive(stats[i := s]) == SumActive(stats) - stats[i].active + s.active
  {
    var n := |stats| - 1;
    if i == n {
      assert stats[i := s][..n] == stats[..n];
    } else {
      assert stats[i := s][..n] == stats[..n][i := s];
      SumActiveUpdate(stats[..n], i, s);
    }
  }

  /** The active items of the actors that the controller gates. */
  function ControlCount(actors: seq<Actor>, items: seq<Item>, c: nat): nat {
    Count((x: Item) => x.state.Active? && x.actor < |actors| && actors[x.actor].control == c, items)
  }

  function ActorCount(items: seq<Item>, a: nat): nat { Count((x: Item) => x.state.Active? && x.actor == a, items) }

  predicate ItemOk(item: Item) {
    && 0 <= item.attempt <= ATTEMPT_LIMIT
    && (item.state.Queued? ==> item.attempt < ATTEMPT_LIMIT)
    && (item.state.Active? ==> item.attempt >= 1)
  }

  ghost predicate Inv(e: Engine) {
    && Shaped(e)
    && (forall i :: 0 <= i < |e.items| ==> ItemOk(e.items[i]))
    && e.active == Count(ActiveItem, e.items)
    && e.active == SumActive(e.stats)
    && e.active == Sum(e.controlActive)
    && (forall a :: 0 <= a < |e.actors| ==> e.stats[a].active == ActorCount(e.items, a))
    && ControlInv(e)
  }

  ghost predicate ControlInv(e: Engine) {
    forall c :: 0 <= c < |e.controlActive| ==> e.controlActive[c] == ControlCount(e.actors, e.items, c)
  }

  lemma MoveKeepsControl(e: Engine, i: nat, item: Item, f: Engine, delta: int)
    requires Shaped(e) && ControlInv(e) && i < |e.items| && item.actor == e.items[i].actor
    requires delta == One(ActiveItem(item)) - One(ActiveItem(e.items[i]))
    requires f.actors == e.actors && f.items == e.items[i := item]
    requires var c := e.actors[item.actor].control; f.controlActive == e.controlActive[c := e.controlActive[c] + delta]
    ensures ControlInv(f)
  {
    forall c | 0 <= c < |e.controlActive| ensures f.controlActive[c] == ControlCount(f.actors, f.items, c) {
      CountUpdate((x: Item) => x.state.Active? && x.actor < |e.actors| && e.actors[x.actor].control == c,
                  e.items, i, item);
    }
  }

  /** One item becomes active or stops being active, and every counter follows it. */
  lemma MoveKeepsInv(e: Engine, i: nat, item: Item, f: Engine, delta: int)
    requires Inv(e) && i < |e.items| && item.actor == e.items[i].actor && ItemOk(item)
    requires delta == One(ActiveItem(item)) - One(ActiveItem(e.items[i]))
    requires f.actors == e.actors && f.items == e.items[i := item] && f.active == e.active + delta
    requires f.turn < |e.actors|
    requires var c := e.actors[item.actor].control; f.controlActive == e.controlActive[c := e.controlActive[c] + delta]
    requires |f.stats| == |e.stats| && f.stats == e.stats[item.actor := f.stats[item.actor]]
    requires f.stats[item.actor].active == e.stats[item.actor].active + delta
    ensures Inv(f)
  {
    MoveKeepsControl(e, i, item, f, delta);
    var c := e.actors[item.actor].control;
    CountUpdate(ActiveItem, e.items, i, item);
    SumUpdate(e.controlActive, c, e.controlActive[c] + delta);
    SumActiveUpdate(e.stats, item.actor, f.stats[item.actor]);
    forall a | 0 <= a < |e.actors| ensures f.stats[a].active == ActorCount(f.items, a) {
      CountUpdate((x: Item) => x.state.Active? && x.actor == a, e.items, i, item);
    }
  }

  lemma TakeKeepsInv(e: Engine, now: Time, canStart: nat -> bool)
    requires Inv(e)
    ensures Inv(TakeStep(e, now, canStart))
  {
    var t := Taken(e, now, canStart);
    if t.Some? {
      var (a, i) := t.value;
      assert ItemOk(e.items[i]);
      var f := Started(e, a, i, now);
      MoveKeepsInv(e, i, f.items[i], f, 1);
    }
  }

  lemma FinishKeepsInv(e: Engine, m: Measurement)
    requires Inv(e)
    ensures Inv(FinishStep(e, m))
  {
    if Matches(e, m) {
      assert ItemOk(e.items[m.id]);
      var f := FinishStep(e, m);
      MoveKeepsInv(e, m.id, f.items[m.id], f, -1);
    }
  }

  lemma WithdrawKeepsInv(e: Engine, i: nat)
    requires Inv(e) && i < |e.items| && e.items[i].state.Active?
    ensures Inv(WithdrawStep(e, i))
  {
    assert ItemOk(e.items[i]);
    var f := WithdrawStep(e, i);
    MoveKeepsInv(e, i, f.items[i], f, -1);
  }

  lemma StepKeepsInv(e: Engine, ev: Event)
    requires Inv(e) && Enabled(e, ev)
    ensures Inv(Step(e, ev))
  {
    match ev
    case Take(now, canStart) => TakeKeepsInv(e, now, canStart);
    case Finish(m) => FinishKeepsInv(e, m);
    case Withdraw(i) => WithdrawKeepsInv(e, i);
  }

  /** In every run the active count is the number of active items, the sum over actors and the sum
      over controllers, each actor's count is its own active items, and no item is attempted more
      than sixteen times. */
  lemma {:induction false} RunKeepsInv(e: Engine, events: seq<Event>)
    requires Inv(e) && IsRun(e, events)
    ensures Inv(After(e, events))
    decreases |events|
  {
    if events != [] {
      StepKeepsInv(e, events[0]);
      RunKeepsInv(Step(e, events[0]), events[1..]);
    }
  }

  // ---- the budget ----

  /** Tokens used, reserved for unknown outcomes and reserved for active calls. */
  function Committed(e: Engine): int { e.reported + e.unknown + e.active * RESERVATION }

  predicate InBudget(e: Engine) { Committed(e) <= e.budget }

  /** What a measurement adds to the account beyond the reservation its call gives back. */
  function Overshoot(m: Measurement): nat {
    Max(0, Max(0, m.input) + Max(0, m.output) + (if m.kind.Unknown? then UNKNOWN_RESERVATION else 0) - RESERVATION)
  }

  function Overshoots(events: seq<Event>): nat
    decreases |events|
  {
    if events == [] then 0
    else (if events[0].Finish? then Overshoot(events[0].m) else 0) + Overshoots(events[1..])
  }

  lemma StepCommits(e: Engine, ev: Event)
    requires Enabled(e, ev)
    ensures var f := Step(e, ev);
            f.budget == e.budget &&
            Committed(f) <= Max(e.budget, Committed(e)) + if ev.Finish? then Overshoot(ev.m) else 0
  {
  }

  /** In every run, whatever is measured, the account passes the budget by at most the sum of the
      overshoots. */
  lemma {:induction false} RunCommits(e: Engine, events: seq<Event>)
    requires Shaped(e) && IsRun(e, events)
    ensures After(e, events).budget == e.budget
    ensures Committed(After(e, events)) <= Max(e.budget, Committed(e)) + Overshoots(events)
    decreases |events|
  {
    if events != [] {
      StepCommits(e, events[0]);
      StepKeepsShape(e, events[0]);
      RunCommits(Step(e, events[0]), events[1..]);
    }
  }

  /** Reported tokens are not negative and total at most the reservation; unknown outcomes report none. */
  predicate WithinReservation(m: Measurement) {
    m.input >= 0 && m.output >= 0 && m.input + m.output <= if m.kind.Unknown? then 0 else RESERVATION
  }

  predicate Affordable(events: seq<Event>) {
    forall i :: 0 <= i < |events| && events[i].Finish? ==> WithinReservation(events[i].m)
  }

  lemma {:induction false} AffordableOvershoots(events: seq<Event>)
    requires Affordable(events)
    ensures Overshoots(events) == 0
    decreases |events|
  {
    if events != [] { AffordableOvershoots(events[1..]); }
  }

  /** In every run whose measurements stay within the reservation, reported tokens, the reserve of
      unknown outcomes and the reservations of active calls together never exceed the budget. */
  lemma RunStaysInBudget(e: Engine, events: seq<Event>)
    requires Shaped(e) && InBudget(e) && IsRun(e, events) && Affordable(events)
    ensures InBudget(After(e, events)) && After(e, events).budget == e.budget
  {
    RunCommits(e, events);
    AffordableOvershoots(events);
  }

  /** A matched measurement keeps every affordable account in budget exactly when it overshoots nothing:
      otherwise the account that is exactly spent goes over. */
  lemma FinishInBudgetIff(e: Engine, m: Measurement)
    requires Shaped(e) && Matches(e, m)
    ensures (forall tokens {:trigger e.(budget := tokens)} ::
               InBudget(e.(budget := tokens)) ==> InBudget(FinishStep(e.(budget := tokens), m)))
            <==> Overshoot(m) == 0
  {
    var tight := e.(budget := Committed(e));
    assert InBudget(tight) && (InBudget(FinishStep(tight, m)) <==> Overshoot(m) == 0);
    forall tokens | InBudget(e.(budget := tokens)) && Overshoot(m) == 0
      ensures InBudget(FinishStep(e.(budget := tokens), m))
    {
      StepCommits(e.(budget := tokens), Finish(m));
    }
  }

  /** A stop is final: in every run after it nothing is started, so the number of active calls and
      each item's attempts never rise again. */
  lemma {:induction false} StopIsFinal(e: Engine, events: seq<Event>)
    requires Shaped(e) && e.stopReason != "" && IsRun(e, events)
    ensures var f := After(e, events);
            && f.stopReason != "" && f.active <= e.active && |f.items| == |e.items|
            && forall i :: 0 <= i < |e.items| ==> f.items[i].attempt == e.items[i].attempt
    decreases |events|
  {
    if events != [] {
      StepKeepsShape(e, events[0]);
      var f := Step(e, events[0]);
      assert f.stopReason != "" && f.active <= e.active && |f.items| == |e.items|;
      assert forall i :: 0 <= i < |e.items| ==> f.items[i].attempt == e.items[i].attempt;
      StopIsFinal(f, events[1..]);
    }
  }

  // ---- fairness ----

  /** A Take that starts another actor although `a` is eligible. */
  predicate Bypasses(e: Engine, ev: Event, a: nat)
    requires Shaped(e) && a < |e.actors|
  {
    && ev.Take? && Taken(e, ev.now, ev.canStart).Some?
    && Eligible(e, a, ev.now, ev.canStart) && Taken(e, ev.now, ev.canStart).value.0 != a
  }

  /** A Take that starts anybody. */
  predicate Starts(e: Engine, ev: Event)
    requires Shaped(e)
  {
    ev.Take? && Taken(e, ev.now, ev.canStart).Some?
  }

  lemma BypassMovesTurn(e: Engine, ev: Event, a: nat)
    requires Shaped(e) && a < |e.actors| && Bypasses(e, ev, a) && Enabled(e, ev)
    ensures var f := Step(e, ev);
            Shaped(f) && |f.actors| == |e.actors| && Distance(f.turn, a, |f.actors|) < Distance(e.turn, a, |e.actors|)
  {
    var n := |e.actors|;
    var m := FirstPlace(e, ev.now, ev.canStart, 0);
    var d := Distance(e.turn, a, n);
    assert m < d;
    var b := Place(e.turn, m, n);
    NextTurn(b, n);
  }

  lemma NextTurn(a: nat, n: nat)
    requires a < n
    ensures (a + 1) % n == if a + 1 == n then 0 else a + 1
  {
  }

  /** The number of Takes in a run that pass `a` by. */
  ghost function Bypassed(e: Engine, events: seq<Event>, a: nat): nat
    requires IsRun(e, events) && Shaped(e) && a < |e.actors|
    decreases |events|
  {
    if events == [] then 0
    else
      StepKeepsShape(e, events[0]);
      One(Bypasses(e, events[0], a)) + Bypassed(Step(e, events[0]), events[1..], a)
  }

  lemma StepKeepsShape(e: Engine, ev: Event)
    requires Shaped(e) && Enabled(e, ev)
    ensures Shaped(Step(e, ev)) && |Step(e, ev).actors| == |e.actors|
    ensures !Starts(e, ev) ==> Step(e, ev).turn == e.turn
  {
  }

  /** The actor stays eligible: whenever a Take of the run starts somebody, it could have been `a`,
      and it was not. */
  ghost predicate WaitsThrough(e: Engine, events: seq<Event>, a: nat)
    requires IsRun(e, events) && Shaped(e) && a < |e.actors|
    decreases |events|
  {
    events == [] ||
    (StepKeepsShape(e, events[0]);
     (Starts(e, events[0]) ==> Bypasses(e, events[0], a)) && WaitsThrough(Step(e, events[0]), events[1..], a))
  }

  /** In every run an actor that stays eligible is passed by at most as often as there are actors
      between the turn and itself, so at most one time fewer than there are actors. */
  lemma {:induction false} BypassBound(e: Engine, events: seq<Event>, a: nat)
    requires IsRun(e, events) && Shaped(e) && a < |e.actors| && WaitsThrough(e, events, a)
    ensures Bypassed(e, events, a) <= Distance(e.turn, a, |e.actors|) <= |e.actors| - 1
    decreases |events|
  {
    if events != [] {
      StepKeepsShape(e, events[0]);
      if Starts(e, events[0]) { BypassMovesTurn(e, events[0], a); }
      BypassBound(Step(e, events[0]), events[1..], a);
    }
  }

  // ---- building the engine ----

  /** What a caller asks of one actor. */
  datatype Spec = Spec(named: bool, policyValid: bool, policy: int, share: bool, refusalIsTerminal: bool)

  datatype Offer = Offer(actor: int, readyAt: Time)

  const HOUR: Time := 3_600_000_000_000
  const NO_STATS := Stats(0, 0, 0, 0, 0, 0, 0, 0, 0, 0, 0)

  predicate SpecOk(specs: seq<Spec>, i: nat)
    requires i < |specs|
  {
    && specs[i].named && specs[i].policyValid
    && !(specs[i].refusalIsTerminal && (i == 0 || specs[i].share))
    && !(specs[i].share && (i == 0 || specs[i].policy != specs[0].policy))
  }

  predicate OfferOk(o: Offer, actors: nat) { 0 <= o.actor < actors && 0 <= o.readyAt <= HOUR }

  predicate Acceptable(specs: seq<Spec>, offered: seq<Offer>, tokens: int) {
    && 1 <= |specs| <= 16 && 1 <= |offered| <= 20000 && 1 <= tokens <= 10000000
    && (forall i :: 0 <= i < |specs| ==> SpecOk(specs, i))
    && (forall i :: 0 <= i < |offered| ==> OfferOk(offered[i], |specs|))
  }

  /** The controllers made for the first `n` actors: one for each that does not share. */
  function Controllers(specs: seq<Spec>, n: nat): nat
    requires n <= |specs|
  {
    if n == 0 then 0 else Controllers(specs, n - 1) + One(!specs[n - 1].share)
  }

  function ActorOf(specs: seq<Spec>, i: nat): Actor
    requires i < |specs|
  {
    Actor(if specs[i].share then 0 else Controllers(specs, i), specs[i].refusalIsTerminal)
  }

  function ActorsOf(specs: seq<Spec>): seq<Actor> {
    seq(|specs|, i requires 0 <= i < |specs| => ActorOf(specs, i))
  }

  function Queue(o: Offer): Item { Item(if o.actor < 0 then 0 else o.actor, o.readyAt, 0, Queued, 0) }

  function Initial(at: Time, built: seq<Actor>, controllers: nat, offered: seq<Offer>, tokens: int): Engine {
    Engine(at, built, seq(|offered|, i requires 0 <= i < |offered| => Queue(offered[i])), seq(|built|, _ => NO_STATS),
           seq(controllers, _ => 0), 0, 0, 0, 0, 0, tokens, "")
  }

  lemma {:induction false} ControllersGrow(specs: seq<Spec>, m: nat, n: nat)
    requires m <= n <= |specs|
    ensures Controllers(specs, m) <= Controllers(specs, n)
    ensures m < n && !specs[m].share ==> Controllers(specs, m) < Controllers(specs, n)
  {
    if m < n { ControllersGrow(specs, m, n - 1); }
  }

  /** The first actor and those that share with it. */
  predicate InFirstGroup(specs: seq<Spec>, i: nat)
    requires i < |specs|
  {
    i == 0 || specs[i].share
  }

  /** Two actors of an accepted experiment have the same controller exactly when they are one actor
      or both belong to the first actor's group. */
  lemma ControlsAreShared(specs: seq<Spec>, i: nat, j: nat)
    requires i < j < |specs| && (forall k :: 0 <= k < |specs| ==> SpecOk(specs, k))
    ensures ActorOf(specs, i).control == ActorOf(specs, j).control
            <==> InFirstGroup(specs, i) && InFirstGroup(specs, j)
    ensures ActorOf(specs, j).control < Controllers(specs, |specs|)
  {
    assert SpecOk(specs, 0);
    ControllersGrow(specs, i, j);
    ControllersGrow(specs, 0, i);
    ControllersGrow(specs, 0, j);
    ControllersGrow(specs, j, |specs|);
    ControllersGrow(specs, 0, |specs|);
  }

  /** Every accepted experiment starts with its counters in agreement and its budget unspent. */
  lemma InitialInv(at: Time, specs: seq<Spec>, offered: seq<Offer>, tokens: int)
    requires Acceptable(specs, offered, tokens)
    ensures var e := Initial(at, ActorsOf(specs), Controllers(specs, |specs|), offered, tokens);
            Inv(e) && InBudget(e)
  {
    var e := Initial(at, ActorsOf(specs), Controllers(specs, |specs|), offered, tokens);
    assert SpecOk(specs, 0);
    forall a | 0 <= a < |specs| ensures e.actors[a].control < |e.controlActive| {
      ControllersGrow(specs, a, |specs|);
      ControllersGrow(specs, 0, |specs|);
    }
    forall i | 0 <= i < |offered| ensures e.items[i].actor < |specs| {
      assert OfferOk(offered[i], |specs|);
    }
    FreshInv(e);
  }

  method NewStrategyEngine(at: Time, specs: seq<Spec>, offered: seq<Offer>, tokens: int)
    returns (r: Option<StrategyEngine>)
    ensures r.Some? <==> Acceptable(specs, offered, tokens)
    ensures r.Some? ==> r.value.Value() == Initial(at, ActorsOf(specs), Controllers(specs, |specs|), offered, tokens)
    ensures r.Some? ==> fresh(r.value) && Inv(r.value.Value()) && InBudget(r.value.Value())
  {
    if |specs| < 1 || |specs| > 16 || |offered| < 1 || |offered| > 20000 || tokens < 1 || tokens > 10000000 {
      return None;
    }
    var built: seq<Actor>, controllers := [], 0;
    for i := 0 to |specs|
      invariant controllers == Controllers(specs, i) && built == ActorsOf(specs)[..i]
      invariant forall k :: 0 <= k < i ==> SpecOk(specs, k)
    {
      var a := specs[i];
      if !a.named || !a.policyValid { assert !SpecOk(specs, i); return None; }
      if a.refusalIsTerminal && (i == 0 || a.share) { assert !SpecOk(specs, i); return None; }
      if a.share {
        if i == 0 || a.policy != specs[0].policy { assert !SpecOk(specs, i); return None; }
        built := built + [Actor(0, a.refusalIsTerminal)];
      } else {
        built := built + [Actor(controllers, a.refusalIsTerminal)];
        controllers := controllers + 1;
      }
    }
    for i := 0 to |offered|
      invariant forall k :: 0 <= k < i ==> OfferOk(offered[k], |specs|)
    {
      if offered[i].actor < 0 || offered[i].actor >= |specs| || offered[i].readyAt < 0 || offered[i].readyAt > HOUR {
        return None;
      }
    }
    InitialInv(at, specs, offered, tokens);
    var e := new StrategyEngine(at, built, controllers, offered, tokens);
    r := Some(e);
  }

  // ---- the object ----

  class StrategyEngine {
    var started: Time
    var actors: seq<Actor>
    var items: seq<Item>
    var stats: seq<Stats>
    var controlActive: seq<int>
    var active: int
    var peak: int
    var turn: nat
    var reported: int
    var unknown: int
    var budget: int
    var stopReason: string

    ghost function Value(): Engine
      reads this
    {
      Engine(started, actors, items, stats, controlActive, active, peak, turn, reported, unknown, budget, stopReason)
    }

    /** The state NewStrategyEngine builds once its checks have passed. */
    constructor (at: Time, built: seq<Actor>, controllers: nat, offered: seq<Offer>, tokens: int)
      ensures Value() == Initial(at, built, controllers, offered, tokens)
    {
      started, actors, budget := at, built, tokens;
      items := seq(|offered|, i requires 0 <= i < |offered| => Queue(offered[i]));
      stats := seq(|built|, _ => NO_STATS);
      controlActive := seq(controllers, _ => 0);
      active, peak, turn, reported, unknown, stopReason := 0, 0, 0, 0, 0, "";
    }

    method Take(now: Time, canStart: nat -> bool) returns (t: Option<(nat, nat)>)
      requires Shaped(Value())
      modifies this
      ensures Value() == TakeStep(old(Value()), now, canStart)
      ensures t == Taken(old(Value()), now, canStart)
    {
      if stopReason != "" { return None; }
      var n := 0;
      while n < |actors|
        invariant 0 <= n <= |actors| && Value() == old(Value())
        invariant FirstPlace(Value(), now, canStart, 0) == FirstPlace(Value(), now, canStart, n)
      {
        var a := (turn + n) % |actors|;
        assert a == Place(turn, n, |actors|);
        if canStart(actors[a].control) {
          var i := FindReady(a, now);
          if i < |items| {
            if reported + unknown + (active + 1) * RESERVATION > budget {
              if active == 0 { stopReason := "token_budget"; }
              return None;
            }
            Begin(a, i, now);
            return Some((a, i));
          }
        }
        n := n + 1;
      }
      t := None;
    }

    method FindReady(a: nat, now: Time) returns (i: nat)
      ensures i == FirstReady(Value(), a, now, 0)
    {
      i := 0;
      while i < |items|
        invariant 0 <= i <= |items|
        invariant FirstReady(Value(), a, now, 0) == FirstReady(Value(), a, now, i)
      {
        if items[i].actor == a && items[i].state.Queued? && now >= started + items[i].readyAt { return; }
        i := i + 1;
      }
    }

    method Begin(a: nat, i: nat, now: Time)
      requires Shaped(Value()) && a < |actors| && i < |items|
      modifies this
      ensures Value() == Started(old(Value()), a, i, now)
    {
      var c := actors[a].control;
      items := items[i := items[i].(attempt := items[i].attempt + 1, state := Active, reserved := now)];
      active := active + 1;
      peak := Max(peak, active);
      controlActive := controlActive[c := controlActive[c] + 1];
      stats := stats[a := StartStats(stats[a])];
      turn := (a + 1) % |actors|;
    }

    method Finish(m: Measurement)
      requires Shaped(Value())
      modifies this
      ensures Value() == FinishStep(old(Value()), m)
    {
      if m.id < 0 || m.id >= |items| {
        stopReason := "invalid_measurement_identity";
        return;
      }
      var item := items[m.id];
      if !item.state.Active? || m.attempt != item.attempt {
        stopReason := "invalid_measurement_identity";
        return;
      }
      var terminal := actors[item.actor].refusalIsTerminal;
      Release(m.id, m);
      var unknowns := CountUnknown();
      stopReason := StopAfter(stopReason, m, terminal, item.attempt, unknowns);
      items := items[m.id := ItemAfter(item, m.kind, terminal)];
    }

    /** The counters a finished call gives back and the tokens it adds. */
    method Release(i: nat, m: Measurement)
      requires Shaped(Value()) && i < |items|
      modifies this
      ensures Value() == Released(old(Value()), i, m)
    {
      var item := items[i];
      var actor := actors[item.actor];
      active := active - 1;
      controlActive := controlActive[actor.control := controlActive[actor.control] - 1];
      reported := reported + Max(0, m.input) + Max(0, m.output);
      stats := stats[item.actor := StatsAfter(stats[item.actor], m, actor.refusalIsTerminal, item.attempt)];
      if m.kind.Unknown? { unknown := unknown + UNKNOWN_RESERVATION; }
    }

    method CountUnknown() returns (n: int)
      ensures n == UnknownTotal(stats)
    {
      n := 0;
      for i := 0 to |stats|
        invariant n == UnknownTotal(stats[..i])
      {
        assert stats[..i + 1][..i] == stats[..i];
        n := n + stats[i].unknown;
      }
      assert stats[..|stats|] == stats;
    }

    method IsDone() returns (done: bool)
      ensures done <==> active <= 0 && (stopReason != "" || forall i :: 0 <= i < |items| ==> !items[i].state.Queued?)
    {
      if active > 0 { return false; }
      if stopReason != "" { return true; }
      for i := 0 to |items|
        invariant forall j :: 0 <= j < i ==> !items[j].state.Queued?
      {
        if items[i].state.Queued? { return false; }
      }
      done := true;
    }
  }

  lemma FreshInv(e: Engine)
    requires Shaped(e) && e.active == 0
    requires forall i :: 0 <= i < |e.items| ==> e.items[i].attempt == 0 && e.items[i].state.Queued?
    requires forall a :: 0 <= a < |e.stats| ==> e.stats[a].active == 0
    requires forall c :: 0 <= c < |e.controlActive| ==> e.controlActive[c] == 0
    ensures Inv(e)
  {
    CountBound(ActiveItem, e.items);
    ZeroSum(e.controlActive);
    ZeroActive(e.stats);
    forall a | 0 <= a < |e.actors| ensures ActorCount(e.items, a) == 0 {
      CountBound((x: Item) => x.state.Active? && x.actor == a, e.items);
    }
    forall c | 0 <= c < |e.controlActive| ensures ControlCount(e.actors, e.items, c) == 0 {
      CountBound((x: Item) => x.state.Active? && x.actor < |e.actors| && e.actors[x.actor].control == c, e.items);
    }
  }

  lemma {:induction false} ZeroSum(xs: seq<int>)
    requires forall i :: 0 <= i < |xs| ==> xs[i] == 0
    ensures Sum(xs) == 0
  {
    if xs != [] { ZeroSum(xs[..|xs| - 1]); }
  }

  lemma {:induction false} ZeroActive(stats: seq<Stats>)
    requires forall i :: 0 <= i < |stats| ==> stats[i].active == 0
    ensures SumActive(stats) == 0
  {
    if stats != [] { ZeroActive(stats[..|stats| - 1]); }
  }
}
