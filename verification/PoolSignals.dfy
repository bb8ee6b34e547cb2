/** Coalesced wake-ups of one admission pool, for every interleaving of callers.
    The two critical sections of a wake are steps of their own; so are the return of the
    downstream call, the close of the flight and the return of a joined caller. */
module PoolSignals {
  import opened Wrappers

  type Time = int  // nanoseconds on a clock that does not step back

  const FRESH: int := 50_000_000

  datatype WakeError = DownstreamError(text: string) | ContextError | GenerationFenced

  /** `None` is the nil error. */
  type Outcome = Option<WakeError>

  /** One downstream wake. `closes` counts how often its done channel was closed. */
  datatype Flight = Flight(pool: string, leader: nat, err: Option<Outcome>, closes: nat)

  /** A successful downstream wake: when the pool answered, and when the answer was recorded. */
  datatype Ack = Ack(pool: string, answeredAt: Time, recordedAt: Time)

  datatype Signals = Signals(pool: string, lastAck: Option<Time>, flight: Option<nat>, flights: seq<Flight>)

  datatype Stage =
    | Joined(flight: nat)
    | Calling(flight: nat)                      // inside the downstream wake
    | Returned(flight: nat, outcome: Outcome, at: Time)   // downstream returned, mutex not yet taken
    | Closing(flight: nat, outcome: Outcome)              // error recorded, mutex held
    | Done(how: Basis, result: Outcome)

  /** What a return rests on. */
  datatype Basis = Cached | Fenced | Led(flight: nat) | Shared(flight: nat)

  /** `seen` is how many acknowledgements had been recorded when the caller last moved. */
  datatype Caller = Caller(pool: string, beganAt: Time, stage: Stage, seen: nat)

  datatype State = State(
    shared: Signals, holder: Option<nat>, callers: map<nat, Caller>, acks: seq<Ack>, clock: Time)

  datatype Event =
    | Enter(c: nat, pool: string, beganAt: Time, now: Time, context: Outcome)
    | Downstream(c: nat, outcome: Outcome, now: Time)
    | Record(c: nat, now: Time)
    | Close(c: nat)
    | JoinEnds(c: nat, cancelled: bool)

  const INITIAL := State(Signals("", None, None, []), None, map[], [], 0)

  // ---- the critical sections ----

  predicate Recent(s: Signals, pool: string, now: Time) {
    s.pool == pool && s.lastAck.Some? && now - s.lastAck.value < FRESH
  }

  /** What the first critical section decides for a caller. */
  function Entry(s: Signals, pool: string, now: Time, context: Outcome): Stage {
    if Recent(s, pool, now) then Done(Cached, context)
    else if s.flight.Some? && s.pool == pool then Joined(s.flight.value)
    else if s.flight.Some? then Done(Fenced, Some(GenerationFenced))
    else Calling(|s.flights|)
  }

  function Entered(s: Signals, c: nat, pool: string, now: Time, context: Outcome): Signals {
    if Entry(s, pool, now, context).Calling?
    then Signals(pool, s.lastAck, Some(|s.flights|), s.flights + [Flight(pool, c, None, 0)])
    else s
  }

  function Recorded(s: Signals, f: nat, outcome: Outcome, now: Time): Signals
    requires f < |s.flights|
  {
    s.(flights := s.flights[f := s.flights[f].(err := Some(outcome))],
       lastAck := if outcome.None? then Some(now) else s.lastAck,
       flight := None)
  }

  function Closed(s: Signals, f: nat): Signals
    requires f < |s.flights|
  {
    s.(flights := s.flights[f := s.flights[f].(closes := s.flights[f].closes + 1)])
  }

  // ---- steps ----

  predicate Enabled(s: State, e: Event) {
    match e
    case Enter(c, _, beganAt, now, context) =>
      && c !in s.callers && s.holder.None? && beganAt <= now && s.clock <= now
      && (context.None? || context == Some(ContextError))
    case Downstream(c, _, now) => c in s.callers && s.callers[c].stage.Calling? && s.clock <= now
    case Record(c, now) =>
      && c in s.callers && s.callers[c].stage.Returned? && s.callers[c].stage.flight < |s.shared.flights|
      && s.holder.None? && s.clock <= now
    case Close(c) =>
      && c in s.callers && s.callers[c].stage.Closing? && s.callers[c].stage.flight < |s.shared.flights|
      && s.holder == Some(c)
    case JoinEnds(c, cancelled) =>
      && c in s.callers && s.callers[c].stage.Joined? && s.callers[c].stage.flight < |s.shared.flights|
      && (cancelled || s.shared.flights[s.callers[c].stage.flight].closes > 0)
  }

  function Moved(s: State, c: nat, stage: Stage): State
    requires c in s.callers
  {
    s.(callers := s.callers[c := s.callers[c].(stage := stage, seen := |s.acks|)])
  }

  /** The error a joined caller reads from a closed flight. */
  function FlightResult(f: Flight): Outcome { if f.err.Some? then f.err.value else None }

  function Step(s: State, e: Event): State
    requires Enabled(s, e)
  {
    match e
    case Enter(c, pool, beganAt, now, context) =>
      s.(shared := Entered(s.shared, c, pool, now, context),
         callers := s.callers[c := Caller(pool, beganAt, Entry(s.shared, pool, now, context), |s.acks|)],
         clock := now)
    case Downstream(c, outcome, now) => Moved(s, c, Returned(s.callers[c].stage.flight, outcome, now)).(clock := now)
    case Record(c, now) =>
      var stage := s.callers[c].stage;
      Moved(s, c, Closing(stage.flight, stage.outcome))
      .(shared := Recorded(s.shared, stage.flight, stage.outcome, now), holder := Some(c), clock := now,
        acks := if stage.outcome.None? then s.acks + [Ack(s.callers[c].pool, stage.at, now)] else s.acks)
    case Close(c) =>
      var stage := s.callers[c].stage;
      Moved(s, c, Done(Led(stage.flight), stage.outcome)).(shared := Closed(s.shared, stage.flight), holder := None)
    case JoinEnds(c, cancelled) =>
      var f := s.callers[c].stage.flight;
      Moved(s, c, Done(Basis.Shared(f), if cancelled then Some(ContextError) else FlightResult(s.shared.flights[f])))
  }

  ghost predicate IsRun(s: State, events: seq<Event>)
    decreases |events|
  {
    events == [] || (Enabled(s, events[0]) && IsRun(Step(s, events[0]), events[1..]))
  }

  ghost function After(s: State, events: seq<Event>): State
    requires IsRun(s, events)
    decreases |events|
  {
    if events == [] then s else After(Step(s, events[0]), events[1..])
  }

  // ---- the invariant ----

  /** The caller is responsible for flight `f`. */
  predicate Leads(caller: Caller, f: nat) {
    (caller.stage.Calling? || caller.stage.Returned? || caller.stage.Closing?) && caller.stage.flight == f
  }

  /** A wake of the pool that was recorded at `since` or later. */
  predicate HasAck(acks: seq<Ack>, pool: string, since: Time) {
    exists i :: 0 <= i < |acks| && acks[i].pool == pool && acks[i].recordedAt >= since
  }

  predicate FlightOk(s: State, f: nat)
    requires f < |s.shared.flights|
  {
    var flight := s.shared.flights[f];
    && flight.closes <= 1
    && (flight.closes == 1 ==> flight.err.Some?)
    && flight.leader in s.callers && s.callers[flight.leader].pool == flight.pool
    && (flight.closes == 0 <==> Leads(s.callers[flight.leader], f))
    && (flight.err.None? <==> s.shared.flight == Some(f))
  }

  predicate CallerOk(s: State, c: nat)
    requires c in s.callers
  {
    var caller := s.callers[c];
    && caller.beganAt <= s.clock && caller.seen <= |s.acks|
    && match caller.stage
       case Joined(f) =>
         && f < |s.shared.flights| && s.shared.flights[f].pool == caller.pool
         && (s.shared.flights[f].err == Some(None) ==> HasAck(s.acks, caller.pool, caller.beganAt))
       case Calling(f) => f < |s.shared.flights| && s.shared.flights[f].leader == c && s.shared.flight == Some(f)
       case Returned(f, _, at) =>
         && f < |s.shared.flights| && s.shared.flights[f].leader == c && s.shared.flight == Some(f)
         && caller.beganAt <= at <= s.clock
       case Closing(f, outcome) =>
         && f < |s.shared.flights| && s.shared.flights[f].leader == c && s.holder == Some(c)
         && s.shared.flights[f].err == Some(outcome) && s.shared.flights[f].closes == 0
         && (outcome.None? ==> HasAck(s.acks, caller.pool, caller.beganAt))
       case Done(how, result) => ReturnOk(s, caller, how, result)
  }

  /** What is known of a caller that returned. */
  predicate ReturnOk(s: State, caller: Caller, how: Basis, result: Outcome)
    requires caller.seen <= |s.acks|
  {
    match how
    case Cached =>
      && caller.seen >= 1 && s.acks[caller.seen - 1].recordedAt > caller.beganAt - FRESH
      && (result.None? || result == Some(ContextError))
    case Fenced => result == Some(GenerationFenced)
    case Led(f) =>
      && f < |s.shared.flights| && s.shared.flights[f].err == Some(result)
      && (result.None? ==> HasAck(s.acks[..caller.seen], caller.pool, caller.beganAt))
    case Shared(f) =>
      && f < |s.shared.flights|
      && (result == Some(ContextError) || s.shared.flights[f].err == Some(result))
      && (result.None? ==> HasAck(s.acks[..caller.seen], caller.pool, caller.beganAt))
  }

  predicate SharedOk(s: State) {
    && (s.shared.flight.Some? ==>
          s.shared.flight.value < |s.shared.flights| && s.shared.flights[s.shared.flight.value].pool == s.shared.pool)
    && (s.shared.lastAck.Some? <==> s.acks != [])
    && (s.acks != [] ==> s.shared.lastAck == Some(s.acks[|s.acks| - 1].recordedAt))
    && (s.shared.lastAck.Some? ==> s.shared.lastAck.value <= s.clock)
    && (s.holder.Some? ==> s.holder.value in s.callers && s.callers[s.holder.value].stage.Closing?)
  }

  ghost predicate Inv(s: State) {
    && SharedOk(s)
    && (forall f :: 0 <= f < |s.shared.flights| ==> FlightOk(s, f))
    && (forall c :: c in s.callers ==> CallerOk(s, c))
  }

  lemma EnterKeepsInv(s: State, e: Event)
    requires Inv(s) && e.Enter? && Enabled(s, e)
    ensures Inv(Step(s, e))
  {
    var t := Step(s, e);
    forall f | 0 <= f < |t.shared.flights| ensures FlightOk(t, f) {
      if f < |s.shared.flights| { assert FlightOk(s, f); }
    }
    forall c | c in t.callers ensures CallerOk(t, c) {
      if c != e.c { assert CallerOk(s, c); }
      if c == e.c && t.callers[c].stage.Joined? { assert FlightOk(s, t.callers[c].stage.flight); }
    }
  }

  lemma DownstreamKeepsInv(s: State, e: Event)
    requires Inv(s) && e.Downstream? && Enabled(s, e)
    ensures Inv(Step(s, e))
  {
    var t := Step(s, e);
    assert CallerOk(s, e.c);
    forall f | 0 <= f < |t.shared.flights| ensures FlightOk(t, f) { assert FlightOk(s, f); }
    forall c | c in t.callers ensures CallerOk(t, c) { assert CallerOk(s, c); }
  }

  lemma RecordKeepsInv(s: State, e: Event)
    requires Inv(s) && e.Record? && Enabled(s, e)
    ensures Inv(Step(s, e))
  {
    var t := Step(s, e);
    assert CallerOk(s, e.c);
    var g, outcome := s.callers[e.c].stage.flight, s.callers[e.c].stage.outcome;
    assert FlightOk(s, g);
    if outcome.None? {
      assert t.acks[|t.acks| - 1] == Ack(s.callers[e.c].pool, s.callers[e.c].stage.at, e.now);
    }
    forall f | 0 <= f < |t.shared.flights| ensures FlightOk(t, f) { assert FlightOk(s, f); }
    forall c | c in t.callers ensures CallerOk(t, c) { RecordKeepsCaller(s, e, c); }
  }

  lemma RecordKeepsCaller(s: State, e: Event, c: nat)
    requires Inv(s) && e.Record? && Enabled(s, e) && c in s.callers
    ensures CallerOk(Step(s, e), c)
  {
    var t := Step(s, e);
    assert CallerOk(s, e.c) && CallerOk(s, c);
    var g := s.callers[e.c].stage.flight;
    assert FlightOk(s, g);
    if s.callers[e.c].stage.outcome.None? {
      assert t.acks[|t.acks| - 1] == Ack(s.callers[e.c].pool, s.callers[e.c].stage.at, e.now);
    }
    if s.callers[c].stage.Joined? && s.callers[c].stage.flight != g { AckStays(s.acks, t.acks, s.callers[c]); }
    if s.callers[c].stage.Done? {
      assert t.acks[..s.callers[c].seen] == s.acks[..s.callers[c].seen];
      var how := s.callers[c].stage.how;
      if how.Led? || how.Shared? { assert FlightOk(s, how.flight); }
    }
  }

  lemma AckStays(acks: seq<Ack>, later: seq<Ack>, caller: Caller)
    requires acks <= later
    ensures HasAck(acks, caller.pool, caller.beganAt) ==> HasAck(later, caller.pool, caller.beganAt)
  {
    if HasAck(acks, caller.pool, caller.beganAt) {
      var i :| 0 <= i < |acks| && acks[i].pool == caller.pool && acks[i].recordedAt >= caller.beganAt;
      assert later[i] == acks[i];
    }
  }

  lemma CloseKeepsInv(s: State, e: Event)
    requires Inv(s) && (e.Close? || e.JoinEnds?) && Enabled(s, e)
    ensures Inv(Step(s, e))
  {
    var t := Step(s, e);
    assert CallerOk(s, e.c);
    assert s.acks[..|s.acks|] == s.acks;
    assert FlightOk(s, s.callers[e.c].stage.flight);
    forall f | 0 <= f < |t.shared.flights| ensures FlightOk(t, f) { assert FlightOk(s, f); }
    forall c | c in t.callers ensures CallerOk(t, c) { assert CallerOk(s, c); }
  }

  lemma StepKeepsInv(s: State, e: Event)
    requires Inv(s) && Enabled(s, e)
    ensures Inv(Step(s, e))
  {
    match e
    case Enter(_, _, _, _, _) => EnterKeepsInv(s, e);
    case Downstream(_, _, _) => DownstreamKeepsInv(s, e);
    case Record(_, _) => RecordKeepsInv(s, e);
    case _ => CloseKeepsInv(s, e);
  }

  lemma {:induction false} RunKeepsInv(s: State, events: seq<Event>)
    requires Inv(s) && IsRun(s, events)
    ensures Inv(After(s, events))
    decreases |events|
  {
    if events != [] {
      StepKeepsInv(s, events[0]);
      RunKeepsInv(Step(s, events[0]), events[1..]);
    }
  }

  // ---- the theorems ----

  /** At every moment of every run at most one caller is inside the downstream wake, whatever
      pools the callers name. */
  lemma OneDownstreamWake(events: seq<Event>, c: nat, d: nat)
    requires IsRun(INITIAL, events)
    requires var s := After(INITIAL, events);
             c in s.callers && d in s.callers && s.callers[c].stage.Calling? && s.callers[d].stage.Calling?
    ensures c == d
  {
    RunKeepsInv(INITIAL, events);
    var s := After(INITIAL, events);
    assert CallerOk(s, c) && CallerOk(s, d);
  }

  /** In every run each flight is closed at most once, is closed once nobody leads it, and its error
      is set before it is closed. */
  lemma FlightsCloseOnce(events: seq<Event>, f: nat)
    requires IsRun(INITIAL, events) && f < |After(INITIAL, events).shared.flights|
    ensures var s := After(INITIAL, events);
            var flight := s.shared.flights[f];
            && flight.closes <= 1
            && (flight.closes == 1 ==> flight.err.Some?)
            && flight.leader in s.callers
            && (flight.closes == 1 <==>
                  s.callers[flight.leader].stage.Done? && s.callers[flight.leader].stage.how == Led(f))
  {
    RunKeepsInv(INITIAL, events);
    var s := After(INITIAL, events);
    assert FlightOk(s, f);
    LeaderLeads(events, f);
  }

  /** A leader only ever leads its own flight. */
  ghost predicate OwnFlights(s: State) {
    forall f :: 0 <= f < |s.shared.flights| ==>
      && s.shared.flights[f].leader in s.callers
      && var stage := s.callers[s.shared.flights[f].leader].stage;
         (Leads(s.callers[s.shared.flights[f].leader], f) || (stage.Done? && stage.how == Led(f)))
  }

  lemma {:induction false} RunKeepsOwnFlights(s: State, events: seq<Event>)
    requires Inv(s) && OwnFlights(s) && IsRun(s, events)
    ensures OwnFlights(After(s, events))
    decreases |events|
  {
    if events != [] {
      StepKeepsInv(s, events[0]);
      RunKeepsOwnFlights(Step(s, events[0]), events[1..]);
    }
  }

  lemma LeaderLeads(events: seq<Event>, f: nat)
    requires IsRun(INITIAL, events) && f < |After(INITIAL, events).shared.flights|
    ensures var s := After(INITIAL, events);
            var leader := s.shared.flights[f].leader;
            leader in s.callers &&
            (Leads(s.callers[leader], f) || (s.callers[leader].stage.Done? && s.callers[leader].stage.how == Led(f)))
  {
    RunKeepsOwnFlights(INITIAL, events);
  }

  /** How long after its answer an acknowledgement was recorded: the time between the return of the
      downstream wake and the second lock. */
  function Lag(a: Ack): int { a.recordedAt - a.answeredAt }

  ghost predicate LagAtMost(acks: seq<Ack>, d: int) {
    forall i :: 0 <= i < |acks| ==> Lag(acks[i]) <= d
  }

  /** The pool answered a wake at `since` or later. */
  predicate Answered(acks: seq<Ack>, pool: string, since: Time) {
    exists i :: 0 <= i < |acks| && acks[i].pool == pool && acks[i].answeredAt >= since
  }

  /** In every run a caller that joined a flight returns that flight's error or its own context error.
      If every success is recorded within `d` of its answer, then a nil return after leading or joining
      a flight has an answer of the caller's pool no earlier than `d` before the call began, and a nil
      return on a recent acknowledgement has an answer later than `d` and fifty milliseconds before. */
  lemma ReturnsAreJustified(events: seq<Event>, c: nat, d: int)
    requires IsRun(INITIAL, events) && LagAtMost(After(INITIAL, events).acks, d)
    requires c in After(INITIAL, events).callers && After(INITIAL, events).callers[c].stage.Done?
    ensures var s := After(INITIAL, events);
            var caller := s.callers[c];
            var stage := caller.stage;
            && caller.seen <= |s.acks|
            && (stage.how.Shared? ==>
                  && stage.how.flight < |s.shared.flights|
                  && (|| stage.result == Some(ContextError)
                      || s.shared.flights[stage.how.flight].err == Some(stage.result)))
            && (stage.result.None? && (stage.how.Led? || stage.how.Shared?) ==>
                  Answered(s.acks[..caller.seen], caller.pool, caller.beganAt - d))
            && (stage.result.None? && stage.how.Cached? ==>
                  caller.seen >= 1 && s.acks[caller.seen - 1].answeredAt > caller.beganAt - FRESH - d)
            && (stage.result.None? ==> !stage.how.Fenced?)
  {
    RunKeepsInv(INITIAL, events);
    var s := After(INITIAL, events);
    assert CallerOk(s, c);
    var caller := s.callers[c];
    if caller.stage.result.None? && (caller.stage.how.Led? || caller.stage.how.Shared?) {
      var acks := s.acks[..caller.seen];
      var i :| 0 <= i < |acks| && acks[i].pool == caller.pool && acks[i].recordedAt >= caller.beganAt;
      assert acks[i] == s.acks[i] && acks[i].answeredAt >= caller.beganAt - d;
    }
  }

  /** A caller that led its flight returns nil only on an answer given during its call. */
  ghost predicate LedOk(s: State) {
    forall c :: c in s.callers ==>
      var caller := s.callers[c];
      && (caller.stage.Closing? && caller.stage.outcome.None? ==> Answered(s.acks, caller.pool, caller.beganAt))
      && (caller.stage.Done? && caller.stage.how.Led? && caller.stage.result.None? ==>
            caller.seen <= |s.acks| && Answered(s.acks[..caller.seen], caller.pool, caller.beganAt))
  }

  lemma StepKeepsLed(s: State, e: Event)
    requires Inv(s) && LedOk(s) && Enabled(s, e)
    ensures LedOk(Step(s, e))
  {
    var t := Step(s, e);
    forall c | c in t.callers && c in s.callers ensures s.callers[c].seen <= |s.acks| { assert CallerOk(s, c); }
    if e.c in s.callers { assert CallerOk(s, e.c); }
    assert s.acks[..|s.acks|] == s.acks;
    if e.Record? && s.callers[e.c].stage.outcome.None? {
      assert t.acks[|t.acks| - 1] == Ack(s.callers[e.c].pool, s.callers[e.c].stage.at, e.now);
    }
    forall c | c in s.callers && c != e.c ensures t.acks[..s.callers[c].seen] == s.acks[..s.callers[c].seen] {
    }
    forall c | c in s.callers && c != e.c && s.callers[c].stage.Closing? ensures t.acks == s.acks {
      assert CallerOk(s, c);
    }
  }

  lemma {:induction false} LeadersAreAnswered(s: State, events: seq<Event>)
    requires Inv(s) && LedOk(s) && IsRun(s, events)
    ensures LedOk(After(s, events))
    decreases |events|
  {
    if events != [] {
      StepKeepsInv(s, events[0]);
      StepKeepsLed(s, events[0]);
      LeadersAreAnswered(Step(s, events[0]), events[1..]);
    }
  }

  // ---- whose acknowledgement it is ----

  /** A wake of the pool recorded later than fifty milliseconds before. */
  predicate OwnFresh(acks: seq<Ack>, pool: string, beganAt: Time) {
    exists i :: 0 <= i < |acks| && acks[i].pool == pool && acks[i].recordedAt > beganAt - FRESH
  }

  /** The nil return of a caller had a recent wake of the caller's own pool behind it. */
  ghost predicate OwnReturn(s: State, caller: Caller) {
    caller.stage.Done? && caller.stage.result.None? ==>
      caller.seen <= |s.acks| && OwnFresh(s.acks[..caller.seen], caller.pool, caller.beganAt)
  }

  ghost predicate AllOwn(s: State) { forall c :: c in s.callers ==> OwnReturn(s, s.callers[c]) }

  /** The call takes the shared acknowledgement time for its pool's although its pool has none that
      recent: the time is that of another pool's wake. */
  predicate Crossed(s: State, e: Event) {
    && e.Enter? && e.context.None? && Recent(s.shared, e.pool, e.now)
    && !OwnFresh(s.acks, e.pool, e.beganAt)
  }

  lemma CrossedIsAnotherPool(s: State, e: Event)
    requires Inv(s) && Enabled(s, e) && Crossed(s, e)
    ensures s.acks != [] && s.acks[|s.acks| - 1].pool != e.pool
  {
  }

  ghost predicate NeverCrossed(s: State, events: seq<Event>)
    requires IsRun(s, events)
    decreases |events|
  {
    events == [] || (!Crossed(s, events[0]) && NeverCrossed(Step(s, events[0]), events[1..]))
  }

  /** A step leaves earlier returns as they were. */
  lemma StepKeepsReturn(s: State, e: Event, c: nat)
    requires Inv(s) && Enabled(s, e) && c in s.callers && s.callers[c].stage.Done?
    ensures var t := Step(s, e);
            && c in t.callers && t.callers[c] == s.callers[c]
            && (OwnReturn(t, t.callers[c]) <==> OwnReturn(s, s.callers[c]))
  {
    var t, n := Step(s, e), s.callers[c].seen;
    assert CallerOk(s, c);
    assert t.acks[..n] == s.acks[..n];
  }

  lemma {:induction false} RunKeepsReturn(s: State, events: seq<Event>, c: nat)
    requires Inv(s) && IsRun(s, events) && c in s.callers && s.callers[c].stage.Done?
    ensures var t := After(s, events);
            && c in t.callers && t.callers[c] == s.callers[c]
            && (OwnReturn(t, t.callers[c]) <==> OwnReturn(s, s.callers[c]))
    decreases |events|
  {
    if events != [] {
      StepKeepsInv(s, events[0]);
      StepKeepsReturn(s, events[0], c);
      RunKeepsReturn(Step(s, events[0]), events[1..], c);
    }
  }

  /** The one way for a step to make a return that is not the pool's own. */
  lemma StepIsOwnIff(s: State, e: Event)
    requires Inv(s) && AllOwn(s) && Enabled(s, e)
    ensures AllOwn(Step(s, e)) <==> !Crossed(s, e)
    ensures Crossed(s, e) ==> var t := Step(s, e); t.callers[e.c].stage.Done? && !OwnReturn(t, t.callers[e.c])
  {
    var t := Step(s, e);
    StepKeepsInv(s, e);
    assert CallerOk(t, e.c);
    assert s.acks[..|s.acks|] == s.acks;
    forall c | c in s.callers && c != e.c ensures OwnReturn(t, t.callers[c]) {
      assert CallerOk(s, c) && OwnReturn(s, s.callers[c]);
      assert t.acks[..s.callers[c].seen] == s.acks[..s.callers[c].seen];
    }
    var caller := t.callers[e.c];
    if caller.stage.Done? && caller.stage.result.None? && !caller.stage.how.Cached? {
      var acks := t.acks[..caller.seen];
      var i :| 0 <= i < |acks| && acks[i].pool == caller.pool && acks[i].recordedAt >= caller.beganAt;
      assert acks[i].recordedAt > caller.beganAt - FRESH;
      assert OwnReturn(t, caller);
    }
  }

  /** In every run, every nil return has a recent wake of the caller's own pool behind it exactly when
      no call of the run is crossed; leading and joining always do. */
  lemma {:induction false} OwnReturnsIff(s: State, events: seq<Event>)
    requires Inv(s) && AllOwn(s) && IsRun(s, events)
    ensures AllOwn(After(s, events)) <==> NeverCrossed(s, events)
    decreases |events|
  {
    if events != [] {
      var e := events[0];
      StepKeepsInv(s, e);
      StepIsOwnIff(s, e);
      if Crossed(s, e) {
        RunKeepsReturn(Step(s, e), events[1..], e.c);
        assert !OwnReturn(After(s, events), After(s, events).callers[e.c]);
      } else {
        OwnReturnsIff(Step(s, e), events[1..]);
      }
    }
  }

  /** Callers that all name one pool. */
  ghost predicate OnePool(events: seq<Event>, pool: string) {
    forall i :: 0 <= i < |events| && events[i].Enter? ==> events[i].pool == pool
  }

  ghost predicate AcksOf(s: State, pool: string) {
    && (forall i :: 0 <= i < |s.acks| ==> s.acks[i].pool == pool)
    && (forall c :: c in s.callers ==> s.callers[c].pool == pool)
  }

  /** With one pool no call is ever crossed. */
  lemma {:induction false} OnePoolNeverCrosses(s: State, events: seq<Event>, pool: string)
    requires Inv(s) && AcksOf(s, pool) && IsRun(s, events) && OnePool(events, pool)
    ensures NeverCrossed(s, events)
    decreases |events|
  {
    if events != [] {
      StepKeepsInv(s, events[0]);
      if Crossed(s, events[0]) { CrossedIsAnotherPool(s, events[0]); }
      OnePoolNeverCrosses(Step(s, events[0]), events[1..], pool);
    }
  }

  /** When all callers name one pool, every nil return has a recent wake of that pool behind it. */
  lemma OnePoolReturnsAreJustified(events: seq<Event>, pool: string)
    requires IsRun(INITIAL, events) && OnePool(events, pool)
    ensures AllOwn(After(INITIAL, events))
  {
    OnePoolNeverCrosses(INITIAL, events, pool);
    OwnReturnsIff(INITIAL, events);
  }

  // ---- runs that show what cannot be had ----

  /** The state after one wake of pool "a" that was answered at `x` and recorded at `y`. */
  predicate Woken(s: State, x: Time, y: Time) {
    && s.shared == Signals("a", Some(y), None, [Flight("a", 0, Some(None), 1)])
    && s.holder.None? && s.callers.Keys == {0} && s.acks == [Ack("a", x, y)] && s.clock == y
  }

  function Wake(x: Time, y: Time): seq<Event> {
    [Enter(0, "a", 0, 0, None), Downstream(0, None, x), Record(0, y), Close(0)]
  }

  lemma WakeRuns(x: Time, y: Time)
    requires 0 <= x <= y
    ensures IsRun(INITIAL, Wake(x, y)) && Woken(After(INITIAL, Wake(x, y)), x, y)
  {
    var events := Wake(x, y);
    var s1 := FirstEnter();
    var s2 := LeaderReturns(s1, x);
    var s3 := LeaderRecords(s2, x, y);
    var s4 := LeaderCloses(s3, x, y);
    RunCons(s3, Close(0), []);
    RunCons(s2, Record(0, y), [Close(0)]);
    RunCons(s1, Downstream(0, None, x), [Record(0, y), Close(0)]);
    RunCons(INITIAL, Enter(0, "a", 0, 0, None), [Downstream(0, None, x), Record(0, y), Close(0)]);
  }

  lemma FirstEnter() returns (t: State)
    ensures Enabled(INITIAL, Enter(0, "a", 0, 0, None)) && t == Step(INITIAL, Enter(0, "a", 0, 0, None))
    ensures t.shared == Signals("a", None, Some(0), [Flight("a", 0, None, 0)]) && t.holder.None? && t.acks == []
    ensures t.callers == map[0 := Caller("a", 0, Calling(0), 0)] && t.clock == 0
  {
    t := Step(INITIAL, Enter(0, "a", 0, 0, None));
  }

  lemma LeaderReturns(s: State, x: Time) returns (t: State)
    requires 0 in s.callers && s.callers[0] == Caller("a", 0, Calling(0), 0) && s.clock <= x && s.acks == []
    ensures Enabled(s, Downstream(0, None, x)) && t == Step(s, Downstream(0, None, x))
    ensures t == s.(callers := s.callers[0 := Caller("a", 0, Returned(0, None, x), 0)], clock := x)
  {
    t := Step(s, Downstream(0, None, x));
  }

  lemma LeaderRecords(s: State, x: Time, y: Time) returns (t: State)
    requires 0 in s.callers && s.callers[0] == Caller("a", 0, Returned(0, None, x), 0) && s.clock <= y && s.acks == []
    requires s.shared == Signals("a", None, Some(0), [Flight("a", 0, None, 0)]) && s.holder.None?
    ensures Enabled(s, Record(0, y)) && t == Step(s, Record(0, y))
    ensures t.shared == Signals("a", Some(y), None, [Flight("a", 0, Some(None), 0)]) && t.holder == Some(0)
    ensures t.acks == [Ack("a", x, y)] && t.clock == y && t.callers.Keys == s.callers.Keys
    ensures t.callers[0] == Caller("a", 0, Closing(0, None), 0)
    ensures forall c :: c in s.callers && c != 0 ==> t.callers[c] == s.callers[c]
  {
    t := Step(s, Record(0, y));
    assert s.shared.flights[0 := Flight("a", 0, Some(None), 0)] == [Flight("a", 0, Some(None), 0)];
  }

  lemma LeaderCloses(s: State, x: Time, y: Time) returns (t: State)
    requires 0 in s.callers && s.callers[0] == Caller("a", 0, Closing(0, None), 0) && s.holder == Some(0)
    requires s.shared == Signals("a", Some(y), None, [Flight("a", 0, Some(None), 0)])
    ensures Enabled(s, Close(0)) && t == Step(s, Close(0))
    ensures t.shared == Signals("a", Some(y), None, [Flight("a", 0, Some(None), 1)]) && t.holder.None?
    ensures t.acks == s.acks && t.clock == s.clock && t.callers.Keys == s.callers.Keys
    ensures forall c :: c in s.callers && c != 0 ==> t.callers[c] == s.callers[c]
  {
    t := Step(s, Close(0));
    assert s.shared.flights[0 := Flight("a", 0, Some(None), 1)] == [Flight("a", 0, Some(None), 1)];
  }

  /** The bound for a recent acknowledgement is tight for every lag: here the only answer was given one
      nanosecond later than the lag and fifty milliseconds before the call began. */
  lemma CachedBoundIsTight(d: nat)
    ensures var began := d + FRESH - 1;
            var events := Wake(0, d) + [Enter(1, "a", began, began, None)];
            && IsRun(INITIAL, events)
            && var s := After(INITIAL, events);
               && LagAtMost(s.acks, d) && s.acks == [Ack("a", began - FRESH - d + 1, d)]
               && 1 in s.callers && s.callers[1] == Caller("a", began, Done(Cached, None), 1)
  {
    var e := Enter(1, "a", d + FRESH - 1, d + FRESH - 1, None);
    WakeRuns(0, d);
    RunCons(After(INITIAL, Wake(0, d)), e, []);
    RunConcat(INITIAL, Wake(0, d), [e]);
  }

  function LateRecord(t: Time): seq<Event> {
    [Enter(0, "a", 0, 0, None), Downstream(0, None, 1), Enter(1, "a", t, t, None), Record(0, t), Close(0),
     JoinEnds(1, false)]
  }

  /** With one pool, however late a caller begins, it can return nil on an answer given at one nanosecond:
      it joins between the answer and its recording. The bound for joined flights is tight too: the
      answer is exactly the lag before the call began. */
  lemma JoinedBoundIsTight(t: Time)
    requires t >= 1
    ensures IsRun(INITIAL, LateRecord(t))
    ensures var s := After(INITIAL, LateRecord(t));
            && s.acks == [Ack("a", 1, t)] && LagAtMost(s.acks, t - 1)
            && 1 in s.callers && s.callers[1] == Caller("a", t, Done(Basis.Shared(0), None), 1)
            && s.acks[0].answeredAt == s.callers[1].beganAt - (t - 1)
  {
    var e1, e2 := Enter(1, "a", t, t, None), JoinEnds(1, false);
    var s1 := FirstEnter();
    var s2 := LeaderReturns(s1, 1);
    assert Enabled(s2, e1);
    var s3 := Step(s2, e1);
    assert s3.callers[1] == Caller("a", t, Joined(0), 0) && s3.callers[0] == s2.callers[0] && s3.shared == s2.shared;
    var s4 := LeaderRecords(s3, 1, t);
    var s5 := LeaderCloses(s4, 1, t);
    assert Enabled(s5, e2);
    RunCons(s5, e2, []);
    RunCons(s4, Close(0), [e2]);
    RunCons(s3, Record(0, t), [Close(0), e2]);
    RunCons(s2, e1, [Record(0, t), Close(0), e2]);
    RunCons(s1, Downstream(0, None, 1), [e1, Record(0, t), Close(0), e2]);
    RunCons(INITIAL, Enter(0, "a", 0, 0, None), [Downstream(0, None, 1), e1, Record(0, t), Close(0), e2]);
  }

  const WAKE_B: seq<Event> := [Enter(1, "b", 1, 1, None), Enter(2, "b", 2, 2, None)]

  /** With two pools a call can be crossed: caller 2 wakes pool "b" and returns nil although no wake of
      "b" was ever acknowledged. */
  lemma TwoPoolsShareAcknowledgements()
    ensures IsRun(INITIAL, Wake(1, 1) + WAKE_B) && !NeverCrossed(INITIAL, Wake(1, 1) + WAKE_B)
    ensures var s := After(INITIAL, Wake(1, 1) + WAKE_B);
            && 2 in s.callers && s.callers[2] == Caller("b", 2, Done(Cached, None), 1)
            && s.acks == [Ack("a", 1, 1)]
  {
    WakeRuns(1, 1);
    RunOfB(After(INITIAL, Wake(1, 1)));
    RunConcat(INITIAL, Wake(1, 1), WAKE_B);
    var s := After(INITIAL, Wake(1, 1) + WAKE_B);
    assert !OwnReturn(s, s.callers[2]);
    OwnReturnsIff(INITIAL, Wake(1, 1) + WAKE_B);
  }

  lemma RunOfB(s: State)
    requires Woken(s, 1, 1)
    ensures IsRun(s, WAKE_B)
    ensures var t := After(s, WAKE_B);
            2 in t.callers && t.callers[2] == Caller("b", 2, Done(Cached, None), 1) && t.acks == [Ack("a", 1, 1)]
  {
    var s1 := Step(s, WAKE_B[0]);
    RunCons(s1, WAKE_B[1], []);
    assert [WAKE_B[1]] + [] == WAKE_B[1..];
    RunCons(s, WAKE_B[0], WAKE_B[1..]);
    assert [WAKE_B[0]] + WAKE_B[1..] == WAKE_B;
  }

  lemma {:induction false} RunConcat(s: State, a: seq<Event>, b: seq<Event>)
    requires IsRun(s, a) && IsRun(After(s, a), b)
    ensures IsRun(s, a + b) && After(s, a + b) == After(After(s, a), b)
    decreases |a|
  {
    if a == [] {
      assert a + b == b;
    } else {
      assert (a + b)[1..] == a[1..] + b;
      RunConcat(Step(s, a[0]), a[1..], b);
    }
  }

  lemma RunCons(s: State, e: Event, rest: seq<Event>)
    requires Enabled(s, e) && IsRun(Step(s, e), rest)
    ensures IsRun(s, [e] + rest) && After(s, [e] + rest) == After(Step(s, e), rest)
  {
    assert ([e] + rest)[1..] == rest;
  }

  // ---- the object ----

  class AdmissionPoolSignals {
    var pool: string
    var lastAck: Option<Time>
    var flight: Option<nat>
    var flights: seq<Flight>

    ghost function Value(): Signals
      reads this
    {
      Signals(pool, lastAck, flight, flights)
    }

    constructor ()
      ensures Value() == INITIAL.shared
    {
      pool, lastAck, flight, flights := "", None, None, [];
    }

    /** From the first lock to its unlock. */
    method Begin(c: nat, wanted: string, now: Time, context: Outcome) returns (stage: Stage)
      modifies this
      ensures Value() == Entered(old(Value()), c, wanted, now, context)
      ensures stage == Entry(old(Value()), wanted, now, context)
    {
      if pool == wanted && lastAck.Some? && now - lastAck.value < FRESH {
        return Done(Cached, context);
      }
      if flight.Some? && pool == wanted {
        return Joined(flight.value);
      }
      if flight.Some? {
        return Done(Fenced, Some(GenerationFenced));
      }
      var mine := |flights|;
      flights := flights + [Flight(wanted, c, None, 0)];
      flight := Some(mine);
      pool := wanted;
      stage := Calling(mine);
    }

    /** From the second lock to its unlock, after the downstream wake returned. */
    method End(f: nat, outcome: Outcome, now: Time)
      requires f < |flights|
      modifies this
      ensures Value() == Closed(Recorded(old(Value()), f, outcome, now), f)
    {
      flights := flights[f := flights[f].(err := Some(outcome))];
      if outcome.None? {
        lastAck := Some(now);
      }
      flight := None;
      flights := flights[f := flights[f].(closes := flights[f].closes + 1)];
    }
  }
}
