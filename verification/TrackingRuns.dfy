/** One session over the table of interleaving statements: what it runs is a run of the protocol in which
    every transaction is one step, so the results about the protocol hold of the statements. */
module TrackingRuns {
  import opened Wrappers
  import opened TrackingSession
  import opened TrackingStore
  import P = TrackingProtocol
  import T = TrackingStatements

  /** The session with its snapshots, and the store. */
  datatype Joint = Joint(system: P.System, store: T.Store)

  datatype Act = Local(call: Call) | Statement(e: T.Event)

  predicate IsOwn(s: P.System, r: Record) { r.identity.owner == s.session.record.identity.owner }

  /** Only the session updates under its owner, with snapshots it took; nobody reserves under it again. */
  ghost predicate Enabled(j: Joint, a: Act) {
    match a
    case Local(call) => P.Documented(call)
    case Statement(e) =>
      && T.Enabled(j.store, e)
      && (e.BeginReserve? ==> !IsOwn(j.system, e.r))
      && (e.BeginUpdate? && IsOwn(j.system, e.r) ==> e.scope == j.system.scope && e.r in j.system.taken)
  }

  function Delivered(s: P.System, key: Key, r: Record, now: Time, commit: Commit): P.Event {
    if IsOwn(s, r) then P.Deliver(r, now, commit) else P.OtherUpdate(key, r, now, commit)
  }

  /** The step of the protocol that a statement completes: the end of a transaction that wrote, or an UPDATE
      that found no row to write. */
  function Shown(j: Joint, e: T.Event): Option<P.Event>
    requires T.Enabled(j.store, e)
  {
    match e
    case EndReserve(id, commit) =>
      var tx := j.store.txs[id];
      Some(P.OtherReserve(tx.scope, tx.r, tx.now, tx.gone - {T.KeyOf(tx)}, commit))
    case EndUpdate(id, commit) =>
      var tx := j.store.txs[id];
      Some(Delivered(j.system, tx.key, tx.r, tx.update.now, commit))
    case UpdateRow(id, at) =>
      var tx := j.store.txs[id];
      if Fenced(j.store.table, tx.key, tx.r, at) then None
      else Some(Delivered(j.system, tx.key, tx.r, at, Committed))
    case _ => None
  }

  function Next(j: Joint, a: Act): Joint
    requires a.Statement? ==> T.Enabled(j.store, a.e)
  {
    match a
    case Local(call) => j.(system := P.Apply(j.system, P.Local(call)))
    case Statement(e) =>
      var shown := Shown(j, e);
      Joint(if shown.Some? then P.Apply(j.system, shown.value) else j.system, T.Execute(j.store, e))
  }

  predicate CallerOk(s: P.System, tx: T.Tx) {
    if tx.Reserving? then !IsOwn(s, tx.r)
    else tx.key.id == tx.r.identity.id && (IsOwn(s, tx.r) ==> tx.key.scope == s.scope && tx.r in s.taken)
  }

  ghost predicate Inv(j: Joint) {
    && P.Inv(j.system) && T.Inv(j.store) && j.system.table == j.store.table
    && forall id :: id in j.store.txs ==> CallerOk(j.system, j.store.txs[id])
  }

  lemma EndIsStep(j: Joint, e: T.Event)
    requires Inv(j) && Enabled(j, Statement(e)) && (e.EndReserve? || e.EndUpdate?)
    ensures var p := Shown(j, e).value;
            P.Enabled(j.system, p) && P.Apply(j.system, p).table == T.Execute(j.store, e).table
  {
    T.StepIsWhole(j.store, e);
    assert CallerOk(j.system, j.store.txs[e.id]);
    assert T.IsWhole(j.store.table, T.Ended(j.store, e), T.Execute(j.store, e).table);
  }

  lemma MissIsStep(j: Joint, e: T.Event)
    requires Inv(j) && Enabled(j, Statement(e)) && e.UpdateRow? && Shown(j, e).Some?
    ensures var p := Shown(j, e).value;
            P.Enabled(j.system, p) && P.Apply(j.system, p).table == j.system.table
  {
    assert CallerOk(j.system, j.store.txs[e.id]);
  }

  lemma OpenWritesNothing(j: Joint, e: T.Event)
    requires T.Enabled(j.store, e) && !e.EndReserve? && !e.EndUpdate?
    ensures T.Execute(j.store, e).table == j.store.table
  {
    T.OpenStepWritesNothing(j.store, e);
  }

  /** A statement is a step of the protocol or leaves the table alone. */
  lemma StatementIsStep(j: Joint, e: T.Event)
    requires Inv(j) && Enabled(j, Statement(e))
    ensures Next(j, Statement(e)).system.table == Next(j, Statement(e)).store.table
    ensures Shown(j, e).Some? ==> P.Enabled(j.system, Shown(j, e).value)
    ensures Shown(j, e).Some? ==> !Shown(j, e).value.Local?
  {
    if e.EndReserve? || e.EndUpdate? {
      EndIsStep(j, e);
    } else {
      OpenWritesNothing(j, e);
      if Shown(j, e).Some? { MissIsStep(j, e); }
    }
  }

  predicate SameCall(a: T.Tx, b: T.Tx) {
    (a.Reserving? <==> b.Reserving?) && a.r == b.r && (a.Updating? ==> a.key == b.key)
  }

  lemma OthersStay(store: T.Store, e: T.Event, id: nat)
    requires T.Enabled(store, e) && id in store.txs && e.id != id
    ensures id in T.Execute(store, e).txs && T.Execute(store, e).txs[id] == store.txs[id]
  {
  }

  lemma ReserveStays(store: T.Store, e: T.Event)
    requires T.Enabled(store, e) && (e.DeleteOwn? || e.DeleteExpired? || e.InsertRow?)
    ensures e.id in T.Execute(store, e).txs ==> SameCall(store.txs[e.id], T.Execute(store, e).txs[e.id])
  {
  }

  lemma UpdateStays(store: T.Store, id: nat, at: Time)
    requires T.Enabled(store, T.UpdateRow(id, at))
    ensures var t := T.Execute(store, T.UpdateRow(id, at)); id in t.txs ==> SameCall(store.txs[id], t.txs[id])
  {
  }

  lemma EndedIsGone(store: T.Store, e: T.Event)
    requires T.Enabled(store, e) && (e.EndReserve? || e.EndUpdate? || e.ReadBack? || e.Abort?)
    ensures e.id !in T.Execute(store, e).txs
  {
  }

  /** What an open transaction was begun with does not change. */
  lemma CallStays(store: T.Store, e: T.Event, id: nat)
    requires T.Enabled(store, e) && id in store.txs && id in T.Execute(store, e).txs
    ensures SameCall(store.txs[id], T.Execute(store, e).txs[id])
  {
    if e.id != id {
      OthersStay(store, e, id);
    } else if e.UpdateRow? {
      UpdateStays(store, id, e.at);
    } else if e.DeleteOwn? || e.DeleteExpired? || e.InsertRow? {
      ReserveStays(store, e);
    } else {
      EndedIsGone(store, e);
    }
  }

  lemma CallBegins(j: Joint, e: T.Event, id: nat)
    requires Enabled(j, Statement(e)) && id !in j.store.txs && id in T.Execute(j.store, e).txs
    ensures CallerOk(j.system, T.Execute(j.store, e).txs[id])
  {
    assert e.BeginReserve? || e.BeginUpdate?;
  }

  lemma CallersStay(j: Joint, e: T.Event, s: P.System)
    requires Enabled(j, Statement(e)) && s.session.record.identity == j.system.session.record.identity
    requires s.scope == j.system.scope && s.taken == j.system.taken
    requires forall id :: id in j.store.txs ==> CallerOk(j.system, j.store.txs[id])
    ensures forall id :: id in T.Execute(j.store, e).txs ==> CallerOk(s, T.Execute(j.store, e).txs[id])
  {
    var t := T.Execute(j.store, e);
    forall id | id in t.txs ensures CallerOk(s, t.txs[id]) {
      if id in j.store.txs {
        assert CallerOk(j.system, j.store.txs[id]);
        CallStays(j.store, e, id);
      } else {
        CallBegins(j, e, id);
      }
    }
  }

  lemma ApplyKeepsTaken(s: P.System, p: P.Event)
    requires P.Inv(s) && P.Enabled(s, p)
    ensures var t := P.Apply(s, p);
            && P.Inv(t) && t.session.record.identity == s.session.record.identity && t.scope == s.scope
            && (if p.Local? then s.taken <= t.taken && t.table == s.table else t.taken == s.taken)
  {
    P.ApplyKeepsInv(s, p);
  }

  lemma LocalKeepsInv(j: Joint, call: Call)
    requires Inv(j) && P.Documented(call)
    ensures Inv(Next(j, Local(call)))
  {
    var t := P.Apply(j.system, P.Local(call));
    ApplyKeepsTaken(j.system, P.Local(call));
    forall id | id in j.store.txs ensures CallerOk(t, j.store.txs[id]) { assert CallerOk(j.system, j.store.txs[id]); }
  }

  lemma NextKeepsInv(j: Joint, a: Act)
    requires Inv(j) && Enabled(j, a)
    ensures Inv(Next(j, a))
  {
    if a.Local? {
      LocalKeepsInv(j, a.call);
    } else {
      var t := Next(j, a);
      StatementIsStep(j, a.e);
      T.StepKeepsInv(j.store, a.e);
      if Shown(j, a.e).Some? { ApplyKeepsTaken(j.system, Shown(j, a.e).value); }
      CallersStay(j, a.e, t.system);
    }
  }

  ghost predicate IsRun(j: Joint, acts: seq<Act>)
    decreases |acts|
  {
    acts == [] || (Enabled(j, acts[0]) && IsRun(Next(j, acts[0]), acts[1..]))
  }

  ghost function After(j: Joint, acts: seq<Act>): Joint
    requires IsRun(j, acts)
    decreases |acts|
  {
    if acts == [] then j else After(Next(j, acts[0]), acts[1..])
  }

  ghost function EventsOf(j: Joint, a: Act): seq<P.Event>
    requires Enabled(j, a)
  {
    match a
    case Local(call) => [P.Local(call)]
    case Statement(e) => if Shown(j, e).Some? then [Shown(j, e).value] else []
  }

  /** The protocol's view of a run of statements. */
  ghost function Events(j: Joint, acts: seq<Act>): seq<P.Event>
    requires IsRun(j, acts)
    decreases |acts|
  {
    if acts == [] then [] else EventsOf(j, acts[0]) + Events(Next(j, acts[0]), acts[1..])
  }

  lemma NextIsEvents(j: Joint, a: Act, rest: seq<P.Event>)
    requires Inv(j) && Enabled(j, a) && P.IsRun(Next(j, a).system, rest)
    ensures P.IsRun(j.system, EventsOf(j, a) + rest)
    ensures P.After(j.system, EventsOf(j, a) + rest) == P.After(Next(j, a).system, rest)
  {
    var first := EventsOf(j, a);
    if a.Statement? { StatementIsStep(j, a.e); }
    if first == [] {
      assert first + rest == rest;
    } else {
      assert (first + rest)[0] == first[0] && (first + rest)[1..] == rest;
    }
  }

  /** Every interleaving of statements with the session's calls is a run of the protocol, with the same table. */
  lemma {:induction false} StatementsAreProtocol(j: Joint, acts: seq<Act>)
    requires Inv(j) && IsRun(j, acts)
    ensures P.IsRun(j.system, Events(j, acts))
    ensures P.After(j.system, Events(j, acts)) == After(j, acts).system
    ensures After(j, acts).system.table == After(j, acts).store.table
    decreases |acts|
  {
    if acts != [] {
      NextKeepsInv(j, acts[0]);
      StatementsAreProtocol(Next(j, acts[0]), acts[1..]);
      NextIsEvents(j, acts[0], Events(Next(j, acts[0]), acts[1..]));
    }
  }

  /** After every interleaving of statements the session's row is the stored form of the delivered snapshot of
      greatest revision, or of the reserved record. */
  lemma RowIsLatestSnapshot(s: P.System, acts: seq<Act>)
    requires P.Initial(s)
    requires var j := Joint(s, T.Store(s.table, map[])); IsRun(j, acts)
    ensures var now := After(Joint(s, T.Store(s.table, map[])), acts);
            && now.store.table == now.system.table
            && (P.Holds(now.system) ==>
                  now.store.table[P.OwnKey(now.system)]
                  == Stored(P.Latest(NewRecord(s.session.record.identity), now.system.landed)))
  {
    var j := Joint(s, T.Store(s.table, map[]));
    P.InitialInv(s);
    StatementsAreProtocol(j, acts);
    P.RowIsLatestSnapshot(s, Events(j, acts));
  }
}
