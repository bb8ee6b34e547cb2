/** The transactions of the tracking table, statement by statement. Reservations and updates interleave;
    a statement that writes a row waits for other transactions that have written it. The writes turn out
    to be those of whole transactions one after the other, in the order of their commits. */
module TrackingStatements {
  import opened Wrappers
  import opened TrackingSession
  import opened TrackingStore

  datatype ReserveStage = Begun | OwnDeleted | Cleaned | Inserted

  datatype UpdateStage = Ready | Wrote(now: Time) | Missed

  /** A transaction: `gone` are the rows it deleted, `locks` all rows it has written. */
  datatype Tx =
    | Reserving(scope: string, r: Record, now: Time, stage: ReserveStage, gone: set<Key>, locks: set<Key>)
    | Updating(key: Key, r: Record, update: UpdateStage, locks: set<Key>)

  datatype Store = Store(table: Table, txs: map<nat, Tx>)

  datatype Event =
    | BeginReserve(id: nat, scope: string, r: Record, now: Time)
    | DeleteOwn(id: nat)
    | DeleteExpired(id: nat, swept: set<Key>)
    | InsertRow(id: nat)
    | EndReserve(id: nat, commit: Commit)
    | BeginUpdate(id: nat, scope: string, r: Record)
    | UpdateRow(id: nat, at: Time)
    | ReadBack(id: nat, readAt: Time, commit: Commit)
    | EndUpdate(id: nat, commit: Commit)
    | Abort(id: nat)

  function KeyOf(tx: Tx): Key {
    match tx
    case Reserving(scope, r, _, _, _, _) => Key(scope, r.identity.id)
    case Updating(key, _, _, _) => key
  }

  predicate LockedByOthers(s: Store, id: nat, key: Key) {
    exists other :: other in s.txs && other != id && key in s.txs[other].locks
  }

  /** Committed rows without those the reservation deleted itself. */
  function Seen(s: Store, tx: Tx): Table
    requires tx.Reserving?
  {
    s.table - tx.gone
  }

  predicate OwnExpired(s: Store, tx: Tx)
    requires tx.Reserving?
  {
    KeyOf(tx) in s.table && s.table[KeyOf(tx)].identity.retentionExpiresAt <= tx.now
  }

  predicate IsReserving(s: Store, id: nat, stage: ReserveStage) {
    id in s.txs && s.txs[id].Reserving? && s.txs[id].stage == stage
  }

  predicate Enabled(s: Store, e: Event) {
    match e
    case BeginReserve(id, _, _, _) => id !in s.txs
    case DeleteOwn(id) =>
      IsReserving(s, id, Begun) && (OwnExpired(s, s.txs[id]) ==> !LockedByOthers(s, id, KeyOf(s.txs[id])))
    case DeleteExpired(id, swept) =>
      && IsReserving(s, id, OwnDeleted) && Sweep(Seen(s, s.txs[id]), s.txs[id].scope, s.txs[id].now, swept)
      && forall k :: k in swept ==> !LockedByOthers(s, id, k)
    case InsertRow(id) => IsReserving(s, id, Cleaned) && !LockedByOthers(s, id, KeyOf(s.txs[id]))
    case EndReserve(id, _) => IsReserving(s, id, Inserted)
    case BeginUpdate(id, _, _) => id !in s.txs
    case UpdateRow(id, at) =>
      && id in s.txs && s.txs[id].Updating? && s.txs[id].update.Ready?
      && (Fenced(s.table, s.txs[id].key, s.txs[id].r, at) ==> !LockedByOthers(s, id, s.txs[id].key))
    case ReadBack(id, _, _) => id in s.txs && s.txs[id].Updating? && s.txs[id].update.Missed?
    case EndUpdate(id, _) => id in s.txs && s.txs[id].Updating? && s.txs[id].update.Wrote?
    case Abort(id) => id in s.txs
  }

  function Put(s: Store, id: nat, tx: Tx): Store { s.(txs := s.txs[id := tx]) }

  function Drop(s: Store, id: nat): Store { s.(txs := s.txs - {id}) }

  function Execute(s: Store, e: Event): Store
    requires Enabled(s, e)
  {
    match e
    case BeginReserve(id, scope, r, now) =>
      if Reservable(r) then Put(s, id, Reserving(scope, r, now, Begun, {}, {})) else s
    case DeleteOwn(id) =>
      var tx := s.txs[id];
      var gone := if OwnExpired(s, tx) then {KeyOf(tx)} else {};
      Put(s, id, tx.(stage := OwnDeleted, gone := gone, locks := gone))
    case DeleteExpired(id, swept) =>
      var tx := s.txs[id];
      Put(s, id, tx.(stage := Cleaned, gone := tx.gone + swept, locks := tx.locks + swept))
    case InsertRow(id) =>
      var tx := s.txs[id];
      if !IdentityChecks(StoredIdentity(tx.r.identity)) || KeyOf(tx) in Seen(s, tx) then Drop(s, id)
      else Put(s, id, tx.(stage := Inserted, locks := tx.locks + {KeyOf(tx)}))
    case EndReserve(id, commit) =>
      var tx := s.txs[id];
      var table := if commit.RolledBack? then s.table else Seen(s, tx)[KeyOf(tx) := ReservedRow(tx.r)];
      Drop(s, id).(table := table)
    case BeginUpdate(id, scope, r) => Put(s, id, Updating(Key(scope, r.identity.id), r, Ready, {}))
    case UpdateRow(id, at) =>
      var tx := s.txs[id];
      if !Fenced(s.table, tx.key, tx.r, at) then Put(s, id, tx.(update := Missed))
      else if !RowChecks(Written(s.table[tx.key], tx.r)) then Drop(s, id)
      else Put(s, id, tx.(update := Wrote(at), locks := {tx.key}))
    case ReadBack(id, _, _) => Drop(s, id)
    case EndUpdate(id, commit) =>
      var tx := s.txs[id];
      var table := if commit.RolledBack? || tx.key !in s.table then s.table
                   else s.table[tx.key := Written(s.table[tx.key], tx.r)];
      Drop(s, id).(table := table)
    case Abort(id) => Drop(s, id)
  }

  /** What the step tells the caller, if it ends the call. */
  function ReplyTo(s: Store, e: Event): Option<Acknowledgement>
    requires Enabled(s, e)
  {
    match e
    case BeginReserve(_, _, r, _) => if Reservable(r) then None else Some(Refused(Unavailable))
    case InsertRow(id) =>
      if !IdentityChecks(StoredIdentity(s.txs[id].r.identity)) then Some(Refused(Unavailable))
      else if KeyOf(s.txs[id]) in Seen(s, s.txs[id]) then Some(Refused(Conflict))
      else None
    case EndReserve(_, commit) => if commit.Committed? then Some(Acknowledged) else None  // else it looks the row up
    case UpdateRow(id, at) =>
      if Fenced(s.table, s.txs[id].key, s.txs[id].r, at) && !RowChecks(Written(s.table[s.txs[id].key], s.txs[id].r))
      then Some(Refused(Unavailable)) else None
    case ReadBack(id, readAt, commit) => Some(ReadAck(s.table, s.txs[id].key, s.txs[id].r, readAt, commit))
    case EndUpdate(_, commit) => Some(if commit.Committed? then Acknowledged else Refused(Unavailable))
    case _ => None
  }

  // ---- what every interleaving keeps ----

  predicate ReservingOk(table: Table, tx: Tx)
    requires tx.Reserving?
  {
    && Reservable(tx.r) && tx.gone <= tx.locks && |tx.gone - {KeyOf(tx)}| <= 99
    && (forall k :: k in tx.gone ==>
          k.scope == tx.scope && k in table && table[k].identity.retentionExpiresAt <= tx.now)
    && (tx.stage.Begun? ==> tx.locks == {}) && (tx.stage.OwnDeleted? ==> tx.gone <= {KeyOf(tx)})
    && (tx.stage.Inserted? ==>
          && KeyOf(tx) in tx.locks && KeyOf(tx) !in table - tx.gone
          && IdentityChecks(StoredIdentity(tx.r.identity)))
  }

  predicate UpdatingOk(table: Table, tx: Tx)
    requires tx.Updating?
  {
    tx.update.Wrote? ==>
      && tx.key in tx.locks && Fenced(table, tx.key, tx.r, tx.update.now)
      && RowChecks(Written(table[tx.key], tx.r))
  }

  predicate TxOk(table: Table, tx: Tx) {
    if tx.Reserving? then ReservingOk(table, tx) else UpdatingOk(table, tx)
  }

  predicate Apart(a: Tx, b: Tx) { a.locks !! b.locks }

  ghost predicate Inv(s: Store) {
    && (forall id :: id in s.txs ==> TxOk(s.table, s.txs[id]))
    && (forall i, j :: i in s.txs && j in s.txs && i != j ==> Apart(s.txs[i], s.txs[j]))
  }

  ghost predicate Free(s: Store, id: nat, tx: Tx) {
    forall other :: other in s.txs && other != id ==> Apart(s.txs[other], tx)
  }

  lemma PutKeepsInv(s: Store, id: nat, tx: Tx)
    requires Inv(s) && TxOk(s.table, tx) && Free(s, id, tx)
    ensures Inv(Put(s, id, tx))
  {
    var t := Put(s, id, tx);
    forall i, j | i in t.txs && j in t.txs && i != j ensures Apart(t.txs[i], t.txs[j]) {
      if i == id {
        assert Apart(s.txs[j], tx);
      } else if j == id {
        assert Apart(s.txs[i], tx);
      } else {
        assert Apart(s.txs[i], s.txs[j]);
      }
    }
  }

  /** Rows that a transaction was allowed to lock keep it apart from the others. */
  lemma LockingIsFree(s: Store, id: nat, tx: Tx, more: set<Key>)
    requires Inv(s) && id in s.txs && tx.locks <= s.txs[id].locks + more
    requires forall k :: k in more ==> !LockedByOthers(s, id, k)
    ensures Free(s, id, tx)
  {
    forall other | other in s.txs && other != id ensures Apart(s.txs[other], tx) {
      assert Apart(s.txs[other], s.txs[id]);
      forall k | k in s.txs[other].locks ensures k !in tx.locks {
        if k in more { assert LockedByOthers(s, id, k); }
      }
    }
  }

  /** A commit that changes only rows which its transaction has locked. */
  lemma EndKeepsInv(s: Store, id: nat, table: Table)
    requires Inv(s) && id in s.txs
    requires forall k :: k !in s.txs[id].locks ==>
               (k in table <==> k in s.table) && (k in s.table ==> table[k] == s.table[k])
    ensures Inv(Drop(s, id).(table := table))
  {
    forall i | i in s.txs && i != id ensures TxOk(table, s.txs[i]) {
      assert TxOk(s.table, s.txs[i]) && Apart(s.txs[i], s.txs[id]);
      if s.txs[i].Reserving? {
        OthersReserve(s.table, table, s.txs[id].locks, s.txs[i]);
      }
    }
  }

  lemma OthersReserve(table: Table, after: Table, changed: set<Key>, tx: Tx)
    requires tx.Reserving? && ReservingOk(table, tx) && tx.locks !! changed
    requires forall k :: k !in changed ==>
               (k in after <==> k in table) && (k in table ==> after[k] == table[k])
    ensures ReservingOk(after, tx)
  {
    if tx.stage.Inserted? { assert KeyOf(tx) in tx.locks; }
  }

  lemma {:induction false} SubsetSize(a: set<Key>, b: set<Key>)
    requires a <= b
    ensures |a| <= |b|
  {
    if a != {} {
      var k :| k in a;
      SubsetSize(a - {k}, b - {k});
    }
  }

  lemma DeleteOwnKeepsInv(s: Store, id: nat)
    requires Inv(s) && Enabled(s, DeleteOwn(id))
    ensures Inv(Execute(s, DeleteOwn(id)))
  {
    var tx := s.txs[id];
    assert TxOk(s.table, tx);
    var gone := if OwnExpired(s, tx) then {KeyOf(tx)} else {};
    var after := tx.(stage := OwnDeleted, gone := gone, locks := gone);
    assert gone - {KeyOf(after)} == {};
    LockingIsFree(s, id, after, gone);
    PutKeepsInv(s, id, after);
  }

  lemma DeleteExpiredKeepsInv(s: Store, id: nat, swept: set<Key>)
    requires Inv(s) && Enabled(s, DeleteExpired(id, swept))
    ensures Inv(Execute(s, DeleteExpired(id, swept)))
  {
    var tx := s.txs[id];
    assert TxOk(s.table, tx);
    var after := tx.(stage := Cleaned, gone := tx.gone + swept, locks := tx.locks + swept);
    assert after.gone - {KeyOf(after)} <= swept;
    SubsetSize(after.gone - {KeyOf(after)}, swept);
    LockingIsFree(s, id, after, swept);
    PutKeepsInv(s, id, after);
  }

  lemma InsertKeepsInv(s: Store, id: nat)
    requires Inv(s) && Enabled(s, InsertRow(id))
    ensures Inv(Execute(s, InsertRow(id)))
  {
    var tx := s.txs[id];
    assert TxOk(s.table, tx);
    if IdentityChecks(StoredIdentity(tx.r.identity)) && KeyOf(tx) !in Seen(s, tx) {
      var after := tx.(stage := Inserted, locks := tx.locks + {KeyOf(tx)});
      LockingIsFree(s, id, after, {KeyOf(tx)});
      PutKeepsInv(s, id, after);
    }
  }

  lemma UpdateKeepsInv(s: Store, id: nat, at: Time)
    requires Inv(s) && Enabled(s, UpdateRow(id, at))
    ensures Inv(Execute(s, UpdateRow(id, at)))
  {
    var tx := s.txs[id];
    if !Fenced(s.table, tx.key, tx.r, at) {
      LockingIsFree(s, id, tx.(update := Missed), {});
      PutKeepsInv(s, id, tx.(update := Missed));
    } else if RowChecks(Written(s.table[tx.key], tx.r)) {
      var after := tx.(update := Wrote(at), locks := {tx.key});
      LockingIsFree(s, id, after, {tx.key});
      PutKeepsInv(s, id, after);
    }
  }

  lemma StepKeepsInv(s: Store, e: Event)
    requires Inv(s) && Enabled(s, e)
    ensures Inv(Execute(s, e))
  {
    if e.BeginReserve? {
      if Reservable(e.r) { PutKeepsInv(s, e.id, Reserving(e.scope, e.r, e.now, Begun, {}, {})); }
    } else if e.BeginUpdate? {
      PutKeepsInv(s, e.id, Updating(Key(e.scope, e.r.identity.id), e.r, Ready, {}));
    } else if e.UpdateRow? {
      UpdateKeepsInv(s, e.id, e.at);
    } else if e.EndReserve? || e.EndUpdate? || e.ReadBack? || e.Abort? {
      assert TxOk(s.table, s.txs[e.id]);
      EndKeepsInv(s, e.id, Execute(s, e).table);
    } else if e.DeleteOwn? {
      DeleteOwnKeepsInv(s, e.id);
    } else if e.DeleteExpired? {
      DeleteExpiredKeepsInv(s, e.id, e.swept);
    } else {
      InsertKeepsInv(s, e.id);
    }
  }

  // ---- the writes are those of whole transactions ----

  /** One transaction as a single step on the table. */
  datatype Whole =
    | Reservation(scope: string, r: Record, now: Time, swept: set<Key>, commit: Commit)
    | Update(key: Key, r: Record, now: Time, commit: Commit)

  function Apply(table: Table, w: Whole): Table {
    match w
    case Reservation(scope, r, now, swept, commit) => ReservedTable(table, scope, r, now, swept, commit)
    case Update(key, r, now, commit) => UpdatedTable(table, key, r, now, commit)
  }

  predicate Allowed(table: Table, w: Whole) { w.Reservation? ==> Sweep(table, w.scope, w.now, w.swept) }

  /** The transaction that a step ends by writing. */
  function Ended(s: Store, e: Event): Option<Whole>
    requires Enabled(s, e)
  {
    match e
    case EndReserve(id, commit) =>
      var tx := s.txs[id];
      Some(Reservation(tx.scope, tx.r, tx.now, tx.gone - {KeyOf(tx)}, commit))
    case EndUpdate(id, commit) => Some(Update(s.txs[id].key, s.txs[id].r, s.txs[id].update.now, commit))
    case _ => None
  }

  predicate IsWhole(table: Table, w: Option<Whole>, after: Table) {
    if w.None? then after == table else Allowed(table, w.value) && after == Apply(table, w.value)
  }

  /** The two deletions together are the sweep and the removal of the reservation's own expired row. */
  lemma SweptIsGone(table: Table, tx: Tx)
    requires tx.Reserving? && tx.stage.Inserted? && ReservingOk(table, tx)
    ensures var swept := tx.gone - {KeyOf(tx)};
            && Sweep(table, tx.scope, tx.now, swept)
            && Swept(table, tx.scope, tx.r, tx.now, swept) == table - tx.gone
  {
  }

  lemma ReservedTableIs(table: Table, tx: Tx, commit: Commit)
    requires tx.Reserving? && tx.stage.Inserted? && ReservingOk(table, tx)
    ensures ReservedTable(table, tx.scope, tx.r, tx.now, tx.gone - {KeyOf(tx)}, commit)
            == if commit.RolledBack? then table else (table - tx.gone)[KeyOf(tx) := ReservedRow(tx.r)]
  {
    SweptIsGone(table, tx);
  }

  lemma ReserveIsWhole(s: Store, id: nat, commit: Commit)
    requires Enabled(s, EndReserve(id, commit)) && ReservingOk(s.table, s.txs[id])
    ensures var e := EndReserve(id, commit); IsWhole(s.table, Ended(s, e), Execute(s, e).table)
  {
    SweptIsGone(s.table, s.txs[id]);
    ReservedTableIs(s.table, s.txs[id], commit);
  }

  lemma UpdateIsWhole(s: Store, id: nat, commit: Commit)
    requires Enabled(s, EndUpdate(id, commit)) && UpdatingOk(s.table, s.txs[id])
    ensures var e := EndUpdate(id, commit); IsWhole(s.table, Ended(s, e), Execute(s, e).table)
  {
  }

  /** A step changes the table only by ending a transaction, and then exactly as the whole transaction
      would on the table of that moment. */
  lemma StepIsWhole(s: Store, e: Event)
    requires Inv(s) && Enabled(s, e)
    ensures IsWhole(s.table, Ended(s, e), Execute(s, e).table)
  {
    if e.EndReserve? {
      assert TxOk(s.table, s.txs[e.id]);
      ReserveIsWhole(s, e.id, e.commit);
    } else if e.EndUpdate? {
      assert TxOk(s.table, s.txs[e.id]);
      UpdateIsWhole(s, e.id, e.commit);
    } else {
      OpenStepWritesNothing(s, e);
    }
  }

  lemma OpenStepWritesNothing(s: Store, e: Event)
    requires Enabled(s, e) && !e.EndReserve? && !e.EndUpdate?
    ensures Ended(s, e).None? && Execute(s, e).table == s.table
  {
  }

  ghost predicate IsRun(s: Store, events: seq<Event>)
    decreases |events|
  {
    events == [] || (Enabled(s, events[0]) && IsRun(Execute(s, events[0]), events[1..]))
  }

  ghost function After(s: Store, events: seq<Event>): Store
    requires IsRun(s, events)
    decreases |events|
  {
    if events == [] then s else After(Execute(s, events[0]), events[1..])
  }

  /** The transactions of a run that ended by writing, in the order of their commits. */
  ghost function Wholes(s: Store, events: seq<Event>): seq<Whole>
    requires IsRun(s, events)
    decreases |events|
  {
    if events == [] then []
    else
      var w := Ended(s, events[0]);
      (if w.Some? then [w.value] else []) + Wholes(Execute(s, events[0]), events[1..])
  }

  ghost predicate Serial(table: Table, ws: seq<Whole>, end: Table)
    decreases |ws|
  {
    if ws == [] then table == end else Allowed(table, ws[0]) && Serial(Apply(table, ws[0]), ws[1..], end)
  }

  /** Every interleaving of statements leaves the table that its transactions leave one after the other. */
  lemma {:induction false} WritesAreSerial(s: Store, events: seq<Event>)
    requires Inv(s) && IsRun(s, events)
    ensures Serial(s.table, Wholes(s, events), After(s, events).table)
    decreases |events|
  {
    if events != [] {
      var e, t := events[0], Execute(s, events[0]);
      StepIsWhole(s, e);
      StepKeepsInv(s, e);
      WritesAreSerial(t, events[1..]);
      var w, rest := Ended(s, e), Wholes(t, events[1..]);
      if w.Some? {
        assert ([w.value] + rest)[1..] == rest;
      } else {
        assert [] + rest == rest;
      }
    }
  }

  // ---- a reservation whose commit was not confirmed ----

  /** Some reservation of the run under this owner ended without being rolled back. */
  ghost predicate Reserves(s: Store, events: seq<Event>, owner: string)
    requires IsRun(s, events)
    decreases |events|
  {
    events != [] &&
    (var e := events[0];
     || (e.EndReserve? && !e.commit.RolledBack? && s.txs[e.id].r.identity.owner == owner)
     || Reserves(Execute(s, e), events[1..], owner))
  }

  ghost predicate Owns(table: Table, owner: string) {
    exists k :: k in table && table[k].identity.owner == owner
  }

  lemma NewOwner(s: Store, e: Event, owner: string)
    requires Enabled(s, e) && !Owns(s.table, owner) && Owns(Execute(s, e).table, owner)
    ensures e.EndReserve? && !e.commit.RolledBack? && s.txs[e.id].r.identity.owner == owner
  {
    var t := Execute(s, e);
    var k :| k in t.table && t.table[k].identity.owner == owner;
    if k in s.table { assert s.table[k].identity.owner != owner; }
  }

  /** A look-up at any later moment that finds the owner's row means that the owner's reservation was
      committed, although its caller was not told so: owners are fresh, and nothing else makes a row
      of theirs. */
  lemma {:induction false} FoundIsReserved(s: Store, events: seq<Event>, owner: string)
    requires IsRun(s, events) && !Owns(s.table, owner) && Owns(After(s, events).table, owner)
    ensures Reserves(s, events, owner)
    decreases |events|
  {
    if events != [] {
      var t := Execute(s, events[0]);
      if Owns(t.table, owner) {
        NewOwner(s, events[0], owner);
      } else {
        FoundIsReserved(t, events[1..], owner);
      }
    }
  }

  /** The answer of a reservation whose commit was not confirmed: what it finds under its key decides. */
  function ReadbackAck(table: Table, key: Key, owner: string, now: Time): Acknowledgement {
    if Live(table, key, now) && table[key].identity.owner == owner then Acknowledged else Refused(Unavailable)
  }

  /** Whatever runs between a reservation and its look-up, an acknowledgement by the look-up means that a
      reservation of this owner was committed. */
  lemma AcknowledgedReservationIsDurable(s: Store, events: seq<Event>, key: Key, owner: string, now: Time)
    requires IsRun(s, events) && !Owns(s.table, owner)
    requires ReadbackAck(After(s, events).table, key, owner, now).Acknowledged?
    ensures Reserves(s, events, owner)
  {
    assert Owns(After(s, events).table, owner);
    FoundIsReserved(s, events, owner);
  }

  // ---- the statements as they run ----

  class TrackingTable {
    var rows: Table
    var txs: map<nat, Tx>

    ghost function Value(): Store
      reads this
    {
      Store(rows, txs)
    }

    constructor ()
      ensures Value() == Store(map[], map[])
    {
      rows, txs := map[], map[];
    }

    method StartReserve(id: nat, scope: string, r: Record, now: Time) returns (reply: Option<Acknowledgement>)
      requires Enabled(Value(), BeginReserve(id, scope, r, now))
      modifies this
      ensures Value() == Execute(old(Value()), BeginReserve(id, scope, r, now))
      ensures reply == ReplyTo(old(Value()), BeginReserve(id, scope, r, now))
    {
      if r.revision != 1 || !r.status.Running? || r.finishedAt.Some? { return Some(Refused(Unavailable)); }
      txs := txs[id := Reserving(scope, r, now, Begun, {}, {})];
      return None;
    }

    method RemoveOwn(id: nat)
      requires Enabled(Value(), DeleteOwn(id))
      modifies this
      ensures Value() == Execute(old(Value()), DeleteOwn(id))
    {
      var tx, gone: set<Key> := txs[id], {};
      var key := Key(tx.scope, tx.r.identity.id);
      if key in rows && rows[key].identity.retentionExpiresAt <= tx.now { gone := {key}; }
      txs := txs[id := tx.(stage := OwnDeleted, gone := gone, locks := gone)];
    }

    method RemoveExpired(id: nat, swept: set<Key>)
      requires Enabled(Value(), DeleteExpired(id, swept))
      modifies this
      ensures Value() == Execute(old(Value()), DeleteExpired(id, swept))
    {
      var tx := txs[id];
      txs := txs[id := tx.(stage := Cleaned, gone := tx.gone + swept, locks := tx.locks + swept)];
    }

    method InsertReserved(id: nat) returns (reply: Option<Acknowledgement>)
      requires Enabled(Value(), InsertRow(id))
      modifies this
      ensures Value() == Execute(old(Value()), InsertRow(id))
      ensures reply == ReplyTo(old(Value()), InsertRow(id))
    {
      var tx := txs[id];
      var key := Key(tx.scope, tx.r.identity.id);
      if !IdentityChecks(StoredIdentity(tx.r.identity)) {
        txs := txs - {id};
        return Some(Refused(Unavailable));
      }
      if key in rows && key !in tx.gone {
        txs := txs - {id};
        return Some(Refused(Conflict));
      }
      txs := txs[id := tx.(stage := Inserted, locks := tx.locks + {key})];
      return None;
    }

    method CommitReserve(id: nat, commit: Commit) returns (reply: Option<Acknowledgement>)
      requires Enabled(Value(), EndReserve(id, commit))
      modifies this
      ensures Value() == Execute(old(Value()), EndReserve(id, commit))
      ensures reply == ReplyTo(old(Value()), EndReserve(id, commit))
    {
      var tx := txs[id];
      if !commit.RolledBack? { rows := (rows - tx.gone)[Key(tx.scope, tx.r.identity.id) := ReservedRow(tx.r)]; }
      txs := txs - {id};
      return if commit.Committed? then Some(Acknowledged) else None;
    }

    method ConfirmReserve(key: Key, owner: string, now: Time) returns (reply: Acknowledgement)
      ensures reply == ReadbackAck(rows, key, owner, now)
    {
      var found := Lookup(key, now);
      if found.Some? && found.value.identity.owner == owner { return Acknowledged; }
      return Refused(Unavailable);
    }

    method UpdateFenced(id: nat, at: Time) returns (reply: Option<Acknowledgement>)
      requires Enabled(Value(), UpdateRow(id, at))
      modifies this
      ensures Value() == Execute(old(Value()), UpdateRow(id, at))
      ensures reply == ReplyTo(old(Value()), UpdateRow(id, at))
    {
      var tx := txs[id];
      if !Fenced(rows, tx.key, tx.r, at) {
        txs := txs[id := tx.(update := Missed)];
        return None;
      }
      if !RowChecks(Written(rows[tx.key], tx.r)) {
        txs := txs - {id};
        return Some(Refused(Unavailable));
      }
      txs := txs[id := tx.(update := Wrote(at), locks := {tx.key})];
      return None;
    }

    method SelectCurrent(id: nat, readAt: Time, commit: Commit) returns (reply: Acknowledgement)
      requires Enabled(Value(), ReadBack(id, readAt, commit))
      modifies this
      ensures Value() == Execute(old(Value()), ReadBack(id, readAt, commit))
      ensures Some(reply) == ReplyTo(old(Value()), ReadBack(id, readAt, commit))
    {
      var tx := txs[id];
      var found := Lookup(tx.key, readAt);
      txs := txs - {id};
      if found.None? { return Refused(NotFound); }
      var saved := found.value;
      if || saved.identity.owner != tx.r.identity.owner || saved.revision < tx.r.revision
         || (saved.revision == tx.r.revision && !SameSnapshot(saved, tx.r)) {
        return Refused(NotFound);
      }
      return if commit.Committed? then Acknowledged else Refused(Unavailable);
    }

    method CommitUpdate(id: nat, commit: Commit) returns (reply: Acknowledgement)
      requires Enabled(Value(), EndUpdate(id, commit))
      modifies this
      ensures Value() == Execute(old(Value()), EndUpdate(id, commit))
      ensures Some(reply) == ReplyTo(old(Value()), EndUpdate(id, commit))
    {
      var tx := txs[id];
      if !commit.RolledBack? && tx.key in rows { rows := rows[tx.key := Written(rows[tx.key], tx.r)]; }
      txs := txs - {id};
      return if commit.Committed? then Acknowledged else Refused(Unavailable);
    }

    method Lookup(key: Key, now: Time) returns (found: Option<Record>)
      ensures found == if Live(rows, key, now) then Some(rows[key]) else None
    {
      if key in rows && rows[key].identity.retentionExpiresAt > now { return Some(rows[key]); }
      found := None;
    }
  }
}
