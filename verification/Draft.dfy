/** Drafts: a table with seven-day rows and a bounded sweep, against compare-and-set on a map
    in which expired entries are absent. A save is a transaction of several statements at READ COMMITTED:
    a statement reads the rows committed when it starts and writes a row when no other transaction holds
    it; transactions interleave, and every caller reads its clock when it likes. */
module Draft {
  import opened Wrappers

  type Time = int      // nanoseconds
  type Payload = string

  const LIFETIME: int := 7 * 24 * 3600 * 1_000_000_000
  const MAX_REVISION: int := 0x7fff_ffff_ffff_ffff
  const SWEEP_LIMIT := 100

  datatype Key = Key(scope: string, name: string)

  datatype Row = Row(revision: int, payload: Payload, expiresAt: Time)

  type Table = map<Key, Row>

  datatype Reply =
    | Saved(revision: int)
    | Conflict(current: int)    // the revision the caller should have named
    | StorageFailure            // the next revision does not fit a bigint
    | Invalid                   // a negative revision
    | Found(revision: int, payload: Payload)

  predicate Live(table: Table, key: Key, now: Time) {
    key in table && table[key].expiresAt > now
  }

  /** The revision a reader sees: expired and missing rows both read as zero. */
  function Revision(table: Table, key: Key, now: Time): int {
    if Live(table, key, now) then table[key].revision else 0
  }

  // ---- the statements ----

  predicate Expired(table: Table, key: Key, scope: string, now: Time) {
    key.scope == scope && key in table && table[key].expiresAt <= now
  }

  /** What one DELETE of the sweep may remove: at most a hundred expired rows of the scope. Which of them
      is left open. */
  predicate Sweep(table: Table, scope: string, now: Time, swept: set<Key>) {
    |swept| <= SWEEP_LIMIT && forall k :: k in swept ==> Expired(table, k, scope, now)
  }

  /** The row source of the INSERT. */
  predicate Selected(table: Table, key: Key, expected: int, now: Time) {
    expected == 0 || (key in table && table[key].revision == expected && table[key].expiresAt > now)
  }

  /** The condition of the ON CONFLICT update. */
  predicate Replaceable(row: Row, expected: int, now: Time) {
    (expected == 0 && row.expiresAt <= now) || (expected > 0 && row.revision == expected && row.expiresAt > now)
  }

  /** The write of the INSERT ... ON CONFLICT statement, when its source has a row: the row it leaves, or
      nothing when no row is returned. */
  function Written(table: Table, key: Key, expected: int, payload: Payload, now: Time): Option<Row> {
    if key !in table then Some(Row(expected + 1, payload, now + LIFETIME))
    else
      var row := table[key];
      if !Replaceable(row, expected, now) then None
      else Some(Row(if row.expiresAt <= now then 1 else row.revision + 1, payload, now + LIFETIME))
  }

  // ---- transactions ----

  datatype Stage =
    | Begun                 // nothing done yet
    | Sweeping              // the DELETE has chosen its rows
    | Sourced               // the INSERT has read its row source, and it has a row
    | Inserted(row: Row)    // the INSERT returned a row
    | Refused               // the INSERT returned no row

  /** A save in progress. Its deletes and its row are its own until it commits: `chosen` are the rows its
      DELETE has still to remove, `swept` those it has removed, `locks` all rows it has touched. */
  datatype Tx = Tx(key: Key, expected: int, payload: Payload, now: Time, stage: Stage,
                   chosen: set<Key>, swept: set<Key>, locks: set<Key>)

  /** The committed table and the transactions in progress. */
  datatype Store = Store(table: Table, txs: map<nat, Tx>)

  /** A statement reads when it starts and writes each row when no other transaction holds it, so the DELETE
      is `Choose` and any number of `Remove`, and the INSERT is `Source` and `Insert`. */
  datatype Event =
    | Begin(id: nat, key: Key, expected: int, payload: Payload, now: Time)
    | Choose(id: nat, chosen: set<Key>)
    | Remove(id: nat, key: Key)
    | Source(id: nat)
    | Insert(id: nat)
    | Select(id: nat)
    | Commit(id: nat)
    | Abort(id: nat)
    | Get(key: Key, now: Time)

  /** What a transaction sees: committed rows without those it deleted itself. */
  function Seen(s: Store, tx: Tx): Table { s.table - tx.swept }

  predicate LockedByOthers(s: Store, id: nat, key: Key) {
    exists other :: other in s.txs && other != id && key in s.txs[other].locks
  }

  predicate Sources(s: Store, tx: Tx) { Selected(Seen(s, tx), tx.key, tx.expected, tx.now) }

  /** The row that an INSERT whose source has a row leaves, if it returns one. */
  function InsertRow(s: Store, tx: Tx): Option<Row> { Written(Seen(s, tx), tx.key, tx.expected, tx.payload, tx.now) }

  predicate IsAt(s: Store, id: nat, stage: Stage) { id in s.txs && s.txs[id].stage == stage }

  predicate Enabled(s: Store, e: Event) {
    match e
    case Begin(id, _, _, _, _) => id !in s.txs
    case Choose(id, chosen) => IsAt(s, id, Begun) && Sweep(s.table, s.txs[id].key.scope, s.txs[id].now, chosen)
    case Remove(id, key) => IsAt(s, id, Sweeping) && key in s.txs[id].chosen && !LockedByOthers(s, id, key)
    case Source(id) => IsAt(s, id, Sweeping) && s.txs[id].chosen == {}
    case Insert(id) => IsAt(s, id, Sourced) && !LockedByOthers(s, id, s.txs[id].key)
    case Select(id) => IsAt(s, id, Refused)
    case Commit(id) => id in s.txs && s.txs[id].stage.Inserted?
    case Abort(id) => id in s.txs
    case Get(_, _) => true
  }

  function Put(s: Store, id: nat, tx: Tx): Store { s.(txs := s.txs[id := tx]) }

  function Drop(s: Store, id: nat): Store { s.(txs := s.txs - {id}) }

  /** A DELETE that comes to a row which is gone by then passes over it, also when the key is used again: what
      it has chosen is that row and the rows it was updated to. */
  function Passed(txs: map<nat, Tx>, gone: set<Key>): map<nat, Tx> {
    map id | id in txs :: txs[id].(chosen := txs[id].chosen - gone)
  }

  predicate Overflows(row: Option<Row>) { row.Some? && row.value.revision > MAX_REVISION }

  /** The transaction after its INSERT, which has locked the key. */
  function AfterInsert(s: Store, tx: Tx): Tx {
    var row := InsertRow(s, tx);
    tx.(stage := if row.Some? then Inserted(row.value) else Refused, locks := tx.locks + {tx.key})
  }

  function Step(s: Store, e: Event): Store
    requires Enabled(s, e)
  {
    match e
    case Begin(id, key, expected, payload, now) =>
      if expected < 0 then s else Put(s, id, Tx(key, expected, payload, now, Begun, {}, {}, {}))
    case Choose(id, chosen) => Put(s, id, s.txs[id].(stage := Sweeping, chosen := chosen))
    case Remove(id, key) =>
      var tx := s.txs[id];
      Put(s, id, tx.(chosen := tx.chosen - {key}, swept := tx.swept + {key}, locks := tx.locks + {key}))
    case Source(id) => Put(s, id, s.txs[id].(stage := if Sources(s, s.txs[id]) then Sourced else Refused))
    case Insert(id) => if Overflows(InsertRow(s, s.txs[id])) then Drop(s, id) else Put(s, id, AfterInsert(s, s.txs[id]))
    case Select(id) => Drop(s, id)
    case Commit(id) =>
      var tx := s.txs[id];
      Store((s.table - tx.swept)[tx.key := tx.stage.row], Passed(s.txs - {id}, tx.swept))
    case Abort(id) => Drop(s, id)
    case Get(_, _) => s
  }

  /** What the step answers a caller, if it ends a call. */
  function ReplyTo(s: Store, e: Event): Option<Reply>
    requires Enabled(s, e)
  {
    match e
    case Begin(_, _, expected, _, _) => if expected < 0 then Some(Invalid) else None
    case Insert(id) => if Overflows(InsertRow(s, s.txs[id])) then Some(StorageFailure) else None
    case Select(id) => Some(Conflict(Revision(Seen(s, s.txs[id]), s.txs[id].key, s.txs[id].now)))
    case Commit(id) => Some(Saved(s.txs[id].stage.row.revision))
    case Get(key, now) => Some(Read(s.table, key, now))
    case _ => None
  }

  function Read(table: Table, key: Key, now: Time): Reply {
    if Live(table, key, now) then Found(table[key].revision, table[key].payload) else Found(0, "{}")
  }

  // ---- the reference: compare-and-set on a map that forgets nothing ----

  function CompareAndSet(view: Table, key: Key, expected: int, now: Time): Reply {
    if expected < 0 then Invalid
    else if expected != Revision(view, key, now) then Conflict(Revision(view, key, now))
    else if expected == MAX_REVISION then StorageFailure
    else Saved(expected + 1)
  }

  /** All rows ever committed, the latest for each key, and for removed ones the clock reading of the sweep
      that removed it. */
  datatype Reference = Reference(view: Table, graves: map<Key, Time>)

  /** A save takes effect when it commits. */
  function RefStep(r: Reference, s: Store, e: Event): Reference
    requires Enabled(s, e)
  {
    if !e.Commit? then r
    else
      var tx := s.txs[e.id];
      Reference(r.view[tx.key := tx.stage.row], (r.graves + map k | k in tx.swept :: tx.now) - {tx.key})
  }

  /** The key and the clock reading of the call that a step belongs to. */
  function Subject(s: Store, e: Event): (Key, Time)
    requires Enabled(s, e)
  {
    match e
    case Begin(_, key, _, _, now) => (key, now)
    case Get(key, now) => (key, now)
    case _ => (s.txs[e.id].key, s.txs[e.id].now)
  }

  function RefReply(r: Reference, s: Store, e: Event): Reply
    requires Enabled(s, e)
  {
    match e
    case Begin(_, key, expected, _, now) => CompareAndSet(r.view, key, expected, now)
    case Get(key, now) => Read(r.view, key, now)
    case _ => CompareAndSet(r.view, s.txs[e.id].key, s.txs[e.id].expected, s.txs[e.id].now)
  }

  // ---- what every interleaving keeps ----

  ghost predicate TableOk(s: Store, r: Reference) {
    && (forall k :: k in s.table ==> k in r.view && s.table[k] == r.view[k])
    && (forall k :: k in r.graves <==> k in r.view && k !in s.table)
    && (forall k :: k in r.view ==> 1 <= r.view[k].revision <= MAX_REVISION)
  }

  /** An INSERT whose source was an existing row has not removed it itself. */
  predicate SourceOk(r: Reference, tx: Tx) {
    (tx.stage.Sourced? || tx.stage.Inserted?) && tx.expected > 0 ==>
      tx.key in r.view && tx.key !in tx.swept && tx.expected <= MAX_REVISION
  }

  predicate TxOk(s: Store, r: Reference, tx: Tx) {
    && tx.expected >= 0 && tx.swept <= tx.locks && tx.swept !! tx.chosen
    && tx.swept <= s.table.Keys && tx.chosen <= s.table.Keys
    && (tx.stage.Begun? ==> tx.locks == {})
    && (!tx.stage.Sweeping? ==> tx.chosen == {})
    && (tx.stage.Inserted? ==>
          && tx.key in tx.locks && InsertRow(s, tx) == Some(tx.stage.row) && tx.stage.row.revision <= MAX_REVISION)
    && SourceOk(r, tx)
  }

  predicate Apart(a: Tx, b: Tx) { a.locks !! b.locks }

  ghost predicate Inv(s: Store, r: Reference) {
    && TableOk(s, r)
    && (forall id :: id in s.txs ==> TxOk(s, r, s.txs[id]))
    && (forall i, j :: i in s.txs && j in s.txs && i != j ==> Apart(s.txs[i], s.txs[j]))
  }

  /** The INSERT returns a row exactly when its source has one and the expected revision is the one that is
      seen, and the row is the next. */
  lemma UpsertedIff(t: Table, key: Key, expected: int, payload: Payload, now: Time)
    requires expected >= 0 && (key in t ==> t[key].revision >= 1)
    ensures var row := Written(t, key, expected, payload, now);
            && (Selected(t, key, expected, now) && row.Some? <==> expected == Revision(t, key, now))
            && (key in t ==> (row.Some? <==> expected == Revision(t, key, now)))
            && (row.Some? ==> row.value == Row(expected + 1, payload, now + LIFETIME))
  {
  }

  lemma PutKeepsInv(s: Store, r: Reference, id: nat, tx: Tx, more: set<Key>)
    requires Inv(s, r) && TxOk(s, r, tx)
    requires if id in s.txs then tx.locks == s.txs[id].locks + more else tx.locks == {}
    requires forall k :: k in more ==> !LockedByOthers(s, id, k)
    ensures Inv(Put(s, id, tx), r)
  {
    var t := Put(s, id, tx);
    forall i | i in t.txs ensures TxOk(t, r, t.txs[i]) { if i != id { assert TxOk(s, r, s.txs[i]); } }
    forall i, j | i in t.txs && j in t.txs && i != j ensures Apart(t.txs[i], t.txs[j]) {
      if i in s.txs && j in s.txs { assert Apart(s.txs[i], s.txs[j]); }
    }
  }

  lemma DropKeepsInv(s: Store, r: Reference, id: nat)
    requires Inv(s, r)
    ensures Inv(Drop(s, id), r)
  {
    var t := Drop(s, id);
    forall i | i in t.txs ensures TxOk(t, r, t.txs[i]) { assert TxOk(s, r, s.txs[i]); }
  }

  lemma SweepKeepsInv(s: Store, r: Reference, e: Event)
    requires Inv(s, r) && (e.Choose? || e.Remove?) && Enabled(s, e)
    ensures Inv(Step(s, e), r)
  {
    var tx := s.txs[e.id];
    assert TxOk(s, r, tx);
    if e.Choose? {
      var after := tx.(stage := Sweeping, chosen := e.chosen);
      PutKeepsInv(s, r, e.id, after, {});
    } else {
      var after := tx.(chosen := tx.chosen - {e.key}, swept := tx.swept + {e.key}, locks := tx.locks + {e.key});
      PutKeepsInv(s, r, e.id, after, {e.key});
    }
  }

  lemma SourceKeepsInv(s: Store, r: Reference, id: nat)
    requires Inv(s, r) && Enabled(s, Source(id))
    ensures Inv(Step(s, Source(id)), r)
  {
    var tx := s.txs[id];
    assert TxOk(s, r, tx);
    PutKeepsInv(s, r, id, tx.(stage := if Sources(s, tx) then Sourced else Refused), {});
  }

  lemma InsertKeepsInv(s: Store, r: Reference, id: nat)
    requires Inv(s, r) && Enabled(s, Insert(id))
    ensures Inv(Step(s, Insert(id)), r)
  {
    var tx := s.txs[id];
    assert TxOk(s, r, tx);
    if Overflows(InsertRow(s, tx)) {
      DropKeepsInv(s, r, id);
    } else {
      assert InsertRow(s, AfterInsert(s, tx)) == InsertRow(s, tx);
      PutKeepsInv(s, r, id, AfterInsert(s, tx), {tx.key});
    }
  }

  lemma CommitKeepsTx(s: Store, r: Reference, id: nat, other: nat)
    requires Inv(s, r) && Enabled(s, Commit(id)) && other in s.txs && other != id
    ensures var t := Step(s, Commit(id)); TxOk(t, RefStep(r, s, Commit(id)), t.txs[other])
  {
    var tx, o, t := s.txs[id], s.txs[other], Step(s, Commit(id));
    assert TxOk(s, r, tx) && TxOk(s, r, o) && Apart(tx, o);
    forall k | k in o.locks ensures k !in tx.swept && k != tx.key {
      assert k !in tx.locks;
    }
    if o.stage.Inserted? {
      assert o.key in Seen(t, t.txs[other]) <==> o.key in Seen(s, o);
    }
  }

  lemma CommitKeepsTable(s: Store, r: Reference, id: nat)
    requires Inv(s, r) && Enabled(s, Commit(id))
    ensures TableOk(Step(s, Commit(id)), RefStep(r, s, Commit(id)))
  {
    var tx := s.txs[id];
    assert TxOk(s, r, tx);
    WrittenRevision(s, r, tx);
  }

  lemma WrittenRevision(s: Store, r: Reference, tx: Tx)
    requires TableOk(s, r) && TxOk(s, r, tx) && InsertRow(s, tx).Some?
    ensures InsertRow(s, tx) == Some(Row(tx.expected + 1, tx.payload, tx.now + LIFETIME))
  {
    UpsertedIff(Seen(s, tx), tx.key, tx.expected, tx.payload, tx.now);
  }

  lemma StepKeepsInv(s: Store, r: Reference, e: Event)
    requires Inv(s, r) && Enabled(s, e)
    ensures Inv(Step(s, e), RefStep(r, s, e))
  {
    var t := Step(s, e);
    match e {
      case Begin(id, key, expected, payload, now) =>
        if expected >= 0 { PutKeepsInv(s, r, id, Tx(key, expected, payload, now, Begun, {}, {}, {}), {}); }
      case Choose(_, _) => SweepKeepsInv(s, r, e);
      case Remove(_, _) => SweepKeepsInv(s, r, e);
      case Source(id) => SourceKeepsInv(s, r, id);
      case Insert(id) => InsertKeepsInv(s, r, id);
      case Select(id) => DropKeepsInv(s, r, id);
      case Abort(id) => DropKeepsInv(s, r, id);
      case Commit(id) =>
        CommitKeepsTable(s, r, id);
        forall i | i in t.txs ensures TxOk(t, RefStep(r, s, e), t.txs[i]) { CommitKeepsTx(s, r, id, i); }
        forall i, j | i in t.txs && j in t.txs && i != j ensures Apart(t.txs[i], t.txs[j]) {
          assert Apart(s.txs[i], s.txs[j]);
        }
      case Get(_, _) =>
    }
  }

  // ---- when a reply is the reference's ----

  /** The last save of the key is missing from the rows although it is live by this clock. */
  predicate Hidden(rows: Table, r: Reference, key: Key, now: Time) {
    key in r.view && key !in rows && r.view[key].expiresAt > now
  }

  /** Rows that a caller sees: committed ones, perhaps without some that it removed. */
  ghost predicate Within(rows: Table, r: Reference) {
    && (forall k :: k in rows ==> k in r.view && rows[k] == r.view[k])
    && (forall k :: k in r.view ==> r.view[k].revision >= 1)
  }

  lemma HiddenRevision(rows: Table, r: Reference, key: Key, now: Time)
    requires Within(rows, r)
    ensures if Hidden(rows, r, key, now) then Revision(rows, key, now) == 0 < Revision(r.view, key, now)
            else Revision(rows, key, now) == Revision(r.view, key, now)
    ensures Read(rows, key, now) == Read(r.view, key, now) <==> !Hidden(rows, r, key, now)
  {
  }

  /** The conflict reply names the very revision that the caller expected: another save of the key
      committed between this call's INSERT and its SELECT. */
  predicate Overtaken(s: Store, e: Event)
    requires Enabled(s, e)
  {
    e.Select? && Revision(Seen(s, s.txs[e.id]), s.txs[e.id].key, s.txs[e.id].now) == s.txs[e.id].expected
  }

  /** The INSERT found its key free, although by its clock the last save of the key has another revision
      than the one it names. */
  predicate Misled(s: Store, r: Reference, tx: Tx) {
    tx.key !in Seen(s, tx) && Revision(r.view, tx.key, tx.now) != tx.expected
  }

  predicate Anomalous(s: Store, r: Reference, e: Event)
    requires Enabled(s, e)
  {
    match e
    case Get(key, now) => Hidden(s.table, r, key, now)
    case Select(id) => Hidden(Seen(s, s.txs[id]), r, s.txs[id].key, s.txs[id].now) || Overtaken(s, e)
    case Insert(id) => ReplyTo(s, e).Some? && Misled(s, r, s.txs[id])
    case Commit(id) => Misled(s, r, s.txs[id])
    case _ => false
  }

  /** A write that finds its key in the table is the one of compare-and-set, and one that finds it free is
      unless it is misled. */
  lemma WriteIff(s: Store, r: Reference, tx: Tx)
    requires TableOk(s, r) && TxOk(s, r, tx) && InsertRow(s, tx).Some?
    ensures tx.expected == Revision(r.view, tx.key, tx.now) <==> !Misled(s, r, tx)
  {
    UpsertedIff(Seen(s, tx), tx.key, tx.expected, tx.payload, tx.now);
    HiddenRevision(Seen(s, tx), r, tx.key, tx.now);
  }

  /** A reply is the one compare-and-set gives at that step exactly when a reading caller's key is not
      hidden from it, a conflict is not overtaken, and a write is not misled. */
  lemma ReplyIff(s: Store, r: Reference, e: Event)
    requires Inv(s, r) && Enabled(s, e) && ReplyTo(s, e).Some?
    ensures ReplyTo(s, e) == Some(RefReply(r, s, e)) <==> !Anomalous(s, r, e)
  {
    if e.Get? {
      HiddenRevision(s.table, r, e.key, e.now);
    } else if e.Select? {
      HiddenRevision(Seen(s, s.txs[e.id]), r, s.txs[e.id].key, s.txs[e.id].now);
      assert TxOk(s, r, s.txs[e.id]);
    } else if e.Insert? || e.Commit? {
      var tx := s.txs[e.id];
      assert TxOk(s, r, tx);
      WriteIff(s, r, tx);
      WrittenRevision(s, r, tx);
    }
  }

  ghost predicate IsRun(s: Store, events: seq<Event>)
    decreases |events|
  {
    events == [] || (Enabled(s, events[0]) && IsRun(Step(s, events[0]), events[1..]))
  }

  ghost function After(s: Store, events: seq<Event>): Store
    requires IsRun(s, events)
    decreases |events|
  {
    if events == [] then s else After(Step(s, events[0]), events[1..])
  }

  ghost function RefAfter(s: Store, r: Reference, events: seq<Event>): Reference
    requires IsRun(s, events)
    decreases |events|
  {
    if events == [] then r else RefAfter(Step(s, events[0]), RefStep(r, s, events[0]), events[1..])
  }

  /** Every reply of the run is the reference's at its step. */
  ghost predicate RepliesAgree(s: Store, r: Reference, events: seq<Event>)
    requires IsRun(s, events)
    decreases |events|
  {
    events == [] ||
    (var e := events[0];
     && (ReplyTo(s, e).Some? ==> ReplyTo(s, e) == Some(RefReply(r, s, e)))
     && RepliesAgree(Step(s, e), RefStep(r, s, e), events[1..]))
  }

  ghost predicate NoAnomaly(s: Store, r: Reference, events: seq<Event>)
    requires IsRun(s, events)
    decreases |events|
  {
    events == [] ||
    (!Anomalous(s, r, events[0]) && NoAnomaly(Step(s, events[0]), RefStep(r, s, events[0]), events[1..]))
  }

  /** In every interleaving, with every clock, all replies are those of compare-and-set on the logical map
      exactly when no step of the run is anomalous. */
  lemma {:induction false} RunRefinesIff(s: Store, r: Reference, events: seq<Event>)
    requires Inv(s, r) && IsRun(s, events)
    ensures RepliesAgree(s, r, events) <==> NoAnomaly(s, r, events)
    decreases |events|
  {
    if events != [] {
      if ReplyTo(s, events[0]).Some? { ReplyIff(s, r, events[0]); }
      StepKeepsInv(s, r, events[0]);
      RunRefinesIff(Step(s, events[0]), RefStep(r, s, events[0]), events[1..]);
    }
  }

  // ---- what a run loses ----

  /** An acknowledged save; `swept` is the clock reading of the sweep that removed the row before it. */
  datatype Write = Write(expected: int, revision: int, payload: Payload, at: Time, swept: Option<Time>)

  function WriteOf(r: Reference, tx: Tx): Write
    requires tx.stage.Inserted?
  {
    Write(tx.expected, tx.stage.row.revision, tx.payload, tx.now,
          if tx.key in r.graves then Some(r.graves[tx.key]) else None)
  }

  function RowOf(w: Write): Row { Row(w.revision, w.payload, w.at + LIFETIME) }

  /** The write directly replaces the row: either it named the row's revision while the row was live by its
      clock, or the row had expired, by its clock or by that of the sweep that removed it, and the count
      starts again. */
  predicate Succeeds(a: Row, b: Write) {
    || (b.expected == a.revision && b.revision == a.revision + 1 && b.at < a.expiresAt)
    || (&& b.expected == 0 && b.revision == 1
        && (b.at >= a.expiresAt || (b.swept.Some? && b.swept.value >= a.expiresAt)))
  }

  predicate Follows(previous: Option<Row>, w: Write) {
    if previous.Some? then Succeeds(previous.value, w) else w.expected == 0 && w.revision == 1
  }

  function Last(r: Reference, key: Key): Option<Row> { if key in r.view then Some(r.view[key]) else None }

  /** What was saved last is in the table, or was removed by a sweep whose clock had passed its expiry. */
  ghost predicate Kept(s: Store, r: Reference) {
    forall k :: k in r.view && k !in s.table ==> k in r.graves && r.graves[k] >= r.view[k].expiresAt
  }

  /** The transaction has removed this row, which is live by its clock. */
  predicate Cuts(s: Store, tx: Tx, k: Key) { k in tx.swept && k in s.table && s.table[k].expiresAt > tx.now }

  predicate Early(s: Store, tx: Tx) { exists k :: k in tx.swept && Cuts(s, tx, k) }

  /** The commit removes a live row, or builds on a row that was not the last. */
  predicate Loses(s: Store, r: Reference, e: Event)
    requires Enabled(s, e)
  {
    e.Commit? && (Early(s, s.txs[e.id]) || (s.txs[e.id].expected > 0 && Misled(s, r, s.txs[e.id])))
  }

  ghost predicate NeverLoses(s: Store, r: Reference, events: seq<Event>)
    requires IsRun(s, events)
    decreases |events|
  {
    events == [] ||
    (!Loses(s, r, events[0]) && NeverLoses(Step(s, events[0]), RefStep(r, s, events[0]), events[1..]))
  }

  /** At every moment what was saved last is kept, and every save follows the one before it. */
  ghost predicate AllKept(s: Store, r: Reference, events: seq<Event>)
    requires IsRun(s, events)
    decreases |events|
  {
    events == [] ||
    (var e := events[0];
     && (e.Commit? ==> Follows(Last(r, s.txs[e.id].key), WriteOf(r, s.txs[e.id])))
     && Kept(Step(s, e), RefStep(r, s, e))
     && AllKept(Step(s, e), RefStep(r, s, e), events[1..]))
  }

  /** The save does not follow the last one: it found the key free, and either it had named a revision that
      is not that of the last save, or the last save was removed before its time. */
  predicate Breaks(s: Store, r: Reference, tx: Tx) {
    && tx.key in r.view && tx.key !in Seen(s, tx)
    && (if tx.expected > 0 then Revision(r.view, tx.key, tx.now) != tx.expected
        else && r.view[tx.key].expiresAt > tx.now
             && (tx.key in r.graves ==> r.graves[tx.key] < r.view[tx.key].expiresAt))
  }

  lemma FollowsIff(s: Store, r: Reference, id: nat)
    requires Inv(s, r) && Enabled(s, Commit(id))
    ensures Follows(Last(r, s.txs[id].key), WriteOf(r, s.txs[id])) <==> !Breaks(s, r, s.txs[id])
  {
    var tx := s.txs[id];
    assert TxOk(s, r, tx);
    WrittenRevision(s, r, tx);
    UpsertedIff(Seen(s, tx), tx.key, tx.expected, tx.payload, tx.now);
  }

  lemma EarlyShows(s: Store, r: Reference, id: nat)
    requires Inv(s, r) && Kept(s, r) && Enabled(s, Commit(id)) && Early(s, s.txs[id])
    requires Follows(Last(r, s.txs[id].key), WriteOf(r, s.txs[id]))
    ensures !Kept(Step(s, Commit(id)), RefStep(r, s, Commit(id)))
  {
    var tx, t, q := s.txs[id], Step(s, Commit(id)), RefStep(r, s, Commit(id));
    assert TxOk(s, r, tx);
    var k :| k in tx.swept && Cuts(s, tx, k);
    FollowsIff(s, r, id);
    assert k != tx.key;
    assert k in q.view && k !in t.table && q.graves[k] == tx.now;
  }

  lemma SweepKeeps(s: Store, r: Reference, id: nat)
    requires Inv(s, r) && Kept(s, r) && Enabled(s, Commit(id)) && !Early(s, s.txs[id])
    ensures Kept(Step(s, Commit(id)), RefStep(r, s, Commit(id)))
  {
    var tx, t, q := s.txs[id], Step(s, Commit(id)), RefStep(r, s, Commit(id));
    assert TxOk(s, r, tx);
    forall k | k in q.view && k !in t.table ensures k in q.graves && q.graves[k] >= q.view[k].expiresAt {
      if k in tx.swept { assert k in s.table && s.table[k] == r.view[k] && !Cuts(s, tx, k); }
    }
  }

  lemma CommitKeepsIff(s: Store, r: Reference, id: nat)
    requires Inv(s, r) && Kept(s, r) && Enabled(s, Commit(id))
    ensures var tx, e := s.txs[id], Commit(id);
            Follows(Last(r, tx.key), WriteOf(r, tx)) && Kept(Step(s, e), RefStep(r, s, e)) <==> !Loses(s, r, e)
  {
    var tx := s.txs[id];
    assert TxOk(s, r, tx);
    FollowsIff(s, r, id);
    if Early(s, tx) {
      if !Breaks(s, r, tx) { EarlyShows(s, r, id); }
    } else {
      SweepKeeps(s, r, id);
    }
  }

  /** In every interleaving and with every clock nothing that was acknowledged is lost exactly when no commit
      removes a row that is live by its clock or builds on a row that was not the last. */
  lemma {:induction false} NothingIsLostIff(s: Store, r: Reference, events: seq<Event>)
    requires Inv(s, r) && Kept(s, r) && IsRun(s, events)
    ensures AllKept(s, r, events) <==> NeverLoses(s, r, events)
    decreases |events|
  {
    if events != [] {
      var e := events[0];
      StepKeepsInv(s, r, e);
      if e.Commit? { CommitKeepsIff(s, r, e.id); }
      if !Loses(s, r, e) { NothingIsLostIff(Step(s, e), RefStep(r, s, e), events[1..]); }
    }
  }

  // ---- the saves of one key ----

  /** The acknowledged saves of one key over a run, in the order of their commits. */
  ghost function Writes(s: Store, r: Reference, events: seq<Event>, key: Key): seq<Write>
    requires IsRun(s, events)
    decreases |events|
  {
    if events == [] then []
    else
      var e := events[0];
      (if e.Commit? && s.txs[e.id].key == key then [WriteOf(r, s.txs[e.id])] else [])
      + Writes(Step(s, e), RefStep(r, s, e), events[1..], key)
  }

  ghost predicate Chain(previous: Option<Row>, ws: seq<Write>)
    decreases |ws|
  {
    ws == [] || (Follows(previous, ws[0]) && Chain(Some(RowOf(ws[0])), ws[1..]))
  }

  ghost predicate NeverBreaks(s: Store, r: Reference, events: seq<Event>, key: Key)
    requires IsRun(s, events)
    decreases |events|
  {
    events == [] ||
    (var e := events[0];
     && (e.Commit? && s.txs[e.id].key == key ==> !Breaks(s, r, s.txs[e.id]))
     && NeverBreaks(Step(s, e), RefStep(r, s, e), events[1..], key))
  }

  lemma CommitIsLast(s: Store, r: Reference, id: nat)
    requires Inv(s, r) && Enabled(s, Commit(id))
    ensures Last(RefStep(r, s, Commit(id)), s.txs[id].key) == Some(RowOf(WriteOf(r, s.txs[id])))
  {
    assert TxOk(s, r, s.txs[id]);
    WrittenRevision(s, r, s.txs[id]);
  }

  /** In every interleaving and with every clock the acknowledged saves of a key form one chain, each naming
      the revision of the save it replaces or following an expired one, exactly when none of them breaks. */
  lemma {:induction false} ChainIff(s: Store, r: Reference, events: seq<Event>, key: Key)
    requires Inv(s, r) && IsRun(s, events)
    ensures Chain(Last(r, key), Writes(s, r, events, key)) <==> NeverBreaks(s, r, events, key)
    decreases |events|
  {
    if events != [] {
      var e := events[0];
      StepKeepsInv(s, r, e);
      var t, q := Step(s, e), RefStep(r, s, e);
      var rest := Writes(t, q, events[1..], key);
      ChainIff(t, q, events[1..], key);
      if e.Commit? && s.txs[e.id].key == key {
        var w := WriteOf(r, s.txs[e.id]);
        FollowsIff(s, r, e.id);
        CommitIsLast(s, r, e.id);
        assert ([w] + rest)[0] == w && ([w] + rest)[1..] == rest;
      } else {
        assert [] + rest == rest;
      }
    }
  }

  lemma {:induction false} LosslessNeverBreaks(s: Store, r: Reference, events: seq<Event>, key: Key)
    requires Inv(s, r) && Kept(s, r) && IsRun(s, events) && NeverLoses(s, r, events)
    ensures NeverBreaks(s, r, events, key)
    decreases |events|
  {
    if events != [] {
      var e := events[0];
      StepKeepsInv(s, r, e);
      if e.Commit? {
        CommitKeepsIff(s, r, e.id);
        FollowsIff(s, r, e.id);
      }
      LosslessNeverBreaks(Step(s, e), RefStep(r, s, e), events[1..], key);
    }
  }

  // ---- the events that lose something ----

  /** The DELETE removes a row that is live by its clock: the row was saved anew after it was chosen. */
  predicate Stale(s: Store, e: Event)
    requires Enabled(s, e)
  {
    e.Remove? && e.key in s.table && s.table[e.key].expiresAt > s.txs[e.id].now
  }

  /** The INSERT finds the row gone that was its source. */
  predicate Stranded(s: Store, e: Event)
    requires Enabled(s, e)
  {
    e.Insert? && s.txs[e.id].expected > 0 && s.txs[e.id].key !in s.table
  }

  ghost predicate NeverStale(s: Store, events: seq<Event>)
    requires IsRun(s, events)
    decreases |events|
  {
    events == [] || (!Stale(s, events[0]) && NeverStale(Step(s, events[0]), events[1..]))
  }

  ghost predicate NeverStranded(s: Store, events: seq<Event>)
    requires IsRun(s, events)
    decreases |events|
  {
    events == [] || (!Stranded(s, events[0]) && NeverStranded(Step(s, events[0]), events[1..]))
  }

  /** No open transaction has removed a live row. */
  ghost predicate NoneEarly(s: Store) { forall id :: id in s.txs ==> !Early(s, s.txs[id]) }

  /** No open transaction has found its source gone. */
  ghost predicate NoneStranded(s: Store) {
    forall id :: id in s.txs && s.txs[id].stage.Inserted? && s.txs[id].expected > 0 ==> s.txs[id].key in s.table
  }

  lemma CutsIff(s: Store, r: Reference, e: Event, id: nat, k: Key)
    requires Inv(s, r) && Enabled(s, e) && id in s.txs && id in Step(s, e).txs
    ensures var t := Step(s, e);
            Cuts(t, t.txs[id], k) <==> Cuts(s, s.txs[id], k) || (Stale(s, e) && e.id == id && e.key == k)
  {
    assert TxOk(s, r, s.txs[id]);
    if e.Commit? { assert Apart(s.txs[e.id], s.txs[id]) && TxOk(s, r, s.txs[e.id]); }
  }

  /** A transaction has removed a live row exactly when one of its removals was stale. */
  lemma EarlyIff(s: Store, r: Reference, e: Event, id: nat)
    requires Inv(s, r) && Enabled(s, e) && id in s.txs && id in Step(s, e).txs
    ensures var t := Step(s, e);
            Early(t, t.txs[id]) <==> Early(s, s.txs[id]) || (Stale(s, e) && e.id == id)
  {
    var t := Step(s, e);
    if Early(t, t.txs[id]) {
      var k :| k in t.txs[id].swept && Cuts(t, t.txs[id], k);
      CutsIff(s, r, e, id, k);
    }
    if Early(s, s.txs[id]) {
      var k :| k in s.txs[id].swept && Cuts(s, s.txs[id], k);
      CutsIff(s, r, e, id, k);
    }
    if Stale(s, e) && e.id == id { CutsIff(s, r, e, id, e.key); }
  }

  lemma StepStaysTimely(s: Store, r: Reference, e: Event)
    requires Inv(s, r) && NoneEarly(s) && Enabled(s, e) && !Stale(s, e)
    ensures NoneEarly(Step(s, e))
  {
    var t := Step(s, e);
    forall id | id in t.txs ensures !Early(t, t.txs[id]) {
      if id in s.txs { EarlyIff(s, r, e, id); }
    }
  }

  lemma StepStaysSourced(s: Store, r: Reference, e: Event)
    requires Inv(s, r) && NoneStranded(s) && Enabled(s, e) && !Stranded(s, e)
    ensures NoneStranded(Step(s, e))
  {
    var t := Step(s, e);
    forall id | id in t.txs && t.txs[id].stage.Inserted? && t.txs[id].expected > 0 ensures t.txs[id].key in t.table {
      assert id in s.txs && TxOk(s, r, s.txs[id]);
      if e.Commit? { assert Apart(s.txs[e.id], s.txs[id]) && TxOk(s, r, s.txs[e.id]); }
    }
  }

  /** Without a stale removal and a stranded INSERT nothing is lost. */
  lemma {:induction false} NoUpdateIsLost(s: Store, r: Reference, events: seq<Event>)
    requires Inv(s, r) && Kept(s, r) && NoneEarly(s) && NoneStranded(s)
    requires IsRun(s, events) && NeverStale(s, events) && NeverStranded(s, events)
    ensures NeverLoses(s, r, events)
    decreases |events|
  {
    if events != [] {
      var e := events[0];
      StepKeepsInv(s, r, e);
      StepStaysTimely(s, r, e);
      StepStaysSourced(s, r, e);
      if e.Commit? {
        assert TxOk(s, r, s.txs[e.id]);
        CommitKeepsIff(s, r, e.id);
      }
      NoUpdateIsLost(Step(s, e), RefStep(r, s, e), events[1..]);
    }
  }

  const EMPTY := Store(map[], map[])
  const UNSAVED := Reference(map[], map[])

  lemma NoUpdateIsLostFromEmpty(events: seq<Event>, key: Key)
    requires IsRun(EMPTY, events) && NeverStale(EMPTY, events) && NeverStranded(EMPTY, events)
    ensures AllKept(EMPTY, UNSAVED, events) && Chain(None, Writes(EMPTY, UNSAVED, events, key))
  {
    NoUpdateIsLost(EMPTY, UNSAVED, events);
    NothingIsLostIff(EMPTY, UNSAVED, events);
    LosslessNeverBreaks(EMPTY, UNSAVED, events, key);
    ChainIff(EMPTY, UNSAVED, events, key);
  }

  // ---- when nothing comes in between ----

  /** Some step of the run commits a save or a sweep of the key. */
  ghost predicate Touches(s: Store, events: seq<Event>, key: Key)
    requires IsRun(s, events)
    decreases |events|
  {
    events != [] &&
    (var e := events[0];
     || (e.Commit? && (s.txs[e.id].key == key || key in s.txs[e.id].swept))
     || Touches(Step(s, e), events[1..], key))
  }

  lemma {:induction false} UntouchedStays(s: Store, events: seq<Event>, key: Key)
    requires IsRun(s, events) && !Touches(s, events, key)
    ensures var t := After(s, events);
            (key in t.table <==> key in s.table) && (key in s.table ==> t.table[key] == s.table[key])
    decreases |events|
  {
    if events != [] { UntouchedStays(Step(s, events[0]), events[1..], key); }
  }

  /** The transaction does nothing but remove rows. */
  ghost predicate OnlyRemoves(events: seq<Event>, id: nat) {
    forall i :: 0 <= i < |events| && !events[i].Get? && events[i].id == id ==> events[i].Remove?
  }

  lemma {:induction false} CallStays(s: Store, events: seq<Event>, id: nat)
    requires IsRun(s, events) && OnlyRemoves(events, id) && id in s.txs
    ensures var t := After(s, events);
            && id in t.txs && t.txs[id].key == s.txs[id].key && t.txs[id].expected == s.txs[id].expected
            && t.txs[id].now == s.txs[id].now && t.txs[id].stage == s.txs[id].stage
            && (!s.txs[id].stage.Sweeping? ==> t.txs[id].swept == s.txs[id].swept)
    decreases |events|
  {
    if events != [] {
      var e := events[0];
      assert e.Get? || e.id != id || e.Remove?;
      assert OnlyRemoves(events[1..], id);
      CallStays(Step(s, e), events[1..], id);
    }
  }

  /** If nothing touches a chosen row before it is removed, then the removal is not stale. */
  lemma UntouchedSweep(s: Store, id: nat, chosen: set<Key>, between: seq<Event>, key: Key)
    requires Enabled(s, Choose(id, chosen)) && key in chosen
    requires var t := Step(s, Choose(id, chosen));
             IsRun(t, between) && OnlyRemoves(between, id) && !Touches(t, between, key)
    ensures var u := After(Step(s, Choose(id, chosen)), between);
            Enabled(u, Remove(id, key)) ==> !Stale(u, Remove(id, key))
  {
    var t := Step(s, Choose(id, chosen));
    CallStays(t, between, id);
    UntouchedStays(t, between, key);
    assert Expired(s.table, key, s.txs[id].key.scope, s.txs[id].now);
  }

  /** If nothing touches the key between the source of an INSERT and its write, then it is not stranded. */
  lemma UntouchedInsert(s: Store, id: nat, between: seq<Event>)
    requires Enabled(s, Source(id)) && Sources(s, s.txs[id])
    requires var t := Step(s, Source(id));
             IsRun(t, between) && OnlyRemoves(between, id) && !Touches(t, between, s.txs[id].key)
    ensures var u := After(Step(s, Source(id)), between); Enabled(u, Insert(id)) ==> !Stranded(u, Insert(id))
  {
    var t := Step(s, Source(id));
    CallStays(t, between, id);
    UntouchedStays(t, between, s.txs[id].key);
  }

  /** If nothing touches the key between a refusal and its SELECT, then the conflict reply is not overtaken
      and reports the revision that was refused. */
  lemma UntouchedConflict(s: Store, r: Reference, e: Event, between: seq<Event>)
    requires Inv(s, r) && (e.Source? || e.Insert?) && Enabled(s, e) && IsAt(Step(s, e), e.id, Refused)
    requires var t := Step(s, e);
             IsRun(t, between) && OnlyRemoves(between, e.id) && !Touches(t, between, s.txs[e.id].key)
    ensures var tx, u := s.txs[e.id], After(Step(s, e), between);
            && Enabled(u, Select(e.id)) && !Overtaken(u, Select(e.id))
            && ReplyTo(u, Select(e.id)) == Some(Conflict(Revision(Seen(s, tx), tx.key, tx.now)))
  {
    var tx, t := s.txs[e.id], Step(s, e);
    CallStays(t, between, e.id);
    UntouchedStays(t, between, tx.key);
    assert TxOk(s, r, tx);
    UpsertedIff(Seen(s, tx), tx.key, tx.expected, tx.payload, tx.now);
  }

  // ---- clocks in order ----

  /** Every call's clock is at or after that of the latest save committed before. */
  ghost predicate InClockOrder(s: Store, latest: Time, events: seq<Event>)
    requires IsRun(s, events)
    decreases |events|
  {
    events == [] ||
    (var e := events[0];
     && Subject(s, e).1 >= latest
     && InClockOrder(Step(s, e), if e.Commit? then s.txs[e.id].now else latest, events[1..]))
  }

  ghost predicate Dated(r: Reference, latest: Time) {
    && (forall k :: k in r.view ==> r.view[k].expiresAt <= latest + LIFETIME)
    && (forall k :: k in r.graves ==> r.graves[k] <= latest)
  }

  /** The last save of a key whose row was a source is live by the clock that read it. */
  predicate SourceLives(r: Reference, tx: Tx) {
    (tx.stage.Sourced? || tx.stage.Inserted?) && tx.expected > 0 ==>
      tx.key in r.view && r.view[tx.key].expiresAt > tx.now
  }

  ghost predicate Ordered(s: Store, r: Reference, latest: Time) {
    && Kept(s, r) && NoneEarly(s) && Dated(r, latest)
    && forall id :: id in s.txs ==> SourceLives(r, s.txs[id])
  }

  lemma CommitStaysOrdered(s: Store, r: Reference, id: nat, latest: Time)
    requires Inv(s, r) && Ordered(s, r, latest) && Enabled(s, Commit(id)) && s.txs[id].now >= latest
    ensures Ordered(Step(s, Commit(id)), RefStep(r, s, Commit(id)), s.txs[id].now)
  {
    var tx, t, q := s.txs[id], Step(s, Commit(id)), RefStep(r, s, Commit(id));
    assert TxOk(s, r, tx);
    StepStaysTimely(s, r, Commit(id));
    SweepKeeps(s, r, id);
    WrittenRevision(s, r, tx);
    forall i | i in t.txs ensures SourceLives(q, t.txs[i]) { assert SourceLives(r, s.txs[i]); }
  }

  lemma StepStaysOrdered(s: Store, r: Reference, e: Event, latest: Time)
    requires Inv(s, r) && Ordered(s, r, latest) && Enabled(s, e) && Subject(s, e).1 >= latest && !Stale(s, e)
    ensures Ordered(Step(s, e), RefStep(r, s, e), if e.Commit? then s.txs[e.id].now else latest)
  {
    if e.Commit? {
      CommitStaysOrdered(s, r, e.id, latest);
    } else {
      var t := Step(s, e);
      StepStaysTimely(s, r, e);
      forall i | i in t.txs ensures SourceLives(r, t.txs[i]) {
        if i in s.txs { assert SourceLives(r, s.txs[i]) && TxOk(s, r, s.txs[i]); }
      }
    }
  }

  /** Nothing is hidden from a call whose clock is in order. */
  lemma OrderedShows(s: Store, r: Reference, latest: Time, rows: Table, key: Key, now: Time)
    requires TableOk(s, r) && Kept(s, r) && Dated(r, latest) && now >= latest
    requires key in s.table && key !in rows ==> s.table[key].expiresAt <= now
    ensures !Hidden(rows, r, key, now)
    ensures key in r.view && r.view[key].expiresAt > now ==> key in s.table
  {
  }

  lemma OrderedIff(s: Store, r: Reference, e: Event, latest: Time)
    requires Inv(s, r) && Ordered(s, r, latest) && Enabled(s, e) && Subject(s, e).1 >= latest
    ensures Anomalous(s, r, e) <==> Overtaken(s, e)
  {
    if e.Get? {
      OrderedShows(s, r, latest, s.table, e.key, e.now);
    } else if e.Select? || e.Insert? || e.Commit? {
      var tx := s.txs[e.id];
      assert TxOk(s, r, tx) && !Early(s, tx) && !Cuts(s, tx, tx.key) && SourceLives(r, tx);
      OrderedShows(s, r, latest, Seen(s, tx), tx.key, tx.now);
    }
  }

  ghost predicate NeverOvertaken(s: Store, events: seq<Event>)
    requires IsRun(s, events)
    decreases |events|
  {
    events == [] || (!Overtaken(s, events[0]) && NeverOvertaken(Step(s, events[0]), events[1..]))
  }

  /** With clocks in order and no stale removal only an overtaken conflict can differ. */
  lemma {:induction false} RunRefinesInClockOrder(s: Store, r: Reference, latest: Time, events: seq<Event>)
    requires Inv(s, r) && Ordered(s, r, latest)
    requires IsRun(s, events) && InClockOrder(s, latest, events) && NeverStale(s, events)
    ensures NoAnomaly(s, r, events) <==> NeverOvertaken(s, events)
    decreases |events|
  {
    if events != [] {
      var e := events[0];
      OrderedIff(s, r, e, latest);
      StepKeepsInv(s, r, e);
      StepStaysOrdered(s, r, e, latest);
      RunRefinesInClockOrder(Step(s, e), RefStep(r, s, e), if e.Commit? then s.txs[e.id].now else latest, events[1..]);
    }
  }

  // ---- saves in turn ----

  /** A save begins only when no other is in progress. */
  ghost predicate InTurn(s: Store, events: seq<Event>)
    requires IsRun(s, events)
    decreases |events|
  {
    events == [] || ((events[0].Begin? ==> s.txs == map[]) && InTurn(Step(s, events[0]), events[1..]))
  }

  /** What the transaction read is what it would read now. */
  predicate Current(s: Store, tx: Tx) {
    && (forall k :: k in tx.chosen ==> k in s.table && s.table[k].expiresAt <= tx.now)
    && (tx.stage.Refused? ==> Revision(Seen(s, tx), tx.key, tx.now) != tx.expected)
  }

  ghost predicate Alone(s: Store) {
    && (forall i, j :: i in s.txs && j in s.txs ==> i == j)
    && (forall id :: id in s.txs ==> Current(s, s.txs[id]))
  }

  lemma StepStaysAlone(s: Store, r: Reference, e: Event)
    requires Inv(s, r) && Alone(s) && Enabled(s, e) && (e.Begin? ==> s.txs == map[])
    ensures Alone(Step(s, e)) && !Stale(s, e) && !Overtaken(s, e)
  {
    var t := Step(s, e);
    if !e.Get? && e.id in s.txs {
      var tx := s.txs[e.id];
      assert TxOk(s, r, tx) && Current(s, tx);
      UpsertedIff(Seen(s, tx), tx.key, tx.expected, tx.payload, tx.now);
      forall i | i in t.txs ensures i == e.id && Current(t, t.txs[i]) { }
    }
  }

  lemma {:induction false} InTurnIsClean(s: Store, r: Reference, events: seq<Event>)
    requires Inv(s, r) && Alone(s) && IsRun(s, events) && InTurn(s, events)
    ensures NeverStale(s, events) && NeverOvertaken(s, events)
    decreases |events|
  {
    if events != [] {
      StepStaysAlone(s, r, events[0]);
      StepKeepsInv(s, r, events[0]);
      InTurnIsClean(Step(s, events[0]), RefStep(r, s, events[0]), events[1..]);
    }
  }

  /** With saves one after the other and clocks in order every reply is that of compare-and-set. */
  lemma SavesInTurnRefine(events: seq<Event>, start: Time)
    requires IsRun(EMPTY, events) && InTurn(EMPTY, events) && InClockOrder(EMPTY, start, events)
    ensures RepliesAgree(EMPTY, UNSAVED, events)
  {
    InTurnIsClean(EMPTY, UNSAVED, events);
    RunRefinesInClockOrder(EMPTY, UNSAVED, start, events);
    RunRefinesIff(EMPTY, UNSAVED, events);
  }

  // ---- the statements as they run ----

  class DraftStore {
    var table: Table
    var txs: map<nat, Tx>

    ghost function Value(): Store
      reads this
    {
      Store(table, txs)
    }

    constructor ()
      ensures Value() == EMPTY
    {
      table, txs := map[], map[];
    }

    method BeginSave(id: nat, key: Key, expected: int, payload: Payload, now: Time) returns (reply: Option<Reply>)
      requires Enabled(Value(), Begin(id, key, expected, payload, now))
      modifies this
      ensures Value() == Step(old(Value()), Begin(id, key, expected, payload, now))
      ensures reply == ReplyTo(old(Value()), Begin(id, key, expected, payload, now))
    {
      if expected < 0 { return Some(Invalid); }
      txs := txs[id := Tx(key, expected, payload, now, Begun, {}, {}, {})];
      return None;
    }

    /** The sub-SELECT of the DELETE. */
    method ChooseExpired(id: nat, chosen: set<Key>)
      requires Enabled(Value(), Choose(id, chosen))
      modifies this
      ensures Value() == Step(old(Value()), Choose(id, chosen))
    {
      txs := txs[id := txs[id].(stage := Sweeping, chosen := chosen)];
    }

    /** The DELETE comes to a chosen row that is free. */
    method RemoveChosen(id: nat, key: Key)
      requires Enabled(Value(), Remove(id, key))
      modifies this
      ensures Value() == Step(old(Value()), Remove(id, key))
    {
      var tx := txs[id];
      txs := txs[id := tx.(chosen := tx.chosen - {key}, swept := tx.swept + {key}, locks := tx.locks + {key})];
    }

    /** The row source of the INSERT. */
    method ReadSource(id: nat)
      requires Enabled(Value(), Source(id))
      modifies this
      ensures Value() == Step(old(Value()), Source(id))
    {
      var tx := txs[id];
      var rows, stage := table - tx.swept, Refused;
      if || tx.expected == 0
         || (tx.key in rows && rows[tx.key].revision == tx.expected && rows[tx.key].expiresAt > tx.now) {
        stage := Sourced;
      }
      txs := txs[id := tx.(stage := stage)];
    }

    /** The write of the INSERT with its conflict clause and its RETURNING. */
    method InsertDraft(id: nat) returns (reply: Option<Reply>)
      requires Enabled(Value(), Insert(id))
      modifies this
      ensures Value() == Step(old(Value()), Insert(id))
      ensures reply == ReplyTo(old(Value()), Insert(id))
    {
      var tx := txs[id].(locks := txs[id].locks + {txs[id].key});
      var rows, revision, write := table - tx.swept, tx.expected + 1, true;
      if tx.key in rows {
        var row := rows[tx.key];
        revision := if row.expiresAt <= tx.now then 1 else row.revision + 1;
        write := (tx.expected == 0 && row.expiresAt <= tx.now)
                 || (tx.expected > 0 && row.revision == tx.expected && row.expiresAt > tx.now);
      }
      if write && revision > MAX_REVISION {
        txs := txs - {id};
        return Some(StorageFailure);
      }
      var stage := if write then Inserted(Row(revision, tx.payload, tx.now + LIFETIME)) else Refused;
      txs := txs[id := tx.(stage := stage)];
      return None;
    }

    method SelectRevision(id: nat) returns (reply: Reply)
      requires Enabled(Value(), Select(id))
      modifies this
      ensures Value() == Step(old(Value()), Select(id))
      ensures Some(reply) == ReplyTo(old(Value()), Select(id))
    {
      var tx := txs[id];
      var rows, current := table - tx.swept, 0;
      if tx.key in rows && rows[tx.key].expiresAt > tx.now { current := rows[tx.key].revision; }
      txs := txs - {id};
      return Conflict(current);
    }

    method CommitSave(id: nat) returns (reply: Reply)
      requires Enabled(Value(), Commit(id))
      modifies this
      ensures Value() == Step(old(Value()), Commit(id))
      ensures Some(reply) == ReplyTo(old(Value()), Commit(id))
    {
      var tx := txs[id];
      table := (table - tx.swept)[tx.key := tx.stage.row];
      txs := Passed(txs - {id}, tx.swept);
      return Saved(tx.stage.row.revision);
    }

    method GetDraft(key: Key, now: Time) returns (reply: Reply)
      ensures Some(reply) == ReplyTo(Value(), Get(key, now))
    {
      reply := Found(0, "{}");
      if key in table && table[key].expiresAt > now {
        reply := Found(table[key].revision, table[key].payload);
      }
    }
  }
}
