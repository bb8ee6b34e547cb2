/** One session, its snapshots on the way to the store, and the shared table.
    A snapshot once taken may be lost, delivered late, in any order and any number of times;
    other owners may reserve, sweep and update rows of the same table at any moment. A write takes effect
    when its transaction commits; the SELECT behind an UPDATE of no row sees a later table. */
module TrackingProtocol {
  import opened Wrappers
  import opened TrackingSession
  import opened TrackingStore

  datatype System = System(
    scope: string,
    session: Session,
    taken: set<Record>,      // snapshots handed to the flusher
    landed: seq<Record>,     // snapshots whose UPDATE ran and was not rolled back, within retention
    table: Table)

  datatype Event =
    | Local(call: Call)
    | Deliver(snapshot: Record, now: Time, commit: Commit)
    | OtherUpdate(key: Key, record: Record, now: Time, commit: Commit)
    | OtherReserve(scope: string, record: Record, now: Time, swept: set<Key>, commit: Commit)

  function OwnKey(s: System): Key { Key(s.scope, s.session.record.identity.id) }

  /** The row of this session, while the table still holds one. */
  predicate Holds(s: System) {
    OwnKey(s) in s.table && s.table[OwnKey(s)].identity.owner == s.session.record.identity.owner
  }

  /** What the callers in the gateway pass: the two retry reasons, a known error code, and
      `confirmed` exactly when the status is not `unconfirmed`. */
  predicate Documented(c: Call) {
    match c
    case Wait(reason, _, _, _) => reason.ProviderThrottled? || reason.RetryBackoff?
    case Finish(status, code, confirmed, _) =>
      confirmed == !status.Unconfirmed? && (code != "" ==> code in ERROR_CODES)
    case Attempt(n, _) => n <= MAX_INTEGER
    case Progress(_, attempts, _, _, _) => attempts <= MAX_INTEGER
    case _ => true
  }

  /** An event that can happen: only taken snapshots are delivered, nonces are not shared. */
  ghost predicate Enabled(s: System, e: Event) {
    match e
    case Local(call) => Documented(call)
    case Deliver(snapshot, _, _) => snapshot in s.taken
    case OtherUpdate(key, record, _, _) =>
      record.identity.owner != s.session.record.identity.owner && key.id == record.identity.id
    case OtherReserve(scope, record, now, swept, _) =>
      record.identity.owner != s.session.record.identity.owner && Sweep(s.table, scope, now, swept)
  }

  function Apply(s: System, e: Event): System {
    match e
    case Local(call) =>
      var next := Step(s.session, call);
      s.(session := next, taken := if call.Snapshot? then s.taken + {next.record} else s.taken)
    case Deliver(snapshot, now, commit) =>
      var within := !commit.RolledBack? && Live(s.table, OwnKey(s), now);
      s.(table := UpdatedTable(s.table, Key(s.scope, snapshot.identity.id), snapshot, now, commit),
         landed := if within then s.landed + [snapshot] else s.landed)
    case OtherUpdate(key, record, now, commit) =>
      s.(table := UpdatedTable(s.table, key, record, now, commit))
    case OtherReserve(scope, record, now, swept, commit) =>
      s.(table := ReservedTable(s.table, scope, record, now, swept, commit))
  }

  /** Every state a run of enabled events visits. */
  ghost predicate IsRun(s: System, events: seq<Event>)
    decreases |events|
  {
    events == [] || (Enabled(s, events[0]) && IsRun(Apply(s, events[0]), events[1..]))
  }

  ghost function After(s: System, events: seq<Event>): System
    decreases |events|
  {
    if events == [] then s else After(Apply(s, events[0]), events[1..])
  }

  /** A system whose reservation has just been acknowledged. */
  ghost predicate Initial(s: System) {
    && s.session == NewSession(NewRecord(s.session.record.identity))
    && s.taken == {} && s.landed == []
    && OwnKey(s) in s.table && s.table[OwnKey(s)] == ReservedRow(s.session.record)
  }

  /** The record of greatest revision among the reserved one and those that landed. */
  function Latest(reserved: Record, landed: seq<Record>): Record {
    if landed == [] then reserved
    else
      var best := Latest(reserved, landed[..|landed| - 1]);
      if landed[|landed| - 1].revision > best.revision then landed[|landed| - 1] else best
  }

  lemma {:induction false} LatestIsGreatest(reserved: Record, landed: seq<Record>)
    ensures Latest(reserved, landed) == reserved || Latest(reserved, landed) in landed
    ensures Latest(reserved, landed).revision >= reserved.revision
    ensures forall r :: r in landed ==> r.revision <= Latest(reserved, landed).revision
  {
    if landed != [] {
      var front := landed[..|landed| - 1];
      LatestIsGreatest(reserved, front);
      assert landed == front + [landed[|landed| - 1]];
    }
  }

  // ---- the invariant ----

  /** A record the session was in at some moment, all of whose columns pass the checks. */
  ghost predicate Past(s: System, r: Record) {
    Later(r, s.session.record) && Checked(r)
  }

  ghost predicate Checked(r: Record) {
    Coherent(r) && RowChecks(Stored(r))
  }

  ghost predicate SameRevisionSameRecord(a: Record, b: Record) {
    a.revision == b.revision ==> a == b
  }

  ghost predicate Inv(s: System) {
    var reserved := NewRecord(s.session.record.identity);
    var known := s.taken + {reserved};
    && Checked(s.session.record)
    && (forall r :: r in known ==> Past(s, r))
    && (forall a, b :: a in known && b in known ==> SameRevisionSameRecord(a, b))
    && (forall r :: r in s.landed ==> r in s.taken)
    && (Holds(s) ==> s.table[OwnKey(s)] == Stored(Latest(reserved, s.landed)))
  }

  lemma StoredKeepsOrder(a: Time, b: Time)
    ensures a <= b ==> Micros(a) <= Micros(b)
  {
  }

  lemma StepKeepsChecked(s: Session, c: Call)
    requires Checked(s.record) && Documented(c)
    ensures Checked(Step(s, c).record)
  {
    StepKeepsCoherent(s, c);
    var r := Step(s, c).record;
    StoredKeepsOrder(r.identity.createdAt, r.updatedAt);
    StoredKeepsOrder(r.identity.createdAt, r.heartbeatAt);
    if r.progressAt.Some? { StoredKeepsOrder(r.identity.createdAt, r.progressAt.value); }
    if r.finishedAt.Some? { StoredKeepsOrder(r.identity.createdAt, r.finishedAt.value); }
  }

  lemma InitialInv(s: System)
    requires Initial(s)
    ensures Inv(s)
  {
  }

  lemma LocalKeepsInv(s: System, call: Call)
    requires Inv(s) && Documented(call)
    ensures Inv(Apply(s, Local(call)))
  {
    StepKeepsChecked(s.session, call);
    StepKeepsCoherent(s.session, call);
    var s' := Apply(s, Local(call));
    var reserved := NewRecord(s.session.record.identity);
    forall r | r in s.taken + {reserved} ensures Past(s', r) {
      assert Past(s, r);
      LaterTransitive(r, s.session.record, s'.session.record);
    }
    forall a, b | a in s'.taken + {reserved} && b in s'.taken + {reserved} ensures SameRevisionSameRecord(a, b) {
      if a in s.taken + {reserved} && b in s.taken + {reserved} {
      } else {
        assert a == s'.session.record || Past(s', a);
        assert b == s'.session.record || Past(s', b);
      }
    }
  }

  lemma LatestKnown(s: System)
    requires Inv(s)
    ensures var reserved := NewRecord(s.session.record.identity);
            Latest(reserved, s.landed) in s.taken + {reserved}
  {
    LatestIsGreatest(NewRecord(s.session.record.identity), s.landed);
  }

  lemma DeliverKeepsInv(s: System, e: Event)
    requires Inv(s) && e.Deliver? && Enabled(s, e)
    ensures Inv(Apply(s, e))
  {
    var s' := Apply(s, e);
    var r := e.snapshot;
    var reserved := NewRecord(s.session.record.identity);
    assert Past(s, r);
    assert Key(s.scope, r.identity.id) == OwnKey(s);
    if Holds(s') {
      assert Holds(s);
      LatestKnown(s);
      var best := Latest(reserved, s.landed);
      assert Past(s, best);
      var row := s.table[OwnKey(s)];
      if !e.commit.RolledBack? && Live(s.table, OwnKey(s), e.now) {
        assert (s.landed + [r])[..|s.landed|] == s.landed;
        assert Latest(reserved, s.landed + [r]) == if r.revision > best.revision then r else best;
        assert Written(row, r) == Stored(r);
        if r.revision > best.revision {
          // a finished record is the last of its session, so the terminal fence is open
          assert best.finishedAt.None?;
        }
      }
    }
  }

  lemma OtherKeepsInv(s: System, e: Event)
    requires Inv(s) && (e.OtherUpdate? || e.OtherReserve?) && Enabled(s, e)
    ensures Inv(Apply(s, e))
    ensures Holds(Apply(s, e)) ==> Holds(s) && Apply(s, e).table[OwnKey(s)] == s.table[OwnKey(s)]
  {
  }

  lemma ApplyKeepsInv(s: System, e: Event)
    requires Inv(s) && Enabled(s, e)
    ensures Inv(Apply(s, e))
    ensures Apply(s, e).session.record.identity == s.session.record.identity && Apply(s, e).scope == s.scope
  {
    match e
    case Local(call) =>
      LocalKeepsInv(s, call);
      StepKeepsCoherent(s.session, call);
    case Deliver(_, _, _) => DeliverKeepsInv(s, e);
    case _ => OtherKeepsInv(s, e);
  }

  lemma {:induction false} RunKeepsInv(s: System, events: seq<Event>)
    requires Inv(s) && IsRun(s, events)
    ensures Inv(After(s, events))
    ensures After(s, events).session.record.identity == s.session.record.identity
    decreases |events|
  {
    if events != [] {
      ApplyKeepsInv(s, events[0]);
      RunKeepsInv(Apply(s, events[0]), events[1..]);
    }
  }

  // ---- the theorems ----

  /** In every run, the row of the session is the stored form of the delivered snapshot with
      the greatest revision, or the reserved row when none was delivered within retention. */
  lemma RowIsLatestSnapshot(s: System, events: seq<Event>)
    requires Initial(s) && IsRun(s, events)
    ensures var now := After(s, events);
            Holds(now) ==> now.table[OwnKey(now)] == Stored(Latest(NewRecord(s.session.record.identity), now.landed))
  {
    InitialInv(s);
    RunKeepsInv(s, events);
  }

  /** The row the session compares itself with is never another record at the same revision. */
  lemma RowMatches(s: System, snapshot: Record)
    requires Inv(s) && snapshot in s.taken && Holds(s) && s.table[OwnKey(s)].revision == snapshot.revision
    ensures SameSnapshot(s.table[OwnKey(s)], snapshot)
  {
    LatestKnown(s);
    var best := Latest(NewRecord(s.session.record.identity), s.landed);
    assert SameRevisionSameRecord(best, snapshot);
    MicrosIdempotent(snapshot);
  }

  /** The key of a delivered snapshot is the session's own. */
  lemma OwnSnapshot(s: System, snapshot: Record)
    requires Inv(s) && snapshot in s.taken
    ensures Key(s.scope, snapshot.identity.id) == OwnKey(s)
    ensures snapshot.identity.owner == s.session.record.identity.owner
  {
    assert Past(s, snapshot);
  }

  lemma {:induction false} TakenStays(s: System, events: seq<Event>)
    requires Inv(s) && IsRun(s, events)
    ensures Inv(After(s, events)) && s.taken <= After(s, events).taken && OwnKey(After(s, events)) == OwnKey(s)
    decreases |events|
  {
    if events != [] {
      ApplyKeepsInv(s, events[0]);
      TakenStays(Apply(s, events[0]), events[1..]);
    }
  }

  function RowRevision(s: System): int
    requires Holds(s)
  {
    s.table[OwnKey(s)].revision
  }

  /** While the table holds the row, its revision never falls. */
  lemma {:induction false} RevisionGrows(s: System, events: seq<Event>)
    requires Inv(s) && IsRun(s, events) && Holds(After(s, events))
    ensures Holds(s) && RowRevision(After(s, events)) >= RowRevision(s)
    decreases |events|
  {
    TakenStays(s, events);
    if events != [] {
      var e, next := events[0], Apply(s, events[0]);
      ApplyKeepsInv(s, e);
      RevisionGrows(next, events[1..]);
      if e.OtherUpdate? || e.OtherReserve? { OtherKeepsInv(s, e); }
      if e.Deliver? { OwnSnapshot(s, e.snapshot); }
    }
  }

  /** In every run, whatever happens between the UPDATE and the SELECT of a delivery: if it is acknowledged,
      then the row it was decided on is at this snapshot or a newer one of the same session, and the
      branch that rejects a mismatch at equal revision is dead. */
  lemma AcknowledgedDeliveryIsCovered(s: System, events: seq<Event>, snapshot: Record, now: Time, readAt: Time,
                                      commit: Commit, between: seq<Event>)
    requires Initial(s) && IsRun(s, events) && snapshot in After(s, events).taken
    requires IsRun(Apply(After(s, events), Deliver(snapshot, now, commit)), between)
    ensures var before := After(s, events);
            var written := Apply(before, Deliver(snapshot, now, commit));
            var later := After(written, between);
            var key := OwnKey(before);
            && (Holds(later) && RowRevision(later) == snapshot.revision ==>
                  SameSnapshot(later.table[OwnKey(later)], snapshot))
            && (UpdateAck(before.table, later.table, key, snapshot, now, readAt, commit).Acknowledged? ==>
                  var decided := if Fenced(before.table, key, snapshot, now) then written else later;
                  Holds(decided) && RowRevision(decided) >= snapshot.revision)
  {
    InitialInv(s);
    RunKeepsInv(s, events);
    var before := After(s, events);
    var written := Apply(before, Deliver(snapshot, now, commit));
    ApplyKeepsInv(before, Deliver(snapshot, now, commit));
    TakenStays(written, between);
    var later := After(written, between);
    OwnSnapshot(before, snapshot);
    OwnSnapshot(later, snapshot);
    if Holds(later) && RowRevision(later) == snapshot.revision { RowMatches(later, snapshot); }
    if UpdateAck(before.table, later.table, OwnKey(before), snapshot, now, readAt, commit).Acknowledged? {
      AcknowledgedUpdateIsStored(before.table, later.table, OwnKey(before), snapshot, now, readAt, commit);
    }
  }

  /** Within retention, a committed delivery of any snapshot ever taken is acknowledged while the table
      still holds the row, whatever happens between its statements: stale and duplicate snapshots are
      covered, newer ones are written. */
  lemma DeliveryWithinRetentionIsAcknowledged(s: System, events: seq<Event>, snapshot: Record, now: Time, readAt: Time,
                                              between: seq<Event>)
    requires Initial(s) && IsRun(s, events) && snapshot in After(s, events).taken
    requires IsRun(Apply(After(s, events), Deliver(snapshot, now, Committed)), between)
    requires var later := After(Apply(After(s, events), Deliver(snapshot, now, Committed)), between);
             && Holds(later) && Live(After(s, events).table, OwnKey(later), now)
             && Live(later.table, OwnKey(later), readAt)
    ensures var before := After(s, events);
            var later := After(Apply(before, Deliver(snapshot, now, Committed)), between);
            UpdateAck(before.table, later.table, OwnKey(before), snapshot, now, readAt, Committed).Acknowledged?
  {
    InitialInv(s);
    RunKeepsInv(s, events);
    var before := After(s, events);
    var e := Deliver(snapshot, now, Committed);
    var written := Apply(before, e);
    ApplyKeepsInv(before, e);
    RevisionGrows(written, between);
    TakenStays(written, between);
    var later := After(written, between);
    OwnSnapshot(before, snapshot);
    assert Holds(written);
    RowAfterDelivery(before, snapshot, now);
    CoveredIsAcknowledged(before.table, later, snapshot, now, readAt);
  }

  lemma CoveredIsAcknowledged(table: Table, later: System, snapshot: Record, now: Time, readAt: Time)
    requires Inv(later) && snapshot in later.taken && Holds(later) && Live(later.table, OwnKey(later), readAt)
    requires RowRevision(later) >= snapshot.revision
    requires Fenced(table, OwnKey(later), snapshot, now) ==> RowChecks(Written(table[OwnKey(later)], snapshot))
    ensures UpdateAck(table, later.table, OwnKey(later), snapshot, now, readAt, Committed).Acknowledged?
  {
    OwnSnapshot(later, snapshot);
    if RowRevision(later) == snapshot.revision { RowMatches(later, snapshot); }
  }

  /** A committed delivery within retention leaves the row at its revision or a newer one, and when it writes,
      the row passes the checks. */
  lemma RowAfterDelivery(s: System, snapshot: Record, now: Time)
    requires Inv(s) && snapshot in s.taken && Live(s.table, OwnKey(s), now)
    requires Holds(Apply(s, Deliver(snapshot, now, Committed)))
    ensures Holds(s)
    ensures RowRevision(Apply(s, Deliver(snapshot, now, Committed))) >= snapshot.revision
    ensures Fenced(s.table, OwnKey(s), snapshot, now) ==> RowChecks(Written(s.table[OwnKey(s)], snapshot))
  {
    OwnSnapshot(s, snapshot);
    assert Past(s, snapshot);
    LatestKnown(s);
    var best := Latest(NewRecord(s.session.record.identity), s.landed);
    assert Past(s, best);
    var row := s.table[OwnKey(s)];
    assert Written(row, snapshot) == Stored(snapshot);
    if row.revision < snapshot.revision {
      // a finished record is the last of its session, so the terminal fence is open
      assert best.finishedAt.None?;
    }
  }

  /** Once the row is terminal it stays byte for byte the same for the rest of the run,
      until the table no longer holds it. */
  lemma {:induction false} TerminalRowNeverReplaced(s: System, events: seq<Event>)
    requires Inv(s) && IsRun(s, events)
    requires Holds(s) && s.table[OwnKey(s)].finishedAt.Some?
    ensures var now := After(s, events);
            Holds(now) ==> now.table[OwnKey(now)] == s.table[OwnKey(s)]
    decreases |events|
  {
    if events != [] {
      var next := Apply(s, events[0]);
      ApplyKeepsInv(s, events[0]);
      if Holds(next) {
        if events[0].OtherUpdate? || events[0].OtherReserve? { OtherKeepsInv(s, events[0]); }
        TerminalRowNeverReplaced(next, events[1..]);
      } else {
        LostRowStaysLost(next, events[1..]);
      }
    }
  }

  /** A swept row never comes back under the same owner. */
  lemma {:induction false} LostRowStaysLost(s: System, events: seq<Event>)
    requires Inv(s) && IsRun(s, events) && !Holds(s)
    ensures !Holds(After(s, events))
    decreases |events|
  {
    if events != [] {
      ApplyKeepsInv(s, events[0]);
      if events[0].Deliver? { assert Past(s, events[0].snapshot); }
      LostRowStaysLost(Apply(s, events[0]), events[1..]);
    }
  }
}
