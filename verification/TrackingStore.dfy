/** The durable row of a tracked request: what each statement reads and writes, and what a caller is
    told. */
module TrackingStore {
  import opened Wrappers
  import opened TrackingSession

  datatype Key = Key(scope: string, id: string)

  type Table = map<Key, Record>

  datatype TrackingError = Conflict | NotFound | Unavailable

  /** How a transaction ended: acknowledged, aborted, or committed with the acknowledgement lost. */
  datatype Commit = Committed | RolledBack | AckLost

  datatype Acknowledgement = Acknowledged | Refused(error: TrackingError)

  // ---- one row ----

  /** Timestamps are stored at microsecond precision. */
  function Micros(t: Time): Time { t / 1000 * 1000 }

  function MicrosOption(t: Option<Time>): Option<Time> {
    if t.Some? then Some(Micros(t.value)) else None
  }

  function StoredIdentity(i: Identity): Identity {
    i.(createdAt := Micros(i.createdAt), deadlineAt := Micros(i.deadlineAt),
       retentionExpiresAt := Micros(i.retentionExpiresAt))
  }

  function Stored(r: Record): Record {
    r.(identity := StoredIdentity(r.identity),
       updatedAt := Micros(r.updatedAt), heartbeatAt := Micros(r.heartbeatAt),
       progressAt := MicrosOption(r.progressAt), finishedAt := MicrosOption(r.finishedAt),
       nextAttemptAt := MicrosOption(r.nextAttemptAt))
  }

  /** Repeated acknowledgements compare stored fields only. */
  predicate SameSnapshot(a: Record, b: Record) { Stored(a) == Stored(b) }

  const ERROR_CODES: set<string> := {
    "invalid_request", "upstream_error", "request_timeout", "request_canceled",
    "response_projection_error", "execution_unobserved", "execution_failed"}

  const MAX_INTEGER := 0x7fff_ffff

  /** The CHECK constraints of the table, apart from those on the identity columns. */
  predicate RowChecks(r: Record) {
    && (r.status.Running? || r.status.Waiting? || Terminal(r.status))
    && (r.stage.Some? ==> !r.stage.value.OtherStage?)
    && (r.reason.Some? ==> !r.reason.value.OtherReason?)
    && r.updatedAt >= r.identity.createdAt && r.heartbeatAt >= r.identity.createdAt
    && (r.progressAt.Some? ==> r.progressAt.value >= r.identity.createdAt)
    && (r.finishedAt.Some? ==> r.finishedAt.value >= r.identity.createdAt)
    && (r.errorCode.Some? ==> r.errorCode.value in ERROR_CODES)
    && 0 <= r.attemptsUsed <= MAX_INTEGER && r.revision > 0
    && (|| ((r.status.Running? || r.status.Waiting?) && r.finishedAt.None? && r.outcomeConfirmed.None?)
        || (Terminal(r.status) && r.finishedAt.Some? && r.outcomeConfirmed.Some?))
    && (|| (&& r.status.Waiting?
            && (|| (&& r.stage == Some(RetryWait) && r.nextAttemptAt.Some?
                    && (r.reason == Some(ProviderThrottled) || r.reason == Some(RetryBackoff)))
                || (r.stage == Some(AdmissionWait) && r.reason.Some? && KnownGate(r.reason.value))))
        || (!r.status.Waiting? && r.nextAttemptAt.None? && r.reason.None?))
    && (|| (r.status.Unconfirmed? && r.outcomeConfirmed == Some(false))
        || ((r.status.Completed? || r.status.Failed? || r.status.Cancelled?) && r.outcomeConfirmed == Some(true))
        || r.status.Running? || r.status.Waiting?)
  }

  const DAY: int := 86_400_000_000_000

  predicate IdentityChecks(i: Identity) {
    i.deadlineAt > i.createdAt && i.retentionExpiresAt == i.deadlineAt + DAY
  }

  // ---- statements ----

  predicate Live(table: Table, key: Key, now: Time) {
    key in table && table[key].identity.retentionExpiresAt > now
  }

  /** The row the UPDATE statement would write. */
  function Written(row: Record, r: Record): Record { Stored(r).(identity := row.identity) }

  /** The WHERE clause of the UPDATE statement. */
  predicate Fenced(table: Table, key: Key, r: Record, now: Time) {
    && key in table
    && table[key].identity.owner == r.identity.owner
    && table[key].revision < r.revision
    && table[key].finishedAt.None?
    && table[key].identity.retentionExpiresAt > now
  }

  function UpdatedTable(table: Table, key: Key, r: Record, now: Time, commit: Commit): Table {
    if Fenced(table, key, r, now) && RowChecks(Written(table[key], r)) && !commit.RolledBack?
    then table[key := Written(table[key], r)]
    else table
  }

  /** What the SELECT after an UPDATE of no row makes of the table it sees. */
  function ReadAck(table: Table, key: Key, r: Record, readAt: Time, commit: Commit): Acknowledgement {
    if !Live(table, key, readAt) then Refused(NotFound)
    else
      var saved := table[key];
      if || saved.identity.owner != r.identity.owner || saved.revision < r.revision
         || (saved.revision == r.revision && !SameSnapshot(saved, r))
      then Refused(NotFound)
      else if commit.Committed? then Acknowledged else Refused(Unavailable)
  }

  /** The answer to an update whose UPDATE saw `table` and whose SELECT, if there is one, saw `later`. */
  function UpdateAck(table: Table, later: Table, key: Key, r: Record, now: Time, readAt: Time, commit: Commit)
    : Acknowledgement
  {
    if !Fenced(table, key, r, now) then ReadAck(later, key, r, readAt, commit)
    else if RowChecks(Written(table[key], r)) && commit.Committed? then Acknowledged
    else Refused(Unavailable)
  }

  /** The statements of a reservation: `swept` is the bounded sweep of expired rows. */
  predicate Sweep(table: Table, scope: string, now: Time, swept: set<Key>) {
    && |swept| <= 99
    && forall k :: k in swept ==> k.scope == scope && k in table && table[k].identity.retentionExpiresAt <= now
  }

  function Swept(table: Table, scope: string, r: Record, now: Time, swept: set<Key>): Table {
    var key := Key(scope, r.identity.id);
    var t := if key in table && table[key].identity.retentionExpiresAt <= now then table - {key} else table;
    t - swept
  }

  predicate Reservable(r: Record) {
    r.revision == 1 && r.status.Running? && r.finishedAt.None?
  }

  /** The row a reservation inserts, whatever else the record carries. */
  function ReservedRow(r: Record): Record { Stored(NewRecord(r.identity)) }

  function ReservedTable(table: Table, scope: string, r: Record, now: Time, swept: set<Key>, commit: Commit): Table {
    var t := Swept(table, scope, r, now, swept);
    var key := Key(scope, r.identity.id);
    if !Reservable(r) || commit.RolledBack? || key in t || !IdentityChecks(StoredIdentity(r.identity)) then
      table  // a conflict or a violated check aborts the transaction, sweep included
    else t[key := ReservedRow(r)]
  }

  /** Success of an update means that the table it was decided on, the one it wrote or the one its SELECT
      saw, holds this owner's row at this revision or a newer one. */
  lemma AcknowledgedUpdateIsStored(table: Table, later: Table, key: Key, r: Record, now: Time, readAt: Time,
                                   commit: Commit)
    requires UpdateAck(table, later, key, r, now, readAt, commit).Acknowledged?
    ensures var after := if Fenced(table, key, r, now) then UpdatedTable(table, key, r, now, commit) else later;
            && key in after && after[key].identity.owner == r.identity.owner
            && after[key].revision >= r.revision
            && (after[key].revision == r.revision ==> SameSnapshot(after[key].(identity := r.identity), r))
  {
    MicrosIdempotent(r);
    if !Fenced(table, key, r, now) && later[key].revision == r.revision {
      assert Stored(later[key]) == Stored(r);
      assert Stored(later[key].(identity := r.identity)) == Stored(later[key]).(identity := StoredIdentity(r.identity));
    }
  }

  lemma MicrosIdempotent(r: Record)
    ensures Stored(Stored(r)) == Stored(r)
  {
    forall t: Time ensures Micros(Micros(t)) == Micros(t) { }
  }

  /** A terminal row is never replaced by an update. */
  lemma TerminalRowIsFinal(table: Table, key: Key, r: Record, now: Time, commit: Commit)
    requires key in table && table[key].finishedAt.Some?
    ensures UpdatedTable(table, key, r, now, commit) == table
  {
  }
}
