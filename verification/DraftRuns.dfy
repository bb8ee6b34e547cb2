/** Runs of the draft table from the empty store that show what can go wrong. */
module DraftRuns {
  import opened Wrappers
  import opened Draft

  ghost function LatestAfter(s: Store, latest: Time, events: seq<Event>): Time
    requires IsRun(s, events)
    decreases |events|
  {
    if events == [] then latest
    else LatestAfter(Step(s, events[0]), if events[0].Commit? then s.txs[events[0].id].now else latest, events[1..])
  }

  ghost predicate Leads(s: Store, r: Reference, events: seq<Event>, t: Store, q: Reference) {
    IsRun(s, events) && After(s, events) == t && RefAfter(s, r, events) == q
  }

  ghost predicate Timely(s: Store, latest: Time, events: seq<Event>, after: Time) {
    IsRun(s, events) && InClockOrder(s, latest, events) && LatestAfter(s, latest, events) == after
  }

  lemma LeadsStep(s: Store, r: Reference, e: Event, latest: Time)
    requires Enabled(s, e)
    ensures Leads(s, r, [e], Step(s, e), RefStep(r, s, e))
    ensures Subject(s, e).1 >= latest ==> Timely(s, latest, [e], if e.Commit? then s.txs[e.id].now else latest)
  {
    var t, q, rest, after := Step(s, e), RefStep(r, s, e), [e][1..], if e.Commit? then s.txs[e.id].now else latest;
    assert rest == [];
    assert IsRun(t, rest) && After(t, rest) == t && RefAfter(t, q, rest) == q;
    assert InClockOrder(t, after, rest) && LatestAfter(t, after, rest) == after;
  }

  lemma {:induction false} LeadsOn(s: Store, r: Reference, a: seq<Event>, t: Store, q: Reference, b: seq<Event>,
                                   u: Store, v: Reference)
    requires Leads(s, r, a, t, q) && Leads(t, q, b, u, v)
    ensures Leads(s, r, a + b, u, v)
    decreases |a|
  {
    if a == [] {
      assert a + b == b;
    } else {
      assert (a + b)[0] == a[0] && (a + b)[1..] == a[1..] + b;
      LeadsOn(Step(s, a[0]), RefStep(r, s, a[0]), a[1..], t, q, b, u, v);
    }
  }

  lemma {:induction false} TimelyOn(s: Store, latest: Time, a: seq<Event>, t: Store, middle: Time, b: seq<Event>,
                                    after: Time)
    requires Timely(s, latest, a, middle) && After(s, a) == t && Timely(t, middle, b, after) && IsRun(s, a + b)
    ensures Timely(s, latest, a + b, after)
    decreases |a|
  {
    if a == [] {
      assert a + b == b;
    } else {
      assert (a + b)[0] == a[0] && (a + b)[1..] == a[1..] + b;
      TimelyOn(Step(s, a[0]), if a[0].Commit? then s.txs[a[0].id].now else latest, a[1..], t, middle, b, after);
    }
  }

  lemma PutTwice(s: Store, id: nat, a: Tx, b: Tx)
    ensures Put(Put(s, id, a), id, b) == Put(s, id, b)
  {
    assert s.txs[id := a][id := b] == s.txs[id := b];
  }

  function Opening(id: nat, key: Key, expected: int, payload: Payload, now: Time, chosen: set<Key>): seq<Event> {
    [Begin(id, key, expected, payload, now)] + [Choose(id, chosen)]
  }

  /** A save that has begun and chosen what to remove. */
  lemma Opens(s: Store, r: Reference, id: nat, tx: Tx, latest: Time)
    requires id !in s.txs && tx.expected >= 0 && tx.stage.Sweeping? && tx.swept == {} == tx.locks
    requires Sweep(s.table, tx.key.scope, tx.now, tx.chosen)
    ensures var events := Opening(id, tx.key, tx.expected, tx.payload, tx.now, tx.chosen);
            Leads(s, r, events, Put(s, id, tx), r) && (tx.now >= latest ==> Timely(s, latest, events, latest))
  {
    var begin, choose := Begin(id, tx.key, tx.expected, tx.payload, tx.now), Choose(id, tx.chosen);
    var begun := tx.(stage := Begun, chosen := {});
    var t := Put(s, id, begun);
    LeadsStep(s, r, begin, latest);
    assert Step(s, begin) == t;
    LeadsStep(t, r, choose, latest);
    PutTwice(s, id, begun, tx);
    LeadsOn(s, r, [begin], t, r, [choose], Put(s, id, tx), r);
    if tx.now >= latest { TimelyOn(s, latest, [begin], t, latest, [choose], latest); }
  }

  /** Its DELETE is done, and its INSERT writes the row. */
  lemma Inserts(s: Store, r: Reference, id: nat, tx: Tx, row: Row, latest: Time)
    requires IsAt(s, id, Sweeping) && s.txs[id] == tx && tx.chosen == {} && Sources(s, tx)
    requires !LockedByOthers(s, id, tx.key) && InsertRow(s, tx) == Some(row) && row.revision <= MAX_REVISION
    ensures var after := tx.(stage := Inserted(row), locks := tx.locks + {tx.key});
            && Leads(s, r, [Source(id)] + [Insert(id)], Put(s, id, after), r)
            && (tx.now >= latest ==> Timely(s, latest, [Source(id)] + [Insert(id)], latest))
  {
    var sourced, after := tx.(stage := Sourced), tx.(stage := Inserted(row), locks := tx.locks + {tx.key});
    var t := Put(s, id, sourced);
    LeadsStep(s, r, Source(id), latest);
    assert Step(s, Source(id)) == t;
    assert InsertRow(t, sourced) == Some(row);
    assert Enabled(t, Insert(id)) by {
      forall other | other in t.txs && other != id ensures tx.key !in t.txs[other].locks { assert other in s.txs; }
    }
    LeadsStep(t, r, Insert(id), latest);
    PutTwice(s, id, sourced, after);
    LeadsOn(s, r, [Source(id)], t, r, [Insert(id)], Put(s, id, after), r);
    if tx.now >= latest { TimelyOn(s, latest, [Source(id)], t, latest, [Insert(id)], latest); }
  }

  function Preparing(id: nat, key: Key, expected: int, payload: Payload, now: Time): seq<Event> {
    Opening(id, key, expected, payload, now, {}) + ([Source(id)] + [Insert(id)])
  }

  function Prepared(key: Key, expected: int, payload: Payload, now: Time): Tx {
    Tx(key, expected, payload, now, Inserted(Row(expected + 1, payload, now + LIFETIME)), {}, {}, {key})
  }

  /** A save up to its commit in which nothing comes between. */
  lemma Prepares(s: Store, r: Reference, id: nat, key: Key, expected: int, payload: Payload, now: Time, latest: Time)
    requires id !in s.txs && 0 <= expected < MAX_REVISION && !LockedByOthers(s, id, key)
    requires expected == Revision(s.table, key, now) && (key in s.table ==> s.table[key].revision >= 1)
    ensures var events := Preparing(id, key, expected, payload, now);
            && Leads(s, r, events, Put(s, id, Prepared(key, expected, payload, now)), r)
            && (now >= latest ==> Timely(s, latest, events, latest))
  {
    var tx, row := Tx(key, expected, payload, now, Sweeping, {}, {}, {}), Row(expected + 1, payload, now + LIFETIME);
    var t, done := Put(s, id, tx), Prepared(key, expected, payload, now);
    Opens(s, r, id, tx, latest);
    assert Seen(t, tx) == s.table;
    UpsertedIff(s.table, key, expected, payload, now);
    forall other | other in t.txs && other != id ensures key !in t.txs[other].locks { assert other in s.txs; }
    Inserts(t, r, id, tx, row, latest);
    PutTwice(s, id, tx, done);
    var a, b := Opening(id, key, expected, payload, now, {}), [Source(id)] + [Insert(id)];
    assert tx.locks + {key} == {key};
    LeadsOn(s, r, a, t, r, b, Put(s, id, done), r);
    if now >= latest { TimelyOn(s, latest, a, t, latest, b, latest); }
  }

  function Saving(id: nat, key: Key, expected: int, payload: Payload, now: Time): seq<Event> {
    Preparing(id, key, expected, payload, now) + [Commit(id)]
  }

  /** A whole save in which nothing comes between. */
  lemma Saves(s: Store, r: Reference, id: nat, key: Key, expected: int, payload: Payload, now: Time, latest: Time)
    requires id !in s.txs && 0 <= expected < MAX_REVISION && !LockedByOthers(s, id, key)
    requires expected == Revision(s.table, key, now) && (key in s.table ==> s.table[key].revision >= 1)
    ensures var row, events := Row(expected + 1, payload, now + LIFETIME), Saving(id, key, expected, payload, now);
            && Leads(s, r, events, Store(s.table[key := row], s.txs), Reference(r.view[key := row], r.graves - {key}))
            && (now >= latest ==> Timely(s, latest, events, now))
  {
    var row, done := Row(expected + 1, payload, now + LIFETIME), Prepared(key, expected, payload, now);
    var u, a := Put(s, id, done), Preparing(id, key, expected, payload, now);
    Prepares(s, r, id, key, expected, payload, now, latest);
    LeadsStep(u, r, Commit(id), latest);
    var v, w := Store(s.table[key := row], s.txs), Reference(r.view[key := row], r.graves - {key});
    CommitsAlone(s, r, id, done, v, w);
    LeadsOn(s, r, a, u, r, [Commit(id)], v, w);
    if now >= latest { TimelyOn(s, latest, a, u, latest, [Commit(id)], now); }
  }

  lemma PassedOver(txs: map<nat, Tx>, gone: set<Key>)
    requires forall id :: id in txs ==> txs[id].chosen !! gone
    ensures Passed(txs, gone) == txs
  {
    forall id | id in txs ensures Passed(txs, gone)[id] == txs[id] {
      assert txs[id].chosen - gone == txs[id].chosen;
    }
  }

  lemma CommitsAlone(s: Store, r: Reference, id: nat, tx: Tx, v: Store, w: Reference)
    requires id !in s.txs && tx.stage.Inserted? && tx.swept == {}
    requires v == Store(s.table[tx.key := tx.stage.row], s.txs)
    requires w == Reference(r.view[tx.key := tx.stage.row], r.graves - {tx.key})
    ensures var u := Put(s, id, tx); Step(u, Commit(id)) == v && RefStep(r, u, Commit(id)) == w
  {
    var u := Put(s, id, tx);
    assert u.txs - {id} == s.txs;
    PassedOver(s.txs, {});
    assert s.table - {} == s.table && r.graves + map[] == r.graves;
    assert (map k | k in tx.swept :: tx.now) == map[];
  }

  function SweepingSave(id: nat, key: Key, payload: Payload, now: Time, dead: Key): seq<Event> {
    Opening(id, key, 0, payload, now, {dead}) + [Remove(id, dead)] + ([Source(id)] + [Insert(id)]) + [Commit(id)]
  }

  /** A first save of a key that removes one expired row of another. */
  lemma Sweeps(s: Store, r: Reference, id: nat, key: Key, payload: Payload, now: Time, dead: Key, latest: Time)
    requires id !in s.txs && key !in s.table && key != dead && Expired(s.table, dead, key.scope, now)
    requires !LockedByOthers(s, id, key) && !LockedByOthers(s, id, dead)
    requires forall i :: i in s.txs ==> dead !in s.txs[i].chosen
    ensures var row, events := Row(1, payload, now + LIFETIME), SweepingSave(id, key, payload, now, dead);
            && Leads(s, r, events, Store((s.table - {dead})[key := row], s.txs),
                     Reference(r.view[key := row], (r.graves + map[dead := now]) - {key}))
            && (now >= latest ==> Timely(s, latest, events, now))
  {
    var tx := Tx(key, 0, payload, now, Sweeping, {dead}, {}, {});
    var t := Put(s, id, tx);
    Opens(s, r, id, tx, latest);
    forall other | other in t.txs && other != id ensures {key, dead} !! t.txs[other].locks { assert other in s.txs; }
    var a := Opening(id, key, 0, payload, now, {dead});
    var v, w := RemovesAndSaves(s, r, id, tx, dead, latest);
    LeadsOn(s, r, a, t, r, Removing(id, dead), v, w);
    assert a + Removing(id, dead) == SweepingSave(id, key, payload, now, dead);
    if now >= latest { TimelyOn(s, latest, a, t, latest, Removing(id, dead), now); }
  }

  function Removing(id: nat, dead: Key): seq<Event> {
    [Remove(id, dead)] + ([Source(id)] + [Insert(id)]) + [Commit(id)]
  }

  /** The rest of a first save once what it chose is free. */
  lemma RemovesAndSaves(s: Store, r: Reference, id: nat, tx: Tx, dead: Key, latest: Time)
    returns (v: Store, w: Reference)
    requires id !in s.txs && tx.stage.Sweeping? && tx.chosen == {dead} && tx.swept == {} == tx.locks && tx.expected == 0
    requires tx.key !in s.table && tx.key != dead && dead in s.table
    requires !LockedByOthers(s, id, tx.key) && !LockedByOthers(s, id, dead)
    requires forall i :: i in s.txs ==> dead !in s.txs[i].chosen
    ensures var row := Row(1, tx.payload, tx.now + LIFETIME);
            && v == Store((s.table - {dead})[tx.key := row], s.txs)
            && w == Reference(r.view[tx.key := row], (r.graves + map[dead := tx.now]) - {tx.key})
    ensures Leads(Put(s, id, tx), r, Removing(id, dead), v, w)
    ensures tx.now >= latest ==> Timely(Put(s, id, tx), latest, Removing(id, dead), tx.now)
  {
    var row := Row(1, tx.payload, tx.now + LIFETIME);
    var s0, swept := Put(s, id, tx), tx.(chosen := {}, swept := {dead}, locks := {dead});
    var t, done := Put(s, id, swept), swept.(stage := Inserted(row), locks := {dead} + {tx.key});
    var u, a, b := Put(s, id, done), [Remove(id, dead)], [Source(id)] + [Insert(id)];
    Removes(s, r, id, tx, dead, latest);
    forall other | other in t.txs && other != id ensures tx.key !in t.txs[other].locks { assert other in s.txs; }
    Inserts(t, r, id, swept, row, latest);
    PutTwice(s, id, swept, done);
    LeadsOn(s0, r, a, t, r, b, u, r);
    v := Store((s.table - {dead})[tx.key := row], s.txs);
    w := Reference(r.view[tx.key := row], (r.graves + map[dead := tx.now]) - {tx.key});
    CommitsSweep(s, r, id, done, dead, v, w);
    LeadsStep(u, r, Commit(id), latest);
    LeadsOn(s0, r, a + b, u, r, [Commit(id)], v, w);
    if tx.now >= latest {
      TimelyOn(s0, latest, a, t, latest, b, latest);
      TimelyOn(s0, latest, a + b, u, latest, [Commit(id)], tx.now);
    }
  }

  lemma Removes(s: Store, r: Reference, id: nat, tx: Tx, dead: Key, latest: Time)
    requires id !in s.txs && tx.stage.Sweeping? && tx.chosen == {dead} && tx.swept == {} == tx.locks
    requires !LockedByOthers(s, id, dead)
    ensures var s0, t := Put(s, id, tx), Put(s, id, tx.(chosen := {}, swept := {dead}, locks := {dead}));
            && Leads(s0, r, [Remove(id, dead)], t, r)
            && (tx.now >= latest ==> Timely(s0, latest, [Remove(id, dead)], latest))
  {
    var s0, swept := Put(s, id, tx), tx.(chosen := {}, swept := {dead}, locks := {dead});
    forall other | other in s0.txs && other != id ensures dead !in s0.txs[other].locks { assert other in s.txs; }
    LeadsStep(s0, r, Remove(id, dead), latest);
    assert tx.chosen - {dead} == {} && tx.swept + {dead} == {dead} && tx.locks + {dead} == {dead};
    PutTwice(s, id, tx, swept);
  }

  lemma CommitsSweep(s: Store, r: Reference, id: nat, tx: Tx, dead: Key, v: Store, w: Reference)
    requires id !in s.txs && tx.stage.Inserted? && tx.swept == {dead}
    requires forall i :: i in s.txs ==> dead !in s.txs[i].chosen
    requires v == Store((s.table - {dead})[tx.key := tx.stage.row], s.txs)
    requires w == Reference(r.view[tx.key := tx.stage.row], (r.graves + map[dead := tx.now]) - {tx.key})
    ensures var u := Put(s, id, tx); Step(u, Commit(id)) == v && RefStep(r, u, Commit(id)) == w
  {
    var u := Put(s, id, tx);
    assert u.txs - {id} == s.txs;
    PassedOver(s.txs, {dead});
    assert (map k | k in tx.swept :: tx.now) == map[dead := tx.now];
  }

  // ---- a sweep ahead of a reader's clock ----

  /** A draft is saved, and a save of another key at its expiry sweeps it. */
  function SweptRun(k: Key, other: Key, p: Payload): seq<Event> {
    Saving(1, k, 0, p, 0) + SweepingSave(2, other, p, LIFETIME, k)
  }

  lemma FirstSave(k: Key, p: Payload)
    ensures var s, r := Store(map[k := Row(1, p, LIFETIME)], map[]), Reference(map[k := Row(1, p, LIFETIME)], map[]);
            Leads(EMPTY, UNSAVED, Saving(1, k, 0, p, 0), s, r) && Timely(EMPTY, 0, Saving(1, k, 0, p, 0), 0)
  {
    Saves(EMPTY, UNSAVED, 1, k, 0, p, 0, 0);
    var row := Row(1, p, LIFETIME);
    assert EMPTY.table[k := row] == map[k := row] && UNSAVED.view[k := row] == map[k := row];
    assert UNSAVED.graves - {k} == map[];
  }

  /** From the empty store: a row swept by a later clock is missing for a reader whose clock says that it is
      live, by as little as one nanosecond. */
  lemma ClockBackShowsSweep(k: Key, other: Key, p: Payload)
    requires k != other && k.scope == other.scope
    ensures IsRun(EMPTY, SweptRun(k, other, p))
    ensures var s, r := After(EMPTY, SweptRun(k, other, p)), RefAfter(EMPTY, UNSAVED, SweptRun(k, other, p));
            var e := Get(k, LIFETIME - 1);
            && Anomalous(s, r, e) && ReplyTo(s, e) == Some(Found(0, "{}")) && RefReply(r, s, e) == Found(1, p)
  {
    FirstSave(k, p);
    var row := Row(1, p, LIFETIME);
    var s, r := Store(map[k := row], map[]), Reference(map[k := row], map[]);
    Sweeps(s, r, 2, other, p, LIFETIME, k, 0);
    var saved := Row(1, p, LIFETIME + LIFETIME);
    LeadsOn(EMPTY, UNSAVED, Saving(1, k, 0, p, 0), s, r, SweepingSave(2, other, p, LIFETIME, k),
            Store((s.table - {k})[other := saved], s.txs),
            Reference(r.view[other := saved], (r.graves + map[k := LIFETIME]) - {other}));
  }

  // ---- a conflict with the revision that was named ----

  /** Two savers of a draft at revision 1: one names 1, the other already 2. */
  function OvertakenRun(k: Key, p: Payload): seq<Event> {
    Saving(1, k, 0, p, 0) + (Opening(1, k, 1, p, 0, {}) + (Opening(2, k, 2, p, 0, {}) + ([Source(2)] +
    ([Source(1)] + [Insert(1)] + [Commit(1)]))))
  }

  /** From the empty store: the second saver is refused, the first one commits, and the second is told of a
      conflict with the very revision that it named. */
  lemma ConflictIsOvertaken(k: Key, p: Payload)
    ensures IsRun(EMPTY, OvertakenRun(k, p))
    ensures var s := After(EMPTY, OvertakenRun(k, p));
            && Enabled(s, Select(2)) && s.txs[2].expected == 2
            && Overtaken(s, Select(2)) && ReplyTo(s, Select(2)) == Some(Conflict(2))
  {
    FirstSave(k, p);
    var row := Row(1, p, LIFETIME);
    var s, r := Store(map[k := row], map[]), Reference(map[k := row], map[]);
    var t, q := OvertakenEnd(k, p, s, r);
    LeadsOn(EMPTY, UNSAVED, Saving(1, k, 0, p, 0), s, r,
            Opening(1, k, 1, p, 0, {}) + (Opening(2, k, 2, p, 0, {}) + ([Source(2)] +
            ([Source(1)] + [Insert(1)] + [Commit(1)]))), t, q);
  }

  lemma OvertakenEnd(k: Key, p: Payload, s: Store, r: Reference) returns (t: Store, q: Reference)
    requires s == Store(map[k := Row(1, p, LIFETIME)], map[])
    ensures Leads(s, r, Opening(1, k, 1, p, 0, {}) + (Opening(2, k, 2, p, 0, {}) + ([Source(2)] +
                        ([Source(1)] + [Insert(1)] + [Commit(1)]))), t, q)
    ensures k in t.table && t.table[k] == Row(2, p, LIFETIME) && 2 in t.txs
    ensures t.txs[2] == Tx(k, 2, p, 0, Refused, {}, {}, {})
  {
    var a, b := Tx(k, 1, p, 0, Sweeping, {}, {}, {}), Tx(k, 2, p, 0, Sweeping, {}, {}, {});
    var s1 := Put(s, 1, a);
    var s2 := Put(s1, 2, b);
    var s3 := Put(s1, 2, b.(stage := Refused));
    Opens(s, r, 1, a, 0);
    Opens(s1, r, 2, b, 0);
    assert Seen(s2, b) == s.table;
    LeadsStep(s2, r, Source(2), 0);
    PutTwice(s1, 2, b, b.(stage := Refused));
    assert Step(s2, Source(2)) == s3;
    t, q := OvertakenCommit(k, p, s3, r);
    var last := [Source(1)] + [Insert(1)] + [Commit(1)];
    LeadsOn(s2, r, [Source(2)], s3, r, last, t, q);
    LeadsOn(s1, r, Opening(2, k, 2, p, 0, {}), s2, r, [Source(2)] + last, t, q);
    LeadsOn(s, r, Opening(1, k, 1, p, 0, {}), s1, r, Opening(2, k, 2, p, 0, {}) + ([Source(2)] + last), t, q);
  }

  lemma OvertakenCommit(k: Key, p: Payload, s: Store, r: Reference) returns (t: Store, q: Reference)
    requires s.table == map[k := Row(1, p, LIFETIME)] && s.txs.Keys == {1, 2}
    requires s.txs[1] == Tx(k, 1, p, 0, Sweeping, {}, {}, {}) && s.txs[2] == Tx(k, 2, p, 0, Refused, {}, {}, {})
    ensures Leads(s, r, [Source(1)] + [Insert(1)] + [Commit(1)], t, q)
    ensures k in t.table && t.table[k] == Row(2, p, LIFETIME) && 2 in t.txs && t.txs[2] == s.txs[2]
  {
    var a, row := s.txs[1], Row(2, p, LIFETIME);
    assert Seen(s, a) == s.table;
    Inserts(s, r, 1, a, row, 0);
    var u := Put(s, 1, a.(stage := Inserted(row), locks := a.locks + {a.key}));
    LeadsStep(u, r, Commit(1), 0);
    t, q := Step(u, Commit(1)), RefStep(r, u, Commit(1));
    assert t.txs[2].chosen == {};
    LeadsOn(s, r, [Source(1)] + [Insert(1)], u, r, [Commit(1)], t, q);
  }

  // ---- updates that are lost ----

  /** A run that ends in a save which does not follow the last one. */
  lemma {:induction false} BreakShows(s: Store, r: Reference, a: seq<Event>, t: Store, q: Reference, id: nat)
    requires Leads(s, r, a, t, q) && Enabled(t, Commit(id)) && Breaks(t, q, t.txs[id])
    ensures IsRun(s, a + [Commit(id)]) && !NeverBreaks(s, r, a + [Commit(id)], t.txs[id].key)
    decreases |a|
  {
    var all := a + [Commit(id)];
    if a == [] {
      assert all[0] == Commit(id) && all[1..] == [];
    } else {
      assert all[0] == a[0] && all[1..] == a[1..] + [Commit(id)];
      BreakShows(Step(s, a[0]), RefStep(r, s, a[0]), a[1..], t, q, id);
    }
  }

  lemma BreakIsLoss(a: seq<Event>, t: Store, q: Reference, id: nat)
    requires Leads(EMPTY, UNSAVED, a, t, q) && Enabled(t, Commit(id)) && Breaks(t, q, t.txs[id])
    ensures var run := a + [Commit(id)];
            && IsRun(EMPTY, run) && !Chain(None, Writes(EMPTY, UNSAVED, run, t.txs[id].key))
            && !AllKept(EMPTY, UNSAVED, run)
  {
    var run, key := a + [Commit(id)], t.txs[id].key;
    BreakShows(EMPTY, UNSAVED, a, t, q, id);
    ChainIff(EMPTY, UNSAVED, run, key);
    NothingIsLostIff(EMPTY, UNSAVED, run);
    if NeverLoses(EMPTY, UNSAVED, run) { LosslessNeverBreaks(EMPTY, UNSAVED, run, key); }
  }

  /** A draft is saved at 0 and, just before its expiry, updated; a sweep that chose it just after its expiry
      waits for the update to commit and removes what it wrote. */
  function RenewedRun(k: Key, other: Key, p: Payload): seq<Event> {
    Saving(1, k, 0, p, 0) + (Preparing(1, k, 1, p, LIFETIME - 1) + (Opening(2, other, 0, p, LIFETIME + 1, {k}) +
    ([Commit(1)] + Removing(2, k))))
  }

  /** The draft is then saved as if for the first time. */
  function LostRun(k: Key, other: Key, p: Payload): seq<Event> {
    RenewedRun(k, other, p) + Preparing(3, k, 0, p, LIFETIME + 2) + [Commit(3)]
  }

  lemma Renewed(k: Key, other: Key, p: Payload) returns (t: Store, q: Reference)
    requires k != other && k.scope == other.scope
    ensures Leads(EMPTY, UNSAVED, RenewedRun(k, other, p), t, q)
    ensures Timely(EMPTY, 0, RenewedRun(k, other, p), LIFETIME + 1)
    ensures k !in t.table && t.txs == map[] && k in q.view && k in q.graves
    ensures q.view[k] == Row(2, p, LIFETIME - 1 + LIFETIME) && q.graves[k] == LIFETIME + 1
  {
    FirstSave(k, p);
    var row, next := Row(1, p, LIFETIME), Row(2, p, LIFETIME - 1 + LIFETIME);
    var s, r := Store(map[k := row], map[]), Reference(map[k := row], map[]);
    var one, two := Prepared(k, 1, p, LIFETIME - 1), Tx(other, 0, p, LIFETIME + 1, Sweeping, {k}, {}, {});
    var s1 := Put(s, 1, one);
    var s2 := Put(s1, 2, two);
    Prepares(s, r, 1, k, 1, p, LIFETIME - 1, 0);
    assert Sweep(s1.table, other.scope, LIFETIME + 1, {k});
    Opens(s1, r, 2, two, 0);
    var s0, r3 := Store(map[k := next], map[]), Reference(map[k := next], map[]);
    var s3 := Put(s0, 2, two);
    UpdateCommits(k, other, p, s2, r, s3, r3);
    t, q := RemovesAndSaves(s0, r3, 2, two, k, LIFETIME - 1);
    var a, b, c, d := Saving(1, k, 0, p, 0), Preparing(1, k, 1, p, LIFETIME - 1),
                      Opening(2, other, 0, p, LIFETIME + 1, {k}), Removing(2, k);
    LeadsOn(s2, r, [Commit(1)], s3, r3, d, t, q);
    TimelyOn(s2, 0, [Commit(1)], s3, LIFETIME - 1, d, LIFETIME + 1);
    LeadsOn(s1, r, c, s2, r, [Commit(1)] + d, t, q);
    TimelyOn(s1, 0, c, s2, 0, [Commit(1)] + d, LIFETIME + 1);
    LeadsOn(s, r, b, s1, r, c + ([Commit(1)] + d), t, q);
    TimelyOn(s, 0, b, s1, 0, c + ([Commit(1)] + d), LIFETIME + 1);
    LeadsOn(EMPTY, UNSAVED, a, s, r, b + (c + ([Commit(1)] + d)), t, q);
    TimelyOn(EMPTY, 0, a, s, 0, b + (c + ([Commit(1)] + d)), LIFETIME + 1);
  }

  lemma UpdateCommits(k: Key, other: Key, p: Payload, s: Store, r: Reference, t: Store, q: Reference)
    requires s.table == map[k := Row(1, p, LIFETIME)] && r == Reference(s.table, map[]) && s.txs.Keys == {1, 2}
    requires s.txs[1] == Prepared(k, 1, p, LIFETIME - 1)
    requires s.txs[2] == Tx(other, 0, p, LIFETIME + 1, Sweeping, {k}, {}, {})
    requires var next := map[k := Row(2, p, LIFETIME - 1 + LIFETIME)];
             t == Put(Store(next, map[]), 2, s.txs[2]) && q == Reference(next, map[])
    ensures Leads(s, r, [Commit(1)], t, q) && Timely(s, 0, [Commit(1)], LIFETIME - 1)
  {
    LeadsStep(s, r, Commit(1), 0);
    var next := Row(2, p, LIFETIME - 1 + LIFETIME);
    assert (s.table - {})[k := next] == map[k := next] && r.view[k := next] == map[k := next];
    var one := s.txs[1];
    assert (map l | l in one.swept :: one.now) == map[];
    assert (r.graves + map[]) - {k} == map[];
    PassedOver(s.txs - {1}, {});
    assert s.txs - {1} == map[2 := s.txs[2]] == t.txs;
  }

  /** From the empty store and with all clocks in order: the acknowledged update is gone, and the next save
      starts the count again although it was to live for almost a lifetime more. */
  lemma WaitingSweepLosesUpdate(k: Key, other: Key, p: Payload)
    requires k != other && k.scope == other.scope
    ensures IsRun(EMPTY, LostRun(k, other, p)) && InClockOrder(EMPTY, 0, LostRun(k, other, p))
    ensures !Chain(None, Writes(EMPTY, UNSAVED, LostRun(k, other, p), k))
    ensures !AllKept(EMPTY, UNSAVED, LostRun(k, other, p))
  {
    var s, r := Renewed(k, other, p);
    var done, a, b := Prepared(k, 0, p, LIFETIME + 2), RenewedRun(k, other, p), Preparing(3, k, 0, p, LIFETIME + 2);
    var t := Put(s, 3, done);
    Prepares(s, r, 3, k, 0, p, LIFETIME + 2, LIFETIME + 1);
    LeadsOn(EMPTY, UNSAVED, a, s, r, b, t, r);
    TimelyOn(EMPTY, 0, a, s, LIFETIME + 1, b, LIFETIME + 1);
    assert Seen(t, done) == s.table;
    BreakIsLoss(a + b, t, r, 3);
    LeadsStep(t, r, Commit(3), LIFETIME + 1);
    TimelyOn(EMPTY, 0, a + b, t, LIFETIME + 1, [Commit(3)], LIFETIME + 2);
  }

  /** A saver reads a draft at revision 1 as the source of its INSERT; the draft is updated to 2 and, a lifetime
      later, swept; only then does the INSERT write. */
  function StrandedRun(k: Key, other: Key, p: Payload): seq<Event> {
    Saving(1, k, 0, p, 0) + ((Opening(1, k, 1, p, LIFETIME - 1, {}) + [Source(1)]) + (Saving(3, k, 1, p, LIFETIME - 1) +
    SweepingSave(2, other, p, LIFETIME - 1 + LIFETIME, k)))
  }

  lemma Stranding(k: Key, other: Key, p: Payload) returns (t: Store, q: Reference)
    requires k != other && k.scope == other.scope
    ensures Leads(EMPTY, UNSAVED, StrandedRun(k, other, p), t, q)
    ensures k !in t.table && t.txs.Keys == {1} && t.txs[1] == Tx(k, 1, p, LIFETIME - 1, Sourced, {}, {}, {})
    ensures k in q.view && q.view[k] == Row(2, p, LIFETIME - 1 + LIFETIME)
  {
    FirstSave(k, p);
    var now, row := LIFETIME - 1, Row(1, p, LIFETIME);
    var s, r := Store(map[k := row], map[]), Reference(map[k := row], map[]);
    var one := Tx(k, 1, p, now, Sweeping, {}, {}, {});
    var s1, s2 := Put(s, 1, one), Put(s, 1, one.(stage := Sourced));
    Opens(s, r, 1, one, 0);
    assert Seen(s1, one) == s.table;
    LeadsStep(s1, r, Source(1), 0);
    PutTwice(s, 1, one, one.(stage := Sourced));
    assert Step(s1, Source(1)) == s2;
    var a, b, c, d := Saving(1, k, 0, p, 0), Opening(1, k, 1, p, now, {}) + [Source(1)], Saving(3, k, 1, p, now),
                      SweepingSave(2, other, p, now + LIFETIME, k);
    LeadsOn(s, r, Opening(1, k, 1, p, now, {}), s1, r, [Source(1)], s2, r);
    t, q := UpdatedAndSwept(k, other, p, s2, r);
    LeadsOn(s, r, b, s2, r, c + d, t, q);
    LeadsOn(EMPTY, UNSAVED, a, s, r, b + (c + d), t, q);
  }

  lemma UpdatedAndSwept(k: Key, other: Key, p: Payload, s: Store, r: Reference) returns (t: Store, q: Reference)
    requires k != other && k.scope == other.scope
    requires s.table == map[k := Row(1, p, LIFETIME)] && s.txs.Keys == {1}
    requires s.txs[1] == Tx(k, 1, p, LIFETIME - 1, Sourced, {}, {}, {})
    ensures Leads(s, r, Saving(3, k, 1, p, LIFETIME - 1) + SweepingSave(2, other, p, LIFETIME - 1 + LIFETIME, k), t, q)
    ensures k !in t.table && t.txs == s.txs && k in q.view && q.view[k] == Row(2, p, LIFETIME - 1 + LIFETIME)
  {
    var now, next := LIFETIME - 1, Row(2, p, LIFETIME - 1 + LIFETIME);
    Saves(s, r, 3, k, 1, p, now, 0);
    var s1, r1 := Store(s.table[k := next], s.txs), Reference(r.view[k := next], r.graves - {k});
    Sweeps(s1, r1, 2, other, p, now + LIFETIME, k, 0);
    var row := Row(1, p, now + LIFETIME + LIFETIME);
    t := Store((s1.table - {k})[other := row], s.txs);
    q := Reference(r1.view[other := row], (r1.graves + map[k := now + LIFETIME]) - {other});
    LeadsOn(s, r, Saving(3, k, 1, p, now), s1, r1, SweepingSave(2, other, p, now + LIFETIME, k), t, q);
  }

  /** From the empty store and without a stale removal: the INSERT finds its key free, writes revision 2, and
      its caller is told of a save of revision 2 although revision 2 had been saved before. */
  lemma StrandedInsertLosesUpdate(k: Key, other: Key, p: Payload)
    requires k != other && k.scope == other.scope
    ensures IsRun(EMPTY, StrandedRun(k, other, p))
    ensures var s, e := After(EMPTY, StrandedRun(k, other, p)), Insert(1);
            Enabled(s, e) && Stranded(s, e) && InsertRow(s, s.txs[1]) == Some(Row(2, p, LIFETIME - 1 + LIFETIME))
    ensures var run := StrandedRun(k, other, p) + [Insert(1)] + [Commit(1)];
            IsRun(EMPTY, run) && !Chain(None, Writes(EMPTY, UNSAVED, run, k)) && !AllKept(EMPTY, UNSAVED, run)
  {
    var s, r := Stranding(k, other, p);
    var t := Step(s, Insert(1));
    LeadsStep(s, r, Insert(1), 0);
    LeadsOn(EMPTY, UNSAVED, StrandedRun(k, other, p), s, r, [Insert(1)], t, r);
    BreakIsLoss(StrandedRun(k, other, p) + [Insert(1)], t, r, 1);
  }
}
