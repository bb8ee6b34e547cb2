/** One population of the open-loop load driver: launches, completions in flight, late
    completions, cancellation and drain expiry, in every interleaving. */
module LoadDriver {
  import opened Wrappers

  type Time = int
  type Id = nat

  datatype Outcome = Succeeded | Failed | Rejected | Canceled | Unfinished

  datatype ProviderCall = ProviderCall(stage: string, model: string)

  datatype Response = Response(
    statusCode: int, streamTerminal: string, executionStatus: string, cacheHit: bool, jsonValid: bool,
    calls: seq<ProviderCall>)

  datatype SendError = Cancellation | OtherError

  datatype Completion = Completion(id: Id, response: Response, error: Option<SendError>, completedAt: Time)

  datatype Record = Record(id: Id, launchedAt: Time, completedAt: Option<Time>, latency: int, outcome: Outcome)

  datatype Counts = Counts(
    launched: nat, unsent: nat, succeeded: nat, failed: nat, rejected: nat, canceled: nat, unfinished: nat,
    attempts: nat, stages: map<string, nat>, models: map<string, nat>)

  predicate NoCounts(c: Counts) {
    && c.launched == 0 && c.unsent == 0 && c.attempts == 0 && c.stages == map[] && c.models == map[]
    && c.succeeded == 0 && c.failed == 0 && c.rejected == 0 && c.canceled == 0 && c.unfinished == 0
  }

  function Max(a: int, b: int): int { if a > b then a else b }

  // ---- classification ----

  function Classify(response: Response, error: Option<SendError>, requireJson: bool): (o: Outcome)
    ensures o.Succeeded? <==>
              && error.None? && 200 <= response.statusCode < 300 && response.streamTerminal == "run.completed"
              && response.executionStatus in {"", "succeeded"} && (requireJson ==> response.jsonValid)
    ensures o.Rejected? <==> error.None? && response.statusCode in {429, 503}
    ensures o.Canceled? <==> error == Some(Cancellation)
    ensures !o.Unfinished?
  {
    if error == Some(Cancellation) then Canceled
    else if error.Some? then Failed
    else if response.statusCode == 429 || response.statusCode == 503 then Rejected
    else if response.statusCode < 200 || response.statusCode >= 300 then Failed
    else if response.streamTerminal != "run.completed" then Failed
    else if response.executionStatus != "" && response.executionStatus != "succeeded" then Failed
    else if requireJson && !response.jsonValid then Failed
    else Succeeded
  }

  function CountOutcome(c: Counts, o: Outcome): Counts {
    match o
    case Succeeded => c.(succeeded := c.succeeded + 1)
    case Failed => c.(failed := c.failed + 1)
    case Rejected => c.(rejected := c.rejected + 1)
    case Canceled => c.(canceled := c.canceled + 1)
    case Unfinished => c.(unfinished := c.unfinished + 1)
  }

  function Terminals(c: Counts): int { c.succeeded + c.failed + c.rejected + c.canceled + c.unfinished }

  // ---- dispatch tallies ----

  function Named(s: string): string { if s == "" then "unknown" else s }

  function Bump(m: map<string, nat>, key: string): map<string, nat> {
    m[key := (if key in m then m[key] else 0) + 1]
  }

  function CountCall(c: Counts, call: ProviderCall): Counts {
    c.(attempts := c.attempts + 1, stages := Bump(c.stages, Named(call.stage)),
       models := Bump(c.models, Named(call.model)))
  }

  function CountCalls(c: Counts, calls: seq<ProviderCall>): Counts {
    if calls == [] then c else CountCall(CountCalls(c, calls[..|calls| - 1]), calls[|calls| - 1])
  }

  /** The sum of all values of a tally. */
  ghost function MapSum(m: map<string, nat>): nat
    decreases |m|
  {
    if m == map[] then 0 else var k :| k in m; m[k] + MapSum(m - {k})
  }

  lemma {:induction false} MapSumPick(m: map<string, nat>, k: string)
    requires k in m
    ensures MapSum(m) == m[k] + MapSum(m - {k})
    decreases |m|
  {
    var p :| p in m && MapSum(m) == m[p] + MapSum(m - {p});
    if p != k {
      MapSumPick(m - {p}, k);
      MapSumPick(m - {k}, p);
      assert m - {p} - {k} == m - {k} - {p};
    }
  }

  lemma BumpSum(m: map<string, nat>, key: string)
    ensures MapSum(Bump(m, key)) == MapSum(m) + 1
  {
    var b := Bump(m, key);
    MapSumPick(b, key);
    if key in m {
      MapSumPick(m, key);
      assert b - {key} == m - {key};
    } else {
      assert b - {key} == m;
    }
  }

  ghost predicate Balanced(c: Counts) {
    c.attempts == MapSum(c.stages) && c.attempts == MapSum(c.models)
  }

  lemma {:induction false} CallsBalanced(c: Counts, calls: seq<ProviderCall>)
    requires Balanced(c)
    ensures Balanced(CountCalls(c, calls))
  {
    if calls != [] {
      var front, last := CountCalls(c, calls[..|calls| - 1]), calls[|calls| - 1];
      CallsBalanced(c, calls[..|calls| - 1]);
      BumpSum(front.stages, Named(last.stage));
      BumpSum(front.models, Named(last.model));
    }
  }

  /** Counting provider calls leaves the request counters alone. */
  lemma {:induction false} CallsKeepCounters(c: Counts, calls: seq<ProviderCall>)
    ensures var d := CountCalls(c, calls);
            d.launched == c.launched && d.unsent == c.unsent && Terminals(d) == Terminals(c)
  {
    if calls != [] { CallsKeepCounters(c, calls[..|calls| - 1]); }
  }

  // ---- the bookkeeping of the driver ----

  /** The local variables of the driver. */
  datatype Book = Book(
    launched: map<Id, Time>, terminal: set<Id>, cancels: set<Id>, inflight: int, counts: Counts, requests: seq<Record>)

  predicate EmptyBook(b: Book) {
    && b.launched == map[] && b.terminal == {} && b.cancels == {} && b.inflight == 0
    && NoCounts(b.counts) && b.requests == []
  }

  function Launched(b: Book, id: Id, now: Time): Book {
    b.(launched := b.launched[id := now], cancels := b.cancels + {id}, inflight := b.inflight + 1,
       counts := b.counts.(launched := b.counts.launched + 1))
  }

  function CompletedRecord(b: Book, m: Completion, requireJson: bool): Record
    requires m.id in b.launched
  {
    Record(m.id, b.launched[m.id], Some(m.completedAt), Max(0, m.completedAt - b.launched[m.id]),
           Classify(m.response, m.error, requireJson))
  }

  function CompletedCounts(c: Counts, m: Completion, requireJson: bool): Counts {
    var counted := CountOutcome(c, Classify(m.response, m.error, requireJson));
    if m.response.cacheHit then counted else CountCalls(counted, m.response.calls)
  }

  function Applied(b: Book, m: Completion, requireJson: bool): Book
    requires m.id in b.launched
  {
    if m.id in b.terminal then b
    else b.(terminal := b.terminal + {m.id}, inflight := b.inflight - 1, cancels := b.cancels - {m.id},
            counts := CompletedCounts(b.counts, m, requireJson),
            requests := b.requests + [CompletedRecord(b, m, requireJson)])
  }

  /** One turn of the loops that end everything still in flight. */
  function Ended(b: Book, id: Id, o: Outcome): Book
    requires id in b.launched
  {
    if id in b.terminal then b
    else b.(terminal := b.terminal + {id}, inflight := b.inflight - 1, counts := CountOutcome(b.counts, o),
            requests := b.requests + [Record(id, b.launched[id], None, 0, o)])
  }

  function EndedAll(b: Book, order: seq<Id>, o: Outcome): (after: Book)
    requires Members(order) <= b.launched.Keys
    ensures after.launched == b.launched && after.cancels == b.cancels
  {
    if order == [] then b else Ended(EndedAll(b, order[..|order| - 1], o), order[|order| - 1], o)
  }

  function Members(order: seq<Id>): set<Id> {
    if order == [] then {} else Members(order[..|order| - 1]) + {order[|order| - 1]}
  }

  function Ids(requests: seq<Record>): set<Id> {
    if requests == [] then {} else Ids(requests[..|requests| - 1]) + {requests[|requests| - 1].id}
  }

  /** No two records share an id. */
  predicate DistinctIds(requests: seq<Record>) {
    requests == [] ||
    (DistinctIds(requests[..|requests| - 1]) && requests[|requests| - 1].id !in Ids(requests[..|requests| - 1]))
  }

  /** The ids: whatever is not terminal can still be cancelled and counts as in flight. */
  ghost predicate IdsOk(launched: set<Id>, terminal: set<Id>, cancels: set<Id>, inflight: int) {
    terminal <= launched && cancels <= launched && launched - terminal <= cancels && inflight == |launched - terminal|
  }

  ghost predicate RecordsOk(requests: seq<Record>, terminal: set<Id>) {
    Ids(requests) == terminal && |requests| == |terminal| && DistinctIds(requests)
  }

  /** Every launched request has at most one terminal outcome and exactly as many records. */
  ghost predicate BookOk(b: Book) {
    && IdsOk(b.launched.Keys, b.terminal, b.cancels, b.inflight)
    && RecordsOk(b.requests, b.terminal)
    && b.counts.launched == |b.launched.Keys|
    && Terminals(b.counts) == |b.terminal|
  }

  lemma EmptyBookOk(b: Book)
    requires EmptyBook(b)
    ensures BookOk(b)
  {
    assert b.launched.Keys - b.terminal == {};
  }

  lemma OneMoreId(launched: set<Id>, terminal: set<Id>, cancels: set<Id>, inflight: int, id: Id)
    requires IdsOk(launched, terminal, cancels, inflight) && id !in launched
    ensures IdsOk(launched + {id}, terminal, cancels + {id}, inflight + 1)
  {
    assert (launched + {id}) - terminal == (launched - terminal) + {id};
  }

  lemma LaunchedOk(b: Book, id: Id, now: Time)
    requires BookOk(b) && id !in b.launched
    ensures BookOk(Launched(b, id, now))
  {
    OneMoreId(b.launched.Keys, b.terminal, b.cancels, b.inflight, id);
    var t := Launched(b, id, now);
    assert t.launched.Keys == b.launched.Keys + {id};
  }

  lemma OneMoreTerminal(launched: set<Id>, terminal: set<Id>, cancels: set<Id>, inflight: int, id: Id, left: set<Id>)
    requires IdsOk(launched, terminal, cancels, inflight) && id in launched && id !in terminal
    requires cancels - {id} <= left <= cancels
    ensures IdsOk(launched, terminal + {id}, left, inflight - 1)
    ensures |terminal + {id}| == |terminal| + 1
  {
    assert launched - (terminal + {id}) == (launched - terminal) - {id};
  }

  lemma OneMoreRecord(requests: seq<Record>, terminal: set<Id>, r: Record)
    requires RecordsOk(requests, terminal) && r.id !in terminal
    ensures RecordsOk(requests + [r], terminal + {r.id})
  {
    assert (requests + [r])[..|requests|] == requests;
  }

  /** Making one launched request terminal. */
  lemma TerminalOk(b: Book, t: Book, id: Id, r: Record)
    requires BookOk(b) && id in b.launched && id !in b.terminal && r.id == id
    requires t.launched == b.launched && t.terminal == b.terminal + {id} && t.inflight == b.inflight - 1
    requires t.requests == b.requests + [r]
    requires b.cancels - {id} <= t.cancels <= b.cancels
    requires t.counts.launched == b.counts.launched && Terminals(t.counts) == Terminals(b.counts) + 1
    ensures BookOk(t)
  {
    OneMoreRecord(b.requests, b.terminal, r);
    OneMoreTerminal(b.launched.Keys, b.terminal, b.cancels, b.inflight, id, t.cancels);
  }

  lemma CompletedCountsOk(c: Counts, m: Completion, requireJson: bool)
    ensures var after := CompletedCounts(c, m, requireJson);
            after.launched == c.launched && after.unsent == c.unsent && Terminals(after) == Terminals(c) + 1
  {
    CallsKeepCounters(CountOutcome(c, Classify(m.response, m.error, requireJson)), m.response.calls);
  }

  lemma AppliedOk(b: Book, m: Completion, requireJson: bool)
    requires BookOk(b) && m.id in b.launched
    ensures BookOk(Applied(b, m, requireJson))
  {
    if m.id !in b.terminal {
      CompletedCountsOk(b.counts, m, requireJson);
      TerminalOk(b, Applied(b, m, requireJson), m.id, CompletedRecord(b, m, requireJson));
    }
  }

  lemma EndedOk(b: Book, id: Id, o: Outcome)
    requires BookOk(b) && id in b.launched
    ensures BookOk(Ended(b, id, o))
  {
    if id !in b.terminal {
      TerminalOk(b, Ended(b, id, o), id, Record(id, b.launched[id], None, 0, o));
    }
  }

  lemma {:induction false} EndedAllOk(b: Book, order: seq<Id>, o: Outcome)
    requires BookOk(b) && Members(order) <= b.launched.Keys
    ensures BookOk(EndedAll(b, order, o))
  {
    if order != [] {
      EndedAllOk(b, order[..|order| - 1], o);
      EndedOk(EndedAll(b, order[..|order| - 1], o), order[|order| - 1], o);
    }
  }

  lemma OneMoreEnded(b: Book, order: seq<Id>, id: Id, o: Outcome)
    requires Members(order) + {id} <= b.launched.Keys
    ensures Members(order + [id]) == Members(order) + {id}
    ensures EndedAll(b, order + [id], o) == Ended(EndedAll(b, order, o), id, o)
  {
    assert (order + [id])[..|order|] == order;
  }

  /** Afterwards all of them are terminal and nothing else has changed among the ids. */
  lemma {:induction false} EndedAllEffect(b: Book, order: seq<Id>, o: Outcome)
    requires Members(order) <= b.launched.Keys
    ensures EndedAll(b, order, o).terminal == b.terminal + Members(order)
    ensures EndedAll(b, order, o).counts.unsent == b.counts.unsent
  {
    if order != [] { EndedAllEffect(b, order[..|order| - 1], o); }
  }

  // ---- the whole run ----

  datatype Phase = Launching(index: nat) | Draining | Finished

  datatype State = State(
    offered: nat, maxInflight: int, requireJson: bool,
    phase: Phase, nextId: Id, book: Book,
    sending: set<Id>,               // goroutines that have not delivered their completion
    channel: seq<Completion>)       // buffered, with room for `offered` completions

  datatype Event =
    | Launch(now: Time)
    | Skip                                   // the in-flight limit is reached
    | Interrupt                              // the sleep failed or the context is done
    | LastArrival
    | Deliver(completion: Completion)        // a goroutine writes to the channel
    | Receive                                // the driver reads the channel
    | EndAll(outcome: Outcome, order: seq<Id>)  // cancellation or drain expiry, in map order
    | Finish

  predicate Initial(s: State) {
    s.phase == Launching(0) && EmptyBook(s.book) && s.sending == {} && s.channel == [] && s.maxInflight >= 0
  }

  /** The order lists each of the ids once. */
  predicate Enumerates(order: seq<Id>, ids: set<Id>) {
    Members(order) == ids && |order| == |ids|
  }

  /** The driver's own steps follow its program; deliveries happen at any time. A delivery is
      enabled whenever the goroutine is ready: that the channel has room is a theorem. */
  ghost predicate Enabled(s: State, e: Event) {
    match e
    case Launch(_) => s.phase.Launching? && s.phase.index < s.offered && s.book.inflight < s.maxInflight
    case Skip => s.phase.Launching? && s.phase.index < s.offered && s.book.inflight >= s.maxInflight
    case Interrupt => s.phase.Launching? && s.phase.index < s.offered
    case LastArrival => s.phase.Launching? && s.phase.index >= s.offered
    case Deliver(m) => m.id in s.sending
    case Receive =>
      && s.channel != [] && s.channel[0].id in s.book.launched
      && ((s.phase.Launching? && s.phase.index < s.offered) || (s.phase.Draining? && s.book.inflight > 0))
    case EndAll(o, order) =>
      && s.phase.Draining? && s.book.inflight > 0 && (o.Canceled? || o.Unfinished?)
      && Enumerates(order, s.book.cancels) && s.book.cancels <= s.book.launched.Keys
    case Finish => s.phase.Draining? && s.book.inflight <= 0
  }

  function Unsent(b: Book, n: nat): Book { b.(counts := b.counts.(unsent := b.counts.unsent + n)) }

  ghost function Step(s: State, e: Event): State
    requires Enabled(s, e)
  {
    match e
    case Launch(now) =>
      s.(phase := Launching(s.phase.index + 1), nextId := s.nextId + 1, book := Launched(s.book, s.nextId, now),
         sending := s.sending + {s.nextId})
    case Skip => s.(phase := Launching(s.phase.index + 1), nextId := s.nextId + 1, book := Unsent(s.book, 1))
    case Interrupt => s.(phase := Draining, book := Unsent(s.book, s.offered - s.phase.index))
    case LastArrival => s.(phase := Draining)
    case Deliver(m) => s.(sending := s.sending - {m.id}, channel := s.channel + [m])
    case Receive => s.(channel := s.channel[1..], book := Applied(s.book, s.channel[0], s.requireJson))
    case EndAll(o, order) => s.(book := EndedAll(s.book, order, o))
    case Finish => s.(phase := Finished)
  }

  ghost predicate IsRun(s: State, events: seq<Event>)
    decreases |events|
  {
    events == [] || (Enabled(s, events[0]) && IsRun(Step(s, events[0]), events[1..]))
  }

  ghost function After(s: State, events: seq<Event>): State
    requires IsRun(s, events)
    decreases |events|
  {
    if events == [] then s else After(Step(s, events[0]), events[1..])
  }

  // ---- the invariant ----

  function Waiting(channel: seq<Completion>): set<Id> {
    if channel == [] then {} else Waiting(channel[..|channel| - 1]) + {channel[|channel| - 1].id}
  }

  predicate DistinctWaiting(channel: seq<Completion>) {
    channel == [] ||
    (DistinctWaiting(channel[..|channel| - 1]) && channel[|channel| - 1].id !in Waiting(channel[..|channel| - 1]))
  }

  ghost predicate Accounted(s: State) {
    match s.phase
    case Launching(index) => index <= s.offered && s.book.counts.launched + s.book.counts.unsent == index
    case _ => s.book.counts.launched + s.book.counts.unsent == s.offered
  }

  /** Where the completions of launched requests are. */
  ghost predicate Flow(s: State) {
    && s.sending <= s.book.launched.Keys
    && Waiting(s.channel) <= s.book.launched.Keys && s.sending !! Waiting(s.channel) && DistinctWaiting(s.channel)
    && (s.phase.Launching? || s.book.inflight > 0 ==>
          && s.book.launched.Keys - s.book.terminal == s.sending + Waiting(s.channel)
          && s.book.cancels == s.book.launched.Keys - s.book.terminal)
  }

  ghost predicate Below(ids: set<Id>, bound: Id) { forall id :: id in ids ==> id < bound }

  ghost predicate Inv(s: State) {
    && BookOk(s.book)
    && s.book.inflight <= s.maxInflight
    && Below(s.book.launched.Keys, s.nextId)
    && Flow(s)
    && Accounted(s)
    && (s.phase.Finished? ==> s.book.inflight == 0)
  }

  lemma {:induction false} WaitingSize(channel: seq<Completion>)
    requires DistinctWaiting(channel)
    ensures |Waiting(channel)| == |channel|
  {
    if channel != [] { WaitingSize(channel[..|channel| - 1]); }
  }

  lemma WaitingAppend(channel: seq<Completion>, m: Completion)
    ensures Waiting(channel + [m]) == Waiting(channel) + {m.id}
    ensures DistinctWaiting(channel + [m]) <==> DistinctWaiting(channel) && m.id !in Waiting(channel)
  {
    assert (channel + [m])[..|channel|] == channel;
  }

  lemma {:induction false} WaitingRest(channel: seq<Completion>)
    requires channel != [] && DistinctWaiting(channel)
    ensures Waiting(channel[1..]) == Waiting(channel) - {channel[0].id} && DistinctWaiting(channel[1..])
    ensures channel[0].id in Waiting(channel)
  {
    var n := |channel| - 1;
    var front, last := channel[..n], channel[n];
    if n > 0 {
      WaitingRest(front);
      assert channel[1..][..n - 1] == front[1..];
      assert channel[1..][n - 1] == last;
    }
  }

  lemma LaunchKeepsFlow(s: State, now: Time)
    requires Flow(s) && s.book.terminal <= s.book.launched.Keys && s.nextId !in s.book.launched
    requires Enabled(s, Launch(now))
    ensures Flow(Step(s, Launch(now)))
  {
    var t := Step(s, Launch(now));
    assert t.book.launched.Keys == s.book.launched.Keys + {s.nextId};
    assert t.book.launched.Keys - t.book.terminal == (s.book.launched.Keys - s.book.terminal) + {s.nextId};
  }

  lemma LaunchKeepsInv(s: State, now: Time)
    requires Inv(s) && Enabled(s, Launch(now))
    ensures Inv(Step(s, Launch(now)))
  {
    assert BookOk(Launched(s.book, s.nextId, now)) by { LaunchedOk(s.book, s.nextId, now); }
    assert Flow(Step(s, Launch(now))) by { LaunchKeepsFlow(s, now); }
    LaunchedBelow(s.book, s.nextId, now);
  }

  lemma LaunchedBelow(b: Book, id: Id, now: Time)
    requires Below(b.launched.Keys, id)
    ensures Below(Launched(b, id, now).launched.Keys, id + 1)
  {
  }

  lemma UnsentOk(b: Book, n: nat)
    requires BookOk(b)
    ensures BookOk(Unsent(b, n))
  {
  }

  lemma ControlKeepsInv(s: State, e: Event)
    requires Inv(s) && (e.Skip? || e.Interrupt? || e.LastArrival? || e.Finish?) && Enabled(s, e)
    ensures Inv(Step(s, e))
  {
    if e.Skip? { UnsentOk(s.book, 1); }
    if e.Interrupt? { UnsentOk(s.book, s.offered - s.phase.index); }
  }

  lemma DeliverKeepsInv(s: State, m: Completion)
    requires Inv(s) && Enabled(s, Deliver(m))
    ensures Inv(Step(s, Deliver(m)))
  {
    WaitingAppend(s.channel, m);
    assert s.sending - {m.id} + (Waiting(s.channel) + {m.id}) == s.sending + Waiting(s.channel);
  }

  /** What the driver reads is never terminal already. */
  lemma ReceivedIsLive(s: State)
    requires Flow(s) && Enabled(s, Receive)
    ensures s.channel[0].id in s.book.launched.Keys - s.book.terminal
  {
    WaitingRest(s.channel);
  }

  lemma ReceiveKeepsFlow(s: State)
    requires Flow(s) && Enabled(s, Receive)
    ensures Flow(Step(s, Receive))
  {
    var m := s.channel[0];
    ReceivedIsLive(s);
    WaitingRest(s.channel);
    var live, b := s.book.launched.Keys - s.book.terminal, Applied(s.book, m, s.requireJson);
    assert live == s.sending + Waiting(s.channel) && s.book.cancels == live;
    assert b.launched.Keys - b.terminal == live - {m.id} == b.cancels;
    assert live - {m.id} == s.sending + Waiting(s.channel[1..]);
  }

  lemma ReceiveKeepsInv(s: State)
    requires Inv(s) && Enabled(s, Receive)
    ensures Inv(Step(s, Receive))
  {
    ReceivedIsLive(s);
    ReceiveKeepsFlow(s);
    AppliedOk(s.book, s.channel[0], s.requireJson);
    CompletedCountsOk(s.book.counts, s.channel[0], s.requireJson);
  }

  lemma EndAllKeepsInv(s: State, o: Outcome, order: seq<Id>)
    requires Inv(s) && Enabled(s, EndAll(o, order))
    ensures Inv(Step(s, EndAll(o, order)))
    ensures Step(s, EndAll(o, order)).book.inflight == 0
  {
    EndedAllOk(s.book, order, o);
    EndedAllEffect(s.book, order, o);
    var t := Step(s, EndAll(o, order));
    assert t.book.launched.Keys - t.book.terminal == {};
  }

  lemma StepKeepsInv(s: State, e: Event)
    requires Inv(s) && Enabled(s, e)
    ensures Inv(Step(s, e))
    ensures Step(s, e).offered == s.offered && Step(s, e).maxInflight == s.maxInflight
  {
    match e
    case Deliver(m) => DeliverKeepsInv(s, m);
    case Receive => ReceiveKeepsInv(s);
    case EndAll(o, order) => EndAllKeepsInv(s, o, order);
    case Launch(now) => LaunchKeepsInv(s, now);
    case _ => ControlKeepsInv(s, e);
  }

  lemma InitialInv(start: State)
    requires Initial(start)
    ensures Inv(start)
  {
    EmptyBookOk(start.book);
  }

  lemma RunFromStart(start: State, events: seq<Event>)
    requires Initial(start)
    requires IsRun(start, events)
    ensures Inv(After(start, events))
    ensures After(start, events).offered == start.offered && After(start, events).maxInflight == start.maxInflight
  {
    InitialInv(start);
    RunKeepsInv(start, events);
  }

  lemma {:induction false} RunKeepsInv(s: State, events: seq<Event>)
    requires Inv(s) && IsRun(s, events)
    ensures Inv(After(s, events))
    ensures After(s, events).offered == s.offered && After(s, events).maxInflight == s.maxInflight
    decreases |events|
  {
    if events != [] {
      StepKeepsInv(s, events[0]);
      RunKeepsInv(Step(s, events[0]), events[1..]);
    }
  }

  // ---- provider attempts ----

  lemma {:induction false} EndedAllTallies(b: Book, order: seq<Id>, o: Outcome)
    requires Members(order) <= b.launched.Keys
    ensures var c := EndedAll(b, order, o).counts;
            c.attempts == b.counts.attempts && c.stages == b.counts.stages && c.models == b.counts.models
  {
    if order != [] { EndedAllTallies(b, order[..|order| - 1], o); }
  }

  lemma StepKeepsBalance(s: State, e: Event)
    requires Balanced(s.book.counts) && Enabled(s, e)
    ensures Balanced(Step(s, e).book.counts)
  {
    if e.EndAll? { EndedAllTallies(s.book, e.order, e.outcome); }
    if e.Receive? {
      var m := s.channel[0];
      CallsBalanced(CountOutcome(s.book.counts, Classify(m.response, m.error, s.requireJson)), m.response.calls);
    }
  }

  /** At every moment provider attempts are the sum of the stage counts and of the model counts. */
  lemma {:induction false} RunKeepsBalance(s: State, events: seq<Event>)
    requires Balanced(s.book.counts) && IsRun(s, events)
    ensures Balanced(After(s, events).book.counts)
    decreases |events|
  {
    if events != [] {
      StepKeepsBalance(s, events[0]);
      RunKeepsBalance(Step(s, events[0]), events[1..]);
    }
  }

  // ---- outcomes ----

  function Counter(c: Counts, o: Outcome): nat {
    match o
    case Succeeded => c.succeeded
    case Failed => c.failed
    case Rejected => c.rejected
    case Canceled => c.canceled
    case Unfinished => c.unfinished
  }

  /** The records with an outcome. */
  function Tally(requests: seq<Record>, o: Outcome): nat {
    if requests == [] then 0
    else Tally(requests[..|requests| - 1], o) + if requests[|requests| - 1].outcome == o then 1 else 0
  }

  /** Each counter is the number of records with its outcome. */
  ghost predicate Tallied(c: Counts, requests: seq<Record>) { forall o :: Counter(c, o) == Tally(requests, o) }

  lemma OneMoreTally(c: Counts, requests: seq<Record>, r: Record)
    requires Tallied(c, requests)
    ensures Tallied(CountOutcome(c, r.outcome), requests + [r])
  {
    assert (requests + [r])[..|requests|] == requests;
    forall o ensures Counter(CountOutcome(c, r.outcome), o) == Tally(requests + [r], o) {
      assert Counter(c, o) == Tally(requests, o);
    }
  }

  lemma {:induction false} CallsKeepTally(c: Counts, calls: seq<ProviderCall>, requests: seq<Record>)
    requires Tallied(c, requests)
    ensures Tallied(CountCalls(c, calls), requests)
  {
    if calls != [] {
      var front := CountCalls(c, calls[..|calls| - 1]);
      CallsKeepTally(c, calls[..|calls| - 1], requests);
      forall o ensures Counter(CountCalls(c, calls), o) == Tally(requests, o) {
        assert Counter(front, o) == Tally(requests, o);
      }
    }
  }

  lemma {:induction false} EndedAllKeepsTally(b: Book, order: seq<Id>, o: Outcome)
    requires Members(order) <= b.launched.Keys && Tallied(b.counts, b.requests)
    ensures var after := EndedAll(b, order, o); Tallied(after.counts, after.requests)
  {
    if order != [] {
      var front, id := EndedAll(b, order[..|order| - 1], o), order[|order| - 1];
      EndedAllKeepsTally(b, order[..|order| - 1], o);
      OneMoreTally(front.counts, front.requests, Record(id, b.launched[id], None, 0, o));
    }
  }

  lemma StepKeepsTally(s: State, e: Event)
    requires Tallied(s.book.counts, s.book.requests) && Enabled(s, e)
    ensures var b := Step(s, e).book; Tallied(b.counts, b.requests)
  {
    var c, requests := s.book.counts, s.book.requests;
    if e.EndAll? { EndedAllKeepsTally(s.book, e.order, e.outcome); }
    if e.Receive? {
      var m := s.channel[0];
      var record := CompletedRecord(s.book, m, s.requireJson);
      OneMoreTally(c, requests, record);
      CallsKeepTally(CountOutcome(c, record.outcome), m.response.calls, requests + [record]);
    }
    if e.Launch? || e.Skip? || e.Interrupt? {
      var b := Step(s, e).book;
      forall o ensures Counter(b.counts, o) == Tally(b.requests, o) { assert Counter(c, o) == Tally(requests, o); }
    }
  }

  /** At every moment each outcome counter is the number of records with that outcome. */
  lemma {:induction false} RunKeepsTally(s: State, events: seq<Event>)
    requires Tallied(s.book.counts, s.book.requests) && IsRun(s, events)
    ensures var b := After(s, events).book; Tallied(b.counts, b.requests)
    decreases |events|
  {
    if events != [] {
      StepKeepsTally(s, events[0]);
      RunKeepsTally(Step(s, events[0]), events[1..]);
    }
  }

  // ---- the theorems ----

  /** The accounting check of the source. */
  predicate AccountingHolds(offered: nat, c: Counts) {
    offered == c.launched + c.unsent && c.launched == Terminals(c)
  }

  /** The bookkeeping of a driver that has nothing in flight. */
  lemma IdleBook(b: Book)
    requires BookOk(b) && b.inflight == 0
    ensures b.terminal == b.launched.Keys && b.counts.launched == Terminals(b.counts)
    ensures Ids(b.requests) == b.launched.Keys && DistinctIds(b.requests) && |b.requests| == b.counts.launched
  {
    assert b.launched.Keys - b.terminal == {};
  }

  /** In every interleaving that finishes, the accounting check passes, every launched request has
      exactly one record and one outcome, each outcome counter is the number of records with that
      outcome, and provider attempts are the sum of the stage counts and of the model counts. */
  lemma FinishedRunIsAccounted(start: State, events: seq<Event>)
    requires Initial(start)
    requires IsRun(start, events) && After(start, events).phase.Finished?
    ensures var b := After(start, events).book;
            && AccountingHolds(start.offered, b.counts)
            && Ids(b.requests) == b.launched.Keys && DistinctIds(b.requests) && |b.requests| == b.counts.launched
            && Balanced(b.counts) && Tallied(b.counts, b.requests)
  {
    RunFromStart(start, events);
    RunKeepsBalance(start, events);
    RunKeepsTally(start, events);
    IdleBook(After(start, events).book);
  }

  /** At every moment of every interleaving the in-flight count is the number of live cancel entries
      and within its limit, a goroutine that wants to deliver finds room in the channel, and what the
      driver reads next is not yet terminal, so its guard against a second outcome never acts. */
  lemma EveryMoment(start: State, events: seq<Event>)
    requires Initial(start)
    requires IsRun(start, events)
    ensures var s := After(start, events);
            && 0 <= s.book.inflight == |s.book.cancels - s.book.terminal| <= start.maxInflight
            && (s.sending != {} ==> |s.channel| < start.offered)
            && (Enabled(s, Receive) ==> s.channel[0].id !in s.book.terminal)
            && (s.phase.Draining? && s.book.inflight > 0 ==> s.sending != {} || s.channel != [])
  {
    RunFromStart(start, events);
    var s := After(start, events);
    LiveCancels(s.book);
    ChannelHasRoom(s);
    if Enabled(s, Receive) { ReceivedIsLive(s); }
    assert s.sending == {} && s.channel == [] ==> s.sending + Waiting(s.channel) == {};
  }

  lemma LiveCancels(b: Book)
    requires BookOk(b)
    ensures b.inflight == |b.cancels - b.terminal| >= 0
  {
    assert b.cancels - b.terminal == b.launched.Keys - b.terminal;
  }

  lemma ChannelHasRoom(s: State)
    requires Inv(s)
    ensures s.sending != {} ==> |s.channel| < s.offered
  {
    WaitingSize(s.channel);
    var all := s.sending + Waiting(s.channel);
    assert s.sending !! Waiting(s.channel);
    assert |all| == |s.sending| + |Waiting(s.channel)|;
    SubsetSize(all, s.book.launched.Keys);
  }

  lemma {:induction false} SubsetSize(a: set<Id>, b: set<Id>)
    requires a <= b
    ensures |a| <= |b|
    decreases |a|
  {
    if a != {} {
      var x :| x in a;
      SubsetSize(a - {x}, b - {x});
    }
  }

  // ---- the object ----

  class Population {
    var launched: map<Id, Time>
    var terminal: set<Id>
    var cancels: set<Id>
    var inflight: int
    var counts: Counts
    var requests: seq<Record>

    ghost function Value(): Book
      reads this
    {
      Book(launched, terminal, cancels, inflight, counts, requests)
    }

    constructor ()
      ensures EmptyBook(Value())
    {
      launched, terminal, cancels, inflight, requests := map[], {}, {}, 0, [];
      counts := Counts(0, 0, 0, 0, 0, 0, 0, 0, map[], map[]);
    }

    method Launch(id: Id, now: Time)
      modifies this
      ensures Value() == Launched(old(Value()), id, now)
    {
      cancels := cancels + {id};
      inflight := inflight + 1;
      counts := counts.(launched := counts.launched + 1);
      launched := launched[id := now];
    }

    method ApplyCompletion(m: Completion, requireJson: bool)
      requires m.id in launched
      modifies this
      ensures Value() == Applied(old(Value()), m, requireJson)
    {
      if m.id in terminal { return; }
      terminal := terminal + {m.id};
      inflight := inflight - 1;
      cancels := cancels - {m.id};
      var outcome := Classify(m.response, m.error, requireJson);
      counts := CountOutcome(counts, outcome);
      if !m.response.cacheHit {
        CountAll(m.response.calls);
      }
      var latency := Max(0, m.completedAt - launched[m.id]);
      requests := requests + [Record(m.id, launched[m.id], Some(m.completedAt), latency, outcome)];
    }

    method CountAll(calls: seq<ProviderCall>)
      modifies this`counts
      ensures counts == CountCalls(old(counts), calls)
    {
      for i := 0 to |calls|
        invariant counts == CountCalls(old(counts), calls[..i])
      {
        assert calls[..i + 1][..i] == calls[..i];
        var stage, model := Named(calls[i].stage), Named(calls[i].model);
        counts := counts.(attempts := counts.attempts + 1, stages := Bump(counts.stages, stage),
                          models := Bump(counts.models, model));
      }
      assert calls[..|calls|] == calls;
    }

    method EndOne(id: Id, outcome: Outcome)
      requires id in launched
      modifies this
      ensures Value() == Ended(old(Value()), id, outcome)
    {
      if id !in terminal {
        terminal := terminal + {id};
        counts := CountOutcome(counts, outcome);
        requests := requests + [Record(id, launched[id], None, 0, outcome)];
        inflight := inflight - 1;
      }
    }

    /** Ends everything that is still live, in whatever order the map hands out its entries. */
    method EndAllLive(outcome: Outcome) returns (order: seq<Id>)
      requires cancels <= launched.Keys
      modifies this
      ensures Enumerates(order, old(cancels))
      ensures Value() == EndedAll(old(Value()), order, outcome)
    {
      order := [];
      var pending := cancels;
      while pending != {}
        invariant pending <= old(cancels) && cancels == old(cancels) && launched == old(launched)
        invariant Members(order) == old(cancels) - pending && |order| + |pending| == |old(cancels)|
        invariant Value() == EndedAll(old(Value()), order, outcome)
        decreases |pending|
      {
        var id :| id in pending;
        EndOne(id, outcome);
        OneMoreEnded(old(Value()), order, id, outcome);
        order := order + [id];
        pending := pending - {id};
      }
    }
  }
}
