# Verification of harden-llm

This project is a Dafny model of the parts of harden-llm that carry state, protocols and
exact arithmetic, with proofs about every input, every run and every interleaving of them.
`dafny verify dfyconfig.toml` checks the whole project.

Code that updates things in place is modelled as classes and methods with loops; each method is
proved equal to a pure step function, and the theorems about whole runs are proved about that
function. Clocks, randomness, the network, JSON decoding, the PostgreSQL server and provider
calls are parameters or steps of the environment: theorems hold for every value they can take.
Mutex sections are atomic steps. The statements of concurrent transactions interleave: a statement reads
the rows committed when it starts and writes a row when no other transaction holds it. Where these two
moments can be told apart they are two steps.

| modules | subject | main results |
|---|---|---|
| `TrackingSession`, `TrackingStore`, `TrackingStatements`, `TrackingProtocol`, `TrackingRuns` | the tracking record of a request, its row, and the two together | every interleaving of statements leaves the table of whole transactions in commit order; under loss, duplication and reordering of snapshots, and under every interleaving of statements, the row is the delivered snapshot of greatest revision; terminal rows are final; a wait's end-callback acts only on its own wait and once |
| `ByteText`, `CanonicalJson`, `RawJson`, `CacheKey` | canonical JSON and the cache key, from bytes | a parser inverts the canonical encoding; key order cannot show; what encoding makes of invalid bytes and colliding keys; the hash preimage determines the normalized operation on valid text, and collides off it |
| `Accounting`, `LedgerOrder`, `ProviderAccumulator`, `Folds` | ledgers with checked arithmetic | a commutative monoid, failure included; exactly which rows fold differently in another order; the accumulator equals an exact tally of every count over every history |
| `Admission` | permits around one provider call | on every environment: native only after an accepted claim and dispatch, at most one settlement per permit and exactly one unless a cleanup call before it panics, `never_dispatched` exactly when native was not entered |
| `PoolSignals` | single-flight pool wakes | one downstream wake at a time, flights closed once, how old the answer behind a nil return can be, and exactly when it is an answer of the caller's own pool |
| `Draft`, `DraftRuns` | draft rows with expiry and a bounded sweep | exactly when interleaved transactions reply like compare-and-set on a logical map, and exactly when an acknowledged save is lost; saves in turn with clocks in order always reply like it |
| `ArrivalSchedule`, `LoadDriver`, `Counting` | the open-loop load driver | the schedule is exactly the arrivals of the rate; every launched request gets one terminal outcome and one record in every interleaving, and the counters count the records |
| `Scheduler`, `StrategyEngine` | budgeted live experiments | counters, attempt limits, budgets, retry hints, and a bound on how often a waiting actor is passed by |
| `EventStream`, `EventEncoding`, `RunStream` | the client's event reader | frames and limit errors do not depend on how bytes arrive; an exact round trip; nothing after a terminal event changes the answer but its recording |
| `EventText`, `ResponsesCollector`, `EventSeparation` | the two collectors of a Responses stream | the incremental collector refines the whole-body one; they find the same events exactly when no line of white space has data on both sides within a block |

Facts about the code that the proofs brought out:

- `AdmissionPoolSignals` keeps one acknowledgement time for all pools, so with two pools a wake can
  return nil on the other pool's acknowledgement (`PoolSignals.TwoPoolsShareAcknowledgements`); this
  happens exactly in runs with a crossed call (`PoolSignals.OwnReturnsIff`).
- An acknowledgement is dated when it is recorded, not when the pool gave it, so the 50 ms of freshness
  grow by the time between the two, without bound (`PoolSignals.JoinedBoundIsTight`).
- A panic in a cleanup call of an admission skips the settlement of its permit
  (`Admission.OutcomeIsTruthful` says exactly when).
- The settlement of an attempt uses the identifiers that the store returned with the dispatch mark,
  which are not compared with the permit (`Admission.Execute` states exactly when they agree,
  `Admission.DispatchMayNameAnother` that they need not).
- The fold over history rows depends on their order when a usage or cost that is `unavailable` and yet
  not zero stands among rows that can be folded, and also on valid rows when none has a cost and their
  sources differ: then the last source stays (`LedgerOrder.OrderShowsIff`,
  `LedgerOrder.ValidRowsDependOnOrder`).
- Two operations that differ only in bytes that are not UTF-8 share a cache key
  (`CacheKey.InvalidBytesCollide`), and of object keys that differ so all members but one are lost
  (`RawJson.LostMember`).
- An acknowledged draft can be lost although no clock is wrong: a sweep that chose the expired row waits for
  the save that renews it and then removes the renewed row (`DraftRuns.WaitingSweepLosesUpdate`). An INSERT
  whose source row is swept while it waits can also build on an old revision
  (`DraftRuns.StrandedInsertLosesUpdate`). Nothing else loses a save (`Draft.NothingIsLostIff`).
- A draft's conflict reply can name the very revision that the caller expected, when another save
  commits between the refused INSERT and the SELECT (`DraftRuns.ConflictIsOvertaken`).
- A draft swept by a later clock is missing for a caller whose clock says that it is live
  (`DraftRuns.ClockBackShowsSweep`).
- The sum in scenario validation can wrap, and validation is right exactly while it does not; a run is still
  bounded (`ArrivalSchedule.ValidationSumWraps`, `ArrivalSchedule.ValidationIsRightIff`,
  `ArrivalSchedule.PlanRun`).
- A line of white space ends an event for the incremental collector and not for the whole-body one, so
  data on both sides of it is two events for one and one for the other
  (`EventSeparation.SameEventsIff`, `EventSeparation.SeparationShows`).
- The guard against a second terminal outcome in the load driver never acts
  (`LoadDriver.ReceivedIsLive`).

Text is modelled as sequences of characters. In the event readers and in the strings of `RawJson` and
`CacheKey` a character stands for a byte, and white space is that of the UTF-8 bytes; `ByteText` relates
bytes to text. Money is counted in whole picodollars. Integers are unbounded except where the code's int64
arithmetic can wrap or overflow, which is written out.

## Model

| member | source | states |
|---|---|---|
| `TrackingSession.TrackingTime` | stateful/request_tracking_store.go:240-245 | an observation time is never before the previous one, and is the clock's time unless the clock stepped back |
| `TrackingSession.StepKeepsCoherent` | stateful/request_tracking_session.go:26-187 | every method keeps the record coherent and only moves revisions and observation times forward |
| `TrackingSession.RunKeepsCoherent` | stateful/request_tracking_session.go:26-187 | in every reachable state running means no reason and no next attempt, waiting means a reason and a wait stage, finished matches a terminal status, and times are monotone even when the clock steps back |
| `TrackingSession.EqualRevisionsEqualRecords` | stateful/request_tracking_session.go:178-187 | two snapshots of one session with the same revision are the same record |
| `TrackingSession.EndWaitActsOnOwnWait` | stateful/request_tracking_session.go:92-122 | whatever is called in between, the end-callback changes something exactly when no other transition moved the fence and the request is not finished; then the record still carried what that wait set |
| `TrackingSession.EndWaitActsOnce` | stateful/request_tracking_session.go:108-121 | after its first call a callback never changes anything |
| `TrackingSession.TrackingSession.constructor` | stateful/request_tracking_session.go:23-25 | a new session holds the new record at epoch zero |
| `TrackingSession.TrackingSession.MarkChanged` | stateful/request_tracking_session.go:26-31 | raises the revision by one and moves the observation time forward |
| `TrackingSession.TrackingSession.Phase` | stateful/request_tracking_session.go:32-55 | is the phase step of the session machine |
| `TrackingSession.TrackingSession.Attempt` | stateful/request_tracking_session.go:56-63 | is the attempt step of the session machine |
| `TrackingSession.TrackingSession.AdmissionWait` | stateful/request_tracking_session.go:67-91 | is the admission-wait step of the session machine |
| `TrackingSession.TrackingSession.Wait` | stateful/request_tracking_session.go:92-107 | is the wait step and returns the epoch its callback captures, or none when finished |
| `TrackingSession.TrackingSession.EndWait` | stateful/request_tracking_session.go:108-121 | is the end-wait step for the captured epoch |
| `TrackingSession.TrackingSession.Progress` | stateful/request_tracking_session.go:123-148 | is the progress step of the session machine |
| `TrackingSession.TrackingSession.Finish` | stateful/request_tracking_session.go:154-177 | is the finish step of the session machine; only the first one acts |
| `TrackingSession.TrackingSession.Snapshot` | stateful/request_tracking_session.go:178-187 | is the snapshot step, which a heartbeat may mark as changed, and returns the record it leaves |
| `TrackingStore.AcknowledgedUpdateIsStored` | stateful/request_tracking_store.go:191-218 | success means that the table the answer was decided on holds this owner's row at this revision or a newer one, and this snapshot if it is the same revision |
| `TrackingStore.MicrosIdempotent` | stateful/request_tracking_store.go:247-274 | storing a stored record changes nothing, so a snapshot compares equal to its own row |
| `TrackingStore.TerminalRowIsFinal` | stateful/request_tracking_store.go:191-218 | no update replaces a terminal row |
| `TrackingStatements.StepKeepsInv` | stateful/request_tracking_store.go:142-218 | in every interleaving transactions hold disjoint rows, and what a transaction decided on stays true until it ends |
| `TrackingStatements.StepIsWhole` | stateful/request_tracking_store.go:142-218 | a statement changes the table only by committing, and then exactly as the whole transaction would on the table of that moment |
| `TrackingStatements.WritesAreSerial` | stateful/request_tracking_store.go:142-218 | every interleaving of statements leaves the table that its transactions leave one after the other in commit order |
| `TrackingStatements.FoundIsReserved` | stateful/request_tracking_store.go:175-187 | a row under a fresh owner exists only if a reservation of that owner was committed |
| `TrackingStatements.AcknowledgedReservationIsDurable` | stateful/request_tracking_store.go:169-187 | whatever runs in between, a reservation acknowledged by its look-up was committed |
| `TrackingStatements.TrackingTable.constructor` | stateful/request_tracking_store.go:142-237 | starts with no rows and no transactions |
| `TrackingStatements.TrackingTable.StartReserve` | stateful/request_tracking_store.go:142-148 | refuses a record that is not new, or opens a transaction at the clock reading |
| `TrackingStatements.TrackingTable.RemoveOwn` | stateful/request_tracking_store.go:149-152 | deletes the requested row if it has expired |
| `TrackingStatements.TrackingTable.RemoveExpired` | stateful/request_tracking_store.go:153-155 | deletes at most 99 expired rows of the scope |
| `TrackingStatements.TrackingTable.InsertReserved` | stateful/request_tracking_store.go:159-167 | inserts the new row, or reports a violated check or a conflict with a row it can see |
| `TrackingStatements.TrackingTable.CommitReserve` | stateful/request_tracking_store.go:168-175 | the deletions and the row become visible together unless rolled back, and only a confirmed commit is acknowledged at once |
| `TrackingStatements.TrackingTable.ConfirmReserve` | stateful/request_tracking_store.go:175-187 | an unconfirmed reservation is acknowledged exactly when the live row is its own |
| `TrackingStatements.TrackingTable.UpdateFenced` | stateful/request_tracking_store.go:195-199 | writes a row that passes the fence and the checks, and touches nothing otherwise |
| `TrackingStatements.TrackingTable.SelectCurrent` | stateful/request_tracking_store.go:200-217 | the answer to an update of no row, from the row of that later moment |
| `TrackingStatements.TrackingTable.CommitUpdate` | stateful/request_tracking_store.go:209-217 | the written row becomes visible unless rolled back |
| `TrackingStatements.TrackingTable.Lookup` | stateful/request_tracking_store.go:220-237 | the live row or nothing |
| `TrackingProtocol.LatestIsGreatest` | stateful/request_tracking_store.go:191-218 | the reference picks the delivered snapshot of greatest revision |
| `TrackingProtocol.StepKeepsChecked` | stateful/request_tracking_schema.sql:6-24 | documented callers keep the table's check constraints satisfied at every step |
| `TrackingProtocol.RunKeepsInv` | stateful/request_tracking_session.go:26-187 | session, snapshots in flight and table stay consistent through every interleaving of calls, deliveries, losses, duplicates and other writers |
| `TrackingProtocol.RowIsLatestSnapshot` | stateful/request_tracking_store.go:191-218 | in every run the session's row is the stored form of the delivered snapshot of greatest revision, or of the reserved record |
| `TrackingProtocol.RevisionGrows` | stateful/request_tracking_store.go:191-218 | while the table holds the row its revision never falls |
| `TrackingProtocol.AcknowledgedDeliveryIsCovered` | stateful/request_tracking_store.go:191-218 | whatever runs between its UPDATE and its SELECT, an acknowledged delivery finds the row at its revision or a newer one, and the mismatch branch is unreachable for one session |
| `TrackingProtocol.DeliveryWithinRetentionIsAcknowledged` | stateful/request_tracking_store.go:191-218 | whatever runs in between, within retention a committed delivery of any snapshot ever taken is acknowledged while the table holds the row |
| `TrackingProtocol.TerminalRowNeverReplaced` | stateful/request_tracking_store.go:191-218 | once terminal the row stays the same for the rest of every run while the table holds it |
| `TrackingProtocol.LostRowStaysLost` | stateful/request_tracking_store.go:142-218 | a swept row never comes back under its owner |
| `TrackingRuns.StatementIsStep` | stateful/request_tracking_store.go:142-218 | a statement of a session or of another caller is one step of the protocol or leaves the table alone |
| `TrackingRuns.StatementsAreProtocol` | stateful/request_tracking_store.go:142-218 | every interleaving of statements with the session's calls is a run of the protocol with the same table |
| `TrackingRuns.RowIsLatestSnapshot` | stateful/request_tracking_store.go:142-218 | after every interleaving of statements the session's row is the delivered snapshot of greatest revision, or the reserved record |
| `CanonicalJson.SortedListingUnique` | internal/cachekey/cache.go:148-152 | a strictly sorted listing of a key set is unique |
| `CanonicalJson.SortedKeys` | internal/cachekey/cache.go:148-152 | lists exactly the keys of an object in strictly ascending order |
| `CanonicalJson.QuotedRoundTrip` | internal/cachekey/cache.go:131-133 | the string parser inverts quoting on every string |
| `CanonicalJson.ParseCanon` | internal/cachekey/cache.go:121-170 | parsing the canonical text of any tree gives the tree back and leaves what follows |
| `CanonicalJson.CanonInjective` | internal/cachekey/cache.go:121-170 | equal canonical texts mean equal trees |
| `CanonicalJson.CollectKeys` | internal/cachekey/cache.go:148-152 | whatever order the map hands out its keys in, the result is the one sorted listing |
| `CanonicalJson.WriteItems` | internal/cachekey/cache.go:136-146 | appends the canonical text of the array |
| `CanonicalJson.WriteMembers` | internal/cachekey/cache.go:153-165 | appends the canonical text of the object |
| `CanonicalJson.WriteCanonical` | internal/cachekey/cache.go:121-170 | appends exactly the canonical text of the value to the buffer |
| `ByteText.TrimBytesOfText` | internal/providers/router.go:627 | trimming the bytes of a text gives the bytes of the trimmed text |
| `ByteText.RepairEncode` | internal/cachekey/cache.go:100-119 | decoding with replacement inverts UTF-8 encoding |
| `ByteText.ValidIff` | internal/cachekey/cache.go:100-119 | the valid byte strings are exactly the encodings of texts |
| `RawJson.JsonWellFormed` | internal/cachekey/cache.go:100-119 | a value that passes the check and the encoder decodes to a well-formed tree |
| `RawJson.LastKeyWins` | internal/cachekey/cache.go:100-119 | of object keys that look the same after replacement the greatest in byte order gives its value |
| `RawJson.DecodedKeys` | internal/cachekey/cache.go:100-119 | the decoded object has exactly the replaced keys |
| `RawJson.LostMember` | internal/cachekey/cache.go:100-119 | two keys that look the same collide and the member of the smaller one is lost |
| `RawJson.JsonOfInjective` | internal/cachekey/cache.go:100-119 | on valid text the decoded tree determines the value |
| `RawJson.ByteOrder` | internal/cachekey/cache.go:147-152 | texts are ordered as their bytes are, so sorting decoded keys by character is sorting them by byte |
| `RawJson.EncodeAndDecode` | internal/cachekey/cache.go:104-112 | encoding in key order and assigning members one after the other gives the decoded tree |
| `CacheKey.Normalize` | internal/cachekey/cache.go:41-81 | accepts exactly operations of the supported schema whose trimmed fields are all non-empty, whose headers name no credential and whose payload and headers pass the JSON check |
| `CacheKey.OperationVisible` | internal/cachekey/types.go:4-28 | the JSON form of an operation determines what is visible of it, and conversely |
| `CacheKey.PreimageDetermines` | internal/cachekey/cache.go:83-98 | two accepted operations share a preimage exactly when they and their versions look the same once invalid bytes are replaced and colliding keys resolved, in payload and headers too |
| `CacheKey.PreimageInjectiveOnValidText` | internal/cachekey/cache.go:83-98 | when every string and key is valid UTF-8 the preimage determines operation, payload, headers and version |
| `CacheKey.InvalidBytesCollide` | internal/cachekey/cache.go:83-98 | two models that differ in one invalid byte have the same preimage |
| `CacheKey.StableJSON` | internal/cachekey/cache.go:100-119 | the canonical text of the encoded and decoded value, or the error of the check, of the encoder or of the decoder's nesting limit |
| `CacheKey.Hash` | internal/cachekey/cache.go:83-98 | hashes the preimage of the normalized operation under its effective version, or reports why there is none |
| `Accounting.CheckedSumExact` | internal/accounting/accounting.go:420-432 | checked summation succeeds exactly when no term is negative and the exact sum fits, and then is that sum |
| `Accounting.CheckedSumLoop` | internal/accounting/accounting.go:420-432 | the loop computes the checked sum |
| `Accounting.CheckedTotalIsLoop` | internal/accounting/accounting.go:64-87 | the total of a usage is what the loop makes of its five counts |
| `Accounting.CheckedPairIsLoop` | internal/accounting/accounting.go:113-126 | the sum of two counts is what the loop makes of the pair |
| `Accounting.ValidUsageExact` | internal/accounting/accounting.go:47-69 | validation means exact non-negative counts that fit and, when unavailable, all zero, although its total wraps |
| `Accounting.WrappedTotalCanVanish` | internal/accounting/accounting.go:89-91 | the wrapped total of a non-zero usage can be zero |
| `Accounting.AddUsageExact` | internal/accounting/accounting.go:93-139 | on valid usage addition is component-wise and fails exactly when the exact total overflows |
| `Accounting.AddCostExact` | internal/accounting/accounting.go:203-240 | on valid costs addition fails exactly when an observation count overflows: unchecked counts that wrap are always caught |
| `Accounting.AddLedgerIsPlain` | internal/accounting/accounting.go:251-261 | on canonical ledgers addition is plain addition with three overflow bounds |
| `Accounting.AddLedgerCommutative` | internal/accounting/accounting.go:251-261 | commutative, failure included, and canonical ledgers stay canonical |
| `Accounting.PlusAssociative` | internal/accounting/accounting.go:251-261 | associative, failure included: one bracketing overflows exactly when the other does |
| `Accounting.EmptyIsIdentity` | internal/accounting/accounting.go:247-249 | the empty ledger is the identity on both sides |
| `Accounting.JoinSourcesLaws` | internal/accounting/accounting.go:443-452 | merging sources is associative, commutative and keeps trimmed text trimmed |
| `Accounting.FoldOrderIrrelevant` | stateful/history_queries.go:39-78 | every order of the same canonical rows folds to the same ledger or fails |
| `Accounting.FoldFromExact` | stateful/history_queries.go:39-78 | the fold fails exactly when one of three exact sums exceeds int64, and otherwise carries all five token counts, the joined statuses, the subtotal and both observation counts |
| `Accounting.InvalidRowsDependOnOrder` | stateful/history_queries.go:39-78 | a row that is not valid can make one order fail and another succeed |
| `Accounting.FoldRows` | stateful/history_queries.go:39-78 | the loop computes the fold and stops at the first failure |
| `LedgerOrder.FoldOf` | stateful/history_queries.go:39-78 | for rows of any kind the fold succeeds exactly when no stray value comes before its first measured one and the exact sums fit, and then is the sum of the cleaned rows |
| `LedgerOrder.CleanFoldOrder` | stateful/history_queries.go:39-78 | the sum of cleaned rows never depends on their order |
| `LedgerOrder.OrderShowsIff` | stateful/history_queries.go:39-78 | for rows of any kind some order folds differently exactly when they can be folded and led, and a stray usage or cost is among them or none has a cost and their sources differ |
| `LedgerOrder.ValidRowsDependOnOrder` | stateful/history_queries.go:39-78 | two valid rows without cost and with different sources fold to whichever comes last |
| `ProviderAccumulator.RunUsage` | internal/accounting/accounting.go:280-335 | after every history the usage is sound, its five counts are the accepted ones, and its status and the missing flag are those of the reference |
| `ProviderAccumulator.TokensAreAcceptedSum` | internal/accounting/accounting.go:280-335 | after every history the usage is valid and each of its five counts is the sum of the accepted usages |
| `ProviderAccumulator.CompleteExactlyWhenCovered` | internal/accounting/accounting.go:347-353 | the reported ledger is complete exactly when some attempt was observed and every observed one contributed valid complete usage |
| `ProviderAccumulator.CostIsTally` | internal/accounting/accounting.go:310-342 | after every history the cost is valid and equals the exact tally, one unknown observation for each observed attempt without usable cost unless that count would overflow |
| `ProviderAccumulator.ProviderAccumulator.constructor` | internal/accounting/accounting.go:272-274 | starts from the empty ledger |
| `ProviderAccumulator.ProviderAccumulator.Observe` | internal/accounting/accounting.go:280-335 | the new state and the first fault of one observation |
| `ProviderAccumulator.ProviderAccumulator.AddUnknownCost` | internal/accounting/accounting.go:337-342 | adds one unknown observation if it fits, and touches the cost alone |
| `ProviderAccumulator.ProviderAccumulator.Report` | internal/accounting/accounting.go:347-353 | the ledger, partial when measured usage is missing |
| `Admission.LegalCounts` | stateful/cpa_admission.go:136-330 | the numbers of grants, settlements and native runs of a legal trace follow from its phase, and a permit is left unsettled at the end only by a cleanup call that did not come back |
| `Admission.FinishedTraces` | stateful/cpa_admission.go:136-330 | a finished trace settles at most once and only a granted permit, settles a granted one exactly when every cleanup call came back, and settles never-dispatched exactly when native did not run |
| `Admission.NativeOnlyAfterDispatch` | stateful/cpa_admission.go:224-330 | wherever native runs, an accepted claim and then an accepted dispatch mark came before it |
| `Admission.ObservedKind` | stateful/batch/provider_observation.go:18-51 | a call that came back is never never-dispatched, is completed exactly without an error, and is a refusal only without interruption and partial output |
| `Admission.FinalKind` | stateful/cpa_admission.go:248-330 | completed exactly when the call returned without an error by its generation deadline |
| `Admission.SettlePermit` | stateful/cpa_admission.go:248-330 | one settlement under the given permit and nonce ends the trace exactly when the stop and stage calls before it come back, and none is made otherwise |
| `Admission.Abandon` | stateful/cpa_admission.go:151-172 | cancels the waiter and settles a granted permit as never dispatched exactly when the cleanup calls come back |
| `Admission.AwaitPermit` | stateful/cpa_admission.go:185-223 | returns the permit that the answers and the context decide, with a granted phase, or none with one that needs no settlement |
| `Admission.Secure` | stateful/cpa_admission.go:224-245 | succeeds exactly when claim and identity are accepted, the context is live in between, and the dispatch mark is accepted before both limits |
| `Admission.Request` | stateful/cpa_admission.go:173-245 | the guarded part of an admission keeps the trace legal, and its permit and success are those the environment decides |
| `Admission.Begin` | stateful/cpa_admission.go:136-246 | on every environment the trace is legal and either over or at an accepted dispatch; it succeeds exactly on the environments of Reaches and otherwise ends as Abandoned says |
| `Admission.Execute` | stateful/cpa_admission.go:248-330 | on every environment the trace ends in the outcome that the environment decides, native runs exactly when the admission succeeded and was not cancelled, and all calls name this permit and nonce exactly when the store echoed them |
| `Admission.OutcomeIsTruthful` | stateful/cpa_admission.go:248-330 | a granted permit is settled exactly when the cleanup calls before the settlement come back; the settlement is truthful about native and the local stop, and completed only for a success |
| `Admission.DispatchMayNameAnother` | stateful/cpa_admission.go:236-246 | for every permit an environment grants it and succeeds while the dispatch answer names any other permit |
| `PoolSignals.RunKeepsInv` | stateful/admission_signals.go:26-61 | the bookkeeping of callers and flights stays consistent in every interleaving |
| `PoolSignals.OneDownstreamWake` | stateful/admission_signals.go:26-61 | at most one caller is inside the downstream wake |
| `PoolSignals.FlightsCloseOnce` | stateful/admission_signals.go:43-61 | a flight is closed at most once, is closed once nobody leads it, and its error is set before |
| `PoolSignals.ReturnsAreJustified` | stateful/admission_signals.go:26-61 | when answers are recorded within d, a joined caller returns its flight's error or its context error, a led or joined nil has an answer of the pool no earlier than d before the call, and a cached nil one later than 50 ms and d before it |
| `PoolSignals.LeadersAreAnswered` | stateful/admission_signals.go:47-61 | behind a nil return of a leader there is an answer of its pool given after the call began |
| `PoolSignals.CachedBoundIsTight` | stateful/admission_signals.go:28-31 | for every lag a cached nil return exists on an answer one nanosecond inside the bound |
| `PoolSignals.JoinedBoundIsTight` | stateful/admission_signals.go:32-41 | however late a caller begins, it can join a flight and return nil on an answer given at the first nanosecond |
| `PoolSignals.OwnReturnsIff` | stateful/admission_signals.go:26-61 | in every run every nil return rests on a recent wake of its own pool exactly when no call of the run is crossed |
| `PoolSignals.OnePoolReturnsAreJustified` | stateful/admission_signals.go:26-61 | with one pool every nil return rests on a recent wake of that pool |
| `PoolSignals.TwoPoolsShareAcknowledgements` | stateful/admission_signals.go:26-61 | with two pools a call can be crossed: it returns nil although its pool was never woken |
| `PoolSignals.AdmissionPoolSignals.Begin` | stateful/admission_signals.go:27-50 | the first locked section: return fresh, join, or lead |
| `PoolSignals.AdmissionPoolSignals.End` | stateful/admission_signals.go:52-59 | the second locked section: record the result and release the flight |
| `Draft.StepKeepsInv` | stateful/draft.go:66-115 | through every reading and writing of every statement the table and the logical map stay related, transactions hold disjoint rows, and a written row stays what the INSERT would write |
| `Draft.UpsertedIff` | stateful/draft.go:101-108 | the INSERT has a source and returns a row exactly when the expected revision is the live one, and it is the next revision |
| `Draft.ReplyIff` | stateful/draft.go:66-115 | a reply is the one of compare-and-set at that step exactly when the last save is not hidden from a reader, a conflict is not overtaken, and a write that found its key free named the last save's revision |
| `Draft.RunRefinesIff` | stateful/draft.go:66-115 | in every interleaving and with every clock all replies are those of compare-and-set on the logical map exactly when no step is anomalous |
| `Draft.NothingIsLostIff` | stateful/draft.go:83-115 | in every interleaving and with every clock every acknowledged save is kept until it is followed or has expired by a sweep's clock, exactly when no commit removes a row live by its clock or builds on a row that was not the last |
| `Draft.ChainIff` | stateful/draft.go:83-115 | the acknowledged saves of a key form one chain, each following the one before, exactly when none finds the key free after a removal before its time or with another revision than it named |
| `Draft.EarlyIff` | stateful/draft.go:97-99 | an open transaction has removed a row that is live by its clock exactly when one of its removals took such a row |
| `Draft.RunRefinesInClockOrder` | stateful/draft.go:93-115 | when no call has a clock behind that of a committed save and no removal is stale, only overtaken conflicts are anomalous |
| `Draft.SavesInTurnRefine` | stateful/draft.go:66-115 | with saves one after the other and clocks in order every reply is that of compare-and-set |
| `Draft.UntouchedConflict` | stateful/draft.go:101-111 | when nothing touches the key between a refusal and its SELECT, the conflict names the revision that was refused and is not overtaken |
| `DraftRuns.ConflictIsOvertaken` | stateful/draft.go:96-111 | a run from the empty table in which the conflict reply names the revision that the caller expected |
| `Draft.NoUpdateIsLost` | stateful/draft.go:83-115 | without a stale removal and without an INSERT whose source is gone no commit of a run loses a save |
| `Draft.NoUpdateIsLostFromEmpty` | stateful/draft.go:83-115 | from an empty table such a run keeps every save and the saves of every key form one chain |
| `Draft.UntouchedSweep` | stateful/draft.go:97-99 | a chosen row that nothing touches before it is removed is not removed alive |
| `Draft.UntouchedInsert` | stateful/draft.go:101-108 | an INSERT whose key nothing touches between its source and its write does not find it gone |
| `DraftRuns.ClockBackShowsSweep` | stateful/draft.go:66-115 | a run from the empty table in which a row swept by a later clock is missing for a reader to whose clock it had not expired |
| `DraftRuns.WaitingSweepLosesUpdate` | stateful/draft.go:97-99 | a run from the empty table with clocks in order in which a waiting sweep removes an acknowledged save and the count starts again |
| `DraftRuns.StrandedInsertLosesUpdate` | stateful/draft.go:101-108 | a run from the empty table in which an INSERT whose source was swept while it waited acknowledges a revision that had been saved before |
| `Draft.DraftStore.constructor` | stateful/draft.go:66-115 | starts with no rows and no transactions |
| `Draft.DraftStore.BeginSave` | stateful/draft.go:93-96 | opens a transaction at a clock reading taken before it |
| `Draft.DraftStore.ChooseExpired` | stateful/draft.go:97-99 | the DELETE chooses at most 100 rows that have expired when it starts |
| `Draft.DraftStore.RemoveChosen` | stateful/draft.go:97-99 | the DELETE removes a chosen row, as it is by then, once it is free |
| `Draft.DraftStore.ReadSource` | stateful/draft.go:101-103 | the source of the INSERT has a row exactly when the revision is 0 or the live one |
| `Draft.DraftStore.InsertDraft` | stateful/draft.go:104-108 | the row that the upsert writes once the key is free, if any |
| `Draft.DraftStore.SelectRevision` | stateful/draft.go:109-111 | the conflict reply names the live revision of that later moment |
| `Draft.DraftStore.CommitSave` | stateful/draft.go:112-114 | the deletions and the row become visible together, and other sweeps pass over what is gone |
| `Draft.DraftStore.GetDraft` | stateful/draft.go:66-82 | the live row or nothing |
| `ArrivalSchedule.ArrivalsInDuration` | internal/capacity/driver.go:169-185 | arrival i falls inside the duration exactly when i is below the ceiling of duration times rate |
| `ArrivalSchedule.OffsetMonotone` | internal/capacity/driver.go:169-185 | offsets do not decrease |
| `ArrivalSchedule.StoredScheduleIsExact` | internal/capacity/driver.go:169-185 | the stored schedule has exactly the arrivals of the rate while products fit an int64 |
| `ArrivalSchedule.BuildArrivalSchedule` | internal/capacity/driver.go:169-185 | succeeds exactly for positive inputs whose count fits, has that many offsets, and under the scenario bound is exact |
| `ArrivalSchedule.ValidationSumWraps` | internal/capacity/driver.go:187-218 | a scenario that asks for too many requests passes validation because the sum wraps |
| `ArrivalSchedule.ValidationIsRightIff` | internal/capacity/driver.go:187-218 | a scenario that passes validation is within its limit exactly when the exact sum of both counts fits an int64 |
| `ArrivalSchedule.PlanRun` | internal/capacity/driver.go:261-285 | a planned run never holds more requests than allowed, and a valid scenario is planned exactly when the exact counts fit |
| `LoadDriver.Classify` | internal/capacity/driver.go:489-512 | success, refusal and cancellation in terms of the response and the send error, never unfinished |
| `LoadDriver.StepKeepsInv` | internal/capacity/driver.go:322-466 | every launch, delivery, completion, cancellation and drain step keeps the books |
| `LoadDriver.RunKeepsInv` | internal/capacity/driver.go:322-466 | the books hold after every interleaving |
| `LoadDriver.ReceivedIsLive` | internal/capacity/driver.go:334-361 | what the driver reads is never terminal already |
| `LoadDriver.RunKeepsBalance` | internal/capacity/driver.go:362-379 | provider attempts are the sum of stage counts and of model counts at every moment |
| `LoadDriver.RunKeepsTally` | internal/capacity/driver.go:334-466 | at every moment each outcome counter is the number of records with that outcome |
| `LoadDriver.EveryMoment` | internal/capacity/driver.go:322-466 | in flight is the number of live cancel entries and within its bound, a sender always finds room in the channel, and draining never waits for nothing |
| `LoadDriver.FinishedRunIsAccounted` | internal/capacity/driver.go:478-487 | in every interleaving that finishes the accounting check passes, each launched request has exactly one record, and each outcome counter is the number of records with that outcome |
| `LoadDriver.Population.Launch` | internal/capacity/driver.go:421-429 | the launch step of the books |
| `LoadDriver.Population.ApplyCompletion` | internal/capacity/driver.go:334-381 | the completion step of the books, duplicates included |
| `LoadDriver.Population.CountAll` | internal/capacity/driver.go:362-379 | counts every provider call once by stage and once by model |
| `LoadDriver.Population.EndAllLive` | internal/capacity/driver.go:443-466 | ends everything still live, in any order |
| `Scheduler.NewStateInv` | internal/livecapacity/scheduler.go:56-62 | a new scheduler satisfies the invariant |
| `Scheduler.AdmitKeepsInv` | internal/livecapacity/scheduler.go:72-120 | an admission keeps the invariant |
| `Scheduler.FinishKeepsInvIff` | internal/livecapacity/scheduler.go:121-182 | a completion keeps the invariant exactly when its kind is documented, or puts back an item that may still be tried |
| `Scheduler.RunKeepsInv` | internal/livecapacity/scheduler.go:72-182 | in every run no item is attempted more than three times and each route's active count is its active items |
| `Scheduler.TerminalAndRouteAreFinal` | internal/livecapacity/scheduler.go:72-182 | a terminal item, unconfirmed included, is never touched again, and a chosen route never changes |
| `Scheduler.AdmissionIsEligible` | internal/livecapacity/scheduler.go:72-120 | an admission starts a queued item on a ready route |
| `Scheduler.HintIsHonoured` | internal/livecapacity/scheduler.go:158-174 | after a rejection with a hint nothing starts on that route before finish plus hint, in every run |
| `Scheduler.RunStaysInBudget` | internal/livecapacity/scheduler.go:95-134 | while settled costs are within the reservation, spent plus reserved stays within the budget and reserved is the reservation times active and unknown-usage attempts, so the clamp at zero never acts |
| `Scheduler.BudgetFromStart` | internal/livecapacity/scheduler.go:56-134 | the same for every run of a new scheduler |
| `Scheduler.SnapshotPartitions` | internal/livecapacity/scheduler.go:232-249 | the progress counts partition the accepted items |
| `Scheduler.Scheduler.constructor` | internal/livecapacity/scheduler.go:56-62 | the initial state |
| `Scheduler.Scheduler.Admit` | internal/livecapacity/scheduler.go:72-120 | the admission step: the first item that may start, or none |
| `Scheduler.Scheduler.Dispatch` | internal/livecapacity/scheduler.go:95-117 | reserves, starts the item and paces the route |
| `Scheduler.Scheduler.Finish` | internal/livecapacity/scheduler.go:121-134 | the completion step: release, settle, conclude |
| `Scheduler.Scheduler.Conclude` | internal/livecapacity/scheduler.go:135-182 | what each kind of outcome does to item and route |
| `Scheduler.Scheduler.Back` | internal/livecapacity/scheduler.go:158-174 | pause, concurrency and interval after a refusal |
| `Scheduler.Scheduler.Stop` | internal/livecapacity/scheduler.go:183-187 | only the first stop reason is kept |
| `Scheduler.Scheduler.Done` | internal/livecapacity/scheduler.go:188-195 | true exactly when nothing is queued or active |
| `Scheduler.Scheduler.Snapshot` | internal/livecapacity/scheduler.go:232-249 | counts the items by status |
| `StrategyEngine.FirstPlace` | internal/livecapacity/strategy.go:156-162 | the first eligible actor from the turn on, around the circle |
| `StrategyEngine.RunKeepsInv` | internal/livecapacity/strategy.go:152-257 | in every run Active is the number of active items, the sum over actors and the sum over controllers, each actor and each controller counts its own, and no item is attempted more than sixteen times |
| `StrategyEngine.RunCommits` | internal/livecapacity/strategy.go:168-246 | whatever is measured, the account passes the budget by at most the sum of the overshoots |
| `StrategyEngine.RunStaysInBudget` | internal/livecapacity/strategy.go:168-246 | while measurements stay within the reservation, reported plus unknown plus active reservations never exceed the budget |
| `StrategyEngine.FinishInBudgetIff` | internal/livecapacity/strategy.go:198-246 | a matched measurement keeps every account in budget exactly when it overshoots nothing |
| `StrategyEngine.StopIsFinal` | internal/livecapacity/strategy.go:152-155 | after a stop nothing is started in any run |
| `StrategyEngine.BypassBound` | internal/livecapacity/strategy.go:156-194 | an actor that stays eligible is passed by at most one time fewer than there are actors |
| `StrategyEngine.ControlsAreShared` | internal/livecapacity/strategy.go:122-141 | two actors share a controller exactly when both belong to the first actor's group |
| `StrategyEngine.InitialInv` | internal/livecapacity/strategy.go:117-150 | every accepted experiment starts consistent and in budget |
| `StrategyEngine.NewStrategyEngine` | internal/livecapacity/strategy.go:117-150 | accepts exactly the well-formed experiments and builds their initial state |
| `StrategyEngine.StrategyEngine.Take` | internal/livecapacity/strategy.go:152-197 | the take step: which item starts, or the stop for want of tokens |
| `StrategyEngine.StrategyEngine.Begin` | internal/livecapacity/strategy.go:176-194 | starts one item and passes the turn on |
| `StrategyEngine.StrategyEngine.Finish` | internal/livecapacity/strategy.go:198-257 | the completion step, stop reasons included |
| `StrategyEngine.StrategyEngine.IsDone` | internal/livecapacity/strategy.go:259-272 | true exactly when nothing is active and it was stopped or nothing is queued |
| `StrategyEngine.WithdrawKeepsInv` | internal/livecapacity/strategy.go:332-339 | taking back a start that could not be written down keeps all counters |
| `EventStream.EveryPartitionDelivers` | httpclient/stream.go:21-41 | every partition of the bytes into reads delivers the same bytes and error, unless a hundred reads in a row are empty |
| `EventStream.BufferedReader.Fill` | httpclient/stream.go:35-41 | one refill of the buffer loses and reorders nothing and makes progress or records the error |
| `EventStream.BufferedReader.ReadSlice` | httpclient/stream.go:35-41 | the next line, a full buffer, or the rest with the error |
| `EventStream.StreamReader.ReadLine` | httpclient/stream.go:33-49 | one line, or the limit or read error that its bytes alone determine |
| `EventStream.StreamReader.ReadFrame` | httpclient/stream.go:28-75 | the frame, limit error or read error of the bytes, whatever the reads were |
| `EventEncoding.ChopJoins` | httpclient/stream.go:50-73 | cutting data at line feeds loses nothing and finds the carriage returns at line ends |
| `EventEncoding.DecodeEvent` | httpclient/stream.go:28-75 | what the decoder makes of every event whose kind is one line |
| `EventEncoding.KindIsOneLine` | httpclient/stream.go:62-69 | no decoded kind holds a line feed |
| `EventEncoding.RoundTripIff` | httpclient/stream.go:28-75 | an encoded event is read back exactly when its kind is one line, neither the kind nor a line of the data ends in a carriage return, and it fits the limits |
| `EventEncoding.StreamRoundTrip` | httpclient/stream.go:28-75 | any number of such events within the stream limit are read back in order, then the error that ends the stream |
| `RunStream.AcceptIsSound` | httpclient/stream.go:98-165 | an accepted terminal event is consistent in status, identity, state and evidence, and after it no frame continues the reading |
| `RunStream.AnswerShape` | httpclient/stream.go:84-92 | every stream either accepts a terminal event and answers with it, or yields the zero outcome and an unknown-outcome error |
| `RunStream.AfterTerminal` | httpclient/stream.go:111-121 | every continuation after a terminal event answers with it |
| `RunStream.NoSuffixChangesTheAnswer` | httpclient/stream.go:77-167 | whatever bytes and error follow an accepted terminal event, result, state, evidence and error stay the same, and the recording keeps the run's identity |
| `RunStream.RunIsKept` | httpclient/stream.go:98-110 | the answer is about the run the reader first heard of |
| `RunStream.Step` | httpclient/stream.go:98-165 | what one frame does to the reading |
| `RunStream.ReadRunStream` | httpclient/stream.go:77-167 | the answer is that of the frames of the delivered bytes, whatever the reads were |
| `ResponsesCollector.ProcessIsLook` | internal/providers/router.go:557-602 | one event changes both collectors alike: both end with the same reply, or both go on with the same state |
| `ResponsesCollector.LinesAgree` | internal/providers/router.go:532-671 | line by line the connection's reply is the body's reply on the lines up to the terminal event, when no line of white space before it has data on both sides within a block |
| `ResponsesCollector.BodyIsLines` | internal/providers/router.go:680-733 | replacing line ends, splitting at blank lines and looking at blocks is the same as looking at lines |
| `ResponsesCollector.SplitAtBlank` | internal/providers/router.go:835-838 | a line followed by an empty one ends its block |
| `ResponsesCollector.UpToTerminalIsPrefix` | internal/providers/router.go:604-640 | the lines up to the terminal event are a prefix of the body |
| `ResponsesCollector.CollectorsAgree` | internal/providers/router.go:511-733 | within the size bound, with lines that fit the buffer and no white space between data of one block before the terminal event, both collectors give the same response and error on the prefix up to that event |
| `ResponsesCollector.CollectWholeBody` | internal/providers/router.go:680-733 | the loop over blocks computes the reply of the body |
| `ResponsesCollector.Receive` | internal/providers/router.go:610-640 | one piece of the connection: the bound, the block, and the event of a complete block |
| `ResponsesCollector.Close` | internal/providers/router.go:641-669 | the reply at the end of the connection |
| `ResponsesCollector.CollectConnection` | internal/providers/router.go:604-671 | the reply is that of the bytes, however they arrive; an error right after a full buffer has two replies, by whether it comes with the bytes |
| `ResponsesCollector.CollectResponses` | internal/providers/router.go:511-671 | from reads to reply: the whole-body reply on bodies that end normally and meet the conditions |
| `EventSeparation.ReadLinesIsEvents` | internal/providers/router.go:532-671 | the reply of the incremental collector is decided by its events |
| `EventSeparation.BodyLinesIsEvents` | internal/providers/router.go:680-733 | the reply of the whole-body collector is decided by its events |
| `EventSeparation.SameEventsIff` | internal/providers/router.go:532-733 | both collectors find the same events in a body exactly when no line of white space has data on both sides within a block |
| `EventSeparation.PlainIsTidy` | internal/providers/router.go:627-640 | such a body meets the condition for equal replies with every decoder |
| `EventSeparation.SeparationShows` | internal/providers/router.go:627-640 | otherwise the events part, and unless the first differing ones were heard before a decoder exists with which the replies differ |
| `EventSeparation.RepeatsHide` | internal/providers/router.go:627-640 | a body with separated data on which the replies agree with every decoder, because it repeats earlier events |

## Left out

- The batch controller, permit ledger and Temporal workflows: `CanStart`, store calls and provider calls are arbitrary answers.
- The stateless execution loop, the schema compiler, traces and the HTTP gateway.
- PostgreSQL itself, object storage, TLS, telemetry, migrations and command-line code; statements run at the isolation level READ COMMITTED on a map of rows, and statement time-outs and deadlocks are aborts. Statements of the tracking table read when the rows they write are free: their conditions are tested again on the row that a wait ends with, or are on columns that no update changes.
- JSON decoding, schema validation and completion validation in `RunStream` and `ResponsesCollector` are functions given to the readers.
- Stream diagnostics (event counts and times) and cancellation by context in the incremental collector.
- Reflection over Go types before canonical encoding: a value is a tree, so cycles cannot occur, and how the encoder writes a float is its literal; SHA-256 itself: results are about its preimage.
- The unmanaged path of an admission, and a panic of the hint that runs beside native.
- Statistics of the load driver that only report (latencies, percentiles), and per-actor offered counts and times of the strategy engine.
- Floating-point rounding of prices: money is exact here.
- EventSeparation.SeparationShows: gives a decoder only where the first differing events are new, because the replies can agree on separated data that repeats earlier events (`EventSeparation.RepeatsHide`).
- ArrivalSchedule.BuildArrivalSchedule: is exact only while the last product fits an int64, because the multiplication is unchecked; the scenario bound of 2,000 requests implies it.
