/** Ordinary dispatches through the admission pool.
    `Begin` and `Execute` are the two methods of the source. Every answer of the store, every
    look at the context and every clock reading comes from an arbitrary environment, panics
    included, those of the deferred cleanup too, and each effectful call is written to a trace. The
    protocol itself is the automaton `Next`; the methods are proved to produce only traces it accepts. */
module Admission {
  import opened Wrappers

  type Time = int

  datatype Kind = NeverDispatched | Completed | Failed | Rejected | Policy | Unconfirmed

  datatype Observation = Observation(kind: Kind, nativeEntered: bool, localStopped: bool)

  /** One effectful call together with what became of it. */
  datatype Call =
    | ReadGeneration(ok: bool)
    | Enqueue(ok: bool)
    | Wake(ok: bool)
    | Poll(ok: bool, permit: string)
    | Claim(permit: string, nonce: string, accepted: bool)
    | MarkDispatch(permit: string, nonce: string, accepted: bool)
    | Native(returned: bool)
    | Cancel(request: string, nonce: string, back: bool)
    | LocalStop(permit: string, nonce: string, back: bool)
    | StageResult(permit: string, nonce: string, observation: Observation, back: bool)
    | Settle(permit: string, nonce: string, observation: Observation)
    | Notify(permit: string, revision: int)

  /** The calls of one invocation, oldest first. */
  datatype Trace = Empty | Then(before: Trace, last: Call)

  // ---- the protocol ----

  datatype Phase =
    | Idle
    | Asked
    | Queued
    | Woken
    | Granted
    | Claimed
    | Dispatched
    | Ran(returned: bool)
    | Leaving(granted: bool)             // a step failed: only cleanup is left
    | Released                           // the waiter of a granted permit was cancelled
    | Stopped(entered: bool)             // the local stop was marked
    | Staged(observation: Observation)
    | Settled(observation: Observation)
    | Denied                             // over, and no permit was ever granted
    | Torn(entered: bool)                // over, because a cleanup call for a permit did not come back
    | Broken

  /** A truthful observation of an invocation that has stopped, or has not. */
  predicate Truthful(o: Observation, entered: bool, stopped: bool) {
    && o.nativeEntered == entered
    && o.localStopped == stopped
    && (o.kind.NeverDispatched? <==> !entered)
  }

  function Next(p: Phase, c: Call): Phase {
    match c
    case ReadGeneration(ok) => if p.Idle? then if ok then Asked else Denied else Broken
    case Enqueue(ok) => if p.Asked? then if ok then Queued else Leaving(false) else Broken
    case Wake(ok) => if p.Queued? then if ok then Woken else Leaving(false) else Broken
    case Poll(ok, permit) =>
      if !p.Woken? then Broken else if !ok then Leaving(false) else if permit != "" then Granted else Woken
    case Claim(_, _, accepted) => if p.Granted? then if accepted then Claimed else Leaving(true) else Broken
    case MarkDispatch(_, _, accepted) => if p.Claimed? then if accepted then Dispatched else Leaving(true) else Broken
    case Native(returned) => if p.Dispatched? then Ran(returned) else Broken
    case Cancel(_, _, back) =>
      if p.Asked? || p.Queued? || p.Woken? || p == Leaving(false) then Denied
      else if p.Granted? || p.Claimed? || p == Leaving(true) then if back then Released else Torn(false)
      else Broken
    case LocalStop(_, _, back) =>
      if p.Released? || p.Dispatched? then if back then Stopped(false) else Torn(false)
      else if p == Ran(true) then if back then Stopped(true) else Torn(true)
      else Broken
    case StageResult(_, _, o, back) =>
      if (p.Stopped? && Truthful(o, p.entered, true)) || (p == Ran(false) && Truthful(o, true, false))
      then if back then Staged(o) else Torn(o.nativeEntered)
      else Broken
    case Settle(_, _, o) => if p == Staged(o) then Settled(o) else Broken
    case Notify(_, _) => if p.Dispatched? || p.Ran? || p.Settled? then p else Broken
  }

  function PhaseOf(trace: Trace): Phase {
    match trace
    case Empty => Idle
    case Then(before, c) => Next(PhaseOf(before), c)
  }

  /** Phases an invocation may end in. */
  predicate Final(p: Phase) { p.Idle? || p.Denied? || p.Settled? || p.Torn? }

  function Settlements(trace: Trace): nat {
    match trace
    case Empty => 0
    case Then(before, c) => Settlements(before) + if c.Settle? then 1 else 0
  }

  function NativeRuns(trace: Trace): nat {
    match trace
    case Empty => 0
    case Then(before, c) => NativeRuns(before) + if c.Native? then 1 else 0
  }

  function Grants(trace: Trace): nat {
    match trace
    case Empty => 0
    case Then(before, c) => Grants(before) + if c.Poll? && c.ok && c.permit != "" then 1 else 0
  }

  /** A cleanup call did not come back. */
  predicate CutShort(trace: Trace) {
    trace.Then? && (|| CutShort(trace.before)
                    || ((trace.last.Cancel? || trace.last.LocalStop? || trace.last.StageResult?) && !trace.last.back))
  }

  predicate HasPermit(p: Phase) {
    || p.Granted? || p.Claimed? || p.Dispatched? || p.Ran? || p == Leaving(true)
    || p.Released? || p.Stopped? || p.Staged? || p.Settled? || p.Torn?
  }

  predicate Entered(p: Phase) {
    p.Ran? || p == Stopped(true) || p == Torn(true) || ((p.Staged? || p.Settled?) && p.observation.nativeEntered)
  }

  /** Counts of a legal trace are a function of its phase. */
  lemma {:induction false} LegalCounts(trace: Trace)
    requires !PhaseOf(trace).Broken?
    ensures Settlements(trace) == if PhaseOf(trace).Settled? then 1 else 0
    ensures NativeRuns(trace) == if Entered(PhaseOf(trace)) then 1 else 0
    ensures Grants(trace) == if HasPermit(PhaseOf(trace)) then 1 else 0
    ensures CutShort(trace) ==> PhaseOf(trace).Torn? || PhaseOf(trace).Denied?
    ensures PhaseOf(trace).Torn? ==> CutShort(trace)
    ensures Honest(PhaseOf(trace))
  {
    if trace.Then? {
      NextHistory(PhaseOf(trace.before), trace.last);
      LegalCounts(trace.before);
    }
  }

  predicate Honest(p: Phase) {
    p.Staged? || p.Settled? ==> (p.observation.kind.NeverDispatched? <==> !p.observation.nativeEntered)
  }

  /** Every finished legal trace settles at most once and only a granted permit, and a granted permit is
      settled exactly when every cleanup call came back; it runs native at most once, and settles
      `never_dispatched` exactly when native did not run. */
  lemma FinishedTraces(trace: Trace)
    requires Final(PhaseOf(trace))
    ensures Settlements(trace) <= Grants(trace) <= 1 && NativeRuns(trace) <= Grants(trace)
    ensures Grants(trace) == 1 ==> (Settlements(trace) == 1 <==> !CutShort(trace))
    ensures PhaseOf(trace).Settled? ==>
              (PhaseOf(trace).observation.kind.NeverDispatched? <==> NativeRuns(trace) == 0)
  {
    LegalCounts(trace);
  }

  predicate AcceptedClaim(c: Call) { c.Claim? && c.accepted }

  predicate AcceptedDispatch(c: Call) { c.MarkDispatch? && c.accepted }

  predicate ClaimedIn(trace: Trace) {
    trace.Then? && (AcceptedClaim(trace.last) || ClaimedIn(trace.before))
  }

  /** An accepted dispatch mark that follows an accepted claim. */
  predicate DispatchedIn(trace: Trace) {
    trace.Then? && ((AcceptedDispatch(trace.last) && ClaimedIn(trace.before)) || DispatchedIn(trace.before))
  }

  predicate PastDispatch(p: Phase) { p.Dispatched? || Entered(p) }

  lemma NextHistory(p: Phase, c: Call)
    ensures Next(p, c).Claimed? ==> AcceptedClaim(c)
    ensures PastDispatch(Next(p, c)) ==> PastDispatch(p) || (p.Claimed? && AcceptedDispatch(c))
    ensures p.Broken? ==> Next(p, c).Broken?
  {
  }

  lemma {:induction false} DispatchHistory(trace: Trace)
    requires !PhaseOf(trace).Broken?
    ensures PhaseOf(trace).Claimed? ==> ClaimedIn(trace)
    ensures PastDispatch(PhaseOf(trace)) ==> DispatchedIn(trace)
  {
    if trace.Then? {
      NextHistory(PhaseOf(trace.before), trace.last);
      DispatchHistory(trace.before);
    }
  }

  /** `a` is a beginning of `b`. */
  predicate Prefix(a: Trace, b: Trace) { a == b || (b.Then? && Prefix(a, b.before)) }

  lemma {:induction false} PrefixLegal(a: Trace, b: Trace)
    requires Prefix(a, b) && !PhaseOf(b).Broken?
    ensures !PhaseOf(a).Broken?
  {
    if a != b {
      NextHistory(PhaseOf(b.before), b.last);
      PrefixLegal(a, b.before);
    }
  }

  /** Wherever native runs in a legal trace, an accepted claim and then an accepted dispatch mark
      came before it. */
  lemma NativeOnlyAfterDispatch(trace: Trace, before: Trace, native: Call)
    requires !PhaseOf(trace).Broken? && native.Native? && Prefix(Then(before, native), trace)
    ensures DispatchedIn(before)
  {
    PrefixLegal(Then(before, native), trace);
    DispatchHistory(before);
  }

  // ---- the environment ----

  datatype Answer<T> = Value(value: T) | Error | Panic

  /** Places where the code looks at its context. */
  datatype Point =
    | AtEntry | BeforePoll(n: nat) | WhileWaiting(n: nat) | AfterClaim | AfterDispatch | AtCleanup | BeforeNative

  datatype Marker = Marker(generation: int, active: bool)

  datatype Waiting = Waiting(closed: bool, expired: bool, permit: string)

  datatype Waiter = Waiter(
    request: string, pool: string, generation: int, scope: string, owner: string, deadline: Time, budget: int)

  datatype Attempt = Attempt(
    ordinary: bool, request: string, pool: string, generation: int, scope: string, claim: string, budget: int,
    deadline: Time, startBy: Time, permit: string, generationDeadline: Option<Time>)

  /** The error class of a provider call that came back. */
  datatype ProviderError = ProviderError(base: Kind, partialOutput: bool, interrupted: bool)

  datatype NativeAnswer = Returned(error: Option<ProviderError>, finished: Time) | Panicked

  /** Which of the cleanup calls before the settlement come back; their errors are ignored. */
  datatype Cleanup = Cleanup(cancel: bool, stop: bool, stage: bool)

  datatype Env = Env(
    cancelled: Point -> bool, deadline: Option<Time>, scopeValid: bool, execution: bool, pool: string, scope: string,
    request: string, owner: string, budget: int,
    generation: Answer<Marker>, enqueue: Answer<bool>, wake: Answer<bool>, polls: seq<Answer<Waiting>>,
    claim: Answer<Attempt>, dispatch: Answer<Attempt>, startClock: Time, deadlineClock: Time,
    cleanup: Cleanup, settle: Answer<int>, native: NativeAnswer, hintFirst: bool)

  predicate GenerationOk(env: Env) {
    env.generation.Value? && env.generation.value.generation >= 2 && env.generation.value.active
  }

  function WaiterOf(env: Env): Waiter
    requires GenerationOk(env) && env.deadline.Some?
  {
    Waiter(env.request, env.pool, env.generation.value.generation, env.scope, env.owner,
           env.deadline.value / 1000 * 1000, env.budget)
  }

  predicate Matches(a: Attempt, w: Waiter) {
    && a.ordinary && a.request == w.request && a.pool == w.pool && a.generation == w.generation
    && a.scope == w.scope && a.claim == w.owner && a.budget == w.budget && a.deadline == w.deadline
  }

  /** The claim succeeded and names this waiter in every field. */
  predicate ClaimAccepted(env: Env) {
    && GenerationOk(env) && env.deadline.Some?
    && env.claim.Value? && Matches(env.claim.value, WaiterOf(env))
  }

  /** The dispatch mark succeeded and was seen, in a live context, before both limits. */
  predicate DispatchAccepted(env: Env) {
    && env.dispatch.Value? && !env.cancelled(AfterDispatch)
    && env.startClock < env.dispatch.value.startBy && env.deadlineClock < env.dispatch.value.deadline
  }

  /** What the trace says the environment answered to claims, dispatch marks and native runs, and
      which permit and nonce its permit calls named. */
  datatype Facts = Facts(claims: set<bool>, dispatches: set<bool>, natives: set<bool>, named: Identity)

  datatype Identity = Nobody | Only(permit: string, nonce: string) | Several

  function Naming(i: Identity, permit: string, nonce: string): Identity {
    if i.Nobody? || i == Only(permit, nonce) then Only(permit, nonce) else Several
  }

  function Extend(f: Facts, c: Call): Facts {
    match c
    case Claim(p, n, accepted) => f.(claims := f.claims + {accepted}, named := Naming(f.named, p, n))
    case MarkDispatch(p, n, accepted) => f.(dispatches := f.dispatches + {accepted}, named := Naming(f.named, p, n))
    case Native(returned) => f.(natives := f.natives + {returned})
    case LocalStop(p, n, _) => f.(named := Naming(f.named, p, n))
    case StageResult(p, n, _, _) => f.(named := Naming(f.named, p, n))
    case Settle(p, n, _) => f.(named := Naming(f.named, p, n))
    case _ => f
  }

  function FactsOf(trace: Trace): Facts {
    match trace
    case Empty => Facts({}, {}, {}, Nobody)
    case Then(before, c) => Extend(FactsOf(before), c)
  }

  /** The trace reports what the environment answered. */
  predicate Faithful(f: Facts, env: Env) {
    f.claims <= {ClaimAccepted(env)} && f.dispatches <= {DispatchAccepted(env)} && f.natives <= {env.native.Returned?}
  }

  /** Every claim, dispatch mark, stop, staging and settlement names this permit and nonce. */
  predicate Named(f: Facts, permit: string, nonce: string) { f.named.Nobody? || f.named == Only(permit, nonce) }

  // ---- observation of a finished call ----

  /** The settled kind of a provider call that came back; it is never `NeverDispatched`. */
  function ObservedKind(error: Option<ProviderError>): (k: Kind)
    ensures !k.NeverDispatched? && (k.Completed? <==> error.None?)
    ensures k.Rejected? ==> !error.value.interrupted && !error.value.partialOutput
  {
    if error.None? then Completed
    else
      var e := error.value;
      if e.interrupted then Unconfirmed
      else if e.base.Rejected? then if e.partialOutput then Unconfirmed else Rejected
      else if e.base.Policy? then Policy
      else Failed
  }

  /** A late success is not confirmed. */
  function FinalKind(a: Attempt, native: NativeAnswer): (k: Kind)
    ensures !k.NeverDispatched?
    ensures k.Completed? <==>
              && !native.Panicked? && native.error.None?
              && (a.generationDeadline.Some? ==> native.finished <= a.generationDeadline.value)
  {
    if native.Panicked? then Unconfirmed
    else if native.error.None? && a.generationDeadline.Some? && native.finished > a.generationDeadline.value then
      Unconfirmed
    else ObservedKind(native.error)
  }

  // ---- the methods ----

  datatype AdmissionError = ContextDone | Unavailable | DeadlineExceeded

  datatype Begun = Entering(attempt: Attempt) | Refused(error: AdmissionError) | Panicking

  /** The observation fits the phase: native ran or not, and stopped or not. */
  predicate Settleable(p: Phase, o: Observation) {
    && Truthful(o, p.Ran?, o.localStopped)
    && if o.localStopped then p.Released? || p.Dispatched? || p == Ran(true) else p == Ran(false)
  }

  /** The cleanup calls between a stop and the settlement all come back. */
  predicate Settles(env: Env, o: Observation) { (o.localStopped ==> env.cleanup.stop) && env.cleanup.stage }

  /** Stop, stage, settle and, when the settlement was confirmed, notify. */
  method SettlePermit(env: Env, before: Trace, permit: string, nonce: string, o: Observation)
    returns (trace: Trace)
    requires Settleable(PhaseOf(before), o)
    ensures PhaseOf(trace) == if Settles(env, o) then Settled(o) else Torn(o.nativeEntered)
    ensures FactsOf(trace) == FactsOf(before).(named := Naming(FactsOf(before).named, permit, nonce))
  {
    ghost var f := FactsOf(before).(named := Naming(FactsOf(before).named, permit, nonce));
    trace := before;
    if o.localStopped {
      trace := Then(trace, LocalStop(permit, nonce, env.cleanup.stop));
      assert FactsOf(trace) == f;
      if !env.cleanup.stop { return; }
      assert PhaseOf(trace) == Stopped(o.nativeEntered);
    }
    trace := Then(trace, StageResult(permit, nonce, o, env.cleanup.stage));
    assert FactsOf(trace) == f;
    if !env.cleanup.stage { return; }
    assert PhaseOf(trace) == Staged(o);
    trace := Then(trace, Settle(permit, nonce, o));
    assert PhaseOf(trace) == Settled(o) && FactsOf(trace) == f;
    if env.settle.Value? {
      trace := Then(trace, Notify(permit, env.settle.value));
    }
  }

  /** Phases the cleanup of `Begin` can start from, with or without a permit. */
  predicate Abandonable(p: Phase, granted: bool) {
    if granted then p.Granted? || p.Claimed? || p == Leaving(true)
    else p.Asked? || p.Queued? || p.Woken? || p == Leaving(false)
  }

  const GIVEN_UP := Observation(NeverDispatched, false, true)

  /** Where the cleanup of `Begin` ends. */
  function Abandoned(env: Env, permit: string): Phase {
    if permit == "" then Denied
    else if env.cleanup.cancel && Settles(env, GIVEN_UP) then Settled(GIVEN_UP)
    else Torn(false)
  }

  /** The deferred cleanup of `Begin`: cancel the waiter, and settle a granted permit as never dispatched. */
  method Abandon(env: Env, before: Trace, permit: string) returns (trace: Trace, back: bool)
    requires permit == "" ==> Abandonable(PhaseOf(before), false)
    requires permit != "" ==> Abandonable(PhaseOf(before), true)
    ensures PhaseOf(trace) == Abandoned(env, permit)
    ensures back <==> env.cleanup.cancel && (permit != "" ==> PhaseOf(trace).Settled?)
    ensures Faithful(FactsOf(before), env) ==> Faithful(FactsOf(trace), env)
    ensures Named(FactsOf(before), permit, env.owner) ==> Named(FactsOf(trace), permit, env.owner)
  {
    trace, back := Then(before, Cancel(env.request, env.owner, env.cleanup.cancel)), env.cleanup.cancel;
    if back && permit != "" {
      assert PhaseOf(trace) == Released;
      trace := SettlePermit(env, trace, permit, env.owner, GIVEN_UP);
      back := Settles(env, GIVEN_UP);
    }
  }

  /** The permit that polling from the `i`th answer on ends with, if any. */
  function PolledPermit(env: Env, i: nat): string
    decreases |env.polls| - i
  {
    if i >= |env.polls| || env.cancelled(BeforePoll(i)) || !env.polls[i].Value? then ""
    else
      var w := env.polls[i].value;
      if w.closed || w.expired then ""
      else if w.permit != "" then w.permit
      else if env.cancelled(WhileWaiting(i)) then ""
      else PolledPermit(env, i + 1)
  }

  /** The waiter was enqueued and announced. */
  predicate Asks(env: Env) {
    && !env.cancelled(AtEntry) && env.deadline.Some? && env.scopeValid && env.execution && GenerationOk(env)
    && env.enqueue.Value? && env.wake.Value?
  }

  /** The permit that an invocation is granted, if any. */
  function PermitOf(env: Env): string { if Asks(env) then PolledPermit(env, 0) else "" }

  /** The environments on which `Begin` succeeds. */
  predicate Reaches(env: Env) {
    PermitOf(env) != "" && ClaimAccepted(env) && !env.cancelled(AfterClaim) && DispatchAccepted(env)
  }

  /** Polls until a permit is granted; an exhausted list of answers is the context ending. */
  method AwaitPermit(env: Env, before: Trace)
    returns (trace: Trace, permit: string, panicked: bool, error: AdmissionError)
    requires PhaseOf(before).Woken?
    ensures permit != "" ==> PhaseOf(trace) == Granted
    ensures permit == "" ==> Abandonable(PhaseOf(trace), false)
    ensures permit == PolledPermit(env, 0)
    ensures FactsOf(trace) == FactsOf(before)
  {
    trace, permit, panicked, error := before, "", false, ContextDone;
    var i := 0;
    while i < |env.polls|
      invariant 0 <= i <= |env.polls|
      invariant permit == "" && PhaseOf(trace) == Woken && FactsOf(trace) == FactsOf(before)
      invariant PolledPermit(env, i) == PolledPermit(env, 0)
    {
      if env.cancelled(BeforePoll(i)) { return; }
      var answer := env.polls[i];
      if answer.Panic? {
        panicked := true;
        return;
      }
      if answer.Error? || answer.value.closed || answer.value.expired {
        trace := Then(trace, Poll(false, ""));
        error := Unavailable;
        return;
      }
      trace := Then(trace, Poll(true, answer.value.permit));
      if answer.value.permit != "" {
        permit := answer.value.permit;
        return;
      }
      if env.cancelled(WhileWaiting(i)) { return; }
      i := i + 1;
    }
  }

  /** Claim, identity check and dispatch mark of a granted permit. */
  method Secure(env: Env, before: Trace, permit: string) returns (trace: Trace, begun: Begun)
    requires PhaseOf(before) == Granted && permit != "" && GenerationOk(env) && env.deadline.Some?
    requires Faithful(FactsOf(before), env) && Named(FactsOf(before), permit, env.owner)
    ensures if begun.Entering? then PhaseOf(trace) == Dispatched else Abandonable(PhaseOf(trace), true)
    ensures begun.Entering? <==> ClaimAccepted(env) && !env.cancelled(AfterClaim) && DispatchAccepted(env)
    ensures begun.Entering? ==> begun.attempt == env.dispatch.value
    ensures Faithful(FactsOf(trace), env) && Named(FactsOf(trace), permit, env.owner)
  {
    trace := before;
    if env.claim.Panic? { return trace, Panicking; }
    trace := Then(trace, Claim(permit, env.owner, ClaimAccepted(env)));
    if env.claim.Error? || !Matches(env.claim.value, WaiterOf(env)) { return trace, Refused(Unavailable); }
    assert PhaseOf(trace) == Claimed;
    if env.cancelled(AfterClaim) { return trace, Refused(ContextDone); }
    if env.dispatch.Panic? { return trace, Panicking; }
    trace := Then(trace, MarkDispatch(permit, env.owner, DispatchAccepted(env)));
    if env.dispatch.Error? { return trace, Refused(Unavailable); }
    var a := env.dispatch.value;
    if env.cancelled(AfterDispatch) { return trace, Refused(ContextDone); }
    if env.startClock >= a.startBy || env.deadlineClock >= a.deadline { return trace, Refused(DeadlineExceeded); }
    begun := Entering(a);
  }

  /** The part of `Begin` that its deferred cleanup guards. */
  method Request(env: Env, before: Trace) returns (trace: Trace, begun: Begun, permit: string)
    requires PhaseOf(before) == Asked && FactsOf(before) == Facts({}, {}, {}, Nobody)
    requires GenerationOk(env) && env.deadline.Some?
    ensures begun.Entering? ==> PhaseOf(trace) == Dispatched && permit != ""
    ensures !begun.Entering? && permit == "" ==> Abandonable(PhaseOf(trace), false)
    ensures !begun.Entering? && permit != "" ==> Abandonable(PhaseOf(trace), true)
    ensures permit == if env.enqueue.Value? && env.wake.Value? then PolledPermit(env, 0) else ""
    ensures begun.Entering? <==>
              permit != "" && ClaimAccepted(env) && !env.cancelled(AfterClaim) && DispatchAccepted(env)
    ensures begun.Entering? ==> begun.attempt == env.dispatch.value
    ensures Faithful(FactsOf(trace), env) && Named(FactsOf(trace), permit, env.owner)
  {
    trace, permit := before, "";
    if env.enqueue.Panic? { return trace, Panicking, permit; }
    trace := Then(trace, Enqueue(env.enqueue.Value?));
    if !env.enqueue.Value? { return trace, Refused(Unavailable), permit; }
    assert PhaseOf(trace) == Queued;
    if env.wake.Panic? { return trace, Panicking, permit; }
    trace := Then(trace, Wake(env.wake.Value?));
    if !env.wake.Value? { return trace, Refused(Unavailable), permit; }
    assert PhaseOf(trace) == Woken;
    var panicked, error;
    trace, permit, panicked, error := AwaitPermit(env, trace);
    if permit == "" { return trace, if panicked then Panicking else Refused(error), permit; }
    trace, begun := Secure(env, trace, permit);
  }

  /** On every environment `Begin` leaves a legal trace that is either over or stands at an accepted
      dispatch; it never runs native and it names only its own permit and nonce. It succeeds exactly on
      the environments of `Reaches`, and otherwise a granted permit is settled as never dispatched
      exactly when the cleanup calls come back. */
  method Begin(env: Env) returns (trace: Trace, begun: Begun, permit: string)
    ensures permit == PermitOf(env) && (begun.Entering? <==> Reaches(env))
    ensures if begun.Entering? then PhaseOf(trace) == Dispatched
            else if permit != "" then PhaseOf(trace) == Abandoned(env, permit)
            else PhaseOf(trace).Idle? || PhaseOf(trace).Denied?
    ensures begun.Entering? ==> begun.attempt == env.dispatch.value
    ensures Faithful(FactsOf(trace), env) && Named(FactsOf(trace), permit, env.owner)
  {
    trace, permit := Empty, "";
    if env.cancelled(AtEntry) { return trace, Refused(ContextDone), permit; }
    if env.deadline.None? || !env.scopeValid || !env.execution { return trace, Refused(Unavailable), permit; }
    if env.generation.Panic? { return trace, Panicking, permit; }
    trace := Then(trace, ReadGeneration(GenerationOk(env)));
    if !GenerationOk(env) { return trace, Refused(Unavailable), permit; }
    trace, begun, permit := Request(env, trace);
    if begun.Entering? { return; }
    var back;
    trace, back := Abandon(env, trace, permit);
    if !back {
      begun := Panicking;
    } else if begun.Refused? && env.cancelled(AtCleanup) {
      begun := Refused(ContextDone);
    }
  }

  /** What an invocation that got past `Begin` settles. */
  function Observed(env: Env): Observation
    requires env.dispatch.Value?
  {
    if env.cancelled(BeforeNative) then GIVEN_UP
    else Observation(FinalKind(env.dispatch.value, env.native), true, env.native.Returned?)
  }

  /** Where an invocation that was granted a permit ends: settled, unless a cleanup call on its way to the
      settlement does not come back. */
  function Outcome(env: Env): Phase
    requires PermitOf(env) != ""
  {
    if !Reaches(env) then Abandoned(env, PermitOf(env))
    else
      var o := Observed(env);
      if Settles(env, o) then Settled(o) else Torn(o.nativeEntered)
  }

  /** On every environment the whole invocation leaves a finished legal trace, and it enters native
      exactly when `Begin` succeeded and the context still lived. All calls carry this invocation's own
      permit and nonce exactly when it did not get past `Begin` or the store's dispatch answer repeats
      them. */
  method Execute(env: Env) returns (trace: Trace, reached: bool, entered: bool, permit: string)
    ensures permit == PermitOf(env) && (reached <==> Reaches(env)) && Faithful(FactsOf(trace), env)
    ensures if permit != "" then PhaseOf(trace) == Outcome(env) else PhaseOf(trace).Idle? || PhaseOf(trace).Denied?
    ensures entered <==> reached && !env.cancelled(BeforeNative)
    ensures entered <==> Entered(PhaseOf(trace))
    ensures Named(FactsOf(trace), permit, env.owner) <==>
              (reached ==> env.dispatch.value.permit == permit && env.dispatch.value.claim == env.owner)
  {
    var begun;
    trace, begun, permit := Begin(env);
    reached, entered := begun.Entering?, false;
    if !reached { return; }
    var a := begun.attempt;
    if env.cancelled(BeforeNative) {
      trace := SettlePermit(env, trace, a.permit, a.claim, GIVEN_UP);
      return;
    }
    entered := true;
    var stopped := env.native.Returned?;
    if env.hintFirst { trace := Then(trace, Notify(a.permit, 0)); }
    assert PhaseOf(trace) == Dispatched;
    trace := Then(trace, Native(stopped));
    assert PhaseOf(trace) == Ran(stopped);
    if !env.hintFirst { trace := Then(trace, Notify(a.permit, 0)); }
    assert PhaseOf(trace) == Ran(stopped);
    trace := SettlePermit(env, trace, a.permit, a.claim, Observation(FinalKind(a, env.native), true, stopped));
  }

  /** What the outcome says: a settlement, truthful about native and about the stop, exactly when the
      cleanup calls before it come back, and `completed` only for a success in time. */
  lemma OutcomeIsTruthful(env: Env)
    requires PermitOf(env) != ""
    ensures var p, c := Outcome(env), env.cleanup;
            var entered := Reaches(env) && !env.cancelled(BeforeNative);
            && (p.Settled? <==>
                  (Reaches(env) || c.cancel) && ((entered && env.native.Panicked?) || c.stop) && c.stage)
            && (p.Settled? || p.Torn?) && (Entered(p) <==> entered)
            && (p.Settled? ==>
                  && (p.observation.kind.NeverDispatched? <==> !entered)
                  && (!p.observation.localStopped <==> entered && env.native.Panicked?)
                  && (p.observation.kind.Completed? ==> entered && env.native.Returned? && env.native.error.None?))
  {
  }

  /** The store's dispatch answer is not compared with the permit: for every permit there is an environment
      that grants it and on which the invocation goes on under any other permit's name. */
  lemma DispatchMayNameAnother(permit: string, other: string) returns (env: Env)
    requires permit != "" && permit != other
    ensures Reaches(env) && PermitOf(env) == permit && env.dispatch.value.permit == other
  {
    var attempt := Attempt(true, "", "", 2, "", "", 1, 0, 0, permit, None);
    env := Env(_ => false, Some(0), true, true, "", "", "", "", 1,
               Value(Marker(2, true)), Value(true), Value(true), [Value(Waiting(false, false, permit))],
               Value(attempt), Value(attempt.(permit := other)), -1, -1,
               Cleanup(true, true, true), Value(0), Panicked, false);
    assert PolledPermit(env, 0) == permit;
    assert WaiterOf(env) == Waiter("", "", 2, "", "", 0, 1);
  }
}
