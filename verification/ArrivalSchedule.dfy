/** The open-loop arrival schedule: which offsets a rate produces in a duration. */
module ArrivalSchedule {
  import opened Wrappers

  const SECOND: int := 1_000_000_000
  const MAX: int := 0x7fff_ffff_ffff_ffff
  const MAX_SCENARIO_REQUESTS := 2_000

  /** An int64 product that is not checked. */
  function Wrap(x: int): int {
    (x + 0x8000_0000_0000_0000) % 0x1_0000_0000_0000_0000 - 0x8000_0000_0000_0000
  }

  /** Go's division truncates toward zero. */
  function Quo(a: int, b: int): int
    requires b > 0
  {
    if a >= 0 then a / b else -((-a) / b)
  }

  /** When arrival `i` of the rate is due, in exact arithmetic. */
  function Offset(i: nat, rps: int): int
    requires rps > 0
  {
    i * SECOND / rps
  }

  function Ceiling(duration: int, rps: int): int { (duration * rps + (SECOND - 1)) / SECOND }

  lemma DivLess(a: int, b: int, d: int)
    requires b > 0
    ensures a / b < d <==> a < d * b
  {
    var q := a / b;
    assert q * b <= a < q * b + b;
    if q < d {
      assert (q + 1) * b <= d * b by { MulMonotone(q + 1, d, b); }
    } else {
      assert d * b <= q * b by { MulMonotone(d, q, b); }
    }
  }

  lemma MulMonotone(a: int, b: int, c: int)
    requires a <= b && c >= 0
    ensures a * c <= b * c
  {
  }

  lemma CeilingBound(n: int, i: int)
    ensures i < (n + (SECOND - 1)) / SECOND <==> i * SECOND < n
  {
  }

  /** Arrival `i` falls inside the duration exactly when it is one of the first `Ceiling` ones. */
  lemma ArrivalsInDuration(i: nat, rps: int, duration: int)
    requires rps > 0
    ensures Offset(i, rps) < duration <==> i < Ceiling(duration, rps)
  {
    DivLess(i * SECOND, rps, duration);
    CeilingBound(duration * rps, i);
  }

  lemma OffsetMonotone(i: nat, j: nat, rps: int)
    requires rps > 0 && i <= j
    ensures Offset(i, rps) <= Offset(j, rps)
  {
    DivLess(j * SECOND, rps, Offset(i, rps));
    assert Offset(i, rps) * rps <= i * SECOND;
  }

  /** What the loop stores at `i`, its product unchecked. */
  function StoredOffset(i: nat, rps: int): int
    requires rps > 0
  {
    Quo(Wrap(i * SECOND), rps)
  }

  lemma StoredIsExact(i: nat, rps: int)
    requires rps > 0 && i * SECOND <= MAX
    ensures StoredOffset(i, rps) == Offset(i, rps) >= 0
  {
  }

  /** The schedule lists exactly the arrivals of the rate in [0, duration), in order. */
  ghost predicate Exact(schedule: seq<int>, rps: int, duration: int)
    requires rps > 0
  {
    && (forall i: nat :: i < |schedule| <==> Offset(i, rps) < duration)
    && (forall i :: 0 <= i < |schedule| ==> schedule[i] == Offset(i, rps) && 0 <= schedule[i] < duration)
    && (forall i, j :: 0 <= i <= j < |schedule| ==> schedule[i] <= schedule[j])
  }

  lemma StoredScheduleIsExact(schedule: seq<int>, rps: int, duration: int)
    requires rps > 0 && |schedule| == Ceiling(duration, rps) && (|schedule| - 1) * SECOND <= MAX
    requires forall i :: 0 <= i < |schedule| ==> schedule[i] == StoredOffset(i, rps)
    ensures Exact(schedule, rps, duration)
  {
    forall i: nat ensures i < |schedule| <==> Offset(i, rps) < duration {
      ArrivalsInDuration(i, rps, duration);
    }
    forall i | 0 <= i < |schedule| ensures schedule[i] == Offset(i, rps) >= 0 {
      StoredIsExact(i, rps);
    }
    forall i, j | 0 <= i <= j < |schedule| ensures schedule[i] <= schedule[j] {
      OffsetMonotone(i, j, rps);
    }
  }

  /** The unchecked multiplication is exact as long as the last product fits an int64, which the
      scenario bound on requests guarantees. */
  method BuildArrivalSchedule(rps: int, duration: int, maxRequests: int) returns (r: Result<seq<int>, ()>)
    requires rps <= MAX
    ensures r.Ok? <==> rps > 0 && duration > 0 && maxRequests > 0 && Ceiling(duration, rps) <= MAX
                       && Ceiling(duration, rps) <= maxRequests
    ensures r.Ok? ==> |r.value| == Ceiling(duration, rps)
    ensures r.Ok? && (|r.value| - 1) * SECOND <= MAX ==> Exact(r.value, rps, duration)
    ensures r.Ok? && maxRequests <= MAX_SCENARIO_REQUESTS ==> Exact(r.value, rps, duration)
  {
    if rps <= 0 || duration <= 0 || maxRequests <= 0 { return Err(()); }
    var product := duration * rps;
    product := product + (SECOND - 1);
    var count := product / SECOND;
    assert count >= 0 by { MulMonotone(0, duration, rps); }
    if count > MAX || count > maxRequests { return Err(()); }
    var schedule: seq<int> := [];
    var index := 0;
    while index < count
      invariant 0 <= index <= count && |schedule| == index
      invariant forall i :: 0 <= i < index ==> schedule[i] == StoredOffset(i, rps)
    {
      schedule := schedule + [Quo(Wrap(index * SECOND), rps)];
      index := index + 1;
    }
    if (count - 1) * SECOND <= MAX { StoredScheduleIsExact(schedule, rps, duration); }
    r := Ok(schedule);
  }

  // ---- both populations of a run ----

  datatype Scenario = Scenario(rps: int, warmup: int, measurement: int, maxRequests: int)

  function ScheduleCount(rps: int, duration: int): int { if duration <= 0 then 0 else Ceiling(duration, rps) }

  /** The scenario validation, with its unchecked sum of two counts. */
  predicate ValidScenario(s: Scenario) {
    && 0 < s.rps <= MAX && 0 <= s.warmup <= 600 * SECOND && 0 < s.measurement <= 900 * SECOND
    && 0 < s.maxRequests <= MAX_SCENARIO_REQUESTS
    && ScheduleCount(s.rps, s.measurement) <= MAX && ScheduleCount(s.rps, s.warmup) <= MAX
    && Wrap(ScheduleCount(s.rps, s.measurement) + ScheduleCount(s.rps, s.warmup)) <= s.maxRequests
  }

  /** The sum can wrap: this scenario passes validation although it asks for far too many requests. */
  lemma ValidationSumWraps()
    ensures var s := Scenario(0x4000_0000_0000_0000, SECOND, SECOND, 1);
            ValidScenario(s) && ScheduleCount(s.rps, s.measurement) > s.maxRequests
  {
  }

  /** Validation is right exactly while the exact sum fits: a scenario that passes it is within its limit if and
      only if the sum of both counts is an int64. */
  lemma ValidationIsRightIff(s: Scenario)
    requires ValidScenario(s)
    ensures var total := ScheduleCount(s.rps, s.measurement) + ScheduleCount(s.rps, s.warmup);
            total <= s.maxRequests <==> total <= MAX
  {
    MulMonotone(0, s.measurement, s.rps);
    MulMonotone(0, s.warmup, s.rps);
  }

  /** Even so the two schedules of a run never hold more than the allowed number of requests, and a
      run is planned exactly when the exact counts fit. */
  method PlanRun(s: Scenario) returns (r: Result<(seq<int>, seq<int>), ()>)
    ensures r.Ok? ==> |r.value.0| + |r.value.1| <= s.maxRequests <= MAX_SCENARIO_REQUESTS
    ensures r.Ok? ==>
              && |r.value.0| == ScheduleCount(s.rps, s.warmup)
              && |r.value.1| == ScheduleCount(s.rps, s.measurement)
    ensures ValidScenario(s) ==>
              (r.Ok? <==> ScheduleCount(s.rps, s.warmup) + ScheduleCount(s.rps, s.measurement) <= s.maxRequests)
    ensures !ValidScenario(s) ==> r.Err?
  {
    if !ValidScenario(s) { return Err(()); }
    assert s.warmup > 0 ==> ScheduleCount(s.rps, s.warmup) > 0 by {
      if s.warmup > 0 { CeilingBound(s.warmup * s.rps, 0); assert s.warmup * s.rps > 0; }
    }
    var measurement := BuildArrivalSchedule(s.rps, s.measurement, s.maxRequests);
    if measurement.Err? { return Err(()); }
    var budget := s.maxRequests - |measurement.value|;
    var warmup := [];
    if s.warmup > 0 {
      var built := BuildArrivalSchedule(s.rps, s.warmup, budget);
      if built.Err? { return Err(()); }
      warmup := built.value;
    }
    r := Ok((warmup, measurement.value));
  }
}
