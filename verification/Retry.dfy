/** Retry with exponential backoff, against an abstract clock that starts at zero. */
module Retry {
  import opened Basics

  /** Durations are nanoseconds; any of them may be negative. */
  datatype Config = Config(
    maxAttempts: int, initialInterval: int, maxInterval: int, coefficient: real, maxElapsedTime: int)

  const SECOND := 1_000_000_000

  const DEFAULT := Config(5, SECOND, 60 * SECOND, 2.0, 5 * 60 * SECOND)

  /**
   What the k-th call of fn would answer and how long it would take, when the context is canceled, and
   what the machine makes of an interval times the coefficient, rounding and overflow included.
   */
  datatype World = World(ok: nat -> bool, took: nat -> nat, canceled: Option<nat>, scaled: (int, real) -> int)

  /** The error returned last is the one of the call with that number. */
  datatype Outcome = Success | Canceled | Elapsed(last: Option<nat>) | Exhausted(last: Option<nat>)

  function Next(config: Config, w: World, interval: int): int {
    Min(w.scaled(interval, config.coefficient), config.maxInterval)
  }

  /** The backoff interval after the call numbered k: the first one is not capped. */
  function Interval(config: Config, w: World, k: nat): int {
    if k == 0 then config.initialInterval
    else Next(config, w, Interval(config, w, k - 1))
  }

  /** When the call numbered k starts if every earlier one fails and nothing stops the loop. */
  function Start(config: Config, w: World, k: nat): nat {
    if k == 0 then 0 else Start(config, w, k - 1) + w.took(k - 1) + Max(0, Interval(config, w, k - 1))
  }

  predicate CanceledBy(w: World, now: nat) {
    w.canceled.Some? && w.canceled.value <= now
  }

  /** The call numbered k is made. */
  ghost predicate Reached(config: Config, w: World, k: nat) {
    && k < config.maxAttempts
    && (forall j: nat :: j < k ==> !w.ok(j))
    && Start(config, w, k) <= config.maxElapsedTime
    && !CanceledBy(w, Start(config, w, k))
  }

  lemma {:induction false} StartMonotone(config: Config, w: World, j: nat, k: nat)
    requires j <= k
    ensures Start(config, w, j) <= Start(config, w, k)
    decreases k
  {
    if j < k {
      StartMonotone(config, w, j, k - 1);
    }
  }

  /** The calls that are made are the first ones. */
  lemma ReachedIsPrefix(config: Config, w: World, j: nat, k: nat)
    requires j <= k && Reached(config, w, k)
    ensures Reached(config, w, j)
  {
    StartMonotone(config, w, j, k);
  }

  /** When the loop is left if the last call made is the one numbered calls - 1. */
  function LeftAt(config: Config, w: World, calls: nat, r: Outcome): nat {
    match r
    case Elapsed(_) => Start(config, w, calls)
    case Canceled => if calls == 0 || w.canceled.None? then 0 else Max(Returned(config, w, calls), w.canceled.value)
    case _ => Returned(config, w, calls)
  }

  /** When the last of the calls returned. */
  function Returned(config: Config, w: World, calls: nat): nat {
    if calls == 0 then 0 else Start(config, w, calls - 1) + w.took(calls - 1)
  }

  /**
   A cancellation ends a wait as soon as it comes, and no call: the loop is left at the cancellation or at
   the return of the last call, whichever is later. All other ends come when a call returns or is due.
   */
  lemma LeftWhen(config: Config, w: World, calls: nat, r: Outcome)
    requires r.Canceled? ==> w.canceled.Some?
    ensures var left := LeftAt(config, w, calls, r);
      if r.Elapsed? then left == Start(config, w, calls)
      else if calls == 0 then left == 0
      else
        var returned := Start(config, w, calls - 1) + w.took(calls - 1);
        if r.Canceled? then returned <= left && w.canceled.value <= left && left in {returned, w.canceled.value}
        else left == returned
  {
  }

  method Do(config: Config, w: World) returns (r: Outcome, calls: nat, now: nat)
    ensures forall k: nat :: k < calls <==> Reached(config, w, k)
    ensures r.Success? <==> calls > 0 && w.ok(calls - 1)
    ensures r.Exhausted? <==> calls == Max(0, config.maxAttempts) && !r.Success?
    ensures r.Canceled? <==> !r.Success? && !r.Exhausted? && CanceledBy(w, Start(config, w, calls))
    ensures r.Exhausted? || r.Elapsed? ==> r.last == if calls == 0 then None else Some(calls - 1)
    ensures now == LeftAt(config, w, calls, r)
  {
    var last: Option<nat> := None;
    var interval := config.initialInterval;
    now, calls := 0, 0;
    var attempt := 1;
    while attempt <= config.maxAttempts
      invariant attempt == calls + 1 && calls <= Max(0, config.maxAttempts)
      invariant calls == 0 || calls < config.maxAttempts
      invariant now == Start(config, w, calls) && interval == Interval(config, w, calls)
      invariant forall k: nat :: k < calls ==> Reached(config, w, k) && !w.ok(k)
      invariant last == if calls == 0 then None else Some(calls - 1)
      decreases config.maxAttempts - attempt
    {
      if CanceledBy(w, now) {
        NotReached(config, w, calls);
        return Canceled, calls, LeftAt(config, w, calls, Canceled);
      }
      if now > config.maxElapsedTime {
        NotReached(config, w, calls);
        return Elapsed(last), calls, now;
      }
      var ok := w.ok(calls);
      now := now + w.took(calls);
      calls := calls + 1;
      if ok {
        NotReached(config, w, calls);
        return Success, calls, now;
      }
      last := Some(calls - 1);
      if attempt == config.maxAttempts {
        break;
      }
      var due := now + Max(0, interval);
      if CanceledBy(w, due) {
        NotReached(config, w, calls);
        return Canceled, calls, Max(now, w.canceled.value);
      }
      now := due;
      interval := Next(config, w, interval);
      attempt := attempt + 1;
    }
    NotReached(config, w, calls);
    r := Exhausted(last);
  }

  lemma NotReached(config: Config, w: World, calls: nat)
    requires !Reached(config, w, calls)
    ensures forall k: nat :: calls <= k ==> !Reached(config, w, k)
  {
    forall k: nat | calls <= k
      ensures !Reached(config, w, k)
    {
      if Reached(config, w, k) {
        ReachedIsPrefix(config, w, calls, k);
      }
    }
  }

  /** At most maxAttempts calls, and fn is never called again after a success. */
  lemma CallsAreBounded(config: Config, w: World, calls: nat)
    requires forall k: nat :: k < calls <==> Reached(config, w, k)
    ensures calls <= Max(0, config.maxAttempts)
    ensures forall k: nat :: k + 1 < calls ==> !w.ok(k)
  {
    if calls > 0 {
      assert Reached(config, w, calls - 1);
    }
  }

  function Longest(w: World, calls: nat): nat {
    if calls == 0 then 0 else Max(Longest(w, calls - 1), w.took(calls - 1))
  }

  /** How many waits were begun: success and exhaustion follow the last call at once. */
  function Waits(calls: nat, r: Outcome): nat {
    if calls > 0 && (r.Success? || r.Exhausted?) then calls - 1 else calls
  }

  function LongestWait(config: Config, w: World, waits: nat): nat {
    if waits == 0 then 0 else Max(LongestWait(config, w, waits - 1), Max(0, Interval(config, w, waits - 1)))
  }

  /** The longest call is one of the calls. */
  lemma {:induction false} LongestIsOne(w: World, calls: nat) returns (k: nat)
    requires calls > 0
    ensures k < calls && Longest(w, calls) == w.took(k)
    ensures forall j: nat :: j < calls ==> w.took(j) <= Longest(w, calls)
  {
    k := calls - 1;
    if calls > 1 {
      var before := LongestIsOne(w, calls - 1);
      k := if w.took(before) < w.took(k) then k else before;
    }
  }

  /** The longest wait is one of the waits. */
  lemma {:induction false} LongestWaitIsOne(config: Config, w: World, waits: nat) returns (k: nat)
    requires waits > 0
    ensures k < waits && LongestWait(config, w, waits) == Max(0, Interval(config, w, k))
    ensures forall j: nat :: j < waits ==> Interval(config, w, j) <= LongestWait(config, w, waits)
  {
    k := waits - 1;
    if waits > 1 {
      var before := LongestWaitIsOne(config, w, waits - 1);
      k := if Interval(config, w, before) < Interval(config, w, k) then k else before;
    }
  }

  /** Do returns at most one call and one of the waits it began after maxElapsedTime. */
  lemma ElapsedIsBounded(config: Config, w: World, calls: nat, r: Outcome)
    requires forall k: nat :: k < calls <==> Reached(config, w, k)
    requires r.Canceled? ==> CanceledBy(w, Start(config, w, calls))
    ensures LeftAt(config, w, calls, r) <=
            Max(0, config.maxElapsedTime) + Longest(w, calls) + LongestWait(config, w, Waits(calls, r))
  {
    if calls > 0 {
      assert Reached(config, w, calls - 1);
      LastReturn(config, w, calls);
      NextStart(config, w, calls);
    }
  }

  /** The last call started in time. */
  lemma LastReturn(config: Config, w: World, calls: nat)
    requires calls > 0 && Start(config, w, calls - 1) <= config.maxElapsedTime
    ensures Returned(config, w, calls) <= Max(0, config.maxElapsedTime) + Longest(w, calls)
  {
    assert w.took(calls - 1) <= Longest(w, calls);
  }

  lemma NextStart(config: Config, w: World, calls: nat)
    requires calls > 0
    ensures Start(config, w, calls) <= Returned(config, w, calls) + LongestWait(config, w, calls)
  {
    assert Max(0, Interval(config, w, calls - 1)) <= LongestWait(config, w, calls);
  }

  /** No wait but the first can exceed maxInterval. */
  lemma {:induction false} WaitsAreCapped(config: Config, w: World, waits: nat)
    ensures LongestWait(config, w, waits) <= Max(0, Max(config.initialInterval, config.maxInterval))
  {
    if waits > 0 {
      WaitsAreCapped(config, w, waits - 1);
    }
  }

  /** Whatever the machine makes of the multiplication, the configured intervals are a ceiling for that wait. */
  lemma ElapsedIsCapped(config: Config, w: World, calls: nat, r: Outcome)
    requires forall k: nat :: k < calls <==> Reached(config, w, k)
    requires r.Canceled? ==> CanceledBy(w, Start(config, w, calls))
    ensures LeftAt(config, w, calls, r) <=
            Max(0, config.maxElapsedTime) + Longest(w, calls) + Max(0, Max(config.initialInterval, config.maxInterval))
  {
    ElapsedIsBounded(config, w, calls, r);
    WaitsAreCapped(config, w, Waits(calls, r));
  }

  function Power(c: nat, k: nat): nat {
    if k == 0 then 1 else c * Power(c, k - 1)
  }

  /** Multiplying durations no longer than these by the whole number c is exact, as it is in float64 below 2^53. */
  ghost predicate ScalesExactly(config: Config, w: World, c: nat) {
    forall a: nat :: a <= Max(config.initialInterval, config.maxInterval) ==> w.scaled(a, config.coefficient) == a * c
  }

  lemma Scales(a: nat, c: nat)
    requires c >= 1
    ensures a * c >= a
  {
  }

  /** Cutting before or after scaling makes no difference, since scaling never shrinks. */
  lemma CutTwice(a: nat, c: nat, cap: nat)
    requires c >= 1
    ensures Min(Min(a, cap) * c, cap) == Min(a * c, cap)
  {
    if a >= cap {
      Scales(cap, c);
      Scales(a, c);
    }
  }

  lemma Regroup(a: nat, c: nat, b: nat)
    ensures a * b * c == a * (c * b)
  {
  }

  /** With a whole coefficient, wait k is the initial interval times its k-th power, cut at the maximum. */
  lemma {:induction false} BackoffIsExponential(config: Config, w: World, c: nat, k: nat)
    requires c >= 1 && ScalesExactly(config, w, c)
    requires config.initialInterval >= 0 && config.maxInterval >= 0 && k >= 1
    ensures Interval(config, w, k) == Min(config.initialInterval * Power(c, k), config.maxInterval)
  {
    var first, cap := config.initialInterval, config.maxInterval;
    var grown := first * Power(c, k - 1);
    Regroup(first, c, Power(c, k - 1));
    if k == 1 {
      assert Next(config, w, first) == Min(first * c, cap);
    } else {
      BackoffIsExponential(config, w, c, k - 1);
      assert Next(config, w, Min(grown, cap)) == Min(Min(grown, cap) * c, cap);
      CutTwice(grown, c, cap);
    }
  }

  lemma DefaultIntervals(w: World)
    requires ScalesExactly(DEFAULT, w, 2)
    ensures Interval(DEFAULT, w, 0) == SECOND && Interval(DEFAULT, w, 1) == 2 * SECOND
    ensures Interval(DEFAULT, w, 2) == 4 * SECOND && Interval(DEFAULT, w, 3) == 8 * SECOND
  {
    assert Next(DEFAULT, w, SECOND) == 2 * SECOND;
    assert Next(DEFAULT, w, 2 * SECOND) == 4 * SECOND;
    assert Next(DEFAULT, w, 4 * SECOND) == 8 * SECOND;
  }

  /** With the default configuration, calls that fail at once start at 0, 1, 3, 7 and 15 seconds. */
  lemma DefaultSchedule(w: World)
    requires ScalesExactly(DEFAULT, w, 2) && forall k: nat :: w.took(k) == 0
    ensures Start(DEFAULT, w, 0) == 0 && Start(DEFAULT, w, 1) == 1_000_000_000
    ensures Start(DEFAULT, w, 2) == 3_000_000_000 && Start(DEFAULT, w, 3) == 7_000_000_000
    ensures Start(DEFAULT, w, 4) == 15_000_000_000
  {
    DefaultIntervals(w);
    assert w.took(0) == w.took(1) == w.took(2) == w.took(3) == 0;
    assert Start(DEFAULT, w, 1) == SECOND;
    assert Start(DEFAULT, w, 2) == 3 * SECOND;
    assert Start(DEFAULT, w, 3) == 7 * SECOND;
  }

  /** With the default configuration Do returns within five minutes, eight seconds and one call. */
  lemma DefaultIsBounded(w: World, calls: nat, r: Outcome)
    requires ScalesExactly(DEFAULT, w, 2)
    requires forall k: nat :: k < calls <==> Reached(DEFAULT, w, k)
    requires r.Canceled? ==> CanceledBy(w, Start(DEFAULT, w, calls))
    requires r.Exhausted? <==> calls == 5 && !r.Success?
    ensures calls <= 5 && LeftAt(DEFAULT, w, calls, r) <= 308 * SECOND + Longest(w, calls)
  {
    CallsAreBounded(DEFAULT, w, calls);
    ElapsedIsBounded(DEFAULT, w, calls, r);
    ShortWaits(w, Waits(calls, r));
  }

  lemma {:induction false} ShortWaits(w: World, waits: nat)
    requires waits <= 4 && ScalesExactly(DEFAULT, w, 2)
    ensures LongestWait(DEFAULT, w, waits) <= 8 * SECOND
  {
    DefaultIntervals(w);
    if waits > 0 {
      ShortWaits(w, waits - 1);
    }
  }
}
