/**
 Retries with exponential backoff behind a circuit breaker (backend/core/retry.py).
 */
module Retry {
  import opened Decimals

  // ---------- Circuit breaker ----------

  datatype CircuitState = Closed | Open | HalfOpen

  datatype BreakerConfig = BreakerConfig(threshold: int, resetTimeout: real)

  datatype Breaker = Breaker(state: CircuitState, failures: nat, openedAt: Option<real>) {
    predicate Valid() { state.Open? ==> openedAt.Some? }

    /** `before_call` lets the call through. */
    predicate Admits(config: BreakerConfig, now: real)
      requires Valid()
    {
      state.Open? ==> now - openedAt.value >= config.resetTimeout
    }

    function Admitted(): Breaker { if state.Open? then this.(state := HalfOpen) else this }

    function Succeeded(): Breaker { Breaker(Closed, 0, None) }

    function Failed(config: BreakerConfig, now: real): Breaker {
      if state.HalfOpen? || failures + 1 >= config.threshold
      then Breaker(Open, failures + 1, Some(now))
      else this.(failures := failures + 1)
    }

    /** Not closed exactly when the failures since the last success reach the threshold, and exactly
        when an opening time is recorded. */
    predicate Consistent(config: BreakerConfig) {
      && (!state.Closed? <==> failures >= config.threshold)
      && (!state.Closed? <==> openedAt.Some?)
    }
  }

  const FreshBreaker := Breaker(Closed, 0, None)

  /** The breaker object: three fields updated by every call it guards. */
  class CircuitBreaker {
    const config: BreakerConfig
    var state: CircuitState
    var failures: nat
    var openedAt: Option<real>

    function View(): Breaker
      reads this
    {
      Breaker(state, failures, openedAt)
    }

    constructor (config: BreakerConfig)
      ensures this.config == config && View() == FreshBreaker
    {
      this.config := config;
      state, failures, openedAt := Closed, 0, None;
    }

    /** Refuses while open; the first call after the timeout turns the breaker half-open. */
    method BeforeCall(now: real) returns (admitted: bool)
      requires View().Valid()
      modifies this
      ensures admitted == old(View()).Admits(config, now)
      ensures View() == if admitted then old(View()).Admitted() else old(View())
    {
      if state != Open { return true; }
      if now - openedAt.value < config.resetTimeout { return false; }
      state := HalfOpen;
      return true;
    }

    method OnSuccess()
      modifies this
      ensures View() == old(View()).Succeeded()
    {
      state, failures, openedAt := Closed, 0, None;
    }

    method OnFailure(now: real)
      modifies this
      ensures View() == old(View()).Failed(config, now)
    {
      failures := failures + 1;
      if state == HalfOpen || failures >= config.threshold {
        state := Open;
        openedAt := Some(now);
      }
    }
  }

  // ---------- Overlapping calls ----------

  /** One step of any interleaving: a call asks to start, or one in flight ends. */
  datatype CallEvent = Start(now: real) | EndOk | EndFailed(now: real)

  datatype Traffic = Traffic(breaker: Breaker, inFlight: nat)

  function CallStep(t: Traffic, config: BreakerConfig, e: CallEvent): Traffic
    requires t.breaker.Valid()
  {
    match e
    case Start(now) =>
      if t.breaker.Admits(config, now) then Traffic(t.breaker.Admitted(), t.inFlight + 1) else t
    case EndOk => if t.inFlight == 0 then t else Traffic(t.breaker.Succeeded(), t.inFlight - 1)
    case EndFailed(now) => if t.inFlight == 0 then t else Traffic(t.breaker.Failed(config, now), t.inFlight - 1)
  }

  function Interleave(t: Traffic, config: BreakerConfig, events: seq<CallEvent>): (r: Traffic)
    requires t.breaker.Valid()
    ensures r.breaker.Valid()
    decreases |events|
  {
    if events == [] then t else Interleave(CallStep(t, config, events[0]), config, events[1..])
  }

  lemma {:induction false} InterleavingKeepsConsistency(t: Traffic, config: BreakerConfig, events: seq<CallEvent>)
    requires t.breaker.Consistent(config) && config.threshold >= 1
    ensures Interleave(t, config, events).breaker.Consistent(config)
    decreases |events|
  {
    if events != [] { InterleavingKeepsConsistency(CallStep(t, config, events[0]), config, events[1..]); }
  }

  /** Every interleaving keeps the breaker consistent, provided the threshold is at least one;
      otherwise not even a fresh breaker is. */
  lemma {:induction false} AlwaysConsistentIff(config: BreakerConfig)
    ensures config.threshold >= 1 <==>
            forall events: seq<CallEvent> ::
              Interleave(Traffic(FreshBreaker, 0), config, events).breaker.Consistent(config)
  {
    if config.threshold >= 1 {
      forall events: seq<CallEvent>
        ensures Interleave(Traffic(FreshBreaker, 0), config, events).breaker.Consistent(config)
      {
        InterleavingKeepsConsistency(Traffic(FreshBreaker, 0), config, events);
      }
    } else {
      assert !Interleave(Traffic(FreshBreaker, 0), config, []).breaker.Consistent(config);
    }
  }

  /** Any number of overlapping probes pass a half-open breaker. */
  lemma {:induction false} HalfOpenAdmitsAll(t: Traffic, config: BreakerConfig, starts: seq<CallEvent>)
    requires t.breaker.state.HalfOpen? && forall e <- starts :: e.Start?
    ensures Interleave(t, config, starts) == Traffic(t.breaker, t.inFlight + |starts|)
    decreases |starts|
  {
    if starts != [] { HalfOpenAdmitsAll(CallStep(t, config, starts[0]), config, starts[1..]); }
  }

  /** The operations a sequence of events starts. */
  function Started(t: Traffic, config: BreakerConfig, events: seq<CallEvent>): nat
    requires t.breaker.Valid()
    decreases |events|
  {
    if events == [] then 0 else
    (if events[0].Start? && t.breaker.Admits(config, events[0].now) then 1 else 0)
    + Started(CallStep(t, config, events[0]), config, events[1..])
  }

  /** All events that read the clock do so within the timeout of an opening at `openedAt`. */
  predicate Inside(config: BreakerConfig, openedAt: real, events: seq<CallEvent>) {
    forall i :: 0 <= i < |events| && !events[i].EndOk? ==>
      openedAt <= events[i].now < openedAt + config.resetTimeout
  }

  lemma {:induction false} IdleStartsNothing(t: Traffic, config: BreakerConfig, openedAt: real, events: seq<CallEvent>)
    requires t.breaker.state.Open? && t.breaker.openedAt == Some(openedAt) && t.inFlight == 0
    requires Inside(config, openedAt, events)
    ensures Started(t, config, events) == 0
    decreases |events|
  {
    if events != [] {
      assert CallStep(t, config, events[0]) == t;
      IdleStartsNothing(t, config, openedAt, events[1..]);
    }
  }

  /** Whether an open breaker keeps operations away for its whole timeout depends on nothing but the
      calls still in flight: with none it does, with any a late success lets the next call through. */
  lemma {:induction false} TimeoutHoldsIff(t: Traffic, config: BreakerConfig, openedAt: real)
    requires t.breaker.state.Open? && t.breaker.openedAt == Some(openedAt) && config.resetTimeout > 0.0
    ensures (forall events :: Inside(config, openedAt, events) ==> Started(t, config, events) == 0)
            <==> t.inFlight == 0
  {
    if t.inFlight == 0 {
      forall events | Inside(config, openedAt, events) ensures Started(t, config, events) == 0 {
        IdleStartsNothing(t, config, openedAt, events);
      }
    } else {
      var events := [EndOk, Start(openedAt)];
      assert events[1..] == [Start(openedAt)] && Inside(config, openedAt, events);
      assert CallStep(t, config, EndOk).breaker == FreshBreaker;
      assert Started(CallStep(t, config, EndOk), config, [Start(openedAt)]) > 0;
      assert Started(t, config, events) > 0;
    }
  }

  /** Such an overlap is reachable: a success that started before the breaker opened closes it again. */
  lemma OverlapSkipsTimeout()
    ensures var config := BreakerConfig(1, 30.0);
            var t := Interleave(Traffic(FreshBreaker, 0), config, [Start(0.0), Start(0.0), EndFailed(1.0), EndOk]);
            t.breaker.Admits(config, 2.0) && t.inFlight == 0
  {
    var config := BreakerConfig(1, 30.0);
    var t0 := Traffic(FreshBreaker, 0);
    var t1 := CallStep(t0, config, Start(0.0));
    var t2 := CallStep(t1, config, Start(0.0));
    var t3 := CallStep(t2, config, EndFailed(1.0));
    var t4 := CallStep(t3, config, EndOk);
    var s := [Start(0.0), Start(0.0), EndFailed(1.0), EndOk];
    assert s[1..] == [Start(0.0), EndFailed(1.0), EndOk];
    assert s[1..][1..] == [EndFailed(1.0), EndOk];
    assert s[1..][1..][1..] == [EndOk];
    assert Interleave(t3, config, [EndOk]) == t4;
  }

  // ---------- Calls one after another ----------

  /** What an attempt would do, were it made: when it starts and ends, and how it ends. */
  datatype Outcome<T> = Success(value: T) | Failure(retryable: bool, retryAfter: Option<real>)
  datatype Attempt<T> = Attempt(start: real, finish: real, outcome: Outcome<T>)

  /** The attempts follow one another in time, none before `now`. */
  predicate InOrder<T>(now: real, attempts: seq<Attempt<T>>)
    decreases |attempts|
  {
    attempts == [] ||
    (now <= attempts[0].start <= attempts[0].finish && InOrder(attempts[0].finish, attempts[1..]))
  }

  /** One guarded call, start to end; a refused one changes nothing. */
  function Guarded<T>(b: Breaker, config: BreakerConfig, a: Attempt<T>): (r: Breaker)
    requires b.Valid()
    ensures r.Valid()
  {
    if !b.Admits(config, a.start) then b
    else if a.outcome.Success? then b.Admitted().Succeeded()
    else b.Admitted().Failed(config, a.finish)
  }

  function Serial<T>(b: Breaker, config: BreakerConfig, attempts: seq<Attempt<T>>): (r: Breaker)
    requires b.Valid()
    ensures r.Valid()
    decreases |attempts|
  {
    if attempts == [] then b else Serial(Guarded(b, config, attempts[0]), config, attempts[1..])
  }

  /** The breaker as the k-th attempt finds it. */
  function Before<T>(b: Breaker, config: BreakerConfig, attempts: seq<Attempt<T>>, k: nat): Breaker
    requires b.Valid() && k <= |attempts|
  {
    Serial(b, config, attempts[..k])
  }

  predicate Executes<T>(b: Breaker, config: BreakerConfig, attempts: seq<Attempt<T>>, k: nat)
    requires b.Valid() && k < |attempts|
  {
    Before(b, config, attempts, k).Admits(config, attempts[k].start)
  }

  /** A breaker whose recorded opening keeps operations away until the timeout has passed. */
  predicate Guards(b: Breaker, config: BreakerConfig, openedAt: real, now: real) {
    (b.state.Open? && b.openedAt == Some(openedAt)) || now >= openedAt + config.resetTimeout
  }

  lemma {:induction false} LaterStarts<T>(now: real, attempts: seq<Attempt<T>>, k: nat)
    requires InOrder(now, attempts) && k < |attempts|
    ensures now <= attempts[k].start <= attempts[k].finish
    ensures InOrder(attempts[k].finish, attempts[k + 1..])
    decreases k
  {
    if k > 0 { LaterStarts(attempts[0].finish, attempts[1..], k - 1); }
  }

  lemma {:induction false} NoneBeforeTimeout<T>(
    b: Breaker, config: BreakerConfig, attempts: seq<Attempt<T>>, openedAt: real, now: real, k: nat
  )
    requires b.Valid() && Guards(b, config, openedAt, now) && InOrder(now, attempts) && k < |attempts|
    requires Executes(b, config, attempts, k)
    ensures attempts[k].start >= openedAt + config.resetTimeout
    decreases k
  {
    LaterStarts(now, attempts, k);
    if now < openedAt + config.resetTimeout && k > 0 {
      assert attempts[..k][0] == attempts[0] && attempts[..k][1..] == attempts[1..][..k - 1];
      NoneBeforeTimeout(Guarded(b, config, attempts[0]), config, attempts[1..], openedAt, attempts[0].finish, k - 1);
    }
  }

  lemma {:induction false} SerialAppend<T>(b: Breaker, config: BreakerConfig, a: seq<Attempt<T>>, c: seq<Attempt<T>>)
    requires b.Valid()
    ensures Serial(b, config, a + c) == Serial(Serial(b, config, a), config, c)
    decreases |a|
  {
    if a == [] { assert a + c == c; } else {
      assert (a + c)[0] == a[0] && (a + c)[1..] == a[1..] + c;
      SerialAppend(Guarded(b, config, a[0]), config, a[1..], c);
    }
  }

  /** Under serial use, once an attempt opens the breaker no later operation runs within the timeout. */
  lemma {:induction false} TimeoutIsRespected<T>(
    b: Breaker, config: BreakerConfig, attempts: seq<Attempt<T>>, now: real, i: nat, k: nat
  )
    requires b.Valid() && InOrder(now, attempts) && i < k < |attempts|
    requires Executes(b, config, attempts, i) && Before(b, config, attempts, i + 1).state.Open?
    requires Executes(b, config, attempts, k)
    ensures attempts[k].start >= attempts[i].finish + config.resetTimeout
  {
    assert attempts[..i + 1] == attempts[..i] + [attempts[i]];
    SerialAppend(b, config, attempts[..i], [attempts[i]]);
    var tripped := Before(b, config, attempts, i + 1);
    assert tripped == Guarded(Before(b, config, attempts, i), config, attempts[i]);
    LaterStarts(now, attempts, i);
    var rest := attempts[i + 1..];
    assert attempts[..k] == attempts[..i + 1] + rest[..k - i - 1];
    SerialAppend(b, config, attempts[..i + 1], rest[..k - i - 1]);
    if config.resetTimeout <= 0.0 {
      assert attempts[k] == rest[k - i - 1];
      LaterStarts(attempts[i].finish, rest, k - i - 1);
    } else {
      NoneBeforeTimeout(tripped, config, rest, attempts[i].finish, attempts[i].finish, k - i - 1);
    }
  }

  lemma {:induction false} RefusalsChangeNothing<T>(
    b: Breaker, config: BreakerConfig, attempts: seq<Attempt<T>>, k: nat
  )
    requires b.Valid() && k <= |attempts|
    requires forall i :: 0 <= i < k ==> !Executes(b, config, attempts, i)
    ensures Before(b, config, attempts, k) == b
    decreases k
  {
    if k > 0 {
      RefusalsChangeNothing(b, config, attempts, k - 1);
      assert !Executes(b, config, attempts, k - 1);
      assert attempts[..k] == attempts[..k - 1] + [attempts[k - 1]];
      SerialAppend(b, config, attempts[..k - 1], [attempts[k - 1]]);
    }
  }

  /** Under serial use one probe decides: the first operation after an opening either closes the
      breaker with its count cleared or opens it again from the probe's own end. */
  lemma {:induction false} OneProbeDecides<T>(b: Breaker, config: BreakerConfig, attempts: seq<Attempt<T>>, k: nat)
    requires b.Valid() && b.state.Open? && k < |attempts|
    requires Executes(b, config, attempts, k)
    requires forall i :: 0 <= i < k ==> !Executes(b, config, attempts, i)
    ensures attempts[k].start >= b.openedAt.value + config.resetTimeout
    ensures forall i :: 0 <= i < k ==> attempts[i].start < b.openedAt.value + config.resetTimeout
    ensures Before(b, config, attempts, k) == b
    ensures Before(b, config, attempts, k + 1)
         == if attempts[k].outcome.Success? then FreshBreaker
            else Breaker(Open, b.failures + 1, Some(attempts[k].finish))
  {
    RefusalsChangeNothing(b, config, attempts, k);
    assert attempts[..k + 1] == attempts[..k] + [attempts[k]];
    SerialAppend(b, config, attempts[..k], [attempts[k]]);
    assert Serial(b, config, [attempts[k]]) == Guarded(b, config, attempts[k]);
    forall i | 0 <= i < k ensures attempts[i].start < b.openedAt.value + config.resetTimeout {
      RefusalsChangeNothing(b, config, attempts, i);
      assert !Executes(b, config, attempts, i);
    }
  }

  // ---------- Retrying ----------

  datatype RetryConfig = RetryConfig(baseDelay: real, maxDelay: real, jitterRatio: real)

  function Pow2(n: nat): (r: real)
    ensures r >= 1.0
  {
    if n == 0 then 1.0 else 2.0 * Pow2(n - 1)
  }

  /** The exponential backoff before any jitter. */
  function Backoff(attempt: nat, config: RetryConfig): real {
    Min(Product(config.baseDelay, Pow2(attempt)), config.maxDelay)
  }

  /** `compute_delay`; `jitter` is the random draw, between plus and minus the ratio. */
  function Delay(attempt: nat, config: RetryConfig, retryAfter: Option<real>, jitter: real): real {
    if retryAfter.Some? then Min(retryAfter.value, config.maxDelay)
    else if config.jitterRatio <= 0.0 then Backoff(attempt, config)
    else Max(0.0, Product(Backoff(attempt, config), 1.0 + jitter))
  }

  /** Before any jitter the delay starts at the base and doubles until the maximum caps it. */
  lemma BackoffDoubles(attempt: nat, config: RetryConfig)
    requires config.baseDelay >= 0.0 && config.maxDelay >= 0.0
    ensures Backoff(0, config) == Min(config.baseDelay, config.maxDelay)
    ensures Backoff(attempt + 1, config) == Min(2.0 * Backoff(attempt, config), config.maxDelay)
  {
    var raw := config.baseDelay * Pow2(attempt);
    assert raw >= 0.0 by { MulNonNegative(config.baseDelay, Pow2(attempt)); }
    assert config.baseDelay * (2.0 * Pow2(attempt)) == 2.0 * raw;
  }

  lemma BackoffNonNegative(attempt: nat, config: RetryConfig)
    requires config.baseDelay >= 0.0 && config.maxDelay >= 0.0
    ensures Backoff(attempt, config) >= 0.0
  {
    MulNonNegative(config.baseDelay, Pow2(attempt));
  }

  /** A delay the server asked for is kept as it is, up to the maximum; any other strays from the backoff
      by at most the jitter's share of it, exactly by the draw, and is never negative. */
  lemma DelayAnswers(attempt: nat, config: RetryConfig, asked: Option<real>, jitter: real)
    requires config.baseDelay >= 0.0 && config.maxDelay >= 0.0
    requires -config.jitterRatio <= jitter <= config.jitterRatio || config.jitterRatio <= 0.0
    ensures asked.Some? ==> Delay(attempt, config, asked, jitter) == Min(asked.value, config.maxDelay)
    ensures asked.None? && config.jitterRatio <= 0.0 ==>
              Delay(attempt, config, asked, jitter) == Backoff(attempt, config)
    ensures asked.None? && 0.0 < config.jitterRatio <= 1.0 ==>
              var strayed := Delay(attempt, config, asked, jitter) - Backoff(attempt, config);
              && strayed == Product(Backoff(attempt, config), jitter)
              && Abs(strayed) <= Product(Backoff(attempt, config), config.jitterRatio)
    ensures asked.None? ==> Delay(attempt, config, asked, jitter) >= 0.0
  {
    hide Backoff;
    var b := Backoff(attempt, config);
    assert b >= 0.0 by { BackoffNonNegative(attempt, config); }
    if 0.0 < config.jitterRatio <= 1.0 {
      assert b * (1.0 + jitter) == b + b * jitter;
      MulNonNegative(b, 1.0 + jitter);
      MulNonNegative(b, config.jitterRatio - jitter);
      MulNonNegative(b, config.jitterRatio + jitter);
      assert b * (config.jitterRatio - jitter) == b * config.jitterRatio - b * jitter;
      assert b * (config.jitterRatio + jitter) == b * config.jitterRatio + b * jitter;
    }
  }

  /** A jitter the draw can produce leaves the delay within the maximum. */
  predicate WithinCap(attempt: nat, config: RetryConfig, jitter: real) {
    (config.jitterRatio > 0.0 ==> -config.jitterRatio <= jitter <= config.jitterRatio) ==>
      Delay(attempt, config, None, jitter) <= config.maxDelay
  }

  lemma ProductSign(x: real, y: real)
    requires x >= 0.0 && y >= 0.0
    ensures Product(x, y) >= 0.0
  {}

  lemma ProductGrows(x: real, y: real, z: real)
    requires x >= 0.0 && y <= z
    ensures Product(x, y) <= Product(x, z)
  {
    MulNonNegative(x, z - y);
  }

  /** The clamp comes before the jitter, so the maximum is kept for every draw only where the
      largest draw still fits under it. */
  lemma DelayCappedIff(attempt: nat, config: RetryConfig)
    requires config.baseDelay >= 0.0 && config.maxDelay >= 0.0
    ensures (forall jitter: real :: WithinCap(attempt, config, jitter))
            <==> (config.jitterRatio <= 0.0
                  || Product(Backoff(attempt, config), 1.0 + config.jitterRatio) <= config.maxDelay)
  {
    hide Product;
    var base := Backoff(attempt, config);
    assert base >= 0.0 by { ProductSign(config.baseDelay, Pow2(attempt)); }
    if config.jitterRatio > 0.0 {
      assert Delay(attempt, config, None, config.jitterRatio)
          == Max(0.0, Product(base, 1.0 + config.jitterRatio));
      ProductSign(base, 1.0 + config.jitterRatio);
      var top := Product(base, 1.0 + config.jitterRatio);
      if top <= config.maxDelay {
        forall jitter: real ensures WithinCap(attempt, config, jitter) {
          if jitter <= config.jitterRatio { ProductGrows(base, 1.0 + jitter, 1.0 + config.jitterRatio); }
        }
      }
      assert WithinCap(attempt, config, config.jitterRatio) <==> top <= config.maxDelay;
    }
  }

  /** How a retried operation ends: its value, its own error, a refusal by the breaker, or the
      assertion that fails when no attempt was allowed at all. */
  datatype Ending<T> = Returned(value: T) | OperationRaised | BreakerRefused | NoAttemptAllowed

  datatype RetryRun<T> = RetryRun(ending: Ending<T>, calls: nat, breaker: Breaker)

  /** The retry loop over the attempts it is allowed (one per unit of `max_attempts`). */
  function Retried<T>(b: Breaker, config: BreakerConfig, world: seq<Attempt<T>>): RetryRun<T>
    requires b.Valid()
    decreases |world|
  {
    if world == [] then RetryRun(NoAttemptAllowed, 0, b)
    else if !b.Admits(config, world[0].start) then RetryRun(BreakerRefused, 0, b)
    else
      var next := Guarded(b, config, world[0]);
      match world[0].outcome
      case Success(v) => RetryRun(Returned(v), 1, next)
      case Failure(retryable, _) =>
        if !retryable || |world| == 1 then RetryRun(OperationRaised, 1, next)
        else
          var rest := Retried(next, config, world[1..]);
          rest.(calls := rest.calls + 1)
  }

  /** `retry_sync` with a breaker: `world[k]` is what the k-th operation does, `draws[k]` the jitter
      drawn after it. Returns how it ended, the operations made and the delays slept. */
  method RetrySync<T(0)>(
    breaker: CircuitBreaker, config: RetryConfig, world: seq<Attempt<T>>, draws: seq<real>
  ) returns (ending: Ending<T>, calls: nat, delays: seq<real>)
    requires breaker.View().Valid() && |draws| >= |world|
    modifies breaker
    ensures RetryRun(ending, calls, breaker.View()) == Retried(old(breaker.View()), breaker.config, world)
    ensures |delays| <= calls <= |world|
    ensures forall k :: 0 <= k < |delays| ==>
                          world[k].outcome.Failure?
                          && delays[k] == Delay(k, config, world[k].outcome.retryAfter, draws[k])
  {
    ghost var start := breaker.View();
    calls, delays := 0, [];
    for attempt := 0 to |world|
      invariant breaker.View().Valid() && calls == attempt && |delays| == attempt
      invariant attempt == |world| ==> world == []
      invariant var rest := Retried(breaker.View(), breaker.config, world[attempt..]);
                Retried(start, breaker.config, world) == rest.(calls := rest.calls + attempt)
      invariant forall k :: 0 <= k < |delays| ==>
                              world[k].outcome.Failure?
                              && delays[k] == Delay(k, config, world[k].outcome.retryAfter, draws[k])
    {
      ghost var found := breaker.View();
      var admitted := breaker.BeforeCall(world[attempt].start);
      if !admitted { return BreakerRefused, calls, delays; }
      calls := calls + 1;
      match world[attempt].outcome {
        case Failure(retryable, retryAfter) =>
          breaker.OnFailure(world[attempt].finish);
          if !retryable || attempt == |world| - 1 { return OperationRaised, calls, delays; }
          delays := delays + [Delay(attempt, config, retryAfter, draws[attempt])];
          assert world[attempt..][1..] == world[attempt + 1..];
        case Success(v) =>
          breaker.OnSuccess();
          return Returned(v), calls, delays;
      }
    }
    return NoAttemptAllowed, calls, delays;
  }

  lemma FirstAttempt<T>(b: Breaker, config: BreakerConfig, world: seq<Attempt<T>>, k: nat)
    requires b.Valid() && k <= |world|
    ensures k == 0 ==> Serial(b, config, world[..k]) == b
    ensures k > 0 ==> Serial(b, config, world[..k]) == Serial(Guarded(b, config, world[0]), config, world[1..][..k - 1])
  {
    if k > 0 { assert world[..k][1..] == world[1..][..k - 1]; }
  }

  /** The operation runs at most as often as allowed; exactly the attempts before the last were
      retryable failures, the last one decides the ending, and the breaker ends as a serial use
      of those attempts leaves it. */
  lemma {:induction false} RetryOutcome<T>(b: Breaker, config: BreakerConfig, world: seq<Attempt<T>>)
    requires b.Valid()
    ensures var r := Retried(b, config, world);
            && r.calls <= |world|
            && r.breaker == Serial(b, config, world[..r.calls])
            && (forall k :: 0 <= k < r.calls ==> Executes(b, config, world, k))
            && (forall k :: 0 <= k < r.calls - 1 ==> world[k].outcome.Failure? && world[k].outcome.retryable)
            && (r.ending.Returned? ==> r.calls > 0 && world[r.calls - 1].outcome == Success(r.ending.value))
            && (r.ending.OperationRaised? ==>
                  && r.calls > 0 && world[r.calls - 1].outcome.Failure?
                  && (r.calls == |world| || !world[r.calls - 1].outcome.retryable))
            && (r.ending.BreakerRefused? ==> r.calls < |world| && !Executes(b, config, world, r.calls))
            && (r.ending.NoAttemptAllowed? <==> world == [])
    decreases |world|
  {
    var r := Retried(b, config, world);
    if world != [] && b.Admits(config, world[0].start) {
      var next := Guarded(b, config, world[0]);
      FirstAttempt(b, config, world, 0);
      if world[0].outcome.Failure? && world[0].outcome.retryable && |world| > 1 {
        RetryOutcome(next, config, world[1..]);
        FirstAttempt(b, config, world, r.calls);
        forall k | 0 < k < |world| ensures Executes(b, config, world, k) == Executes(next, config, world[1..], k - 1) {
          FirstAttempt(b, config, world, k);
        }
      } else {
        FirstAttempt(b, config, world, 1);
      }
    }
  }

  // ---------- The breaker cuts retries short ----------

  /** Attempts that all fail retryably, each soon enough to fall within the timeout of the one before. */
  predicate FastFailures<T>(config: BreakerConfig, world: seq<Attempt<T>>)
    decreases |world|
  {
    world == [] ||
    (&& world[0].outcome.Failure? && world[0].outcome.retryable
     && (|world| > 1 ==> world[1].start - world[0].finish < config.resetTimeout)
     && FastFailures(config, world[1..]))
  }

  /** A closed breaker with `threshold - failures` to go allows exactly that many operations of a
      failing burst; if more were allowed, the caller gets the breaker's refusal, not the error. */
  lemma {:induction false} BurstIsCutShort<T>(b: Breaker, config: BreakerConfig, world: seq<Attempt<T>>)
    requires b.state.Closed? && b.Consistent(config) && FastFailures(config, world) && world != []
    ensures var left := config.threshold - b.failures;
            var r := Retried(b, config, world);
            if left < |world| then r.ending == BreakerRefused && r.calls == left
            else r.ending == OperationRaised && r.calls == |world|
    decreases |world|
  {
    if |world| > 1 {
      var next := Guarded(b, config, world[0]);
      if next.state.Closed? {
        BurstIsCutShort(next, config, world[1..]);
      } else {
        assert next.openedAt == Some(world[0].finish);
        assert world[1..][0] == world[1];
      }
    }
  }
}
