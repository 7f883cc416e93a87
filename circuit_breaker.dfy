/**
 * The circuit breaker: a three-state machine (closed, open, half-open)
 * guarding calls to a failing service, and the manager that keeps one
 * breaker per name.
 *
 * Each transition is a pure function on a `Breaker` value; the
 * `CircuitBreaker` class holds the current value and applies them. The
 * wall clock is read by the caller and passed in: `now` when the call is
 * admitted, `failedAt` when a failure is recorded.
 */
module CircuitBreakers {
  import opened Wrappers

  datatype CircuitState = Closed | Open | HalfOpen

  /** `CircuitState.X.value` */
  function StateValue(s: CircuitState): string {
    match s
    case Closed => "closed"
    case Open => "open"
    case HalfOpen => "half_open"
  }

  /** The constructor's keyword arguments (the exception class is decided per call, see `Outcome`). */
  datatype Settings = Settings(failureThreshold: int, successThreshold: int, timeout: real)

  const DefaultSettings: Settings := Settings(5, 2, 60.0)

  /** The mutable fields of a breaker. */
  datatype Breaker = Breaker(state: CircuitState, failureCount: int, successCount: int, lastFailureTime: Option<real>)

  /** A new breaker, and what `reset` restores. */
  const Initial: Breaker := Breaker(Closed, 0, 0, None)

  /** `self.last_failure_time or 0` */
  function LastFailureOr0(b: Breaker): real {
    match b.lastFailureTime
    case Some(t) => t
    case None => 0.0
  }

  /** The timeout since the last failure has elapsed. */
  predicate TimedOut(b: Breaker, cfg: Settings, now: real) {
    now - LastFailureOr0(b) >= cfg.timeout
  }

  /**
   * The state check at the start of `call`: an open breaker whose timeout has
   * elapsed moves to half-open; one whose timeout has not rejects the call
   * (`None`); any other state lets the call through unchanged.
   */
  function Admit(b: Breaker, cfg: Settings, now: real): (r: Option<Breaker>)
    ensures r.None? <==> b.state == Open && !TimedOut(b, cfg, now)
    ensures b.state != Open ==> r == Some(b)
    ensures b.state == Open && r.Some? ==>
      r.value == Breaker(HalfOpen, b.failureCount, 0, b.lastFailureTime)
  {
    if b.state == Open then
      if TimedOut(b, cfg, now) then Some(b.(state := HalfOpen, successCount := 0)) else None
    else Some(b)
  }

  /** `_on_success` */
  function OnSuccess(b: Breaker, cfg: Settings): (r: Breaker)
    ensures b.state == HalfOpen && b.successCount + 1 >= cfg.successThreshold ==> r == Breaker(Closed, 0, 0, b.lastFailureTime)
    ensures b.state == HalfOpen && b.successCount + 1 < cfg.successThreshold ==> r == b.(successCount := b.successCount + 1)
    ensures b.state == Closed ==> r == b.(failureCount := 0)
    ensures b.state == Open ==> r == b
  {
    match b.state
    case HalfOpen =>
      if b.successCount + 1 >= cfg.successThreshold then Breaker(Closed, 0, 0, b.lastFailureTime)
      else b.(successCount := b.successCount + 1)
    case Closed => b.(failureCount := 0)
    case Open => b
  }

  /** `_on_failure` */
  function OnFailure(b: Breaker, cfg: Settings, failedAt: real): (r: Breaker)
    ensures r.failureCount == b.failureCount + 1 && r.lastFailureTime == Some(failedAt)
    ensures b.state == HalfOpen ==> r.state == Open && r.successCount == 0
    ensures b.state == Closed ==> (r.state == Open <==> b.failureCount + 1 >= cfg.failureThreshold)
    ensures b.state == Closed ==> r.state != HalfOpen && r.successCount == b.successCount
    ensures b.state == Open ==> r.state == Open && r.successCount == b.successCount
  {
    var b' := b.(failureCount := b.failureCount + 1, lastFailureTime := Some(failedAt));
    match b.state
    case HalfOpen => b'.(state := Open, successCount := 0)
    case Closed => if b'.failureCount >= cfg.failureThreshold then b'.(state := Open) else b'
    case Open => b'
  }

  /**
   * What the guarded function did: returned a value, or raised an exception
   * that is (`counted`) or is not an instance of the breaker's
   * `expected_exception`.
   */
  datatype Outcome<T> = Returned(value: T) | Raised(error: string, counted: bool)

  /** What `call` gives its caller. */
  datatype CallResult<T> =
    | Passed(value: T)        // the function's result
    | Rejected                // "熔断器已打开，服务暂时不可用", raised without calling the function
    | Propagated(error: string) // the function's own exception, raised again

  /** `call(func)`: the new breaker and the result, given what `func` does if it is called. */
  function CallStep<T>(b: Breaker, cfg: Settings, now: real, outcome: Outcome<T>, failedAt: real): (r: (Breaker, CallResult<T>))
    ensures Admit(b, cfg, now).None? ==> r == (b, Rejected)
    ensures Admit(b, cfg, now).Some? && outcome.Returned? ==>
      r == (OnSuccess(Admit(b, cfg, now).value, cfg), Passed(outcome.value))
    ensures Admit(b, cfg, now).Some? && outcome.Raised? && outcome.counted ==>
      r == (OnFailure(Admit(b, cfg, now).value, cfg, failedAt), Propagated(outcome.error))
    ensures Admit(b, cfg, now).Some? && outcome.Raised? && !outcome.counted ==>
      r == (Admit(b, cfg, now).value, Propagated(outcome.error))
  {
    match Admit(b, cfg, now)
    case None => (b, Rejected)
    case Some(a) =>
      match outcome
      case Returned(v) => (OnSuccess(a, cfg), Passed(v))
      case Raised(e, counted) => (if counted then OnFailure(a, cfg, failedAt) else a, Propagated(e))
  }

  // The state invariant

  /**
   * What every reachable breaker satisfies: only a half-open breaker counts
   * successes, and stays below the success threshold while it does; an open
   * breaker has failed at some time; a closed breaker has no failures or
   * fewer than the failure threshold.
   */
  predicate Inv(b: Breaker, cfg: Settings) {
    && b.failureCount >= 0 && b.successCount >= 0
    && (b.state != HalfOpen ==> b.successCount == 0)
    && (b.state == HalfOpen ==> b.successCount == 0 || b.successCount < cfg.successThreshold)
    && (b.state == Open ==> b.lastFailureTime.Some?)
    && (b.state == Closed ==> b.failureCount == 0 || b.failureCount < cfg.failureThreshold)
  }

  /** One event the breaker sees. */
  datatype Event =
    | Success
    | Failure(at: real)
    | Check(now: real)   // the state check of `call`, whether or not it rejects
    | Reset

  function Apply(b: Breaker, cfg: Settings, e: Event): Breaker {
    match e
    case Success => OnSuccess(b, cfg)
    case Failure(at) => OnFailure(b, cfg, at)
    case Check(now) => Admit(b, cfg, now).GetOr(b)
    case Reset => Initial
  }

  function Replay(b: Breaker, cfg: Settings, es: seq<Event>): Breaker
    decreases |es|
  {
    if es == [] then b else Apply(Replay(b, cfg, es[..|es| - 1]), cfg, es[|es| - 1])
  }

  lemma ApplyKeepsInv(b: Breaker, cfg: Settings, e: Event)
    requires Inv(b, cfg)
    ensures Inv(Apply(b, cfg, e), cfg)
  {
  }

  /** The invariant holds after any sequence of events from a new breaker. */
  lemma {:induction false} ReplayKeepsInv(cfg: Settings, es: seq<Event>)
    ensures Inv(Replay(Initial, cfg, es), cfg)
    decreases |es|
  {
    if es != [] {
      ReplayKeepsInv(cfg, es[..|es| - 1]);
      ApplyKeepsInv(Replay(Initial, cfg, es[..|es| - 1]), cfg, es[|es| - 1]);
    }
  }

  /** `k` failures in a row, at the given times. */
  function Failures(ts: seq<real>): (es: seq<Event>)
    ensures |es| == |ts| && forall i :: 0 <= i < |ts| ==> es[i] == Failure(ts[i])
  {
    if ts == [] then [] else Failures(ts[..|ts| - 1]) + [Failure(ts[|ts| - 1])]
  }

  /**
   * From a closed breaker with no failures, fewer failures than the threshold
   * leave it closed with that many failures counted.
   */
  lemma {:induction false} FailuresBelowThreshold(cfg: Settings, ts: seq<real>)
    requires |ts| < cfg.failureThreshold
    ensures var b := Replay(Initial, cfg, Failures(ts)); b.state == Closed && b.failureCount == |ts|
    decreases |ts|
  {
    if ts != [] {
      var init := ts[..|ts| - 1];
      FailuresBelowThreshold(cfg, init);
      assert Failures(ts)[..|ts| - 1] == Failures(init);
    }
  }

  /** Exactly `failure_threshold` failures in a row open a new breaker. */
  lemma ThresholdFailuresOpen(cfg: Settings, ts: seq<real>)
    requires cfg.failureThreshold >= 1 && |ts| == cfg.failureThreshold
    ensures var b := Replay(Initial, cfg, Failures(ts));
      b.state == Open && b.failureCount == |ts| && b.lastFailureTime == Some(ts[|ts| - 1])
  {
    var init := ts[..|ts| - 1];
    FailuresBelowThreshold(cfg, init);
    assert Failures(ts)[..|ts| - 1] == Failures(init);
  }

  /** The breaker after `n` successful calls in a row, each handled by `_on_success`. */
  function Successes(b: Breaker, cfg: Settings, n: nat): Breaker
    decreases n
  {
    if n == 0 then b else OnSuccess(Successes(b, cfg, n - 1), cfg)
  }

  /** Below `success_threshold`, a half-open breaker stays half-open and counts the successes. */
  lemma {:induction false} SuccessesCount(h: Breaker, cfg: Settings, n: nat)
    requires h.state == HalfOpen && h.successCount == 0 && n < cfg.successThreshold
    ensures Successes(h, cfg, n) == h.(successCount := n)
    decreases n
  {
    if n > 0 {
      SuccessesCount(h, cfg, n - 1);
    }
  }

  /**
   * An open breaker admits a call once the timeout has elapsed; then fewer
   * than `success_threshold` successes leave it half-open, counting them,
   * and the `success_threshold`-th (the first, for a threshold below one)
   * closes it with both counts reset.
   */
  lemma RecoveryCloses(b: Breaker, cfg: Settings, now: real)
    requires b.state == Open && TimedOut(b, cfg, now)
    ensures var h := Admit(b, cfg, now).value;
      var k := if cfg.successThreshold >= 1 then cfg.successThreshold else 1;
      && h == Breaker(HalfOpen, b.failureCount, 0, b.lastFailureTime)
      && (forall n: nat :: n < k ==> Successes(h, cfg, n) == h.(successCount := n))
      && Successes(h, cfg, k) == Breaker(Closed, 0, 0, b.lastFailureTime)
  {
    var h := Admit(b, cfg, now).value;
    var k := if cfg.successThreshold >= 1 then cfg.successThreshold else 1;
    forall n: nat | n < k ensures Successes(h, cfg, n) == h.(successCount := n) {
      if n > 0 {
        SuccessesCount(h, cfg, n);
      }
    }
    if k > 1 {
      SuccessesCount(h, cfg, k - 1);
    }
  }

  /** A failure while half-open opens the breaker again, restarting the timeout. */
  lemma HalfOpenFailureReopens(b: Breaker, cfg: Settings, at: real, now: real)
    requires b.state == HalfOpen && now < at + cfg.timeout
    ensures var o := OnFailure(b, cfg, at); o.state == Open && Admit(o, cfg, now).None?
  {
  }

  /** An exception outside `expected_exception` passes through and changes nothing but the state check. */
  lemma UncountedLeavesState<T>(b: Breaker, cfg: Settings, now: real, error: string, failedAt: real)
    requires b.state != Open
    ensures CallStep<T>(b, cfg, now, Raised(error, false), failedAt) == (b, Propagated(error))
  {
  }

  // The lock, as the source takes it

  /**
   * `call` holds `self.lock`, a non-reentrant `threading.Lock`, while it runs
   * the function and then calls `_on_success` or `_on_failure`, which take
   * the same lock again. Acquiring a lock its own thread already holds
   * never returns.
   */
  datatype LockedCall<T> = Finished(breaker: Breaker, result: CallResult<T>) | Blocked

  /** `with self.lock:` entered by a thread that holds `held`. */
  function Acquire(held: bool): (r: Option<bool>)
    ensures r.Some? <==> !held
  {
    if held then None else Some(true)
  }

  /** `call` as written: the state check and the function under the lock, then the handler re-acquiring it. */
  function CallAsWritten<T>(b: Breaker, cfg: Settings, now: real, outcome: Outcome<T>, failedAt: real): LockedCall<T> {
    match Acquire(false)
    case None => Blocked
    case Some(held) =>
      match Admit(b, cfg, now)
      case None => Finished(b, Rejected)
      case Some(a) =>
        match outcome
        case Returned(v) => if Acquire(held).None? then Blocked else Finished(OnSuccess(a, cfg), Passed(v))
        case Raised(e, counted) =>
          if !counted then Finished(a, Propagated(e))
          else if Acquire(held).None? then Blocked else Finished(OnFailure(a, cfg, failedAt), Propagated(e))
  }

  /**
   * As written, every admitted call whose function returns or raises an
   * expected exception blocks forever; only rejections and unexpected
   * exceptions come back.
   */
  lemma AsWrittenBlocks<T>(b: Breaker, cfg: Settings, now: real, outcome: Outcome<T>, failedAt: real)
    requires Admit(b, cfg, now).Some?
    ensures CallAsWritten(b, cfg, now, outcome, failedAt).Blocked? <==> outcome.Returned? || outcome.counted
  {
  }

  /** The smallest instance: the first successful call on a new breaker. */
  lemma FirstSuccessBlocks()
    ensures CallAsWritten(Initial, DefaultSettings, 0.0, Returned(1), 0.0) == Blocked
    ensures CallStep(Initial, DefaultSettings, 0.0, Returned(1), 0.0) == (Initial, Passed(1))
  {
  }

  /** A call keeps the invariant. */
  lemma CallStepKeepsInv<T>(b: Breaker, cfg: Settings, now: real, outcome: Outcome<T>, failedAt: real)
    ensures Inv(b, cfg) ==> Inv(CallStep(b, cfg, now, outcome, failedAt).0, cfg)
  {
    if Inv(b, cfg) {
      ApplyKeepsInv(b, cfg, Check(now));
      if Admit(b, cfg, now).Some? {
        ApplyKeepsInv(Admit(b, cfg, now).value, cfg, Success);
        ApplyKeepsInv(Admit(b, cfg, now).value, cfg, Failure(failedAt));
      }
    }
  }

  /**
   * The evidently intended behaviour, which the rest of the model uses: the
   * handlers run under the lock `call` already holds, so every call
   * finishes, with the transitions of `CallStep`.
   */
  function CallCorrected<T>(b: Breaker, cfg: Settings, now: real, outcome: Outcome<T>, failedAt: real): (r: LockedCall<T>)
    ensures r.Finished?
    ensures r.Finished? ==> (r.breaker, r.result) == CallStep(b, cfg, now, outcome, failedAt)
    ensures Inv(b, cfg) && r.Finished? ==> Inv(r.breaker, cfg)
  {
    var s := CallStep(b, cfg, now, outcome, failedAt);
    CallStepKeepsInv(b, cfg, now, outcome, failedAt);
    Finished(s.0, s.1)
  }

  /** The guarded function, called through `Run`; `calls` counts the calls made. */
  class Operation<T> {
    const outcomes: nat -> Outcome<T>
    var calls: nat

    constructor (outcomes: nat -> Outcome<T>)
      ensures this.outcomes == outcomes && calls == 0
    {
      this.outcomes := outcomes;
      calls := 0;
    }

    method Run() returns (o: Outcome<T>)
      modifies this
      ensures o == outcomes(old(calls)) && calls == old(calls) + 1
    {
      o := outcomes(calls);
      calls := calls + 1;
    }
  }

  class CircuitBreaker {
    const settings: Settings
    var state: CircuitState
    var failureCount: int
    var successCount: int
    var lastFailureTime: Option<real>

    function Current(): Breaker
      reads this
    {
      Breaker(state, failureCount, successCount, lastFailureTime)
    }

    method Set(b: Breaker)
      modifies this
      ensures Current() == b
    {
      state, failureCount, successCount, lastFailureTime := b.state, b.failureCount, b.successCount, b.lastFailureTime;
    }

    constructor (settings: Settings)
      ensures this.settings == settings && Current() == Initial
    {
      this.settings := settings;
      state, failureCount, successCount, lastFailureTime := Closed, 0, 0, None;
    }

    /**
     * `call(func)`: the function runs only if the breaker admits the call, and
     * then exactly once.
     */
    method Call<T>(func: Operation<T>, now: real, failedAt: real) returns (r: CallResult<T>)
      modifies this, func
      ensures Inv(old(Current()), settings) ==> Inv(Current(), settings)
      ensures func.calls == old(func.calls) + (if r.Rejected? then 0 else 1)
      ensures r.Rejected? <==> Admit(old(Current()), settings, now).None?
      ensures (Current(), r) == CallStep(old(Current()), settings, now, func.outcomes(old(func.calls)), failedAt)
    {
      var admitted := Admit(Current(), settings, now);
      if admitted.None? {
        return Rejected;
      }
      Set(admitted.value);
      var o := func.Run();
      match o
      case Returned(v) =>
        OnSuccessUpdate();
        r := Passed(v);
      case Raised(e, counted) =>
        if counted {
          OnFailureUpdate(failedAt);
        }
        r := Propagated(e);
      CallStepKeepsInv(old(Current()), settings, now, func.outcomes(old(func.calls)), failedAt);
    }

    /** `_on_success` */
    method OnSuccessUpdate()
      modifies this
      ensures Current() == OnSuccess(old(Current()), settings)
    {
      Set(OnSuccess(Current(), settings));
    }

    /** `_on_failure`, stamped with the time `failedAt` */
    method OnFailureUpdate(failedAt: real)
      modifies this
      ensures Current() == OnFailure(old(Current()), settings, failedAt)
    {
      Set(OnFailure(Current(), settings, failedAt));
    }

    function GetState(): (s: CircuitState)
      reads this
      ensures s == Current().state
    {
      state
    }

    method ResetBreaker()
      modifies this
      ensures Current() == Initial
    {
      Set(Initial);
    }
  }

  /** The table of breakers by name. */
  class CircuitBreakerManager {
    var breakers: map<string, CircuitBreaker>

    constructor ()
      ensures breakers == map[]
    {
      breakers := map[];
    }

    /** `get_breaker(name, **kwargs)`: the settings are used only when the breaker is created. */
    method GetBreaker(name: string, settings: Settings) returns (b: CircuitBreaker)
      modifies this
      ensures name in old(breakers) ==> b == old(breakers)[name] && breakers == old(breakers)
      ensures name !in old(breakers) ==>
        && fresh(b) && b.settings == settings && b.Current() == Initial
        && breakers == old(breakers)[name := b]
      ensures name in breakers && breakers[name] == b
    {
      if name !in breakers {
        var nb := new CircuitBreaker(settings);
        breakers := breakers[name := nb];
      }
      b := breakers[name];
    }

    /** `reset_breaker(name)`: a no-op for an unknown name. */
    method ResetBreaker(name: string)
      modifies if name in breakers then {breakers[name]} else {}
      ensures name in breakers ==> breakers[name].Current() == Initial
    {
      if name in breakers {
        breakers[name].ResetBreaker();
      }
    }
  }
}
