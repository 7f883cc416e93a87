/**
 * Graceful degradation: wrappers that turn a failing call into a fallback
 * value. A wrapped function is modelled by what it does for each argument,
 * an `Outcome` (a result or an exception).
 */
module Degradation {
  import opened Wrappers
  import opened CircuitBreakers

  /** `fallback_response(default_value)(func)`: the wrapper turns any exception into the default. */
  function FallbackResponse<A(!new), T>(f: A -> Outcome<T>, defaultValue: T): (w: A -> T)
    ensures forall a :: f(a).Returned? ==> w(a) == f(a).value
    ensures forall a :: f(a).Raised? ==> w(a) == defaultValue
  {
    a => match f(a) case Returned(v) => v case Raised(_, _) => defaultValue
  }

  /** A wrapped function seen again as a function that may raise: it never does. */
  function AsOutcome<A, T>(w: A -> T): A -> Outcome<T> {
    a => Returned(w(a))
  }

  /**
   * Because the wrapper never raises, wrapping it a second time changes
   * nothing: the outer default is never used.
   */
  lemma FallbackNeverRaises<A(!new), T>(f: A -> Outcome<T>, d1: T, d2: T, a: A)
    ensures FallbackResponse(AsOutcome(FallbackResponse(f, d1)), d2)(a) == FallbackResponse(f, d1)(a)
  {
  }

  /** The wrapper differs from the function only where the function raises. */
  lemma FallbackOnlyOnError<A(!new), T>(f: A -> Outcome<T>, d: T, a: A)
    requires FallbackResponse(f, d)(a) != d
    ensures f(a).Returned? && f(a).value == FallbackResponse(f, d)(a)
  {
  }

  /**
   * `circuit_breaker_with_fallback(name, fallback_value)(func)`: the breaker is
   * looked up once, when the function is decorated.
   */
  class BreakerFallback<T> {
    const breaker: CircuitBreaker
    const fallbackValue: T

    constructor (breaker: CircuitBreaker, fallbackValue: T)
      ensures this.breaker == breaker && this.fallbackValue == fallbackValue
    {
      this.breaker := breaker;
      this.fallbackValue := fallbackValue;
    }

    /**
     * The wrapper: the call goes through the breaker, and any exception,
     * the breaker's own rejection included, becomes the fallback value.
     */
    method Invoke(func: Operation<T>, now: real, failedAt: real) returns (r: T)
      modifies breaker, func
      ensures var s := CallStep(old(breaker.Current()), breaker.settings, now, func.outcomes(old(func.calls)), failedAt);
        && breaker.Current() == s.0
        && r == (if s.1.Passed? then s.1.value else fallbackValue)
      ensures func.calls <= old(func.calls) + 1
    {
      var res := breaker.Call(func, now, failedAt);
      r := if res.Passed? then res.value else fallbackValue;
    }
  }

  /** The decoration itself: fetch (or create) the named breaker and capture it. */
  method CircuitBreakerWithFallback<T>(manager: CircuitBreakerManager, name: string, settings: Settings, fallbackValue: T)
    returns (w: BreakerFallback<T>)
    modifies manager
    ensures fresh(w) && w.fallbackValue == fallbackValue
    ensures name in manager.breakers && w.breaker == manager.breakers[name]
    ensures name in old(manager.breakers) ==> w.breaker == old(manager.breakers)[name]
    ensures name !in old(manager.breakers) ==> fresh(w.breaker) && w.breaker.settings == settings
  {
    var b := manager.GetBreaker(name, settings);
    w := new BreakerFallback(b, fallbackValue);
  }

  /** `DegradationStrategy(fallback_func)` */
  datatype DegradationStrategy<!A, T> = DegradationStrategy(fallbackFunc: Option<A -> Outcome<T>>) {
    /**
     * `execute(main_func, *args, fallback_value=...)`: the main function's
     * result; if it raises, the fallback function's result on the same
     * arguments; if there is none or it raises too, the fallback value.
     */
    function Execute(main: A -> Outcome<T>, args: A, fallbackValue: T): (r: T)
      ensures main(args).Returned? ==> r == main(args).value
      ensures main(args).Raised? && fallbackFunc.None? ==> r == fallbackValue
      ensures main(args).Raised? && fallbackFunc.Some? && fallbackFunc.value(args).Returned? ==>
        r == fallbackFunc.value(args).value
      ensures main(args).Raised? && fallbackFunc.Some? && fallbackFunc.value(args).Raised? ==> r == fallbackValue
    {
      match main(args)
      case Returned(v) => v
      case Raised(_, _) =>
        match fallbackFunc
        case None => fallbackValue
        case Some(fb) =>
          match fb(args)
          case Returned(v) => v
          case Raised(_, _) => fallbackValue
    }
  }

  /**
   * The fallback value is only ever returned, never passed on: two calls that
   * differ only in it agree unless both functions fail.
   */
  lemma FallbackValueNotForwarded<A, T>(s: DegradationStrategy<A, T>, main: A -> Outcome<T>, args: A, v1: T, v2: T)
    requires s.Execute(main, args, v1) != s.Execute(main, args, v2)
    ensures main(args).Raised?
    ensures s.fallbackFunc.None? || s.fallbackFunc.value(args).Raised?
    ensures s.Execute(main, args, v1) == v1 && s.Execute(main, args, v2) == v2
  {
  }

  /** Without a fallback function, `execute` is `fallback_response` applied to the main function. */
  lemma ExecuteWithoutFallback<A(!new), T>(main: A -> Outcome<T>, args: A, v: T)
    ensures DegradationStrategy(None).Execute(main, args, v) == FallbackResponse(main, v)(args)
  {
  }
}
