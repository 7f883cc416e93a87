/**
 * Request rate limiting with token buckets: one global bucket, one bucket
 * per client IP, and the middleware that rejects a request with 429 when
 * either bucket is empty. Token levels are real numbers; the wall clock is
 * read by the caller and passed in as `now`.
 */
module RateLimiting {
  import opened Wrappers
  import opened Strings

  /** The mutable part of a bucket. */
  datatype BucketState = BucketState(tokens: real, lastRefill: real)

  function Min(a: real, b: real): real {
    if a <= b then a else b
  }

  /** The tokens added back over `elapsed` seconds. */
  function Gain(elapsed: real, rate: real): real {
    elapsed * rate
  }

  /** The level after the refill both `consume` and `get_available_tokens` start with. */
  function Refill(s: BucketState, capacity: int, rate: real, now: real): (level: real)
    ensures level <= capacity as real && level <= s.tokens + Gain(now - s.lastRefill, rate)
    ensures level == capacity as real || level == s.tokens + Gain(now - s.lastRefill, rate)
  {
    Min(capacity as real, s.tokens + Gain(now - s.lastRefill, rate))
  }

  /**
   * `consume(n)`: after the refill, take `n` tokens if there are at least
   * `n`; otherwise keep the refilled level and refuse.
   */
  function ConsumeStep(s: BucketState, capacity: int, rate: real, n: int, now: real): (r: (bool, BucketState))
    ensures var level := Refill(s, capacity, rate, now);
      && r.0 == (level >= n as real)
      && r.1 == BucketState(if r.0 then level - n as real else level, now)
  {
    var level := Refill(s, capacity, rate, now);
    if level >= n as real then (true, BucketState(level - n as real, now)) else (false, BucketState(level, now))
  }

  predicate InBounds(s: BucketState, capacity: int) {
    0.0 <= s.tokens <= capacity as real
  }

  /** With time moving forward and a non-negative request, the level stays between 0 and the capacity. */
  lemma ConsumeInBounds(s: BucketState, capacity: int, rate: real, n: int, now: real)
    requires InBounds(s, capacity) && rate >= 0.0 && n >= 0 && now >= s.lastRefill
    ensures InBounds(ConsumeStep(s, capacity, rate, n, now).1, capacity)
    ensures 0.0 <= Refill(s, capacity, rate, now) <= capacity as real
  {
    assert Gain(now - s.lastRefill, rate) >= 0.0 by { assert (now - s.lastRefill) * rate >= 0.0; }
  }

  /** A sequence of `consume(n)` calls at the given times. */
  datatype Request = Request(at: real, n: int)

  /** The state after the requests and the number of tokens they were granted. */
  function Drain(s: BucketState, capacity: int, rate: real, reqs: seq<Request>): (r: (BucketState, real))
    decreases |reqs|
  {
    if reqs == [] then (s, 0.0)
    else
      var d := Drain(s, capacity, rate, reqs[..|reqs| - 1]);
      var last := reqs[|reqs| - 1];
      var c := ConsumeStep(d.0, capacity, rate, last.n, last.at);
      (c.1, d.1 + (if c.0 then last.n as real else 0.0))
  }

  /** Requests at non-decreasing times, none before `from`, none asking for a negative count. */
  predicate Chronological(reqs: seq<Request>, from: real) {
    && (forall i :: 0 <= i < |reqs| ==> reqs[i].n >= 0 && reqs[i].at >= from)
    && (forall i, j :: 0 <= i < j < |reqs| ==> reqs[i].at <= reqs[j].at)
  }

  /**
   * The bucket's promise: what is left plus what was granted never exceeds
   * what there was plus what the refill rate added in the time that passed.
   */
  lemma {:induction false} DrainConserves(s: BucketState, capacity: int, rate: real, reqs: seq<Request>)
    requires reqs != [] && rate >= 0.0
    ensures var d := Drain(s, capacity, rate, reqs);
      d.0.tokens + d.1 <= s.tokens + Gain(reqs[|reqs| - 1].at - s.lastRefill, rate)
      && d.0.lastRefill == reqs[|reqs| - 1].at
    decreases |reqs|
  {
    var init := reqs[..|reqs| - 1];
    var last := reqs[|reqs| - 1];
    var d := Drain(s, capacity, rate, init);
    var c := ConsumeStep(d.0, capacity, rate, last.n, last.at);
    ConsumeConserves(d.0, capacity, rate, last.n, last.at);
    if init != [] {
      DrainConserves(s, capacity, rate, init);
      var mid := init[|init| - 1].at;
      Distribute(last.at - mid, mid - s.lastRefill, rate);
    }
  }

  /** One call: what is left plus what was granted is at most the level before plus the refill. */
  lemma ConsumeConserves(s: BucketState, capacity: int, rate: real, n: int, now: real)
    ensures var c := ConsumeStep(s, capacity, rate, n, now);
      c.1.tokens + (if c.0 then n as real else 0.0) <= s.tokens + Gain(now - s.lastRefill, rate)
  {
  }

  lemma Distribute(e1: real, e2: real, rate: real)
    ensures Gain(e1, rate) + Gain(e2, rate) == Gain(e1 + e2, rate)
  {
  }

  /** The level stays between 0 and the capacity through any chronological sequence. */
  lemma {:induction false} DrainInBounds(s: BucketState, capacity: int, rate: real, reqs: seq<Request>)
    requires InBounds(s, capacity) && rate >= 0.0 && Chronological(reqs, s.lastRefill)
    ensures InBounds(Drain(s, capacity, rate, reqs).0, capacity)
    ensures reqs != [] ==> Drain(s, capacity, rate, reqs).0.lastRefill == reqs[|reqs| - 1].at
    ensures reqs == [] ==> Drain(s, capacity, rate, reqs).0 == s
    decreases |reqs|
  {
    if reqs != [] {
      var init := reqs[..|reqs| - 1];
      var last := reqs[|reqs| - 1];
      DrainInBounds(s, capacity, rate, init);
      var d := Drain(s, capacity, rate, init);
      if init != [] {
        assert init[|init| - 1] == reqs[|reqs| - 2];
      }
      assert d.0.lastRefill <= last.at;
      ConsumeInBounds(d.0, capacity, rate, last.n, last.at);
    }
  }

  /**
   * So, from a full bucket, the tokens granted over a window never exceed
   * the capacity plus the refill over the window.
   */
  lemma GrantedWithinBudget(capacity: int, rate: real, start: real, reqs: seq<Request>)
    requires capacity >= 0 && rate >= 0.0 && reqs != [] && Chronological(reqs, start)
    ensures Drain(BucketState(capacity as real, start), capacity, rate, reqs).1
         <= capacity as real + Gain(reqs[|reqs| - 1].at - start, rate)
  {
    var s := BucketState(capacity as real, start);
    DrainConserves(s, capacity, rate, reqs);
    DrainInBounds(s, capacity, rate, reqs);
  }

  class TokenBucket {
    const capacity: int
    const refillRate: real
    var tokens: real
    var lastRefill: real

    function State(): BucketState
      reads this
    {
      BucketState(tokens, lastRefill)
    }

    /** A new bucket starts full. */
    constructor (capacity: int, refillRate: real, now: real)
      ensures this.capacity == capacity && this.refillRate == refillRate
      ensures State() == BucketState(capacity as real, now)
    {
      this.capacity := capacity;
      this.refillRate := refillRate;
      tokens := capacity as real;
      lastRefill := now;
    }

    method Consume(n: int, now: real) returns (ok: bool)
      modifies this
      ensures (ok, State()) == ConsumeStep(old(State()), capacity, refillRate, n, now)
    {
      var level := Refill(State(), capacity, refillRate, now);
      tokens, lastRefill := level, now;
      if tokens >= n as real {
        tokens := tokens - n as real;
        return true;
      }
      return false;
    }

    /** `get_available_tokens()`: the same refill, nothing taken. */
    method GetAvailableTokens(now: real) returns (level: real)
      modifies this
      ensures level == Refill(old(State()), capacity, refillRate, now)
      ensures State() == BucketState(level, now)
    {
      level := Refill(State(), capacity, refillRate, now);
      tokens, lastRefill := level, now;
    }
  }

  /** The parts of an HTTP request the limiter looks at. */
  datatype HttpRequest = HttpRequest(
    path: string,
    forwardedFor: Option<string>,   // the X-Forwarded-For header
    realIp: Option<string>,         // the X-Real-IP header
    clientHost: Option<string>)     // `request.client.host`, `None` when there is no client

  /** A header counts only when it is present and not empty. */
  predicate Given(h: Option<string>) {
    h.Some? && h.value != ""
  }

  /**
   * `get_client_ip`: the first X-Forwarded-For entry, stripped; else
   * X-Real-IP; else the client's host; else "unknown".
   */
  function ClientIp(req: HttpRequest): (ip: string)
    ensures Given(req.forwardedFor) ==> ip == Strip(Split(req.forwardedFor.value, ',')[0]) && ',' !in ip
    ensures !Given(req.forwardedFor) && Given(req.realIp) ==> ip == req.realIp.value
    ensures !Given(req.forwardedFor) && !Given(req.realIp) && req.clientHost.Some? ==> ip == req.clientHost.value
    ensures !Given(req.forwardedFor) && !Given(req.realIp) && req.clientHost.None? ==> ip == "unknown"
  {
    if Given(req.forwardedFor) then
      var first := Split(req.forwardedFor.value, ',')[0];
      StripKeeps(first);
      Strip(first)
    else if Given(req.realIp) then req.realIp.value
    else if req.clientHost.Some? then req.clientHost.value
    else "unknown"
  }

  /** Stripping only removes characters. */
  lemma {:induction false} StripKeeps(s: string)
    ensures forall c :: c in Strip(s) ==> c in s
    decreases |s|
  {
    if s != [] && IsSpace(s[0]) {
      StripKeeps(s[1..]);
      assert forall c :: c in s[1..] ==> c in s;
    } else {
      var r := StripRight(s);
      assert r == s[..|r|];
      assert forall c :: c in r ==> c in s;
    }
  }

  const GlobalLimitText: string := "请求过于频繁，请稍后再试"
  const IpLimitText: string := "您的请求过于频繁，请稍后再试"

  class RateLimiter {
    const enabled: bool
    const globalBucket: TokenBucket
    var perIpBuckets: map<string, TokenBucket>
    const perIpCapacity: int
    const perIpRate: real

    /** The per-IP buckets are distinct objects, distinct from the global one, and built from the per-IP settings. */
    ghost predicate Valid()
      reads this
    {
      && (forall ip :: ip in perIpBuckets ==> perIpBuckets[ip] != globalBucket)
      && (forall a, b :: a in perIpBuckets && b in perIpBuckets && a != b ==> perIpBuckets[a] != perIpBuckets[b])
      && (forall ip :: ip in perIpBuckets ==>
            perIpBuckets[ip].capacity == perIpCapacity && perIpBuckets[ip].refillRate == perIpRate)
    }

    /** Defaults: `global_rate=(100, 1.0)`, `per_ip_rate=(20, 1.0)`. */
    constructor (globalCapacity: int, globalRate: real, perIpCapacity: int, perIpRate: real, enabled: bool, now: real)
      ensures Valid() && fresh(globalBucket)
      ensures this.enabled == enabled && perIpBuckets == map[]
      ensures this.perIpCapacity == perIpCapacity && this.perIpRate == perIpRate
      ensures globalBucket.capacity == globalCapacity && globalBucket.refillRate == globalRate
      ensures globalBucket.State() == BucketState(globalCapacity as real, now)
    {
      this.enabled := enabled;
      globalBucket := new TokenBucket(globalCapacity, globalRate, now);
      perIpBuckets := map[];
      this.perIpCapacity := perIpCapacity;
      this.perIpRate := perIpRate;
    }

    /** `get_ip_bucket(ip)`: the IP's bucket, created full from the per-IP settings on first use. */
    method GetIpBucket(ip: string, now: real) returns (b: TokenBucket)
      requires Valid()
      modifies this
      ensures Valid()
      ensures ip in perIpBuckets && perIpBuckets[ip] == b
      ensures ip in old(perIpBuckets) ==> b == old(perIpBuckets)[ip] && perIpBuckets == old(perIpBuckets)
      ensures ip !in old(perIpBuckets) ==>
        && fresh(b) && perIpBuckets == old(perIpBuckets)[ip := b]
        && b.capacity == perIpCapacity && b.refillRate == perIpRate
        && b.State() == BucketState(perIpCapacity as real, now)
    {
      if ip !in perIpBuckets {
        var nb := new TokenBucket(perIpCapacity, perIpRate, now);
        perIpBuckets := perIpBuckets[ip := nb];
      }
      b := perIpBuckets[ip];
    }

    /**
     * `is_allowed(request)`: always allowed when disabled; otherwise one
     * token from the global bucket, and only then one from the client's.
     */
    method IsAllowed(req: HttpRequest, now: real) returns (allowed: bool, message: string)
      requires Valid()
      modifies this, globalBucket, perIpBuckets.Values
      ensures Valid()
      ensures !enabled ==> allowed && message == "" && globalBucket.State() == old(globalBucket.State())
      ensures !enabled || !ConsumeStep(old(globalBucket.State()), globalBucket.capacity, globalBucket.refillRate, 1, now).0 ==>
        && perIpBuckets == old(perIpBuckets)
        && forall ip :: ip in perIpBuckets ==> perIpBuckets[ip].State() == old(perIpBuckets[ip].State())
      ensures enabled ==>
        globalBucket.State() == ConsumeStep(old(globalBucket.State()), globalBucket.capacity, globalBucket.refillRate, 1, now).1
      ensures enabled && !ConsumeStep(old(globalBucket.State()), globalBucket.capacity, globalBucket.refillRate, 1, now).0 ==>
        !allowed && message == GlobalLimitText
      ensures enabled && ConsumeStep(old(globalBucket.State()), globalBucket.capacity, globalBucket.refillRate, 1, now).0 ==>
        var ip := ClientIp(req);
        var before := if ip in old(perIpBuckets) then old(perIpBuckets[ip].State()) else BucketState(perIpCapacity as real, now);
        var c := ConsumeStep(before, perIpCapacity, perIpRate, 1, now);
        && ip in perIpBuckets && perIpBuckets[ip].State() == c.1
        && allowed == c.0 && message == (if c.0 then "" else IpLimitText)
        && (ip in old(perIpBuckets) ==> perIpBuckets[ip] == old(perIpBuckets[ip]))
        && (forall other :: other in old(perIpBuckets) && other != ip ==>
              other in perIpBuckets && perIpBuckets[other] == old(perIpBuckets[other])
              && perIpBuckets[other].State() == old(perIpBuckets[other].State()))
        && perIpBuckets.Keys == old(perIpBuckets).Keys + {ip}
    {
      if !enabled {
        return true, "";
      }
      var ok := globalBucket.Consume(1, now);
      if !ok {
        return false, GlobalLimitText;
      }
      var ip := ClientIp(req);
      var b := GetIpBucket(ip, now);
      ok := b.Consume(1, now);
      if !ok {
        return false, IpLimitText;
      }
      return true, "";
    }

    /**
     * The middleware's `dispatch`: "/health" passes without being counted;
     * any other path is checked, and a refusal is an HTTP 429 with the
     * limiter's message.
     */
    method Dispatch(req: HttpRequest, now: real) returns (r: Option<string>)
      requires Valid()
      modifies this, globalBucket, perIpBuckets.Values
      ensures Valid()
      ensures req.path == "/health" ==>
        r.None? && perIpBuckets == old(perIpBuckets) && globalBucket.State() == old(globalBucket.State())
        && forall ip :: ip in perIpBuckets ==> perIpBuckets[ip].State() == old(perIpBuckets[ip].State())
      ensures r.Some? ==> r.value == GlobalLimitText || r.value == IpLimitText
      ensures req.path != "/health" && !enabled ==> r.None?
      ensures req.path != "/health" && enabled ==>
        globalBucket.State() == ConsumeStep(old(globalBucket.State()), globalBucket.capacity, globalBucket.refillRate, 1, now).1
      ensures (req.path != "/health" && enabled
               && !ConsumeStep(old(globalBucket.State()), globalBucket.capacity, globalBucket.refillRate, 1, now).0) ==>
        r == Some(GlobalLimitText)
      ensures (req.path != "/health" && !enabled)
              || (req.path != "/health" && !ConsumeStep(old(globalBucket.State()), globalBucket.capacity, globalBucket.refillRate, 1, now).0) ==>
        && perIpBuckets == old(perIpBuckets)
        && forall ip :: ip in perIpBuckets ==> perIpBuckets[ip].State() == old(perIpBuckets[ip].State())
      ensures req.path != "/health" && enabled && ConsumeStep(old(globalBucket.State()), globalBucket.capacity, globalBucket.refillRate, 1, now).0 ==>
        var ip := ClientIp(req);
        var before := if ip in old(perIpBuckets) then old(perIpBuckets[ip].State()) else BucketState(perIpCapacity as real, now);
        var c := ConsumeStep(before, perIpCapacity, perIpRate, 1, now);
        && ip in perIpBuckets && perIpBuckets[ip].State() == c.1
        && (ip in old(perIpBuckets) ==> perIpBuckets[ip] == old(perIpBuckets[ip]))
        && r == (if c.0 then None else Some(IpLimitText))
        && (forall other :: other in old(perIpBuckets) && other != ip ==>
              other in perIpBuckets && perIpBuckets[other] == old(perIpBuckets[other])
              && perIpBuckets[other].State() == old(perIpBuckets[other].State()))
        && perIpBuckets.Keys == old(perIpBuckets).Keys + {ip}
    {
      if req.path == "/health" {
        return None;
      }
      var allowed, message := IsAllowed(req, now);
      r := if allowed then None else Some(message);
    }
  }
}
