/**
 * The request pacer: per-model and per-provider limits in requests per minute, and the
 * time of the last request admitted under each key. A key's next request is held back
 * until 60/rpm seconds have passed since the previous one.
 *
 * The wall clock is the field `now` (seconds). It moves only when the limiter sleeps or
 * when the caller lets time pass (AdvanceClock); reading it twice in one call gives the
 * same value.
 */
module RateLimiting {
  import opened Wrappers

  /** `rate_limit` of one provider's configuration; `requests_per_minute` may be absent. */
  datatype RateLimitConfig = RateLimitConfig(requestsPerMinute: Option<int>)
  datatype ProviderConfig = ProviderConfig(rateLimit: Option<RateLimitConfig>)
  /** The parts of the configuration the limiter reads (a missing section is an empty map). */
  datatype Config = Config(providers: map<string, ProviderConfig>, modelRateLimits: map<string, int>)

  /** `.get('requests_per_minute', 5)`. */
  const DefaultRpm := 5
  /** Keys start one minute in the past, so a first request never waits. */
  const Minute: real := 60.0
  const ZeroDivision := "float division by zero"

  function RpmOf(c: RateLimitConfig): int
  {
    match c.requestsPerMinute
    case Some(rpm) => rpm
    case None => DefaultRpm
  }

  /** The limits of the providers in `names` that have a `rate_limit` section. */
  function ProviderLimitsFrom(providers: map<string, ProviderConfig>, names: set<string>): map<string, int>
  {
    map p | p in names && p in providers && providers[p].rateLimit.Some? :: RpmOf(providers[p].rateLimit.value)
  }

  function ProviderLimits(config: Config): map<string, int>
  {
    ProviderLimitsFrom(config.providers, config.providers.Keys)
  }

  /** The key under which a provider's requests are timed. */
  function ProviderKey(provider: string): string
  {
    "provider_" + provider
  }

  function LastTime(times: map<string, real>, key: string): Option<real>
  {
    if key in times then Some(times[key]) else None
  }

  /**
   * _calculate_wait_time: nothing for a key never seen; otherwise what is left of the
   * 60/rpm spacing since the key's last request. A zero limit divides by zero.
   */
  function WaitTime(last: Option<real>, rpm: int, now: real): Result<real, string>
  {
    match last
    case None => Success(0.0)
    case Some(t) =>
      if rpm == 0 then Failure(ZeroDivision)
      else
        var spacing := Minute / rpm as real;
        var since := now - t;
        if since < spacing then Success(spacing - since) else Success(0.0)
  }

  /** Everything the limiter holds, as a value. */
  datatype Snapshot = Snapshot(providerLimits: map<string, int>, modelLimits: map<string, int>,
                               lastRequestTimes: map<string, real>, now: real)

  /** Every recorded request lies in the past. */
  predicate Consistent(s: Snapshot)
  {
    forall k :: k in s.lastRequestTimes ==> s.lastRequestTimes[k] <= s.now
  }

  /** Admit one request under `key`: sleep out the remaining spacing, then record the time. */
  function Admit(s: Snapshot, key: string, rpm: int): (Snapshot, Result<real, string>)
  {
    match WaitTime(LastTime(s.lastRequestTimes, key), rpm, s.now)
    case Failure(e) => (s, Failure(e))
    case Success(w) =>
      if w > 0.0 then
        var t := s.now + w;
        (s.(now := t, lastRequestTimes := s.lastRequestTimes[key := t]), Success(w))
      else (s.(lastRequestTimes := s.lastRequestTimes[key := s.now]), Success(0.0))
  }

  /** The key a request is timed under, if any: the model's own limit first, then the provider's. */
  function KeyFor(s: Snapshot, provider: string, model: string): Option<(string, int)>
  {
    if model in s.modelLimits then Some((model, s.modelLimits[model]))
    else if provider in s.providerLimits then Some((ProviderKey(provider), s.providerLimits[provider]))
    else None
  }

  /** wait_if_needed: the new state and the seconds waited (or the exception raised). */
  function Request(s: Snapshot, provider: string, model: string): (Snapshot, Result<real, string>)
  {
    if model in s.modelLimits then Admit(s, model, s.modelLimits[model])
    else if provider in s.providerLimits then
      var key := ProviderKey(provider);
      var seeded := if key in s.lastRequestTimes then s else s.(lastRequestTimes := s.lastRequestTimes[key := s.now - Minute]);
      Admit(seeded, key, s.providerLimits[provider])
    else (s, Success(0.0))
  }

  /** The starting times of the models with their own limit: one minute before `start`. */
  function SeedTimes(models: set<string>, start: real): (times: map<string, real>)
    ensures times.Keys == models
    ensures forall m :: m in times ==> times[m] == start - Minute
  {
    map m | m in models :: start - Minute
  }

  /** The first loop of __init__, over the configured providers. */
  method CollectProviderLimits(providers: map<string, ProviderConfig>) returns (limits: map<string, int>)
    ensures limits == ProviderLimitsFrom(providers, providers.Keys)
  {
    limits := map[];
    var done: set<string> := {};
    while done != providers.Keys
      invariant done <= providers.Keys
      invariant limits == ProviderLimitsFrom(providers, done)
      decreases |providers.Keys - done|
    {
      var p :| p in providers.Keys - done;
      match providers[p].rateLimit {
        case Some(rl) =>
          limits := limits[p := RpmOf(rl)];
        case None =>
      }
      ProviderLimitsExtend(providers, done, p);
      done := done + {p};
    }
  }

  lemma ProviderLimitsExtend(providers: map<string, ProviderConfig>, done: set<string>, p: string)
    requires p in providers
    ensures ProviderLimitsFrom(providers, done + {p}) ==
            if providers[p].rateLimit.Some? then ProviderLimitsFrom(providers, done)[p := RpmOf(providers[p].rateLimit.value)]
            else ProviderLimitsFrom(providers, done)
  {
  }

  /** The second loop of __init__: copy each model's limit and start its clock a minute back. */
  method CollectModelLimits(modelRateLimits: map<string, int>, start: real)
    returns (models: map<string, int>, times: map<string, real>)
    ensures models == modelRateLimits
    ensures times == SeedTimes(modelRateLimits.Keys, start)
  {
    models := map[];
    times := map[];
    var seen: set<string> := {};
    while seen != modelRateLimits.Keys
      invariant seen <= modelRateLimits.Keys
      invariant models.Keys == seen && forall m :: m in models ==> models[m] == modelRateLimits[m]
      invariant times == SeedTimes(seen, start)
      decreases |modelRateLimits.Keys - seen|
    {
      var m :| m in modelRateLimits.Keys - seen;
      models := models[m := modelRateLimits[m]];
      SeedTimesAdd(seen, m, start);
      times := times[m := start - Minute];
      seen := seen + {m};
    }
  }

  /** Seeding one more model adds its entry and keeps the others. */
  lemma SeedTimesAdd(seen: set<string>, m: string, start: real)
    ensures SeedTimes(seen + {m}, start) == SeedTimes(seen, start)[m := start - Minute]
  {
  }

  // ---------------------------------------------------------------- the object

  class RateLimiter {
    var providerLimits: map<string, int>
    var modelLimits: map<string, int>
    var lastRequestTimes: map<string, real>
    var now: real

    function State(): Snapshot
      reads this
    {
      Snapshot(providerLimits, modelLimits, lastRequestTimes, now)
    }

    predicate Valid()
      reads this
    {
      Consistent(State())
    }

    /** Reads the provider limits and the model limits; each model key starts a minute back. */
    constructor (config: Config, start: real)
      ensures providerLimits == ProviderLimits(config)
      ensures modelLimits == config.modelRateLimits
      ensures lastRequestTimes == SeedTimes(config.modelRateLimits.Keys, start)
      ensures now == start
      ensures Valid()
    {
      var limits := CollectProviderLimits(config.providers);
      var models, times := CollectModelLimits(config.modelRateLimits, start);
      providerLimits := limits;
      modelLimits := models;
      lastRequestTimes := times;
      now := start;
    }

    /** _calculate_wait_time, reading the clock and the recorded times. */
    method CalculateWaitTime(key: string, rpm: int) returns (wait: Result<real, string>)
      ensures wait == WaitTime(LastTime(lastRequestTimes, key), rpm, now)
    {
      if key !in lastRequestTimes {
        return Success(0.0);
      }
      if rpm == 0 {
        return Failure(ZeroDivision);
      }
      var secondsPerRequest := Minute / rpm as real;
      var timeSinceLast := now - lastRequestTimes[key];
      if timeSinceLast < secondsPerRequest {
        return Success(secondsPerRequest - timeSinceLast);
      }
      return Success(0.0);
    }

    /** time.sleep: the clock moves on by exactly the time slept. */
    method Sleep(seconds: real)
      requires seconds >= 0.0
      modifies this
      ensures now == old(now) + seconds
      ensures providerLimits == old(providerLimits) && modelLimits == old(modelLimits)
      ensures lastRequestTimes == old(lastRequestTimes)
    {
      now := now + seconds;
    }

    /** Time passing between calls. */
    method AdvanceClock(seconds: real)
      requires Valid() && seconds >= 0.0
      modifies this
      ensures now == old(now) + seconds
      ensures providerLimits == old(providerLimits) && modelLimits == old(modelLimits)
      ensures lastRequestTimes == old(lastRequestTimes)
      ensures Valid()
    {
      now := now + seconds;
    }

    /** wait_if_needed: blocks until the request may go out and returns the seconds waited. */
    method WaitIfNeeded(provider: string, model: string) returns (waited: Result<real, string>)
      requires Valid()
      modifies this
      ensures (State(), waited) == Request(old(State()), provider, model)
      ensures Valid()
    {
      ghost var s := State();
      waited := Success(0.0);
      if model in modelLimits {
        var rpm := modelLimits[model];
        waited := CalculateWaitTime(model, rpm);
        if waited.Success? {
          if waited.value > 0.0 {
            Sleep(waited.value);
            lastRequestTimes := lastRequestTimes[model := now];
            RequestKeepsConsistent(s, provider, model);
            return;
          }
          lastRequestTimes := lastRequestTimes[model := now];
        }
      } else if provider in providerLimits {
        var rpm := providerLimits[provider];
        var providerKey := ProviderKey(provider);
        if providerKey !in lastRequestTimes {
          lastRequestTimes := lastRequestTimes[providerKey := now - Minute];
        }
        waited := CalculateWaitTime(providerKey, rpm);
        if waited.Success? {
          if waited.value > 0.0 {
            Sleep(waited.value);
            lastRequestTimes := lastRequestTimes[providerKey := now];
            RequestKeepsConsistent(s, provider, model);
            return;
          }
          lastRequestTimes := lastRequestTimes[providerKey := now];
        }
      }
      if waited.Success? || !(model in modelLimits || provider in providerLimits) {
        waited := Success(0.0);
      }
      RequestKeepsConsistent(s, provider, model);
    }

    /** update_rate_limit: sets one model's limit and nothing else. */
    method UpdateRateLimit(model: string, rpm: int)
      requires Valid()
      modifies this
      ensures modelLimits == old(modelLimits)[model := rpm]
      ensures providerLimits == old(providerLimits) && lastRequestTimes == old(lastRequestTimes) && now == old(now)
      ensures Valid()
    {
      modelLimits := modelLimits[model := rpm];
    }
  }

  // ---------------------------------------------------------------- properties

  /** A wait is never negative. */
  lemma WaitNonNegative(last: Option<real>, rpm: int, now: real)
    ensures WaitTime(last, rpm, now).Success? ==> WaitTime(last, rpm, now).value >= 0.0
  {
  }

  /** A wait fails exactly when a known key has a zero limit. */
  lemma WaitFailsIff(last: Option<real>, rpm: int, now: real)
    ensures WaitTime(last, rpm, now).Failure? <==> (last.Some? && rpm == 0)
  {
  }

  /**
   * With a positive limit, waiting ends exactly at the later of now and the previous
   * request plus 60/rpm: no earlier (the spacing holds) and no later (no needless wait).
   */
  lemma WaitEndsAtSpacing(t: real, rpm: int, now: real)
    requires rpm > 0
    ensures var w := WaitTime(Some(t), rpm, now);
            w.Success? && now + w.value == Max(now, t + Minute / rpm as real)
  {
  }

  function Max(a: real, b: real): real
  {
    if a < b then b else a
  }

  /** A request keeps every recorded time in the past, and the clock never goes back. */
  lemma RequestKeepsConsistent(s: Snapshot, provider: string, model: string)
    requires Consistent(s)
    ensures Consistent(Request(s, provider, model).0)
    ensures Request(s, provider, model).0.now >= s.now
  {
  }

  /**
   * The limits are never changed by a request, the clock moves by exactly the time
   * reported as waited, and no recorded time other than the request's key changes.
   */
  lemma RequestFrame(s: Snapshot, provider: string, model: string)
    ensures var (s', r) := Request(s, provider, model);
            s'.providerLimits == s.providerLimits && s'.modelLimits == s.modelLimits
            && (r.Success? ==> s'.now == s.now + r.value)
            && (r.Failure? ==> s'.now == s.now)
            && (forall k :: KeyFor(s, provider, model).None? || k != KeyFor(s, provider, model).value.0 ==>
                  LastTime(s'.lastRequestTimes, k) == LastTime(s.lastRequestTimes, k))
  {
  }

  /** A model with its own limit is never timed under its provider's key, and vice versa. */
  lemma ModelLimitTakesPrecedence(s: Snapshot, provider: string, model: string)
    requires model in s.modelLimits
    ensures Request(s, provider, model) == Admit(s, model, s.modelLimits[model])
    ensures LastTime(Request(s, provider, model).0.lastRequestTimes, ProviderKey(provider))
            == LastTime(s.lastRequestTimes, ProviderKey(provider)) || ProviderKey(provider) == model
  {
  }

  /** A request under no limit at all changes nothing and waits for nothing. */
  lemma UnlimitedRequest(s: Snapshot, provider: string, model: string)
    requires model !in s.modelLimits && provider !in s.providerLimits
    ensures Request(s, provider, model) == (s, Success(0.0))
  {
  }

  /**
   * The first request under a provider's key never waits (its time starts a minute back),
   * for any limit of one request per minute or more.
   */
  lemma FirstProviderCallDoesNotWait(s: Snapshot, provider: string, model: string)
    requires model !in s.modelLimits && provider in s.providerLimits && s.providerLimits[provider] >= 1
    requires ProviderKey(provider) !in s.lastRequestTimes
    ensures Request(s, provider, model).1 == Success(0.0)
    ensures Request(s, provider, model).0 == s.(lastRequestTimes := s.lastRequestTimes[ProviderKey(provider) := s.now])
  {
    var rpm := s.providerLimits[provider];
    assert Minute / rpm as real <= Minute by {
      assert rpm as real >= 1.0;
    }
  }

  /**
   * A model whose limit was set after construction has no recorded time, so its first
   * request goes out at once, whatever its limit (even zero).
   */
  lemma NewModelDoesNotWait(s: Snapshot, provider: string, model: string)
    requires model in s.modelLimits && model !in s.lastRequestTimes
    ensures Request(s, provider, model) == (s.(lastRequestTimes := s.lastRequestTimes[model := s.now]), Success(0.0))
  {
  }

  /**
   * The pacing guarantee: once a request under a key with a positive limit returns, its
   * recorded time is 60/rpm or more after the previous one, and equals the later of
   * that and the moment of the call.
   */
  lemma {:induction false} RequestSpacing(s: Snapshot, provider: string, model: string)
    requires Consistent(s)
    requires KeyFor(s, provider, model).Some? && KeyFor(s, provider, model).value.1 > 0
    ensures var (key, rpm) := KeyFor(s, provider, model).value;
            var s' := Request(s, provider, model).0;
            var previous := if key in s.lastRequestTimes then s.lastRequestTimes[key] else s.now - Minute;
            Request(s, provider, model).1.Success?
            && key in s'.lastRequestTimes
            && s'.lastRequestTimes[key] == s'.now
            && s'.lastRequestTimes[key] == Max(s.now, previous + Minute / rpm as real)
  {
    var (key, rpm) := KeyFor(s, provider, model).value;
    if model in s.modelLimits {
      if key in s.lastRequestTimes {
        WaitEndsAtSpacing(s.lastRequestTimes[key], rpm, s.now);
      } else {
        // a model whose limit was set by update_rate_limit after construction: no wait
        assert s.now - Minute + Minute / rpm as real <= s.now by {
          assert Minute / rpm as real <= Minute;
        }
      }
    } else {
      var seeded := if key in s.lastRequestTimes then s else s.(lastRequestTimes := s.lastRequestTimes[key := s.now - Minute]);
      WaitEndsAtSpacing(seeded.lastRequestTimes[key], rpm, s.now);
    }
  }

  /** `n` requests one after the other with no time passing in between; the first failure stops the run. */
  function Burst(s: Snapshot, provider: string, model: string, n: nat): Snapshot
    decreases n
  {
    if n == 0 then s
    else
      var (s', r) := Request(s, provider, model);
      if r.Failure? then s' else Burst(s', provider, model, n - 1)
  }

  /**
   * A burst of n requests under a model limit of rpm > 0 takes at least (n - 1) * 60/rpm
   * seconds after the first can go out: the limiter really holds the rate down.
   */
  lemma {:induction false} BurstIsPaced(s: Snapshot, provider: string, model: string, n: nat)
    requires Consistent(s) && model in s.modelLimits && s.modelLimits[model] > 0
    requires model in s.lastRequestTimes
    ensures var spacing := Minute / s.modelLimits[model] as real;
            model in Burst(s, provider, model, n).lastRequestTimes
            && Burst(s, provider, model, n).lastRequestTimes[model] >= s.lastRequestTimes[model] + n as real * spacing
            && Burst(s, provider, model, n).modelLimits == s.modelLimits
    decreases n
  {
    if n > 0 {
      var s' := Request(s, provider, model).0;
      RequestSpacing(s, provider, model);
      RequestKeepsConsistent(s, provider, model);
      RequestFrame(s, provider, model);
      BurstIsPaced(s', provider, model, n - 1);
    }
  }
}
