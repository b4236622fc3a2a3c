/**
 * The storefront's client-side rate limiter: a fixed-window attempt counter
 * per key with a temporary lockout once the ceiling is passed. The clock
 * (`Date.now()`) is the explicit parameter `now`, in milliseconds.
 */
module RateLimit {
  import opened Wrappers

  /** A policy: at most `maxAttempts` actions per `windowMs`, then a lockout of `blockDurationMs`. */
  datatype Config = Config(maxAttempts: int, windowMs: int, blockDurationMs: Option<int>)

  /** The per-key record: attempts in the current window, its end, and an optional lockout deadline. */
  datatype Entry = Entry(count: int, resetAt: int, blockedUntil: Option<int>)

  /** What one `check` decides: its answer and the key's entry afterwards. */
  datatype Verdict = Verdict(allowed: bool, entry: Entry)

  /** `config.blockDurationMs || config.windowMs * 2`: an absent or zero duration falls back to two windows. */
  function LockoutMs(cfg: Config): int {
    if cfg.blockDurationMs.Some? && cfg.blockDurationMs.value != 0 then cfg.blockDurationMs.value
    else cfg.windowMs * 2
  }

  /** `entry.blockedUntil && now < entry.blockedUntil`: a deadline of 0 is falsy and blocks nothing. */
  predicate Blocked(e: Entry, now: int) {
    e.blockedUntil.Some? && e.blockedUntil.value != 0 && now < e.blockedUntil.value
  }

  /** `Math.ceil(ms / 1000)` for a positive number of milliseconds. */
  function CeilSeconds(ms: int): (s: int)
    requires ms > 0
    ensures s >= 1
    ensures (s - 1) * 1000 < ms <= s * 1000
  {
    (ms + 999) / 1000
  }

  /** The decision of `check` for a key whose entry is `current` (None: the key is unseen). */
  function CheckStep(current: Option<Entry>, cfg: Config, now: int): (v: Verdict)
    ensures current.Some? && Blocked(current.value, now) ==> v == Verdict(false, current.value)
    ensures !(current.Some? && Blocked(current.value, now)) && (current.None? || now > current.value.resetAt)
      ==> v == Verdict(true, Entry(1, now + cfg.windowMs, None))
    ensures current.Some? && !Blocked(current.value, now) && now <= current.value.resetAt ==>
      && v.entry.count == current.value.count + 1
      && v.entry.resetAt == current.value.resetAt
      && v.allowed == (v.entry.count <= cfg.maxAttempts)
      && v.entry.blockedUntil == (if v.allowed then current.value.blockedUntil else Some(now + LockoutMs(cfg)))
  {
    if current.Some? && Blocked(current.value, now) then
      Verdict(false, current.value)
    else if current.None? || now > current.value.resetAt then
      Verdict(true, Entry(1, now + cfg.windowMs, None))
    else
      var e := current.value.(count := current.value.count + 1);
      if e.count > cfg.maxAttempts then Verdict(false, e.(blockedUntil := Some(now + LockoutMs(cfg))))
      else Verdict(true, e)
  }

  /** `getRemaining`: the budget left in the current window. */
  function Remaining(current: Option<Entry>, cfg: Config, now: int): (r: int)
    ensures current.None? || now > current.value.resetAt ==> r == cfg.maxAttempts
    ensures current.Some? && now <= current.value.resetAt ==>
      r == if cfg.maxAttempts - current.value.count > 0 then cfg.maxAttempts - current.value.count else 0
    ensures cfg.maxAttempts >= 0 ==> r >= 0
    ensures current.Some? && current.value.count >= 0 ==> r <= cfg.maxAttempts || r == 0
  {
    if current.None? then cfg.maxAttempts
    else if now > current.value.resetAt then cfg.maxAttempts
    else if cfg.maxAttempts - current.value.count > 0 then cfg.maxAttempts - current.value.count
    else 0
  }

  /**
   * `getResetTime`: whole seconds (rounded up) until the lockout ends while
   * locked out, else until the window ends while it runs, else 0.
   */
  function ResetSeconds(current: Option<Entry>, now: int): (r: int)
    ensures r >= 0
    ensures r > 0 <==> current.Some? && (Blocked(current.value, now) || now < current.value.resetAt)
    ensures current.Some? && Blocked(current.value, now) ==>
      (r - 1) * 1000 < current.value.blockedUntil.value - now <= r * 1000
    ensures current.Some? && !Blocked(current.value, now) && now < current.value.resetAt ==>
      (r - 1) * 1000 < current.value.resetAt - now <= r * 1000
  {
    if current.None? then 0
    else if Blocked(current.value, now) then CeilSeconds(current.value.blockedUntil.value - now)
    else if now < current.value.resetAt then CeilSeconds(current.value.resetAt - now)
    else 0
  }

  /** The answers of successive `check` calls for one key at the times `times`, and the entry left at the end. */
  datatype Trace = Trace(outcomes: seq<bool>, last: Option<Entry>)

  function Run(current: Option<Entry>, cfg: Config, times: seq<int>): (t: Trace)
    ensures |t.outcomes| == |times|
    ensures times != [] ==> t.last.Some?
    ensures times == [] ==> t.last == current
    decreases |times|
  {
    if times == [] then Trace([], current)
    else
      var v := CheckStep(current, cfg, times[0]);
      var rest := Run(Some(v.entry), cfg, times[1..]);
      Trace([v.allowed] + rest.outcomes, rest.last)
  }

  /**
   * Inside a window that is not locked out, the j-th further call raises the
   * count to `c + j + 1` and is allowed exactly while that count is within the
   * ceiling (as long as at most one call goes past it).
   */
  lemma {:induction false} CountUpInWindow(c: int, resetAt: int, cfg: Config, times: seq<int>)
    requires c + |times| <= cfg.maxAttempts + 1
    requires forall k :: 0 <= k < |times| ==> times[k] <= resetAt
    ensures var r := Run(Some(Entry(c, resetAt, None)), cfg, times).outcomes;
      forall j :: 0 <= j < |times| ==> r[j] == (c + j + 1 <= cfg.maxAttempts)
    decreases |times|
  {
    if times != [] {
      var e := Entry(c, resetAt, None);
      var v := CheckStep(Some(e), cfg, times[0]);
      var tail := times[1..];
      var r := Run(Some(e), cfg, times).outcomes;
      var rest := Run(Some(v.entry), cfg, tail).outcomes;
      assert r == [v.allowed] + rest;
      assert r[0] == (c + 1 <= cfg.maxAttempts);
      if |times| > 1 {
        assert v.entry == Entry(c + 1, resetAt, None);
        assert forall k :: 0 <= k < |tail| ==> tail[k] <= resetAt by {
          forall k | 0 <= k < |tail| ensures tail[k] <= resetAt {
            assert tail[k] == times[k + 1];
          }
        }
        CountUpInWindow(c + 1, resetAt, cfg, tail);
        forall j | 1 <= j < |times| ensures r[j] == (c + j + 1 <= cfg.maxAttempts) {
          assert r[j] == rest[j - 1];
          assert 0 <= j - 1 < |tail|;
          assert rest == Run(Some(Entry(c + 1, resetAt, None)), cfg, tail).outcomes;
          assert Run(Some(Entry(c + 1, resetAt, None)), cfg, tail).outcomes[j - 1] == (c + 1 + (j - 1) + 1 <= cfg.maxAttempts);
          assert rest[j - 1] == (c + 1 + (j - 1) + 1 <= cfg.maxAttempts);
        }
      }
    }
  }

  /**
   * For an unseen key, the calls of one window (no later than `windowMs` after
   * the first) are allowed for the first `maxAttempts`, and the call after
   * those is refused.
   */
  lemma {:induction false} FirstAttemptsAllowed(cfg: Config, times: seq<int>)
    requires cfg.maxAttempts >= 1
    requires 1 <= |times| <= cfg.maxAttempts + 1
    requires forall k :: 0 <= k < |times| ==> times[k] <= times[0] + cfg.windowMs
    ensures var r := Run(None, cfg, times).outcomes;
      forall k :: 0 <= k < |times| ==> r[k] == (k < cfg.maxAttempts)
  {
    var t0 := times[0];
    var first := CheckStep(None, cfg, t0);
    assert first.entry == Entry(1, t0 + cfg.windowMs, None);
    var tail := times[1..];
    assert forall k :: 0 <= k < |tail| ==> tail[k] <= t0 + cfg.windowMs by {
      forall k | 0 <= k < |tail| ensures tail[k] <= t0 + cfg.windowMs {
        assert tail[k] == times[k + 1];
      }
    }
    CountUpInWindow(1, t0 + cfg.windowMs, cfg, tail);
    var r := Run(None, cfg, times).outcomes;
    var rest := Run(Some(first.entry), cfg, tail).outcomes;
    assert r == [true] + rest;
    forall k | 0 <= k < |times| ensures r[k] == (k < cfg.maxAttempts) {
      if k > 0 {
        assert r[k] == rest[k - 1];
        assert rest == Run(Some(Entry(1, t0 + cfg.windowMs, None)), cfg, tail).outcomes;
        assert Run(Some(Entry(1, t0 + cfg.windowMs, None)), cfg, tail).outcomes[k - 1] == (1 + (k - 1) + 1 <= cfg.maxAttempts);
      }
    }
  }

  /**
   * The call that passes the ceiling locks the key out: it is refused, the
   * reset time it reports is the lockout rounded up to seconds, and every
   * call before the lockout ends is refused and changes nothing.
   */
  lemma LockoutHolds(e: Entry, cfg: Config, now: int)
    requires now >= 0 && LockoutMs(cfg) > 0
    requires !Blocked(e, now) && now <= e.resetAt && e.count + 1 > cfg.maxAttempts
    ensures var v := CheckStep(Some(e), cfg, now);
      && !v.allowed
      && ResetSeconds(Some(v.entry), now) == CeilSeconds(LockoutMs(cfg))
      && forall t :: now <= t < now + LockoutMs(cfg) ==> CheckStep(Some(v.entry), cfg, t) == Verdict(false, v.entry)
  {
  }

  /** A refused attempt leaves the state as it was, so repeating it decides the same. */
  lemma BlockedCheckIsStable(e: Entry, cfg: Config, now: int)
    requires Blocked(e, now)
    ensures CheckStep(Some(e), cfg, now) == Verdict(false, e)
    ensures CheckStep(Some(CheckStep(Some(e), cfg, now).entry), cfg, now) == CheckStep(Some(e), cfg, now)
  {
  }

  // ---- Predefined policies ----

  const LoginConfig := Config(5, 15 * 60 * 1000, Some(30 * 60 * 1000))
  const PasswordResetConfig := Config(3, 60 * 60 * 1000, Some(2 * 60 * 60 * 1000))
  const ContactFormConfig := Config(5, 60 * 60 * 1000, Some(60 * 60 * 1000))
  const SearchConfig := Config(30, 60 * 1000, None)
  const ApiConfig := Config(100, 60 * 1000, None)

  /** The lockouts the predefined policies impose: 30 min, 2 h, 1 h, and the 2-minute fallback for search and API. */
  lemma PredefinedLockouts()
    ensures LockoutMs(LoginConfig) == 1_800_000
    ensures LockoutMs(PasswordResetConfig) == 7_200_000
    ensures LockoutMs(ContactFormConfig) == 3_600_000
    ensures LockoutMs(SearchConfig) == 120_000 && LockoutMs(ApiConfig) == 120_000
  {
  }

  /**
   * With 3 attempts per second and a 2-second lockout, three immediate calls
   * are allowed, the fourth is refused with a reset time of 2 seconds, and a
   * call 2.1 seconds later is allowed again.
   */
  lemma ThreePerSecondScenario(t: int)
    requires t >= 0
    ensures var cfg := Config(3, 1000, Some(2000));
      var run := Run(None, cfg, [t, t, t, t]);
      && run.outcomes == [true, true, true, false]
      && ResetSeconds(run.last, t) == 2
      && CheckStep(run.last, cfg, t + 2100).allowed
  {
    var cfg := Config(3, 1000, Some(2000));
    var e1 := Entry(1, t + 1000, None);
    var e2 := Entry(2, t + 1000, None);
    var e3 := Entry(3, t + 1000, None);
    var e4 := Entry(4, t + 1000, Some(t + 2000));
    assert Run(Some(e4), cfg, []) == Trace([], Some(e4));
    assert [t, t, t, t][1..] == [t, t, t] && [t, t, t][1..] == [t, t] && [t, t][1..] == [t];
    assert Run(Some(e3), cfg, [t]) == Trace([false], Some(e4));
    assert Run(Some(e2), cfg, [t, t]) == Trace([true, false], Some(e4));
    assert Run(Some(e1), cfg, [t, t, t]) == Trace([true, true, false], Some(e4));
  }

  /** The limiter: one entry per key, created lazily by `check` and removed only by `clear`/`clearAll`. */
  class RateLimiter {
    var attempts: map<string, Entry>

    /** Every entry has seen at least one attempt. */
    ghost predicate Valid()
      reads this
    {
      forall k :: k in attempts ==> attempts[k].count >= 1
    }

    constructor ()
      ensures Valid() && attempts == map[]
    {
      attempts := map[];
    }

    /** `this.attempts.get(key)`. */
    function Lookup(key: string): Option<Entry>
      reads this
    {
      if key in attempts then Some(attempts[key]) else None
    }

    /** `check`: decides whether the action for `key` is allowed now, and records it. */
    method Check(key: string, cfg: Config, now: int) returns (allowed: bool)
      requires Valid()
      modifies this
      ensures Valid()
      ensures var v := CheckStep(old(Lookup(key)), cfg, now);
        allowed == v.allowed && attempts == old(attempts)[key := v.entry]
      // locked out: refused, nothing changes
      ensures key in old(attempts) && Blocked(old(attempts)[key], now) ==>
        !allowed && attempts == old(attempts)
      // unseen or expired window: a fresh window with one attempt
      ensures (key !in old(attempts) || (!Blocked(old(attempts)[key], now) && now > old(attempts)[key].resetAt)) ==>
        allowed && attempts == old(attempts)[key := Entry(1, now + cfg.windowMs, None)]
      // active window: one more attempt, locked out once past the ceiling
      ensures key in old(attempts) && !Blocked(old(attempts)[key], now) && now <= old(attempts)[key].resetAt ==>
        var e := old(attempts)[key];
        && allowed == (e.count + 1 <= cfg.maxAttempts)
        && attempts == old(attempts)[key := Entry(e.count + 1, e.resetAt,
             if allowed then e.blockedUntil else Some(now + LockoutMs(cfg)))]
    {
      var entry := if key in attempts then Some(attempts[key]) else None;
      if entry.Some? && Blocked(entry.value, now) {
        return false;
      }
      if entry.None? || now > entry.value.resetAt {
        attempts := attempts[key := Entry(1, now + cfg.windowMs, None)];
        return true;
      }
      var e := entry.value.(count := entry.value.count + 1);
      if e.count > cfg.maxAttempts {
        e := e.(blockedUntil := Some(now + LockoutMs(cfg)));
        attempts := attempts[key := e];
        return false;
      }
      attempts := attempts[key := e];
      return true;
    }

    /** `getRemaining`: reads the map and changes nothing. */
    method GetRemaining(key: string, cfg: Config, now: int) returns (r: int)
      ensures r == Remaining(Lookup(key), cfg, now)
      ensures key !in attempts ==> r == cfg.maxAttempts
      ensures cfg.maxAttempts >= 0 ==> r >= 0
    {
      if key !in attempts {
        return cfg.maxAttempts;
      }
      var entry := attempts[key];
      if now > entry.resetAt {
        return cfg.maxAttempts;
      }
      r := if cfg.maxAttempts - entry.count > 0 then cfg.maxAttempts - entry.count else 0;
    }

    /** `getResetTime`: reads the map and changes nothing. */
    method GetResetTime(key: string, now: int) returns (r: int)
      ensures r == ResetSeconds(Lookup(key), now)
      ensures key !in attempts ==> r == 0
      ensures r >= 0
    {
      if key !in attempts {
        return 0;
      }
      var entry := attempts[key];
      if Blocked(entry, now) {
        return CeilSeconds(entry.blockedUntil.value - now);
      }
      if now < entry.resetAt {
        return CeilSeconds(entry.resetAt - now);
      }
      return 0;
    }

    /** `clear`: forgets `key` only, so its next `check` sees an unseen key. */
    method Clear(key: string)
      requires Valid()
      modifies this
      ensures Valid()
      ensures attempts == old(attempts) - {key}
      ensures Lookup(key) == None
      ensures forall k :: k != key ==> Lookup(k) == old(Lookup(k))
    {
      attempts := attempts - {key};
    }

    /** `clearAll`: forgets every key. */
    method ClearAll()
      modifies this
      ensures Valid()
      ensures attempts == map[]
    {
      attempts := map[];
    }
  }

  /** A client: after `clear`, the next `check` of the key opens a fresh window and is allowed. */
  method ClearThenCheck(limiter: RateLimiter, key: string, cfg: Config, now: int) returns (allowed: bool)
    requires limiter.Valid()
    modifies limiter
    ensures allowed
    ensures limiter.Valid() && limiter.Lookup(key) == Some(Entry(1, now + cfg.windowMs, None))
  {
    limiter.Clear(key);
    allowed := limiter.Check(key, cfg, now);
  }
}
