/** The fixed-window rate limiter of BE/src/utils/rateLimiter.ts.

    One table, kept at module level in the source and shared by every limiter that
    `createRateLimiter` builds, maps a client key to its current window: how many calls it has
    seen and when the window ends. Each call opens a window if the key has none or its window
    has ended, counts itself, and is throttled once the count passes the limiter's maximum.
    Time is a number of milliseconds. */
module RateLimiting {
  import opened Common

  /** The options given to `createRateLimiter`. */
  datatype Options = Options(windowMs: nat, max: nat, message: string)

  /** One entry of the shared table. */
  datatype Record = Record(count: nat, resetTime: nat)

  /** The values of X-RateLimit-Limit, X-RateLimit-Remaining and X-RateLimit-Reset (epoch seconds). */
  datatype Headers = Headers(limit: nat, remaining: int, reset: int)

  /** Either the request goes on to `next()` with the headers set, or it is answered with 429. */
  datatype Decision =
    | Allowed(headers: Headers)
    | Throttled(status: nat, message: string, retryAfter: int)

  const TooManyRequests: nat := 429
  const UnknownClient: string := "unknown"

  /** The limiters of BE/src/controllers/authController.ts. */
  const LoginOptions: Options :=
    Options(5 * 60 * 1000, 5, "Too many login attempts, please try again after 15 minutes")
  const RegisterOptions: Options :=
    Options(60 * 60 * 1000, 10, "Too many registration attempts, please try again after an hour")

  /** `req.ip || 'unknown'`: an absent or empty address falls back to one shared key. The table
      never gets an empty key. */
  function ClientKey(ip: Option<string>): (key: string)
    ensures key != ""
    ensures Present(ip) ==> key == ip.value
    ensures !Present(ip) ==> key == UnknownClient
  {
    if Present(ip) then ip.value else UnknownClient
  }

  /** Two clients with different usable addresses are counted in different records. */
  lemma ClientKeysDistinct(a: Option<string>, b: Option<string>)
    requires Present(a) && Present(b) && a.value != b.value
    ensures ClientKey(a) != ClientKey(b)
  {
  }

  /** Every request without a usable address is counted in one record, the same as a client whose
      address is literally `unknown`. */
  lemma MissingAddressSharesUnknown(a: Option<string>)
    requires !Present(a)
    ensures ClientKey(a) == ClientKey(Some(UnknownClient))
  {
  }

  /** The record after one call at `now`: a key without a record, or whose window ended strictly
      before `now`, gets a fresh window that this call opens; otherwise the call is counted in the
      window in force, whose end does not move. Either way the window covers `now`. */
  function AfterCall(rec: Option<Record>, windowMs: nat, now: nat): (r: Record)
    ensures now <= r.resetTime
    ensures rec.None? ==> r == Record(1, now + windowMs)
    ensures rec.Some? && now > rec.value.resetTime ==> r == Record(1, now + windowMs)
    ensures rec.Some? && now <= rec.value.resetTime ==>
              r == Record(rec.value.count + 1, rec.value.resetTime)
  {
    var current := if rec.None? || now > rec.value.resetTime then Record(0, now + windowMs) else rec.value;
    current.(count := current.count + 1)
  }

  /** What a call does with its counted record: it passes while the count is at most `max`. */
  function Verdict(opts: Options, r: Record, now: nat): (d: Decision)
    ensures d.Allowed? <==> r.count <= opts.max
    ensures d.Allowed? ==> d.headers.limit == opts.max && d.headers.remaining == opts.max - r.count >= 0
                           && d.headers.reset * 1000 >= r.resetTime > (d.headers.reset - 1) * 1000
    ensures d.Throttled? ==> d.status == TooManyRequests && d.message == opts.message
                             && d.retryAfter == CeilDiv(r.resetTime - now, 1000)
  {
    if r.count > opts.max then
      Throttled(TooManyRequests, opts.message, CeilDiv(r.resetTime - now, 1000))
    else
      Allowed(Headers(opts.max, opts.max - r.count, CeilDiv(r.resetTime, 1000)))
  }

  function Lookup(table: map<string, Record>, key: string): Option<Record>
  {
    if key in table then Some(table[key]) else None
  }

  /** The table after one call for `key`: only that key's record changes. */
  function Touch(table: map<string, Record>, key: string, windowMs: nat, now: nat): (t: map<string, Record>)
    ensures t.Keys == table.Keys + {key}
    ensures t[key] == AfterCall(Lookup(table, key), windowMs, now)
    ensures forall k :: k in table && k != key ==> t[k] == table[k]
  {
    table[key := AfterCall(Lookup(table, key), windowMs, now)]
  }

  /** A throttled call is always answered with a non-negative `retryAfter`, because its window has not ended. */
  lemma RetryAfterNonNegative(opts: Options, rec: Option<Record>, now: nat)
    ensures var d := Verdict(opts, AfterCall(rec, opts.windowMs, now), now);
            d.Throttled? ==> d.retryAfter >= 0
  {
    var r := AfterCall(rec, opts.windowMs, now);
    CeilDivNonNegative(r.resetTime - now, 1000);
  }

  /** The decisions for successive calls of one limiter for one key, starting from record `rec`. */
  function Replay(opts: Options, rec: Option<Record>, times: seq<nat>): (ds: seq<Decision>)
    ensures |ds| == |times|
    decreases |times|
  {
    if times == [] then []
    else
      var r := AfterCall(rec, opts.windowMs, times[0]);
      [Verdict(opts, r, times[0])] + Replay(opts, Some(r), times[1..])
  }

  /** Inside a window already holding `count` calls, call number `i` (from 0) passes exactly when
      `count + i + 1 <= max`; throttled calls do not extend the window. */
  lemma {:induction false} ReplayInsideWindow(opts: Options, count: nat, resetTime: nat, times: seq<nat>, i: nat)
    requires forall j :: 0 <= j < |times| ==> times[j] <= resetTime
    requires i < |times|
    ensures Replay(opts, Some(Record(count, resetTime)), times)[i].Allowed? <==> count + i + 1 <= opts.max
    decreases i
  {
    var r := AfterCall(Some(Record(count, resetTime)), opts.windowMs, times[0]);
    assert r == Record(count + 1, resetTime);
    if i > 0 {
      assert forall j :: 0 <= j < |times[1..]| ==> times[1..][j] == times[j + 1];
      ReplayInsideWindow(opts, count + 1, resetTime, times[1..], i - 1);
    }
  }

  /** Within one window opened by the first call, exactly the first `max` calls pass and every
      later one is throttled. */
  lemma FirstMaxCallsPass(opts: Options, times: seq<nat>, i: nat)
    requires |times| >= 1
    requires forall j :: 0 <= j < |times| ==> times[j] <= times[0] + opts.windowMs
    requires i < |times|
    ensures Replay(opts, None, times)[i].Allowed? <==> i < opts.max
  {
    var r := AfterCall(None, opts.windowMs, times[0]);
    assert r == Record(1, times[0] + opts.windowMs);
    var ds := Replay(opts, None, times);
    assert ds == [Verdict(opts, r, times[0])] + Replay(opts, Some(r), times[1..]);
    if i == 0 {
      assert ds[0] == Verdict(opts, r, times[0]);
    } else {
      assert ds[i] == Replay(opts, Some(r), times[1..])[i - 1];
      assert forall j :: 0 <= j < |times[1..]| ==> times[1..][j] == times[j + 1];
      ReplayInsideWindow(opts, 1, times[0] + opts.windowMs, times[1..], i - 1);
    }
  }

  /** The module-level `storage` object: one table for every limiter. */
  class RateLimitStore {
    var records: map<string, Record>

    constructor ()
      ensures records == map[]
    {
      records := map[];
    }
  }

  /** The middleware that `createRateLimiter(options)` returns; it closes over the shared store. */
  class RateLimiter {
    const options: Options
    const store: RateLimitStore

    constructor (options: Options, store: RateLimitStore)
      ensures this.options == options && this.store == store
    {
      this.options := options;
      this.store := store;
    }

    /** One request from address `ip` at time `now`. */
    method Handle(ip: Option<string>, now: nat) returns (d: Decision)
      modifies store
      ensures store.records == Touch(old(store.records), ClientKey(ip), options.windowMs, now)
      ensures d == Verdict(options, store.records[ClientKey(ip)], now)
    {
      var key := ClientKey(ip);
      var records := store.records;
      if key !in records {
        records := records[key := Record(0, now + options.windowMs)];
      }
      if now > records[key].resetTime {
        records := records[key := Record(0, now + options.windowMs)];
      }
      records := records[key := records[key].(count := records[key].count + 1)];
      store.records := records;
      var entry := records[key];
      if entry.count > options.max {
        d := Throttled(TooManyRequests, options.message, CeilDiv(entry.resetTime - now, 1000));
        return;
      }
      d := Allowed(Headers(options.max, options.max - entry.count, CeilDiv(entry.resetTime, 1000)));
    }
  }

  /** The login and register limiters of the auth router: built over the one shared store. */
  method CreateAuthLimiters(store: RateLimitStore) returns (login: RateLimiter, register: RateLimiter)
    ensures login.store == store && register.store == store
    ensures login.options == LoginOptions && register.options == RegisterOptions
  {
    login := new RateLimiter(LoginOptions, store);
    register := new RateLimiter(RegisterOptions, store);
  }

  /** Because the table is shared, one registration attempt uses up one of the five login attempts of
      the same address, and the login throttle then reports the registration window's end
      (an hour out), not the five-minute login window. */
  method SharedTableScenario(ip: string, now: nat) returns (fifthLogin: Decision)
    requires ip != ""
    ensures fifthLogin.Throttled? && fifthLogin.retryAfter == 3600
  {
    var store := new RateLimitStore();
    var login, register := CreateAuthLimiters(store);
    var first := register.Handle(Some(ip), now);
    assert first.Allowed?;
    var d1 := login.Handle(Some(ip), now);
    var d2 := login.Handle(Some(ip), now);
    var d3 := login.Handle(Some(ip), now);
    var d4 := login.Handle(Some(ip), now);
    assert d4.Allowed?;
    fifthLogin := login.Handle(Some(ip), now);
    assert store.records[ip] == Record(6, now + 3600000);
  }
}
