/** The fixed-window rate limiter (server/src/middleware/rateLimiter.ts).

    The counter store is a Redis server reached through one shared client: a
    map from key to an integer counter with an optional deadline, read
    against the store's clock (whole seconds). A key whose deadline has come
    reads as absent, as Redis expiry does. The store's failures are inputs:
    `Faults` says which of the two commands raise. */
module RateLimiter {
  import opened Wrappers
  import opened Text

  /** The client identity: the first `X-Forwarded-For` entry, trimmed; then
      `cf-connecting-ip` as sent; then "unknown". An empty string counts as
      absent at each step, as JavaScript's `||` does. */
  function ClientIdentity(forwardedFor: Option<string>, cfConnectingIp: Option<string>): (ip: string)
    ensures ip != ""
  {
    var first := if forwardedFor.Some? then Trim(BeforeFirst(forwardedFor.value, ',')) else "";
    if first != "" then first
    else if cfConnectingIp.Some? && cfConnectingIp.value != "" then cfConnectingIp.value
    else "unknown"
  }

  /** The first forwarded entry wins whatever follows it and whatever
      `cf-connecting-ip` says; the header is client-controlled, so any client
      can choose its own identity. */
  lemma IdentityFromForwardedFor(first: string, rest: string, cf: Option<string>)
    requires ',' !in first && !AllSpace(first)
    ensures ClientIdentity(Some(first + "," + rest), cf) == Trim(first)
    ensures ClientIdentity(Some(first), cf) == Trim(first)
  {
    BeforeFirstJoin(first, rest, ',');
  }

  /** Without a usable forwarded entry, a non-empty `cf-connecting-ip` is the
      identity, untrimmed. */
  lemma IdentityFromCloudflare(forwardedFor: Option<string>, cf: string)
    requires forwardedFor.None? || AllSpace(BeforeFirst(forwardedFor.value, ','))
    requires cf != ""
    ensures ClientIdentity(forwardedFor, Some(cf)) == cf
  {
  }

  /** With neither header usable, every such client shares "unknown". */
  lemma IdentityUnknown(forwardedFor: Option<string>, cf: Option<string>)
    requires forwardedFor.None? || AllSpace(BeforeFirst(forwardedFor.value, ','))
    requires cf.None? || cf.value == ""
    ensures ClientIdentity(forwardedFor, cf) == "unknown"
  {
  }

  const KeyPrefix := "rate-limit:"

  /** The counter key: the route path and the client identity. */
  function Key(path: string, ip: string): (k: string)
    ensures |k| == |KeyPrefix| + |path| + 1 + |ip|
    ensures k[..|KeyPrefix|] == KeyPrefix && k[|KeyPrefix|..|KeyPrefix| + |path|] == path
    ensures k[|KeyPrefix| + |path|] == ':' && k[|KeyPrefix| + |path| + 1..] == ip
  {
    KeyPrefix + path + ":" + ip
  }

  /** Distinct requests share a counter only when path and identity agree, as
      long as the paths hold no ':'. */
  lemma KeyInjective(path1: string, ip1: string, path2: string, ip2: string)
    requires ':' !in path1 && ':' !in path2
    requires Key(path1, ip1) == Key(path2, ip2)
    ensures path1 == path2 && ip1 == ip2
  {
    var k := Key(path1, ip1);
    var n := |KeyPrefix|;
    assert k[n..] == path1 + ":" + ip1 == path2 + ":" + ip2;
    BeforeFirstJoin(path1, ip1, ':');
    BeforeFirstJoin(path2, ip2, ':');
    assert path1 + ":" + ip1 == path1 + [':'] + ip1;
    assert path2 + ":" + ip2 == path2 + [':'] + ip2;
    assert path1 == path2;
    assert ip1 == (path1 + ":" + ip1)[|path1| + 1..];
    assert ip2 == (path2 + ":" + ip2)[|path2| + 1..];
  }

  /** A path holding ':' (legal in a URL path) and an IPv6 identity can share
      one counter with a different path and identity. */
  lemma KeyCollision()
    ensures Key("/api/me", "2001:db8::1") == Key("/api/me:2001", "db8::1")
  {
  }

  /** A counter and its deadline, if any. */
  datatype Entry = Entry(count: int, expiresAt: Option<nat>)

  type Entries = map<string, Entry>

  predicate Live(e: Entry, now: nat)
  {
    e.expiresAt.None? || now < e.expiresAt.value
  }

  predicate LiveAt(entries: Entries, key: string, now: nat)
  {
    key in entries && Live(entries[key], now)
  }

  /** `INCR key`: a live counter goes up by one and keeps its deadline; an
      absent or expired key starts again at 1 with no deadline. */
  function Incremented(entries: Entries, key: string, now: nat): (e: Entry)
    ensures LiveAt(entries, key, now) ==> e.count == entries[key].count + 1 && e.expiresAt == entries[key].expiresAt
    ensures !LiveAt(entries, key, now) ==> e == Entry(1, None)
  {
    if LiveAt(entries, key, now) then Entry(entries[key].count + 1, entries[key].expiresAt) else Entry(1, None)
  }

  /** `EXPIRE key seconds`: a live key gets the deadline `now + seconds`, or is
      deleted when `seconds` is not positive; an absent key is left alone. */
  function WithDeadline(entries: Entries, key: string, now: nat, seconds: int): (r: Entries)
    ensures !LiveAt(entries, key, now) ==> r == entries
    ensures LiveAt(entries, key, now) && seconds <= 0 ==> r == entries - {key}
    ensures LiveAt(entries, key, now) && seconds > 0 ==>
              r == entries[key := Entry(entries[key].count, Some(now + seconds))]
  {
    if !LiveAt(entries, key, now) then entries
    else if seconds <= 0 then entries - {key}
    else entries[key := Entry(entries[key].count, Some(now + seconds))]
  }

  /** The shared Redis counter store. */
  class CounterStore {
    var entries: Entries
    var now: nat

    constructor ()
      ensures entries == map[] && now == 0
    {
      entries := map[];
      now := 0;
    }

    /** Time passes. */
    method Advance(seconds: nat)
      modifies this
      ensures now == old(now) + seconds && entries == old(entries)
    {
      now := now + seconds;
    }

    method Incr(key: string, fails: bool) returns (r: Result<int, Error>)
      modifies this
      ensures now == old(now)
      ensures fails ==> r.Failure? && entries == old(entries)
      ensures !fails ==> entries == old(entries)[key := Incremented(old(entries), key, now)]
                         && r == Success(Incremented(old(entries), key, now).count)
    {
      if fails {
        return Failure(Error("Connection is closed.", None));
      }
      var e := Incremented(entries, key, now);
      entries := entries[key := e];
      return Success(e.count);
    }

    method Expire(key: string, seconds: int, fails: bool) returns (r: Result<bool, Error>)
      modifies this
      ensures now == old(now)
      ensures fails ==> r.Failure? && entries == old(entries)
      ensures !fails ==> entries == WithDeadline(old(entries), key, now, seconds)
                         && r == Success(LiveAt(old(entries), key, now))
    {
      if fails {
        return Failure(Error("Connection is closed.", None));
      }
      var found := LiveAt(entries, key, now);
      entries := WithDeadline(entries, key, now, seconds);
      return Success(found);
    }
  }

  datatype Faults = Faults(incrFails: bool, expireFails: bool)

  const NoFaults := Faults(false, false)

  const TooManyMessage := "Too many requests. Please try again later."

  /** 429 Too Many Requests, section 4 of RFC 6585. */
  const TooManyStatus := 429

  /** What the middleware does with a request: pass it on to `next` with the
      headers it has set so far, or answer itself with `status` and the body
      `{success: false, message}`. */
  datatype Decision =
    | Next(headers: map<string, string>)
    | TooManyRequests(headers: map<string, string>, status: int, message: string)

  /** The decision for a request whose post-increment count is known. */
  function Decide(limit: int, windowSeconds: int, count: int): (d: Decision)
    ensures d.TooManyRequests? <==> count > limit
    ensures "X-RateLimit-Limit" in d.headers && d.headers["X-RateLimit-Limit"] == IntToDecimal(limit)
    ensures "X-RateLimit-Remaining" in d.headers
    ensures d.headers["X-RateLimit-Remaining"] == NatToDecimal(NonNegative(limit - count))
    ensures d.headers["X-RateLimit-Remaining"][0] != '-'
    ensures "Retry-After" in d.headers <==> d.TooManyRequests?
    ensures d.TooManyRequests? ==> d.headers["Retry-After"] == IntToDecimal(windowSeconds)
    ensures d.TooManyRequests? ==> d.status == TooManyStatus && d.message == TooManyMessage
  {
    var headers := map["X-RateLimit-Limit" := IntToDecimal(limit),
                       "X-RateLimit-Remaining" := NatToDecimal(NonNegative(limit - count))];
    if count > limit then TooManyRequests(headers["Retry-After" := IntToDecimal(windowSeconds)], TooManyStatus, TooManyMessage)
    else Next(headers)
  }

  datatype Step = Step(entries: Entries, decision: Decision)

  /** One pass through the middleware for the request whose counter key is
      `key`, in the store state `entries` at time `now`. */
  function RateLimit(entries: Entries, now: nat, key: string, limit: int, windowSeconds: int, faults: Faults): (s: Step)
    ensures forall k | k in entries && k != key :: k in s.entries && s.entries[k] == entries[k]
    ensures forall k | k in s.entries && k != key :: k in entries
    ensures faults.incrFails ==> s.entries == entries
    ensures s.decision.TooManyRequests? ==> !faults.incrFails && Incremented(entries, key, now).count > limit
    ensures s.decision.Next? && s.decision.headers != map[] ==> Incremented(entries, key, now).count <= limit
  {
    if faults.incrFails then Step(entries, Next(map[]))
    else
      var e := Incremented(entries, key, now);
      var counted := entries[key := e];
      if e.count == 1 && faults.expireFails then Step(counted, Next(map[]))
      else
        var after := if e.count == 1 then WithDeadline(counted, key, now, windowSeconds) else counted;
        Step(after, Decide(limit, windowSeconds, e.count))
  }

  /** `rateLimiter(limit, windowSeconds)`: one middleware instance; every
      instance shares the one store. */
  class Limiter {
    const limit: int
    const windowSeconds: int
    const store: CounterStore

    constructor (limit: int, windowSeconds: int, store: CounterStore)
      ensures this.limit == limit && this.windowSeconds == windowSeconds && this.store == store
    {
      this.limit := limit;
      this.windowSeconds := windowSeconds;
      this.store := store;
    }

    method Handle(path: string, forwardedFor: Option<string>, cfConnectingIp: Option<string>, faults: Faults)
      returns (d: Decision)
      modifies store
      ensures store.now == old(store.now)
      ensures var s := RateLimit(old(store.entries), store.now, Key(path, ClientIdentity(forwardedFor, cfConnectingIp)),
                                          limit, windowSeconds, faults);
              store.entries == s.entries && d == s.decision
    {
      var ip := ClientIdentity(forwardedFor, cfConnectingIp);
      var key := Key(path, ip);
      var current := store.Incr(key, faults.incrFails);
      if current.Failure? {
        return Next(map[]);  // fail open
      }
      if current.value == 1 {
        var expired := store.Expire(key, windowSeconds, faults.expireFails);
        if expired.Failure? {
          return Next(map[]);  // fail open
        }
      }
      var headers := map["X-RateLimit-Limit" := IntToDecimal(limit),
                         "X-RateLimit-Remaining" := NatToDecimal(NonNegative(limit - current.value))];
      if current.value > limit {
        return TooManyRequests(headers["Retry-After" := IntToDecimal(windowSeconds)], TooManyStatus, TooManyMessage);
      }
      return Next(headers);
    }
  }

  /** Fail open: when the store raises on either command, the request is
      passed on, never rejected, and carries no rate-limit headers. */
  lemma FailOpen(entries: Entries, now: nat, key: string, limit: int, windowSeconds: int, faults: Faults)
    requires faults.incrFails || (faults.expireFails && !LiveAt(entries, key, now))
    ensures RateLimit(entries, now, key, limit, windowSeconds, faults).decision == Next(map[])
  {
  }

  /** With a working store the request is rejected exactly when its
      post-increment count exceeds the limit. */
  lemma RejectIffOverLimit(entries: Entries, now: nat, key: string, limit: int, windowSeconds: int)
    ensures RateLimit(entries, now, key, limit, windowSeconds, NoFaults).decision.TooManyRequests?
            <==> Incremented(entries, key, now).count > limit
  {
  }

  /** Only the first increment of a window sets the deadline: a live counter
      keeps the deadline it had, whatever happens. */
  lemma DeadlineSetOnlyOnFirst(entries: Entries, now: nat, key: string, limit: int, windowSeconds: int, faults: Faults)
    requires LiveAt(entries, key, now) && entries[key].count >= 1
    ensures var after := RateLimit(entries, now, key, limit, windowSeconds, faults).entries;
            key in after && after[key].expiresAt == entries[key].expiresAt
  {
  }

  /** An expired counter starts a new window: the next request counts 1, is
      let through whenever the limit is at least 1, and sets the new deadline. */
  lemma NewWindowAfterExpiry(entries: Entries, now: nat, key: string, limit: int, windowSeconds: int)
    requires !LiveAt(entries, key, now)
    requires windowSeconds > 0 && limit >= 1
    ensures var s := RateLimit(entries, now, key, limit, windowSeconds, NoFaults);
            s.decision.Next? && s.entries[key] == Entry(1, Some(now + windowSeconds))
  {
  }

  /** A counter whose `EXPIRE` failed never gets a deadline later: once it
      reaches the limit, the identity is rejected on that path at every
      later time until the key is removed by hand. */
  lemma CounterWithoutDeadlineLocksOut(entries: Entries, now: nat, key: string, limit: int, windowSeconds: int, faults: Faults)
    requires key in entries && entries[key].expiresAt.None?
    requires entries[key].count >= 1 && entries[key].count >= limit
    requires !faults.incrFails
    ensures var s := RateLimit(entries, now, key, limit, windowSeconds, faults);
            && s.decision.TooManyRequests?
            && key in s.entries && s.entries[key] == Entry(entries[key].count + 1, None)
  {
  }

  /** `times.length` consecutive requests with the same key and a working store. */
  function Replay(entries: Entries, key: string, times: seq<nat>, limit: int, windowSeconds: int): (r: (Entries, seq<Decision>))
    ensures |r.1| == |times|
    decreases |times|
  {
    if times == [] then (entries, [])
    else
      var s := RateLimit(entries, times[0], key, limit, windowSeconds, NoFaults);
      var rest := Replay(s.entries, key, times[1..], limit, windowSeconds);
      (rest.0, [s.decision] + rest.1)
  }

  /** Inside one live window, request number k (counting from 0) sees the
      count `c + k + 1` and the deadline stays put. */
  lemma {:induction false} ReplayInWindow(entries: Entries, key: string, times: seq<nat>, limit: int, windowSeconds: int,
                                          c: int, deadline: nat)
    requires key in entries && entries[key] == Entry(c, Some(deadline)) && c >= 1
    requires forall k | 0 <= k < |times| :: times[k] < deadline
    ensures var r := Replay(entries, key, times, limit, windowSeconds);
            && key in r.0 && r.0[key] == Entry(c + |times|, Some(deadline))
            && forall k | 0 <= k < |times| :: r.1[k].TooManyRequests? <==> c + k + 1 > limit
    decreases |times|
  {
    if times != [] {
      var s := RateLimit(entries, times[0], key, limit, windowSeconds, NoFaults);
      assert s.entries[key] == Entry(c + 1, Some(deadline));
      ReplayInWindow(s.entries, key, times[1..], limit, windowSeconds, c + 1, deadline);
      var r := Replay(entries, key, times, limit, windowSeconds);
      var rest := Replay(s.entries, key, times[1..], limit, windowSeconds);
      forall k | 0 <= k < |times|
        ensures r.1[k].TooManyRequests? <==> c + k + 1 > limit
      {
        if k > 0 {
          assert r.1[k] == rest.1[k - 1];
        }
      }
    }
  }

  /** The fixed window: starting from an absent or expired counter, the
      requests of one window are numbered 1, 2, ... and the one numbered
      `limit + 1` and all after it are rejected. */
  lemma FixedWindow(entries: Entries, key: string, times: seq<nat>, limit: int, windowSeconds: int)
    requires times != [] && !LiveAt(entries, key, times[0])
    requires windowSeconds > 0
    requires forall k | 0 <= k < |times| :: times[k] < times[0] + windowSeconds
    ensures var r := Replay(entries, key, times, limit, windowSeconds);
            && key in r.0 && r.0[key] == Entry(|times|, Some(times[0] + windowSeconds))
            && forall k | 0 <= k < |times| :: r.1[k].TooManyRequests? <==> k + 1 > limit
  {
    var deadline := times[0] + windowSeconds;
    var s := RateLimit(entries, times[0], key, limit, windowSeconds, NoFaults);
    assert s.entries[key] == Entry(1, Some(deadline));
    ReplayInWindow(s.entries, key, times[1..], limit, windowSeconds, 1, deadline);
    var r := Replay(entries, key, times, limit, windowSeconds);
    var rest := Replay(s.entries, key, times[1..], limit, windowSeconds);
    forall k | 0 <= k < |times|
      ensures r.1[k].TooManyRequests? <==> k + 1 > limit
    {
      if k > 0 {
        assert r.1[k] == rest.1[k - 1];
      }
    }
  }
}
