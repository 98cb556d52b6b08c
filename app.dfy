/** The application wiring (server/src/app.ts): the middleware list built at
    start-up from `NODE_ENV`, the CORS origin callback, the stacked rate
    limiters over their one shared counter store, the `/api/me` payload and
    the `onError` mapping. */
module App {
  import opened Wrappers
  import opened Jwt
  import opened RateLimiter

  // ---------------------------------------------------------------- CORS

  /** `allowedOrigins.includes(origin) ? origin : null` with the one allowed
      origin `FRONTEND_URL`. */
  function CorsOrigin(origin: string, frontendUrl: string): (r: Option<string>)
    ensures r.Some? <==> origin == frontendUrl
    ensures r.Some? ==> r.value == origin
  {
    if origin in [frontendUrl] then Some(origin) else None
  }

  // ---------------------------------------------------------------- middleware list

  /** The two mount patterns: every path, and the auth routes. */
  datatype Pattern = AllPaths | AuthPaths

  const AuthPrefix := "/api/auth"

  /** Whether a mount pattern covers a request path: the auth pattern covers
      `/api/auth` itself and every path below it. */
  predicate Covers(p: Pattern, path: string)
  {
    match p
    case AllPaths => true
    case AuthPaths =>
      path == AuthPrefix || (|path| > |AuthPrefix| && path[..|AuthPrefix| + 1] == AuthPrefix + "/")
  }

  datatype Middleware =
    | SecureHeaders
    | RequestIdTag
    | RequestLogger
    | BodyLogger       // the development-only logger of method, path and body
    | Cors
    | Limit(limit: int, windowSeconds: int)

  datatype Mount = Mount(pattern: Pattern, middleware: Middleware)

  /** The Hono application: the middleware mounted so far, in order. */
  class Application {
    var mounts: seq<Mount>

    constructor ()
      ensures mounts == []
    {
      mounts := [];
    }

    /** `app.use(pattern, middleware)`. */
    method Use(pattern: Pattern, middleware: Middleware)
      modifies this
      ensures mounts == old(mounts) + [Mount(pattern, middleware)]
    {
      mounts := mounts + [Mount(pattern, middleware)];
    }
  }

  /** The rate limiters `NODE_ENV` selects: 100 requests per 15 minutes plus 5
      on the auth routes in production, 1000 per minute plus 50 in
      development, none for any other value. */
  function LimitMounts(nodeEnv: string): seq<Mount>
  {
    if nodeEnv == "production" then [Mount(AllPaths, Limit(100, 15 * 60)), Mount(AuthPaths, Limit(5, 15 * 60))]
    else if nodeEnv == "development" then [Mount(AllPaths, Limit(1000, 60)), Mount(AuthPaths, Limit(50, 60))]
    else []
  }

  /** The middleware list start-up builds for `nodeEnv`, in mount order. */
  function Mounts(nodeEnv: string): seq<Mount>
  {
    [Mount(AllPaths, SecureHeaders), Mount(AllPaths, RequestIdTag)]
    + (if nodeEnv != "test" then [Mount(AllPaths, RequestLogger)] else [])
    + (if nodeEnv == "development" then [Mount(AllPaths, BodyLogger)] else [])
    + [Mount(AllPaths, Cors)]
    + LimitMounts(nodeEnv)
  }

  /** Start-up: mounts the middleware in the order of the module body. */
  method Build(nodeEnv: string) returns (app: Application)
    ensures fresh(app) && app.mounts == Mounts(nodeEnv)
  {
    app := new Application();
    app.Use(AllPaths, SecureHeaders);
    app.Use(AllPaths, RequestIdTag);
    if nodeEnv != "test" {
      app.Use(AllPaths, RequestLogger);
    }
    if nodeEnv == "development" {
      app.Use(AllPaths, BodyLogger);
    }
    app.Use(AllPaths, Cors);
    if nodeEnv == "production" {
      app.Use(AllPaths, Limit(100, 15 * 60));
      app.Use(AuthPaths, Limit(5, 15 * 60));
    } else if nodeEnv == "development" {
      app.Use(AllPaths, Limit(1000, 60));
      app.Use(AuthPaths, Limit(50, 60));
    }
  }

  /** The rate limiters among `mounts`, in order. */
  function Limiters(mounts: seq<Mount>): (r: seq<Mount>)
    ensures forall k | 0 <= k < |r| :: r[k].middleware.Limit? && r[k] in mounts
  {
    if mounts == [] then []
    else (if mounts[0].middleware.Limit? then [mounts[0]] else []) + Limiters(mounts[1..])
  }

  lemma {:induction false} LimitersAppend(a: seq<Mount>, b: seq<Mount>)
    ensures Limiters(a + b) == Limiters(a) + Limiters(b)
  {
    if a == [] {
      assert a + b == b;
    } else {
      assert (a + b)[0] == a[0];
      assert (a + b)[1..] == a[1..] + b;
      LimitersAppend(a[1..], b);
    }
  }

  /** The limits table: the rate limiters in the list are exactly the ones
      `LimitMounts` names for the environment, so `NODE_ENV=test` (or any
      value other than production and development) has none. */
  lemma LimitsPerEnvironment(nodeEnv: string)
    ensures Limiters(Mounts(nodeEnv)) == LimitMounts(nodeEnv)
    ensures nodeEnv == "production" ==>
              Limiters(Mounts(nodeEnv)) == [Mount(AllPaths, Limit(100, 900)), Mount(AuthPaths, Limit(5, 900))]
    ensures nodeEnv == "development" ==>
              Limiters(Mounts(nodeEnv)) == [Mount(AllPaths, Limit(1000, 60)), Mount(AuthPaths, Limit(50, 60))]
    ensures nodeEnv != "production" && nodeEnv != "development" ==> Limiters(Mounts(nodeEnv)) == []
  {
    var base := [Mount(AllPaths, SecureHeaders), Mount(AllPaths, RequestIdTag)]
                + (if nodeEnv != "test" then [Mount(AllPaths, RequestLogger)] else [])
                + (if nodeEnv == "development" then [Mount(AllPaths, BodyLogger)] else [])
                + [Mount(AllPaths, Cors)];
    assert Mounts(nodeEnv) == base + LimitMounts(nodeEnv);
    LimitersAppend(base, LimitMounts(nodeEnv));
    var l := LimitMounts(nodeEnv);
    assert Limiters(base) == [] by {
      forall k | 0 <= k < |base| ensures !base[k].middleware.Limit? {
      }
      NoLimiters(base);
    }
    assert Limiters(l) == l by {
      if l != [] {
        assert Limiters(l[1..][1..]) == [];
        assert Limiters(l[1..]) == [l[1]];
      }
    }
  }

  lemma {:induction false} NoLimiters(mounts: seq<Mount>)
    requires forall k | 0 <= k < |mounts| :: !mounts[k].middleware.Limit?
    ensures Limiters(mounts) == []
  {
    if mounts != [] {
      NoLimiters(mounts[1..]);
    }
  }

  /** Security headers and the request id come first, the request logger runs
      except under `NODE_ENV=test`, the body logger only in development, and
      CORS is mounted before every rate limiter. */
  lemma MountOrder(nodeEnv: string)
    ensures var m := Mounts(nodeEnv);
            && m[0] == Mount(AllPaths, SecureHeaders) && m[1] == Mount(AllPaths, RequestIdTag)
            && (Mount(AllPaths, RequestLogger) in m <==> nodeEnv != "test")
            && (Mount(AllPaths, BodyLogger) in m <==> nodeEnv == "development")
            && exists c | 0 <= c < |m| :: m[c] == Mount(AllPaths, Cors)
                 && forall k | 0 <= k < |m| && m[k].middleware.Limit? :: c < k
  {
    var m := Mounts(nodeEnv);
    var c := 2 + (if nodeEnv != "test" then 1 else 0) + (if nodeEnv == "development" then 1 else 0);
    assert m[c] == Mount(AllPaths, Cors);
    assert forall k | 0 <= k <= c :: !m[k].middleware.Limit?;
  }

  // ---------------------------------------------------------------- stacked limiters

  /** What a request meets passing the limiters that cover its path, in mount
      order: it reaches the routes, or the first rejecting limiter answers.
      The headers of each limiter overwrite those of the previous one. */
  datatype Passage = Reached(headers: map<string, string>) | Stopped(headers: map<string, string>)

  /** The limits of the limiters in `mounts` that cover `path`; every
      covering rate limiter gives one. */
  function CoveringLimits(mounts: seq<Mount>, path: string): (r: seq<(int, int)>)
    ensures |r| <= |mounts|
    ensures forall j | 0 <= j < |mounts| && mounts[j].middleware.Limit? && Covers(mounts[j].pattern, path) ::
              (mounts[j].middleware.limit, mounts[j].middleware.windowSeconds) in r
  {
    if mounts == [] then []
    else
      var m := mounts[0];
      var head := if m.middleware.Limit? && Covers(m.pattern, path) then [(m.middleware.limit, m.middleware.windowSeconds)] else [];
      var tail := CoveringLimits(mounts[1..], path);
      assert forall j | 1 <= j < |mounts| :: mounts[j] == mounts[1..][j - 1];
      head + tail
  }

  /** Each covering limit comes from a rate limiter in `mounts` that covers
      `path`. */
  lemma {:induction false} CoveringLimitsSound(mounts: seq<Mount>, path: string, k: nat)
    requires k < |CoveringLimits(mounts, path)|
    ensures exists j | 0 <= j < |mounts| ::
              && mounts[j].middleware.Limit? && Covers(mounts[j].pattern, path)
              && CoveringLimits(mounts, path)[k] == (mounts[j].middleware.limit, mounts[j].middleware.windowSeconds)
  {
    var m := mounts[0];
    if m.middleware.Limit? && Covers(m.pattern, path) && k == 0 {
      assert CoveringLimits(mounts, path)[0] == (m.middleware.limit, m.middleware.windowSeconds);
    } else {
      var h := if m.middleware.Limit? && Covers(m.pattern, path) then 1 else 0;
      CoveringLimitsSound(mounts[1..], path, k - h);
      var j :| 0 <= j < |mounts[1..]| && mounts[1..][j].middleware.Limit? && Covers(mounts[1..][j].pattern, path)
               && CoveringLimits(mounts[1..], path)[k - h] == (mounts[1..][j].middleware.limit, mounts[1..][j].middleware.windowSeconds);
      assert mounts[j + 1] == mounts[1..][j];
    }
  }

  /** Covering limits keep mount order: those of a list are those of its
      first part followed by those of the rest. */
  lemma {:induction false} CoveringLimitsAppend(a: seq<Mount>, b: seq<Mount>, path: string)
    ensures CoveringLimits(a + b, path) == CoveringLimits(a, path) + CoveringLimits(b, path)
  {
    if a == [] {
      assert a + b == b;
    } else {
      assert (a + b)[0] == a[0];
      assert (a + b)[1..] == a[1..] + b;
      CoveringLimitsAppend(a[1..], b, path);
    }
  }

  lemma {:induction false} NoCoveringLimits(mounts: seq<Mount>, path: string)
    requires forall k | 0 <= k < |mounts| :: !mounts[k].middleware.Limit?
    ensures CoveringLimits(mounts, path) == []
  {
    if mounts != [] {
      NoCoveringLimits(mounts[1..], path);
    }
  }

  /** The limits a request meets, per environment and path: the global
      limiter on every path, then the auth limiter on the auth routes;
      nothing outside production and development. */
  lemma CoveringLimitsPerEnvironment(nodeEnv: string, path: string)
    ensures nodeEnv == "production" && Covers(AuthPaths, path) ==>
              CoveringLimits(Mounts(nodeEnv), path) == [(100, 900), (5, 900)]
    ensures nodeEnv == "production" && !Covers(AuthPaths, path) ==>
              CoveringLimits(Mounts(nodeEnv), path) == [(100, 900)]
    ensures nodeEnv == "development" && Covers(AuthPaths, path) ==>
              CoveringLimits(Mounts(nodeEnv), path) == [(1000, 60), (50, 60)]
    ensures nodeEnv == "development" && !Covers(AuthPaths, path) ==>
              CoveringLimits(Mounts(nodeEnv), path) == [(1000, 60)]
    ensures nodeEnv != "production" && nodeEnv != "development" ==> CoveringLimits(Mounts(nodeEnv), path) == []
  {
    var base := [Mount(AllPaths, SecureHeaders), Mount(AllPaths, RequestIdTag)]
                + (if nodeEnv != "test" then [Mount(AllPaths, RequestLogger)] else [])
                + (if nodeEnv == "development" then [Mount(AllPaths, BodyLogger)] else [])
                + [Mount(AllPaths, Cors)];
    var l := LimitMounts(nodeEnv);
    assert Mounts(nodeEnv) == base + l;
    CoveringLimitsAppend(base, l, path);
    assert CoveringLimits(base, path) == [] by {
      assert forall k | 0 <= k < |base| :: !base[k].middleware.Limit?;
      NoCoveringLimits(base, path);
    }
    if l != [] {
      assert l[1..][1..] == [];
      assert CoveringLimits(l[1..], path) == (if Covers(AuthPaths, path) then [(l[1].middleware.limit, l[1].middleware.windowSeconds)] else []);
    }
  }

  /** The limiters in turn on the shared store: every one of them counts the
      request under the same key, built from the same path and client. */
  function RunLimiters(entries: Entries, now: nat, key: string, limits: seq<(int, int)>,
                       headers: map<string, string>): (r: (Entries, Passage))
    ensures forall k | k in entries && k != key :: k in r.0 && r.0[k] == entries[k]
    ensures forall k | k in r.0 && k != key :: k in entries
    ensures limits == [] ==> r == (entries, Reached(headers))
    ensures headers.Keys <= r.1.headers.Keys
    decreases |limits|
  {
    if limits == [] then (entries, Reached(headers))
    else
      var s := RateLimit(entries, now, key, limits[0].0, limits[0].1, NoFaults);
      match s.decision
      case TooManyRequests(h, _, _) => (s.entries, Stopped(headers + h))
      case Next(h) => RunLimiters(s.entries, now, key, limits[1..], headers + h)
  }

  /** In production an auth path is covered by both limiters, the global one
      first. */
  lemma ProductionAuthLimits(path: string)
    requires Covers(AuthPaths, path)
    ensures CoveringLimits(Mounts("production"), path) == [(100, 900), (5, 900)]
  {
    CoveringLimitsPerEnvironment("production", path);
  }

  /** Both limiters on an auth path count the same request under the one key:
      a request that the global limiter lets through reaches the auth limiter
      with the counter already raised by one. */
  lemma AuthRequestCountsTwice(entries: Entries, now: nat, key: string, c: int, deadline: nat)
    requires key in entries && entries[key] == Entry(c, Some(deadline)) && now < deadline && c >= 1 && c + 1 <= 100
    ensures var r := RunLimiters(entries, now, key, [(100, 900), (5, 900)], map[]);
            && key in r.0 && r.0[key] == Entry(c + 2, Some(deadline))
            && (r.1.Stopped? <==> c + 2 > 5)
  {
  }

  /** Consequently, in one production window a client gets two requests to a
      given auth path through, not five: the third is answered 429 by the
      auth limiter. */
  lemma ThirdAuthRequestRejected(entries: Entries, key: string, t0: nat, t1: nat, t2: nat)
    requires !LiveAt(entries, key, t0) && t0 <= t1 <= t2 < t0 + 900
    ensures var limits := [(100, 900), (5, 900)];
            var r0 := RunLimiters(entries, t0, key, limits, map[]);
            var r1 := RunLimiters(r0.0, t1, key, limits, map[]);
            var r2 := RunLimiters(r1.0, t2, key, limits, map[]);
            && r0.1.Reached? && r1.1.Reached? && r2.1.Stopped?
            && key in r2.0 && r2.0[key].count == 6
  {
    var limits := [(100, 900), (5, 900)];
    var r0 := RunLimiters(entries, t0, key, limits, map[]);
    assert key in r0.0 && r0.0[key] == Entry(2, Some(t0 + 900));
    AuthRequestCountsTwice(r0.0, t1, key, 2, t0 + 900);
    var r1 := RunLimiters(r0.0, t1, key, limits, map[]);
    AuthRequestCountsTwice(r1.0, t2, key, 4, t0 + 900);
  }

  // ---------------------------------------------------------------- /api/me and onError

  /** Errors reaching `onError`: an `HTTPException` with its status, or any
      other error. */
  datatype AppError = HttpException(status: int, message: string) | Internal(message: string)

  datatype ErrorBody = ErrorBody(success: bool, message: string, requestId: string)

  function OnError(err: AppError, requestId: string): (r: (int, ErrorBody))
    ensures r.1.requestId == requestId && !r.1.success
    ensures err.HttpException? ==> r.0 == err.status && r.1.message == err.message
    ensures err.Internal? ==> r.0 == 500 && r.1.message == "Internal server error"
  {
    match err
    case HttpException(status, message) => (status, ErrorBody(false, message, requestId))
    case Internal(_) => (500, ErrorBody(false, "Internal server error", requestId))
  }

  /** An unexpected error's own message never reaches the client: any two of
      them produce the same response. */
  lemma OnErrorHidesInternalMessages(m1: string, m2: string, requestId: string)
    ensures OnError(Internal(m1), requestId) == OnError(Internal(m2), requestId)
  {
  }

  datatype MeBody = MeBody(message: string, userId: string)

  /** `GET /api/me` once the JWT middleware has passed the access token. */
  function Me(payload: Claims): (b: MeBody)
    ensures b.userId == payload.sub && b.message == "Authorized access"
  {
    MeBody("Authorized access", payload.sub)
  }

  /** `GET /api/me` end to end: the bearer token must verify under
      `JWT_SECRET`; otherwise the middleware's 401 `HTTPException` (carrying
      `rejection` as its message) goes through `onError`. */
  function MeResponse(bearer: Presented, accessSecret: string, now: int, rejection: string, requestId: string)
    : (r: Result<MeBody, (int, ErrorBody)>)
    ensures r.Success? <==> Verify(bearer, accessSecret, now).Success?
    ensures r.Success? ==> r.value.userId == Verify(bearer, accessSecret, now).value.sub
    ensures r.Failure? ==> r.error.0 == 401 && !r.error.1.success && r.error.1.requestId == requestId
  {
    match Verify(bearer, accessSecret, now)
    case Success(payload) => Success(Me(payload))
    case Failure(_) => Failure(OnError(HttpException(401, rejection), requestId))
  }

  /** `/api/me` answers with the subject of exactly the live tokens signed
      with the access secret; every other token gets 401 with the request id. */
  lemma MeAcceptsAccessTokens(t: Token, accessSecret: string, now: int, rejection: string, requestId: string)
    ensures var r := MeResponse(Compact(t), accessSecret, now, rejection, requestId);
            && (r.Success? <==> t.secret == accessSecret && now < t.claims.exp)
            && (r.Success? ==> r.value.userId == t.claims.sub)
            && (r.Failure? ==> r.error.0 == 401 && r.error.1.requestId == requestId)
  {
  }
}
