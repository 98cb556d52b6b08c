/** The `/api/auth` routes (server/src/routes/auth.routes.ts). The mapping from
    a service outcome to a status and a JSON body is a pure function per
    route; the handlers are methods that call the service and write the
    `refresh_token` cookie into the response context. Inputs arrive already
    validated. */
module AuthRoutes {
  import opened Wrappers
  import opened Text
  import Env
  import opened Jwt
  import opened Schema
  import opened AuthService

  const RefreshCookie := "refresh_token"

  /** Max-Age of the refresh cookie, 7 days in seconds (section 5.2.2 of
      RFC 6265); 0 on log-out expires the cookie at once. */
  const RefreshMaxAge: int := 60 * 60 * 24 * 7

  datatype SameSite = Lax

  /** The attributes `setCookie` serialises: HttpOnly (section 5.2.6 of
      RFC 6265), Secure (section 5.2.5), SameSite, Path and Max-Age. */
  datatype CookieOptions = CookieOptions(httpOnly: bool, secure: bool, sameSite: SameSite, path: string, maxAge: int)

  /** One `Set-Cookie` header of the response. */
  datatype CookieHeader = CookieHeader(name: string, value: Presented, options: CookieOptions)

  /** The JSON bodies the routes send; an absent key is `None`. */
  datatype Body = Body(success: bool, message: Option<string>, data: Option<NewUser>,
                       accessToken: Option<Token>, user: Option<SessionUser>)

  datatype Response = Response(status: int, body: Body)

  function Plain(success: bool, message: string): Body
  {
    Body(success, Some(message), None, None, None)
  }

  const InternalError := "Internal server error"
  const NoRefreshToken := "No refresh token"
  const InvalidSession := "Invalid session"

  /** `process.env.NODE_ENV === "production"`, read from the raw environment. */
  predicate Production(vars: Env.Vars)
  {
    "NODE_ENV" in vars && vars["NODE_ENV"] == "production"
  }

  /** Reading the raw variable agrees with the configured `NODE_ENV`, whose
      default "development" is not "production". */
  lemma ProductionAgreesWithConfig(vars: Env.Vars)
    ensures Production(vars) <==> Env.NodeEnv(vars) == "production"
  {
  }

  /** The options both `setCookie` calls share, with the given Max-Age. */
  function RefreshCookieOptions(production: bool, maxAge: int): (o: CookieOptions)
    ensures o.httpOnly && o.sameSite == Lax && o.path == "/" && o.maxAge == maxAge
    ensures o.secure <==> production
  {
    CookieOptions(true, production, Lax, "/", maxAge)
  }

  // ---------------------------------------------------------------- signup

  /** The test the catch block applies to a sign-up error message. */
  predicate IsConflict(message: string)
  {
    Contains(message, "already registered") || Contains(message, "already taken")
  }

  function SignupResponse(r: Result<NewUser, Error>): (resp: Response)
    ensures resp.status == 201 || resp.status == 409 || resp.status == 500
    ensures resp.body.success <==> resp.status == 201
    ensures resp.body.data.Some? <==> resp.status == 201
    ensures resp.body.accessToken.None? && resp.body.user.None?
  {
    match r
    case Success(user) => Response(201, Body(true, Some("Registration successful"), Some(user), None, None))
    case Failure(e) =>
      if IsConflict(e.message) then Response(409, Plain(false, e.message))
      else Response(500, Plain(false, InternalError))
  }

  /** Sign-up answers 201 with the stored user, 409 passing on a message that
      names an existing registration, and 500 with a fixed message otherwise. */
  lemma SignupStatus(r: Result<NewUser, Error>)
    ensures var resp := SignupResponse(r);
            && (resp.status == 201 <==> r.Success?)
            && (r.Success? ==> resp.body.success && resp.body.data == Some(r.value))
            && (resp.status == 409 <==> r.Failure? && IsConflict(r.error.message))
            && (resp.status == 409 ==> resp.body == Plain(false, r.error.message))
            && (resp.status == 500 <==> r.Failure? && !IsConflict(r.error.message))
            && (resp.status == 500 ==> resp.body == Plain(false, InternalError))
  {
  }

  /** Where the characters "y " occur in the race-condition message, and what
      follows them. */
  lemma RaceConflictLetters(i: nat)
    requires i + 9 <= |RaceConflict|
    ensures RaceConflict[i + 6] != 'y' || RaceConflict[i + 7] != ' ' || RaceConflict[i + 8] == 'a'
  {
  }

  /** The race-condition message passes neither substring test. */
  lemma RaceConflictIsNotConflict()
    ensures !IsConflict(RaceConflict)
  {
    forall i: nat | i <= |RaceConflict|
      ensures !MatchesAt(RaceConflict, "already registered", i)
      ensures !MatchesAt(RaceConflict, "already taken", i)
    {
      if i + 13 <= |RaceConflict| {
        RaceConflictLetters(i);
        var k := if RaceConflict[i + 6] != 'y' then 6 else if RaceConflict[i + 7] != ' ' then 7 else 8;
        MismatchAt(RaceConflict, "already taken", i, k);
        if i + 18 <= |RaceConflict| {
          MismatchAt(RaceConflict, "already registered", i, k);
        }
      }
    }
  }

  /** Both pre-check messages pass the substring test. */
  lemma AlreadyRegisteredIsConflict(existing: UserRow, input: SignupInput)
    ensures IsConflict(AlreadyRegistered(existing, input))
  {
    var field := if existing.email == input.email then "Email" else "Username";
    ContainsSuffix(field, " already registered");
    assert MatchesAt(field + " already registered", "already registered", |field| + 1);
  }

  /** End to end: a sign-up that meets an existing email or username answers
      409, while one that loses the race at the insert answers 500. */
  lemma SignupConflictStatuses(rows: seq<UserRow>, input: SignupInput, hash: string, id: string, createdAt: nat,
                               fault: Option<Error>, e: Error)
    ensures (exists i | 0 <= i < |rows| :: rows[i].email == input.email || rows[i].username == input.username)
            ==> SignupResponse(SignupOutcome(rows, input, hash, id, createdAt, fault).result).status == 409
    ensures (forall i | 0 <= i < |rows| :: rows[i].email != input.email && rows[i].username != input.username)
            && e.code == Some(UniqueViolation)
            ==> SignupResponse(SignupOutcome(rows, input, hash, id, createdAt, Some(e)).result)
                == Response(500, Plain(false, InternalError))
  {
    var existing := FindByEmailOrUsername(rows, input.email, input.username);
    if existing.Some? {
      AlreadyRegisteredIsConflict(existing.value, input);
    }
    RaceConflictIsNotConflict();
  }

  /** A username one space longer than a stored 50-character username passes
      the pre-check (no stored username is 51 characters long), is cut back
      to that username by the column, and fails the unique index: the client
      gets the race-condition message's 500, not 409. */
  lemma PaddedUsernameAnswers500(rows: seq<UserRow>, input: SignupInput, hash: string, id: string, createdAt: nat, j: nat)
    requires TableValid(rows) && j < |rows| && |rows[j].username| == UsernameMax
    requires input.username == rows[j].username + " " && |input.email| <= EmailMax
    requires forall i | 0 <= i < |rows| :: rows[i].email != input.email
    ensures var s := SignupOutcome(rows, input, hash, id, createdAt, None);
            && s.hashed && s.rows == rows && s.result == Failure(Error(RaceConflict, None))
            && SignupResponse(s.result) == Response(500, Plain(false, InternalError))
  {
    forall i | 0 <= i < |rows|
      ensures rows[i].username != input.username
    {
      assert Fits(rows[i]);
    }
    var row := UserRow(id, input.username, input.email, hash, createdAt);
    assert input.username[..UsernameMax] == rows[j].username;
    PaddedUsernameCollides(rows, row, j);
    RaceConflictIsNotConflict();
  }

  // ---------------------------------------------------------------- login

  function LoginResponse(r: Result<Session, Error>): (resp: Response)
    ensures resp.status == 200 || resp.status == 401
    ensures resp.body.success <==> resp.status == 200
    ensures resp.body.accessToken.Some? <==> r.Success?
    ensures r.Success? ==> resp.body.accessToken.value.secret == r.value.accessToken.secret
    ensures resp.body.data.None?
  {
    match r
    case Success(s) => Response(200, Body(true, Some("Login successful"), None, Some(s.accessToken), Some(s.user)))
    case Failure(_) => Response(401, Plain(false, InvalidCredentials))
  }

  /** The `Set-Cookie` headers log-in adds: the refresh token on success,
      nothing on failure. */
  function LoginCookies(r: Result<Session, Error>, production: bool): (cs: seq<CookieHeader>)
    ensures |cs| <= 1 && (|cs| == 1 <==> r.Success?)
    ensures forall k | 0 <= k < |cs| :: cs[k].name == RefreshCookie && cs[k].options.httpOnly
  {
    match r
    case Success(s) => [CookieHeader(RefreshCookie, Compact(s.refreshToken), RefreshCookieOptions(production, RefreshMaxAge))]
    case Failure(_) => []
  }

  /** Every log-in failure, whatever its cause, answers the same 401 and sets
      no cookie. */
  lemma LoginFailureUniform(e1: Error, e2: Error, production: bool)
    ensures LoginResponse(Failure(e1)) == LoginResponse(Failure(e2)) == Response(401, Plain(false, InvalidCredentials))
    ensures LoginCookies(Failure(e1), production) == []
  {
  }

  /** A successful log-in answers 200 with the access token and the user; the
      refresh token travels only in the HttpOnly, SameSite=Lax cookie for
      path "/" that lives 7 days and is Secure exactly in production. */
  lemma LoginSuccessResponse(s: Session, production: bool)
    ensures var resp := LoginResponse(Success(s));
            && resp.status == 200 && resp.body.success
            && resp.body.accessToken == Some(s.accessToken) && resp.body.user == Some(s.user)
            && resp.body.data == None
    ensures var cs := LoginCookies(Success(s), production);
            && |cs| == 1 && cs[0].name == "refresh_token" && cs[0].value == Compact(s.refreshToken)
            && cs[0].options.httpOnly && cs[0].options.sameSite == Lax && cs[0].options.path == "/"
            && cs[0].options.maxAge == 604800 && (cs[0].options.secure <==> production)
  {
  }

  /** The refresh token of a session never appears in the log-in body: the
      access token differs from it (its claims carry a role). */
  lemma LoginBodyHidesRefreshToken(u: UserRow, accessSecret: string, refreshSecret: string, now: int)
    ensures var s := SessionFor(u, accessSecret, refreshSecret, now);
            LoginResponse(Success(s)).body.accessToken != Some(s.refreshToken)
  {
  }

  // ---------------------------------------------------------------- refresh

  /** `/refresh` given the cookie value (if any) at time `now` (seconds). */
  function RefreshResponse(cookie: Option<Presented>, accessSecret: string, refreshSecret: string, now: int): (resp: Response)
    ensures resp.status == 200 || resp.status == 401
    ensures resp.body.success <==> resp.status == 200
    ensures resp.body.accessToken.Some? <==> resp.status == 200
    ensures resp.status == 200 ==>
              resp.body.accessToken.value.secret == accessSecret && resp.body.accessToken.value.claims.exp == now + 900
    ensures resp.status == 200 ==> cookie.Some? && Verify(cookie.value, refreshSecret, now).Success?
  {
    if cookie.None? || Falsy(cookie.value) then Response(401, Plain(false, NoRefreshToken))
    else
      match Verify(cookie.value, refreshSecret, now)
      case Failure(_) => Response(401, Plain(false, InvalidSession))
      case Success(payload) =>
        Response(200, Body(true, None, None, Some(Sign(AccessClaims(payload.sub, now), accessSecret)), None))
  }

  /** No cookie, or an empty one: 401 "No refresh token", nothing minted. */
  lemma RefreshWithoutCookie(cookie: Option<Presented>, accessSecret: string, refreshSecret: string, now: int)
    requires cookie.None? || cookie == Some(Text(""))
    ensures RefreshResponse(cookie, accessSecret, refreshSecret, now) == Response(401, Plain(false, NoRefreshToken))
  {
  }

  /** A non-empty cookie that does not verify under the refresh secret (text,
      another secret, expired): 401 "Invalid session", nothing minted. */
  lemma RefreshRejected(v: Presented, accessSecret: string, refreshSecret: string, now: int)
    requires !Falsy(v) && Verify(v, refreshSecret, now).Failure?
    ensures RefreshResponse(Some(v), accessSecret, refreshSecret, now) == Response(401, Plain(false, InvalidSession))
  {
  }

  /** A live refresh token yields a fresh access token for its subject,
      valid for 15 minutes under the access secret, and nothing else. */
  lemma RefreshMints(t: Token, accessSecret: string, refreshSecret: string, now: int)
    requires t.secret == refreshSecret && now < t.claims.exp
    ensures var resp := RefreshResponse(Some(Compact(t)), accessSecret, refreshSecret, now);
            && resp.status == 200 && resp.body.success
            && resp.body.accessToken == Some(Token(Claims(t.claims.sub, Some("user"), now, now + 900), accessSecret, HS256))
            && resp.body.user == None && resp.body.data == None
  {
  }

  /** With distinct secrets, an access token presented as the refresh cookie
      is an invalid session; with equal secrets it is accepted. */
  lemma RefreshNeedsRefreshToken(u: UserRow, accessSecret: string, refreshSecret: string, issued: int, now: int)
    requires issued <= now < issued + 900
    ensures var s := SessionFor(u, accessSecret, refreshSecret, issued);
            (RefreshResponse(Some(Compact(s.accessToken)), accessSecret, refreshSecret, now).status == 200
             <==> accessSecret == refreshSecret)
  {
  }

  // ---------------------------------------------------------------- logout

  function LogoutResponse(): Response
  {
    Response(200, Plain(true, "Logged out"))
  }

  /** The header that clears the cookie: empty value, Max-Age 0, otherwise the
      same attributes as on log-in. */
  function ClearingCookie(production: bool): (c: CookieHeader)
    ensures c.name == RefreshCookie && c.value == Text("") && c.options.maxAge == 0
    ensures c.options == RefreshCookieOptions(production, RefreshMaxAge).(maxAge := 0)
  {
    CookieHeader(RefreshCookie, Text(""), RefreshCookieOptions(production, 0))
  }

  // ---------------------------------------------------------------- handlers

  /** Hono's context: the request's cookies and the response's `Set-Cookie`
      headers in the order they are added. */
  class Context {
    const requestCookies: map<string, Presented>
    var cookies: seq<CookieHeader>

    constructor (requestCookies: map<string, Presented>)
      ensures this.requestCookies == requestCookies && cookies == []
    {
      this.requestCookies := requestCookies;
      cookies := [];
    }

    /** `getCookie(c, name)`. */
    function GetCookie(name: string): (v: Option<Presented>)
      ensures v.Some? <==> name in requestCookies
      ensures v.Some? ==> v.value == requestCookies[name]
    {
      if name in requestCookies then Some(requestCookies[name]) else None
    }

    /** `setCookie(c, name, value, options)`. */
    method SetCookie(name: string, value: Presented, options: CookieOptions)
      modifies this
      ensures cookies == old(cookies) + [CookieHeader(name, value, options)]
    {
      cookies := cookies + [CookieHeader(name, value, options)];
    }
  }

  class Routes {
    const service: Service
    /** `process.env.NODE_ENV === "production"`. */
    const production: bool

    constructor (service: Service, production: bool)
      ensures this.service == service && this.production == production
    {
      this.service := service;
      this.production := production;
    }

    /** `POST /signup`. */
    method Signup(c: Context, input: SignupInput, salt: nat, id: string, createdAt: nat, fault: Option<Error>)
      returns (resp: Response)
      requires service.users.Valid()
      modifies service.users, service.argon
      ensures service.users.Valid()
      ensures var s := SignupOutcome(old(service.users.rows), input, service.argon.hashOf(input.password, salt),
                                     id, createdAt, fault);
              resp == SignupResponse(s.result) && service.users.rows == s.rows
    {
      var r := service.Signup(input, salt, id, createdAt, fault);
      match r
      case Success(user) =>
        resp := Response(201, Body(true, Some("Registration successful"), Some(user), None, None));
      case Failure(e) =>
        if IsConflict(e.message) {
          resp := Response(409, Plain(false, e.message));
        } else {
          resp := Response(500, Plain(false, InternalError));
        }
    }

    /** `POST /login`. */
    method Login(c: Context, input: LoginInput, nowMs: nat) returns (resp: Response)
      modifies c, service.argon
      ensures var a := VerifyArgs(service.users.rows, input);
              var r := LoginOutcome(service.users.rows, input, service.argon.check(a.0, a.1),
                                    service.jwtSecret, service.jwtRefreshSecret, Seconds(nowMs));
              && resp == LoginResponse(r)
              && c.cookies == old(c.cookies) + LoginCookies(r, production)
              && service.argon.calls == old(service.argon.calls) + [VerifyCall(a.0, a.1)]
    {
      var r := service.Login(input, nowMs);
      match r
      case Success(s) =>
        c.SetCookie(RefreshCookie, Compact(s.refreshToken), RefreshCookieOptions(production, RefreshMaxAge));
        resp := Response(200, Body(true, Some("Login successful"), None, Some(s.accessToken), Some(s.user)));
      case Failure(_) =>
        resp := Response(401, Plain(false, InvalidCredentials));
    }

    /** `POST /refresh`: reads the cookie, never writes one. */
    method Refresh(c: Context, nowMs: nat) returns (resp: Response)
      ensures resp == RefreshResponse(c.GetCookie(RefreshCookie), service.jwtSecret, service.jwtRefreshSecret, Seconds(nowMs))
    {
      var refreshToken := c.GetCookie(RefreshCookie);
      if refreshToken.None? || Falsy(refreshToken.value) {
        return Response(401, Plain(false, NoRefreshToken));
      }
      var now := Seconds(nowMs);
      var payload := Verify(refreshToken.value, service.jwtRefreshSecret, now);
      if payload.Failure? {
        return Response(401, Plain(false, InvalidSession));
      }
      var newAccessToken := Sign(AccessClaims(payload.value.sub, now), service.jwtSecret);
      resp := Response(200, Body(true, None, None, Some(newAccessToken), None));
    }

    /** `POST /logout`: always succeeds and clears the cookie. */
    method Logout(c: Context) returns (resp: Response)
      modifies c
      ensures resp == LogoutResponse() && resp.status == 200 && resp.body.success
      ensures c.cookies == old(c.cookies) + [ClearingCookie(production)]
    {
      c.SetCookie(RefreshCookie, Text(""), RefreshCookieOptions(production, 0));
      resp := Response(200, Plain(true, "Logged out"));
    }
  }
}
