/** `AuthService` (server/src/services/auth.service.ts): sign-up against the
    users table and log-in that mints an access and a refresh token. Each
    operation is a pure outcome function over the table and the values the
    outside world supplies (the hash argon2 returns, the verdict of
    `argon2.verify`, a failure of the insert, the clock); the class methods
    perform the calls on the table and on the argon2 object and are proved
    to produce exactly those outcomes. */
module AuthService {
  import opened Wrappers
  import opened Schema
  import opened Jwt

  datatype SignupInput = SignupInput(username: string, email: string, password: string)
  datatype LoginInput = LoginInput(email: string, password: string)

  /** The columns `returning(...)` gives back after sign-up: no password. */
  datatype NewUser = NewUser(id: string, username: string, email: string, createdAt: nat)

  /** The user part of the log-in result. */
  datatype SessionUser = SessionUser(id: string, username: string, email: string)

  datatype Session = Session(user: SessionUser, accessToken: Token, refreshToken: Token)

  /** Token lifetimes in seconds: 15 minutes and 7 days. */
  const AccessTtl: int := 60 * 15
  const RefreshTtl: int := 60 * 60 * 24 * 7

  /** The fixed string verified when no user has the email. */
  const DummyHash := "$argon2id$v=19$m=65536,t=3,p=4$6P6..."
  const DummyPassword := "dummy_password"

  const InvalidCredentials := "Invalid email or password"

  /** The message for a unique violation met by the insert itself, written
      in short pieces so that its characters can be named one by one. */
  const RaceConflict: string :=
    "Conflict" + ": User d" + "ata upda" + "ted simu" + "ltaneous" + "ly. Plea" + "se try a" + "gain."

  /** Claims of an access token: subject, the fixed role "user", issued now. */
  function AccessClaims(sub: string, now: int): (c: Claims)
    ensures c.sub == sub && c.role == Some("user") && c.iat == now && c.exp - c.iat == 900
  {
    Claims(sub, Some("user"), now, now + AccessTtl)
  }

  /** Claims of a refresh token: no role, lifetime of a week. */
  function RefreshClaims(sub: string, now: int): (c: Claims)
    ensures c.sub == sub && c.role == None && c.iat == now && c.exp - c.iat == 604800
  {
    Claims(sub, None, now, now + RefreshTtl)
  }

  /** `Math.floor(Date.now() / 1000)` for a clock reading in milliseconds. */
  function Seconds(nowMs: nat): (s: nat)
    ensures s * 1000 <= nowMs < s * 1000 + 1000
  {
    nowMs / 1000
  }

  // ---------------------------------------------------------------- argon2

  datatype Argon2Call = HashCall(password: string) | VerifyCall(hash: string, password: string)

  /** What `argon2.verify` settles to: true, false, or a rejection (a string
      that is not a well-formed argon2 hash, for instance). */
  datatype VerifyOutcome = Match | NoMatch | Throws(error: Error)

  /** The argon2 library. The key derivation is left symbolic: `hashOf` maps
      a password and a random salt to the encoded hash, `check` is the
      verdict of verifying a password against an encoded hash. `calls`
      records every invocation, so the timing-relevant behaviour (how many
      derivations run) is visible in the model. */
  class Argon2 {
    var calls: seq<Argon2Call>
    const hashOf: (string, nat) -> string
    const check: (string, string) -> VerifyOutcome

    constructor (hashOf: (string, nat) -> string, check: (string, string) -> VerifyOutcome)
      ensures this.hashOf == hashOf && this.check == check && calls == []
    {
      this.hashOf := hashOf;
      this.check := check;
      calls := [];
    }

    /** `argon2.hash(password)`; `salt` is the random salt it draws. */
    method Hash(password: string, salt: nat) returns (h: string)
      modifies this
      ensures h == hashOf(password, salt)
      ensures calls == old(calls) + [HashCall(password)]
    {
      calls := calls + [HashCall(password)];
      h := hashOf(password, salt);
    }

    /** `argon2.verify(hash, password)`. */
    method Verify(hash: string, password: string) returns (r: VerifyOutcome)
      modifies this
      ensures r == check(hash, password)
      ensures calls == old(calls) + [VerifyCall(hash, password)]
    {
      calls := calls + [VerifyCall(hash, password)];
      r := check(hash, password);
    }
  }

  // ---------------------------------------------------------------- signup

  /** `${field} already registered`, the field being the one the existing
      row shares with the input, Email taking precedence. */
  function AlreadyRegistered(existing: UserRow, input: SignupInput): string
  {
    (if existing.email == input.email then "Email" else "Username") + " already registered"
  }

  /** The result of sign-up, the table afterwards, and whether a hash was
      computed. */
  datatype SignupStep = SignupStep(result: Result<NewUser, Error>, rows: seq<UserRow>, hashed: bool)

  /** Sign-up on table `rows`: `hash` is what argon2 returns for the password,
      `id` and `createdAt` are the column defaults, `fault` a failure the
      insert meets that the rows do not explain. */
  function SignupOutcome(rows: seq<UserRow>, input: SignupInput, hash: string, id: string, createdAt: nat,
                         fault: Option<Error>): (s: SignupStep)
    ensures s.result.Failure? ==> s.rows == rows
    ensures s.result.Success? ==> |s.rows| == |rows| + 1 && s.rows[..|rows|] == rows && s.hashed
    ensures s.result.Success? ==> s.rows[|rows|].password == hash && s.rows[|rows|].id == s.result.value.id
                                  && s.rows[|rows|].username == s.result.value.username
                                  && s.rows[|rows|].email == s.result.value.email
    ensures fault.Some? ==> s.result.Failure?
  {
    match FindByEmailOrUsername(rows, input.email, input.username)
    case Some(existing) => SignupStep(Failure(Error(AlreadyRegistered(existing, input), None)), rows, false)
    case None =>
      var row := UserRow(id, input.username, input.email, hash, createdAt);
      var failure := if fault.Some? then fault else Violation(rows, row);
      match failure
      case Some(e) =>
        SignupStep(Failure(if e.code == Some(UniqueViolation) then Error(RaceConflict, None) else e), rows, true)
      case None =>
        var stored := Stored(row).value;
        SignupStep(Success(NewUser(stored.id, stored.username, stored.email, stored.createdAt)), rows + [stored], true)
  }

  /** When a row already has the email or the username, sign-up fails before
      hashing, leaves the table alone, and names the field: "Email" when that
      row has the email, "Username" otherwise. */
  lemma SignupRejectsExisting(rows: seq<UserRow>, input: SignupInput, hash: string, id: string, createdAt: nat,
                              fault: Option<Error>, i: nat)
    requires i < |rows| && (rows[i].email == input.email || rows[i].username == input.username)
    ensures var s := SignupOutcome(rows, input, hash, id, createdAt, fault);
            && s.rows == rows && !s.hashed && s.result.Failure? && s.result.error.code == None
            && (s.result.error.message == "Email already registered" || s.result.error.message == "Username already registered")
            && ((forall j | 0 <= j < |rows| :: rows[j].email != input.email) ==> s.result.error.message == "Username already registered")
            && ((forall j | 0 <= j < |rows| :: rows[j].username != input.username) ==> s.result.error.message == "Email already registered")
  {
    var existing := FindByEmailOrUsername(rows, input.email, input.username);
    assert existing.Some?;
    assert existing.value in rows;
    assert SignupOutcome(rows, input, hash, id, createdAt, fault)
           == SignupStep(Failure(Error(AlreadyRegistered(existing.value, input), None)), rows, false);
  }

  /** A new user whose row meets the constraints is stored as exactly one
      new row holding the hash, and the result carries no password. */
  lemma SignupInsertsOne(rows: seq<UserRow>, input: SignupInput, hash: string, id: string, createdAt: nat)
    requires forall j | 0 <= j < |rows| :: rows[j].email != input.email && rows[j].username != input.username
    requires forall j | 0 <= j < |rows| :: rows[j].id != id
    requires |input.username| <= UsernameMax && |input.email| <= EmailMax
    ensures var s := SignupOutcome(rows, input, hash, id, createdAt, None);
            && s.hashed
            && s.result == Success(NewUser(id, input.username, input.email, createdAt))
            && s.rows == rows + [UserRow(id, input.username, input.email, hash, createdAt)]
  {
  }

  /** A unique violation raised by the insert (another request stored the
      same username or email after the pre-check) becomes the conflict
      message; any other failure of the insert is passed on unchanged. In
      both cases nothing is stored. */
  lemma SignupInsertFailure(rows: seq<UserRow>, input: SignupInput, hash: string, id: string, createdAt: nat, e: Error)
    requires forall j | 0 <= j < |rows| :: rows[j].email != input.email && rows[j].username != input.username
    ensures var s := SignupOutcome(rows, input, hash, id, createdAt, Some(e));
            && s.rows == rows && s.hashed
            && s.result == Failure(if e.code == Some(UniqueViolation) then Error(RaceConflict, None) else e)
  {
  }

  /** Sign-up hashes exactly when no row has the email or the username. */
  lemma SignupHashesOnlyNewUsers(rows: seq<UserRow>, input: SignupInput, hash: string, id: string, createdAt: nat,
                                 fault: Option<Error>)
    ensures SignupOutcome(rows, input, hash, id, createdAt, fault).hashed
            <==> forall j | 0 <= j < |rows| :: rows[j].email != input.email && rows[j].username != input.username
  {
  }

  /** Sign-up never breaks the table's constraints, and it either leaves the
      table as it was or appends the one row for the input, as stored (the
      input's own row whenever it is within the column widths); the result
      reports that stored row. */
  lemma SignupKeepsTableValid(rows: seq<UserRow>, input: SignupInput, hash: string, id: string, createdAt: nat,
                              fault: Option<Error>)
    requires TableValid(rows)
    ensures var s := SignupOutcome(rows, input, hash, id, createdAt, fault);
            var row := UserRow(id, input.username, input.email, hash, createdAt);
            && TableValid(s.rows)
            && (s.result.Success? <==> Stored(row).Some? && s.rows == rows + [Stored(row).value])
            && (s.result.Success? ==> s.result.value == NewUser(id, Stored(row).value.username, Stored(row).value.email, createdAt))
            && (s.result.Failure? ==> s.rows == rows)
            && (Fits(row) && s.result.Success? ==> s.rows == rows + [row])
  {
    var s := SignupOutcome(rows, input, hash, id, createdAt, fault);
    var row := UserRow(id, input.username, input.email, hash, createdAt);
    if s.result.Success? {
      InsertKeepsTableValid(rows, row);
    }
  }

  // ---------------------------------------------------------------- login

  /** The single password check a log-in performs: against the stored hash
      when a user has the email, against the dummy hash otherwise. */
  function VerifyArgs(rows: seq<UserRow>, input: LoginInput): (a: (string, string))
    ensures (forall j | 0 <= j < |rows| :: rows[j].email != input.email) ==> a == (DummyHash, DummyPassword)
    ensures forall j | 0 <= j < |rows| && rows[j].email == input.email && Unique(rows) :: a == (rows[j].password, input.password)
  {
    match FindByEmail(rows, input.email)
    case Some(u) => (u.password, input.password)
    case None => (DummyHash, DummyPassword)
  }

  /** The session minted for `u` at `now` (seconds). */
  function SessionFor(u: UserRow, accessSecret: string, refreshSecret: string, now: int): Session
  {
    Session(SessionUser(u.id, u.username, u.email),
            Sign(AccessClaims(u.id, now), accessSecret), Sign(RefreshClaims(u.id, now), refreshSecret))
  }

  /** Log-in on table `rows`, given the verdict of the one password check. A
      rejected check propagates its error; otherwise a missing user or a
      failed check gives the one generic message. */
  function LoginOutcome(rows: seq<UserRow>, input: LoginInput, verdict: VerifyOutcome,
                        accessSecret: string, refreshSecret: string, now: int): (r: Result<Session, Error>)
    ensures verdict.Throws? ==> r == Failure(verdict.error)
    ensures !verdict.Throws? && r.Failure? ==> r.error == Error(InvalidCredentials, None)
    ensures r.Success? ==> r.value.user.email == input.email && r.value.accessToken.secret == accessSecret
                           && r.value.refreshToken.secret == refreshSecret
  {
    if verdict.Throws? then Failure(verdict.error)
    else
      match FindByEmail(rows, input.email)
      case None => Failure(Error(InvalidCredentials, None))
      case Some(u) =>
        if verdict == NoMatch then Failure(Error(InvalidCredentials, None))
        else Success(SessionFor(u, accessSecret, refreshSecret, now))
  }

  /** Log-in succeeds exactly when some user has the email and the check
      accepts the password. */
  lemma LoginSucceedsIff(rows: seq<UserRow>, input: LoginInput, verdict: VerifyOutcome,
                         accessSecret: string, refreshSecret: string, now: int)
    ensures LoginOutcome(rows, input, verdict, accessSecret, refreshSecret, now).Success?
            <==> verdict == Match && exists j | 0 <= j < |rows| :: rows[j].email == input.email
  {
    var found := FindByEmail(rows, input.email);
    if found.Some? {
      var j :| 0 <= j < |rows| && rows[j] == found.value;
    }
  }

  /** An unknown email and a wrong password are indistinguishable: both fail
      with the same error, and both ran exactly one argon2 verification. */
  lemma LoginNoEnumeration(rows: seq<UserRow>, unknown: LoginInput, known: LoginInput,
                           dummyVerdict: VerifyOutcome, accessSecret: string, refreshSecret: string, now: int)
    requires forall j | 0 <= j < |rows| :: rows[j].email != unknown.email
    requires exists j | 0 <= j < |rows| :: rows[j].email == known.email
    requires !dummyVerdict.Throws?
    ensures LoginOutcome(rows, unknown, dummyVerdict, accessSecret, refreshSecret, now)
            == LoginOutcome(rows, known, NoMatch, accessSecret, refreshSecret, now)
            == Failure(Error(InvalidCredentials, None))
  {
    assert FindByEmail(rows, known.email).Some?;
  }

  /** A successful log-in for the user holding the email (unique in a valid
      table) returns that user's id, username and email, an access token
      that verifies under the access secret for 15 minutes and then expires,
      and a refresh token that does the same under the refresh secret for 7
      days. */
  lemma LoginSession(rows: seq<UserRow>, input: LoginInput, accessSecret: string, refreshSecret: string,
                     now: int, j: nat, t: int)
    requires TableValid(rows) && j < |rows| && rows[j].email == input.email
    ensures var r := LoginOutcome(rows, input, Match, accessSecret, refreshSecret, now);
            && r.Success?
            && r.value.user == SessionUser(rows[j].id, rows[j].username, rows[j].email)
            && (Verify(Compact(r.value.accessToken), accessSecret, t).Success? <==> t < now + 900)
            && (Verify(Compact(r.value.refreshToken), refreshSecret, t).Success? <==> t < now + 604800)
            && (now <= t < now + 900 ==> Verify(Compact(r.value.accessToken), accessSecret, t).value.sub == rows[j].id)
            && (now <= t < now + 604800 ==> Verify(Compact(r.value.refreshToken), refreshSecret, t).value.sub == rows[j].id)
  {
    var found := FindByEmail(rows, input.email);
    var k :| 0 <= k < |rows| && rows[k] == found.value;
    assert k == j;
  }

  /** With distinct secrets, neither token of a session verifies in the
      place of the other. */
  lemma SessionTokensNotInterchangeable(u: UserRow, accessSecret: string, refreshSecret: string, now: int, t: int)
    requires accessSecret != refreshSecret
    ensures Verify(Compact(SessionFor(u, accessSecret, refreshSecret, now).accessToken), refreshSecret, t).Failure?
    ensures Verify(Compact(SessionFor(u, accessSecret, refreshSecret, now).refreshToken), accessSecret, t).Failure?
  {
    OtherSecretRejected(AccessClaims(u.id, now), accessSecret, refreshSecret, t);
    OtherSecretRejected(RefreshClaims(u.id, now), refreshSecret, accessSecret, t);
  }

  // ---------------------------------------------------------------- service

  class Service {
    const users: Users
    const argon: Argon2
    const jwtSecret: string
    const jwtRefreshSecret: string

    constructor (users: Users, argon: Argon2, jwtSecret: string, jwtRefreshSecret: string)
      ensures this.users == users && this.argon == argon
      ensures this.jwtSecret == jwtSecret && this.jwtRefreshSecret == jwtRefreshSecret
    {
      this.users := users;
      this.argon := argon;
      this.jwtSecret := jwtSecret;
      this.jwtRefreshSecret := jwtRefreshSecret;
    }

    /** `signup(input)`: `salt` is argon2's random salt, `id` and `createdAt`
        the column defaults, `fault` a failure of the insert. */
    method Signup(input: SignupInput, salt: nat, id: string, createdAt: nat, fault: Option<Error>)
      returns (r: Result<NewUser, Error>)
      requires users.Valid()
      modifies users, argon
      ensures users.Valid()
      ensures var s := SignupOutcome(old(users.rows), input, argon.hashOf(input.password, salt), id, createdAt, fault);
              && r == s.result && users.rows == s.rows
              && argon.calls == old(argon.calls) + (if s.hashed then [HashCall(input.password)] else [])
    {
      var existing := FindByEmailOrUsername(users.rows, input.email, input.username);
      if existing.Some? {
        var field := if existing.value.email == input.email then "Email" else "Username";
        return Failure(Error(field + " already registered", None));
      }
      var hashed := argon.Hash(input.password, salt);
      var inserted := users.Insert(input.username, input.email, hashed, id, createdAt, fault);
      match inserted
      case Success(row) =>
        return Success(NewUser(row.id, row.username, row.email, row.createdAt));
      case Failure(e) =>
        if e.code == Some(UniqueViolation) {
          return Failure(Error(RaceConflict, None));
        }
        return Failure(e);
    }

    /** `login(input)` with the clock reading `nowMs` in milliseconds. It runs
        exactly one argon2 verification, whether or not the email is known. */
    method Login(input: LoginInput, nowMs: nat) returns (r: Result<Session, Error>)
      modifies argon
      ensures var a := VerifyArgs(users.rows, input);
              && argon.calls == old(argon.calls) + [VerifyCall(a.0, a.1)]
              && r == LoginOutcome(users.rows, input, argon.check(a.0, a.1), jwtSecret, jwtRefreshSecret, Seconds(nowMs))
    {
      var user := FindByEmail(users.rows, input.email);
      var isValid: VerifyOutcome;
      if user.Some? {
        isValid := argon.Verify(user.value.password, input.password);
      } else {
        isValid := argon.Verify(DummyHash, DummyPassword);
      }
      if isValid.Throws? {
        return Failure(isValid.error);
      }
      if user.None? || isValid == NoMatch {
        return Failure(Error(InvalidCredentials, None));
      }
      var now := Seconds(nowMs);
      var accessToken := Sign(AccessClaims(user.value.id, now), jwtSecret, HS256);
      var refreshToken := Sign(RefreshClaims(user.value.id, now), jwtRefreshSecret, HS256);
      r := Success(Session(SessionUser(user.value.id, user.value.username, user.value.email), accessToken, refreshToken));
    }
  }
}
