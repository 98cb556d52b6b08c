/** JSON Web Tokens as the server uses them (`sign` and `verify` of hono/jwt):
    a claims set (section 4.1 of RFC 7519: `sub`, `iat`, `exp`, plus the
    private `role`) signed with HMAC SHA-256 (section 3.2 of RFC 7518).
    The MAC is left symbolic: a signed token is its claims tagged with the
    secret that signed them, and it verifies under a secret exactly when
    that is the secret it was signed with. */
module Jwt {
  import opened Wrappers

  datatype Alg = HS256

  /** `role` is present on access tokens only. Times are in whole seconds. */
  datatype Claims = Claims(sub: string, role: Option<string>, iat: int, exp: int)

  datatype Token = Token(claims: Claims, secret: string, alg: Alg)

  /** `sign(claims, secret, alg)`; hono's default algorithm is HS256. */
  function Sign(claims: Claims, secret: string, alg: Alg := HS256): (t: Token)
    ensures t.claims == claims && t.secret == secret && t.alg == alg
  {
    Token(claims, secret, alg)
  }

  /** A value presented by a client where a token is expected: arbitrary text,
      or the compact serialisation of a signed token (never empty). */
  datatype Presented = Text(text: string) | Compact(token: Token)

  /** `!value` in JavaScript: only the empty text is falsy. */
  predicate Falsy(v: Presented)
  {
    v.Text? && v.text == ""
  }

  datatype VerifyError = Malformed | AlgorithmMismatch | Expired | SignatureMismatched

  /** `verify(value, secret, "HS256")` at time `now`: the token must parse, use
      HS256, carry an `exp` later than `now`, and carry a valid signature. */
  function Verify(v: Presented, secret: string, now: int): (r: Result<Claims, VerifyError>)
    ensures r.Success? <==> v.Compact? && v.token.secret == secret && now < v.token.claims.exp
    ensures r.Success? ==> r.value == v.token.claims
  {
    match v
    case Text(_) => Failure(Malformed)
    case Compact(t) =>
      if t.alg != HS256 then Failure(AlgorithmMismatch)
      else if t.claims.exp <= now then Failure(Expired)
      else if t.secret != secret then Failure(SignatureMismatched)
      else Success(t.claims)
  }

  /** A token verifies, before it expires, under the secret that signed it,
      and yields the claims it was signed with. */
  lemma SignThenVerify(claims: Claims, secret: string, now: int)
    requires now < claims.exp
    ensures Verify(Compact(Sign(claims, secret)), secret, now) == Success(claims)
  {
  }

  /** A token signed with one secret never verifies under another. */
  lemma OtherSecretRejected(claims: Claims, signedWith: string, checkedWith: string, now: int)
    requires signedWith != checkedWith
    ensures Verify(Compact(Sign(claims, signedWith)), checkedWith, now).Failure?
  {
  }

  /** From `exp` on, a token is rejected whatever its signature. */
  lemma ExpiredRejected(t: Token, secret: string, now: int)
    requires t.claims.exp <= now
    ensures Verify(Compact(t), secret, now) == Failure(Expired)
  {
  }
}
