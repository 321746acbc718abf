/** Token and password primitives of the backend (`app/core/security.py`).
    A signed JWT is modelled as its claims together with the key it was
    signed with; decoding succeeds exactly when that key is the server's key.
    bcrypt is an abstract hash: a stored hash either records the password it
    was made from or is malformed. Times are integer seconds on one clock. */
module Security {
  import opened Wrappers

  /** `ACCESS_TOKEN_EXPIRE_MINUTES` in `app/core/config.py`. */
  const AccessTokenExpireMinutes: int := 30
  const AccessTokenLifetime: int := AccessTokenExpireMinutes * 60
  /** `timedelta(days=7)` of `create_refresh_token`. */
  const RefreshTokenLifetime: int := 7 * 24 * 60 * 60

  /** The claims a token carries (a JSON object with optional members). */
  datatype Claims = Claims(
    sub: Option<string>,
    exp: Option<int>,
    iat: Option<int>,
    kind: Option<string>,
    userId: Option<int>)

  /** An HS256-signed JWT: its claims and the key that signed them. */
  datatype Jwt = Jwt(claims: Claims, signingKey: string)

  /** The stored form of a password. */
  datatype PasswordHash = Bcrypt(password: string) | Malformed(text: string)

  /** `jwt.encode(claims, key, algorithm="HS256")` */
  function Sign(claims: Claims, key: string): Jwt {
    Jwt(claims, key)
  }

  /** `jwt.decode(token, key, algorithms=[...])`: the signature must match
      and, when `verifyExp` is on, a present `exp` must not lie in the past. */
  function JoseDecode(token: Jwt, key: string, now: int, verifyExp: bool): (r: Option<Claims>)
    ensures r.Some? <==> (token.signingKey == key
      && !(verifyExp && token.claims.exp.Some? && token.claims.exp.value < now))
    ensures r.Some? ==> r.value == token.claims
  {
    if token.signingKey != key then None
    else if verifyExp && token.claims.exp.Some? && token.claims.exp.value < now then None
    else Some(token.claims)
  }

  /** `create_access_token`: a zero `expires_delta` is falsy, so it falls
      back to the configured lifetime just like a missing one. */
  function CreateAccessToken(subject: string, expiresDelta: Option<int>, now: int, key: string): (t: Jwt)
  {
    var lifetime := if expiresDelta.Some? && expiresDelta.value != 0 then expiresDelta.value else AccessTokenLifetime;
    Sign(Claims(Some(subject), Some(now + lifetime), Some(now), Some("access_token"), None), key)
  }

  /** The claims `create_access_token` writes. */
  lemma AccessTokenClaims(subject: string, expiresDelta: Option<int>, now: int, key: string)
    ensures CreateAccessToken(subject, expiresDelta, now, key).claims.sub == Some(subject)
    ensures CreateAccessToken(subject, expiresDelta, now, key).claims.kind == Some("access_token")
    ensures CreateAccessToken(subject, expiresDelta, now, key).claims.iat == Some(now)
    ensures expiresDelta.None? || expiresDelta == Some(0) ==>
      CreateAccessToken(subject, expiresDelta, now, key).claims.exp == Some(now + 30 * 60)
    ensures expiresDelta.Some? && expiresDelta.value != 0 ==>
      CreateAccessToken(subject, expiresDelta, now, key).claims.exp == Some(now + expiresDelta.value)
  {
  }

  /** `verify_token`: `None` when the token does not decode, when a truthy
      `exp` lies strictly in the past, or when `sub` is missing or empty;
      otherwise the payload unchanged. */
  function VerifyToken(token: Jwt, key: string, now: int): (r: Option<Claims>)
    ensures r.Some? <==> (token.signingKey == key
      && (token.claims.exp.None? || now <= token.claims.exp.value)
      && token.claims.sub.Some? && token.claims.sub.value != "")
    ensures r.Some? ==> r.value == token.claims
  {
    match JoseDecode(token, key, now, true)
    case None => None
    case Some(payload) =>
      if payload.exp.Some? && payload.exp.value != 0 && now > payload.exp.value then None
      else if payload.sub.None? || payload.sub.value == "" then None
      else Some(payload)
  }

  /** A token this server issued for a non-empty subject verifies at every
      instant up to and including its expiry, and at no later instant. */
  lemma IssuedTokenVerifiesUntilExpiry(subject: string, expiresDelta: Option<int>, issued: int, key: string, now: int)
    requires subject != ""
    ensures var t := CreateAccessToken(subject, expiresDelta, issued, key);
      VerifyToken(t, key, now).Some? <==> now <= t.claims.exp.value
  {
  }

  /** A token signed with another key never verifies. */
  lemma ForeignTokenRejected(token: Jwt, key: string, now: int)
    requires token.signingKey != key
    ensures VerifyToken(token, key, now) == None && DecodeToken(token, key) == None
  {
  }

  /** `decode_token`: decoding with the expiry check switched off. */
  function DecodeToken(token: Jwt, key: string): (r: Option<Claims>)
    ensures r.Some? <==> token.signingKey == key
    ensures r.Some? ==> r.value == token.claims
  {
    JoseDecode(token, key, 0, false)
  }

  /** `create_refresh_token`: seven days, type "refresh_token". */
  function CreateRefreshToken(subject: string, now: int, key: string): (t: Jwt)
  {
    Sign(Claims(Some(subject), Some(now + RefreshTokenLifetime), Some(now), Some("refresh_token"), None), key)
  }

  /** A refresh token differs from an access token of the same lifetime
      only in its type tag. */
  lemma RefreshDiffersOnlyInType(subject: string, now: int, key: string)
    ensures CreateRefreshToken(subject, now, key)
      == CreateAccessToken(subject, Some(RefreshTokenLifetime), now, key).(claims :=
           CreateAccessToken(subject, Some(RefreshTokenLifetime), now, key).claims.(kind := Some("refresh_token")))
    ensures CreateRefreshToken(subject, now, key).claims.exp == Some(now + 604800)
  {
  }

  /** Python truthiness of an optional `exp` claim. */
  predicate HasTruthyExp(c: Claims) {
    c.exp.Some? && c.exp.value != 0
  }

  /** `is_token_expired`: true when the token does not decode or has no
      (truthy) `exp`; otherwise `now > exp`. */
  function IsTokenExpired(token: Jwt, key: string, now: int): (r: bool)
    ensures !r <==> token.signingKey == key && HasTruthyExp(token.claims) && now <= token.claims.exp.value
  {
    match DecodeToken(token, key)
    case None => true
    case Some(payload) =>
      if !HasTruthyExp(payload) then true else now > payload.exp.value
  }

  /** `get_token_remaining_time`: `None` when the token does not decode or
      has no (truthy) `exp`, otherwise the time left, never below zero. */
  function GetTokenRemainingTime(token: Jwt, key: string, now: int): (r: Option<int>)
    ensures r.Some? <==> token.signingKey == key && HasTruthyExp(token.claims)
    ensures r.Some? ==> (r.value >= 0
      && (r.value > 0 <==> token.claims.exp.value > now)
      && (r.value > 0 ==> r.value == token.claims.exp.value - now))
  {
    match DecodeToken(token, key)
    case None => None
    case Some(payload) =>
      if !HasTruthyExp(payload) then None
      else if payload.exp.value > now then Some(payload.exp.value - now)
      else Some(0)
  }

  /** The two expiry views agree: time is left exactly when the token is
      not expired and has not reached its expiry instant; at the instant
      itself it is not expired yet and no time is left. */
  lemma RemainingTimeAgreesWithExpiry(token: Jwt, key: string, now: int)
    ensures GetTokenRemainingTime(token, key, now).Some? && GetTokenRemainingTime(token, key, now).value > 0
      ==> !IsTokenExpired(token, key, now)
    ensures IsTokenExpired(token, key, now) ==>
      GetTokenRemainingTime(token, key, now) == None || GetTokenRemainingTime(token, key, now) == Some(0)
  {
  }

  /** `get_password_hash` */
  function HashPassword(password: string): (h: PasswordHash)
    ensures h.Bcrypt?
  {
    Bcrypt(password)
  }

  /** `verify_password`: a malformed hash makes passlib raise, which is
      caught and reported as a mismatch. */
  function VerifyPassword(password: string, hash: PasswordHash): (ok: bool)
    ensures hash.Malformed? ==> !ok
  {
    match hash
    case Bcrypt(p) => p == password
    case Malformed(_) => false
  }

  /** A password verifies against a hash made from it, and only then. */
  lemma HashThenVerify(password: string, attempt: string)
    ensures VerifyPassword(attempt, HashPassword(password)) <==> attempt == password
  {
  }
}
