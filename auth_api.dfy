/** The authentication routes of `app/api/v1/auth.py`, reduced to their
    decisions: which status a request ends with and what it returns. */
module AuthApi {
  import opened Wrappers
  import opened Security
  import opened Http
  import opened UserSchemas
  import opened AuthGate
  import opened AuthService

  const BadCredentials: string := "Usuario o contraseña incorrectos"

  /** The body of `/verify-token`. */
  datatype VerifyResponse = VerifyResponse(valid: bool, userId: int, username: string, email: string, isSuperuser: bool, isActive: bool)

  /** The OAuth2 password form. */
  datatype PasswordForm = PasswordForm(username: string, password: string)

  /** `login_json`: the identifier is matched against username or email; an
      unknown user and a wrong password give the same 401; an inactive user
      who knows the password gets 400; otherwise a 30-minute token whose
      subject is the stored username. */
  function LoginJson(users: seq<UserRow>, credentials: UserLogin, key: string, now: int): (r: Result<TokenResponse, HttpError>)
    ensures var found := FindByLogin(users, credentials.username);
      && (r.Ok? <==> found.Some? && VerifyPassword(credentials.password, found.value.hashedPassword) && found.value.isActive)
      && (r.Err? ==> r.error == HttpError(Unauthorized, BadCredentials) || r.error == HttpError(BadRequest, "Usuario inactivo"))
      && (r.Err? && r.error.status == BadRequest <==>
            found.Some? && VerifyPassword(credentials.password, found.value.hashedPassword) && !found.value.isActive)
      && (r.Ok? ==> (r.value.tokenType == "bearer" && r.value.user == ToUserOut(found.value)
            && r.value.accessToken.claims.sub == Some(found.value.username)
            && r.value.accessToken.claims.exp == Some(now + AccessTokenLifetime)))
  {
    match FindByLogin(users, credentials.username)
    case None => Err(HttpError(Unauthorized, BadCredentials))
    case Some(user) =>
      if !VerifyPassword(credentials.password, user.hashedPassword) then Err(HttpError(Unauthorized, BadCredentials))
      else if !user.isActive then Err(HttpError(BadRequest, "Usuario inactivo"))
      else
        var token := CreateAccessToken(user.username, Some(AccessTokenLifetime), now, key);
        Ok(NewTokenResponse(token, ToUserOut(user)))
  }

  /** `login_oauth2` repeats the same checks on the form's fields. */
  function LoginOAuth2(users: seq<UserRow>, form: PasswordForm, key: string, now: int): (r: Result<TokenResponse, HttpError>)
    ensures r == LoginJson(users, UserLogin(form.username, form.password), key, now)
  {
    match FindByLogin(users, form.username)
    case None => Err(HttpError(Unauthorized, BadCredentials))
    case Some(user) =>
      if !VerifyPassword(form.password, user.hashedPassword) then Err(HttpError(Unauthorized, BadCredentials))
      else if !user.isActive then Err(HttpError(BadRequest, "Usuario inactivo"))
      else Ok(NewTokenResponse(CreateAccessToken(user.username, Some(AccessTokenLifetime), now, key), ToUserOut(user)))
  }

  /** Logging in with the e-mail address still issues a token for the
      username, and that token passes the request gate as that user for the
      next 30 minutes (when usernames are unique). An empty username is the
      exception: the login succeeds but the token has no usable subject. */
  lemma {:induction false} LoginTokenPassesGate(users: seq<UserRow>, credentials: UserLogin, key: string, now: int, later: int)
    requires LoginJson(users, credentials, key, now).Ok?
    requires now <= later <= now + AccessTokenLifetime
    requires forall i, j :: 0 <= i < |users| && 0 <= j < |users| && users[i].username == users[j].username ==> i == j
    requires FindByLogin(users, credentials.username).value.username != ""
    ensures var user := FindByLogin(users, credentials.username).value;
      GetCurrentUser(Some(LoginJson(users, credentials, key, now).value.accessToken), users, key, later) == Ok(user)
  {
    var user := FindByLogin(users, credentials.username).value;
    var token := LoginJson(users, credentials, key, now).value.accessToken;
    var k :| 0 <= k < |users| && users[k] == user;
    var found := FindByUsername(users, user.username);
    assert found.Some?;
    var j :| 0 <= j < |users| && users[j] == found.value;
    assert j == k;
  }

  /** A wrong password on an inactive account is reported as bad
      credentials, not as an inactive account. */
  lemma WrongPasswordBeatsInactive(users: seq<UserRow>, credentials: UserLogin, key: string, now: int)
    requires FindByLogin(users, credentials.username).Some?
    requires !FindByLogin(users, credentials.username).value.isActive
    requires !VerifyPassword(credentials.password, FindByLogin(users, credentials.username).value.hashedPassword)
    ensures LoginJson(users, credentials, key, now) == Err(HttpError(Unauthorized, BadCredentials))
  {
  }

  /** `/me`: the outward view of the current user. */
  function CurrentUserInfo(current: Result<UserRow, HttpError>): (r: Result<UserOut, HttpError>)
    ensures r.Ok? <==> current.Ok? && current.value.isActive
    ensures r.Ok? ==> r.value == ToUserOut(current.value)
    ensures current.Err? ==> r == Err(current.error)
    ensures current.Ok? && !current.value.isActive ==> r.Err? && r.error.status == BadRequest
  {
    match GetCurrentActiveUser(current)
    case Err(e) => Err(e)
    case Ok(user) => Ok(ToUserOut(user))
  }

  /** `/verify-token` */
  function VerifyTokenRoute(current: Result<UserRow, HttpError>): (r: Result<VerifyResponse, HttpError>)
    ensures r.Ok? <==> current.Ok? && current.value.isActive
    ensures r.Ok? ==> (r.value.valid && r.value.username == current.value.username
      && r.value.isSuperuser == current.value.isSuperuser && r.value.isActive
      && r.value.userId == current.value.id && r.value.email == current.value.email)
  {
    match GetCurrentActiveUser(current)
    case Err(e) => Err(e)
    case Ok(user) => Ok(VerifyResponse(true, user.id, user.username, user.email, user.isSuperuser, user.isActive))
  }

  /** `/refresh`: a fresh 30-minute token for the current user. */
  function RefreshToken(current: Result<UserRow, HttpError>, key: string, now: int): (r: Result<TokenResponse, HttpError>)
    ensures r.Ok? <==> current.Ok? && current.value.isActive
    ensures r.Ok? ==> (r.value.accessToken.claims.sub == Some(current.value.username)
      && r.value.accessToken.claims.exp == Some(now + AccessTokenLifetime)
      && r.value.tokenType == "bearer" && r.value.user == ToUserOut(current.value))
  {
    match GetCurrentActiveUser(current)
    case Err(e) => Err(e)
    case Ok(user) => Ok(NewTokenResponse(CreateAccessToken(user.username, Some(AccessTokenLifetime), now, key), ToUserOut(user)))
  }

  /** `/logout`: a message and nothing else. The route takes no table and
      returns none, so no token is revoked. */
  function Logout(current: Result<UserRow, HttpError>): (r: Result<string, HttpError>)
    ensures r.Ok? <==> current.Ok? && current.value.isActive
    ensures current.Err? ==> r == Err(current.error)
  {
    match GetCurrentActiveUser(current)
    case Err(e) => Err(e)
    case Ok(_) => Ok("Logout exitoso")
  }

  /** A token that passed the gate before logout still passes it afterwards. */
  lemma TokenSurvivesLogout(token: Jwt, users: seq<UserRow>, key: string, now: int, later: int)
    requires Logout(GetCurrentUser(Some(token), users, key, now)).Ok?
    requires token.claims.exp.Some? ==> later <= token.claims.exp.value
    ensures GetCurrentUser(Some(token), users, key, later) == GetCurrentUser(Some(token), users, key, now)
  {
  }

  /** `register`: duplicate username, then duplicate email, gives 400 and
      writes nothing; otherwise the row stores the password's hash, the
      requested `is_active`, and is never a superuser. */
  method Register(table: UserTable, data: UserCreate, now: int) returns (r: Result<UserOut, HttpError>)
    requires table.Valid()
    modifies table
    ensures table.Valid()
    ensures UsernameTaken(old(table.users), data.base.username) ==>
      r == Err(HttpError(BadRequest, "El nombre de usuario ya existe")) && table.users == old(table.users)
    ensures !UsernameTaken(old(table.users), data.base.username) && EmailTaken(old(table.users), data.base.email) ==>
      r == Err(HttpError(BadRequest, "El email ya está registrado")) && table.users == old(table.users)
    ensures !UsernameTaken(old(table.users), data.base.username) && !EmailTaken(old(table.users), data.base.email) ==>
      r.Ok? && table.users == old(table.users) + [NewUserRow(old(table.nextId), data, data.base.isActive, now)]
      && r.value == ToUserOut(NewUserRow(old(table.nextId), data, data.base.isActive, now))
  {
    if UsernameTaken(table.users, data.base.username) {
      return Err(HttpError(BadRequest, "El nombre de usuario ya existe"));
    }
    if EmailTaken(table.users, data.base.email) {
      return Err(HttpError(BadRequest, "El email ya está registrado"));
    }
    var row := table.Insert(data, data.base.isActive, now);
    r := Ok(ToUserOut(row));
  }
}
