/** The administrator sign-in of `scripts/admin/auth.js`: `AuthManager`,
    which keeps the token and the user in its fields and in the browser's
    `localStorage` (kept across visits, when "remember" is ticked) and
    `sessionStorage` (this tab only), and the login form's submit handler.
    Requests to the backend are given as their outcome: the parsed body,
    or the message of the error they threw. A store maps a key to what
    was written under it; the user entry holds the user's JSON text, here
    the user value itself. */
module AdminAuth {
  import opened Wrappers
  import opened JsValues

  const TokenKey: string := "admin_token"
  const UserKey: string := "admin_user"
  const RememberKey: string := "admin_remember"
  /** `setupTokenRefresh` asks for a new token 25 minutes on, in milliseconds. */
  const RefreshDelay: int := 25 * 60 * 1000
  const InvalidLogin: string := "Respuesta de login inválida"
  const LoginError: string := "Error al iniciar sesión"
  const MissingFields: string := "Por favor completa todos los campos"
  const LoginAccepted: string := "¡Acceso correcto! Redirigiendo..."
  const BadCredentials: string := "Credenciales incorrectas"

  /** The fields of an `AuthManager` and the two stores; `refreshAt` is
      when the pending refresh timer fires, if one is pending. */
  datatype Session = Session(token: JsValue, user: JsValue, refreshAt: Option<int>,
                             local: map<string, JsValue>, session: map<string, JsValue>)

  /** `getItem(key)`: `null` for a key never written. */
  function Item(store: map<string, JsValue>, key: string): JsValue {
    if key in store then store[key] else Null
  }

  /** `getStoredToken()`: the token in `localStorage` when it is truthy,
      else whatever `sessionStorage` holds. */
  function StoredToken(s: Session): JsValue {
    Or(Item(s.local, TokenKey), Item(s.session, TokenKey))
  }

  /** The token found on the next visit comes from one of the stores, and
      from `localStorage` whenever that one holds a truthy token. */
  lemma StoredTokenSources(s: Session)
    ensures StoredToken(s) == Item(s.local, TokenKey) || StoredToken(s) == Item(s.session, TokenKey)
    ensures Truthy(Item(s.local, TokenKey)) ==> StoredToken(s) == Item(s.local, TokenKey)
    ensures !Truthy(Item(s.local, TokenKey)) ==> StoredToken(s) == Item(s.session, TokenKey)
  {
  }

  /** After `clearStorage()` no token is found and nobody is signed in. */
  lemma ClearSignsOut(s: Session)
    ensures StoredToken(Clear(s)) == Null && !IsAuthenticated(Clear(s)) && !Truthy(IsAdmin(Clear(s)))
  {
  }

  /** `storeToken(token, remember)` */
  function TokenStored(s: Session, token: JsValue, remember: bool): (r: Session)
    ensures r.token == token && r.user == s.user && r.refreshAt == s.refreshAt
    ensures remember ==> r.local == s.local[TokenKey := token][RememberKey := Str("true")] && r.session == s.session
    ensures !remember ==> r.session == s.session[TokenKey := token] && r.local == s.local
  {
    if remember then s.(local := s.local[TokenKey := token][RememberKey := Str("true")], token := token)
    else s.(session := s.session[TokenKey := token], token := token)
  }

  /** `storeUser(user, remember)` */
  function UserStored(s: Session, user: JsValue, remember: bool): (r: Session)
    ensures r.user == user && r.token == s.token && r.refreshAt == s.refreshAt
    ensures remember ==> r.local == s.local[UserKey := user] && r.session == s.session
    ensures !remember ==> r.session == s.session[UserKey := user] && r.local == s.local
  {
    if remember then s.(local := s.local[UserKey := user], user := user)
    else s.(session := s.session[UserKey := user], user := user)
  }

  /** `clearStorage()`: the token, the user and the remember flag go from
      both stores, and both fields are nulled; a pending refresh stays. */
  function Clear(s: Session): (r: Session)
    ensures r.token == Null && r.user == Null && r.refreshAt == s.refreshAt
    ensures TokenKey !in r.local && UserKey !in r.local && RememberKey !in r.local
    ensures TokenKey !in r.session && UserKey !in r.session
    ensures forall k :: k !in {TokenKey, UserKey, RememberKey} ==> (k in r.local <==> k in s.local)
    ensures forall k :: k !in {TokenKey, UserKey} ==> (k in r.session <==> k in s.session)
  {
    Session(Null, Null, s.refreshAt, s.local - {TokenKey, UserKey, RememberKey}, s.session - {TokenKey, UserKey})
  }

  /** `setupTokenRefresh()`: any pending timer is cancelled and one set for
      `RefreshDelay` from `now`. */
  function SetupRefresh(s: Session, now: int): (r: Session)
    ensures r == s.(refreshAt := Some(now + RefreshDelay))
  {
    s.(refreshAt := Some(now + RefreshDelay))
  }

  /** `localStorage` says the session is to be remembered. */
  predicate Remembered(s: Session) {
    Item(s.local, RememberKey) == Str("true")
  }

  /** `isAuthenticated()` */
  predicate IsAuthenticated(s: Session) {
    Truthy(s.token) && Truthy(s.user)
  }

  /** `isAdmin()`: the user when falsy, else its `is_superuser || is_admin`. */
  function IsAdmin(s: Session): JsValue {
    if !Truthy(s.user) then s.user else Or(Get(s.user, "is_superuser"), Get(s.user, "is_admin"))
  }

  /** `isAdmin()` is truthy exactly when there is a user that is a
      superuser or an administrator. */
  lemma IsAdminIff(s: Session)
    ensures Truthy(IsAdmin(s)) <==>
      Truthy(s.user) && (Truthy(Get(s.user, "is_superuser")) || Truthy(Get(s.user, "is_admin")))
  {
  }

  /** What `login` resolves to. */
  datatype LoginResult = LoginOk(user: JsValue, token: JsValue) | LoginFailed(error: string)

  /** `login(username, password, remember)` once the request to the login
      endpoint gave `response`: a body with a truthy `access_token` and
      `user` is stored and answered as success; any other outcome is a
      failure with the error's message, or the default one, and nothing
      stored. A `null` or `undefined` body cannot be read, and the failure
      carries that TypeError's message. */
  function LoginOutcome(s: Session, response: Result<JsValue, string>, remember: bool, now: int): (out: (LoginResult, Session))
  {
    match response
    case Err(message) => (LoginFailed(if message != "" then message else LoginError), s)
    case Ok(body) =>
      if body.Null? || body.Undefined? then (LoginFailed(Unreadable(body, "access_token")), s)
      else
        var token := Get(body, "access_token");
        var user := Get(body, "user");
        if Truthy(token) && Truthy(user) then
          (LoginOk(user, token), SetupRefresh(UserStored(TokenStored(s, token, remember), user, remember), now))
        else (LoginFailed(InvalidLogin), s)
  }

  /** `login` succeeds exactly when the body carries both a token and a
      user; it then leaves an authenticated manager holding them and a
      refresh due in 25 minutes, and otherwise changes nothing and reports
      a non-empty error. */
  lemma LoginShape(s: Session, response: Result<JsValue, string>, remember: bool, now: int)
    ensures var (result, after) := LoginOutcome(s, response, remember, now);
      (result.LoginOk? <==> response.Ok? && Truthy(Get(response.value, "access_token")) && Truthy(Get(response.value, "user"))) &&
      (result.LoginOk? ==> IsAuthenticated(after) && after.token == result.token && after.user == result.user &&
                           after.refreshAt == Some(now + RefreshDelay)) &&
      (result.LoginFailed? ==> after == s && result.error != "") &&
      (response.Ok? && (response.value.Null? || response.value.Undefined?) ==>
         result == LoginFailed(Unreadable(response.value, "access_token")))
  {
    assert LoginError != "" && InvalidLogin != "";
  }

  /** After a remembered login the next visit finds the new token. After
      one for this tab only, a truthy token left in `localStorage` wins, so
      the new token is found exactly when there is none there or it is the
      same token. */
  lemma LoginReadBack(s: Session, response: Result<JsValue, string>, remember: bool, now: int)
    requires LoginOutcome(s, response, remember, now).0.LoginOk?
    ensures var (result, after) := LoginOutcome(s, response, remember, now);
      (remember ==> StoredToken(after) == result.token)
      && (!remember ==>
            StoredToken(after) == if Truthy(Item(s.local, TokenKey)) then Item(s.local, TokenKey) else result.token)
      && (!remember ==>
            (StoredToken(after) == result.token
             <==> !Truthy(Item(s.local, TokenKey)) || Item(s.local, TokenKey) == result.token))
  {
  }

  /** `getCurrentUser()` once the request to `/auth/me` gave `response`:
      the answer becomes the user and is stored where the remember flag
      says; a failed request changes nothing. */
  function CurrentUser(s: Session, response: Result<JsValue, string>): (r: Session)
    ensures response.Err? ==> r == s
    ensures response.Ok? ==> r.user == response.value && r.token == s.token
  {
    match response
    case Err(_) => s
    case Ok(user) => UserStored(s.(user := user), user, Remembered(s))
  }

  /** `verifyToken()`: without a token, false and nothing asked; a body
      with a truthy `valid` keeps the session (fetching the user when
      there is none) and re-arms the refresh; anything else clears the
      session. */
  function Verify(s: Session, response: Result<JsValue, string>, meResponse: Result<JsValue, string>, now: int): (out: (bool, Session))
  {
    if !Truthy(s.token) then (false, s)
    else if response.Ok? && Truthy(Get(response.value, "valid")) then
      var withUser := if !Truthy(s.user) then CurrentUser(s, meResponse) else s;
      (true, SetupRefresh(withUser, now))
    else (false, Clear(s))
  }

  /** `verifyToken` answers true exactly when there is a token and the
      backend calls it valid; a false answer with a token clears the
      session, and a true one keeps the token. */
  lemma VerifyOutcome(s: Session, response: Result<JsValue, string>, meResponse: Result<JsValue, string>, now: int)
    ensures var (ok, after) := Verify(s, response, meResponse, now);
      (ok <==> Truthy(s.token) && response.Ok? && Truthy(Get(response.value, "valid"))) &&
      (!Truthy(s.token) ==> after == s) &&
      (Truthy(s.token) && !ok ==> after == Clear(s) && !IsAuthenticated(after)) &&
      (ok ==> after.token == s.token && after.refreshAt == Some(now + RefreshDelay))
  {
  }

  /** `logout()`: the pending refresh is cancelled and the session
      cleared (the redirect to the login page is not modelled). */
  function LoggedOut(s: Session): (r: Session)
    ensures !IsAuthenticated(r) && r.refreshAt == None && StoredToken(r) == Null
  {
    Clear(s).(refreshAt := None)
  }

  /** `refreshToken()`: without a token, false; a new `access_token` is
      stored where the remember flag says and the timer re-armed; a body
      without one changes nothing; a failed request, or a `null` or
      `undefined` body whose token cannot be read, logs out. */
  function Refresh(s: Session, response: Result<JsValue, string>, now: int): (out: (bool, Session))
  {
    if !Truthy(s.token) then (false, s)
    else match response
      case Err(_) => (false, LoggedOut(s))
      case Ok(body) =>
        if body.Null? || body.Undefined? then (false, LoggedOut(s))
        else if Truthy(Get(body, "access_token")) then
          (true, SetupRefresh(TokenStored(s, Get(body, "access_token"), Remembered(s)), now))
        else (false, s)
  }

  /** A refresh keeps the user and the remember choice: a remembered
      session gets its new token in `localStorage`, a tab-only one in
      `sessionStorage`. */
  lemma RefreshKeepsChoice(s: Session, response: Result<JsValue, string>, now: int)
    requires Refresh(s, response, now).0
    ensures var after := Refresh(s, response, now).1;
      after.user == s.user && after.token == Get(response.value, "access_token") &&
      (Remembered(s) ==> Item(after.local, TokenKey) == after.token) &&
      (!Remembered(s) ==> Item(after.session, TokenKey) == after.token && after.local == s.local)
  {
  }

  /** With a token, a failed refresh request or an unreadable body logs
      out, a body without a token keeps the session as it was, and the
      answer is true exactly when a new token arrived. */
  lemma RefreshOutcome(s: Session, response: Result<JsValue, string>, now: int)
    requires Truthy(s.token)
    ensures var (ok, after) := Refresh(s, response, now);
      (ok <==> response.Ok? && !response.value.Null? && !response.value.Undefined?
               && Truthy(Get(response.value, "access_token"))) &&
      (response.Err? || response.value.Null? || response.value.Undefined? ==>
         after == LoggedOut(s) && !IsAuthenticated(after)) &&
      ((response.Ok? && !Truthy(Get(response.value, "access_token"))
        && !response.value.Null? && !response.value.Undefined?) ==> after == s)
  {
  }

  /** `init()`: a stored token is taken up and verified. */
  function Initialized(s: Session, verifyResponse: Result<JsValue, string>, meResponse: Result<JsValue, string>, now: int): (r: Session)
    ensures !Truthy(StoredToken(s)) ==> r == s
  {
    var saved := StoredToken(s);
    if Truthy(saved) then Verify(s.(token := saved), verifyResponse, meResponse, now).1 else s
  }

  /** What the login form shows after a submit. */
  function SubmitMessage(username: Option<string>, password: Option<string>, rememberField: Option<string>,
                         s: Session, response: Result<JsValue, string>, now: int): (out: (string, Session))
  {
    if username.None? || username.value == "" || password.None? || password.value == "" then (MissingFields, s)
    else
      var (result, after) := LoginOutcome(s, response, rememberField == Some("on"), now);
      match result
      case LoginOk(_, _) => (LoginAccepted, after)
      case LoginFailed(error) => (if error != "" then error else BadCredentials, after)
  }

  /** A blank user name or password stops the submit before any request:
      the message asks for both and nothing changes. Otherwise the login
      runs, and the message is the acceptance on success and the login's
      own error on failure, which is never empty, so the form's default
      text is never shown. */
  lemma SubmitNeedsBoth(username: Option<string>, password: Option<string>, rememberField: Option<string>,
                        s: Session, response: Result<JsValue, string>, now: int)
    ensures var (message, after) := SubmitMessage(username, password, rememberField, s, response, now);
      ((username.None? || username.value == "" || password.None? || password.value == "") ==>
        message == MissingFields && after == s) &&
      (username.Some? && username.value != "" && password.Some? && password.value != "" ==>
        var (result, loggedIn) := LoginOutcome(s, response, rememberField == Some("on"), now);
        after == loggedIn &&
        (result.LoginOk? ==> message == LoginAccepted) &&
        (result.LoginFailed? ==> message == result.error && message != ""))
  {
    LoginShape(s, response, rememberField == Some("on"), now);
  }

  /** The `AuthManager` object with the two stores it writes to. */
  class AuthManager {
    var token: JsValue
    var user: JsValue
    var refreshAt: Option<int>
    var local: map<string, JsValue>
    var session: map<string, JsValue>

    function State(): Session
      reads this
    {
      Session(token, user, refreshAt, local, session)
    }

    /** `new AuthManager()` before `init()`, on a browser with these stores. */
    constructor (local0: map<string, JsValue>, session0: map<string, JsValue>)
      ensures State() == Session(Null, Null, None, local0, session0)
    {
      token := Null;
      user := Null;
      refreshAt := None;
      local := local0;
      session := session0;
    }

    method GetStoredToken() returns (t: JsValue)
      ensures t == StoredToken(State())
    {
      var fromLocal := if TokenKey in local then local[TokenKey] else Null;
      if Truthy(fromLocal) {
        return fromLocal;
      }
      t := if TokenKey in session then session[TokenKey] else Null;
    }

    method StoreToken(t: JsValue, remember: bool)
      modifies this
      ensures State() == TokenStored(old(State()), t, remember)
    {
      if remember {
        local := local[TokenKey := t][RememberKey := Str("true")];
      } else {
        session := session[TokenKey := t];
      }
      token := t;
    }

    method StoreUser(u: JsValue, remember: bool)
      modifies this
      ensures State() == UserStored(old(State()), u, remember)
    {
      if remember {
        local := local[UserKey := u];
      } else {
        session := session[UserKey := u];
      }
      user := u;
    }

    method ClearStorage()
      modifies this
      ensures State() == Clear(old(State()))
    {
      local := local - {TokenKey, UserKey, RememberKey};
      session := session - {TokenKey, UserKey};
      token := Null;
      user := Null;
    }

    method SetupTokenRefresh(now: int)
      modifies this
      ensures State() == SetupRefresh(old(State()), now)
    {
      refreshAt := Some(now + RefreshDelay);
    }

    method Login(response: Result<JsValue, string>, remember: bool, now: int) returns (result: LoginResult)
      modifies this
      ensures (result, State()) == LoginOutcome(old(State()), response, remember, now)
    {
      if response.Err? {
        return LoginFailed(if response.error != "" then response.error else LoginError);
      }
      if response.value.Null? || response.value.Undefined? {
        return LoginFailed(Unreadable(response.value, "access_token"));
      }
      var t := Get(response.value, "access_token");
      var u := Get(response.value, "user");
      if !(Truthy(t) && Truthy(u)) {
        return LoginFailed(InvalidLogin);
      }
      StoreToken(t, remember);
      StoreUser(u, remember);
      SetupTokenRefresh(now);
      result := LoginOk(u, t);
    }

    method GetCurrentUser(response: Result<JsValue, string>)
      modifies this
      ensures State() == CurrentUser(old(State()), response)
    {
      if response.Err? {
        return;
      }
      user := response.value;
      var remember := Item(local, RememberKey) == Str("true");
      StoreUser(response.value, remember);
    }

    method VerifyToken(response: Result<JsValue, string>, meResponse: Result<JsValue, string>, now: int) returns (ok: bool)
      modifies this
      ensures (ok, State()) == Verify(old(State()), response, meResponse, now)
    {
      if !Truthy(token) {
        return false;
      }
      if response.Ok? && Truthy(Get(response.value, "valid")) {
        if !Truthy(user) {
          GetCurrentUser(meResponse);
        }
        SetupTokenRefresh(now);
        return true;
      }
      ClearStorage();
      ok := false;
    }

    method Logout()
      modifies this
      ensures State() == LoggedOut(old(State()))
    {
      refreshAt := None;
      ClearStorage();
    }

    method RefreshToken(response: Result<JsValue, string>, now: int) returns (ok: bool)
      modifies this
      ensures (ok, State()) == Refresh(old(State()), response, now)
    {
      if !Truthy(token) {
        return false;
      }
      if response.Err? || response.value.Null? || response.value.Undefined? {
        Logout();
        return false;
      }
      if Truthy(Get(response.value, "access_token")) {
        var remember := Item(local, RememberKey) == Str("true");
        StoreToken(Get(response.value, "access_token"), remember);
        SetupTokenRefresh(now);
        return true;
      }
      ok := false;
    }

    method Init(verifyResponse: Result<JsValue, string>, meResponse: Result<JsValue, string>, now: int)
      modifies this
      ensures State() == Initialized(old(State()), verifyResponse, meResponse, now)
    {
      var saved := GetStoredToken();
      if Truthy(saved) {
        token := saved;
        var _ := VerifyToken(verifyResponse, meResponse, now);
      }
    }

    /** `handleLoginSubmit(event)` with the form's three fields. */
    method HandleLoginSubmit(username: Option<string>, password: Option<string>, rememberField: Option<string>,
                             response: Result<JsValue, string>, now: int)
      returns (message: string)
      modifies this
      ensures (message, State()) == SubmitMessage(username, password, rememberField, old(State()), response, now)
    {
      if username.None? || username.value == "" || password.None? || password.value == "" {
        return MissingFields;
      }
      var result := Login(response, rememberField == Some("on"), now);
      if result.LoginOk? {
        message := LoginAccepted;
      } else {
        message := if result.error != "" then result.error else BadCredentials;
      }
    }
  }
}
