/** `AuthService` (`app/services/auth_service.py`): login checks, token
    helpers, and the user table it inserts into and updates. */
module AuthService {
  import opened Wrappers
  import opened Security
  import opened Http
  import opened UserSchemas

  /** What the service's `verify_token` returns. */
  datatype Identity = Identity(username: string, userId: Option<int>)

  /** The login lookup `(username == x) | (email == x)` with `.first()`. */
  function FindByLogin(users: seq<UserRow>, identifier: string): (r: Option<UserRow>)
    ensures r.Some? ==> r.value in users && (r.value.username == identifier || r.value.email == identifier)
    ensures r.None? <==> forall k :: 0 <= k < |users| ==> users[k].username != identifier && users[k].email != identifier
  {
    if users == [] then None
    else if users[0].username == identifier || users[0].email == identifier then Some(users[0])
    else FindByLogin(users[1..], identifier)
  }

  predicate UsernameTaken(users: seq<UserRow>, username: string) {
    exists k :: 0 <= k < |users| && users[k].username == username
  }

  predicate EmailTaken(users: seq<UserRow>, email: string) {
    exists k :: 0 <= k < |users| && users[k].email == email
  }

  /** `AuthService.verify_password`: unlike the module-level helper it does
      not catch passlib's error, so a malformed hash fails the request. */
  function ServiceVerifyPassword(password: string, hash: PasswordHash): (r: Result<bool, HttpError>)
    ensures r.Err? <==> hash.Malformed?
    ensures r.Ok? ==> r.value == VerifyPassword(password, hash)
  {
    match hash
    case Malformed(_) => Err(HttpError(InternalError, "malformed password hash"))
    case Bcrypt(_) => Ok(VerifyPassword(password, hash))
  }

  /** `authenticate_user`: the user found by username or email, provided
      the password verifies and the user is active; `None` otherwise. */
  function AuthenticateUser(users: seq<UserRow>, identifier: string, password: string): (r: Result<Option<UserRow>, HttpError>)
    ensures r.Ok? && r.value.Some? <==> (FindByLogin(users, identifier).Some?
      && FindByLogin(users, identifier).value.hashedPassword.Bcrypt?
      && VerifyPassword(password, FindByLogin(users, identifier).value.hashedPassword)
      && FindByLogin(users, identifier).value.isActive)
    ensures r.Ok? && r.value.Some? ==> r.value.value == FindByLogin(users, identifier).value
    ensures r.Err? ==> FindByLogin(users, identifier).Some? && FindByLogin(users, identifier).value.hashedPassword.Malformed?
  {
    match FindByLogin(users, identifier)
    case None => Ok(None)
    case Some(user) =>
      match ServiceVerifyPassword(password, user.hashedPassword)
      case Err(e) => Err(e)
      case Ok(matches) =>
        if !matches then Ok(None)
        else if !user.isActive then Ok(None)
        else Ok(Some(user))
  }

  /** `AuthService.create_access_token`: the caller's claims, copied, with
      `exp` set to now plus the delta or the configured lifetime. A zero
      `timedelta` is falsy and counts as no delta. */
  function ServiceCreateAccessToken(data: Claims, expiresDelta: Option<int>, now: int, key: string): (t: Jwt)
    ensures t.claims.(exp := data.exp) == data
    ensures t.signingKey == key
    ensures expiresDelta.None? || expiresDelta == Some(0) ==> t.claims.exp == Some(now + AccessTokenLifetime)
    ensures expiresDelta.Some? && expiresDelta.value != 0 ==> t.claims.exp == Some(now + expiresDelta.value)
    ensures t.claims.exp.Some? && t.claims.exp.value > now <==> !(expiresDelta.Some? && expiresDelta.value < 0)
  {
    var lifetime := if expiresDelta.Some? && expiresDelta.value != 0 then expiresDelta.value else AccessTokenLifetime;
    Sign(data.(exp := Some(now + lifetime)), key)
  }

  /** `AuthService.verify_token`: the username and user id of a token that
      decodes and has a `sub` claim. */
  function ServiceVerifyToken(token: Jwt, key: string, now: int): (r: Option<Identity>)
    ensures r.Some? <==> JoseDecode(token, key, now, true).Some? && token.claims.sub.Some?
    ensures r.Some? ==> r.value == Identity(token.claims.sub.value, token.claims.userId)
  {
    match JoseDecode(token, key, now, true)
    case None => None
    case Some(payload) =>
      if payload.sub.None? then None
      else Some(Identity(payload.sub.value, payload.userId))
  }

  /** A token made by the service's `create_access_token` from claims with
      a subject gives that subject and the claims' user id back at every
      instant up to its expiry, and nothing after it, whatever the delta. */
  lemma ServiceTokenRoundTrip(data: Claims, username: string, expiresDelta: Option<int>, now: int, key: string, later: int)
    requires data.sub == Some(username)
    ensures var t := ServiceCreateAccessToken(data, expiresDelta, now, key);
      ServiceVerifyToken(t, key, later)
      == if later <= t.claims.exp.value then Some(Identity(username, data.userId)) else None
  {
  }

  /** `get_user_by_id` */
  function FindById(users: seq<UserRow>, id: int): (r: Option<UserRow>)
    ensures r.Some? ==> r.value in users && r.value.id == id
    ensures r.None? <==> forall k :: 0 <= k < |users| ==> users[k].id != id
  {
    if users == [] then None
    else if users[0].id == id then Some(users[0])
    else FindById(users[1..], id)
  }

  /** The row inserted for a new user: the hash of the password, never a
      superuser. */
  function NewUserRow(id: int, data: UserCreate, active: bool, now: int): (row: UserRow)
    ensures forall attempt :: VerifyPassword(attempt, row.hashedPassword) <==> attempt == data.password
    ensures !row.isSuperuser && row.isActive == active
    ensures row.username == data.base.username && row.email == data.base.email
  {
    UserRow(id, data.base.username, data.base.email, data.base.fullName, HashPassword(data.password), active, false, now, None)
  }

  /** The users table. */
  class UserTable {
    var users: seq<UserRow>
    var nextId: int

    /** Every stored id is below the next one to hand out. */
    ghost predicate Valid()
      reads this
    {
      forall k :: 0 <= k < |users| ==> users[k].id < nextId
    }

    constructor ()
      ensures Valid() && users == [] && nextId == 1
    {
      users := [];
      nextId := 1;
    }

    /** `db.add(row); db.commit()` with a fresh id. */
    method Insert(data: UserCreate, active: bool, now: int) returns (row: UserRow)
      requires Valid()
      modifies this
      ensures Valid()
      ensures row == NewUserRow(old(nextId), data, active, now)
      ensures users == old(users) + [row] && nextId == old(nextId) + 1
    {
      row := NewUserRow(nextId, data, active, now);
      users := users + [row];
      nextId := nextId + 1;
    }

    /** `create_user`: a duplicate username, then a duplicate email, is
      refused with 400 and nothing is written; otherwise an active,
      non-superuser row holding the password's hash is appended. */
    method CreateUser(data: UserCreate, now: int) returns (r: Result<UserRow, HttpError>)
      requires Valid()
      modifies this
      ensures Valid()
      ensures UsernameTaken(old(users), data.base.username) ==>
        r == Err(HttpError(BadRequest, "El nombre de usuario ya existe")) && users == old(users)
      ensures !UsernameTaken(old(users), data.base.username) && EmailTaken(old(users), data.base.email) ==>
        r == Err(HttpError(BadRequest, "El email ya está registrado")) && users == old(users)
      ensures !UsernameTaken(old(users), data.base.username) && !EmailTaken(old(users), data.base.email) ==>
        r.Ok? && r.value == NewUserRow(old(nextId), data, true, now) && users == old(users) + [r.value]
    {
      if UsernameTaken(users, data.base.username) {
        return Err(HttpError(BadRequest, "El nombre de usuario ya existe"));
      }
      if EmailTaken(users, data.base.email) {
        return Err(HttpError(BadRequest, "El email ya está registrado"));
      }
      var row := Insert(data, true, now);
      r := Ok(row);
    }

    /** `update_user_last_login`: sets `updated_at` on the rows with that id
      and changes nothing else. */
    method UpdateUserLastLogin(userId: int, now: int)
      requires Valid()
      modifies this
      ensures Valid() && nextId == old(nextId) && |users| == |old(users)|
      ensures forall k :: 0 <= k < |users| ==>
        users[k] == if old(users)[k].id == userId then old(users)[k].(updatedAt := Some(now)) else old(users)[k]
    {
      users := seq(|users|, k requires 0 <= k < |users| reads this =>
        if users[k].id == userId then users[k].(updatedAt := Some(now)) else users[k]);
    }
  }
}
