/** The request gate of `app/core/auth.py`: the dependencies that turn the
    bearer credentials of a request into the current user, or into the
    HTTP error that ends the request, and the permission predicates. */
module AuthGate {
  import opened Wrappers
  import opened Security
  import opened Http
  import opened UserSchemas

  /** `db.query(User).filter(User.username == name).first()` */
  function FindByUsername(users: seq<UserRow>, name: string): (r: Option<UserRow>)
    ensures r.Some? ==> r.value in users && r.value.username == name
    ensures r.None? <==> forall k :: 0 <= k < |users| ==> users[k].username != name
  {
    if users == [] then None
    else if users[0].username == name then Some(users[0])
    else FindByUsername(users[1..], name)
  }

  /** `get_current_user`: no credentials, an invalid or expired token, a
      token without subject or an unknown user give 401; an inactive user
      gives 400. */
  function GetCurrentUser(credentials: Option<Jwt>, users: seq<UserRow>, key: string, now: int): (r: Result<UserRow, HttpError>)
    ensures r.Ok? <==> (credentials.Some? && VerifyToken(credentials.value, key, now).Some?
      && FindByUsername(users, credentials.value.claims.sub.value).Some?
      && FindByUsername(users, credentials.value.claims.sub.value).value.isActive)
    ensures r.Ok? ==> (r.value.isActive && r.value in users
      && r.value.username == credentials.value.claims.sub.value)
    ensures r.Err? ==> r.error.status == Unauthorized || r.error.status == BadRequest
    ensures r.Err? && r.error.status == BadRequest <==> (credentials.Some?
      && VerifyToken(credentials.value, key, now).Some?
      && FindByUsername(users, credentials.value.claims.sub.value).Some?
      && !FindByUsername(users, credentials.value.claims.sub.value).value.isActive)
  {
    if credentials.None? then Err(HttpError(Unauthorized, "Token de acceso requerido"))
    else
      match VerifyToken(credentials.value, key, now)
      case None => Err(HttpError(Unauthorized, "Token inválido o expirado"))
      case Some(payload) =>
        if payload.sub.None? then Err(HttpError(Unauthorized, "Token inválido - falta información de usuario"))
        else
          match FindByUsername(users, payload.sub.value)
          case None => Err(HttpError(Unauthorized, "Usuario no encontrado"))
          case Some(user) =>
            if !user.isActive then Err(HttpError(BadRequest, "Usuario inactivo"))
            else Ok(user)
  }

  /** `get_current_active_user` applied to the gate's outcome. */
  function GetCurrentActiveUser(current: Result<UserRow, HttpError>): (r: Result<UserRow, HttpError>)
    ensures r.Ok? ==> r.value.isActive && current == r
    ensures current.Err? ==> r == current
  {
    match current
    case Err(e) => Err(e)
    case Ok(user) => if !user.isActive then Err(HttpError(BadRequest, "Usuario inactivo")) else Ok(user)
  }

  /** `get_current_superuser` applied to the gate's outcome: a user that is
      not a superuser gets 403, an admin is passed on unchanged. */
  function GetCurrentSuperuser(current: Result<UserRow, HttpError>): (r: Result<UserRow, HttpError>)
    ensures r.Ok? <==> current.Ok? && current.value.isSuperuser
    ensures r.Ok? ==> r == current
    ensures current.Err? ==> r == current
    ensures current.Ok? && !current.value.isSuperuser ==> r.error.status == Forbidden
  {
    match current
    case Err(e) => Err(e)
    case Ok(user) => if !user.isSuperuser then Err(HttpError(Forbidden, "No tienes permisos de administrador")) else Ok(user)
  }

  /** The full dependency chain of an admin-only route. */
  function RequireSuperuser(credentials: Option<Jwt>, users: seq<UserRow>, key: string, now: int): Result<UserRow, HttpError>
  {
    GetCurrentSuperuser(GetCurrentUser(credentials, users, key, now))
  }

  /** The active-user check of `get_current_active_user` never fires after
      `get_current_user`, which already refused inactive users. */
  lemma ActiveCheckIsRedundant(credentials: Option<Jwt>, users: seq<UserRow>, key: string, now: int)
    ensures GetCurrentActiveUser(GetCurrentUser(credentials, users, key, now)) == GetCurrentUser(credentials, users, key, now)
  {
  }

  /** An inactive non-admin asking for an admin route is refused with 400
      before the superuser check could answer 403; an active non-admin
      gets 403. */
  lemma InactiveBeforeForbidden(token: Jwt, users: seq<UserRow>, key: string, now: int)
    requires VerifyToken(token, key, now).Some?
    requires FindByUsername(users, token.claims.sub.value).Some?
    requires !FindByUsername(users, token.claims.sub.value).value.isSuperuser
    ensures !FindByUsername(users, token.claims.sub.value).value.isActive ==>
      RequireSuperuser(Some(token), users, key, now).error.status == BadRequest
    ensures FindByUsername(users, token.claims.sub.value).value.isActive ==>
      RequireSuperuser(Some(token), users, key, now).error.status == Forbidden
  {
  }

  /** `get_current_user_optional`: the same chain, with `None` in place of
      every error, including the inactive user. */
  function GetCurrentUserOptional(credentials: Option<Jwt>, users: seq<UserRow>, key: string, now: int): (r: Option<UserRow>)
  {
    if credentials.None? then None
    else
      match VerifyToken(credentials.value, key, now)
      case None => None
      case Some(payload) =>
        if payload.sub.None? then None
        else
          match FindByUsername(users, payload.sub.value)
          case None => None
          case Some(user) => if !user.isActive then None else Some(user)
  }

  /** The optional dependency yields a user exactly when the mandatory one
      would, and the same user. */
  lemma OptionalAgreesWithMandatory(credentials: Option<Jwt>, users: seq<UserRow>, key: string, now: int)
    ensures GetCurrentUserOptional(credentials, users, key, now).Some?
      <==> GetCurrentUser(credentials, users, key, now).Ok?
    ensures GetCurrentUserOptional(credentials, users, key, now).Some? ==>
      GetCurrentUserOptional(credentials, users, key, now).value == GetCurrentUser(credentials, users, key, now).value
  {
  }

  /** `check_user_permissions` */
  predicate CheckUserPermissions(actor: UserRow, targetUserId: int) {
    if actor.isSuperuser then true else actor.id == targetUserId
  }

  /** `check_vehicle_permissions` */
  predicate CheckVehiclePermissions(actor: UserRow, ownerId: Option<int>) {
    if actor.isSuperuser then true
    else if ownerId.None? then actor.isSuperuser
    else actor.id == ownerId.value
  }

  /** A superuser may act on anything; anyone else only on their own user
      record or on a vehicle they own, never on an unowned vehicle. */
  lemma PermissionsCharacterised(actor: UserRow, target: int, owner: Option<int>)
    ensures CheckUserPermissions(actor, target) <==> actor.isSuperuser || actor.id == target
    ensures CheckVehiclePermissions(actor, None) <==> actor.isSuperuser
    ensures owner.Some? ==> (CheckVehiclePermissions(actor, owner) <==> CheckUserPermissions(actor, owner.value))
  {
  }
}
