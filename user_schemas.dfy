/** User records of the backend: the stored row (the columns the services
    read and write) and the request/response shapes of
    `app/schemas/user.py`, with their defaults. */
module UserSchemas {
  import opened Wrappers
  import opened Security

  /** A row of the users table. */
  datatype UserRow = UserRow(
    id: int,
    username: string,
    email: string,
    fullName: Option<string>,
    hashedPassword: PasswordHash,
    isActive: bool,
    isSuperuser: bool,
    createdAt: int,
    updatedAt: Option<int>)

  /** `UserBase` */
  datatype UserBase = UserBase(username: string, email: string, fullName: Option<string>, isActive: bool)

  /** `UserCreate`: a `UserBase` plus the clear-text password. */
  datatype UserCreate = UserCreate(base: UserBase, password: string)

  /** `UserUpdate`: every field optional. */
  datatype UserUpdate = UserUpdate(
    username: Option<string>,
    email: Option<string>,
    fullName: Option<string>,
    isActive: Option<bool>,
    password: Option<string>)

  /** `User`, the outward schema: `UserBase` plus id and creation time. */
  datatype UserOut = UserOut(id: int, base: UserBase, createdAt: int)

  /** `UserInDB`: the outward fields plus the stored hash. */
  datatype UserInDB = UserInDB(id: int, base: UserBase, createdAt: int, hashedPassword: PasswordHash)

  /** `Token`: the issued token, its type tag and the user it was issued for. */
  datatype TokenResponse = TokenResponse(accessToken: Jwt, tokenType: string, user: UserOut)

  /** `TokenPayload` */
  datatype TokenPayload = TokenPayload(sub: Option<string>)

  /** `UserLogin`: exactly an identifier and a password. */
  datatype UserLogin = UserLogin(username: string, password: string)

  /** `UserBase(username=..., email=...)` with the declared defaults. */
  function NewUserBase(username: string, email: string): (b: UserBase)
    ensures b.isActive && b.fullName.None?
    ensures b.username == username && b.email == email
  {
    UserBase(username, email, None, true)
  }

  /** `UserUpdate()`: nothing set. */
  function EmptyUserUpdate(): (u: UserUpdate)
    ensures u.username.None? && u.email.None? && u.fullName.None? && u.isActive.None? && u.password.None?
  {
    UserUpdate(None, None, None, None, None)
  }

  /** `TokenPayload()` */
  function EmptyTokenPayload(): (p: TokenPayload)
    ensures p.sub.None?
  {
    TokenPayload(None)
  }

  /** `Token(access_token=..., user=...)`: the type tag defaults to "bearer". */
  function NewTokenResponse(accessToken: Jwt, user: UserOut): (t: TokenResponse)
    ensures t.tokenType == "bearer" && t.accessToken == accessToken && t.user == user
  {
    TokenResponse(accessToken, "bearer", user)
  }

  /** The outward view of a row (`from_attributes`); fields that the
      `User` schema does not declare, such as `is_superuser`, are dropped. */
  function ToUserOut(row: UserRow): (u: UserOut)
  {
    UserOut(row.id, UserBase(row.username, row.email, row.fullName, row.isActive), row.createdAt)
  }

  function ToUserInDB(row: UserRow): (u: UserInDB)
  {
    UserInDB(row.id, UserBase(row.username, row.email, row.fullName, row.isActive), row.createdAt, row.hashedPassword)
  }

  /** Forgetting the hash of a `UserInDB` gives the outward `User`. */
  function InDBToOut(u: UserInDB): UserOut {
    UserOut(u.id, u.base, u.createdAt)
  }

  /** The outward schema reveals nothing of the password hash, the
      superuser flag or the update time: rows differing only there look the
      same; only `UserInDB` carries the hash. */
  lemma UserOutHidesSecrets(row: UserRow, hash: PasswordHash, superuser: bool, updated: Option<int>)
    ensures ToUserOut(row.(hashedPassword := hash, isSuperuser := superuser, updatedAt := updated)) == ToUserOut(row)
    ensures InDBToOut(ToUserInDB(row)) == ToUserOut(row)
    ensures ToUserInDB(row).hashedPassword == row.hashedPassword
  {
  }

  /** The outward view keeps every declared field of the row. */
  lemma UserOutKeepsDeclaredFields(a: UserRow, b: UserRow)
    requires ToUserOut(a) == ToUserOut(b)
    ensures a.id == b.id && a.username == b.username && a.email == b.email
    ensures a.fullName == b.fullName && a.isActive == b.isActive && a.createdAt == b.createdAt
  {
  }
}
