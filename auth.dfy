/** api/v1/endpoints/auth.py: the identity resolver, the two role gates, registration,
    login and `/me`. */
module Auth {
  import opened Wrappers
  import opened Http
  import opened Models
  import opened Security
  import opened Schemas
  import opened Store
  import Query

  /** The identity a request runs as: the user row and its role's name (`current_user.role.name`). */
  datatype Caller = Caller(user: User, roleName: string)

  /** `c` is a live identity of `db`: an active stored user together with its role's name. */
  ghost predicate Resolved(db: Database, c: Caller)
    reads db
  {
    && c.user.id in db.users
    && db.users[c.user.id] == c.user
    && c.user.isActive
    && c.user.roleId in db.roles
    && db.roles[c.user.roleId].name == c.roleName
  }

  /** `db.query(User).filter(User.id == id).first()` finds an active user. */
  predicate ActiveUser(db: Database, id: Uuid)
    reads db
  {
    id in db.users && db.users[id].isActive
  }

  // ---------------------------------------------------------------------------
  // Dependencies
  // ---------------------------------------------------------------------------

  /** `get_current_user`: an undecodable token is a 401 with the Bearer challenge, a payload
      without subject a 401 without it, a missing or inactive user a 404; otherwise the
      identity of the user whose id is the subject. */
  function GetCurrentUser(db: Database, token: DecodeResult): (r: Result<Caller>)
    reads db
    requires db.Valid()
    ensures token.Invalid? ==> r == Err(Unauthorized(true))
    ensures token == Payload(None) ==> r == Err(Unauthorized(false))
    ensures token.Payload? && token.sub.Some? && !ActiveUser(db, token.sub.value) ==> r == Err(NotFound)
    ensures r.Ok? ==> token == Payload(Some(r.value.user.id)) && Resolved(db, r.value)
  {
    match token
    case Invalid => Err(Unauthorized(true))
    case Payload(sub) =>
      if sub.None? then Err(Unauthorized(false))
      else if sub.value !in db.users || !db.users[sub.value].isActive then Err(NotFound)
      else
        var user := db.users[sub.value];
        Ok(Caller(user, db.roles[user.roleId].name))
  }

  /** `get_admin_user` (users.py repeats it verbatim): global and company admins pass. */
  function GetAdminUser(c: Caller): (r: Result<Caller>)
    ensures r.Ok? <==> c.roleName in {GlobalAdmin, CompanyAdmin}
    ensures r.Ok? ==> r.value == c
    ensures r.Err? ==> r.error == Forbidden
  {
    if c.roleName != GlobalAdmin && c.roleName != CompanyAdmin then Err(Forbidden) else Ok(c)
  }

  /** `get_global_admin`: only the role named global_admin passes. */
  function GetGlobalAdmin(c: Caller): (r: Result<Caller>)
    ensures r.Ok? <==> c.roleName == GlobalAdmin
    ensures r.Ok? ==> r.value == c
    ensures r.Err? ==> r.error == Forbidden
  {
    if c.roleName != GlobalAdmin then Err(Forbidden) else Ok(c)
  }

  /** Every identity the global gate admits is admitted by the admin gate, and any role
      other than the two admin roles is refused by both with 403. */
  lemma GatesNested(c: Caller)
    ensures GetGlobalAdmin(c).Ok? ==> GetAdminUser(c).Ok?
    ensures c.roleName != GlobalAdmin && c.roleName != CompanyAdmin ==>
              GetAdminUser(c) == Err(Forbidden) && GetGlobalAdmin(c) == Err(Forbidden)
    ensures c.roleName == CompanyAdmin ==> GetAdminUser(c).Ok? && GetGlobalAdmin(c) == Err(Forbidden)
  {
  }

  // ---------------------------------------------------------------------------
  // POST /register
  // ---------------------------------------------------------------------------

  /** The row `User(...)` built from a create body, with id `id` and the password's hash. */
  function NewUser(id: Uuid, input: UserCreate, passwordHash: string): User
  {
    User(id, input.username, passwordHash, input.roleId, input.companyId, input.branchId, input.isActive)
  }

  /** `register_user`, without any permission gate: a taken username is a 400, an unknown
      role a 404; the row carries the body's fields and `hash` of its password. The
      company and branch references are not checked, so a dangling one fails at commit. */
  function RegisterUserOutcome(db: Database, input: UserCreate, hash: string -> string): (r: Result<User>)
    reads db
    ensures UsernameTaken(db.users, input.username) ==> r == Err(BadRequest)
    ensures !UsernameTaken(db.users, input.username) && input.roleId !in db.roles ==> r == Err(NotFound)
    ensures (!UsernameTaken(db.users, input.username) && input.roleId in db.roles &&
             !UserRefsOk(NewUser(db.nextId, input, hash(input.password)), db.roles, db.companies, db.branches)) ==> r == Err(ServerError)
    ensures r.Ok? <==> !UsernameTaken(db.users, input.username) &&
                       UserRefsOk(NewUser(db.nextId, input, hash(input.password)), db.roles, db.companies, db.branches)
    ensures r.Ok? ==> r.value == NewUser(db.nextId, input, hash(input.password))
    ensures r.Err? ==> r.error in {BadRequest, NotFound, ServerError}
  {
    if UsernameTaken(db.users, input.username) then Err(BadRequest)
    else if input.roleId !in db.roles then Err(NotFound)
    else
      var u := NewUser(db.nextId, input, hash(input.password));
      if !UserRefsOk(u, db.roles, db.companies, db.branches) then Err(ServerError) else Ok(u)
  }

  /** The endpoint: the decision above, then `db.add` and `commit` of the new row. */
  method RegisterUser(db: Database, input: UserCreate, hash: string -> string) returns (r: Result<User>)
    requires db.Valid()
    modifies db
    ensures db.Valid()
    ensures r == old(RegisterUserOutcome(db, input, hash))
    ensures r.Ok? ==> r.value.id !in old(db.users) && db.users == old(db.users)[r.value.id := r.value]
    ensures r.Err? ==> db.users == old(db.users) && db.nextId == old(db.nextId)
    ensures db.roles == old(db.roles) && db.companies == old(db.companies)
    ensures db.branches == old(db.branches) && db.products == old(db.products)
  {
    r := RegisterUserOutcome(db, input, hash);
    if r.Ok? {
      db.InsertUser(r.value);
    }
  }

  // ---------------------------------------------------------------------------
  // POST /login
  // ---------------------------------------------------------------------------

  /** `db.query(User).filter(User.username == username).first()` */
  function UserByUsername(db: Database, username: string): (r: Option<User>)
    reads db
    requires db.Valid()
    ensures r.Some? ==> r.value.id in db.users && db.users[r.value.id] == r.value && r.value.username == username
    ensures r.None? <==> !UsernameTaken(db.users, username)
  {
    Query.First(Query.Rows(db.users, db.nextId), (u: User) => u.username == username)
  }

  /** `login_for_access_token`: an unknown username and a wrong password are the same 401
      with the Bearer challenge; an inactive account is refused with 403 only once its
      password verified; success issues a 60-minute token for the user's id and reports the
      role's name. `verify` is the credential store's `verify_password`, `now` the clock. */
  function LoginForAccessToken(db: Database, login: UserLogin, verify: (string, string) -> bool, now: int)
    : (r: Result<Token>)
    reads db
    requires db.Valid()
    ensures !UsernameTaken(db.users, login.username) ==> r == Err(Unauthorized(true))
    ensures forall k :: k in db.users && db.users[k].username == login.username ==>
              && (r == Err(Unauthorized(true)) <==> !verify(login.password, db.users[k].passwordHash))
              && (r == Err(Forbidden) <==> verify(login.password, db.users[k].passwordHash) && !db.users[k].isActive)
              && (r.Ok? ==> r.value == Token(CreateAccessToken(k, now, Some(AccessTokenExpireMinutes * 60)),
                                             "bearer", db.roles[db.users[k].roleId].name))
    ensures r.Err? ==> r.error in {Unauthorized(true), Forbidden}
  {
    match UserByUsername(db, login.username)
    case None => Err(Unauthorized(true))
    case Some(user) =>
      if !verify(login.password, user.passwordHash) then Err(Unauthorized(true))
      else if !user.isActive then Err(Forbidden)
      else
        var accessToken := CreateAccessToken(user.id, now, Some(AccessTokenExpireMinutes * 60));
        Ok(Token(accessToken, "bearer", db.roles[user.roleId].name))
  }

  // ---------------------------------------------------------------------------
  // GET /me
  // ---------------------------------------------------------------------------

  /** `read_users_me`: the caller's own public record with its role's name. */
  function ReadUsersMe(c: Caller): (r: UserInDB)
    ensures r.id == c.user.id && r.username == c.user.username && r.roleName == c.roleName
  {
    PublicView(c.user, c.roleName)
  }

  /** Self-access: whatever its role, a token naming an active user resolves to that user,
      and `/me` reports that user's stored fields and role name. */
  lemma SelfAccess(db: Database, id: Uuid)
    requires db.Valid()
    requires id in db.users && db.users[id].isActive
    ensures GetCurrentUser(db, Payload(Some(id))).Ok?
    ensures var me := ReadUsersMe(GetCurrentUser(db, Payload(Some(id))).value);
            me == PublicView(db.users[id], db.roles[db.users[id].roleId].name)
  {
  }

  /** A successful login's token, presented within its 60 minutes, resolves to the user who
      logged in, and `/me` then names that user with the role the login reported. */
  lemma LoginThenMe(db: Database, login: UserLogin, verify: (string, string) -> bool, issued: int, now: int)
    requires db.Valid()
    requires LoginForAccessToken(db, login, verify, issued).Ok?
    requires issued <= now <= issued + AccessTokenExpireMinutes * 60
    ensures var t := LoginForAccessToken(db, login, verify, issued).value;
            var me := GetCurrentUser(db, DecodeToken(t.accessToken, now));
            && me.Ok?
            && me.value.user.username == login.username
            && ReadUsersMe(me.value).roleName == t.role
  {
    var user := UserByUsername(db, login.username).value;
    IssuedTokenLifetime(user.id, issued, AccessTokenExpireMinutes * 60, now);
  }
}
