/** api/v1/endpoints/users.py: creating users under the role-rank and tenant rules, and
    listing users within the caller's effective company. */
module Users {
  import opened Wrappers
  import opened Http
  import opened Models
  import opened Schemas
  import opened Store
  import opened Auth
  import Query

  // ---------------------------------------------------------------------------
  // POST /users/
  // ---------------------------------------------------------------------------

  /** `create_user` up to the commit. The checks run in this order: the admin gate (403),
      username uniqueness (400), role existence (404); then, for a company admin, the
      role rank (403: only roles with a larger id than its own), its own company (400:
      the company is required and is not filled in for the caller) and a branch of that
      company (404); for a global admin, that a named company and a named branch exist
      (404), without relating the branch to the company. */
  function CreateUserOutcome(db: Database, admin: Caller, input: UserCreate, hash: string -> string)
    : (r: Result<User>)
    reads db
    requires db.Valid() && Resolved(db, admin)
    ensures GetAdminUser(admin).Err? ==> r == Err(Forbidden)
    ensures GetAdminUser(admin).Ok? && UsernameTaken(db.users, input.username) ==> r == Err(BadRequest)
    ensures GetAdminUser(admin).Ok? && !UsernameTaken(db.users, input.username) && input.roleId !in db.roles
            ==> r == Err(NotFound)
    ensures (admin.roleName == CompanyAdmin && !UsernameTaken(db.users, input.username) && input.roleId in db.roles
             && input.roleId <= admin.user.roleId) ==> r == Err(Forbidden)
    ensures (admin.roleName == CompanyAdmin && !UsernameTaken(db.users, input.username) && input.roleId in db.roles
             && input.roleId > admin.user.roleId && input.companyId != admin.user.companyId) ==> r == Err(BadRequest)
    ensures (admin.roleName == CompanyAdmin && !UsernameTaken(db.users, input.username) && input.roleId in db.roles
             && input.roleId > admin.user.roleId && input.companyId.None?) ==> r == Err(BadRequest)
    ensures (admin.roleName == CompanyAdmin && !UsernameTaken(db.users, input.username) && input.roleId in db.roles
             && input.roleId > admin.user.roleId && admin.user.companyId.None?) ==> r == Err(BadRequest)
    ensures (admin.roleName == CompanyAdmin && !UsernameTaken(db.users, input.username) && input.roleId in db.roles
             && input.roleId > admin.user.roleId && input.companyId.Some? && input.companyId == admin.user.companyId
             && input.branchId.Some? && !BranchOfCompany(db.branches, input.branchId.value, input.companyId.value))
            ==> r == Err(NotFound)
    ensures (admin.roleName == CompanyAdmin && !UsernameTaken(db.users, input.username) && input.roleId in db.roles
             && input.roleId > admin.user.roleId && input.companyId.Some? && input.companyId == admin.user.companyId
             && (input.branchId.Some? ==> BranchOfCompany(db.branches, input.branchId.value, input.companyId.value)))
            ==> r == Ok(NewUser(db.nextId, input, hash(input.password)))
    ensures (admin.roleName == GlobalAdmin && !UsernameTaken(db.users, input.username) && input.roleId in db.roles
             && input.companyId.Some? && input.companyId.value !in db.companies) ==> r == Err(NotFound)
    ensures (admin.roleName == GlobalAdmin && !UsernameTaken(db.users, input.username) && input.roleId in db.roles
             && (input.companyId.Some? ==> input.companyId.value in db.companies)
             && input.branchId.Some? && input.branchId.value !in db.branches) ==> r == Err(NotFound)
    ensures admin.roleName == CompanyAdmin && admin.user.companyId.None? ==> r.Err?
    ensures r.Ok? ==> && GetAdminUser(admin).Ok?
                      && !UsernameTaken(db.users, input.username)
                      && r.value == NewUser(db.nextId, input, hash(input.password))
                      && UserRefsOk(r.value, db.roles, db.companies, db.branches)
    ensures r.Ok? && admin.roleName == CompanyAdmin ==>
              && input.roleId > admin.user.roleId
              && input.companyId.Some? && input.companyId == admin.user.companyId
              && (input.branchId.Some? ==> BranchOfCompany(db.branches, input.branchId.value, input.companyId.value))
    ensures GetAdminUser(admin).Ok? && admin.roleName != CompanyAdmin ==>
              (r.Ok? <==> !UsernameTaken(db.users, input.username) &&
                          UserRefsOk(NewUser(db.nextId, input, hash(input.password)), db.roles, db.companies, db.branches))
    ensures r.Err? ==> r.error in {Forbidden, BadRequest, NotFound}
  {
    if GetAdminUser(admin).Err? then Err(Forbidden)
    else if UsernameTaken(db.users, input.username) then Err(BadRequest)
    else if input.roleId !in db.roles then Err(NotFound)
    else if admin.roleName == CompanyAdmin && input.roleId <= admin.user.roleId then Err(Forbidden)
    else if admin.roleName == CompanyAdmin && (input.companyId.None? || input.companyId != admin.user.companyId) then
      Err(BadRequest)
    else if admin.roleName == CompanyAdmin && input.branchId.Some?
            && !BranchOfCompany(db.branches, input.branchId.value, input.companyId.value) then
      Err(NotFound)
    else if admin.roleName == GlobalAdmin && input.companyId.Some? && input.companyId.value !in db.companies then
      Err(NotFound)
    else if admin.roleName == GlobalAdmin && input.branchId.Some? && input.branchId.value !in db.branches then
      Err(NotFound)
    else
      Ok(NewUser(db.nextId, input, hash(input.password)))
  }

  /** The endpoint: the decision above, the insert, and the public view of the new row with
      its role's name. A refused request leaves every table as it was. */
  method CreateUser(db: Database, admin: Caller, input: UserCreate, hash: string -> string)
    returns (r: Result<UserInDB>)
    requires db.Valid() && Resolved(db, admin)
    modifies db
    ensures db.Valid()
    ensures var o := old(CreateUserOutcome(db, admin, input, hash));
            && (o.Err? ==> r == Err(o.error) && db.users == old(db.users) && db.nextId == old(db.nextId))
            && (o.Ok? ==> && r.Ok?
                          && r.value == PublicView(o.value, old(db.roles)[input.roleId].name)
                          && o.value.id !in old(db.users)
                          && db.users == old(db.users)[o.value.id := o.value])
    ensures db.roles == old(db.roles) && db.companies == old(db.companies)
    ensures db.branches == old(db.branches) && db.products == old(db.products)
  {
    var o := CreateUserOutcome(db, admin, input, hash);
    if o.Err? {
      return Err(o.error);
    }
    var role := db.roles[input.roleId];
    db.InsertUser(o.value);
    r := Ok(PublicView(o.value, role.name));
  }

  /** The response omits the password hash and names the role. */
  lemma CreatedUserView(db: Database, admin: Caller, input: UserCreate, hash: string -> string)
    requires db.Valid() && Resolved(db, admin)
    requires CreateUserOutcome(db, admin, input, hash).Ok?
    ensures var u := CreateUserOutcome(db, admin, input, hash).value;
            var v := PublicView(u, db.roles[input.roleId].name);
            && v.username == input.username && v.roleId == input.roleId && v.isActive == input.isActive
            && v.companyId == input.companyId && v.branchId == input.branchId
            && v.roleName == db.roles[input.roleId].name
            && u.passwordHash == hash(input.password)
  {
  }

  /** A global admin may attach a user to a branch of a company other than the user's own:
      the branch is only checked to exist. */
  lemma GlobalAdminCrossTenantBranch(db: Database, admin: Caller, input: UserCreate, hash: string -> string)
    requires db.Valid() && Resolved(db, admin) && admin.roleName == GlobalAdmin
    requires !UsernameTaken(db.users, input.username) && input.roleId in db.roles
    requires input.companyId.Some? && input.companyId.value in db.companies
    requires input.branchId.Some? && input.branchId.value in db.branches
    requires db.branches[input.branchId.value].companyId != input.companyId.value
    ensures CreateUserOutcome(db, admin, input, hash).Ok?
  {
  }

  // ---------------------------------------------------------------------------
  // GET /users/
  // ---------------------------------------------------------------------------

  /** The effective company filter of `read_users`: a company admin is pinned to its own
      company (403 when it has none) and the query's company is ignored; anyone else uses
      the query's company, if given. */
  function EffectiveCompanyId(admin: Caller, query: Option<Uuid>): (r: Result<Option<Uuid>>)
    ensures r.Err? <==> admin.roleName == CompanyAdmin && admin.user.companyId.None?
    ensures r.Err? ==> r.error == Forbidden
    ensures r.Ok? && admin.roleName == CompanyAdmin ==> r.value.Some? && r.value == admin.user.companyId
    ensures admin.roleName != CompanyAdmin ==> r == Ok(query)
  {
    if admin.roleName == CompanyAdmin then
      if admin.user.companyId.None? then Err(Forbidden) else Ok(admin.user.companyId)
    else Ok(query)
  }

  /** A row passes the listing's joins and filters: it has a role, and matches the company
      and branch filters that are set. */
  predicate Listed(u: User, roles: map<int, Role>, company: Option<Uuid>, branch: Option<Uuid>)
  {
    && u.roleId in roles
    && (company.Some? ==> u.companyId == company)
    && (branch.Some? ==> u.branchId == branch)
  }

  /** `Listed` under the effective company of `admin` and `query`. */
  predicate ListedFor(u: User, roles: map<int, Role>, admin: Caller, query: Option<Uuid>, branch: Option<Uuid>)
  {
    EffectiveCompanyId(admin, query).Ok? && Listed(u, roles, EffectiveCompanyId(admin, query).value, branch)
  }

  /** The public view of a row, with the name of its role. */
  function View(u: User, roles: map<int, Role>): (v: UserInDB)
    requires u.roleId in roles
    ensures v.id == u.id && v.roleName == roles[u.roleId].name
  {
    PublicView(u, roles[u.roleId].name)
  }

  /** The `filter` calls of the listing: the rows `Listed` keeps. */
  function ListedFilter(roles: map<int, Role>, company: Option<Uuid>, branch: Option<Uuid>): User -> bool
  {
    (u: User) => Listed(u, roles, company, branch)
  }

  /** The views of the filtered rows are views of listed users, and every listed user's view
      is among them. */
  lemma ViewsOfListed(users: map<Uuid, User>, n: nat, roles: map<int, Role>, company: Option<Uuid>,
                      branch: Option<Uuid>, rows: seq<User>, views: seq<UserInDB>)
    requires forall k :: k in users ==> users[k].id == k && k < n
    requires rows == Query.Filter(Query.Rows(users, n), ListedFilter(roles, company, branch))
    requires |views| == |rows|
    requires forall j :: 0 <= j < |rows| ==> rows[j].roleId in roles && views[j] == View(rows[j], roles)
    ensures forall v :: v in views ==>
              exists k :: k in users && Listed(users[k], roles, company, branch) && v == View(users[k], roles)
    ensures forall k :: k in users && Listed(users[k], roles, company, branch) ==> View(users[k], roles) in views
    ensures forall v :: v in views ==> (company.Some? ==> v.companyId == company) && (branch.Some? ==> v.branchId == branch)
  {
    forall v | v in views
      ensures exists k :: k in users && Listed(users[k], roles, company, branch) && v == View(users[k], roles)
    {
      var j :| 0 <= j < |views| && views[j] == v;
      assert rows[j] in rows;
      var k :| k in users && users[k] == rows[j];
    }
    forall k | k in users && Listed(users[k], roles, company, branch)
      ensures View(users[k], roles) in views
    {
      var u := users[k];
      assert u in users.Values;
      var j :| 0 <= j < |rows| && rows[j] == u;
      assert views[j] == View(u, roles);
    }
  }

  /** `read_users`: after the admin gate and the effective company, the public views of
      exactly the users in that company (all companies when there is none) and, when a
      branch is given, in that branch. A company admin sees only its own company's users. */
  method ReadUsers(db: Database, admin: Caller, companyId: Option<Uuid>, branchId: Option<Uuid>)
    returns (r: Result<seq<UserInDB>>)
    requires db.Valid()
    ensures GetAdminUser(admin).Err? ==> r == Err(Forbidden)
    ensures GetAdminUser(admin).Ok? ==>
              (r.Err? <==> admin.roleName == CompanyAdmin && admin.user.companyId.None?)
    ensures r.Err? ==> r.error == Forbidden
    ensures r.Ok? ==> forall v :: v in r.value ==>
              exists k :: k in db.users && db.users[k].roleId in db.roles && v == View(db.users[k], db.roles)
    ensures r.Ok? && admin.roleName == CompanyAdmin ==>
              forall v :: v in r.value ==> v.companyId == admin.user.companyId
    ensures r.Ok? && admin.roleName != CompanyAdmin && companyId.Some? ==>
              forall v :: v in r.value ==> v.companyId == companyId
    ensures r.Ok? && branchId.Some? ==> forall v :: v in r.value ==> v.branchId == branchId
    ensures r.Ok? ==> forall k :: k in db.users && ListedFor(db.users[k], db.roles, admin, companyId, branchId) ==>
                                   View(db.users[k], db.roles) in r.value
  {
    if GetAdminUser(admin).Err? {
      return Err(Forbidden);
    }
    var effective := EffectiveCompanyId(admin, companyId);
    if effective.Err? {
      return Err(effective.error);
    }
    var roles := db.roles;
    var company := effective.value;
    var users := Query.Filter(Query.Rows(db.users, db.nextId), ListedFilter(roles, company, branchId));
    forall j | 0 <= j < |users|
      ensures users[j].roleId in roles
    {
      assert users[j] in users;
    }
    var usersList: seq<UserInDB> := [];
    var i := 0;
    while i < |users|
      invariant 0 <= i <= |users|
      invariant |usersList| == i
      invariant forall j :: 0 <= j < i ==> usersList[j] == View(users[j], roles)
    {
      usersList := usersList + [View(users[i], roles)];
      i := i + 1;
    }
    ViewsOfListed(db.users, db.nextId, roles, company, branchId, users, usersList);
    r := Ok(usersList);
  }
}
