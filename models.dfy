/** The persisted records (the SQLAlchemy models) and the constraints the database
    schema enforces on them: primary keys, unique columns and foreign keys. */
module Models {
  import opened Wrappers

  /** A UUID primary key. The model allocates them from a counter (see Store). */
  type Uuid = nat

  const GlobalAdmin: string := "global_admin"
  const CompanyAdmin: string := "company_admin"

  /** Role: integer id (its rank: a smaller id is a more privileged role) and unique name. */
  datatype Role = Role(id: int, name: string)

  datatype User = User(
    id: Uuid,
    username: string,
    passwordHash: string,
    roleId: int,
    companyId: Option<Uuid>,
    branchId: Option<Uuid>,
    isActive: bool)

  datatype Company = Company(id: Uuid, name: string, slug: string)

  datatype Branch = Branch(id: Uuid, companyId: Uuid, name: string, address: Option<string>)

  /** Product; `price` and `cost` are NUMERIC(10,2) amounts, held as integer cents. */
  datatype Product = Product(
    id: Uuid,
    companyId: Uuid,
    name: string,
    sku: string,
    price: int,
    cost: int,
    isActive: bool)

  // ---------------------------------------------------------------------------
  // Lookups the handlers run as existence queries
  // ---------------------------------------------------------------------------

  predicate UsernameTaken(users: map<Uuid, User>, username: string)
  {
    exists k :: k in users && users[k].username == username
  }

  predicate SlugTaken(companies: map<Uuid, Company>, slug: string)
  {
    exists k :: k in companies && companies[k].slug == slug
  }

  /** Another company than `c` already carries `c`'s name (the `name` column is unique). */
  predicate NameClash(companies: map<Uuid, Company>, c: Company)
  {
    exists k :: k in companies && k != c.id && companies[k].name == c.name
  }

  /** The row fits its `String(n)` columns; PostgreSQL refuses a longer value at commit.
      Company name and slug are `String(100)` and `String(50)`. */
  predicate CompanyFits(c: Company)
  {
    |c.name| <= 100 && |c.slug| <= 50
  }

  /** A branch name is `String(100)`; the address is an unbounded `String`. */
  predicate BranchFits(b: Branch)
  {
    |b.name| <= 100
  }

  /** A product name is `String(255)` and its SKU `String(50)`. */
  predicate ProductFits(p: Product)
  {
    |p.name| <= 255 && |p.sku| <= 50
  }

  predicate SkuTaken(products: map<Uuid, Product>, sku: string, companyId: Uuid)
  {
    exists k :: k in products && products[k].sku == sku && products[k].companyId == companyId
  }

  /** `Branch.id == branchId, Branch.company_id == companyId` finds a row. */
  predicate BranchOfCompany(branches: map<Uuid, Branch>, branchId: Uuid, companyId: Uuid)
  {
    branchId in branches && branches[branchId].companyId == companyId
  }

  // ---------------------------------------------------------------------------
  // Foreign keys
  // ---------------------------------------------------------------------------

  predicate UserRefsOk(u: User, roles: map<int, Role>, companies: map<Uuid, Company>, branches: map<Uuid, Branch>)
  {
    && u.roleId in roles
    && (u.companyId.Some? ==> u.companyId.value in companies)
    && (u.branchId.Some? ==> u.branchId.value in branches)
  }

  // ---------------------------------------------------------------------------
  // Table invariants: keys are the records' ids and lie below the id counter,
  // unique columns are unique, foreign keys resolve
  // ---------------------------------------------------------------------------

  predicate RolesValid(roles: map<int, Role>)
  {
    && (forall k :: k in roles ==> roles[k].id == k)
    && (forall a, b :: a in roles && b in roles && roles[a].name == roles[b].name ==> a == b)
  }

  predicate CompaniesValid(companies: map<Uuid, Company>, nextId: nat)
  {
    && (forall k :: k in companies ==> companies[k].id == k && k < nextId)
    && (forall a, b :: a in companies && b in companies && companies[a].slug == companies[b].slug ==> a == b)
    && (forall a, b :: a in companies && b in companies && companies[a].name == companies[b].name ==> a == b)
  }

  predicate BranchesValid(branches: map<Uuid, Branch>, companies: map<Uuid, Company>, nextId: nat)
  {
    forall k :: k in branches ==> branches[k].id == k && k < nextId && branches[k].companyId in companies
  }

  predicate UsersValid(users: map<Uuid, User>, roles: map<int, Role>, companies: map<Uuid, Company>,
                       branches: map<Uuid, Branch>, nextId: nat)
  {
    && (forall k :: k in users ==> users[k].id == k && k < nextId && UserRefsOk(users[k], roles, companies, branches))
    && (forall a, b :: a in users && b in users && users[a].username == users[b].username ==> a == b)
  }

  /** Two products share the key of the `uq_product_sku_company` constraint. */
  predicate SameSku(p: Product, q: Product)
  {
    p.sku == q.sku && p.companyId == q.companyId
  }

  predicate ProductsValid(products: map<Uuid, Product>, companies: map<Uuid, Company>, nextId: nat)
  {
    && (forall k :: k in products ==> products[k].id == k && k < nextId && products[k].companyId in companies)
    && (forall a, b :: a in products && b in products && SameSku(products[a], products[b]) ==> a == b)
  }

  predicate TablesValid(roles: map<int, Role>, users: map<Uuid, User>, companies: map<Uuid, Company>,
                        branches: map<Uuid, Branch>, products: map<Uuid, Product>, nextId: nat)
  {
    && RolesValid(roles)
    && CompaniesValid(companies, nextId)
    && BranchesValid(branches, companies, nextId)
    && UsersValid(users, roles, companies, branches, nextId)
    && ProductsValid(products, companies, nextId)
  }
}
