/** Request and response bodies (the Pydantic schemas), and `model_dump(exclude_unset=True)`
    of the partial-update bodies as the list of supplied (key, value) items. */
module Schemas {
  import opened Wrappers
  import opened Models
  import opened Security

  // ---- authentication / users ----------------------------------------------

  datatype UserCreate = UserCreate(
    username: string,
    password: string,
    isActive: bool,
    roleId: int,
    companyId: Option<Uuid>,
    branchId: Option<Uuid>)

  datatype UserLogin = UserLogin(username: string, password: string)

  /** UserInDB: the public view of a user. It has no password hash. */
  datatype UserInDB = UserInDB(
    id: Uuid,
    username: string,
    isActive: bool,
    roleId: int,
    roleName: string,
    companyId: Option<Uuid>,
    branchId: Option<Uuid>)

  /** The login response: `{"access_token", "token_type": "bearer", "role"}`. */
  datatype Token = Token(accessToken: Jwt, tokenType: string, role: string)

  /** Projects a stored user to its public view, adding the role's name. */
  function PublicView(u: User, roleName: string): (v: UserInDB)
    ensures v.id == u.id && v.username == u.username && v.isActive == u.isActive
    ensures v.roleId == u.roleId && v.companyId == u.companyId && v.branchId == u.branchId
    ensures v.roleName == roleName
  {
    UserInDB(u.id, u.username, u.isActive, u.roleId, roleName, u.companyId, u.branchId)
  }

  // ---- companies ------------------------------------------------------------

  datatype CompanyCreate = CompanyCreate(name: string, slug: string)

  /** CompanyUpdate; `None` is a field the request did not send. */
  datatype CompanyUpdate = CompanyUpdate(name: Option<string>, slug: Option<string>)

  datatype CompanyField = CompanyName(name: string) | CompanySlug(slug: string)

  /** The supplied fields, each once, name before slug. */
  function CompanyItems(u: CompanyUpdate): (r: seq<CompanyField>)
    ensures |r| <= 2
    ensures |r| == (if u.name.Some? then 1 else 0) + (if u.slug.Some? then 1 else 0)
    ensures forall f :: f in r ==> (f.CompanyName? ==> u.name == Some(f.name)) && (f.CompanySlug? ==> u.slug == Some(f.slug))
    ensures u.name.Some? ==> |r| > 0 && r[0] == CompanyName(u.name.value)
    ensures u.slug.Some? ==> |r| > 0 && r[|r| - 1] == CompanySlug(u.slug.value)
    ensures u.name.None? && u.slug.None? ==> r == []
  {
    (if u.name.Some? then [CompanyName(u.name.value)] else [])
    + (if u.slug.Some? then [CompanySlug(u.slug.value)] else [])
  }

  // ---- branches -------------------------------------------------------------

  datatype BranchCreate = BranchCreate(name: string, address: Option<string>)

  /** BranchUpdate; `address` may be sent as null, which clears it. */
  datatype BranchUpdate = BranchUpdate(name: Option<string>, address: Patch<Option<string>>)

  datatype BranchField = BranchName(name: string) | BranchAddress(address: Option<string>)

  /** The supplied fields, each once, name before address; a null address is supplied. */
  function BranchItems(u: BranchUpdate): (r: seq<BranchField>)
    ensures |r| <= 2
    ensures |r| == (if u.name.Some? then 1 else 0) + (if u.address.Set? then 1 else 0)
    ensures forall f :: f in r ==> (f.BranchName? ==> u.name == Some(f.name)) && (f.BranchAddress? ==> u.address == Set(f.address))
    ensures u.name.Some? ==> |r| > 0 && r[0] == BranchName(u.name.value)
    ensures u.address.Set? ==> |r| > 0 && r[|r| - 1] == BranchAddress(u.address.value)
    ensures u.name.None? && u.address.Unset? ==> r == []
  {
    (if u.name.Some? then [BranchName(u.name.value)] else [])
    + (if u.address.Set? then [BranchAddress(u.address.value)] else [])
  }

  // ---- products -------------------------------------------------------------

  datatype ProductCreate = ProductCreate(
    name: string,
    sku: string,
    price: int,
    cost: int,
    isActive: bool,
    companyId: Uuid)

  /** ProductUpdate: every field may be absent, or sent with a value or with null. */
  datatype ProductUpdate = ProductUpdate(
    name: Patch<Option<string>>,
    sku: Patch<Option<string>>,
    price: Patch<Option<int>>,
    cost: Patch<Option<int>>,
    isActive: Patch<Option<bool>>)

  datatype ProductField =
    | ProductName(name: Option<string>)
    | ProductSku(sku: Option<string>)
    | ProductPrice(price: Option<int>)
    | ProductCost(cost: Option<int>)
    | ProductActive(isActive: Option<bool>)

  /** `f` carries the value `u` sent for its field. */
  predicate SentIn(f: ProductField, u: ProductUpdate)
  {
    match f
    case ProductName(v) => u.name == Set(v)
    case ProductSku(v) => u.sku == Set(v)
    case ProductPrice(v) => u.price == Set(v)
    case ProductCost(v) => u.cost == Set(v)
    case ProductActive(v) => u.isActive == Set(v)
  }

  /** The supplied fields, each once in declaration order; a field sent as null is supplied. */
  function ProductItems(u: ProductUpdate): (r: seq<ProductField>)
    ensures |r| <= 5
    ensures forall f :: f in r ==> SentIn(f, u)
    ensures u.name.Set? ==> ProductName(u.name.value) in r
    ensures u.sku.Set? ==> ProductSku(u.sku.value) in r
    ensures u.price.Set? ==> ProductPrice(u.price.value) in r
    ensures u.cost.Set? ==> ProductCost(u.cost.value) in r
    ensures u.isActive.Set? ==> ProductActive(u.isActive.value) in r
  {
    (if u.name.Set? then [ProductName(u.name.value)] else [])
    + (if u.sku.Set? then [ProductSku(u.sku.value)] else [])
    + (if u.price.Set? then [ProductPrice(u.price.value)] else [])
    + (if u.cost.Set? then [ProductCost(u.cost.value)] else [])
    + (if u.isActive.Set? then [ProductActive(u.isActive.value)] else [])
  }
}
