/** The database behind the session the handlers share: one map per table, keyed by
    primary key, and the counter that stands in for `uuid4()` when rows are added. */
module Store {
  import opened Wrappers
  import opened Models

  class Database {
    var roles: map<int, Role>
    var users: map<Uuid, User>
    var companies: map<Uuid, Company>
    var branches: map<Uuid, Branch>
    var products: map<Uuid, Product>
    var nextId: nat

    /** The schema's constraints hold: keys, unique columns and foreign keys. */
    ghost predicate Valid()
      reads this
    {
      TablesValid(roles, users, companies, branches, products, nextId)
    }

    /** A database holding only the seeded roles. */
    constructor (seed: map<int, Role>)
      requires RolesValid(seed)
      ensures Valid()
      ensures roles == seed && users == map[] && companies == map[] && branches == map[]
      ensures products == map[] && nextId == 0
    {
      roles := seed;
      users := map[];
      companies := map[];
      branches := map[];
      products := map[];
      nextId := 0;
    }
    // -------------------------------------------------------------------------
    // `db.add(row); db.commit()` for rows that satisfy the schema's constraints.
    // Each keeps Valid() and changes its own table (and the id counter) only.
    // -------------------------------------------------------------------------

    method InsertUser(u: User)
      requires Valid()
      requires u.id == nextId && !UsernameTaken(users, u.username) && UserRefsOk(u, roles, companies, branches)
      modifies this
      ensures Valid()
      ensures users == old(users)[u.id := u] && nextId == old(nextId) + 1
      ensures roles == old(roles) && companies == old(companies)
      ensures branches == old(branches) && products == old(products)
    {
      ghost var before, n := users, nextId;
      users, nextId := users[u.id := u], nextId + 1;
      UserInsertKeepsTables(roles, before, companies, branches, products, n, u, users, nextId);
    }

    method InsertCompany(c: Company)
      requires Valid()
      requires c.id == nextId && !SlugTaken(companies, c.slug) && !NameClash(companies, c)
      modifies this
      ensures Valid()
      ensures companies == old(companies)[c.id := c] && nextId == old(nextId) + 1
      ensures roles == old(roles) && users == old(users)
      ensures branches == old(branches) && products == old(products)
    {
      ghost var before, n := companies, nextId;
      companies, nextId := companies[c.id := c], nextId + 1;
      CompanyInsertKeepsTables(roles, users, before, branches, products, n, c, companies, nextId);
    }

    method InsertBranch(b: Branch)
      requires Valid()
      requires b.id == nextId && b.companyId in companies
      modifies this
      ensures Valid()
      ensures branches == old(branches)[b.id := b] && nextId == old(nextId) + 1
      ensures roles == old(roles) && users == old(users)
      ensures companies == old(companies) && products == old(products)
    {
      ghost var before, n := branches, nextId;
      branches, nextId := branches[b.id := b], nextId + 1;
      BranchInsertKeepsTables(roles, users, companies, before, products, n, b, branches, nextId);
    }

    method InsertProduct(p: Product)
      requires Valid()
      requires p.id == nextId && p.companyId in companies && !SkuTaken(products, p.sku, p.companyId)
      modifies this
      ensures Valid()
      ensures products == old(products)[p.id := p] && nextId == old(nextId) + 1
      ensures roles == old(roles) && users == old(users)
      ensures companies == old(companies) && branches == old(branches)
    {
      ghost var before, n := products, nextId;
      products, nextId := products[p.id := p], nextId + 1;
      ProductInsertKeepsTables(roles, users, companies, branches, before, n, p, products, nextId);
    }

    // -------------------------------------------------------------------------
    // `db.add(patched); db.commit()` after `setattr` on a loaded row.
    // -------------------------------------------------------------------------

    method ReplaceCompany(c: Company)
      requires Valid()
      requires c.id in companies && !NameClash(companies, c)
      requires forall k :: k in companies && k != c.id ==> companies[k].slug != c.slug
      modifies this
      ensures Valid()
      ensures companies == old(companies)[c.id := c]
      ensures roles == old(roles) && users == old(users) && nextId == old(nextId)
      ensures branches == old(branches) && products == old(products)
    {
      CompanyReplaceKeepsTables(roles, users, companies, branches, products, nextId, c);
      companies := companies[c.id := c];
    }

    method ReplaceBranch(b: Branch)
      requires Valid()
      requires b.id in branches && b.companyId == branches[b.id].companyId
      modifies this
      ensures Valid()
      ensures branches == old(branches)[b.id := b]
      ensures roles == old(roles) && users == old(users) && nextId == old(nextId)
      ensures companies == old(companies) && products == old(products)
    {
      BranchReplaceKeepsTables(roles, users, companies, branches, products, nextId, b);
      branches := branches[b.id := b];
    }

    method ReplaceProduct(p: Product)
      requires Valid()
      requires p.id in products && p.companyId == products[p.id].companyId
      requires forall k :: k in products && k != p.id ==> !SameSku(products[k], p)
      modifies this
      ensures Valid()
      ensures products == old(products)[p.id := p]
      ensures roles == old(roles) && users == old(users) && nextId == old(nextId)
      ensures companies == old(companies) && branches == old(branches)
    {
      ProductReplaceKeepsTables(roles, users, companies, branches, products, nextId, p);
      products := products[p.id := p];
    }

    // -------------------------------------------------------------------------
    // `db.delete(row); db.commit()`, with the relationships' delete cascades.
    // -------------------------------------------------------------------------

    method RemoveProduct(id: Uuid)
      requires Valid()
      modifies this
      ensures Valid()
      ensures products == old(products) - {id}
      ensures roles == old(roles) && users == old(users) && nextId == old(nextId)
      ensures companies == old(companies) && branches == old(branches)
    {
      ProductRemovalKeepsTables(roles, users, companies, branches, products, nextId, id);
      products := products - {id};
    }

    /** Deleting a branch deletes the users attached to it (`Branch.users` cascades). */
    method RemoveBranch(id: Uuid)
      requires Valid()
      modifies this
      ensures Valid()
      ensures branches == old(branches) - {id}
      ensures users == UsersOutside(old(users), {id}, None)
      ensures roles == old(roles) && nextId == old(nextId)
      ensures companies == old(companies) && products == old(products)
    {
      BranchRemovalKeepsTables(roles, users, companies, branches, products, nextId, id);
      users, branches := UsersOutside(users, {id}, None), branches - {id};
    }

    /** Deleting a company deletes its branches, its users, the users of its branches and
        its products (the cascades of `Company` and `Branch`). */
    method RemoveCompany(id: Uuid)
      requires Valid()
      modifies this
      ensures Valid()
      ensures companies == old(companies) - {id}
      ensures branches == BranchesOutside(old(branches), id)
      ensures users == UsersOutside(old(users), BranchIdsOf(old(branches), id), Some(id))
      ensures products == ProductsOutside(old(products), id)
      ensures roles == old(roles) && nextId == old(nextId)
    {
      CompanyRemovalKeepsReferences(roles, users, companies, branches, products, nextId, id);
      users := UsersOutside(users, BranchIdsOf(branches, id), Some(id));
      products := ProductsOutside(products, id);
      branches := BranchesOutside(branches, id);
      companies := companies - {id};
    }
  }

  /** The ids of the branches of company `companyId`. */
  function BranchIdsOf(branches: map<Uuid, Branch>, companyId: Uuid): (r: set<Uuid>)
    ensures forall k :: k in r <==> k in branches && branches[k].companyId == companyId
  {
    set k | k in branches && branches[k].companyId == companyId
  }

  /** The branches not owned by company `companyId`. */
  function BranchesOutside(branches: map<Uuid, Branch>, companyId: Uuid): (r: map<Uuid, Branch>)
    ensures forall k :: k in r <==> k in branches && branches[k].companyId != companyId
    ensures forall k :: k in r ==> r[k] == branches[k]
  {
    map k | k in branches && branches[k].companyId != companyId :: branches[k]
  }

  /** The users attached neither to a branch in `branchIds` nor to `company`. */
  function UsersOutside(users: map<Uuid, User>, branchIds: set<Uuid>, company: Option<Uuid>): (r: map<Uuid, User>)
    ensures forall k :: k in r <==> k in users && !InCascade(users[k], branchIds, company)
    ensures forall k :: k in r ==> r[k] == users[k]
  {
    map k | k in users && !InCascade(users[k], branchIds, company) :: users[k]
  }

  predicate InCascade(u: User, branchIds: set<Uuid>, company: Option<Uuid>)
  {
    (u.branchId.Some? && u.branchId.value in branchIds) || (company.Some? && u.companyId == company)
  }

  /** The products not owned by company `companyId`. */
  function ProductsOutside(products: map<Uuid, Product>, companyId: Uuid): (r: map<Uuid, Product>)
    ensures forall k :: k in r <==> k in products && products[k].companyId != companyId
    ensures forall k :: k in r ==> r[k] == products[k]
  {
    map k | k in products && products[k].companyId != companyId :: products[k]
  }

  // ---------------------------------------------------------------------------
  // The table invariants under the changes above
  // ---------------------------------------------------------------------------

  /** Foreign keys keep resolving when the referenced tables only gain rows. */
  lemma ReferencesGrow(roles: map<int, Role>, users: map<Uuid, User>,
                       companies: map<Uuid, Company>, companies': map<Uuid, Company>,
                       branches: map<Uuid, Branch>, branches': map<Uuid, Branch>,
                       products: map<Uuid, Product>, n: nat, n': nat)
    requires BranchesValid(branches, companies, n) && UsersValid(users, roles, companies, branches, n)
    requires ProductsValid(products, companies, n)
    requires companies.Keys <= companies'.Keys && branches.Keys <= branches'.Keys && n <= n'
    requires forall k :: k in branches && k in branches' ==> branches'[k].companyId == branches[k].companyId
    requires forall k :: k in branches' && k !in branches ==> branches'[k].companyId in companies'
    requires forall k :: k in branches' ==> branches'[k].id == k && k < n'
    ensures BranchesValid(branches', companies', n') && UsersValid(users, roles, companies', branches', n')
    ensures ProductsValid(products, companies', n')
  {
    forall k | k in users
      ensures UserRefsOk(users[k], roles, companies', branches')
    {
      assert UserRefsOk(users[k], roles, companies, branches);
    }
  }

  lemma CompanyInsertKeepsCompanies(companies: map<Uuid, Company>, c: Company, n: nat)
    requires CompaniesValid(companies, n)
    requires c.id == n && !SlugTaken(companies, c.slug) && !NameClash(companies, c)
    ensures CompaniesValid(companies[c.id := c], n + 1)
  {
    var cs := companies[c.id := c];
    assert forall a :: a in cs && a != c.id ==> a in companies && cs[a] == companies[a];
  }

  /** Raising the id counter keeps every table valid. */
  lemma CounterGrows(roles: map<int, Role>, users: map<Uuid, User>, companies: map<Uuid, Company>,
                     branches: map<Uuid, Branch>, products: map<Uuid, Product>, n: nat)
    requires TablesValid(roles, users, companies, branches, products, n)
    ensures TablesValid(roles, users, companies, branches, products, n + 1)
  {
    assert CompaniesValid(companies, n + 1);
    assert BranchesValid(branches, companies, n + 1);
    assert UsersValid(users, roles, companies, branches, n + 1);
    assert ProductsValid(products, companies, n + 1);
  }

  lemma UserInsertKeepsTables(roles: map<int, Role>, users: map<Uuid, User>, companies: map<Uuid, Company>,
                              branches: map<Uuid, Branch>, products: map<Uuid, Product>, n: nat, u: User,
                              users': map<Uuid, User>, n': nat)
    requires TablesValid(roles, users, companies, branches, products, n)
    requires u.id == n && !UsernameTaken(users, u.username) && UserRefsOk(u, roles, companies, branches)
    requires users' == users[u.id := u] && n' == n + 1
    ensures TablesValid(roles, users', companies, branches, products, n')
  {
    CounterGrows(roles, users, companies, branches, products, n);
    var us := users[u.id := u];
    assert forall k :: k in us && k != u.id ==> k in users && us[k] == users[k];
    assert UsersValid(us, roles, companies, branches, n + 1);
  }

  lemma BranchInsertKeepsTables(roles: map<int, Role>, users: map<Uuid, User>, companies: map<Uuid, Company>,
                                branches: map<Uuid, Branch>, products: map<Uuid, Product>, n: nat, b: Branch,
                                branches': map<Uuid, Branch>, n': nat)
    requires TablesValid(roles, users, companies, branches, products, n)
    requires b.id == n && b.companyId in companies
    requires branches' == branches[b.id := b] && n' == n + 1
    ensures TablesValid(roles, users, companies, branches', products, n')
  {
    CounterGrows(roles, users, companies, branches, products, n);
    ReferencesGrow(roles, users, companies, companies, branches, branches', products, n', n');
  }

  lemma ProductInsertKeepsProducts(products: map<Uuid, Product>, companies: map<Uuid, Company>, n: nat, p: Product,
                                   products': map<Uuid, Product>, n': nat)
    requires ProductsValid(products, companies, n)
    requires p.id == n && p.companyId in companies && !SkuTaken(products, p.sku, p.companyId)
    requires products' == products[p.id := p] && n' == n + 1
    ensures ProductsValid(products', companies, n')
  {
    assert forall k :: k in products' && k != p.id ==> k in products && products'[k] == products[k];
  }

  lemma ProductInsertKeepsTables(roles: map<int, Role>, users: map<Uuid, User>, companies: map<Uuid, Company>,
                                 branches: map<Uuid, Branch>, products: map<Uuid, Product>, n: nat, p: Product,
                                 products': map<Uuid, Product>, n': nat)
    requires TablesValid(roles, users, companies, branches, products, n)
    requires p.id == n && p.companyId in companies && !SkuTaken(products, p.sku, p.companyId)
    requires products' == products[p.id := p] && n' == n + 1
    ensures TablesValid(roles, users, companies, branches, products', n')
  {
    CounterGrows(roles, users, companies, branches, products, n);
    ProductInsertKeepsProducts(products, companies, n, p, products', n');
  }

  lemma CompanyReplaceKeepsTables(roles: map<int, Role>, users: map<Uuid, User>, companies: map<Uuid, Company>,
                                  branches: map<Uuid, Branch>, products: map<Uuid, Product>, n: nat, c: Company)
    requires TablesValid(roles, users, companies, branches, products, n)
    requires c.id in companies && !NameClash(companies, c)
    requires forall k :: k in companies && k != c.id ==> companies[k].slug != c.slug
    ensures TablesValid(roles, users, companies[c.id := c], branches, products, n)
  {
    var cs := companies[c.id := c];
    assert cs.Keys == companies.Keys;
    assert forall k :: k in cs && k != c.id ==> cs[k] == companies[k];
    assert CompaniesValid(cs, n);
    ReferencesGrow(roles, users, companies, cs, branches, branches, products, n, n);
  }

  lemma BranchReplaceKeepsTables(roles: map<int, Role>, users: map<Uuid, User>, companies: map<Uuid, Company>,
                                 branches: map<Uuid, Branch>, products: map<Uuid, Product>, n: nat, b: Branch)
    requires TablesValid(roles, users, companies, branches, products, n)
    requires b.id in branches && b.companyId == branches[b.id].companyId
    ensures TablesValid(roles, users, companies, branches[b.id := b], products, n)
  {
    ReferencesGrow(roles, users, companies, companies, branches, branches[b.id := b], products, n, n);
  }

  lemma ProductReplaceKeepsTables(roles: map<int, Role>, users: map<Uuid, User>, companies: map<Uuid, Company>,
                                  branches: map<Uuid, Branch>, products: map<Uuid, Product>, n: nat, p: Product)
    requires TablesValid(roles, users, companies, branches, products, n)
    requires p.id in products && p.companyId == products[p.id].companyId
    requires forall k :: k in products && k != p.id ==> !SameSku(products[k], p)
    ensures TablesValid(roles, users, companies, branches, products[p.id := p], n)
  {
    var ps := products[p.id := p];
    assert forall k :: k in ps && k != p.id ==> k in products && ps[k] == products[k];
    assert ProductsValid(ps, companies, n);
  }

  lemma ProductRemovalKeepsTables(roles: map<int, Role>, users: map<Uuid, User>, companies: map<Uuid, Company>,
                                  branches: map<Uuid, Branch>, products: map<Uuid, Product>, n: nat, id: Uuid)
    requires TablesValid(roles, users, companies, branches, products, n)
    ensures TablesValid(roles, users, companies, branches, products - {id}, n)
  {
    var ps := products - {id};
    assert forall k :: k in ps ==> k in products && ps[k] == products[k];
    assert ProductsValid(ps, companies, n);
  }

  /** Deleting a branch with the users attached to it leaves no dangling reference. */
  lemma BranchRemovalKeepsTables(roles: map<int, Role>, users: map<Uuid, User>, companies: map<Uuid, Company>,
                                 branches: map<Uuid, Branch>, products: map<Uuid, Product>, n: nat, id: Uuid)
    requires TablesValid(roles, users, companies, branches, products, n)
    ensures TablesValid(roles, UsersOutside(users, {id}, None), companies, branches - {id}, products, n)
  {
    var bs := branches - {id};
    var us := UsersOutside(users, {id}, None);
    assert BranchesValid(bs, companies, n);
    forall k | k in us
      ensures UserRefsOk(us[k], roles, companies, bs)
    {
      assert UserRefsOk(users[k], roles, companies, branches);
    }
    assert UsersValid(us, roles, companies, bs, n);
  }

  /** Adding a company with a fresh id, a new slug and a new name keeps every table valid. */
  lemma CompanyInsertKeepsTables(roles: map<int, Role>, users: map<Uuid, User>, companies: map<Uuid, Company>,
                                 branches: map<Uuid, Branch>, products: map<Uuid, Product>, n: nat, c: Company,
                                 companies': map<Uuid, Company>, n': nat)
    requires TablesValid(roles, users, companies, branches, products, n)
    requires c.id == n && !SlugTaken(companies, c.slug) && !NameClash(companies, c)
    requires companies' == companies[c.id := c] && n' == n + 1
    ensures TablesValid(roles, users, companies', branches, products, n')
  {
    CompanyInsertKeepsCompanies(companies, c, n);
    ReferencesGrow(roles, users, companies, companies', branches, branches, products, n, n');
  }

  /** Deleting a company with its cascades leaves no dangling reference. */
  lemma CompanyRemovalKeepsReferences(roles: map<int, Role>, users: map<Uuid, User>,
                                      companies: map<Uuid, Company>, branches: map<Uuid, Branch>,
                                      products: map<Uuid, Product>, n: nat, id: Uuid)
    requires TablesValid(roles, users, companies, branches, products, n)
    ensures TablesValid(roles, UsersOutside(users, BranchIdsOf(branches, id), Some(id)), companies - {id},
                        BranchesOutside(branches, id), ProductsOutside(products, id), n)
  {
    var cs := companies - {id};
    var gone := BranchIdsOf(branches, id);
    var bs := BranchesOutside(branches, id);
    var us := UsersOutside(users, gone, Some(id));
    forall k | k in us
      ensures UserRefsOk(us[k], roles, cs, bs)
    {
      var u := users[k];
      assert UserRefsOk(u, roles, companies, branches);
      if u.branchId.Some? {
        assert u.branchId.value !in gone;
      }
    }
  }
}
