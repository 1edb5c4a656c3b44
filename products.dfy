/** api/v1/endpoints/products.py: the product access check and the product handlers,
    including the scoped, searchable, paged listing. */
module Products {
  import opened Wrappers
  import opened Http
  import opened Models
  import opened Schemas
  import opened Store
  import opened Auth
  import Query

  // ---------------------------------------------------------------------------
  // Access
  // ---------------------------------------------------------------------------

  /** `get_product_and_check_access`: a missing product is a 404; a company admin is
      refused (403) a product of another company; every other caller that reaches it
      (the admin gate admits only the two admin roles) gets the product. */
  function GetProductAndCheckAccess(db: Database, admin: Caller, productId: Uuid): (r: Result<Product>)
    reads db
    ensures productId !in db.products ==> r == Err(NotFound)
    ensures (productId in db.products && admin.roleName == CompanyAdmin
             && Some(db.products[productId].companyId) != admin.user.companyId) ==> r == Err(Forbidden)
    ensures r.Ok? <==> productId in db.products &&
                       (admin.roleName == CompanyAdmin ==> Some(db.products[productId].companyId) == admin.user.companyId)
    ensures r.Ok? ==> r.value == db.products[productId]
    ensures admin.roleName == GlobalAdmin && productId in db.products ==> r == Ok(db.products[productId])
  {
    if productId !in db.products then Err(NotFound)
    else
      var product := db.products[productId];
      if admin.roleName == CompanyAdmin && Some(product.companyId) != admin.user.companyId then Err(Forbidden)
      else Ok(product)
  }

  // ---------------------------------------------------------------------------
  // POST /products/
  // ---------------------------------------------------------------------------

  /** `create_product`: the admin gate (403); a company admin may only create in its own
      company (403); an SKU already used in the target company is a 400 (the same SKU in
      another company is fine). A company that does not exist fails at commit (500). */
  function CreateProductOutcome(db: Database, admin: Caller, input: ProductCreate): (r: Result<Product>)
    reads db
    ensures GetAdminUser(admin).Err? ==> r == Err(Forbidden)
    ensures admin.roleName == CompanyAdmin && Some(input.companyId) != admin.user.companyId ==> r == Err(Forbidden)
    ensures (GetAdminUser(admin).Ok? && (admin.roleName == CompanyAdmin ==> Some(input.companyId) == admin.user.companyId)
             && SkuTaken(db.products, input.sku, input.companyId)) ==> r == Err(BadRequest)
    ensures (GetAdminUser(admin).Ok? && (admin.roleName == CompanyAdmin ==> Some(input.companyId) == admin.user.companyId)
             && !SkuTaken(db.products, input.sku, input.companyId) && input.companyId !in db.companies) ==> r == Err(ServerError)
    ensures r.Ok? <==> && GetAdminUser(admin).Ok?
                       && (admin.roleName == CompanyAdmin ==> Some(input.companyId) == admin.user.companyId)
                       && !SkuTaken(db.products, input.sku, input.companyId)
                       && input.companyId in db.companies
    ensures r.Ok? ==> r.value == Product(db.nextId, input.companyId, input.name, input.sku, input.price, input.cost, input.isActive)
    ensures r.Err? ==> r.error in {Forbidden, BadRequest, ServerError}
  {
    if GetAdminUser(admin).Err? then Err(Forbidden)
    else if admin.roleName == CompanyAdmin && Some(input.companyId) != admin.user.companyId then Err(Forbidden)
    else if SkuTaken(db.products, input.sku, input.companyId) then Err(BadRequest)
    else if input.companyId !in db.companies then Err(ServerError)
    else Ok(Product(db.nextId, input.companyId, input.name, input.sku, input.price, input.cost, input.isActive))
  }

  /** A company admin that a token resolved to always names an existing company, so its
      creations never fail at commit. */
  lemma CompanyAdminCreatesInExistingCompany(db: Database, admin: Caller, input: ProductCreate)
    requires db.Valid() && Resolved(db, admin) && admin.roleName == CompanyAdmin
    ensures CreateProductOutcome(db, admin, input) != Err(ServerError)
  {
    assert UserRefsOk(db.users[admin.user.id], db.roles, db.companies, db.branches);
  }

  method CreateProduct(db: Database, admin: Caller, input: ProductCreate) returns (r: Result<Product>)
    requires db.Valid()
    modifies db
    ensures db.Valid()
    ensures r == old(CreateProductOutcome(db, admin, input))
    ensures r.Ok? ==> r.value.id !in old(db.products) && db.products == old(db.products)[r.value.id := r.value]
    ensures r.Err? ==> db.products == old(db.products) && db.nextId == old(db.nextId)
    ensures db.roles == old(db.roles) && db.users == old(db.users)
    ensures db.companies == old(db.companies) && db.branches == old(db.branches)
  {
    r := CreateProductOutcome(db, admin, input);
    if r.Ok? {
      db.InsertProduct(r.value);
    }
  }

  // ---------------------------------------------------------------------------
  // GET /products/
  // ---------------------------------------------------------------------------

  /** The role scope of the listing: a global admin sees the company of the query, or every
      company; anyone else sees its own company only (nothing when it has none), whatever
      the query asks for. */
  predicate InScope(p: Product, caller: Caller, companyId: Option<Uuid>)
  {
    if caller.roleName == GlobalAdmin then companyId.Some? ==> p.companyId == companyId.value
    else Some(p.companyId) == caller.user.companyId
  }

  /** `name ILIKE '%search%' OR sku ILIKE '%search%'`; an absent or empty search filters
      nothing. */
  predicate MatchesSearch(p: Product, search: Option<string>)
  {
    search.Some? && search.value != [] ==>
      Query.ContainsIgnoreCase(p.name, search.value) || Query.ContainsIgnoreCase(p.sku, search.value)
  }

  /** A product the listing includes before paging. */
  predicate Listed(p: Product, caller: Caller, companyId: Option<Uuid>, search: Option<string>)
  {
    InScope(p, caller, companyId) && MatchesSearch(p, search)
  }

  // The filters the listing's query applies, one per `query.filter(...)` call.

  function CompanyFilter(companyId: Uuid): Product -> bool
  {
    (p: Product) => p.companyId == companyId
  }

  function OwnCompanyFilter(caller: Caller): Product -> bool
  {
    (p: Product) => Some(p.companyId) == caller.user.companyId
  }

  function SearchFilter(term: string): Product -> bool
  {
    (p: Product) => Query.ContainsIgnoreCase(p.name, term) || Query.ContainsIgnoreCase(p.sku, term)
  }

  function ScopeFilter(caller: Caller, companyId: Option<Uuid>): Product -> bool
  {
    (p: Product) => InScope(p, caller, companyId)
  }

  function ListedFilter(caller: Caller, companyId: Option<Uuid>, search: Option<string>): Product -> bool
  {
    (p: Product) => Listed(p, caller, companyId, search)
  }

  /** The products `read_products` selects before `offset`/`limit`, in row order. */
  function Selected(db: Database, caller: Caller, companyId: Option<Uuid>, search: Option<string>): (r: seq<Product>)
    reads db
    requires db.Valid()
    ensures forall p :: p in r <==> p in db.products.Values && Listed(p, caller, companyId, search)
  {
    Query.Filter(Query.Rows(db.products, db.nextId), ListedFilter(caller, companyId, search))
  }

  /** The role-scope step of the query keeps exactly the rows in the caller's scope. */
  lemma ScopeStep(rows: seq<Product>, caller: Caller, companyId: Option<Uuid>)
    ensures (if caller.roleName == GlobalAdmin then
               (if companyId.Some? then Query.Filter(rows, CompanyFilter(companyId.value)) else rows)
             else Query.Filter(rows, OwnCompanyFilter(caller)))
            == Query.Filter(rows, ScopeFilter(caller, companyId))
  {
    var all := (p: Product) => true;
    Query.FilterAll(rows, all);
    if caller.roleName == GlobalAdmin && companyId.None? {
      Query.FilterAll(rows, ScopeFilter(caller, companyId));
    } else if caller.roleName == GlobalAdmin {
      Query.FilterFilter(rows, all, CompanyFilter(companyId.value), ScopeFilter(caller, companyId));
    } else {
      Query.FilterFilter(rows, all, OwnCompanyFilter(caller), ScopeFilter(caller, companyId));
    }
  }

  /** The search step after the scope step keeps exactly the listed rows. */
  lemma SearchStep(rows: seq<Product>, caller: Caller, companyId: Option<Uuid>, search: Option<string>)
    ensures (if search.Some? && search.value != [] then
               Query.Filter(Query.Filter(rows, ScopeFilter(caller, companyId)), SearchFilter(search.value))
             else Query.Filter(rows, ScopeFilter(caller, companyId)))
            == Query.Filter(rows, ListedFilter(caller, companyId, search))
  {
    if search.Some? && search.value != [] {
      Query.FilterFilter(rows, ScopeFilter(caller, companyId), SearchFilter(search.value),
                         ListedFilter(caller, companyId, search));
    } else {
      var all := (p: Product) => true;
      Query.FilterFilter(rows, ScopeFilter(caller, companyId), all, ListedFilter(caller, companyId, search));
      Query.FilterAll(Query.Filter(rows, ScopeFilter(caller, companyId)), all);
    }
  }

  /** `read_products`: the query is narrowed step by step (role scope, then search), then
      `skip` rows are dropped and at most `limit` kept. Every product returned is in the
      caller's scope and matches the search. */
  method ReadProducts(db: Database, caller: Caller, limit: nat, skip: nat, search: Option<string>, companyId: Option<Uuid>)
    returns (r: seq<Product>)
    requires db.Valid()
    ensures r == Query.Page(Selected(db, caller, companyId, search), skip, limit)
    ensures |r| <= limit
    ensures forall p :: p in r ==> p in db.products.Values
    ensures caller.roleName != GlobalAdmin ==> forall p :: p in r ==> Some(p.companyId) == caller.user.companyId
    ensures caller.roleName == GlobalAdmin && companyId.Some? ==> forall p :: p in r ==> p.companyId == companyId.value
    ensures search.Some? && search.value != [] ==>
              forall p :: p in r ==> Query.ContainsIgnoreCase(p.name, search.value) || Query.ContainsIgnoreCase(p.sku, search.value)
  {
    var all := Query.Rows(db.products, db.nextId);
    var query := all;
    if caller.roleName == GlobalAdmin {
      if companyId.Some? {
        query := Query.Filter(query, CompanyFilter(companyId.value));
      }
    } else {
      query := Query.Filter(query, OwnCompanyFilter(caller));
    }
    ScopeStep(all, caller, companyId);
    if search.Some? && search.value != [] {
      query := Query.Filter(query, SearchFilter(search.value));
    }
    SearchStep(all, caller, companyId, search);
    r := Query.Page(query, skip, limit);
  }

  /** The first page holds every selected product when they fit in it. */
  lemma FirstPageComplete(selected: seq<Product>, limit: nat)
    requires |selected| <= limit
    ensures Query.Page(selected, 0, limit) == selected
  {
  }

  // ---------------------------------------------------------------------------
  // GET /products/{id}
  // ---------------------------------------------------------------------------

  /** `read_product`: a missing product is a 404 before any access check; then a caller
      other than a global admin is refused (403) a product of another company. */
  function ReadProduct(db: Database, caller: Caller, productId: Uuid): (r: Result<Product>)
    reads db
    ensures productId !in db.products ==> r == Err(NotFound)
    ensures (productId in db.products && caller.roleName != GlobalAdmin
             && Some(db.products[productId].companyId) != caller.user.companyId) ==> r == Err(Forbidden)
    ensures r.Ok? <==> productId in db.products &&
                       (caller.roleName == GlobalAdmin || Some(db.products[productId].companyId) == caller.user.companyId)
    ensures r.Ok? ==> r.value == db.products[productId]
  {
    if productId !in db.products then Err(NotFound)
    else if caller.roleName != GlobalAdmin && Some(db.products[productId].companyId) != caller.user.companyId then
      Err(Forbidden)
    else Ok(db.products[productId])
  }

  /** A product is visible to `read_product` exactly when the unfiltered listing of the same
      caller includes it. */
  lemma ReadProductAgreesWithListing(db: Database, caller: Caller, productId: Uuid)
    requires productId in db.products
    ensures ReadProduct(db, caller, productId).Ok? <==> InScope(db.products[productId], caller, None)
  {
  }

  // ---------------------------------------------------------------------------
  // PATCH /products/{id}
  // ---------------------------------------------------------------------------

  /** A supplied item whose value is not null; the loop sets only these. */
  predicate HasValue(f: ProductField)
  {
    match f
    case ProductName(v) => v.Some?
    case ProductSku(v) => v.Some?
    case ProductPrice(v) => v.Some?
    case ProductCost(v) => v.Some?
    case ProductActive(v) => v.Some?
  }

  /** `setattr(product, key, value)` for one supplied non-null item. */
  function SetProductAttr(p: Product, f: ProductField): Product
    requires HasValue(f)
  {
    match f
    case ProductName(v) => p.(name := v.value)
    case ProductSku(v) => p.(sku := v.value)
    case ProductPrice(v) => p.(price := v.value)
    case ProductCost(v) => p.(cost := v.value)
    case ProductActive(v) => p.(isActive := v.value)
  }

  /** The `setattr` loop: the supplied items applied in order, null values skipped. */
  function ApplyProductFields(p: Product, fields: seq<ProductField>): (r: Product)
    ensures r.id == p.id && r.companyId == p.companyId
    decreases |fields|
  {
    if fields == [] then p
    else
      var q := ApplyProductFields(p, fields[..|fields| - 1]);
      var f := fields[|fields| - 1];
      if HasValue(f) then SetProductAttr(q, f) else q
  }

  /** Applying two runs of items is applying their concatenation. */
  lemma {:induction false} ApplyProductAppend(p: Product, a: seq<ProductField>, b: seq<ProductField>)
    ensures ApplyProductFields(p, a + b) == ApplyProductFields(ApplyProductFields(p, a), b)
    decreases |b|
  {
    if b == [] {
      assert a + b == a;
    } else {
      var init := b[..|b| - 1];
      assert (a + b)[..|a + b| - 1] == a + init;
      assert (a + b)[|a + b| - 1] == b[|b| - 1];
      ApplyProductAppend(p, a, init);
    }
  }

  /** The loop never changes the id or the owning company. */
  lemma {:induction false} ProductFieldsFrame(p: Product, fields: seq<ProductField>)
    ensures ApplyProductFields(p, fields).id == p.id
    ensures ApplyProductFields(p, fields).companyId == p.companyId
    decreases |fields|
  {
    if fields != [] {
      ProductFieldsFrame(p, fields[..|fields| - 1]);
    }
  }

  /** The value a field ends with: the one the request supplied, unless it was absent or
      null. */
  function Supplied<T>(f: Patch<Option<T>>, current: T): T
  {
    if f.Set? && f.value.Some? then f.value.value else current
  }

  /** One more item, or none, applied after a run of items. */
  lemma ApplyOneMore(p: Product, prefix: seq<ProductField>, one: seq<ProductField>, q: Product)
    requires ApplyProductFields(p, prefix) == q && |one| <= 1
    ensures ApplyProductFields(p, prefix + one) ==
            if one == [] || !HasValue(one[0]) then q else SetProductAttr(q, one[0])
  {
    ApplyProductAppend(p, prefix, one);
    if one != [] {
      assert one[..0] == [];
    }
  }

  /** The name, SKU and price items of an update, applied in that order. */
  lemma PatchHead(p: Product, u: ProductUpdate)
    ensures var n := if u.name.Set? then [ProductName(u.name.value)] else [];
            var s := if u.sku.Set? then [ProductSku(u.sku.value)] else [];
            var pr := if u.price.Set? then [ProductPrice(u.price.value)] else [];
            ApplyProductFields(p, n + s + pr) ==
            p.(name := Supplied(u.name, p.name), sku := Supplied(u.sku, p.sku), price := Supplied(u.price, p.price))
  {
    var n := if u.name.Set? then [ProductName(u.name.value)] else [];
    var s := if u.sku.Set? then [ProductSku(u.sku.value)] else [];
    var pr := if u.price.Set? then [ProductPrice(u.price.value)] else [];
    var q1 := p.(name := Supplied(u.name, p.name));
    var q2 := q1.(sku := Supplied(u.sku, p.sku));
    assert ApplyProductFields(p, n) == q1 by {
      assert [] + n == n;
      ApplyOneMore(p, [], n, p);
    }
    assert ApplyProductFields(p, n + s) == q2 by {
      ApplyOneMore(p, n, s, q1);
    }
    ApplyOneMore(p, n + s, pr, q2);
  }

  /** Applying the items of an update sets exactly the fields sent with a value; absent
      fields and fields sent as null keep their value. */
  lemma ProductPatch(p: Product, u: ProductUpdate)
    ensures ApplyProductFields(p, ProductItems(u)) ==
            Product(p.id, p.companyId, Supplied(u.name, p.name), Supplied(u.sku, p.sku),
                    Supplied(u.price, p.price), Supplied(u.cost, p.cost), Supplied(u.isActive, p.isActive))
  {
    var head := (if u.name.Set? then [ProductName(u.name.value)] else [])
                + (if u.sku.Set? then [ProductSku(u.sku.value)] else [])
                + (if u.price.Set? then [ProductPrice(u.price.value)] else []);
    var c := if u.cost.Set? then [ProductCost(u.cost.value)] else [];
    var a := if u.isActive.Set? then [ProductActive(u.isActive.value)] else [];
    var q3 := p.(name := Supplied(u.name, p.name), sku := Supplied(u.sku, p.sku), price := Supplied(u.price, p.price));
    var q4 := q3.(cost := Supplied(u.cost, p.cost));
    PatchHead(p, u);
    assert ApplyProductFields(p, head + c) == q4 by {
      ApplyOneMore(p, head, c, q3);
    }
    ApplyOneMore(p, head + c, a, q4);
    assert ProductItems(u) == head + c + a;
  }

  /** `update_product`: the admin gate (403), the access check (404, then 403), an SKU that
      changes to one another product of the same company holds (400); then the fields
      sent with a value are set and every other field kept. A name or SKU longer than its
      column fails at commit (500): `ProductUpdate` redeclares both without the
      `max_length` of `ProductBase`. */
  function UpdateProductOutcome(db: Database, admin: Caller, productId: Uuid, update: ProductUpdate)
    : (r: Result<Product>)
    reads db
    requires db.Valid()
    ensures GetAdminUser(admin).Err? ==> r == Err(Forbidden)
    ensures GetAdminUser(admin).Ok? && GetProductAndCheckAccess(db, admin, productId).Err? ==>
              r == Err(GetProductAndCheckAccess(db, admin, productId).error)
    ensures (GetAdminUser(admin).Ok? && GetProductAndCheckAccess(db, admin, productId).Ok?
             && update.sku.Set? && update.sku.value.Some? && update.sku.value.value != db.products[productId].sku
             && SkuTaken(db.products, update.sku.value.value, db.products[productId].companyId)) ==> r == Err(BadRequest)
    ensures (GetAdminUser(admin).Ok? && GetProductAndCheckAccess(db, admin, productId).Ok?
             && !(update.sku.Set? && update.sku.value.Some? && update.sku.value.value != db.products[productId].sku
                  && SkuTaken(db.products, update.sku.value.value, db.products[productId].companyId))) ==>
              (r.Ok? <==> ProductFits(ApplyProductFields(db.products[productId], ProductItems(update))))
    ensures r.Ok? ==> && productId in db.products
                      && var stored := db.products[productId];
                      && r.value == Product(productId, stored.companyId, Supplied(update.name, stored.name),
                                            Supplied(update.sku, stored.sku), Supplied(update.price, stored.price),
                                            Supplied(update.cost, stored.cost), Supplied(update.isActive, stored.isActive))
    ensures r.Ok? ==> forall k :: k in db.products && k != productId ==> !SameSku(db.products[k], r.value)
    ensures r.Ok? ==> ProductFits(r.value)
    ensures r.Err? ==> r.error in {Forbidden, NotFound, BadRequest, ServerError}
  {
    if GetAdminUser(admin).Err? then Err(Forbidden)
    else
      var access := GetProductAndCheckAccess(db, admin, productId);
      if access.Err? then Err(access.error)
      else
        var product := access.value;
        if update.sku.Set? && update.sku.value.Some? && update.sku.value.value != product.sku
           && SkuTaken(db.products, update.sku.value.value, product.companyId) then
          Err(BadRequest)
        else
          ProductPatch(product, update);
          var patched := ApplyProductFields(product, ProductItems(update));
          if !ProductFits(patched) then Err(ServerError) else Ok(patched)
  }

  method UpdateProduct(db: Database, admin: Caller, productId: Uuid, update: ProductUpdate)
    returns (r: Result<Product>)
    requires db.Valid()
    modifies db
    ensures db.Valid()
    ensures r == old(UpdateProductOutcome(db, admin, productId, update))
    ensures r.Ok? ==> db.products == old(db.products)[productId := r.value]
    ensures r.Err? ==> db.products == old(db.products)
    ensures db.roles == old(db.roles) && db.users == old(db.users) && db.nextId == old(db.nextId)
    ensures db.companies == old(db.companies) && db.branches == old(db.branches)
  {
    if GetAdminUser(admin).Err? {
      return Err(Forbidden);
    }
    var access := GetProductAndCheckAccess(db, admin, productId);
    if access.Err? {
      return Err(access.error);
    }
    var product := access.value;
    if update.sku.Set? && update.sku.value.Some? && update.sku.value.value != product.sku
       && SkuTaken(db.products, update.sku.value.value, product.companyId) {
      return Err(BadRequest);
    }
    var updateData := ProductItems(update);
    var i := 0;
    while i < |updateData|
      invariant 0 <= i <= |updateData|
      invariant product == ApplyProductFields(db.products[productId], updateData[..i])
    {
      assert updateData[..i + 1][..i] == updateData[..i];
      if HasValue(updateData[i]) {
        product := SetProductAttr(product, updateData[i]);
      }
      i := i + 1;
    }
    assert updateData[..i] == updateData;
    ProductPatch(db.products[productId], update);
    if !ProductFits(product) {
      return Err(ServerError);
    }
    db.ReplaceProduct(product);
    r := Ok(product);
  }

  // ---------------------------------------------------------------------------
  // DELETE /products/{id}
  // ---------------------------------------------------------------------------

  /** `delete_product`: the admin gate (403), then the access check (404, then 403). */
  function DeleteProductOutcome(db: Database, admin: Caller, productId: Uuid): (r: Result<()>)
    reads db
    ensures GetAdminUser(admin).Err? ==> r == Err(Forbidden)
    ensures GetAdminUser(admin).Ok? && productId !in db.products ==> r == Err(NotFound)
    ensures GetAdminUser(admin).Ok? && GetProductAndCheckAccess(db, admin, productId).Err? ==>
              r == Err(GetProductAndCheckAccess(db, admin, productId).error)
    ensures r.Ok? <==> GetAdminUser(admin).Ok? && GetProductAndCheckAccess(db, admin, productId).Ok?
    ensures r.Ok? && admin.roleName == CompanyAdmin ==> Some(db.products[productId].companyId) == admin.user.companyId
    ensures r.Err? ==> r.error in {Forbidden, NotFound}
  {
    if GetAdminUser(admin).Err? then Err(Forbidden)
    else
      var access := GetProductAndCheckAccess(db, admin, productId);
      if access.Err? then Err(access.error) else Ok(())
  }

  method DeleteProduct(db: Database, admin: Caller, productId: Uuid) returns (r: Result<()>)
    requires db.Valid()
    modifies db
    ensures db.Valid()
    ensures r == old(DeleteProductOutcome(db, admin, productId))
    ensures r.Ok? ==> db.products == old(db.products) - {productId}
    ensures r.Err? ==> db.products == old(db.products)
    ensures db.roles == old(db.roles) && db.users == old(db.users) && db.nextId == old(db.nextId)
    ensures db.companies == old(db.companies) && db.branches == old(db.branches)
  {
    r := DeleteProductOutcome(db, admin, productId);
    if r.Ok? {
      db.RemoveProduct(productId);
    }
  }
}
