/** api/v1/endpoints/platform.py: the company and branch permission checks and the
    company and branch handlers. */
module Platform {
  import opened Wrappers
  import opened Http
  import opened Models
  import opened Schemas
  import opened Store
  import opened Auth
  import Query

  // ---------------------------------------------------------------------------
  // Permission checks
  // ---------------------------------------------------------------------------

  /** `check_company_access` (read access): a global admin always passes; anyone else only
      for the company it belongs to. A caller without a company never matches. */
  function CheckCompanyAccess(c: Caller, companyId: Uuid): (r: Result<Caller>)
    ensures r.Ok? <==> c.roleName == GlobalAdmin || c.user.companyId == Some(companyId)
    ensures r.Ok? ==> r.value == c
    ensures r.Err? ==> r.error == Forbidden
  {
    if c.roleName == GlobalAdmin then Ok(c)
    else if c.user.companyId != Some(companyId) then Err(Forbidden)
    else Ok(c)
  }

  /** `check_company_modification_access`: a global admin, or the company admin of that very
      company; every other caller (a cashier of the same company included) gets 403. */
  function CheckCompanyModificationAccess(c: Caller, companyId: Uuid): (r: Result<Caller>)
    ensures r.Ok? <==> c.roleName == GlobalAdmin || (c.roleName == CompanyAdmin && c.user.companyId == Some(companyId))
    ensures r.Ok? ==> r.value == c
    ensures r.Err? ==> r.error == Forbidden
  {
    if c.roleName == GlobalAdmin then Ok(c)
    else if c.roleName == CompanyAdmin && c.user.companyId == Some(companyId) then Ok(c)
    else Err(Forbidden)
  }

  /** `check_branch_modification_access`: a global admin passes without any lookup. A company
      admin with a company gets 404 for a missing branch, passes for a branch of its company
      and gets 403 for a branch of another; every other caller gets 403. */
  function CheckBranchModificationAccess(db: Database, c: Caller, branchId: Uuid): (r: Result<Caller>)
    reads db
    ensures c.roleName == GlobalAdmin ==> r == Ok(c)
    ensures c.roleName != GlobalAdmin && (c.roleName != CompanyAdmin || c.user.companyId.None?) ==> r == Err(Forbidden)
    ensures (c.roleName == CompanyAdmin && c.user.companyId.Some? && branchId !in db.branches) ==> r == Err(NotFound)
    ensures (c.roleName == CompanyAdmin && c.user.companyId.Some? && branchId in db.branches &&
             db.branches[branchId].companyId != c.user.companyId.value) ==> r == Err(Forbidden)
    ensures r.Ok? <==> c.roleName == GlobalAdmin ||
                       (c.roleName == CompanyAdmin && c.user.companyId.Some? &&
                        BranchOfCompany(db.branches, branchId, c.user.companyId.value))
    ensures r.Ok? ==> r.value == c
    ensures r.Err? ==> r.error in {Forbidden, NotFound}
  {
    if c.roleName == GlobalAdmin then Ok(c)
    else if c.roleName == CompanyAdmin && c.user.companyId.Some? then
      if branchId !in db.branches then Err(NotFound)
      else if Some(db.branches[branchId].companyId) == c.user.companyId then Ok(c)
      else Err(Forbidden)
    else Err(Forbidden)
  }

  /** Modifying a company implies reading it; a company admin of another company, and any
      non-admin role, may do neither modification. */
  lemma ModificationImpliesAccess(c: Caller, companyId: Uuid)
    ensures CheckCompanyModificationAccess(c, companyId).Ok? ==> CheckCompanyAccess(c, companyId).Ok?
    ensures c.roleName != GlobalAdmin && c.roleName != CompanyAdmin ==>
              CheckCompanyModificationAccess(c, companyId) == Err(Forbidden)
  {
  }

  // ---------------------------------------------------------------------------
  // Companies
  // ---------------------------------------------------------------------------

  /** `create_company`: global admins only (403); a taken slug is a 400. The name column is
      unique too but not pre-checked, so a taken name fails at commit (500). */
  function CreateCompanyOutcome(db: Database, caller: Caller, input: CompanyCreate): (r: Result<Company>)
    reads db
    requires db.Valid()
    ensures GetGlobalAdmin(caller).Err? ==> r == Err(Forbidden)
    ensures GetGlobalAdmin(caller).Ok? && SlugTaken(db.companies, input.slug) ==> r == Err(BadRequest)
    ensures (GetGlobalAdmin(caller).Ok? && !SlugTaken(db.companies, input.slug)
             && NameClash(db.companies, Company(db.nextId, input.name, input.slug))) ==> r == Err(ServerError)
    ensures r.Ok? <==> GetGlobalAdmin(caller).Ok? && !SlugTaken(db.companies, input.slug) &&
                       !(exists k :: k in db.companies && db.companies[k].name == input.name)
    ensures r.Ok? ==> r.value == Company(db.nextId, input.name, input.slug)
    ensures r.Err? ==> r.error in {Forbidden, BadRequest, ServerError}
  {
    if GetGlobalAdmin(caller).Err? then Err(Forbidden)
    else if SlugTaken(db.companies, input.slug) then Err(BadRequest)
    else
      var company := Company(db.nextId, input.name, input.slug);
      if NameClash(db.companies, company) then Err(ServerError) else Ok(company)
  }

  method CreateCompany(db: Database, caller: Caller, input: CompanyCreate) returns (r: Result<Company>)
    requires db.Valid()
    modifies db
    ensures db.Valid()
    ensures r == old(CreateCompanyOutcome(db, caller, input))
    ensures r.Ok? ==> r.value.id !in old(db.companies) && db.companies == old(db.companies)[r.value.id := r.value]
    ensures r.Err? ==> db.companies == old(db.companies) && db.nextId == old(db.nextId)
    ensures db.roles == old(db.roles) && db.users == old(db.users)
    ensures db.branches == old(db.branches) && db.products == old(db.products)
  {
    r := CreateCompanyOutcome(db, caller, input);
    if r.Ok? {
      db.InsertCompany(r.value);
    }
  }

  /** `read_companies`: a global admin lists every company; anyone else lists its own
      company, or nothing when it has none. */
  function ReadCompanies(db: Database, caller: Caller): (r: seq<Company>)
    reads db
    requires db.Valid()
    ensures caller.roleName == GlobalAdmin ==> forall x :: x in r <==> x in db.companies.Values
    ensures caller.roleName != GlobalAdmin ==> forall x :: x in r ==> caller.user.companyId == Some(x.id)
    ensures caller.roleName != GlobalAdmin && caller.user.companyId.None? ==> r == []
    ensures caller.roleName != GlobalAdmin && caller.user.companyId.Some? && caller.user.companyId.value in db.companies
            ==> db.companies[caller.user.companyId.value] in r
    ensures forall x :: x in r ==> x in db.companies.Values
  {
    var all := Query.Rows(db.companies, db.nextId);
    if caller.roleName == GlobalAdmin then all
    else if caller.user.companyId.Some? then
      var own := caller.user.companyId.value;
      assert own in db.companies ==> db.companies[own] in db.companies.Values;
      Query.Filter(all, (x: Company) => x.id == own)
    else []
  }

  /** `read_company`: 404 for an unknown id before any access check, then 403 for a caller
      that is neither a global admin nor a member of the company. */
  function ReadCompany(db: Database, caller: Caller, companyId: Uuid): (r: Result<Company>)
    reads db
    ensures companyId !in db.companies ==> r == Err(NotFound)
    ensures companyId in db.companies && caller.roleName != GlobalAdmin && caller.user.companyId != Some(companyId)
            ==> r == Err(Forbidden)
    ensures r.Ok? <==> companyId in db.companies && CheckCompanyAccess(caller, companyId).Ok?
    ensures r.Ok? ==> r.value == db.companies[companyId]
  {
    if companyId !in db.companies then Err(NotFound)
    else if caller.roleName != GlobalAdmin && caller.user.companyId != Some(companyId) then Err(Forbidden)
    else Ok(db.companies[companyId])
  }

  /** `setattr(company, key, value)` for one supplied field. */
  function SetCompanyAttr(c: Company, f: CompanyField): Company
  {
    match f
    case CompanyName(name) => c.(name := name)
    case CompanySlug(slug) => c.(slug := slug)
  }

  /** The `setattr` loop: the supplied fields applied in order. */
  function ApplyCompanyFields(c: Company, fields: seq<CompanyField>): (r: Company)
    ensures r.id == c.id
    decreases |fields|
  {
    if fields == [] then c
    else SetCompanyAttr(ApplyCompanyFields(c, fields[..|fields| - 1]), fields[|fields| - 1])
  }

  /** The loop never changes the id, and leaves a field no item names as it was. */
  lemma {:induction false} CompanyFieldsFrame(c: Company, fields: seq<CompanyField>)
    ensures ApplyCompanyFields(c, fields).id == c.id
    ensures (forall f :: f in fields ==> !f.CompanyName?) ==> ApplyCompanyFields(c, fields).name == c.name
    ensures (forall f :: f in fields ==> !f.CompanySlug?) ==> ApplyCompanyFields(c, fields).slug == c.slug
    decreases |fields|
  {
    if fields != [] {
      var init := fields[..|fields| - 1];
      assert forall f :: f in init ==> f in fields;
      CompanyFieldsFrame(c, init);
    }
  }

  /** Applying the items of an update sets exactly the fields the request sent. */
  lemma CompanyPatch(c: Company, u: CompanyUpdate)
    ensures ApplyCompanyFields(c, CompanyItems(u)) == Company(c.id, u.name.GetOr(c.name), u.slug.GetOr(c.slug))
  {
    var items := CompanyItems(u);
    if u.name.Some? && u.slug.Some? {
      assert items == [CompanyName(u.name.value), CompanySlug(u.slug.value)];
      var first := items[..1];
      assert first == [CompanyName(u.name.value)] && first[..0] == [];
      assert ApplyCompanyFields(c, first) == c.(name := u.name.value);
      assert ApplyCompanyFields(c, items) == SetCompanyAttr(ApplyCompanyFields(c, first), items[1]);
    } else if u.name.Some? || u.slug.Some? {
      assert items[..0] == [];
    }
  }

  /** The update sends a slug other than the company's own that some company already holds. */
  predicate SlugChange(companies: map<Uuid, Company>, company: Company, update: CompanyUpdate)
  {
    update.slug.Some? && update.slug.value != company.slug && SlugTaken(companies, update.slug.value)
  }

  /** `update_company`: the modification check (403), an unknown id (404), a slug that
      changes to one another company holds (400); then the supplied fields are set and the
      rest kept. Keeping the current slug is allowed. A name another company holds fails at
      commit (500), and so does a name or slug longer than its column: `CompanyUpdate`
      redeclares both fields without the `max_length` of `CompanyBase`. */
  function UpdateCompanyOutcome(db: Database, caller: Caller, companyId: Uuid, update: CompanyUpdate)
    : (r: Result<Company>)
    reads db
    requires db.Valid()
    ensures CheckCompanyModificationAccess(caller, companyId).Err? ==> r == Err(Forbidden)
    ensures CheckCompanyModificationAccess(caller, companyId).Ok? && companyId !in db.companies ==> r == Err(NotFound)
    ensures (CheckCompanyModificationAccess(caller, companyId).Ok? && companyId in db.companies && update.slug.Some?
             && update.slug.value != db.companies[companyId].slug && SlugTaken(db.companies, update.slug.value))
            ==> r == Err(BadRequest)
    ensures (CheckCompanyModificationAccess(caller, companyId).Ok? && companyId in db.companies
             && !SlugChange(db.companies, db.companies[companyId], update))
            ==> var stored := db.companies[companyId];
                var patched := Company(companyId, update.name.GetOr(stored.name), update.slug.GetOr(stored.slug));
                r == if NameClash(db.companies, patched) || !CompanyFits(patched) then Err(ServerError) else Ok(patched)
    ensures r.Ok? ==> && companyId in db.companies
                      && r.value.id == companyId
                      && r.value.name == update.name.GetOr(db.companies[companyId].name)
                      && r.value.slug == update.slug.GetOr(db.companies[companyId].slug)
    ensures r.Ok? ==> forall k :: k in db.companies && k != companyId ==>
                        db.companies[k].slug != r.value.slug && db.companies[k].name != r.value.name
    ensures r.Ok? ==> CompanyFits(r.value)
    ensures r.Err? ==> r.error in {Forbidden, NotFound, BadRequest, ServerError}
  {
    if CheckCompanyModificationAccess(caller, companyId).Err? then Err(Forbidden)
    else if companyId !in db.companies then Err(NotFound)
    else
      var company := db.companies[companyId];
      if SlugChange(db.companies, company, update) then
        Err(BadRequest)
      else
        CompanyPatch(company, update);
        var patched := ApplyCompanyFields(company, CompanyItems(update));
        if NameClash(db.companies, patched) || !CompanyFits(patched) then Err(ServerError) else Ok(patched)
  }

  /** Re-sending a company's own slug (and no name) is accepted and changes nothing. The
      stored row fits its columns, as every row PostgreSQL has committed does. */
  lemma ResendOwnSlug(db: Database, caller: Caller, companyId: Uuid)
    requires db.Valid() && CheckCompanyModificationAccess(caller, companyId).Ok? && companyId in db.companies
    requires CompanyFits(db.companies[companyId])
    ensures UpdateCompanyOutcome(db, caller, companyId, CompanyUpdate(None, Some(db.companies[companyId].slug)))
            == Ok(db.companies[companyId])
  {
    var c := db.companies[companyId];
    CompanyPatch(c, CompanyUpdate(None, Some(c.slug)));
    assert !NameClash(db.companies, c);
  }

  /** The endpoint: the checks, the `setattr` loop over the supplied items, and the commit. */
  method UpdateCompany(db: Database, caller: Caller, companyId: Uuid, update: CompanyUpdate)
    returns (r: Result<Company>)
    requires db.Valid()
    modifies db
    ensures db.Valid()
    ensures r == old(UpdateCompanyOutcome(db, caller, companyId, update))
    ensures r.Ok? ==> db.companies == old(db.companies)[companyId := r.value]
    ensures r.Err? ==> db.companies == old(db.companies)
    ensures db.roles == old(db.roles) && db.users == old(db.users) && db.nextId == old(db.nextId)
    ensures db.branches == old(db.branches) && db.products == old(db.products)
  {
    if CheckCompanyModificationAccess(caller, companyId).Err? {
      return Err(Forbidden);
    }
    if companyId !in db.companies {
      return Err(NotFound);
    }
    var company := db.companies[companyId];
    if update.slug.Some? && update.slug.value != company.slug && SlugTaken(db.companies, update.slug.value) {
      return Err(BadRequest);
    }
    var updateData := CompanyItems(update);
    var i := 0;
    while i < |updateData|
      invariant 0 <= i <= |updateData|
      invariant company == ApplyCompanyFields(db.companies[companyId], updateData[..i])
    {
      assert updateData[..i + 1][..i] == updateData[..i];
      company := SetCompanyAttr(company, updateData[i]);
      i := i + 1;
    }
    assert updateData[..i] == updateData;
    CompanyPatch(db.companies[companyId], update);
    if NameClash(db.companies, company) || !CompanyFits(company) {
      return Err(ServerError);
    }
    db.ReplaceCompany(company);
    r := Ok(company);
  }

  /** `delete_company`: global admins only (403), an unknown id is a 404. */
  function DeleteCompanyOutcome(db: Database, caller: Caller, companyId: Uuid): (r: Result<()>)
    reads db
    ensures GetGlobalAdmin(caller).Err? ==> r == Err(Forbidden)
    ensures GetGlobalAdmin(caller).Ok? && companyId !in db.companies ==> r == Err(NotFound)
    ensures r.Ok? <==> GetGlobalAdmin(caller).Ok? && companyId in db.companies
    ensures r.Err? ==> r.error in {Forbidden, NotFound}
  {
    if GetGlobalAdmin(caller).Err? then Err(Forbidden)
    else if companyId !in db.companies then Err(NotFound)
    else Ok(())
  }

  /** The endpoint: the delete takes the company's branches, users (its own and its
      branches') and products with it. */
  method DeleteCompany(db: Database, caller: Caller, companyId: Uuid) returns (r: Result<()>)
    requires db.Valid()
    modifies db
    ensures db.Valid()
    ensures r == old(DeleteCompanyOutcome(db, caller, companyId))
    ensures r.Ok? ==> && db.companies == old(db.companies) - {companyId}
                      && db.branches == BranchesOutside(old(db.branches), companyId)
                      && db.users == UsersOutside(old(db.users), BranchIdsOf(old(db.branches), companyId), Some(companyId))
                      && db.products == ProductsOutside(old(db.products), companyId)
    ensures r.Err? ==> && db.companies == old(db.companies) && db.branches == old(db.branches)
                       && db.users == old(db.users) && db.products == old(db.products)
    ensures db.roles == old(db.roles) && db.nextId == old(db.nextId)
  {
    r := DeleteCompanyOutcome(db, caller, companyId);
    if r.Ok? {
      db.RemoveCompany(companyId);
    }
  }

  /** After a company is deleted no branch, user or product refers to it, and the rows of
      other companies are all still there. */
  lemma CompanyDeletionCascade(db: Database, companyId: Uuid)
    requires db.Valid()
    ensures var bs := BranchesOutside(db.branches, companyId);
            var us := UsersOutside(db.users, BranchIdsOf(db.branches, companyId), Some(companyId));
            var ps := ProductsOutside(db.products, companyId);
            && (forall k :: k in bs ==> bs[k].companyId != companyId)
            && (forall k :: k in us ==> us[k].companyId != Some(companyId) &&
                                        (us[k].branchId.Some? ==> us[k].branchId.value in bs))
            && (forall k :: k in ps ==> ps[k].companyId != companyId)
            && (forall k :: k in db.products && db.products[k].companyId != companyId ==> k in ps)
            && (forall k :: k in db.branches && db.branches[k].companyId != companyId ==> k in bs)
  {
    var gone := BranchIdsOf(db.branches, companyId);
    var us := UsersOutside(db.users, gone, Some(companyId));
    forall k | k in us
      ensures us[k].branchId.Some? ==> us[k].branchId.value in BranchesOutside(db.branches, companyId)
    {
      assert UserRefsOk(db.users[k], db.roles, db.companies, db.branches);
    }
  }

  // ---------------------------------------------------------------------------
  // Branches
  // ---------------------------------------------------------------------------

  /** `create_branch`: global admins only (403); an unknown company is a 404; the new branch
      belongs to the company of the path. */
  function CreateBranchOutcome(db: Database, caller: Caller, companyId: Uuid, input: BranchCreate)
    : (r: Result<Branch>)
    reads db
    ensures GetGlobalAdmin(caller).Err? ==> r == Err(Forbidden)
    ensures GetGlobalAdmin(caller).Ok? && companyId !in db.companies ==> r == Err(NotFound)
    ensures r.Ok? <==> GetGlobalAdmin(caller).Ok? && companyId in db.companies
    ensures r.Ok? ==> && r.value.id == db.nextId && r.value.companyId == companyId
                      && r.value.name == input.name && r.value.address == input.address
    ensures r.Err? ==> r.error in {Forbidden, NotFound}
  {
    if GetGlobalAdmin(caller).Err? then Err(Forbidden)
    else if companyId !in db.companies then Err(NotFound)
    else Ok(Branch(db.nextId, companyId, input.name, input.address))
  }

  method CreateBranch(db: Database, caller: Caller, companyId: Uuid, input: BranchCreate)
    returns (r: Result<Branch>)
    requires db.Valid()
    modifies db
    ensures db.Valid()
    ensures r == old(CreateBranchOutcome(db, caller, companyId, input))
    ensures r.Ok? ==> r.value.id !in old(db.branches) && db.branches == old(db.branches)[r.value.id := r.value]
    ensures r.Err? ==> db.branches == old(db.branches) && db.nextId == old(db.nextId)
    ensures db.roles == old(db.roles) && db.users == old(db.users)
    ensures db.companies == old(db.companies) && db.products == old(db.products)
  {
    r := CreateBranchOutcome(db, caller, companyId, input);
    if r.Ok? {
      db.InsertBranch(r.value);
    }
  }

  /** `read_branches`: the read-access check first (403), then an unknown company (404);
      the result holds exactly the branches of that company. */
  function ReadBranches(db: Database, caller: Caller, companyId: Uuid): (r: Result<seq<Branch>>)
    reads db
    requires db.Valid()
    ensures CheckCompanyAccess(caller, companyId).Err? ==> r == Err(Forbidden)
    ensures CheckCompanyAccess(caller, companyId).Ok? && companyId !in db.companies ==> r == Err(NotFound)
    ensures r.Ok? <==> CheckCompanyAccess(caller, companyId).Ok? && companyId in db.companies
    ensures r.Ok? ==> forall b :: b in r.value <==> b in db.branches.Values && b.companyId == companyId
    ensures r.Err? ==> r.error in {Forbidden, NotFound}
  {
    if CheckCompanyAccess(caller, companyId).Err? then Err(Forbidden)
    else if companyId !in db.companies then Err(NotFound)
    else Ok(Query.Filter(Query.Rows(db.branches, db.nextId), (b: Branch) => b.companyId == companyId))
  }

  /** `setattr(branch, key, value)` for one supplied field. */
  function SetBranchAttr(b: Branch, f: BranchField): Branch
  {
    match f
    case BranchName(name) => b.(name := name)
    case BranchAddress(address) => b.(address := address)
  }

  function ApplyBranchFields(b: Branch, fields: seq<BranchField>): (r: Branch)
    ensures r.id == b.id && r.companyId == b.companyId
    decreases |fields|
  {
    if fields == [] then b
    else SetBranchAttr(ApplyBranchFields(b, fields[..|fields| - 1]), fields[|fields| - 1])
  }

  /** The loop never changes the id or the owning company, and leaves a field no item
      names as it was. */
  lemma {:induction false} BranchFieldsFrame(b: Branch, fields: seq<BranchField>)
    ensures ApplyBranchFields(b, fields).id == b.id
    ensures ApplyBranchFields(b, fields).companyId == b.companyId
    ensures (forall f :: f in fields ==> !f.BranchName?) ==> ApplyBranchFields(b, fields).name == b.name
    ensures (forall f :: f in fields ==> !f.BranchAddress?) ==> ApplyBranchFields(b, fields).address == b.address
    decreases |fields|
  {
    if fields != [] {
      var init := fields[..|fields| - 1];
      assert forall f :: f in init ==> f in fields;
      BranchFieldsFrame(b, init);
    }
  }

  /** Applying the items of an update sets exactly the fields the request sent; a sent
      null address clears the address. */
  lemma BranchPatch(b: Branch, u: BranchUpdate)
    ensures ApplyBranchFields(b, BranchItems(u))
            == Branch(b.id, b.companyId, u.name.GetOr(b.name), if u.address.Set? then u.address.value else b.address)
  {
    var items := BranchItems(u);
    if u.name.Some? && u.address.Set? {
      assert items == [BranchName(u.name.value), BranchAddress(u.address.value)];
      var first := items[..1];
      assert first == [BranchName(u.name.value)] && first[..0] == [];
      assert ApplyBranchFields(b, first) == b.(name := u.name.value);
      assert ApplyBranchFields(b, items) == SetBranchAttr(ApplyBranchFields(b, first), items[1]);
    } else if u.name.Some? || u.address.Set? {
      assert items[..0] == [];
    }
  }

  /** `update_branch`: the branch modification check (403, or 404 for a company admin and
      a missing branch), then 404 for a missing branch; then the supplied fields are set. A
      name longer than its column fails at commit (500): `BranchUpdate` redeclares it
      without the `max_length` of `BranchBase`. */
  function UpdateBranchOutcome(db: Database, caller: Caller, branchId: Uuid, update: BranchUpdate)
    : (r: Result<Branch>)
    reads db
    requires db.Valid()
    ensures CheckBranchModificationAccess(db, caller, branchId).Err? ==>
              r == Err(CheckBranchModificationAccess(db, caller, branchId).error)
    ensures branchId !in db.branches ==> r.Err? && r.error in {Forbidden, NotFound}
    ensures CheckBranchModificationAccess(db, caller, branchId).Ok? && branchId !in db.branches ==> r == Err(NotFound)
    ensures caller.roleName == GlobalAdmin && branchId !in db.branches ==> r == Err(NotFound)
    ensures (CheckBranchModificationAccess(db, caller, branchId).Ok? && branchId in db.branches
             && !BranchFits(ApplyBranchFields(db.branches[branchId], BranchItems(update)))) ==> r == Err(ServerError)
    ensures r.Ok? <==> && branchId in db.branches && CheckBranchModificationAccess(db, caller, branchId).Ok?
                       && |update.name.GetOr(db.branches[branchId].name)| <= 100
    ensures r.Ok? ==> BranchFits(r.value)
    ensures r.Ok? ==> && r.value.id == branchId
                      && r.value.companyId == db.branches[branchId].companyId
                      && r.value.name == update.name.GetOr(db.branches[branchId].name)
                      && r.value.address == (if update.address.Set? then update.address.value
                                             else db.branches[branchId].address)
  {
    if CheckBranchModificationAccess(db, caller, branchId).Err? then
      Err(CheckBranchModificationAccess(db, caller, branchId).error)
    else if branchId !in db.branches then Err(NotFound)
    else
      var branch := db.branches[branchId];
      BranchPatch(branch, update);
      var patched := ApplyBranchFields(branch, BranchItems(update));
      if !BranchFits(patched) then Err(ServerError) else Ok(patched)
  }

  method UpdateBranch(db: Database, caller: Caller, branchId: Uuid, update: BranchUpdate)
    returns (r: Result<Branch>)
    requires db.Valid()
    modifies db
    ensures db.Valid()
    ensures r == old(UpdateBranchOutcome(db, caller, branchId, update))
    ensures r.Ok? ==> db.branches == old(db.branches)[branchId := r.value]
    ensures r.Err? ==> db.branches == old(db.branches)
    ensures db.roles == old(db.roles) && db.users == old(db.users) && db.nextId == old(db.nextId)
    ensures db.companies == old(db.companies) && db.products == old(db.products)
  {
    var access := CheckBranchModificationAccess(db, caller, branchId);
    if access.Err? {
      return Err(access.error);
    }
    if branchId !in db.branches {
      return Err(NotFound);
    }
    var branch := db.branches[branchId];
    var updateData := BranchItems(update);
    var i := 0;
    while i < |updateData|
      invariant 0 <= i <= |updateData|
      invariant branch == ApplyBranchFields(db.branches[branchId], updateData[..i])
    {
      assert updateData[..i + 1][..i] == updateData[..i];
      branch := SetBranchAttr(branch, updateData[i]);
      i := i + 1;
    }
    assert updateData[..i] == updateData;
    BranchPatch(db.branches[branchId], update);
    if !BranchFits(branch) {
      return Err(ServerError);
    }
    db.ReplaceBranch(branch);
    r := Ok(branch);
  }

  /** `delete_branch`: global admins only (403); the branch must exist AND belong to the
      company of the path, otherwise 404. */
  function DeleteBranchOutcome(db: Database, caller: Caller, companyId: Uuid, branchId: Uuid): (r: Result<()>)
    reads db
    ensures GetGlobalAdmin(caller).Err? ==> r == Err(Forbidden)
    ensures GetGlobalAdmin(caller).Ok? && !BranchOfCompany(db.branches, branchId, companyId) ==> r == Err(NotFound)
    ensures r.Ok? <==> GetGlobalAdmin(caller).Ok? && branchId in db.branches && db.branches[branchId].companyId == companyId
    ensures r.Err? ==> r.error in {Forbidden, NotFound}
  {
    if GetGlobalAdmin(caller).Err? then Err(Forbidden)
    else if !BranchOfCompany(db.branches, branchId, companyId) then Err(NotFound)
    else Ok(())
  }

  /** The endpoint: the delete takes the users attached to the branch with it. */
  method DeleteBranch(db: Database, caller: Caller, companyId: Uuid, branchId: Uuid) returns (r: Result<()>)
    requires db.Valid()
    modifies db
    ensures db.Valid()
    ensures r == old(DeleteBranchOutcome(db, caller, companyId, branchId))
    ensures r.Ok? ==> db.branches == old(db.branches) - {branchId} && db.users == UsersOutside(old(db.users), {branchId}, None)
    ensures r.Err? ==> db.branches == old(db.branches) && db.users == old(db.users)
    ensures db.roles == old(db.roles) && db.companies == old(db.companies)
    ensures db.products == old(db.products) && db.nextId == old(db.nextId)
  {
    r := DeleteBranchOutcome(db, caller, companyId, branchId);
    if r.Ok? {
      db.RemoveBranch(branchId);
    }
  }

  /** A branch id that exists but belongs to another company than the path's is refused
      with 404 even for a global admin. */
  lemma DeleteBranchOfOtherCompany(db: Database, caller: Caller, companyId: Uuid, branchId: Uuid)
    requires caller.roleName == GlobalAdmin && branchId in db.branches
    requires db.branches[branchId].companyId != companyId
    ensures DeleteBranchOutcome(db, caller, companyId, branchId) == Err(NotFound)
  {
  }
}
