# Multi-tenant RBAC core of a point-of-sale backend, in Dafny

This project models the permission and data logic of a multi-tenant point-of-sale
backend. The backend is a FastAPI service over SQLAlchemy. The modelled part is its
four endpoint modules: authentication (`auth.py`), users (`users.py`), companies and
branches (`platform.py`), and products (`products.py`).

Every handler has the same shape:

1. Resolve the caller from a bearer token.
2. Run a role or tenant check that passes or raises an HTTP error.
3. Run existence and uniqueness checks.
4. Only then insert, patch or delete a row.

The model keeps that order. Each handler is a pure `...Outcome` function that returns
`Ok(value)` or `Err(code)`. A method next to it applies the effect to the store, and its
`ensures` ties the effect to the outcome and to the old state.

Roles are identified by name. There are two privileged names:
- `global_admin` manages every tenant.
- `company_admin` manages its own company.

The rank of a role is its integer id: a smaller id means a more privileged role.

## Files

- `wrappers.dfy`:
  - `Option`, and `Patch` (a field absent from a PATCH body, or sent).
  - The HTTP error codes 400, 401, 403, 404 and 500, and `Result`.
- `models.dfy`: the five records, plus the constraints the schema enforces:
  - primary keys;
  - the unique columns (username, company name, company slug);
  - the composite key `(sku, company_id)`;
  - foreign keys.
- `store.dfy`: class `Database`, holding one map per table and the id counter that
  stands in for `uuid4()`.
  - Insert, replace and remove methods keep `Valid()`, which is the schema's constraints.
  - The remove methods carry out the ORM's delete cascades.
- `query.dfy`: the query operations the handlers use:
  - table scan, `filter`, `first`, `offset`/`limit`;
  - `ILIKE '%term%'` over ASCII.
- `security.dfy`: token issue and decode. The signature is abstract; expiry is checked.
- `schemas.dfy`:
  - the request and response bodies;
  - `model_dump(exclude_unset=True)` of the PATCH bodies, as a list of items.
- `auth.dfy`, `users.dfy`, `platform.dfy`, `products.dfy`: the four endpoint modules.

## Modelling decisions

**Abstract inputs**
- The clock (`now`), password hashing (`hash`) and password verification (`verify`) are
  parameters.
- A token is `Signed(claims)` or `Unverifiable`. A signed token whose `exp` lies before
  `now` is rejected, as `jose` does.

**Store and tables**
- A table is a `map` from primary key to record. A UUID is a `nat`, allocated from a
  counter.
- Listings return rows in ascending id, which is insertion order. The SQL has no
  `ORDER BY`, so any fixed order is a faithful choice.

**Errors the handlers do not pre-check**
- A constraint the handler does not check fails at commit as an uncaught `IntegrityError`.
  The model returns `ServerError` (500) for it. This covers:
  - a duplicate company name;
  - dangling company or branch ids in `register_user`;
  - a product for a company that does not exist.
- The PATCH schemas `CompanyUpdate`, `BranchUpdate` and `ProductUpdate` redeclare their
  string fields without the `max_length` of the base schema. A value too long for its
  `String(n)` column therefore reaches PostgreSQL and fails at commit as a `DataError`,
  also a 500. The bounds are company name 100 and slug 50, branch name 100, product
  name 255 and SKU 50 (`Models.CompanyFits`, `Models.BranchFits`, `Models.ProductFits`).
- `create_user` and a company admin's `create_product` cannot reach this case.
  `Products.CompanyAdminCreatesInExistingCompany` proves it for the second.

**Cascades**
- Deleting a company also deletes its branches, its users, the users of its branches, and
  its products.
- Deleting a branch deletes the users attached to it. Both follow the
  `cascade="all, delete-orphan"` relationships in `models/platform.py`.

**Update loops**
- The `setattr` loops run over the supplied items in order (`ApplyCompanyFields`,
  `ApplyBranchFields`, `ApplyProductFields`).
- Lemmas show that the loop sets exactly the supplied fields and keeps the rest.
- `update_product` also skips items sent as null.

**Behaviour worth noting**
- The uniqueness checks the handlers make (username, slug, SKU) answer 400.
- A global admin's `create_user` checks only that the company and the branch each exist.
  It does not check that the branch belongs to the company
  (`Users.GlobalAdminCrossTenantBranch`).

## Model

| member | source | states |
|---|---|---|
| Query.Rows | api/v1/endpoints/platform.py:118 | a table scan lists exactly the stored rows |
| Query.Filter | api/v1/endpoints/platform.py:241 | `filter` keeps exactly the rows that satisfy the predicate, and never more rows than it was given |
| Query.First | api/v1/endpoints/auth.py:118 | `first()` returns a row that satisfies the predicate, or none when no row does |
| Query.Page | api/v1/endpoints/products.py:134 | `offset(skip).limit(limit)`: the length is min(limit, rows − skip), element i is input row skip+i, and only input rows appear |
| Query.FilterFilter | api/v1/endpoints/products.py:113-131 | two successive filters equal one filter on the conjunction, order kept |
| Query.FilterAll | api/v1/endpoints/products.py:116-119 | a filter that every row passes changes nothing |
| Query.ContainsIgnoreCase | api/v1/endpoints/products.py:126-131 | `ILIKE '%term%'`: an empty search term matches every text, and a match needs a term no longer than the text |
| Query.ContainsIgnoreCaseOfSelf | api/v1/endpoints/products.py:126-131 | every text matches `ILIKE '%text%'` itself, so searching for a product's exact name or SKU always lists it |
| Security.DecodeToken | core/security.py:64-82 | a token decodes exactly when it is signed and not expired, and the result carries the token's subject |
| Security.CreateAccessToken | core/security.py:48-61 | the token is signed for the subject and expires the given delta after issue, or 60 minutes after it when no delta or a zero delta is given |
| Security.IssuedTokenLifetime | core/security.py:48-61 | a token issued with lifetime d decodes to its subject until issue time + d, and afterwards is rejected |
| Security.DefaultLifetime | core/security.py:48-54 | no delta and a zero delta both give the default 60 minutes |
| Store.Database.InsertUser | models/auth.py:22-33 | adding a user with a fresh id, a new username and resolving foreign keys keeps every constraint and changes only the user table |
| Store.Database.InsertCompany | models/platform.py:15-25 | adding a company with a new slug and name keeps every constraint and changes only the company table |
| Store.Database.InsertBranch | models/platform.py:36-45 | adding a branch of an existing company keeps every constraint |
| Store.Database.InsertProduct | models/inventory.py:12-35 | adding a product with an `(sku, company_id)` pair not yet used keeps every constraint |
| Store.Database.ReplaceCompany | models/platform.py:22-24 | a patched company whose name and slug no other company holds keeps the unique columns unique |
| Store.Database.ReplaceBranch | models/platform.py:42-45 | a patched branch of the same company keeps every constraint |
| Store.Database.ReplaceProduct | models/inventory.py:32-35 | a patched product whose `(sku, company_id)` no other product holds keeps the composite key unique |
| Store.Database.RemoveProduct | models/inventory.py:12-17 | deleting a product removes that row only |
| Store.Database.RemoveBranch | models/platform.py:49 | deleting a branch also removes the users attached to it, and nothing else |
| Store.Database.RemoveCompany | models/platform.py:28-30 | deleting a company also removes its branches, its users, the users of its branches and its products |
| Store.CompanyRemovalKeepsReferences | models/platform.py:28-30 | after the company cascade no foreign key is left dangling |
| Auth.GetCurrentUser | api/v1/endpoints/auth.py:20-37 | an invalid token is a 401 with the Bearer challenge; no subject is a 401; a missing or inactive user is a 404; success yields exactly the active stored user that the subject names, with its role's name |
| Auth.GetAdminUser | api/v1/endpoints/auth.py:42-49 | admits exactly the roles named global_admin and company_admin; every other role gets 403 |
| Auth.GetGlobalAdmin | api/v1/endpoints/auth.py:54-65 | admits exactly the role named global_admin; every other role gets 403 |
| Auth.GatesNested | api/v1/endpoints/auth.py:42-65 | the global gate is stricter than the admin gate; a company admin passes only the admin gate |
| Schemas.PublicView | schemas/auth.py:45-51 | the response body copies every column of the user except the password hash and adds the role's name |
| Auth.RegisterUserOutcome | api/v1/endpoints/auth.py:70-109 | there is no permission gate; a duplicate username is a 400, then an unknown role a 404, then a dangling company or branch reference a 500 at commit; success builds the row from the body with the hashed password, exactly when the username is new and the foreign keys resolve |
| Auth.RegisterUser | api/v1/endpoints/auth.py:96-109 | success inserts exactly the new row; a refusal changes nothing |
| Auth.UserByUsername | api/v1/endpoints/auth.py:118 | finds the stored user with that username, or none when no user has it |
| Auth.LoginForAccessToken | api/v1/endpoints/auth.py:114-144 | an unknown username and a wrong password are the same 401 with the Bearer challenge; an inactive account is a 403 only when the password verifies; success issues a 60-minute token for the user's id and reports the role's name |
| Auth.ReadUsersMe | api/v1/endpoints/auth.py:150-163 | `/me` reports the caller's id, username and role name |
| Auth.SelfAccess | api/v1/endpoints/auth.py:150-163 | for any role, a token that names an active user resolves, and `/me` returns that user's public view |
| Auth.LoginThenMe | api/v1/endpoints/auth.py:135-144 | the token from a successful login, used within its 60 minutes, resolves to the user who logged in, and `/me` reports the role that the login returned |
| Users.CreateUserOutcome | api/v1/endpoints/users.py:36-87 | the checks run in this order: admin gate 403, duplicate username 400, unknown role 404. Then, for a company admin: rank `role_id <= own role_id` is 403; a missing or foreign company, or an admin without a company, is 400, and the company is not filled in; a branch outside the company is 404; a request passing all of these succeeds. For a global admin: a named company that does not exist is 404, then a named branch that does not exist is 404, and otherwise the request succeeds |
| Users.CreateUser | api/v1/endpoints/users.py:77-100 | success inserts exactly the new row and returns its public view with the role name; a refusal changes nothing |
| Users.CreatedUserView | api/v1/endpoints/users.py:93-100 | the response carries the body's username, role, company, branch and active flag, and the role's name, but no password hash; the stored hash is the hash of the password |
| Users.GlobalAdminCrossTenantBranch | api/v1/endpoints/users.py:68-74 | a global admin can attach a user to a branch of a different company |
| Users.EffectiveCompanyId | api/v1/endpoints/users.py:121-137 | a company admin without a company is a 403; a company admin is pinned to its own company, whatever the query says; for others the query's filter is used |
| Users.View | api/v1/endpoints/users.py:150-162 | the public view keeps the id and names the row's role |
| Users.ReadUsers | api/v1/endpoints/users.py:106-163 | admin gate and effective company first. Sound: every entry is the view of a stored user. Scoped: a company admin sees only its company, a global admin only the queried company, and a branch filter only that branch. Complete: every matching user is listed |
| Users.ViewsOfListed | api/v1/endpoints/users.py:139-163 | the views built from the filtered rows are exactly the views of the stored users that have a role and match the company and branch filters: each entry comes from such a user, each such user appears, and every entry carries the filtered company and branch |
| Platform.CheckCompanyAccess | api/v1/endpoints/platform.py:21-39 | passes exactly for a global admin or a member of the target company; otherwise 403 |
| Platform.CheckCompanyModificationAccess | api/v1/endpoints/platform.py:41-56 | passes exactly for a global admin or the company admin of the target company; a cashier of that company gets 403 |
| Platform.CheckBranchModificationAccess | api/v1/endpoints/platform.py:58-84 | a global admin passes. A company admin with a company gets 404 for a missing branch, passes for its own company's branch, and gets 403 otherwise. A company admin without a company, and any other role, gets 403 |
| Platform.ModificationImpliesAccess | api/v1/endpoints/platform.py:21-56 | modification access implies read access; non-admin roles are refused modification |
| Platform.CreateCompanyOutcome | api/v1/endpoints/platform.py:91-107 | non-global callers get 403; a taken slug is 400; a name another company holds is a commit failure (500); success, exactly when the slug and name are new, builds the company from the body |
| Platform.CreateCompany | api/v1/endpoints/platform.py:99-107 | success adds exactly one company; a refusal changes nothing |
| Platform.ReadCompanies | api/v1/endpoints/platform.py:109-126 | a global admin gets every company; anyone else gets only its own company, or nothing when it has none |
| Platform.ReadCompany | api/v1/endpoints/platform.py:128-139 | an unknown id is 404, before the access check; then a non-member that is not a global admin gets 403 |
| Schemas.CompanyItems | api/v1/endpoints/platform.py:156 | `model_dump(exclude_unset=True)` lists each sent field once, with the value sent, name before slug, and nothing when nothing is sent |
| Platform.ApplyCompanyFields | api/v1/endpoints/platform.py:163-164 | the setattr loop never changes the primary key |
| Platform.CompanyFieldsFrame | api/v1/endpoints/platform.py:163-164 | the setattr loop never changes the id, and a field that no item names keeps its value |
| Platform.CompanyPatch | api/v1/endpoints/platform.py:156-164 | applying an update's items sets exactly the fields the request sent |
| Platform.UpdateCompanyOutcome | api/v1/endpoints/platform.py:141-169 | modification check 403, then unknown id 404, then a slug changed to a taken one is 400; past those checks the result is the company with the sent fields and the old values elsewhere, or 500 exactly when another company holds the resulting name or the resulting name or slug is longer than its column (the PATCH schema has no `max_length`) |
| Platform.ResendOwnSlug | api/v1/endpoints/platform.py:158-161 | re-sending the current slug of a stored company (whose row fits its columns) is accepted and leaves the company unchanged |
| Platform.UpdateCompany | api/v1/endpoints/platform.py:141-169 | the setattr loop and the commit store exactly the outcome's company; a refusal changes nothing |
| Platform.DeleteCompanyOutcome | api/v1/endpoints/platform.py:171-188 | non-global callers get 403; for a global admin an unknown id is 404, and a known one is deleted |
| Platform.DeleteCompany | api/v1/endpoints/platform.py:171-200 | success removes the company with its cascade; a refusal changes nothing |
| Platform.CompanyDeletionCascade | models/platform.py:28-30 | after the delete, no branch, user or product refers to the company, and every row of other companies remains |
| Platform.CreateBranchOutcome | api/v1/endpoints/platform.py:207-222 | non-global callers get 403; for a global admin an unknown company is 404; the new branch belongs to the company in the path and carries the body's name and address |
| Platform.CreateBranch | api/v1/endpoints/platform.py:207-226 | success adds exactly one branch; a refusal changes nothing |
| Platform.ReadBranches | api/v1/endpoints/platform.py:229-242 | the read check is 403 first, then an unknown company is 404; the result holds exactly the branches of that company |
| Schemas.BranchItems | api/v1/endpoints/platform.py:262 | `model_dump(exclude_unset=True)` lists each sent field once, with the value sent, a null address included, name before address |
| Platform.ApplyBranchFields | api/v1/endpoints/platform.py:264-265 | the setattr loop never changes the primary key or the owning company |
| Platform.BranchFieldsFrame | api/v1/endpoints/platform.py:264-265 | the setattr loop never changes the id or the owning company; unnamed fields keep their values |
| Platform.BranchPatch | api/v1/endpoints/platform.py:262-265 | applying an update's items sets exactly the sent fields; an address sent as null clears it |
| Platform.UpdateBranchOutcome | api/v1/endpoints/platform.py:244-270 | the branch modification check's error comes first (a company admin gets 404 for a missing branch and 403 for another company's); past it, and always for a global admin, an unknown branch is 404; a resulting name longer than 100 characters is a 500 at commit (the PATCH schema has no `max_length`); success, exactly when none of these applies, has the sent fields and the same id and company |
| Platform.UpdateBranch | api/v1/endpoints/platform.py:244-270 | the setattr loop and the commit store exactly the outcome's branch; a refusal changes nothing |
| Platform.DeleteBranchOutcome | api/v1/endpoints/platform.py:272-294 | non-global callers get 403; for a global admin a branch that is missing or belongs to another company than the path's is 404, and otherwise it is deleted |
| Platform.DeleteBranch | api/v1/endpoints/platform.py:272-306 | success removes the branch and its users; a refusal removes nothing |
| Platform.DeleteBranchOfOtherCompany | api/v1/endpoints/platform.py:287-294 | a branch of another company is 404, even for a global admin |
| Products.GetProductAndCheckAccess | api/v1/endpoints/products.py:31-50 | a missing product is 404; a company admin gets 403 for another company's product; otherwise the stored product |
| Products.CreateProductOutcome | api/v1/endpoints/products.py:56-93 | admin gate 403, then a company admin outside its company 403, then an SKU taken in the target company 400, then a company that does not exist 500 at commit; success builds the product from the body. The same SKU in another company is allowed |
| Products.CompanyAdminCreatesInExistingCompany | api/v1/endpoints/products.py:68-74 | a resolved company admin's creation never fails at commit |
| Products.CreateProduct | api/v1/endpoints/products.py:86-93 | success adds exactly one product; a refusal changes nothing |
| Products.Selected | api/v1/endpoints/products.py:113-131 | the rows the listing selects are exactly the stored products that are in the caller's scope and match the search |
| Products.ScopeStep | api/v1/endpoints/products.py:115-123 | the role-scope branch of the query keeps exactly the rows in the caller's scope |
| Products.SearchStep | api/v1/endpoints/products.py:125-131 | the search step keeps exactly the rows that match in name or SKU; an empty search filters nothing |
| Products.ReadProducts | api/v1/endpoints/products.py:98-136 | the result is the page at skip/limit of the selected products. A non-global caller gets only its own company, whatever it queries; a global admin with a company filter gets only that company. Every result matches the search case-insensitively |
| Products.FirstPageComplete | api/v1/endpoints/products.py:134 | when the selection fits in `limit`, the first page is all of it |
| Products.ReadProduct | api/v1/endpoints/products.py:142-164 | a missing product is 404, before the access check; then a non-global caller gets 403 for another company's product |
| Products.ReadProductAgreesWithListing | api/v1/endpoints/products.py:151-162 | `read_product` admits exactly the products the caller's unfiltered listing would include |
| Schemas.ProductItems | api/v1/endpoints/products.py:182 | `model_dump(exclude_unset=True)` lists at most the five fields, each with the value sent (null included), and every sent field appears |
| Products.ApplyProductFields | api/v1/endpoints/products.py:196-201 | the setattr loop never changes the primary key or the owning company |
| Products.ApplyProductAppend | api/v1/endpoints/products.py:196-201 | the setattr loop over two runs of items equals the loop over their concatenation |
| Products.ProductFieldsFrame | api/v1/endpoints/products.py:196-201 | the setattr loop never changes the id or the owning company |
| Products.ProductPatch | api/v1/endpoints/products.py:182-201 | applying an update's items sets exactly the fields sent with a value; absent fields and null values keep their old values |
| Products.UpdateProductOutcome | api/v1/endpoints/products.py:170-207 | admin gate 403, then the access check (404, then 403), then an SKU changed to one taken in the company is 400; an update passing these succeeds with the patched product, whose SKU is unique in its company, exactly when the resulting name and SKU fit their columns, and is a 500 at commit otherwise (the PATCH schema has no `max_length`) |
| Products.UpdateProduct | api/v1/endpoints/products.py:170-207 | the setattr loop and the commit store exactly the outcome's product; a refusal changes nothing |
| Products.DeleteProductOutcome | api/v1/endpoints/products.py:212-221 | admin gate 403, then the access check's code: a missing product 404, then a company admin gets 403 for another company's product; otherwise it is deleted |
| Products.DeleteProduct | api/v1/endpoints/products.py:212-227 | success removes exactly that product; a refusal changes nothing |

## Left out

**Framework, I/O and cryptography**
- HTTP and ORM plumbing: dependency injection, route dispatch and `__dict__` copying.
  The model takes the caller as already resolved. The database session, engine and app
  bootstrap (`database.py`, `main.py`) are not part of this model.
- Request validation by the schema layer is not modelled: 422 responses, the maximum
  lengths of the create bodies, `limit > 0`, `skip >= 0`, `price > 0`. So `ReadProducts` accepts `limit = 0` and
  returns an empty page.
- HMAC signing and PBKDF2 hashing are abstract. A token is `Signed` or `Unverifiable`, and
  `hash` and `verify` are parameters.
- Timestamps (`created_at`) are not modelled, and neither are the float serialisation of
  prices and the ISO serialisation of dates. Prices are integer cents.
- The `Numeric(10, 2)` bound on `price` and `cost` (models/inventory.py:23-24) is not
  modelled: a value of 100,000,000 or more fails at commit with a 500, while
  `CreateProductOutcome` and `UpdateProductOutcome` accept any integer.
- UpdateProductOutcome: an explicit JSON `null` for `price` or `cost` is a 500 in the source,
  because `model_dump` (api/v1/endpoints/products.py:182) runs the `float` serializer of
  `ProductUpdate` (schemas/inventory.py:26-28, 39-43) on it before the SKU check; the model
  treats that null as not sent, like a null name, SKU or active flag.

**Data and query semantics**
- Token subjects that are not UUIDs are not modelled: a subject is `Option<Uuid>`.
- `ILIKE` is modelled as an ASCII case-insensitive substring match. Wildcard characters in
  the search term and database collation are not modelled.
- An explicit JSON `null` for a NOT NULL column in a PATCH body (a company name or slug, a
  branch name) is not modelled: `CompanyUpdate` fields are `Option`, and a branch's name
  is `Option`. In the source that null fails at commit. `update_product` skips a null
  name, SKU or active flag; a null `price` or `cost` is a 500 in the source (see the
  `UpdateProductOutcome` line under "## Left out").
- Row order: listings use ascending id. The database promises no order.
- `role_id` is nullable with `ON DELETE SET NULL`. Roles are never deleted here, so every
  user keeps a role.

**Paths the model does not reach**
- The rollback-and-500 paths of `delete_company` and `delete_branch`
  (platform.py:190-198, 296-304) cannot happen in this model. The cascades remove
  every dependent row, so the delete cannot violate a constraint.
- `register_user` returns the ORM row, while its response model `UserInDB` needs
  `role_name`, which the row lacks. In the source the row is committed and the client
  then gets a 500 from response validation. Response validation is not modelled, so
  `Auth.RegisterUser` returns the row as its success value.

**Excluded source files**
- `roles.py` and `models.py` are not part of this model. The first is a list projection;
  the second is commented out.
