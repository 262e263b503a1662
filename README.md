# Multi-tenant billing: request gates, tenant-scoped resolvers and client logic

This Dafny project models the core of a multi-tenant billing service. It has a
GraphQL server over a relational store and a browser client. Each firm is a
tenant: it has ADMIN and STAFF users, a product catalogue, and bills whose
rows record the product price at billing time.

The model covers:

- **The request context.** The `Authorization` header becomes the caller's
  `{ userId, firmId }`, or no identity. `jwt.verify` is a function parameter
  that yields a payload or fails.
- **The four field gates.** These are `@auth`, `@hasRole(roles)`,
  `@rateLimit(limit, duration)` and `@length(min, max)`, plus the way
  `schema.ts` composes them.
  - The rate limiter's process-wide table is a class, `RateLimitStore`, with a
    `Check` method proved equal to a pure step function.
  - The schema applies the passes in the order auth, hasRole, rateLimit,
    length. Each pass wraps the resolver left by the previous one, so the
    checks run in the reverse order: length, rateLimit, hasRole, auth, then
    the resolver. `Schema.AppliedOrder` proves this order for every
    combination of attached directives.
- **The resolvers for bills, products, users and firms.** The database is a
  class, `Store.Database`, with one field per table.
  - Each write is a pure `...Step` function from the tables before to the
    result and the tables after. A method on the database is proved to
    perform exactly that step.
  - The lemmas about the step functions state the contracts:
    - the error cases, in their order;
    - what changes and what does not;
    - tenant isolation;
    - that the store invariant `Store.Consistent` is preserved. This
      invariant requires records keyed by id, unique e-mails, and every
      bill's amount equal to the sum of its rows.
  - Reads ordered by `createdAt: 'desc'` are methods. They return each
    matching row exactly once, newest first.
- **The client's pure logic:**
  - the session reducer and its provider, with `localStorage` as a field;
  - the draft bill-items hook, as a class;
  - the sign-up and login form validators, including the e-mail and phone
    regular expressions, each proved equal to a direct reading of its pattern;
  - the search filters of the STAFF and ADMIN bill lists;
  - the product search box;
  - the initials shown on a member card.

The code behaves in some ways a reader might not expect, and the model follows the code:

- **Gate order.** The gates run length → rateLimit → hasRole → auth → resolver.
  The reverse order is not what runs.
  - A call with a bad argument length is refused before it is counted.
  - A call that is later refused by hasRole or auth still uses up a rate-limit
    slot (`Schema.RefusedCallsStillCounted`).
- **No re-resolution of the caller's identity.** The request context trusts
  the token's `userId` and `firmId`. The token carries no role. Roles are
  read from the store by user id, in three places: the `@hasRole` gate and
  the two resolvers that check a role themselves (`bills` and `createUser`).
- **Catalogue-only bill lines.** Every line names a catalogue product and is
  priced at that product's current price. There are no ad-hoc lines and no
  quantity or price validation.
- **Duplicate products are refused.** Product existence is checked by
  comparing a count of found rows, so a bill that names the same product
  twice is refused with "Some products not found or not accessible"
  (`BillResolvers.ProductCheckIff`, `BillResolvers.ValidateItemsIff`).
- **Plain errors.** Resolvers throw plain errors that carry only a message. Only
  the gates attach a code and an HTTP status.
- **No user deletion.** There is no user-deletion resolver, and so no
  self-deletion guard.
- **Unclassified store error at sign-up.** A sign-up whose admin e-mail is
  already taken fails on the store's unique e-mail column. The resolver does
  not check for this case itself.
- **Bill updates.** An update ignores an omitted customer name or phone and
  keeps the old value, as the store does for `undefined`. A `null` clears the
  field.

Money and quantities are whole numbers (minor currency units). Strings are
sequences of characters. Case mapping, white space and the regular-expression
character classes are modelled on ASCII.

## Model

| member | source | states |
|---|---|---|
| RequestContext.CreateContext | server/src/context.ts:7-29 | The caller has an identity exactly when the header, after removing `Bearer `, is a non-empty token that verifies. The identity carries the payload's `userId` and `firmId`. Nothing is thrown. |
| RequestContext.NoTokenNoUser | server/src/context.ts:9-14 | A missing header, an empty header, and a header that is exactly `Bearer ` all give no identity. |
| RequestContext.BearerHeader | server/src/context.ts:9-10 | `Bearer ` followed by a token yields that token. |
| RequestContext.PrefixNotAnchored | server/src/context.ts:10 | A header without the prefix is used as it is. Otherwise the first occurrence of the prefix is removed, wherever it is in the header. |
| AuthDirective.AuthCheck | server/src/graphql/directives/authDirective.ts:20-28 | Refuses exactly when there is no identity, with code UNAUTHENTICATED and status 401. |
| HasRoleDirective.RoleCheck | server/src/graphql/directives/hasRoleDirective.ts:22-50 | No identity gives UNAUTHENTICATED. Otherwise the call passes exactly when the stored role of the caller's user id is one of the roles. A refusal is FORBIDDEN, with status 403 and the required roles. |
| HasRoleDirective.RoleFromStoreOnly | server/src/graphql/directives/hasRoleDirective.ts:31-37 | The decision depends only on the user id and the stored role. The token's firm plays no part, and an unknown user id is refused. |
| HasRoleDirective.ForbiddenMessage | server/src/graphql/directives/hasRoleDirective.ts:38-39 | The message is the fixed prefix followed by the roles joined by `, `. Every role appears in the joined list at its own offset, in the given order, and `, ` follows each role but the last. |
| LengthDirective.ArgumentError | server/src/graphql/directives/lengthDirective.ts:17-43 | An argument is refused exactly when it is a string outside the given bounds. The error is BAD_USER_INPUT and names the argument. |
| LengthDirective.FirstViolation | server/src/graphql/directives/lengthDirective.ts:16-47 | No error exactly when every string argument is within bounds. Otherwise the error is the one for the first offending argument. |
| LengthDirective.FirstViolationNamesArgument | server/src/graphql/directives/lengthDirective.ts:16-45 | The error is the first offending argument's. When both bounds fail, the lower bound is reported. |
| LengthDirective.OnlyStringsChecked | server/src/graphql/directives/lengthDirective.ts:16-17 | Dropping every non-string argument does not change the outcome. |
| LengthDirective.BoundsInclusive | server/src/graphql/directives/lengthDirective.ts:18-31 | A length equal to either bound passes. An absent bound never refuses. |
| RateLimitDirective.RateLimitStore.constructor | server/src/graphql/directives/rateLimitDirective.ts:11 | The table starts empty. |
| RateLimitDirective.RateLimitStore.Check | server/src/graphql/directives/rateLimitDirective.ts:31-63 | The rejection and the new table are those of the step function for the `field:user` key, with the limit and duration defaulted. |
| RateLimitDirective.RateStepEffect | server/src/graphql/directives/rateLimitDirective.ts:36-63 | Only the call's own key changes. A missing or expired window restarts at count 1 with a reset time `duration` seconds ahead. Otherwise the count goes up by one. The call is refused, with RATE_LIMIT_EXCEEDED and status 429, exactly when the new count exceeds the limit. |
| RateLimitDirective.CeilDivBounds | server/src/graphql/directives/rateLimitDirective.ts:50-52 | `Math.ceil(ms / 1000)` of a time within the window lies between 0 and the duration. |
| RateLimitDirective.ResetInWithinWindow | server/src/graphql/directives/rateLimitDirective.ts:43-52 | A refusal reports a `resetIn` between 0 and the duration. |
| RateLimitDirective.Replay | server/src/graphql/directives/rateLimitDirective.ts:37-49 | Successive calls on one key give one verdict per call. |
| RateLimitDirective.ReplayWithinWindow | server/src/graphql/directives/rateLimitDirective.ts:37-49 | Inside an open window, a further call passes exactly while the running count stays within the limit. A call at the reset time itself still belongs to the window. |
| RateLimitDirective.FreshWindowAdmitsLimit | server/src/graphql/directives/rateLimitDirective.ts:37-49 | A fresh window lets through exactly the first `limit` calls made before it ends. |
| RateLimitDirective.AnonymousShareKey | server/src/graphql/directives/rateLimitDirective.ts:32-34 | Callers without an identity, or with an empty user id, share the field's `anonymous` counter. |
| RateLimitDirective.FieldsDoNotShareKeys | server/src/graphql/directives/rateLimitDirective.ts:32-34 | Two different fields never share a counter for the same caller, because GraphQL field names contain no `:`. |
| RateLimitDirective.Defaults | server/src/graphql/directives/rateLimitDirective.ts:19-22 | When the arguments are omitted, the limit is 10 calls per 60 seconds. |
| Schema.AppliedOrder | server/src/graphql/schema.ts:17-21 | Applying the passes auth, hasRole, rateLimit, length gives the run order length, rateLimit, hasRole, auth, resolver, for every set of attached directives. |
| Schema.ResolverRunsIffGatesAccept | server/src/graphql/schema.ts:12-21 | The resolver runs, on the unchanged call, exactly when every attached gate accepts. Otherwise the outcome is a gate error that does not depend on the resolver. |
| Schema.UndecoratedFieldUnchanged | server/src/graphql/schema.ts:12-15 | A field without directives keeps its resolver and the table. |
| Schema.LengthCheckedBeforeCounting | server/src/graphql/schema.ts:20-21 | A length violation is reported before the rate table changes. |
| Schema.RefusedCallsStillCounted | server/src/graphql/schema.ts:18-20 | A call refused by hasRole or auth after passing the rate limit has already been counted. |
| Schema.RateLimitedCallStops | server/src/graphql/schema.ts:19-20 | A rate-limited call depends neither on the stored roles nor on the resolver. |
| Schema.Invoke | server/src/graphql/schema.ts:17-21 | One call through the wrapped field, on the shared table, matches the run-order specification. |
| Store.ItemsOf | server/src/graphql/resolvers/bill.ts:33-35 | The rows selected for a bill all belong to it. |
| Store.WithoutBill | server/src/graphql/resolvers/bill.ts:271-273 | `deleteMany` by bill id leaves no row of that bill. |
| Store.WithoutBillEffect | server/src/graphql/resolvers/bill.ts:219-221 | Deleting one bill's rows leaves it none, and leaves every other bill's rows as they were. |
| Store.SplitByBill | server/src/graphql/resolvers/bill.ts:271-273 | The deleted rows and the kept rows together are the old table. |
| BillResolvers.ProductCheckIff | server/src/graphql/resolvers/bill.ts:99-109 | The count check passes exactly when the ids are distinct and each names a product of the caller's firm. |
| BillResolvers.AttachTotal | server/src/graphql/resolvers/bill.ts:112-146 | The stored rows add up to the amount computed before they were stored. |
| BillResolvers.PriceItems | server/src/graphql/resolvers/bill.ts:112-126 | The loop yields the priced lines and the running total equal to their sum. |
| BillResolvers.ValidateItems | server/src/graphql/resolvers/bill.ts:94-126 | Accepted items all name products of the caller's firm. |
| BillResolvers.ValidateItemsIff | server/src/graphql/resolvers/bill.ts:94-126 | Items are accepted exactly when there is at least one and each names a distinct product of the firm. No items gives "Bill must have at least one item". Other refused items give "Some products not found or not accessible". Accepted lines carry current prices. |
| BillResolvers.NewBillRows | server/src/graphql/resolvers/bill.ts:141-146 | A new bill gets exactly the new rows, and every other bill keeps its rows. |
| BillResolvers.ReplacedBillRows | server/src/graphql/resolvers/bill.ts:219-240 | Delete-then-insert gives the bill exactly the new rows, and every other bill keeps its rows. |
| BillResolvers.WithoutBillRowsFrom | server/src/graphql/resolvers/bill.ts:219-221 | Every row kept by the delete was a row before. |
| BillResolvers.CreateBillAccepts | server/src/graphql/resolvers/bill.ts:90-109 | Accepted exactly when there is a caller and the items are valid. No caller gives "Not authenticated", no items gives "Bill must have at least one item", and any other refusal gives "Some products not found or not accessible". A refusal writes nothing. |
| BillResolvers.CreateBillEffect | server/src/graphql/resolvers/bill.ts:111-160 | The new bill is stamped with the caller's user and firm and the creation time, and stores the given title and customer fields (`null` or omitted both store none). Its rows are the items at current prices, and its amount is the sum of its rows. The only new key is the new bill's. Every other bill keeps its record and its rows, and the other tables are unchanged. |
| BillResolvers.CreateBillConsistent | server/src/graphql/resolvers/bill.ts:129-158 | `createBill` preserves the store invariant. |
| BillResolvers.UpdateBillRefusals | server/src/graphql/resolvers/bill.ts:168-197 | The refusals come in order: "Not authenticated", "Bill not found", "Not authorized to update this bill", then "Bill must have at least one item" and "Some products not found or not accessible". None of them writes anything. |
| BillResolvers.UpdateBillEffect | server/src/graphql/resolvers/bill.ts:199-254 | The rows are replaced by the newly priced ones, and the title, customers and amount are rewritten. An omitted customer field keeps its value. The id, creator, firm and time are kept. Other bills are untouched. |
| BillResolvers.UpdateBillConsistent | server/src/graphql/resolvers/bill.ts:217-252 | `updateBill` preserves the store invariant. |
| BillResolvers.DeleteBillEffect | server/src/graphql/resolvers/bill.ts:257-281 | Succeeds exactly for the caller's firm's bill and answers true. It removes the bill and exactly its rows, and leaves the rest intact. The refusals are "Not authenticated", "Bill not found" and "Not authorized to delete this bill", and none writes anything. |
| BillResolvers.DeleteBillConsistent | server/src/graphql/resolvers/bill.ts:270-278 | `deleteBill` preserves the store invariant. |
| BillResolvers.TenantIsolation | server/src/graphql/resolvers/bill.ts:129-278 | No bill write changes another firm's bill or its rows. |
| BillResolvers.BillQuery | server/src/graphql/resolvers/bill.ts:41-62 | Returns the stored bill exactly when it exists and belongs to the caller's firm. The refusals, in order, are "Not authenticated", "Bill not found" and "Not authorized to view this bill". |
| BillResolvers.BillsQuery | server/src/graphql/resolvers/bill.ts:17-39 | For a caller whose stored role is ADMIN: every bill of the caller's firm, once each, newest first. No caller gives "Not authenticated", and every other caller gets "Only ADMIN can view all bills". |
| BillResolvers.MyBillsQuery | server/src/graphql/resolvers/bill.ts:64-81 | The caller's own bills in the caller's firm, once each, newest first. The only refusal is "Not authenticated", without a caller. |
| BillResolvers.CreateBill | server/src/graphql/resolvers/bill.ts:85-161 | Performs exactly the `createBill` step on the database, and keeps the store invariant. |
| BillResolvers.UpdateBill | server/src/graphql/resolvers/bill.ts:163-255 | Performs exactly the `updateBill` step on the database, and keeps the store invariant. |
| BillResolvers.DeleteBill | server/src/graphql/resolvers/bill.ts:257-281 | Performs exactly the `deleteBill` step on the database, and keeps the store invariant. |
| ProductResolvers.ProductQuery | server/src/graphql/resolvers/product.ts:15-30 | Returns the stored product exactly when it exists and belongs to the caller's firm. The refusals, in order, are "Not authenticated", "Product not found" and "Not authorized to view this product". |
| ProductResolvers.ProductsQuery | server/src/graphql/resolvers/product.ts:5-13 | Exactly the firm's products, once each, newest first. |
| ProductResolvers.CreateProductEffect | server/src/graphql/resolvers/product.ts:34-53 | The new product has the given name and price and the caller's firm. Nothing else changes. The only refusal is "Not authenticated", which writes nothing. |
| ProductResolvers.UpdateProductEffect | server/src/graphql/resolvers/product.ts:55-81 | Only the target's name and price change, and only for the caller's firm's product. The refusals are "Not authenticated", "Product not found" and "Not authorized to update this product", and none writes anything. |
| ProductResolvers.DeleteProductEffect | server/src/graphql/resolvers/product.ts:83-101 | Succeeds exactly for a product of the caller's firm and answers true. It removes only that product and leaves every other table unchanged. The refusals are "Not authenticated", "Product not found" and "Not authorized to delete this product", and none writes anything. |
| ProductResolvers.PriceSnapshot | server/src/graphql/resolvers/product.ts:74-98 | Changing or deleting a product leaves every bill, row and total as it was. |
| ProductResolvers.ProductWritesConsistent | server/src/graphql/resolvers/product.ts:34-101 | Every product write preserves the store invariant. |
| ProductResolvers.ProductTenantIsolation | server/src/graphql/resolvers/product.ts:34-101 | No product write touches another firm's product. |
| ProductResolvers.CreateProduct | server/src/graphql/resolvers/product.ts:34-53 | Performs exactly the `createProduct` step on the database, and keeps the store invariant. |
| ProductResolvers.UpdateProduct | server/src/graphql/resolvers/product.ts:55-81 | Performs exactly the `updateProduct` step on the database, and keeps the store invariant. |
| ProductResolvers.DeleteProduct | server/src/graphql/resolvers/product.ts:83-101 | Performs exactly the `deleteProduct` step on the database, and keeps the store invariant. |
| UserResolvers.ExcludePasswordDropsOnlyPassword | server/src/graphql/resolvers/user.ts:11-14 | The record can be rebuilt from the result plus the password. Two records look alike exactly when they differ at most in their passwords. |
| UserResolvers.UserByEmail | server/src/graphql/resolvers/user.ts:48-51 | Finds a user exactly when one has that e-mail, and returns the stored record. |
| UserResolvers.MeQuery | server/src/graphql/resolvers/user.ts:17-28 | Returns the caller's stored record without its password. A missing caller and a missing record each give their own error. |
| UserResolvers.UsersQuery | server/src/graphql/resolvers/user.ts:30-40 | Every user of the caller's firm, once each, newest first, without passwords. |
| UserResolvers.LoginOutcome | server/src/graphql/resolvers/user.ts:45-68 | An unknown e-mail and a wrong password give the same error. Login succeeds exactly when the password matches the stored hash. The 7-day token names that user and the user's firm. |
| UserResolvers.CreateUserRefusals | server/src/graphql/resolvers/user.ts:82-101 | The checks run in order: caller, same firm, stored ADMIN role, free e-mail. A taken e-mail gives "User with this email already exists". Any refusal creates nothing. |
| UserResolvers.CreateUserEffect | server/src/graphql/resolvers/user.ts:101-114 | The new user has the given fields and the hash of the password, never the password itself. It is answered without the password, and nothing else changes. |
| UserResolvers.CreateUserConsistent | server/src/graphql/resolvers/user.ts:98-114 | `createUser` preserves the store invariant, including unique e-mails. |
| UserResolvers.CreateUserThenLogin | server/src/graphql/resolvers/user.ts:45-115 | A created user can log in with its password, and the token names the new user and its firm. |
| UserResolvers.CreateUser | server/src/graphql/resolvers/user.ts:71-115 | Performs exactly the `createUser` step on the database, and keeps the store invariant. |
| FirmResolvers.FirstAdmin | server/src/graphql/resolvers/firm.ts:48 | Finds an ADMIN of the list exactly when one is there. |
| FirmResolvers.SignUpRefusals | server/src/graphql/resolvers/firm.ts:17-45 | A taken firm e-mail gives "Firm with this email already exists". A taken admin e-mail fails on the users' unique e-mail column. A refusal creates nothing, and the sign-up succeeds exactly when both e-mails are free. |
| FirmResolvers.SignUpEffect | server/src/graphql/resolvers/firm.ts:26-63 | Creates exactly one firm and one ADMIN of it, holding the password's hash. The firm's address and phone are stored as given, and either may be absent. Returns both, with a 7-day token naming them. |
| FirmResolvers.SignUpConsistent | server/src/graphql/resolvers/firm.ts:29-45 | A sign-up preserves the store invariant. |
| FirmResolvers.SignUpThenLogin | server/src/graphql/resolvers/firm.ts:29-63 | The new admin can log in with the admin password and gets a token for the same user and firm. |
| FirmResolvers.SignUpFirm | server/src/graphql/resolvers/firm.ts:6-64 | Performs exactly the `signUpFirm` step on the database, and keeps the store invariant. |
| AuthContext.ReduceEffects | client/src/contexts/AuthContext.tsx:42-71 | Each action changes only its own fields. LOGOUT resets everything, and an unknown action changes nothing. |
| AuthContext.LogoutForgets | client/src/contexts/AuthContext.tsx:58-62 | A logout forgets the previous state, is idempotent and ends unauthenticated. |
| AuthContext.AdminXorStaff | client/src/contexts/AuthContext.tsx:160-162 | No session is both ADMIN and STAFF. |
| AuthContext.TokenThenUserAuthenticates | client/src/contexts/AuthContext.tsx:44-57 | A non-empty token followed by user data authenticates the session and ends loading. |
| AuthContext.EmptyTokenNotAuthenticated | client/src/contexts/AuthContext.tsx:160 | An empty or absent token never authenticates. |
| AuthContext.AuthProvider.constructor | client/src/contexts/AuthContext.tsx:82 | Starts from the initial state with the stored token. |
| AuthContext.AuthProvider.FetchUserData | client/src/contexts/AuthContext.tsx:85-110 | Stores the token if none is stored. Records the `me` answer, or removes the token and logs out. |
| AuthContext.AuthProvider.Login | client/src/contexts/AuthContext.tsx:138-147 | Success leaves the token stored, the user recorded and, for a non-empty token, the session authenticated. Failure leaves the session logged out. |
| AuthContext.AuthProvider.Logout | client/src/contexts/AuthContext.tsx:149-152 | Removes the stored token and logs out. |
| AuthContext.AuthProvider.RestoreSession | client/src/contexts/AuthContext.tsx:113-135 | Without a stored token, only loading stops. With one, success authenticates the session under the stored token and records the answer's user and firm. Failure logs out and removes the stored token. |
| AuthContext.AuthProvider.RefetchUser | client/src/contexts/AuthContext.tsx:154-158 | Does nothing without a session token. Otherwise success records the answer's user and firm and stores the session's token when no token is stored. Failure logs out and removes the stored token. |
| UseBillItems.BillItems.constructor | client/src/hooks/useBillItems.ts:13 | The list starts empty. |
| UseBillItems.BillItems.AddItem | client/src/hooks/useBillItems.ts:15-31 | Appends one item and raises the total by price × quantity. |
| UseBillItems.BillItems.RemoveItem | client/src/hooks/useBillItems.ts:33-35 | Keeps, in order, exactly the items with another id. An id no item has changes nothing. |
| UseBillItems.BillItems.ClearAll | client/src/hooks/useBillItems.ts:37-39 | Empties the list, and the total becomes 0. |
| UseBillItems.AddRaisesTotal | client/src/hooks/useBillItems.ts:41-43 | The total of a list with one more item is the old total plus that item's total. |
| UseBillItems.RemoveSpec | client/src/hooks/useBillItems.ts:33-35 | Removal keeps an ordered sublist with no item of that id and every item of another id. |
| UseBillItems.AddThenRemove | client/src/hooks/useBillItems.ts:15-35 | Removing an item just added under a fresh id gives the list back. |
| UseBillItems.SameInstantRemovesBoth | client/src/hooks/useBillItems.ts:23 | Two items added at the same clock reading share an id, so removing one removes both. |
| UseBillItems.RemoveLowersTotal | client/src/hooks/useBillItems.ts:33-43 | Removal lowers the total by exactly the totals of the removed items. |
| FormValidation.IsEmailIff | client/src/pages/auth/SignupPage.tsx:69 | The e-mail test accepts exactly the strings that match `^[^\s@]+@[^\s@]+\.[^\s@]+$`. |
| FormValidation.IsEmailSound | client/src/pages/auth/SignupPage.tsx:69 | Whatever the test accepts matches the pattern. |
| FormValidation.IsEmailComplete | client/src/pages/auth/SignupPage.tsx:69 | Whatever matches the pattern, the test accepts. |
| FormValidation.EmailNotBlank | client/src/pages/auth/SignupPage.tsx:69-70 | An address that matches the pattern is not blank. |
| FormValidation.TestEmail | client/src/pages/auth/SignupPage.tsx:69-70 | Runs the e-mail test once and returns whether the pattern matches. |
| FormValidation.IsPhoneIff | client/src/pages/auth/SignupPage.tsx:85 | The phone test accepts exactly the strings that match `^[+]?[\d\s\-()]{10,}$`. |
| FormValidation.TestPhone | client/src/pages/auth/SignupPage.tsx:85-86 | Runs the phone test once and returns whether the pattern matches. |
| FormValidation.EmailExamples | client/src/pages/auth/LoginPage.tsx:44 | `a@b.co` passes; `a@b` and `@b.co` fail. |
| FormValidation.PhoneExamples | client/src/pages/auth/SignupPage.tsx:85 | Ten digits with separators pass; five digits and a doubled `+` fail. |
| SignupPage.RequiredErrors | client/src/pages/auth/SignupPage.tsx:56-66 | A "required" message appears on exactly the missing fields: blank text fields, or empty passwords. |
| SignupPage.SignupAction | client/src/pages/auth/SignupPage.tsx:44-116 | Each field carries the last failing check's message, and none if every check passes. The passwords are cleared. The action succeeds exactly when the form is acceptable. |
| SignupPage.HasErrorsIff | client/src/pages/auth/SignupPage.tsx:93 | The errors record has a key exactly when some field has a message. |
| SignupPage.NoErrorsIffAcceptable | client/src/pages/auth/SignupPage.tsx:56-99 | No field has an error exactly when the form is acceptable. |
| SignupPage.BlankEmailIsMalformed | client/src/pages/auth/SignupPage.tsx:62-72 | A firm e-mail of only white space is reported as malformed, not as missing. |
| SignupPage.MismatchOutranksMissing | client/src/pages/auth/SignupPage.tsx:66-82 | Different passwords always report the mismatch on the confirmation, even when it is empty. |
| LoginPage.LoginAction | client/src/pages/auth/LoginPage.tsx:35-72 | Reports the e-mail and password errors, and always clears the password. Login proceeds exactly when the e-mail matches the pattern and a password was given. |
| LoginPage.BlankEmailIsMalformed | client/src/pages/auth/LoginPage.tsx:40-47 | An e-mail of only white space is reported as malformed, not as missing. |
| StaffBillsList.MatchesIffMentions | client/src/pages/staff/StaffBillsListPage.tsx:28-35 | A bill is kept exactly when the query occurs in its lower-cased id, in its customer name, or in its phone as stored. |
| StaffBillsList.FilteredBillsSpec | client/src/pages/staff/StaffBillsListPage.tsx:28-35 | The list shows, in order, exactly the bills that mention the query. |
| StaffBillsList.EmptyQueryKeepsAll | client/src/pages/staff/StaffBillsListPage.tsx:28-35 | An empty query shows every bill. |
| StaffBillsList.SummarySpec | client/src/pages/staff/StaffBillsListPage.tsx:150-156 | Never shows more than all the bills. The shown total plus the hidden total is the total of all the bills. |
| AdminBillsList.MatchesIffMentions | client/src/pages/admin/BillsListPage.tsx:19-28 | The STAFF fields, plus the creator's name and e-mail. |
| AdminBillsList.FilteredBillsSpec | client/src/pages/admin/BillsListPage.tsx:19-28 | The list shows, in order, exactly the bills that mention the query. |
| AdminBillsList.EmptyQueryKeepsAll | client/src/pages/admin/BillsListPage.tsx:19-28 | An empty query shows every bill. |
| AdminBillsList.AdminFindsMore | client/src/pages/admin/BillsListPage.tsx:19-28 | On the same bills and query, the ADMIN search keeps everything the STAFF search keeps, in order. |
| ProductSearchInput.HasMatch | client/src/components/bills/ProductSearchInput.tsx:50-52 | True exactly when some product name includes the text, ignoring case. |
| ProductSearchInput.HasMatchIffFiltered | client/src/components/bills/ProductSearchInput.tsx:28-52 | Some product matches exactly when the filtered list is not empty. |
| ProductSearchInput.FilteredProductsSpec | client/src/components/bills/ProductSearchInput.tsx:28-30 | The filtered list is the ordered sublist of matching products. An empty value keeps them all. |
| ProductSearchInput.SearchInput.constructor | client/src/components/bills/ProductSearchInput.tsx:25 | The dropdown starts closed. |
| ProductSearchInput.SearchInput.HandleChange | client/src/components/bills/ProductSearchInput.tsx:46-56 | Forwards the text and opens the dropdown. It reports a custom product exactly when no name includes the text and the text is not blank. |
| ProductSearchInput.SearchInput.HandleSelect | client/src/components/bills/ProductSearchInput.tsx:58-61 | Forwards the product and closes the dropdown. |
| ProductSearchInput.SearchInput.HandleFocus | client/src/components/bills/ProductSearchInput.tsx:70 | Opens the dropdown. |
| ProductSearchInput.NeverBoth | client/src/components/bills/ProductSearchInput.tsx:74-92 | The results list and "No products found" are never both shown. |
| ProductSearchInput.CustomProductShowsNoProducts | client/src/components/bills/ProductSearchInput.tsx:46-101 | A reported custom product comes with "No products found" and no results list. |
| MemberCard.FirstChars | client/src/components/members/MemberCard.tsx:21-22 | Yields at most one character per segment. |
| MemberCard.GetInitials | client/src/components/members/MemberCard.tsx:18-25 | At most two characters, none of them a lower-case letter. The result is a prefix of the upper-cased word starts, and as long as the word starts allow, up to 2. |
| MemberCard.InitialsAreWordStarts | client/src/components/members/MemberCard.tsx:19-22 | The first characters of the space-separated segments are exactly the characters that start a word. |
| MemberCard.SpacesAddNothing | client/src/components/members/MemberCard.tsx:18-25 | Leading and trailing spaces add no initials. |
| Strings.TrimIsEmpty | client/src/pages/auth/SignupPage.tsx:59-64 | `!s.trim()` holds exactly when `s` is only white space. |
| Strings.TrimEmptyIffBlank | client/src/pages/auth/LoginPage.tsx:40 | The trimmed text is empty exactly when the text is blank. |
| Strings.ContainsIff | client/src/pages/staff/StaffBillsListPage.tsx:31-33 | `includes` holds exactly when the pattern occurs at some position. |
| Strings.IndexOf | server/src/context.ts:10 | The first position where the pattern occurs, or none when it occurs nowhere. |
| Strings.ReplaceFirstSpec | server/src/context.ts:10 | Replacing a pattern that does not occur changes nothing. Otherwise only the first occurrence is removed. |
| Strings.SplitJoin | client/src/components/members/MemberCard.tsx:20-22 | Splitting on a character and joining with it gives the text back. |
| Strings.SplitDropsSeparator | client/src/components/members/MemberCard.tsx:20 | No segment contains the separator. |
| Strings.CaseFolding | client/src/components/bills/ProductSearchInput.tsx:28-30 | Lower-casing is idempotent, and so is upper-casing. Upper-casing first does not change the lower-cased text, so comparing lower-cased texts ignores case. Lower-cased text has no capital letter, and upper-cased text has no small letter. |
| Strings.DecimalRoundTrip | client/src/hooks/useBillItems.ts:23 | Reading back a number's decimal rendering gives the number. |
| Strings.DecimalInjective | client/src/hooks/useBillItems.ts:23 | Different clock readings give different item ids. |
| Seqs.Filter | client/src/hooks/useBillItems.ts:34 | Keeps exactly the elements satisfying the predicate, each from the input. |
| Seqs.FilterMonotone | client/src/pages/admin/BillsListPage.tsx:19-28 | A weaker predicate keeps a superset, in order. |
| Seqs.SumOfFilterSplit | client/src/pages/staff/StaffBillsListPage.tsx:154-155 | The kept sum plus the dropped sum is the whole sum. |
| Seqs.InsertDesc | server/src/graphql/resolvers/bill.ts:37 | Inserting into a newest-first list keeps it newest first and adds exactly the one element. |
| Seqs.OrderedRows | server/src/graphql/resolvers/bill.ts:28-38 | Every matching row of the table appears exactly once, newest first. |
| Seqs.CardinalityOfElements | server/src/graphql/resolvers/bill.ts:107 | A list has as many distinct elements as entries exactly when no element repeats. |

## Left out

- Concurrency. Each resolver runs as one atomic step, and the rate-limit table is updated by one call at a time.
- The store engine itself. Fresh ids and creation times are parameters, and so are the nested `include`s of related records (user, firm, items with product). Bill-item row ids are not modelled.
- `BillResolvers.CreateBill`, `ProductResolvers.CreateProduct`, `UserResolvers.CreateUser`, `FirmResolvers.SignUpFirm` and the lemmas about their steps assume the new ids are not yet in use. The store guarantees this; it is not written in the resolvers.
- Foreign keys. Deleting a product that bill rows still reference succeeds in the model. The real store may refuse it.
- Store errors other than the unique e-mail column of users, which appears in `signUpFirm`.
- Password hashing (`bcrypt.hash`, with the salt folded into the function) and `bcrypt.compare` are function parameters. `jwt.sign` is represented by the payload and lifetime it signs. `jwt.verify`, including expiry, is a function parameter.
- `FirmResolvers.SignUpFirm`: the "Admin user creation failed" branch is modelled but unreachable, because the nested write always creates an ADMIN.
- Which fields carry which directives (the type definitions) is a parameter, `Schema.FieldDirectives`. The default field resolver is not modelled.
- Floating-point money. Prices, quantities and totals are integers, so `toFixed(2)` and rounding are not modelled.
- Unicode. `toLowerCase`, `toUpperCase`, `trim` and the `\s` and `\d` classes are modelled on ASCII.
- `localStorage` is a field of the provider. The `me` query's answer is a parameter, and a failed query is `None`. The `restoreSession` catch branch is not modelled, because the modelled steps do not throw.
- The simulated requests in the sign-up and login actions are not modelled: the timer, the navigation, and their catch branches with "Signup failed" and "Login failed". The model ends with the success message.
- Rendering, routing, modals and the other pages, including the mouse-down handler that closes the product dropdown.
- `UseBillItems.BillItems.AddItem`: item ids are `Date.now().toString()`, so two items added in the same millisecond collide, as `SameInstantRemovesBoth` shows. No uniqueness of ids is claimed.
