# foodzetu route core in Dafny

This project models the request handlers of the foodzetu restaurant server. Three roles use it:

- customers browse the menu, place orders, create and pay bills, and leave feedback;
- staff move orders and bills through their statuses;
- an administrator manages users, staff accounts, the menu, orders, feedback and bills.

A separate page router serves the HTML views behind page guards.

The model has these parts:

- **Store** (`store.dfy`): the database is a class `Database`.
  - It has one `seq` per table (users, menu items, orders, bills, feedback), in insertion order.
  - One counter hands out ids. Newest first is therefore reverse table order.
  - Its invariant `Valid()` covers increasing ids below the counter, unique e-mails, known roles, positive quantities, and well-formed bills and feedback.
- **Query** (`query.dfy`): the query-builder steps the routes compose.
  - Filtering, newest-first ordering, text ordering, and lookups by id and by e-mail.
  - Each comes with its membership, ordering and permutation properties.
- **Sessions** (`sessions.dfy`): the per-client session is a class with a sign-in and a destroy method.
  - The four guards (`requireAuth`, `requireAdmin`, `requireStaff`, `requireCustomer`) are functions of the session contents.
  - Each guard has an API version that answers 401/403 and a page version that redirects to `/`.
- **Routes**: `auth.dfy`, `customer.dfy`, `staff.dfy` and `admin.dfy` hold one member per route handler.
  - Read routes are functions of the session and the table.
  - Write routes are module-level methods that take the `Database` as a parameter. Their contracts give the reply and the complete new table for every branch:
    - the guard;
    - the validator errors;
    - duplicates;
    - missing rows;
    - the success case.
- **Pages** (`pages.dfy`): the page table of the page router, the page guards, and the page logout.

Behaviour of the code worth noting:

- **Register role.** The register route accepts a requested role of `admin`.
- **Admin order status.** The admin order update writes any status without a whitelist. `Admin.UpdateOrderStatus` proves that one call can leave the orders table with a status outside the whitelist that the staff route enforces.
- **Admin menu list.** This list is guarded by `requireAuth`, so every signed-in user can read it, and it answers 401 rather than 403.
- **Add-staff reply.** The add-staff route returns the stored row, including the password digest.

## Model

| member | source | states |
|---|---|---|
| Base.Check | routes/auth.js:9-12 | one validator of a chain yields no error exactly when its test passes, otherwise one error naming its field |
| Base.ErrorFieldsAppend | routes/auth.js:16-18 | the error array of a chain names exactly the fields its validators name |
| Base.Trim | routes/customer.js:47 | the `trim()` sanitizer: the result is the input with only whitespace cut off before and after it; it is empty exactly when the input is all whitespace, and otherwise neither end is whitespace |
| Base.TrimKeepsUnpadded | routes/customer.js:47 | a value without whitespace at either end is unchanged by trimming |
| Base.TrimIdempotent | routes/customer.js:200 | trimming a trimmed value changes nothing |
| Sessions.Session.SignIn | routes/auth.js:46-48 | after storing a user, the session holds exactly that user's id, role and name |
| Sessions.Session.Destroy | routes/auth.js:118-125 | a destroyed session is empty |
| Sessions.ApiGuard | routes/admin.js:20-32 | the handler runs exactly when the guard's role table admits a signed-in session; rejection is 401 under requireAuth and 403 under a role guard |
| Sessions.PageGuard | routes/static.js:5-31 | a page is served exactly when the guard admits the session, otherwise the client is redirected to `/` |
| Sessions.PageGuardAgreesWithApiGuard | routes/static.js:12-31 | the page and API versions of each guard admit the same sessions |
| Sessions.GuardHierarchy | routes/staff.js:12-17 | requireStaff admits exactly admins and staff; every role guard implies requireAuth; no session passes both the customer and the staff guard |
| Sessions.AnonymousRefused | routes/customer.js:13-18 | an empty session is refused by every guard, API and page |
| Store.Database.InsertUser | routes/auth.js:35-39 | a user insert appends one row with the next id, keeps e-mails unique and keeps the invariant |
| Store.Database.InsertMenu | routes/admin.js:137-147 | a menu insert appends one row with the next id and keeps the invariant |
| Store.Database.InsertOrder | routes/customer.js:61-72 | an order insert appends one row with the next id and keeps the invariant |
| Store.Database.InsertBill | routes/customer.js:120-130 | a bill insert appends one row with the next id and keeps the invariant |
| Store.Database.InsertFeedback | routes/customer.js:214-223 | a feedback insert appends one row with the next id and keeps the invariant |
| Query.Select | routes/staff.js:27-29 | a filter keeps exactly the rows that pass, in table order, keeping ids increasing |
| Query.SelectSubMultiset | routes/staff.js:122-126 | a filter takes each row at most as often as the table holds it |
| Query.SelectKeepsAll | routes/admin.js:102-105 | deleting an id no row carries leaves the table as it was |
| Query.NewestFirst | routes/admin.js:210-213 | ordering by creation time descending is the table reversed; increasing ids become decreasing |
| Query.IndexOf | routes/staff.js:51-56 | the single-row update finds the row carrying the id, or reports that no row carries it |
| Query.IndexOfUnique | routes/customer.js:166-171 | in a table with increasing ids, the row found is the only row with that id |
| Query.FindByEmail | routes/auth.js:23-27 | the e-mail lookup finds a row with that e-mail exactly when one is stored |
| Query.LexLeqTotal | routes/customer.js:32 | the text order is total |
| Query.LexLeqTransitive | routes/customer.js:32 | the text order is transitive |
| Query.InsertAscending | routes/customer.js:32 | inserting into an ascending list keeps it ascending and adds exactly that element |
| Query.SortAscending | routes/customer.js:32 | ordering by a text column ascending is a permutation that is ascending |
| Auth.ValidateRegister | routes/auth.js:8-13 | registration errors name exactly the blank name, the invalid e-mail, a password under 6 characters and a role outside customer/staff/admin; no error exactly when the input is acceptable |
| Auth.Enroll | routes/auth.js:35-48 | a new user is stored with the next id and the session is signed in as that row |
| Auth.Register | routes/auth.js:7-65 | invalid input gives 400 with the errors, a registered e-mail 400, and neither changes the users or the session; otherwise the trimmed name, normalised e-mail, digest and role (default customer) are stored, the session is that user, and the reply omits the digest |
| Auth.RegisteredRole | routes/auth.js:21 | the registered session is reported by the probe; it passes the admin guard exactly when admin was requested, and with no role it is a customer session |
| Auth.ValidateLogin | routes/auth.js:68-71 | login errors name exactly the invalid e-mail and the empty password |
| Auth.Login | routes/auth.js:67-116 | success exactly when a stored user has the normalised e-mail and a matching digest; an unknown e-mail and a wrong password give the same 401 and leave the session as it was; success signs in that user |
| Auth.Logout | routes/auth.js:118-125 | logout empties the session, after which the probe answers 401 |
| Auth.SessionProbe | routes/auth.js:127-140 | the probe returns id, name and role exactly when the session is signed in, otherwise 401 |
| Customer.BrowseMenus | routes/customer.js:20-41 | exactly the available items of the requested category (all for none or "all"), each at most once per stored row, by item name ascending |
| Customer.ValidateOrder | routes/customer.js:45-49 | order errors name exactly the empty item id, the blank item name and a quantity that is not an integer of at least 1 |
| Customer.PlaceOrder | routes/customer.js:43-82 | a pending order for the session's customer is appended exactly when the guard and validators pass; otherwise the orders table is unchanged; the status whitelist is kept |
| Customer.ListOrders | routes/customer.js:84-101 | exactly the session customer's orders, newest first |
| Customer.ValidateBill | routes/customer.js:105-109 | bill errors name exactly the empty order id, the blank item name and a total that is not a number of at least 0 |
| Customer.CreateBill | routes/customer.js:103-140 | an unpaid bill owned by the session's customer is appended exactly when the guard and validators pass |
| Customer.ListBills | routes/customer.js:142-159 | exactly the session customer's bills, newest first |
| Customer.PayBill | routes/customer.js:161-195 | a missing bill or another customer's bill gives 404 and a paid one 400, changing nothing; otherwise that bill alone becomes paid with the payment time |
| Customer.ValidateFeedback | routes/customer.js:199-202 | feedback errors name exactly the blank comment and a rating, when sent, outside 1 to 5 |
| Customer.SubmitFeedback | routes/customer.js:197-233 | the trimmed comment and the rating (null when absent) are stored under the session's customer exactly when the guard and validators pass |
| Customer.ListFeedbacks | routes/customer.js:235-252 | exactly the session customer's feedback, newest first |
| Staff.ListOrders | routes/staff.js:19-40 | every order, or those with the queried status, newest first; staff or admin only |
| Staff.UpdateOrderStatus | routes/staff.js:42-65 | a status off the whitelist gives 400; a whitelisted one is written to that order alone; a missing id gives 500 and changes nothing; the table stays whitelisted |
| Staff.ListBills | routes/staff.js:67-88 | every bill, or those with the queried status, newest first |
| Staff.UpdateBillStatus | routes/staff.js:90-118 | only unpaid/paid are accepted; paid also stamps the payment time, unpaid leaves it; the update touches that bill alone |
| Staff.ListMenus | routes/staff.js:120-135 | exactly the available items, by category ascending |
| Admin.ProjectAll | routes/admin.js:37 | the user list's column selection keeps id, name, e-mail and role of every row, in order |
| Admin.ListUsers | routes/admin.js:34-52 | every user, or those with the queried role, newest first, without the digest; admin only |
| Admin.ValidateStaff | routes/admin.js:56-60 | staff-account errors name exactly the blank name, the invalid e-mail and a password under 6 characters |
| Admin.AddStaff | routes/admin.js:54-96 | a new account with role staff whatever the body says, exactly when the input is valid and the e-mail is free; otherwise the users are unchanged |
| Admin.DeleteUser | routes/admin.js:98-114 | every row with the id is removed and all others stay; an id nobody has changes nothing and still succeeds |
| Admin.ListMenus | routes/admin.js:116-130 | every menu item, available or not, newest first, for any signed-in user; otherwise 401 |
| Admin.CreateMenu | routes/admin.js:132-156 | an available item with the parsed price, defaulted category and uploaded image name is appended exactly for an admin; the stored price is null exactly when the body's price did not parse, and otherwise that number; the stored category is "general" when the body's is empty, and otherwise the one sent |
| Admin.UpdateMenu | routes/admin.js:158-188 | name, price, category and availability are rewritten on that item alone; the image changes only when a file is uploaded; the stored price is null exactly when the body's price did not parse; the stored category is "general" when the body's is empty, and otherwise the one sent; a missing id gives 500 |
| Admin.DeleteMenu | routes/admin.js:190-206 | every item with the id is removed and all others stay |
| Admin.ListTable | routes/admin.js:208-222 | the whole orders, feedback or bills table, newest first; admin only |
| Admin.UpdateOrderStatus | routes/admin.js:224-243 | any status is written to that order alone; writing one outside the whitelist leaves the orders table off the whitelist |
| Admin.DeleteFeedback | routes/admin.js:261-277 | every feedback row with the id is removed and all others stay |
| Pages.Gate | routes/static.js:61-63 | an open page always proceeds; a guarded page proceeds exactly when the guard admits the session |
| Pages.ServePage | routes/static.js:33-131 | an unregistered path passes on; a guarded page the session may not see redirects to `/`; otherwise its registered view is served |
| Pages.AreaPageServedOnlyToItsRole | routes/static.js:61-131 | admin pages other than login are served only to admins, staff pages other than login and register only to staff or admins, customer pages only to customers |
| Pages.AnonymousRedirected | routes/static.js:61-131 | an empty session asking for any guarded page is redirected to `/` |
| Pages.HomeAliases | routes/static.js:33-39 | `/` and `/home` serve the same view to every session |
| Pages.OpenPagesServed | routes/static.js:41-59 | the menu, order, admin login, staff login and staff register pages are served to every session |
| Pages.PageLogout | routes/static.js:133-136 | the page logout empties the session and redirects to `/` |

## Left out

- The prefix under which the server mounts each router is not modelled. The routes are named by their own paths.
- Pages.ServePage: takes a path already split into an area and a page name. Trailing slashes and case-insensitive matching of paths are not modelled.
- Database and network failures (the 500 replies of the catch blocks) are not modelled. The exception is a single-row update of an id that no row carries.
- Failure of session destruction on logout is not modelled.
- The text order of `order(..., ascending)` is code-point order. The database collation is not modelled.
- Path ids are taken as numbers. A non-numeric id is not modelled.
- The e-mail syntax check, e-mail normalisation, password hashing and password comparison are opaque parameters.
  - The salt randomness of hashing is left out: `hash` is a function.
- The password length check counts characters of the model string. It does not count UTF-16 code units.
- Request bodies are taken as strings or parsed numbers. JSON null, arrays and other non-string values are not modelled.
- Validator error objects carry only the field name and the message.
- The success message strings of the replies ("Order placed successfully" and the like) are not part of `Reply.Ok`.
- Base.ErrorFieldsAppend, and the validators built on it, state which fields the error array names, not the order of its entries. Each validator's body fixes that order.
- The window between the duplicate-e-mail check and the insert is not modelled. The lookup is the only guard against duplicates, so two concurrent registrations with one e-mail can both be stored. Afterwards the lookup of that e-mail finds two rows and fails, so login answers 401 for both users. The model runs each request to completion, so its store always keeps e-mails unique.
- The multer upload to disk is not modelled: an upload is the stored file name, or none.
- Admin.CreateMenu and Admin.UpdateMenu take a missing item name as the empty string.
- Admin.CreateMenu, Admin.UpdateMenu: a price that does not parse (NaN) is stored as null. Numeric prefixes that `parseFloat` accepts are taken as already parsed.
- The `requireAuth` helper in customer.js, staff.js and static.js guards no route, so it has no member of its own.
- Deleting a user or a menu item does not cascade to orders, bills or feedback. The foreign-key behaviour of the database is not modelled.
- The user list also selects `created_at`; creation times are not modelled, only their order, which is the table order.
- The static file serving of the public directory, the server setup and the database client are not part of this model.
