# Inventory dashboard: backend routes, schemas and client access rules

A model of the core of an e-commerce inventory dashboard: an Express/Mongoose backend and a React
client. Staff create orders and pack approved ones. Managers approve or reject pending orders,
ship packed ones and edit products. Admins manage users and products and may set any order
status. The client shows each role its dashboard, with low-stock alerts computed from the product
list.

The model covers:

- **Schemas** (`order_model.dfy`, `product_model.dfy`, `user_model.dfy`). Each document is a
  datatype. A request body is an input datatype whose absent fields are `None`. Saving a new
  document is a `Build…` function that applies the schema's defaults and returns `None` when
  validation fails.
- **Role gate** (`auth_gate.dfy`). Each route file defines the same middleware. It is modelled
  once as `Gate`, with the role list of every endpoint (`Roles`). Whether the JWT verifies is an
  input.
- **Route handlers** (`order_routes.dfy`, `product_routes.dfy`, `user_routes.dfy`). Each
  collection is a class with a `map` from id to document and a counter that stands for the
  database's id generator. Handlers that write are methods with `modifies this`. Their contracts
  give the reply and the whole new state, and they keep the class invariant `Valid()`. The list
  handlers read the store and are functions. The order-status decision is a pure function,
  `Authorize`, and is proved equal to an independent transition table, `Matrix`.
- **Analytics** (`analytics.dfy`). The aggregation pipelines are recursive sequence functions:
  orders per day since a cutoff, the five best-selling product names, and the status
  distribution.
- **Client** (`stock_alerts.dfy`, `role_route.dfy`, `app_routes.dfy`, `login_page.dfy`). This
  covers the low-stock filter with its badge and empty panel, the role guard, the route table
  with the backend calls each dashboard makes, and the login form's landing page and error line.

`common.dfy` holds `Option` and the HTTP reply type. `listing.dfy` turns a keyed store into a
sequence and sorts one by a key. `store_properties.dfy` states properties that span several
handler calls or two collections.

The code does less than a reader might expect in these places; the model follows the code:

- An order's `totalAmount` is stored as supplied. It is not computed from the items
  (`OrderModel.TotalNotRecomputed`).
- An order may have an empty item list. A quantity that is zero or negative is not rejected.
- No order update reports a conflict. The status change reads, checks and writes with no version
  check.
- An admin's status change is not checked against any transition table.

## Model

| member | source | states |
|---|---|---|
| OrderModel.ParseStatus | backend/back/models/order.js:14-18 | a name is accepted exactly when it is one of the five enum names, and it maps to the status of that name |
| OrderModel.StatusNameRoundTrip | backend/back/models/order.js:16 | naming a status and parsing the name gives the status back; the enum lists every status |
| OrderModel.BuildItems | backend/back/models/order.js:5-12 | the items are built exactly when every item has a product, a non-empty name, a quantity and a price, one line item per input, field by field |
| OrderModel.BuildOrder | backend/back/models/order.js:3-20 | a new order is valid exactly when it has a non-empty customer name, a total and complete items; it is then Pending, created now, carries the given name, total and items, and satisfies the schema |
| OrderModel.TotalNotRecomputed | backend/back/routes/orderRoutes.js:27-29 | two mice at 25 with a supplied total of 1 are stored with total 1: the total is not the sum of the items |
| OrderModel.CreateIgnoresBodyStatus | backend/back/routes/orderRoutes.js:27-29 | a status in the request body has no effect, and a new order is always Pending |
| ProductModel.BuildProduct | backend/back/models/product.js:3-9 | a product is valid exactly when it has a non-empty name and a price; stock defaults to 0 and minStock to 10; the description is optional |
| UserModel.ParseRole | backend/back/models/user.js:7 | a role name is accepted exactly when it is admin, manager or staff, and it maps back to that name |
| UserModel.RoleNameRoundTrip | backend/back/models/user.js:7 | naming a role and parsing the name gives the role back |
| UserModel.BuildUser | backend/back/models/user.js:3-8 | a user is valid exactly when the role is absent or one of the enum names; with no role given the role is staff; the other fields are copied |
| AuthGate.Gate | backend/back/routes/orderRoutes.js:6-23 | the gate answers 401 exactly when there is no token or it does not verify, 403 exactly when a verified role is missing from a non-empty list, and lets the caller through with its role otherwise |
| AuthGate.GateMonotone | backend/back/routes/productRoutes.js:7-24 | adding roles to a non-empty list never shuts out a caller who got through before |
| AuthGate.Roles | backend/back/routes/productRoutes.js:27-87 | only the two list endpoints have an empty role list; every non-empty list names admin, and every listed role is one of the three enum roles |
| AuthGate.EndpointAccess | backend/back/routes/productRoutes.js:27-87 | the roles each endpoint admits: lists are open to any verified caller; product create and edit admit admin and manager; stock, order create and status admit the three roles; deletes, the user list and admin analytics admit admin only; manager analytics admit manager and admin; no endpoint with a role list admits a role outside the enum |
| OrderRoutes.Authorize | backend/back/routes/orderRoutes.js:57-70 | any role other than staff and manager (admin) is permitted without a check; a refusal is a 403, or a 400 for a manager asking for Approved, Rejected or Shipped from the wrong current status; a manager naming any other status, one outside the enum included, gets a 403 |
| OrderRoutes.AuthorizeMatchesMatrix | backend/back/routes/orderRoutes.js:57-70 | for the three roles and any target in the enum, the handler's check permits a change exactly when the transition table allows it |
| OrderRoutes.StaffRule | backend/back/routes/orderRoutes.js:58-61 | staff may only move Approved to Packed; every other request is refused with 403 |
| OrderRoutes.ManagerRule | backend/back/routes/orderRoutes.js:62-69 | a manager's Approved or Rejected succeeds exactly from Pending and is 400 otherwise; Shipped succeeds exactly from Packed and is 400 otherwise; any other target is 403 |
| OrderRoutes.TerminalForStaffAndManager | backend/back/routes/orderRoutes.js:58-69 | staff and managers cannot change a Rejected or Shipped order |
| OrderRoutes.PermittedStaffOrManagerNamesAStatus | backend/back/routes/orderRoutes.js:58-69 | a request that passes the staff or manager check always names an enum status |
| OrderRoutes.Transition | backend/back/routes/orderRoutes.js:57-74 | the change succeeds exactly when the role check permits it and the name is in the enum; then only the status changes, to the requested one; a refusal carries the check's status code and message; an admin's unknown name fails the save |
| OrderRoutes.AdminUnchecked | backend/back/routes/orderRoutes.js:57-72 | an admin may set any enum status from any current status |
| OrderRoutes.StatusChangeFollowsMatrix | backend/back/routes/orderRoutes.js:49-74 | for any caller the gate admits, a successful change is a step of the transition table for that caller's role, and the creation time is unchanged |
| OrderRoutes.OrderStore.constructor | backend/back/models/order.js:22 | an empty collection satisfies the invariant |
| OrderRoutes.OrderStore.Create | backend/back/routes/orderRoutes.js:26-36 | the gate's refusal is the reply; otherwise the built order is stored under a fresh id and returned; a failed validation is a 500 and stores nothing |
| OrderRoutes.OrderStore.List | backend/back/routes/orderRoutes.js:39-46 | any verified caller gets every stored order exactly once, newest first |
| OrderRoutes.OrderStore.UpdateStatus | backend/back/routes/orderRoutes.js:49-79 | gate, then 404 "Order not found", then the transition; only a success writes, and it writes that order only |
| OrderRoutes.OrderStore.Delete | backend/back/routes/orderRoutes.js:82-89 | admin only; the order is removed if present and nothing else changes; the reply is "Order removed" either way |
| ProductRoutes.FalsyText | backend/back/routes/productRoutes.js:56 | a text field counts as missing for `||` exactly when it would fail the schema's `required` check: absent or empty |
| ProductRoutes.FalsyNumber | backend/back/routes/productRoutes.js:57 | a number field counts as missing for `||` when absent and also when it is a present 0 |
| ProductRoutes.Merge | backend/back/routes/productRoutes.js:56-60 | the update keeps the product's id and never makes a valid product invalid; a truthy name, price or description replaces the old one; stock and minStock take the body's value whenever it is present, else keep the old one |
| ProductRoutes.MergeKeepsOnFalsy | backend/back/routes/productRoutes.js:56-60 | an absent or falsy name, price or description leaves the old value, so the price cannot be set to 0 or the name cleared |
| ProductRoutes.MergeTakesPresentStock | backend/back/routes/productRoutes.js:58-59 | stock and minStock take any value that is present, 0 included, and are kept only when absent |
| ProductRoutes.MergeIdempotent | backend/back/routes/productRoutes.js:56-60 | applying the same update twice gives the same product as applying it once |
| ProductRoutes.MergeEmptyBody | backend/back/routes/productRoutes.js:56-60 | an empty body changes nothing |
| ProductRoutes.ProductStore.constructor | backend/back/models/product.js:11 | an empty collection satisfies the invariant |
| ProductRoutes.ProductStore.List | backend/back/routes/productRoutes.js:27-34 | any verified caller gets every stored product exactly once, in id order |
| ProductRoutes.ProductStore.Create | backend/back/routes/productRoutes.js:37-46 | admin or manager; the built product is stored under a fresh id and returned; a failed validation is a 500 and stores nothing |
| ProductRoutes.ProductStore.Update | backend/back/routes/productRoutes.js:49-67 | admin or manager; 404 "Product not found" for an unknown id; otherwise the merged product replaces that product only |
| ProductRoutes.ProductStore.UpdateStock | backend/back/routes/productRoutes.js:70-84 | any of the three roles; 404 comes before 400 "Stock value required"; otherwise only that product's stock changes, to the given value |
| ProductRoutes.ProductStore.Delete | backend/back/routes/productRoutes.js:87-97 | admin only; 404 for an unknown id; otherwise exactly that product is removed and the reply is "Product removed" |
| UserRoutes.WithoutPassword | backend/back/routes/userRoutes.js:28 | the listed user carries the id, name, email and role, and no password |
| UserRoutes.PasswordNotDisclosed | backend/back/routes/userRoutes.js:28 | users differing only in their password are listed identically |
| UserRoutes.WithoutPasswords | backend/back/routes/userRoutes.js:28 | the list projects each user in place, one entry per user |
| UserRoutes.UserStore.constructor | backend/back/models/user.js:10 | an empty collection satisfies the invariant, unique emails included |
| UserRoutes.UserStore.Insert | backend/back/models/user.js:5 | a user is stored exactly when the role is valid and no other user has the email; otherwise the reply is a 500 and nothing changes; emails stay unique |
| UserRoutes.UserStore.List | backend/back/routes/userRoutes.js:26-33 | admin only; every stored user is listed without its password, and nothing else is listed |
| UserRoutes.UserStore.Delete | backend/back/routes/userRoutes.js:36-43 | admin only; the user is removed if present and nothing else changes; the reply is "User removed" either way |
| StoreProperties.DeleteOrderTwice | backend/back/routes/orderRoutes.js:82-89 | deleting an order twice gives the same reply twice and the same collection as deleting it once |
| StoreProperties.DeleteUserTwice | backend/back/routes/userRoutes.js:36-43 | deleting a user twice gives the same reply twice and the same collection as deleting it once |
| StoreProperties.EditProductKeepsOrders | backend/back/models/order.js:8-10 | a framing fact: editing and then deleting a product leaves every stored order unchanged, since the product handlers never reach the order collection and line items hold copies of the name and price rather than references |
| Analytics.InStatus | backend/back/routes/analyticsRoutes.js:72-75 | a status's count is positive exactly when some order is in it |
| Analytics.EnumCoversOrders | backend/back/models/order.js:16 | counting status by status over the enum counts every order exactly once |
| Analytics.PresentStatuses | backend/back/routes/analyticsRoutes.js:70-77 | one entry per listed status that some order is in, with that status's count; no repeats when the list has none; the counts add up |
| Analytics.StatusDistribution | backend/back/routes/analyticsRoutes.js:70-77 | an entry exactly for each status some order is in, each status once, with its number of orders; the counts add up to the number of orders |
| Analytics.Unwind | backend/back/routes/analyticsRoutes.js:48 | an item occurs in the unwound sequence exactly when it is an item of some order |
| Analytics.UnwindHoldsAllItems | backend/back/routes/analyticsRoutes.js:48 | a name occurs in the unwound items exactly when some item of some order carries it |
| Analytics.SoldConcat | backend/back/routes/analyticsRoutes.js:52 | the summed quantity of a concatenation is the sum of both parts' |
| Analytics.UnwoundSold | backend/back/routes/analyticsRoutes.js:48-52 | summing over the unwound items equals summing order by order |
| Analytics.Names | backend/back/routes/analyticsRoutes.js:51 | the group keys are exactly the names carried by the items, each once |
| Analytics.Group | backend/back/routes/analyticsRoutes.js:49-54 | one seller per item name, with the total quantity of the items carrying it |
| Analytics.GroupOfUnwind | backend/back/routes/analyticsRoutes.js:47-54 | a grouped seller is exactly an ordered name with its quantity summed over all orders |
| Analytics.DistinctCountsOnce | backend/back/routes/analyticsRoutes.js:55 | in a sequence without repeats every value occurs at most once |
| Analytics.DistinctPermutation | backend/back/routes/analyticsRoutes.js:55 | sorting a sequence without repeats keeps it without repeats |
| Analytics.Ranked | backend/back/routes/analyticsRoutes.js:47-55 | every ordered name once, with its total quantity, by non-increasing quantity |
| Analytics.TopProducts | backend/back/routes/analyticsRoutes.js:47-57 | at most five sellers, each name once, by non-increasing quantity, each with its true total; a name left out sold no more than every listed one, and then five are listed |
| Analytics.Since | backend/back/routes/analyticsRoutes.js:36 | exactly the orders created at or after the cutoff, each as often as it occurs in the input; earlier orders not at all |
| Analytics.OnDay | backend/back/routes/analyticsRoutes.js:38-40 | a day's count is positive exactly when some order falls on it |
| Analytics.AscendingPairwise | backend/back/routes/analyticsRoutes.js:43 | in the per-day table any two entries are in day order, and every count is positive |
| Analytics.CountOnBeforeFirst | backend/back/routes/analyticsRoutes.js:43 | a day before the first entry has no count |
| Analytics.DaysAreCounted | backend/back/routes/analyticsRoutes.js:38-43 | a day is listed exactly when its count is positive |
| Analytics.CountOnEntry | backend/back/routes/analyticsRoutes.js:38-43 | each entry's count is the count recorded for its day |
| Analytics.Bump | backend/back/routes/analyticsRoutes.js:38-43 | counting one more order keeps the table in day order with positive counts |
| Analytics.BumpCounts | backend/back/routes/analyticsRoutes.js:40 | counting an order on a day adds one to that day's count and leaves every other day's |
| Analytics.BumpTotal | backend/back/routes/analyticsRoutes.js:40 | counting an order adds one to the total |
| Analytics.Tally | backend/back/routes/analyticsRoutes.js:37-43 | grouping by day gives a table in day order whose count for every day is the number of orders on it, adding up to all orders |
| Analytics.PerDay | backend/back/routes/analyticsRoutes.js:35-44 | days strictly ascending; a day is listed exactly when an order since the cutoff falls on it, with the number of such orders; the counts add up to the orders since the cutoff |
| Analytics.AdminAnalyticsReply | backend/back/routes/analyticsRoutes.js:29-64 | only a verified admin gets the report: orders per day and top products |
| Analytics.ManagerAnalyticsReply | backend/back/routes/analyticsRoutes.js:67-99 | only a verified manager or admin gets the report: status distribution and orders per day |
| Listing.Below | backend/back/routes/productRoutes.js:29 | reading the store out lists exactly its values below the bound |
| Listing.BelowLength | backend/back/routes/productRoutes.js:29 | one entry per stored key, none twice and none dropped |
| Listing.ListsWholeStore | backend/back/routes/orderRoutes.js:41 | with every key below the bound, every stored value is listed exactly once |
| Listing.BelowAscending | backend/back/routes/productRoutes.js:29 | records carrying their own key are listed by strictly ascending key |
| Listing.Insert | backend/back/routes/orderRoutes.js:41 | insertion adds exactly the one element |
| Listing.InsertKeepsOrder | backend/back/routes/orderRoutes.js:41 | inserting into a sequence in non-increasing order keeps it in that order |
| Listing.SortDesc | backend/back/routes/orderRoutes.js:41 | the result is a permutation of the input in non-increasing key order |
| StockAlerts.IsLow | frontend/src/pages/AdminDashboard.jsx:54 | the comparison is strict: a product whose stock equals its threshold is not low |
| StockAlerts.LowStock | frontend/src/pages/AdminDashboard.jsx:54 | a product is an alert exactly when its stock is strictly below its minStock; the alerts keep the list's order and every low product's multiplicity; the manager's `lowStock` (ManagerDashboard.jsx line 55) is the same filter |
| StockAlerts.LowStockIdempotent | frontend/src/pages/ManagerDashboard.jsx:55 | filtering the low-stock list again changes nothing |
| StockAlerts.Badge | frontend/src/pages/AdminDashboard.jsx:63 | the badge is shown exactly when some product is low, and shows the number of alerts; the manager's badge (ManagerDashboard.jsx line 63) follows the same rule |
| StockAlerts.Panel | frontend/src/pages/AdminDashboard.jsx:127 | "No alerts." exactly when no product is low; otherwise a table of the alerts |
| StockAlerts.DefaultThreshold | backend/back/models/product.js:7 | a product saved without minStock is low exactly when its stock is below 10, and without stock either it starts out low |
| StockAlerts.SeedAlerts | backend/back/seed.js:31-36 | on the seeded products the only alert is the mouse, and the badge shows 1 |
| RoleRoute.Guard | frontend/src/Components/Routes/RoleRoute.jsx:5-13 | no user is sent to /login; a user whose role is not allowed sees "Access Denied"; otherwise the page is shown |
| RoleRoute.GuardDependsOnMembership | frontend/src/Components/Routes/RoleRoute.jsx:5-13 | the outcome depends only on whether there is a user and whether its role is allowed |
| RoleRoute.GuardAgreesWithGate | frontend/src/Components/Routes/RoleRoute.jsx:10 | for a non-empty list the client guard and the server gate agree on a verified user; for an empty list the guard denies all and the gate admits all |
| AppRoutes.PageAt | frontend/src/App.js:17-56 | a path leads to the page of that path, and there are no other routes |
| AppRoutes.Allowed | frontend/src/App.js:25-51 | only the login page has no guard; every guarded page's list is non-empty, names admin, and holds only enum roles |
| AppRoutes.Visit | frontend/src/App.js:17 | the login page is unguarded; every other page is the guard with its role list |
| AppRoutes.PageAccess | frontend/src/App.js:21-56 | /admin admits only admin, /manager manager and admin, /staff all three; with no user every guarded page goes to /login; no role outside the three gets past a guard |
| AppRoutes.PagesOf | frontend/src/App.js:21-56 | the guarded pages a role sees are exactly those that admit it |
| AppRoutes.PagesNested | frontend/src/App.js:25-51 | staff's pages are among the manager's, and the manager's among the admin's |
| AppRoutes.PageCalls | frontend/src/pages/AdminDashboard.jsx:16-46 | the login page calls none of the modelled endpoints (its `/auth/login` call is outside the model, see "## Left out"); every dashboard fetches the product list; only the admin dashboard lists users or deletes users or products; the manager and staff calls are at ManagerDashboard.jsx lines 16-33 and StaffDashboard.jsx lines 15-31 |
| AppRoutes.PageCallsPermitted | frontend/src/App.js:21-56 | every backend call of a dashboard is permitted by the server for every role that page admits |
| Login.Landing | frontend/src/Components/LoginPage.jsx:20-22 | admin lands on /admin, manager on /manager, any other role on /staff |
| Login.LandingAdmits | frontend/src/Components/LoginPage.jsx:20-22 | each of the three roles lands on a page that admits it; any other role lands on /staff and is denied there |
| Login.ErrorText | frontend/src/Components/LoginPage.jsx:24 | the error line is the server's message when it is non-empty, else "Login failed"; it is never empty |
| Login.LoginForm.constructor | frontend/src/Components/LoginPage.jsx:7-11 | the form starts with no error and no session, on the login page |
| Login.LoginForm.Submit | frontend/src/Components/LoginPage.jsx:13-26 | a success stores the session and goes to the role's landing page, leaving the error line; a failure only sets the error line and does not navigate |

## Left out

- JWT signing and verification are a foreign library. The gate takes the verdict and the payload's role as inputs.
- Password hashing, the login endpoint and its token are not part of this model.
- The database's id generation is modelled by a counter, `nextId`. Timestamps (`Date.now`) are a `now` parameter.
- The seven-days-ago cutoff is a `cutoff` parameter. The calendar-day formatting of `$dateToString` is a `day` function parameter.
- Prices, quantities and totals are integers. The source's floating-point numbers and its casting of string form values to numbers are not modelled.
- `null` body fields are not modelled. Only absent fields (`None`) and present values are.
- A status request whose body has no `status` field is not modelled. The requested status is always a string. In the source an admin's request without one assigns `undefined` (backend/back/routes/orderRoutes.js line 72); the enum validator lets `undefined` through, so the save succeeds and the stored order loses its status. The model's "every order's status is one of the five" holds only because the requested status is always a string.
- Store failures other than schema validation (database down, a malformed id) are not modelled. They are the handlers' 500 path.
- Concurrent requests are not modelled. Each handler runs as one atomic step, so last-write-wins races are out of scope.
- `ProductRoutes.ProductStore.List`: `Product.find()` has no sort, so the source does not fix the order; the model lists by ascending id, which is one order the database may return.
- `$sort` does not fix the order of ties. `Analytics.TopProducts` and `OrderRoutes.OrderStore.List` only promise a non-increasing order, and the model's tie order is one of the orders the database may return.
- `$group` does not fix the order of its output either. `Analytics.StatusDistribution` lists statuses in enum order, and its contract promises nothing about the order.
- Mounting the routers in `server.js` is not part of this model, and neither is whether each router is mounted.
- The client's `ProtectedRoute` wrapper is not part of this model. `RoleRoute` alone decides access here.
- The client's fetching, rendering, forms, `window.confirm` and the `AuthContext` storage are not modelled. `LoginForm.Submit` takes the server's answer as an input.
- `Login.LoginForm.constructor`: starting with no session is a modelling choice. `AuthContext` restores the user from `localStorage` on load, so the login page can mount with a session already stored.
- The staff dashboard's handlers are not modelled beyond the two endpoints they call (`AppRoutes.PageCalls`).
- `UserRoutes.UserStore.Insert`: no modelled route creates users. The seed script and `backend/back/routes/authRoutes.js` do, and they are not part of this model. `Insert` stands for the schema's save, with its enum and unique-email checks.
- `Analytics.AdminAnalyticsReply`, `Analytics.ManagerAnalyticsReply`: the report is only as ordered as the pipelines promise, see the `$sort` and `$group` lines above.
