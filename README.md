# samarithanna-api: orders, users and their gates, in Dafny

This project models the backend of a small ordering shop. The backend is an
Express server over MongoDB. The model covers:

- placing an order and the four lifecycle transitions: processed, estimated
  delivery, ready and delivered;
- the read side: the admin `/summary` report and the caller's own order lists
  and counts;
- the user routes: admin update, profile update, lookup, signin and signup;
- the `isAuth` and `isAdmin` middleware and the token payload;
- the item rows of the order-processed notice;
- the User and Product schemas: defaults, the `userType` enumeration, required
  paths and unique indexes.

The database is modelled as sequences of records with unique ids. A class
holds each sequence where a handler changes records field by field:
`OrderStore.Orders` and `UserRoutes.UserStore`. The read-side pipelines are
pure functions with lemmas that relate each one to an independent reference
definition.

Some things are oracles, given as parameters:

- bcrypt: a fresh hash is a value, because of its random salt, and the
  comparison is a function;
- JWT signing and verification;
- the clock and the calendar keys.

Files and modules:

| file | module | concern |
|---|---|---|
| js.dfy | `Js`, `Http` | request fields that may be undefined or null; truthiness; `\|\|` and `??`; errors and their messages |
| user_model.dfy | `UserModel` | User record, `userType` enum, required paths, unique email, saves |
| product_model.dfy | `ProductModel` | Product record, defaults, required paths, unique name and slug |
| order_model.dfy | `OrderModel` | Order record, creation snapshot, the four transitions |
| lookup.dfy | `Lookup` | the first record with a given key, as `findById` and `findOne` return it |
| aggregation.dfy | `Aggregation` | `$group` with `$sum`, its groups listed in first-appearance order (the model's choice, since MongoDB does not fix one), and `$sort` |
| order_queries.dfy | `OrderQueries` | `/summary`, `/mine`, `/mine/recent-orders`, `/mine/stats`, `GET /` |
| order_store.dfy | `OrderStore` | the order collection as the write handlers change it |
| auth.dfy | `Auth` | token payload, bearer extraction, `isAuth`, `isAdmin` |
| email_template.dfy | `EmailTemplate` | item rows of the order-processed notice |
| user_routes.dfy | `UserRoutes` | admin and profile merges, signin, signup, the user collection |
| routing.dfy | `Routing` | both route tables in registration order, first-match dispatch, gates |

The Order schema file is not part of this model. Its fields are inferred from
how the order routes read and write them.

## Model

| member | source | states |
|---|---|---|
| Js.OrString | routes/userRoutes.js:41-42 | `b \|\| a` on a string field yields the field exactly when it is non-empty and present, else the stored value |
| Js.TruthyStringNonEmpty | routes/userRoutes.js:41-42 | a string field is truthy exactly when it was sent and is not empty |
| Js.TruthyBoolIsTrue | routes/userRoutes.js:87 | a boolean field is truthy exactly when it was sent as `true` |
| Js.OrBool | routes/userRoutes.js:87 | `b \|\| false` on a boolean field is true exactly when the field was sent as `true` or the fallback is true |
| Js.Coalesce | routes/userRoutes.js:44 | `b ?? a` yields the field whenever it is present, `false` included, and the stored value only for null or undefined |
| Js.FalseSurvivesCoalesceNotOr | routes/userRoutes.js:87 | an explicit `false` is discarded by the `\|\|` of signup (line 87) but kept by the `??` of the admin update (line 44) |
| UserModel.ParseUserType | models/userModel.js:8-12 | a string passes enum validation if and only if it names one of admin, logistics, delivery, user |
| UserModel.ParseUserTypeRoundTrip | models/userModel.js:10 | every user type's name parses back to that type |
| UserModel.DefaultUserTypeIsCustomer | routes/userRoutes.js:86 | signup's fallback `'user'` is a member of the enumeration |
| Lookup.FindFirst | routes/userRoutes.js:60 | the position of the first record whose key is the one asked for, or none when no record has it |
| UserModel.FindById | routes/userRoutes.js:25 | `findById` finds a user with that id, or reports that none has it |
| UserModel.FindByEmail | routes/userRoutes.js:60 | `findOne({email})` finds the first user with that email, or reports that none has it |
| UserModel.SaveAt | models/userModel.js:5-7 | a save succeeds exactly when name, email and password are non-empty and no other user has the email; it fails with a validation error or a duplicate key; on success only that position changes and the collection stays valid |
| UserModel.Insert | models/userModel.js:5-7 | inserting a new user obeys the same rules, appends on success and keeps the collection valid |
| ProductModel.WithDefault | models/productModel.js:10 | a default replaces only an undefined path; null and sent values are kept |
| ProductModel.Build | models/productModel.js:5-15 | a product builds exactly when every required path is present; every sent path (name, slug, category, productQty, presentation, image, price, countInStock, description) is stored unchanged; `exclusive` defaults to false and `ieps` to 0 |
| ProductModel.NullIepsRejected | models/productModel.js:15 | a null `ieps` is not defaulted and fails `required` |
| ProductModel.Create | models/productModel.js:5-6 | creation fails with a duplicate key when the name or slug is taken; otherwise it appends and keeps ids, names and slugs unique |
| ProductModel.FindProduct | routes/orderRoutes.js:112-117 | the `$lookup` finds the catalogue entry with that id, or reports that none has it |
| OrderModel.Snapshot | routes/orderRoutes.js:36-37 | each stored line is the request line with `product` set to its `_id`; length and order are kept |
| OrderModel.NewOrder | routes/orderRoutes.js:35-44 | the new order copies subtotal, ieps, totalPrice, purchaseOrder and shippingAddress as sent, belongs to the caller, and starts unprocessed, not ready and not delivered |
| OrderModel.NewOrderTrustsTotals | routes/orderRoutes.js:40-42 | totals are never recomputed: total = subtotal + ieps holds after creation exactly when the request said so |
| OrderModel.MarkProcessed | routes/orderRoutes.js:213 | sets `orderEmailSent`; every other field is unchanged |
| OrderModel.SetEstimatedDelivery | routes/orderRoutes.js:251 | stores the request value, even undefined; every other field is unchanged |
| OrderModel.MarkReady | routes/orderRoutes.js:288-289 | sets `isReady` and `readyAt = now`; every other field is unchanged |
| OrderModel.MarkDelivered | routes/orderRoutes.js:327-328 | sets `isDelivered` and `deliveredAt = now`; every other field is unchanged |
| OrderModel.TransitionsKeepCreationData | routes/orderRoutes.js:204-354 | no run of transitions changes owner, lines or amounts |
| OrderModel.ReadyTwice | routes/orderRoutes.js:288-289 | repeating ready keeps the flag and only the later time |
| OrderModel.DeliveredTwice | routes/orderRoutes.js:327-328 | repeating deliver keeps the flag and only the later time |
| OrderModel.ReadyThenDelivered | routes/orderRoutes.js:279-354 | with a clock that does not run backwards, readyAt ≤ deliveredAt |
| OrderModel.DeliverSkipsReady | routes/orderRoutes.js:318-330 | an order can be delivered without ever being ready |
| OrderModel.FindOrder | routes/orderRoutes.js:195 | `findById` on orders finds the order with that id, or reports that none has it |
| OrderModel.GetOrder | routes/orderRoutes.js:191-202 | the order is returned if and only if one has that id, otherwise 404 "Order Not Found"; the caller is not consulted |
| OrderStore.Orders.Create | routes/orderRoutes.js:31-49 | a missing item list throws and stores nothing; otherwise exactly the new order is appended under a fresh id |
| OrderStore.Orders.Processed | routes/orderRoutes.js:204-240 | an unknown id gives 404, with the store and the outbox unchanged; otherwise only that order becomes `MarkProcessed` of itself and one notice is queued |
| OrderStore.Orders.EstimatedDelivery | routes/orderRoutes.js:242-277 | the same, with `SetEstimatedDelivery` |
| OrderStore.Orders.Ready | routes/orderRoutes.js:279-316 | the same, with `MarkReady` |
| OrderStore.Orders.Deliver | routes/orderRoutes.js:318-354 | the same, with `MarkDelivered` |
| OrderStore.TransitionTouchesOneOrder | routes/orderRoutes.js:212-215 | a transition leaves every other order as it was and the target's creation data too |
| Aggregation.GroupSumCorrect | routes/orderRoutes.js:73-82 | grouping gives distinct keys, exactly the keys that occur, each with its number of entries and their sum; the counts add up to the entries and the totals to their sum |
| Aggregation.InsertSorted | routes/orderRoutes.js:81 | inserting into a sorted sequence keeps it sorted |
| Aggregation.SortByCorrect | routes/orderRoutes.js:81 | sorting orders by the rank and is a permutation |
| Aggregation.SortKeepsDistinct | routes/orderRoutes.js:81 | sorting keeps distinct keys distinct |
| Aggregation.SortSums | routes/orderRoutes.js:81 | sorting keeps the count and total sums |
| OrderQueries.Totals | routes/orderRoutes.js:56-64 | no document for an empty collection; otherwise `numOrders` is the number of orders and `totalSales` the sum of `totalPrice` |
| OrderQueries.UserCount | routes/orderRoutes.js:65-72 | no document for an empty collection; otherwise `numUsers` is the number of users |
| OrderQueries.UserCountCountsIds | routes/orderRoutes.js:65-72 | on a collection with unique ids, `numUsers` is the number of distinct user ids stored |
| OrderQueries.UserCountAfterSave | routes/orderRoutes.js:65-72 | a successful insert raises `numUsers` by one, and a successful save in place keeps it |
| OrderQueries.Buckets | routes/orderRoutes.js:73-92 | the daily and monthly lists: strictly ascending keys; each bucket's count and sales are those of exactly its orders; every order has its bucket; the counts add up to the number of orders and the sales to `totalSales` |
| OrderQueries.BucketsCorrect | routes/orderRoutes.js:73-92 | the proof of `Buckets`' contract: the grouping followed by the sort meets that description |
| OrderQueries.Categories | routes/orderRoutes.js:93-100 | one group per category present, each with the number of its products; the counts add up to the catalogue |
| OrderQueries.CategoriesCorrect | routes/orderRoutes.js:93-100 | the proof of `Categories`' contract from the grouping's |
| OrderQueries.ItemsSoldRows | routes/orderRoutes.js:101-133 | each row is a sold product in the catalogue, with its catalogue name and its total quantity over all order lines |
| OrderQueries.ItemsSoldComplete | routes/orderRoutes.js:101-133 | every sold product found in the catalogue has a row |
| OrderQueries.ItemsSoldByProduct | routes/orderRoutes.js:101-133 | rows are non-increasing in `totalQuantity` and one per product; each carries the quantity summed over every order line of that product and the product's catalogue name; every sold product in the catalogue has its row |
| OrderQueries.ItemsSoldCorrect | routes/orderRoutes.js:101-133 | the proof of `ItemsSoldByProduct`'s contract from the two lemmas above and the sort's |
| OrderQueries.GetSummary | routes/orderRoutes.js:56-141 | the report agrees with itself: no totals document exactly for an empty collection, both bucket lists add up to `numOrders` and `totalSales`, and the buckets, categories and items sold each meet their own description |
| OrderQueries.Mine | routes/orderRoutes.js:169-178 | `/mine` holds exactly the caller's orders, each as often as stored, newest first |
| OrderQueries.MineCorrect | routes/orderRoutes.js:169-178 | the proof of `Mine`'s contract from the filter's and the sort's |
| OrderQueries.AllOrders | routes/orderRoutes.js:19-29 | the admin listing is every stored order once, newest first |
| OrderQueries.AllOrdersCorrect | routes/orderRoutes.js:19-29 | the proof of `AllOrders`' contract from the sort's |
| OrderQueries.RecentOrders | routes/orderRoutes.js:180-189 | the recent orders are the first min(10, n) elements of `/mine` |
| OrderQueries.RecentAreMine | routes/orderRoutes.js:184 | every recent order belongs to the caller |
| OrderQueries.CountSinceAntitone | routes/orderRoutes.js:152-160 | a later window start never counts more orders, no window counts more than there are, and a caller with no orders counts none |
| OrderQueries.CountSinceCorrect | routes/orderRoutes.js:152-160 | the count is the number of positions holding one of the caller's orders created at or after the window start |
| OrderQueries.MineStats | routes/orderRoutes.js:145-167 | `todayOrdersCount` and `monthOrdersCount` are the numbers of the caller's orders created since the start of the day and of the month; when the month does not start after the day, today's count is at most the month's; neither exceeds the orders stored, and both are 0 for a caller who has none |
| Auth.TokenClaims | utils.js:4-16 | the payload is `_id`, name and email of the user, and `isAdmin` is undefined because the schema has no such path; expiry is 30 days |
| Auth.BearerToken | utils.js:22 | the token is the header without its first seven characters, or empty when shorter |
| Auth.BearerPrefixDropped | utils.js:22 | any seven-character prefix is dropped, `Bearer ` included |
| Auth.Authenticate | utils.js:19-34 | "No Token" exactly for a missing or empty header; "Invalid Token" exactly when the oracle rejects the token; otherwise the decoded payload |
| Auth.AdminGate | utils.js:36-42 | passes if and only if there is a user with a truthy `isAdmin`; otherwise "Invalid Admin Token" |
| Auth.IssuedTokenAuthenticates | utils.js:4-29 | a token this server signed authenticates as its payload |
| Auth.IssuedTokenFailsAdminGate | utils.js:10 | that payload never passes `isAdmin` |
| Auth.Exchange.IsAuth | utils.js:19-34 | a rejection replies and does not call `next`; success sets `req.user` and calls `next` exactly once |
| Auth.Exchange.IsAdmin | utils.js:36-42 | calls `next` once when the gate passes, otherwise replies "Invalid Admin Token" |
| EmailTemplate.ItemRows | utils.js:66-82 | exactly one row per order line, in line order, showing its name, quantity and price |
| EmailTemplate.ItemRowsAppend | utils.js:82 | the rows of joined runs of lines are the rows of each run, concatenated |
| EmailTemplate.CreatedOrderRows | routes/orderRoutes.js:36 | the notice of a created order shows the request lines as sent |
| EmailTemplate.NoticeRowsStable | routes/orderRoutes.js:212-224 | one transition leaves the lines, and so the rendered rows, as they were |
| EmailTemplate.NoticeRowsAfterTransitions | routes/orderRoutes.js:212-224 | after any run of transitions, the rows a notice renders are those of the request lines the order was created from |
| UserRoutes.AdminMerge | routes/userRoutes.js:41-47 | name, email and userType keep the stored value when the request's is falsy; isAdmitted keeps it only for null or undefined; daysFrequency and minOrders are always overwritten; a truthy userType outside the enum fails validation |
| UserRoutes.AdminMergeKeepsRequired | routes/userRoutes.js:41-42 | `\|\|` never empties a required path |
| UserRoutes.AdminMergeIdempotent | routes/userRoutes.js:41-47 | sending the same admin update twice gives what one gives |
| UserRoutes.AdminMergeRules | routes/userRoutes.js:41-47 | an empty name is ignored, an explicit false overwrites, omitting daysFrequency clears it |
| UserRoutes.UserStore.AdminUpdate | routes/userRoutes.js:34-55 | an unknown id gives 404 "User Not Found" and changes nothing; otherwise the merge is saved at that user's position or the save's error is returned with nothing stored |
| UserRoutes.ProfileMerge | routes/userRoutes.js:115-119 | name and email merge with `\|\|`; the password is replaced by the new hash only when one is supplied; nothing else changes |
| UserRoutes.ProfileReplyOf | routes/userRoutes.js:122-128 | the reply echoes id, name and email, an undefined `isAdmin` and a token for the user |
| UserRoutes.UserStore.UpdateProfile | routes/userRoutes.js:109-133 | only the caller's record can change; an unknown caller gives 404 "User not found" |
| UserRoutes.GetUser | routes/userRoutes.js:20-32 | the user is returned if and only if one has that id, otherwise 404 "User Not Found" |
| UserRoutes.Signin | routes/userRoutes.js:57-77 | unknown email or wrong password gives 401 "Invalid email or password"; a missing password for a known email throws; a match echoes the stored fields and a token |
| UserRoutes.SigninHidesWhichFailed | routes/userRoutes.js:75 | an unknown email and a wrong password give the same answer |
| UserRoutes.SigninEchoesUser | routes/userRoutes.js:63-71 | a successful signin answers with the one user holding that email |
| UserRoutes.SignupAsWritten | routes/userRoutes.js:82-91 | as written, signup throws before saving: bcrypt rejects a missing password, and otherwise `user` is read before its declaration |
| UserRoutes.SignupAsWrittenAlwaysFails | routes/userRoutes.js:88-91 | no signup request succeeds; each is a 500 |
| UserRoutes.NewUser | routes/userRoutes.js:82-89 | corrected, the new user gets the request's name, email and hash, `userType` defaults to "user" and must be in the enum, `isAdmitted` is true only for an explicit true |
| UserRoutes.SignupDefaults | routes/userRoutes.js:86-87 | without a userType the new user is a customer, admitted only on an explicit true |
| UserRoutes.UserStore.Signup | routes/userRoutes.js:79-99 | corrected, a valid request appends exactly the new user under a fresh id; every failure stores nothing |
| UserRoutes.SignupThenSignin | routes/userRoutes.js:60-71 | a user who signed up signs in with the password whose hash was stored |
| Routing.Lower | routes/orderRoutes.js:17 | ASCII lower case, character by character: the letter case that `express.Router()`, case-insensitive by default, ignores when it compares literal segments |
| Routing.Dispatch | routes/userRoutes.js:34-35 | the first registered route that matches the request is the one run |
| Routing.ProfileShadowedAsWritten | routes/userRoutes.js:109-110 | as registered, `PUT /profile` is taken by `PUT /:id`, behind the admin gate, and the profile handler is never run |
| Routing.ProfileReachable | routes/userRoutes.js:109-110 | with the literal route first, `PUT /profile` in any letter case runs the profile handler, every other non-empty id still reaches the admin update, and `GET /<id>` the user lookup |
| Routing.SummaryRouteReachable | routes/orderRoutes.js:51-55 | `GET /summary`, in any letter case, is registered before `GET /:id` and runs the summary handler |
| Routing.StatsRouteReachable | routes/orderRoutes.js:145-147 | `GET /mine/stats` runs the stats handler |
| Routing.MineRouteReachable | routes/orderRoutes.js:169-171 | `GET /mine`, in any letter case, is registered before `GET /:id` and runs the caller's listing |
| Routing.RecentRouteReachable | routes/orderRoutes.js:180-182 | `GET /mine/recent-orders` runs the recent-orders handler |
| Routing.OrderLookupReachable | routes/orderRoutes.js:191-193 | a non-empty single segment that is not `summary` or `mine` in some letter case reaches the order lookup |
| Routing.ProcessedRouteReachable | routes/orderRoutes.js:204-206 | `PUT /<id>/order-processed` runs the processed transition for every non-empty id |
| Routing.EstimatedDeliveryRouteReachable | routes/orderRoutes.js:242-244 | `PUT /<id>/estimatedDelivery` runs the estimated-delivery transition for every non-empty id |
| Routing.ReadyRouteReachable | routes/orderRoutes.js:279-281 | `PUT /<id>/ready` runs the ready transition for every non-empty id |
| Routing.DeliverRouteReachable | routes/orderRoutes.js:318-320 | `PUT /<id>/deliver` runs the deliver transition for every non-empty id |
| Routing.EmptyIdReachesNothing | routes/orderRoutes.js:191-193 | an empty segment where `:id` stands matches no route, since a parameter needs at least one character |
| Routing.OrderRoutesOnlyAuthenticate | routes/orderRoutes.js:206 | every order route except the admin listing and the summary admits exactly the authenticated requests, with no role and no owner check |
| Routing.AdminGatesNeedTruthyClaim | routes/orderRoutes.js:21-22 | `isAuth, isAdmin` together pass exactly on a verified payload with a truthy `isAdmin` |
| Routing.IssuedTokenOnRoutes | routes/orderRoutes.js:21-22 | a token issued at signin opens every authenticated route and no admin one |

Observations about the code:

- No token this server issues passes `isAdmin`. `Auth.IssuedTokenFailsAdminGate` and
  `Routing.IssuedTokenOnRoutes` show it. The payload copies `user.isAdmin`, and the
  User schema has no `isAdmin` path. So the admin routes (`GET /api/orders`,
  `/summary`, the user listing, lookup and admin update) admit only tokens signed
  elsewhere. The intended rule is not evident (perhaps `userType === 'admin'`), so it
  is recorded here and not listed as a finding.
- The four transitions and `GET /:id` check neither role nor owner: any
  authenticated caller may read or advance any order
  (`Routing.OrderRoutesOnlyAuthenticate`, `OrderModel.GetOrder`).
- Creation accepts an empty item list.
- Later-stage timestamps are not forced to be at least the earlier ones, and an
  order can be delivered without being ready (`OrderModel.DeliverSkipsReady`).
- The routes contain no per-user order-cadence report; `daysFrequency` and
  `minOrders` are only stored.

## Left out

- Mail transport and HTML. A transition records its notice in a ghost outbox. The mail service, the notice HTML except its item rows, `toFixed` formatting and the welcome mail after signup are not modelled.
- Rendering of the processed notice. The template reads `order.itemsPrice`, which creation never sets. Whether rendering throws depends on the Order schema, which is not part of this model. The model assumes the notice is requested.
- `populate('user', ...)`. The notices and the admin listing get the owner's name and email from a join that the model does not carry. It is not modelled.
- Order schema validation. The Order schema is not part of this model, so every create and transition save is assumed to succeed. Only a missing item list makes `Orders.Create` fail, through the TypeError of `.map`.
- Identifiers. Ids are natural numbers handed out by a counter. A malformed ObjectId, which gives a CastError (500), is not modelled.
- Request types. Body fields are given the schema's type. Mongoose casting of other JSON types, and the `timestamps` bookkeeping of `updatedAt`, are not modelled.
- `exclusive` on users. The User schema has no such path, so the admin update's `exclusive` assignment and signup's `exclusive` are not persisted. `AdminMerge` ignores the field, and signin echoes it as undefined.
- Signin with a missing email. The meaning of `findOne({email: undefined})` depends on Mongoose filter settings. `Signin` takes the email as a string.
- `GET /api/users` (list all) returns the collection unchanged and has no member.
- Calendar and clock. `$dateToString` keys and `moment().startOf(...)` are parameters. Time zones are not modelled.
- OrderQueries.MineStats: `todayOrdersCount ≤ monthOrdersCount` is promised only when `startOfMonth ≤ startOfDay`. The handler calls `moment()` twice (routes/orderRoutes.js:149-150); when midnight at the end of a month falls between the two calls, `startOfMonth` is the new month's start and later than `startOfDay`, and the month count can then be the smaller one. The two readings are independent fields of `Clock`, so this case is in the model, just not covered by that clause.
- Money. Amounts are integers. JavaScript floating-point sums are not modelled.
- Ties. Sorting is stable but claimed only to be ordered. MongoDB's order among equal keys is unspecified.
- Oracles. bcrypt and JWT are parameters, so hash strength, token expiry and signature checks belong to the oracles.
- Concurrency. Requests are sequential; interleaved handlers and last-write-wins on one order are not modelled.
- Express itself and `server.js` are not modelled, beyond first-match dispatch over the two route tables and the gate lists of each route.
- Routing.Matches: literal segments match without regard to ASCII letter case, as `express.Router()` does by default. Non-ASCII characters are compared exactly, which agrees with the router for these all-ASCII literals. A `:param` segment matches only a non-empty segment, as the router's parameter pattern requires one character or more. A trailing slash (non-strict routing) and percent-encoding are not modelled: a path is given already split into its segments.

## Findings

| source | as written | input that shows it | evidently intended | confidence | as-written member | corrected member |
|---|---|---|---|---|---|---|
| routes/userRoutes.js:88 | `exclusive: user.exclusive \|\| false` reads the `const user` declared at line 91, so every signup with a password throws a ReferenceError (500) before saving | `POST /api/users/signup` with `{name: "a", email: "a@b.c", password: "p"}` | read the request: `req.body.exclusive \|\| false` | not executed | UserRoutes.SignupAsWrittenAlwaysFails | UserRoutes.SignupThenSignin |
| routes/userRoutes.js:109-110 | `PUT /profile` is registered after `PUT /:id`, so Express runs the admin update with `id = "profile"` and the profile handler is unreachable | `PUT /api/users/profile` with any token | register `/profile` before `/:id` | not executed | Routing.ProfileShadowedAsWritten | Routing.ProfileReachable |
