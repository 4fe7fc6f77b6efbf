# Axa-Shop order ledger, user table and catalogue — a Dafny model

This project models the server core of Axa-Shop, a small shop for digital
vouchers. Payments go through Stripe checkout sessions. The modelled parts:

- **The webhook order ledger** (`Webhook`). The handler runs four guards in
  order: the Stripe client is configured, the webhook secret is configured,
  the signature verifies, and the event id is not a test event. It then
  dispatches on the event type:
  - `checkout.session.completed` inserts an order;
  - `payment_intent.payment_failed` sets `failed` on the orders holding the
    intent;
  - `charge.refunded` sets `refunded` on them.
  A thrown insert becomes a 500. `Webhook.Ledger` holds the `orders` table
  and its autoincrement counter. `HandleWebhook` runs the guard chain
  imperatively and is proved equal to the function `Webhook.Handle`, about
  which the lemmas are stated.
- **The user table and the catalogue queries** (`Db`).
  - `upsertUser` builds its insert record and update set field by field
    (`BuildUpsertRecords`, a loop over the three nullable text fields). Then
    the `UserTable` class inserts or updates the row keyed by `openId`.
  - The read helpers are filters, a sort by `displayOrder`, a sum of
    completed amounts and a latest-by-`createdAt` pick over in-memory tables.
  - The lazy connection (`getDb`) is the class `Connection`; the pure
    queries take its outcome as the flag `dbUp`.
- **The row types** (`Schema`): enums, column defaults, `decimal(10,2)`
  ranges and the unique keys as well-formedness predicates.
- **Access control and admin writes** (`Routers`):
  - the `adminProcedure` role gate and `auth.me`;
  - `auth.adminLogin`, which upserts the `admin-session` user;
  - the admin list queries;
  - `admin.columns.create/update` and `admin.products.create` on the
    `Catalog` class.
- **Checkout request construction** (`Checkout`). It builds the session
  request, its metadata and the error wrapping, and projects the
  `getSession` fields. The payment processor's `create` and `retrieve` calls
  are function parameters.
- **Owner notifications** (`Email`): the trimmed templates and the contract
  that transport failures are swallowed.
- **The static Stripe product table and its first-match lookup**
  (`StripeProducts`).
- **The configuration record** (`Env`): a function of an environment map with
  `??` defaults.
- **The home-page catalogue derivation** (`Home`): displayed products,
  categories, the tag/search filter, and the single-open-product toggle as
  the `HomeState` class.
- **Shared helpers** (`Common`): `Option`, `Result` and `Field`. `Field` is
  a value that may be `undefined`. Also the JavaScript builtins the core
  relies on: `parseInt`, integer `toString`, `toFixed(2)` of a cent amount,
  `trim`, ASCII `toLowerCase` and `includes`.

Money is integer cents throughout. A `decimal(10,2)` column holds a cent
amount whose absolute value is below 10^10. Timestamps are an abstract
`Timestamp` (an integer) passed in by the caller.

For the webhook, the model follows the code where it departs from the
behaviour a payment webhook is expected to have:

- **Re-delivered completion.** Stripe delivers events at least once, so a
  re-delivered completion should be acknowledged without change. The code
  inserts unconditionally, so the unique key on `stripePaymentIntentId` makes
  the insert throw and the answer is 500. The ledger still holds exactly one
  row for the intent (`Webhook.DuplicateCompletionRejected`,
  `Webhook.RedeliveryKeepsOneRow`).
- **Terminal states.** A failed or refunded order would be expected to stay
  so. The code has no status guard, so a later failed-payment event turns a
  refunded order into a failed one (`Webhook.FailedOverwritesRefunded`).
- **No matching row.** A failure event that matches no order would be
  expected to change nothing and notify no one. The code still sends the
  payment-failed notification, with order number 0
  (`Webhook.FailedPaymentMarksMatchingRows`).

The code stores `amount_total / 100` as the decimal text of the amount
column. The model keeps every amount in integer cents, so its stored amount
is `amount_total` itself: the same value, in the column's two-decimal scale.

## Model

| member | source | states |
|---|---|---|
| Webhook.Ledger.constructor | drizzle/schema.ts:64-75 | a new ledger is empty, well formed and will hand out id 1 |
| Webhook.Ledger.HandleWebhook | server/webhooks/stripe.ts:17-140 | the guard chain and event switch leave the ledger, the answer and the notice exactly as `Handle` describes, and keep the primary and unique keys intact |
| Webhook.Ledger.Apply | server/webhooks/stripe.ts:48-139 | the event switch keeps the ledger well formed and changes it and answers exactly as `Dispatch` describes |
| Webhook.Ledger.ApplyCompletion | server/webhooks/stripe.ts:55-86 | the completion branch keeps the ledger well formed and changes it and answers exactly as `Complete` describes |
| Webhook.Ledger.MarkStatus | server/webhooks/stripe.ts:96-99 | the status update keeps the ledger well formed, changes the rows as `SetStatusWhere` describes and keeps the counter |
| Webhook.Handle | server/webhooks/stripe.ts:17-140 | a delivery that fails a guard or is a test event changes nothing, sends no notice and is answered neither 200 `{received: true}` nor 500 "Internal server error"; any other delivery is handled by the event switch |
| Webhook.Dispatch | server/webhooks/stripe.ts:48-139 | the event switch answers `{received: true}` or 500; a 500 changes nothing and sends no notice; at most one row is added; without a database nothing changes |
| Webhook.Complete | server/webhooks/stripe.ts:55-86 | a completion either answers 500 with no change and no notice, or answers 200, appends one row, advances the counter by one and sends a notice |
| Webhook.ConfigurationGuards | server/webhooks/stripe.ts:18-29 | without a Stripe secret key the answer is 500 "Stripe not configured"; with one but no webhook secret it is 500 "Webhook secret not configured"; both come before the signature and leave the ledger unchanged with no notice |
| Webhook.DefaultEnvironmentRefuses | server/webhooks/stripe.ts:9-29 | with an empty environment every delivery answers 500 and changes nothing |
| Webhook.BadSignatureChangesNothing | server/webhooks/stripe.ts:33-38 | a failed signature check answers 400 "Webhook Error: " followed by the message, whatever the payload, and changes nothing |
| Webhook.TestEventChangesNothing | server/webhooks/stripe.ts:41-46 | an event whose id starts with `evt_test_` answers `{verified: true}` and changes nothing, completion events included |
| Webhook.CompletionAppendsOneRow | server/webhooks/stripe.ts:50-86 | a completion whose insert succeeds appends exactly one row under the next id; the row holds the parsed user and product ids, the session's payment intent, `amount_total` or 0, status completed, method "stripe" and the session metadata; earlier rows are unchanged; a "New Order Received" notice follows |
| Webhook.CompletionNotifies | server/webhooks/stripe.ts:57-83 | the new-order notice of a completion carries the parsed user id as order number, the session's address or else the metadata's, the metadata's product name or else "Digital Product", and the amount |
| Webhook.CompletionSucceeded | server/webhooks/stripe.ts:56-86 | an accepted completion appends its completed row to the unchanged ledger, and only when no row held its intent before |
| Webhook.DuplicateCompletionRejected | server/webhooks/stripe.ts:62-73 | a completion whose payment intent already has a row breaks the unique key: 500, no change and no notice |
| Webhook.UnparsableIdsRejected | server/webhooks/stripe.ts:57-73 | a completion whose metadata lacks `user_id` parses NaN, the insert fails, and the answer is 500 with no change |
| Webhook.RedeliveryKeepsOneRow | server/webhooks/stripe.ts:62-73 | delivering an accepted completion twice leaves exactly one row for its intent; the second delivery answers 500 and changes nothing |
| Webhook.FailedPaymentMarksMatchingRows | server/webhooks/stripe.ts:88-111 | a failed payment sets `failed` on exactly the rows holding the intent and leaves every other row as it was; it answers `{received: true}` even when nothing matches, and always notifies "Payment Failed" with the reason line |
| Webhook.RefundMarksMatchingRows | server/webhooks/stripe.ts:113-129 | a refund sets `refunded` on exactly the rows holding the charge's intent and sends no notice; a charge without an intent matches nothing |
| Webhook.IgnoredEventsChangeNothing | server/webhooks/stripe.ts:131-135 | other event types, any event without a database, and a completion without metadata answer `{received: true}` and change nothing |
| Webhook.AmountsNeverChange | server/webhooks/stripe.ts:50-135 | no delivery removes a row or changes an existing row's id, amount or payment intent |
| Webhook.TransportDoesNotMatter | server/webhooks/stripe.ts:78-108 | the notification transport's outcome changes neither the answer, nor the ledger, nor the notice attempted |
| Webhook.HandleKeepsWellFormed | server/webhooks/stripe.ts:17-140 | every delivery keeps the ids below the counter and the payment intents distinct, and never lowers the counter |
| Webhook.DispatchKeepsWellFormed | server/webhooks/stripe.ts:48-133 | each branch of the event switch keeps the ledger well formed |
| Webhook.CompleteKeepsWellFormed | server/webhooks/stripe.ts:56-86 | the completion branch keeps the ledger well formed |
| Webhook.AppendKeepsWellFormed | drizzle/schema.ts:65-69 | appending a row under the next id, with an intent no row holds and an amount the column takes, keeps the ledger well formed |
| Webhook.SetStatusKeepsWellFormed | server/webhooks/stripe.ts:96-99 | a status-only update keeps the ledger well formed |
| Webhook.SetStatusWhere | server/webhooks/stripe.ts:96-99 | the update sets the status of exactly the rows whose intent equals the given one and leaves all other fields and rows unchanged |
| Webhook.SetStatusOfAppended | server/webhooks/stripe.ts:121-124 | updating by an intent that only the last row holds changes only that row |
| Webhook.RefundAfterCompletion | server/webhooks/stripe.ts:50-129 | a refund after a completion for the same intent turns that order refunded with its amount kept, and revenue goes back to what it was before the completion |
| Webhook.FailedOverwritesRefunded | server/webhooks/stripe.ts:88-99 | with no status guard, a failed-payment event turns a refunded order into a failed one |
| Webhook.MetadataIntOfKey | server/webhooks/stripe.ts:57-58 | a present metadata key is read with `parseInt` |
| Webhook.MetadataIntOfNumeral | server/webhooks/stripe.ts:57-58 | a metadata value that is the decimal string of an integer is read back as that integer |
| Db.Connection.constructor | server/db.ts:6-7 | the connection starts absent |
| Db.Connection.GetDb | server/db.ts:9-19 | a connection, once made, is kept; otherwise one is made exactly when a URL is set and the driver constructor succeeds; the result says whether one exists |
| Db.BuildUpsertRecords | server/db.ts:33-69 | the loop over the text fields and the role and `lastSignedIn` steps produce exactly the insert record and update set of `upsertUser` |
| Db.TextFieldsCopied | server/db.ts:33-49 | an undefined text field is left out of both records; a provided value, null included, goes into both unchanged |
| Db.WithText | server/db.ts:38-48 | assigning one text field sets it and leaves the other fields of the record unchanged |
| Db.RoleResolution | server/db.ts:51-61 | an explicit role is written to both records; otherwise the owner's openId is written as admin; otherwise no role is written and the schema default applies |
| Db.LastSignedInFallback | server/db.ts:51-69 | the insert record always has `lastSignedIn`; a provided one goes into both records; the update set is never empty |
| Db.EmptyOwnerNeverElevates | server/db.ts:22-24 | with `OWNER_OPEN_ID` unset, no user that passes the openId check gets a role other than the one it asked for |
| Db.UserTable.constructor | drizzle/schema.ts:7-17 | a new user table is empty and well formed |
| Db.UserTable.Upsert | server/db.ts:21-78 | a missing or empty openId is rejected before storage is touched; with no database nothing is written; otherwise the row for the openId is updated or inserted as `UpsertRows` describes, keeping the table well formed |
| Db.UpsertRows | server/db.ts:71-73 | rows with another openId are untouched; a row is appended exactly when no row holds the openId, and the counter advances exactly then |
| Db.UpsertKeepsWellFormed | server/db.ts:71-73 | insert-or-update keeps ids below the counter and openIds unique |
| Db.UpsertLeavesOneRow | server/db.ts:71-73 | after an upsert exactly one row has the openId |
| Db.UpsertExistingRow | server/db.ts:71-73 | for an existing openId only that row changes, by the update set, and the model's counter stays |
| Db.UpsertNewRow | server/db.ts:71-73 | for a new openId one row is appended under the next id with the insert values and schema defaults |
| Db.IndexOfOpenId | server/db.ts:100-102 | the index is that of the first row with the openId, or the table length when there is none |
| Db.GetUserByOpenId | server/db.ts:80-103 | without a database only `admin-session` yields a user, a mock admin with id 0; with one the first row with the openId, or none exactly when no row has it |
| Db.InsertByDisplayOrder | server/db.ts:111 | inserting into a sorted list keeps it sorted, adds exactly that column, and puts either it or the old first column first |
| Db.SortByDisplayOrder | server/db.ts:111 | the result is sorted ascending by `displayOrder` and is a permutation of the input |
| Db.GetAllColumns | server/db.ts:108-112 | with a database, all columns, active or not, sorted by `displayOrder`; `[]` without one |
| Db.GetColumnById | server/db.ts:114-119 | a column with the id, or none exactly when none has it; none without a database |
| Db.GetVisibleProducts | server/db.ts:124-128 | the visible products exactly, each as often as in the table, in table order (the model's choice, see "Row order" below); `[]` without a database |
| Db.GetProductsByColumnId | server/db.ts:130-134 | exactly the products of the column, visible or not, each as often as in the table, in table order (the model's choice, see "Row order" below); `[]` without a database |
| Db.GetProductById | server/db.ts:136-141 | a product with the id, or none exactly when none has it; none without a database |
| Db.GetUserOrders | server/db.ts:146-150 | exactly the user's orders, each as often as in the table, in table order (the model's choice, see "Row order" below); `[]` without a database |
| Db.GetOrderById | server/db.ts:152-157 | an order with the id, or none exactly when none has it; none without a database |
| Db.GetTotalSales | server/db.ts:159-164 | 0 without a database |
| Db.TotalSalesIsCompletedRevenue | server/db.ts:162-163 | total sales equal the sum of the amounts of the completed orders |
| Db.CompletedRevenueConcat | server/db.ts:162-163 | completed revenue adds up over concatenated tables |
| Db.TotalSalesOfAppend | server/db.ts:162-163 | an appended order adds its amount to total sales exactly when it is completed |
| Db.TotalSalesOfStatusChange | server/db.ts:162-163 | changing one order's status moves revenue by that order's amount according to whether it was and is completed |
| Db.Latest | server/db.ts:172 | a statistics row with the greatest `createdAt` |
| Db.GetLatestStatistics | server/db.ts:169-174 | none exactly when there is no database or no row; otherwise a row with the greatest `createdAt` |
| Schema.EnumNamesDistinct | drizzle/schema.ts:13 | the stored names of roles, order statuses and notification types are pairwise distinct |
| Schema.Decimal10Bounds | drizzle/schema.ts:49 | `decimal(10,2)` takes 99999999.99 and -99999999.99 but not 100000000.00 or its negative |
| Schema.InsertedColumn | drizzle/schema.ts:26-35 | a stored column keeps the given fields; `displayOrder` defaults to 0 and `isActive` to true |
| Schema.InsertedProduct | drizzle/schema.ts:43-56 | a stored product keeps the given fields; `stock` defaults to 0, `isVisible` to true, the Stripe ids to null |
| Schema.InsertedNotification | drizzle/schema.ts:100-109 | a stored notification is unsent with no `sentAt` and keeps its type, recipient and subject |
| Schema.InsertedStatistic | drizzle/schema.ts:83-92 | a stored statistics row has zero counters, a security rate of 100.00, and `date` and `createdAt` set to now |
| Schema.CountIntentAtMostOne | drizzle/schema.ts:68 | with unique intents, at most one row holds a given intent, and exactly one when the intent is taken |
| Routers.AdminGate | server/routers.ts:11-19 | the gate passes exactly the admin principals, with the user unchanged, and refuses all others with FORBIDDEN "Admin access required" |
| Routers.Me | server/routers.ts:24 | `auth.me` returns the context user unchanged, and nothing when unauthenticated |
| Routers.AdminLogin | server/routers.ts:32-67 | a wrong password is UNAUTHORIZED "Invalid admin password" and writes no user; the right one upserts `admin-session` as "Administrator" with role admin |
| Routers.AdminLoginGrantsAdmin | server/routers.ts:48-53 | after the login upsert, the one `admin-session` row is named "Administrator" and is an admin |
| Routers.AdminSessionWithoutDatabase | server/routers.ts:11-19 | without a database the `admin-session` principal still passes the gate |
| Routers.AdminColumnsList | server/routers.ts:94-97 | non-admins are refused; admins get `getAllColumns` |
| Routers.AdminTableList | server/routers.ts:126-155 | `admin.products.list` and `admin.users.list`: non-admins are refused; admins get every row of the table, hidden products included, or `[]` without a database |
| Routers.PublicListIsVisiblePartOfAdminList | server/routers.ts:78 | the public product list is exactly the visible part of the admin list, in the same order and with the same multiplicities |
| Routers.AdminQueriesDependOnlyOnRole | server/routers.ts:11-19 | two principals with the same admin status get the same answers from every admin list |
| Routers.UpdateColumns | server/routers.ts:111-123 | the update changes only the name, order and active flag of the rows with the id and leaves every other row and field unchanged |
| Routers.UpdateColumnsChangesOnlyTarget | server/routers.ts:111-123 | the update keeps the table well formed, never changes a row's id, slug or icon, and leaves every property the input omits as it was |
| Routers.Catalog.constructor | drizzle/schema.ts:26-56 | a new catalogue is empty and well formed |
| Routers.Catalog.CreateColumn | server/routers.ts:98-110 | non-admins are refused; without a database "Database not available"; a taken slug is refused by the store; the create succeeds exactly when an admin has a database and the slug is free, and then exactly one column is appended under the next id with the schema defaults |
| Routers.Catalog.UpdateColumn | server/routers.ts:111-123 | non-admins are refused; without a database "Database not available"; otherwise the columns become `UpdateColumns` of the old ones and products are untouched |
| Routers.Catalog.CreateProduct | server/routers.ts:133-146 | non-admins are refused; without a database "Database not available"; a price outside `decimal(10,2)` is refused by the store; the create succeeds exactly when an admin has a database and the price fits, and then exactly one product is appended under the next id with the schema defaults |
| Routers.CreatedProductIsListed | server/routers.ts:133-146 | a created product is visible by default, so the public list and its column's list both show it |
| Checkout.UnitAmount | server/routers/stripe.ts:58 | the unit amount is the product's price in integer cents, exactly |
| Checkout.BuildSessionRequest | server/routers/stripe.ts:41-67 | exactly the four metadata keys, with the ids as decimal strings (the user's also as client reference), the address (also as customer email) and the name or else "Customer"; one line item in "eur" with the product's name, its description unless empty, the price in cents and the quantity unchanged; mode "payment"; the success and cancel pages under the origin; promotion codes allowed |
| Checkout.SessionMetadataLookups | server/routers/stripe.ts:44-49 | the metadata holds the two ids as decimal strings and the address, and no `product_name` key |
| Checkout.MetadataRoundTrip | server/routers/stripe.ts:44-49 | `user_id` and `product_id` are the decimal strings of the ids, and `parseInt` recovers the ids from them |
| Checkout.CreateCheckoutSession | server/routers/stripe.ts:16-77 | no email gives "User email is required" before anything else; every later failure is "Failed to create checkout session"; on success the answer is the created session's id and url, for a request built from the product found |
| Checkout.CheckoutSucceedsWhenEverythingIsThere | server/routers/stripe.ts:26-67 | with an email, a configured client, a product found and a processor that accepts the request built for it, checkout succeeds; with the default environment it fails |
| Checkout.CheckoutFeedsTheLedger | server/webhooks/stripe.ts:56-73 | a completion carrying the checkout's metadata records an order for that user and product |
| Checkout.GetSession | server/routers/stripe.ts:79-101 | exactly the id, payment status, total, currency and customer email of the retrieved session; any failure is "Failed to retrieve session" |
| Checkout.GetSessionReadsOnlyProjectedFields | server/routers/stripe.ts:90-96 | two sessions that agree on the projected fields give the same answer |
| Email.NotifyNewOrder | server/services/email.ts:8-30 | title "New Order Received"; the trimmed content lists the order number, customer, product and amount; the transport outcome is reported, never raised |
| Email.NewOrderContentShape | server/services/email.ts:15-24 | the content starts with the "Order #" line, has no surrounding whitespace, and shows the amount with exactly two decimals that read back as the amount |
| Email.NewOrderBodyShape | server/services/email.ts:15-24 | the new-order body starts with its data lines and the "Order #" line, and starts and ends with a visible character |
| Email.NotifyNewUser | server/services/email.ts:32-53 | title "New User Registration"; the trimmed content lists id, name and email; the transport outcome is reported, never raised |
| Email.NotifyPaymentFailed | server/services/email.ts:55-77 | title "Payment Failed"; the trimmed content lists order, customer, product and reason; the transport outcome is reported, never raised |
| Email.PaymentFailedMentionsReason | server/services/email.ts:62-71 | the payment-failed content contains the reason line |
| Email.NotifySystemAlert | server/services/email.ts:79-89 | title "System Alert: " followed by the title; the message is the content verbatim |
| Email.TransportFailureIsSwallowed | server/services/email.ts:14-29 | a failing transport changes nothing about the notice attempted |
| Email.TrimTemplate | server/services/email.ts:24 | trimming a template leaves exactly its body when the body starts and ends visibly |
| StripeProducts.GetProductById | server/stripe-products.ts:37-39 | an entry from the table with the id, or none exactly when no entry has it |
| StripeProducts.TableWellFormed | server/stripe-products.ts:6-35 | ids are pairwise distinct, prices are positive cents, the currency is "eur" |
| StripeProducts.GetAllProducts | server/stripe-products.ts:41-43 | the whole table: four products with pairwise distinct ids |
| StripeProducts.LookupIsUnambiguous | server/stripe-products.ts:37-43 | looking up any listed entry's id finds that entry |
| Env.VarOr | server/_core/env.ts:1-14 | a defined variable is used as is, an undefined one gives the default |
| Env.FromEnvironment | server/_core/env.ts:1-14 | the payment client is configured exactly when `STRIPE_SECRET_KEY` is set and not empty; an unset `ADMIN_PASSWORD` gives the default; production needs `NODE_ENV` set |
| Env.DefaultsWhenUnset | server/_core/env.ts:1-14 | an empty environment gives empty Stripe keys, URL and owner, the password "admin123", and not production |
| Env.EmptyStringIsKept | server/_core/env.ts:10-13 | a variable set to the empty string is kept, so the admin password can be empty and Stripe unconfigured |
| Env.IsProductionExactly | server/_core/env.ts:7 | production holds iff `NODE_ENV` is exactly "production" |
| Env.FieldsReadTheirVariables | server/_core/env.ts:4-11 | each field reads its own variable with its own default |
| Common.ParseIntOfIntToString | server/webhooks/stripe.ts:57-58 | `parseInt` of an integer's decimal string gives the integer back |
| Common.ParseCentsOfFormatCents | server/routers/stripe.ts:58 | reading a two-decimal rendering of a cent amount gives the amount back |
| Home.FromProduct | client/src/pages/Home.tsx:36 | a database product becomes an item with its numeric id, its column id as a string and its name |
| Home.DisplayedProducts | client/src/pages/Home.tsx:947 | the database list when it is non-empty, else the fallback list |
| Home.Distinct | client/src/pages/Home.tsx:950 | no duplicates, and exactly the elements of the input |
| Home.DistinctKeepsFirstOccurrenceOrder | client/src/pages/Home.tsx:950 | distinct keys appear in the order of their first occurrence |
| Home.Categories | client/src/pages/Home.tsx:950 | "All" first, then every product's column id exactly once and nothing else |
| Home.DisplayName | client/src/pages/Home.tsx:954 | the translation of the name key when present and non-empty, else the product name |
| Home.Filtered | client/src/pages/Home.tsx:952-957 | an order-preserving subsequence holding exactly the products kept by the tag and search test, each as often as in the input; a search that hits a product without a name throws |
| Home.KeptExactlyWhenMatching | client/src/pages/Home.tsx:953-956 | a product is kept iff the tag is "All" or its column id, and the query is empty or occurs case-insensitively in its name |
| Home.AllWithEmptyQueryKeepsEverything | client/src/pages/Home.tsx:953-955 | tag "All" and an empty query keep every product |
| Home.Toggle | client/src/pages/Home.tsx:1087 | clicking the open product closes it; clicking another opens that one |
| Home.ToggleTwice | client/src/pages/Home.tsx:1087 | when that product or none was open, clicking the same product twice restores the previous state |
| Home.HomeState.constructor | client/src/pages/Home.tsx:33-35 | the page starts with an empty query, tag "All" and no product open |
| Home.HomeState.Visible | client/src/pages/Home.tsx:947-957 | the listed products are an order-preserving subsequence of the shown ones, all of them under tag "All" with an empty query |
| Home.HomeState.SetSearchQuery | client/src/pages/Home.tsx:1017 | sets the query and nothing else |
| Home.HomeState.SelectTag | client/src/pages/Home.tsx:1029 | sets the tag and nothing else |
| Home.HomeState.ClickBuy | client/src/pages/Home.tsx:1087-1095 | the clicked product's panel flips; every other product is closed, so at most one is open |

## Left out

- The Stripe SDK. The signature check (`constructEvent`, an HMAC over the
  raw body) is the input `sig`: the event, or the error message.
  `checkout.sessions.create` and `retrieve` are function parameters. The lazy
  `stripe` singletons are the flag `Env.StripeConfigured`.
- The database driver and SQL. Tables are in-memory sequences; the outcome
  of `getDb` is the flag `dbUp` for the pure queries. The driver's own error
  messages are not modelled: a refused write is `Routers.DbRefused`.
- Query-time failures. `getDb` only runs the driver constructor, and the
  driver connects on the first query. So an unreachable server leaves a
  connection object in place, and every later query throws. The webhook
  then answers 500, `upsertUser` rethrows and the readers reject. Strings
  longer than their `varchar` column are refused by a strict-mode server
  too: `openId` (64), `name` and `slug` (255), `stripePaymentIntentId`
  (255). The model has neither failure: `dbUp` stands for "every query
  succeeds", and `Webhook.Dispatch`, `Db.UserTable.Upsert` and the `Db`
  readers answer accordingly.
- Row order. `getVisibleProducts`, `getProductsByColumnId` and
  `getUserOrders` run a `select ... where` with no `ORDER BY`, so SQL
  promises no row order. The model returns their rows in table order, which
  is a choice of the model and not a promise of the program.
- NaN and id range. The insert fails when a metadata id parses to NaN or
  falls outside MySQL's `int` range; the model assumes a strict-mode server,
  which rejects such values.
- Autoincrement gaps. A failed insert consumes no autoincrement id in the
  model, and neither does the update path of the user upsert
  (`INSERT ... ON DUPLICATE KEY UPDATE`); MySQL may advance the counter in
  both cases. Ids stay unique either way.
- Floating point.
  - `parseFloat`, `toFixed`, `Math.round` and `/ 100` work on exact integer
    cents.
  - Db.GetTotalSales: its contract covers only the no-database case; its sum
    is stated by `Db.TotalSalesIsCompletedRevenue`, over exact cents rather
    than the float sum the source accumulates.
  - The price label on the home page (`Home.tsx:1082`) is not modelled.
- Unicode. `toLowerCase` is ASCII only; other letters are left as they are.
- Sessions, cookies and the logout route. `sdk.createSessionToken`,
  `res.cookie` and `clearCookie` are foreign I/O.
- The `notifyOwner` transport. Only its outcome, `transportOk`, is modelled,
  together with the console logging of failures.
- `protectedProcedure` lives in `server/_core/trpc.ts`, which is not part of
  this model. In the program it refuses a caller without a user before the
  admin gate, `createCheckoutSession` or `getSession` run. The model instead
  lets that caller through as "no user": `Routers.AdminGate(None)` answers
  FORBIDDEN and `Checkout.CreateCheckoutSession(None, ...)` answers "User
  email is required". Both are modelling assumptions, not the program's
  answers to an unauthenticated caller.
- Collation. MySQL's default `utf8mb4` collation compares strings without
  regard to case (and to trailing spaces). The model compares exact strings
  for the openId lookup and key (`Db.IndexOfOpenId`), the slug key
  (`Routers.SlugTaken`) and payment-intent matching (`Webhook.Matches`,
  `Schema.IntentTaken`), which is what a binary collation would do.
- Untyped admin inputs. The admin routes cast `val.name as string`,
  `val.slug as string` and the numeric fields without checking them. The
  model's typed inputs cannot lack a field or hold a value of another type.
  `displayOrder`, `stock` and `columnId` are unbounded integers: unlike the
  webhook's ids (`Webhook.FitsInt`), no MySQL `int` range check refuses
  them.
- Clocks. `createdAt`/`updatedAt` on users, columns, products and orders are
  not modelled; `now` is an input.
- Concurrency. Only sequential deliveries and requests are modelled.
- The public `columns.getById`, `products.getByColumnId`, `products.getById`
  and `statistics.getLatest` routes in `server/routers.ts` call the `Db`
  functions directly and have no members of their own.
- The static fallback product list of the home page is an opaque input. The
  translation table is a map from keys to strings.
- All rendering, animation and routing on the client.
