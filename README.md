# Amazon order tracker: a Dafny model of its core rules

The system tracks a customer's Amazon business orders. A Django backend stores customers,
orders, shipments and shipment items. It fills them from two CSV files with the
`import_data` management command, and serves them through four read endpoints. A Next.js
frontend signs a user in and derives a username from their e-mail address. It loads that
customer's data into an order context and renders a dashboard with status badges. A Node
script creates one Auth0 user per row of the logins file.

This project models, in Dafny, the parts of that system that have behaviour worth stating:

- **Models**: the four tables as datatypes with their nullable fields, and the database as
  maps keyed by primary key. `Valid` states the key, uniqueness and foreign-key constraints.
  The module also has the cascade a customer deletion causes and the `__str__` formats.
- **Api**: the "worst status wins" rule that derives an order's status from its shipments,
  and the endpoints `list_customer_orders`, `get_order`, `get_shipment` and `get_customer`.
  The ORM returns a filter's rows in an order it does not fix, so each endpoint returns as a
  ghost sequence the keys in the order it used.
- **ImportData**: `handle`, `import_customers` and `import_orders`. Each import loop is a
  method proved equal to a fold over the rows. What the source promises is proved about that
  fold:
  - one record per distinct key, each built from the first row naming it;
  - the counters;
  - the transaction rolling back on any error;
  - the constraints kept.
- **Decimal**: Python's `str(int)` and the part of `int(str)` the import relies on.
- **StatusBadge**: the status-to-colour and status-to-icon `switch`.
- **Services**: the response shapes the frontend's client hands over.
- **OrderProvider**:
  - the username derivation;
  - a `Resource` per loaded value (data, loading flag, error) and its load transition;
  - a `Provider` class whose loaders, refreshes and login effect update those fields.
- **Dashboard**: the values the page derives before rendering, including the page's own
  copy of the status badge.
- **ImportUsers**: the create-user request per row and the sequential loop.

Modelling choices:

- **Time, parsing and tables.** `strptime` is an abstract parser passed in `Parsers`. The
  CSV reader is replaced by a given sequence of row records. Tables are finite maps.
- **Transactions.** A raised exception is an `Err`. Because both imports run under
  `transaction.atomic`, an `Err` hands back no database, so the caller keeps the old one.
- **The HTTP client.** Every awaited call is an input: a `Fetch` for the frontend and the
  `server` function for the user-import script. Each load is one atomic step.
- **JavaScript truthiness.** It is modelled where the code relies on it:
  - `null` and `""` are falsy for strings, and `0` is falsy for numbers;
  - an e-mail that starts with `@` yields the username `""`, and the loaders stop at that.
- **Empty required dates.** The import turns an empty "Ship Date" or "Estimated Delivery"
  cell into `None`. Both columns are required, so the insert raises an IntegrityError, and
  `BuildShipment` returns `NotNull` for such a row.

## Model

| member | source | states |
|---|---|---|
| Api.OrderStatus | backend/core/api.py:63-76 | the derived status is always one of the six reported values; it is "Delivered" iff there is at least one shipment and every shipment is delivered |
| Api.FailedWins | backend/core/api.py:66-68 | any "Failed" shipment makes the order "Failed", whatever the other statuses |
| Api.PriorityBelowFailed | backend/core/api.py:69-74 | without "Failed": "Delayed" beats "In Transit" and "Out for Delivery", and "In Transit" beats "Out for Delivery" |
| Api.UnknownExactly | backend/core/api.py:63-76 | "Unknown" iff there is no shipment, or no ranked status occurs and some shipment is not delivered |
| Api.UnknownExamples | backend/core/api.py:63-76 | no shipments, only "Processing", and "Processing" plus "Delivered" all give "Unknown"; a mix with "Delayed" gives "Delayed" |
| Api.MaxSeverityIsMaximum | backend/core/api.py:65-74 | the highest rank bounds every status's rank and is reached by some status when positive |
| Api.WorstStatusWins | backend/core/api.py:65-76 | the if/elif chain equals an independent rule: the highest-ranked status present wins, then "Delivered" if all are delivered, else "Unknown" |
| Api.OrderStatusBySet | backend/core/api.py:66-76 | the status depends only on the set of statuses present, not on their order or count |
| Api.GetCustomer | backend/core/api.py:50-52 | not-found iff the id is not stored; otherwise the stored customer's id, username and e-mail |
| Api.Enumerate | backend/core/api.py:57-62 | a queryset iteration lists every matching key exactly once |
| Api.CollectStatuses | backend/core/api.py:62-66 | one status per shipment of the order, in query order; exactly the statuses present among its shipments |
| Api.ListCustomerOrders | backend/core/api.py:54-84 | not-found iff the customer is unknown; otherwise exactly one entry per order of the customer, in query order, with that order's id, date and aggregated status |
| Api.CollectItems | backend/core/api.py:130-131 | exactly the shipment's items, each projected to (name, quantity), in query order |
| Api.GetShipment | backend/core/api.py:125-150 | not-found iff the shipment is unknown; otherwise the shipment's fields and exactly its items |
| Api.GetOrder | backend/core/api.py:86-123 | not-found iff the order is unknown; otherwise its id, date and owning customer's id, and exactly its shipments, each with exactly its items |
| Models.Valid | backend/core/models.py:5-48 | the primary keys, the unique username and the three foreign keys; in a valid database every item leads through its shipment and order to a stored customer |
| Models.CascadeDelete | backend/core/models.py:17-46 | deleting a customer keeps every remaining record unchanged and leaves the key, uniqueness and foreign-key constraints satisfied |
| Models.DeleteKeepsForeignKeys | backend/core/models.py:17-46 | after the cascade no order, shipment or item points at a deleted record |
| Models.CascadeDeleteRemoves | backend/core/models.py:17-46 | the cascade removes exactly the customer, its orders, their shipments and those shipments' items |
| Models.DeleteCustomer | backend/core/models.py:17-46 | the deleted customer's id is the only customer key removed; no remaining order belongs to it; every remaining shipment and item is stored unchanged; the item numbering is kept |
| Models.CustomerStr | backend/core/models.py:12-13 | the text is the username, " (", the customer id and ")" |
| Models.OrderStr | backend/core/models.py:21-22 | the text of an order is its order id |
| Models.ShipmentStr | backend/core/models.py:42-43 | the text of a shipment is its shipment id |
| Models.StrIsKey | backend/core/models.py:16-43 | in a valid database a stored order's or shipment's text is its primary key, so two stored records with the same text are the same record |
| Models.ItemStr | backend/core/models.py:50-51 | the text is the item name, " (", the quantity's decimal text and ")" |
| Models.ItemStrQuantity | backend/core/models.py:50-51 | the text starts with the item name, ends with ")", and the quantity parses back from between " (" and ")" |
| Decimal.NatToString | backend/core/models.py:51 | the decimal text of a natural is non-empty, all digits, without a leading zero |
| Decimal.IntToString | backend/core/models.py:51 | the decimal text of an int is non-empty and starts with '-' iff the int is negative |
| Decimal.ParseInt | backend/core/management/commands/import_data.py:114 | `int()` succeeds iff the text is an optional sign followed by one or more digits, and then gives the digits' value, negated after a '-' |
| Decimal.LeadingZeroIgnored | backend/core/management/commands/import_data.py:114 | a leading zero does not change the value of a digit string |
| Decimal.SignAndZerosIgnored | backend/core/management/commands/import_data.py:114 | "+d" and "0d" parse to the same value as "d", and "-0" parses to zero |
| Decimal.NatRoundTrip | backend/core/models.py:51 | the digits of a natural read back as that natural |
| Decimal.IntRoundTrip | backend/core/management/commands/import_data.py:114 | parsing the printed form of any int gives that int back |
| ImportData.ImportCustomers | backend/core/management/commands/import_data.py:32-47 | the loop computes exactly the fold `ImportCustomersSpec` over the rows |
| ImportData.ImportCustomersEffect | backend/core/management/commands/import_data.py:39-45 | the import fails iff some row's id or username is already taken or repeated; on success, exactly one new Customer per row, a count equal to the row count, old customers and other tables unchanged, constraints kept |
| ImportData.CustomersFoldInv | backend/core/management/commands/import_data.py:39-45 | from the invariant after any prefix, the rest of the fold fails iff the file is not insertable, and otherwise ends with the invariant on the whole file |
| ImportData.InsertKeepsInv | backend/core/management/commands/import_data.py:40-45 | inserting a row whose id and username are free keeps the loop invariant |
| ImportData.InsertKeepsValid | backend/core/models.py:6-7 | adding a customer with a free id and username keeps the constraints |
| ImportData.ShowNotInsertable | backend/core/management/commands/import_data.py:40-44 | a row whose id or username is taken at its turn makes the whole file not insertable |
| ImportData.DateCell | backend/core/management/commands/import_data.py:84-86 | an empty date cell gives None; a non-empty one is parsed, and a parse failure is a ValueError |
| ImportData.TimestampCell | backend/core/management/commands/import_data.py:87 | an empty timestamp cell gives None; a non-empty one is parsed, and a parse failure is a ValueError |
| ImportData.EmptyToNone | backend/core/management/commands/import_data.py:104-105 | `cell or None`: None iff the cell is empty, otherwise the cell itself |
| ImportData.BuildShipment | backend/core/management/commands/import_data.py:84-106 | the shipment is built iff the ship date and estimated delivery are present and parse and the optional actual delivery date and scan timestamp are empty or parse; an empty ship date with otherwise good dates is a NOT NULL error on `ship_date`; every other error is a ValueError or NOT NULL error; the built shipment carries the row's ids and eight text cells unchanged, the parsed dates, and `cell or None` of the attempt and failure statuses |
| ImportData.BuildItem | backend/core/management/commands/import_data.py:111-115 | the item exists iff the quantity parses, and then carries the row's shipment, item name and quantity |
| ImportData.OrderPart | backend/core/management/commands/import_data.py:68-79 | an order step marks the order id processed and changes only the orders and their counter; it can fail only for an unseen order id |
| ImportData.ShipmentPart | backend/core/management/commands/import_data.py:81-116 | a shipment step marks the shipment id processed and leaves customers, orders and their counter alone; it can fail only for an unseen shipment id |
| ImportData.ImportOrders | backend/core/management/commands/import_data.py:49-118 | the loop over the rows computes exactly the fold `ImportOrdersSpec` |
| ImportData.ImportOrderCells | backend/core/management/commands/import_data.py:68-79 | the order half of the loop body computes exactly `OrderPart` |
| ImportData.ImportShipmentCells | backend/core/management/commands/import_data.py:81-116 | the shipment half of the loop body computes exactly `ShipmentPart` |
| ImportData.OrderPartOrders | backend/core/management/commands/import_data.py:69-79 | one order step keeps the order invariant: one order per distinct id, created from the first row naming it, counted only when created |
| ImportData.ShipmentPartShipments | backend/core/management/commands/import_data.py:82-108 | one shipment step keeps the shipment invariant: one shipment per distinct id, built from the first row naming it |
| ImportData.ShipmentPartItems | backend/core/management/commands/import_data.py:110-116 | one shipment step keeps the item invariant: one item per first occurrence, numbered in file order |
| ImportData.StepKeepsImported | backend/core/management/commands/import_data.py:63-116 | one loop iteration keeps the whole import invariant, constraints included |
| ImportData.FoldKeepsImported | backend/core/management/commands/import_data.py:63-116 | the invariant after any prefix holds at the end of a successful fold |
| ImportData.ImportOrdersEffect | backend/core/management/commands/import_data.py:60-116 | a successful import creates each new order once, and each shipment and its single item once, from the first row naming them; customers and stored records are unchanged; constraints hold |
| ImportData.ImportOrdersCounts | backend/core/management/commands/import_data.py:77-116 | orders counted = distinct order ids not stored before, at most the distinct order ids; shipments counted = items counted = distinct shipment ids |
| ImportData.NewOrderCountIsDifference | backend/core/management/commands/import_data.py:77-78 | the orders created count equals the number of order ids of the file not stored before |
| ImportData.FirstOccurrencesUnique | backend/core/management/commands/import_data.py:82-108 | the rows that introduce shipments name each shipment id of the file exactly once |
| ImportData.FirstWithFound | backend/core/management/commands/import_data.py:69-82 | a first row naming an id exists iff the file names that id, and it names that id |
| ImportData.RepeatedRowIgnored | backend/core/management/commands/import_data.py:69-82 | appending a row whose order id and shipment id were both seen changes neither the outcome nor the database |
| ImportData.OrderPartAccepts | backend/core/management/commands/import_data.py:68-79 | the order half of a row succeeds iff a new order id has a parsable order date and an existing order or customer |
| ImportData.ShipmentPartAccepts | backend/core/management/commands/import_data.py:81-116 | the shipment half of a row succeeds iff a new shipment id is free and its shipment and item can be built |
| ImportData.FoldAccepts | backend/core/management/commands/import_data.py:63-116 | from any prefix, the rest of the loop succeeds iff every remaining row is accepted at its turn |
| ImportData.ImportOrdersSucceeds | backend/core/management/commands/import_data.py:60-116 | the orders import commits iff every row is accepted given the rows before it; a row whose order id and shipment id were both seen is never looked at |
| ImportData.OrdersFromAppend | backend/core/management/commands/import_data.py:63 | the fold over two files in a row is the fold over the second from where the first stopped |
| ImportData.OrdersFromTracksIds | backend/core/management/commands/import_data.py:60-108 | after a successful fold the processed sets are exactly the order ids and shipment ids of the rows |
| ImportData.Missing | backend/core/management/commands/import_data.py:19-23 | a path counts as present iff it is given, non-empty and exists |
| ImportData.Handle | backend/core/management/commands/import_data.py:15-30 | a missing file stops before any import; customers are imported and committed before orders; each outcome and final database follow the two imports; constraints hold |
| StatusBadge.BadgeColor | frontend/src/components/StatusBadge.tsx:20-48 | each of the six statuses gets its own colour, in both directions; every other string gets "default" |
| StatusBadge.BadgeIcon | frontend/src/components/StatusBadge.tsx:20-48 | each icon is chosen for exactly its statuses, in both directions: "Delayed" and "Failed" share the warning icon, and every other string gets the inventory icon |
| StatusBadge.Badge | frontend/src/components/StatusBadge.tsx:50-58 | the chip's label is the status unchanged |
| StatusBadge.IconFollowsColor | frontend/src/components/StatusBadge.tsx:20-48 | the icon is determined by the colour, warning and error sharing the warning icon |
| StatusBadge.BackendStatusesColoured | frontend/src/components/StatusBadge.tsx:20-47 | every status the backend can derive has a non-default colour except "Unknown"; none gets "Processing"'s colour |
| StatusBadge.FailedNotDelayed | frontend/src/components/StatusBadge.tsx:29-36 | "Failed" shows as error and "Delayed" as warning |
| OrderProvider.EmailPrefix | frontend/src/contexts/OrderProvider.tsx:71 | `split('@')[0]`: a prefix of the address without '@', ending at the first '@' or the end |
| OrderProvider.PrefixOfAddress | frontend/src/contexts/OrderProvider.tsx:71 | the prefix of `name@rest` is `name` for a name without '@' |
| OrderProvider.UsernameFromUser | frontend/src/contexts/OrderProvider.tsx:69-74 | null iff there is no user or no non-empty e-mail; otherwise the e-mail's text before its first '@' (all of it when there is none) |
| OrderProvider.LoadUsername | frontend/src/contexts/OrderProvider.tsx:78-79 | the loaders go on only with a non-empty username |
| OrderProvider.Start | frontend/src/contexts/OrderProvider.tsx:82-83 | starting a load sets loading, clears the error and keeps the data |
| OrderProvider.Finish | frontend/src/contexts/OrderProvider.tsx:85-104 | after the call loading is off; an exception sets the fixed message and keeps the data; an error response sets its error and keeps the data; otherwise the error is untouched and present data is stored |
| OrderProvider.Load | frontend/src/contexts/OrderProvider.tsx:77-105 | after a load, loading is off; an exception sets the fixed message and keeps the data; an error response sets its error and keeps the data; otherwise the error is cleared and present data is stored |
| OrderProvider.LoadRecovers | frontend/src/contexts/OrderProvider.tsx:82-98 | a successful load after a failed one leaves no error and the new data |
| OrderProvider.Provider.constructor | frontend/src/contexts/OrderProvider.tsx:53-66 | initially nothing is loaded, nothing is loading and there is no error |
| OrderProvider.Provider.LoadCustomer | frontend/src/contexts/OrderProvider.tsx:77-105 | only the customer resource changes, by one load, and not at all without a username |
| OrderProvider.Provider.LoadOrders | frontend/src/contexts/OrderProvider.tsx:108-136 | only the orders resource changes, by one load with "Failed to load orders", and not at all without a username |
| OrderProvider.Provider.LoadDashboardStats | frontend/src/contexts/OrderProvider.tsx:139-167 | only the dashboard resource changes, by one load, and not at all without a username |
| OrderProvider.Provider.RefreshOrders | frontend/src/contexts/OrderProvider.tsx:170-173 | a refresh reloads the orders and touches nothing else |
| OrderProvider.Provider.RefreshDashboard | frontend/src/contexts/OrderProvider.tsx:176-179 | a refresh reloads the dashboard statistics and touches nothing else |
| OrderProvider.Provider.UserChanged | frontend/src/contexts/OrderProvider.tsx:182-190 | the session is taken over; the three loads run only when the user is present and not loading, and otherwise nothing else changes |
| Dashboard.LocalBadge | frontend/src/app/dashboard/page.tsx:42-86 | the page's own chip is labelled with the status, and its icon is the one its colour goes with |
| Dashboard.LocalBadgeAgrees | frontend/src/app/dashboard/page.tsx:42-86 | the page's own badge renders the same chip as the shared component for every string |
| Dashboard.RecentOrders | frontend/src/app/dashboard/page.tsx:114 | the recent orders are the prefix of the orders of length min(5, count) |
| Dashboard.OrZero | frontend/src/app/dashboard/page.tsx:305 | JavaScript's or-zero default on a counter is the counter, or 0 when it is missing |
| Dashboard.Issues | frontend/src/app/dashboard/page.tsx:305 | issues = delayed + failed, a missing statistics object or counter counting as 0 |
| Dashboard.HighlightedIffIssue | frontend/src/app/dashboard/page.tsx:292-294 | with non-negative counters the card is tinted iff some shipment is delayed or failed |
| Dashboard.ItemLabel | frontend/src/app/dashboard/page.tsx:451 | "item" iff the count is 1, otherwise "items" |
| Dashboard.ItemsText | frontend/src/app/dashboard/page.tsx:451 | the items cell is the count's decimal text, one space and the label |
| Dashboard.ItemsTextReadsBack | frontend/src/app/dashboard/page.tsx:451 | the items cell is the count in decimal, a space and the label, and the count parses back from it |
| Dashboard.UpperChar | frontend/src/app/dashboard/page.tsx:205 | an upper-cased character is never a lower-case letter, and only letters change |
| Dashboard.ToUpper | frontend/src/app/dashboard/page.tsx:205 | upper-casing keeps the length and works character by character |
| Dashboard.Initials | frontend/src/app/dashboard/page.tsx:205 | the initials are the first up-to-two characters of the username, upper-cased |
| Dashboard.RedirectTarget | frontend/src/app/dashboard/page.tsx:107-111 | a redirect to "/" happens iff the session is known and there is no user |
| Dashboard.Alert | frontend/src/app/dashboard/page.tsx:164-174 | an alert is shown iff the error is non-empty, and then reads prefix plus error |
| Dashboard.Render | frontend/src/app/dashboard/page.tsx:107-451 | a spinner iff the session is loading or there is no user, so always when redirecting; otherwise the recent orders are the first min(5, n) orders, each with its items cell; refresh is disabled and the progress bar shown iff a load is running; each alert is its error behind its prefix, shown iff the error is non-empty; the initials are the loaded customer's, present iff a customer is loaded; the issue count is delayed + failed and the card is highlighted iff it is positive |
| Dashboard.HandleRefresh | frontend/src/app/dashboard/page.tsx:117-120 | refreshing reloads both orders and dashboard statistics and leaves the customer alone |
| ImportUsers.Payload | frontend/import-users.js:55-63 | the body's e-mail is the username followed by "@example.com"; username and name are the username; password and customer id come from the row; the connection is the fixed one |
| ImportUsers.CreateUserRequest | frontend/import-users.js:55-69 | the call goes to `https://<domain>/api/v2/users` with the token as bearer and the row's body |
| ImportUsers.UsernameRoundTrip | frontend/import-users.js:55-63 | for a username without '@', the username derived from the generated e-mail is the original; name, password, customer id and connection come from the row and the constant |
| ImportUsers.UsernameWithAtLost | frontend/import-users.js:57 | for a username with '@', the derived username is only its text before the first '@', never the username itself |
| ImportUsers.ImportUsers | frontend/import-users.js:21-109 | no file: nothing sent; no token: nothing sent; otherwise exactly one request per row, in file order, each built from its row, and every row is tried whatever the earlier replies |

## Left out

- CSV reading, file opening and the `csv.DictReader` / `csv-parser` libraries: rows are given as records. A missing column (`undefined` in JavaScript, `KeyError` in Python) is not modelled.
- Calendar validity and the formats `strptime` accepts: the parser is abstract.
- `created_at` (`auto_now_add`) timestamps: they depend on the clock.
- `max_length` limits and the 32-bit range of `IntegerField`: lengths and quantities are unbounded, so an over-long cell or a huge quantity is accepted.
- Decimal.ParseInt: does not accept the surrounding whitespace, the digit-group underscores or the non-ASCII Unicode decimal digits (Arabic-Indic, fullwidth and others) that Python's `int()` allows; a Quantity cell written with them is a ValueError here and rolls back the orders import.
- Dashboard.Initials: takes the first two characters of the username, while `substring(0, 2)` counts UTF-16 code units; for a username starting with a character outside the Basic Multilingual Plane (an emoji, say) JavaScript shows one character where the model shows two.
- Dashboard.UpperChar: upper-cases ASCII letters only, not the full Unicode mapping of `toUpperCase`.
- Dashboard.OrZero: a NaN counter, which `|| 0` would also turn into 0, cannot arise since counters are integers.
- The Django ORM, migrations and the deferred constraint checks of a transaction: a violated foreign key fails at the insert rather than at commit, which gives the same rollback.
- `OrderListItem.itemsCount` follows the frontend's declared type (always a number). The backend's `list_customer_orders` sends no `items_count`, so against this backend the page would render the items cell as " items"; that mismatch is not modelled.
- The HTTP layer: axios, URL encoding, request headers other than the bearer token, and the `/customers/lookup` and dashboard endpoints the frontend calls. The backend defines no such endpoints, and `services/api.ts` contributes only its response shapes.
- The Auth0 token request (`getAccessToken`): only its outcome, a token or a failure, is an input.
- The one-second delays between user creations, and all console logging.
- React scheduling and async interleaving: each load is one atomic step, and the three loads of the login effect run one after the other.
- All rendering, JSX, styling, icons and layout. The page is reduced to the values it derives.
- The other frontend pages: the landing page (`app/page.tsx`), the API test page that shows the customer and the statistics (`app/test/page.tsx`), the profile page (`app/profile/page.tsx`) and the order-detail page (`app/orders/[orderId]/page.tsx`); also the root layout, the Auth0 route handler and session handling, URL routing and the admin site.
