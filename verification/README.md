# WMS stock ledger and document posting

This project models the warehouse-management backend of the WMS repository.
The core is its stock ledger: one signed quantity per (item, location) pair.
Three kinds of warehouse document change that ledger when they are posted:

- a goods receipt adds its line quantities;
- a dispatch subtracts them, creating a negative row when the pair had none;
- a stocktake overwrites the row with the counted quantity.

The three routers share one shape. Each has a request schema, a create
route, a list route (newest id first) and an unguarded post route. That route
marks the document posted and then upserts one stock row per line, in
document order. The model has one engine for all three, parameterised by the
document kind through `Policy = Increment | Decrement | Set`.

Around it sit the inventory router's item and location schemas, its list
routes and its filtered, ordered stock view. The frontend's user store is
modelled too: it decodes the JWT payload segment and answers permission
checks.

Files:

- `wrappers.dfy`: `Option`, `Result` and the two error outcomes. A schema
  rejection is a 400; a missing document makes the ORM update throw.
- `schema.dfy`: a JSON value type and the zod primitives the schemas use.
- `stock.dfy`: the stock map, the per-line upsert, the fold over a
  document's lines, and the laws of each policy.
- `documents.dfy`: documents, the three create schemas, and their parsers.
- `sorting.dfy`: listing a table by descending id.
- `warehouse.dfy`: the `Warehouse` class. It holds the document tables and
  the stock table, and has the create, post and list routes.
- `inventory.dfy`: items, locations, their schemas and lists, and the stock view.
- `user_store.dfy`: JWT segment extraction, base64url rewriting, padding,
  and the `UserStore` class.

The client and the server disagree about the document lifecycle, and the
model follows the server:

- The client offers Post only for a draft (frontend/src/pages/Primke.tsx:200).
  The post routes check no status (backend/src/routes/receipts.ts:43), so
  `Post` applies a posted document's lines again
  (`StockLedger.RepostIncrementsTwice`, `WarehouseDb.RepostScenario`).
- The client calls PUT and DELETE document routes
  (frontend/src/lib/api.ts:123-124). No backend router defines them, so
  document update and delete are not modelled.

## Model

| member | source | states |
|---|---|---|
| Schema.NonEmptyString | backend/src/routes/receipts.ts:10 | `z.string().min(1)` accepts exactly a string of length at least one, and the result is that string |
| Schema.OptionalString | backend/src/routes/receipts.ts:11-12 | `z.string().optional()` accepts exactly an absent key or a string (not null), and gives back what was sent |
| Schema.PositiveInt | backend/src/routes/receipts.ts:14-16 | `z.number().int().positive()` accepts exactly an integral number above zero, and the result encodes back to the input |
| Schema.NonNegativeInt | backend/src/routes/stocktakes.ts:15 | `z.number().int().nonnegative()` accepts exactly an integral number at least zero, so 0 passes |
| Schema.OptionalNonNegativeInt | backend/src/routes/inventory.ts:15 | an absent `minStock` passes; a present one must be a non-negative integer |
| StockLedger.Upsert | backend/src/routes/receipts.ts:46-50 | one upsert touches exactly the line's pair and adds its key if missing. Increment adds the amount to the old quantity (0 when absent), Decrement subtracts it (a new row is `-qty`), Set stores the amount |
| StockLedger.ApplyAll | backend/src/routes/receipts.ts:45-51 | after the loop, the rows are the old rows plus the pairs the lines name; rows of unnamed pairs are unchanged |
| StockLedger.ApplyAllStep | backend/src/routes/receipts.ts:45-51 | one more loop iteration is one more upsert on the result so far |
| StockLedger.IncrementLaw | backend/src/routes/receipts.ts:45-51 | after a receipt, every pair's quantity is its old quantity (0 if no row) plus the sum of `qty` over its lines |
| StockLedger.DecrementLaw | backend/src/routes/dispatches.ts:45-51 | after a dispatch, every pair's quantity is its old quantity (0 if no row) minus the sum of `qty` over its lines |
| StockLedger.UntouchedPairs | backend/src/routes/dispatches.ts:45-51 | a pair no line names keeps its quantity, and no row is created for it |
| StockLedger.SumPositive | backend/src/routes/receipts.ts:16 | with positive `qty` values, a named pair's total is positive |
| StockLedger.SumNonNegative | backend/src/routes/stocktakes.ts:15 | with non-negative amounts, such as a stocktake's counts including 0, every pair's total is non-negative |
| StockLedger.DispatchCreatesNegativeRow | backend/src/routes/dispatches.ts:49 | a dispatched pair without a prior row ends with a row holding minus its total, which is negative |
| StockLedger.SetLastLineWins | backend/src/routes/stocktakes.ts:43-49 | after a stocktake, a pair holds the `countedQty` of its last line in document order |
| StockLedger.LastLineExists | backend/src/routes/stocktakes.ts:43-49 | every named pair has a last line that names it |
| StockLedger.SetIgnoresPriorStock | backend/src/routes/stocktakes.ts:46 | a named pair's counted result does not depend on the prior stock, negative rows included |
| StockLedger.SetIdempotent | backend/src/routes/stocktakes.ts:41-49 | posting a stocktake twice leaves the same stock as posting it once |
| StockLedger.RepostIncrementsTwice | backend/src/routes/receipts.ts:41-51 | posting a receipt twice adds twice its per-pair totals, because nothing checks the status |
| StockLedger.SumAppend | backend/src/routes/dispatches.ts:45-51 | the per-pair total of two lists joined is the sum of their totals |
| StockLedger.SumPermutation | backend/src/routes/dispatches.ts:45-51 | reordering the lines does not change any per-pair total |
| StockLedger.AccumulationIgnoresOrder | backend/src/routes/dispatches.ts:45-51 | for receipts and dispatches, any reordering of the lines gives the same stock |
| Documents.ParseLine | backend/src/routes/receipts.ts:13-17 | a line passes exactly when `itemId`, `locationId` and the amount key pass their checks; the parsed line holds those values |
| Documents.ParseLines | backend/src/routes/receipts.ts:13 | the array passes exactly when every element does; the result has the same length and order, element by element |
| Documents.ParseCreate | backend/src/routes/receipts.ts:9-18 | a create body passes exactly when it satisfies the kind's schema. The result carries the given number, counterparty (`supplier`, `customer`, none for stocktakes), date and lines in order |
| Documents.ReceiptRejects | backend/src/routes/receipts.ts:9-18 | an empty `number`, an empty `lines` array, or a line with `qty` 0 makes a receipt body fail |
| Documents.DispatchRejectsNonPositive | backend/src/routes/dispatches.ts:13-17 | a dispatch line whose `itemId`, `locationId` or `qty` is zero, negative or fractional makes the body fail |
| Documents.OneLineReceiptParses | backend/src/routes/receipts.ts:9-18 | any receipt body with a non-empty number and one line of positive `itemId`, `locationId` and `qty` is accepted, and parses to exactly that line with no supplier and no date |
| Documents.PolicyOf | backend/src/routes/receipts.ts:48 | a receipt line's upsert adds its `qty` to the pair's quantity (0 when absent), a dispatch line's subtracts it (dispatches.ts:48-49), a stocktake line's sets it to `countedQty` (stocktakes.ts:46-47) |
| Documents.StocktakeAcceptsZeroCount | backend/src/routes/stocktakes.ts:9-17 | a stocktake line with `countedQty` 0 is accepted and parsed to amount 0, while a receipt or dispatch line with `qty` 0 is rejected |
| Sorting.Max | backend/src/routes/receipts.ts:21 | a non-empty id set has a largest member |
| Sorting.SortDesc | backend/src/routes/receipts.ts:21 | the ids listed are exactly the table's ids, once each, strictly decreasing |
| Sorting.ListByIdDesc | backend/src/routes/receipts.ts:21 | the rows listed are exactly the table's rows, once each, by strictly descending id |
| WarehouseDb.Warehouse.Create | backend/src/routes/receipts.ts:25-39 | the result is a success exactly when the body is valid. A rejection stores nothing. A success stores one new draft under a fresh id, with the submitted number, counterparty and lines; an empty date is stored as none. Stock is not touched |
| WarehouseDb.Warehouse.Post | backend/src/routes/receipts.ts:41-53 | an unknown id fails and changes nothing. Otherwise the document becomes posted with its lines unchanged, and the stock becomes the old stock with every line upserted in order under the kind's policy |
| WarehouseDb.Warehouse.List | backend/src/routes/dispatches.ts:20-23 | the documents of the kind, each exactly once, by strictly descending id |
| Inventory.ParseItem | backend/src/routes/inventory.ts:10-16 | an item body passes exactly when `sku` and `name` are non-empty strings, `unit` and `barcode` are absent or strings, and `minStock` is absent or a non-negative integer. A missing unit becomes `"pcs"` |
| Inventory.ParseLocation | backend/src/routes/inventory.ts:49-52 | a location body passes exactly when `code` is a non-empty string and `description` is absent or a string |
| Inventory.ListItems | backend/src/routes/inventory.ts:18-21 | every item exactly once, by strictly descending id |
| Inventory.ListLocations | backend/src/routes/inventory.ts:54-57 | every location exactly once, by strictly descending id |
| Inventory.Matches | backend/src/routes/inventory.ts:72-73 | the stock view's filter keeps an item exactly when `q` is absent or empty, or `q` occurs somewhere in its `sku`, its `name` or its present `barcode` |
| Inventory.ContainsIffOccurs | backend/src/routes/inventory.ts:73 | `contains` holds exactly when the query occurs at some position of the text |
| Inventory.First | backend/src/routes/inventory.ts:77 | a non-empty set of stock keys has a least key by (locationId, itemId) |
| Inventory.SortPairs | backend/src/routes/inventory.ts:77 | the keys listed are exactly the set's, once each, ascending by locationId and then itemId |
| Inventory.StockView | backend/src/routes/inventory.ts:71-80 | a row is listed exactly when its item's `sku`, `name` or `barcode` contains `q` (any row when `q` is absent or empty). Each row carries its quantity, item and location, with one row per matching key, ordered by locationId then itemId |
| Inventory.UnfilteredViewListsEveryRow | backend/src/routes/inventory.ts:73 | without a query, every stock row is listed with its quantity |
| UserSession.Split | frontend/src/store/useUserStore.ts:26 | `split` gives at least one part, no part holds the separator, and joining the parts gives back the string |
| UserSession.SplitJoin | frontend/src/store/useUserStore.ts:26 | splitting a join of separator-free parts gives back the parts |
| UserSession.SecondSegment | frontend/src/store/useUserStore.ts:26 | the payload segment holds no dot, and a token without a dot gives the empty segment |
| UserSession.SecondSegmentOfJoin | frontend/src/store/useUserStore.ts:26 | for `header.payload.signature` the payload segment is the second part |
| UserSession.ReplaceAll | frontend/src/store/useUserStore.ts:28 | the global single-character replace keeps the length and changes exactly the matching characters |
| UserSession.ToBase64 | frontend/src/store/useUserStore.ts:28 | the rewritten segment has the same length; each `-` becomes `+`, each `_` becomes `/`, every other character is kept, so no `-` or `_` remains |
| UserSession.Pad | frontend/src/store/useUserStore.ts:29 | padding appends fewer than four `=`, keeps the prefix, and makes the length a multiple of four |
| UserSession.DecodeJwtPayload | frontend/src/store/useUserStore.ts:24-35 | a missing or empty payload segment gives none. Otherwise the result is the decoding of that segment rewritten to base64 and padded, a string with no `-` or `_` whose length is a multiple of four |
| UserSession.Includes | frontend/src/store/useUserStore.ts:49 | `includes` holds exactly when the value is in the array |
| UserSession.Unlisted | frontend/src/store/useUserStore.ts:49 | any finite permission list misses some permission |
| UserSession.UserStore.constructor | frontend/src/store/useUserStore.ts:38-39 | the store starts with no token and no payload |
| UserSession.UserStore.SetUserFromToken | frontend/src/store/useUserStore.ts:40-43 | the token is stored as given, and the payload is what decoding it gives |
| UserSession.UserStore.Clear | frontend/src/store/useUserStore.ts:44 | token and payload become none, so no permission holds afterwards |
| UserSession.UserStore.HasPerm | frontend/src/store/useUserStore.ts:45-50 | false without a payload; true for an admin; otherwise true exactly when `perms` is present and lists the permission |
| UserSession.UserStore.IsAdmin | frontend/src/store/useUserStore.ts:51 | a user is an admin exactly when every permission holds. A non-admin's permissions are exactly the listed ones |

## Left out

- Document edit and delete: the client calls PUT and DELETE document routes that no backend router defines, so they have no behaviour to model.
- A status guard on posting: the routes have none, and the model adds none.
- Item create, update and delete and location create: each is a single write to its table (the router defines no location update or delete). Only the item and location schemas are modelled; the partial schema used by item update is not.
- Foreign keys: a line's or a stock row's item and location are assumed to exist, as the database enforces. `Inventory.StockView` requires it.
- Date parsing (`new Date(date)`): a date string is stored as given. An empty string is stored as no date, as the falsy check does.
- The database defaults for a new document's date and status: the status default is taken to be `draft`.
- Document ids: modelled as a per-kind counter starting at 1, the autoincrement behaviour. `Number(req.params.id)` on a non-numeric id (NaN) is not modelled; the post route takes an integer id.
- Transactions and concurrency: the status update and the stock upserts run as separate writes in the source. The model posts sequentially and atomically, without races or partially applied posts.
- Error bodies: the zod error details (`flatten()`) and ORM messages collapse into `ValidationError`; a missing document is `NotFound`.
- Integer width: ids, quantities and stock are unbounded integers. The database's integer columns are not part of this model; a value zod accepts but such a column cannot hold (for example `qty: 3e9`) makes create or an upsert part-way through a post fail in the source, while the model succeeds.
- WarehouseDb.Warehouse.Post: applies the lines in submitted order. The source reads them through `include: { lines: true }` without an `orderBy`, so it walks them in whatever order the database returns; `StockLedger.SetLastLineWins` is about the last line in submitted order.
- JSON numbers: modelled as exact reals. Double rounding, infinities and NaN are not modelled.
- Inventory.StockView: `contains` is modelled as case-sensitive substring search; case-insensitive matching that depends on the database's collation is not modelled.
- UserSession.DecodeJwtPayload: `atob` and `JSON.parse` are a parameter `decode`, None when either would throw. Only the `role` and `perms` payload fields are modelled, and `perms` present but not an array reads as absent.
- String lengths: counted in characters, not UTF-16 code units.
- HTTP plumbing, authentication middleware, JWT verification, password hashing, the users and messages routers, seeding and every React page.
