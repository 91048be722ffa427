# Order history query of the eShopOnWeb web front end

This project models the "my orders" query of the eShopOnWeb web application:
the MediatR request handler `GetMyOrdersHandler.Handle`, which answers a
`GetMyOrders` request carrying the signed-in user's name with a
`MyOrdersViewModel` holding one `OrderSummaryViewModel` per order of that
buyer.

The handler is a single query pipeline over the order store:

- **Where**: keep the orders whose `BuyerId` equals the request's `UserName`.
- **Select**: project each kept order to a summary. The summary copies the
  order's `Id` as `OrderNumber` and its `OrderDate`, and sets `Total` to the
  sum over the order's items of `Units * UnitPrice`.
- The summary's `Status` is a computed property. It is always the constant
  `"Pending"`.

In the model the store is a `seq<Order>`, taken in the order the database
yields it. `Where` is `MyOrders.OrdersOfBuyer`, `Select` is
`MyOrders.Summaries`, the sum is `MyOrders.OrderTotal` and the handler is
`MyOrders.Handle`. All of them are functions over immutable values, as the
source query only reads. C# `decimal` is exact base-10 arithmetic, so prices
are `real`. Dates (`DateTimeOffset`) are an opaque value that is only copied.

Files:

- `my_orders.dfy` (module `MyOrders`): the entities, the pipeline and the
  handler, with their contracts.
- `my_orders_properties.dfy` (module `MyOrdersProperties`): lemmas relating
  several calls. They cover composition over concatenated stores,
  independence from the order of items, the empty answer, and a worked
  example.

## Model

| member | source | states |
|---|---|---|
| `MyOrders.OrderTotal` | src/Web/Features/MyOrders/GetMyOrdersHandler.cs:84 | Its definition is the sum of `Units * UnitPrice` over the items, taken left to right, with 0 for no items; the laws of that sum are `OrderTotalSingle`, `OrderTotalAppend` and `OrderTotalPermutation`. Its own contract adds a bound the model proves: with no negative units or prices the total is not negative |
| `MyOrders.OrderTotalSingle` | src/Web/Features/MyOrders/GetMyOrdersHandler.cs:84 | The sum's selector: a one-line order totals to that line's `Units` times its `UnitPrice` |
| `MyOrders.OrderSummary.Status` | src/Web/Features/MyOrders/GetMyOrdersHandler.cs:57-62 | The status is the constant "Pending" for every summary, whatever its number, date or total |
| `MyOrders.Summarize` | src/Web/Features/MyOrders/GetMyOrdersHandler.cs:80-85 | The `Select` projection of one order: it copies the `Id` and `OrderDate` and totals the items, and it is the only summary that does so for that order |
| `MyOrders.OrdersOfBuyer` | src/Web/Features/MyOrders/GetMyOrdersHandler.cs:79 | Every kept order is a store order whose buyer id equals the user name; every store order with that buyer id is kept; nothing is kept more often than the store holds it |
| `MyOrders.OrdersOfBuyerCount` | src/Web/Features/MyOrders/GetMyOrdersHandler.cs:79 | The filter yields exactly as many orders as there are store positions holding an order of that buyer |
| `MyOrders.Summaries` | src/Web/Features/MyOrders/GetMyOrdersHandler.cs:80-85 | One summary per order, position by position: `OrderNumber` is the order's `Id`, `OrderDate` its date, `Total` the sum of `Units * UnitPrice` over its items |
| `MyOrders.SummariesCorrespond` | src/Web/Features/MyOrders/GetMyOrdersHandler.cs:80-85 | Every summary is the projection of one of the orders, and every order has its projection among the summaries |
| `MyOrders.ProducingIndicesSnoc` | src/Web/Features/MyOrders/GetMyOrdersHandler.cs:79-85 | Unfolding helper: one more order at the end of the store adds one producing position for a summary exactly when that order belongs to the buyer and projects to the summary |
| `MyOrders.SummariesSnoc` | src/Web/Features/MyOrders/GetMyOrdersHandler.cs:80-85 | Unfolding helper: projecting a list with one more order at its end appends that order's summary |
| `MyOrders.SummariesOfBuyerMultiplicity` | src/Web/Features/MyOrders/GetMyOrdersHandler.cs:79-85 | After filtering and projecting, each summary occurs exactly as often as the store has positions holding an order of the buyer that projects to it |
| `MyOrders.Handle` | src/Web/Features/MyOrders/GetMyOrdersHandler.cs:74-89 | The answer has one summary per store order of the requesting buyer: each summary occurs exactly as often as the store has positions holding an order of that buyer that projects to it, so no other buyer's order appears and duplicates are kept as often as stored; the length is the number of that buyer's store positions; every summary projects an order of that buyer and every such order has its summary; every status is "Pending" |
| `MyOrdersProperties.OrderTotalAppend` | src/Web/Features/MyOrders/GetMyOrdersHandler.cs:84 | The total of two item lists put together is the sum of their totals |
| `MyOrdersProperties.OrderTotalPermutation` | src/Web/Features/MyOrders/GetMyOrdersHandler.cs:78-84 | Any rearrangement of an order's items, in whatever order they are loaded, gives the same total |
| `MyOrdersProperties.OrdersOfBuyerSnoc` | src/Web/Features/MyOrders/GetMyOrdersHandler.cs:79 | Unfolding helper for `OrdersOfBuyerAppend`: the filter's defining step for one order appended at the end of the store |
| `MyOrdersProperties.OrdersOfBuyerAppend` | src/Web/Features/MyOrders/GetMyOrdersHandler.cs:79 | Filtering two store parts put together is filtering each part, in order |
| `MyOrdersProperties.SummariesAppend` | src/Web/Features/MyOrders/GetMyOrdersHandler.cs:80-85 | Projecting two order lists put together is projecting each list, in order |
| `MyOrdersProperties.HandleAppend` | src/Web/Features/MyOrders/GetMyOrdersHandler.cs:77-86 | Each stored order is handled on its own: the answer for two store parts put together is the answer for the first part followed by the answer for the second |
| `MyOrdersProperties.OtherBuyersIgnored` | src/Web/Features/MyOrders/GetMyOrdersHandler.cs:79 | Inserting orders of other buyers anywhere in the store leaves the answer unchanged |
| `MyOrdersProperties.NoOrdersGiveEmptyAnswer` | src/Web/Features/MyOrders/GetMyOrdersHandler.cs:76-88 | The answer is the empty collection exactly when the store holds no order of the requesting buyer; no error is raised for a buyer without orders |
| `MyOrdersProperties.NoItemsTotalZero` | src/Web/Features/MyOrders/GetMyOrdersHandler.cs:84 | An order of the buyer with no items appears with its id, its date and total 0, because an empty sum is 0 |
| `MyOrdersProperties.TwoLineOrderExample` | src/Web/Features/MyOrders/GetMyOrdersHandler.cs:74-89 | A one-order store with lines 2 × 10.00 and 1 × 5.00 gives that buyer exactly one summary, with the order's id and date, total 25.00 and status "Pending" |

## Left out

- Verification-email dispatch (`SendVerificationEmailHandler.Handle`, `SendVerificationInvocable.Invoke` in src/Web/Features/Accounts/SendVerificationEmail.cs): it is forwarding to the identity user manager, the link generator, the Hangfire job queue and the email sender, none of which this repository implements. Only the "user not found" check is its own logic.
- `ConfirmationEmailSender.SendEmailConfirmationAsync` (src/Web/Extensions/ConfirmationEmailSender.cs): a fixed text template around the framework's HTML encoder. The escaping it relies on belongs to that library.
- The `GetMyOrdersController.MyOrders` action: the choice between JSON and a rendered view on the `Accept` header, and the `[Authorize]` attribute, are web framework concerns.
- Entity Framework mechanics: `Include`, `ToArrayAsync`, async execution and the cancellation token. The store is given as a value, and a query failure from the database is not modelled.
- Read-only behaviour: the handler leaving the orders and their items unchanged holds by construction. The model is made of functions over immutable values, so it is not stated as a separate lemma.
- Result order: the source applies no sort, so the order depends on the database. The model uses the store sequence's order. The lemmas that speak of order (the `...Append` and `...Snoc` lemmas, and the position-by-position contract of `Summaries`) are relative to that sequence, not to any order the database promises.
- `MyOrders.OrderTotal`: does not model `System.Decimal` range, overflow (`OverflowException`) or 28-digit rounding, because prices are unbounded exact `real` values.
- `MyOrders.OrdersOfBuyer`: compares buyer ids with exact string equality, as the C# expression reads. When the query runs in the database, the column's collation decides the comparison (possibly case-insensitive, and ignoring trailing spaces). There is also no null user name, because strings here cannot be null.
