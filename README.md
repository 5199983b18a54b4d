# SecureSales point of sale and ledger, in Dafny

This project models the screen handlers of a small wholesale distribution
app. The app is built with React on a Supabase database. The model covers:

- the point of sale (`Sales.jsx`): the cart, the credit gate, recording a
  sale with its items and an audit entry, and cancelling and deleting a sale;
- the orders screen (`Orders.jsx`): the `ORD-` folio, confirming an order and
  cancelling it;
- the delivery screen (`Logistics.jsx`): turning a delivered order into a
  credit sale that snapshots each product's cost;
- the inventory screen (`Inventory.jsx`): stock adjustments, and creating,
  editing and deleting products, plus each product card's utility, utility
  percent and low-stock flag;
- the clients screen (`Clients.jsx`): registration, cash payments, the
  account history, the credit figures and the search filter;
- the dashboard (`Dashboard.jsx`): totals, receivables, sales by zone, the
  top clients and products, the goal and the margin;
- the audit screen (`Audit.jsx`): access, the search and type filter, the
  event-type list, event colours and deleting an entry.

The database is `Store.Ledger`, a class whose field `t` holds every table as a
sequence of rows. Its counter `nextId` hands out the id of every inserted row.

Each handler is a method that `modifies` the ledger. The outcome of every
database write, and of the warehouse lookup before a sale or an order, is a
boolean parameter. A failed lookup yields no warehouse, as a lookup that
finds no single row does. A call whose error the source checks
(`if (error) throw`) stops the handler and leaves the ledger unchanged. A
call whose error the source ignores (item inserts, stock initialisation,
audit entries) still uses up its ids, drops its rows, and lets the handler go
on. Each method's postcondition states the whole new state of the ledger.
The rows it writes are named functions, and lemmas prove what those rows
mean: items correspond to the cart, items add up to the recorded total, an
update touches only the rows with that id, a delete removes exactly those
rows, and so on.

The screens' pure computations are functions with lemmas. The dashboard's
`forEach` into a dictionary is a method with a loop (`Dashboard.GroupSum`),
proved equal to a recursive grouping function. That function is proved to
give one group per distinct key. Each group's total is proved to be the sum
of the rows carrying its key.

The model follows the code on these points:

- No handler updates a client's `balance` or `credits_count`.
- No handler checks or moves stock on a sale, a cancellation or a delivery.
- The credit limit is only a disabled button: `Sales.ProcessSale` does not
  consult it.
- The dashboard's totals include cancelled sales.
- A cancelled order is still offered for delivery (see Findings).

## Model

| member | source | states |
|---|---|---|
| Access.ActorRole | src/modules/Sales.jsx:67 | the audit author is the user's role when it is present and not empty, otherwise `Sistema`; it is never empty |
| Access.RolesOfProfiles | src/modules/Audit.jsx:17-18 | every master is authorized; MASTER in any letter case is master; ADMINISTRADOR is authorized but not master; VENDEDOR, PROMOTOR and no user are neither |
| Cart.AddExisting | src/modules/Sales.jsx:103-110 | adding a product already in the cart raises exactly that item's quantity by one and changes nothing else |
| Cart.AddNew | src/modules/Sales.jsx:103-110 | adding a product not yet in the cart appends it once with quantity 1 |
| Cart.AddWellFormed | src/modules/Sales.jsx:103-110 | adding keeps the cart free of duplicate products with every quantity at least 1, and the product is then in the cart |
| Cart.TotalAfterAdd | src/modules/Sales.jsx:103-122 | adding raises the cart total by one unit price: the cart item's price if the product was already in the cart, otherwise the product's |
| Cart.UpdateOnlyMatching | src/modules/Sales.jsx:112-120 | a quantity change touches only the item with that id and keeps length and order; that item's quantity becomes qty + delta when that is at least 1, and 1 otherwise |
| Cart.UpdateWellFormed | src/modules/Sales.jsx:112-120 | a quantity change keeps the cart well formed |
| Cart.TotalAfterUpdate | src/modules/Sales.jsx:112-122 | after a quantity change the total moves by the item's price times the change in its quantity |
| Cart.TotalBounds | src/modules/Sales.jsx:122 | the empty cart totals 0, and a cart of non-negative prices never totals below 0 |
| Store.WarehouseNamedSound | src/modules/Sales.jsx:129 | a warehouse the `.single()` lookup returns is a row of the table and carries the name asked for |
| Store.WarehouseNamedFinds | src/modules/Sales.jsx:129 | when warehouse names are distinct, the lookup by name finds each warehouse |
| Sales.SaleItemsMatchCart | src/modules/Sales.jsx:142-148 | the sale items correspond one to one with the cart, in order, with the cart's quantity, the cart's price and the product's cost or 0 |
| Sales.SaleItemsAddUpToTotal | src/modules/Sales.jsx:122-149 | what the items of a sale sold for adds up to the total recorded on the sale |
| Sales.RecordSale | src/modules/Sales.jsx:131-160 | the sale row as Completada with the cart total, then its items, then one audit entry; the items and the audit entry are each kept only if their insert succeeds |
| Sales.ProcessSale | src/modules/Sales.jsx:125-168 | a missing client, a warehouse lookup that fails or finds no single row, or a failed sale insert each writes nothing, and is reported as such; otherwise the sale is recorded as in RecordSale; the credit gate is not checked |
| Sales.CancelOfferedOnce | src/modules/Sales.jsx:330 | once a sale is cancelled its cancel button is no longer shown, and every other sale shows it as before |
| Sales.DeleteOfferedOnlyToMaster | src/modules/Sales.jsx:339 | the delete button is shown to MASTER in any letter case, and not to ADMINISTRADOR, VENDEDOR or no user; whoever sees it also passes the audit screen's gate |
| Sales.CancelSale | src/modules/Sales.jsx:54-77 | on success only the sale's status becomes Cancelada and one audit entry is added, if its insert succeeds; on failure nothing changes |
| Sales.WithSaleStatusOnlyTarget | src/modules/Sales.jsx:57-60 | a status update keeps the table's length and changes only the status of the rows with that id |
| Sales.WithoutSaleMembers | src/modules/Sales.jsx:82-85 | a sale remains after the delete exactly when it was there and has another id |
| Sales.DeleteSale | src/modules/Sales.jsx:79-101 | on success the rows with that id go and one audit entry is added; on failure nothing changes; the handler makes no role check |
| Orders.Folio | src/modules/Orders.jsx:83 | a folio is eight characters: `ORD-` and then four zero-padded digits |
| Orders.FolioDigitsValue | src/modules/Orders.jsx:83 | the padded part is all digits and denotes the number drawn |
| Orders.FolioRoundTrip | src/modules/Orders.jsx:83 | reading the number back out of a folio gives the number drawn |
| Orders.FolioInjective | src/modules/Orders.jsx:83 | different draws give different folios |
| Orders.OrderItemsMatchCart | src/modules/Orders.jsx:97-102 | the order items correspond one to one with the cart, in order, with the cart's quantity and price |
| Orders.OrderItemsAddUpToTotal | src/modules/Orders.jsx:85-103 | the order items add up to the total recorded on the order |
| Orders.RecordOrder | src/modules/Orders.jsx:87-111 | the order row as Pendiente with the folio and the cart total, then its items, then one audit entry, the last two each kept only if their insert succeeds |
| Orders.ConfirmOrder | src/modules/Orders.jsx:80-122 | a missing client (checked first), a warehouse lookup that fails or finds no single row, or a failed order insert each writes nothing; otherwise the order is recorded with folio `ORD-` and the draw |
| Orders.WithOrderStatusOnlyTarget | src/modules/Orders.jsx:48-51 | a status update keeps the table's length and changes only the status of the rows with that id |
| Orders.CancelOrder | src/modules/Orders.jsx:44-69 | on success the order's status becomes Cancelado and one audit entry is added; on failure nothing changes; the handler checks neither status nor role |
| Logistics.DeliveredItemsMatchOrder | src/modules/Logistics.jsx:49-55 | the delivered sale's items copy each order item's product, quantity and unit price, in order, with the product's cost at delivery time or 0 |
| Logistics.DeliveredItemsKeepAmounts | src/modules/Logistics.jsx:49-55 | the delivered items sold for what the order items were worth |
| Logistics.RecordDelivery | src/modules/Logistics.jsx:39-66 | the credit sale is inserted first; a product missing from the join stops the handler after that insert; otherwise the items and the audit entry follow, each kept only if its insert succeeds |
| Logistics.ConfirmDelivery | src/modules/Logistics.jsx:28-74 | a failed status update writes nothing; a failed sale insert leaves the order Entregado with no sale; otherwise RecordDelivery follows; neither the order's previous status nor stock nor the balance is looked at |
| Logistics.CancelledOrderOfferedForDelivery | src/modules/Logistics.jsx:147 | as written, a Cancelado order is offered for delivery; confirming it overwrites its status with Entregado and books its total as a credit sale to its client |
| Logistics.FinalStatesOfferNothing | src/modules/Orders.jsx:229-238 | with delivery offered only from Pendiente, a Cancelado or Entregado order is offered neither delivery nor cancellation, whatever the role |
| Inventory.AdjustLabelsAgree | src/modules/Inventory.jsx:186-194 | the movement type, the audit event type and the audit text agree: the movement is a resupply exactly when the event is `Resurtido / Entrada` and the text starts `Entrada de `; it is an adjustment exactly when the event is `Ajuste / Merma` and the text starts `Salida de ` |
| Inventory.Abs | src/modules/Inventory.jsx:194 | the amount in the description is the size of the delta |
| Inventory.AdjustedQuantity | src/modules/Inventory.jsx:170-177 | the adjustment sets the rows with the shown row's id to the shown quantity (null as 0) plus the delta, and leaves other rows alone |
| Inventory.Resupply | src/modules/Inventory.jsx:167-205 | on success the stock row is rewritten, then one signed movement and one audit entry are added, each only if its insert succeeds; on failure nothing changes |
| Inventory.InitialStockPerWarehouse | src/modules/Inventory.jsx:112-117 | a new product gets one stock row holding 0 for each warehouse, in order |
| Inventory.EditOnlyTarget | src/modules/Inventory.jsx:79-88 | an edit replaces the form's fields on the rows with that id and leaves the other rows alone |
| Inventory.EditProduct | src/modules/Inventory.jsx:78-99 | on success the product's fields are replaced and one audit entry is added; on failure nothing changes |
| Inventory.CreateProduct | src/modules/Inventory.jsx:100-125 | a failed insert writes nothing; otherwise the product, then its zero stock rows, then one audit entry, the last two each kept only if their insert succeeds |
| Inventory.WithoutProductMembers | src/modules/Inventory.jsx:143 | a product remains after the delete exactly when it was there and has another id |
| Inventory.DeleteProduct | src/modules/Inventory.jsx:138-159 | a role other than master is refused with nothing written; a failed delete writes nothing; otherwise the product goes and one audit entry is added |
| Inventory.UtilityPercent | src/modules/Inventory.jsx:267 | the percent is 0 without a positive purchase price, and otherwise times the purchase price equals 100 times the utility |
| Inventory.UtilityPercentSign | src/modules/Inventory.jsx:267 | the percent is positive exactly when the price exceeds a positive purchase price |
| Inventory.LowStockIff | src/modules/Inventory.jsx:298 | a card is flagged low exactly when its quantity is null or at most 10 |
| Inventory.FilteredStockIff | src/modules/Inventory.jsx:207-209 | a line is kept exactly when the lower-cased term occurs in its lower-cased product name; the empty term keeps every line |
| Clients.CreditGateAgrees | src/modules/Sales.jsx:123 | the point of sale disables credit for exactly the clients the clients screen shows as blocked (Clients.jsx:246-263), which are those with no credit purchase remaining; with no client selected credit is not disabled |
| Clients.RecordPayment | src/modules/Clients.jsx:64-102 | an empty or non-positive amount writes nothing; a failed insert writes nothing; otherwise one cash payment row and one audit entry (if its insert succeeds); the balance is untouched |
| Clients.Register | src/modules/Clients.jsx:42-62 | a failed insert writes nothing and leaves the shown list as it was; otherwise the client row with the column defaults and one audit entry (if its insert succeeds), returning the new row and putting it first on the shown list |
| Clients.PrependShape | src/modules/Clients.jsx:54 | after a registration the list shows the new client first and then every client shown before, in order; a client is on it exactly when it is the new one or was shown before; ids stay distinct when the new id was not on the list |
| Clients.ReplaceByIdOnlyMatching | src/modules/Clients.jsx:95 | the refreshed client replaces exactly the entries with its id; the list keeps its length and order |
| Clients.ChargesAreSales | src/modules/Clients.jsx:123-125 | each charge line carries its credit sale's date and total |
| Clients.HistoryShape | src/modules/Clients.jsx:104-134 | the history is newest first and is a permutation of the client's credit-sale charges and payment credits |
| Clients.FilteredClientsIff | src/modules/Clients.jsx:136-139 | a client is kept exactly when the lower-cased term occurs in its lower-cased name or zone |
| Dashboard.TotalSalesCountsEverySale | src/modules/Dashboard.jsx:43-48 | total sales is the sum over every sales row, whatever its status |
| Dashboard.CancellingKeepsTotalSales | src/modules/Dashboard.jsx:43-48 | cancelling a sale leaves total sales unchanged |
| Dashboard.ReceivablesShape | src/modules/Dashboard.jsx:59-60 | debtors are exactly the clients with a positive balance, and receivables are never negative |
| Dashboard.PaymentOfferedIffDebtor | src/modules/Clients.jsx:273 | the clients screen enables the payment button for exactly the clients the dashboard lists as debtors |
| Dashboard.GroupsAddUp | src/modules/Dashboard.jsx:62-68 | the sums by key add up to the sum over all rows |
| Dashboard.GroupsAreKeys | src/modules/Dashboard.jsx:62-68 | there is exactly one group for each distinct key among the rows |
| Dashboard.GroupSums | src/modules/Dashboard.jsx:62-68 | the group at each position totals the values of exactly the rows carrying its key |
| Dashboard.GroupIsKeySum | src/modules/Dashboard.jsx:62-68 | every group's total is the sum of the values of the rows whose key is the group's name |
| Dashboard.GroupSum | src/modules/Dashboard.jsx:62-68 | the loop into a dictionary, read back in key order, produces the groups of GroupsOf |
| Dashboard.ZonesAddUpToTotalSales | src/modules/Dashboard.jsx:62-68 | sales by zone has one entry per zone present in the sales, each entry totals exactly that zone's sales, and the entries add up to total sales |
| Dashboard.TopShape | src/modules/Dashboard.jsx:79-87 | a top list is the first min(5, number of groups) entries of the groups sorted largest first; it is sorted, drawn from the groups, and no group left out is larger than one kept |
| Dashboard.TopEmptyIffNoRows | src/modules/Dashboard.jsx:90-98 | a grouping's top list is empty exactly when there are no rows |
| Dashboard.TopProductsFallback | src/modules/Dashboard.jsx:90-114 | the two placeholder products are shown when no sale item is recorded; otherwise the top products by amount sold are shown, and that list is not empty |
| Dashboard.GoalPercentage | src/modules/Dashboard.jsx:134 | the goal percentage is sales over 12,500,000 in percent, capped at 100 |
| Dashboard.UtilityMargin | src/modules/Dashboard.jsx:135 | the margin is 0 without sales, and otherwise times total sales equals 100 times the utility |
| Dashboard.MarginAtMostHundred | src/modules/Dashboard.jsx:135 | with sales and a non-negative cost the margin never exceeds 100 percent |
| Dashboard.FetchStats | src/modules/Dashboard.jsx:39-121 | each figure of the dashboard is the named function of the current tables; utility is sales less cost |
| AuditLog.FilteredLogsIff | src/modules/Audit.jsx:71-76 | an entry is kept exactly when the lower-cased term occurs in its lower-cased description or type and the filter is Todos or equals its type |
| AuditLog.DedupShape | src/modules/Audit.jsx:78 | deduplicating keeps each value exactly once, in order of first appearance |
| AuditLog.EventTypesShape | src/modules/Audit.jsx:78 | the type filter offers Todos and then the log's event types deduplicated in order of first appearance, so each type present appears exactly once |
| AuditLog.EventColorIsFirstMatch | src/modules/Audit.jsx:61-69 | the colour if-chain equals a first-match lookup in the rule table, with grey when no rule matches |
| AuditLog.SalesRuleWins | src/modules/Audit.jsx:61-63 | any type naming `venta` is shown green, whatever else it names |
| AuditLog.SaleCancellationShownAsSale | src/modules/Audit.jsx:61-63 | as written, the sale-cancellation entry names `cancel` but is shown green |
| AuditLog.CorrectedColors | src/modules/Audit.jsx:61-69 | with the removal rule first, every removal is red and every other type keeps its colour |
| AuditLog.SaleCancellationShownRed | src/modules/Audit.jsx:61-69 | with the removal rule first, the sale-cancellation entry is red |
| AuditLog.WithoutLogShape | src/modules/Audit.jsx:54 | dropping an entry keeps exactly the entries with another id, and dropping from two lists joined is dropping from each, so the order is kept |
| AuditLog.DeleteLog | src/modules/Audit.jsx:44-59 | a role other than master is refused with nothing written; a failed delete writes nothing; otherwise the entry goes from the table and from the list shown |

## Left out

- Ids: the database hands out uuids. The model hands out increasing numbers
  from `nextId` and does not carry an invariant that no earlier row holds the
  next id. `ShortId` takes the first eight characters of the number's decimal
  text.
- `created_at` comes from the database clock. It is the `now` parameter of
  the handlers that insert dated rows.
- Numbers: `parseFloat`, `NaN` and floating-point rounding are left out.
  Money is an exact integer. The utility percent and the margin are exact
  reals, and `toFixed` rounding is not modelled.
- `toLowerCase` lower-cases only A to Z. Searches with accented capitals
  are not modelled.
- The random folio draw (`Math.random`) is the parameter `draw`.
- `window.confirm`, `alert` and loading flags are left out. A declined
  confirmation returns before anything is written, and the model starts
  after the user confirms.
- Screen reads (`fetchInitialData`, `fetchOrders`, `fetchStock`, `fetchLogs`)
  are left out. Their results are parameters (the selected client, the
  shown stock row, the order with its joined items) or joins over the tables.
- Dashboard.FetchStats: the reads of sales, sale items, clients and orders
  always succeed. In the source a failed read shows 0 for the figures built
  from it; the model does not capture that.
- Joins that may be missing (`sale.clients?.name`) are `Option` values.
  A missing name renders as `undefined` in audit text.
- Inventory.Resupply: writes from the stock row as the screen last fetched
  it, which may be stale. The model does not capture a concurrent change
  made in between.
- Concurrency between screens and users is left out. Handlers run one at a
  time.
- Cascading deletes and foreign keys are database behaviour the screens do
  not show. Deleting a sale or a product removes only that table's rows.
- The daily-sales chart (locale date strings) is left out.
- PDF and ticket generation, the login screen and session handling are
  left out.
- Dashboard.GroupSum: JavaScript puts integer-like keys first in
  `Object.keys`. The model keeps plain insertion order.
- Clients.HistoryShape: the history sort is stable over inputs the database
  already ordered newest first. The model sorts the rows in table order, so
  entries with equal `created_at` may appear in a different order.
- AuditLog.EventTypesShape: a log entry whose type is literally `Todos`
  would make that option appear twice. The lemma describes the list after
  the leading `Todos`.
- A null `description` or `event_type` in the audit filter (`?.`) is not
  modelled; every entry has both.
- Extra product form fields sent on creation (such as a colour) are not
  modelled; the product row holds the columns the screens read.
- Inventory.CreateProduct: the stock rows use the warehouse list the screen
  loaded, passed in as `ws`, not the warehouses table.

## Findings

| source | as written | input that shows it | evidently intended | confidence | as-written member | corrected member |
|---|---|---|---|---|---|---|
| src/modules/Logistics.jsx:147 | the confirm-delivery button is shown for every order whose status is not `Entregado` | an order cancelled on the orders screen (status `Cancelado`): confirming it marks it `Entregado` and books its total as a credit sale | delivery only from `Pendiente`, so that a cancelled order is not turned into a credit sale | medium, not executed | Logistics.CancelledOrderOfferedForDelivery | Logistics.FinalStatesOfferNothing |
| src/modules/Audit.jsx:61-69 | the sales rule (`venta`) is tried before the removal rule (`cancel`, `elimin`) | the entry `Cancelación de Venta` written by Sales.jsx:68 | removals shown red, as `Cancelación de Pedido` is | low, not executed | AuditLog.SaleCancellationShownAsSale | AuditLog.SaleCancellationShownRed |
