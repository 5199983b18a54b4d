/** The rows of the shop's tables: clients, products, warehouses, stock,
    stock movements, orders and their items, sales and their items, client
    payments and audit entries. Money is an exact integer amount; ids are
    numbers handed out by the ledger. */
module Entities {
  import opened Base
  import opened Text

  type Id = nat
  type Money = int

  /** `payment_method` of a sale: 'contado' (cash) or 'credito'. */
  datatype PaymentMethod = Contado | Credito

  /** `status` of a sale: 'Completada' or 'Cancelada'. */
  datatype SaleStatus = Completada | Cancelada

  /** `status` of an order: 'Pendiente', 'Cancelado' or 'Entregado'. */
  datatype OrderStatus = Pendiente | Cancelado | Entregado

  /** `movement_type` of a stock movement: 'resurtido' or 'ajuste'. */
  datatype MovementType = Resurtido | Ajuste

  datatype Client = Client(
    id: Id, name: string, zone: string, businessType: string,
    contactName: string, phone: string, balance: Money, creditsCount: int)

  /** The fields of the registration form; the table fills in id, balance and credits_count. */
  datatype ClientForm = ClientForm(
    name: string, zone: string, businessType: string, phone: string, contactName: string)

  /** `purchase_price` may be null; every reader uses `purchase_price || 0`. */
  datatype Product = Product(
    id: Id, name: string, category: string, presentation: string,
    description: string, price: Money, purchasePrice: Option<Money>)

  /** The fields of the product form. */
  datatype ProductForm = ProductForm(
    name: string, category: string, price: Money, purchasePrice: Option<Money>,
    description: string, presentation: string)

  datatype Warehouse = Warehouse(id: Id, name: string)

  /** A stock row; `quantity` may be null, read as `quantity || 0`. */
  datatype StockRow = StockRow(id: Id, productId: Id, warehouseId: Id, quantity: Option<int>)

  datatype Movement = Movement(
    id: Id, productId: Id, fromWarehouseId: Id, quantity: int,
    movementType: MovementType, description: string)

  datatype Order = Order(
    id: Id, folio: string, clientId: Id, warehouseId: Id,
    totalAmount: Money, status: OrderStatus)

  datatype OrderItem = OrderItem(id: Id, orderId: Id, productId: Id, quantity: int, unitPrice: Money)

  /** `seller` is `user?.id`, absent when the signed-in user has no id. */
  datatype Sale = Sale(
    id: Id, clientId: Id, warehouseId: Id, totalAmount: Money,
    paymentMethod: PaymentMethod, status: SaleStatus, seller: Option<Id>, createdAt: int)

  /** `purchaseUnitPrice` is the cost snapshot taken when the item was recorded. */
  datatype SaleItem = SaleItem(
    id: Id, saleId: Id, productId: Id, quantity: int,
    unitPrice: Money, purchaseUnitPrice: Money)

  datatype Payment = Payment(
    id: Id, clientId: Id, amount: Money, paymentMethod: string, notes: string, createdAt: int)

  /** The structured `metadata` each kind of audit entry carries. A client name
      read through a join is optional (the source then writes `undefined`). */
  datatype Metadata =
    | SaleCancelled(saleId: Id, joinedName: Option<string>, amount: Money)
    | SaleDeleted(saleId: Id)
    | SaleCreated(saleId: Id, clientName: string, amount: Money, paymentMethod: PaymentMethod)
    | OrderCancelled(orderId: Id, folio: string)
    | OrderCreated(orderId: Id, folio: string, clientName: string)
    | OrderDelivered(orderId: Id, saleId: Id, folio: string)
    | ProductEdited(productId: Id, changes: ProductForm)
    | ProductCreated(productId: Id, form: ProductForm)
    | ProductDeleted(productId: Id)
    | StockAdjusted(productId: Id, qty: int, warehouse: string)
    | ClientRegistered(clientId: Id, clientName: string)
    | PaymentReceived(clientId: Id, amount: Money)

  datatype AuditEntry = AuditEntry(
    id: Id, userRole: string, eventType: string, description: string, metadata: Metadata)

  /** `purchase_price || 0`. */
  function CostOf(p: Product): Money {
    OrElse(p.purchasePrice, 0)
  }

  /** How a joined name that may be missing is rendered inside a template string. */
  function ShownName(n: Option<string>): string {
    OrElse(n, "undefined")
  }

  /** What a sale item sold for: `unit_price * quantity`. */
  function ItemAmount(it: SaleItem): Money {
    it.unitPrice * it.quantity
  }

  /** What a sale item cost: `(purchase_unit_price || 0) * quantity`. */
  function ItemCost(it: SaleItem): Money {
    it.purchaseUnitPrice * it.quantity
  }

  /** `id.slice(0, 8)`: the first eight characters of an id's text. */
  function ShortId(id: Id): string {
    Take(NatToString(id), 8)
  }
}
