/** The orders screen: the folio of a new order, confirming an order (the
    order row, its items, one audit entry) and cancelling it. The cart is
    the one in module Cart, shared with the point of sale. */
module Orders {
  import opened Base
  import opened Text
  import opened Access
  import opened Entities
  import opened Cart
  import opened Store

  /** The folio number is drawn from 0 to 9999. */
  const FolioRange: nat := 10000

  /** The number as text, zero-padded in front to four characters. */
  function FolioDigits(n: nat): (r: string)
    requires n < FolioRange
    ensures |r| == 4
  {
    NatToStringLength(n, 4);
    PadStart(NatToString(n), 4, '0')
  }

  /** `ORD-` followed by the number, zero-padded to four digits. */
  function Folio(n: nat): (r: string)
    requires n < FolioRange
    ensures |r| == 8 && r[..4] == "ORD-" && r[4..] == FolioDigits(n)
  {
    "ORD-" + FolioDigits(n)
  }

  /** Reads the number back out of a folio. */
  function FolioNumber(f: string): Option<nat> {
    if |f| == 8 && f[..4] == "ORD-" && IsDigits(f[4..]) then Some(DigitsValue(f[4..])) else None
  }

  /** The padded digits are digits, and denote the number they were built from. */
  lemma FolioDigitsValue(n: nat)
    requires n < FolioRange
    ensures IsDigits(FolioDigits(n)) && DigitsValue(FolioDigits(n)) == n
  {
    NatToStringLength(n, 4);
    var digits := NatToString(n);
    var padded := FolioDigits(n);
    var zeros := padded[..4 - |digits|];
    assert padded == zeros + digits;
    LeadingZeros(zeros, digits);
  }

  /** The folio keeps the number it was built from: zero padding loses nothing. */
  lemma FolioRoundTrip(n: nat)
    requires n < FolioRange
    ensures FolioNumber(Folio(n)) == Some(n)
  {
    FolioDigitsValue(n);
  }

  /** Different draws give different folios (but a repeated draw repeats a folio). */
  lemma FolioInjective(m: nat, n: nat)
    requires m < FolioRange && n < FolioRange
    ensures Folio(m) == Folio(n) ==> m == n
  {
    FolioRoundTrip(m);
    FolioRoundTrip(n);
  }

  /** `cart.map(...)`: one order item per cart item, ids handed out from `firstId`. */
  function OrderItemsOf(cart: seq<CartItem>, orderId: Id, firstId: Id): (r: seq<OrderItem>)
    ensures |r| == |cart|
  {
    if cart == [] then []
    else
      [OrderItem(firstId, orderId, cart[0].product.id, cart[0].qty, cart[0].product.price)]
      + OrderItemsOf(cart[1..], orderId, firstId + 1)
  }

  /** Order items correspond one to one with the cart, in order, with the
      cart quantity and the cart price. */
  lemma {:induction false} OrderItemsMatchCart(cart: seq<CartItem>, orderId: Id, firstId: Id)
    ensures forall i :: 0 <= i < |cart| ==>
              OrderItemsOf(cart, orderId, firstId)[i] ==
              OrderItem(firstId + i, orderId, cart[i].product.id, cart[i].qty, cart[i].product.price)
  {
    if cart != [] {
      OrderItemsMatchCart(cart[1..], orderId, firstId + 1);
    }
  }

  function OrderItemAmount(it: OrderItem): Money {
    it.unitPrice * it.quantity
  }

  /** The items of an order add up to the total the order records. */
  lemma {:induction false} OrderItemsAddUpToTotal(cart: seq<CartItem>, orderId: Id, firstId: Id)
    ensures SumOf(OrderItemsOf(cart, orderId, firstId), OrderItemAmount) == Total(cart)
  {
    if cart != [] {
      OrderItemsAddUpToTotal(cart[1..], orderId, firstId + 1);
    }
  }

  /** The row `handleConfirmOrder` inserts into orders. */
  function NewOrder(id: Id, folio: string, c: Client, wh: Warehouse, cart: seq<CartItem>): Order {
    Order(id, folio, c.id, wh.id, Total(cart), Pendiente)
  }

  function NewOrderEntry(id: Id, role: Option<string>, orderId: Id, folio: string, c: Client, total: Money): AuditEntry {
    AuditEntry(id, ActorRole(role), "Nuevo Pedido",
               "Se levantó el pedido " + folio + " para " + c.name + " por $" + IntToString(total),
               OrderCreated(orderId, folio, c.name))
  }

  function CancelOrderEntry(id: Id, role: Option<string>, order: Order, clientName: Option<string>): AuditEntry {
    AuditEntry(id, ActorRole(role), "Cancelación de Pedido",
               "Se canceló el pedido " + order.folio + " del cliente " + ShownName(clientName),
               OrderCancelled(order.id, order.folio))
  }

  datatype OrderOutcome =
    | NoClientSelected
    | WarehouseNotFound
    | OrderInsertFailed
    | OrderPlaced(orderId: Id, folio: string)

  /** The tables after an order is recorded: `before` with the order row,
      then its items (dropped when that insert fails), then the audit entry
      (dropped likewise). */
  predicate OrderRecorded(before: Tables, after: Tables, role: Option<string>, orderId: Id, folio: string,
                          c: Client, wh: Warehouse, cart: seq<CartItem>, itemsInsertOk: bool, auditInsertOk: bool) {
    after == before.(
      orders := before.orders + [NewOrder(orderId, folio, c, wh, cart)],
      orderItems := before.orderItems +
                    (if itemsInsertOk then OrderItemsOf(cart, orderId, orderId + 1) else []),
      audit := before.audit +
               (if auditInsertOk
                then [NewOrderEntry(orderId + 1 + |cart|, role, orderId, folio, c, Total(cart))]
                else []))
  }

  /** The writes of an order that passed every check. */
  method RecordOrder(db: Ledger, role: Option<string>, c: Client, wh: Warehouse, folio: string,
                     cart: seq<CartItem>, itemsInsertOk: bool, auditInsertOk: bool)
    returns (orderId: Id)
    modifies db
    ensures orderId == old(db.nextId)
    ensures db.nextId == orderId + 2 + |cart|
    ensures OrderRecorded(old(db.t), db.t, role, orderId, folio, c, wh, cart, itemsInsertOk, auditInsertOk)
  {
    orderId := db.nextId;
    db.AppendOrder(true, NewOrder(orderId, folio, c, wh, cart));
    OrderItemsMatchCart(cart, orderId, orderId + 1);
    db.AppendOrderItems(itemsInsertOk, OrderItemsOf(cart, orderId, orderId + 1));
    db.AppendAudit(auditInsertOk, NewOrderEntry(db.nextId, role, orderId, folio, c, Total(cart)));
  }

  /** `handleConfirmOrder`: looks up the selected warehouse, draws the folio,
      inserts the order as 'Pendiente' with the cart total, then its items,
      then one audit entry. Reading the id of a missing client or of a
      warehouse the lookup did not return (the call failed, or no single row
      has the name) throws before anything is written
      (the client is read first); a failed order insert throws too. A failed
      item or audit insert is ignored. `draw` is the random folio number. */
  method ConfirmOrder(db: Ledger, role: Option<string>, client: Option<Client>, warehouseName: string,
                      cart: seq<CartItem>, draw: nat,
                      lookupOk: bool, orderInsertOk: bool, itemsInsertOk: bool, auditInsertOk: bool)
    returns (r: OrderOutcome)
    requires draw < FolioRange
    modifies db
    ensures r.NoClientSelected? <==> client.None?
    ensures r.WarehouseNotFound? <==> client.Some? && WarehouseLookup(old(db.t.warehouses), warehouseName, lookupOk).None?
    ensures r.OrderInsertFailed? <==>
              client.Some? && WarehouseLookup(old(db.t.warehouses), warehouseName, lookupOk).Some? && !orderInsertOk
    ensures !r.OrderPlaced? ==> db.t == old(db.t) && db.nextId == old(db.nextId)
    ensures r.OrderPlaced? ==>
              && client.Some?
              && WarehouseLookup(old(db.t.warehouses), warehouseName, lookupOk).Some?
              && r.orderId == old(db.nextId)
              && r.folio == Folio(draw)
              && db.nextId == old(db.nextId) + 2 + |cart|
              && OrderRecorded(old(db.t), db.t, role, r.orderId, r.folio, client.value,
                               WarehouseLookup(old(db.t.warehouses), warehouseName, lookupOk).value, cart,
                               itemsInsertOk, auditInsertOk)
  {
    var wh := WarehouseLookup(db.t.warehouses, warehouseName, lookupOk);
    var folio := Folio(draw);
    if client.None? {
      r := NoClientSelected;
    } else if wh.None? {
      r := WarehouseNotFound;
    } else if !orderInsertOk {
      r := OrderInsertFailed;
    } else {
      var orderId := RecordOrder(db, role, client.value, wh.value, folio, cart, itemsInsertOk, auditInsertOk);
      r := OrderPlaced(orderId, folio);
    }
  }

  /** `.update({ status }).eq('id', id)` on the orders table. */
  function WithOrderStatus(orders: seq<Order>, id: Id, status: OrderStatus): seq<Order> {
    seq(|orders|, i requires 0 <= i < |orders| =>
      if orders[i].id == id then orders[i].(status := status) else orders[i])
  }

  /** A status update rewrites only the rows carrying that id, and only their
      status; every other row and the table's length are kept. */
  lemma WithOrderStatusOnlyTarget(orders: seq<Order>, id: Id, status: OrderStatus)
    ensures |WithOrderStatus(orders, id, status)| == |orders|
    ensures forall i :: 0 <= i < |orders| ==>
              if orders[i].id == id then WithOrderStatus(orders, id, status)[i] == orders[i].(status := status)
              else WithOrderStatus(orders, id, status)[i] == orders[i]
  {
  }

  /** The cancel button is shown for a 'Pendiente' order, and only to the master profile. */
  predicate CancelOrderOffered(o: Order, role: Option<string>) {
    o.status == Pendiente && IsMaster(role)
  }

  /** `handleCancelOrder`: sets the order's status to 'Cancelado' and, when that
      update succeeds, writes one audit entry. The handler itself checks
      neither the status nor the role. */
  method CancelOrder(db: Ledger, role: Option<string>, order: Order, clientName: Option<string>,
                     updateOk: bool, auditInsertOk: bool)
    returns (ok: bool)
    modifies db
    ensures ok == updateOk
    ensures !ok ==> db.t == old(db.t) && db.nextId == old(db.nextId)
    ensures ok ==>
              && db.nextId == old(db.nextId) + 1
              && db.t == old(db.t).(
                   orders := WithOrderStatus(old(db.t.orders), order.id, Cancelado),
                   audit := old(db.t.audit) +
                            (if auditInsertOk then [CancelOrderEntry(old(db.nextId), role, order, clientName)] else []))
  {
    ok := updateOk;
    if ok {
      db.PutOrders(WithOrderStatus(db.t.orders, order.id, Cancelado));
      db.AppendAudit(auditInsertOk, CancelOrderEntry(db.nextId, role, order, clientName));
    }
  }
}
