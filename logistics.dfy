/** The delivery screen: confirming the delivery of an order turns it into a
    credit sale whose items carry a snapshot of each product's cost. */
module Logistics {
  import opened Base
  import opened Access
  import opened Entities
  import opened Store
  import opened Orders

  /** One of the order's items as the screen fetched it, joined with its
      product; the join is empty when the product no longer exists. */
  datatype DeliveryLine = DeliveryLine(item: OrderItem, product: Option<Product>)

  predicate AllJoined(lines: seq<DeliveryLine>) {
    forall i :: 0 <= i < |lines| ==> lines[i].product.Some?
  }

  /** `order.order_items.map(...)`: one sale item per order item, ids handed
      out from `firstId`, the cost taken from the joined product. */
  function DeliveredItems(lines: seq<DeliveryLine>, saleId: Id, firstId: Id): (r: seq<SaleItem>)
    requires AllJoined(lines)
    ensures |r| == |lines|
  {
    if lines == [] then []
    else
      var it := lines[0].item;
      [SaleItem(firstId, saleId, it.productId, it.quantity, it.unitPrice, CostOf(lines[0].product.value))]
      + DeliveredItems(lines[1..], saleId, firstId + 1)
  }

  /** Sale items map one to one from the order items, in order: product,
      quantity and unit price are copied, and the cost is the product's
      purchase price at delivery time or 0. */
  lemma {:induction false} DeliveredItemsMatchOrder(lines: seq<DeliveryLine>, saleId: Id, firstId: Id)
    requires AllJoined(lines)
    ensures forall i :: 0 <= i < |lines| ==>
              DeliveredItems(lines, saleId, firstId)[i] ==
              SaleItem(firstId + i, saleId, lines[i].item.productId, lines[i].item.quantity,
                       lines[i].item.unitPrice, CostOf(lines[i].product.value))
  {
    if lines != [] {
      DeliveredItemsMatchOrder(lines[1..], saleId, firstId + 1);
    }
  }

  /** What the delivered items sold for is what the order items were worth. */
  lemma {:induction false} DeliveredItemsKeepAmounts(lines: seq<DeliveryLine>, saleId: Id, firstId: Id)
    requires AllJoined(lines)
    ensures SumOf(DeliveredItems(lines, saleId, firstId), ItemAmount) ==
            SumOf(seq(|lines|, i requires 0 <= i < |lines| => lines[i].item), OrderItemAmount)
  {
    if lines != [] {
      DeliveredItemsKeepAmounts(lines[1..], saleId, firstId + 1);
      var items := seq(|lines|, i requires 0 <= i < |lines| => lines[i].item);
      assert items[1..] == seq(|lines[1..]|, i requires 0 <= i < |lines[1..]| => lines[1..][i].item);
    }
  }

  /** The sale a delivery inserts: the order's client, warehouse and total,
      paid on credit. No status and no seller are written, so the status is
      the column default. */
  function DeliverySale(id: Id, order: Order, status: SaleStatus, now: int): Sale {
    Sale(id, order.clientId, order.warehouseId, order.totalAmount, Credito, status, None, now)
  }

  function DeliveryEntry(id: Id, role: Option<string>, order: Order, saleId: Id, clientName: Option<string>): AuditEntry {
    AuditEntry(id, ActorRole(role), "Pedido Entregado",
               "Se entregó y procesó como venta el pedido " + order.folio + " del cliente " + ShownName(clientName),
               OrderDelivered(order.id, saleId, order.folio))
  }

  datatype DeliveryOutcome =
    | StatusUpdateFailed
    | SaleInsertFailed
    | ProductMissing(saleId: Id)
    | Delivered(saleId: Id)

  /** Everything after the status update: the sale, then its items, then the
      audit entry. A product missing from the join throws while the items are
      built, after the sale is in. */
  method RecordDelivery(db: Ledger, role: Option<string>, order: Order, clientName: Option<string>,
                        lines: seq<DeliveryLine>, now: int, itemsInsertOk: bool, auditInsertOk: bool)
    returns (r: DeliveryOutcome)
    modifies db
    ensures r.ProductMissing? <==> !AllJoined(lines)
    ensures r.ProductMissing? || r.Delivered?
    ensures r.saleId == old(db.nextId)
    ensures !AllJoined(lines) ==>
              && db.nextId == old(db.nextId) + 1
              && db.t == old(db.t).(sales := old(db.t.sales) + [DeliverySale(r.saleId, order, db.defaultSaleStatus, now)])
    ensures AllJoined(lines) ==>
              && db.nextId == old(db.nextId) + 2 + |lines|
              && db.t == old(db.t).(
                   sales := old(db.t.sales) + [DeliverySale(r.saleId, order, db.defaultSaleStatus, now)],
                   saleItems := old(db.t.saleItems) +
                                (if itemsInsertOk then DeliveredItems(lines, r.saleId, r.saleId + 1) else []),
                   audit := old(db.t.audit) +
                            (if auditInsertOk
                             then [DeliveryEntry(r.saleId + 1 + |lines|, role, order, r.saleId, clientName)]
                             else []))
  {
    var saleId := db.nextId;
    db.AppendSale(true, DeliverySale(saleId, order, db.defaultSaleStatus, now));
    if !AllJoined(lines) {
      r := ProductMissing(saleId);
    } else {
      DeliveredItemsMatchOrder(lines, saleId, saleId + 1);
      db.AppendSaleItems(itemsInsertOk, DeliveredItems(lines, saleId, saleId + 1));
      db.AppendAudit(auditInsertOk, DeliveryEntry(db.nextId, role, order, saleId, clientName));
      r := Delivered(saleId);
    }
  }

  /** `handleConfirmDelivery`: marks the order 'Entregado' (a failed update
      throws before anything else), inserts the credit sale (a failed insert
      throws, leaving the order delivered without a sale), then the sale
      items and one audit entry, whose failures are ignored. The handler does
      not look at the order's current status, and touches neither stock nor
      the client's balance. */
  method ConfirmDelivery(db: Ledger, role: Option<string>, order: Order, clientName: Option<string>,
                         lines: seq<DeliveryLine>, now: int,
                         updateOk: bool, saleInsertOk: bool, itemsInsertOk: bool, auditInsertOk: bool)
    returns (r: DeliveryOutcome)
    modifies db
    ensures r.StatusUpdateFailed? <==> !updateOk
    ensures r.SaleInsertFailed? <==> updateOk && !saleInsertOk
    ensures r.ProductMissing? <==> updateOk && saleInsertOk && !AllJoined(lines)
    ensures r.StatusUpdateFailed? ==> db.t == old(db.t) && db.nextId == old(db.nextId)
    ensures r.SaleInsertFailed? ==>
              db.t == old(db.t).(orders := WithOrderStatus(old(db.t.orders), order.id, Entregado))
              && db.nextId == old(db.nextId)
    ensures r.ProductMissing? ==>
              && r.saleId == old(db.nextId)
              && db.nextId == old(db.nextId) + 1
              && db.t == old(db.t).(
                   orders := WithOrderStatus(old(db.t.orders), order.id, Entregado),
                   sales := old(db.t.sales) + [DeliverySale(r.saleId, order, db.defaultSaleStatus, now)])
    ensures r.Delivered? ==>
              && r.saleId == old(db.nextId)
              && db.nextId == old(db.nextId) + 2 + |lines|
              && db.t == old(db.t).(
                   orders := WithOrderStatus(old(db.t.orders), order.id, Entregado),
                   sales := old(db.t.sales) + [DeliverySale(r.saleId, order, db.defaultSaleStatus, now)],
                   saleItems := old(db.t.saleItems) +
                                (if itemsInsertOk then DeliveredItems(lines, r.saleId, r.saleId + 1) else []),
                   audit := old(db.t.audit) +
                            (if auditInsertOk
                             then [DeliveryEntry(r.saleId + 1 + |lines|, role, order, r.saleId, clientName)]
                             else []))
  {
    if !updateOk {
      r := StatusUpdateFailed;
    } else {
      db.PutOrders(WithOrderStatus(db.t.orders, order.id, Entregado));
      if !saleInsertOk {
        r := SaleInsertFailed;
      } else {
        r := RecordDelivery(db, role, order, clientName, lines, now, itemsInsertOk, auditInsertOk);
      }
    }
  }

  /** The confirm button is shown for every order whose status is not 'Entregado'. */
  predicate DeliverOffered(o: Order) {
    o.status != Entregado
  }

  /** As written, a cancelled order is still offered for delivery; confirming
      it overwrites the cancellation with 'Entregado' and books the order's
      total as a credit sale to its client. */
  lemma CancelledOrderOfferedForDelivery(orders: seq<Order>, k: nat, saleId: Id, status: SaleStatus, now: int)
    requires k < |orders| && orders[k].status == Cancelado
    ensures DeliverOffered(orders[k])
    ensures WithOrderStatus(orders, orders[k].id, Entregado)[k] == orders[k].(status := Entregado)
    ensures DeliverySale(saleId, orders[k], status, now).paymentMethod == Credito
    ensures DeliverySale(saleId, orders[k], status, now).clientId == orders[k].clientId
    ensures DeliverySale(saleId, orders[k], status, now).totalAmount == orders[k].totalAmount
  {
    WithOrderStatusOnlyTarget(orders, orders[k].id, Entregado);
  }

  /** The guard the order life cycle calls for: delivery only from 'Pendiente'. */
  predicate DeliverOfferedFromPending(o: Order) {
    o.status == Pendiente
  }

  /** With that guard, both 'Cancelado' and 'Entregado' are final: neither the
      delivery nor the cancel action is offered for them, whatever the role. */
  lemma FinalStatesOfferNothing(o: Order, role: Option<string>)
    requires o.status != Pendiente
    ensures !DeliverOfferedFromPending(o) && !CancelOrderOffered(o, role)
  {
  }
}
