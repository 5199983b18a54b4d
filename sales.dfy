/** The point-of-sale screen: the credit gate, recording a sale with its
    items and audit entry, and cancelling or deleting a sale. The cart
    itself is in module Cart. */
module Sales {
  import opened Base
  import opened Text
  import opened Access
  import opened Entities
  import opened Cart
  import opened Store

  /** `isCreditDisabled`: the credit button is disabled exactly when a client
      is selected and has used two or more credits. */
  predicate CreditDisabled(client: Option<Client>) {
    client.Some? && client.value.creditsCount >= 2
  }

  /** `paymentMethod.toUpperCase()`. */
  function MethodUpper(m: PaymentMethod): string {
    match m
    case Contado => "CONTADO"
    case Credito => "CREDITO"
  }

  /** `cart.map(...)`: one sale item per cart item, ids handed out from `firstId`. */
  function SaleItemsOf(cart: seq<CartItem>, saleId: Id, firstId: Id): (r: seq<SaleItem>)
    ensures |r| == |cart|
  {
    if cart == [] then []
    else
      [SaleItem(firstId, saleId, cart[0].product.id, cart[0].qty, cart[0].product.price, CostOf(cart[0].product))]
      + SaleItemsOf(cart[1..], saleId, firstId + 1)
  }

  /** Sale items correspond one to one with the cart, in order: quantity is
      the cart quantity, unit price the cart price, and the cost is the
      product's purchase price or 0. */
  lemma {:induction false} SaleItemsMatchCart(cart: seq<CartItem>, saleId: Id, firstId: Id)
    ensures forall i :: 0 <= i < |cart| ==>
              SaleItemsOf(cart, saleId, firstId)[i] ==
              SaleItem(firstId + i, saleId, cart[i].product.id, cart[i].qty,
                       cart[i].product.price, CostOf(cart[i].product))
  {
    if cart != [] {
      SaleItemsMatchCart(cart[1..], saleId, firstId + 1);
    }
  }

  /** What the items of a sale sold for adds up to the cart total the sale records. */
  lemma {:induction false} SaleItemsAddUpToTotal(cart: seq<CartItem>, saleId: Id, firstId: Id)
    ensures SumOf(SaleItemsOf(cart, saleId, firstId), ItemAmount) == Total(cart)
  {
    if cart != [] {
      SaleItemsAddUpToTotal(cart[1..], saleId, firstId + 1);
    }
  }

  function NewSaleText(clientName: string, total: Money, m: PaymentMethod): string {
    "Venta registrada para " + clientName + " por $" + IntToString(total) + " (" + MethodUpper(m) + ")"
  }

  function CancelSaleText(saleId: Id, clientName: Option<string>, amount: Money): string {
    "Se canceló la venta #" + ShortId(saleId) + " del cliente " + ShownName(clientName)
    + " por un monto de $" + IntToString(amount)
  }

  function DeleteSaleText(saleId: Id): string {
    "Se eliminó permanentemente el registro de la venta #" + ShortId(saleId)
  }

  /** The audit entries the three handlers write. */
  function NewSaleEntry(id: Id, role: Option<string>, saleId: Id, c: Client, total: Money, m: PaymentMethod): AuditEntry {
    AuditEntry(id, ActorRole(role), "Nueva Venta", NewSaleText(c.name, total, m), SaleCreated(saleId, c.name, total, m))
  }

  function CancelSaleEntry(id: Id, role: Option<string>, sale: Sale, clientName: Option<string>): AuditEntry {
    AuditEntry(id, ActorRole(role), "Cancelación de Venta",
               CancelSaleText(sale.id, clientName, sale.totalAmount),
               SaleCancelled(sale.id, clientName, sale.totalAmount))
  }

  function DeleteSaleEntry(id: Id, role: Option<string>, saleId: Id): AuditEntry {
    AuditEntry(id, ActorRole(role), "Eliminación de Venta", DeleteSaleText(saleId), SaleDeleted(saleId))
  }

  /** `.update({ status }).eq('id', id)` on the sales table. */
  function WithSaleStatus(sales: seq<Sale>, id: Id, status: SaleStatus): seq<Sale> {
    seq(|sales|, i requires 0 <= i < |sales| =>
      if sales[i].id == id then sales[i].(status := status) else sales[i])
  }

  datatype SaleOutcome =
    | NoClientSelected
    | WarehouseNotFound
    | SaleInsertFailed
    | SaleRecorded(saleId: Id)

  /** The row `handleProcessSale` inserts into sales. */
  function NewSale(id: Id, c: Client, wh: Warehouse, cart: seq<CartItem>, m: PaymentMethod,
                   seller: Option<Id>, now: int): Sale {
    Sale(id, c.id, wh.id, Total(cart), m, Completada, seller, now)
  }

  /** The writes of a sale that passed every check: the sale row, then its
      items (dropped when that insert fails), then the audit entry (dropped
      likewise). */
  method RecordSale(db: Ledger, role: Option<string>, seller: Option<Id>, c: Client, wh: Warehouse,
                    paymentMethod: PaymentMethod, cart: seq<CartItem>, now: int,
                    itemsInsertOk: bool, auditInsertOk: bool)
    returns (saleId: Id)
    modifies db
    ensures saleId == old(db.nextId)
    ensures db.nextId == saleId + 2 + |cart|
    ensures db.t == old(db.t).(
              sales := old(db.t.sales) + [NewSale(saleId, c, wh, cart, paymentMethod, seller, now)],
              saleItems := old(db.t.saleItems) +
                           (if itemsInsertOk then SaleItemsOf(cart, saleId, saleId + 1) else []),
              audit := old(db.t.audit) +
                       (if auditInsertOk
                        then [NewSaleEntry(saleId + 1 + |cart|, role, saleId, c, Total(cart), paymentMethod)]
                        else []))
  {
    saleId := db.nextId;
    db.AppendSale(true, NewSale(saleId, c, wh, cart, paymentMethod, seller, now));
    SaleItemsMatchCart(cart, saleId, saleId + 1);
    db.AppendSaleItems(itemsInsertOk, SaleItemsOf(cart, saleId, saleId + 1));
    db.AppendAudit(auditInsertOk, NewSaleEntry(db.nextId, role, saleId, c, Total(cart), paymentMethod));
  }

  /** `handleProcessSale`: looks up the selected warehouse, inserts the sale
      as 'Completada' with the cart total, then its items, then one audit
      entry. Only a missing client, a warehouse lookup that fails or finds no
      single row, or a failed sale insert stop it, and then nothing is written; a failed item or audit
      insert is ignored and the handler goes on. The client's credit gate is
      not consulted here. */
  method ProcessSale(db: Ledger, role: Option<string>, seller: Option<Id>, client: Option<Client>,
                     warehouseName: string, paymentMethod: PaymentMethod, cart: seq<CartItem>, now: int,
                     lookupOk: bool, saleInsertOk: bool, itemsInsertOk: bool, auditInsertOk: bool)
    returns (r: SaleOutcome)
    modifies db
    ensures r.NoClientSelected? <==> client.None?
    ensures r.WarehouseNotFound? <==> client.Some? && WarehouseLookup(old(db.t.warehouses), warehouseName, lookupOk).None?
    ensures r.SaleInsertFailed? <==>
              client.Some? && WarehouseLookup(old(db.t.warehouses), warehouseName, lookupOk).Some? && !saleInsertOk
    ensures !r.SaleRecorded? ==> db.t == old(db.t) && db.nextId == old(db.nextId)
    ensures r.SaleRecorded? ==>
              && client.Some?
              && WarehouseLookup(old(db.t.warehouses), warehouseName, lookupOk).Some?
              && r.saleId == old(db.nextId)
              && db.nextId == old(db.nextId) + 2 + |cart|
              && db.t == old(db.t).(
                   sales := old(db.t.sales) +
                            [NewSale(r.saleId, client.value, WarehouseLookup(old(db.t.warehouses), warehouseName, lookupOk).value,
                                     cart, paymentMethod, seller, now)],
                   saleItems := old(db.t.saleItems) +
                                (if itemsInsertOk then SaleItemsOf(cart, r.saleId, r.saleId + 1) else []),
                   audit := old(db.t.audit) +
                            (if auditInsertOk
                             then [NewSaleEntry(r.saleId + 1 + |cart|, role, r.saleId, client.value, Total(cart), paymentMethod)]
                             else []))
  {
    var wh := WarehouseLookup(db.t.warehouses, warehouseName, lookupOk);
    if client.None? {
      r := NoClientSelected;
    } else if wh.None? {
      r := WarehouseNotFound;
    } else if !saleInsertOk {
      r := SaleInsertFailed;
    } else {
      var saleId := RecordSale(db, role, seller, client.value, wh.value, paymentMethod, cart, now,
                               itemsInsertOk, auditInsertOk);
      r := SaleRecorded(saleId);
    }
  }

  /** The cancel button is shown for every sale whose status is not 'Cancelada'. */
  predicate CancelOffered(s: Sale) {
    s.status != Cancelada
  }

  /** `handleCancelSale`: sets the sale's status to 'Cancelada' and, when that
      update succeeds, writes one audit entry. Nothing else about the sale,
      the client's balance or the stock is touched. */
  method CancelSale(db: Ledger, role: Option<string>, sale: Sale, clientName: Option<string>,
                    updateOk: bool, auditInsertOk: bool)
    returns (ok: bool)
    modifies db
    ensures ok == updateOk
    ensures !ok ==> db.t == old(db.t) && db.nextId == old(db.nextId)
    ensures ok ==>
              && db.nextId == old(db.nextId) + 1
              && db.t == old(db.t).(
                   sales := WithSaleStatus(old(db.t.sales), sale.id, Cancelada),
                   audit := old(db.t.audit) +
                            (if auditInsertOk then [CancelSaleEntry(old(db.nextId), role, sale, clientName)] else []))
  {
    ok := updateOk;
    if ok {
      db.PutSales(WithSaleStatus(db.t.sales, sale.id, Cancelada));
      db.AppendAudit(auditInsertOk, CancelSaleEntry(db.nextId, role, sale, clientName));
    }
  }

  /** Cancelling rewrites only the rows carrying that id, and only their
      status; every other row and the table's length are kept. */
  lemma WithSaleStatusOnlyTarget(sales: seq<Sale>, id: Id, status: SaleStatus)
    ensures |WithSaleStatus(sales, id, status)| == |sales|
    ensures forall i :: 0 <= i < |sales| ==>
              if sales[i].id == id then WithSaleStatus(sales, id, status)[i] == sales[i].(status := status)
              else WithSaleStatus(sales, id, status)[i] == sales[i]
  {
  }

  /** Once a cancellation is written the sale no longer offers the cancel
      button, and every other sale offers it as before. */
  lemma CancelOfferedOnce(sales: seq<Sale>, id: Id)
    ensures forall i :: 0 <= i < |sales| && sales[i].id == id ==>
              !CancelOffered(WithSaleStatus(sales, id, Cancelada)[i])
    ensures forall i :: 0 <= i < |sales| && sales[i].id != id ==>
              (CancelOffered(WithSaleStatus(sales, id, Cancelada)[i]) <==> CancelOffered(sales[i]))
  {
    WithSaleStatusOnlyTarget(sales, id, Cancelada);
  }

  /** The delete button is shown only to the master profile. */
  predicate DeleteOffered(role: Option<string>) {
    IsMaster(role)
  }

  /** Whoever is offered deletion also passes the audit screen's gate; the
      master profile is offered it in any letter case, the administrator and
      seller profiles and a missing role are not. */
  lemma DeleteOfferedOnlyToMaster(role: Option<string>)
    ensures DeleteOffered(role) ==> IsAuthorized(role)
    ensures DeleteOffered(Some("MASTER")) && DeleteOffered(Some("master"))
    ensures !DeleteOffered(Some("ADMINISTRADOR")) && !DeleteOffered(Some("VENDEDOR")) && !DeleteOffered(None)
  {
    RolesOfProfiles();
    assert Lower("master") == "master";
  }

  function WithoutSale(sales: seq<Sale>, id: Id): seq<Sale> {
    Filter(sales, (s: Sale) => s.id != id)
  }

  /** Deleting removes exactly the rows carrying that id. */
  lemma WithoutSaleMembers(sales: seq<Sale>, id: Id, s: Sale)
    ensures s in WithoutSale(sales, id) <==> s in sales && s.id != id
  {
    FilterMembers(sales, (s: Sale) => s.id != id, s);
  }

  /** `handleDeleteSale`: removes the sale row and, when that succeeds, writes
      one audit entry. The handler itself makes no role check and leaves the
      sale's items in place. */
  method DeleteSale(db: Ledger, role: Option<string>, saleId: Id, deleteOk: bool, auditInsertOk: bool)
    returns (ok: bool)
    modifies db
    ensures ok == deleteOk
    ensures !ok ==> db.t == old(db.t) && db.nextId == old(db.nextId)
    ensures ok ==>
              && db.nextId == old(db.nextId) + 1
              && db.t == old(db.t).(
                   sales := WithoutSale(old(db.t.sales), saleId),
                   audit := old(db.t.audit) +
                            (if auditInsertOk then [DeleteSaleEntry(old(db.nextId), role, saleId)] else []))
  {
    ok := deleteOk;
    if ok {
      db.PutSales(WithoutSale(db.t.sales, saleId));
      db.AppendAudit(auditInsertOk, DeleteSaleEntry(db.nextId, role, saleId));
    }
  }
}
