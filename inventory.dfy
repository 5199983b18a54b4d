/** The inventory screen: adjusting a stock row by a signed amount, creating
    and editing products (a new product gets a zero stock row in every
    warehouse), deleting a product, and the per-card figures (utility,
    utility percent, low stock) and the search filter. */
module Inventory {
  import opened Base
  import opened Text
  import opened Access
  import opened Entities
  import opened Store

  /** A stock row of the selected warehouse as the screen fetched it, joined with its product. */
  datatype StockLine = StockLine(row: StockRow, product: Product)

  /** `resupplyForm.qty` after `parseInt`, positive for goods in. */
  function MovementKind(delta: int): MovementType {
    if delta > 0 then Resurtido else Ajuste
  }

  function AdjustEventType(delta: int): string {
    if delta > 0 then "Resurtido / Entrada" else "Ajuste / Merma"
  }

  function Abs(x: int): (r: nat)
    ensures r == x || r == -x
  {
    if x < 0 then -x else x
  }

  /** The audit description of an adjustment. */
  function AdjustText(delta: int, productName: string, wh: Warehouse, reason: string): string {
    (if delta > 0 then "Entrada" else "Salida") + " de " + AdjustDetail(delta, productName, wh, reason)
  }

  function AdjustDetail(delta: int, productName: string, wh: Warehouse, reason: string): string {
    IntToString(Abs(delta)) + " unidades de " + productName + " en " + wh.name + ". Motivo: " + reason
  }

  /** The three labels of one adjustment agree: the movement row, the audit
      event and the audit text all say resupply, or all say adjustment. */
  lemma AdjustLabelsAgree(delta: int, productName: string, wh: Warehouse, reason: string)
    ensures AdjustEventType(delta) == "Resurtido / Entrada" <==> MovementKind(delta) == Resurtido
    ensures AdjustEventType(delta) == "Ajuste / Merma" <==> MovementKind(delta) == Ajuste
    ensures IsPrefix("Entrada de ", AdjustText(delta, productName, wh, reason)) <==> MovementKind(delta) == Resurtido
    ensures IsPrefix("Salida de ", AdjustText(delta, productName, wh, reason)) <==> MovementKind(delta) == Ajuste
  {
    var head := (if delta > 0 then "Entrada" else "Salida") + " de ";
    var text := AdjustText(delta, productName, wh, reason);
    HeadIsPrefix(head, AdjustDetail(delta, productName, wh, reason));
    assert text[0] == head[0];
    if delta > 0 {
      assert text[..10][0] == 'E' != "Salida de "[0];
    } else {
      assert text[..11][0] == 'S' != "Entrada de "[0];
    }
  }

  lemma HeadIsPrefix(head: string, rest: string)
    ensures IsPrefix(head, head + rest)
  {
    assert (head + rest)[..|head|] == head;
  }

  /** The quantity a stock row is taken to hold: a null quantity counts as 0. */
  function Held(row: StockRow): int {
    OrElse(row.quantity, 0)
  }

  /** `.update({ quantity }).eq('id', id)` on the stock table. */
  function WithQuantity(stock: seq<StockRow>, id: Id, q: int): seq<StockRow> {
    seq(|stock|, i requires 0 <= i < |stock| =>
      if stock[i].id == id then stock[i].(quantity := Some(q)) else stock[i])
  }

  /** An adjustment sets every row carrying the shown row's id to the shown
      quantity plus the delta, whatever the row holds now, and leaves the
      other rows alone. */
  lemma AdjustedQuantity(stock: seq<StockRow>, shown: StockRow, delta: int)
    ensures |WithQuantity(stock, shown.id, Held(shown) + delta)| == |stock|
    ensures forall i :: 0 <= i < |stock| && stock[i].id == shown.id ==>
              Held(WithQuantity(stock, shown.id, Held(shown) + delta)[i]) == Held(shown) + delta
    ensures forall i :: 0 <= i < |stock| && stock[i].id != shown.id ==>
              WithQuantity(stock, shown.id, Held(shown) + delta)[i] == stock[i]
  {
  }

  /** The stock movement a resupply records: the signed delta, not its size. */
  function AdjustMovement(id: Id, shown: StockRow, wh: Warehouse, delta: int, reason: string): Movement {
    Movement(id, shown.productId, wh.id, delta, MovementKind(delta), reason)
  }

  function AdjustEntry(id: Id, role: Option<string>, shown: StockRow, productName: string, wh: Warehouse,
                       delta: int, reason: string): AuditEntry {
    AuditEntry(id, ActorRole(role), AdjustEventType(delta), AdjustText(delta, productName, wh, reason),
               StockAdjusted(shown.productId, delta, wh.name))
  }

  /** `handleResupply`: writes the shown row's quantity (null read as 0) plus
      the delta back to that row; when that succeeds, records one movement
      and one audit entry, whose failures are ignored. Nothing stops the
      quantity from going below zero. */
  method Resupply(db: Ledger, role: Option<string>, shown: StockRow, productName: string, wh: Warehouse,
                  delta: int, reason: string, updateOk: bool, movementInsertOk: bool, auditInsertOk: bool)
    returns (ok: bool)
    modifies db
    ensures ok == updateOk
    ensures !ok ==> db.t == old(db.t) && db.nextId == old(db.nextId)
    ensures ok ==>
              && db.nextId == old(db.nextId) + 2
              && db.t == old(db.t).(
                   stock := WithQuantity(old(db.t.stock), shown.id, Held(shown) + delta),
                   movements := old(db.t.movements) +
                                (if movementInsertOk then [AdjustMovement(old(db.nextId), shown, wh, delta, reason)] else []),
                   audit := old(db.t.audit) +
                            (if auditInsertOk
                             then [AdjustEntry(old(db.nextId) + 1, role, shown, productName, wh, delta, reason)]
                             else []))
  {
    ok := updateOk;
    if ok {
      db.PutStock(WithQuantity(db.t.stock, shown.id, Held(shown) + delta));
      db.AppendMovement(movementInsertOk, AdjustMovement(db.nextId, shown, wh, delta, reason));
      db.AppendAudit(auditInsertOk, AdjustEntry(db.nextId, role, shown, productName, wh, delta, reason));
    }
  }

  /** `warehouses.map(...)`: one stock row per warehouse the screen knows,
      in that order, each with quantity 0, ids handed out from `firstId`. */
  function InitialStock(ws: seq<Warehouse>, productId: Id, firstId: Id): (r: seq<StockRow>)
    ensures |r| == |ws|
  {
    if ws == [] then []
    else [StockRow(firstId, productId, ws[0].id, Some(0))] + InitialStock(ws[1..], productId, firstId + 1)
  }

  /** A new product gets exactly one row per warehouse, holding 0. */
  lemma {:induction false} InitialStockPerWarehouse(ws: seq<Warehouse>, productId: Id, firstId: Id)
    ensures forall i :: 0 <= i < |ws| ==>
              InitialStock(ws, productId, firstId)[i] == StockRow(firstId + i, productId, ws[i].id, Some(0))
  {
    if ws != [] {
      InitialStockPerWarehouse(ws[1..], productId, firstId + 1);
    }
  }

  function FormProduct(id: Id, f: ProductForm): Product {
    Product(id, f.name, f.category, f.presentation, f.description, f.price, f.purchasePrice)
  }

  /** `.update({ name, category, price, purchase_price, description, presentation }).eq('id', id)`. */
  function WithProductFields(products: seq<Product>, id: Id, f: ProductForm): seq<Product> {
    seq(|products|, i requires 0 <= i < |products| =>
      if products[i].id == id then FormProduct(id, f) else products[i])
  }

  /** An edit replaces every field the form carries on the rows with that id,
      keeps their id, and leaves the other rows alone. */
  lemma EditOnlyTarget(products: seq<Product>, id: Id, f: ProductForm)
    ensures |WithProductFields(products, id, f)| == |products|
    ensures forall i :: 0 <= i < |products| && products[i].id == id ==>
              WithProductFields(products, id, f)[i] == FormProduct(products[i].id, f)
    ensures forall i :: 0 <= i < |products| && products[i].id != id ==>
              WithProductFields(products, id, f)[i] == products[i]
  {
  }

  function EditEntry(id: Id, role: Option<string>, productId: Id, f: ProductForm): AuditEntry {
    AuditEntry(id, ActorRole(role), "Edición Producto", "Se modificó el producto: " + f.name, ProductEdited(productId, f))
  }

  function CreateEntry(id: Id, role: Option<string>, productId: Id, f: ProductForm): AuditEntry {
    AuditEntry(id, ActorRole(role), "Alta Producto", "Se creó el nuevo producto: " + f.name, ProductCreated(productId, f))
  }

  /** `handleSaveProduct` while editing: updates the product's fields and, when
      that succeeds, writes one audit entry. */
  method EditProduct(db: Ledger, role: Option<string>, productId: Id, form: ProductForm,
                     updateOk: bool, auditInsertOk: bool)
    returns (ok: bool)
    modifies db
    ensures ok == updateOk
    ensures !ok ==> db.t == old(db.t) && db.nextId == old(db.nextId)
    ensures ok ==>
              && db.nextId == old(db.nextId) + 1
              && db.t == old(db.t).(
                   products := WithProductFields(old(db.t.products), productId, form),
                   audit := old(db.t.audit) +
                            (if auditInsertOk then [EditEntry(old(db.nextId), role, productId, form)] else []))
  {
    ok := updateOk;
    if ok {
      db.PutProducts(WithProductFields(db.t.products, productId, form));
      db.AppendAudit(auditInsertOk, EditEntry(db.nextId, role, productId, form));
    }
  }

  /** `handleSaveProduct` when creating: inserts the product (a failed insert
      throws before anything else), then a zero stock row for every warehouse
      in the screen's list `ws`, then one audit entry; the last two inserts'
      failures are ignored. */
  method CreateProduct(db: Ledger, role: Option<string>, ws: seq<Warehouse>, form: ProductForm,
                       insertOk: bool, stockInsertOk: bool, auditInsertOk: bool)
    returns (r: Option<Id>)
    modifies db
    ensures r.Some? <==> insertOk
    ensures r.None? ==> db.t == old(db.t) && db.nextId == old(db.nextId)
    ensures r.Some? ==>
              && r.value == old(db.nextId)
              && db.nextId == old(db.nextId) + 2 + |ws|
              && db.t == old(db.t).(
                   products := old(db.t.products) + [FormProduct(r.value, form)],
                   stock := old(db.t.stock) +
                            (if stockInsertOk then InitialStock(ws, r.value, r.value + 1) else []),
                   audit := old(db.t.audit) +
                            (if auditInsertOk then [CreateEntry(r.value + 1 + |ws|, role, r.value, form)] else []))
  {
    if !insertOk {
      r := None;
    } else {
      var productId := db.nextId;
      db.AppendProduct(true, FormProduct(productId, form));
      InitialStockPerWarehouse(ws, productId, productId + 1);
      db.AppendStock(stockInsertOk, InitialStock(ws, productId, productId + 1));
      db.AppendAudit(auditInsertOk, CreateEntry(db.nextId, role, productId, form));
      r := Some(productId);
    }
  }

  function WithoutProduct(products: seq<Product>, id: Id): seq<Product> {
    Filter(products, (p: Product) => p.id != id)
  }

  /** Deleting removes exactly the rows carrying that id. */
  lemma WithoutProductMembers(products: seq<Product>, id: Id, p: Product)
    ensures p in WithoutProduct(products, id) <==> p in products && p.id != id
  {
    FilterMembers(products, (p: Product) => p.id != id, p);
  }

  function DeleteProductEntry(id: Id, role: Option<string>, productId: Id, name: string): AuditEntry {
    AuditEntry(id, ActorRole(role), "Eliminación Producto", "Se eliminó permanentemente el producto: " + name,
               ProductDeleted(productId))
  }

  datatype DeleteOutcome = NotMaster | DeleteFailed | Deleted

  /** `handleDeleteProduct`: refuses any role but master before touching the
      database; otherwise deletes the product (a failure throws) and writes
      one audit entry. */
  method DeleteProduct(db: Ledger, role: Option<string>, productId: Id, name: string,
                       deleteOk: bool, auditInsertOk: bool)
    returns (r: DeleteOutcome)
    modifies db
    ensures r == NotMaster <==> !IsMaster(role)
    ensures r == DeleteFailed <==> IsMaster(role) && !deleteOk
    ensures r != Deleted ==> db.t == old(db.t) && db.nextId == old(db.nextId)
    ensures r == Deleted ==>
              && db.nextId == old(db.nextId) + 1
              && db.t == old(db.t).(
                   products := WithoutProduct(old(db.t.products), productId),
                   audit := old(db.t.audit) +
                            (if auditInsertOk then [DeleteProductEntry(old(db.nextId), role, productId, name)] else []))
  {
    if !IsMaster(role) {
      r := NotMaster;
    } else if !deleteOk {
      r := DeleteFailed;
    } else {
      db.PutProducts(WithoutProduct(db.t.products, productId));
      db.AppendAudit(auditInsertOk, DeleteProductEntry(db.nextId, role, productId, name));
      r := Deleted;
    }
  }

  /** `price - (purchase_price || 0)`. */
  function Utility(p: Product): Money {
    p.price - OrElse(p.purchasePrice, 0)
  }

  /** `purchase_price > 0 ? utility / purchase_price * 100 : 0`, before rounding. */
  function UtilityPercent(p: Product): (r: real)
    ensures (p.purchasePrice.None? || p.purchasePrice.value <= 0) ==> r == 0.0
    ensures p.purchasePrice.Some? && p.purchasePrice.value > 0 ==>
              r * (p.purchasePrice.value as real) == (Utility(p) as real) * 100.0
  {
    if p.purchasePrice.Some? && p.purchasePrice.value > 0 then
      (Utility(p) as real) / (p.purchasePrice.value as real) * 100.0
    else 0.0
  }

  /** The percent is positive exactly when the product sells above a positive cost. */
  lemma UtilityPercentSign(p: Product)
    requires p.purchasePrice.Some? && p.purchasePrice.value > 0
    ensures UtilityPercent(p) > 0.0 <==> p.price > p.purchasePrice.value
  {
    var c := p.purchasePrice.value as real;
    assert UtilityPercent(p) * c == (Utility(p) as real) * 100.0;
    if p.price > p.purchasePrice.value {
      assert UtilityPercent(p) > 0.0;
    } else {
      assert UtilityPercent(p) <= 0.0;
    }
  }

  /** `quantity <= 10`, where a null quantity compares as 0. */
  predicate LowStock(row: StockRow) {
    Held(row) <= 10
  }

  /** The low-stock flag holds exactly when the row holds at most 10, and always for a null quantity. */
  lemma LowStockIff(row: StockRow)
    ensures LowStock(row) <==> (row.quantity.None? || row.quantity.value <= 10)
  {
  }

  function NameHas(term: string): StockLine -> bool {
    (l: StockLine) => Includes(Lower(l.product.name), Lower(term))
  }

  /** `filteredStock`: the lines whose product name contains the search term, ignoring case. */
  function FilteredStock(lines: seq<StockLine>, term: string): seq<StockLine> {
    Filter(lines, NameHas(term))
  }

  /** A line is kept exactly when the lower-cased term occurs in its lower-cased
      product name; the empty term keeps every line. */
  lemma FilteredStockIff(lines: seq<StockLine>, term: string, l: StockLine)
    ensures l in FilteredStock(lines, term) <==>
              l in lines && exists i :: OccursAt(Lower(l.product.name), Lower(term), i)
    ensures term == "" ==> (l in FilteredStock(lines, term) <==> l in lines)
  {
    FilterMembers(lines, NameHas(term), l);
    IncludesIff(Lower(l.product.name), Lower(term));
    IncludesEmpty(Lower(l.product.name));
  }
}
