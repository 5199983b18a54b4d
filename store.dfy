/** The shop's tables as one in-memory ledger. Every screen handler in the
    other modules reads and writes these tables in the order the source does;
    the database's behaviour that the source relies on is modelled here:
    an id for each inserted row taken from a counter that only grows,
    `.eq('id', …)` updates and deletes that touch
    every row with that id (and succeed when there is none), and `.single()`
    lookups that return a row only when exactly one matches. */
module Store {
  import opened Base
  import opened Entities

  /** Every table of the database. */
  datatype Tables = Tables(
    clients: seq<Client>, products: seq<Product>, warehouses: seq<Warehouse>,
    stock: seq<StockRow>, movements: seq<Movement>, orders: seq<Order>,
    orderItems: seq<OrderItem>, sales: seq<Sale>, saleItems: seq<SaleItem>,
    payments: seq<Payment>, audit: seq<AuditEntry>)

  /** The shop's database: its tables and the id it hands out next. */
  class Ledger {
    var t: Tables
    var nextId: nat

    /** Column defaults the source relies on without writing them: the status
        of a sale inserted without one, and a new client's balance and credits_count. */
    const defaultSaleStatus: SaleStatus
    const defaultBalance: Money
    const defaultCredits: int

    /** A database holding the warehouses created at setup time and nothing else. */
    constructor (warehouseNames: seq<string>, saleStatus: SaleStatus, balance: Money, credits: int)
      ensures t == Tables([], [], seq(|warehouseNames|, i requires 0 <= i < |warehouseNames| => Warehouse(i, warehouseNames[i])),
                          [], [], [], [], [], [], [], [])
      ensures nextId == |warehouseNames|
      ensures defaultSaleStatus == saleStatus && defaultBalance == balance && defaultCredits == credits
    {
      t := Tables([], [], seq(|warehouseNames|, i requires 0 <= i < |warehouseNames| => Warehouse(i, warehouseNames[i])),
                  [], [], [], [], [], [], [], []);
      nextId := |warehouseNames|;
      defaultSaleStatus, defaultBalance, defaultCredits := saleStatus, balance, credits;
    }

    /** `.from('clients').insert(row)`: the row, carrying the next id, is added when the insert succeeds. */
    method AppendClient(ok: bool, row: Client)
      requires row.id == nextId
      modifies this
      ensures nextId == old(nextId) + 1
      ensures t == old(t).(clients := old(t.clients) + if ok then [row] else [])
    {
      if ok {
        t := t.(clients := t.clients + [row]);
      }
      nextId := nextId + 1;
    }

    /** Writes back the clients table after an `.update(…)` or `.delete()`, which hand out no id. */
    method PutClients(rows: seq<Client>)
      modifies this
      ensures nextId == old(nextId)
      ensures t == old(t).(clients := rows)
    {
      t := t.(clients := rows);
    }

    /** `.from('products').insert(row)`: the row, carrying the next id, is added when the insert succeeds. */
    method AppendProduct(ok: bool, row: Product)
      requires row.id == nextId
      modifies this
      ensures nextId == old(nextId) + 1
      ensures t == old(t).(products := old(t.products) + if ok then [row] else [])
    {
      if ok {
        t := t.(products := t.products + [row]);
      }
      nextId := nextId + 1;
    }

    /** Writes back the products table after an `.update(…)` or `.delete()`, which hand out no id. */
    method PutProducts(rows: seq<Product>)
      modifies this
      ensures nextId == old(nextId)
      ensures t == old(t).(products := rows)
    {
      t := t.(products := rows);
    }

    /** `.from('stock').insert(rows)`: all the rows, carrying the next ids in order, are added when the insert succeeds. */
    method AppendStock(ok: bool, rows: seq<StockRow>)
      requires forall i :: 0 <= i < |rows| ==> rows[i].id == nextId + i
      modifies this
      ensures nextId == old(nextId) + |rows|
      ensures t == old(t).(stock := old(t.stock) + if ok then rows else [])
    {
      if ok {
        t := t.(stock := t.stock + rows);
      }
      nextId := nextId + |rows|;
    }

    /** Writes back the stock table after an `.update(…)` or `.delete()`, which hand out no id. */
    method PutStock(rows: seq<StockRow>)
      modifies this
      ensures nextId == old(nextId)
      ensures t == old(t).(stock := rows)
    {
      t := t.(stock := rows);
    }

    /** `.from('movements').insert(row)`: the row, carrying the next id, is added when the insert succeeds. */
    method AppendMovement(ok: bool, row: Movement)
      requires row.id == nextId
      modifies this
      ensures nextId == old(nextId) + 1
      ensures t == old(t).(movements := old(t.movements) + if ok then [row] else [])
    {
      if ok {
        t := t.(movements := t.movements + [row]);
      }
      nextId := nextId + 1;
    }

    /** `.from('orders').insert(row)`: the row, carrying the next id, is added when the insert succeeds. */
    method AppendOrder(ok: bool, row: Order)
      requires row.id == nextId
      modifies this
      ensures nextId == old(nextId) + 1
      ensures t == old(t).(orders := old(t.orders) + if ok then [row] else [])
    {
      if ok {
        t := t.(orders := t.orders + [row]);
      }
      nextId := nextId + 1;
    }

    /** Writes back the orders table after an `.update(…)` or `.delete()`, which hand out no id. */
    method PutOrders(rows: seq<Order>)
      modifies this
      ensures nextId == old(nextId)
      ensures t == old(t).(orders := rows)
    {
      t := t.(orders := rows);
    }

    /** `.from('orderItems').insert(rows)`: all the rows, carrying the next ids in order, are added when the insert succeeds. */
    method AppendOrderItems(ok: bool, rows: seq<OrderItem>)
      requires forall i :: 0 <= i < |rows| ==> rows[i].id == nextId + i
      modifies this
      ensures nextId == old(nextId) + |rows|
      ensures t == old(t).(orderItems := old(t.orderItems) + if ok then rows else [])
    {
      if ok {
        t := t.(orderItems := t.orderItems + rows);
      }
      nextId := nextId + |rows|;
    }

    /** `.from('sales').insert(row)`: the row, carrying the next id, is added when the insert succeeds. */
    method AppendSale(ok: bool, row: Sale)
      requires row.id == nextId
      modifies this
      ensures nextId == old(nextId) + 1
      ensures t == old(t).(sales := old(t.sales) + if ok then [row] else [])
    {
      if ok {
        t := t.(sales := t.sales + [row]);
      }
      nextId := nextId + 1;
    }

    /** Writes back the sales table after an `.update(…)` or `.delete()`, which hand out no id. */
    method PutSales(rows: seq<Sale>)
      modifies this
      ensures nextId == old(nextId)
      ensures t == old(t).(sales := rows)
    {
      t := t.(sales := rows);
    }

    /** `.from('saleItems').insert(rows)`: all the rows, carrying the next ids in order, are added when the insert succeeds. */
    method AppendSaleItems(ok: bool, rows: seq<SaleItem>)
      requires forall i :: 0 <= i < |rows| ==> rows[i].id == nextId + i
      modifies this
      ensures nextId == old(nextId) + |rows|
      ensures t == old(t).(saleItems := old(t.saleItems) + if ok then rows else [])
    {
      if ok {
        t := t.(saleItems := t.saleItems + rows);
      }
      nextId := nextId + |rows|;
    }

    /** `.from('payments').insert(row)`: the row, carrying the next id, is added when the insert succeeds. */
    method AppendPayment(ok: bool, row: Payment)
      requires row.id == nextId
      modifies this
      ensures nextId == old(nextId) + 1
      ensures t == old(t).(payments := old(t.payments) + if ok then [row] else [])
    {
      if ok {
        t := t.(payments := t.payments + [row]);
      }
      nextId := nextId + 1;
    }

    /** `.from('audit').insert(row)`: the row, carrying the next id, is added when the insert succeeds. */
    method AppendAudit(ok: bool, row: AuditEntry)
      requires row.id == nextId
      modifies this
      ensures nextId == old(nextId) + 1
      ensures t == old(t).(audit := old(t.audit) + if ok then [row] else [])
    {
      if ok {
        t := t.(audit := t.audit + [row]);
      }
      nextId := nextId + 1;
    }

    /** Writes back the audit table after an `.update(…)` or `.delete()`, which hand out no id. */
    method PutAudit(rows: seq<AuditEntry>)
      modifies this
      ensures nextId == old(nextId)
      ensures t == old(t).(audit := rows)
    {
      t := t.(audit := rows);
    }
  }

  function NameIs(name: string): Warehouse -> bool {
    (w: Warehouse) => w.name == name
  }

  /** `.from('warehouses').select('id').eq('name', name).single()`: the
      warehouse with that name when exactly one row has it, otherwise nothing. */
  function WarehouseNamed(ws: seq<Warehouse>, name: string): Option<Warehouse> {
    var matches := Filter(ws, NameIs(name));
    if |matches| == 1 then Some(matches[0]) else None
  }

  /** The warehouse lookup as a handler sees it: a failed call yields no row,
      whatever the table holds. */
  function WarehouseLookup(ws: seq<Warehouse>, name: string, lookupOk: bool): Option<Warehouse> {
    if lookupOk then WarehouseNamed(ws, name) else None
  }

  /** A warehouse found is one of the table's rows and carries the name asked for. */
  lemma WarehouseNamedSound(ws: seq<Warehouse>, name: string)
    ensures WarehouseNamed(ws, name).Some? ==>
              WarehouseNamed(ws, name).value in ws && WarehouseNamed(ws, name).value.name == name
  {
    var matches := Filter(ws, NameIs(name));
    if |matches| == 1 {
      FilterMembers(ws, NameIs(name), matches[0]);
    }
  }

  /** With distinct names, every warehouse of the table is found by its name. */
  lemma WarehouseNamedFinds(ws: seq<Warehouse>, k: nat)
    requires k < |ws|
    requires forall i, j :: 0 <= i < j < |ws| ==> ws[i].name != ws[j].name
    ensures WarehouseNamed(ws, ws[k].name) == Some(ws[k])
  {
    var keep := NameIs(ws[k].name);
    var a, b := ws[..k], ws[k + 1..];
    assert ws == a + [ws[k]] + b;
    forall x | x in a ensures !keep(x) {
      var i :| 0 <= i < k && a[i] == x;
    }
    forall x | x in b ensures !keep(x) {
      var i :| 0 <= i < |b| && b[i] == x;
      assert x == ws[k + 1 + i];
    }
    FilterNone(a, keep);
    FilterNone(b, keep);
    FilterAppend(a + [ws[k]], b, keep);
    FilterAppend(a, [ws[k]], keep);
    assert Filter([ws[k]], keep) == [ws[k]];
    assert Filter(ws, keep) == [ws[k]];
  }
}
