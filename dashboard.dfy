/** The dashboard's figures: total sales, cost and utility, receivables and
    debtors, sales grouped by zone, the five best clients and products, the
    goal percentage and the utility margin. Everything is read from the
    ledger's tables as the screen's joined queries return them. */
module Dashboard {
  import opened Base
  import opened Entities
  import opened Store
  import opened Sorting
  import opened Sales
  import Clients

  /** `SALES_GOAL`. */
  const SalesGoal: int := 12500000

  /** How many entries the top lists keep. */
  const TopCount: nat := 5

  /** A sales row joined with its client (`clients(id, name, zone)`), which may be missing. */
  datatype SaleView = SaleView(totalAmount: Money, client: Option<Client>)

  /** A sale item joined with its product (`products(name)`), which may be missing. */
  datatype ItemView = ItemView(item: SaleItem, product: Option<Product>)

  /** The first row of the table with that id, as a many-to-one join returns it. */
  function JoinClient(clients: seq<Client>, id: Id): Option<Client> {
    if clients == [] then None
    else if clients[0].id == id then Some(clients[0])
    else JoinClient(clients[1..], id)
  }

  function JoinProduct(products: seq<Product>, id: Id): Option<Product> {
    if products == [] then None
    else if products[0].id == id then Some(products[0])
    else JoinProduct(products[1..], id)
  }

  /** `sales.select('id, total_amount, created_at, clients(id, name, zone)')`: every sale, whatever its status. */
  function SalesView(t: Tables): (r: seq<SaleView>)
    ensures |r| == |t.sales|
  {
    seq(|t.sales|, i requires 0 <= i < |t.sales| =>
      SaleView(t.sales[i].totalAmount, JoinClient(t.clients, t.sales[i].clientId)))
  }

  function ItemsView(t: Tables): (r: seq<ItemView>)
    ensures |r| == |t.saleItems|
  {
    seq(|t.saleItems|, i requires 0 <= i < |t.saleItems| =>
      ItemView(t.saleItems[i], JoinProduct(t.products, t.saleItems[i].productId)))
  }

  function ViewAmount(s: SaleView): Money {
    s.totalAmount
  }

  function SaleTotal(s: Sale): Money {
    s.totalAmount
  }

  function ViewCost(v: ItemView): Money {
    ItemCost(v.item)
  }

  function ViewAmountSold(v: ItemView): Money {
    ItemAmount(v.item)
  }

  /** `totalSales`: the sum of every sale's total. */
  function TotalSales(sales: seq<SaleView>): Money {
    SumOf(sales, ViewAmount)
  }

  /** `totalCost`: the sum of each item's cost snapshot times its quantity. */
  function TotalCost(items: seq<ItemView>): Money {
    SumOf(items, ViewCost)
  }

  lemma {:induction false} SumOfViews(t: Tables, n: nat)
    requires n <= |t.sales|
    ensures SumOf(SalesView(t)[n..], ViewAmount) == SumOf(t.sales[n..], SaleTotal)
    decreases |t.sales| - n
  {
    if n < |t.sales| {
      SumOfViews(t, n + 1);
      assert SalesView(t)[n..][1..] == SalesView(t)[n + 1..];
      assert t.sales[n..][1..] == t.sales[n + 1..];
    }
  }

  /** Total sales is the sum over every sales row, cancelled or not. */
  lemma TotalSalesCountsEverySale(t: Tables)
    ensures TotalSales(SalesView(t)) == SumOf(t.sales, SaleTotal)
  {
    SumOfViews(t, 0);
    assert SalesView(t)[0..] == SalesView(t);
    assert t.sales[0..] == t.sales;
  }

  lemma {:induction false} SumOfStatusChange(sales: seq<Sale>, id: Id, status: SaleStatus)
    ensures SumOf(WithSaleStatus(sales, id, status), SaleTotal) == SumOf(sales, SaleTotal)
  {
    if sales != [] {
      SumOfStatusChange(sales[1..], id, status);
      assert WithSaleStatus(sales, id, status)[1..] == WithSaleStatus(sales[1..], id, status);
    }
  }

  /** So cancelling a sale leaves total sales where it was. */
  lemma CancellingKeepsTotalSales(t: Tables, id: Id)
    ensures TotalSales(SalesView(t.(sales := WithSaleStatus(t.sales, id, Cancelada)))) == TotalSales(SalesView(t))
  {
    TotalSalesCountsEverySale(t);
    TotalSalesCountsEverySale(t.(sales := WithSaleStatus(t.sales, id, Cancelada)));
    SumOfStatusChange(t.sales, id, Cancelada);
  }

  function Balance(c: Client): Money {
    c.balance
  }

  function HasDebt(c: Client): bool {
    c.balance > 0
  }

  /** `clients.filter(c => balance > 0)`. */
  function Debtors(clients: seq<Client>): seq<Client> {
    Filter(clients, HasDebt)
  }

  /** `receivablesTotal`. */
  function Receivables(clients: seq<Client>): Money {
    SumOf(Debtors(clients), Balance)
  }

  /** The clients screen offers a payment for exactly the clients the
      dashboard lists as debtors. */
  lemma PaymentOfferedIffDebtor(clients: seq<Client>, c: Client)
    ensures c in Debtors(clients) <==> c in clients && !Clients.PaymentDisabled(c)
  {
    ReceivablesShape(clients, c);
  }

  /** Debtors are exactly the clients with a positive balance, and what they
      owe together is never negative. */
  lemma ReceivablesShape(clients: seq<Client>, c: Client)
    ensures c in Debtors(clients) <==> c in clients && c.balance > 0
    ensures Receivables(clients) >= 0
  {
    FilterMembers(clients, HasDebt, c);
    forall d | d in Debtors(clients)
      ensures Balance(d) >= 0
    {
      FilterMembers(clients, HasDebt, d);
    }
    SumOfNonNegative(Debtors(clients), Balance);
  }

  /** One entry of a grouping: a name and the amount summed under it. */
  datatype Group = Group(name: string, total: Money)

  function GroupTotal(g: Group): Money {
    g.total
  }

  /** `acc[name] = (acc[name] || 0) + v` on a list of groups in key order:
      adds to the group with that name, or appends a new one at the end. */
  function AddTo(gs: seq<Group>, name: string, v: Money): (r: seq<Group>)
    ensures |r| == |gs| || |r| == |gs| + 1
  {
    if gs == [] then [Group(name, v)]
    else if gs[0].name == name then [gs[0].(total := gs[0].total + v)] + gs[1..]
    else [gs[0]] + AddTo(gs[1..], name, v)
  }

  /** The groups a `forEach` over `rows` builds, in the order keys first appear. */
  function GroupsOf<T>(rows: seq<T>, key: T -> string, value: T -> Money): seq<Group> {
    if rows == [] then []
    else AddTo(GroupsOf(rows[..|rows| - 1], key, value), key(rows[|rows| - 1]), value(rows[|rows| - 1]))
  }

  function Names(gs: seq<Group>): (r: seq<string>)
    ensures |r| == |gs|
  {
    if gs == [] then [] else [gs[0].name] + Names(gs[1..])
  }

  lemma {:induction false} AddToSum(gs: seq<Group>, name: string, v: Money)
    ensures SumOf(AddTo(gs, name, v), GroupTotal) == SumOf(gs, GroupTotal) + v
  {
    if gs != [] && gs[0].name != name {
      AddToSum(gs[1..], name, v);
    }
  }

  /** Adding to a group keeps the names; adding under a new name appends it. */
  lemma {:induction false} AddToNames(gs: seq<Group>, name: string, v: Money)
    ensures Names(AddTo(gs, name, v)) == if name in Names(gs) then Names(gs) else Names(gs) + [name]
  {
    if gs != [] && gs[0].name != name {
      AddToNames(gs[1..], name, v);
      assert Names(gs) == [gs[0].name] + Names(gs[1..]);
    }
  }

  /** The groups' totals add up to the sum over all rows: every row is
      counted once, under its own key. */
  lemma {:induction false} GroupsAddUp<T>(rows: seq<T>, key: T -> string, value: T -> Money)
    ensures SumOf(GroupsOf(rows, key, value), GroupTotal) == SumOf(rows, value)
  {
    if rows != [] {
      var init, last := rows[..|rows| - 1], rows[|rows| - 1];
      GroupsAddUp(init, key, value);
      AddToSum(GroupsOf(init, key, value), key(last), value(last));
      assert rows == init + [last];
      SumOfAppend(init, [last], value);
    }
  }

  /** The key of every row, in row order. */
  function Keys<T>(rows: seq<T>, key: T -> string): (r: seq<string>)
    ensures |r| == |rows|
  {
    seq(|rows|, i requires 0 <= i < |rows| => key(rows[i]))
  }

  /** There is exactly one group per distinct key among the rows. */
  lemma {:induction false} GroupsAreKeys<T>(rows: seq<T>, key: T -> string, value: T -> Money)
    ensures Distinct(Names(GroupsOf(rows, key, value)))
    ensures forall m :: m in Names(GroupsOf(rows, key, value)) <==> m in Keys(rows, key)
  {
    if rows != [] {
      var init, last := rows[..|rows| - 1], rows[|rows| - 1];
      GroupsAreKeys(init, key, value);
      AddToNames(GroupsOf(init, key, value), key(last), value(last));
      assert Keys(rows, key) == Keys(init, key) + [key(last)];
    }
  }

  /** The test `key(row) === name`. */
  function HasKey<T>(key: T -> string, name: string): T -> bool {
    (r: T) => key(r) == name
  }

  /** Adding under `name` adds `v` to the group with that name, or appends a
      group holding `v`; every other group keeps its name and total. */
  lemma {:induction false} AddToEffect(gs: seq<Group>, name: string, v: Money)
    requires Distinct(Names(gs))
    ensures forall j :: 0 <= j < |gs| ==> AddTo(gs, name, v)[j].name == gs[j].name
    ensures forall j :: 0 <= j < |gs| ==>
              AddTo(gs, name, v)[j].total == gs[j].total + (if gs[j].name == name then v else 0)
    ensures name !in Names(gs) ==> |AddTo(gs, name, v)| == |gs| + 1 && AddTo(gs, name, v)[|gs|] == Group(name, v)
  {
    if gs != [] {
      assert Names(gs) == [gs[0].name] + Names(gs[1..]);
      assert Distinct(Names(gs[1..])) by {
        forall i, j | 0 <= i < j < |Names(gs[1..])|
          ensures Names(gs[1..])[i] != Names(gs[1..])[j]
        {
          assert Names(gs[1..])[i] == Names(gs)[i + 1];
          assert Names(gs[1..])[j] == Names(gs)[j + 1];
        }
      }
      AddToEffect(gs[1..], name, v);
      if gs[0].name == name {
        forall j | 1 <= j < |gs|
          ensures gs[j].name != name
        {
          NameAt(gs, j);
          assert Names(gs)[0] != Names(gs)[j];
        }
      }
    }
  }

  /** The rows carrying key `name` add one row's value when that row carries it. */
  lemma KeySumStep<T(!new)>(init: seq<T>, last: T, key: T -> string, value: T -> Money, name: string)
    ensures SumOf(Filter(init + [last], HasKey(key, name)), value) ==
            SumOf(Filter(init, HasKey(key, name)), value) + (if key(last) == name then value(last) else 0)
  {
    FilterAppend(init, [last], HasKey(key, name));
    SumOfAppend(Filter(init, HasKey(key, name)), Filter([last], HasKey(key, name)), value);
    assert [last][1..] == [];
  }

  /** A key no row carries sums to 0. */
  lemma KeySumAbsent<T(!new)>(rows: seq<T>, key: T -> string, value: T -> Money, name: string)
    requires name !in Keys(rows, key)
    ensures SumOf(Filter(rows, HasKey(key, name)), value) == 0
  {
    forall x | x in rows
      ensures !HasKey(key, name)(x)
    {
      var i :| 0 <= i < |rows| && rows[i] == x;
      assert Keys(rows, key)[i] == key(x);
    }
    FilterNone(rows, HasKey(key, name));
  }

  /** Each group holds the sum of the values of exactly the rows carrying its key. */
  lemma {:induction false} GroupSums<T(!new)>(rows: seq<T>, key: T -> string, value: T -> Money)
    ensures forall j :: 0 <= j < |GroupsOf(rows, key, value)| ==>
              GroupsOf(rows, key, value)[j].total ==
              SumOf(Filter(rows, HasKey(key, GroupsOf(rows, key, value)[j].name)), value)
  {
    if rows != [] {
      var init, last := rows[..|rows| - 1], rows[|rows| - 1];
      assert rows == init + [last];
      GroupSums(init, key, value);
      forall j | 0 <= j < |GroupsOf(rows, key, value)|
        ensures GroupsOf(rows, key, value)[j].total ==
                SumOf(Filter(rows, HasKey(key, GroupsOf(rows, key, value)[j].name)), value)
      {
        GroupSumAt(init, last, key, value, j);
      }
    }
  }

  /** One step of `GroupSums`: the group at `j` after one more row. */
  lemma GroupSumAt<T(!new)>(init: seq<T>, last: T, key: T -> string, value: T -> Money, j: nat)
    requires forall i :: 0 <= i < |GroupsOf(init, key, value)| ==>
               GroupsOf(init, key, value)[i].total ==
               SumOf(Filter(init, HasKey(key, GroupsOf(init, key, value)[i].name)), value)
    requires j < |GroupsOf(init + [last], key, value)|
    ensures GroupsOf(init + [last], key, value)[j].total ==
            SumOf(Filter(init + [last], HasKey(key, GroupsOf(init + [last], key, value)[j].name)), value)
  {
    var rows := init + [last];
    assert rows[..|rows| - 1] == init && rows[|rows| - 1] == last;
    var gs := GroupsOf(init, key, value);
    assert GroupsOf(rows, key, value) == AddTo(gs, key(last), value(last));
    assert Distinct(Names(gs)) by { GroupsAreKeys(init, key, value); }
    if j < |gs| {
      assert gs[j].total == SumOf(Filter(init, HasKey(key, gs[j].name)), value);
      ExistingGroupStep(init, last, key, value, gs, j);
    } else {
      assert key(last) !in Names(gs) by { AddToNames(gs, key(last), value(last)); }
      assert key(last) !in Keys(init, key) by { GroupsAreKeys(init, key, value); }
      FreshGroupStep(init, last, key, value, gs);
    }
  }

  /** A group already present gains the new row's value exactly when the row carries its key. */
  lemma ExistingGroupStep<T(!new)>(init: seq<T>, last: T, key: T -> string, value: T -> Money,
                                   gs: seq<Group>, j: nat)
    requires Distinct(Names(gs)) && j < |gs|
    requires gs[j].total == SumOf(Filter(init, HasKey(key, gs[j].name)), value)
    ensures AddTo(gs, key(last), value(last))[j].total ==
            SumOf(Filter(init + [last], HasKey(key, AddTo(gs, key(last), value(last))[j].name)), value)
  {
    AddToEffect(gs, key(last), value(last));
    KeySumStep(init, last, key, value, gs[j].name);
  }

  /** A key met for the first time starts a group holding just the new row's value. */
  lemma FreshGroupStep<T(!new)>(init: seq<T>, last: T, key: T -> string, value: T -> Money, gs: seq<Group>)
    requires Distinct(Names(gs)) && key(last) !in Names(gs) && key(last) !in Keys(init, key)
    ensures |AddTo(gs, key(last), value(last))| == |gs| + 1
    ensures AddTo(gs, key(last), value(last))[|gs|].total ==
            SumOf(Filter(init + [last], HasKey(key, AddTo(gs, key(last), value(last))[|gs|].name)), value)
  {
    AddToEffect(gs, key(last), value(last));
    KeySumAbsent(init, key, value, key(last));
    KeySumStep(init, last, key, value, key(last));
  }

  /** The meaning of a grouping: a group's total is the sum of the values of
      the rows whose key is the group's name. */
  lemma GroupIsKeySum<T(!new)>(rows: seq<T>, key: T -> string, value: T -> Money, g: Group)
    requires g in GroupsOf(rows, key, value)
    ensures g.total == SumOf(Filter(rows, HasKey(key, g.name)), value)
  {
    GroupSums(rows, key, value);
  }

  /** The groups the screen's dictionary holds: its keys in insertion order with their sums. */
  function Listed(names: seq<string>, totals: map<string, Money>): (r: seq<Group>)
    ensures |r| == |names|
  {
    seq(|names|, j requires 0 <= j < |names| => Group(names[j], if names[j] in totals then totals[names[j]] else 0))
  }

  lemma {:induction false} AddToExisting(gs: seq<Group>, j: nat, name: string, v: Money)
    requires j < |gs| && gs[j].name == name
    requires forall i :: 0 <= i < j ==> gs[i].name != name
    ensures AddTo(gs, name, v) == gs[j := gs[j].(total := gs[j].total + v)]
  {
    if j > 0 {
      AddToExisting(gs[1..], j - 1, name, v);
    }
  }

  lemma {:induction false} AddToFresh(gs: seq<Group>, name: string, v: Money)
    requires forall i :: 0 <= i < |gs| ==> gs[i].name != name
    ensures AddTo(gs, name, v) == gs + [Group(name, v)]
  {
    if gs != [] {
      AddToFresh(gs[1..], name, v);
    }
  }

  lemma ListedNames(names: seq<string>, totals: map<string, Money>)
    ensures Names(Listed(names, totals)) == names
  {
    var gs := Listed(names, totals);
    forall i | 0 <= i < |names|
      ensures Names(gs)[i] == names[i]
    {
      NameAt(gs, i);
    }
  }

  lemma {:induction false} NameAt(gs: seq<Group>, i: nat)
    requires i < |gs|
    ensures Names(gs)[i] == gs[i].name
  {
    if i > 0 {
      NameAt(gs[1..], i - 1);
    }
  }

  /** Adding to a key already in the dictionary adds to its group. */
  lemma ListedAddExisting(names: seq<string>, totals: map<string, Money>, k: string, v: Money)
    requires k in totals && k in names
    requires Distinct(names)
    ensures Listed(names, totals[k := totals[k] + v]) == AddTo(Listed(names, totals), k, v)
  {
    var gs := Listed(names, totals);
    var j :| 0 <= j < |names| && names[j] == k;
    AddToExisting(gs, j, k, v);
  }

  /** A key not yet in the dictionary goes last, with the value as its sum. */
  lemma ListedAddFresh(names: seq<string>, totals: map<string, Money>, k: string, v: Money)
    requires k !in names
    ensures Listed(names + [k], totals[k := v]) == AddTo(Listed(names, totals), k, v)
  {
    var gs := Listed(names, totals);
    AddToFresh(gs, k, v);
    assert Listed(names + [k], totals[k := v]) == gs + [Group(k, v)];
  }

  /** The `forEach` of `fetchStats` that sums `value` under `key` into a
      dictionary, read back with `Object.keys`. */
  method GroupSum<T>(rows: seq<T>, key: T -> string, value: T -> Money) returns (groups: seq<Group>)
    ensures groups == GroupsOf(rows, key, value)
  {
    var names: seq<string> := [];
    var totals: map<string, Money> := map[];
    var i := 0;
    while i < |rows|
      invariant 0 <= i <= |rows|
      invariant forall n :: n in totals <==> n in names
      invariant Distinct(names)
      invariant Listed(names, totals) == GroupsOf(rows[..i], key, value)
    {
      var k, v := key(rows[i]), value(rows[i]);
      assert rows[..i + 1][..i] == rows[..i];
      if k in totals {
        ListedAddExisting(names, totals, k, v);
        totals := totals[k := totals[k] + v];
      } else {
        ListedAddFresh(names, totals, k, v);
        names := names + [k];
        totals := totals[k := v];
      }
      i := i + 1;
    }
    assert rows[..i] == rows;
    groups := Listed(names, totals);
  }

  /** `sort((a, b) => b.amount - a.amount).slice(0, 5)`. */
  function Top(groups: seq<Group>): seq<Group> {
    Take(SortDesc(groups, GroupTotal), TopCount)
  }

  /** The top list has at most five entries, largest first, each one of the
      groups, and no group left out is larger than one kept. */
  lemma TopShape(groups: seq<Group>)
    ensures |Top(groups)| == if |groups| < TopCount then |groups| else TopCount
    ensures Top(groups) == SortDesc(groups, GroupTotal)[..|Top(groups)|]
    ensures SortedDesc(Top(groups), GroupTotal)
    ensures multiset(Top(groups)) <= multiset(groups)
    ensures forall i, j :: 0 <= i < |Top(groups)| <= j < |SortDesc(groups, GroupTotal)| ==>
              Top(groups)[i].total >= SortDesc(groups, GroupTotal)[j].total
  {
    var sorted := SortDesc(groups, GroupTotal);
    SortDescSorted(groups, GroupTotal);
    SortDescPermutation(groups, GroupTotal);
    var top := Top(groups);
    assert top == sorted[..|top|];
    assert sorted == top + sorted[|top|..];
    assert multiset(sorted) == multiset(top) + multiset(sorted[|top|..]);
  }

  /** `s.clients?.zone || 'Sin Zona'`. */
  function ZoneOf(s: SaleView): string {
    if s.client.Some? && s.client.value.zone != "" then s.client.value.zone else "Sin Zona"
  }

  /** `s.clients?.name || 'Cliente Gral'`. */
  function ClientNameOf(s: SaleView): string {
    if s.client.Some? && s.client.value.name != "" then s.client.value.name else "Cliente Gral"
  }

  /** `item.products?.name || 'Producto'`. */
  function ProductNameOf(v: ItemView): string {
    if v.product.Some? && v.product.value.name != "" then v.product.value.name else "Producto"
  }

  /** Shown when no product has sold yet. */
  const Placeholder: seq<Group> := [Group("XX LAGER", 0), Group("HIELO 5KG", 0)]

  function TopProducts(top: seq<Group>): seq<Group> {
    if |top| > 0 then top else Placeholder
  }

  /** A grouping has a top entry exactly when there is at least one row. */
  lemma TopEmptyIffNoRows<T>(rows: seq<T>, key: T -> string, value: T -> Money)
    ensures Top(GroupsOf(rows, key, value)) == [] <==> rows == []
  {
    var gs := GroupsOf(rows, key, value);
    if rows != [] {
      var init := GroupsOf(rows[..|rows| - 1], key, value);
      assert |gs| >= 1 by {
        if init != [] { assert |gs| >= |init|; }
      }
    }
    TopShape(gs);
  }

  /** The placeholder products show when no sale item is recorded; otherwise
      the list is the top products by amount sold, and it is not empty. */
  lemma TopProductsFallback(t: Tables)
    ensures t.saleItems == [] ==>
            TopProducts(Top(GroupsOf(ItemsView(t), ProductNameOf, ViewAmountSold))) == Placeholder
    ensures t.saleItems != [] ==>
            Top(GroupsOf(ItemsView(t), ProductNameOf, ViewAmountSold)) != [] &&
            TopProducts(Top(GroupsOf(ItemsView(t), ProductNameOf, ViewAmountSold))) ==
            Top(GroupsOf(ItemsView(t), ProductNameOf, ViewAmountSold))
  {
    TopEmptyIffNoRows(ItemsView(t), ProductNameOf, ViewAmountSold);
    assert |ItemsView(t)| == |t.saleItems|;
  }

  function PendingOrders(orders: seq<Order>): nat {
    |Filter(orders, (o: Order) => o.status == Pendiente)|
  }

  /** `Math.min(100, totalSales / SALES_GOAL * 100)`. */
  function GoalPercentage(totalSales: Money): (r: real)
    ensures r <= 100.0
    ensures totalSales <= SalesGoal ==> r == (totalSales as real) * 100.0 / (SalesGoal as real)
    ensures totalSales >= SalesGoal ==> r == 100.0
  {
    var p := (totalSales as real) / (SalesGoal as real) * 100.0;
    if p < 100.0 then p else 100.0
  }

  /** `totalSales > 0 ? utility / totalSales * 100 : 0`, before rounding. */
  function UtilityMargin(totalSales: Money, utility: Money): (r: real)
    ensures totalSales <= 0 ==> r == 0.0
    ensures totalSales > 0 ==> r * (totalSales as real) == (utility as real) * 100.0
  {
    if totalSales > 0 then (utility as real) / (totalSales as real) * 100.0 else 0.0
  }

  /** With no cost above the price, the margin never exceeds 100 percent. */
  lemma MarginAtMostHundred(totalSales: Money, totalCost: Money)
    requires totalSales > 0 && totalCost >= 0
    ensures UtilityMargin(totalSales, totalSales - totalCost) <= 100.0
  {
    var m := UtilityMargin(totalSales, totalSales - totalCost);
    assert m * (totalSales as real) <= (totalSales as real) * 100.0;
  }

  datatype Stats = Stats(
    totalSales: Money, totalCost: Money, utility: Money, salesCount: nat,
    receivables: Money, pendingOrders: nat,
    salesByZone: seq<Group>, topClients: seq<Group>, debtors: seq<Client>, topProducts: seq<Group>)

  /** The aggregation body of `fetchStats` over the ledger's current tables. */
  method FetchStats(db: Ledger) returns (st: Stats)
    ensures st.totalSales == TotalSales(SalesView(db.t))
    ensures st.totalCost == TotalCost(ItemsView(db.t))
    ensures st.utility == st.totalSales - st.totalCost
    ensures st.salesCount == |db.t.sales|
    ensures st.receivables == Receivables(db.t.clients)
    ensures st.pendingOrders == PendingOrders(db.t.orders)
    ensures st.salesByZone == GroupsOf(SalesView(db.t), ZoneOf, ViewAmount)
    ensures st.topClients == Top(GroupsOf(SalesView(db.t), ClientNameOf, ViewAmount))
    ensures st.debtors == SortDesc(Debtors(db.t.clients), Balance)
    ensures st.topProducts == TopProducts(Top(GroupsOf(ItemsView(db.t), ProductNameOf, ViewAmountSold)))
  {
    var sales := SalesView(db.t);
    var items := ItemsView(db.t);
    var totalSales := TotalSales(sales);
    var totalCost := TotalCost(items);
    var zones := GroupSum(sales, ZoneOf, ViewAmount);
    var byClient := GroupSum(sales, ClientNameOf, ViewAmount);
    var byProduct := GroupSum(items, ProductNameOf, ViewAmountSold);
    st := Stats(totalSales, totalCost, totalSales - totalCost, |sales|,
                Receivables(db.t.clients), PendingOrders(db.t.orders),
                zones, Top(byClient), SortDesc(Debtors(db.t.clients), Balance), TopProducts(Top(byProduct)));
  }

  /** Sales by zone: one entry per zone, each the sum of that zone's sales,
      and together they add up to total sales. */
  lemma ZonesAddUpToTotalSales(t: Tables)
    ensures SumOf(GroupsOf(SalesView(t), ZoneOf, ViewAmount), GroupTotal) == TotalSales(SalesView(t))
    ensures Distinct(Names(GroupsOf(SalesView(t), ZoneOf, ViewAmount)))
    ensures forall z :: z in Names(GroupsOf(SalesView(t), ZoneOf, ViewAmount)) <==> z in Keys(SalesView(t), ZoneOf)
    ensures forall g :: g in GroupsOf(SalesView(t), ZoneOf, ViewAmount) ==>
              g.total == SumOf(Filter(SalesView(t), HasKey(ZoneOf, g.name)), ViewAmount)
  {
    GroupsAddUp(SalesView(t), ZoneOf, ViewAmount);
    GroupsAreKeys(SalesView(t), ZoneOf, ViewAmount);
    forall g | g in GroupsOf(SalesView(t), ZoneOf, ViewAmount)
      ensures g.total == SumOf(Filter(SalesView(t), HasKey(ZoneOf, g.name)), ViewAmount)
    {
      GroupIsKeySum(SalesView(t), ZoneOf, ViewAmount, g);
    }
  }
}
