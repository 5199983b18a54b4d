/** The clients screen: registering a client, recording a payment, the
    account history (credit sales and payments, newest first), the search
    filter, and the credit figures shown for a client. Balances and
    credits_count are only read here. */
module Clients {
  import opened Base
  import opened Text
  import opened Access
  import opened Entities
  import opened Store
  import opened Sorting
  import Sales

  /** The number of credit purchases a client may have open. */
  const CreditLimit: int := 2

  /** `credits_count >= 2`: the client is shown as blocked for credit. */
  predicate Blocked(c: Client) {
    c.creditsCount >= CreditLimit
  }

  /** `2 - credits_count`: the credit purchases still allowed, as shown. */
  function RemainingCredits(c: Client): int {
    CreditLimit - c.creditsCount
  }

  /** The point of sale disables credit for exactly the clients this screen
      shows as blocked, which are those with no credit purchase remaining;
      with no client selected credit is not disabled. */
  lemma CreditGateAgrees(c: Client)
    ensures Sales.CreditDisabled(Some(c)) <==> Blocked(c)
    ensures !Sales.CreditDisabled(None)
    ensures Blocked(c) <==> RemainingCredits(c) <= 0
    ensures !Blocked(c) ==> RemainingCredits(c) >= 1
  {
  }

  /** `parseFloat(balance) <= 0`: there is nothing to pay, so the payment button is disabled. */
  predicate PaymentDisabled(c: Client) {
    c.balance <= 0
  }

  /** The amount typed in: absent when the field is empty. */
  predicate ValidAmount(amount: Option<Money>) {
    amount.Some? && amount.value > 0
  }

  const PaymentNotes: string := "Abono manual desde módulo clientes"

  function PaymentRow(id: Id, c: Client, amount: Money, now: int): Payment {
    Payment(id, c.id, amount, "efectivo", PaymentNotes, now)
  }

  function PaymentEntry(id: Id, role: Option<string>, c: Client, amount: Money): AuditEntry {
    AuditEntry(id, ActorRole(role), "Abono de Cliente",
               "Abono de $" + IntToString(amount) + " recibido de " + c.name,
               PaymentReceived(c.id, amount))
  }

  datatype PaymentOutcome = InvalidAmount | PaymentFailed | PaymentRecorded(paymentId: Id)

  /** `handlePayment`: an empty or non-positive amount is refused before
      anything is written; otherwise one cash payment row is inserted (a
      failure throws) followed by one audit entry, whose failure is ignored.
      The client's balance is not changed here. */
  method RecordPayment(db: Ledger, role: Option<string>, c: Client, amount: Option<Money>, now: int,
                       insertOk: bool, auditInsertOk: bool)
    returns (r: PaymentOutcome)
    modifies db
    ensures r.InvalidAmount? <==> !ValidAmount(amount)
    ensures r.PaymentFailed? <==> ValidAmount(amount) && !insertOk
    ensures !r.PaymentRecorded? ==> db.t == old(db.t) && db.nextId == old(db.nextId)
    ensures r.PaymentRecorded? ==>
              && r.paymentId == old(db.nextId)
              && db.nextId == old(db.nextId) + 2
              && db.t == old(db.t).(
                   payments := old(db.t.payments) + [PaymentRow(r.paymentId, c, amount.value, now)],
                   audit := old(db.t.audit) +
                            (if auditInsertOk then [PaymentEntry(r.paymentId + 1, role, c, amount.value)] else []))
  {
    if !ValidAmount(amount) {
      r := InvalidAmount;
    } else if !insertOk {
      r := PaymentFailed;
    } else {
      var id := db.nextId;
      db.AppendPayment(true, PaymentRow(id, c, amount.value, now));
      db.AppendAudit(auditInsertOk, PaymentEntry(db.nextId, role, c, amount.value));
      r := PaymentRecorded(id);
    }
  }

  /** The row the table creates from the registration form, with the column
      defaults for balance and credits_count. */
  function FormClient(id: Id, f: ClientForm, balance: Money, credits: int): Client {
    Client(id, f.name, f.zone, f.businessType, f.contactName, f.phone, balance, credits)
  }

  function RegisterEntry(id: Id, role: Option<string>, c: Client, f: ClientForm): AuditEntry {
    AuditEntry(id, ActorRole(role), "Alta de Cliente",
               "Nuevo cliente registrado: " + f.name + " (" + f.zone + ")",
               ClientRegistered(c.id, c.name))
  }

  /** `handleRegister`: inserts the form as a client; when that succeeds,
      writes one audit entry, whose failure is ignored, returns the new row
      and puts it first on the screen's list `shown`. */
  method Register(db: Ledger, role: Option<string>, form: ClientForm, shown: seq<Client>,
                  insertOk: bool, auditInsertOk: bool)
    returns (r: Option<Client>, shownAfter: seq<Client>)
    modifies db
    ensures r.Some? <==> insertOk
    ensures r.None? ==> db.t == old(db.t) && db.nextId == old(db.nextId) && shownAfter == shown
    ensures r.Some? ==>
              && r.value == FormClient(old(db.nextId), form, db.defaultBalance, db.defaultCredits)
              && shownAfter == Prepend(shown, r.value)
              && db.nextId == old(db.nextId) + 2
              && db.t == old(db.t).(
                   clients := old(db.t.clients) + [r.value],
                   audit := old(db.t.audit) +
                            (if auditInsertOk then [RegisterEntry(old(db.nextId) + 1, role, r.value, form)] else []))
  {
    if !insertOk {
      r, shownAfter := None, shown;
    } else {
      var c := FormClient(db.nextId, form, db.defaultBalance, db.defaultCredits);
      db.AppendClient(true, c);
      db.AppendAudit(auditInsertOk, RegisterEntry(db.nextId, role, c, form));
      r, shownAfter := Some(c), Prepend(shown, c);
    }
  }

  /** `setClients([data, ...clients])`: the new client goes first on the screen's list. */
  function Prepend(shown: seq<Client>, c: Client): seq<Client> {
    [c] + shown
  }

  /** No two entries of a list share an id. */
  predicate IdsDistinct(cs: seq<Client>) {
    forall i, j :: 0 <= i < j < |cs| ==> cs[i].id != cs[j].id
  }

  /** After a registration the list shows the new client first and every
      client it showed before, in the same order; when the new id is not on
      the list already, ids stay distinct. */
  lemma PrependShape(shown: seq<Client>, c: Client, x: Client)
    ensures Prepend(shown, c)[0] == c && Prepend(shown, c)[1..] == shown
    ensures x in Prepend(shown, c) <==> x == c || x in shown
    ensures IdsDistinct(shown) && (forall y :: y in shown ==> y.id != c.id) ==> IdsDistinct(Prepend(shown, c))
  {
    var r := Prepend(shown, c);
    assert r[1..] == shown;
    if IdsDistinct(shown) && (forall y :: y in shown ==> y.id != c.id) {
      forall i, j | 0 <= i < j < |r|
        ensures r[i].id != r[j].id
      {
        assert r[j] == shown[j - 1];
        if i > 0 {
          assert r[i] == shown[i - 1];
        } else {
          assert shown[j - 1] in shown;
        }
      }
    }
  }

  /** `clients.map(c => c.id === updated.id ? updated : c)`: the refreshed row
      replaces the entries with its id. */
  function ReplaceById(shown: seq<Client>, updated: Client): seq<Client> {
    seq(|shown|, i requires 0 <= i < |shown| => if shown[i].id == updated.id then updated else shown[i])
  }

  /** Only entries with the refreshed client's id change; the list keeps its
      length and order, and the refreshed client is in it exactly when its id was. */
  lemma ReplaceByIdOnlyMatching(shown: seq<Client>, updated: Client)
    ensures |ReplaceById(shown, updated)| == |shown|
    ensures forall i :: 0 <= i < |shown| && shown[i].id != updated.id ==> ReplaceById(shown, updated)[i] == shown[i]
    ensures forall i :: 0 <= i < |shown| && shown[i].id == updated.id ==> ReplaceById(shown, updated)[i] == updated
    ensures updated in ReplaceById(shown, updated) <==> exists i :: 0 <= i < |shown| && shown[i].id == updated.id
  {
    var r := ReplaceById(shown, updated);
    if updated in r {
      var i :| 0 <= i < |r| && r[i] == updated;
    }
  }

  /** `CARGO` for a credit sale, `ABONO` for a payment. */
  datatype EntryKind = Cargo | Abono

  /** One line of the account history. */
  datatype HistoryEntry = HistoryEntry(kind: EntryKind, createdAt: int, amount: Money, notes: Option<string>)

  function CreatedAt(h: HistoryEntry): int {
    h.createdAt
  }

  function IsCreditSaleOf(clientId: Id): Sale -> bool {
    (s: Sale) => s.clientId == clientId && s.paymentMethod == Credito
  }

  function IsPaymentOf(clientId: Id): Payment -> bool {
    (p: Payment) => p.clientId == clientId
  }

  function Charges(sales: seq<Sale>): (r: seq<HistoryEntry>)
    ensures |r| == |sales|
  {
    if sales == [] then []
    else [HistoryEntry(Cargo, sales[0].createdAt, sales[0].totalAmount, None)] + Charges(sales[1..])
  }

  function Credits(payments: seq<Payment>): (r: seq<HistoryEntry>)
    ensures |r| == |payments|
  {
    if payments == [] then []
    else [HistoryEntry(Abono, payments[0].createdAt, payments[0].amount, Some(payments[0].notes))]
         + Credits(payments[1..])
  }

  /** `fetchHistory`: the client's credit sales as charges and its payments as
      credits, merged and sorted newest first. */
  function History(sales: seq<Sale>, payments: seq<Payment>, clientId: Id): seq<HistoryEntry> {
    SortDesc(Charges(Filter(sales, IsCreditSaleOf(clientId))) + Credits(Filter(payments, IsPaymentOf(clientId))),
             CreatedAt)
  }

  /** Every charge is the amount of a credit sale. */
  lemma {:induction false} ChargesAreSales(sales: seq<Sale>, i: nat)
    requires i < |sales|
    ensures Charges(sales)[i] == HistoryEntry(Cargo, sales[i].createdAt, sales[i].totalAmount, None)
  {
    if i > 0 {
      ChargesAreSales(sales[1..], i - 1);
    }
  }

  /** The history is ordered newest first, has one line per credit sale and
      per payment of the client, and holds exactly those lines. */
  lemma HistoryShape(sales: seq<Sale>, payments: seq<Payment>, clientId: Id)
    ensures SortedDesc(History(sales, payments, clientId), CreatedAt)
    ensures |History(sales, payments, clientId)| ==
            |Filter(sales, IsCreditSaleOf(clientId))| + |Filter(payments, IsPaymentOf(clientId))|
    ensures multiset(History(sales, payments, clientId)) ==
            multiset(Charges(Filter(sales, IsCreditSaleOf(clientId)))) +
            multiset(Credits(Filter(payments, IsPaymentOf(clientId))))
  {
    var merged := Charges(Filter(sales, IsCreditSaleOf(clientId))) + Credits(Filter(payments, IsPaymentOf(clientId)));
    SortDescSorted(merged, CreatedAt);
    SortDescPermutation(merged, CreatedAt);
  }

  function NameOrZoneHas(term: string): Client -> bool {
    (c: Client) => Includes(Lower(c.name), Lower(term)) || Includes(Lower(c.zone), Lower(term))
  }

  /** `filteredClients`. */
  function FilteredClients(shown: seq<Client>, term: string): seq<Client> {
    Filter(shown, NameOrZoneHas(term))
  }

  /** A client is kept exactly when the lower-cased term occurs in its
      lower-cased name or zone. */
  lemma FilteredClientsIff(shown: seq<Client>, term: string, c: Client)
    ensures c in FilteredClients(shown, term) <==>
              c in shown &&
              ((exists i :: OccursAt(Lower(c.name), Lower(term), i)) ||
               (exists i :: OccursAt(Lower(c.zone), Lower(term), i)))
  {
    FilterMembers(shown, NameOrZoneHas(term), c);
    IncludesIff(Lower(c.name), Lower(term));
    IncludesIff(Lower(c.zone), Lower(term));
  }
}
