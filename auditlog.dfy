/** The audit screen: the search and type filter, the list of event types
    offered by the type filter, the colour each event type is shown in, and
    deleting an entry (master only). Who may open the screen is
    `Access.IsAuthorized`. */
module AuditLog {
  import opened Base
  import opened Text
  import opened Access
  import opened Entities
  import opened Store

  /** The type filter's first option, which keeps every type. */
  const AllTypes: string := "Todos"

  function Matches(term: string, filter: string): AuditEntry -> bool {
    (l: AuditEntry) =>
      (Includes(Lower(l.description), Lower(term)) || Includes(Lower(l.eventType), Lower(term)))
      && (filter == AllTypes || l.eventType == filter)
  }

  /** `filteredLogs`. */
  function FilteredLogs(logs: seq<AuditEntry>, term: string, filter: string): seq<AuditEntry> {
    Filter(logs, Matches(term, filter))
  }

  /** An entry is kept exactly when the lower-cased term occurs in its
      lower-cased description or event type, and the filter is `Todos` or
      names its event type exactly. */
  lemma FilteredLogsIff(logs: seq<AuditEntry>, term: string, filter: string, l: AuditEntry)
    ensures l in FilteredLogs(logs, term, filter) <==>
              && l in logs
              && ((exists i :: OccursAt(Lower(l.description), Lower(term), i)) ||
                  (exists i :: OccursAt(Lower(l.eventType), Lower(term), i)))
              && (filter == AllTypes || l.eventType == filter)
  {
    FilterMembers(logs, Matches(term, filter), l);
    IncludesIff(Lower(l.description), Lower(term));
    IncludesIff(Lower(l.eventType), Lower(term));
  }

  /** `[...new Set(types)]`: each value once, where it first appears. */
  function Dedup(s: seq<string>): seq<string> {
    if s == [] then []
    else
      var d := Dedup(s[..|s| - 1]);
      if s[|s| - 1] in d then d else d + [s[|s| - 1]]
  }

  /** Where a value first appears. */
  function FirstIndex(s: seq<string>, x: string): (k: nat)
    requires x in s
    ensures k < |s| && s[k] == x && x !in s[..k]
  {
    if s[0] == x then 0 else 1 + FirstIndex(s[1..], x)
  }

  lemma {:induction false} FirstIndexInPrefix(s: seq<string>, n: nat, x: string)
    requires n <= |s| && x in s[..n]
    ensures FirstIndex(s[..n], x) == FirstIndex(s, x)
  {
    if s[0] != x {
      assert s[..n][1..] == s[1..][..n - 1];
      FirstIndexInPrefix(s[1..], n - 1, x);
    }
  }

  /** The deduplicated list holds every value of `s` exactly once, in the
      order of first appearance. */
  lemma {:induction false} DedupShape(s: seq<string>)
    ensures Distinct(Dedup(s))
    ensures forall x :: x in Dedup(s) <==> x in s
    ensures forall i, j :: 0 <= i < j < |Dedup(s)| ==> FirstIndex(s, Dedup(s)[i]) < FirstIndex(s, Dedup(s)[j])
  {
    if s != [] {
      var init, last := s[..|s| - 1], s[|s| - 1];
      DedupShape(init);
      var d := Dedup(init);
      assert s == init + [last];
      forall x | x in d
        ensures FirstIndex(s, x) == FirstIndex(init, x)
      {
        assert init == s[..|s| - 1];
        FirstIndexInPrefix(s, |s| - 1, x);
      }
      if last !in d {
        assert last !in init;
        assert FirstIndex(s, last) == |s| - 1;
      }
    }
  }

  /** `eventTypes`: `Todos` followed by the distinct event types. */
  function EventTypes(logs: seq<AuditEntry>): seq<string> {
    [AllTypes] + Dedup(seq(|logs|, i requires 0 <= i < |logs| => logs[i].eventType))
  }

  /** The type filter offers `Todos` and then each event type present in the
      log exactly once, in order of first appearance. */
  lemma EventTypesShape(logs: seq<AuditEntry>)
    ensures EventTypes(logs)[0] == AllTypes
    ensures EventTypes(logs)[1..] == Dedup(seq(|logs|, i requires 0 <= i < |logs| => logs[i].eventType))
    ensures Distinct(EventTypes(logs)[1..])
    ensures forall x :: x in EventTypes(logs)[1..] <==> exists l :: l in logs && l.eventType == x
  {
    var types := seq(|logs|, i requires 0 <= i < |logs| => logs[i].eventType);
    DedupShape(types);
    assert EventTypes(logs)[1..] == Dedup(types);
    forall x
      ensures x in types <==> exists l :: l in logs && l.eventType == x
    {
      if x in types {
        var i :| 0 <= i < |types| && types[i] == x;
        assert logs[i] in logs;
      }
      if exists l :: l in logs && l.eventType == x {
        var l :| l in logs && l.eventType == x;
        var i :| 0 <= i < |logs| && logs[i] == l;
        assert types[i] == x;
      }
    }
  }

  /** `getEventColor`'s colours. */
  const Green: string := "#22c55e"
  const Red: string := "#ef4444"
  const Blue: string := "#3b82f6"
  const Amber: string := "#f59e0b"
  const Purple: string := "#8b5cf6"
  const Grey: string := "#64748b"

  /** `getEventColor`: the if-chain over the lower-cased type. */
  function EventColor(eventType: string): string {
    var t := Lower(eventType);
    if Includes(t, "venta") || Includes(t, "completada") then Green
    else if Includes(t, "cancel") || Includes(t, "elimin") then Red
    else if Includes(t, "abono") || Includes(t, "pago") then Blue
    else if Includes(t, "inventario") || Includes(t, "stock") then Amber
    else if Includes(t, "pedido") then Purple
    else Grey
  }

  /** A colour rule: the words that select it, and the colour. */
  datatype Rule = Rule(words: seq<string>, color: string)

  /** The rules as a table, in the order they are tried. */
  const ColorRules: seq<Rule> := [
    Rule(["venta", "completada"], Green),
    Rule(["cancel", "elimin"], Red),
    Rule(["abono", "pago"], Blue),
    Rule(["inventario", "stock"], Amber),
    Rule(["pedido"], Purple)
  ]

  predicate AnyWord(t: string, words: seq<string>) {
    exists i :: 0 <= i < |words| && Includes(t, words[i])
  }

  /** The colour of the first rule one of whose words occurs in `t`. */
  function FirstMatch(rules: seq<Rule>, t: string, otherwise: string): string {
    if rules == [] then otherwise
    else if AnyWord(t, rules[0].words) then rules[0].color
    else FirstMatch(rules[1..], t, otherwise)
  }

  lemma AnyWordPair(t: string, a: string, b: string)
    ensures AnyWord(t, [a, b]) <==> Includes(t, a) || Includes(t, b)
  {
    assert [a, b][0] == a && [a, b][1] == b;
    if AnyWord(t, [a, b]) {
      var i :| 0 <= i < 2 && Includes(t, [a, b][i]);
      assert i == 0 || i == 1;
    }
  }

  /** The if-chain is the first-match lookup in the rule table: earlier rules win. */
  lemma EventColorIsFirstMatch(eventType: string)
    ensures EventColor(eventType) == FirstMatch(ColorRules, Lower(eventType), Grey)
  {
    var t := Lower(eventType);
    var r := ColorRules;
    AnyWordPair(t, "venta", "completada");
    AnyWordPair(t, "cancel", "elimin");
    AnyWordPair(t, "abono", "pago");
    AnyWordPair(t, "inventario", "stock");
    assert AnyWord(t, ["pedido"]) <==> Includes(t, "pedido") by {
      assert ["pedido"][0] == "pedido";
    }
    assert r[1..][1..][1..][1..][1..] == [];
    assert FirstMatch(r[1..][1..][1..][1..], t, Grey) == if Includes(t, "pedido") then Purple else Grey;
    assert FirstMatch(r[1..][1..][1..], t, Grey) ==
           if Includes(t, "inventario") || Includes(t, "stock") then Amber
           else FirstMatch(r[1..][1..][1..][1..], t, Grey);
    assert FirstMatch(r[1..][1..], t, Grey) ==
           if Includes(t, "abono") || Includes(t, "pago") then Blue
           else FirstMatch(r[1..][1..][1..], t, Grey);
    assert FirstMatch(r[1..], t, Grey) ==
           if Includes(t, "cancel") || Includes(t, "elimin") then Red
           else FirstMatch(r[1..][1..], t, Grey);
  }

  /** A type naming a sale takes the sales colour even when it also names a
      cancellation or deletion (`Cancelación de Venta`, `Eliminación de Venta`):
      the sales rule comes first in the table. */
  lemma SalesRuleWins(eventType: string)
    requires Includes(Lower(eventType), "venta")
    ensures FirstMatch(ColorRules, Lower(eventType), Grey) == Green
  {
    assert ColorRules[0].words[0] == "venta";
  }

  /** The sales screen's cancellation entry is shown in the sales colour,
      although its type names a cancellation. */
  lemma SaleCancellationShownAsSale()
    ensures Includes(Lower("Cancelación de Venta"), "cancel")
    ensures EventColor("Cancelación de Venta") == Green
  {
    var t := Lower("Cancelación de Venta");
    assert t[15..20] == "venta";
    IncludesAt(t, "venta", 15);
    assert t[0..6] == "cancel";
    IncludesAt(t, "cancel", 0);
  }

  /** The colouring with the cancellation and deletion rule tried first, so
      that every removal is shown red whatever it removed. */
  function EventColorCorrected(eventType: string): string {
    var t := Lower(eventType);
    if Includes(t, "cancel") || Includes(t, "elimin") then Red
    else if Includes(t, "venta") || Includes(t, "completada") then Green
    else if Includes(t, "abono") || Includes(t, "pago") then Blue
    else if Includes(t, "inventario") || Includes(t, "stock") then Amber
    else if Includes(t, "pedido") then Purple
    else Grey
  }

  /** With the corrected order a removal is red, and every other type keeps
      the colour the screen gives it. */
  lemma CorrectedColors(eventType: string)
    ensures Includes(Lower(eventType), "cancel") || Includes(Lower(eventType), "elimin") ==>
              EventColorCorrected(eventType) == Red
    ensures !(Includes(Lower(eventType), "cancel") || Includes(Lower(eventType), "elimin")) ==>
              EventColorCorrected(eventType) == EventColor(eventType)
  {
  }

  /** The sales screen's cancellation entry is red under the corrected order. */
  lemma SaleCancellationShownRed()
    ensures EventColorCorrected("Cancelación de Venta") == Red
  {
    var t := Lower("Cancelación de Venta");
    assert t[0..6] == "cancel";
    IncludesAt(t, "cancel", 0);
  }

  /** `logs.filter(l => l.id !== id)`. */
  function WithoutLog(logs: seq<AuditEntry>, id: Id): seq<AuditEntry> {
    Filter(logs, (l: AuditEntry) => l.id != id)
  }

  /** Deleting removes exactly the entries with that id and keeps the others
      in their order: it works piece by piece along the list. */
  lemma WithoutLogShape(a: seq<AuditEntry>, b: seq<AuditEntry>, id: Id, l: AuditEntry)
    ensures l in WithoutLog(a, id) <==> l in a && l.id != id
    ensures WithoutLog(a + b, id) == WithoutLog(a, id) + WithoutLog(b, id)
  {
    FilterMembers(a, (l: AuditEntry) => l.id != id, l);
    FilterAppend(a, b, (l: AuditEntry) => l.id != id);
  }

  datatype DeleteLogOutcome = NotMaster | DeleteFailed | LogDeleted(shown: seq<AuditEntry>)

  /** `handleDeleteLog`: any role but master is refused before the database
      is touched; otherwise the entry is deleted (a failure throws) and then
      dropped from the list on screen. */
  method DeleteLog(db: Ledger, role: Option<string>, shown: seq<AuditEntry>, id: Id, deleteOk: bool)
    returns (r: DeleteLogOutcome)
    modifies db
    ensures r == NotMaster <==> !IsMaster(role)
    ensures r == DeleteFailed <==> IsMaster(role) && !deleteOk
    ensures !r.LogDeleted? ==> db.t == old(db.t) && db.nextId == old(db.nextId)
    ensures r.LogDeleted? ==>
              && r.shown == WithoutLog(shown, id)
              && db.nextId == old(db.nextId)
              && db.t == old(db.t).(audit := WithoutLog(old(db.t.audit), id))
  {
    if !IsMaster(role) {
      r := NotMaster;
    } else if !deleteOk {
      r := DeleteFailed;
    } else {
      db.PutAudit(WithoutLog(db.t.audit, id));
      r := LogDeleted(WithoutLog(shown, id));
    }
  }
}
