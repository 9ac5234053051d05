/** The comanda tables, and why they are as good as a map from id to aggregate. */
module ComandaStore {
  import opened Wrappers
  import opened Rows
  import opened Tables
  import opened Comandas
  import ComandaRuns

  datatype ComandaRow = ComandaRow(
    comandaId: Id,
    numero: string,
    mesaId: Option<string>,
    atendimentoRef: Option<string>,
    status: ComandaStatus,
    currentOwnerUserId: Option<string>,
    openedAt: Time,
    closedAt: Option<Time>,
    cancelledAt: Option<Time>,
    cancellationReason: Option<string>,
    subtotalAmountCents: Cents,
    paidAmountCents: Cents,
    changeAmountCents: Cents,
    productionBatches: seq<ProductionBatch>)

  datatype PreContaRow = PreContaRow(
    preContaId: Id,
    version: nat,
    totalAmountCents: Cents,
    generatedAt: Time,
    snapshot: PreConta)

  datatype ComandaTables = ComandaTables(
    comandas: map<Id, ComandaRow>,
    items: Table<Item>,
    payments: Table<Payment>,
    preContas: Table<PreContaRow>)

  // ---------- the row mappings of a save ----------

  function ComandaRowOf(comanda: Comanda): ComandaRow {
    var totals := CalculateComandaTotals(comanda);
    ComandaRow(comanda.comandaId, comanda.numero, comanda.mesaId, comanda.atendimentoRef, comanda.status,
               comanda.currentOwnerUserId, comanda.openedAt, comanda.closedAt, comanda.cancelledAt,
               comanda.cancellationReason, totals.itemSubtotalCents, totals.paidAmountCents,
               totals.changeAmountCents, comanda.productionBatches)
  }

  function PreContaRowOf(p: PreConta): PreContaRow {
    PreContaRow(p.preContaId, p.version, p.totalAmountCents, p.generatedAt, p)
  }

  function PreContaRows(preContas: seq<PreConta>): (rows: seq<PreContaRow>)
    ensures |rows| == |preContas| && forall i :: 0 <= i < |rows| ==> rows[i] == PreContaRowOf(preContas[i])
  {
    seq(|preContas|, i requires 0 <= i < |preContas| => PreContaRowOf(preContas[i]))
  }

  function Snapshots(rows: seq<PreContaRow>): (preContas: seq<PreConta>)
    ensures |preContas| == |rows| && forall i :: 0 <= i < |rows| ==> preContas[i] == rows[i].snapshot
  {
    seq(|rows|, i requires 0 <= i < |rows| => rows[i].snapshot)
  }

  function PreContaRowKey(row: PreContaRow): Id { row.preContaId }
  function PreContaRowOrder(row: PreContaRow): (Time, Id) { (row.version, 0) }

  /** The item upsert leaves `created_at` as it was. */
  function MergeItem(there: Item, given: Item): Item { given.(createdAt := there.createdAt) }
  function MergePayment(there: Payment, given: Payment): Payment { given }
  function MergePreConta(there: PreContaRow, given: PreContaRow): PreContaRow { given }

  function Save(t: ComandaTables, c: Comanda): ComandaTables {
    ComandaTables(
      t.comandas[c.comandaId := ComandaRowOf(c)],
      UpsertAll(t.items, c.comandaId, c.items, ItemKey, MergeItem),
      UpsertAll(t.payments, c.comandaId, c.payments, PaymentKey, MergePayment),
      UpsertAll(t.preContas, c.comandaId, PreContaRows(c.preContas), PreContaRowKey, MergePreConta))
  }

  /** `findById` followed by `mapPersistedComandaAggregate`. */
  ghost function FindById(t: ComandaTables, comandaId: Id): Option<Comanda> {
    if comandaId !in t.comandas then None
    else
      var row := t.comandas[comandaId];
      Some(Comanda(row.comandaId, row.numero, row.mesaId, row.atendimentoRef, None, row.status, row.openedAt,
                   row.currentOwnerUserId, row.cancelledAt, row.cancellationReason, row.closedAt,
                   OrderBy(Select(t.items, comandaId), ItemOrder),
                   OrderBy(Select(t.payments, comandaId), PaymentOrder),
                   Snapshots(OrderBy(Select(t.preContas, comandaId), PreContaRowOrder)),
                   row.productionBatches))
  }

  // ---------- the refinement ----------

  function ItemLists(m: map<Id, Comanda>): map<Id, seq<Item>> { map id | id in m :: m[id].items }
  function PaymentLists(m: map<Id, Comanda>): map<Id, seq<Payment>> { map id | id in m :: m[id].payments }
  function PreContaLists(m: map<Id, Comanda>): map<Id, seq<PreContaRow>> { map id | id in m :: PreContaRows(m[id].preContas) }

  /** The tables hold exactly the last saved aggregates. */
  ghost predicate Refines(t: ComandaTables, m: map<Id, Comanda>) {
    && HeadsMatch(t.comandas, m)
    && Holds(t.items, ItemLists(m), ItemKey)
    && Holds(t.payments, PaymentLists(m), PaymentKey)
    && Holds(t.preContas, PreContaLists(m), PreContaRowKey)
  }

  ghost predicate HeadsMatch(rows: map<Id, ComandaRow>, m: map<Id, Comanda>) {
    && rows.Keys == m.Keys
    && forall id :: id in m ==> m[id].comandaId == id && rows[id] == ComandaRowOf(m[id]) && ComandaRuns.Storable(m[id])
  }

  lemma FindsTheRows(t: ComandaTables, m: map<Id, Comanda>, id: Id)
    requires Refines(t, m) && id in m
    ensures FindById(t, id) == Some(Reload(m[id]))
    ensures Reload(m[id]).preContas == m[id].preContas
  {
    SelectsOwnRows(t.items, ItemLists(m), ItemKey, id);
    SelectsOwnRows(t.payments, PaymentLists(m), PaymentKey, id);
    SelectsOwnRows(t.preContas, PreContaLists(m), PreContaRowKey, id);
    PreContasInOrder(m[id].preContas);
    ComandaRuns.ReloadKeepsRowsOf(m[id]);
  }

  lemma PreContasInOrder(preContas: seq<PreConta>)
    requires ComandaRuns.Versioned(preContas)
    ensures Snapshots(OrderBy(Members(PreContaRows(preContas)), PreContaRowOrder)) == preContas
  {
    var rows := PreContaRows(preContas);
    forall i, j | 0 <= i < j < |rows| ensures !Before(PreContaRowOrder(rows[j]), PreContaRowOrder(rows[i])) {
      assert preContas[i].version == i + 1 && preContas[j].version == j + 1;
    }
    OrderByIdentity(rows, PreContaRowOrder);
  }

  /** What a reload gives back: the last saved aggregate up to the order of items and payments,
      with its pre-contas in order; the amount columns are the totals of what is read back. */
  lemma FindsTheSaved(t: ComandaTables, m: map<Id, Comanda>, id: Id)
    requires Refines(t, m)
    ensures FindById(t, id) == if id in m then Some(Reload(m[id])) else None
    ensures id in m ==>
              var found := FindById(t, id).value;
              && multiset(found.items) == multiset(m[id].items)
              && multiset(found.payments) == multiset(m[id].payments)
              && found == m[id].(cashCheckoutRequestedAt := None, items := found.items, payments := found.payments)
              && t.comandas[id].subtotalAmountCents == CalculateComandaTotals(found).itemSubtotalCents
              && t.comandas[id].paidAmountCents == CalculateComandaTotals(found).paidAmountCents
              && t.comandas[id].changeAmountCents == CalculateComandaTotals(found).changeAmountCents
  {
    if id in m {
      FindsTheRows(t, m, id);
      ComandaRuns.ReloadKeepsRowsOf(m[id]);
      ComandaRuns.ReorderKeepsSums(m[id], Reload(m[id]));
    }
  }

  /** A comanda that may be saved over the stored ones: it keeps every row it had, with the same
      creation times, and shares no row id with another comanda. */
  ghost predicate Saveable(m: map<Id, Comanda>, c: Comanda) {
    && ComandaRuns.Storable(c)
    && DistinctBy(PreContaRows(c.preContas), PreContaRowKey)
    && (c.comandaId in m ==> Extends(m[c.comandaId], c))
    && (forall id :: id in m && id != c.comandaId ==> Apart(m[id], c))
  }

  ghost predicate Extends(before: Comanda, c: Comanda) {
    && Covers(before.items, c.items, ItemKey, MergeItem)
    && Covers(before.payments, c.payments, PaymentKey, MergePayment)
    && Covers(PreContaRows(before.preContas), PreContaRows(c.preContas), PreContaRowKey, MergePreConta)
  }

  ghost predicate Apart(a: Comanda, b: Comanda) {
    && KeysApart(a.items, b.items, ItemKey)
    && KeysApart(a.payments, b.payments, PaymentKey)
    && KeysApart(PreContaRows(a.preContas), PreContaRows(b.preContas), PreContaRowKey)
  }

  lemma ItemsSaved(table: Table<Item>, m: map<Id, Comanda>, c: Comanda)
    requires Holds(table, ItemLists(m), ItemKey) && DistinctBy(c.items, ItemKey)
    requires c.comandaId in m ==> Covers(m[c.comandaId].items, c.items, ItemKey, MergeItem)
    requires forall id :: id in m && id != c.comandaId ==> KeysApart(m[id].items, c.items, ItemKey)
    ensures Holds(UpsertAll(table, c.comandaId, c.items, ItemKey, MergeItem), ItemLists(m[c.comandaId := c]), ItemKey)
  {
    hide Holds, UpsertAll, Covers, KeysApart, DistinctBy;
    SaveList(table, ItemLists(m), c.comandaId, c.items, ItemKey, MergeItem);
    assert ItemLists(m[c.comandaId := c]) == ItemLists(m)[c.comandaId := c.items];
  }

  lemma PaymentsSaved(table: Table<Payment>, m: map<Id, Comanda>, c: Comanda)
    requires Holds(table, PaymentLists(m), PaymentKey) && DistinctBy(c.payments, PaymentKey)
    requires c.comandaId in m ==> Covers(m[c.comandaId].payments, c.payments, PaymentKey, MergePayment)
    requires forall id :: id in m && id != c.comandaId ==> KeysApart(m[id].payments, c.payments, PaymentKey)
    ensures Holds(UpsertAll(table, c.comandaId, c.payments, PaymentKey, MergePayment), PaymentLists(m[c.comandaId := c]), PaymentKey)
  {
    hide Holds, UpsertAll, Covers, KeysApart, DistinctBy;
    SaveList(table, PaymentLists(m), c.comandaId, c.payments, PaymentKey, MergePayment);
    assert PaymentLists(m[c.comandaId := c]) == PaymentLists(m)[c.comandaId := c.payments];
  }

  lemma PreContasSaved(table: Table<PreContaRow>, m: map<Id, Comanda>, c: Comanda)
    requires Holds(table, PreContaLists(m), PreContaRowKey) && DistinctBy(PreContaRows(c.preContas), PreContaRowKey)
    requires c.comandaId in m ==>
               Covers(PreContaRows(m[c.comandaId].preContas), PreContaRows(c.preContas), PreContaRowKey, MergePreConta)
    requires forall id :: id in m && id != c.comandaId ==>
               KeysApart(PreContaRows(m[id].preContas), PreContaRows(c.preContas), PreContaRowKey)
    ensures Holds(UpsertAll(table, c.comandaId, PreContaRows(c.preContas), PreContaRowKey, MergePreConta),
                  PreContaLists(m[c.comandaId := c]), PreContaRowKey)
  {
    hide PreContaRows, Holds, UpsertAll, Covers, KeysApart, DistinctBy;
    SaveList(table, PreContaLists(m), c.comandaId, PreContaRows(c.preContas), PreContaRowKey, MergePreConta);
    assert PreContaLists(m[c.comandaId := c]) == PreContaLists(m)[c.comandaId := PreContaRows(c.preContas)];
  }

  lemma HeadsSaved(rows: map<Id, ComandaRow>, m: map<Id, Comanda>, c: Comanda)
    requires HeadsMatch(rows, m) && ComandaRuns.Storable(c)
    ensures HeadsMatch(rows[c.comandaId := ComandaRowOf(c)], m[c.comandaId := c])
  {
  }

  /** Saving refines a map update: other comandas are untouched. */
  lemma SaveRefines(t: ComandaTables, m: map<Id, Comanda>, c: Comanda)
    requires Refines(t, m) && Saveable(m, c)
    ensures Refines(Save(t, c), m[c.comandaId := c])
  {
    HeadsSaved(t.comandas, m, c);
    assert forall id :: id in m && id != c.comandaId ==> Apart(m[id], c);
    ItemsSaved(t.items, m, c);
    PaymentsSaved(t.payments, m, c);
    PreContasSaved(t.preContas, m, c);
  }

  /** After any sequence of saves, each reload gives the last aggregate saved under its id. */
  ghost function SaveAll(t: ComandaTables, saves: seq<Comanda>): ComandaTables {
    if saves == [] then t else Save(SaveAll(t, saves[..|saves| - 1]), saves[|saves| - 1])
  }

  ghost function LastSaved(m: map<Id, Comanda>, saves: seq<Comanda>): map<Id, Comanda> {
    if saves == [] then m
    else LastSaved(m, saves[..|saves| - 1])[saves[|saves| - 1].comandaId := saves[|saves| - 1]]
  }

  ghost predicate AllSaveable(m: map<Id, Comanda>, saves: seq<Comanda>) {
    saves == [] || (AllSaveable(m, saves[..|saves| - 1]) && Saveable(LastSaved(m, saves[..|saves| - 1]), saves[|saves| - 1]))
  }

  lemma {:induction false} AnySavesRefine(t: ComandaTables, m: map<Id, Comanda>, saves: seq<Comanda>)
    requires Refines(t, m) && AllSaveable(m, saves)
    ensures Refines(SaveAll(t, saves), LastSaved(m, saves))
  {
    if saves != [] {
      AnySavesRefine(t, m, saves[..|saves| - 1]);
      SaveRefines(SaveAll(t, saves[..|saves| - 1]), LastSaved(m, saves[..|saves| - 1]), saves[|saves| - 1]);
    }
  }

  /** No two rows of a comanda share an ORDER BY key. */
  lemma RowsKeyed(t: ComandaTables, m: map<Id, Comanda>, id: Id)
    requires Refines(t, m) && id in m
    ensures Keyed(Select(t.items, id), ItemOrder)
    ensures Keyed(Select(t.payments, id), PaymentOrder)
    ensures Keyed(Select(t.preContas, id), PreContaRowOrder)
  {
    SelectsOwnRows(t.items, ItemLists(m), ItemKey, id);
    SelectsOwnRows(t.payments, PaymentLists(m), PaymentKey, id);
    SelectsOwnRows(t.preContas, PreContaLists(m), PreContaRowKey, id);
    DistinctKeyed(m[id].items, ItemKey, ItemOrder);
    DistinctKeyed(m[id].payments, PaymentKey, PaymentOrder);
    VersionsKeyed(m[id].preContas);
  }

  lemma VersionsKeyed(preContas: seq<PreConta>)
    requires ComandaRuns.Versioned(preContas)
    ensures Keyed(Members(PreContaRows(preContas)), PreContaRowOrder)
  {
    var rows := PreContaRows(preContas);
    forall x, y | x in Members(rows) && y in Members(rows) && PreContaRowOrder(x) == PreContaRowOrder(y) ensures x == y {
      var i, j := IndexOf(rows, x), IndexOf(rows, y);
      assert preContas[i].version == i + 1 && preContas[j].version == j + 1;
    }
  }
}
