/** What every run of service calls keeps: row ids stay apart, drawers and comandas stay unique, and
    each save is one the tables accept. */
module PdvRuns {
  import opened Wrappers
  import opened Rows
  import opened Text
  import opened Tables
  import opened Comandas
  import opened Cash
  import opened PrintSpool
  import opened PdvBooks
  import ComandaRuns
  import CashRuns
  import PrintRuns
  import ComandaStore
  import CashStore

  // ---------- what a change does to the rows of one comanda ----------

  function PreContaKey(p: PreConta): Id { p.preContaId }

  /** An item keeps what was ordered; it gains a batch only by being sent. */
  predicate Successor(y: Item, x: Item, sent: Option<Id>) {
    && x.itemId == y.itemId && x.createdAt == y.createdAt && x.produtoId == y.produtoId && x.setor == y.setor
    && x.productLabel == y.productLabel && x.quantity == y.quantity && x.unitPriceCents == y.unitPriceCents && x.note == y.note
    && (x.productionBatchId == y.productionBatchId
        || (y.productionBatchId.None? && sent.Some? && x.productionBatchId == sent))
  }

  ghost predicate HasSuccessor(y: Item, items: seq<Item>, sent: Option<Id>) {
    exists x :: x in items && Successor(y, x, sent)
  }

  ghost predicate HasAncestor(x: Item, items: seq<Item>, sent: Option<Id>) {
    exists y :: y in items && Successor(y, x, sent)
  }

  /** Every item lives on and the only new one is a pending item with the new id. */
  ghost predicate ItemsGrow(before: seq<Item>, after: seq<Item>, added: Option<Id>, sent: Option<Id>) {
    && (forall y :: y in before ==> HasSuccessor(y, after, sent))
    && (forall x :: x in after ==>
          HasAncestor(x, before, sent) || (Some(x.itemId) == added && x.productionBatchId.None?))
  }

  function AddedItem(change: ComandaRuns.Operation): Option<Id> {
    if change.Add? then Some(change.itemId) else None
  }

  function SentBatch(change: ComandaRuns.Operation): Option<Id> {
    if change.Send? then Some(change.batchId) else None
  }

  /** Item by item in place: same position, same ticket data. */
  lemma ItemsGrowInPlace(before: seq<Item>, after: seq<Item>, added: Option<Id>, sent: Option<Id>)
    requires |before| <= |after|
    requires forall i :: 0 <= i < |before| ==> Successor(before[i], after[i], sent)
    requires forall i :: |before| <= i < |after| ==> Some(after[i].itemId) == added && after[i].productionBatchId.None?
    ensures ItemsGrow(before, after, added, sent)
  {
    forall y | y in before ensures HasSuccessor(y, after, sent) {
      var i := IndexOf(before, y);
      assert after[i] in after;
    }
    forall x | x in after && !(Some(x.itemId) == added && x.productionBatchId.None?) ensures HasAncestor(x, before, sent) {
      var i := IndexOf(after, x);
      assert before[i] in before;
    }
  }

  lemma GrowAfterReload(stored: seq<Item>, loaded: seq<Item>, after: seq<Item>, added: Option<Id>, sent: Option<Id>)
    requires multiset(stored) == multiset(loaded) && ItemsGrow(loaded, after, added, sent)
    ensures ItemsGrow(stored, after, added, sent)
  {
    PermutationMembers(stored, loaded);
    forall x | x in after && HasAncestor(x, loaded, sent) ensures HasAncestor(x, stored, sent) {
      var y :| y in loaded && Successor(y, x, sent);
      assert y in stored;
    }
  }

  /** The ids a change adds to the comanda. */
  function AddedPayments(change: ComandaRuns.Operation): seq<Id> {
    if change.Checkout? && |change.payments| == 1 then [change.payments[0].paymentId] else []
  }

  function AddedPreConta(change: ComandaRuns.Operation): Option<Id> {
    if change.Bill? then Some(change.preContaId) else None
  }

  /** Everything a stored comanda keeps when a change is saved over it. */
  ghost predicate Grows(before: Comanda, after: Comanda, change: ComandaRuns.Operation) {
    && after.comandaId == before.comandaId && after.numero == before.numero
    && ItemsGrow(before.items, after.items, AddedItem(change), SentBatch(change))
    && (forall p :: p in before.payments ==> p in after.payments)
    && (forall p :: p in after.payments ==> p in before.payments || p.paymentId in AddedPayments(change))
    && before.preContas <= after.preContas
    && (forall i :: |before.preContas| <= i < |after.preContas| ==> Some(after.preContas[i].preContaId) == AddedPreConta(change))
    && |after.preContas| <= |before.preContas| + 1
    && before.productionBatches <= after.productionBatches
    && (forall i :: |before.productionBatches| <= i < |after.productionBatches| ==>
          Some(after.productionBatches[i].batchId) == SentBatch(change))
    && (Active(after) ==> Active(before))
  }

  /** One payment is made at a time. */
  predicate OnePayment(change: ComandaRuns.Operation) {
    change.Checkout? ==> |change.payments| == 1
  }

  ghost predicate FreshItem(c: Comanda, change: ComandaRuns.Operation) {
    change.Add? ==> forall x :: x in c.items ==> x.itemId != change.itemId
  }

  lemma LoadedOk(c: Comanda, change: ComandaRuns.Operation)
    requires ComandaRuns.Inv(c) && FreshItem(c, change) && OnePayment(change)
    ensures ComandaRuns.Inv(Reload(c)) && ComandaRuns.FreshIds(Reload(c), change)
    ensures multiset(Reload(c).items) == multiset(c.items) && multiset(Reload(c).payments) == multiset(c.payments)
    ensures Reload(c).preContas == c.preContas
  {
    ComandaRuns.ReloadKeepsRowsOf(c);
    ComandaRuns.ReorderKeepsInv(c, Reload(c));
    PermutationMembers(Reload(c).items, c.items);
  }

  lemma ChangedKeepsInv(c: Comanda, change: ComandaRuns.Operation)
    requires ComandaRuns.Inv(c) && FreshItem(c, change) && OnePayment(change)
    ensures ComandaRuns.Inv(Changed(c, change))
  {
    LoadedOk(c, change);
    ComandaRuns.StepKeepsInv(Reload(c), change);
  }

  lemma ItemsStay(items: seq<Item>)
    ensures ItemsGrow(items, items, None, None)
  {
    ItemsGrowInPlace(items, items, None, None);
  }

  /** The items after an addition: the old ones, and one pending item with the new id. */
  lemma AddedInPlace(c: Comanda, change: ComandaRuns.Operation)
    requires change.Add? && ComandaRuns.Apply(c, change).Ok?
    ensures var after := ComandaRuns.Apply(c, change).value.comanda;
            && after == c.(items := after.items) && |after.items| == |c.items| + 1 && c.items <= after.items
            && after.items[|c.items|].itemId == change.itemId && after.items[|c.items|].productionBatchId.None?
  {
    hide Trim;
  }

  lemma AddGrows(c: Comanda, change: ComandaRuns.Operation)
    requires change.Add?
    ensures Grows(c, ComandaRuns.Step(c, change), change)
  {
    hide ComandaRuns.Apply, ItemsGrow;
    if ComandaRuns.Apply(c, change).Ok? {
      AddedInPlace(c, change);
    }
    ItemsGrowInPlace(c.items, ComandaRuns.Step(c, change).items, AddedItem(change), None);
  }

  /** The items after a cancellation: the same ones, one of them with another status and reason. */
  lemma CancelledInPlace(c: Comanda, change: ComandaRuns.Operation)
    requires change.CancelItem? && ComandaRuns.Apply(c, change).Ok?
    ensures var after := ComandaRuns.Apply(c, change).value.comanda;
            && after == c.(items := after.items) && |after.items| == |c.items|
            && forall i :: 0 <= i < |c.items| ==> Successor(c.items[i], after.items[i], None)
  {
    hide Trim;
  }

  lemma CancelGrows(c: Comanda, change: ComandaRuns.Operation)
    requires change.CancelItem?
    ensures Grows(c, ComandaRuns.Step(c, change), change)
  {
    hide ComandaRuns.Apply, ItemsGrow;
    if ComandaRuns.Apply(c, change).Ok? {
      CancelledInPlace(c, change);
    }
    ItemsGrowInPlace(c.items, ComandaRuns.Step(c, change).items, None, None);
  }

  lemma SendGrowsItems(items: seq<Item>, batchId: Id, at: Time)
    requires forall x :: x in items && x.status.Lancado? ==> x.productionBatchId.None?
    ensures ItemsGrow(items, SendAll(items, batchId, at), None, Some(batchId))
  {
    var after := SendAll(items, batchId, at);
    forall i | 0 <= i < |items| ensures Successor(items[i], after[i], Some(batchId)) {
      assert items[i] in items;
    }
    ItemsGrowInPlace(items, after, None, Some(batchId));
  }

  lemma SendGrows(c: Comanda, change: ComandaRuns.Operation)
    requires ComandaRuns.Inv(c) && change.Send?
    ensures Grows(c, ComandaRuns.Step(c, change), change)
  {
    hide ItemsGrow, SendAll, FirstOccurrences, PendingId, PendingSetor;
    SendGrowsItems(c.items, change.batchId, change.at);
    ItemsStaySent(c.items, change.batchId);
  }

  lemma ItemsStaySent(items: seq<Item>, batchId: Id)
    ensures ItemsGrow(items, items, None, Some(batchId))
  {
    ItemsGrowInPlace(items, items, None, Some(batchId));
  }

  lemma CheckoutGrows(c: Comanda, change: ComandaRuns.Operation)
    requires change.Checkout? && OnePayment(change)
    ensures Grows(c, ComandaRuns.Step(c, change), change)
  {
    hide CalculateComandaTotals, Paid, CashTendered, ItemsGrow;
    ItemsStay(c.items);
    var after := ComandaRuns.Step(c, change);
    if ComandaRuns.Apply(c, change).Ok? {
      var created := CreatePayments(change.payments, change.at).value;
      assert created == [created[0]] && created[0].paymentId == change.payments[0].paymentId;
      assert after.payments == c.payments + created;
    }
  }

  /** A change of status, of times or of the pre-contas. */
  lemma StatusGrows(c: Comanda, change: ComandaRuns.Operation)
    requires change.Bill? || change.RequestCash? || change.Reopen? || change.Cancel?
    ensures Grows(c, ComandaRuns.Step(c, change), change)
  {
    hide CalculateComandaTotals, Lines, Subtotal, ItemsGrow;
    ItemsStay(c.items);
  }

  lemma ChangeGrows(c: Comanda, change: ComandaRuns.Operation)
    requires ComandaRuns.Inv(c) && !change.Store? && OnePayment(change)
    ensures Grows(c, ComandaRuns.Step(c, change), change)
  {
    hide *;
    match change
    case Add(_, _, _, _, _, _, _, _) => AddGrows(c, change);
    case CancelItem(_, _, _) => CancelGrows(c, change);
    case Send(_, _) => SendGrows(c, change);
    case Checkout(_, _) => CheckoutGrows(c, change);
    case Bill(_, _) => StatusGrows(c, change);
    case RequestCash(_) => StatusGrows(c, change);
    case Reopen => StatusGrows(c, change);
    case Cancel(_, _) => StatusGrows(c, change);
  }

  lemma ChangedGrows(c: Comanda, change: ComandaRuns.Operation)
    requires ComandaRuns.Inv(c) && FreshItem(c, change) && OnePayment(change) && !change.Store?
    ensures Grows(c, Changed(c, change), change)
  {
    LoadedOk(c, change);
    ChangeGrows(Reload(c), change);
    GrowAfterReload(c.items, Reload(c).items, Changed(c, change).items, AddedItem(change), SentBatch(change));
    PermutationMembers(Reload(c).payments, c.payments);
  }

  // ---------- the invariant: rows and ids ----------

  predicate OwnedBy(issued: map<Id, Id>, id: Id, owner: Id) {
    id in issued && issued[id] == owner
  }

  /** A comanda with its own rows only. */
  ghost predicate ComandaOk(c: Comanda, id: Id, issued: map<Id, Id>) {
    && id in issued && c.comandaId == id && ComandaRuns.Inv(c)
    && (forall x :: x in c.items ==> OwnedBy(issued, x.itemId, id))
    && (forall p :: p in c.payments ==> OwnedBy(issued, p.paymentId, id))
    && (forall i :: 0 <= i < |c.preContas| ==> OwnedBy(issued, c.preContas[i].preContaId, id))
    && (forall i :: 0 <= i < |c.productionBatches| ==> OwnedBy(issued, c.productionBatches[i].batchId, id))
    && DistinctBy(c.preContas, PreContaKey)
  }

  ghost predicate SessionOk(s: Session, id: Id, issued: map<Id, Id>) {
    && id in issued && s.cashSessionId == id && CashRuns.Inv(s)
    && (forall m :: m in s.movements ==> OwnedBy(issued, m.movementId, id))
  }

  ghost predicate ComandasOk(comandas: map<Id, Comanda>, issued: map<Id, Id>) {
    forall id :: id in comandas ==> ComandaOk(comandas[id], id, issued)
  }

  ghost predicate SessionsOk(sessions: map<Id, Session>, issued: map<Id, Id>) {
    forall id :: id in sessions ==> SessionOk(sessions[id], id, issued)
  }

  ghost predicate SpoolOk(jobs: Spool, issued: map<Id, Id>) {
    && PrintRuns.Inv(jobs)
    && (forall j :: 0 <= j < |jobs| ==>
          && jobs[j].printJobId in issued
          && (jobs[j].dedupKey.ProductionKey? ==> jobs[j].dedupKey.batchId in issued))
  }

  ghost predicate Extended(issued: map<Id, Id>, later: map<Id, Id>) {
    forall id :: id in issued ==> id in later && later[id] == issued[id]
  }

  /** The ids a change adds are new and belong to the comanda. */
  ghost predicate Mints(issued: map<Id, Id>, later: map<Id, Id>, id: Id, change: ComandaRuns.Operation) {
    && Extended(issued, later)
    && (AddedItem(change).Some? ==> AddedItem(change).value !in issued && OwnedBy(later, AddedItem(change).value, id))
    && (AddedPreConta(change).Some? ==> AddedPreConta(change).value !in issued && OwnedBy(later, AddedPreConta(change).value, id))
    && (SentBatch(change).Some? ==> SentBatch(change).value !in issued && OwnedBy(later, SentBatch(change).value, id))
    && (forall p :: p in AddedPayments(change) ==> p !in issued && OwnedBy(later, p, id))
  }

  lemma ComandaStaysOk(c: Comanda, id: Id, issued: map<Id, Id>, later: map<Id, Id>)
    requires ComandaOk(c, id, issued) && Extended(issued, later)
    ensures ComandaOk(c, id, later)
  {
    hide ComandaRuns.Inv;
  }

  lemma SessionStaysOk(s: Session, id: Id, issued: map<Id, Id>, later: map<Id, Id>)
    requires SessionOk(s, id, issued) && Extended(issued, later)
    ensures SessionOk(s, id, later)
  {
    hide CashRuns.Inv;
  }

  lemma ComandasUpdated(comandas: map<Id, Comanda>, issued: map<Id, Id>, later: map<Id, Id>, id: Id, after: Comanda)
    requires ComandasOk(comandas, issued) && Extended(issued, later) && ComandaOk(after, id, later)
    ensures ComandasOk(comandas[id := after], later)
  {
    hide ComandaOk;
    forall k | k in comandas && k != id ensures ComandaOk(comandas[k], k, later) {
      ComandaStaysOk(comandas[k], k, issued, later);
    }
  }

  lemma SessionsUpdated(sessions: map<Id, Session>, issued: map<Id, Id>, later: map<Id, Id>, id: Id, after: Session)
    requires SessionsOk(sessions, issued) && Extended(issued, later) && SessionOk(after, id, later)
    ensures SessionsOk(sessions[id := after], later)
  {
    hide SessionOk;
    forall k | k in sessions && k != id ensures SessionOk(sessions[k], k, later) {
      SessionStaysOk(sessions[k], k, issued, later);
    }
  }

  lemma GrownItems(c: Comanda, after: Comanda, id: Id, issued: map<Id, Id>, later: map<Id, Id>, change: ComandaRuns.Operation)
    requires ComandaOk(c, id, issued) && Mints(issued, later, id, change)
    requires ItemsGrow(c.items, after.items, AddedItem(change), SentBatch(change))
    ensures forall x :: x in after.items ==> OwnedBy(later, x.itemId, id)
  {
    hide ComandaRuns.Inv;
    forall x | x in after.items ensures OwnedBy(later, x.itemId, id) {
      if HasAncestor(x, c.items, SentBatch(change)) {
        var y :| y in c.items && Successor(y, x, SentBatch(change));
      }
    }
  }

  lemma GrownPreContas(c: Comanda, after: Comanda, id: Id, issued: map<Id, Id>, later: map<Id, Id>, change: ComandaRuns.Operation)
    requires ComandaOk(c, id, issued) && Mints(issued, later, id, change) && Grows(c, after, change)
    ensures forall i :: 0 <= i < |after.preContas| ==> OwnedBy(later, after.preContas[i].preContaId, id)
    ensures DistinctBy(after.preContas, PreContaKey)
  {
    hide ComandaRuns.Inv, ItemsGrow;
    var before, now := c.preContas, after.preContas;
    forall i | 0 <= i < |now| ensures OwnedBy(later, now[i].preContaId, id) {
      assert i < |before| ==> now[i] == before[i];
    }
    forall i, j | 0 <= i < j < |now| ensures PreContaKey(now[i]) != PreContaKey(now[j]) {
      assert now[i] == before[i];
      assert j < |before| ==> now[j] == before[j];
    }
  }

  lemma GrownOk(c: Comanda, after: Comanda, id: Id, issued: map<Id, Id>, later: map<Id, Id>, change: ComandaRuns.Operation)
    requires ComandaOk(c, id, issued) && Mints(issued, later, id, change)
    requires ComandaRuns.Inv(after) && Grows(c, after, change)
    ensures ComandaOk(after, id, later)
  {
    hide ComandaRuns.Inv, ItemsGrow;
    GrownItems(c, after, id, issued, later, change);
    GrownPreContas(c, after, id, issued, later, change);
    forall i | 0 <= i < |after.productionBatches| ensures OwnedBy(later, after.productionBatches[i].batchId, id) {
      assert i < |c.productionBatches| ==> after.productionBatches[i] == c.productionBatches[i];
    }
  }

  /** A stored comanda changed by a call is again a comanda with its own rows. */
  lemma ChangedOk(c: Comanda, id: Id, issued: map<Id, Id>, later: map<Id, Id>, change: ComandaRuns.Operation)
    requires ComandaOk(c, id, issued) && Mints(issued, later, id, change) && OnePayment(change) && !change.Store?
    ensures ComandaOk(Changed(c, change), id, later)
    ensures FreshItem(c, change) && Grows(c, Changed(c, change), change)
  {
    hide ComandaRuns.Inv, Changed, Grows;
    assert FreshItem(c, change);
    ChangedKeepsInv(c, change);
    ChangedGrows(c, change);
    GrownOk(c, Changed(c, change), id, issued, later, change);
  }

  lemma MovedOk(s: Session, id: Id, issued: map<Id, Id>, later: map<Id, Id>, move: CashRuns.Operation)
    requires SessionOk(s, id, issued) && Extended(issued, later) && !move.Store?
    requires CashRuns.Moves(move) ==> move.movementId !in issued && OwnedBy(later, move.movementId, id)
    ensures SessionOk(Moved(s, move), id, later)
  {
    var loaded := ReloadSession(s);
    CashRuns.ReloadKeepsMovements(s);
    PermutationMembers(s.movements, loaded.movements);
    assert CashRuns.FreshIds(loaded, move);
    CashRuns.StepKeepsInv(loaded, move);
    MoveAddsOne(loaded, move);
  }

  /** What an accepted cash operation adds to the movements: at most one, with the call's id. */
  lemma MoveAddsOne(s: Session, move: CashRuns.Operation)
    requires !move.Store?
    ensures var after := CashRuns.Step(s, move);
            && after.cashSessionId == s.cashSessionId && after.terminalId == s.terminalId
            && after.openingFundAmountCents == s.openingFundAmountCents
            && (!after.status.Fechado? ==> !s.status.Fechado?)
            && (if CashRuns.Moves(move) && CashRuns.Apply(s, move).Ok?
                then |after.movements| == |s.movements| + 1 && after.movements == s.movements + [after.movements[|s.movements|]]
                     && after.movements[|s.movements|].movementId == move.movementId
                else after.movements == s.movements)
  {
    hide Expected, TotalsByMethod, TotalsOf, CountsValid;
  }

  // ---------- every save is one the tables accept ----------

  lemma SaveAccepted(comandas: map<Id, Comanda>, id: Id, after: Comanda, issued: map<Id, Id>, later: map<Id, Id>,
                     change: ComandaRuns.Operation)
    requires ComandasOk(comandas, issued) && id in comandas && Mints(issued, later, id, change)
    requires ComandaOk(after, id, later) && Grows(comandas[id], after, change)
    ensures ComandaStore.Saveable(comandas, after)
  {
    SaveExtends(comandas[id], after, change);
    forall k | k in comandas && k != id ensures ComandaStore.Apart(comandas[k], after) {
      ComandaStaysOk(comandas[k], k, issued, later);
      RowsApart(comandas[k], k, after, id, later);
    }
    DistinctPreContaRows(after);
  }

  lemma DistinctPreContaRows(c: Comanda)
    requires DistinctBy(c.preContas, PreContaKey)
    ensures DistinctBy(ComandaStore.PreContaRows(c.preContas), ComandaStore.PreContaRowKey)
  {
    var rows := ComandaStore.PreContaRows(c.preContas);
    forall i, j | 0 <= i < j < |rows| ensures ComandaStore.PreContaRowKey(rows[i]) != ComandaStore.PreContaRowKey(rows[j]) {
      assert PreContaKey(c.preContas[i]) != PreContaKey(c.preContas[j]);
    }
  }

  lemma RowsApart(a: Comanda, ida: Id, b: Comanda, idb: Id, issued: map<Id, Id>)
    requires ComandaOk(a, ida, issued) && ComandaOk(b, idb, issued) && ida != idb
    ensures ComandaStore.Apart(a, b)
  {
    hide ComandaRuns.Inv;
  }

  lemma SaveExtends(before: Comanda, after: Comanda, change: ComandaRuns.Operation)
    requires Grows(before, after, change)
    ensures ComandaStore.Extends(before, after)
  {
    forall x | x in before.items
      ensures exists y :: y in after.items && ItemKey(y) == ItemKey(x) && ComandaStore.MergeItem(x, y) == y {
      var y :| y in after.items && Successor(x, y, SentBatch(change));
      assert ItemKey(y) == ItemKey(x) && ComandaStore.MergeItem(x, y) == y;
    }
    var rows, kept := ComandaStore.PreContaRows(after.preContas), ComandaStore.PreContaRows(before.preContas);
    forall x | x in kept
      ensures exists y :: y in rows && ComandaStore.PreContaRowKey(y) == ComandaStore.PreContaRowKey(x) && ComandaStore.MergePreConta(x, y) == y {
      var i := IndexOf(kept, x);
      assert rows[i] == x && rows[i] in rows;
    }
    forall p | p in before.payments
      ensures exists y :: y in after.payments && PaymentKey(y) == PaymentKey(p) && ComandaStore.MergePayment(p, y) == y {
      assert p in after.payments && ComandaStore.MergePayment(p, p) == p;
    }
  }

  lemma SessionSaveAccepted(sessions: map<Id, Session>, id: Id, move: CashRuns.Operation, issued: map<Id, Id>, later: map<Id, Id>)
    requires SessionsOk(sessions, issued) && id in sessions && Extended(issued, later) && !move.Store?
    requires SessionOk(Moved(sessions[id], move), id, later)
    ensures CashStore.Saveable(sessions, Moved(sessions[id], move))
  {
    var before, after := sessions[id], Moved(sessions[id], move);
    CashRuns.ReloadKeepsMovements(before);
    PermutationMembers(before.movements, ReloadSession(before).movements);
    MoveAddsOne(ReloadSession(before), move);
    forall m | m in before.movements
      ensures exists y :: y in after.movements && MovementKey(y) == MovementKey(m) && CashStore.MergeMovement(m, y) == y {
      assert m in after.movements && CashStore.MergeMovement(m, m) == m;
    }
    forall k | k in sessions && k != id ensures KeysApart(sessions[k].movements, after.movements, MovementKey) {
      SessionStaysOk(sessions[k], k, issued, later);
    }
  }
}
