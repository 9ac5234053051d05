/** What every reachable comanda satisfies, over all runs of transitions and reloads. */
module ComandaRuns {
  import opened Wrappers
  import opened Rows
  import opened Comandas

  /** One transition of the aggregate, or a reload from the database. */
  datatype Operation =
    | Add(itemId: Id, produtoId: string, productLabel: string, setor: string, quantity: real,
          unitPriceCents: Cents, note: Option<string>, at: Time)
    | CancelItem(itemId: Id, reason: string, at: Time)
    | Send(batchId: Id, at: Time)
    | Bill(preContaId: Id, at: Time)
    | RequestCash(at: Time)
    | Checkout(payments: seq<CheckoutPayment>, at: Time)
    | Reopen
    | Cancel(reason: string, at: Time)
    | Store

  function Apply(comanda: Comanda, op: Operation): MutationResult
    requires !op.Store?
  {
    match op
    case Add(itemId, produtoId, productLabel, setor, quantity, price, note, at) =>
      AddComandaItem(comanda, itemId, produtoId, productLabel, setor, quantity, price, note, at)
    case CancelItem(itemId, reason, at) => CancelComandaItem(comanda, itemId, reason, at)
    case Send(batchId, at) => SendComandaToProduction(comanda, batchId, at)
    case Bill(preContaId, at) => GenerateComandaPreConta(comanda, preContaId, at)
    case RequestCash(at) => RequestComandaCashCheckout(comanda, at)
    case Checkout(payments, at) => CheckoutComanda(comanda, payments, at)
    case Reopen => ReopenComanda(comanda)
    case Cancel(reason, at) => CancelComanda(comanda, reason, at)
  }

  /** A rejected transition leaves the comanda as it was. */
  ghost function Step(comanda: Comanda, op: Operation): Comanda {
    if op.Store? then Reload(comanda)
    else
      match Apply(comanda, op)
      case Ok(mutation) => mutation.comanda
      case Err(_) => comanda
  }

  /** Generated ids are new: an added item and the payments of a checkout repeat no id. */
  ghost predicate FreshIds(comanda: Comanda, op: Operation) {
    && (op.Add? ==> forall i :: 0 <= i < |comanda.items| ==> comanda.items[i].itemId != op.itemId)
    && (op.Checkout? ==> forall i, j :: 0 <= i < j < |op.payments| ==> op.payments[i].paymentId != op.payments[j].paymentId)
  }

  ghost function Run(comanda: Comanda, ops: seq<Operation>): Comanda
    decreases ops
  {
    if ops == [] then comanda else Run(Step(comanda, ops[0]), ops[1..])
  }

  ghost predicate FreshRun(comanda: Comanda, ops: seq<Operation>)
    decreases ops
  {
    ops == [] || (FreshIds(comanda, ops[0]) && FreshRun(Step(comanda, ops[0]), ops[1..]))
  }

  // ---------- the invariant ----------

  ghost predicate ItemsOk(items: seq<Item>) {
    && DistinctBy(items, ItemKey)
    && (forall item :: item in items ==>
          && item.quantity > 0.0 && item.unitPriceCents >= 0
          && (item.status.Lancado? ==> item.productionBatchId.None?)
          && (item.status.Enviado? ==> item.productionBatchId.Some?))
  }

  ghost predicate Listed(batches: seq<ProductionBatch>, batchId: Id, itemId: Id) {
    exists k :: 0 <= k < |batches| && batches[k].batchId == batchId && itemId in batches[k].sentItemIds
  }

  ghost predicate HasBatch(items: seq<Item>, itemId: Id, batchId: Id) {
    exists item :: item in items && item.itemId == itemId && item.productionBatchId == Some(batchId)
  }

  /** An item carries a batch exactly when that batch lists it. */
  ghost predicate BatchesOk(items: seq<Item>, batches: seq<ProductionBatch>) {
    && (forall i, j :: 0 <= i < j < |batches| ==> batches[i].batchId != batches[j].batchId)
    && (forall item :: item in items && item.productionBatchId.Some? ==>
          Listed(batches, item.productionBatchId.value, item.itemId))
    && (forall k, id :: 0 <= k < |batches| && id in batches[k].sentItemIds ==>
          HasBatch(items, id, batches[k].batchId))
  }

  ghost predicate Versioned(preContas: seq<PreConta>) {
    forall k :: 0 <= k < |preContas| ==> preContas[k].version == k + 1
  }

  /** The last pre-conta is the bill of exactly the current active items. */
  ghost predicate BillCurrent(comanda: Comanda) {
    comanda.preContas != [] &&
    var last := comanda.preContas[|comanda.preContas| - 1];
    && multiset(last.lines) == multiset(Lines(comanda.items))
    && last.totalAmountCents == Subtotal(comanda.items)
    && last.itemCount == |Lines(comanda.items)| > 0
  }

  ghost predicate PaymentsOk(comanda: Comanda) {
    && DistinctBy(comanda.payments, PaymentKey)
    && (forall p :: p in comanda.payments ==> p.amountCents > 0)
    && (comanda.payments != [] <==> comanda.status.Encerrada?)
    && (comanda.status.Encerrada? ==>
          var change := Paid(comanda.payments) - Subtotal(comanda.items);
          change >= 0 && CashTendered(comanda.payments) >= change)
  }

  ghost predicate Inv(comanda: Comanda) {
    && ItemsOk(comanda.items)
    && BatchesOk(comanda.items, comanda.productionBatches)
    && Versioned(comanda.preContas)
    && (comanda.status.EmPagamento? || comanda.status.Encerrada? ==> BillCurrent(comanda))
    && PaymentsOk(comanda)
  }

  // ---------- what the invariant says ----------

  /** Distinct batches never list the same item. */
  lemma BatchesDisjoint(comanda: Comanda, i: nat, j: nat, itemId: Id)
    requires Inv(comanda) && i < j < |comanda.productionBatches|
    requires itemId in comanda.productionBatches[i].sentItemIds
    ensures itemId !in comanda.productionBatches[j].sentItemIds
  {
    if itemId in comanda.productionBatches[j].sentItemIds {
      var a :| a in comanda.items && a.itemId == itemId && a.productionBatchId == Some(comanda.productionBatches[i].batchId);
      var b :| b in comanda.items && b.itemId == itemId && b.productionBatchId == Some(comanda.productionBatches[j].batchId);
      SameKey(comanda.items, a, b, ItemKey);
    }
  }

  /** A frozen comanda's last pre-conta is the bill of exactly its active items. A settled comanda: the
      money tendered is the bill plus the change, nothing is due, and the change never exceeds the cash
      handed over. */
  lemma SettledBill(comanda: Comanda)
    requires Inv(comanda)
    ensures var totals := CalculateComandaTotals(comanda);
            && totals.itemSubtotalCents >= 0
            && (forall k :: 0 <= k < |comanda.preContas| ==> comanda.preContas[k].version == k + 1)
            && (comanda.payments != [] <==> comanda.status.Encerrada?)
            && (comanda.status.Encerrada? ==>
                  && totals.paidAmountCents == totals.itemSubtotalCents + totals.changeAmountCents
                  && totals.dueAmountCents == 0
                  && CashTendered(comanda.payments) >= totals.changeAmountCents)
            && (comanda.status.EmPagamento? || comanda.status.Encerrada? ==>
                  && comanda.preContas != []
                  && var last := comanda.preContas[|comanda.preContas| - 1];
                     && multiset(last.lines) == multiset(Lines(comanda.items))
                     && last.totalAmountCents == totals.itemSubtotalCents
                     && last.itemCount == totals.activeItemCount > 0)
  {
    forall item | item in comanda.items ensures ActiveTotal(item) >= 0 {
      LineTotalNonNegative(item);
    }
    SumNonNegative(comanda.items, ActiveTotal);
  }

  lemma LineTotalNonNegative(item: Item)
    requires item.quantity >= 0.0 && item.unitPriceCents >= 0
    ensures LineTotal(item) >= 0
  {
    assert item.quantity * item.unitPriceCents as real >= 0.0;
  }

  // ---------- every operation keeps it ----------

  /** The bill's total is the sum of its lines. */
  lemma {:induction false} LinesTotal(items: seq<Item>)
    ensures Sum(Lines(items), LineAmount) == Subtotal(items)
  {
    if items != [] {
      LinesTotal(items[1..]);
      var head := Collect([items[0]], ActiveLine);
      assert [items[0]][1..] == [];
      assert Lines(items) == head + Lines(items[1..]);
      SumConcat(head, Lines(items[1..]), LineAmount);
      assert head != [] ==> head[1..] == [];
    }
  }

  /** Distinct rows and versions 1..n: what a reload needs to give every row back. */
  ghost predicate Storable(comanda: Comanda) {
    && DistinctBy(comanda.items, ItemKey)
    && DistinctBy(comanda.payments, PaymentKey)
    && Versioned(comanda.preContas)
  }

  lemma ReloadKeepsRowsOf(comanda: Comanda)
    requires Storable(comanda)
    ensures multiset(Reload(comanda).items) == multiset(comanda.items)
    ensures multiset(Reload(comanda).payments) == multiset(comanda.payments)
    ensures Reload(comanda).preContas == comanda.preContas
  {
    ReorderKeepsRows(comanda.items, ItemOrder, ItemKey);
    ReorderKeepsRows(comanda.payments, PaymentOrder, PaymentKey);
    forall i, j | 0 <= i < j < |comanda.preContas|
      ensures !Before(PreContaOrder(comanda.preContas[j]), PreContaOrder(comanda.preContas[i])) {
      assert comanda.preContas[i].version == i + 1 && comanda.preContas[j].version == j + 1;
    }
    OrderByIdentity(comanda.preContas, PreContaOrder);
  }

  /** The invariant only looks at items and payments as unordered rows. */
  lemma ReorderKeepsInv(comanda: Comanda, reordered: Comanda)
    requires Inv(comanda)
    requires reordered.status == comanda.status
    requires multiset(reordered.items) == multiset(comanda.items)
    requires multiset(reordered.payments) == multiset(comanda.payments)
    requires reordered.preContas == comanda.preContas
    requires reordered.productionBatches == comanda.productionBatches
    ensures Inv(reordered)
    ensures CalculateComandaTotals(reordered) == CalculateComandaTotals(comanda)
  {
    ReorderKeepsBatches(comanda.items, reordered.items, comanda.productionBatches);
    ReorderKeepsSums(comanda, reordered);
    var p, q := comanda.payments, reordered.payments;
    DistinctPermutation(p, q, PaymentKey);
    PermutationMembers(p, q);
    assert p == [] <==> q == [];
  }

  lemma ReorderKeepsBatches(a: seq<Item>, b: seq<Item>, batches: seq<ProductionBatch>)
    requires multiset(a) == multiset(b) && ItemsOk(a) && BatchesOk(a, batches)
    ensures ItemsOk(b) && BatchesOk(b, batches)
  {
    DistinctPermutation(a, b, ItemKey);
    PermutationMembers(a, b);
    forall k, id | 0 <= k < |batches| && id in batches[k].sentItemIds ensures HasBatch(b, id, batches[k].batchId) {
      assert HasBatch(a, id, batches[k].batchId);
    }
  }

  lemma ReorderKeepsSums(comanda: Comanda, reordered: Comanda)
    requires multiset(reordered.items) == multiset(comanda.items)
    requires multiset(reordered.payments) == multiset(comanda.payments)
    ensures CalculateComandaTotals(reordered) == CalculateComandaTotals(comanda)
    ensures Subtotal(reordered.items) == Subtotal(comanda.items)
    ensures Paid(reordered.payments) == Paid(comanda.payments)
    ensures CashTendered(reordered.payments) == CashTendered(comanda.payments)
    ensures multiset(Lines(reordered.items)) == multiset(Lines(comanda.items))
  {
    SumPermutation(comanda.items, reordered.items, ActiveTotal);
    SumPermutation(comanda.payments, reordered.payments, PaymentAmount);
    SumPermutation(comanda.payments, reordered.payments, CashAmount);
    CollectPermutation(comanda.items, reordered.items, ActiveLine);
    PermutationMembers(Lines(comanda.items), Lines(reordered.items));
  }

  lemma AddKeepsInv(comanda: Comanda, op: Operation)
    requires Inv(comanda) && op.Add? && FreshIds(comanda, op) && Apply(comanda, op).Ok?
    ensures Inv(Step(comanda, op))
  {
    var next := Step(comanda, op);
    assert next.items == comanda.items + [next.items[|comanda.items|]];
    forall k, id | 0 <= k < |next.productionBatches| && id in next.productionBatches[k].sentItemIds
      ensures HasBatch(next.items, id, next.productionBatches[k].batchId) {
      assert HasBatch(comanda.items, id, next.productionBatches[k].batchId);
    }
  }

  lemma CancelItemKeepsInv(comanda: Comanda, op: Operation)
    requires Inv(comanda) && op.CancelItem? && Apply(comanda, op).Ok?
    ensures Inv(Step(comanda, op))
  {
    var next := Step(comanda, op);
    var x := FindItem(comanda.items, op.itemId);
    var was, now := comanda.items[x], next.items[x];
    assert next.items == comanda.items[x := now];
    forall k, id | 0 <= k < |next.productionBatches| && id in next.productionBatches[k].sentItemIds
      ensures HasBatch(next.items, id, next.productionBatches[k].batchId) {
      var item :| item in comanda.items && item.itemId == id && item.productionBatchId == Some(next.productionBatches[k].batchId);
      var y := IndexOf(comanda.items, item);
      assert next.items[y] in next.items;
    }
    forall item | item in next.items && item.productionBatchId.Some?
      ensures Listed(next.productionBatches, item.productionBatchId.value, item.itemId) {
      assert item == now || item in comanda.items;
      assert was in comanda.items;
    }
  }

  /** An item is listed by the old batches or, when it was pending, by the new one. */
  lemma SentItemListed(comanda: Comanda, op: Operation, x: nat)
    requires Inv(comanda) && op.Send? && Apply(comanda, op).Ok? && x < |comanda.items|
    requires Step(comanda, op) != comanda
    ensures var next := Step(comanda, op);
            && next.productionBatches == comanda.productionBatches + [next.productionBatches[|comanda.productionBatches|]]
            && |next.items| == |comanda.items|
            && next.items[x] == MarkSent(comanda.items[x], op.batchId, op.at)
            && (next.items[x].productionBatchId.Some? ==>
                  Listed(next.productionBatches, next.items[x].productionBatchId.value, next.items[x].itemId))
  {
    var next := Step(comanda, op);
    var batches := comanda.productionBatches;
    var was := comanda.items[x];
    assert was in comanda.items;
    if was.status.Lancado? {
      CollectMembers(comanda.items, PendingId, was.itemId);
      assert next.productionBatches[|batches|].batchId == op.batchId;
    } else if was.productionBatchId.Some? {
      var k :| 0 <= k < |batches| && batches[k].batchId == was.productionBatchId.value && was.itemId in batches[k].sentItemIds;
      assert next.productionBatches[k] == batches[k];
    }
  }

  /** A listed id belongs to an item that carries the batch. */
  lemma ListedItemSent(comanda: Comanda, op: Operation, k: nat, id: Id)
    requires Inv(comanda) && op.Send? && Apply(comanda, op).Ok? && Step(comanda, op) != comanda
    requires k < |Step(comanda, op).productionBatches| && id in Step(comanda, op).productionBatches[k].sentItemIds
    ensures HasBatch(Step(comanda, op).items, id, Step(comanda, op).productionBatches[k].batchId)
  {
    var next := Step(comanda, op);
    var batches := comanda.productionBatches;
    if k == |batches| {
      CollectMembers(comanda.items, PendingId, id);
      var was :| was in comanda.items && PendingId(was) == Some(id);
      assert next.items[IndexOf(comanda.items, was)] in next.items;
    } else {
      assert HasBatch(comanda.items, id, batches[k].batchId);
      var was :| was in comanda.items && was.itemId == id && was.productionBatchId == Some(batches[k].batchId);
      assert next.items[IndexOf(comanda.items, was)] in next.items;
    }
  }

  lemma SendKeepsItems(comanda: Comanda, op: Operation)
    requires Inv(comanda) && op.Send? && Apply(comanda, op).Ok? && Step(comanda, op) != comanda
    ensures ItemsOk(Step(comanda, op).items)
  {
    var next := Step(comanda, op).items;
    forall item | item in next
      ensures item.quantity > 0.0 && item.unitPriceCents >= 0
      ensures item.status.Lancado? ==> item.productionBatchId.None?
      ensures item.status.Enviado? ==> item.productionBatchId.Some? {
      var x := IndexOf(next, item);
      assert item == MarkSent(comanda.items[x], op.batchId, op.at);
      assert comanda.items[x] in comanda.items;
    }
    forall i, j | 0 <= i < j < |next| ensures ItemKey(next[i]) != ItemKey(next[j]) {
      assert ItemKey(comanda.items[i]) != ItemKey(comanda.items[j]);
    }
  }

  lemma SendKeepsBatchIds(comanda: Comanda, op: Operation)
    requires Inv(comanda) && op.Send? && Apply(comanda, op).Ok? && Step(comanda, op) != comanda
    ensures var next := Step(comanda, op).productionBatches;
            forall i, j :: 0 <= i < j < |next| ==> next[i].batchId != next[j].batchId
  {
    hide SendAll, FirstOccurrences, ItemsOk, PaymentsOk;
  }

  lemma SendKeepsBatches(comanda: Comanda, op: Operation)
    requires Inv(comanda) && op.Send? && Apply(comanda, op).Ok? && Step(comanda, op) != comanda
    ensures BatchesOk(Step(comanda, op).items, Step(comanda, op).productionBatches)
  {
    hide Inv, Apply, Step, Listed, HasBatch;
    SendKeepsBatchIds(comanda, op);
    var next := Step(comanda, op);
    forall item | item in next.items && item.productionBatchId.Some?
      ensures Listed(next.productionBatches, item.productionBatchId.value, item.itemId) {
      SentItemListed(comanda, op, SentFrom(comanda, op, item));
    }
    forall k, id | 0 <= k < |next.productionBatches| && id in next.productionBatches[k].sentItemIds
      ensures HasBatch(next.items, id, next.productionBatches[k].batchId) {
      ListedItemSent(comanda, op, k, id);
    }
  }

  /** The place of a sent comanda's item, which is its place before. */
  ghost function SentFrom(comanda: Comanda, op: Operation, item: Item): (x: nat)
    requires op.Send? && Apply(comanda, op).Ok? && item in Step(comanda, op).items
    ensures x < |comanda.items| && x < |Step(comanda, op).items| && Step(comanda, op).items[x] == item
  {
    IndexOf(Step(comanda, op).items, item)
  }

  lemma SendKeepsInv(comanda: Comanda, op: Operation)
    requires Inv(comanda) && op.Send? && Apply(comanda, op).Ok?
    ensures Inv(Step(comanda, op))
  {
    if Step(comanda, op) != comanda {
      SendKeepsItems(comanda, op);
      SendKeepsBatches(comanda, op);
    }
  }

  lemma BillKeepsInv(comanda: Comanda, op: Operation)
    requires Inv(comanda) && op.Bill? && Apply(comanda, op).Ok?
    ensures Inv(Step(comanda, op))
  {
    LinesTotal(comanda.items);
  }

  /** What an accepted checkout records and why it was accepted. */
  lemma CheckoutAccepted(comanda: Comanda, payments: seq<CheckoutPayment>, at: Time)
    requires CheckoutComanda(comanda, payments, at).Ok?
    ensures comanda.status.EmPagamento? && CreatePayments(payments, at).Ok?
    ensures var created := CreatePayments(payments, at).value;
            var change := Paid(created) - Subtotal(comanda.items);
            && created != [] && change >= 0 && (change == 0 || CashTendered(created) >= change)
            && CheckoutComanda(comanda, payments, at).value.comanda ==
               comanda.(cashCheckoutRequestedAt := None, status := Encerrada, closedAt := Some(at), payments := comanda.payments + created)
  {
    hide Paid, Subtotal, CashTendered, Lines;
  }

  lemma CreatedOk(payments: seq<CheckoutPayment>, at: Time)
    requires CreatePayments(payments, at).Ok?
    requires forall i, j :: 0 <= i < j < |payments| ==> payments[i].paymentId != payments[j].paymentId
    ensures var created := CreatePayments(payments, at).value;
            && DistinctBy(created, PaymentKey) && (forall p :: p in created ==> p.amountCents > 0)
            && CashTendered(created) >= 0
  {
    var created := CreatePayments(payments, at).value;
    forall i, j | 0 <= i < j < |created| ensures PaymentKey(created[i]) != PaymentKey(created[j]) {
      assert payments[i].paymentId != payments[j].paymentId;
    }
    SumNonNegative(created, CashAmount);
  }

  lemma CheckoutKeepsInv(comanda: Comanda, op: Operation)
    requires Inv(comanda) && op.Checkout? && FreshIds(comanda, op) && Apply(comanda, op).Ok?
    ensures Inv(Step(comanda, op))
  {
    hide CheckoutComanda, Paid, Subtotal, CashTendered, Lines, CreatePayments, ItemsOk, BatchesOk, BillCurrent, DistinctBy, Versioned;
    CheckoutAccepted(comanda, op.payments, op.at);
    CreatedOk(op.payments, op.at);
    assert comanda.payments == [];
    var created := CreatePayments(op.payments, op.at).value;
    assert [] + created == created;
    SettledKeepsBill(comanda, Step(comanda, op));
  }

  lemma SettledKeepsBill(comanda: Comanda, next: Comanda)
    requires BillCurrent(comanda) && next.items == comanda.items && next.preContas == comanda.preContas
    ensures BillCurrent(next)
  {
    hide Lines, Subtotal;
  }

  lemma StepKeepsInv(comanda: Comanda, op: Operation)
    requires Inv(comanda) && FreshIds(comanda, op)
    ensures Inv(Step(comanda, op))
  {
    if op.Store? {
      StoreKeepsInv(comanda);
    } else if Apply(comanda, op).Err? {
      hide Inv, Apply;
    } else {
      hide Inv, Apply, Step, FreshIds;
      match op
      case Add(_, _, _, _, _, _, _, _) => AddKeepsInv(comanda, op);
      case CancelItem(_, _, _) => CancelItemKeepsInv(comanda, op);
      case Send(_, _) => SendKeepsInv(comanda, op);
      case Bill(_, _) => BillKeepsInv(comanda, op);
      case Checkout(_, _) => CheckoutKeepsInv(comanda, op);
      case RequestCash(_) => StatusKeepsInv(comanda, op);
      case Reopen => StatusKeepsInv(comanda, op);
      case Cancel(_, _) => StatusKeepsInv(comanda, op);
    }
  }

  lemma StoreKeepsInv(comanda: Comanda)
    requires Inv(comanda)
    ensures Inv(Reload(comanda))
  {
    ReloadKeepsRowsOf(comanda);
    hide Inv;
    ReorderKeepsInv(comanda, Reload(comanda));
  }

  lemma StatusKeepsInv(comanda: Comanda, op: Operation)
    requires Inv(comanda) && (op.RequestCash? || op.Reopen? || op.Cancel?) && Apply(comanda, op).Ok?
    ensures Inv(Step(comanda, op))
  {
    hide Lines, Subtotal, Paid, CashTendered, ItemsOk, BatchesOk, Versioned, DistinctBy;
  }

  /** Every comanda reachable from its opening, through any transitions and reloads. */
  lemma {:induction false} ReachableComanda(comanda: Comanda, ops: seq<Operation>)
    requires Inv(comanda) && FreshRun(comanda, ops)
    ensures Inv(Run(comanda, ops))
    decreases ops
  {
    if ops != [] {
      StepKeepsInv(comanda, ops[0]);
      ReachableComanda(Step(comanda, ops[0]), ops[1..]);
    }
  }

  lemma OpenedComandaInv(comandaId: Id, numero: string, mesaId: Option<string>, atendimentoRef: Option<string>,
                         owner: Option<string>, at: Time)
    requires OpenComanda(comandaId, numero, mesaId, atendimentoRef, owner, at).Ok?
    ensures Inv(OpenComanda(comandaId, numero, mesaId, atendimentoRef, owner, at).value.comanda)
  {
  }

  ghost predicate Frozen(comanda: Comanda) {
    comanda.status.EmPagamento? || comanda.status.Encerrada?
  }

  lemma FrozenStep(comanda: Comanda, op: Operation)
    requires Inv(comanda) && FreshIds(comanda, op) && Frozen(comanda) && !op.Reopen? && !op.Cancel?
    ensures var next := Step(comanda, op);
            && Frozen(next) && next.preContas == comanda.preContas
            && multiset(next.items) == multiset(comanda.items)
            && (comanda.status.Encerrada? ==> next.status.Encerrada? && multiset(next.payments) == multiset(comanda.payments))
  {
    if op.Store? {
      ReloadKeepsRowsOf(comanda);
    } else if op.Checkout? {
      if Apply(comanda, op).Ok? {
        hide CheckoutComanda, Inv;
        CheckoutAccepted(comanda, op.payments, op.at);
      }
    } else {
      hide Inv, Lines, CalculateComandaTotals, FindItem, FindBatch;
    }
  }

  /** A frozen bill: between the pre-conta and a reopening or a cancellation, no run changes the
      pre-contas, the items or the subtotal; a settled comanda keeps its payments too. */
  lemma {:induction false} FrozenBill(comanda: Comanda, ops: seq<Operation>)
    requires Inv(comanda) && FreshRun(comanda, ops) && Frozen(comanda)
    requires forall op :: op in ops ==> !op.Reopen? && !op.Cancel?
    ensures var end := Run(comanda, ops);
            && Frozen(end) && end.preContas == comanda.preContas
            && multiset(end.items) == multiset(comanda.items)
            && Subtotal(end.items) == Subtotal(comanda.items)
            && (comanda.status.Encerrada? ==> end.status.Encerrada? && multiset(end.payments) == multiset(comanda.payments))
    decreases ops
  {
    if ops != [] {
      var next := Step(comanda, ops[0]);
      assert ops[0] in ops;
      StepKeepsInv(comanda, ops[0]);
      FrozenStep(comanda, ops[0]);
      SumPermutation(comanda.items, next.items, ActiveTotal);
      FrozenBill(next, ops[1..]);
    }
  }
}
