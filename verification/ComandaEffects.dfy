/** What each transition of the comanda aggregate accepts and changes, from the caller's own data. */
module ComandaEffects {
  import opened Wrappers
  import opened Rows
  import opened Text
  import opened Comandas
  import ComandaRuns

  // ---------- amounts ----------

  /** A line's total is the product of quantity and price rounded to a whole cent, halves up. */
  lemma LineTotalRounds(item: Item)
    ensures var exact := item.quantity * item.unitPriceCents as real;
            LineTotal(item) as real - 0.5 <= exact < LineTotal(item) as real + 0.5
  {
  }

  lemma {:induction false} ProductAsReal(n: nat, price: int)
    ensures n as real * price as real == (n * price) as real
  {
    if n > 0 {
      ProductAsReal(n - 1, price);
      assert n as real == (n - 1) as real + 1.0;
      assert n * price == (n - 1) * price + price;
    }
  }

  /** A whole quantity multiplies exactly. */
  lemma WholeLineTotal(item: Item, n: nat)
    requires item.quantity == n as real
    ensures LineTotal(item) == n * item.unitPriceCents
  {
    ProductAsReal(n, item.unitPriceCents);
  }

  /** Quantity times price of an item that is not cancelled, for whole quantities. */
  function ActiveProduct(item: Item): Cents {
    if item.status.Cancelado? then 0 else item.quantity.Floor * item.unitPriceCents
  }

  ghost predicate WholeQuantities(items: seq<Item>) {
    forall x :: x in items ==> x.quantity == x.quantity.Floor as real
  }

  lemma WholeSubtotal(items: seq<Item>)
    requires WholeQuantities(items) && forall x :: x in items ==> x.quantity > 0.0
    ensures Subtotal(items) == Sum(items, ActiveProduct)
  {
    forall x | x in items ensures ActiveTotal(x) == ActiveProduct(x) {
      WholeLineTotal(x, x.quantity.Floor);
    }
    SumAgrees(items, ActiveTotal, ActiveProduct);
  }

  /** With whole quantities the bill of a frozen comanda is the sum of quantity times price over the items
      that are not cancelled. */
  lemma WholeBill(comanda: Comanda)
    requires ComandaRuns.Inv(comanda) && ComandaRuns.Frozen(comanda) && WholeQuantities(comanda.items)
    ensures comanda.preContas != []
    ensures comanda.preContas[|comanda.preContas| - 1].totalAmountCents == Sum(comanda.items, ActiveProduct)
  {
    assert ComandaRuns.BillCurrent(comanda) && ComandaRuns.ItemsOk(comanda.items);
    hide ComandaRuns.Inv, Subtotal, Lines, WholeQuantities;
    WholeSubtotal(comanda.items);
  }

  /** The line shows the item as it is stored, with the rounded product as its total. */
  predicate Bills(line: SnapshotLine, x: Item) {
    && line.itemId == x.itemId && line.produtoId == x.produtoId && line.productLabel == x.productLabel
    && line.setor == x.setor && line.quantity == x.quantity && line.unitPriceCents == x.unitPriceCents && line.note == x.note
    && line.lineTotalCents as real - 0.5 <= x.quantity * x.unitPriceCents as real < line.lineTotalCents as real + 0.5
  }

  /** A frozen comanda's last pre-conta bills every item that is not cancelled, and nothing else. */
  lemma FrozenLines(comanda: Comanda)
    requires ComandaRuns.Inv(comanda) && ComandaRuns.Frozen(comanda)
    ensures comanda.preContas != []
    ensures var lines := comanda.preContas[|comanda.preContas| - 1].lines;
            && (forall x :: x in comanda.items && !x.status.Cancelado? ==> exists line :: line in lines && Bills(line, x))
            && (forall line :: line in lines ==> exists x :: x in comanda.items && !x.status.Cancelado? && Bills(line, x))
  {
    assert ComandaRuns.BillCurrent(comanda);
    hide ComandaRuns.Inv, Subtotal, Lines, Bills;
    var last := comanda.preContas[|comanda.preContas| - 1];
    PermutationMembers(last.lines, Lines(comanda.items));
    forall x | x in comanda.items && !x.status.Cancelado? ensures exists line :: line in last.lines && Bills(line, x) {
      LineBills(x);
      ActiveIsListed(comanda.items, SnapshotOf(x));
      assert SnapshotOf(x) in last.lines;
    }
    forall line | line in last.lines ensures exists x :: x in comanda.items && !x.status.Cancelado? && Bills(line, x) {
      ActiveIsListed(comanda.items, line);
      var x :| x in comanda.items && ActiveLine(x) == Some(line);
      LineBills(x);
    }
  }

  lemma LineBills(x: Item)
    ensures Bills(SnapshotOf(x), x)
  {
    LineTotalRounds(x);
  }

  lemma ActiveIsListed(items: seq<Item>, line: SnapshotLine)
    ensures line in Lines(items) <==> exists x :: x in items && ActiveLine(x) == Some(line)
  {
    CollectMembers(items, ActiveLine, line);
  }

  // ---------- opening ----------

  lemma OpenEffect(comandaId: Id, numero: string, mesaId: Option<string>, ref: Option<string>, owner: Option<string>, at: Time)
    ensures var r := OpenComanda(comandaId, numero, mesaId, ref, owner, at);
            && (r.Ok? <==> exists c :: c in numero && !IsSpace(c))
            && (r.Ok? ==>
                  var c := r.value.comanda;
                  && c.comandaId == comandaId && c.numero == Trim(numero) && c.status.Aberta? && c.openedAt == at
                  && c.mesaId == NormalizeNullable(mesaId) && c.atendimentoRef == NormalizeNullable(ref)
                  && c.currentOwnerUserId == NormalizeNullable(owner) && c.closedAt.None? && c.cancelledAt.None?
                  && CalculateComandaTotals(c) == ComandaTotals(0, 0, 0, 0, 0))
  {
    NormalizedText(Some(numero));
  }

  // ---------- items ----------

  /** What a caller orders. */
  datatype Order = Order(
    itemId: Id,
    produtoId: string,
    productLabel: string,
    setor: string,
    quantity: real,
    unitPriceCents: Cents,
    note: Option<string>)

  function Add(comanda: Comanda, o: Order, at: Time): MutationResult {
    AddComandaItem(comanda, o.itemId, o.produtoId, o.productLabel, o.setor, o.quantity, o.unitPriceCents, o.note, at)
  }

  /** The item is what was ordered. */
  predicate IsOrdered(x: Item, o: Order) {
    && x.itemId == o.itemId && x.produtoId == Trim(o.produtoId) && x.productLabel == Trim(o.productLabel)
    && x.setor == Trim(o.setor) && x.quantity == o.quantity && x.unitPriceCents == o.unitPriceCents
    && x.note == NormalizeNullable(o.note)
  }

  /** An addition is accepted on an editable comanda with a positive quantity, a price and three visible
      texts. It appends the ordered item as pending, leaves the earlier items alone, and raises the subtotal
      by the rounded product of the given quantity and price. */
  lemma AddEffect(comanda: Comanda, o: Order, at: Time)
    ensures var r := Add(comanda, o, at);
            && (r.Ok? <==>
                  && (comanda.status.Aberta? || comanda.status.EmProducao?) && o.quantity > 0.0 && o.unitPriceCents >= 0
                  && Trim(o.produtoId) != [] && Trim(o.productLabel) != [] && Trim(o.setor) != [])
            && (r.Ok? ==>
                  var after := r.value.comanda;
                  && after == comanda.(items := after.items)
                  && |after.items| == |comanda.items| + 1 && after.items[..|comanda.items|] == comanda.items
                  && IsOrdered(after.items[|comanda.items|], o)
                  && after.items[|comanda.items|].status.Lancado? && after.items[|comanda.items|].productionBatchId.None?
                  && after.items[|comanda.items|].createdAt == at
                  && var raised := Subtotal(after.items) - Subtotal(comanda.items);
                     raised as real - 0.5 <= o.quantity * o.unitPriceCents as real < raised as real + 0.5)
  {
    hide Trim, NormalizeNullable, Subtotal;
    var r := Add(comanda, o, at);
    if r.Ok? {
      var x := r.value.comanda.items[|comanda.items|];
      SubtotalAppend(comanda.items, x);
      LineTotalRounds(x);
    }
  }

  lemma SubtotalAppend(items: seq<Item>, x: Item)
    ensures Subtotal(items + [x]) == Subtotal(items) + ActiveTotal(x)
  {
    SumAppend(items, x, ActiveTotal);
  }

  lemma SubtotalUpdate(items: seq<Item>, k: nat, x: Item)
    requires k < |items|
    ensures Subtotal(items[k := x]) == Subtotal(items) - ActiveTotal(items[k]) + ActiveTotal(x)
  {
    assert items == items[..k] + ([items[k]] + items[k + 1..]) && items[k := x] == items[..k] + ([x] + items[k + 1..]);
    SumConcat(items[..k], [items[k]] + items[k + 1..], ActiveTotal);
    SumConcat(items[..k], [x] + items[k + 1..], ActiveTotal);
  }

  /** The item of that id, in a comanda whose ids are distinct. */
  lemma FindsItem(items: seq<Item>, k: nat)
    requires DistinctBy(items, ItemKey) && k < |items|
    ensures FindItem(items, items[k].itemId) == k
  {
    var f := FindItem(items, items[k].itemId);
    assert f <= k;
    assert f < k ==> ItemKey(items[f]) != ItemKey(items[k]);
  }

  lemma NoSuchItem(items: seq<Item>, itemId: Id)
    ensures FindItem(items, itemId) == |items| <==> forall x :: x in items ==> x.itemId != itemId
  {
  }

  /** A cancellation is accepted on an editable comanda for an item that is there and not cancelled, with a
      visible reason. Only that item changes: it keeps what was ordered and is no longer billed. */
  lemma CancelItemEffect(comanda: Comanda, k: nat, reason: string, at: Time)
    requires DistinctBy(comanda.items, ItemKey) && k < |comanda.items|
    ensures var (x, r) := (comanda.items[k], CancelComandaItem(comanda, comanda.items[k].itemId, reason, at));
            && (r.Ok? <==> && (comanda.status.Aberta? || comanda.status.EmProducao?) && !x.status.Cancelado? && Trim(reason) != [])
            && (r.Ok? ==>
                  var after := r.value.comanda;
                  && after == comanda.(items := comanda.items[k := after.items[k]])
                  && after.items[k].status.Cancelado? && after.items[k].cancellationReason == Some(Trim(reason))
                  && after.items[k] == x.(status := after.items[k].status, cancelledAt := Some(at),
                                          cancellationReason := after.items[k].cancellationReason)
                  && Subtotal(after.items) == Subtotal(comanda.items) - LineTotal(x))
  {
    hide Trim, Subtotal, FindItem, LineTotal;
    FindsItem(comanda.items, k);
    var r := CancelComandaItem(comanda, comanda.items[k].itemId, reason, at);
    if r.Ok? {
      SubtotalUpdate(comanda.items, k, r.value.comanda.items[k]);
    }
  }

  lemma CancelUnknownItem(comanda: Comanda, itemId: Id, reason: string, at: Time)
    requires forall x :: x in comanda.items ==> x.itemId != itemId
    ensures CancelComandaItem(comanda, itemId, reason, at).Err?
  {
    NoSuchItem(comanda.items, itemId);
  }

  lemma {:induction false} SentSubtotal(items: seq<Item>, batchId: Id, at: Time)
    ensures Subtotal(SendAll(items, batchId, at)) == Subtotal(items)
  {
    if items != [] {
      assert SendAll(items, batchId, at)[1..] == SendAll(items[1..], batchId, at);
      SentSubtotal(items[1..], batchId, at);
    }
  }

  /** A send under a new batch is accepted on an editable comanda with a pending item. Every pending item
      becomes sent, under that batch and at that time; nothing else about any item changes. */
  lemma SendEffect(comanda: Comanda, batchId: Id, at: Time)
    requires FindBatch(comanda.productionBatches, batchId) == |comanda.productionBatches|
    ensures var r := SendComandaToProduction(comanda, batchId, at);
            && (r.Ok? <==> && (comanda.status.Aberta? || comanda.status.EmProducao?)
                           && exists x :: x in comanda.items && x.status.Lancado?)
            && (r.Ok? ==>
                  var after := r.value.comanda;
                  && after == comanda.(status := EmProducao, items := after.items, productionBatches := after.productionBatches)
                  && |after.items| == |comanda.items| && Subtotal(after.items) == Subtotal(comanda.items)
                  && forall i :: 0 <= i < |comanda.items| ==>
                       var (x, y) := (comanda.items[i], after.items[i]);
                       if x.status.Lancado? then
                         && y.status.Enviado? && y.productionBatchId == Some(batchId) && y.sentAt == Some(at)
                         && y == x.(status := y.status, productionBatchId := y.productionBatchId, sentAt := y.sentAt)
                       else y == x)
  {
    hide FirstOccurrences, Subtotal, FindBatch;
    SentSubtotal(comanda.items, batchId, at);
    forall x | x in comanda.items && x.status.Lancado? ensures Collect(comanda.items, PendingId) != [] {
      CollectMembers(comanda.items, PendingId, x.itemId);
    }
    var pending := Collect(comanda.items, PendingId);
    if pending != [] {
      CollectMembers(comanda.items, PendingId, pending[0]);
    }
  }

  // ---------- bill and payment ----------

  lemma {:induction false} SomethingToBill(items: seq<Item>)
    ensures |Lines(items)| == 0 <==> forall x :: x in items ==> x.status.Cancelado?
  {
    if items != [] {
      SomethingToBill(items[1..]);
      assert forall x :: x in items <==> x == items[0] || x in items[1..];
    }
  }

  /** A pre-conta is accepted in production with something to bill, and freezes the comanda. */
  lemma BillEffect(comanda: Comanda, preContaId: Id, at: Time)
    ensures var r := GenerateComandaPreConta(comanda, preContaId, at);
            && (r.Ok? <==> comanda.status.EmProducao? && exists x :: x in comanda.items && !x.status.Cancelado?)
            && (r.Ok? ==>
                  var after := r.value.comanda;
                  && after == comanda.(cashCheckoutRequestedAt := None, status := EmPagamento, preContas := after.preContas)
                  && |after.preContas| == |comanda.preContas| + 1 && comanda.preContas <= after.preContas
                  && var last := after.preContas[|comanda.preContas|];
                     && last.preContaId == preContaId && last.generatedAt == at
                     && last.totalAmountCents == Subtotal(comanda.items))
  {
    SomethingToBill(comanda.items);
    ComandaRuns.LinesTotal(comanda.items);
    hide Lines, Subtotal;
  }

  function Given(p: CheckoutPayment): Cents {
    p.amountCents
  }

  function GivenCash(p: CheckoutPayment): Cents {
    if p.paymentMethod.Dinheiro? then p.amountCents else 0
  }

  lemma {:induction false} CreatedSums(payments: seq<CheckoutPayment>, at: Time)
    requires CreatePayments(payments, at).Ok?
    ensures Paid(CreatePayments(payments, at).value) == Sum(payments, Given)
    ensures CashTendered(CreatePayments(payments, at).value) == Sum(payments, GivenCash)
  {
    if payments != [] {
      CreatedSums(payments[1..], at);
      assert CreatePayments(payments, at).value[1..] == CreatePayments(payments[1..], at).value;
    }
  }

  /** A checkout is accepted if and only if the comanda is in payment with something to pay for, payments are
      given and positive, they cover the bill, and the cash among them covers the change. */
  lemma CheckoutExact(comanda: Comanda, payments: seq<CheckoutPayment>, at: Time)
    ensures var r := CheckoutComanda(comanda, payments, at);
            var change := Sum(payments, Given) - Subtotal(comanda.items);
            && (r.Ok? <==>
                  && comanda.status.EmPagamento? && (exists x :: x in comanda.items && !x.status.Cancelado?)
                  && payments != [] && (forall i :: 0 <= i < |payments| ==> payments[i].amountCents > 0)
                  && 0 <= change <= Sum(payments, GivenCash))
            && (r.Ok? ==>
                  var after := r.value.comanda;
                  && after == comanda.(cashCheckoutRequestedAt := None, status := Encerrada, closedAt := Some(at), payments := after.payments)
                  && |after.payments| == |comanda.payments| + |payments| && comanda.payments <= after.payments
                  && forall i :: 0 <= i < |payments| ==>
                       after.payments[|comanda.payments| + i] ==
                       Payment(payments[i].paymentId, payments[i].paymentMethod, payments[i].amountCents, at))
  {
    SomethingToBill(comanda.items);
    hide Lines, Subtotal;
    if CreatePayments(payments, at).Ok? {
      CreatedSums(payments, at);
      forall p | p in payments ensures GivenCash(p) >= 0 {
      }
      SumNonNegative(payments, GivenCash);
    }
    hide CreatePayments, Paid, CashTendered;
  }

  // ---------- the other transitions ----------

  lemma RequestCashEffect(comanda: Comanda, at: Time)
    ensures var r := RequestComandaCashCheckout(comanda, at);
            && (r.Ok? <==> comanda.status.EmPagamento?)
            && (r.Ok? ==> r.value.comanda == comanda.(cashCheckoutRequestedAt := Some(at)))
  {
  }

  lemma ReopenEffect(comanda: Comanda)
    ensures var r := ReopenComanda(comanda);
            && (r.Ok? <==> comanda.status.EmPagamento?)
            && (r.Ok? ==> r.value.comanda == comanda.(cashCheckoutRequestedAt := None, status := EmProducao))
  {
  }

  /** A comanda is cancelled with a visible reason while nothing has been paid. */
  lemma CancelEffect(comanda: Comanda, reason: string, at: Time)
    requires ComandaRuns.Inv(comanda)
    ensures var r := CancelComanda(comanda, reason, at);
            && (r.Ok? <==> !comanda.status.Encerrada? && !comanda.status.Cancelada? && Trim(reason) != [])
            && (r.Ok? ==>
                  var after := r.value.comanda;
                  && after.status.Cancelada? && after.cancelledAt == Some(at) && after.cancellationReason == Some(Trim(reason))
                  && after.items == comanda.items && after.payments == [] && after.preContas == comanda.preContas
                  && after.productionBatches == comanda.productionBatches)
  {
    assert comanda.payments != [] <==> comanda.status.Encerrada?;
    hide ComandaRuns.Inv, Trim;
  }
}
