/** The comanda aggregate: its transitions, its totals and its pre-conta snapshots. */
module Comandas {
  import opened Wrappers
  import opened Rows
  import opened Text

  type Cents = int

  datatype PaymentMethod = Dinheiro | Pix | CartaoCredito | CartaoDebito | Outro

  datatype ComandaStatus = Aberta | EmProducao | EmPagamento | Encerrada | Cancelada

  datatype ItemStatus = Lancado | Enviado | Cancelado

  datatype Item = Item(
    itemId: Id,
    produtoId: string,
    productLabel: string,
    setor: string,
    quantity: real,
    unitPriceCents: Cents,
    status: ItemStatus,
    note: Option<string>,
    createdAt: Time,
    sentAt: Option<Time>,
    cancelledAt: Option<Time>,
    cancellationReason: Option<string>,
    productionBatchId: Option<Id>)

  datatype Payment = Payment(paymentId: Id, paymentMethod: PaymentMethod, amountCents: Cents, confirmedAt: Time)

  datatype SnapshotLine = SnapshotLine(
    itemId: Id,
    produtoId: string,
    productLabel: string,
    setor: string,
    quantity: real,
    unitPriceCents: Cents,
    lineTotalCents: Cents,
    note: Option<string>)

  datatype PreConta = PreConta(
    preContaId: Id,
    version: nat,
    generatedAt: Time,
    totalAmountCents: Cents,
    itemCount: nat,
    lines: seq<SnapshotLine>)

  datatype ProductionBatch = ProductionBatch(
    batchId: Id,
    sentAt: Time,
    setores: seq<string>,
    sentItemIds: seq<Id>)

  datatype Comanda = Comanda(
    comandaId: Id,
    numero: string,
    mesaId: Option<string>,
    atendimentoRef: Option<string>,
    cashCheckoutRequestedAt: Option<Time>,
    status: ComandaStatus,
    openedAt: Time,
    currentOwnerUserId: Option<string>,
    cancelledAt: Option<Time>,
    cancellationReason: Option<string>,
    closedAt: Option<Time>,
    items: seq<Item>,
    payments: seq<Payment>,
    preContas: seq<PreConta>,
    productionBatches: seq<ProductionBatch>)

  /** The codes of `assertComandaInvariant`. */
  datatype ComandaError =
    | ComandaNumeroInvalido
    | ComandaNaoEditavel
    | ItemQtdInvalida
    | ItemPrecoInvalido
    | ItemProdutoInvalido
    | ItemLabelInvalida
    | ItemSetorInvalido
    | ItemCancelamentoInvalido
    | ItemNaoEncontrado
    | ItemJaCancelado
    | ItemCancelamentoSemMotivo
    | ComandaEnvioInvalido
    | ComandaSemItensPendentes
    | PreContaTransicaoInvalida
    | PreContaSemItens
    | CaixaFilaTransicaoInvalida
    | CheckoutTransicaoInvalida
    | CheckoutSemPagamento
    | CheckoutSemItens
    | PagamentoValorInvalido
    | CheckoutPagamentoInsuficiente
    | CheckoutTrocoInvalido
    | ComandaReaberturaInvalida
    | ComandaCancelamentoInvalido
    | ComandaCancelamentoComPagamento
    | ComandaCancelamentoSemMotivo

  /** A mutation's new comanda, with the batch or snapshot it produced. */
  datatype Mutation = Mutation(
    comanda: Comanda,
    productionBatch: Option<ProductionBatch>,
    preContaSnapshot: Option<PreConta>)

  type MutationResult = Result<Mutation, ComandaError>

  datatype ComandaTotals = ComandaTotals(
    itemSubtotalCents: Cents,
    paidAmountCents: Cents,
    dueAmountCents: Cents,
    changeAmountCents: Cents,
    activeItemCount: nat)

  datatype CheckoutPayment = CheckoutPayment(paymentId: Id, paymentMethod: PaymentMethod, amountCents: Cents)

  // ---------- totals ----------

  /** `Math.round(quantity * unitPriceCents)`: halves round up. */
  function LineTotal(item: Item): Cents {
    (item.quantity * item.unitPriceCents as real + 0.5).Floor
  }

  function SnapshotOf(item: Item): SnapshotLine {
    SnapshotLine(item.itemId, item.produtoId, item.productLabel, item.setor, item.quantity,
                 item.unitPriceCents, LineTotal(item), item.note)
  }

  function ActiveLine(item: Item): Option<SnapshotLine> {
    if item.status.Cancelado? then None else Some(SnapshotOf(item))
  }

  function ActiveTotal(item: Item): Cents {
    if item.status.Cancelado? then 0 else LineTotal(item)
  }

  function LineAmount(line: SnapshotLine): Cents {
    line.lineTotalCents
  }

  /** The active items as bill lines, in item order. */
  function Lines(items: seq<Item>): seq<SnapshotLine> {
    Collect(items, ActiveLine)
  }

  function Subtotal(items: seq<Item>): Cents {
    Sum(items, ActiveTotal)
  }

  function PaymentAmount(payment: Payment): Cents {
    payment.amountCents
  }

  function CashAmount(payment: Payment): Cents {
    if payment.paymentMethod.Dinheiro? then payment.amountCents else 0
  }

  function Paid(payments: seq<Payment>): Cents {
    Sum(payments, PaymentAmount)
  }

  function CashTendered(payments: seq<Payment>): Cents {
    Sum(payments, CashAmount)
  }

  function Max(a: int, b: int): int {
    if a < b then b else a
  }

  function CalculateComandaTotals(comanda: Comanda): ComandaTotals {
    var subtotal := Subtotal(comanda.items);
    var paid := Paid(comanda.payments);
    ComandaTotals(subtotal, paid, Max(0, subtotal - paid), Max(0, paid - subtotal), |Lines(comanda.items)|)
  }

  function CreatePreContaSnapshot(comanda: Comanda, preContaId: Id, generatedAt: Time): PreConta {
    var lines := Lines(comanda.items);
    PreConta(preContaId, |comanda.preContas| + 1, generatedAt, Sum(lines, LineAmount), |lines|, lines)
  }

  // ---------- transitions ----------

  function OpenComanda(comandaId: Id, numero: string, mesaId: Option<string>, atendimentoRef: Option<string>,
                       owner: Option<string>, openedAt: Time): MutationResult {
    if Trim(numero) == [] then Err(ComandaNumeroInvalido)
    else
      Ok(Mutation(Comanda(comandaId, Trim(numero), NormalizeNullable(mesaId), NormalizeNullable(atendimentoRef),
                          None, Aberta, openedAt, NormalizeNullable(owner), None, None, None, [], [], [], []),
                  None, None))
  }

  predicate Editable(comanda: Comanda) {
    comanda.status.Aberta? || comanda.status.EmProducao?
  }

  function AddComandaItem(comanda: Comanda, itemId: Id, produtoId: string, productLabel: string, setor: string,
                          quantity: real, unitPriceCents: Cents, note: Option<string>, occurredAt: Time): MutationResult {
    if !Editable(comanda) then Err(ComandaNaoEditavel)
    else if quantity <= 0.0 then Err(ItemQtdInvalida)
    else if unitPriceCents < 0 then Err(ItemPrecoInvalido)
    else if Trim(produtoId) == [] then Err(ItemProdutoInvalido)
    else if Trim(productLabel) == [] then Err(ItemLabelInvalida)
    else if Trim(setor) == [] then Err(ItemSetorInvalido)
    else
      var item := Item(itemId, Trim(produtoId), Trim(productLabel), Trim(setor), quantity, unitPriceCents, Lancado,
                       NormalizeNullable(note), occurredAt, None, None, None, None);
      Ok(Mutation(comanda.(items := comanda.items + [item]), None, None))
  }

  /** `items.findIndex(..)`: the first position with that id, or the length. */
  function FindItem(items: seq<Item>, itemId: Id): (k: nat)
    ensures k <= |items|
    ensures k < |items| ==> items[k].itemId == itemId
    ensures forall i :: 0 <= i < k ==> items[i].itemId != itemId
  {
    if items == [] || items[0].itemId == itemId then 0 else 1 + FindItem(items[1..], itemId)
  }

  function CancelComandaItem(comanda: Comanda, itemId: Id, reason: string, occurredAt: Time): MutationResult {
    if !Editable(comanda) then Err(ItemCancelamentoInvalido)
    else
      var k := FindItem(comanda.items, itemId);
      if k == |comanda.items| then Err(ItemNaoEncontrado)
      else if comanda.items[k].status.Cancelado? then Err(ItemJaCancelado)
      else if Trim(reason) == [] then Err(ItemCancelamentoSemMotivo)
      else
        var updated := comanda.items[k].(status := Cancelado, cancelledAt := Some(occurredAt),
                                         cancellationReason := Some(Trim(reason)));
        Ok(Mutation(comanda.(items := comanda.items[k := updated]), None, None))
  }

  function FindBatch(batches: seq<ProductionBatch>, batchId: Id): (k: nat)
    ensures k <= |batches|
    ensures k < |batches| ==> batches[k].batchId == batchId
    ensures forall i :: 0 <= i < k ==> batches[i].batchId != batchId
  {
    if batches == [] || batches[0].batchId == batchId then 0 else 1 + FindBatch(batches[1..], batchId)
  }

  function PendingId(item: Item): Option<Id> {
    if item.status.Lancado? then Some(item.itemId) else None
  }

  function PendingSetor(item: Item): Option<string> {
    if item.status.Lancado? then Some(item.setor) else None
  }

  /** `[...new Set(xs)]`: first occurrences, in order. */
  function FirstOccurrences(xs: seq<string>): seq<string> {
    if xs == [] then []
    else
      var rest := FirstOccurrences(xs[..|xs| - 1]);
      if xs[|xs| - 1] in rest then rest else rest + [xs[|xs| - 1]]
  }

  function MarkSent(item: Item, batchId: Id, occurredAt: Time): Item {
    if item.status.Lancado?
    then item.(status := Enviado, sentAt := Some(occurredAt), productionBatchId := Some(batchId))
    else item
  }

  function SendAll(items: seq<Item>, batchId: Id, occurredAt: Time): (sent: seq<Item>)
    ensures |sent| == |items|
    ensures forall i :: 0 <= i < |items| ==> sent[i] == MarkSent(items[i], batchId, occurredAt)
  {
    seq(|items|, i requires 0 <= i < |items| => MarkSent(items[i], batchId, occurredAt))
  }

  function SendComandaToProduction(comanda: Comanda, batchId: Id, occurredAt: Time): MutationResult {
    if !Editable(comanda) then Err(ComandaEnvioInvalido)
    else
      var k := FindBatch(comanda.productionBatches, batchId);
      if k < |comanda.productionBatches| then Ok(Mutation(comanda, Some(comanda.productionBatches[k]), None))
      else
        var pending := Collect(comanda.items, PendingId);
        if pending == [] then Err(ComandaSemItensPendentes)
        else
          var batch := ProductionBatch(batchId, occurredAt, FirstOccurrences(Collect(comanda.items, PendingSetor)), pending);
          Ok(Mutation(comanda.(status := EmProducao, items := SendAll(comanda.items, batchId, occurredAt),
                               productionBatches := comanda.productionBatches + [batch]),
                      Some(batch), None))
  }

  function GenerateComandaPreConta(comanda: Comanda, preContaId: Id, occurredAt: Time): MutationResult {
    if !comanda.status.EmProducao? then Err(PreContaTransicaoInvalida)
    else if CalculateComandaTotals(comanda).activeItemCount == 0 then Err(PreContaSemItens)
    else
      var snapshot := CreatePreContaSnapshot(comanda, preContaId, occurredAt);
      Ok(Mutation(comanda.(cashCheckoutRequestedAt := None, status := EmPagamento,
                           preContas := comanda.preContas + [snapshot]),
                  None, Some(snapshot)))
  }

  function RequestComandaCashCheckout(comanda: Comanda, occurredAt: Time): MutationResult {
    if !comanda.status.EmPagamento? then Err(CaixaFilaTransicaoInvalida)
    else Ok(Mutation(comanda.(cashCheckoutRequestedAt := Some(occurredAt)), None, None))
  }

  /** The payments as recorded, or the first amount that is not positive. */
  function CreatePayments(payments: seq<CheckoutPayment>, confirmedAt: Time): (r: Result<seq<Payment>, ComandaError>)
    ensures r.Ok? ==> |r.value| == |payments| && forall i :: 0 <= i < |payments| ==>
              r.value[i] == Payment(payments[i].paymentId, payments[i].paymentMethod, payments[i].amountCents, confirmedAt)
    ensures r.Ok? <==> forall i :: 0 <= i < |payments| ==> payments[i].amountCents > 0
  {
    if payments == [] then Ok([])
    else if payments[0].amountCents <= 0 then Err(PagamentoValorInvalido)
    else
      var rest :- CreatePayments(payments[1..], confirmedAt);
      Ok([Payment(payments[0].paymentId, payments[0].paymentMethod, payments[0].amountCents, confirmedAt)] + rest)
  }

  function CheckoutComanda(comanda: Comanda, payments: seq<CheckoutPayment>, occurredAt: Time): MutationResult {
    if !comanda.status.EmPagamento? then Err(CheckoutTransicaoInvalida)
    else if payments == [] then Err(CheckoutSemPagamento)
    else
      var before := CalculateComandaTotals(comanda);
      if before.activeItemCount == 0 then Err(CheckoutSemItens)
      else
        var created :- CreatePayments(payments, occurredAt);
        var paid := Paid(created);
        if paid < before.itemSubtotalCents then Err(CheckoutPagamentoInsuficiente)
        else
          var change := paid - before.itemSubtotalCents;
          if change != 0 && CashTendered(created) < change then Err(CheckoutTrocoInvalido)
          else
            Ok(Mutation(comanda.(cashCheckoutRequestedAt := None, status := Encerrada, closedAt := Some(occurredAt),
                                 payments := comanda.payments + created),
                        None, None))
  }

  function ReopenComanda(comanda: Comanda): MutationResult {
    if !comanda.status.EmPagamento? then Err(ComandaReaberturaInvalida)
    else Ok(Mutation(comanda.(cashCheckoutRequestedAt := None, status := EmProducao), None, None))
  }

  function CancelComanda(comanda: Comanda, reason: string, occurredAt: Time): MutationResult {
    if comanda.status.Encerrada? || comanda.status.Cancelada? then Err(ComandaCancelamentoInvalido)
    else if comanda.payments != [] then Err(ComandaCancelamentoComPagamento)
    else if Trim(reason) == [] then Err(ComandaCancelamentoSemMotivo)
    else
      Ok(Mutation(comanda.(cashCheckoutRequestedAt := None, status := Cancelada, cancelledAt := Some(occurredAt),
                           cancellationReason := Some(Trim(reason)),
                           closedAt := Some(comanda.closedAt.GetOr(occurredAt))),
                  None, None))
  }

  // ---------- reload ----------

  function ItemKey(item: Item): Id { item.itemId }
  function PaymentKey(payment: Payment): Id { payment.paymentId }
  function ItemOrder(item: Item): (Time, Id) { (item.createdAt, item.itemId) }
  function PaymentOrder(payment: Payment): (Time, Id) { (payment.confirmedAt, payment.paymentId) }
  function PreContaOrder(preConta: PreConta): (Time, Id) { (preConta.version, 0) }

  /** The comanda `findById` gives back once `comanda` is stored: items by creation time and id,
      payments by confirmation time and id, pre-contas by version. */
  ghost function Reload(comanda: Comanda): Comanda {
    comanda.(
      cashCheckoutRequestedAt := None,
      items := OrderBy(Members(comanda.items), ItemOrder),
      payments := OrderBy(Members(comanda.payments), PaymentOrder),
      preContas := OrderBy(Members(comanda.preContas), PreContaOrder))
  }
}
