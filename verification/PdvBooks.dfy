/** The books of the point of sale: every stored comanda and cash session, the print spool, and the
    service calls that change them. */
module PdvBooks {
  import opened Wrappers
  import opened Rows
  import opened Text
  import opened Comandas
  import opened Cash
  import opened PrintSpool
  import ComandaRuns
  import CashRuns
  import PrintRuns

  /** `issued` records every generated id and the comanda, session or job it was generated for. */
  datatype Books = Books(
    comandas: map<Id, Comanda>,
    sessions: map<Id, Session>,
    jobs: Spool,
    issued: map<Id, Id>)

  /** One call of the service. */
  datatype Call =
    | OpenComandaCall(comandaId: Id, numero: string, mesaId: Option<string>, owner: Option<string>, at: Time)
    | ComandaCall(comandaId: Id, change: ComandaRuns.Operation)
    | SendCall(comandaId: Id, batchId: Id, at: Time, jobIds: seq<Id>, route: string -> Option<string>)
    | PaymentCall(comandaId: Id, paymentId: Id, movementId: Id, actor: Actor, paymentMethod: PaymentMethod,
                  amountCents: Cents, at: Time)
    | OpenCashCall(cashSessionId: Id, actor: Actor, openingFund: Cents, openingReason: Option<string>, at: Time)
    | CashCall(terminalId: string, move: CashRuns.Operation)
    | PrintCall(work: PrintRuns.Operation)

  /** The calls there are: checkouts and sends have their own, a receipt names no source, and a
      closure counts the pending comandas itself. */
  predicate Offered(b: Books, call: Call) {
    match call
    case ComandaCall(_, change) => change.Add? || change.CancelItem? || change.Bill? || change.RequestCash? || change.Reopen?
    case CashCall(_, move) =>
      && !move.Store?
      && (move.Receive? ==> move.sourceEntity.None? && move.sourceEntityId.None?)
      && (move.StartClosure? ==> move.pendingComandas == CountInPayment(b.comandas))
    case PrintCall(work) => !work.Tickets?
    case _ => true
  }

  predicate Active(comanda: Comanda) {
    !comanda.status.Encerrada? && !comanda.status.Cancelada?
  }

  /** `countByStatus("EM_PAGAMENTO")`. */
  function CountInPayment(comandas: map<Id, Comanda>): nat {
    |set id | id in comandas && comandas[id].status == EmPagamento|
  }

  ghost predicate NumeroTaken(comandas: map<Id, Comanda>, numero: string) {
    exists id :: id in comandas && Active(comandas[id]) && comandas[id].numero == numero
  }

  predicate ActiveAt(sessions: map<Id, Session>, id: Id, terminalId: string) {
    id in sessions && sessions[id].terminalId == terminalId && !sessions[id].status.Fechado?
  }

  /** `findActiveByTerminalId`; there is at most one. */
  ghost function ActiveSession(sessions: map<Id, Session>, terminalId: string): (found: Option<Id>)
    ensures found.Some? ==> ActiveAt(sessions, found.value, terminalId)
    ensures found.None? ==> forall id :: !ActiveAt(sessions, id, terminalId)
  {
    if exists id :: ActiveAt(sessions, id, terminalId) then
      var id :| ActiveAt(sessions, id, terminalId);
      Some(id)
    else None
  }

  // ---------- the ids a call generates ----------

  ghost function AllFor(ids: seq<Id>, owner: Id): (issued: map<Id, Id>)
    ensures forall id :: id in issued <==> id in ids
    ensures forall id :: id in issued ==> issued[id] == owner
  {
    map id | id in ids :: owner
  }

  ghost function Minted(b: Books, call: Call): map<Id, Id> {
    match call
    case OpenComandaCall(id, _, _, _, _) => map[id := id]
    case ComandaCall(id, change) =>
      if change.Add? then map[change.itemId := id] else if change.Bill? then map[change.preContaId := id] else map[]
    case SendCall(id, batchId, _, jobIds, _) => AllFor([batchId] + jobIds, id)
    case PaymentCall(id, paymentId, movementId, actor, _, _, _) =>
      map[paymentId := id][movementId := ActiveSession(b.sessions, actor.terminalId).GetOr(0)]
    case OpenCashCall(id, _, _, _, _) => map[id := id]
    case CashCall(terminalId, move) =>
      if CashRuns.Moves(move) then map[move.movementId := ActiveSession(b.sessions, terminalId).GetOr(0)] else map[]
    case PrintCall(work) => if work.Reprint? then map[work.copyId := work.copyId] else map[]
  }

  /** Generated ids are new and distinct. */
  ghost predicate Fresh(b: Books, call: Call) {
    && (forall id :: id in Minted(b, call) ==> id !in b.issued)
    && (call.SendCall? ==>
          && call.batchId !in call.jobIds
          && (forall i, j :: 0 <= i < j < |call.jobIds| ==> call.jobIds[i] != call.jobIds[j])
          && |Setores(BatchItems(SentOut(b, call), call.batchId))| <= |call.jobIds|)
    && (call.PaymentCall? ==> call.paymentId != call.movementId)
  }

  /** The closure call a terminal may make; it generates no id. */
  lemma ClosureOffered(b: Books, terminalId: string, at: Time)
    ensures var call := CashCall(terminalId, CashRuns.StartClosure(at, CountInPayment(b.comandas))); Offered(b, call) && Fresh(b, call)
  {
  }

  // ---------- the steps ----------

  /** The items of a batch as ticket lines, in item order. */
  function BatchItem(batchId: Id): Item -> Option<RequestItem> {
    (item: Item) =>
      if item.productionBatchId == Some(batchId) && item.status.Enviado?
      then Some(RequestItem(item.itemId, item.productLabel, item.quantity, item.setor, item.note)) else None
  }

  function BatchItems(comanda: Comanda, batchId: Id): seq<RequestItem> {
    Collect(comanda.items, BatchItem(batchId))
  }

  function TicketRequest(comanda: Comanda, batch: ProductionBatch): Request {
    Request(comanda.comandaId, comanda.numero, comanda.mesaId, batch.batchId, batch.sentAt, BatchItems(comanda, batch.batchId))
  }

  /** The comanda a change leaves in the database: the stored one read back and changed. */
  ghost function Changed(comanda: Comanda, change: ComandaRuns.Operation): Comanda {
    ComandaRuns.Step(Reload(comanda), change)
  }

  ghost predicate Accepted(comanda: Comanda, change: ComandaRuns.Operation) {
    !change.Store? && ComandaRuns.Apply(Reload(comanda), change).Ok?
  }

  /** The comanda a send stores; the one there when the send is refused. */
  ghost function SentOut(b: Books, call: Call): Comanda
    requires call.SendCall?
  {
    if call.comandaId in b.comandas then Changed(b.comandas[call.comandaId], ComandaRuns.Send(call.batchId, call.at))
    else Comanda(0, "", None, None, None, Aberta, 0, None, None, None, None, [], [], [], [])
  }

  ghost function CheckoutOf(call: Call): ComandaRuns.Operation
    requires call.PaymentCall?
  {
    ComandaRuns.Checkout([CheckoutPayment(call.paymentId, call.paymentMethod, call.amountCents)], call.at)
  }

  function ReceiptOf(call: Call, note: Option<string>): CashRuns.Operation
    requires call.PaymentCall?
  {
    CashRuns.Receive(call.movementId, call.actor, call.at, call.paymentMethod, call.amountCents, Some("COMANDA"),
                     Some(call.comandaId), note)
  }

  ghost function Moved(session: Session, move: CashRuns.Operation): Session {
    CashRuns.Step(ReloadSession(session), move)
  }

  function CheckoutNote(comanda: Comanda): Option<string> {
    Some("Checkout da comanda " + comanda.numero)
  }

  ghost function OpenComandaStep(b: Books, call: Call): Books
    requires call.OpenComandaCall?
  {
    if NumeroTaken(b.comandas, Trim(call.numero)) then b
    else
      match OpenComanda(call.comandaId, Trim(call.numero), call.mesaId, None, call.owner, call.at)
      case Err(_) => b
      case Ok(mutation) => b.(comandas := b.comandas[call.comandaId := mutation.comanda])
  }

  ghost function SendStep(b: Books, call: Call): Books
    requires call.SendCall? && Fresh(b, call)
  {
    var send := ComandaRuns.Send(call.batchId, call.at);
    if call.comandaId !in b.comandas || !Accepted(b.comandas[call.comandaId], send) then b
    else
      var comanda := SentOut(b, call);
      var batch := ComandaRuns.Apply(Reload(b.comandas[call.comandaId]), send).value.productionBatch;
      b.(comandas := b.comandas[call.comandaId := comanda],
         jobs := EnqueueTickets(b.jobs, TicketRequest(comanda, batch.value), call.jobIds, call.route))
  }

  ghost function PaymentStep(b: Books, call: Call): Books
    requires call.PaymentCall?
  {
    var active := ActiveSession(b.sessions, call.actor.terminalId);
    if call.comandaId !in b.comandas || active.None? then b
    else
      var comanda, session := b.comandas[call.comandaId], b.sessions[active.value];
      var receipt := ReceiptOf(call, CheckoutNote(comanda));
      if !Accepted(comanda, CheckoutOf(call)) || CashRuns.Apply(ReloadSession(session), receipt).Err? then b
      else b.(comandas := b.comandas[call.comandaId := Changed(comanda, CheckoutOf(call))],
              sessions := b.sessions[active.value := Moved(session, receipt)])
  }

  ghost function OpenCashStep(b: Books, call: Call): Books
    requires call.OpenCashCall?
  {
    if ActiveSession(b.sessions, call.actor.terminalId).Some? then b
    else
      match OpenCashSession(call.cashSessionId, call.actor, call.at, call.openingFund, call.openingReason)
      case Err(_) => b
      case Ok(session) => b.(sessions := b.sessions[call.cashSessionId := session])
  }

  ghost function CashStep(b: Books, call: Call): Books
    requires call.CashCall? && Offered(b, call)
  {
    var active := ActiveSession(b.sessions, call.terminalId);
    if active.None? then b
    else if CashRuns.Apply(ReloadSession(b.sessions[active.value]), call.move).Err? then b
    else b.(sessions := b.sessions[active.value := Moved(b.sessions[active.value], call.move)])
  }

  ghost function ComandaStep(b: Books, call: Call): Books
    requires call.ComandaCall? && Offered(b, call)
  {
    if call.comandaId !in b.comandas || !Accepted(b.comandas[call.comandaId], call.change) then b
    else b.(comandas := b.comandas[call.comandaId := Changed(b.comandas[call.comandaId], call.change)])
  }

  ghost function PrintStep(b: Books, call: Call): Books
    requires call.PrintCall? && Offered(b, call)
  {
    b.(jobs := match call.work
               case Worker(asOf, lease, outcome) => Work(b.jobs, asOf, lease, outcome)
               case Requeue(jobId, at) => Reprocess(b.jobs, jobId, at)
               case Reprint(originalId, copyId, at) => CreateSecondCopy(b.jobs, originalId, copyId, at))
  }

  ghost function Effect(b: Books, call: Call): Books
    requires Offered(b, call) && Fresh(b, call)
  {
    match call
    case OpenComandaCall(_, _, _, _, _) => OpenComandaStep(b, call)
    case ComandaCall(_, _) => ComandaStep(b, call)
    case SendCall(_, _, _, _, _) => SendStep(b, call)
    case PaymentCall(_, _, _, _, _, _, _) => PaymentStep(b, call)
    case OpenCashCall(_, _, _, _, _) => OpenCashStep(b, call)
    case CashCall(_, _) => CashStep(b, call)
    case PrintCall(_) => PrintStep(b, call)
  }

  /** A call's effect, or nothing when its transaction fails; its ids are used up either way. */
  ghost function Step(b: Books, call: Call, commits: bool): Books
    requires Offered(b, call) && Fresh(b, call)
  {
    (if commits then Effect(b, call) else b).(issued := b.issued + Minted(b, call))
  }

  ghost predicate Steps(b: Books, call: Call, later: Books) {
    Offered(b, call) && Fresh(b, call) && (later == Step(b, call, true) || later == Step(b, call, false))
  }

  /** A run records the books after every call, from the empty ones. */
  ghost predicate IsRun(trace: seq<Books>, calls: seq<Call>) {
    && |trace| == |calls| + 1
    && trace[0] == Books(map[], map[], [], map[])
    && forall i :: 0 <= i < |calls| ==> Steps(trace[i], calls[i], trace[i + 1])
  }
}
