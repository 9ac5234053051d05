/** The main results about the books: what holds after every run of service calls. */
module PdvSafety {
  import opened Wrappers
  import opened Rows
  import opened Text
  import opened Comandas
  import opened Cash
  import opened PrintSpool
  import opened PdvBooks
  import opened PdvRuns
  import opened PdvLedger
  import opened PdvTickets
  import ComandaRuns
  import CashRuns
  import PrintRuns
  import ComandaStore
  import CashStore

  ghost predicate OneComandaPerNumero(comandas: map<Id, Comanda>) {
    forall i, j :: (i in comandas && j in comandas && Active(comandas[i]) && Active(comandas[j])
                    && comandas[i].numero == comandas[j].numero) ==> i == j
  }

  ghost predicate OneSessionPerTerminal(sessions: map<Id, Session>) {
    forall i, j :: (i in sessions && j in sessions && !sessions[i].status.Fechado? && !sessions[j].status.Fechado?
                    && sessions[i].terminalId == sessions[j].terminalId) ==> i == j
  }

  ghost predicate Inv(b: Books) {
    && ComandasOk(b.comandas, b.issued)
    && SessionsOk(b.sessions, b.issued)
    && SpoolOk(b.jobs, b.issued)
    && OneComandaPerNumero(b.comandas)
    && OneSessionPerTerminal(b.sessions)
    && Balanced(b.comandas, b.sessions)
    && TicketsOk(b.comandas, b.jobs)
  }

  // ---------- ids used up ----------

  lemma MintedExtends(b: Books, call: Call)
    requires Fresh(b, call)
    ensures Extended(b.issued, b.issued + Minted(b, call))
    ensures forall id :: id in Minted(b, call) ==>
              id !in b.issued && OwnedBy(b.issued + Minted(b, call), id, Minted(b, call)[id])
  {
    hide Minted;
  }

  lemma ComandasStay(comandas: map<Id, Comanda>, issued: map<Id, Id>, later: map<Id, Id>)
    requires ComandasOk(comandas, issued) && Extended(issued, later)
    ensures ComandasOk(comandas, later)
  {
    hide ComandaOk;
    forall id | id in comandas ensures ComandaOk(comandas[id], id, later) {
      ComandaStaysOk(comandas[id], id, issued, later);
    }
  }

  lemma SessionsStay(sessions: map<Id, Session>, issued: map<Id, Id>, later: map<Id, Id>)
    requires SessionsOk(sessions, issued) && Extended(issued, later)
    ensures SessionsOk(sessions, later)
  {
    hide SessionOk;
    forall id | id in sessions ensures SessionOk(sessions[id], id, later) {
      SessionStaysOk(sessions[id], id, issued, later);
    }
  }

  lemma SpoolStays(jobs: Spool, issued: map<Id, Id>, later: map<Id, Id>)
    requires SpoolOk(jobs, issued) && Extended(issued, later)
    ensures SpoolOk(jobs, later)
  {
    hide PrintRuns.Inv;
  }

  lemma IssuedGrows(b: Books, later: map<Id, Id>)
    requires Inv(b) && Extended(b.issued, later)
    ensures Inv(b.(issued := later))
  {
    hide ComandasOk, SessionsOk, SpoolOk, OneComandaPerNumero, OneSessionPerTerminal, Balanced, TicketsOk;
    ComandasStay(b.comandas, b.issued, later);
    SessionsStay(b.sessions, b.issued, later);
    SpoolStays(b.jobs, b.issued, later);
  }

  // ---------- comandas and sessions stay unique ----------

  lemma NumeroKept(comandas: map<Id, Comanda>, id: Id, after: Comanda)
    requires OneComandaPerNumero(comandas)
    requires if id in comandas then after.numero == comandas[id].numero && (Active(after) ==> Active(comandas[id]))
             else !NumeroTaken(comandas, after.numero)
    ensures OneComandaPerNumero(comandas[id := after])
  {
  }

  lemma TerminalKept(sessions: map<Id, Session>, id: Id, after: Session)
    requires OneSessionPerTerminal(sessions)
    requires if id in sessions then after.terminalId == sessions[id].terminalId && (!after.status.Fechado? ==> !sessions[id].status.Fechado?)
             else ActiveSession(sessions, after.terminalId).None?
    ensures OneSessionPerTerminal(sessions[id := after])
  {
    if id !in sessions {
      forall k | k in sessions && !sessions[k].status.Fechado? ensures sessions[k].terminalId != after.terminalId {
        assert !ActiveAt(sessions, k, after.terminalId);
      }
    }
  }

  // ---------- every call keeps the invariant ----------

  lemma ChangeKeeps(b: Books, id: Id, change: ComandaRuns.Operation, later: map<Id, Id>)
    requires Inv(b) && id in b.comandas && Mints(b.issued, later, id, change)
    requires !change.Store? && !change.Send? && !change.Checkout?
    ensures Inv(Books(b.comandas[id := Changed(b.comandas[id], change)], b.sessions, b.jobs, later))
    ensures ComandaStore.Saveable(b.comandas, Changed(b.comandas[id], change))
  {
    var before := b.comandas[id];
    assert ComandaOk(before, id, b.issued) && ComandaRuns.Inv(before) && Extended(b.issued, later);
    hide ComandaRuns.Inv, ComandaOk, Changed, ItemsGrow, TicketsOk, Balanced, OneComandaPerNumero,
      ComandaStore.Saveable, Mints, SessionsOk, SpoolOk;
    ChangedOk(before, id, b.issued, later, change);
    SaveAccepted(b.comandas, id, Changed(before, change), b.issued, later, change);
    ComandasUpdated(b.comandas, b.issued, later, id, Changed(before, change));
    SessionsStay(b.sessions, b.issued, later);
    SpoolStays(b.jobs, b.issued, later);
    NumeroKept(b.comandas, id, Changed(before, change));
    PaymentsStay(before, change);
    SameComandaPayments(b.comandas, b.sessions, id, Changed(before, change));
    ComandaGrown(b.comandas, b.jobs, id, Changed(before, change), AddedItem(change));
  }

  lemma MoveKeeps(b: Books, id: Id, move: CashRuns.Operation, later: map<Id, Id>)
    requires Inv(b) && id in b.sessions && Extended(b.issued, later) && !move.Store?
    requires CashRuns.Moves(move) ==> move.movementId !in b.issued && OwnedBy(later, move.movementId, id)
    requires move.Receive? ==> move.sourceEntity.None?
    ensures Inv(Books(b.comandas, b.sessions[id := Moved(b.sessions[id], move)], b.jobs, later))
    ensures CashStore.Saveable(b.sessions, Moved(b.sessions[id], move))
  {
    var before := b.sessions[id];
    assert SessionOk(before, id, b.issued) && CashRuns.Inv(before);
    MoveAddsOne(ReloadSession(before), move);
    hide CashRuns.Inv, SessionOk, Moved, TicketsOk, Balanced, OneSessionPerTerminal, CashStore.Saveable, ComandasOk, SpoolOk;
    MovedOk(before, id, b.issued, later, move);
    SessionSaveAccepted(b.sessions, id, move, b.issued, later);
    SessionsUpdated(b.sessions, b.issued, later, id, Moved(before, move));
    ComandasStay(b.comandas, b.issued, later);
    SpoolStays(b.jobs, b.issued, later);
    MovedTerminal(before, move);
    TerminalKept(b.sessions, id, Moved(before, move));
    UnsourcedMove(b.comandas, b.sessions, id, move);
  }

  lemma MovedTerminal(s: Session, move: CashRuns.Operation)
    requires !move.Store?
    ensures Moved(s, move).terminalId == s.terminalId
    ensures !Moved(s, move).status.Fechado? ==> !s.status.Fechado?
  {
    MoveAddsOne(ReloadSession(s), move);
  }

  lemma UnknownComanda(comandas: map<Id, Comanda>, issued: map<Id, Id>, id: Id)
    requires ComandasOk(comandas, issued) && id !in issued
    ensures id !in comandas
  {
  }

  lemma UnknownSession(sessions: map<Id, Session>, issued: map<Id, Id>, id: Id)
    requires SessionsOk(sessions, issued) && id !in issued
    ensures id !in sessions
  {
  }

  lemma OpenKeeps(b: Books, id: Id, comanda: Comanda, later: map<Id, Id>)
    requires Inv(b) && Extended(b.issued, later) && id !in b.issued && id in later
    requires comanda.comandaId == id && ComandaRuns.Inv(comanda) && !NumeroTaken(b.comandas, comanda.numero)
    requires comanda.items == [] && comanda.payments == [] && comanda.preContas == [] && comanda.productionBatches == []
    ensures Inv(Books(b.comandas[id := comanda], b.sessions, b.jobs, later))
    ensures ComandaStore.Saveable(b.comandas, comanda)
  {
    UnknownComanda(b.comandas, b.issued, id);
    EmptyComandaOk(b.comandas, comanda, later);
    hide ComandaRuns.Inv, ComandaOk, ItemsGrow, TicketsOk, Balanced, OneComandaPerNumero, ComandaStore.Saveable, SessionsOk, SpoolOk;
    ComandasUpdated(b.comandas, b.issued, later, id, comanda);
    SessionsStay(b.sessions, b.issued, later);
    SpoolStays(b.jobs, b.issued, later);
    NumeroKept(b.comandas, id, comanda);
    SameComandaPayments(b.comandas, b.sessions, id, comanda);
    ComandaGrown(b.comandas, b.jobs, id, comanda, None);
  }

  lemma EmptyComandaOk(comandas: map<Id, Comanda>, comanda: Comanda, issued: map<Id, Id>)
    requires comanda.comandaId in issued && comanda.comandaId !in comandas && ComandaRuns.Inv(comanda)
    requires comanda.items == [] && comanda.payments == [] && comanda.preContas == [] && comanda.productionBatches == []
    ensures ComandaOk(comanda, comanda.comandaId, issued)
    ensures ComandaStore.Saveable(comandas, comanda)
  {
  }

  lemma OpenCashKeeps(b: Books, id: Id, session: Session, later: map<Id, Id>)
    requires Inv(b) && Extended(b.issued, later) && id !in b.issued && id in later
    requires session.cashSessionId == id && CashRuns.Inv(session) && session.movements == []
    requires ActiveSession(b.sessions, session.terminalId).None?
    ensures Inv(Books(b.comandas, b.sessions[id := session], b.jobs, later))
    ensures CashStore.Saveable(b.sessions, session)
  {
    UnknownSession(b.sessions, b.issued, id);
    assert SessionOk(session, id, later);
    hide CashRuns.Inv, SessionOk, TicketsOk, Balanced, OneSessionPerTerminal, ComandasOk, SpoolOk;
    SessionsUpdated(b.sessions, b.issued, later, id, session);
    ComandasStay(b.comandas, b.issued, later);
    SpoolStays(b.jobs, b.issued, later);
    TerminalKept(b.sessions, id, session);
    SessionOpened(b.comandas, b.sessions, id, session);
  }

  // ---------- a send ----------

  lemma BatchIsNew(jobs: Spool, issued: map<Id, Id>, batchId: Id)
    requires SpoolOk(jobs, issued) && batchId !in issued
    ensures NewBatch(jobs, batchId)
  {
    hide PrintRuns.Inv;
  }

  lemma NotYetListed(c: Comanda, batchId: Id, x: Item)
    requires ComandaRuns.Inv(c) && FindBatch(c.productionBatches, batchId) == |c.productionBatches| && x in c.items
    ensures x.productionBatchId != Some(batchId)
  {
    assert x.productionBatchId.Some? ==> ComandaRuns.Listed(c.productionBatches, x.productionBatchId.value, x.itemId);
  }

  /** The items of a new batch are exactly those it sent. */
  lemma BatchItemsSent(c: Comanda, send: ComandaRuns.Operation)
    requires ComandaRuns.Inv(c) && send.Send? && FindBatch(c.productionBatches, send.batchId) == |c.productionBatches|
    requires ComandaRuns.Apply(c, send).Ok?
    ensures forall x :: x in ComandaRuns.Step(c, send).items && x.productionBatchId == Some(send.batchId) ==> x.status.Enviado?
    ensures ComandaRuns.Apply(c, send).value.productionBatch.Some?
    ensures ComandaRuns.Apply(c, send).value.productionBatch.value.batchId == send.batchId
  {
    hide FirstOccurrences;
    var after := ComandaRuns.Step(c, send).items;
    forall x | x in after && x.productionBatchId == Some(send.batchId) ensures x.status.Enviado? {
      var i := IndexOf(after, x);
      assert c.items[i] in c.items && x == MarkSent(c.items[i], send.batchId, send.at);
      NotYetListed(c, send.batchId, c.items[i]);
    }
  }

  lemma BatchUnknown(c: Comanda, id: Id, issued: map<Id, Id>, batchId: Id)
    requires ComandaOk(c, id, issued) && batchId !in issued
    ensures FindBatch(c.productionBatches, batchId) == |c.productionBatches|
  {
    hide ComandaRuns.Inv;
  }

  lemma SpoolSent(jobs: Spool, comanda: Comanda, batch: ProductionBatch, jobIds: seq<Id>, route: string -> Option<string>,
                  issued: map<Id, Id>, later: map<Id, Id>)
    requires SpoolOk(jobs, issued) && Extended(issued, later) && batch.batchId in later
    requires forall j :: j in jobIds ==> j !in issued && j in later
    requires forall i, j :: 0 <= i < j < |jobIds| ==> jobIds[i] != jobIds[j]
    requires |Setores(BatchItems(comanda, batch.batchId))| <= |jobIds|
    ensures SpoolOk(EnqueueTickets(jobs, TicketRequest(comanda, batch), jobIds, route), later)
  {
    var request := TicketRequest(comanda, batch);
    var groups := Groups(request.items);
    assert forall i :: 0 <= i < |jobIds| ==> PrintRuns.Unused(jobs, jobIds[i]);
    PrintRuns.TicketsKeepInv(jobs, request, groups, jobIds, route);
    hide PrintRuns.Inv;
    SpoolStays(jobs, issued, later);
    IdsEnqueued(jobs, request, groups, jobIds, route, later);
  }

  predicate JobIssued(job: Job, issued: map<Id, Id>) {
    job.printJobId in issued && (job.dedupKey.ProductionKey? ==> job.dedupKey.batchId in issued)
  }

  ghost predicate AllIssued(jobs: Spool, issued: map<Id, Id>) {
    forall j :: 0 <= j < |jobs| ==> JobIssued(jobs[j], issued)
  }

  lemma {:induction false} IdsEnqueued(jobs: Spool, request: Request, groups: seq<Group>, jobIds: seq<Id>,
                                       route: string -> Option<string>, issued: map<Id, Id>)
    requires |groups| <= |jobIds| && request.batchId in issued && (forall j :: j in jobIds ==> j in issued)
    requires AllIssued(jobs, issued)
    ensures AllIssued(EnqueueGroups(jobs, request, groups, jobIds, route), issued)
    decreases groups
  {
    if groups != [] {
      var n := |groups| - 1;
      IdsEnqueued(jobs, request, groups[..n], jobIds, route, issued);
      var before := EnqueueGroups(jobs, request, groups[..n], jobIds, route);
      var job := ProductionJob(jobIds[n], request, groups[n], route);
      assert jobIds[n] in jobIds && JobIssued(job, issued);
      assert AllIssued(Enqueue(before, job), issued);
    }
  }

  lemma SendKeeps(b: Books, id: Id, send: ComandaRuns.Operation, jobIds: seq<Id>, route: string -> Option<string>, later: map<Id, Id>)
    requires Inv(b) && id in b.comandas && send.Send? && Mints(b.issued, later, id, send)
    requires Accepted(b.comandas[id], send)
    requires forall j :: j in jobIds ==> j !in b.issued && j in later
    requires forall i, j :: 0 <= i < j < |jobIds| ==> jobIds[i] != jobIds[j]
    requires |Setores(BatchItems(Changed(b.comandas[id], send), send.batchId))| <= |jobIds|
    ensures var batch := ComandaRuns.Apply(Reload(b.comandas[id]), send).value.productionBatch;
            && batch.Some? && batch.value.batchId == send.batchId
            && Inv(Books(b.comandas[id := Changed(b.comandas[id], send)], b.sessions,
                         EnqueueTickets(b.jobs, TicketRequest(Changed(b.comandas[id], send), batch.value), jobIds, route), later))
    ensures ComandaStore.Saveable(b.comandas, Changed(b.comandas[id], send))
  {
    var before, after := b.comandas[id], Changed(b.comandas[id], send);
    assert ComandaOk(before, id, b.issued) && ComandaRuns.Inv(before) && Extended(b.issued, later) && OwnedBy(later, send.batchId, id);
    LoadedOk(before, send);
    BatchUnknown(before, id, b.issued, send.batchId);
    BatchItemsSent(Reload(before), send);
    var batch := ComandaRuns.Apply(Reload(before), send).value.productionBatch.value;
    ChangedOk(before, id, b.issued, later, send);
    SaveAccepted(b.comandas, id, after, b.issued, later, send);
    hide ComandaRuns.Inv, ComandaOk, Changed, ItemsGrow, TicketsOk, Balanced, OneComandaPerNumero, ComandaStore.Saveable,
      SessionsOk, SpoolOk, EnqueueTickets, TicketRequest, BatchItems;
    ComandasUpdated(b.comandas, b.issued, later, id, after);
    SessionsStay(b.sessions, b.issued, later);
    NumeroKept(b.comandas, id, after);
    PaymentsStay(before, send);
    SameComandaPayments(b.comandas, b.sessions, id, after);
    BatchIsNew(b.jobs, b.issued, send.batchId);
    SpoolSent(b.jobs, after, batch, jobIds, route, b.issued, later);
    assert DistinctBy(after.items, ItemKey) by { ItemsDistinct(after, id, later); }
    SendKeepsTickets(b.comandas, b.jobs, id, after, batch, jobIds, route);
  }

  lemma ItemsDistinct(c: Comanda, id: Id, issued: map<Id, Id>)
    requires ComandaOk(c, id, issued)
    ensures DistinctBy(c.items, ItemKey)
  {
  }

  // ---------- a confirmed payment ----------

  lemma PaymentKeeps(b: Books, id: Id, checkout: ComandaRuns.Operation, sessionId: Id, receipt: CashRuns.Operation, later: map<Id, Id>)
    requires Inv(b) && id in b.comandas && sessionId in b.sessions && Mints(b.issued, later, id, checkout)
    requires checkout.Checkout? && |checkout.payments| == 1 && Accepted(b.comandas[id], checkout)
    requires receipt.Receive? && receipt.sourceEntity == Some("COMANDA") && receipt.sourceEntityId == Some(id)
    requires receipt.paymentMethod == checkout.payments[0].paymentMethod && receipt.amountCents == checkout.payments[0].amountCents
    requires Records(ReloadSession(b.sessions[sessionId]), receipt)
    requires receipt.movementId !in b.issued && OwnedBy(later, receipt.movementId, sessionId)
    ensures Inv(Books(b.comandas[id := Changed(b.comandas[id], checkout)],
                      b.sessions[sessionId := Moved(b.sessions[sessionId], receipt)], b.jobs, later))
    ensures ComandaStore.Saveable(b.comandas, Changed(b.comandas[id], checkout))
    ensures CashStore.Saveable(b.sessions, Moved(b.sessions[sessionId], receipt))
  {
    var before, session := b.comandas[id], b.sessions[sessionId];
    var payment := Payment(checkout.payments[0].paymentId, checkout.payments[0].paymentMethod, checkout.payments[0].amountCents, checkout.at);
    assert ComandaOk(before, id, b.issued) && ComandaRuns.Inv(before) && Extended(b.issued, later);
    assert SessionOk(session, sessionId, b.issued) && CashRuns.Inv(session);
    hide ComandaRuns.Inv, CashRuns.Inv, ComandaOk, SessionOk, Changed, Moved, ItemsGrow, TicketsOk, Balanced, Records, Accepted,
      OneComandaPerNumero, OneSessionPerTerminal, ComandaStore.Saveable, CashStore.Saveable, SpoolOk;
    ChangedOk(before, id, b.issued, later, checkout);
    SaveAccepted(b.comandas, id, Changed(before, checkout), b.issued, later, checkout);
    ComandasUpdated(b.comandas, b.issued, later, id, Changed(before, checkout));
    NumeroKept(b.comandas, id, Changed(before, checkout));
    ComandaGrown(b.comandas, b.jobs, id, Changed(before, checkout), None);
    MovedOk(session, sessionId, b.issued, later, receipt);
    SessionSaveAccepted(b.sessions, sessionId, receipt, b.issued, later);
    SessionsUpdated(b.sessions, b.issued, later, sessionId, Moved(session, receipt));
    MovedTerminal(session, receipt);
    TerminalKept(b.sessions, sessionId, Moved(session, receipt));
    SpoolStays(b.jobs, b.issued, later);
    CheckoutPays(before, checkout);
    PaymentMade(b.comandas, b.sessions, id, Changed(before, checkout), payment, sessionId, receipt);
  }

  // ---------- every call ----------

  lemma OpenedNumero(id: Id, numero: string, mesaId: Option<string>, owner: Option<string>, at: Time)
    requires OpenComanda(id, Trim(numero), mesaId, None, owner, at).Ok?
    ensures var comanda := OpenComanda(id, Trim(numero), mesaId, None, owner, at).value.comanda;
            && comanda.comandaId == id && comanda.numero == Trim(numero) && ComandaRuns.Inv(comanda)
            && comanda.items == [] && comanda.payments == [] && comanda.preContas == [] && comanda.productionBatches == []
  {
    TrimTwice(numero);
    ComandaRuns.OpenedComandaInv(id, Trim(numero), mesaId, None, owner, at);
  }

  lemma OpenComandaStepKeeps(b: Books, call: Call, later: map<Id, Id>)
    requires Inv(b) && call.OpenComandaCall? && Extended(b.issued, later)
    requires call.comandaId !in b.issued && call.comandaId in later
    ensures Inv(OpenComandaStep(b, call).(issued := later))
  {
    IssuedGrows(b, later);
    if !NumeroTaken(b.comandas, Trim(call.numero))
      && OpenComanda(call.comandaId, Trim(call.numero), call.mesaId, None, call.owner, call.at).Ok? {
      OpenedNumero(call.comandaId, call.numero, call.mesaId, call.owner, call.at);
      hide Inv, ComandaRuns.Inv;
      OpenKeeps(b, call.comandaId,
                OpenComanda(call.comandaId, Trim(call.numero), call.mesaId, None, call.owner, call.at).value.comanda, later);
    }
  }

  /** An opened comanda is one the tables accept. */
  lemma OpenAccepted(b: Books, call: Call)
    requires Inv(b) && call.OpenComandaCall? && Fresh(b, call)
    ensures var mutation := OpenComanda(call.comandaId, Trim(call.numero), call.mesaId, None, call.owner, call.at);
            if NumeroTaken(b.comandas, Trim(call.numero)) || mutation.Err? then Effect(b, call) == b
            else
              && mutation.value.comanda.comandaId == call.comandaId
              && ComandaStore.Saveable(b.comandas, mutation.value.comanda)
              && Effect(b, call) == b.(comandas := b.comandas[call.comandaId := mutation.value.comanda])
  {
    if !NumeroTaken(b.comandas, Trim(call.numero))
      && OpenComanda(call.comandaId, Trim(call.numero), call.mesaId, None, call.owner, call.at).Ok? {
      MintedExtends(b, call);
      OpenedNumero(call.comandaId, call.numero, call.mesaId, call.owner, call.at);
      hide Inv, ComandaRuns.Inv;
      OpenKeeps(b, call.comandaId,
                OpenComanda(call.comandaId, Trim(call.numero), call.mesaId, None, call.owner, call.at).value.comanda,
                b.issued + Minted(b, call));
    }
  }

  lemma ComandaMints(b: Books, call: Call, later: map<Id, Id>)
    requires call.ComandaCall? && Offered(b, call) && Fresh(b, call) && later == b.issued + Minted(b, call)
    ensures Mints(b.issued, later, call.comandaId, call.change)
  {
    MintedExtends(b, call);
  }

  lemma ComandaStepKeeps(b: Books, call: Call, later: map<Id, Id>)
    requires Inv(b) && call.ComandaCall? && Offered(b, call) && Mints(b.issued, later, call.comandaId, call.change)
    ensures Inv(ComandaStep(b, call).(issued := later))
  {
    hide Inv, Changed, Accepted;
    assert Extended(b.issued, later);
    IssuedGrows(b, later);
    if call.comandaId in b.comandas && Accepted(b.comandas[call.comandaId], call.change) {
      ChangeKeeps(b, call.comandaId, call.change, later);
    }
  }

  lemma SendMints(b: Books, call: Call, later: map<Id, Id>)
    requires call.SendCall? && Fresh(b, call) && later == b.issued + Minted(b, call)
    ensures Mints(b.issued, later, call.comandaId, ComandaRuns.Send(call.batchId, call.at))
    ensures forall j :: j in call.jobIds ==> j !in b.issued && j in later
  {
    MintedExtends(b, call);
    hide Setores, BatchItems, SentOut;
  }

  lemma SendStepKeeps(b: Books, call: Call, later: map<Id, Id>)
    requires Inv(b) && call.SendCall? && Fresh(b, call) && later == b.issued + Minted(b, call)
    ensures Inv(SendStep(b, call).(issued := later))
  {
    SendMints(b, call, later);
    assert Extended(b.issued, later);
    hide Inv, Changed, Accepted, EnqueueTickets, BatchItems, Setores, Minted, Mints, TicketRequest, ComandaRuns.Apply;
    IssuedGrows(b, later);
    var send := ComandaRuns.Send(call.batchId, call.at);
    if call.comandaId in b.comandas && Accepted(b.comandas[call.comandaId], send) {
      SendKeeps(b, call.comandaId, send, call.jobIds, call.route, later);
    }
  }

  lemma PaymentMints(b: Books, call: Call, later: map<Id, Id>)
    requires call.PaymentCall? && Fresh(b, call) && later == b.issued + Minted(b, call)
    ensures Mints(b.issued, later, call.comandaId, CheckoutOf(call)) && Extended(b.issued, later)
    ensures call.movementId !in b.issued
    ensures OwnedBy(later, call.movementId, ActiveSession(b.sessions, call.actor.terminalId).GetOr(0))
  {
    MintedExtends(b, call);
  }

  lemma PaymentStepKeeps(b: Books, call: Call, later: map<Id, Id>)
    requires Inv(b) && call.PaymentCall? && Fresh(b, call) && later == b.issued + Minted(b, call)
    ensures Inv(PaymentStep(b, call).(issued := later))
  {
    hide Inv, Changed, Accepted, Moved, ReloadSession, ReceiveCashPayment, Minted, Mints, Fresh, OwnedBy, Extended;
    PaymentMints(b, call, later);
    IssuedGrows(b, later);
    var active := ActiveSession(b.sessions, call.actor.terminalId);
    if call.comandaId in b.comandas && active.Some? && Accepted(b.comandas[call.comandaId], CheckoutOf(call)) {
      var receipt := ReceiptOf(call, CheckoutNote(b.comandas[call.comandaId]));
      if CashRuns.Apply(ReloadSession(b.sessions[active.value]), receipt).Ok? {
        PaymentKeeps(b, call.comandaId, CheckoutOf(call), active.value, receipt, later);
      }
    }
  }

  lemma OpenCashStepKeeps(b: Books, call: Call, later: map<Id, Id>)
    requires Inv(b) && call.OpenCashCall? && Extended(b.issued, later)
    requires call.cashSessionId !in b.issued && call.cashSessionId in later
    ensures Inv(OpenCashStep(b, call).(issued := later))
  {
    IssuedGrows(b, later);
    var session := OpenCashSession(call.cashSessionId, call.actor, call.at, call.openingFund, call.openingReason);
    if ActiveSession(b.sessions, call.actor.terminalId).None? && session.Ok? {
      CashRuns.OpenedSessionInv(call.cashSessionId, call.actor, call.at, call.openingFund, call.openingReason);
      hide Inv, CashRuns.Inv;
      OpenCashKeeps(b, call.cashSessionId, session.value, later);
    }
  }

  lemma CashMints(b: Books, call: Call, later: map<Id, Id>)
    requires call.CashCall? && Offered(b, call) && Fresh(b, call) && later == b.issued + Minted(b, call)
    ensures Extended(b.issued, later) && !call.move.Store? && (call.move.Receive? ==> call.move.sourceEntity.None?)
    ensures CashRuns.Moves(call.move) ==>
              && call.move.movementId !in b.issued
              && OwnedBy(later, call.move.movementId, ActiveSession(b.sessions, call.terminalId).GetOr(0))
  {
    MintedExtends(b, call);
  }

  lemma CashStepKeeps(b: Books, call: Call, later: map<Id, Id>)
    requires Inv(b) && call.CashCall? && Offered(b, call) && Fresh(b, call) && later == b.issued + Minted(b, call)
    ensures Inv(CashStep(b, call).(issued := later))
  {
    CashMints(b, call, later);
    hide Inv, Moved, ReloadSession, CashRuns.Apply, Minted, Fresh, Extended, Offered;
    IssuedGrows(b, later);
    var active := ActiveSession(b.sessions, call.terminalId);
    if active.Some? {
      MoveKeeps(b, active.value, call.move, later);
    }
  }

  lemma PrintStepKeeps(b: Books, call: Call, later: map<Id, Id>)
    requires Inv(b) && call.PrintCall? && Offered(b, call) && Fresh(b, call) && later == b.issued + Minted(b, call)
    ensures Inv(PrintStep(b, call).(issued := later))
  {
    MintedExtends(b, call);
    var jobs := PrintStep(b, call).jobs;
    SpoolWorkedOk(b.jobs, call.work, b.issued, later);
    WorkKeepsTickets(b.jobs, call.work);
    SpoolWorked(b.comandas, b.jobs, jobs);
    hide ComandasOk, SessionsOk, SpoolOk, OneComandaPerNumero, OneSessionPerTerminal, Balanced, TicketsOk, Minted;
    ComandasStay(b.comandas, b.issued, later);
    SessionsStay(b.sessions, b.issued, later);
  }

  lemma SpoolWorkedOk(jobs: Spool, work: PrintRuns.Operation, issued: map<Id, Id>, later: map<Id, Id>)
    requires SpoolOk(jobs, issued) && !work.Tickets? && Extended(issued, later)
    requires work.Reprint? ==> work.copyId !in issued && work.copyId in later
    ensures PrintRuns.FreshIds(jobs, work) && SpoolOk(PrintRuns.Step(jobs, work), later)
  {
    assert PrintRuns.FreshIds(jobs, work) by {
      hide PrintRuns.Inv;
    }
    PrintRuns.StepKeepsInv(jobs, work);
    WorkKeepsTickets(jobs, work);
    WorkKeepsIssued(jobs, work, issued, later);
  }

  lemma WorkKeepsIssued(jobs: Spool, work: PrintRuns.Operation, issued: map<Id, Id>, later: map<Id, Id>)
    requires SpoolOk(jobs, issued) && !work.Tickets? && Extended(issued, later) && PrintRuns.FreshIds(jobs, work)
    requires work.Reprint? ==> work.copyId in later
    ensures AllIssued(PrintRuns.Step(jobs, work), later)
  {
    assert AllIssued(jobs, later) by { hide PrintRuns.Inv; }
    match work
    case Worker(asOf, lease, outcome) =>
      var k := FirstReady(jobs, asOf);
      if k < |jobs| {
        assert PrintRuns.JobOk(jobs[k]);
        PrintRuns.ProcessedOk(jobs[k], asOf, lease, outcome);
        hide ProcessClaimedJob, PrintRuns.Inv, SpoolOk;
      }
    case Requeue(jobId, at) =>
      hide PrintRuns.Inv, SpoolOk;
    case Reprint(originalId, copyId, at) =>
      hide PrintRuns.Inv, SpoolOk;
  }

  lemma EffectKeepsInv(b: Books, call: Call)
    requires Inv(b) && Offered(b, call) && Fresh(b, call)
    ensures Inv(Effect(b, call).(issued := b.issued + Minted(b, call)))
  {
    var later := b.issued + Minted(b, call);
    MintedExtends(b, call);
    hide Inv;
    match call
    case OpenComandaCall(_, _, _, _, _) => OpenComandaStepKeeps(b, call, later);
    case ComandaCall(_, _) =>
      ComandaMints(b, call, later);
      ComandaStepKeeps(b, call, later);
    case SendCall(_, _, _, _, _) => SendStepKeeps(b, call, later);
    case PaymentCall(_, _, _, _, _, _, _) => PaymentStepKeeps(b, call, later);
    case OpenCashCall(_, _, _, _, _) => OpenCashStepKeeps(b, call, later);
    case CashCall(_, _) => CashStepKeeps(b, call, later);
    case PrintCall(_) => PrintStepKeeps(b, call, later);
  }

  /** Every call keeps the invariant, whether it is accepted, refused or rolled back. */
  lemma StepKeepsInv(b: Books, call: Call, commits: bool)
    requires Inv(b) && Offered(b, call) && Fresh(b, call)
    ensures Inv(Step(b, call, commits))
  {
    hide Inv, Effect, Minted, Fresh, Offered;
    if commits {
      EffectKeepsInv(b, call);
    } else {
      MintedExtends(b, call);
      IssuedGrows(b, b.issued + Minted(b, call));
    }
  }

  lemma {:induction false} ReachableBooks(trace: seq<Books>, calls: seq<Call>, i: nat)
    requires IsRun(trace, calls) && i < |trace|
    ensures Inv(trace[i])
  {
    if i == 0 {
      EmptyBooks();
    } else {
      ReachableBooks(trace, calls, i - 1);
      assert Steps(trace[i - 1], calls[i - 1], trace[i]);
      hide Inv, Step, Offered, Fresh;
      StepKeepsInv(trace[i - 1], calls[i - 1], true);
      StepKeepsInv(trace[i - 1], calls[i - 1], false);
    }
  }

  lemma EmptyBooks()
    ensures Inv(Books(map[], map[], [], map[]))
  {
  }

  // ---------- what a call stores, and that the tables accept it ----------

  lemma ChangeAccepted(b: Books, call: Call)
    requires Inv(b) && call.ComandaCall? && Offered(b, call) && Fresh(b, call)
    ensures var id := call.comandaId;
            if id !in b.comandas || !Accepted(b.comandas[id], call.change) then Effect(b, call) == b
            else
              var after := ComandaRuns.Apply(Reload(b.comandas[id]), call.change).value.comanda;
              && after.comandaId == id && ComandaStore.Saveable(b.comandas, after)
              && Effect(b, call) == b.(comandas := b.comandas[id := after])
  {
    var later := b.issued + Minted(b, call);
    ComandaMints(b, call, later);
    hide Inv, Mints, ComandaRuns.Apply, Reload;
    if call.comandaId in b.comandas && Accepted(b.comandas[call.comandaId], call.change) {
      ChangeKeeps(b, call.comandaId, call.change, later);
      KeepsId(b, Changed(b.comandas[call.comandaId], call.change), call.comandaId, later);
    }
  }

  lemma KeepsId(b: Books, after: Comanda, id: Id, later: map<Id, Id>)
    requires Inv(Books(b.comandas[id := after], b.sessions, b.jobs, later))
    ensures after.comandaId == id
  {
    hide ComandaRuns.Inv;
    assert ComandaOk(b.comandas[id := after][id], id, later);
  }

  lemma SendAccepted(b: Books, call: Call)
    requires Inv(b) && call.SendCall? && Fresh(b, call)
    ensures var id := call.comandaId;
            var send := ComandaRuns.Send(call.batchId, call.at);
            if id !in b.comandas || !Accepted(b.comandas[id], send) then Effect(b, call) == b
            else
              var mutation := ComandaRuns.Apply(Reload(b.comandas[id]), send).value;
              && mutation.comanda.comandaId == id && ComandaStore.Saveable(b.comandas, mutation.comanda)
              && mutation.productionBatch.Some? && mutation.productionBatch.value.batchId == call.batchId
              && |Setores(TicketRequest(mutation.comanda, mutation.productionBatch.value).items)| <= |call.jobIds|
              && Effect(b, call) ==
                   b.(comandas := b.comandas[id := mutation.comanda],
                      jobs := EnqueueTickets(b.jobs, TicketRequest(mutation.comanda, mutation.productionBatch.value), call.jobIds, call.route))
  {
    var (id, later) := (call.comandaId, b.issued + Minted(b, call));
    SendMints(b, call, later);
    hide Inv, Mints, ComandaRuns.Apply, Reload, EnqueueTickets, BatchItems, Setores, Minted;
    var send := ComandaRuns.Send(call.batchId, call.at);
    if id in b.comandas && Accepted(b.comandas[id], send) {
      SendKeeps(b, id, send, call.jobIds, call.route, later);
      var batch := ComandaRuns.Apply(Reload(b.comandas[id]), send).value.productionBatch.value;
      KeepsId(b.(jobs := EnqueueTickets(b.jobs, TicketRequest(Changed(b.comandas[id], send), batch), call.jobIds, call.route)),
              Changed(b.comandas[id], send), id, later);
    }
  }

  lemma OneOpenSession(b: Books)
    requires Inv(b)
    ensures OneSessionPerTerminal(b.sessions)
  {
  }

  lemma PaymentAccepted(b: Books, call: Call)
    requires Inv(b) && call.PaymentCall? && Fresh(b, call)
    ensures var id := call.comandaId;
            var active := ActiveSession(b.sessions, call.actor.terminalId);
            if id !in b.comandas || active.None? || !Accepted(b.comandas[id], CheckoutOf(call)) then Effect(b, call) == b
            else
              var comanda := ComandaRuns.Apply(Reload(b.comandas[id]), CheckoutOf(call)).value.comanda;
              var receipt := CashRuns.Apply(ReloadSession(b.sessions[active.value]), ReceiptOf(call, CheckoutNote(comanda)));
              if receipt.Err? then Effect(b, call) == b
              else
                && comanda.comandaId == id && receipt.value.cashSessionId == active.value
                && ComandaStore.Saveable(b.comandas, comanda) && CashStore.Saveable(b.sessions, receipt.value)
                && Effect(b, call) ==
                     b.(comandas := b.comandas[id := comanda], sessions := b.sessions[active.value := receipt.value])
  {
    var (id, later) := (call.comandaId, b.issued + Minted(b, call));
    var active := ActiveSession(b.sessions, call.actor.terminalId);
    PaymentMints(b, call, later);
    if id in b.comandas && active.Some? && Accepted(b.comandas[id], CheckoutOf(call)) {
      assert Changed(b.comandas[id], CheckoutOf(call)).numero == b.comandas[id].numero by {
        NumeroStays(b, id, CheckoutOf(call));
      }
      hide Inv, Mints, ComandaRuns.Apply, CashRuns.Apply, Reload, ReloadSession, Minted, Fresh;
      var receipt := ReceiptOf(call, CheckoutNote(b.comandas[id]));
      if CashRuns.Apply(ReloadSession(b.sessions[active.value]), receipt).Ok? {
        PaymentKeeps(b, id, CheckoutOf(call), active.value, receipt, later);
        KeepsBothIds(b, Changed(b.comandas[id], CheckoutOf(call)), id, Moved(b.sessions[active.value], receipt), active.value, later);
      }
    }
  }

  lemma NumeroStays(b: Books, id: Id, change: ComandaRuns.Operation)
    requires Inv(b) && id in b.comandas && OnePayment(change) && !change.Store? && !change.Add?
    ensures Changed(b.comandas[id], change).numero == b.comandas[id].numero
  {
    assert ComandaOk(b.comandas[id], id, b.issued);
    hide Inv;
    ChangedGrows(b.comandas[id], change);
  }

  lemma KeepsBothIds(b: Books, after: Comanda, id: Id, session: Session, sessionId: Id, later: map<Id, Id>)
    requires Inv(Books(b.comandas[id := after], b.sessions[sessionId := session], b.jobs, later))
    ensures after.comandaId == id && session.cashSessionId == sessionId
  {
    hide ComandaRuns.Inv, CashRuns.Inv;
    assert ComandaOk(b.comandas[id := after][id], id, later);
    assert SessionOk(b.sessions[sessionId := session][sessionId], sessionId, later);
  }

  lemma OpenCashAccepted(b: Books, call: Call)
    requires Inv(b) && call.OpenCashCall? && Fresh(b, call)
    ensures var session := OpenCashSession(call.cashSessionId, call.actor, call.at, call.openingFund, call.openingReason);
            if ActiveSession(b.sessions, call.actor.terminalId).Some? || session.Err? then Effect(b, call) == b
            else
              && session.value.cashSessionId == call.cashSessionId && CashStore.Saveable(b.sessions, session.value)
              && Effect(b, call) == b.(sessions := b.sessions[call.cashSessionId := session.value])
  {
    MintedExtends(b, call);
    var session := OpenCashSession(call.cashSessionId, call.actor, call.at, call.openingFund, call.openingReason);
    if ActiveSession(b.sessions, call.actor.terminalId).None? && session.Ok? {
      CashRuns.OpenedSessionInv(call.cashSessionId, call.actor, call.at, call.openingFund, call.openingReason);
      hide Inv, CashRuns.Inv;
      OpenCashKeeps(b, call.cashSessionId, session.value, b.issued + Minted(b, call));
    }
  }

  lemma MoveAccepted(b: Books, call: Call)
    requires Inv(b) && call.CashCall? && Offered(b, call) && Fresh(b, call)
    ensures var active := ActiveSession(b.sessions, call.terminalId);
            if active.None? || CashRuns.Apply(ReloadSession(b.sessions[active.value]), call.move).Err? then Effect(b, call) == b
            else
              var after := CashRuns.Apply(ReloadSession(b.sessions[active.value]), call.move).value;
              && after.cashSessionId == active.value && CashStore.Saveable(b.sessions, after)
              && Effect(b, call) == b.(sessions := b.sessions[active.value := after])
  {
    var later := b.issued + Minted(b, call);
    CashMints(b, call, later);
    hide Inv, ReloadSession, CashRuns.Apply, Minted, Fresh, Extended, Offered;
    var active := ActiveSession(b.sessions, call.terminalId);
    if active.Some? {
      MoveKeeps(b, active.value, call.move, later);
      KeepsSessionId(b, Moved(b.sessions[active.value], call.move), active.value, later);
    }
  }

  lemma KeepsSessionId(b: Books, session: Session, id: Id, later: map<Id, Id>)
    requires Inv(Books(b.comandas, b.sessions[id := session], b.jobs, later))
    ensures session.cashSessionId == id
  {
    hide CashRuns.Inv;
    assert SessionOk(b.sessions[id := session][id], id, later);
  }

  // ---------- what holds after every run ----------

  /** Amount by amount and method by method, a comanda's payments are the receipts sourced from it. */
  lemma PaymentsAreReceipts(trace: seq<Books>, calls: seq<Call>, i: nat, id: Id, m: PaymentMethod, amount: Cents)
    requires IsRun(trace, calls) && i < |trace|
    ensures PaymentsOf(trace[i].comandas, id, m, amount) == Total(trace[i].sessions, Summed(IsReceipt(id, m, amount)))
  {
    ReachableBooks(trace, calls, i);
    BooksBalanced(trace[i]);
  }

  lemma BooksBalanced(b: Books)
    requires Inv(b)
    ensures Balanced(b.comandas, b.sessions)
  {
  }

  /** By every payment method, what all drawers should hold is the opening funds, plus what the
      comandas paid, plus standalone receipts and supplies, less withdrawals. */
  lemma MoneyConserved(trace: seq<Books>, calls: seq<Call>, i: nat, m: PaymentMethod)
    requires IsRun(trace, calls) && i < |trace|
    ensures var (comandas, sessions) := (trace[i].comandas, trace[i].sessions);
            Total(sessions, ExpectedIn(m)) ==
            Total(sessions, OpeningIn(m)) + Total(comandas, PaidIn(m)) + Total(sessions, Summed(Standalone(m)))
            + Total(sessions, Summed(Supplied(m))) + Total(sessions, Summed(Withdrawn(m)))
  {
    ReachableBooks(trace, calls, i);
    BooksBalanced(trace[i]);
    CashConserved(trace[i].comandas, trace[i].sessions, m);
  }

  /** Every item that was sent is on exactly one production ticket, every other item on none. */
  lemma SentItemOnOneTicket(trace: seq<Books>, calls: seq<Call>, i: nat, id: Id, x: Item) returns (j: nat)
    requires IsRun(trace, calls) && i < |trace| && id in trace[i].comandas && x in trace[i].comandas[id].items
    ensures var jobs := trace[i].jobs;
            && (x.productionBatchId.None? ==> forall k :: 0 <= k < |jobs| ==> !Prints(jobs[k], x.itemId))
            && (x.productionBatchId.Some? ==>
                  && j < |jobs| && jobs[j].setor == x.setor
                  && jobs[j].dedupKey == ProductionKey(id, x.productionBatchId.value, x.setor)
                  && TicketOf(x) in jobs[j].payload.items && DistinctBy(jobs[j].payload.items, LineKey)
                  && forall k :: 0 <= k < |jobs| ==> (Prints(jobs[k], x.itemId) <==> k == j))
  {
    ReachableBooks(trace, calls, i);
    TicketsInBooks(trace[i]);
    j := OnExactlyOneTicket(trace[i].comandas, trace[i].issued, trace[i].jobs, id, x);
  }

  lemma TicketsInBooks(b: Books)
    requires Inv(b)
    ensures ComandasOk(b.comandas, b.issued) && SpoolOk(b.jobs, b.issued) && TicketsOk(b.comandas, b.jobs)
  {
  }

  /** A terminal has at most one session that is not FECHADO, a numero at most one active comanda. */
  lemma OneAtATime(trace: seq<Books>, calls: seq<Call>, i: nat)
    requires IsRun(trace, calls) && i < |trace|
    ensures OneSessionPerTerminal(trace[i].sessions) && OneComandaPerNumero(trace[i].comandas)
  {
    ReachableBooks(trace, calls, i);
  }
}
