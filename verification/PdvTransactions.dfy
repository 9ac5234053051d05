/** Every service call as the transaction it runs, and that running it, whichever of its statements or
    closing commands fails, is the call's step on the books. */
module PdvTransactions {
  import opened Wrappers
  import opened Rows
  import opened Text
  import opened Comandas
  import opened Cash
  import opened PrintSpool
  import opened PdvBooks
  import opened PdvDatabase
  import Transactions
  import PdvSafety
  import ComandaRuns
  import CashRuns
  import ComandaStore
  import CashStore

  /** The tables hold the books. */
  ghost predicate Stores(d: Database, b: Books) {
    ComandaStore.Refines(d.comandas, b.comandas) && CashStore.Refines(d.cash, b.sessions) && d.jobs == b.jobs
  }

  type Work = Option<Transactions.Callback<Database>>

  ghost function OpenComandaWork(b: Books, call: Call): Work
    requires call.OpenComandaCall?
  {
    if NumeroTaken(b.comandas, Trim(call.numero)) then None
    else
      match OpenComanda(call.comandaId, Trim(call.numero), call.mesaId, None, call.owner, call.at)
      case Err(_) => None
      case Ok(mutation) => Some(SaveComanda(mutation.comanda))
  }

  ghost function ComandaWork(b: Books, call: Call): Work
    requires call.ComandaCall? && Offered(b, call)
  {
    if call.comandaId !in b.comandas || !Accepted(b.comandas[call.comandaId], call.change) then None
    else Some(SaveComanda(ComandaRuns.Apply(Reload(b.comandas[call.comandaId]), call.change).value.comanda))
  }

  ghost function SendWork(b: Books, call: Call): Work
    requires call.SendCall? && Fresh(b, call)
  {
    var send := ComandaRuns.Send(call.batchId, call.at);
    if call.comandaId !in b.comandas || !Accepted(b.comandas[call.comandaId], send) then None
    else
      var batch := ComandaRuns.Apply(Reload(b.comandas[call.comandaId]), send).value.productionBatch;
      Some(SaveAndEnqueue(SentOut(b, call), TicketRequest(SentOut(b, call), batch.value), call.jobIds, call.route))
  }

  ghost function PaymentWork(b: Books, call: Call): Work
    requires call.PaymentCall?
  {
    var active := ActiveSession(b.sessions, call.actor.terminalId);
    if call.comandaId !in b.comandas || active.None? || !Accepted(b.comandas[call.comandaId], CheckoutOf(call)) then None
    else
      var comanda := ComandaRuns.Apply(Reload(b.comandas[call.comandaId]), CheckoutOf(call)).value.comanda;
      match CashRuns.Apply(ReloadSession(b.sessions[active.value]), ReceiptOf(call, CheckoutNote(comanda)))
      case Err(_) => None
      case Ok(session) => Some(SaveBoth(comanda, session))
  }

  ghost function OpenCashWork(b: Books, call: Call): Work
    requires call.OpenCashCall?
  {
    if ActiveSession(b.sessions, call.actor.terminalId).Some? then None
    else
      match OpenCashSession(call.cashSessionId, call.actor, call.at, call.openingFund, call.openingReason)
      case Err(_) => None
      case Ok(session) => Some(SaveSession(session))
  }

  ghost function CashWork(b: Books, call: Call): Work
    requires call.CashCall? && Offered(b, call)
  {
    var active := ActiveSession(b.sessions, call.terminalId);
    if active.None? then None
    else
      match CashRuns.Apply(ReloadSession(b.sessions[active.value]), call.move)
      case Err(_) => None
      case Ok(session) => Some(SaveSession(session))
  }

  /** The transaction of an accepted call; a refused one runs none. */
  ghost function WorkOf(b: Books, call: Call): Work
    requires Offered(b, call) && Fresh(b, call) && !call.PrintCall?
  {
    match call
    case OpenComandaCall(_, _, _, _, _) => OpenComandaWork(b, call)
    case ComandaCall(_, _) => ComandaWork(b, call)
    case SendCall(_, _, _, _, _) => SendWork(b, call)
    case PaymentCall(_, _, _, _, _, _, _) => PaymentWork(b, call)
    case OpenCashCall(_, _, _, _, _) => OpenCashWork(b, call)
    case CashCall(_, _) => CashWork(b, call)
  }

  /** The call's transaction meets a failing step: the at-th one, when it has so many. */
  ghost predicate Fails(b: Books, call: Call, at: nat)
    requires Offered(b, call) && Fresh(b, call) && !call.PrintCall?
  {
    WorkOf(b, call).Some? && at < Transactions.StepCount(WorkOf(b, call).value)
  }

  /** Without a failure the work brings the tables of the books to those of the call's effect. */
  ghost predicate Does(b: Books, call: Call, d: Database, work: Work, after: Database)
    requires Offered(b, call) && Fresh(b, call)
  {
    && Stores(after, Effect(b, call))
    && match work
       case None => after == d && Effect(b, call) == b
       case Some(transaction) => transaction.Transaction? && Transactions.Brings(transaction, d, after)
  }

  lemma SaveDoes(b: Books, d: Database, comanda: Comanda) returns (after: Database)
    requires Stores(d, b) && ComandaStore.Saveable(b.comandas, comanda)
    ensures Stores(after, b.(comandas := b.comandas[comanda.comandaId := comanda]))
    ensures SaveComanda(comanda).Transaction? && Transactions.Brings(SaveComanda(comanda), d, after)
  {
    assert SaveComanda(comanda).Transaction?;
    hide ComandaStore.Refines, ComandaStore.Saveable, ComandaStore.Save, CashStore.Refines, SaveComanda, Transactions.Brings;
    ComandaStore.SaveRefines(d.comandas, b.comandas, comanda);
    ComandaSaved(comanda, d);
    after := d.(comandas := ComandaStore.Save(d.comandas, comanda));
  }

  lemma SaveSessionDoes(b: Books, d: Database, session: Session) returns (after: Database)
    requires Stores(d, b) && CashStore.Saveable(b.sessions, session)
    ensures Stores(after, b.(sessions := b.sessions[session.cashSessionId := session]))
    ensures SaveSession(session).Transaction? && Transactions.Brings(SaveSession(session), d, after)
  {
    assert SaveSession(session).Transaction?;
    hide CashStore.Refines, CashStore.Saveable, CashStore.Save, ComandaStore.Refines, SaveSession, Transactions.Brings;
    CashStore.SaveRefines(d.cash, b.sessions, session);
    SessionSaved(session, d);
    after := d.(cash := CashStore.Save(d.cash, session));
  }

  lemma SaveAndEnqueueDoes(b: Books, d: Database, comanda: Comanda, request: Request, jobIds: seq<Id>, route: string -> Option<string>)
      returns (after: Database)
    requires Stores(d, b) && ComandaStore.Saveable(b.comandas, comanda) && |Setores(request.items)| <= |jobIds|
    ensures Stores(after, b.(comandas := b.comandas[comanda.comandaId := comanda], jobs := EnqueueTickets(b.jobs, request, jobIds, route)))
    ensures var work := SaveAndEnqueue(comanda, request, jobIds, route);
            work.Transaction? && Transactions.Brings(work, d, after)
  {
    hide Setores, EnqueueTickets, SaveComanda, InsertJobs, Groups;
    assert SaveAndEnqueue(comanda, request, jobIds, route).Transaction?;
    hide ComandaStore.Refines, ComandaStore.Saveable, ComandaStore.Save, CashStore.Refines, SaveAndEnqueue, Transactions.Brings;
    ComandaStore.SaveRefines(d.comandas, b.comandas, comanda);
    SavedAndEnqueued(comanda, request, jobIds, route, d);
    after := d.(comandas := ComandaStore.Save(d.comandas, comanda), jobs := EnqueueTickets(d.jobs, request, jobIds, route));
  }

  lemma SaveBothDoes(b: Books, d: Database, comanda: Comanda, session: Session) returns (after: Database)
    requires Stores(d, b) && ComandaStore.Saveable(b.comandas, comanda) && CashStore.Saveable(b.sessions, session)
    ensures Stores(after, b.(comandas := b.comandas[comanda.comandaId := comanda], sessions := b.sessions[session.cashSessionId := session]))
    ensures SaveBoth(comanda, session).Transaction? && Transactions.Brings(SaveBoth(comanda, session), d, after)
  {
    hide SaveComanda, SaveSession;
    assert SaveBoth(comanda, session).Transaction?;
    hide ComandaStore.Refines, ComandaStore.Saveable, ComandaStore.Save, CashStore.Refines, CashStore.Saveable, CashStore.Save,
      SaveBoth, Transactions.Brings;
    ComandaStore.SaveRefines(d.comandas, b.comandas, comanda);
    CashStore.SaveRefines(d.cash, b.sessions, session);
    BothSaved(comanda, session, d);
    after := d.(comandas := ComandaStore.Save(d.comandas, comanda), cash := CashStore.Save(d.cash, session));
  }

  lemma OpenComandaDoes(b: Books, call: Call, d: Database) returns (after: Database)
    requires PdvSafety.Inv(b) && Stores(d, b) && call.OpenComandaCall? && Offered(b, call) && Fresh(b, call)
    ensures Does(b, call, d, OpenComandaWork(b, call), after)
  {
    hide PdvSafety.Inv, Stores, Fresh, Effect, Transactions.Brings, SaveComanda, OpenComanda, ComandaStore.Saveable;
    PdvSafety.OpenAccepted(b, call);
    after := d;
    if OpenComandaWork(b, call).Some? {
      after := SaveDoes(b, d, OpenComanda(call.comandaId, Trim(call.numero), call.mesaId, None, call.owner, call.at).value.comanda);
    }
  }

  lemma ComandaDoes(b: Books, call: Call, d: Database) returns (after: Database)
    requires PdvSafety.Inv(b) && Stores(d, b) && call.ComandaCall? && Offered(b, call) && Fresh(b, call)
    ensures Does(b, call, d, ComandaWork(b, call), after)
  {
    hide PdvSafety.Inv, Stores, Fresh, Effect, Transactions.Brings, SaveComanda, ComandaRuns.Apply, Reload, ComandaStore.Saveable;
    PdvSafety.ChangeAccepted(b, call);
    after := d;
    if ComandaWork(b, call).Some? {
      after := SaveDoes(b, d, ComandaRuns.Apply(Reload(b.comandas[call.comandaId]), call.change).value.comanda);
    }
  }

  lemma SendDoes(b: Books, call: Call, d: Database) returns (after: Database)
    requires PdvSafety.Inv(b) && Stores(d, b) && call.SendCall? && Fresh(b, call)
    ensures Does(b, call, d, SendWork(b, call), after)
  {
    hide PdvSafety.Inv, Stores, Fresh, Effect, Transactions.Brings, SaveAndEnqueue, ComandaRuns.Apply, Reload, ComandaStore.Saveable,
      Setores, EnqueueTickets, TicketRequest;
    PdvSafety.SendAccepted(b, call);
    after := d;
    if SendWork(b, call).Some? {
      var mutation := ComandaRuns.Apply(Reload(b.comandas[call.comandaId]), ComandaRuns.Send(call.batchId, call.at)).value;
      after := SaveAndEnqueueDoes(b, d, mutation.comanda, TicketRequest(mutation.comanda, mutation.productionBatch.value),
                                  call.jobIds, call.route);
    }
  }

  lemma PaymentDoes(b: Books, call: Call, d: Database) returns (after: Database)
    requires PdvSafety.Inv(b) && Stores(d, b) && call.PaymentCall? && Fresh(b, call)
    ensures Does(b, call, d, PaymentWork(b, call), after)
  {
    hide PdvSafety.Inv, Stores, Fresh, Effect, Transactions.Brings, SaveBoth, ComandaRuns.Apply, Reload, ComandaStore.Saveable,
      CashRuns.Apply, ReloadSession, CashStore.Saveable, CheckoutNote;
    PdvSafety.PaymentAccepted(b, call);
    after := d;
    if PaymentWork(b, call).Some? {
      var comanda := ComandaRuns.Apply(Reload(b.comandas[call.comandaId]), CheckoutOf(call)).value.comanda;
      var session := ReloadSession(b.sessions[ActiveSession(b.sessions, call.actor.terminalId).value]);
      after := SaveBothDoes(b, d, comanda, CashRuns.Apply(session, ReceiptOf(call, CheckoutNote(comanda))).value);
    }
  }

  lemma OpenCashDoes(b: Books, call: Call, d: Database) returns (after: Database)
    requires PdvSafety.Inv(b) && Stores(d, b) && call.OpenCashCall? && Fresh(b, call)
    ensures Does(b, call, d, OpenCashWork(b, call), after)
  {
    hide PdvSafety.Inv, Stores, Fresh, Effect, Transactions.Brings, SaveSession, OpenCashSession, CashStore.Saveable;
    PdvSafety.OpenCashAccepted(b, call);
    after := d;
    if OpenCashWork(b, call).Some? {
      after := SaveSessionDoes(b, d,
        OpenCashSession(call.cashSessionId, call.actor, call.at, call.openingFund, call.openingReason).value);
    }
  }

  lemma CashDoes(b: Books, call: Call, d: Database) returns (after: Database)
    requires PdvSafety.Inv(b) && Stores(d, b) && call.CashCall? && Offered(b, call) && Fresh(b, call)
    ensures Does(b, call, d, CashWork(b, call), after)
  {
    hide PdvSafety.Inv, Stores, Fresh, Effect, Transactions.Brings, SaveSession, CashRuns.Apply, ReloadSession, CashStore.Saveable;
    PdvSafety.MoveAccepted(b, call);
    after := d;
    if CashWork(b, call).Some? {
      var session := ReloadSession(b.sessions[ActiveSession(b.sessions, call.terminalId).value]);
      after := SaveSessionDoes(b, d, CashRuns.Apply(session, call.move).value);
    }
  }

  lemma WorkDoes(b: Books, call: Call, d: Database) returns (after: Database)
    requires PdvSafety.Inv(b) && Stores(d, b) && Offered(b, call) && Fresh(b, call) && !call.PrintCall?
    ensures Does(b, call, d, WorkOf(b, call), after)
  {
    hide PdvSafety.Inv, Stores, Fresh, Offered, Does, OpenComandaWork, ComandaWork, SendWork, PaymentWork, OpenCashWork, CashWork;
    match call
    case OpenComandaCall(_, _, _, _, _) => after := OpenComandaDoes(b, call, d);
    case ComandaCall(_, _) => after := ComandaDoes(b, call, d);
    case SendCall(_, _, _, _, _) => after := SendDoes(b, call, d);
    case PaymentCall(_, _, _, _, _, _, _) => after := PaymentDoes(b, call, d);
    case OpenCashCall(_, _, _, _, _) => after := OpenCashDoes(b, call, d);
    case CashCall(_, _) => after := CashDoes(b, call, d);
  }

  lemma StepStored(b: Books, call: Call, d: Database, commits: bool)
    requires Offered(b, call) && Fresh(b, call) && Stores(d, if commits then Effect(b, call) else b)
    ensures Stores(d, Step(b, call, commits))
  {
    hide Offered, Fresh, Effect, Minted, ComandaStore.Refines, CashStore.Refines;
  }

  /** Running a call's transaction with a failure at any of its steps, or at none, leaves the tables of
      the call's step: the whole effect when nothing failed, the old tables when something did. */
  lemma RunIsStep(b: Books, call: Call, d: Database, at: nat)
    requires PdvSafety.Inv(b) && Stores(d, b) && Offered(b, call) && Fresh(b, call) && !call.PrintCall?
    ensures WorkOf(b, call).None? ==> Effect(b, call) == b
    ensures WorkOf(b, call).Some? ==>
              var o := Transactions.Meaning(Transactions.Failing(WorkOf(b, call).value, at), d);
              && o.threw == Fails(b, call, at) && Stores(o.database, Step(b, call, !o.threw)) && (o.threw ==> o.database == d)
  {
    hide PdvSafety.Inv, Stores, Offered, Fresh, Effect, Step, WorkOf, Transactions.Meaning, Transactions.Failing, Transactions.StepCount;
    var after := WorkDoes(b, call, d);
    if WorkOf(b, call).Some? {
      Transactions.AllOrNothing(WorkOf(b, call).value, at, d);
      StepStored(b, call, if Fails(b, call, at) then d else after, !Fails(b, call, at));
    }
  }
}
