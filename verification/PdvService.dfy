/** `PdvRoundtripService` over its connection and repositories: each method is the step of its call, with the
    whole effect or none of it, whichever statement or closing command of its transaction fails. */
module PdvService {
  import opened Wrappers
  import opened Rows
  import opened Text
  import opened Comandas
  import opened Cash
  import opened PrintSpool
  import opened PdvBooks
  import opened PdvDatabase
  import opened PdvTransactions
  import opened Repositories
  import ComandaEffects
  import CashEffects
  import PdvFlow
  import PdvSafety
  import ComandaRuns
  import CashRuns
  import ComandaStore
  import CashStore
  import Transactions

  datatype Failure =
    | ComandaNaoEncontrada
    | CaixaNaoAberto
    | ComandaRecusada(comandaError: ComandaError)
    | CaixaRecusado(cashError: CashError)
    | TransacaoFalhou

  // ---------- what a call answers ----------

  function ComandaReply(mutation: MutationResult): Result<Comanda, Failure> {
    match mutation
    case Ok(m) => Ok(m.comanda)
    case Err(e) => Err(ComandaRecusada(e))
  }

  function OpenReply(mutation: MutationResult): Result<bool, Failure> {
    if mutation.Ok? then Ok(true) else Err(ComandaRecusada(mutation.error))
  }

  function OpenCashReply(session: SessionResult): Result<bool, Failure> {
    if session.Ok? then Ok(true) else Err(CaixaRecusado(session.error))
  }

  function CashReply(moved: SessionResult): Result<Session, Failure> {
    match moved
    case Ok(session) => Ok(session)
    case Err(e) => Err(CaixaRecusado(e))
  }

  /** The stored comanda read back and changed, or why not. */
  ghost function ChangeReply(b: Books, comandaId: Id, change: ComandaRuns.Operation): Result<Comanda, Failure>
    requires !change.Store?
  {
    if comandaId !in b.comandas then Err(ComandaNaoEncontrada)
    else ComandaReply(ComandaRuns.Apply(Reload(b.comandas[comandaId]), change))
  }

  /** The terminal's active session read back and moved, or why not. */
  ghost function MoveReply(b: Books, terminalId: string, move: CashRuns.Operation): Result<Session, Failure>
    requires !move.Store?
  {
    var active := ActiveSession(b.sessions, terminalId);
    if active.None? then Err(CaixaNaoAberto)
    else CashReply(CashRuns.Apply(ReloadSession(b.sessions[active.value]), move))
  }

  /** An accepted call whose transaction fails answers with that failure. */
  function Unless<T>(fails: bool, r: Result<T, Failure>): Result<T, Failure> {
    if r.Ok? && fails then Err(TransacaoFalhou) else r
  }

  /** The first thing that is wrong: the comanda, the session, the checkout, the receipt. */
  ghost function PaymentReply(b: Books, call: Call): Result<Comanda, Failure>
    requires call.PaymentCall?
  {
    var active := ActiveSession(b.sessions, call.actor.terminalId);
    if call.comandaId !in b.comandas then Err(ComandaNaoEncontrada)
    else if active.None? then Err(CaixaNaoAberto)
    else
      var paid := ComandaReply(ComandaRuns.Apply(Reload(b.comandas[call.comandaId]), CheckoutOf(call)));
      if paid.Err? then paid
      else
        var receipt := MoveReply(b, call.actor.terminalId, ReceiptOf(call, CheckoutNote(paid.value)));
        if receipt.Err? then Err(receipt.error) else paid
  }

  /** The comanda ends with the item that was ordered. */
  predicate AddsOrder(comanda: Comanda, change: ComandaRuns.Operation)
    requires change.Add?
  {
    comanda.items != []
    && ComandaEffects.IsOrdered(comanda.items[|comanda.items| - 1], OrderOf(change))
  }

  function OrderOf(change: ComandaRuns.Operation): ComandaEffects.Order
    requires change.Add?
  {
    ComandaEffects.Order(change.itemId, change.produtoId, change.productLabel, change.setor, change.quantity,
                         change.unitPriceCents, change.note)
  }

  lemma AddReplies(comanda: Comanda, change: ComandaRuns.Operation)
    requires change.Add? && ComandaRuns.Apply(comanda, change).Ok?
    ensures AddsOrder(ComandaRuns.Apply(comanda, change).value.comanda, change)
  {
    hide ComandaEffects.IsOrdered, Trim;
    ComandaEffects.AddEffect(comanda, OrderOf(change), change.at);
  }

  /** The moved session holds, by every method, what the stored one held and what the move adds. */
  ghost predicate Holds(b: Books, terminalId: string, move: CashRuns.Operation, after: Session) {
    var active := ActiveSession(b.sessions, terminalId);
    && active.Some?
    && forall m :: Expected(after, m) == Expected(b.sessions[active.value], m) + CashEffects.Change(move, m)
  }

  lemma MoveReplies(b: Books, terminalId: string, move: CashRuns.Operation)
    requires PdvSafety.Inv(b) && CashRuns.Moves(move)
    ensures MoveReply(b, terminalId, move).Ok? <==> PdvFlow.MoveTaken(b, CashCall(terminalId, move))
    ensures MoveReply(b, terminalId, move).Ok? ==> Holds(b, terminalId, move, MoveReply(b, terminalId, move).value)
  {
    hide PdvSafety.Inv, CashRuns.Inv, CashRuns.Apply, ReloadSession, Expected, CashEffects.Takes, CashEffects.Change;
    PdvFlow.BooksOk(b, terminalId);
    var active := ActiveSession(b.sessions, terminalId);
    if active.Some? {
      PdvFlow.StoredMove(b.sessions[active.value], move);
    }
  }

  lemma PaymentReplies(b: Books, call: Call)
    requires PdvSafety.Inv(b) && call.PaymentCall?
    ensures PaymentReply(b, call).Ok? <==> PdvFlow.PaymentTaken(b, call)
  {
    hide PdvSafety.Inv, ComandaRuns.Inv, CashRuns.Apply, ReloadSession, PdvFlow.PaymentTaken, CheckoutComanda, Reload, CheckoutNote;
    PdvFlow.PaymentExact(b, call);
    var active := ActiveSession(b.sessions, call.actor.terminalId);
    if call.comandaId in b.comandas && Accepted(b.comandas[call.comandaId], CheckoutOf(call)) {
      PdvFlow.BooksOk(b, call.actor.terminalId);
      PaidNumero(b.comandas[call.comandaId], CheckoutOf(call));
    }
  }

  lemma PaidNumero(c: Comanda, checkout: ComandaRuns.Operation)
    requires checkout.Checkout? && ComandaRuns.Apply(Reload(c), checkout).Ok?
    ensures CheckoutNote(ComandaRuns.Apply(Reload(c), checkout).value.comanda) == CheckoutNote(c)
  {
    LoadedNumero(c);
    hide Reload, Subtotal, Lines, CheckoutComanda;
    ComandaRuns.CheckoutAccepted(Reload(c), checkout.payments, checkout.at);
  }

  lemma LoadedNumero(c: Comanda)
    ensures Reload(c).numero == c.numero
  {
  }

  /** What a crash could leave since `before` holds the books. */
  ghost predicate CrashSafe(images: set<Database>, before: set<Database>, books: Books) {
    forall image :: image in images && image !in before ==> Stores(image, books)
  }

  class PdvRoundtripService {
    const connection: Transactions.Connection<Database>
    const comandas: ComandaRepository
    const cashSessions: CashSessionRepository
    ghost var books: Books

    ghost predicate Valid()
      reads this, connection
    {
      && connection.Valid() && connection.depth.None?
      && comandas.connection == connection && cashSessions.connection == connection
      && Stores(connection.sql.current, books) && PdvSafety.Inv(books)
    }

    constructor (connection: Transactions.Connection<Database>)
      requires connection.Valid() && connection.depth.None?
      requires connection.sql.current ==
                 Database(ComandaStore.ComandaTables(map[], map[], map[], map[]), CashStore.CashTables(map[], map[]), [])
      ensures this.connection == connection && Valid() && books == Books(map[], map[], [], map[])
    {
      this.connection := connection;
      comandas := new ComandaRepository(connection);
      cashSessions := new CashSessionRepository(connection);
      books := Books(map[], map[], [], map[]);
      new;
      PdvSafety.EmptyBooks();
    }

    method OpenComanda(comandaId: Id, numero: string, mesaId: Option<string>, owner: Option<string>, at: Time, failsAt: nat)
      returns (r: Result<bool, Failure>)
      requires Valid() && Fresh(books, OpenComandaCall(comandaId, numero, mesaId, owner, at))
      modifies this, connection
      ensures Valid() && CrashSafe(connection.crashImages, old(connection.crashImages), books)
      ensures var call := OpenComandaCall(comandaId, numero, mesaId, owner, at);
              && books == Step(old(books), call, !Fails(old(books), call, failsAt))
              && r == Unless(Fails(old(books), call, failsAt),
                             if NumeroTaken(old(books).comandas, Trim(numero)) then Ok(false)
                             else OpenReply(Comandas.OpenComanda(comandaId, Trim(numero), mesaId, None, owner, at)))
      ensures r.Err? ==> connection.sql.current == old(connection.sql.current)
    {
      hide PdvSafety.Inv, Minted, Fresh, Effect, ComandaStore.Refines, CashStore.Refines, ComandaStore.Saveable,
        Comandas.OpenComanda, SaveComanda, Transactions.StepCount;
      ghost var call, before := OpenComandaCall(comandaId, numero, mesaId, owner, at), books;
      PdvSafety.StepKeepsInv(before, call, !Fails(before, call, failsAt));
      PdvSafety.OpenAccepted(before, call);
      books := Step(before, call, !Fails(before, call, failsAt));
      var taken := comandas.HasActiveNumero(Trim(numero), before.comandas);
      if taken {
        return Ok(false);
      }
      var mutation := Comandas.OpenComanda(comandaId, Trim(numero), mesaId, None, owner, at);
      if mutation.Err? {
        return Err(ComandaRecusada(mutation.error));
      }
      var threw := comandas.SaveAggregate(mutation.value.comanda, failsAt, before.comandas);
      return if threw then Err(TransacaoFalhou) else Ok(true);
    }

    method RequireComanda(comandaId: Id, ghost stored: map<Id, Comanda>) returns (r: Result<Comanda, Failure>)
      requires ComandaStore.Refines(comandas.connection.sql.current.comandas, stored)
      ensures r == if comandaId in stored then Ok(Reload(stored[comandaId])) else Err(ComandaNaoEncontrada)
    {
      var found := comandas.FindById(comandaId, stored);
      r := match found case None => Err(ComandaNaoEncontrada) case Some(comanda) => Ok(comanda);
    }

    /** `addComandaItem`, `cancelComandaItem`, `startComandaCheckout`, `reopenComanda` and
        `requestComandaCashCheckout`: load, change, save. */
    method ChangeComanda(comandaId: Id, change: ComandaRuns.Operation, failsAt: nat) returns (r: Result<Comanda, Failure>)
      requires Valid() && Offered(books, ComandaCall(comandaId, change)) && Fresh(books, ComandaCall(comandaId, change))
      modifies this, connection
      ensures Valid() && CrashSafe(connection.crashImages, old(connection.crashImages), books)
      ensures var call := ComandaCall(comandaId, change);
              && books == Step(old(books), call, !Fails(old(books), call, failsAt))
              && !change.Store? && r == Unless(Fails(old(books), call, failsAt), ChangeReply(old(books), comandaId, change))
      ensures change.Add? && r.Ok? ==> AddsOrder(r.value, change)
      ensures r.Err? ==> connection.sql.current == old(connection.sql.current)
    {
      hide PdvSafety.Inv, Minted, Fresh, Effect, ComandaStore.Refines, CashStore.Refines, ComandaStore.Saveable, Reload,
        ComandaRuns.Apply, SaveComanda, Transactions.StepCount;
      ghost var call, before := ComandaCall(comandaId, change), books;
      PdvSafety.StepKeepsInv(before, call, !Fails(before, call, failsAt));
      PdvSafety.ChangeAccepted(before, call);
      books := Step(before, call, !Fails(before, call, failsAt));
      var loaded := RequireComanda(comandaId, before.comandas);
      if loaded.Err? {
        return Err(loaded.error);
      }
      var mutation := ComandaRuns.Apply(loaded.value, change);
      if mutation.Err? {
        return Err(ComandaRecusada(mutation.error));
      }
      if change.Add? {
        AddReplies(loaded.value, change);
      }
      var threw := comandas.SaveAggregate(mutation.value.comanda, failsAt, before.comandas);
      return if threw then Err(TransacaoFalhou) else Ok(mutation.value.comanda);
    }

    /** The comanda and the jobs of its batch are written in one transaction. */
    method SendComandaToProduction(comandaId: Id, batchId: Id, at: Time, jobIds: seq<Id>, route: string -> Option<string>,
                                   failsAt: nat)
      returns (r: Result<Comanda, Failure>)
      requires Valid() && Fresh(books, SendCall(comandaId, batchId, at, jobIds, route))
      modifies this, connection
      ensures Valid() && CrashSafe(connection.crashImages, old(connection.crashImages), books)
      ensures var call := SendCall(comandaId, batchId, at, jobIds, route);
              && books == Step(old(books), call, !Fails(old(books), call, failsAt))
              && r == Unless(Fails(old(books), call, failsAt), ChangeReply(old(books), comandaId, ComandaRuns.Send(batchId, at)))
      ensures r.Err? ==> connection.sql.current == old(connection.sql.current)
    {
      hide PdvSafety.Inv, Minted, Fresh, Effect, ComandaStore.Refines, CashStore.Refines, ComandaStore.Saveable, Reload,
        ComandaRuns.Apply, EnqueueTickets, TicketRequest, Setores, BatchItems, SaveAndEnqueue, Transactions.StepCount,
        Transactions.Brings;
      ghost var call, before := SendCall(comandaId, batchId, at, jobIds, route), books;
      PdvSafety.StepKeepsInv(before, call, !Fails(before, call, failsAt));
      PdvSafety.SendAccepted(before, call);
      ghost var after := WorkDoes(before, call, connection.sql.current);
      books := Step(before, call, !Fails(before, call, failsAt));
      StepStored(before, call, if Fails(before, call, failsAt) then connection.sql.current else after, !Fails(before, call, failsAt));
      var loaded := RequireComanda(comandaId, before.comandas);
      if loaded.Err? {
        return Err(loaded.error);
      }
      var mutation := ComandaRuns.Apply(loaded.value, ComandaRuns.Send(batchId, at));
      if mutation.Err? {
        return Err(ComandaRecusada(mutation.error));
      }
      var comanda := mutation.value.comanda;
      var work := SaveAndEnqueue(comanda, TicketRequest(comanda, mutation.value.productionBatch.value), jobIds, route);
      var threw := Execute(connection, work, failsAt, after);
      return if threw then Err(TransacaoFalhou) else Ok(comanda);
    }

    method RequireActiveCashSession(terminalId: string, ghost stored: map<Id, Session>) returns (r: Result<Session, Failure>)
      requires CashStore.Refines(cashSessions.connection.sql.current.cash, stored) && PdvSafety.OneSessionPerTerminal(stored)
      ensures var active := ActiveSession(stored, terminalId);
              r == if active.Some? then Ok(ReloadSession(stored[active.value])) else Err(CaixaNaoAberto)
    {
      var found := cashSessions.FindActiveId(terminalId, stored);
      if found.None? {
        return Err(CaixaNaoAberto);
      }
      assert ActiveAt(stored, found.value, terminalId);
      var session := cashSessions.FindById(found.value, stored);
      return Ok(session.value);
    }

    /** The comanda and the drawer are written in one transaction. */
    method ConfirmComandaPayment(comandaId: Id, paymentId: Id, movementId: Id, actor: Actor, paymentMethod: PaymentMethod,
                                 amountCents: Cents, at: Time, failsAt: nat)
      returns (r: Result<Comanda, Failure>)
      requires Valid() && Fresh(books, PaymentCall(comandaId, paymentId, movementId, actor, paymentMethod, amountCents, at))
      modifies this, connection
      ensures Valid() && CrashSafe(connection.crashImages, old(connection.crashImages), books)
      ensures var call := PaymentCall(comandaId, paymentId, movementId, actor, paymentMethod, amountCents, at);
              && books == Step(old(books), call, !Fails(old(books), call, failsAt))
              && r == Unless(Fails(old(books), call, failsAt), PaymentReply(old(books), call))
              && (r.Ok? <==> PdvFlow.PaymentTaken(old(books), call) && !Fails(old(books), call, failsAt))
      ensures r.Err? ==> connection.sql.current == old(connection.sql.current)
    {
      hide PdvSafety.Inv, Minted, Fresh, Effect, ComandaStore.Refines, CashStore.Refines, ComandaStore.Saveable,
        CashStore.Saveable, PdvSafety.OneSessionPerTerminal, Reload, ReloadSession, ComandaRuns.Apply, CashRuns.Apply,
        SaveBoth, Transactions.StepCount, Transactions.Brings, PdvFlow.PaymentTaken;
      ghost var call := PaymentCall(comandaId, paymentId, movementId, actor, paymentMethod, amountCents, at);
      ghost var before := books;
      PdvSafety.StepKeepsInv(before, call, !Fails(before, call, failsAt));
      PdvSafety.PaymentAccepted(before, call);
      PaymentReplies(before, call);
      PdvSafety.OneOpenSession(before);
      ghost var after := WorkDoes(before, call, connection.sql.current);
      books := Step(before, call, !Fails(before, call, failsAt));
      StepStored(before, call, if Fails(before, call, failsAt) then connection.sql.current else after, !Fails(before, call, failsAt));
      var loaded := RequireComanda(comandaId, before.comandas);
      if loaded.Err? {
        return Err(loaded.error);
      }
      var cash := RequireActiveCashSession(actor.terminalId, before.sessions);
      if cash.Err? {
        return Err(cash.error);
      }
      var checkout := ComandaRuns.Checkout([CheckoutPayment(paymentId, paymentMethod, amountCents)], at);
      var payment := ComandaRuns.Apply(loaded.value, checkout);
      if payment.Err? {
        return Err(ComandaRecusada(payment.error));
      }
      var note := CheckoutNote(payment.value.comanda);
      var receipt := CashRuns.Apply(cash.value,
        CashRuns.Receive(movementId, actor, at, paymentMethod, amountCents, Some("COMANDA"), Some(comandaId), note));
      if receipt.Err? {
        return Err(CaixaRecusado(receipt.error));
      }
      var threw := Execute(connection, SaveBoth(payment.value.comanda, receipt.value), failsAt, after);
      return if threw then Err(TransacaoFalhou) else Ok(payment.value.comanda);
    }

    method OpenCashSession(cashSessionId: Id, actor: Actor, openingFund: Cents, openingReason: Option<string>, at: Time, failsAt: nat)
      returns (r: Result<bool, Failure>)
      requires Valid() && Fresh(books, OpenCashCall(cashSessionId, actor, openingFund, openingReason, at))
      modifies this, connection
      ensures Valid() && CrashSafe(connection.crashImages, old(connection.crashImages), books)
      ensures var call := OpenCashCall(cashSessionId, actor, openingFund, openingReason, at);
              && books == Step(old(books), call, !Fails(old(books), call, failsAt))
              && r == Unless(Fails(old(books), call, failsAt),
                             if ActiveSession(old(books).sessions, actor.terminalId).Some? then Ok(false)
                             else OpenCashReply(Cash.OpenCashSession(cashSessionId, actor, at, openingFund, openingReason)))
      ensures r.Err? ==> connection.sql.current == old(connection.sql.current)
    {
      hide PdvSafety.Inv, Minted, Fresh, Effect, ComandaStore.Refines, CashStore.Refines, CashStore.Saveable,
        Cash.OpenCashSession, SaveSession, Transactions.StepCount;
      ghost var call, before := OpenCashCall(cashSessionId, actor, openingFund, openingReason, at), books;
      PdvSafety.StepKeepsInv(before, call, !Fails(before, call, failsAt));
      PdvSafety.OpenCashAccepted(before, call);
      books := Step(before, call, !Fails(before, call, failsAt));
      var active := cashSessions.FindActiveId(actor.terminalId, before.sessions);
      assert active.Some? ==> ActiveAt(before.sessions, active.value, actor.terminalId);
      if active.Some? {
        return Ok(false);
      }
      var session := Cash.OpenCashSession(cashSessionId, actor, at, openingFund, openingReason);
      if session.Err? {
        return Err(CaixaRecusado(session.error));
      }
      var threw := cashSessions.SaveAggregate(session.value, failsAt, before.sessions);
      return if threw then Err(TransacaoFalhou) else Ok(true);
    }

    /** `registerCashReceipt`, `registerCashSupply`, `registerCashWithdrawal` and `closeCashSession`. */
    method MoveCash(terminalId: string, move: CashRuns.Operation, failsAt: nat) returns (r: Result<Session, Failure>)
      requires Valid() && Offered(books, CashCall(terminalId, move)) && Fresh(books, CashCall(terminalId, move))
      modifies this, connection
      ensures Valid() && CrashSafe(connection.crashImages, old(connection.crashImages), books)
      ensures var call := CashCall(terminalId, move);
              && books == Step(old(books), call, !Fails(old(books), call, failsAt))
              && !move.Store? && r == Unless(Fails(old(books), call, failsAt), MoveReply(old(books), terminalId, move))
              && (CashRuns.Moves(move) ==>
                    && (r.Ok? <==> PdvFlow.MoveTaken(old(books), call) && !Fails(old(books), call, failsAt))
                    && (r.Ok? ==> Holds(old(books), terminalId, move, r.value)))
      ensures r.Err? ==> connection.sql.current == old(connection.sql.current)
    {
      hide PdvSafety.Inv, Minted, Fresh, Effect, ComandaStore.Refines, CashStore.Refines, CashStore.Saveable,
        ReloadSession, CashRuns.Apply, SaveSession, Transactions.StepCount, Holds, PdvFlow.MoveTaken;
      ghost var call, before := CashCall(terminalId, move), books;
      PdvSafety.StepKeepsInv(before, call, !Fails(before, call, failsAt));
      PdvSafety.MoveAccepted(before, call);
      PdvSafety.OneOpenSession(before);
      if CashRuns.Moves(move) {
        MoveReplies(before, terminalId, move);
      }
      books := Step(before, call, !Fails(before, call, failsAt));
      var cash := RequireActiveCashSession(terminalId, before.sessions);
      if cash.Err? {
        return Err(cash.error);
      }
      var mutation := CashRuns.Apply(cash.value, move);
      if mutation.Err? {
        return Err(CaixaRecusado(mutation.error));
      }
      var threw := cashSessions.SaveAggregate(mutation.value, failsAt, before.sessions);
      return if threw then Err(TransacaoFalhou) else Ok(mutation.value);
    }

    /** The pending comandas are counted when the closure starts. */
    method StartCashClosure(terminalId: string, at: Time, failsAt: nat) returns (r: Result<Session, Failure>)
      requires Valid()
      modifies this, connection
      ensures Valid() && CrashSafe(connection.crashImages, old(connection.crashImages), books)
      ensures var move := CashRuns.StartClosure(at, CountInPayment(old(books).comandas));
              var call := CashCall(terminalId, move);
              && Offered(old(books), call) && Fresh(old(books), call)
              && books == Step(old(books), call, !Fails(old(books), call, failsAt))
              && r == Unless(Fails(old(books), call, failsAt), MoveReply(old(books), terminalId, move))
      ensures r.Err? ==> connection.sql.current == old(connection.sql.current)
    {
      hide PdvSafety.Inv, Step, Offered, Fresh, Fails, MoveReply, ComandaStore.Refines, CashStore.Refines;
      var pending := comandas.CountByStatus(EmPagamento, books.comandas);
      assert pending == CountInPayment(books.comandas);
      ClosureOffered(books, terminalId, at);
      r := MoveCash(terminalId, CashRuns.StartClosure(at, pending), failsAt);
    }
  }
}
