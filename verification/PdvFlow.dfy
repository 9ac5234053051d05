/** What the calls of a run put into and take out of the drawers, and that the drawers follow it. */
module PdvFlow {
  import opened Wrappers
  import opened Rows
  import opened Text
  import opened Comandas
  import opened Cash
  import opened PdvBooks
  import opened PdvRuns
  import opened PdvLedger
  import ComandaEffects
  import CashEffects
  import PdvSafety
  import ComandaRuns
  import CashRuns

  // ---------- which calls are taken, from the stored rows and the call's data ----------

  /** A cash call is taken by the terminal's active session. */
  ghost predicate MoveTaken(b: Books, call: Call)
    requires call.CashCall? && CashRuns.Moves(call.move)
  {
    var active := ActiveSession(b.sessions, call.terminalId);
    active.Some? && CashEffects.Takes(b.sessions[active.value], call.move)
  }

  /** A payment is taken when the comanda is in payment, the terminal's session is open, and the amount is
      the bill or, in cash, at least the bill. */
  ghost predicate PaymentTaken(b: Books, call: Call)
    requires call.PaymentCall?
  {
    var active := ActiveSession(b.sessions, call.actor.terminalId);
    && call.comandaId in b.comandas && b.comandas[call.comandaId].status.EmPagamento?
    && active.Some? && b.sessions[active.value].status.Aberto? && call.amountCents > 0
    && var bill := Subtotal(b.comandas[call.comandaId].items);
       if call.paymentMethod.Dinheiro? then call.amountCents >= bill else call.amountCents == bill
  }

  ghost predicate OpeningTaken(b: Books, call: Call)
    requires call.OpenCashCall?
  {
    ActiveSession(b.sessions, call.actor.terminalId).None? && call.openingFund >= 0 && Trim(call.actor.terminalId) != []
  }

  /** What a call is meant to add to the amount the drawers should hold by a method. */
  ghost function Flow(b: Books, call: Call, m: PaymentMethod): int {
    match call
    case OpenCashCall(_, _, fund, _, _) => if OpeningTaken(b, call) && m.Dinheiro? then fund else 0
    case PaymentCall(_, _, _, _, paymentMethod, amount, _) => if PaymentTaken(b, call) && m == paymentMethod then amount else 0
    case CashCall(_, move) => if CashRuns.Moves(move) && MoveTaken(b, call) then CashEffects.Change(move, m) else 0
    case _ => 0
  }

  // ---------- one session ----------

  lemma ReloadedExpected(s: Session)
    requires CashRuns.Inv(s)
    ensures ReloadSession(s).status == s.status && forall m :: Expected(ReloadSession(s), m) == Expected(s, m)
  {
    CashRuns.ReloadKeepsMovements(s);
    CashRuns.ReorderKeepsTotals(s, ReloadSession(s).movements);
  }

  /** A stored session takes a movement exactly when it is meant to, and then holds the difference. */
  lemma StoredMove(s: Session, move: CashRuns.Operation)
    requires CashRuns.Inv(s) && CashRuns.Moves(move)
    ensures CashRuns.Apply(ReloadSession(s), move).Ok? <==> CashEffects.Takes(s, move)
    ensures forall m :: Expected(Moved(s, move), m) == Expected(s, m) + if CashEffects.Takes(s, move) then CashEffects.Change(move, m) else 0
  {
    hide Expected, ReloadSession, CashRuns.Inv, CashRuns.Apply;
    ReloadedExpected(s);
    CashEffects.MoveEffect(ReloadSession(s), move);
  }

  lemma StoredClosure(s: Session, move: CashRuns.Operation)
    requires CashRuns.Inv(s) && !CashRuns.Moves(move) && !move.Store?
    ensures forall m :: Expected(Moved(s, move), m) == Expected(s, m)
  {
    hide Sum, ReloadSession, CashRuns.Inv, TotalsByMethod, TotalsOf, CountsValid, NormalizeNullable;
    ReloadedExpected(s);
  }

  // ---------- one call ----------

  lemma BooksOk(b: Books, terminalId: string)
    requires PdvSafety.Inv(b)
    ensures ActiveSession(b.sessions, terminalId).Some? ==> CashRuns.Inv(b.sessions[ActiveSession(b.sessions, terminalId).value])
    ensures forall id :: id in b.comandas ==> ComandaRuns.Inv(b.comandas[id])
  {
    assert ComandasOk(b.comandas, b.issued) && SessionsOk(b.sessions, b.issued);
    hide PdvSafety.Inv, ComandaRuns.Inv, CashRuns.Inv;
  }

  lemma CashCallFlows(b: Books, call: Call, m: PaymentMethod)
    requires PdvSafety.Inv(b) && call.CashCall? && Offered(b, call)
    ensures Total(CashStep(b, call).sessions, ExpectedIn(m)) == Total(b.sessions, ExpectedIn(m)) + Flow(b, call, m)
  {
    hide PdvSafety.Inv, CashRuns.Inv, CashRuns.Apply, ReloadSession, Moved, Expected, CashEffects.Takes, CashEffects.Change;
    BooksOk(b, call.terminalId);
    var active := ActiveSession(b.sessions, call.terminalId);
    if active.Some? {
      var s := b.sessions[active.value];
      TotalUpdate(b.sessions, active.value, Moved(s, call.move), ExpectedIn(m));
      if CashRuns.Moves(call.move) {
        StoredMove(s, call.move);
      } else {
        StoredClosure(s, call.move);
      }
    }
  }

  lemma OpenCashFlows(b: Books, call: Call, m: PaymentMethod)
    requires PdvSafety.Inv(b) && call.OpenCashCall? && Fresh(b, call)
    ensures Total(OpenCashStep(b, call).sessions, ExpectedIn(m)) == Total(b.sessions, ExpectedIn(m)) + Flow(b, call, m)
  {
    hide PdvSafety.Inv, OpenCashSession, Expected, Trim, Fresh;
    OpenedIsNew(b, call);
    CashEffects.OpenEffect(call.cashSessionId, call.actor, call.at, call.openingFund, call.openingReason);
    var r := OpenCashSession(call.cashSessionId, call.actor, call.at, call.openingFund, call.openingReason);
    if r.Ok? {
      TotalUpdate(b.sessions, call.cashSessionId, r.value, ExpectedIn(m));
    }
  }

  lemma OpenedIsNew(b: Books, call: Call)
    requires PdvSafety.Inv(b) && call.OpenCashCall? && Fresh(b, call)
    ensures call.cashSessionId !in b.sessions
  {
    assert SessionsOk(b.sessions, b.issued);
    hide PdvSafety.Inv, SessionOk;
    assert call.cashSessionId in Minted(b, call);
    PdvSafety.UnknownSession(b.sessions, b.issued, call.cashSessionId);
  }

  /** A drawer is opened if and only if the terminal has a name and no session that is not FECHADO, and the
      fund is not negative. The fund is then all the drawer is expected to hold. */
  lemma OpenCashExact(b: Books, call: Call)
    requires PdvSafety.Inv(b) && call.OpenCashCall? && Fresh(b, call)
    ensures var later := OpenCashStep(b, call);
            && (call.cashSessionId in later.sessions <==> OpeningTaken(b, call))
            && (!OpeningTaken(b, call) ==> later == b)
            && (OpeningTaken(b, call) ==>
                  var s := later.sessions[call.cashSessionId];
                  && later == b.(sessions := b.sessions[call.cashSessionId := s])
                  && s.terminalId == call.actor.terminalId && s.openedBy == call.actor && s.openedAt == call.at
                  && s.status.Aberto? && s.movements == [] && s.openingReason == NormalizeNullable(call.openingReason)
                  && forall m :: Expected(s, m) == if m.Dinheiro? then call.openingFund else 0)
  {
    hide PdvSafety.Inv, OpenCashSession, Expected, Trim, Fresh, NormalizeNullable;
    OpenedIsNew(b, call);
    CashEffects.OpenEffect(call.cashSessionId, call.actor, call.at, call.openingFund, call.openingReason);
  }

  // ---------- a payment ----------

  lemma OneGiven(p: CheckoutPayment)
    ensures Sum([p], ComandaEffects.Given) == p.amountCents
    ensures Sum([p], ComandaEffects.GivenCash) == if p.paymentMethod.Dinheiro? then p.amountCents else 0
  {
    assert [p][1..] == [];
  }

  lemma FrozenHasItems(c: Comanda)
    requires ComandaRuns.Inv(c) && c.status.EmPagamento?
    ensures (exists x :: x in c.items && !x.status.Cancelado?) && Subtotal(c.items) >= 0
  {
    ComandaRuns.SettledBill(c);
    assert ComandaRuns.BillCurrent(c);
    hide ComandaRuns.Inv, Subtotal, Lines;
    ComandaEffects.SomethingToBill(c.items);
  }

  lemma ReloadedComanda(c: Comanda)
    requires ComandaRuns.Inv(c)
    ensures ComandaRuns.Inv(Reload(c)) && Reload(c).status == c.status && Subtotal(Reload(c).items) == Subtotal(c.items)
    ensures Reload(c).numero == c.numero
  {
    LoadedOk(c, ComandaRuns.Reopen);
    SumPermutation(Reload(c).items, c.items, ActiveTotal);
  }

  /** A checkout of one payment on a stored comanda. */
  lemma StoredCheckout(c: Comanda, p: CheckoutPayment, at: Time)
    requires ComandaRuns.Inv(c)
    ensures Accepted(c, ComandaRuns.Checkout([p], at)) <==>
            && c.status.EmPagamento? && p.amountCents > 0
            && if p.paymentMethod.Dinheiro? then p.amountCents >= Subtotal(c.items) else p.amountCents == Subtotal(c.items)
  {
    hide ComandaRuns.Inv, Reload, Subtotal, CheckoutComanda;
    ReloadedComanda(c);
    OneGiven(p);
    ComandaEffects.CheckoutExact(Reload(c), [p], at);
    if c.status.EmPagamento? {
      FrozenHasItems(Reload(c));
    }
  }

  /** The service takes a payment exactly when it should. */
  lemma PaymentExact(b: Books, call: Call)
    requires PdvSafety.Inv(b) && call.PaymentCall?
    ensures var active := ActiveSession(b.sessions, call.actor.terminalId);
            PaymentTaken(b, call) <==>
            && call.comandaId in b.comandas && active.Some? && Accepted(b.comandas[call.comandaId], CheckoutOf(call))
            && CashRuns.Apply(ReloadSession(b.sessions[active.value]), ReceiptOf(call, CheckoutNote(b.comandas[call.comandaId]))).Ok?
  {
    hide PdvSafety.Inv, ComandaRuns.Inv, CashRuns.Inv, CashRuns.Apply, ReloadSession, Accepted, Expected, Subtotal, CheckoutNote;
    BooksOk(b, call.actor.terminalId);
    var active := ActiveSession(b.sessions, call.actor.terminalId);
    if call.comandaId in b.comandas && active.Some? {
      var c := b.comandas[call.comandaId];
      StoredCheckout(c, CheckoutPayment(call.paymentId, call.paymentMethod, call.amountCents), call.at);
      StoredMove(b.sessions[active.value], ReceiptOf(call, CheckoutNote(c)));
    }
  }

  /** What a taken payment stores: the comanda settled by the one payment given, and the drawer's receipt of
      it, from that comanda and under its number. */
  lemma PaymentRecorded(b: Books, call: Call)
    requires PdvSafety.Inv(b) && call.PaymentCall? && PaymentTaken(b, call)
    ensures var later := PaymentStep(b, call);
            var (c, s) := (later.comandas[call.comandaId], later.sessions[ActiveSession(b.sessions, call.actor.terminalId).value]);
            && c.status.Encerrada? && c.closedAt == Some(call.at)
            && c.payments == [Payment(call.paymentId, call.paymentMethod, call.amountCents, call.at)]
            && s.movements != []
            && var receipt := s.movements[|s.movements| - 1];
               && receipt.movementId == call.movementId && receipt.movementType.Recebimento?
               && receipt.paymentMethod == call.paymentMethod && receipt.amountCents == call.amountCents
               && receipt.sourceEntity == Some("COMANDA") && receipt.sourceEntityId == Some(call.comandaId)
               && receipt.occurredAt == call.at && receipt.actor == call.actor
               && receipt.reason == NormalizeNullable(Some("Checkout da comanda " + b.comandas[call.comandaId].numero))
  {
    hide PdvSafety.Inv, ComandaRuns.Inv, CashRuns.Inv, CashRuns.Apply, ReloadSession, Expected, Subtotal, NormalizeNullable,
      CheckoutComanda, Reload;
    BooksOk(b, call.actor.terminalId);
    PaymentExact(b, call);
    var c := b.comandas[call.comandaId];
    var s := b.sessions[ActiveSession(b.sessions, call.actor.terminalId).value];
    CheckoutPays(c, CheckoutOf(call));
    ComandaRuns.CheckoutAccepted(Reload(c), CheckoutOf(call).payments, call.at);
    CashEffects.MoveEffect(ReloadSession(s), ReceiptOf(call, CheckoutNote(c)));
  }

  /** What a taken receipt, supply or withdrawal stores. */
  lemma MoveRecorded(b: Books, call: Call)
    requires PdvSafety.Inv(b) && call.CashCall? && Offered(b, call) && CashRuns.Moves(call.move) && MoveTaken(b, call)
    ensures var s := CashStep(b, call).sessions[ActiveSession(b.sessions, call.terminalId).value];
            s.movements != [] && CashEffects.Records(s.movements[|s.movements| - 1], call.move)
  {
    hide PdvSafety.Inv, CashRuns.Inv, CashRuns.Apply, ReloadSession, Expected, CashEffects.Takes, CashEffects.Records;
    BooksOk(b, call.terminalId);
    var s := b.sessions[ActiveSession(b.sessions, call.terminalId).value];
    StoredMove(s, call.move);
    CashEffects.MoveEffect(ReloadSession(s), call.move);
  }

  lemma PaymentFlows(b: Books, call: Call, m: PaymentMethod)
    requires PdvSafety.Inv(b) && call.PaymentCall?
    ensures Total(PaymentStep(b, call).sessions, ExpectedIn(m)) == Total(b.sessions, ExpectedIn(m)) + Flow(b, call, m)
  {
    hide PdvSafety.Inv, ComandaRuns.Inv, CashRuns.Inv, CashRuns.Apply, ReloadSession, Accepted, Expected, Subtotal, CheckoutNote,
      Moved, Changed;
    BooksOk(b, call.actor.terminalId);
    PaymentExact(b, call);
    var active := ActiveSession(b.sessions, call.actor.terminalId);
    if PaymentTaken(b, call) {
      var s, receipt := b.sessions[active.value], ReceiptOf(call, CheckoutNote(b.comandas[call.comandaId]));
      TotalUpdate(b.sessions, active.value, Moved(s, receipt), ExpectedIn(m));
      StoredMove(s, receipt);
    }
  }

  // ---------- every run ----------

  /** A call changes what the drawers should hold by its flow, or not at all when its transaction fails. */
  lemma StepFlows(b: Books, call: Call, commits: bool, m: PaymentMethod)
    requires PdvSafety.Inv(b) && Offered(b, call) && Fresh(b, call)
    ensures Total(Step(b, call, commits).sessions, ExpectedIn(m)) ==
            Total(b.sessions, ExpectedIn(m)) + if commits then Flow(b, call, m) else 0
  {
    hide PdvSafety.Inv, Fresh, Minted, CashStep, OpenCashStep, PaymentStep, Accepted, Changed;
    match call
    case OpenCashCall(_, _, _, _, _) => OpenCashFlows(b, call, m);
    case PaymentCall(_, _, _, _, _, _, _) => PaymentFlows(b, call, m);
    case CashCall(_, _) => CashCallFlows(b, call, m);
    case _ =>
  }

  /** A run with the outcome of each call's transaction. */
  ghost predicate IsRunOf(trace: seq<Books>, calls: seq<Call>, commits: seq<bool>) {
    && IsRun(trace, calls) && |commits| == |calls|
    && forall i :: 0 <= i < |calls| ==> Follows(trace[i], calls[i], commits[i], trace[i + 1])
  }

  ghost predicate Follows(b: Books, call: Call, commits: bool, later: Books) {
    Offered(b, call) && Fresh(b, call) && later == Step(b, call, commits)
  }

  /** What the first n calls of a run put into the drawers, less what they took out. */
  ghost function FlowOf(trace: seq<Books>, calls: seq<Call>, commits: seq<bool>, n: nat, m: PaymentMethod): int
    requires n <= |calls| == |commits| && |trace| == |calls| + 1
  {
    if n == 0 then 0
    else FlowOf(trace, calls, commits, n - 1, m) + if commits[n - 1] then Flow(trace[n - 1], calls[n - 1], m) else 0
  }

  /** After every run, what all drawers should hold by a method is what the calls taken so far put in: the
      opening funds, receipts, supplies and comanda payments given, less the withdrawals given. */
  lemma {:induction false} DrawersFollowCalls(trace: seq<Books>, calls: seq<Call>, commits: seq<bool>, n: nat, m: PaymentMethod)
    requires IsRunOf(trace, calls, commits) && n < |trace|
    ensures Total(trace[n].sessions, ExpectedIn(m)) == FlowOf(trace, calls, commits, n, m)
  {
    hide PdvSafety.Inv, Step, Flow, Offered, Fresh;
    if n > 0 {
      DrawersFollowCalls(trace, calls, commits, n - 1, m);
      PdvSafety.ReachableBooks(trace, calls, n - 1);
      assert Follows(trace[n - 1], calls[n - 1], commits[n - 1], trace[n]);
      StepFlows(trace[n - 1], calls[n - 1], commits[n - 1], m);
    }
  }
}
