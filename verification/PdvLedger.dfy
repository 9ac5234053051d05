/** Conservation of money between the comandas and the drawers, over every run of service calls. */
module PdvLedger {
  import opened Wrappers
  import opened Rows
  import opened Comandas
  import opened Cash
  import opened PdvBooks
  import opened PdvRuns
  import ComandaRuns
  import CashRuns

  // ---------- what is counted ----------

  /** One for each payment of exactly that method and amount. */
  function IsPayment(paymentMethod: PaymentMethod, amount: Cents): Payment -> int {
    (p: Payment) => if p.paymentMethod == paymentMethod && p.amountCents == amount then 1 else 0
  }

  predicate FromComanda(m: Movement) {
    m.movementType.Recebimento? && m.sourceEntity == Some("COMANDA")
  }

  /** One for each receipt of exactly that method and amount that names the comanda as its source. */
  function IsReceipt(comandaId: Id, paymentMethod: PaymentMethod, amount: Cents): Movement -> int {
    (m: Movement) =>
      if FromComanda(m) && m.sourceEntityId == Some(comandaId) && m.paymentMethod == paymentMethod && m.amountCents == amount
      then 1 else 0
  }

  function Summed(g: Movement -> int): Session -> int {
    (s: Session) => Sum(s.movements, g)
  }

  ghost function PaymentsOf(comandas: map<Id, Comanda>, comandaId: Id, paymentMethod: PaymentMethod, amount: Cents): int {
    if comandaId in comandas then Sum(comandas[comandaId].payments, IsPayment(paymentMethod, amount)) else 0
  }

  /** The payments of every comanda are, method by method and amount by amount, the receipts sourced
      from it across all sessions. */
  ghost predicate LedgerOk(comandas: map<Id, Comanda>, sessions: map<Id, Session>) {
    forall id, m, a :: PaymentsOf(comandas, id, m, a) == Total(sessions, Summed(IsReceipt(id, m, a)))
  }

  function AmountIn(paymentMethod: PaymentMethod): Payment -> int {
    (p: Payment) => if p.paymentMethod == paymentMethod then p.amountCents else 0
  }

  function PaidIn(paymentMethod: PaymentMethod): Comanda -> int {
    (c: Comanda) => Sum(c.payments, AmountIn(paymentMethod))
  }

  function ComandaReceipt(paymentMethod: PaymentMethod): Movement -> int {
    (m: Movement) => if FromComanda(m) && m.paymentMethod == paymentMethod then m.amountCents else 0
  }

  /** All comandas together have paid, by each method, what the drawers received from comandas. */
  ghost predicate MoneyOk(comandas: map<Id, Comanda>, sessions: map<Id, Session>) {
    forall m :: Total(comandas, PaidIn(m)) == Total(sessions, Summed(ComandaReceipt(m)))
  }

  ghost predicate Balanced(comandas: map<Id, Comanda>, sessions: map<Id, Session>) {
    LedgerOk(comandas, sessions) && MoneyOk(comandas, sessions)
  }

  // ---------- one aggregate changes ----------

  predicate Records(s: Session, move: CashRuns.Operation) {
    !move.Store? && CashRuns.Moves(move) && CashRuns.Apply(s, move).Ok?
  }

  /** The movement an accepted operation appends. */
  function Recorded(s: Session, move: CashRuns.Operation): (m: Movement)
    requires Records(s, move)
    ensures m.movementId == move.movementId && m.amountCents == move.amountCents
    ensures move.Receive? ==> m.movementType.Recebimento? && m.paymentMethod == move.paymentMethod
                              && m.sourceEntity == move.sourceEntity && m.sourceEntityId == move.sourceEntityId
    ensures !move.Receive? ==> !m.movementType.Recebimento?
  {
    hide Expected;
    var after := CashRuns.Apply(s, move).value;
    after.movements[|after.movements| - 1]
  }

  lemma MovedSum(s: Session, move: CashRuns.Operation, g: Movement -> int)
    requires CashRuns.Inv(s) && !move.Store?
    ensures Sum(Moved(s, move).movements, g) ==
            Sum(s.movements, g) + (if Records(ReloadSession(s), move) then g(Recorded(ReloadSession(s), move)) else 0)
  {
    var loaded := ReloadSession(s);
    CashRuns.ReloadKeepsMovements(s);
    SumPermutation(loaded.movements, s.movements, g);
    MoveAddsOne(loaded, move);
    if Records(loaded, move) {
      SumAppend(loaded.movements, Recorded(loaded, move), g);
    }
  }

  lemma MovedTotal(sessions: map<Id, Session>, id: Id, move: CashRuns.Operation, g: Movement -> int)
    requires id in sessions && CashRuns.Inv(sessions[id]) && !move.Store?
    ensures Total(sessions[id := Moved(sessions[id], move)], Summed(g)) ==
            Total(sessions, Summed(g))
            + (if Records(ReloadSession(sessions[id]), move) then g(Recorded(ReloadSession(sessions[id]), move)) else 0)
  {
    TotalUpdate(sessions, id, Moved(sessions[id], move), Summed(g));
    MovedSum(sessions[id], move, g);
  }

  /** A change other than a checkout leaves the payments as they were. */
  lemma PaymentsStay(c: Comanda, change: ComandaRuns.Operation)
    requires ComandaRuns.Inv(c) && !change.Store? && !change.Checkout?
    ensures multiset(Changed(c, change).payments) == multiset(c.payments)
  {
    LoadedOk(c, ComandaRuns.Reopen);
    ChangePaysNothing(Reload(c), change);
  }

  lemma ChangePaysNothing(c: Comanda, change: ComandaRuns.Operation)
    requires !change.Store? && !change.Checkout?
    ensures ComandaRuns.Step(c, change).payments == c.payments
  {
    hide CalculateComandaTotals, Lines;
  }

  /** An accepted checkout records its one payment on a comanda that had none. */
  lemma CheckoutPays(c: Comanda, checkout: ComandaRuns.Operation)
    requires ComandaRuns.Inv(c) && checkout.Checkout? && |checkout.payments| == 1 && Accepted(c, checkout)
    ensures c.payments == []
    ensures Changed(c, checkout).payments ==
            [Payment(checkout.payments[0].paymentId, checkout.payments[0].paymentMethod, checkout.payments[0].amountCents, checkout.at)]
  {
    CheckoutRecords(Reload(c), checkout.payments, checkout.at);
    UnpaidInPayment(c);
    LoadedOk(c, ComandaRuns.Reopen);
    PermutationMembers(Reload(c).payments, c.payments);
  }

  lemma UnpaidInPayment(c: Comanda)
    requires ComandaRuns.Inv(c) && c.status.EmPagamento?
    ensures c.payments == []
  {
  }

  lemma CheckoutRecords(c: Comanda, payments: seq<CheckoutPayment>, at: Time)
    requires |payments| == 1 && CheckoutComanda(c, payments, at).Ok?
    ensures c.status.EmPagamento?
    ensures CheckoutComanda(c, payments, at).value.comanda.payments ==
            c.payments + [Payment(payments[0].paymentId, payments[0].paymentMethod, payments[0].amountCents, at)]
  {
    hide CalculateComandaTotals, Paid, CashTendered;
    var created := CreatePayments(payments, at).value;
    assert created == [created[0]];
  }

  // ---------- every kind of call keeps the balance ----------

  lemma SameComandaPayments(comandas: map<Id, Comanda>, sessions: map<Id, Session>, id: Id, after: Comanda)
    requires Balanced(comandas, sessions)
    requires if id in comandas then multiset(after.payments) == multiset(comandas[id].payments) else after.payments == []
    ensures Balanced(comandas[id := after], sessions)
  {
    var next := comandas[id := after];
    forall k, m, a ensures PaymentsOf(next, k, m, a) == Total(sessions, Summed(IsReceipt(k, m, a))) {
      assert PaymentsOf(comandas, k, m, a) == Total(sessions, Summed(IsReceipt(k, m, a)));
      if k == id && id in comandas {
        SumPermutation(after.payments, comandas[id].payments, IsPayment(m, a));
      }
    }
    forall m ensures Total(next, PaidIn(m)) == Total(comandas, PaidIn(m)) {
      TotalUpdate(comandas, id, after, PaidIn(m));
      if id in comandas {
        SumPermutation(after.payments, comandas[id].payments, AmountIn(m));
      }
    }
  }

  lemma SessionOpened(comandas: map<Id, Comanda>, sessions: map<Id, Session>, id: Id, s: Session)
    requires Balanced(comandas, sessions) && id !in sessions && s.movements == []
    ensures Balanced(comandas, sessions[id := s])
  {
    forall k, m, a ensures PaymentsOf(comandas, k, m, a) == Total(sessions[id := s], Summed(IsReceipt(k, m, a))) {
      TotalUpdate(sessions, id, s, Summed(IsReceipt(k, m, a)));
      assert PaymentsOf(comandas, k, m, a) == Total(sessions, Summed(IsReceipt(k, m, a)));
    }
    forall m ensures Total(sessions[id := s], Summed(ComandaReceipt(m))) == Total(sessions, Summed(ComandaReceipt(m))) {
      TotalUpdate(sessions, id, s, Summed(ComandaReceipt(m)));
    }
  }

  /** Movements that name no comanda. */
  lemma UnsourcedMove(comandas: map<Id, Comanda>, sessions: map<Id, Session>, id: Id, move: CashRuns.Operation)
    requires Balanced(comandas, sessions) && id in sessions && CashRuns.Inv(sessions[id]) && !move.Store?
    requires move.Receive? ==> move.sourceEntity.None?
    ensures Balanced(comandas, sessions[id := Moved(sessions[id], move)])
  {
    var next := sessions[id := Moved(sessions[id], move)];
    forall k, m, a ensures PaymentsOf(comandas, k, m, a) == Total(next, Summed(IsReceipt(k, m, a))) {
      MovedTotal(sessions, id, move, IsReceipt(k, m, a));
      assert PaymentsOf(comandas, k, m, a) == Total(sessions, Summed(IsReceipt(k, m, a)));
    }
    forall m ensures Total(next, Summed(ComandaReceipt(m))) == Total(sessions, Summed(ComandaReceipt(m))) {
      MovedTotal(sessions, id, move, ComandaReceipt(m));
    }
  }

  /** The receipt of a comanda's payment. */
  predicate Receipts(move: CashRuns.Operation, comandaId: Id, payment: Payment) {
    && move.Receive? && move.sourceEntity == Some("COMANDA") && move.sourceEntityId == Some(comandaId)
    && move.paymentMethod == payment.paymentMethod && move.amountCents == payment.amountCents
  }

  lemma ReceiptCounts(comandaId: Id, payment: Payment, movement: Movement, k: Id, m: PaymentMethod, a: Cents)
    requires FromComanda(movement) && movement.sourceEntityId == Some(comandaId)
    requires movement.paymentMethod == payment.paymentMethod && movement.amountCents == payment.amountCents
    ensures IsReceipt(k, m, a)(movement) == if k == comandaId then Sum([payment], IsPayment(m, a)) else 0
    ensures ComandaReceipt(m)(movement) == Sum([payment], AmountIn(m))
  {
    SumAppend([], payment, IsPayment(m, a));
    SumAppend([], payment, AmountIn(m));
    assert [] + [payment] == [payment];
  }

  /** A confirmed payment: the comanda and the drawer gain the same amount under the same method. */
  lemma PaymentMade(comandas: map<Id, Comanda>, sessions: map<Id, Session>, comandaId: Id, after: Comanda, payment: Payment,
                    sessionId: Id, move: CashRuns.Operation)
    requires Balanced(comandas, sessions) && comandaId in comandas && sessionId in sessions
    requires comandas[comandaId].payments == [] && after.payments == [payment]
    requires CashRuns.Inv(sessions[sessionId]) && Records(ReloadSession(sessions[sessionId]), move)
    requires Receipts(move, comandaId, payment)
    ensures Balanced(comandas[comandaId := after], sessions[sessionId := Moved(sessions[sessionId], move)])
  {
    hide Moved, CashRuns.Inv, Records, IsReceipt, IsPayment, ComandaReceipt, AmountIn;
    var next := comandas[comandaId := after];
    var drawers := sessions[sessionId := Moved(sessions[sessionId], move)];
    var movement := Recorded(ReloadSession(sessions[sessionId]), move);
    forall k, m, a ensures PaymentsOf(next, k, m, a) == Total(drawers, Summed(IsReceipt(k, m, a))) {
      MovedTotal(sessions, sessionId, move, IsReceipt(k, m, a));
      ReceiptCounts(comandaId, payment, movement, k, m, a);
      assert PaymentsOf(comandas, k, m, a) == Total(sessions, Summed(IsReceipt(k, m, a)));
    }
    forall m ensures Total(next, PaidIn(m)) == Total(drawers, Summed(ComandaReceipt(m))) {
      TotalUpdate(comandas, comandaId, after, PaidIn(m));
      MovedTotal(sessions, sessionId, move, ComandaReceipt(m));
      ReceiptCounts(comandaId, payment, movement, comandaId, m, 0);
      assert Total(comandas, PaidIn(m)) == Total(sessions, Summed(ComandaReceipt(m)));
    }
  }

  // ---------- the drawers' expected amounts ----------

  function Standalone(paymentMethod: PaymentMethod): Movement -> int {
    (m: Movement) =>
      if m.movementType.Recebimento? && !FromComanda(m) && m.paymentMethod == paymentMethod then m.amountCents else 0
  }

  function Supplied(paymentMethod: PaymentMethod): Movement -> int {
    (m: Movement) => if m.movementType.Suprimento? && m.paymentMethod == paymentMethod then m.amountCents else 0
  }

  /** Withdrawals, counted as negative amounts. */
  function Withdrawn(paymentMethod: PaymentMethod): Movement -> int {
    (m: Movement) => if m.movementType.Sangria? && m.paymentMethod == paymentMethod then -m.amountCents else 0
  }

  function ExpectedIn(paymentMethod: PaymentMethod): Session -> int {
    (s: Session) => Expected(s, paymentMethod)
  }

  function OpeningIn(paymentMethod: PaymentMethod): Session -> int {
    (s: Session) => Opening(s, paymentMethod)
  }

  function Both(f: Movement -> int, g: Movement -> int): Movement -> int {
    (m: Movement) => f(m) + g(m)
  }

  lemma TotalSplits(sessions: map<Id, Session>, f: Movement -> int, g: Movement -> int)
    ensures Total(sessions, Summed(Both(f, g))) == Total(sessions, Summed(f)) + Total(sessions, Summed(g))
  {
    forall k | k in sessions ensures Summed(Both(f, g))(sessions[k]) == Summed(f)(sessions[k]) + Summed(g)(sessions[k]) {
      SumPlus(sessions[k].movements, f, g, Both(f, g));
    }
    TotalPlus(sessions, Summed(f), Summed(g), Summed(Both(f, g)));
  }

  /** What all drawers are expected to hold by a method: the opening funds, what comandas paid,
      standalone receipts and supplies, less withdrawals. */
  lemma CashConserved(comandas: map<Id, Comanda>, sessions: map<Id, Session>, m: PaymentMethod)
    requires MoneyOk(comandas, sessions)
    ensures Total(sessions, ExpectedIn(m)) ==
            Total(sessions, OpeningIn(m)) + Total(comandas, PaidIn(m)) + Total(sessions, Summed(Standalone(m)))
            + Total(sessions, Summed(Supplied(m))) + Total(sessions, Summed(Withdrawn(m)))
  {
    var received, moved := Both(ComandaReceipt(m), Standalone(m)), Both(Supplied(m), Withdrawn(m));
    TotalSplits(sessions, ComandaReceipt(m), Standalone(m));
    TotalSplits(sessions, Supplied(m), Withdrawn(m));
    TotalSplits(sessions, received, moved);
    forall k | k in sessions ensures ExpectedIn(m)(sessions[k]) == OpeningIn(m)(sessions[k]) + Summed(Both(received, moved))(sessions[k]) {
      SumAgrees(sessions[k].movements, Signed(m), Both(received, moved));
    }
    TotalPlus(sessions, OpeningIn(m), Summed(Both(received, moved)), ExpectedIn(m));
  }
}
