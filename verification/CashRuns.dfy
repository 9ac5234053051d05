/** What every reachable cash session satisfies, over all runs of operations and reloads. */
module CashRuns {
  import opened Wrappers
  import opened Rows
  import opened Comandas
  import opened Cash

  datatype Operation =
    | Receive(movementId: Id, actor: Actor, at: Time, paymentMethod: PaymentMethod, amountCents: Cents,
              sourceEntity: Option<string>, sourceEntityId: Option<Id>, note: Option<string>)
    | Supply(movementId: Id, actor: Actor, at: Time, amountCents: Cents, reason: string)
    | Withdraw(movementId: Id, actor: Actor, at: Time, amountCents: Cents, reason: string)
    | StartClosure(at: Time, pendingComandas: nat)
    | Close(actor: Actor, at: Time, counts: seq<RawCount>, note: Option<string>, divergenceReason: Option<string>)
    | Store

  function Apply(session: Session, op: Operation): SessionResult
    requires !op.Store?
  {
    match op
    case Receive(id, actor, at, paymentMethod, amount, entity, entityId, note) =>
      ReceiveCashPayment(session, id, actor, at, paymentMethod, amount, entity, entityId, note)
    case Supply(id, actor, at, amount, reason) => RegisterCashSupply(session, id, actor, at, amount, reason)
    case Withdraw(id, actor, at, amount, reason) => RegisterCashWithdrawal(session, id, actor, at, amount, reason)
    case StartClosure(at, pending) => StartCashClosure(session, at, pending)
    case Close(actor, at, counts, note, reason) => CloseCashSession(session, actor, at, counts, note, reason)
  }

  ghost function Step(session: Session, op: Operation): Session {
    if op.Store? then ReloadSession(session)
    else
      match Apply(session, op)
      case Ok(next) => next
      case Err(_) => session
  }

  predicate Moves(op: Operation) {
    op.Receive? || op.Supply? || op.Withdraw?
  }

  ghost predicate FreshIds(session: Session, op: Operation) {
    Moves(op) ==> forall i :: 0 <= i < |session.movements| ==> session.movements[i].movementId != op.movementId
  }

  ghost function Run(session: Session, ops: seq<Operation>): Session
    decreases ops
  {
    if ops == [] then session else Run(Step(session, ops[0]), ops[1..])
  }

  ghost predicate FreshRun(session: Session, ops: seq<Operation>)
    decreases ops
  {
    ops == [] || (FreshIds(session, ops[0]) && FreshRun(Step(session, ops[0]), ops[1..]))
  }

  // ---------- the invariant ----------

  ghost predicate MovementsOk(session: Session) {
    && DistinctBy(session.movements, MovementKey)
    && (forall m :: m in session.movements ==> m.amountCents > 0 && (m.movementType.Recebimento? || m.paymentMethod.Dinheiro?))
  }

  /** No method is ever expected to hold less than nothing: the drawer never goes negative. */
  ghost predicate NeverNegative(session: Session) {
    session.openingFundAmountCents >= 0 && forall m :: Expected(session, m) >= 0
  }

  ghost predicate ClosureOk(session: Session) {
    && (session.status.Fechado? <==> session.closure.Some?)
    && (session.status.Aberto? <==> session.closingStartedAt.None?)
    && (session.closure.Some? ==>
          var closure := session.closure.value;
          && TotalsOf(session).byMethod == closure.counts
          && TotalsOf(session).totalExpectedAmountCents == closure.totalExpectedAmountCents
          && TotalsOf(session).totalCountedAmountCents == closure.totalCountedAmountCents
          && TotalsOf(session).totalDivergenceAmountCents == closure.totalDivergenceAmountCents
          && (closure.totalDivergenceAmountCents != 0 ==> closure.divergenceReason.Some?)
          && forall i :: 0 <= i < |closure.counts| ==> closure.counts[i].countedAmountCents >= 0)
  }

  ghost predicate Inv(session: Session) {
    MovementsOk(session) && NeverNegative(session) && ClosureOk(session)
  }

  // ---------- totals do not depend on the order of a reload ----------

  /** Counts read back from a summary give that summary's counts again. */
  lemma CountsReadBack(session: Session, counts: seq<RawCount>, i: nat)
    requires i < |CASH_METHODS|
    ensures LastCount(RawOf(TotalsByMethod(session, counts)), CASH_METHODS[i]) == LastCount(counts, CASH_METHODS[i])
  {
    var raw := RawOf(TotalsByMethod(session, counts));
    LastCountUnique(raw, i);
  }

  lemma {:induction false} LastCountUnique(raw: seq<RawCount>, i: nat)
    requires i < |raw| && forall j :: i < j < |raw| ==> raw[j].paymentMethod != raw[i].paymentMethod
    ensures LastCount(raw, raw[i].paymentMethod) == raw[i].countedAmountCents
  {
    if i < |raw| - 1 {
      LastCountUnique(raw[..|raw| - 1], i);
    }
  }

  lemma ReorderKeepsTotals(session: Session, movements: seq<Movement>)
    requires multiset(movements) == multiset(session.movements)
    ensures forall m :: Expected(session.(movements := movements), m) == Expected(session, m)
    ensures TotalsOf(session.(movements := movements)) == TotalsOf(session)
  {
    var reordered := session.(movements := movements);
    forall m ensures Expected(reordered, m) == Expected(session, m) {
      SumPermutation(movements, session.movements, Signed(m));
    }
    PermutationMembers(movements, session.movements);
    assert TotalsByMethod(reordered, StoredCounts(reordered)) == TotalsByMethod(session, StoredCounts(session));
  }

  lemma ReloadKeepsMovements(session: Session)
    requires Inv(session)
    ensures multiset(ReloadSession(session).movements) == multiset(session.movements)
    ensures TotalsOf(ReloadSession(session)) == TotalsOf(session)
    ensures Inv(ReloadSession(session))
  {
    var movements := ReloadSession(session).movements;
    ReorderKeepsRows(session.movements, MovementOrder, MovementKey);
    ReorderKeepsTotals(session, movements);
    DistinctPermutation(session.movements, movements, MovementKey);
    PermutationMembers(session.movements, movements);
  }

  // ---------- every operation keeps the invariant ----------

  lemma MoveKeepsInv(session: Session, op: Operation)
    requires Inv(session) && Moves(op) && FreshIds(session, op) && Apply(session, op).Ok?
    ensures Inv(Step(session, op))
  {
    var next := Step(session, op);
    var movement := next.movements[|session.movements|];
    forall m ensures Expected(next, m) == Expected(session, m) + Signed(m)(movement) {
      SumAppend(session.movements, movement, Signed(m));
    }
    forall m ensures Expected(next, m) >= 0 {
      assert Expected(session, m) >= 0;
    }
  }

  lemma CloseKeepsInv(session: Session, op: Operation)
    requires Inv(session) && op.Close? && Apply(session, op).Ok?
    ensures Inv(Step(session, op))
  {
    var next := Step(session, op);
    var counts := TotalsByMethod(session, op.counts);
    assert forall m :: Expected(next, m) == Expected(session, m);
    forall i | 0 <= i < |CASH_METHODS| ensures TotalsByMethod(next, RawOf(counts))[i] == counts[i] {
      CountsReadBack(session, op.counts, i);
    }
    assert TotalsByMethod(next, RawOf(counts)) == counts;
    ExpectedTotalIgnoresCounts(session, op.counts);
    forall i | 0 <= i < |counts| ensures counts[i].countedAmountCents >= 0 {
      CountNonNegative(op.counts, CASH_METHODS[i]);
    }
  }

  lemma {:induction false} CountNonNegative(counts: seq<RawCount>, paymentMethod: PaymentMethod)
    requires CountsValid(counts)
    ensures LastCount(counts, paymentMethod) >= 0
  {
    if counts != [] {
      CountNonNegative(counts[..|counts| - 1], paymentMethod);
    }
  }

  lemma ExpectedTotalIgnoresCounts(session: Session, counts: seq<RawCount>)
    ensures Sum(TotalsByMethod(session, counts), ExpectedOf) == TotalsOf(session).totalExpectedAmountCents
  {
    SameExpected(TotalsByMethod(session, counts), TotalsByMethod(session, StoredCounts(session)));
  }

  lemma {:induction false} SameExpected(a: seq<MethodTotal>, b: seq<MethodTotal>)
    requires |a| == |b| && forall i :: 0 <= i < |a| ==> ExpectedOf(a[i]) == ExpectedOf(b[i])
    ensures Sum(a, ExpectedOf) == Sum(b, ExpectedOf)
  {
    if a != [] {
      SameExpected(a[1..], b[1..]);
    }
  }

  lemma StepKeepsInv(session: Session, op: Operation)
    requires Inv(session) && FreshIds(session, op)
    ensures Inv(Step(session, op))
  {
    if op.Store? {
      ReloadKeepsMovements(session);
    } else if Apply(session, op).Ok? {
      match op
      case Receive(_, _, _, _, _, _, _, _) => MoveKeepsInv(session, op);
      case Supply(_, _, _, _, _) => MoveKeepsInv(session, op);
      case Withdraw(_, _, _, _, _) => MoveKeepsInv(session, op);
      case StartClosure(_, _) => assert forall m :: Expected(Step(session, op), m) == Expected(session, m);
      case Close(_, _, _, _, _) => CloseKeepsInv(session, op);
    }
  }

  lemma OpenedSessionInv(cashSessionId: Id, actor: Actor, at: Time, fund: Cents, reason: Option<string>)
    requires OpenCashSession(cashSessionId, actor, at, fund, reason).Ok?
    ensures Inv(OpenCashSession(cashSessionId, actor, at, fund, reason).value)
  {
  }

  /** Every session reachable from its opening, through any operations and reloads. */
  lemma {:induction false} ReachableSession(session: Session, ops: seq<Operation>)
    requires Inv(session) && FreshRun(session, ops)
    ensures Inv(Run(session, ops))
    decreases ops
  {
    if ops != [] {
      StepKeepsInv(session, ops[0]);
      ReachableSession(Step(session, ops[0]), ops[1..]);
    }
  }

  /** Once FECHADO, every later run leaves the closure and the totals as they were closed. */
  lemma {:induction false} ClosedForever(session: Session, ops: seq<Operation>)
    requires Inv(session) && session.status.Fechado? && FreshRun(session, ops)
    ensures var end := Run(session, ops);
            && end.status.Fechado? && end.closure == session.closure
            && TotalsOf(end) == TotalsOf(session) && TotalsOf(end).byMethod == session.closure.value.counts
    decreases ops
  {
    if ops != [] {
      var next := Step(session, ops[0]);
      if ops[0].Store? {
        ReloadKeepsMovements(session);
      } else {
        assert next == session;
      }
      ClosedForever(next, ops[1..]);
    }
  }
}
