/** What each operation of a cash session accepts and changes, from the caller's own data. */
module CashEffects {
  import opened Wrappers
  import opened Rows
  import opened Text
  import opened Comandas
  import opened Cash
  import CashRuns

  lemma OpenEffect(cashSessionId: Id, actor: Actor, at: Time, fund: Cents, reason: Option<string>)
    ensures var r := OpenCashSession(cashSessionId, actor, at, fund, reason);
            && (r.Ok? <==> fund >= 0 && Trim(actor.terminalId) != [])
            && (r.Ok? ==>
                  var s := r.value;
                  && s.cashSessionId == cashSessionId && s.terminalId == actor.terminalId && s.openedBy == actor && s.openedAt == at
                  && s.status.Aberto? && s.movements == [] && s.openingReason == NormalizeNullable(reason)
                  && forall m :: Expected(s, m) == if m.Dinheiro? then fund else 0)
  {
    hide Trim;
  }

  // ---------- receipts, supplies and withdrawals ----------

  /** What an operation is meant to add to the amount expected by a method. */
  function Change(op: CashRuns.Operation, m: PaymentMethod): int {
    match op
    case Receive(_, _, _, paymentMethod, amount, _, _, _) => if m == paymentMethod then amount else 0
    case Supply(_, _, _, amount, _) => if m.Dinheiro? then amount else 0
    case Withdraw(_, _, _, amount, _) => if m.Dinheiro? then -amount else 0
    case _ => 0
  }

  /** The movement says what was given, by whom and when. */
  predicate Records(movement: Movement, op: CashRuns.Operation)
    requires CashRuns.Moves(op)
  {
    && movement.movementId == op.movementId && movement.amountCents == op.amountCents
    && movement.occurredAt == op.at && movement.actor == op.actor
    && match op
       case Receive(_, _, _, paymentMethod, _, entity, entityId, note) =>
         && movement.movementType.Recebimento? && movement.paymentMethod == paymentMethod
         && movement.sourceEntity == entity && movement.sourceEntityId == entityId && movement.reason == NormalizeNullable(note)
       case Supply(_, _, _, _, reason) =>
         && movement.movementType.Suprimento? && movement.paymentMethod.Dinheiro?
         && movement.sourceEntity.None? && movement.reason == Some(Trim(reason))
       case Withdraw(_, _, _, _, reason) =>
         && movement.movementType.Sangria? && movement.paymentMethod.Dinheiro?
         && movement.sourceEntity.None? && movement.reason == Some(Trim(reason))
  }

  /** The session is open and the operation complete; a withdrawal is covered by the cash expected. */
  predicate Takes(s: Session, op: CashRuns.Operation)
    requires CashRuns.Moves(op)
  {
    && s.status.Aberto? && op.amountCents > 0
    && (op.Supply? || op.Withdraw? ==> Trim(op.reason) != [])
    && (op.Withdraw? ==> op.amountCents <= Expected(s, Dinheiro))
  }

  /** An open session accepts a positive receipt, a positive supply with a visible reason, and a positive
      withdrawal with one that the cash expected covers; nothing else. The movement is recorded, and each
      method's expected amount changes by what the operation is meant to add. */
  lemma MoveEffect(s: Session, op: CashRuns.Operation)
    requires CashRuns.Moves(op)
    ensures var r := CashRuns.Apply(s, op);
            && (r.Ok? <==> Takes(s, op))
            && (r.Ok? ==>
                  && r.value == s.(movements := r.value.movements)
                  && |r.value.movements| == |s.movements| + 1 && s.movements <= r.value.movements
                  && Records(r.value.movements[|s.movements|], op)
                  && forall m :: Expected(r.value, m) == Expected(s, m) + Change(op, m))
  {
    hide Trim, NormalizeNullable;
    var r := CashRuns.Apply(s, op);
    if r.Ok? {
      forall m ensures Expected(r.value, m) == Expected(s, m) + Change(op, m) {
        SumAppend(s.movements, r.value.movements[|s.movements|], Signed(m));
      }
    }
  }

  // ---------- the closure ----------

  lemma StartClosureEffect(s: Session, at: Time, pending: nat)
    ensures var r := StartCashClosure(s, at, pending);
            && (r.Ok? <==> s.status.Aberto? && pending == 0)
            && (r.Ok? ==>
                  && r.value == s.(status := Fechamento, closingStartedAt := Some(at))
                  && forall m :: Expected(r.value, m) == Expected(s, m))
  {
    hide Sum;
  }

  function CountFor(s: Session, counts: seq<RawCount>, m: PaymentMethod): MethodTotal {
    MethodTotal(m, Expected(s, m), LastCount(counts, m), LastCount(counts, m) - Expected(s, m))
  }

  /** Counted less expected, over all methods. */
  function Divergence(s: Session, counts: seq<RawCount>): int {
    CountFor(s, counts, Dinheiro).divergenceAmountCents + CountFor(s, counts, Pix).divergenceAmountCents
    + CountFor(s, counts, CartaoCredito).divergenceAmountCents + CountFor(s, counts, CartaoDebito).divergenceAmountCents
    + CountFor(s, counts, Outro).divergenceAmountCents
  }

  lemma {:induction false} FiveTotals(totals: seq<MethodTotal>, f: MethodTotal -> int)
    requires |totals| == 5
    ensures Sum(totals, f) == f(totals[0]) + f(totals[1]) + f(totals[2]) + f(totals[3]) + f(totals[4])
  {
    assert totals[4..][1..] == [] && totals[3..][1..] == totals[4..] && totals[2..][1..] == totals[3..];
    assert totals[1..][1..] == totals[2..];
    assert Sum(totals[4..], f) == f(totals[4]) + Sum([], f);
    assert Sum(totals[3..], f) == f(totals[3]) + Sum(totals[4..], f);
    assert Sum(totals[2..], f) == f(totals[2]) + Sum(totals[3..], f);
    assert Sum(totals[1..], f) == f(totals[1]) + Sum(totals[2..], f);
  }

  /** A closure is accepted in FECHAMENTO with no negative count, and with a visible reason unless the
      divergences cancel out. It records every method's last count against its expected amount. */
  lemma CloseEffect(s: Session, actor: Actor, at: Time, counts: seq<RawCount>, note: Option<string>, reason: Option<string>)
    ensures var r := CloseCashSession(s, actor, at, counts, note, reason);
            && (r.Ok? <==>
                  && s.status.Fechamento? && (forall i :: 0 <= i < |counts| ==> counts[i].countedAmountCents >= 0)
                  && (Divergence(s, counts) == 0 || NormalizeNullable(reason).Some?))
            && (r.Ok? ==>
                  && r.value == s.(status := Fechado, closedAt := Some(at), closure := r.value.closure)
                  && r.value.closure.Some?
                  && var closure := r.value.closure.value;
                     && closure.closedAt == at && closure.closedBy == actor && closure.note == NormalizeNullable(note)
                     && closure.divergenceReason == NormalizeNullable(reason)
                     && (s.closingStartedAt.Some? ==> closure.startedAt == s.closingStartedAt.value)
                     && |closure.counts| == |CASH_METHODS|
                     && (forall i :: 0 <= i < |CASH_METHODS| ==> closure.counts[i] == CountFor(s, counts, CASH_METHODS[i]))
                     && closure.totalDivergenceAmountCents == Divergence(s, counts)
                     && closure.totalCountedAmountCents - closure.totalExpectedAmountCents == Divergence(s, counts))
  {
    var totals := TotalsByMethod(s, counts);
    CashRuns.ExpectedTotalIgnoresCounts(s, counts);
    hide Expected, LastCount, TotalsOf, NormalizeNullable, Sum;
    FiveTotals(totals, DivergenceOf);
    FiveTotals(totals, CountedOf);
    FiveTotals(totals, ExpectedOf);
  }
}
