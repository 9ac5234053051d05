/** The cash session aggregate: movements, totals and the counted closure. */
module Cash {
  import opened Wrappers
  import opened Rows
  import opened Text
  import opened Comandas

  datatype SessionStatus = Aberto | Fechamento | Fechado

  datatype MovementType = Recebimento | Sangria | Suprimento

  datatype Actor = Actor(userId: string, terminalId: string, role: Option<string>)

  datatype Movement = Movement(
    movementId: Id,
    movementType: MovementType,
    paymentMethod: PaymentMethod,
    amountCents: Cents,
    reason: Option<string>,
    sourceEntity: Option<string>,
    sourceEntityId: Option<Id>,
    occurredAt: Time,
    actor: Actor)

  datatype MethodTotal = MethodTotal(
    paymentMethod: PaymentMethod,
    expectedAmountCents: Cents,
    countedAmountCents: Cents,
    divergenceAmountCents: Cents)

  datatype RawCount = RawCount(paymentMethod: PaymentMethod, countedAmountCents: Cents)

  datatype Closure = Closure(
    startedAt: Time,
    closedAt: Time,
    closedBy: Actor,
    note: Option<string>,
    divergenceReason: Option<string>,
    counts: seq<MethodTotal>,
    totalExpectedAmountCents: Cents,
    totalCountedAmountCents: Cents,
    totalDivergenceAmountCents: Cents)

  datatype Session = Session(
    cashSessionId: Id,
    terminalId: string,
    openedBy: Actor,
    openedAt: Time,
    openingFundAmountCents: Cents,
    openingReason: Option<string>,
    status: SessionStatus,
    closingStartedAt: Option<Time>,
    closedAt: Option<Time>,
    movements: seq<Movement>,
    closure: Option<Closure>)

  datatype SessionTotals = SessionTotals(
    totalExpectedAmountCents: Cents,
    totalCountedAmountCents: Cents,
    totalDivergenceAmountCents: Cents,
    openingFundAmountCents: Cents,
    movementCount: nat,
    byMethod: seq<MethodTotal>)

  datatype CashError =
    | TerminalIdInvalido
    | FundoInicialInvalido
    | CaixaFechadoParaMovimento
    | RecebimentoValorInvalido
    | SuprimentoValorInvalido
    | SuprimentoMotivoObrigatorio
    | SangriaValorInvalido
    | SangriaMotivoObrigatorio
    | SangriaAcimaDoDisponivel
    | CaixaNaoDisponivelParaFechamento
    | CaixaComComandasEmPagamento
    | CaixaNaoEmFechamento
    | CaixaContagemInvalida
    | CaixaDivergenciaSemJustificativa

  type SessionResult = Result<Session, CashError>

  const CASH_METHODS: seq<PaymentMethod> := [Dinheiro, Pix, CartaoCredito, CartaoDebito, Outro]

  // ---------- totals ----------

  /** What a movement adds to the expected amount of one payment method. */
  function Signed(paymentMethod: PaymentMethod): Movement -> int {
    (m: Movement) =>
      if m.paymentMethod != paymentMethod then 0
      else if m.movementType.Sangria? then -m.amountCents else m.amountCents
  }

  function Opening(session: Session, paymentMethod: PaymentMethod): Cents {
    if paymentMethod.Dinheiro? then session.openingFundAmountCents else 0
  }

  function Expected(session: Session, paymentMethod: PaymentMethod): Cents {
    Opening(session, paymentMethod) + Sum(session.movements, Signed(paymentMethod))
  }

  /** The last count given for a method, or zero. */
  function LastCount(counts: seq<RawCount>, paymentMethod: PaymentMethod): Cents {
    if counts == [] then 0
    else if counts[|counts| - 1].paymentMethod == paymentMethod then counts[|counts| - 1].countedAmountCents
    else LastCount(counts[..|counts| - 1], paymentMethod)
  }

  function RawOf(counts: seq<MethodTotal>): (raw: seq<RawCount>)
    ensures |raw| == |counts|
  {
    seq(|counts|, i requires 0 <= i < |counts| => RawCount(counts[i].paymentMethod, counts[i].countedAmountCents))
  }

  /** One total per method, in the fixed method order. */
  function TotalsByMethod(session: Session, counts: seq<RawCount>): (byMethod: seq<MethodTotal>)
    ensures |byMethod| == |CASH_METHODS|
  {
    seq(|CASH_METHODS|, i requires 0 <= i < |CASH_METHODS| =>
      var expected := Expected(session, CASH_METHODS[i]);
      var counted := LastCount(counts, CASH_METHODS[i]);
      MethodTotal(CASH_METHODS[i], expected, counted, counted - expected))
  }

  function ExpectedOf(t: MethodTotal): int { t.expectedAmountCents }
  function CountedOf(t: MethodTotal): int { t.countedAmountCents }
  function DivergenceOf(t: MethodTotal): int { t.divergenceAmountCents }

  function StoredCounts(session: Session): seq<RawCount> {
    match session.closure
    case None => []
    case Some(closure) => RawOf(closure.counts)
  }

  function TotalsOf(session: Session): SessionTotals {
    var byMethod := TotalsByMethod(session, StoredCounts(session));
    SessionTotals(Sum(byMethod, ExpectedOf), Sum(byMethod, CountedOf), Sum(byMethod, DivergenceOf),
                  session.openingFundAmountCents, |session.movements|, byMethod)
  }

  lemma LastCountAppend(counts: seq<RawCount>, count: RawCount, paymentMethod: PaymentMethod)
    ensures LastCount(counts + [count], paymentMethod) ==
            if count.paymentMethod == paymentMethod then count.countedAmountCents else LastCount(counts, paymentMethod)
  {
    assert (counts + [count])[..|counts|] == counts;
  }

  lemma MovementCounted(movements: seq<Movement>, n: nat, m: PaymentMethod)
    requires n < |movements|
    ensures Sum(movements[..n + 1], Signed(m)) == Sum(movements[..n], Signed(m)) + Signed(m)(movements[n])
  {
    assert movements[..n + 1] == movements[..n] + [movements[n]];
    SumAppend(movements[..n], movements[n], Signed(m));
  }

  lemma CountCounted(counts: seq<RawCount>, n: nat, m: PaymentMethod)
    requires n < |counts|
    ensures LastCount(counts[..n + 1], m) ==
            if counts[n].paymentMethod == m then counts[n].countedAmountCents else LastCount(counts[..n], m)
  {
    assert counts[..n + 1] == counts[..n] + [counts[n]];
    LastCountAppend(counts[..n], counts[n], m);
  }

  /** A Map with an entry for every payment method. */
  predicate Complete(amounts: map<PaymentMethod, Cents>) {
    forall m :: m in amounts
  }

  const NO_AMOUNTS: map<PaymentMethod, Cents> := map[Dinheiro := 0, Pix := 0, CartaoCredito := 0, CartaoDebito := 0, Outro := 0]

  lemma NoAmountsComplete()
    ensures Complete(NO_AMOUNTS) && forall m :: NO_AMOUNTS[m] == 0
  {
    forall m: PaymentMethod ensures m in NO_AMOUNTS && NO_AMOUNTS[m] == 0 {
      match m { case Dinheiro => case Pix => case CartaoCredito => case CartaoDebito => case Outro => }
    }
  }

  /** The first loop: the signed amounts, method by method, from the opening fund on. */
  method SumMovements(session: Session) returns (expectedByMethod: map<PaymentMethod, Cents>)
    ensures Complete(expectedByMethod) && forall m :: expectedByMethod[m] == Expected(session, m)
  {
    NoAmountsComplete();
    expectedByMethod := NO_AMOUNTS[Dinheiro := session.openingFundAmountCents];
    for i := 0 to |session.movements|
      invariant Complete(expectedByMethod)
      invariant forall m :: expectedByMethod[m] == Opening(session, m) + Sum(session.movements[..i], Signed(m))
    {
      hide Sum;
      var movement := session.movements[i];
      var current := expectedByMethod[movement.paymentMethod];
      forall m ensures Sum(session.movements[..i + 1], Signed(m)) == Sum(session.movements[..i], Signed(m)) + Signed(m)(movement) {
        MovementCounted(session.movements, i, m);
      }
      match movement.movementType
      case Recebimento => expectedByMethod := expectedByMethod[movement.paymentMethod := current + movement.amountCents];
      case Suprimento => expectedByMethod := expectedByMethod[movement.paymentMethod := current + movement.amountCents];
      case Sangria => expectedByMethod := expectedByMethod[movement.paymentMethod := current - movement.amountCents];
    }
    assert session.movements[..|session.movements|] == session.movements;
  }

  /** The second loop: the counts of the stored closure, the last one for each method. */
  method ReadClosureCounts(counts: seq<RawCount>) returns (closureCounts: map<PaymentMethod, Cents>)
    ensures Complete(closureCounts) && forall m :: closureCounts[m] == LastCount(counts, m)
  {
    NoAmountsComplete();
    closureCounts := NO_AMOUNTS;
    for i := 0 to |counts|
      invariant Complete(closureCounts) && forall m :: closureCounts[m] == LastCount(counts[..i], m)
    {
      hide LastCount;
      forall m ensures LastCount(counts[..i + 1], m) == if counts[i].paymentMethod == m then counts[i].countedAmountCents else LastCount(counts[..i], m) {
        CountCounted(counts, i, m);
      }
      closureCounts := closureCounts[counts[i].paymentMethod := counts[i].countedAmountCents];
    }
    assert counts[..|counts|] == counts;
  }

  /** `calculateCashSessionTotals`: one pass over the movements and one over the stored counts. */
  method CalculateCashSessionTotals(session: Session) returns (totals: SessionTotals)
    ensures totals == TotalsOf(session)
  {
    hide Expected, LastCount, StoredCounts, Sum;
    var counts := StoredCounts(session);
    var expectedByMethod := SumMovements(session);
    var closureCounts := ReadClosureCounts(counts);
    var byMethod := seq(|CASH_METHODS|, i requires 0 <= i < |CASH_METHODS| =>
      var expected := expectedByMethod[CASH_METHODS[i]];
      var counted := closureCounts[CASH_METHODS[i]];
      MethodTotal(CASH_METHODS[i], expected, counted, counted - expected));
    assert byMethod == TotalsByMethod(session, counts);
    totals := SessionTotals(Sum(byMethod, ExpectedOf), Sum(byMethod, CountedOf), Sum(byMethod, DivergenceOf),
                            session.openingFundAmountCents, |session.movements|, byMethod);
  }

  predicate CountsValid(counts: seq<RawCount>) {
    forall i :: 0 <= i < |counts| ==> counts[i].countedAmountCents >= 0
  }

  /** `buildCountSummary`: rejects a negative count; the last count of a method wins. */
  method BuildCountSummary(rawCounts: seq<RawCount>, session: Session) returns (summary: Result<seq<MethodTotal>, CashError>)
    ensures summary == if CountsValid(rawCounts) then Ok(TotalsByMethod(session, rawCounts)) else Err(CaixaContagemInvalida)
  {
    var rawMap: map<PaymentMethod, Cents> := map[];
    for i := 0 to |rawCounts|
      invariant CountsValid(rawCounts[..i])
      invariant forall m :: (if m in rawMap then rawMap[m] else 0) == LastCount(rawCounts[..i], m)
    {
      hide LastCount;
      if rawCounts[i].countedAmountCents < 0 {
        return Err(CaixaContagemInvalida);
      }
      forall m ensures LastCount(rawCounts[..i + 1], m) == if rawCounts[i].paymentMethod == m then rawCounts[i].countedAmountCents else LastCount(rawCounts[..i], m) {
        CountCounted(rawCounts, i, m);
      }
      rawMap := rawMap[rawCounts[i].paymentMethod := rawCounts[i].countedAmountCents];
    }
    assert rawCounts[..|rawCounts|] == rawCounts;
    var counts := seq(|CASH_METHODS|, i requires 0 <= i < |CASH_METHODS| =>
      var expected := Expected(session, CASH_METHODS[i]);
      var counted := if CASH_METHODS[i] in rawMap then rawMap[CASH_METHODS[i]] else 0;
      MethodTotal(CASH_METHODS[i], expected, counted, counted - expected));
    assert counts == TotalsByMethod(session, rawCounts);
    return Ok(counts);
  }

  // ---------- transitions ----------

  function OpenCashSession(cashSessionId: Id, actor: Actor, openedAt: Time, openingFund: Cents,
                           openingReason: Option<string>): SessionResult {
    if Trim(actor.terminalId) == [] then Err(TerminalIdInvalido)
    else if openingFund < 0 then Err(FundoInicialInvalido)
    else
      Ok(Session(cashSessionId, actor.terminalId, actor, openedAt, openingFund, NormalizeNullable(openingReason),
                 Aberto, None, None, [], None))
  }

  function Append(session: Session, movement: Movement): Session {
    session.(movements := session.movements + [movement])
  }

  function ReceiveCashPayment(session: Session, movementId: Id, actor: Actor, occurredAt: Time, paymentMethod: PaymentMethod,
                              amountCents: Cents, sourceEntity: Option<string>, sourceEntityId: Option<Id>,
                              reason: Option<string>): SessionResult {
    if !session.status.Aberto? then Err(CaixaFechadoParaMovimento)
    else if amountCents <= 0 then Err(RecebimentoValorInvalido)
    else
      Ok(Append(session, Movement(movementId, Recebimento, paymentMethod, amountCents, NormalizeNullable(reason),
                                  sourceEntity, sourceEntityId, occurredAt, actor)))
  }

  function RegisterCashSupply(session: Session, movementId: Id, actor: Actor, occurredAt: Time, amountCents: Cents,
                              reason: string): SessionResult {
    if !session.status.Aberto? then Err(CaixaFechadoParaMovimento)
    else if amountCents <= 0 then Err(SuprimentoValorInvalido)
    else if Trim(reason) == [] then Err(SuprimentoMotivoObrigatorio)
    else
      Ok(Append(session, Movement(movementId, Suprimento, Dinheiro, amountCents, Some(Trim(reason)), None, None,
                                  occurredAt, actor)))
  }

  function RegisterCashWithdrawal(session: Session, movementId: Id, actor: Actor, occurredAt: Time, amountCents: Cents,
                                  reason: string): SessionResult {
    if !session.status.Aberto? then Err(CaixaFechadoParaMovimento)
    else if amountCents <= 0 then Err(SangriaValorInvalido)
    else if Trim(reason) == [] then Err(SangriaMotivoObrigatorio)
    else if amountCents > Expected(session, Dinheiro) then Err(SangriaAcimaDoDisponivel)
    else
      Ok(Append(session, Movement(movementId, Sangria, Dinheiro, amountCents, Some(Trim(reason)), None, None,
                                  occurredAt, actor)))
  }

  function StartCashClosure(session: Session, occurredAt: Time, pendingComandasInPaymentCount: nat): SessionResult {
    if !session.status.Aberto? then Err(CaixaNaoDisponivelParaFechamento)
    else if pendingComandasInPaymentCount != 0 then Err(CaixaComComandasEmPagamento)
    else Ok(session.(status := Fechamento, closingStartedAt := Some(occurredAt)))
  }

  function CloseCashSession(session: Session, actor: Actor, occurredAt: Time, rawCounts: seq<RawCount>,
                            note: Option<string>, divergenceReason: Option<string>): SessionResult {
    if !session.status.Fechamento? then Err(CaixaNaoEmFechamento)
    else if !CountsValid(rawCounts) then Err(CaixaContagemInvalida)
    else
      var counts := TotalsByMethod(session, rawCounts);
      var reason := NormalizeNullable(divergenceReason);
      if Sum(counts, DivergenceOf) != 0 && reason.None? then Err(CaixaDivergenciaSemJustificativa)
      else
        var closure := Closure(session.closingStartedAt.GetOr(occurredAt), occurredAt, actor, NormalizeNullable(note), reason,
                               counts, TotalsOf(session).totalExpectedAmountCents, Sum(counts, CountedOf), Sum(counts, DivergenceOf));
        Ok(session.(status := Fechado, closedAt := Some(occurredAt), closure := Some(closure)))
  }

  // ---------- reload ----------

  function MovementKey(movement: Movement): Id { movement.movementId }
  function MovementOrder(movement: Movement): (Time, Id) { (movement.occurredAt, movement.movementId) }

  /** The session `findById` gives back: movements by time and id. */
  ghost function ReloadSession(session: Session): Session {
    session.(movements := OrderBy(Members(session.movements), MovementOrder))
  }
}
