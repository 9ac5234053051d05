/** The closing form: amounts printed into drafts, read back, and counted against the drawer. */
module CashClosing {
  import opened Wrappers
  import opened Decimal
  import opened Text
  import opened Rows
  import opened Comandas
  import opened Cash
  import CashEffects
  import CashRuns

  // ---------- printing and reading amounts ----------

  /** `(value / 100).toFixed(2).replace(".", ",")`. */
  function FormatCentsToAmountInput(value: Cents): string {
    Sign(value) + Print(Abs(value) / 100) + "," + PadStart(Print(Abs(value) % 100), 2)
  }

  function Abs(value: int): nat {
    if value < 0 then -value else value
  }

  function Sign(value: int): string {
    if value < 0 then "-" else ""
  }

  /** `value.replace(/\./g, "")`. */
  function RemoveDots(s: string): string {
    if s == [] then [] else (if s[0] == '.' then [] else [s[0]]) + RemoveDots(s[1..])
  }

  /** `value.replace(",", ".")`: the first comma only. */
  function CommaToDot(s: string): string {
    if s == [] then [] else if s[0] == ',' then ['.'] + s[1..] else [s[0]] + CommaToDot(s[1..])
  }

  /** The digits a string starts with. */
  function DigitPrefix(s: string): (k: nat)
    ensures k <= |s| && AllDigits(s[..k])
    ensures k < |s| ==> !IsDigit(s[k])
  {
    if s == [] || !IsDigit(s[0]) then 0 else
      var rest := DigitPrefix(s[1..]);
      assert s[..1 + rest] == [s[0]] + s[1..][..rest];
      1 + rest
  }

  /** The factor of an exponent part; 1 when there is none. */
  function ExponentFactor(s: string): real {
    if s == [] || s[0] !in {'e', 'E'} then 1.0
    else
      var signed := |s| > 1 && s[1] in {'+', '-'};
      var digits := if signed then s[2..] else s[1..];
      var k := DigitPrefix(digits);
      var power := Pow10(Read(digits[..k])) as real;
      if k == 0 then 1.0 else if signed && s[1] == '-' then 1.0 / power else power
  }

  /** A literal of digits, a point and digits, scaled by an exponent part. */
  function Literal(whole: string, fraction: string, after: string): real
    requires AllDigits(whole) && AllDigits(fraction)
  {
    (Read(whole) as real + Read(fraction) as real / Pow10(|fraction|) as real) * ExponentFactor(after)
  }

  /** The longest decimal literal an unsigned string starts with; `None` for NaN. */
  function UnsignedPrefix(s: string): Option<real> {
    var whole := DigitPrefix(s);
    var dotted := whole < |s| && s[whole] == '.';
    var tail := if dotted then s[whole + 1..] else [];
    var fraction := DigitPrefix(tail);
    if whole == 0 && fraction == 0 then None
    else
      var after := if dotted then tail[fraction..] else s[whole..];
      Some(Literal(s[..whole], tail[..fraction], after))
  }

  /** `Number.parseFloat` on trimmed text, in exact decimals; `None` for NaN and the infinities. */
  function ParseFloat(s: string): Option<real> {
    if s == [] then None
    else if s[0] == '-' then (match UnsignedPrefix(s[1..]) case None => None case Some(x) => Some(-x))
    else if s[0] == '+' then UnsignedPrefix(s[1..])
    else UnsignedPrefix(s)
  }

  function ParseAmountInputToCents(value: string): Cents {
    var normalized := Trim(CommaToDot(RemoveDots(value)));
    if normalized == [] then 0
    else
      match ParseFloat(normalized)
      case None => 0
      case Some(amount) => (amount * 100.0 + 0.5).Floor
  }

  lemma {:induction false} RemoveNoDots(s: string)
    requires '.' !in s
    ensures RemoveDots(s) == s
  {
    if s != [] {
      RemoveNoDots(s[1..]);
    }
  }

  lemma {:induction false} ReplaceTheComma(a: string, b: string)
    requires ',' !in a
    ensures CommaToDot(a + "," + b) == a + "." + b
  {
    var s := a + "," + b;
    if a == [] {
      assert s == [','] + b;
    } else {
      assert s[1..] == a[1..] + "," + b;
      ReplaceTheComma(a[1..], b);
    }
  }

  lemma {:induction false} PrefixOfDigits(a: string, b: string)
    requires AllDigits(a) && (b == [] || !IsDigit(b[0]))
    ensures DigitPrefix(a + b) == |a|
  {
    if a != [] {
      assert (a + b)[1..] == a[1..] + b;
      PrefixOfDigits(a[1..], b);
    }
  }

  /** An amount without its sign reads back as itself over a hundred. */
  lemma UnsignedReadsBack(c: nat)
    ensures UnsignedPrefix(Print(c / 100) + "." + PadStart(Print(c % 100), 2)) == Some(c as real / 100.0)
  {
    var whole, cents := Print(c / 100), PadStart(Print(c % 100), 2);
    var s := whole + "." + cents;
    assert s == whole + ("." + cents);
    PrefixOfDigits(whole, "." + cents);
    assert s[..|whole|] == whole && s[|whole| + 1..] == cents;
    assert Pow10(2) == 10 * Pow10(1) && Pow10(1) == 10 * Pow10(0);
    PrintWidth(c % 100, 2);
    PrefixOfDigits(cents, []);
    assert cents + [] == cents && cents[..|cents|] == cents;
    ReadPrint(c / 100);
    ReadPadded(c % 100, 2);
    assert c == 100 * (c / 100) + c % 100;
  }

  /** Text that starts and ends with something visible is its own trimming. */
  lemma NothingToTrim(s: string)
    requires s != [] && !IsSpace(s[0]) && !IsSpace(s[|s| - 1])
    ensures Trim(s) == s
  {
  }

  /** Digits hold neither separator nor white space. */
  lemma DigitsOnly(w: string)
    requires AllDigits(w)
    ensures '.' !in w && ',' !in w && forall i :: 0 <= i < |w| ==> !IsSpace(w[i])
  {
  }

  lemma NotIn(c: char, a: string, b: string)
    requires c !in a && c !in b
    ensures c !in a + b
  {
  }

  lemma VisibleSigns()
    ensures !IsSpace('-') && !IsSpace('+') && !IsSpace('.')
  {
  }

  /** A sign, digits, a comma and digits are normalised to the same with a point. */
  lemma FractionNormalized(sign: string, w: string, f: string)
    requires sign in {"", "-", "+"} && AllDigits(w) && AllDigits(f) && w != []
    ensures Trim(CommaToDot(RemoveDots(sign + w + "," + f))) == sign + (w + "." + f)
  {
    hide RemoveDots, CommaToDot, Trim, IsSpace, AllDigits;
    VisibleSigns();
    DigitsOnly(w);
    DigitsOnly(f);
    NotIn('.', sign, w);
    NotIn(',', sign, w);
    NotIn('.', sign + w, ",");
    NotIn('.', sign + w + ",", f);
    RemoveNoDots(sign + w + "," + f);
    ReplaceTheComma(sign + w, f);
    var s := sign + w + "." + f;
    assert s == sign + (w + "." + f);
    assert s[|s| - 1] == (if f == [] then '.' else f[|f| - 1]) && s[0] == if sign == "" then w[0] else sign[0];
    NothingToTrim(s);
  }

  /** The text `parseFloat` sees for a printed amount. */
  lemma NormalizedAmount(c: Cents)
    ensures Trim(CommaToDot(RemoveDots(FormatCentsToAmountInput(c)))) ==
            Sign(c) + (Print(Abs(c) / 100) + "." + PadStart(Print(Abs(c) % 100), 2))
  {
    hide RemoveDots, CommaToDot, Trim, Print, PadStart;
    FractionNormalized(Sign(c), Print(Abs(c) / 100), PadStart(Print(Abs(c) % 100), 2));
  }

  lemma SignedReadsBack(c: Cents, unsigned: string)
    requires unsigned != [] && IsDigit(unsigned[0])
    requires UnsignedPrefix(unsigned) == Some(Abs(c) as real / 100.0)
    ensures ParseFloat(Sign(c) + unsigned) == Some(c as real / 100.0)
  {
    hide UnsignedPrefix;
    if c < 0 {
      assert (Sign(c) + unsigned)[1..] == unsigned;
      assert -(Abs(c) as real / 100.0) == c as real / 100.0;
    } else {
      assert Sign(c) + unsigned == unsigned;
    }
  }

  lemma RoundsBack(c: Cents)
    ensures (c as real / 100.0 * 100.0 + 0.5).Floor == c
  {
    assert c as real / 100.0 * 100.0 == c as real;
  }

  /** The prefilled amount reads back exactly, whatever its sign. */
  lemma ParseFormat(c: Cents)
    ensures ParseAmountInputToCents(FormatCentsToAmountInput(c)) == c
  {
    hide Print, PadStart, UnsignedPrefix, ParseFloat, FormatCentsToAmountInput, Trim, CommaToDot, RemoveDots, Sign, Abs;
    var whole := Print(Abs(c) / 100);
    var unsigned := whole + "." + PadStart(Print(Abs(c) % 100), 2);
    NormalizedAmount(c);
    UnsignedReadsBack(Abs(c));
    assert unsigned[0] == whole[0];
    SignedReadsBack(c, unsigned);
    assert |Sign(c) + unsigned| > 0;
    RoundsBack(c);
  }

  // ---------- the drafts of the form ----------

  type Drafts = map<PaymentMethod, string>

  const EMPTY_DRAFTS: Drafts := map[Dinheiro := "", Pix := "", CartaoCredito := "", CartaoDebito := "", Outro := ""]

  const CHECKOUT_METHODS: seq<PaymentMethod> := [Dinheiro, Pix, CartaoCredito, CartaoDebito, Outro]

  function FillDrafts(byMethod: seq<MethodTotal>, drafts: Drafts): Drafts {
    if byMethod == [] then drafts
    else FillDrafts(byMethod[1..], drafts[byMethod[0].paymentMethod := FormatCentsToAmountInput(byMethod[0].expectedAmountCents)])
  }

  function CreateClosureDrafts(totals: SessionTotals): Drafts {
    FillDrafts(totals.byMethod, EMPTY_DRAFTS)
  }

  function DraftOf(drafts: Drafts, m: PaymentMethod): string {
    if m in drafts then drafts[m] else ""
  }

  function CountsFromDrafts(drafts: Drafts): (counts: seq<RawCount>)
    ensures |counts| == |CHECKOUT_METHODS|
  {
    seq(|CHECKOUT_METHODS|, i requires 0 <= i < |CHECKOUT_METHODS| =>
      RawCount(CHECKOUT_METHODS[i], ParseAmountInputToCents(DraftOf(drafts, CHECKOUT_METHODS[i]))))
  }

  lemma {:induction false} FilledDraft(byMethod: seq<MethodTotal>, drafts: Drafts, i: nat)
    requires i < |byMethod|
    requires forall j, k :: 0 <= j < k < |byMethod| ==> byMethod[j].paymentMethod != byMethod[k].paymentMethod
    ensures DraftOf(FillDrafts(byMethod, drafts), byMethod[i].paymentMethod) == FormatCentsToAmountInput(byMethod[i].expectedAmountCents)
    decreases byMethod
  {
    var next := drafts[byMethod[0].paymentMethod := FormatCentsToAmountInput(byMethod[0].expectedAmountCents)];
    if i > 0 {
      FilledDraft(byMethod[1..], next, i - 1);
    } else {
      OtherDraft(byMethod[1..], next, byMethod[0].paymentMethod);
    }
  }

  lemma {:induction false} OtherDraft(byMethod: seq<MethodTotal>, drafts: Drafts, m: PaymentMethod)
    requires forall j :: 0 <= j < |byMethod| ==> byMethod[j].paymentMethod != m
    ensures DraftOf(FillDrafts(byMethod, drafts), m) == DraftOf(drafts, m)
    decreases byMethod
  {
    if byMethod != [] {
      OtherDraft(byMethod[1..], drafts[byMethod[0].paymentMethod := FormatCentsToAmountInput(byMethod[0].expectedAmountCents)], m);
    }
  }

  /** Every prefilled draft is read back as the expected amount of its method. */
  lemma DraftsReadBack(session: Session, i: nat)
    requires i < |CHECKOUT_METHODS|
    ensures CountsFromDrafts(CreateClosureDrafts(TotalsOf(session)))[i] ==
            RawCount(CHECKOUT_METHODS[i], Expected(session, CHECKOUT_METHODS[i]))
  {
    var m := CHECKOUT_METHODS[i];
    var k := MethodAt(session, m);
    hide FormatCentsToAmountInput, ParseAmountInputToCents, Expected, TotalsOf, FillDrafts, DraftOf;
    FilledDraft(TotalsOf(session).byMethod, EMPTY_DRAFTS, k);
    ParseFormat(Expected(session, m));
  }

  lemma MethodAt(session: Session, m: PaymentMethod) returns (k: nat)
    ensures var byMethod := TotalsOf(session).byMethod;
            && k < |byMethod| && byMethod[k].paymentMethod == m && byMethod[k].expectedAmountCents == Expected(session, m)
            && forall i, j :: 0 <= i < j < |byMethod| ==> byMethod[i].paymentMethod != byMethod[j].paymentMethod
  {
    hide Expected, LastCount, StoredCounts;
    k := match m case Dinheiro => 0 case Pix => 1 case CartaoCredito => 2 case CartaoDebito => 3 case Outro => 4;
  }

  lemma {:induction false} NoDivergence(counts: seq<MethodTotal>)
    requires forall i :: 0 <= i < |counts| ==> counts[i].divergenceAmountCents == 0
    ensures Sum(counts, DivergenceOf) == 0
  {
    if counts != [] {
      NoDivergence(counts[1..]);
    }
  }

  /** Accepting the prefilled drafts closes any reachable session with zero divergence in every
      method and no justification, even when the session shown and the session closed list their
      movements in different orders. */
  lemma PrefilledClosure(shown: Session, session: Session, actor: Actor, at: Time)
    requires CashRuns.Inv(session) && session.status.Fechamento?
    requires shown == session.(movements := shown.movements) && multiset(shown.movements) == multiset(session.movements)
    ensures var closed := CloseCashSession(session, actor, at, CountsFromDrafts(CreateClosureDrafts(TotalsOf(shown))), Some(""), Some(""));
            && closed.Ok? && closed.value.status.Fechado?
            && closed.value.closure.value.totalDivergenceAmountCents == 0
            && forall i :: 0 <= i < |CASH_METHODS| ==>
                 var count := closed.value.closure.value.counts[i];
                 count.paymentMethod == CASH_METHODS[i] && count.divergenceAmountCents == 0
                 && count.countedAmountCents == Expected(session, CASH_METHODS[i])
  {
    var raw := CountsFromDrafts(CreateClosureDrafts(TotalsOf(shown)));
    CashRuns.ReorderKeepsTotals(session, shown.movements);
    hide CountsFromDrafts, CreateClosureDrafts, TotalsOf, Expected, CashRuns.Inv;
    forall i | 0 <= i < |raw| ensures raw[i] == RawCount(CHECKOUT_METHODS[i], Expected(session, CHECKOUT_METHODS[i])) {
      DraftsReadBack(shown, i);
    }
    assert CountsValid(raw) by { NeverNegativeCounts(session, raw); }
    CountsAsExpected(session, raw);
    NoDivergence(TotalsByMethod(session, raw));
  }

  lemma NeverNegativeCounts(session: Session, raw: seq<RawCount>)
    requires CashRuns.Inv(session)
    requires forall i :: 0 <= i < |raw| ==> raw[i].countedAmountCents == Expected(session, raw[i].paymentMethod)
    ensures CountsValid(raw)
  {
    hide Expected, TotalsOf;
  }

  lemma CountsAsExpected(session: Session, raw: seq<RawCount>)
    requires |raw| == |CHECKOUT_METHODS|
    requires forall i :: 0 <= i < |raw| ==> raw[i] == RawCount(CHECKOUT_METHODS[i], Expected(session, CHECKOUT_METHODS[i]))
    ensures forall i :: 0 <= i < |CASH_METHODS| ==>
              TotalsByMethod(session, raw)[i] == MethodTotal(CASH_METHODS[i], Expected(session, CASH_METHODS[i]), Expected(session, CASH_METHODS[i]), 0)
  {
    hide Expected, LastCount;
    forall i | 0 <= i < |CASH_METHODS| ensures LastCount(raw, CASH_METHODS[i]) == Expected(session, CASH_METHODS[i]) {
      assert CASH_METHODS[i] == CHECKOUT_METHODS[i];
      CashRuns.LastCountUnique(raw, i);
    }
  }

  /** Each method's count is the amount its draft reads as. */
  lemma CountsAsDrafted(session: Session, drafts: Drafts)
    ensures forall i :: 0 <= i < |CASH_METHODS| ==>
              TotalsByMethod(session, CountsFromDrafts(drafts))[i] == Counted(session, drafts, CASH_METHODS[i])
  {
    var raw := CountsFromDrafts(drafts);
    hide Expected, LastCount, ParseAmountInputToCents, DraftOf;
    forall i | 0 <= i < |CASH_METHODS|
      ensures LastCount(raw, CASH_METHODS[i]) == ParseAmountInputToCents(DraftOf(drafts, CASH_METHODS[i])) {
      assert CASH_METHODS[i] == CHECKOUT_METHODS[i];
      CashRuns.LastCountUnique(raw, i);
    }
  }

  /** The line of a closure that counts what a draft reads as. */
  function Counted(session: Session, drafts: Drafts, m: PaymentMethod): MethodTotal {
    var (expected, counted) := (Expected(session, m), ParseAmountInputToCents(DraftOf(drafts, m)));
    MethodTotal(m, expected, counted, counted - expected)
  }

  /** The divergences of all methods together. */
  function Divergence(session: Session, drafts: Drafts): int {
    Counted(session, drafts, Dinheiro).divergenceAmountCents + Counted(session, drafts, Pix).divergenceAmountCents
    + Counted(session, drafts, CartaoCredito).divergenceAmountCents + Counted(session, drafts, CartaoDebito).divergenceAmountCents
    + Counted(session, drafts, Outro).divergenceAmountCents
  }

  lemma {:induction false} DivergencesAddUp(session: Session, drafts: Drafts, counts: seq<MethodTotal>)
    requires |counts| == |CASH_METHODS| && forall i :: 0 <= i < |counts| ==> counts[i] == Counted(session, drafts, CASH_METHODS[i])
    ensures Sum(counts, DivergenceOf) == Divergence(session, drafts)
  {
    hide Counted;
    CashEffects.FiveTotals(counts, DivergenceOf);
  }

  lemma NoDivergences(session: Session, drafts: Drafts)
    ensures (forall m :: Counted(session, drafts, m).divergenceAmountCents == 0) ==> Divergence(session, drafts) == 0
  {
    hide Counted;
  }

  lemma DraftsValid(drafts: Drafts)
    ensures CountsValid(CountsFromDrafts(drafts)) <==> forall m :: ParseAmountInputToCents(DraftOf(drafts, m)) >= 0
  {
    hide ParseAmountInputToCents, DraftOf;
    var counts := CountsFromDrafts(drafts);
    forall m: PaymentMethod ensures m in CHECKOUT_METHODS {
      match m {
        case Dinheiro => assert CHECKOUT_METHODS[0] == m;
        case Pix => assert CHECKOUT_METHODS[1] == m;
        case CartaoCredito => assert CHECKOUT_METHODS[2] == m;
        case CartaoDebito => assert CHECKOUT_METHODS[3] == m;
        case Outro => assert CHECKOUT_METHODS[4] == m;
      }
    }
    forall m | CountsValid(counts) ensures ParseAmountInputToCents(DraftOf(drafts, m)) >= 0 {
      assert m in CHECKOUT_METHODS;
      var i := IndexOf(CHECKOUT_METHODS, m);
      assert counts[i].countedAmountCents == ParseAmountInputToCents(DraftOf(drafts, m));
    }
  }

  /** Prefilled drafts read as the expected amounts. */
  lemma PrefilledCounts(session: Session, shown: Session, drafts: Drafts, m: PaymentMethod)
    requires CashRuns.Inv(session) && Prefilled(drafts, shown, session)
    ensures Counted(session, drafts, m).divergenceAmountCents == 0 && ParseAmountInputToCents(DraftOf(drafts, m)) >= 0
  {
    CashRuns.ReorderKeepsTotals(session, shown.movements);
    assert Expected(session, m) >= 0;
    var k := MethodAt(shown, m);
    hide FormatCentsToAmountInput, ParseAmountInputToCents, Expected, TotalsOf, FillDrafts, DraftOf, CashRuns.Inv;
    FilledDraft(TotalsOf(shown).byMethod, EMPTY_DRAFTS, k);
    ParseFormat(Expected(session, m));
  }

  /** The drafts are as prefilled from `shown`, which lists the session's movements in its own order. */
  ghost predicate Prefilled(drafts: Drafts, shown: Session, session: Session) {
    && drafts == CreateClosureDrafts(TotalsOf(shown))
    && shown == session.(movements := shown.movements) && multiset(shown.movements) == multiset(session.movements)
  }

  /** The cash part of the shell state and the two actions that touch it. */
  class ShellController {
    var closureCountDrafts: Drafts
    var divergenceReasonDraft: string
    var closureNoteDraft: string

    constructor ()
      ensures closureCountDrafts == EMPTY_DRAFTS && divergenceReasonDraft == "" && closureNoteDraft == ""
    {
      closureCountDrafts := EMPTY_DRAFTS;
      divergenceReasonDraft := "";
      closureNoteDraft := "";
    }

    /** `startCashClosureFlow`: once the closure has started, the form shows the expected amounts. */
    method StartCashClosureFlow(started: Session)
      modifies this
      ensures closureCountDrafts == CreateClosureDrafts(TotalsOf(started))
      ensures divergenceReasonDraft == "" && closureNoteDraft == ""
    {
      var totals := CalculateCashSessionTotals(started);
      closureCountDrafts := CreateClosureDrafts(totals);
      divergenceReasonDraft := "";
      closureNoteDraft := "";
    }

    /** `closeCashSessionFromDraft`: the closure counts what each draft reads as; it is refused when the
        session is not closing, when a draft reads as a negative amount, or when the divergences do not
        cancel out and no reason is given. Prefilled drafts always close, without divergence. */
    method CloseCashSessionFromDraft(session: Session, actor: Actor, at: Time) returns (closed: SessionResult)
      ensures closed.Ok? ==>
                && closed.value.status.Fechado? && closed.value.movements == session.movements
                && closed.value.closure.Some? && |closed.value.closure.value.counts| == |CASH_METHODS|
                && forall i :: 0 <= i < |CASH_METHODS| ==>
                     closed.value.closure.value.counts[i] == Counted(session, closureCountDrafts, CASH_METHODS[i])
      ensures closed.Ok? <==>
                && session.status.Fechamento?
                && (forall m :: ParseAmountInputToCents(DraftOf(closureCountDrafts, m)) >= 0)
                && (Divergence(session, closureCountDrafts) == 0 || Trim(divergenceReasonDraft) != [])
      ensures forall shown :: CashRuns.Inv(session) && session.status.Fechamento? && Prefilled(closureCountDrafts, shown, session)
                ==> closed.Ok? && forall m :: Counted(session, closureCountDrafts, m).divergenceAmountCents == 0
    {
      hide CountsFromDrafts, Counted, TotalsOf, TotalsByMethod, Divergence, CountsValid, Prefilled, CashRuns.Inv;
      var counts := CountsFromDrafts(closureCountDrafts);
      closed := CloseCashSession(session, actor, at, counts, Some(closureNoteDraft), Some(divergenceReasonDraft));
      CountsAsDrafted(session, closureCountDrafts);
      DivergencesAddUp(session, closureCountDrafts, TotalsByMethod(session, counts));
      DraftsValid(closureCountDrafts);
      forall shown, m | CashRuns.Inv(session) && Prefilled(closureCountDrafts, shown, session)
        ensures Counted(session, closureCountDrafts, m).divergenceAmountCents == 0
        ensures ParseAmountInputToCents(DraftOf(closureCountDrafts, m)) >= 0 {
        PrefilledCounts(session, shown, closureCountDrafts, m);
      }
      assert (forall m :: Counted(session, closureCountDrafts, m).divergenceAmountCents == 0) ==> Divergence(session, closureCountDrafts) == 0 by {
        NoDivergences(session, closureCountDrafts);
      }
    }
  }
}
