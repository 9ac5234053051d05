/** The provider's 44-character access key and the document number it carries. */
module NsAccessKey {
  import opened Decimal

  datatype EmissionMode = Normal | ContingencyOffline

  const STATE_CODE: string := "SP"
  const DOCUMENT_MODEL: string := "65"
  const NUMERO_LIMIT: nat := 1_000_000_000

  /** `s.replace(/\D/g, "")`. */
  function OnlyDigits(s: string): (r: string)
    ensures |r| <= |s|
  {
    if s == [] then [] else (if IsDigit(s[0]) then [s[0]] else []) + OnlyDigits(s[1..])
  }

  /** `s.padStart(width, "0").slice(-width)`. */
  function LastDigits(s: string, width: nat): (r: string)
    ensures |r| == width
  {
    var padded := PadStart(s, width);
    padded[|padded| - width..]
  }

  /** `s.padEnd(44, "0").slice(0, 44)`. */
  function Fit44(s: string): (r: string)
    ensures |r| == 44
  {
    if |s| < 44 then s + Zeros(44 - |s|) else s[..44]
  }

  function BuildNsAccessKey(emitterId: string, terminalId: string, serie: string, numero: nat, mode: EmissionMode): (key: string)
    ensures |key| == 44
  {
    Fit44(STATE_CODE + DOCUMENT_MODEL + (if mode.ContingencyOffline? then "9" else "1") + PadStart(serie, 3)
          + PadStart(Print(numero), 9) + LastDigits(OnlyDigits(emitterId), 14) + LastDigits(OnlyDigits(terminalId), 8))
  }

  lemma NineDigits(numero: nat)
    requires numero < NUMERO_LIMIT
    ensures |PadStart(Print(numero), 9)| == 9
  {
    assert Pow10(9) == NUMERO_LIMIT by {
      assert Pow10(3) == 10 * Pow10(2) && Pow10(2) == 10 * Pow10(1) && Pow10(1) == 10 * Pow10(0);
      assert Pow10(6) == 10 * Pow10(5) && Pow10(5) == 10 * Pow10(4) && Pow10(4) == 10 * Pow10(3);
      assert Pow10(9) == 10 * Pow10(8) && Pow10(8) == 10 * Pow10(7) && Pow10(7) == 10 * Pow10(6);
    }
    PrintWidth(numero, 9);
  }

  lemma MiddleOfKey(head: string, middle: string, emitter: string, terminal: string)
    requires |head| == 8 && |middle| == 9 && |emitter| == 14 && |terminal| == 8
    ensures Fit44(head + middle + emitter + terminal)[8..17] == middle
  {
    assert head + middle + emitter + terminal == head + (middle + (emitter + terminal));
  }

  /** Below 10^9 the number stands in characters 8..17 of the key and can be read back. */
  lemma NumeroReadBack(emitterId: string, terminalId: string, serie: string, numero: nat, mode: EmissionMode)
    requires |serie| <= 3 && numero < NUMERO_LIMIT
    ensures var key := BuildNsAccessKey(emitterId, terminalId, serie, numero, mode);
            AllDigits(key[8..17]) && Read(key[8..17]) == numero
  {
    hide Print, Read, OnlyDigits, LastDigits, PadStart, Fit44;
    NineDigits(numero);
    MiddleOfKey(STATE_CODE + DOCUMENT_MODEL + (if mode.ContingencyOffline? then "9" else "1") + PadStart(serie, 3),
                PadStart(Print(numero), 9), LastDigits(OnlyDigits(emitterId), 14), LastDigits(OnlyDigits(terminalId), 8));
    ReadPadded(numero, 9);
  }

  /** Every part of a key below 10^9 stands in its place. */
  lemma KeyParts(emitterId: string, terminalId: string, serie: string, numero: nat, mode: EmissionMode)
    requires |serie| <= 3 && numero < NUMERO_LIMIT
    ensures var key := BuildNsAccessKey(emitterId, terminalId, serie, numero, mode);
            && key[..4] == "SP65" && key[4] == (if mode.ContingencyOffline? then '9' else '1')
            && key[5..8] == PadStart(serie, 3) && key[8..17] == PadStart(Print(numero), 9)
            && key[17..31] == LastDigits(OnlyDigits(emitterId), 14) && key[31..39] == LastDigits(OnlyDigits(terminalId), 8)
            && key[39..] == "00000"
  {
    hide Print, OnlyDigits, LastDigits, PadStart;
    NineDigits(numero);
    assert Zeros(5) == "00000";
    var head := STATE_CODE + DOCUMENT_MODEL + (if mode.ContingencyOffline? then "9" else "1");
    var a, b, c, d := PadStart(serie, 3), PadStart(Print(numero), 9), LastDigits(OnlyDigits(emitterId), 14), LastDigits(OnlyDigits(terminalId), 8);
    assert BuildNsAccessKey(emitterId, terminalId, serie, numero, mode) == head + (a + b + c + d) + Zeros(5);
    assert head == "SP65" + [head[4]];
  }

  /** Different numbers below 10^9 give different keys, whatever else differs. */
  lemma KeysDiffer(emitterA: string, terminalA: string, serieA: string, a: nat, modeA: EmissionMode,
                   emitterB: string, terminalB: string, serieB: string, b: nat, modeB: EmissionMode)
    requires |serieA| <= 3 && |serieB| <= 3 && a < NUMERO_LIMIT && b < NUMERO_LIMIT && a != b
    ensures BuildNsAccessKey(emitterA, terminalA, serieA, a, modeA) != BuildNsAccessKey(emitterB, terminalB, serieB, b, modeB)
  {
    NumeroReadBack(emitterA, terminalA, serieA, a, modeA);
    NumeroReadBack(emitterB, terminalB, serieB, b, modeB);
  }

  // ---------- when keys of one emitter repeat ----------

  function Numero(numero: nat): (s: string)
    ensures |s| >= 9
  {
    PadStart(Print(numero), 9)
  }

  lemma {:induction false} PrintGrows(a: nat, b: nat)
    requires a <= b
    ensures |Print(a)| <= |Print(b)|
  {
    if b >= 10 && a >= 10 {
      PrintGrows(a / 10, b / 10);
    }
  }

  lemma NumeroDecides(a: nat, b: nat)
    requires Numero(a) == Numero(b)
    ensures a == b
  {
    ReadPadded(a, 9);
    ReadPadded(b, 9);
  }

  /** The longer number is the shorter one followed by the first k digits of the emitter, the emitter's
      digits go on with the first terminal's, and the second terminal is the rest of the first. */
  predicate Shifted(a: string, b: string, emitter: string, terminalA: string, terminalB: string)
    requires |emitter| == 14 && |terminalA| == 8
  {
    && |a| < |b| <= |a| + 5
    && var k := |b| - |a|;
       b == a + emitter[..k] && emitter == emitter[k..] + terminalA[..k] && terminalB == terminalA[k..] + Zeros(k)
  }

  /** What follows the serie in a key, filled up to 44 characters. */
  function Tail(numero: string, emitter: string, terminal: string): string
    requires |numero| <= 14
  {
    numero + emitter + terminal + Zeros(14 - |numero|)
  }

  lemma PartsDecide(a: string, b: string, c: string, a': string, b': string, c': string, rest: string)
    requires |a| == |a'| && |b| == |b'| && |c| == |c'|
    ensures a + b + c + rest == a' + b' + c' + rest <==> a == a' && b == b' && c == c'
  {
    var left, right := a + b + c + rest, a' + b' + c' + rest;
    assert left[..|a|] == a && right[..|a|] == a';
    assert left[|a|..|a| + |b|] == b && right[|a|..|a| + |b|] == b';
    assert left[|a| + |b|..|a| + |b| + |c|] == c && right[|a| + |b|..|a| + |b| + |c|] == c';
  }

  lemma ShiftedIsExact(a: string, b: string, emitter: string, terminalA: string, terminalB: string)
    requires 9 <= |a| < |b| <= 14 && |emitter| == 14 && |terminalA| == 8 && |terminalB| == 8
    ensures Tail(a, emitter, terminalA) == Tail(b, emitter, terminalB) <==> Shifted(a, b, emitter, terminalA, terminalB)
  {
    var k := |b| - |a|;
    assert Tail(a, emitter, terminalA) ==
           (a + emitter[..k]) + (emitter[k..] + terminalA[..k]) + (terminalA[k..] + Zeros(k)) + Zeros(14 - |b|);
    PartsDecide(a + emitter[..k], emitter[k..] + terminalA[..k], terminalA[k..] + Zeros(k), b, emitter, terminalB, Zeros(14 - |b|));
  }

  lemma Fits(head: string, numero: string, emitter: string, terminal: string)
    requires |head| == 8 && |numero| <= 14 && |emitter| == 14 && |terminal| == 8
    ensures Fit44(head + numero + emitter + terminal) == head + Tail(numero, emitter, terminal)
  {
  }

  function EmitterDigits(emitterId: string): (digits: string)
    ensures |digits| == 14
  {
    LastDigits(OnlyDigits(emitterId), 14)
  }

  function TerminalDigits(terminalId: string): (digits: string)
    ensures |digits| == 8
  {
    LastDigits(OnlyDigits(terminalId), 8)
  }

  lemma SameHead(head: string, left: string, right: string)
    ensures head + left == head + right <==> left == right
  {
    assert (head + left)[|head|..] == left && (head + right)[|head|..] == right;
  }

  lemma SameLength(a: nat, b: nat, emitter: string, terminalA: string, terminalB: string)
    requires a != b && |Numero(a)| == |Numero(b)| <= 14
    ensures Tail(Numero(a), emitter, terminalA) != Tail(Numero(b), emitter, terminalB)
  {
    hide Print, Numero;
    var left, right := Tail(Numero(a), emitter, terminalA), Tail(Numero(b), emitter, terminalB);
    assert left[..|Numero(a)|] == Numero(a) && right[..|Numero(b)|] == Numero(b);
    if left == right {
      NumeroDecides(a, b);
    }
  }

  lemma KeyIsTail(emitterId: string, serie: string, mode: EmissionMode, terminalId: string, numero: nat)
    requires |serie| <= 3 && |Print(numero)| <= 14
    ensures |Numero(numero)| <= 14
    ensures BuildNsAccessKey(emitterId, terminalId, serie, numero, mode) ==
            (STATE_CODE + DOCUMENT_MODEL + (if mode.ContingencyOffline? then "9" else "1") + PadStart(serie, 3))
            + Tail(Numero(numero), EmitterDigits(emitterId), TerminalDigits(terminalId))
  {
    hide Print, OnlyDigits, LastDigits, Fit44, Zeros;
    Fits(STATE_CODE + DOCUMENT_MODEL + (if mode.ContingencyOffline? then "9" else "1") + PadStart(serie, 3),
         Numero(numero), EmitterDigits(emitterId), TerminalDigits(terminalId));
  }

  /** Two documents of one emitter share a key exactly when their numbers and digits are shifted against
      each other; two numbers of the same length never do. */
  lemma KeysRepeatIffShifted(emitterId: string, serie: string, mode: EmissionMode, terminalA: string, a: nat, terminalB: string, b: nat)
    requires |serie| <= 3 && a < b && |Print(b)| <= 14
    ensures BuildNsAccessKey(emitterId, terminalA, serie, a, mode) == BuildNsAccessKey(emitterId, terminalB, serie, b, mode)
            <==> Shifted(Numero(a), Numero(b), EmitterDigits(emitterId), TerminalDigits(terminalA), TerminalDigits(terminalB))
  {
    PrintGrows(a, b);
    assert |Numero(a)| <= |Numero(b)|;
    hide Print, PadStart, BuildNsAccessKey, Numero, EmitterDigits, TerminalDigits, Tail;
    var e, s, t := EmitterDigits(emitterId), TerminalDigits(terminalA), TerminalDigits(terminalB);
    KeyIsTail(emitterId, serie, mode, terminalA, a);
    KeyIsTail(emitterId, serie, mode, terminalB, b);
    SameHead(STATE_CODE + DOCUMENT_MODEL + (if mode.ContingencyOffline? then "9" else "1") + PadStart(serie, 3),
             Tail(Numero(a), e, s), Tail(Numero(b), e, t));
    if |Numero(a)| < |Numero(b)| {
      ShiftedIsExact(Numero(a), Numero(b), e, s, t);
    } else {
      SameLength(a, b, e, s, t);
    }
  }

  lemma {:induction false} ZeroAt(s: string, k: nat, i: nat)
    requires 1 <= k <= |s| && i < |s| && s == s[k..] + Zeros(k)
    ensures s[i] == '0'
    decreases |s| - i
  {
    if i + k < |s| {
      assert s[i] == s[k..][i];
      ZeroAt(s, k, i + k);
    } else {
      assert s[i] == Zeros(k)[i - (|s| - k)];
    }
  }

  lemma AllZero(s: string, k: nat)
    requires 1 <= k <= |s| && s == s[k..] + Zeros(k)
    ensures s == Zeros(|s|)
  {
    forall i | 0 <= i < |s| ensures s[i] == '0' {
      ZeroAt(s, k, i);
    }
  }

  /** On one terminal keys repeat exactly when neither id holds a digit but zero and the longer number is
      the shorter one with zeros behind it. */
  lemma OneTerminalRepeats(emitterId: string, serie: string, mode: EmissionMode, terminalId: string, a: nat, b: nat)
    requires |serie| <= 3 && a < b && |Print(b)| <= 14
    ensures BuildNsAccessKey(emitterId, terminalId, serie, a, mode) == BuildNsAccessKey(emitterId, terminalId, serie, b, mode)
            <==> && EmitterDigits(emitterId) == Zeros(14) && TerminalDigits(terminalId) == Zeros(8)
                 && |Numero(a)| < |Numero(b)| <= |Numero(a)| + 5
                 && Numero(b) == Numero(a) + Zeros(|Numero(b)| - |Numero(a)|)
  {
    var e, t, k := EmitterDigits(emitterId), TerminalDigits(terminalId), |Numero(b)| - |Numero(a)|;
    hide Print, PadStart, Numero, OnlyDigits, LastDigits, BuildNsAccessKey;
    KeysRepeatIffShifted(emitterId, serie, mode, terminalId, a, terminalId, b);
    if Shifted(Numero(a), Numero(b), e, t, t) {
      AllZero(t, k);
      assert t[..k] == Zeros(k);
      AllZero(e, k);
      assert e[..k] == Zeros(k);
    } else if e == Zeros(14) && t == Zeros(8) && 1 <= k <= 5 {
      assert Zeros(14) == Zeros(14)[k..] + Zeros(8)[..k] && Zeros(8) == Zeros(8)[k..] + Zeros(k);
      assert Zeros(14)[..k] == Zeros(k);
    }
  }

  lemma HundredMillion()
    ensures |Print(100_000_000)| == 9
  {
    assert |Print(100)| == 3 && |Print(1_000)| == 4 && |Print(10_000)| == 5;
    assert |Print(100_000)| == 6 && |Print(1_000_000)| == 7 && |Print(10_000_000)| == 8;
  }

  lemma NextPower()
    ensures Print(NUMERO_LIMIT) == Print(NUMERO_LIMIT / 10) + Zeros(1)
  {
  }

  lemma NinePadded(s: string)
    requires |s| >= 9
    ensures PadStart(s, 9) == s
  {
  }

  lemma NumerosAtTheLimit()
    ensures |Print(NUMERO_LIMIT)| == 10 && |Numero(NUMERO_LIMIT / 10)| == 9
    ensures Numero(NUMERO_LIMIT) == Numero(NUMERO_LIMIT / 10) + Zeros(1)
  {
    hide Print, PadStart;
    HundredMillion();
    NextPower();
    NinePadded(Print(NUMERO_LIMIT / 10));
    NinePadded(Print(NUMERO_LIMIT));
  }

  lemma {:induction false} NoDigits(s: string)
    requires forall i :: 0 <= i < |s| ==> !IsDigit(s[i])
    ensures OnlyDigits(s) == []
  {
    if s != [] {
      NoDigits(s[1..]);
    }
  }

  lemma OnlyZeros(width: nat)
    ensures LastDigits([], width) == Zeros(width)
  {
  }

  lemma NamesWithoutDigits()
    ensures EmitterDigits("loja") == Zeros(14) && TerminalDigits("caixa") == Zeros(8)
  {
    hide OnlyDigits, LastDigits;
    NoDigits("loja");
    NoDigits("caixa");
    OnlyZeros(14);
    OnlyZeros(8);
  }

  /** The bound is exact: 10^9 has ten digits and repeats the key of 10^8 when the emitter and
      terminal names hold no digit. */
  lemma KeysRepeatAtTheLimit()
    ensures BuildNsAccessKey("loja", "caixa", "1", NUMERO_LIMIT, Normal) == BuildNsAccessKey("loja", "caixa", "1", NUMERO_LIMIT / 10, Normal)
  {
    hide *;
    NumerosAtTheLimit();
    NamesWithoutDigits();
    OneTerminalRepeats("loja", "1", Normal, "caixa", NUMERO_LIMIT / 10, NUMERO_LIMIT);
  }
}
