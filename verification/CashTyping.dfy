/** How the closing form reads what an operator types. */
module CashTyping {
  import opened Wrappers
  import opened Decimal
  import opened Text
  import opened Comandas
  import opened CashClosing

  // ---------- dots ----------

  lemma {:induction false} RemoveDotsConcat(a: string, b: string)
    ensures RemoveDots(a + b) == RemoveDots(a) + RemoveDots(b)
  {
    if a == [] {
      assert a + b == b;
    } else {
      assert (a + b)[1..] == a[1..] + b;
      RemoveDotsConcat(a[1..], b);
    }
  }

  /** A dot anywhere in the text, as between thousands, changes nothing. */
  lemma DotsChangeNothing(a: string, b: string)
    ensures ParseAmountInputToCents(a + "." + b) == ParseAmountInputToCents(a + b)
  {
    OneDot();
    hide ParseFloat, Trim, CommaToDot, RemoveDots;
    RemoveDotsConcat(a + ".", b);
    RemoveDotsConcat(a, ".");
    RemoveDotsConcat(a, b);
    assert RemoveDots(a + "." + b) == RemoveDots(a + b);
  }

  lemma OneDot()
    ensures RemoveDots(".") == []
  {
    assert "."[1..] == [];
  }

  // ---------- digits ----------

  lemma {:induction false} NoComma(s: string)
    requires ',' !in s
    ensures CommaToDot(s) == s
  {
    if s != [] {
      NoComma(s[1..]);
    }
  }

  /** Digits pass the normalisation as they are. */
  lemma WholeNormalized(w: string)
    requires AllDigits(w) && w != []
    ensures Trim(CommaToDot(RemoveDots(w))) == w
  {
    hide RemoveDots, CommaToDot, Trim, IsSpace, AllDigits;
    DigitsOnly(w);
    RemoveNoDots(w);
    NoComma(w);
    NothingToTrim(w);
  }

  lemma NoExponent()
    ensures ExponentFactor([]) == 1.0
  {
  }

  lemma WholeLiteral(w: string)
    requires AllDigits(w)
    ensures Literal(w, [], []) == Read(w) as real
  {
    hide Read, Pow10, ExponentFactor;
    NoExponent();
    WithoutFraction(w, []);
  }

  lemma WholeRead(w: string)
    requires AllDigits(w) && w != []
    ensures UnsignedPrefix(w) == Some(Read(w) as real)
  {
    hide Literal, DigitPrefix, Read;
    WholeLiteral(w);
    PrefixOfDigits(w, []);
    PrefixOfDigits([], []);
    assert w + [] == w && w[..|w|] == w && w[|w|..] == [] && [] + [] == "" && ""[..0] == "";
  }

  lemma RoundsWhole(n: nat)
    ensures (n as real * 100.0 + 0.5).Floor == 100 * n
  {
  }

  /** A whole number of reais. */
  lemma TypedWhole(w: string)
    requires AllDigits(w) && w != []
    ensures ParseAmountInputToCents(w) == 100 * Read(w)
  {
    hide RemoveDots, CommaToDot, Trim, UnsignedPrefix, Read;
    WholeNormalized(w);
    WholeRead(w);
    RoundsWhole(Read(w));
  }

  lemma FractionLiteral(w: string, f: string)
    requires AllDigits(w) && AllDigits(f)
    ensures AllDigits(w + f) && Literal(w, f, []) == Read(w + f) as real / Pow10(|f|) as real
  {
    hide Read, Pow10, ExponentFactor;
    NoExponent();
    ReadConcat(w, f);
    OverOne(Read(w), Read(f), Pow10(|f|));
  }

  /** With a fraction behind a point the number reads as Read(w + f) over 10^|f|. */
  lemma FractionRead(w: string, f: string)
    requires AllDigits(w) && AllDigits(f) && w != []
    ensures AllDigits(w + f) && UnsignedPrefix(w + "." + f) == Some(Read(w + f) as real / Pow10(|f|) as real)
  {
    hide Literal, DigitPrefix, Read, Pow10;
    FractionLiteral(w, f);
    var s := w + "." + f;
    assert s == w + ("." + f);
    PrefixOfDigits(w, "." + f);
    assert s[..|w|] == w && s[|w| + 1..] == f && s[|w|] == '.';
    PrefixOfDigits(f, []);
    assert f + [] == f && f[..|f|] == f && f[|f|..] == [];
  }

  lemma OverOne(whole: nat, part: nat, p: nat)
    requires p > 0
    ensures whole as real + part as real / p as real == (whole * p + part) as real / p as real
  {
    ProductCast(whole, p);
    assert (whole * p + part) as real == whole as real * p as real + part as real;
    assert (whole as real * p as real) / p as real == whole as real;
  }

  lemma {:induction false} ProductCast(n: nat, p: nat)
    ensures (n * p) as real == n as real * p as real
  {
    if n > 0 {
      ProductCast(n - 1, p);
      assert n * p == (n - 1) * p + p;
      assert n as real == (n - 1) as real + 1.0;
    }
  }

  /** The whole cents nearest to n / p, halves up. */
  predicate RoundsHalfUp(cents: int, n: int, p: nat) {
    2 * p * cents <= 2 * n + p < 2 * p * (cents + 1)
  }

  lemma QuotientTimes(n: nat, p: nat)
    requires p > 0
    ensures n as real / p as real * p as real == n as real && n as real / p as real >= 0.0
  {
  }

  lemma FloorIsNearest(n: nat, p: nat)
    requires p > 0
    ensures RoundsHalfUp((n as real / p as real * 100.0 + 0.5).Floor, 100 * n, p)
  {
    hide RoundsHalfUp;
    var x := n as real / p as real;
    QuotientTimes(n, p);
    Halves(x, n, p);
    Nearest(x * 100.0 + 0.5, (x * 100.0 + 0.5).Floor, n, p);
  }

  lemma Nearest(y: real, cents: nat, n: nat, p: nat)
    requires p > 0 && 2.0 * (y * p as real) == (200 * n + p) as real && cents as real <= y < cents as real + 1.0
    ensures RoundsHalfUp(cents, 100 * n, p)
  {
    var next := cents + 1;
    Below(y, cents, p);
    Above(y, next, p);
    Doubled(cents * p, next * p, 200 * n + p, y * p as real);
    Twice(cents, p);
    Twice(next, p);
  }

  lemma Twice(cents: nat, p: nat)
    ensures 2 * p * cents == 2 * (cents * p)
  {
  }

  lemma Doubled(least: int, most: int, twice: int, exact: real)
    requires least as real <= exact < most as real && 2.0 * exact == twice as real
    ensures 2 * least <= twice < 2 * most
  {
  }

  lemma Below(y: real, cents: nat, p: nat)
    requires cents as real <= y
    ensures (cents * p) as real <= y * p as real
  {
    ProductCast(cents, p);
    assert cents as real * p as real <= y * p as real;
  }

  lemma Above(y: real, cents: nat, p: nat)
    requires p > 0 && y < cents as real
    ensures y * p as real < (cents * p) as real
  {
    ProductCast(cents, p);
    assert y * p as real < cents as real * p as real;
  }

  lemma Halves(x: real, n: nat, p: nat)
    requires x * p as real == n as real
    ensures 2.0 * ((x * 100.0 + 0.5) * p as real) == (200 * n + p) as real
  {
    assert (x * 100.0 + 0.5) * p as real == 100.0 * (x * p as real) + 0.5 * p as real;
  }

  /** Text that is normalised to an optional sign and a readable number. */
  lemma ParsesTo(typed: string, sign: string, unsigned: string, amount: real)
    requires sign in {"", "-", "+"} && unsigned != [] && IsDigit(unsigned[0]) && UnsignedPrefix(unsigned) == Some(amount)
    requires Trim(CommaToDot(RemoveDots(typed))) == sign + unsigned
    ensures ParseAmountInputToCents(typed) == ((if sign == "-" then -amount else amount) * 100.0 + 0.5).Floor
  {
    hide RemoveDots, CommaToDot, Trim, UnsignedPrefix;
    if sign == "" {
      assert sign + unsigned == unsigned;
    } else {
      assert (sign + unsigned)[1..] == unsigned && (sign + unsigned)[0] == sign[0];
    }
  }

  /** Reais and a fraction of any length behind a comma, rounded half up to whole cents. */
  lemma TypedFraction(w: string, f: string)
    requires AllDigits(w) && AllDigits(f) && w != []
    ensures AllDigits(w + f) && RoundsHalfUp(ParseAmountInputToCents(w + "," + f), 100 * Read(w + f), Pow10(|f|))
  {
    hide RemoveDots, CommaToDot, Trim, UnsignedPrefix, Read, Pow10, RoundsHalfUp, ParseAmountInputToCents;
    FractionNormalized("", w, f);
    FractionRead(w, f);
    assert "" + w + "," + f == w + "," + f;
    assert (w + "." + f)[0] == w[0];
    ParsesTo(w + "," + f, "", w + "." + f, Read(w + f) as real / Pow10(|f|) as real);
    FloorIsNearest(Read(w + f), Pow10(|f|));
  }

  /** What is rounded half up is decided by the number. */
  lemma RoundedOnce(a: int, b: int, n: int, p: nat)
    requires p > 0 && RoundsHalfUp(a, n, p) && RoundsHalfUp(b, n, p)
    ensures a == b
  {
    NotBelow(a, b, n, p);
    NotBelow(b, a, n, p);
  }

  lemma NotBelow(a: int, b: int, n: int, p: nat)
    requires p > 0 && 2 * n + p < 2 * p * (a + 1) && 2 * p * b <= 2 * n + p
    ensures b <= a
  {
    assert 2 * p * b < 2 * p * (a + 1);
  }

  // ---------- signs ----------

  /** An amount with at most two places is a whole number of cents. */
  lemma WholeCents(n: nat, p: nat)
    requires p in {1, 10, 100}
    ensures n as real / p as real * 100.0 == (n * (100 / p)) as real
  {
    if p == 1 {
      assert n as real / 1.0 == n as real;
    } else if p == 10 {
      assert n as real / 10.0 * 100.0 == n as real * 10.0;
    } else {
      assert n as real / 100.0 * 100.0 == n as real;
    }
  }

  /** A plus sign changes nothing. */
  lemma TypedPositive(w: string, f: string)
    requires AllDigits(w) && AllDigits(f) && w != []
    ensures ParseAmountInputToCents("+" + w + "," + f) == ParseAmountInputToCents(w + "," + f)
  {
    hide RemoveDots, CommaToDot, Trim, UnsignedPrefix, Read, Pow10, ParseAmountInputToCents;
    FractionNormalized("", w, f);
    FractionNormalized("+", w, f);
    FractionRead(w, f);
    assert "" + w + "," + f == w + "," + f;
    assert (w + "." + f)[0] == w[0];
    var amount := Read(w + f) as real / Pow10(|f|) as real;
    assert "" + (w + "." + f) == w + "." + f;
    ParsesTo(w + "," + f, "", w + "." + f, amount);
    ParsesTo("+" + w + "," + f, "+", w + "." + f, amount);
  }

  /** A minus sign in front of an amount of whole cents. */
  lemma TypedNegative(w: string, f: string)
    requires AllDigits(w) && AllDigits(f) && w != [] && |f| <= 2
    ensures ParseAmountInputToCents("-" + w + "," + f) == -ParseAmountInputToCents(w + "," + f)
  {
    hide RemoveDots, CommaToDot, Trim, UnsignedPrefix, Read, Pow10, ParseAmountInputToCents;
    UpToTwoPlaces(|f|);
    FractionNormalized("", w, f);
    FractionNormalized("-", w, f);
    FractionRead(w, f);
    assert "" + w + "," + f == w + "," + f;
    assert (w + "." + f)[0] == w[0];
    NegatedReading(w + "," + f, "-" + w + "," + f, w + "." + f, Read(w + f), Pow10(|f|));
  }

  lemma NegatedReading(typed: string, negative: string, unsigned: string, n: nat, p: nat)
    requires p in {1, 10, 100} && unsigned != [] && IsDigit(unsigned[0]) && UnsignedPrefix(unsigned) == Some(n as real / p as real)
    requires Trim(CommaToDot(RemoveDots(typed))) == unsigned && Trim(CommaToDot(RemoveDots(negative))) == "-" + unsigned
    ensures ParseAmountInputToCents(negative) == -ParseAmountInputToCents(typed)
  {
    hide RemoveDots, CommaToDot, Trim, UnsignedPrefix, ParseAmountInputToCents;
    assert "" + unsigned == unsigned;
    ParsesTo(typed, "", unsigned, n as real / p as real);
    ParsesTo(negative, "-", unsigned, n as real / p as real);
    FloorsOpposite(n, p);
  }

  lemma FloorsOpposite(n: nat, p: nat)
    requires p in {1, 10, 100}
    ensures (-(n as real / p as real) * 100.0 + 0.5).Floor == -((n as real / p as real * 100.0 + 0.5).Floor)
  {
    WholeCents(n, p);
    var x := n as real / p as real;
    assert -x * 100.0 == -(x * 100.0);
    FloorOfNegative(x * 100.0, n * (100 / p));
  }

  lemma UpToTwoPlaces(k: nat)
    requires k <= 2
    ensures Pow10(k) in {1, 10, 100}
  {
    assert Pow10(0) == 1 && Pow10(1) == 10 * Pow10(0) && Pow10(2) == 10 * Pow10(1);
  }

  lemma FloorOfNegative(x: real, cents: int)
    requires x == cents as real
    ensures (-x + 0.5).Floor == -((x + 0.5).Floor)
  {
  }

  // ---------- exponents ----------

  lemma ExponentDigits(k: string)
    requires AllDigits(k) && k != []
    ensures ExponentFactor("e" + k) == Pow10(Read(k)) as real
  {
    assert ("e" + k)[1..] == k && k + [] == k && k[..|k|] == k;
    PrefixOfDigits(k, []);
  }

  lemma NothingAdded(a: real, b: real, p: real, e: real)
    requires b == 0.0 && p == 1.0
    ensures (a + b / p) * e == a * e
  {
    assert a + b / p == a;
  }

  lemma NoDigits()
    ensures Read([]) == 0 && Pow10(0) == 1
  {
  }

  lemma WithoutFraction(w: string, after: string)
    requires AllDigits(w)
    ensures Literal(w, [], after) == Read(w) as real * ExponentFactor(after)
  {
    hide Read, Pow10, ExponentFactor;
    NoDigits();
    NothingAdded(Read(w) as real, Read([]) as real, Pow10(0) as real, ExponentFactor(after));
  }

  lemma ExponentLiteral(w: string, k: string)
    requires AllDigits(w) && AllDigits(k) && k != []
    ensures Literal(w, [], "e" + k) == (Read(w) * Pow10(Read(k))) as real
  {
    hide Read, Pow10, ExponentFactor, Literal;
    WithoutFraction(w, "e" + k);
    ExponentDigits(k);
    ProductCast(Read(w), Pow10(Read(k)));
  }

  lemma ExponentRead(w: string, k: string)
    requires AllDigits(w) && AllDigits(k) && w != [] && k != []
    ensures UnsignedPrefix(w + "e" + k) == Some((Read(w) * Pow10(Read(k))) as real)
  {
    hide Literal, DigitPrefix, Read, Pow10;
    ExponentLiteral(w, k);
    var s, after := w + "e" + k, "e" + k;
    assert s == w + after;
    PrefixOfDigits(w, after);
    PrefixOfDigits([], []);
    assert s[|w|..] == after && s[..|w|] == w && s[|w|] == 'e' && [] + [] == "" && ""[..0] == "";
  }

  lemma ExponentNormalized(w: string, k: string)
    requires AllDigits(w) && AllDigits(k) && w != [] && k != []
    ensures Trim(CommaToDot(RemoveDots(w + "e" + k))) == w + "e" + k
  {
    hide RemoveDots, CommaToDot, Trim, IsSpace, AllDigits;
    DigitsOnly(w);
    DigitsOnly(k);
    var s := w + "e" + k;
    assert '.' !in s && ',' !in s;
    RemoveNoDots(s);
    NoComma(s);
    assert s[|s| - 1] == k[|k| - 1] && s[0] == w[0];
    NothingToTrim(s);
  }

  /** Scientific notation is read, as parseFloat reads it. */
  lemma TypedExponent(w: string, k: string)
    requires AllDigits(w) && AllDigits(k) && w != [] && k != []
    ensures ParseAmountInputToCents(w + "e" + k) == 100 * (Read(w) * Pow10(Read(k)))
  {
    hide RemoveDots, CommaToDot, Trim, UnsignedPrefix, Read, Pow10, ParseAmountInputToCents;
    ExponentNormalized(w, k);
    ExponentRead(w, k);
    var s := w + "e" + k;
    assert "" + s == s && s[0] == w[0];
    ParsesTo(s, "", s, (Read(w) * Pow10(Read(k))) as real);
    RoundsWhole(Read(w) * Pow10(Read(k)));
  }

  // ---------- no number ----------

  lemma {:induction false} CommaKept(s: string)
    ensures |CommaToDot(s)| == |s|
    ensures forall i :: 0 <= i < |s| ==> CommaToDot(s)[i] == s[i] || (s[i] == ',' && CommaToDot(s)[i] == '.')
    ensures forall i :: 0 <= i < |s| && (forall j :: 0 <= j < i ==> s[j] != ',') && s[i] == ',' ==> CommaToDot(s)[i] == '.'
  {
    if s != [] {
      CommaKept(s[1..]);
    }
  }

  /** The text starts, behind white space and one sign, with neither a digit nor a comma and a digit. */
  predicate NoNumber(visible: string) {
    var u := if visible != [] && visible[0] in {'+', '-'} then visible[1..] else visible;
    u == [] || (!IsDigit(u[0]) && (u[0] == ',' ==> |u| == 1 || !IsDigit(u[1])))
  }

  lemma {:induction false} TrimCommutes(s: string)
    ensures Trim(CommaToDot(s)) == CommaToDot(Trim(s))
  {
    CommaKept(s);
    var t := CommaToDot(s);
    if s == [] {
    } else if IsSpace(s[0]) {
      assert t == [s[0]] + CommaToDot(s[1..]);
      TrimCommutes(s[1..]);
    } else if IsSpace(s[|s| - 1]) {
      CommaToDotFront(s);
      TrimCommutes(s[..|s| - 1]);
    }
  }

  lemma {:induction false} CommaToDotFront(s: string)
    requires s != [] && s[|s| - 1] != ','
    ensures CommaToDot(s) == CommaToDot(s[..|s| - 1]) + [s[|s| - 1]]
  {
    if |s| == 1 {
      assert s[1..] == [];
    } else if s[0] != ',' {
      assert s[1..][..|s| - 2] == s[..|s| - 1][1..];
      CommaToDotFront(s[1..]);
    } else {
      assert s[1..] == s[..|s| - 1][1..] + [s[|s| - 1]];
    }
  }

  lemma NothingRead(u: string)
    requires u == [] || (!IsDigit(u[0]) && (u[0] == '.' ==> |u| == 1 || !IsDigit(u[1])))
    ensures UnsignedPrefix(u).None?
  {
  }

  /** Text without dots that holds no leading number counts as zero. */
  lemma TypedNothing(s: string)
    requires '.' !in s && NoNumber(Trim(s))
    ensures ParseAmountInputToCents(s) == 0
  {
    var before, behind := TrimIsMiddle(s);
    assert '.' !in Trim(s);
    RemoveNoDots(s);
    TrimCommutes(s);
    var visible := Trim(s);
    CommaKept(visible);
    var t := CommaToDot(visible);
    hide RemoveDots, CommaToDot, Trim, UnsignedPrefix;
    if visible != [] {
      NothingRead(if t[0] in {'+', '-'} then t[1..] else t);
    }
  }
}
