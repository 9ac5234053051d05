/** Decimal numerals: printing, reading and zero-padding of natural numbers. */
module Decimal {

  predicate IsDigit(c: char) {
    '0' <= c <= '9'
  }

  predicate AllDigits(s: string) {
    forall i :: 0 <= i < |s| ==> IsDigit(s[i])
  }

  function DigitChar(d: nat): (c: char)
    requires d < 10
  {
    ('0' as int + d) as char
  }

  function DigitValue(c: char): (d: nat)
    requires IsDigit(c)
  {
    c as int - '0' as int
  }

  /** `n.toString()`. */
  function Print(n: nat): (s: string)
    ensures s != [] && AllDigits(s)
  {
    if n < 10 then [DigitChar(n)] else Print(n / 10) + [DigitChar(n % 10)]
  }

  /** The value of a digit string, most significant digit first. */
  function Read(s: string): nat
    requires AllDigits(s)
  {
    if s == [] then 0 else 10 * Read(s[..|s| - 1]) + DigitValue(s[|s| - 1])
  }

  function Zeros(k: nat): (s: string)
    ensures |s| == k && forall i :: 0 <= i < k ==> s[i] == '0'
  {
    seq(k, _ => '0')
  }

  /** `s.padStart(width, "0")`. */
  function PadStart(s: string, width: nat): (r: string)
    ensures |r| == if |s| < width then width else |s|
    ensures AllDigits(s) ==> AllDigits(r)
  {
    if |s| < width then Zeros(width - |s|) + s else s
  }

  function Pow10(k: nat): (p: nat)
    ensures p > 0
  {
    if k == 0 then 1 else 10 * Pow10(k - 1)
  }

  lemma {:induction false} ReadPrint(n: nat)
    ensures Read(Print(n)) == n
  {
    var s := Print(n);
    if n >= 10 {
      assert s[..|s| - 1] == Print(n / 10);
      ReadPrint(n / 10);
    } else {
      assert s[..|s| - 1] == [];
    }
  }

  lemma ShiftTen(x: nat, p: nat)
    ensures 10 * (x * p) == x * (10 * p)
  {
  }

  /** Reading a concatenation shifts the left part past the right one. */
  lemma {:induction false} ReadConcat(a: string, b: string)
    requires AllDigits(a) && AllDigits(b)
    ensures AllDigits(a + b)
    ensures Read(a + b) == Read(a) * Pow10(|b|) + Read(b)
  {
    if b == [] {
      assert a + b == a;
    } else {
      var b', last := b[..|b| - 1], DigitValue(b[|b| - 1]);
      ReadConcat(a, b');
      assert (a + b)[..|a + b| - 1] == a + b';
      assert Read(a + b) == 10 * Read(a + b') + last && Read(b) == 10 * Read(b') + last;
      assert Pow10(|b|) == 10 * Pow10(|b'|);
      hide Read, Pow10;
      ShiftTen(Read(a), Pow10(|b'|));
    }
  }

  lemma {:induction false} ReadZeros(k: nat)
    ensures Read(Zeros(k)) == 0
  {
    if k > 0 {
      assert Zeros(k)[..k - 1] == Zeros(k - 1);
      ReadZeros(k - 1);
    }
  }

  /** Zero-padding does not change the number. */
  lemma ReadPadded(n: nat, width: nat)
    ensures Read(PadStart(Print(n), width)) == n
  {
    var s := Print(n);
    ReadPrint(n);
    if |s| < width {
      ReadZeros(width - |s|);
      ReadConcat(Zeros(width - |s|), s);
    }
  }

  /** A number below 10^k prints in at most k digits. */
  lemma {:induction false} PrintWidth(n: nat, k: nat)
    requires k > 0 && n < Pow10(k)
    ensures |Print(n)| <= k
  {
    if n >= 10 {
      assert Pow10(1) == 10 * Pow10(0);
      PrintWidth(n / 10, k - 1);
    }
  }

  lemma PrintInjective(a: nat, b: nat)
    requires Print(a) == Print(b)
    ensures a == b
  {
    ReadPrint(a);
    ReadPrint(b);
  }
}
