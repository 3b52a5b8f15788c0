/** Base-10 numerals: printing, reading, and the facts every codec, label and
    command line of the project rests on. */
module Decimal {

  predicate IsDigit(c: char) {
    '0' <= c <= '9'
  }

  predicate AllDigits(s: string) {
    forall i :: 0 <= i < |s| ==> IsDigit(s[i])
  }

  /** The language of the expression `^[0-9]+$`. */
  predicate IsNumeral(s: string) {
    s != [] && AllDigits(s)
  }

  function DigitChar(d: nat): (c: char)
    requires d < 10
    ensures IsDigit(c) && DigitValue(c) == d
  {
    '0' + d as char
  }

  function DigitValue(c: char): nat
    requires IsDigit(c)
  {
    (c as int) - ('0' as int)
  }

  /** `value.toString()` of a non-negative integer. */
  function Print(n: nat): (s: string)
    ensures IsNumeral(s)
  {
    if n < 10 then [DigitChar(n)] else Print(n / 10) + [DigitChar(n % 10)]
  }

  /** `BigInt(text)` of a digit string; the empty string reads as zero. */
  function Read(s: string): nat
    requires AllDigits(s)
  {
    if s == [] then 0 else 10 * Read(s[..|s| - 1]) + DigitValue(s[|s| - 1])
  }

  /** No leading zero, except for the numeral of zero itself. */
  predicate Canonical(s: string) {
    IsNumeral(s) && (|s| > 1 ==> s[0] != '0')
  }

  lemma {:induction false} ReadPrint(n: nat)
    ensures Read(Print(n)) == n
  {
    if n >= 10 {
      ReadPrint(n / 10);
      assert Print(n)[..|Print(n)| - 1] == Print(n / 10);
    }
  }

  lemma {:induction false} PrintCanonical(n: nat)
    ensures Canonical(Print(n))
    ensures n > 0 ==> Print(n)[0] != '0'
  {
    if n >= 10 {
      PrintCanonical(n / 10);
    }
  }

  /** Reading then printing is the identity exactly on the canonical numerals. */
  lemma PrintReadIffCanonical(s: string)
    requires IsNumeral(s)
    ensures Print(Read(s)) == s <==> Canonical(s)
  {
    if Canonical(s) {
      PrintRead(s);
    }
    if Print(Read(s)) == s {
      PrintCanonical(Read(s));
    }
  }

  lemma {:induction false} PrintRead(s: string)
    requires Canonical(s)
    ensures Print(Read(s)) == s
    ensures s[0] != '0' ==> Read(s) > 0
  {
    if |s| > 1 {
      var front := s[..|s| - 1];
      assert front[0] == s[0];
      PrintRead(front);
      var d := DigitValue(s[|s| - 1]);
      assert Read(s) == 10 * Read(front) + d && Read(front) > 0;
      assert Read(s) / 10 == Read(front) && Read(s) % 10 == d;
      assert s == front + [s[|s| - 1]];
    }
  }

  lemma PrintInjective(m: nat, n: nat)
    requires Print(m) == Print(n)
    ensures m == n
  {
    ReadPrint(m);
    ReadPrint(n);
  }

  lemma {:induction false} PrintLengthMonotone(m: nat, n: nat)
    requires m <= n
    ensures |Print(m)| <= |Print(n)|
  {
    if m >= 10 {
      PrintLengthMonotone(m / 10, n / 10);
    }
  }

  function Pow10(k: nat): (p: nat)
    ensures p > 0
  {
    if k == 0 then 1 else 10 * Pow10(k - 1)
  }

  /** A numeral of at most k digits denotes a number below ten to the k. */
  lemma {:induction false} PrintLengthBound(n: nat, k: nat)
    requires k > 0
    ensures |Print(n)| <= k <==> n < Pow10(k)
  {
    if k == 1 {
      if n >= 10 {
        PrintCanonical(n / 10);
      }
    } else if n >= 10 {
      PrintLengthBound(n / 10, k - 1);
    } else {
      Pow10AtLeastTen(k);
    }
  }

  lemma {:induction false} Pow10AtLeastTen(k: nat)
    requires k >= 1
    ensures Pow10(k) >= 10
  {
    if k > 1 {
      Pow10AtLeastTen(k - 1);
    }
  }

  lemma TenfoldProduct(a: nat, p: nat)
    ensures 10 * (a * p) == a * (10 * p)
  {
  }

  /** Reading a concatenation shifts the left part by the length of the right. */
  lemma {:induction false} ReadConcat(s: string, t: string)
    requires AllDigits(s) && AllDigits(t)
    ensures AllDigits(s + t)
    ensures Read(s + t) == Read(s) * Pow10(|t|) + Read(t)
  {
    if t == [] {
      assert s + t == s;
    } else {
      var u := t[..|t| - 1];
      ReadConcat(s, u);
      assert (s + t)[..|s + t| - 1] == s + u;
      assert (s + t)[|s + t| - 1] == t[|t| - 1];
      TenfoldProduct(Read(s), Pow10(|u|));
    }
  }
}
