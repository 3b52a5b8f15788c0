/** Displaying an amount of Hearts as HEX, a hundred million Hearts each. */
module HexFormat {
  import opened Base
  import opened Decimal

  const HEARTS_PER_HEX: nat := 100_000_000
  const DECIMALS: nat := 8

  function Zeros(n: nat): (s: string)
    ensures |s| == n && AllDigits(s) && forall i :: 0 <= i < n ==> s[i] == '0'
  {
    seq(n, _ => '0')
  }

  function PadStart(s: string, width: nat): string {
    if |s| >= width then s else Zeros(width - |s|) + s
  }

  /** The string without its trailing zeros. */
  function StripZeros(s: string): string {
    if s != [] && s[|s| - 1] == '0' then StripZeros(s[..|s| - 1]) else s
  }

  function Format(hearts: string): Option<string> {
    if !IsNumeral(hearts) then None
    else
      var raw := Read(hearts);
      var whole, fraction := raw / HEARTS_PER_HEX, raw % HEARTS_PER_HEX;
      if fraction == 0 then Some(Print(whole))
      else Some(Print(whole) + "." + StripZeros(PadStart(Print(fraction), DECIMALS)))
  }

  // ----- reading a display back

  /** The position of the first point, or the length if there is none. */
  function PointAt(s: string): (i: nat)
    ensures i <= |s| && (i < |s| ==> s[i] == '.') && forall k :: 0 <= k < i ==> s[k] != '.'
  {
    if s == [] || s[0] == '.' then 0 else 1 + PointAt(s[1..])
  }

  /** A decimal with at most eight decimals, times a hundred million. */
  function ParseHex(s: string): Option<nat> {
    var i := PointAt(s);
    if i == |s| then
      if IsNumeral(s) then Some(Read(s) * Pow10(DECIMALS)) else None
    else
      var whole, fraction := s[..i], s[i + 1..];
      if IsNumeral(whole) && IsNumeral(fraction) && |fraction| <= DECIMALS
      then Some(Read(whole) * Pow10(DECIMALS) + Read(fraction + Zeros(DECIMALS - |fraction|)))
      else None
  }

  lemma {:induction false} ReadZeros(n: nat)
    ensures Read(Zeros(n)) == 0
  {
    if n > 0 {
      assert Zeros(n)[..n - 1] == Zeros(n - 1);
      ReadZeros(n - 1);
    }
  }

  /** Padding in front keeps the value and reaches the width. */
  lemma PadStartReads(s: string, width: nat)
    requires AllDigits(s) && |s| <= width
    ensures AllDigits(PadStart(s, width)) && |PadStart(s, width)| == width && Read(PadStart(s, width)) == Read(s)
  {
    if |s| < width {
      ReadConcat(Zeros(width - |s|), s);
      ReadZeros(width - |s|);
    }
  }

  /** Stripping removes nothing but zeros: putting them back restores the string. */
  lemma {:induction false} StripZerosRestores(s: string)
    ensures var t := StripZeros(s);
      && |t| <= |s| && s == t + Zeros(|s| - |t|)
      && (t != [] ==> t[|t| - 1] != '0')
  {
    if s != [] && s[|s| - 1] == '0' {
      StripZerosRestores(s[..|s| - 1]);
      var t := StripZeros(s[..|s| - 1]);
      assert s == s[..|s| - 1] + "0";
      assert Zeros(|s| - 1 - |t|) + "0" == Zeros(|s| - |t|);
      assert s == t + (Zeros(|s| - 1 - |t|) + "0");
    }
  }

  lemma PowersAgree()
    ensures Pow10(DECIMALS) == HEARTS_PER_HEX
  {
  }

  /** The fraction shown: one to eight digits, the last one not a zero, that read as the
      remainder once the zeros are put back. */
  lemma FractionShown(fraction: nat)
    requires 0 < fraction < HEARTS_PER_HEX
    ensures var shown := StripZeros(PadStart(Print(fraction), DECIMALS));
      && 1 <= |shown| <= DECIMALS && AllDigits(shown) && shown[|shown| - 1] != '0'
      && Read(shown + Zeros(DECIMALS - |shown|)) == fraction
  {
    PowersAgree();
    PrintLengthBound(fraction, DECIMALS);
    ReadPrint(fraction);
    var padded := PadStart(Print(fraction), DECIMALS);
    PadStartReads(Print(fraction), DECIMALS);
    StripZerosRestores(padded);
    var shown := StripZeros(padded);
    assert padded[..|shown|] == shown;
    if shown == [] {
      assert padded == Zeros(DECIMALS);
      ReadZeros(DECIMALS);
    }
  }

  /** Nothing but a digit string is displayed, and reading the display as a decimal times
      a hundred million gives back exactly the value of the input. */
  lemma ParseAfterFormat(hearts: string)
    ensures Format(hearts).Some? <==> IsNumeral(hearts)
    ensures IsNumeral(hearts) ==> ParseHex(Format(hearts).value) == Some(Read(hearts))
  {
    hide Read, Print, Pow10, StripZeros, ParseHex;
    if IsNumeral(hearts) {
      var raw := Read(hearts);
      var whole, fraction := raw / HEARTS_PER_HEX, raw % HEARTS_PER_HEX;
      PowersAgree();
      ReadPrint(whole);
      if fraction == 0 {
        ParseWhole(Print(whole));
      } else {
        FractionShown(fraction);
        ParseDecimal(Print(whole), StripZeros(PadStart(Print(fraction), DECIMALS)));
      }
    }
  }

  lemma ParseWhole(s: string)
    requires IsNumeral(s)
    ensures ParseHex(s) == Some(Read(s) * Pow10(DECIMALS))
  {
    hide Read, Pow10;
    assert PointAt(s) == |s|;
  }

  lemma ParseDecimal(whole: string, fraction: string)
    requires IsNumeral(whole) && AllDigits(fraction) && 1 <= |fraction| <= DECIMALS
    ensures ParseHex(whole + "." + fraction)
      == Some(Read(whole) * Pow10(DECIMALS) + Read(fraction + Zeros(DECIMALS - |fraction|)))
  {
    hide Read, Pow10, Zeros, PointAt;
    PointAfter(whole, fraction);
  }

  lemma PointAfter(whole: string, fraction: string)
    requires AllDigits(whole)
    ensures var s := whole + "." + fraction;
      |s| > |whole| && PointAt(s) == |whole| && s[..|whole|] == whole && s[|whole| + 1..] == fraction
  {
    var s := whole + "." + fraction;
    assert s[|whole|] == '.';
    assert forall k :: 0 <= k < |whole| ==> s[k] == whole[k];
  }

  /** Two digit strings are displayed alike exactly if they denote the same value. */
  lemma SameDisplayIffSameValue(a: string, b: string)
    requires IsNumeral(a) && IsNumeral(b)
    ensures Format(a) == Format(b) <==> Read(a) == Read(b)
  {
    hide ParseHex, Read;
    ParseAfterFormat(a);
    ParseAfterFormat(b);
  }

  // ----- the exact display

  /** A display of a value: a canonical numeral, followed, if it is not whole, by a point
      and at most eight digits of which the last is not a zero. */
  ghost predicate Displays(shown: string, raw: nat) {
    exists whole, fraction :: shown == Composed(whole, fraction) && Parts(whole, fraction, raw)
  }

  function Composed(whole: string, fraction: string): string {
    if fraction == [] then whole else whole + "." + fraction
  }

  predicate Parts(whole: string, fraction: string, raw: nat) {
    && Canonical(whole) && AllDigits(fraction) && |fraction| <= 8
    && (fraction != [] ==> fraction[|fraction| - 1] != '0')
    && raw == Read(whole) * 100_000_000 + Read(fraction + Zeros(8 - |fraction|))
  }

  lemma {:induction false} SameLengthSameValue(s: string, t: string)
    requires AllDigits(s) && AllDigits(t) && |s| == |t| && Read(s) == Read(t)
    ensures s == t
  {
    if s != [] {
      var n := |s| - 1;
      assert 10 * Read(s[..n]) + DigitValue(s[n]) == 10 * Read(t[..n]) + DigitValue(t[n]);
      assert DigitValue(s[n]) < 10 && DigitValue(t[n]) < 10;
      SameLengthSameValue(s[..n], t[..n]);
      assert s == s[..n] + [s[n]] && t == t[..n] + [t[n]];
    }
  }

  lemma {:induction false} StripPadded(fraction: string, k: nat)
    requires fraction != [] ==> fraction[|fraction| - 1] != '0'
    ensures StripZeros(fraction + Zeros(k)) == fraction
  {
    if k == 0 {
      assert fraction + Zeros(0) == fraction;
    } else {
      var s := fraction + Zeros(k);
      assert s[|s| - 1] == '0' && s[..|s| - 1] == fraction + Zeros(k - 1);
      StripPadded(fraction, k - 1);
    }
  }

  lemma {:induction false} ReadBelow(s: string)
    requires AllDigits(s)
    ensures Read(s) < Pow10(|s|)
  {
    if s != [] {
      ReadBelow(s[..|s| - 1]);
    }
  }

  /** The parts of a display are those of the quotient and the remainder. */
  lemma PartsAreUnique(whole: string, fraction: string, raw: nat)
    requires Parts(whole, fraction, raw)
    ensures whole == Print(raw / 100_000_000)
    ensures fraction == if raw % 100_000_000 == 0 then [] else StripZeros(PadStart(Print(raw % 100_000_000), 8))
  {
    hide Read, Print, Pow10, StripZeros;
    var padded := fraction + Zeros(8 - |fraction|);
    ReadBelow(padded);
    PowersAgree();
    assert raw / 100_000_000 == Read(whole) && raw % 100_000_000 == Read(padded);
    PrintReadIffCanonical(whole);
    StripPadded(fraction, 8 - |fraction|);
    var rest := Read(padded);
    PrintLengthBound(rest, 8);
    ReadPrint(rest);
    PadStartReads(Print(rest), 8);
    SameLengthSameValue(padded, PadStart(Print(rest), 8));
    if rest == 0 {
      ReadZeros(8);
      SameLengthSameValue(padded, Zeros(8));
      StripPadded([], 8);
      assert [] + Zeros(8) == Zeros(8);
    } else if fraction == [] {
      ReadZeros(8);
      assert padded == Zeros(8);
    }
  }

  lemma WholeParts(whole: nat)
    ensures Parts(Print(whole), [], whole * 100_000_000)
  {
    hide Print, Pow10, StripZeros;
    ReadPrint(whole);
    PrintCanonical(whole);
    ReadZeros(8);
    assert [] + Zeros(8) == Zeros(8);
  }

  lemma FractionParts(whole: nat, rest: nat)
    requires 0 < rest < HEARTS_PER_HEX
    ensures Parts(Print(whole), StripZeros(PadStart(Print(rest), DECIMALS)), whole * 100_000_000 + rest)
  {
    hide Read, Print, Pow10, StripZeros, PadStart;
    ReadPrint(whole);
    PrintCanonical(whole);
    FractionShown(rest);
  }

  lemma PartsDisplay(whole: string, fraction: string, raw: nat)
    requires Parts(whole, fraction, raw)
    ensures Displays(Composed(whole, fraction), raw)
  {
    hide Parts;
  }

  lemma FormattedParts(hearts: string)
    requires IsNumeral(hearts)
    ensures Displays(Format(hearts).value, Read(hearts))
  {
    hide Read, Print, Pow10, StripZeros, PadStart, Parts, Displays;
    var raw := Read(hearts);
    var whole, rest := raw / HEARTS_PER_HEX, raw % HEARTS_PER_HEX;
    if rest == 0 {
      WholeParts(whole);
      PartsDisplay(Print(whole), [], raw);
    } else {
      var fraction := StripZeros(PadStart(Print(rest), DECIMALS));
      FractionParts(whole, rest);
      FractionShown(rest);
      PartsDisplay(Print(whole), fraction, raw);
    }
  }

  /** What is displayed for a digit string is exactly the one display of its value: a whole
      amount is shown without a point, a fraction without trailing zeros. */
  lemma FormatIsTheDisplay(hearts: string, shown: string)
    requires IsNumeral(hearts)
    ensures Format(hearts) == Some(shown) <==> Displays(shown, Read(hearts))
  {
    hide Read, Print, Pow10, StripZeros, Parts;
    FormattedParts(hearts);
    if Displays(shown, Read(hearts)) {
      var whole, fraction :| shown == Composed(whole, fraction) && Parts(whole, fraction, Read(hearts));
      var whole', fraction' :|
        Format(hearts).value == Composed(whole', fraction') && Parts(whole', fraction', Read(hearts));
      PartsAreUnique(whole, fraction, Read(hearts));
      PartsAreUnique(whole', fraction', Read(hearts));
    }
  }
}
