/** Reading the values of command-line flags, as both command lines do it. */
module CommandLine {
  import opened Base
  import Decimal

  /** A text that is never taken as the value of the flag before it. */
  predicate Dashed(s: string) {
    |s| >= 2 && s[0] == '-' && s[1] == '-'
  }

  /** The value that follows a flag, if there is one. */
  function ValueAfter(argv: seq<string>): Option<string>
    requires argv != []
  {
    if |argv| == 1 || Dashed(argv[1]) then None else Some(argv[1])
  }

  function ReadNat(s: string): Option<nat> {
    if Decimal.IsNumeral(s) then Some(Decimal.Read(s)) else None
  }

  function ReadPositive(s: string): Option<nat> {
    if Decimal.IsNumeral(s) && Decimal.Read(s) > 0 then Some(Decimal.Read(s)) else None
  }

  /** The language of `^-?\d+$`. */
  predicate IsInteger(s: string) {
    Decimal.IsNumeral(s) || (s != [] && s[0] == '-' && Decimal.IsNumeral(s[1..]))
  }

  /** The integer that such a text stands for. */
  function ReadInt(s: string): Option<int> {
    if s != [] && s[0] == '-' then
      match ReadNat(s[1..])
      case None => None
      case Some(n) => Some(-(n as int))
    else ReadNat(s)
  }

  /** `value.toString()` of an integer. */
  function PrintInt(n: int): string {
    if n < 0 then "-" + Decimal.Print(-n) else Decimal.Print(n)
  }

  /** A printed integer is a flag value; only the non-negative ones read back as
      unsigned, and they keep their value. */
  lemma PrintedInt(n: int)
    ensures !Dashed(PrintInt(n))
    ensures ReadInt(PrintInt(n)) == Some(n)
    ensures ReadNat(PrintInt(n)) == if n >= 0 then Some(n) else None
    ensures ReadPositive(PrintInt(n)) == if n > 0 then Some(n) else None
    ensures PrintInt(n) == "0" ==> n == 0
  {
    if n >= 0 {
      Decimal.ReadPrint(n);
      assert Decimal.Print(n) == "0" ==> Decimal.Read("0") == n;
      assert Decimal.IsDigit(Decimal.Print(n)[0]);
    } else {
      Decimal.ReadPrint(-n);
      assert PrintInt(n)[1..] == Decimal.Print(-n);
      assert PrintInt(n)[0] == '-' && !Decimal.IsDigit('-');
      assert PrintInt(n)[1] == Decimal.Print(-n)[0] && Decimal.IsDigit(PrintInt(n)[1]);
    }
  }

  // ----- wallet addresses

  predicate IsHexDigit(c: char) {
    '0' <= c <= '9' || 'a' <= c <= 'f' || 'A' <= c <= 'F'
  }

  /** The language of `^0x[a-fA-F0-9]{40}$`. */
  predicate IsAddress(s: string) {
    |s| == 42 && s[0] == '0' && s[1] == 'x' && forall i :: 2 <= i < 42 ==> IsHexDigit(s[i])
  }

  function LowerChar(c: char): char {
    if 'A' <= c <= 'Z' then c - 'A' + 'a' else c
  }

  function LowerCase(s: string): (r: string)
    ensures |r| == |s|
    ensures forall i :: 0 <= i < |s| ==> r[i] == LowerChar(s[i])
  {
    seq(|s|, i requires 0 <= i < |s| => LowerChar(s[i]))
  }

  /** Lower-casing an address gives an address that lower-casing leaves alone. */
  lemma LowerCaseAddress(s: string)
    requires IsAddress(s)
    ensures IsAddress(LowerCase(s)) && LowerCase(LowerCase(s)) == LowerCase(s) && !Dashed(LowerCase(s))
  {
    assert LowerCase(s)[0] == '0';
  }

  // ----- texts without surrounding white space

  predicate IsSpace(c: char) {
    || '\U{0009}' <= c <= '\U{000d}' || c == ' ' || c == '\U{00a0}' || c == '\U{1680}' || '\U{2000}' <= c <= '\U{200a}'
    || c == '\U{2028}' || c == '\U{2029}' || c == '\U{202f}' || c == '\U{205f}' || c == '\U{3000}' || c == '\U{feff}'
  }

  /** `value === value.trim()`. */
  predicate Trimmed(s: string) {
    s != [] ==> !IsSpace(s[0]) && !IsSpace(s[|s| - 1])
  }

  function TrimLeft(s: string): string {
    if s != [] && IsSpace(s[0]) then TrimLeft(s[1..]) else s
  }

  function TrimRight(s: string): string {
    if s != [] && IsSpace(s[|s| - 1]) then TrimRight(s[..|s| - 1]) else s
  }

  function Trim(s: string): string {
    TrimRight(TrimLeft(s))
  }

  /** `value.trim().length === 0`. */
  predicate Blank(s: string) {
    forall i :: 0 <= i < |s| ==> IsSpace(s[i])
  }
}
