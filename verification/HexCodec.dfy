/** The packed layout of one day of HEX data: a 200-bit word holding two 72-bit fields
    and one 56-bit field. */
module HexCodec {
  import opened Base
  import Arithmetic

  // ----- bit operations on unbounded natural numbers

  function Pow2(k: nat): (p: nat)
    ensures p > 0
  {
    if k == 0 then 1 else 2 * Pow2(k - 1)
  }

  /** `a & b`, bit by bit. */
  function BitAnd(a: nat, b: nat): nat {
    if a == 0 || b == 0 then 0 else (a % 2) * (b % 2) + 2 * BitAnd(a / 2, b / 2)
  }

  /** `a >> n`, one place at a time. */
  function ShiftRight(a: nat, n: nat): nat {
    if n == 0 then a else ShiftRight(a / 2, n - 1)
  }

  lemma Pow2Unfolds(k: nat)
    ensures k == 0 ==> Pow2(k) == 1
    ensures k > 0 ==> Pow2(k) == 2 * Pow2(k - 1)
  {
  }

  lemma DoubledProduct(x: nat, y: nat)
    ensures 2 * (x * y) == (2 * x) * y
  {
  }

  lemma {:induction false} Pow2Sum(a: nat, b: nat)
    ensures Pow2(a + b) == Pow2(a) * Pow2(b)
  {
    hide Pow2;
    Pow2Unfolds(a);
    Pow2Unfolds(a + b);
    if a > 0 {
      Pow2Sum(a - 1, b);
      DoubledProduct(Pow2(a - 1), Pow2(b));
    }
  }

  /** Halving quotient and remainder together. */
  lemma HalveDivMod(a: nat, p: nat)
    requires p > 0
    ensures a / (2 * p) == (a / 2) / p
    ensures a % (2 * p) == a % 2 + 2 * ((a / 2) % p)
  {
    var q, r := (a / 2) / p, (a / 2) % p;
    assert a == 2 * (a / 2) + a % 2;
    assert a / 2 == p * q + r;
    assert 2 * (p * q) == (2 * p) * q;
    Arithmetic.DivModUnique(a, 2 * p, q, a % 2 + 2 * r);
  }

  lemma AndZero(a: nat)
    ensures BitAnd(a, 0) == BitAnd(0, a) == 0 && a % 1 == 0
  {
  }

  lemma AndOdd(a: nat, m: nat)
    requires a > 0
    ensures BitAnd(a, 2 * m + 1) == a % 2 + 2 * BitAnd(a / 2, m)
  {
    assert (2 * m + 1) % 2 == 1 && (2 * m + 1) / 2 == m;
  }

  /** Masking with k one-bits is the remainder modulo two to the k. */
  lemma {:induction false} MaskIsRemainder(a: nat, k: nat)
    ensures BitAnd(a, Pow2(k) - 1) == a % Pow2(k)
  {
    hide BitAnd;
    if k == 0 {
      AndZero(a);
    } else if a == 0 {
      AndZero(Pow2(k) - 1);
      Arithmetic.SmallQuotient(0, Pow2(k));
    } else {
      MaskIsRemainder(a / 2, k - 1);
      AndOdd(a, Pow2(k - 1) - 1);
      HalveDivMod(a, Pow2(k - 1));
    }
  }

  /** Shifting by n places is the quotient by two to the n. */
  lemma {:induction false} ShiftIsQuotient(a: nat, n: nat)
    ensures ShiftRight(a, n) == a / Pow2(n)
  {
    if n == 0 {
      Arithmetic.DivOne(a);
    } else {
      ShiftIsQuotient(a / 2, n - 1);
      HalveDivMod(a, Pow2(n - 1));
    }
  }

  // ----- one entry

  const HEARTS_BITS: nat := 72
  const SATS_BITS: nat := 56
  const SHARES_SHIFT: nat := 72
  const SATS_SHIFT: nat := 144
  const PACKED_BITS: nat := 200

  datatype Entry = Entry(payout: nat, shares: nat, sats: nat)

  datatype PackedError = Negative | ExceedsMax

  predicate InRange(e: Entry) {
    e.payout < Pow2(HEARTS_BITS) && e.shares < Pow2(HEARTS_BITS) && e.sats < Pow2(SATS_BITS)
  }

  /** The word that holds an entry. */
  function Pack(e: Entry): nat {
    Combine(e, Pow2(SHARES_SHIFT), Pow2(SATS_SHIFT))
  }

  function Combine(e: Entry, sharesUnit: nat, satsUnit: nat): nat {
    e.payout + e.shares * sharesUnit + e.sats * satsUnit
  }

  function DecodeEntry(packed: int): Result<Entry, PackedError> {
    if packed < 0 then Err(Negative)
    else if packed > Pow2(PACKED_BITS) - 1 then Err(ExceedsMax)
    else
      Ok(Entry(
        BitAnd(packed, Pow2(HEARTS_BITS) - 1),
        BitAnd(ShiftRight(packed, SHARES_SHIFT), Pow2(HEARTS_BITS) - 1),
        BitAnd(ShiftRight(packed, SATS_SHIFT), Pow2(SATS_BITS) - 1)))
  }

  /** The two lower digits of a word in base h, and what is above them. */
  function Digits(packed: nat, h: nat): Entry
    requires h > 0
  {
    Entry(packed % h, packed / h % h, packed / h / h)
  }

  /** The fields are the digits of the word in base two to the 72. */
  lemma FieldsAreDigits(packed: nat)
    requires packed < Pow2(PACKED_BITS)
    ensures DecodeEntry(packed) == Ok(Digits(packed, Pow2(HEARTS_BITS)))
    ensures Digits(packed, Pow2(HEARTS_BITS)).sats < Pow2(SATS_BITS)
  {
    hide Pow2, BitAnd, ShiftRight;
    var h := Pow2(HEARTS_BITS);
    Pow2Sum(72, 72);
    Pow2Sum(144, 56);
    MaskIsRemainder(packed, HEARTS_BITS);
    ShiftIsQuotient(packed, SHARES_SHIFT);
    MaskIsRemainder(ShiftRight(packed, SHARES_SHIFT), HEARTS_BITS);
    ShiftIsQuotient(packed, SATS_SHIFT);
    MaskIsRemainder(ShiftRight(packed, SATS_SHIFT), SATS_BITS);
    QuotientTwice(packed, h, h);
    QuotientBelow(packed, Pow2(SATS_SHIFT), Pow2(SATS_BITS));
    Arithmetic.SmallQuotient(packed / Pow2(SATS_SHIFT), Pow2(SATS_BITS));
  }

  lemma QuotientTwice(a: nat, p: nat, q: nat)
    requires p > 0 && q > 0
    ensures p * q > 0 && a / p / q == a / (p * q)
  {
    var m, r := a / p, a % p;
    var n, s := m / q, m % q;
    assert a == p * m + r && m == q * n + s;
    assert p * (q * n + s) == (p * q) * n + p * s;
    assert p * s <= p * (q - 1) by { Arithmetic.ProductMonotone(p, s, q - 1); }
    assert p * (q - 1) == p * q - p by { Arithmetic.Distribute(p, q, 1); }
    Arithmetic.DivModUnique(a, p * q, n, p * s + r);
  }

  lemma QuotientBelow(a: nat, p: nat, q: nat)
    requires p > 0 && a < p * q
    ensures a / p < q
  {
    assert a == p * (a / p) + a % p;
    Arithmetic.ProductMonotone(p, q, a / p);
  }

  /** Decoding succeeds exactly on the words of at most 200 bits. */
  lemma DecodableIff(packed: int)
    ensures DecodeEntry(packed).Ok? <==> 0 <= packed < Pow2(PACKED_BITS)
    ensures DecodeEntry(packed) == Err(Negative) <==> packed < 0
  {
  }

  /** A decoded entry is in range and packs to the very word it came from. */
  lemma PackAfterDecode(packed: int)
    requires DecodeEntry(packed).Ok?
    ensures InRange(DecodeEntry(packed).value) && Pack(DecodeEntry(packed).value) == packed
  {
    hide Pow2, BitAnd, ShiftRight;
    var h := Pow2(HEARTS_BITS);
    FieldsAreDigits(packed);
    Pow2Sum(72, 72);
    var q := packed / h;
    assert packed == h * q + packed % h;
    assert q == h * (q / h) + q % h;
    assert h * (h * (q / h) + q % h) == (q / h) * (h * h) + (q % h) * h;
  }

  /** Packing an entry in range and decoding the word gives the entry back. */
  lemma DecodeAfterPack(e: Entry)
    requires InRange(e)
    ensures 0 <= Pack(e) < Pow2(PACKED_BITS)
    ensures DecodeEntry(Pack(e)) == Ok(e)
  {
    hide Pow2, BitAnd, ShiftRight;
    var h, packed := Pow2(HEARTS_BITS), Pack(e);
    Pow2Sum(72, 72);
    Pow2Sum(144, 56);
    var upper := e.shares + h * e.sats;
    assert packed == h * upper + e.payout by {
      assert h * (e.shares + h * e.sats) == e.shares * h + e.sats * (h * h);
    }
    Arithmetic.DivModUnique(packed, h, upper, e.payout);
    Arithmetic.DivModUnique(upper, h, e.sats, e.shares);
    PackedBelow(e.payout, e.shares, e.sats, h, Pow2(SATS_BITS));
    FieldsAreDigits(packed);
  }

  lemma PackedBelow(a: nat, b: nat, c: nat, h: nat, s: nat)
    requires a < h && b < h && c < s
    ensures a + b * h + c * (h * h) < (h * h) * s
  {
    assert b * h <= h * h - h by {
      Arithmetic.ProductMonotone(h, b, h - 1);
      Arithmetic.Distribute(h, h, 1);
    }
    assert c * (h * h) <= (h * h) * s - h * h by {
      Arithmetic.ProductMonotone(h * h, c, s - 1);
      Arithmetic.Distribute(h * h, s, 1);
    }
  }

  /** The in-range fields of a word are unique. */
  lemma PackInjective(d: Entry, e: Entry)
    requires InRange(d) && InRange(e) && Pack(d) == Pack(e)
    ensures d == e
  {
    DecodeAfterPack(d);
    DecodeAfterPack(e);
  }

  // ----- a range of entries

  datatype RangeError = AtIndex(code: PackedError, index: nat)

  /** What the range decoder promises: every entry decoded in order, or the first word
      that does not decode, with its index. */
  predicate RangeDecodes(packed: seq<int>, r: Result<seq<Entry>, RangeError>) {
    match r
    case Ok(entries) =>
      && |entries| == |packed|
      && forall i :: 0 <= i < |packed| ==> DecodeEntry(packed[i]) == Ok(entries[i])
    case Err(AtIndex(code, index)) =>
      && index < |packed|
      && DecodeEntry(packed[index]) == Err(code)
      && forall i :: 0 <= i < index ==> DecodeEntry(packed[i]).Ok?
  }

  /** At most one result is promised for each input. */
  lemma RangeDecodesOnce(packed: seq<int>, r: Result<seq<Entry>, RangeError>, s: Result<seq<Entry>, RangeError>)
    requires RangeDecodes(packed, r) && RangeDecodes(packed, s)
    ensures r == s
  {
    hide DecodeEntry;
    if r.Ok? && s.Ok? {
      assert forall i :: 0 <= i < |packed| ==> Ok(r.value[i]) == DecodeEntry(packed[i]) == Ok(s.value[i]);
      assert r.value == s.value;
    }
  }

  method DecodePackedRange(packed: seq<int>) returns (r: Result<seq<Entry>, RangeError>)
    ensures RangeDecodes(packed, r)
  {
    hide DecodeEntry;
    var entries: seq<Entry> := [];
    var i := 0;
    while i < |packed|
      invariant 0 <= i <= |packed| && |entries| == i
      invariant forall j :: 0 <= j < i ==> DecodeEntry(packed[j]) == Ok(entries[j])
    {
      var result := DecodeEntry(packed[i]);
      match result {
        case Err(code) => return Err(AtIndex(code, i));
        case Ok(entry) => entries := entries + [entry];
      }
      i := i + 1;
    }
    return Ok(entries);
  }

  function PackAll(entries: seq<Entry>): (packed: seq<int>)
    ensures |packed| == |entries|
    ensures forall i :: 0 <= i < |entries| ==> packed[i] == Pack(entries[i]) >= 0
  {
    seq(|entries|, i requires 0 <= i < |entries| => Pack(entries[i]))
  }

  /** The range decoder inverts packing, on exactly the packed ranges. */
  lemma RangeRoundTrip(packed: seq<int>, entries: seq<Entry>)
    ensures RangeDecodes(packed, Ok(entries))
       <==> (forall i :: 0 <= i < |entries| ==> InRange(entries[i])) && packed == PackAll(entries)
  {
    hide DecodeEntry, Pack, InRange;
    if RangeDecodes(packed, Ok(entries)) {
      forall i | 0 <= i < |entries|
        ensures InRange(entries[i]) && packed[i] == PackAll(entries)[i]
      {
        PackAfterDecode(packed[i]);
      }
      assert packed == PackAll(entries);
    }
    if (forall i :: 0 <= i < |entries| ==> InRange(entries[i])) && packed == PackAll(entries) {
      forall i | 0 <= i < |entries|
        ensures DecodeEntry(packed[i]) == Ok(entries[i])
      {
        DecodeAfterPack(entries[i]);
      }
    }
  }
}
