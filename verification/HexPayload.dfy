/** The stored payload of packed HEX data: decimal strings in a JSON tree that carries no
    number anywhere. Property names of an object are unique, as they are after parsing. */
module HexPayload {
  import opened Base
  import opened Json
  import opened Decimal
  import HexCodec

  // ----- numbers anywhere in the tree

  /** The children of a node, in order. */
  function Children(j: Json): (cs: seq<Json>)
    ensures forall i :: 0 <= i < |cs| ==> cs[i] < j
  {
    match j
    case Array(items) => items
    case Object(fields) => seq(|fields|, i requires 0 <= i < |fields| => fields[i].1)
    case _ => []
  }

  /** Following the path from the root leads to a number. */
  predicate NumberAt(j: Json, path: seq<nat>)
    decreases |path|
  {
    if path == [] then j.Number?
    else path[0] < |Children(j)| && NumberAt(Children(j)[path[0]], path[1..])
  }

  ghost predicate HasNumber(j: Json) {
    exists path :: NumberAt(j, path)
  }

  /** Traverses the tree and throws at the first number it meets. */
  method RejectNumericValues(j: Json) returns (threw: bool)
    ensures threw <==> HasNumber(j)
    decreases j
  {
    if j.Number? {
      assert NumberAt(j, []);
      return true;
    }
    var items := Children(j);
    var i := 0;
    while i < |items|
      invariant 0 <= i <= |items|
      invariant forall k :: 0 <= k < i ==> !HasNumber(items[k])
    {
      var inner := RejectNumericValues(items[i]);
      if inner {
        var path :| NumberAt(items[i], path);
        assert ([i] + path)[1..] == path;
        assert NumberAt(j, [i] + path);
        return true;
      }
      i := i + 1;
    }
    forall path
      ensures !NumberAt(j, path)
    {
      if path != [] && path[0] < |items| {
        assert !NumberAt(items[path[0]], path[1..]);
      }
    }
    return false;
  }

  // ----- decoding

  datatype PayloadError =
    | InvalidJson | NumericValue | InvalidRoot | MissingSchemaVersion | UnsupportedSchemaVersion
    | MissingDailyData | DailyDataNotArray | ItemNotString(index: nat) | ItemInvalid(index: nat)

  predicate DigitString(j: Json) {
    j.String? && IsNumeral(j.text)
  }

  predicate DigitStrings(items: seq<Json>) {
    forall i :: 0 <= i < |items| ==> DigitString(items[i])
  }

  /** The values of a list of digit strings. */
  function Values(items: seq<Json>): (words: seq<nat>)
    requires DigitStrings(items)
    ensures |words| == |items|
    ensures forall i :: 0 <= i < |items| ==> words[i] == Read(items[i].text)
  {
    seq(|items|, i requires 0 <= i < |items| => assert DigitString(items[i]); Read(items[i].text))
  }

  /** The tree passes every check before its items are looked at. */
  ghost predicate Shaped(j: Json) {
    && !HasNumber(j) && j.Object?
    && Field(j.fields, "schemaVersion") == Some(String("v1"))
    && Field(j.fields, "dailyData").Some? && Field(j.fields, "dailyData").value.Array?
  }

  function Items(j: Json): seq<Json> {
    if j.Object? then
      match Field(j.fields, "dailyData")
      case Some(Array(items)) => items
      case _ => []
    else []
  }

  /** What each error reports: all earlier checks pass and this one is the first to
      fail; an index is the least one at which an item fails. */
  ghost predicate Diagnosed(parsed: Option<Json>, error: PayloadError) {
    match error
    case InvalidJson => parsed.None?
    case NumericValue => parsed.Some? && HasNumber(parsed.value)
    case InvalidRoot => parsed.Some? && !HasNumber(parsed.value) && !parsed.value.Object?
    case MissingSchemaVersion => Rooted(parsed) && Field(parsed.value.fields, "schemaVersion").None?
    case UnsupportedSchemaVersion =>
      && Rooted(parsed) && Field(parsed.value.fields, "schemaVersion").Some?
      && Field(parsed.value.fields, "schemaVersion").value != String("v1")
    case MissingDailyData => Versioned(parsed) && Field(parsed.value.fields, "dailyData").None?
    case DailyDataNotArray =>
      && Versioned(parsed) && Field(parsed.value.fields, "dailyData").Some?
      && !Field(parsed.value.fields, "dailyData").value.Array?
    case ItemNotString(i) =>
      && parsed.Some? && Shaped(parsed.value) && i < |Items(parsed.value)|
      && DigitStrings(Items(parsed.value)[..i]) && !Items(parsed.value)[i].String?
    case ItemInvalid(i) =>
      && parsed.Some? && Shaped(parsed.value) && i < |Items(parsed.value)|
      && DigitStrings(Items(parsed.value)[..i])
      && Items(parsed.value)[i].String? && !IsNumeral(Items(parsed.value)[i].text)
  }

  ghost predicate Rooted(parsed: Option<Json>) {
    parsed.Some? && !HasNumber(parsed.value) && parsed.value.Object?
  }

  ghost predicate Versioned(parsed: Option<Json>) {
    Rooted(parsed) && Field(parsed.value.fields, "schemaVersion") == Some(String("v1"))
  }

  ghost predicate Acceptable(parsed: Option<Json>) {
    parsed.Some? && Shaped(parsed.value) && DigitStrings(Items(parsed.value))
  }

  /** What the payload decoder promises. */
  ghost predicate Decodes(parsed: Option<Json>, r: Result<seq<nat>, PayloadError>) {
    match r
    case Ok(words) => Acceptable(parsed) && words == Values(Items(parsed.value))
    case Err(error) => Diagnosed(parsed, error)
  }

  /** Decodes the parsed payload; None stands for a text that is not JSON. */
  method DecodePayload(parsed: Option<Json>) returns (r: Result<seq<nat>, PayloadError>)
    ensures Decodes(parsed, r)
  {
    if parsed.None? {
      return Err(InvalidJson);
    }
    var root := parsed.value;
    var threw := RejectNumericValues(root);
    if threw {
      return Err(NumericValue);
    }
    if !root.Object? {
      return Err(InvalidRoot);
    }
    var version := Field(root.fields, "schemaVersion");
    if version.None? {
      return Err(MissingSchemaVersion);
    }
    if version.value != String("v1") {
      return Err(UnsupportedSchemaVersion);
    }
    var data := Field(root.fields, "dailyData");
    if data.None? {
      return Err(MissingDailyData);
    }
    if !data.value.Array? {
      return Err(DailyDataNotArray);
    }
    var items := data.value.items;
    var words: seq<nat> := [];
    var i := 0;
    while i < |items|
      invariant 0 <= i <= |items| && |words| == i
      invariant DigitStrings(items[..i])
      invariant forall k :: 0 <= k < i ==> DigitString(items[k]) && words[k] == Read(items[k].text)
    {
      if !items[i].String? {
        return Err(ItemNotString(i));
      }
      if !IsNumeral(items[i].text) {
        return Err(ItemInvalid(i));
      }
      words := words + [Read(items[i].text)];
      i := i + 1;
    }
    assert words == Values(items);
    return Ok(words);
  }

  /** No input is both accepted and diagnosed, and none is diagnosed twice. */
  lemma DecodesOnce(parsed: Option<Json>, r: Result<seq<nat>, PayloadError>, s: Result<seq<nat>, PayloadError>)
    requires Decodes(parsed, r) && Decodes(parsed, s)
    ensures r == s
  {
    hide HasNumber, IsNumeral;
    if r.Err? && s.Err? {
      DiagnosedOnce(parsed, r.error, s.error);
    } else if r.Err? {
      NotBoth(parsed, r.error);
    } else if s.Err? {
      NotBoth(parsed, s.error);
    }
  }

  lemma NotBoth(parsed: Option<Json>, error: PayloadError)
    requires Acceptable(parsed)
    ensures !Diagnosed(parsed, error)
  {
  }

  lemma DiagnosedOnce(parsed: Option<Json>, d: PayloadError, e: PayloadError)
    requires Diagnosed(parsed, d) && Diagnosed(parsed, e)
    ensures d == e
  {
    hide HasNumber, IsNumeral;
    if (d.ItemNotString? || d.ItemInvalid?) && (e.ItemNotString? || e.ItemInvalid?) {
      StringsBefore(Items(parsed.value), d.index);
      StringsBefore(Items(parsed.value), e.index);
    }
  }

  lemma StringsBefore(items: seq<Json>, n: nat)
    requires n <= |items| && DigitStrings(items[..n])
    ensures forall k :: 0 <= k < n ==> DigitString(items[k])
  {
    assert forall k :: 0 <= k < n ==> items[..n][k] == items[k];
  }

  // ----- encoding

  /** `toString(10)` of a word, which on chain is never negative. */
  function PrintWord(word: int): string {
    if word < 0 then "-" + Print(-word) else Print(word)
  }

  function Strings(words: seq<int>): (items: seq<Json>)
    ensures |items| == |words|
    ensures forall i :: 0 <= i < |words| ==> items[i] == String(PrintWord(words[i]))
  {
    seq(|words|, i requires 0 <= i < |words| => String(PrintWord(words[i])))
  }

  function EncodePayload(words: seq<int>): Json {
    Object([("schemaVersion", String("v1")), ("dailyData", Array(Strings(words)))])
  }

  lemma EncodedShape(words: seq<int>)
    ensures Shaped(EncodePayload(words)) && Items(EncodePayload(words)) == Strings(words)
  {
    var j := EncodePayload(words);
    assert Field(j.fields[1..], "dailyData") == Some(Array(Strings(words)));
    forall path
      ensures !NumberAt(j, path)
    {
      if path != [] && path[0] < 2 {
        StringsCarryNoNumber(words, Children(j)[path[0]], path[1..]);
      }
    }
  }

  lemma StringsCarryNoNumber(words: seq<int>, j: Json, path: seq<nat>)
    requires j.String? || j == Array(Strings(words))
    ensures !NumberAt(j, path)
  {
    if path != [] && path[0] < |Children(j)| {
      assert Children(j)[path[0]].String?;
    }
  }

  /** An encoded payload decodes to the words it was made from exactly if none of them is
      negative; otherwise the first negative word is reported. */
  lemma DecodeAfterEncode(words: seq<int>, r: Result<seq<nat>, PayloadError>)
    requires Decodes(Some(EncodePayload(words)), r)
    ensures r.Ok? <==> forall i :: 0 <= i < |words| ==> words[i] >= 0
    ensures r.Ok? ==> r.value == words
    ensures r.Err? ==>
      && r.error.ItemInvalid? && r.error.index < |words| && words[r.error.index] < 0
      && forall i :: 0 <= i < r.error.index ==> words[i] >= 0
  {
    hide HasNumber, Print, Read;
    var j := EncodePayload(words);
    EncodedShape(words);
    forall i | 0 <= i < |words|
      ensures DigitString(Items(j)[i]) <==> words[i] >= 0
      ensures words[i] >= 0 ==> Read(PrintWord(words[i])) == words[i]
    {
      if words[i] >= 0 {
        ReadPrint(words[i]);
      } else {
        assert PrintWord(words[i])[0] == '-' && !IsDigit('-');
      }
    }
    if r.Err? {
      assert !r.error.UnsupportedSchemaVersion? && !r.error.MissingDailyData?;
      var i := r.error.index;
      assert forall k :: 0 <= k < i ==> Items(j)[..i][k] == Items(j)[k];
    }
  }

  predicate CanonicalString(j: Json) {
    j.String? && Canonical(j.text)
  }

  /** Encoding what was decoded reproduces the strings exactly if none of them has a
      redundant leading zero. */
  lemma EncodeAfterDecode(parsed: Option<Json>, words: seq<nat>)
    requires Decodes(parsed, Ok(words))
    ensures Strings(words) == Items(parsed.value)
      <==> forall i :: 0 <= i < |words| ==> CanonicalString(Items(parsed.value)[i])
  {
    hide HasNumber, Print, Read, Canonical;
    var items := Items(parsed.value);
    forall i | 0 <= i < |items|
      ensures String(PrintWord(words[i])) == items[i] <==> CanonicalString(items[i])
    {
      assert DigitString(items[i]);
      PrintReadIffCanonical(items[i].text);
    }
  }

  // ----- the whole codec

  /** Entries in range survive packing, encoding, payload decoding and range decoding. */
  method RoundTrip(entries: seq<HexCodec.Entry>) returns (r: Result<seq<HexCodec.Entry>, HexCodec.RangeError>)
    requires forall i :: 0 <= i < |entries| ==> HexCodec.InRange(entries[i])
    ensures r == Ok(entries)
  {
    var packed := HexCodec.PackAll(entries);
    var payload := DecodePayload(Some(EncodePayload(packed)));
    DecodeAfterEncode(packed, payload);
    r := HexCodec.DecodePackedRange(payload.value);
    HexCodec.RangeRoundTrip(packed, entries);
    HexCodec.RangeDecodesOnce(packed, r, Ok(entries));
  }
}
