/** Turning an operator's reason into the slug of a policy label. */
module ReasonSlug {
  import opened Base
  import opened CommandLine

  const MAX_SLUG_LENGTH: nat := 64
  const LABEL_PREFIX: string := "EVIDENCE_DIRECTED_WINDOW_V1:"

  predicate SlugChar(c: char) {
    'a' <= c <= 'z' || '0' <= c <= '9'
  }

  // ----- the chained string operations

  /** `replace(/[^a-z0-9]+/g, "-")`: each maximal run of other characters becomes one hyphen. */
  function HyphenateOthers(s: string): string {
    if s == [] then []
    else if SlugChar(s[0]) then [s[0]] + HyphenateOthers(s[1..])
    else if |s| > 1 && !SlugChar(s[1]) then HyphenateOthers(s[1..])
    else "-" + HyphenateOthers(s[1..])
  }

  /** `replace(/-+/g, "-")`. */
  function CollapseHyphens(s: string): string {
    if s == [] then []
    else if s[0] == '-' && |s| > 1 && s[1] == '-' then CollapseHyphens(s[1..])
    else [s[0]] + CollapseHyphens(s[1..])
  }

  /** `replace(/-$/g, "")`. */
  function DropTrailingHyphen(s: string): string {
    if s != [] && s[|s| - 1] == '-' then s[..|s| - 1] else s
  }

  /** `replace(/^-|-$/g, "")`. */
  function DropOuterHyphens(s: string): string {
    DropTrailingHyphen(if s != [] && s[0] == '-' then s[1..] else s)
  }

  function Slice(s: string, n: nat): string {
    if |s| <= n then s else s[..n]
  }

  function Slugify(reason: string): Option<string> {
    var hyphenated := CollapseHyphens(HyphenateOthers(Trim(LowerCase(reason))));
    var slug := DropTrailingHyphen(Slice(DropOuterHyphens(hyphenated), MAX_SLUG_LENGTH));
    if |slug| > 0 then Some(slug) else None
  }

  datatype PolicyLabel = Label(text: string, slug: string) | EmptySlug

  function BuildPolicyLabel(reason: string): PolicyLabel {
    match Slugify(reason)
    case None => EmptySlug
    case Some(slug) => Label(LABEL_PREFIX + slug, slug)
  }

  // ----- the shape of slugs

  /** Only slug characters and hyphens, and no two hyphens in a row. */
  predicate Hyphenated(s: string) {
    && (forall i :: 0 <= i < |s| ==> SlugChar(s[i]) || s[i] == '-')
    && (forall i :: 0 < i < |s| ==> s[i - 1] != '-' || s[i] != '-')
  }

  predicate HyphenFirst(s: string) {
    s != [] && s[0] == '-'
  }

  predicate HyphenLast(s: string) {
    s != [] && s[|s| - 1] == '-'
  }

  /** Non-empty runs of slug characters, separated by single hyphens. */
  predicate IsSlug(s: string) {
    && 1 <= |s| <= MAX_SLUG_LENGTH
    && Hyphenated(s)
    && !HyphenFirst(s) && !HyphenLast(s)
  }

  lemma {:induction false} OthersHyphenated(s: string)
    ensures Hyphenated(HyphenateOthers(s))
    ensures HyphenFirst(HyphenateOthers(s)) <==> s != [] && !SlugChar(s[0])
  {
    if s != [] {
      OthersHyphenated(s[1..]);
      var t := HyphenateOthers(s[1..]);
      if SlugChar(s[0]) || !HyphenFirst(t) {
        PrependHyphenated(if SlugChar(s[0]) then s[0] else '-', t);
      }
    }
  }

  lemma PrependHyphenated(c: char, t: string)
    requires Hyphenated(t) && (SlugChar(c) || (c == '-' && !HyphenFirst(t)))
    ensures Hyphenated([c] + t)
  {
  }

  /** Hyphenated strings are left alone by both replacements. */
  lemma {:induction false} HyphenatedIsFixed(s: string)
    requires Hyphenated(s)
    ensures HyphenateOthers(s) == s && CollapseHyphens(s) == s
  {
    if s != [] {
      assert s == [s[0]] + s[1..];
      HyphenatedIsFixed(s[1..]);
    }
  }

  lemma PartHyphenated(s: string, i: nat, j: nat)
    requires Hyphenated(s) && i <= j <= |s|
    ensures Hyphenated(s[i..j])
  {
  }

  /** Removing the outer hyphens of a hyphenated string leaves none outside. */
  lemma OuterHyphensDropped(s: string)
    requires Hyphenated(s)
    ensures var t := DropOuterHyphens(s); Hyphenated(t) && !HyphenFirst(t) && !HyphenLast(t)
  {
    var i := if HyphenFirst(s) then 1 else 0;
    PartHyphenated(s, i, |s|);
    if HyphenLast(s[i..]) {
      PartHyphenated(s, i, |s| - 1);
      assert s[i..][..|s| - i - 1] == s[i..|s| - 1];
    }
  }

  lemma SlicedAndTrimmed(s: string, n: nat)
    requires Hyphenated(s) && !HyphenFirst(s)
    ensures var t := DropTrailingHyphen(Slice(s, n)); Hyphenated(t) && !HyphenFirst(t) && !HyphenLast(t) && |t| <= n
  {
    var m := if |s| <= n then |s| else n;
    PartHyphenated(s, 0, m);
    assert Slice(s, n) == s[0..m];
    if HyphenLast(Slice(s, n)) {
      PartHyphenated(s, 0, m - 1);
      assert Slice(s, n)[..m - 1] == s[0..m - 1];
    }
  }

  // ----- the letters and digits a slug keeps

  /** The slug characters of a string, in order. */
  function Letters(s: string): string {
    if s == [] then []
    else if SlugChar(s[0]) then [s[0]] + Letters(s[1..])
    else Letters(s[1..])
  }

  lemma {:induction false} LettersConcat(s: string, t: string)
    ensures Letters(s + t) == Letters(s) + Letters(t)
  {
    if s == [] {
      assert s + t == t;
    } else {
      assert (s + t)[0] == s[0] && (s + t)[1..] == s[1..] + t;
      LettersConcat(s[1..], t);
    }
  }

  lemma {:induction false} TrimKeepsLetters(s: string)
    ensures Letters(TrimLeft(s)) == Letters(s) && Letters(TrimRight(s)) == Letters(s)
    decreases |s|
  {
    if s != [] && IsSpace(s[0]) {
      TrimKeepsLetters(s[1..]);
    }
    if s != [] && IsSpace(s[|s| - 1]) {
      TrimKeepsLetters(s[..|s| - 1]);
      LettersConcat(s[..|s| - 1], [s[|s| - 1]]);
      assert s == s[..|s| - 1] + [s[|s| - 1]];
    }
  }

  lemma {:induction false} HyphenateKeepsLetters(s: string)
    ensures Letters(HyphenateOthers(s)) == Letters(s)
  {
    if s != [] {
      HyphenateKeepsLetters(s[1..]);
      var t := HyphenateOthers(s[1..]);
      assert ("-" + t)[1..] == t && ([s[0]] + t)[1..] == t;
    }
  }

  lemma DropKeepsLetters(s: string)
    ensures Letters(DropTrailingHyphen(s)) == Letters(s) && Letters(DropOuterHyphens(s)) == Letters(s)
  {
    var t := if s != [] && s[0] == '-' then s[1..] else s;
    TrailingKeepsLetters(s);
    TrailingKeepsLetters(t);
  }

  lemma TrailingKeepsLetters(s: string)
    ensures Letters(DropTrailingHyphen(s)) == Letters(s)
  {
    if HyphenLast(s) {
      LettersConcat(s[..|s| - 1], "-");
      assert s == s[..|s| - 1] + "-";
    }
  }

  lemma SliceKeepsFirstLetters(s: string, n: nat)
    ensures Letters(Slice(s, n)) <= Letters(s)
  {
    if |s| > n {
      LettersConcat(s[..n], s[n..]);
      assert s == s[..n] + s[n..];
    }
  }

  /** A string without outer hyphens that has no letters is empty. */
  lemma NoLettersMeansEmpty(s: string)
    requires Hyphenated(s) && !HyphenFirst(s)
    ensures Letters(s) == [] <==> s == []
  {
  }

  // ----- where the hyphens stand

  /** The words of a string: its maximal runs of letters and digits, in order. */
  function Words(s: string): (ws: seq<string>)
    ensures s != [] && SlugChar(s[0]) ==> ws != [] && ws[0] != [] && ws[0][0] == s[0]
  {
    if s == [] then []
    else
      var rest := Words(s[1..]);
      if !SlugChar(s[0]) then rest
      else if |s| > 1 && SlugChar(s[1]) then [[s[0]] + rest[0]] + rest[1..]
      else [[s[0]]] + rest
  }

  /** Words with one hyphen between each two. */
  function Joined(ws: seq<string>): string {
    if ws == [] then []
    else if |ws| == 1 then ws[0]
    else ws[0] + "-" + Joined(ws[1..])
  }

  function Lead(s: string): string {
    if s != [] && !SlugChar(s[0]) then "-" else ""
  }

  function Trail(s: string): string {
    if Words(s) != [] && s != [] && !SlugChar(s[|s| - 1]) then "-" else ""
  }

  lemma {:induction false} WordsAreSolid(s: string)
    ensures forall i :: 0 <= i < |Words(s)| ==>
      Words(s)[i] != [] && forall k :: 0 <= k < |Words(s)[i]| ==> SlugChar(Words(s)[i][k])
    ensures Words(s) == [] <==> forall k :: 0 <= k < |s| ==> !SlugChar(s[k])
  {
    if s != [] {
      WordsAreSolid(s[1..]);
      assert forall k :: 1 <= k < |s| ==> s[k] == s[1..][k - 1];
    }
  }

  lemma JoinedHead(c: char, ws: seq<string>)
    requires ws != []
    ensures Joined([[c] + ws[0]] + ws[1..]) == [c] + Joined(ws)
  {
    assert ([[c] + ws[0]] + ws[1..])[1..] == ws[1..];
  }

  /** What a string looks like once every run of other characters is one hyphen. */
  function Shape(s: string): string {
    Lead(s) + Joined(Words(s)) + Trail(s)
  }

  /** A letter is put before a letter of the same word. */
  lemma ShapeInWord(s: string)
    requires |s| > 1 && SlugChar(s[0]) && SlugChar(s[1])
    ensures Shape(s) == [s[0]] + Shape(s[1..])
  {
    hide Joined;
    var rest := s[1..];
    assert s[|s| - 1] == rest[|rest| - 1];
    JoinedHead(s[0], Words(rest));
    assert [s[0]] + (Joined(Words(rest)) + Trail(rest)) == [s[0]] + Joined(Words(rest)) + Trail(rest);
  }

  /** A letter is put before a gap, as the last of its word. */
  lemma ShapeBeforeGap(s: string)
    requires |s| > 1 && SlugChar(s[0]) && !SlugChar(s[1])
    ensures Shape(s) == [s[0]] + Shape(s[1..])
  {
    var rest := s[1..];
    assert s[|s| - 1] == rest[|rest| - 1];
    WordsAreSolid(rest);
    assert Words(s) == [[s[0]]] + Words(rest) && Words(s)[1..] == Words(rest);
    if Words(rest) == [] {
      assert Joined(Words(s)) == [s[0]];
      assert !SlugChar(rest[|rest| - 1]);
    } else {
      assert Joined(Words(s)) == [s[0]] + "-" + Joined(Words(rest));
      assert [s[0]] + ("-" + Joined(Words(rest)) + Trail(rest)) == [s[0]] + "-" + Joined(Words(rest)) + Trail(rest);
    }
  }

  /** Another character before one like it adds nothing. */
  lemma ShapeInGap(s: string)
    requires |s| > 1 && !SlugChar(s[0]) && !SlugChar(s[1])
    ensures Shape(s) == Shape(s[1..])
  {
    assert s[|s| - 1] == s[1..][|s| - 2];
  }

  lemma ShapeBeforeWord(s: string)
    requires |s| > 1 && !SlugChar(s[0]) && SlugChar(s[1])
    ensures Shape(s) == "-" + Shape(s[1..])
  {
    hide Joined;
    assert s[|s| - 1] == s[1..][|s| - 2];
    assert "-" + (Joined(Words(s)) + Trail(s)) == "-" + Joined(Words(s)) + Trail(s);
  }

  lemma ShapeOfOne(s: string)
    requires |s| == 1
    ensures Shape(s) == if SlugChar(s[0]) then s else "-"
  {
    assert s[1..] == [] && s == [s[0]];
    if SlugChar(s[0]) {
      assert Words(s) == [[s[0]]];
      assert Joined([[s[0]]]) == [s[0]];
      assert Shape(s) == [] + [s[0]] + [];
    } else {
      assert Words(s[1..]) == [];
      assert Words(s) == [] && Joined([]) == [];
      assert Shape(s) == "-" + [] + [];
    }
  }

  /** Replacing every run of other characters by a hyphen joins the words, with one more
      hyphen at an end where the string does not end in a word. */
  lemma {:induction false} HyphensJoinWords(s: string)
    ensures HyphenateOthers(s) == Shape(s)
  {
    hide Shape;
    if s == [] {
      NoShape();
    } else if |s| == 1 {
      ShapeOfOne(s);
      HyphenatedOne(s[0]);
      assert s == [s[0]];
    } else {
      HyphensJoinWords(s[1..]);
      if SlugChar(s[0]) {
        if SlugChar(s[1]) {
          ShapeInWord(s);
        } else {
          ShapeBeforeGap(s);
        }
      } else if SlugChar(s[1]) {
        ShapeBeforeWord(s);
      } else {
        ShapeInGap(s);
      }
    }
  }

  lemma HyphenatedOne(c: char)
    ensures HyphenateOthers([c]) == if SlugChar(c) then [c] else "-"
  {
    assert [c][1..] == [] && HyphenateOthers([c][1..]) == [];
    if SlugChar(c) {
      assert HyphenateOthers([c]) == [c] + [];
    } else {
      assert HyphenateOthers([c]) == "-" + [];
    }
  }

  lemma NoShape()
    ensures Shape([]) == []
  {
  }

  lemma {:induction false} JoinedIsPlain(ws: seq<string>)
    requires forall i :: 0 <= i < |ws| ==> ws[i] != [] && forall k :: 0 <= k < |ws[i]| ==> SlugChar(ws[i][k])
    ensures !HyphenFirst(Joined(ws)) && !HyphenLast(Joined(ws)) && (Joined(ws) == [] <==> ws == [])
  {
    if |ws| > 1 {
      assert forall i :: 0 <= i < |ws[1..]| ==> ws[1..][i] == ws[i + 1];
      JoinedIsPlain(ws[1..]);
    }
  }

  lemma InnerIsJoined(s: string)
    ensures DropOuterHyphens(HyphenateOthers(s)) == Joined(Words(s))
  {
    hide HyphenateOthers, Words, Joined;
    HyphensJoinWords(s);
    WordsAreSolid(s);
    JoinedIsPlain(Words(s));
    var inner := Joined(Words(s));
    if Words(s) == [] {
      assert HyphenateOthers(s) == Lead(s);
    } else {
      assert Lead(s) + inner + Trail(s) == Lead(s) + (inner + Trail(s));
      assert (inner + "-")[..|inner|] == inner;
      assert ("-" + (inner + Trail(s)))[1..] == inner + Trail(s);
    }
  }

  lemma {:induction false} WordsWithoutEnd(s: string)
    requires s != [] && !SlugChar(s[|s| - 1])
    ensures Words(s[..|s| - 1]) == Words(s)
  {
    if |s| > 1 {
      var rest, front := s[1..], s[..|s| - 1];
      WordsWithoutEnd(rest);
      assert rest[..|rest| - 1] == front[1..];
    }
  }

  lemma {:induction false} TrimKeepsWords(s: string)
    ensures Words(TrimLeft(s)) == Words(s) && Words(TrimRight(s)) == Words(s)
    decreases |s|
  {
    if s != [] && IsSpace(s[0]) {
      TrimKeepsWords(s[1..]);
    }
    if s != [] && IsSpace(s[|s| - 1]) {
      TrimKeepsWords(s[..|s| - 1]);
      WordsWithoutEnd(s);
    }
  }

  // ----- theorems

  /** The slug is made of the words of the lower-cased reason with one hyphen between each
      two: all of it if that fits, otherwise its first characters without a hyphen at the end. */
  lemma SlugJoinsWords(reason: string)
    ensures var joined := Joined(Words(LowerCase(reason)));
      && (Words(LowerCase(reason)) == [] ==> Slugify(reason).None?)
      && (Words(LowerCase(reason)) != [] && |joined| <= 64 ==> Slugify(reason) == Some(joined))
      && (|joined| > 64 ==> Slugify(reason) == Some(if joined[63] == '-' then joined[..63] else joined[..64]))
  {
    hide TrimLeft, TrimRight, HyphenateOthers, CollapseHyphens, DropOuterHyphens, Words, Joined, Hyphenated;
    var lower := LowerCase(reason);
    var trimmed := Trim(lower);
    TrimKeepsWords(lower);
    TrimKeepsWords(TrimLeft(lower));
    OthersHyphenated(trimmed);
    HyphenatedIsFixed(HyphenateOthers(trimmed));
    InnerIsJoined(trimmed);
    WordsAreSolid(lower);
    JoinedIsPlain(Words(lower));
    var joined := Joined(Words(lower));
    assert |joined| > 64 ==> joined[..64][..63] == joined[..63];
    assert |joined| > 64 ==> joined[..63] != [];
  }

  /** A reason is refused exactly if it holds no letter or digit; otherwise its slug is
      well formed and keeps the first letters and digits of the reason, in order. */
  lemma SlugMeaning(reason: string)
    ensures Slugify(reason).None? <==> Letters(LowerCase(reason)) == []
    ensures Slugify(reason).Some? ==>
      IsSlug(Slugify(reason).value) && Letters(Slugify(reason).value) <= Letters(LowerCase(reason))
    ensures Slugify(reason).Some? && |Slugify(reason).value| < MAX_SLUG_LENGTH - 1 ==>
      Letters(Slugify(reason).value) == Letters(LowerCase(reason))
  {
    hide Letters, TrimLeft, TrimRight, HyphenateOthers, CollapseHyphens, Hyphenated, DropOuterHyphens;
    var lower := LowerCase(reason);
    var trimmed := Trim(lower);
    TrimKeepsLetters(lower);
    TrimKeepsLetters(TrimLeft(lower));
    var hyphenated := HyphenateOthers(trimmed);
    HyphenateKeepsLetters(trimmed);
    OthersHyphenated(trimmed);
    HyphenatedIsFixed(hyphenated);
    var inner := DropOuterHyphens(hyphenated);
    DropKeepsLetters(hyphenated);
    OuterHyphensDropped(hyphenated);
    NoLettersMeansEmpty(inner);
    SliceKeepsFirstLetters(inner, MAX_SLUG_LENGTH);
    SlicedAndTrimmed(inner, MAX_SLUG_LENGTH);
    DropKeepsLetters(Slice(inner, MAX_SLUG_LENGTH));
  }

  /** Slugs are exactly the fixed points: every well-formed slug is its own slug. */
  lemma SlugsAreFixed(s: string)
    requires IsSlug(s)
    ensures Slugify(s) == Some(s)
  {
    assert LowerCase(s) == s;
    assert TrimLeft(s) == s && TrimRight(s) == s;
    HyphenatedIsFixed(s);
  }

  /** A string is the slug of some reason exactly if it is well formed, and making the
      slug of a slug changes nothing. */
  lemma SlugImageAndIdempotence(s: string, reason: string)
    ensures Slugify(reason) == Some(s) ==> IsSlug(s) && Slugify(s) == Some(s)
    ensures IsSlug(s) ==> exists r :: Slugify(r) == Some(s)
  {
    hide Slugify, IsSlug;
    SlugMeaning(reason);
    if IsSlug(s) {
      SlugsAreFixed(s);
    }
  }

  /** A label is the fixed prefix followed by a well-formed slug and fits the backend's
      limit; it is refused exactly if the reason holds no letter or digit. */
  lemma PolicyLabelExact(reason: string)
    ensures BuildPolicyLabel(reason).EmptySlug? <==> Letters(LowerCase(reason)) == []
    ensures BuildPolicyLabel(reason).Label? ==>
      var built := BuildPolicyLabel(reason);
      IsSlug(built.slug) && built.text == LABEL_PREFIX + built.slug && |built.text| <= 128
  {
    hide Slugify, IsSlug, Letters;
    SlugMeaning(reason);
    if Slugify(reason).Some? {
      SlugLength(Slugify(reason).value);
    }
  }

  lemma SlugLength(s: string)
    requires IsSlug(s)
    ensures |s| <= MAX_SLUG_LENGTH
  {
  }
}
