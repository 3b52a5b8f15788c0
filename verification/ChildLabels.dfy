/** Policy labels across child campaigns: reading child numbers back from persisted
    labels, and the freshness of every text a resumed supervisor can produce. */
module ChildLabels {
  import opened Base
  import opened CampaignPlan
  import opened SupervisorPlan
  import opened Decimal

  /** The label of one window of one child. */
  function ChildWindowLabel(policyPrefix: string, idPrefix: string, child: nat, window: nat): string {
    WindowLabel(policyPrefix, ChildCampaignId(idPrefix, child), window)
  }

  function LabelStem(policyPrefix: string, idPrefix: string): string {
    policyPrefix + "-" + idPrefix + "-c"
  }

  /** The language of `^<stem>(\d+)-w\d+$`, with its first group. */
  ghost predicate MatchesChildLabel(policyPrefix: string, idPrefix: string, text: string, child: string) {
    && IsNumeral(child)
    && exists window :: IsNumeral(window) && text == LabelStem(policyPrefix, idPrefix) + child + "-w" + window
  }

  /** The length of the longest run of digits at the start of a string. */
  function DigitRun(s: string): (n: nat)
    ensures n <= |s| && AllDigits(s[..n])
    ensures n < |s| ==> !IsDigit(s[n])
  {
    if s != [] && IsDigit(s[0]) then
      var n := DigitRun(s[1..]);
      assert s[..n + 1] == [s[0]] + s[1..][..n];
      n + 1
    else 0
  }

  /** Executes the expression on a label: the digits of its first group, if it matches. */
  function ChildDigits(policyPrefix: string, idPrefix: string, text: string): (r: Option<string>)
    ensures r.Some? ==> IsNumeral(r.value)
  {
    var stem := LabelStem(policyPrefix, idPrefix);
    if !(stem <= text) then None
    else
      var rest := text[|stem|..];
      var n := DigitRun(rest);
      if n == 0 || |rest| < n + 2 || rest[n..n + 2] != "-w" || !IsNumeral(rest[n + 2..]) then None
      else Some(rest[..n])
  }

  lemma DigitRunOf(child: string, tail: string)
    requires AllDigits(child) && (tail == [] || !IsDigit(tail[0]))
    ensures DigitRun(child + tail) == |child|
  {
    if child != [] {
      assert (child + tail)[1..] == child[1..] + tail;
      DigitRunOf(child[1..], tail);
    } else {
      assert child + tail == tail;
    }
  }

  /** The matcher finds the group exactly when the expression matches, and the group
      is unique. */
  lemma ChildDigitsExact(policyPrefix: string, idPrefix: string, text: string, child: string)
    ensures ChildDigits(policyPrefix, idPrefix, text) == Some(child)
      <==> MatchesChildLabel(policyPrefix, idPrefix, text, child)
  {
    if ChildDigits(policyPrefix, idPrefix, text) == Some(child) {
      FoundMatches(policyPrefix, idPrefix, text, child);
    }
    if MatchesChildLabel(policyPrefix, idPrefix, text, child) {
      var window :| IsNumeral(window) && text == LabelStem(policyPrefix, idPrefix) + child + "-w" + window;
      MatchIsFound(policyPrefix, idPrefix, child, window);
    }
  }

  lemma FoundMatches(policyPrefix: string, idPrefix: string, text: string, child: string)
    requires ChildDigits(policyPrefix, idPrefix, text) == Some(child)
    ensures MatchesChildLabel(policyPrefix, idPrefix, text, child)
  {
    var stem := LabelStem(policyPrefix, idPrefix);
    var rest := text[|stem|..];
    var n := DigitRun(rest);
    var window := rest[n + 2..];
    assert rest == rest[..n] + rest[n..n + 2] + window;
    assert text == stem + rest;
    assert text == stem + child + "-w" + window;
  }

  lemma MatchIsFound(policyPrefix: string, idPrefix: string, child: string, window: string)
    requires IsNumeral(child) && IsNumeral(window)
    ensures ChildDigits(policyPrefix, idPrefix, LabelStem(policyPrefix, idPrefix) + child + "-w" + window)
      == Some(child)
  {
    var stem, tail := LabelStem(policyPrefix, idPrefix), "-w" + window;
    var text := stem + child + "-w" + window;
    hide LabelStem;
    assert text == stem + (child + tail);
    assert text[|stem|..] == child + tail;
    DigitRunOf(child, tail);
    assert (child + tail)[|child|..|child| + 2] == "-w";
    assert (child + tail)[|child| + 2..] == window;
    assert (child + tail)[..|child|] == child;
  }

  /** Every child number found among the labels is below `start`. */
  ghost predicate SafeStart(existing: seq<string>, policyPrefix: string, idPrefix: string, start: nat) {
    forall i, child :: 0 <= i < |existing| && MatchesChildLabel(policyPrefix, idPrefix, existing[i], child)
      ==> Read(child) < start
  }

  /** Some label carries this child number. */
  ghost predicate Used(existing: seq<string>, policyPrefix: string, idPrefix: string, number: nat) {
    exists i, child ::
      0 <= i < |existing| && MatchesChildLabel(policyPrefix, idPrefix, existing[i], child) && Read(child) == number
  }

  /** The largest child number among the labels, or zero. */
  function LargestNumber(existing: seq<string>, policyPrefix: string, idPrefix: string): nat {
    if existing == [] then 0
    else
      var largest := LargestNumber(existing[..|existing| - 1], policyPrefix, idPrefix);
      match ChildDigits(policyPrefix, idPrefix, existing[|existing| - 1])
      case None => largest
      case Some(digits) => if Read(digits) > largest then Read(digits) else largest
  }

  function StartingNumber(existing: seq<string>, policyPrefix: string, idPrefix: string): nat {
    LargestNumber(existing, policyPrefix, idPrefix) + 1
  }

  /** The child number a fresh supervisor starts from: one past the largest child
      number found among the persisted labels. */
  method StartingChildNumber(existing: seq<string>, policyPrefix: string, idPrefix: string) returns (start: nat)
    ensures start >= 1
    ensures SafeStart(existing, policyPrefix, idPrefix, start)
    ensures start > 1 ==> Used(existing, policyPrefix, idPrefix, start - 1)
    ensures start == StartingNumber(existing, policyPrefix, idPrefix)
  {
    hide ChildDigits, SafeStart, Used;
    var largest := 0;
    var i := 0;
    while i < |existing|
      invariant 0 <= i <= |existing|
      invariant largest == LargestNumber(existing[..i], policyPrefix, idPrefix)
    {
      assert existing[..i + 1][..i] == existing[..i];
      var digits := ChildDigits(policyPrefix, idPrefix, existing[i]);
      if digits.Some? && Read(digits.value) > largest {
        largest := Read(digits.value);
      }
      i := i + 1;
    }
    assert existing[..i] == existing;
    start := largest + 1;
    StartingNumberIsSafe(existing, policyPrefix, idPrefix);
    LargestIsUsed(existing, policyPrefix, idPrefix);
  }

  lemma {:induction false} LargestIsUsed(existing: seq<string>, policyPrefix: string, idPrefix: string)
    ensures var largest := LargestNumber(existing, policyPrefix, idPrefix);
      largest > 0 ==> Used(existing, policyPrefix, idPrefix, largest)
  {
    hide ChildDigits;
    if existing != [] {
      var front, last := existing[..|existing| - 1], existing[|existing| - 1];
      LargestIsUsed(front, policyPrefix, idPrefix);
      var digits := ChildDigits(policyPrefix, idPrefix, last);
      if digits.Some? && Read(digits.value) > LargestNumber(front, policyPrefix, idPrefix) {
        ChildDigitsExact(policyPrefix, idPrefix, last, digits.value);
      } else if LargestNumber(front, policyPrefix, idPrefix) > 0 {
        var i, child :| 0 <= i < |front| && MatchesChildLabel(policyPrefix, idPrefix, front[i], child)
          && Read(child) == LargestNumber(front, policyPrefix, idPrefix);
        assert existing[i] == front[i];
      }
    }
  }

  lemma LabelSplit(policyPrefix: string, idPrefix: string, child: nat, window: nat)
    ensures ChildWindowLabel(policyPrefix, idPrefix, child, window)
         == LabelStem(policyPrefix, idPrefix) + Print(child) + "-w" + Print(window)
  {
  }

  /** No label of any window of any child numbered from the starting number upward is
      among the persisted labels. */
  lemma LabelsAreFresh(
      existing: seq<string>, policyPrefix: string, idPrefix: string, start: nat, child: nat, window: nat)
    requires SafeStart(existing, policyPrefix, idPrefix, start) && child >= start
    ensures ChildWindowLabel(policyPrefix, idPrefix, child, window) !in existing
  {
    var text := ChildWindowLabel(policyPrefix, idPrefix, child, window);
    LabelSplit(policyPrefix, idPrefix, child, window);
    assert MatchesChildLabel(policyPrefix, idPrefix, text, Print(child));
    ReadPrint(child);
  }

  /** The starting number is past every child number among the labels. */
  lemma {:induction false} StartingNumberIsSafe(existing: seq<string>, policyPrefix: string, idPrefix: string)
    ensures SafeStart(existing, policyPrefix, idPrefix, StartingNumber(existing, policyPrefix, idPrefix))
  {
    if existing != [] {
      var front, last := existing[..|existing| - 1], existing[|existing| - 1];
      StartingNumberIsSafe(front, policyPrefix, idPrefix);
      forall i, child | 0 <= i < |existing| && MatchesChildLabel(policyPrefix, idPrefix, existing[i], child)
        ensures Read(child) < StartingNumber(existing, policyPrefix, idPrefix)
      {
        ChildDigitsExact(policyPrefix, idPrefix, existing[i], child);
        if i < |existing| - 1 {
          assert front[i] == existing[i];
        }
      }
    }
  }

  /** Distinct (child, window) pairs carry distinct labels. */
  lemma LabelsAreInjective(policyPrefix: string, idPrefix: string, c1: nat, w1: nat, c2: nat, w2: nat)
    requires ChildWindowLabel(policyPrefix, idPrefix, c1, w1) == ChildWindowLabel(policyPrefix, idPrefix, c2, w2)
    ensures c1 == c2 && w1 == w2
  {
    var text := ChildWindowLabel(policyPrefix, idPrefix, c1, w1);
    LabelSplit(policyPrefix, idPrefix, c1, w1);
    LabelSplit(policyPrefix, idPrefix, c2, w2);
    assert MatchesChildLabel(policyPrefix, idPrefix, text, Print(c1));
    assert MatchesChildLabel(policyPrefix, idPrefix, text, Print(c2));
    ChildDigitsExact(policyPrefix, idPrefix, text, Print(c1));
    ChildDigitsExact(policyPrefix, idPrefix, text, Print(c2));
    PrintInjective(c1, c2);
    var stem := LabelStem(policyPrefix, idPrefix) + Print(c1) + "-w";
    assert text[|stem|..] == Print(w1);
    assert text[|stem|..] == Print(w2);
    PrintInjective(w1, w2);
  }

  /** A child number whose campaign id is still well formed is below ten to the 62. */
  lemma ValidChildIdBoundsNumber(idPrefix: string, number: nat)
    requires ValidCampaignId(idPrefix) && ValidCampaignId(ChildCampaignId(idPrefix, number))
    ensures number < Pow10(62)
  {
    PrintLengthBound(number, 62);
  }
}
