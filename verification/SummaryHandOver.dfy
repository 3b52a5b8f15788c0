/** Handing a child's summary to its supervisor through standard output: the child prints
    it, the supervisor parses the last line that is not blank. */
module SummaryHandOver {
  import opened Base
  import opened CommandLine
  import opened SupervisorPlan
  import opened SupervisorMachine
  import opened SupervisorTheorems
  import Child = CampaignMachine
  import Campaign = CampaignPlan
  import ChildLabels

  /** `split("\n")`. */
  function Lines(s: string): (lines: seq<string>)
    ensures lines != []
  {
    if s == [] then [[]]
    else if s[0] == '\n' then [[]] + Lines(s[1..])
    else
      var rest := Lines(s[1..]);
      [[s[0]] + rest[0]] + rest[1..]
  }

  function NonBlank(lines: seq<string>): seq<string> {
    if lines == [] then []
    else (if Blank(lines[0]) then [] else [lines[0]]) + NonBlank(lines[1..])
  }

  /** The line the supervisor parses; None when there is no output. */
  function LastLine(stdout: string): Option<string> {
    var lines := NonBlank(Lines(Trim(stdout)));
    if lines == [] then None else Some(lines[|lines| - 1])
  }

  /** An object printed with an indentation of two: braces on lines of their own. */
  function Indented(body: string): string {
    "{\n" + body + "\n}"
  }

  // ----- the last line of a text

  lemma {:induction false} LastOfLines(s: string, t: string)
    requires '\n' !in t
    ensures |Lines(s + "\n" + t)| >= 2 && Last(Lines(s + "\n" + t), 1) == t
  {
    if s == [] {
      assert (s + "\n" + t)[1..] == t;
      OneLine(t);
    } else {
      assert (s + "\n" + t)[1..] == s[1..] + "\n" + t;
      LastOfLines(s[1..], t);
    }
  }

  lemma {:induction false} OneLine(t: string)
    requires '\n' !in t
    ensures Lines(t) == [t]
  {
    if t != [] {
      assert t == [t[0]] + t[1..];
      OneLine(t[1..]);
    }
  }

  lemma {:induction false} LastNonBlank(lines: seq<string>)
    requires lines != [] && !Blank(lines[|lines| - 1])
    ensures NonBlank(lines) != [] && Last(NonBlank(lines), 1) == Last(lines, 1)
  {
    if |lines| > 1 {
      LastNonBlank(lines[1..]);
    }
  }

  lemma {:induction false} NoLineHoldsABreak(s: string)
    ensures forall i :: 0 <= i < |Lines(s)| ==> '\n' !in Lines(s)[i]
  {
    if s != [] {
      NoLineHoldsABreak(s[1..]);
    }
  }

  lemma {:induction false} NonBlankSelects(lines: seq<string>)
    ensures forall i :: 0 <= i < |NonBlank(lines)| ==> NonBlank(lines)[i] in lines
  {
    if lines != [] {
      NonBlankSelects(lines[1..]);
    }
  }

  /** Trimming removes white space after a text that ends in something else. */
  lemma {:induction false} TrimRightOf(s: string, space: string)
    requires Blank(space) && s != [] && !IsSpace(s[|s| - 1])
    ensures TrimRight(s + space) == s
  {
    if space == [] {
      assert s + space == s;
    } else {
      assert (s + space)[..|s + space| - 1] == s + space[..|space| - 1];
      TrimRightOf(s, space[..|space| - 1]);
    }
  }

  lemma {:induction false} TrimLeftIsSuffix(s: string, t: string)
    requires t != [] && !IsSpace(t[0])
    ensures |TrimLeft(s + t)| >= |t|
    ensures exists u :: TrimLeft(s + t) == u + t
  {
    if s == [] {
      assert s + t == t == [] + t;
    } else if IsSpace(s[0]) {
      assert (s + t)[1..] == s[1..] + t;
      TrimLeftIsSuffix(s[1..], t);
    } else {
      assert TrimLeft(s + t) == s + t;
    }
  }

  // ----- theorems

  /** An indented summary never arrives: whatever else the child printed before it, the
      line the supervisor parses is the closing brace alone. */
  lemma IndentedSummaryIsLost(before: string, body: string)
    ensures LastLine(before + Indented(body) + "\n") == Some("}")
  {
    hide Lines, NonBlank, TrimLeft, TrimRight, Blank;
    TrimLeftIsSuffix(before, Indented(body) + "\n");
    assert before + Indented(body) + "\n" == before + (Indented(body) + "\n");
    var u :| TrimLeft(before + Indented(body) + "\n") == u + (Indented(body) + "\n");
    var text := u + Indented(body);
    assert u + (Indented(body) + "\n") == text + "\n";
    assert text[|text| - 1] == '}';
    BraceAndBreak();
    TrimRightOf(text, "\n");
    assert text == (u + "{\n" + body) + "\n" + "}";
    LastOfLines(u + "{\n" + body, "}");
    LastNonBlank(Lines(text));
  }

  lemma BraceAndBreak()
    ensures !Blank("}") && Blank("\n")
  {
    assert !IsSpace("}"[0]);
  }

  /** A summary printed alone arrives whole exactly if it is printed on one line. */
  lemma SummaryArrivesIffOneLine(text: string)
    requires text != [] && Trimmed(text)
    ensures LastLine(text + "\n") == Some(text) <==> '\n' !in text
  {
    hide Lines, NonBlank;
    assert TrimLeft(text + "\n") == text + "\n";
    TrimRightOf(text, "\n");
    NoLineHoldsABreak(text);
    NonBlankSelects(Lines(text));
    if '\n' !in text {
      OneLine(text);
      assert !Blank(text) by { assert !IsSpace(text[0]); }
      LastNonBlank(Lines(text));
    }
  }

  // ----- a supervision whose children print indented summaries

  /** What the supervisor makes of a child's output, given what it makes of one line. */
  function ReadSummary(parse: string -> Option<Child.Summary>, stdout: string): Option<Child.Summary> {
    match LastLine(stdout)
    case None => None
    case Some(line) => parse(line)
  }

  /** The summary of this result was read from an output that ends in an indented object. */
  ghost predicate ReadFromIndented(parse: string -> Option<Child.Summary>, result: ChildResult) {
    exists before, body :: result.summary == ReadSummary(parse, before + Indented(body) + "\n")
  }

  ghost predicate ChildrenIndent(parse: string -> Option<Child.Summary>, log: seq<Event>) {
    forall i :: 0 <= i < |log| && log[i].Spawn? && log[i].result.Got? ==> ReadFromIndented(parse, log[i].result.value)
  }

  predicate NothingRead(e: Event) {
    e.Spawn? && e.result.Got? ==> e.result.value.summary.None?
  }

  lemma IndentedIsNotRead(parse: string -> Option<Child.Summary>, log: seq<Event>, i: nat)
    requires parse("}").None? && ChildrenIndent(parse, log) && i < |log|
    ensures NothingRead(log[i])
  {
    hide LastLine, Indented;
    if log[i].Spawn? && log[i].result.Got? {
      var result := log[i].result.value;
      var before, body :| result.summary == ReadSummary(parse, before + Indented(body) + "\n");
      IndentedSummaryIsLost(before, body);
    }
  }

  /** The reasons for which a supervision ends after a spawn that gave it no summary. */
  predicate BlamesChild(reason: StopReason) {
    || reason.ChildProcessSpawnFailed? || reason.ChildProcessAmbiguousTermination? || reason.ChildResultNotClean?
    || reason.EvidenceAppendFailed?
  }

  /** Where a supervision can be whose children give it no summaries. */
  predicate Unfruitful(s: State, h: History) {
    && h.succeeded == [] && |h.spawned| <= 1 && s.completed == 0
    && match s.phase
       case AwaitCursorAfter(_, _) => false
       case AwaitSuccessRecord(_) => false
       case AwaitFinalRecord => false
       case AwaitFailureRecord(_, reason) => BlamesChild(reason)
       case Stopping(summary) => Fruitless(summary, h)
       case Ended(summary) => Fruitless(summary, h)
       case Crashed => true
       case Stuck => true
       case _ => h.spawned == []
  }

  predicate Fruitless(summary: Summary, h: History) {
    && summary.childrenCompleted == 0
    && !summary.reason.AuthorizedFinalBlockReached?
    && (h.spawned != [] ==> BlamesChild(summary.reason))
  }

  lemma StaysUnfruitful(so: SupervisorOptions, s: State, h: History, e: Event)
    requires Acceptable(so) && Unfruitful(s, h) && NothingRead(e)
    ensures Unfruitful(Next(so, s, e), Observe(h, e)) || Next(so, s, e).phase == Stuck
  {
    hide PlanFor, PriorOperationClean, CursorAfterChild, Campaign.ValidCampaignId, ChildCampaignId,
      ChildLabels.StartingNumber;
  }

  lemma {:induction false} AlwaysUnfruitful(so: SupervisorOptions, log: seq<Event>)
    requires Acceptable(so) && Follows(so, log) && forall i :: 0 <= i < |log| ==> NothingRead(log[i])
    ensures Unfruitful(Replay(so, log), HistoryOf(log))
  {
    hide Next, Unfruitful, NothingRead;
    if log != [] {
      var front, e := log[..|log| - 1], log[|log| - 1];
      StuckStays(so, Replay(so, front), e);
      AlwaysUnfruitful(so, front);
      StaysUnfruitful(so, Replay(so, front), HistoryOf(front), e);
    } else {
      NothingYet();
    }
  }

  lemma NothingYet()
    ensures Unfruitful(INIT, History([], []))
  {
  }

  /** A supervision of children that print indented summaries, whatever else they print
      and however they exit: no child ever counts, at most one is spawned, the target is
      never reported as reached, and a supervision that spawned one ends by blaming it or
      by failing to record it. The closing brace alone is no summary for any parser. */
  lemma IndentedChildrenNeverCount(so: SupervisorOptions, log: seq<Event>, parse: string -> Option<Child.Summary>)
    requires Acceptable(so) && Follows(so, log) && parse("}").None? && ChildrenIndent(parse, log)
    ensures HistoryOf(log).succeeded == [] && |HistoryOf(log).spawned| <= 1
    ensures forall summary :: Finished(so, log, summary) ==>
      && summary.childrenCompleted == 0 && !summary.reason.AuthorizedFinalBlockReached?
      && (HistoryOf(log).spawned != [] ==> BlamesChild(summary.reason))
  {
    hide Replay, HistoryOf, NothingRead, BlamesChild;
    forall i | 0 <= i < |log| ensures NothingRead(log[i]) {
      IndentedIsNotRead(parse, log, i);
    }
    AlwaysUnfruitful(so, log);
  }
}
