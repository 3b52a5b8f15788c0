/** The supervisor composed with its children: what a cleanly finished child campaign
    gives the supervisor's own verification, and why a dry run spans one child only. */
module Composition {
  import opened Base
  import opened SyncPrimitives
  import opened RecoveryWarnings
  import opened CampaignPlan
  import opened CampaignMachine
  import opened CampaignSafety
  import opened CampaignTheorems
  import opened CampaignPreview
  import opened SupervisorPlan
  import SupervisorCli
  import Cli = CampaignCli

  // ----- where a child leaves the cursor

  /** The last cursor a campaign read successfully. */
  function LastCursor(log: seq<Event>): Option<Cursor> {
    if log == [] then None
    else
      match log[|log| - 1]
      case CursorRead(Got(cursor)) => cursor
      case _ => LastCursor(log[..|log| - 1])
  }

  function Expected(o: Options, s: State): Option<Cursor> {
    Some(Cursor(o.expectedCursorFrom, s.loop.expectedTo))
  }

  /** What an execute-mode campaign without recovery knows about the last cursor read. */
  predicate CursorKnown(o: Options, s: State, seen: Option<Cursor>) {
    match s.phase
    case WindowGates(_, _) => s.loop.windowsCompleted > 0 ==> seen == Expected(o, s)
    case Submitting(_, request, step) =>
      (match step
       case AwaitRows(_, _, clean) => clean ==> seen == Some(Cursor(o.expectedCursorFrom, request.endBlock))
       case AwaitActiveAfter(_, clean) => clean ==> seen == Some(Cursor(o.expectedCursorFrom, request.endBlock))
       case AwaitResultRecord(_, clean) => clean ==> seen == Some(Cursor(o.expectedCursorFrom, request.endBlock))
       case _ => true)
    case Checking(step) =>
      (match step
       case CheckWritable(ok) => ok ==> seen == Expected(o, s)
       case CheckRecord(ok) => ok ==> seen == Expected(o, s)
       case _ => seen == Expected(o, s))
    case Summarising => seen == Expected(o, s)
    case Stopping(summary) => !summary.reason.Clean()
    case Ended(summary) => summary.reason.Clean() ==> seen == Expected(o, s)
    case _ => true
  }

  function Seen(seen: Option<Cursor>, e: Event): Option<Cursor> {
    match e
    case CursorRead(Got(cursor)) => cursor
    case _ => seen
  }

  lemma GateKeepsCursorKnown(o: Options, s: State, h: History, seen: Option<Cursor>, e: Event)
    requires o.execute && o.recovery.None? && Inv(o, s, h) && s.phase.WindowGates? && CursorKnown(o, s, seen)
    ensures CursorKnown(o, Next(o, s, e), Seen(seen, e))
  {
    hide Progress, Spaced, PlanWindow, IntendedWindow, LabelFits;
  }

  lemma SubmitKeepsCursorKnown(o: Options, s: State, h: History, seen: Option<Cursor>, e: Event)
    requires o.execute && o.recovery.None? && Inv(o, s, h) && s.phase.Submitting? && CursorKnown(o, s, seen)
    ensures CursorKnown(o, Next(o, s, e), Seen(seen, e))
  {
    hide Progress, Spaced, Accepts, ReconciledWith, IntendedWindow, AfterWindowRecord, AfterRecoveryRecord;
    if s.phase.submit.AwaitResultRecord? {
      RecordKeepsCursorKnown(o, s, h, seen, e);
    }
  }

  lemma RecordKeepsCursorKnown(o: Options, s: State, h: History, seen: Option<Cursor>, e: Event)
    requires o.execute && o.recovery.None? && Inv(o, s, h) && CursorKnown(o, s, seen)
    requires s.phase.Submitting? && s.phase.submit.AwaitResultRecord?
    ensures CursorKnown(o, Next(o, s, e), Seen(seen, e))
  {
    hide Progress, Spaced, Accepts, ReconciledWith, IntendedWindow, Budget, NextStart, NextRecoveryGate, NextWindowGate,
      NextCheck;
  }

  lemma CheckKeepsCursorKnown(o: Options, s: State, h: History, seen: Option<Cursor>, e: Event)
    requires o.execute && o.recovery.None? && Inv(o, s, h) && s.phase.Checking? && CursorKnown(o, s, seen)
    ensures CursorKnown(o, Next(o, s, e), Seen(seen, e))
  {
    hide Progress, Spaced, PlannedWithinBoundary, Budget;
  }

  lemma OtherKeepsCursorKnown(o: Options, s: State, h: History, seen: Option<Cursor>, e: Event)
    requires o.execute && o.recovery.None? && Inv(o, s, h) && CursorKnown(o, s, seen)
    requires !s.phase.WindowGates? && !s.phase.Submitting? && !s.phase.Checking?
    ensures CursorKnown(o, Next(o, s, e), Seen(seen, e))
  {
    hide NextWindowGate, NextSubmit, NextCheck, Progress, Spaced, Outcome, EligibleSource;
  }

  lemma {:induction false} CursorAlwaysKnown(o: Options, log: seq<Event>)
    requires Usable(o) && o.execute && o.recovery.None?
    ensures CursorKnown(o, Replay(o, log), LastCursor(log))
  {
    if log != [] {
      var before := log[..|log| - 1];
      CursorAlwaysKnown(o, before);
      EveryRun(o, before);
      hide Next, Inv, CursorKnown;
      var s, h, seen, e := Replay(o, before), HistoryOf(before), LastCursor(before), log[|log| - 1];
      assert LastCursor(log) == Seen(seen, e);
      match s.phase
      case WindowGates(_, _) => GateKeepsCursorKnown(o, s, h, seen, e);
      case Submitting(_, _, _) => SubmitKeepsCursorKnown(o, s, h, seen, e);
      case Checking(_) => CheckKeepsCursorKnown(o, s, h, seen, e);
      case _ => OtherKeepsCursorKnown(o, s, h, seen, e);
    }
  }

  /** A child whose command line parses runs with usable options that fit the cursor it
      was planned from. */
  lemma ParsedChildIsWellPosed(so: SupervisorOptions, cursor: Cursor, number: nat)
    requires SupervisorCli.Parsed(so) && PlanFor(so, cursor, number).Child?
    requires ValidCampaignId(ChildCampaignId(so.campaignIdPrefix, number))
    requires Cli.Parse(SupervisorCli.ChildArguments(so, PlanFor(so, cursor, number).plan)).Ok?
    ensures var o := ChildOptions(so, PlanFor(so, cursor, number).plan);
      && Cli.Parse(SupervisorCli.ChildArguments(so, PlanFor(so, cursor, number).plan)) == Ok(o)
      && Usable(o) && WellPosed(o)
  {
    hide Cli.Parse, SupervisorCli.ChildArguments, LongestLabelFits, CheckOptions;
    SupervisorCli.ChildCommandLineRoundTrip(so, cursor, number);
    PlanPassesChildGates(so, cursor, number);
  }

  // ----- one child, seen from the supervisor

  /** What the supervisor reads back from a child that ended with a summary, handed over
      as a parsed value: exit code zero exactly for the clean reasons. */
  function Reported(summary: Summary): ChildResult {
    ChildResult(if summary.reason.Clean() then 0 else 1, false, Some(summary))
  }

  /** A child that ran with the options of a plan passes the supervisor's verification
      exactly if it completed cleanly; then its last reading of the cursor is the
      boundary the supervisor requires, and its windows tile the planned range. */
  lemma ChildVerifiedIffClean(so: SupervisorOptions, cursor: Cursor, number: nat, log: seq<Event>, summary: Summary)
    requires Acceptable(so) && PlanFor(so, cursor, number).Child?
    requires ValidCampaignId(ChildCampaignId(so.campaignIdPrefix, number))
    requires Usable(ChildOptions(so, PlanFor(so, cursor, number).plan))
    requires Finished(ChildOptions(so, PlanFor(so, cursor, number).plan), log, summary)
    ensures var plan := PlanFor(so, cursor, number).plan; var o := ChildOptions(so, plan);
      && (CleanResult(Reported(summary), so.execute, plan.maxWindows) <==> summary.reason.Clean())
      && (summary.reason.Clean() && so.execute ==>
            && CursorAfterChild(LastCursor(log), plan)
            && HistoryOf(log).posts == IntendedWindows(o, plan.maxWindows))
  {
    hide Replay, HistoryOf, LastCursor, CheckOptions, PlanFor, IntendedWindows;
    var plan := PlanFor(so, cursor, number).plan;
    var o := ChildOptions(so, plan);
    PlanPassesChildGates(so, cursor, number);
    if summary.reason.Clean() {
      CleanMeansComplete(o, log, summary);
      if so.execute {
        CursorAlwaysKnown(o, log);
        FinalCursor(o, log, summary);
      }
    }
  }

  /** A child whose command line parses and whose every answer is favourable passes the
      supervisor's verification of its result, and an executed one of its cursor. */
  lemma FavourableChildIsVerified(so: SupervisorOptions, cursor: Cursor, number: nat, log: seq<Event>, summary: Summary)
    requires SupervisorCli.Parsed(so) && PlanFor(so, cursor, number).Child?
    requires ValidCampaignId(ChildCampaignId(so.campaignIdPrefix, number))
    requires Cli.Parse(SupervisorCli.ChildArguments(so, PlanFor(so, cursor, number).plan)).Ok?
    requires Usable(ChildOptions(so, PlanFor(so, cursor, number).plan))
    requires FavourableRun(ChildOptions(so, PlanFor(so, cursor, number).plan), log)
    requires Finished(ChildOptions(so, PlanFor(so, cursor, number).plan), log, summary)
    ensures CleanResult(Reported(summary), so.execute, PlanFor(so, cursor, number).plan.maxWindows)
    ensures so.execute ==> CursorAfterChild(LastCursor(log), PlanFor(so, cursor, number).plan)
  {
    hide Replay, FavourableRun, WellPosed, CheckOptions, PlanFor, CleanResult, CursorAfterChild, Cli.Parse,
      SupervisorCli.ChildArguments;
    ParsedChildIsWellPosed(so, cursor, number);
    FavourableRunsEndCleanly(ChildOptions(so, PlanFor(so, cursor, number).plan), log, summary);
    ChildVerifiedIffClean(so, cursor, number, log, summary);
  }

  lemma FinalCursor(o: Options, log: seq<Event>, summary: Summary)
    requires Usable(o) && o.execute && o.recovery.None? && Finished(o, log, summary) && summary.reason.Clean()
    requires CursorKnown(o, Replay(o, log), LastCursor(log))
    requires o.maxWindows >= 0 && CheckOptions(o) == Accepted(o.maxWindows)
    ensures LastCursor(log) == Some(Cursor(o.expectedCursorFrom, o.authorizedFinalBlock))
  {
    hide Replay, CheckOptions;
    CleanEdge(o, log, summary);
    CompletedAtBoundary(o, Replay(o, log), LastCursor(log));
  }

  lemma CompletedAtBoundary(o: Options, s: State, seen: Option<Cursor>)
    requires o.maxWindows >= 0 && CheckOptions(o) == Accepted(o.maxWindows)
    requires s.phase.Ended? && s.phase.summary.reason.Clean() && CursorKnown(o, s, seen)
    requires s.loop.expectedTo == Edge(o, EffectiveMaxWindows(o)) - 1
    ensures seen == Some(Cursor(o.expectedCursorFrom, o.authorizedFinalBlock))
  {
  }

  /** After a clean execution the expected cursor is the end of the last window. */
  lemma CleanEdge(o: Options, log: seq<Event>, summary: Summary)
    requires Usable(o) && o.execute && Finished(o, log, summary) && summary.reason.Clean()
    ensures Replay(o, log).loop.expectedTo == Edge(o, EffectiveMaxWindows(o)) - 1
  {
    var before := log[..|log| - 1];
    EveryRun(o, before);
    WindowCountFixed(o, before);
    CleanEndIsRecorded(o, Replay(o, before), log[|log| - 1], summary);
    SummaryKeepsEdge(o, Replay(o, before), HistoryOf(before), log[|log| - 1], summary);
  }

  lemma SummaryKeepsEdge(o: Options, s: State, h: History, e: Event, summary: Summary)
    requires Inv(o, s, h) && o.execute && e == Write(CampaignSummary(summary), true)
    requires Next(o, s, e).phase == Ended(summary) && summary.reason.Clean()
    ensures Next(o, s, e).loop.expectedTo == Edge(o, Budget(o, s.loop)) - 1
  {
    hide Spaced, Outcome, Accepts, ReconciledWith, EligibleSource, PlanWindow;
  }

  // ----- dry runs

  /** Some reading of the cursor showed exactly this value. */
  predicate Sighted(log: seq<Event>, cursor: Cursor) {
    CursorRead(Got(Some(cursor))) in log
  }

  /** Where a campaign can be that has never seen the cursor it expects. */
  predicate Blind(o: Options, s: State) {
    match s.phase
    case Starting(_) => true
    case RecoveryGates(step) => step.AwaitCursor?
    case WindowGates(step, _) => step.AwaitCursor? && s.loop.expectedTo == o.expectedCursorTo
    case Stopping(summary) => !summary.reason.Clean()
    case Ended(summary) => !summary.reason.Clean()
    case Crashed => true
    case Stuck => true
    case _ => false
  }

  lemma GateStaysBlind(o: Options, s: State, h: History, e: Event)
    requires Inv(o, s, h) && Blind(o, s) && s.phase.WindowGates?
    requires e != CursorRead(Got(Some(Cursor(o.expectedCursorFrom, o.expectedCursorTo))))
    ensures Blind(o, Next(o, s, e))
  {
    hide Progress, Spaced, AfterCursor;
  }

  lemma StaysBlind(o: Options, s: State, h: History, e: Event)
    requires Inv(o, s, h) && Blind(o, s) && e != CursorRead(Got(Some(Cursor(o.expectedCursorFrom, o.expectedCursorTo))))
    ensures Blind(o, Next(o, s, e))
  {
    hide NextSubmit, NextCheck, NextWindowGate, Progress, Spaced, Outcome, EligibleSource, CleanOutcome, InvSubmit,
      InvRecovery, InvCounted;
    if s.phase.WindowGates? {
      GateStaysBlind(o, s, h, e);
    }
  }

  lemma {:induction false} UnsightedIsBlind(o: Options, log: seq<Event>)
    requires Usable(o) && !Sighted(log, Cursor(o.expectedCursorFrom, o.expectedCursorTo))
    ensures Blind(o, Replay(o, log))
  {
    hide Next, Inv;
    if log != [] {
      var before := log[..|log| - 1];
      UnsightedIsBlind(o, before);
      EveryRun(o, before);
      StaysBlind(o, Replay(o, before), HistoryOf(before), log[|log| - 1]);
    } else {
      assert Replay(o, log) == Init(o);
    }
  }

  /** No campaign completes cleanly without having read the cursor it was told to expect. */
  lemma CleanRunsSawTheirCursor(o: Options, log: seq<Event>, summary: Summary)
    requires Usable(o) && Finished(o, log, summary) && summary.reason.Clean()
    ensures Sighted(log, Cursor(o.expectedCursorFrom, o.expectedCursorTo))
  {
    hide Replay;
    if !Sighted(log, Cursor(o.expectedCursorFrom, o.expectedCursorTo)) {
      UnsightedIsBlind(o, log);
    }
  }

  /** A run in which every reading shows the live cursor and everything else goes well. */
  predicate LiveRun(o: Options, live: Cursor, log: seq<Event>)
    requires Usable(o)
  {
    log != [] ==>
      && LiveRun(o, live, log[..|log| - 1])
      && if log[|log| - 1].CursorRead? then log[|log| - 1] == CursorRead(Got(Some(live)))
         else Favourable(o, Replay(o, log[..|log| - 1]), log[|log| - 1])
  }

  predicate DryState(o: Options, s: State) {
    !s.phase.Submitting? && s.loop.expectedTo == o.expectedCursorTo
  }

  lemma StaysDry(o: Options, s: State, e: Event)
    requires Usable(o) && !o.execute && DryState(o, s)
    ensures DryState(o, Next(o, s, e))
  {
    hide NextSubmit, EligibleSource, PlanWindow, CursorMatches, LabelFits, ForwardAdjacent, PlanningEdge,
      PlannedWithinBoundary, IntendedRecovery, EffectiveFirstWindowStart, Budget, CheckOptions;
  }

  lemma {:induction false} LiveDryRunIsFavourable(o: Options, live: Cursor, log: seq<Event>)
    requires Usable(o) && !o.execute && live == Cursor(o.expectedCursorFrom, o.expectedCursorTo)
    requires LiveRun(o, live, log)
    ensures FavourableRun(o, log) && DryState(o, Replay(o, log))
  {
    hide Next, CheckOptions;
    if log != [] {
      var before := log[..|log| - 1];
      LiveDryRunIsFavourable(o, live, before);
      StaysDry(o, Replay(o, before), log[|log| - 1]);
    } else {
      assert Replay(o, log) == Init(o);
    }
  }

  lemma {:induction false} LiveRunSightsOnlyLive(o: Options, live: Cursor, log: seq<Event>, cursor: Cursor)
    requires Usable(o) && LiveRun(o, live, log) && Sighted(log, cursor)
    ensures cursor == live
  {
    hide CheckOptions, Favourable, Replay;
    if log[|log| - 1] != CursorRead(Got(Some(cursor))) {
      assert log == log[..|log| - 1] + [log[|log| - 1]];
      LiveRunSightsOnlyLive(o, live, log[..|log| - 1], cursor);
    }
  }

  /** A dry child for which everything but the cursor goes well passes the supervisor's
      verification exactly if the live cursor is the one it was planned from. */
  lemma DryChildVerifiedIffPlannedFromLiveCursor(
      so: SupervisorOptions, cursor: Cursor, number: nat, live: Cursor, log: seq<Event>, summary: Summary)
    requires Acceptable(so) && !so.execute && PlanFor(so, cursor, number).Child?
    requires ValidCampaignId(ChildCampaignId(so.campaignIdPrefix, number))
    requires Usable(ChildOptions(so, PlanFor(so, cursor, number).plan))
    requires WellPosed(ChildOptions(so, PlanFor(so, cursor, number).plan))
    requires LiveRun(ChildOptions(so, PlanFor(so, cursor, number).plan), live, log)
    requires Finished(ChildOptions(so, PlanFor(so, cursor, number).plan), log, summary)
    ensures CleanResult(Reported(summary), false, PlanFor(so, cursor, number).plan.maxWindows) <==> live == cursor
  {
    hide Replay, FavourableRun, LiveRun, CleanResult, WellPosed, CheckOptions, PlanFor;
    var o := ChildOptions(so, PlanFor(so, cursor, number).plan);
    ChildVerifiedIffClean(so, cursor, number, log, summary);
    PlannedFrom(so, cursor, number);
    if summary.reason.Clean() {
      CleanRunsSawTheirCursor(o, log, summary);
      LiveRunSightsOnlyLive(o, live, log, cursor);
    }
    if live == cursor {
      LiveDryRunIsFavourable(o, live, log);
      FavourableRunsEndCleanly(o, log, summary);
    }
  }

  lemma PlannedFrom(so: SupervisorOptions, cursor: Cursor, number: nat)
    requires Acceptable(so) && PlanFor(so, cursor, number).Child?
    ensures var o := ChildOptions(so, PlanFor(so, cursor, number).plan);
      Cursor(o.expectedCursorFrom, o.expectedCursorTo) == cursor
  {
  }

  /** The children of a dry run are all planned from the live cursor exactly if one
      child covers the whole remaining span; otherwise the second one is already planned
      from a simulated cursor that differs from the live one. */
  lemma DryRunSpansOneChild(so: SupervisorOptions, live: Cursor, number: nat)
    requires Acceptable(so) && Reachable(so, live) && live.toBlock < so.authorizedFinalBlock
    ensures var plans := Children(so, live, number);
      && plans != [] && StartOf(plans[0]) == live
      && (RemainingWindows(so, live) <= so.campaignMaxWindows <==> |plans| == 1)
      && (|plans| > 1 ==> StartOf(plans[1]).toBlock > live.toBlock)
  {
    PlanRefusedIff(live, so.windowSize, so.campaignMaxWindows, so.authorizedFinalBlock, number);
    var plan := PlanFor(so, live, number).plan;
    var next := Cursor(live.fromBlock, plan.finalBlock);
    assert Children(so, live, number) == [plan] + Children(so, next, number + 1);
    assert RemainingWindows(so, live) >= 1;
    assert plan.maxWindows == Min(RemainingWindows(so, live), so.campaignMaxWindows);
    assert plan.finalBlock == live.toBlock + REQUIRED_WINDOW_SIZE * plan.maxWindows;
    if plan.finalBlock < so.authorizedFinalBlock {
      PlanRefusedIff(next, so.windowSize, so.campaignMaxWindows, so.authorizedFinalBlock, number + 1);
    }
  }
}
