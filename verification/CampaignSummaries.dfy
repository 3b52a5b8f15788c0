/** What the summary of a campaign reports beside its reason: the recovery and the number
    of the last window, each read back from the log. */
module CampaignSummaries {
  import opened Base
  import opened SyncPrimitives
  import opened RecoveryWarnings
  import opened CampaignPlan
  import opened CampaignMachine
  import opened CampaignSafety
  import opened CampaignTheorems
  import opened CampaignStart

  // ----- how far the recovery has come

  /** A source run that authorises the recovery was read. */
  predicate Authorises(o: Options, walletId: string, e: Event) {
    && o.recovery.Some? && e.SourceRunRead? && e.run.Got?
    && EligibleSource(e.run.value, o.recovery.value, Expectation(walletId, o.chainId, IntendedRecovery(o)))
  }

  predicate SourceAccepted(o: Options, log: seq<Event>) {
    exists i :: 0 <= i < |log| && Authorises(o, WalletOf(log), log[i])
  }

  /** A record, durable or not, calls the recovered window clean. */
  predicate JudgesClean(e: Event) {
    e.Write? && e.record.RecoveryResult? && e.record.clean
  }

  predicate JudgedClean(log: seq<Event>) {
    exists i :: 0 <= i < |log| && JudgesClean(log[i])
  }

  /** The recovery is durably recorded: as verified or, in a dry run, as planned. */
  predicate Settles(e: Event) {
    e.Write? && e.acknowledged && (e.record.RecoveryPlanned? || (e.record.RecoveryResult? && e.record.clean))
  }

  predicate RecoverySettled(log: seq<Event>) {
    exists i :: 0 <= i < |log| && Settles(log[i])
  }

  predicate StartRecorded(log: seq<Event>) {
    |log| > 4 && log[4] == Write(CampaignStart, true)
  }

  lemma SeenSnoc(o: Options, log: seq<Event>, e: Event)
    ensures JudgedClean(log + [e]) <==> JudgedClean(log) || JudgesClean(e)
    ensures RecoverySettled(log + [e]) <==> RecoverySettled(log) || Settles(e)
    ensures |log| > 3 ==>
      (SourceAccepted(o, log + [e]) <==> SourceAccepted(o, log) || Authorises(o, WalletOf(log), e))
    ensures |log| > 4 ==> (StartRecorded(log + [e]) <==> StartRecorded(log))
    ensures |log| > 3 ==> WalletOf(log + [e]) == WalletOf(log)
  {
    hide Authorises, JudgesClean, Settles;
    var log' := log + [e];
    assert forall i :: 0 <= i < |log| ==> log'[i] == log[i];
    assert log'[|log|] == e;
    if JudgedClean(log) {
      var i :| 0 <= i < |log| && JudgesClean(log[i]);
      assert JudgesClean(log'[i]);
    }
    if RecoverySettled(log) {
      var i :| 0 <= i < |log| && Settles(log[i]);
      assert Settles(log'[i]);
    }
    if |log| > 3 && SourceAccepted(o, log) {
      var i :| 0 <= i < |log| && Authorises(o, WalletOf(log), log[i]);
      assert Authorises(o, WalletOf(log'), log'[i]);
    }
  }

  // ----- what a summary must say

  /** Without a recovery, or before the start was recorded, nothing is reported about one.
      While it is not settled, the report says whether its source was accepted and whether
      it was judged clean. Once it is settled, only a campaign that comes to its summary
      reports it: as recovered or, in a dry run, as eligible. */
  function ReportDue(o: Options, log: seq<Event>): Option<RecoveryReport> {
    if o.recovery.None? || !StartRecorded(log) then None
    else if !RecoverySettled(log) then Some(RecoveryReport(SourceAccepted(o, log), JudgedClean(log)))
    else if log != [] && Last(log, 1).Write? && Last(log, 1).record.CampaignSummary? then
      Some(RecoveryReport(true, o.execute))
    else None
  }

  /** The number of the last window that was counted or, in a dry run, planned; where a
      window was recorded as unclean, its own. */
  function NumberDue(o: Options, h: History, reason: StopReason): Option<nat> {
    var k := |h.completed| + |h.planned|;
    if reason.InvariantFailedAfterRun? then Some(FirstOrdinaryNumber(o) + k)
    else if k == 0 then None
    else Some(FirstOrdinaryNumber(o) + k - 1)
  }

  predicate ReportKept(o: Options, s: State, log: seq<Event>) {
    match s.phase
    case Starting(_) => s.loop.recovery.None? && |log| <= 4 && !RecoverySettled(log)
    case RecoveryGates(step) =>
      && |log| > 4 && StartRecorded(log) && s.walletId == WalletOf(log)
      && !RecoverySettled(log) && !JudgedClean(log)
      && s.loop.recovery == Some(RecoveryReport(!step.AwaitCursor? && !step.AwaitSource?, false))
      && SourceAccepted(o, log) == s.loop.recovery.value.eligible
    case Submitting(RecoveryWindow, _, step) =>
      && |log| > 4 && StartRecorded(log) && !RecoverySettled(log) && !JudgedClean(log) && SourceAccepted(o, log)
      && s.loop.recovery == Some(RecoveryReport(true, step.AwaitResultRecord? && step.clean))
    case Stopping(summary) =>
      && summary.recovery == ReportDue(o, log)
      && (log != [] ==> !(Last(log, 1).Write? && Last(log, 1).record.CampaignSummary?))
    case Ended(summary) => summary.recovery == ReportDue(o, log)
    case Crashed => true
    case Stuck => true
    case _ =>
      && |log| > 4 && StartRecorded(log)
      && RecoverySettled(log) == o.recovery.Some?
      && s.loop.recovery == if o.recovery.Some? then Some(RecoveryReport(true, o.execute)) else None
  }

  lemma ReportStart(o: Options, s: State, log: seq<Event>, e: Event)
    requires o.windowSize > 0 && o.checkpointInterval > 0 && s.phase.Starting? && ReportKept(o, s, log)
    requires Baseline(s, log)
    ensures ReportKept(o, Next(o, s, e), log + [e]) || Next(o, s, e).phase == Stuck
  {
    hide EligibleSource, IntendedRecovery, NextRecoveryGate, NextWindowGate, NextSubmit, NextCheck;
    SeenSnoc(o, log, e);
    NothingRead(o, s, log);
  }

  /** The interactions of the start read no source run and judge nothing. */
  lemma NothingRead(o: Options, s: State, log: seq<Event>)
    requires s.phase.Starting? && Baseline(s, log)
    ensures !SourceAccepted(o, log) && !JudgedClean(log)
  {
    forall i | 0 <= i < |log| ensures !log[i].SourceRunRead? && !log[i].Write? {
      assert StartAnswer(s, log[i], i);
    }
  }

  lemma ReportAtRecoveryGate(o: Options, s: State, h: History, log: seq<Event>, e: Event)
    requires Usable(o) && Inv(o, s, h) && s.phase.RecoveryGates? && ReportKept(o, s, log)
    ensures ReportKept(o, Next(o, s, e), log + [e]) || Next(o, s, e).phase == Stuck
  {
    hide EligibleSource, IntendedRecovery, NextStart, NextWindowGate, NextSubmit, NextCheck, SourceAccepted,
      JudgedClean, RecoverySettled, StartRecorded, CheckOptions, WalletOf;
    SeenSnoc(o, log, e);
  }

  lemma ReportInRecovery(o: Options, s: State, h: History, log: seq<Event>, e: Event)
    requires Usable(o) && Inv(o, s, h) && s.phase.Submitting? && s.phase.target.RecoveryWindow? && ReportKept(o, s, log)
    ensures ReportKept(o, Next(o, s, e), log + [e]) || Next(o, s, e).phase == Stuck
  {
    hide EligibleSource, IntendedRecovery, NextStart, NextRecoveryGate, NextWindowGate, NextCheck, SourceAccepted,
      JudgedClean, RecoverySettled, StartRecorded, CheckOptions, WalletOf, Accepts, ReconciledWith, Authorises;
    SeenSnoc(o, log, e);
    if Next(o, s, e).phase != Stuck {
      RecoveryReadsNothing(o, s, s.phase.request, s.phase.submit, e);
    }
  }

  lemma RecoveryReadsNothing(o: Options, s: State, request: Request, step: SubmitStep, e: Event)
    requires o.checkpointInterval > 0 && NextSubmit(o, s, RecoveryWindow, request, step, e).phase != Stuck
    ensures !e.SourceRunRead?
    ensures e.Write? ==> step.AwaitResultRecord? && e.record == RecoveryResult(request, step.runId, step.clean)
  {
    hide Accepts, ReconciledWith;
  }

  /** Once the recovery is settled, or where there is none, nothing about it changes. */
  lemma NothingSettles(o: Options, s: State, h: History, e: Event)
    requires Usable(o) && Inv(o, s, h) && PastStart(s.phase) && !s.phase.RecoveryGates?
    requires s.phase.Submitting? ==> s.phase.target.OrdinaryWindow?
    requires Next(o, s, e).phase != Stuck
    ensures !Settles(e) && (e.Write? && e.record.CampaignSummary? ==> s.phase.Summarising?)
    ensures var next := Next(o, s, e);
      && next.loop.recovery == s.loop.recovery && !next.phase.Starting? && !next.phase.RecoveryGates?
      && !next.phase.Crashed?
      && (next.phase.Submitting? ==> next.phase.target.OrdinaryWindow?)
      && (next.phase.Stopping? ==> !s.phase.Summarising? && next.phase.summary.recovery.None?)
      && (next.phase.Ended? ==> next.phase.summary.recovery == if s.phase.Summarising? then s.loop.recovery else None)
      && (s.phase.Summarising? ==> next.phase.Ended? && e.Write? && e.record.CampaignSummary?)
  {
    hide NextStart, NextRecoveryGate, NextWindowGate, NextSubmit, NextCheck, CheckOptions, Inv;
    match s.phase
    case WindowGates(step, plan) => GateSettlesNothing(o, s, step, plan, e);
    case Submitting(target, request, step) => SubmitSettlesNothing(o, s, target, request, step, e);
    case Checking(step) => CheckSettlesNothing(o, s, step, e);
    case Summarising =>
  }

  predicate Unsettling(s: State, next: State, e: Event) {
    && !Settles(e) && (e.Write? ==> !e.record.CampaignSummary?)
    && next.loop.recovery == s.loop.recovery && !next.phase.Starting? && !next.phase.RecoveryGates?
    && !next.phase.Crashed?
    && (next.phase.Submitting? ==> next.phase.target.OrdinaryWindow?)
    && (next.phase.Stopping? || next.phase.Ended? ==> next.phase.summary.recovery.None?)
  }

  lemma GateSettlesNothing(o: Options, s: State, step: GateStep, plan: WindowPlan, e: Event)
    requires o.windowSize > 0 && o.checkpointInterval > 0 && NextWindowGate(o, s, step, plan, e).phase != Stuck
    ensures Unsettling(s, NextWindowGate(o, s, step, plan, e), e)
  {
    hide PlanWindow, LabelFits, ForwardAdjacent, PlanningEdge, CursorMatches, EffectiveFirstWindowStart, Budget;
  }

  lemma SubmitSettlesNothing(o: Options, s: State, target: Target, request: Request, step: SubmitStep, e: Event)
    requires o.checkpointInterval > 0 && target.OrdinaryWindow?
    requires NextSubmit(o, s, target, request, step, e).phase != Stuck
    ensures Unsettling(s, NextSubmit(o, s, target, request, step, e), e)
  {
    hide Accepts, ReconciledWith, CursorMatches, Budget, NextRowCheck;
  }

  lemma CheckSettlesNothing(o: Options, s: State, step: CheckStep, e: Event)
    requires NextCheck(o, s, step, e).phase != Stuck
    ensures Unsettling(s, NextCheck(o, s, step, e), e)
  {
    hide CursorMatches, PlannedWithinBoundary, Budget;
  }

  lemma ReportInLoop(o: Options, s: State, h: History, log: seq<Event>, e: Event)
    requires Usable(o) && Inv(o, s, h) && PastStart(s.phase) && !s.phase.RecoveryGates? && ReportKept(o, s, log)
    requires s.phase.Submitting? ==> s.phase.target.OrdinaryWindow?
    ensures ReportKept(o, Next(o, s, e), log + [e]) || Next(o, s, e).phase == Stuck
  {
    hide Next, Inv, SourceAccepted, JudgedClean, RecoverySettled, StartRecorded, CheckOptions, WalletOf, Settles;
    SeenSnoc(o, log, e);
    if Next(o, s, e).phase != Stuck {
      NothingSettles(o, s, h, e);
    }
  }

  lemma ReportAfterStop(o: Options, s: State, log: seq<Event>, e: Event)
    requires Usable(o) && (s.phase.Stopping? || s.phase.Ended? || s.phase.Crashed? || s.phase.Stuck?)
    requires ReportKept(o, s, log)
    requires Baseline(s, log)
    ensures ReportKept(o, Next(o, s, e), log + [e]) || Next(o, s, e).phase == Stuck
  {
    hide SourceAccepted, JudgedClean, RecoverySettled, CheckOptions, WalletOf;
    SeenSnoc(o, log, e);
  }

  lemma {:induction false} ReportAlwaysKept(o: Options, log: seq<Event>)
    requires Usable(o) && Follows(o, log)
    ensures ReportKept(o, Replay(o, log), log)
  {
    hide Next, CheckOptions, ReportKept, Inv, Baseline;
    if log != [] {
      var front, e := log[..|log| - 1], log[|log| - 1];
      var s, h := Replay(o, front), HistoryOf(front);
      StuckIsFinal(o, s, e);
      ReportAlwaysKept(o, front);
      EveryRun(o, front);
      BaselineKept(o, front);
      assert front + [e] == log;
      if s.phase.Starting? {
        ReportStart(o, s, front, e);
      } else if s.phase.RecoveryGates? {
        ReportAtRecoveryGate(o, s, h, front, e);
      } else if s.phase.Submitting? && s.phase.target.RecoveryWindow? {
        ReportInRecovery(o, s, h, front, e);
      } else if PastStart(s.phase) {
        ReportInLoop(o, s, h, front, e);
      } else {
        ReportAfterStop(o, s, front, e);
      }
    } else {
      NothingReported(o);
    }
  }

  lemma StuckIsFinal(o: Options, s: State, e: Event)
    requires o.windowSize > 0 && o.checkpointInterval > 0
    ensures s.phase == Stuck ==> Next(o, s, e).phase == Stuck
  {
  }

  lemma NothingReported(o: Options)
    requires Usable(o)
    ensures ReportKept(o, Init(o), [])
  {
  }

  // ----- the number of the last window

  predicate NumberKept(o: Options, s: State, h: History) {
    match s.phase
    case Stopping(summary) => summary.lastWindowNumber == NumberDue(o, h, summary.reason)
    case Ended(summary) => summary.lastWindowNumber == NumberDue(o, h, summary.reason)
    case _ => true
  }

  /** The number of the last window, as the loop knows it. */
  lemma NumberInLoop(o: Options, s: State, h: History)
    requires Usable(o) && Inv(o, s, h)
    requires s.phase.WindowGates? || s.phase.Checking? || (s.phase.Submitting? && s.phase.target.OrdinaryWindow?)
    ensures var k := |h.completed| + |h.planned|;
      s.loop.lastWindowNumber == if k == 0 then None else Some(FirstOrdinaryNumber(o) + k - 1)
  {
    hide Spaced, CheckOptions, IntendedWindow, AtFirstWindow;
  }

  lemma NumberStart(o: Options, s: State, h: History, e: Event)
    requires Usable(o) && Inv(o, s, h) && s.phase.Starting?
    ensures NumberKept(o, Next(o, s, e), Observe(h, e)) || Next(o, s, e).phase == Stuck
  {
    hide IntendedRecovery, NextRecoveryGate, NextWindowGate, NextSubmit, NextCheck, CheckOptions;
  }

  lemma NumberAtRecoveryGate(o: Options, s: State, h: History, e: Event)
    requires Usable(o) && Inv(o, s, h) && s.phase.RecoveryGates?
    ensures NumberKept(o, Next(o, s, e), Observe(h, e)) || Next(o, s, e).phase == Stuck
  {
    hide EligibleSource, IntendedRecovery, NextStart, NextWindowGate, NextSubmit, NextCheck, CheckOptions;
  }

  lemma NumberAtGate(o: Options, s: State, h: History, e: Event)
    requires Usable(o) && Inv(o, s, h) && s.phase.WindowGates?
    ensures NumberKept(o, Next(o, s, e), Observe(h, e)) || Next(o, s, e).phase == Stuck
  {
    hide NextStart, NextRecoveryGate, NextSubmit, NextCheck, CheckOptions, Inv, PlanWindow, LabelFits, ForwardAdjacent,
      PlanningEdge, CursorMatches, AtFirstWindow, EffectiveFirstWindowStart, AfterWindow, FirstOrdinaryNumber;
    NumberInLoop(o, s, h);
    AfterWindowGoesOn(o, s.(loop := CountPreview(s.loop, s.phase.plan)));
  }

  lemma NumberInRecovery(o: Options, s: State, h: History, e: Event)
    requires Usable(o) && Inv(o, s, h) && s.phase.Submitting? && s.phase.target.RecoveryWindow?
    ensures NumberKept(o, Next(o, s, e), Observe(h, e)) || Next(o, s, e).phase == Stuck
  {
    hide NextStart, NextRecoveryGate, NextWindowGate, NextCheck, CheckOptions, Accepts, ReconciledWith,
      IntendedRecovery, CursorMatches, NextRowCheck;
  }

  lemma NumberInSubmission(o: Options, s: State, h: History, e: Event)
    requires Usable(o) && Inv(o, s, h) && s.phase.Submitting? && s.phase.target.OrdinaryWindow?
    requires !s.phase.submit.AwaitResultRecord?
    ensures NumberKept(o, Next(o, s, e), Observe(h, e)) || Next(o, s, e).phase == Stuck
  {
    hide NextStart, NextRecoveryGate, NextWindowGate, NextCheck, CheckOptions, Inv, Accepts, ReconciledWith,
      CursorMatches, NextRowCheck, AfterWindowRecord, FirstOrdinaryNumber;
    NumberInLoop(o, s, h);
  }

  lemma NumberAtRecord(o: Options, s: State, h: History, e: Event)
    requires Usable(o) && Inv(o, s, h) && s.phase.Submitting? && s.phase.target.OrdinaryWindow?
    requires s.phase.submit.AwaitResultRecord?
    ensures NumberKept(o, Next(o, s, e), Observe(h, e)) || Next(o, s, e).phase == Stuck
  {
    hide NextStart, NextRecoveryGate, NextWindowGate, NextCheck, CheckOptions, Spaced, AtFirstWindow, AfterWindow;
    AfterWindowGoesOn(o, s.(loop := CountWindow(s.loop, WindowPlan(s.phase.target.number, s.phase.request))));
  }

  lemma AfterWindowGoesOn(o: Options, s: State)
    requires o.checkpointInterval > 0
    ensures !AfterWindow(o, s).phase.Stopping? && !AfterWindow(o, s).phase.Ended?
  {
    hide Budget;
  }

  lemma AdvanceGoesOn(o: Options, s: State)
    ensures !Advance(o, s).phase.Stopping? && !Advance(o, s).phase.Ended?
  {
  }

  lemma NumberAtCheck(o: Options, s: State, h: History, e: Event)
    requires Usable(o) && Inv(o, s, h) && s.phase.Checking?
    ensures NumberKept(o, Next(o, s, e), Observe(h, e)) || Next(o, s, e).phase == Stuck
  {
    hide NextStart, NextRecoveryGate, NextWindowGate, NextSubmit, CheckOptions, Inv, PlannedWithinBoundary,
      CursorMatches, Advance, FirstOrdinaryNumber;
    NumberInLoop(o, s, h);
    AdvanceGoesOn(o, s.(loop := s.loop.(checkpointsPassed := s.loop.checkpointsPassed + 1)));
  }

  lemma NumberAtEnd(o: Options, s: State, h: History, e: Event)
    requires Usable(o) && Inv(o, s, h) && NumberKept(o, s, h)
    requires s.phase.Summarising? || s.phase.Stopping? || s.phase.Ended? || s.phase.Crashed? || s.phase.Stuck?
    ensures NumberKept(o, Next(o, s, e), Observe(h, e)) || Next(o, s, e).phase == Stuck
  {
    hide NextStart, NextRecoveryGate, NextWindowGate, NextSubmit, NextCheck, CheckOptions, Spaced, AtFirstWindow;
  }

  lemma {:induction false} NumberAlwaysKept(o: Options, log: seq<Event>)
    requires Usable(o) && Follows(o, log)
    ensures NumberKept(o, Replay(o, log), HistoryOf(log))
  {
    hide Next, CheckOptions, NumberKept, Inv, Observe;
    if log != [] {
      var front, e := log[..|log| - 1], log[|log| - 1];
      var s, h := Replay(o, front), HistoryOf(front);
      StuckIsFinal(o, s, e);
      NumberAlwaysKept(o, front);
      EveryRun(o, front);
      if s.phase.Starting? {
        NumberStart(o, s, h, e);
      } else if s.phase.RecoveryGates? {
        NumberAtRecoveryGate(o, s, h, e);
      } else if s.phase.WindowGates? {
        NumberAtGate(o, s, h, e);
      } else if s.phase.Submitting? {
        if s.phase.target.RecoveryWindow? {
          NumberInRecovery(o, s, h, e);
        } else if s.phase.submit.AwaitResultRecord? {
          NumberAtRecord(o, s, h, e);
        } else {
          NumberInSubmission(o, s, h, e);
        }
      } else if s.phase.Checking? {
        NumberAtCheck(o, s, h, e);
      } else {
        NumberAtEnd(o, s, h, e);
      }
    } else {
      assert NumberKept(o, Init(o), NOTHING_YET) by { NothingNumbered(o); }
    }
  }

  lemma NothingNumbered(o: Options)
    requires Usable(o)
    ensures NumberKept(o, Init(o), NOTHING_YET)
  {
  }

  // ----- theorems

  /** Every summary is truthful: it counts the windows with a durable clean record and the
      checkpoints durably passed, it numbers the last window, and it reports the recovery
      as far as the log shows it. */
  lemma SummariesAreTruthful(o: Options, log: seq<Event>, summary: Summary)
    requires Usable(o) && Finished(o, log, summary)
    ensures var h := HistoryOf(log);
      && summary.windowsCompleted == |h.completed| && summary.checkpointsPassed == h.checkpoints
      && summary.lastWindowNumber == NumberDue(o, h, summary.reason)
      && summary.recovery == ReportDue(o, log)
  {
    hide Replay, HistoryOf, CheckOptions, ReportDue, NumberDue;
    ReportAlwaysKept(o, log);
    NumberAlwaysKept(o, log);
    EvidenceAccountsForSubmissions(o, log, summary);
  }

  /** A campaign that ends cleanly reports a requested recovery, as recovered if it was
      executed, and none that was not requested. */
  lemma CleanEndReportsRecovery(o: Options, log: seq<Event>, summary: Summary)
    requires Usable(o) && Finished(o, log, summary) && summary.reason.Clean()
    ensures summary.recovery == if o.recovery.Some? then Some(RecoveryReport(true, o.execute)) else None
  {
    hide Next, CheckOptions, ReportDue, SourceAccepted, JudgedClean, RecoverySettled, StartRecorded, Inv;
    assert log != [];
    var front := log[..|log| - 1];
    EveryRun(o, front);
    CleanEndIsRecorded(o, Replay(o, front), log[|log| - 1], summary);
    StuckIsFinal(o, Replay(o, front), log[|log| - 1]);
    ReportAlwaysKept(o, front);
    SummaryNeedsPhase(o, Replay(o, front), summary);
    FinalReport(o, Replay(o, front), log[|log| - 1], front);
  }

  lemma SummaryNeedsPhase(o: Options, s: State, summary: Summary)
    requires o.windowSize > 0 && o.checkpointInterval > 0
    requires Next(o, s, Write(CampaignSummary(summary), true)).phase != Stuck
    ensures s.phase.Summarising?
  {
    hide EligibleSource, Accepts, ReconciledWith, PlanWindow, AfterWindow, AfterCursor, BeginWork,
      PlannedWithinBoundary;
  }

  lemma FinalReport(o: Options, s: State, e: Event, log: seq<Event>)
    requires Usable(o) && s.phase.Summarising? && ReportKept(o, s, log) && Next(o, s, e).phase.Ended?
    ensures Next(o, s, e).phase.summary.recovery ==
      if o.recovery.Some? then Some(RecoveryReport(true, o.execute)) else None
  {
    hide CheckOptions, SourceAccepted, JudgedClean, RecoverySettled, StartRecorded;
  }
}
