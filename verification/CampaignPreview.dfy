/** When every gate passes and the server applies each window, a campaign ends
    cleanly; a dry run then previews exactly what the executed campaign submits. */
module CampaignPreview {
  import opened Base
  import opened SyncPrimitives
  import opened RecoveryWarnings
  import opened CampaignPlan
  import opened CampaignMachine
  import opened CampaignSafety
  import opened CampaignTheorems

  /** The options fit the live state they were written for: the first ordinary window
      starts right after the expected cursor, and every label is short enough. */
  predicate WellPosed(o: Options)
    requires Usable(o)
  {
    && AtFirstWindow(o)
    && LongestLabelFits(o.policyLabelPrefix, o.campaignId, FirstOrdinaryNumber(o), o.maxWindows)
    && (o.recovery.Some? ==> LabelFits(IntendedRecovery(o).policyLabel))
  }

  /** The request a phase is about, and none elsewhere. */
  function CurrentRequest(o: Options, phase: Phase): Option<Request> {
    match phase
    case RecoveryGates(_) => if o.recovery.Some? then Some(IntendedRecovery(o)) else None
    case WindowGates(_, plan) => Some(plan.request)
    case Submitting(_, request, _) => Some(request)
    case _ => None
  }

  /** What the live cursor shows when nothing but this campaign moves it and the
      server applies each submitted window. */
  function AppliedCursor(o: Options, s: State): Cursor {
    if s.phase.Submitting? then Cursor(o.expectedCursorFrom, s.phase.request.endBlock)
    else Cursor(o.expectedCursorFrom, s.loop.expectedTo)
  }

  /** An answer with which the gate that asked for it passes. */
  predicate Favourable(o: Options, s: State, e: Event) {
    match e
    case GitHead(head) => head.Got? && (s.phase.Checking? ==> head.value == s.head)
    case WorkingTree(clean) => clean == Got(true)
    case Health(ok, appEnv) => ok && (s.phase.Checking? ==> appEnv == s.appEnv)
    case WalletLookup(id) => id.Got? && id.value.Some?
    case CursorRead(cursor) => cursor == Got(Some(AppliedCursor(o, s)))
    case SourceRunRead(run) =>
      && o.recovery.Some? && run.Got?
      && EligibleSource(run.value, o.recovery.value, Expectation(s.walletId, o.chainId, IntendedRecovery(o)))
    case ActiveRuns(count) => count == Got(0)
    case LabelList(labels) =>
      && labels.Got?
      && var request := CurrentRequest(o, s.phase); request.Some? ==> request.value.policyLabel !in labels.value
    case Rows(_, _, _, count) => count == Got(0)
    case Post(_, _, reply) => reply.Got? && reply.value.status == 202 && reply.value.runId != ""
    case Candidates(_, _) => false
    case Polled(_, outcome) =>
      && outcome.Got? && outcome.value.Some?
      && (s.phase.Submitting? ==>
            Accepts(s.phase.target, outcome.value.value, Expectation(s.walletId, o.chainId, s.phase.request)))
    case EvidenceWritable(writable) => writable == Got(true)
    case Write(_, acknowledged) => acknowledged
  }

  predicate FavourableRun(o: Options, log: seq<Event>)
    requires Usable(o)
  {
    log != [] ==>
      && FavourableRun(o, log[..|log| - 1])
      && Favourable(o, Replay(o, log[..|log| - 1]), log[|log| - 1])
  }

  /** Nothing has gone wrong so far. */
  predicate Untroubled(o: Options, s: State) {
    && (s.lastPlannedEnd.Some? ==> s.lastPlannedEnd.value <= o.authorizedFinalBlock)
    && match s.phase
       case Submitting(_, _, step) =>
         && !step.AwaitCandidates?
         && (step.AwaitCursorAfter? || step.AwaitRows? || step.AwaitActiveAfter? || step.AwaitResultRecord? ==>
              step.clean)
       case Checking(step) => step.CheckHead? || step.ok
       case Stopping(_) => false
       case Crashed => false
       case Ended(summary) => summary.reason.Clean()
       case _ => true
  }

  lemma StartStaysUntroubled(o: Options, s: State, e: Event)
    requires Usable(o) && WellPosed(o) && s.phase.Starting? && Untroubled(o, s) && Favourable(o, s, e)
    ensures Untroubled(o, NextStart(o, s, s.phase.start, e))
  {
    hide CheckOptions, LongestLabelFits, RecoveryLabel;
  }

  lemma RecoveryGateStaysUntroubled(o: Options, s: State, h: History, e: Event)
    requires Usable(o) && WellPosed(o) && s.phase.RecoveryGates? && Untroubled(o, s) && Favourable(o, s, e)
    requires Inv(o, s, h)
    ensures Untroubled(o, NextRecoveryGate(o, s, s.phase.gate, e))
  {
    hide EligibleSource, CheckOptions;
  }

  lemma CursorStaysUntroubled(o: Options, s: State, h: History, cursor: Cursor)
    requires Usable(o) && WellPosed(o) && s.phase.WindowGates? && s.phase.gate.AwaitCursor? && Untroubled(o, s)
    requires Inv(o, s, h)
    requires cursor == Cursor(o.expectedCursorFrom, s.loop.expectedTo)
    requires s.loop.windowCount == CheckOptions(o).windowCount
    ensures Untroubled(o, AfterCursor(o, s, cursor))
  {
    hide Spaced, LogicalWindowNumber;
    var k := s.loop.iteration;
    PlannerMeetsIntent(o, k);
    IntentStaysAuthorised(o, k);
    LongestLabelBoundsAll(o.policyLabelPrefix, o.campaignId, FirstOrdinaryNumber(o), o.maxWindows,
      FirstOrdinaryNumber(o) + k);
  }

  lemma WindowGateStaysUntroubled(o: Options, s: State, h: History, e: Event)
    requires Usable(o) && WellPosed(o) && s.phase.WindowGates? && Untroubled(o, s) && Favourable(o, s, e)
    requires Inv(o, s, h)
    requires s.loop.windowCount == CheckOptions(o).windowCount
    ensures Untroubled(o, NextWindowGate(o, s, s.phase.gate, s.phase.plan, e))
  {
    hide AfterCursor, Progress, Spaced, IntendedWindow;
    if s.phase.gate.AwaitCursor? {
      CursorStaysUntroubled(o, s, h, Cursor(o.expectedCursorFrom, s.loop.expectedTo));
    } else {
      PlanStaysAuthorised(o, s, h);
    }
  }

  lemma PlanStaysAuthorised(o: Options, s: State, h: History)
    requires Usable(o) && s.phase.WindowGates? && !s.phase.gate.AwaitCursor? && Inv(o, s, h)
    requires s.loop.windowCount == CheckOptions(o).windowCount
    ensures s.phase.plan.request.endBlock <= o.authorizedFinalBlock
  {
    IntentStaysAuthorised(o, s.loop.iteration);
  }

  lemma SubmissionStaysUntroubled(o: Options, s: State, e: Event)
    requires Usable(o) && s.phase.Submitting? && Untroubled(o, s) && Favourable(o, s, e)
    ensures Untroubled(o, NextSubmit(o, s, s.phase.target, s.phase.request, s.phase.submit, e))
  {
    hide Accepts, ReconciledWith, CheckOptions;
  }

  lemma CheckStaysUntroubled(o: Options, s: State, e: Event)
    requires Usable(o) && s.phase.Checking? && Untroubled(o, s) && Favourable(o, s, e)
    ensures Untroubled(o, NextCheck(o, s, s.phase.check, e))
  {
    hide CheckOptions;
  }

  lemma StaysUntroubled(o: Options, s: State, h: History, e: Event)
    requires Usable(o) && WellPosed(o) && Inv(o, s, h) && Untroubled(o, s) && Favourable(o, s, e)
    requires s.loop.windowCount == CheckOptions(o).windowCount
    ensures Untroubled(o, Next(o, s, e))
  {
    hide NextStart, NextRecoveryGate, NextWindowGate, NextSubmit, NextCheck, WellPosed;
    match s.phase
    case Starting(_) => StartStaysUntroubled(o, s, e);
    case RecoveryGates(_) => RecoveryGateStaysUntroubled(o, s, h, e);
    case WindowGates(_, _) => WindowGateStaysUntroubled(o, s, h, e);
    case Submitting(_, _, _) => SubmissionStaysUntroubled(o, s, e);
    case Checking(_) => CheckStaysUntroubled(o, s, e);
    case _ =>
  }

  lemma {:induction false} FavourableRunIsUntroubled(o: Options, log: seq<Event>)
    requires Usable(o) && WellPosed(o) && FavourableRun(o, log)
    ensures Untroubled(o, Replay(o, log))
  {
    if log != [] {
      var before := log[..|log| - 1];
      FavourableRunIsUntroubled(o, before);
      EveryRun(o, before);
      WindowCountFixed(o, before);
      StaysUntroubled(o, Replay(o, before), HistoryOf(before), log[|log| - 1]);
    }
  }

  /** With well-posed options, every way for a finished run not to be clean involves
      at least one unfavourable answer. */
  lemma FavourableRunsEndCleanly(o: Options, log: seq<Event>, summary: Summary)
    requires Usable(o) && WellPosed(o) && FavourableRun(o, log) && Finished(o, log, summary)
    ensures summary.reason.Clean()
  {
    FavourableRunIsUntroubled(o, log);
  }

  /** A favourable finished run does everything it was approved to do. */
  lemma FavourableRunsDoEverything(o: Options, log: seq<Event>, summary: Summary)
    requires Usable(o) && WellPosed(o) && FavourableRun(o, log) && Finished(o, log, summary)
    ensures summary.reason == CompletionReason(o)
    ensures summary.lastWindowNumber == Some(FirstOrdinaryNumber(o) + EffectiveMaxWindows(o) - 1)
    ensures o.execute ==> HistoryOf(log).posts == IntendedWindows(o, EffectiveMaxWindows(o))
    ensures !o.execute ==>
      && HistoryOf(log).planned == IntendedWindows(o, EffectiveMaxWindows(o))
      && HistoryOf(log).posts == [] && HistoryOf(log).recoveryPosts == []
  {
    hide CheckOptions, IntendedWindows, Replay, HistoryOf, FavourableRun;
    FavourableRunsEndCleanly(o, log, summary);
    CleanMeansComplete(o, log, summary);
    SubmissionsAreIntended(o, log);
  }

  /** A dry run and an execution of the same options, both favourable and finished:
      the dry run plans, in order and with the same numbers, labels and ranges,
      exactly the windows the execution submits, and submits nothing itself. */
  lemma DryRunPreviewsExecution(dry: Options, executed: Options,
                                dryLog: seq<Event>, log: seq<Event>, drySummary: Summary, summary: Summary)
    requires !dry.execute && executed == dry.(execute := true)
    requires Usable(dry) && Usable(executed) && WellPosed(dry)
    requires FavourableRun(dry, dryLog) && Finished(dry, dryLog, drySummary)
    requires FavourableRun(executed, log) && Finished(executed, log, summary)
    ensures HistoryOf(dryLog).planned == HistoryOf(log).posts
    ensures |HistoryOf(log).posts| == EffectiveMaxWindows(executed)
    ensures HistoryOf(dryLog).posts == [] && HistoryOf(dryLog).recoveryPosts == []
    ensures drySummary.reason == summary.reason && drySummary.lastWindowNumber == summary.lastWindowNumber
  {
    hide Replay, FavourableRun, HistoryOf, CheckOptions, WellPosed, Finished, IntendedWindows, EffectiveMaxWindows,
      CompletionReason;
    SameShape(dry, executed);
    FavourableRunsDoEverything(dry, dryLog, drySummary);
    FavourableRunsDoEverything(executed, log, summary);
    SameIntent(dry, executed, EffectiveMaxWindows(dry));
  }

  lemma SameShape(dry: Options, executed: Options)
    requires executed == dry.(execute := true)
    ensures Usable(dry) == Usable(executed)
    ensures Usable(dry) ==>
      && WellPosed(dry) == WellPosed(executed)
      && EffectiveMaxWindows(dry) == EffectiveMaxWindows(executed)
      && CompletionReason(dry) == CompletionReason(executed)
  {
  }

  lemma SameIntent(dry: Options, executed: Options, n: nat)
    requires executed == dry.(execute := true)
    ensures IntendedWindows(dry, n) == IntendedWindows(executed, n)
  {
  }
}
