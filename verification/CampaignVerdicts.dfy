/** What the verdicts in a campaign's evidence certify: each is read back, in both
    directions, from the answers that stand directly before it. */
module CampaignVerdicts {
  import opened Base
  import opened SyncPrimitives
  import opened RecoveryWarnings
  import opened CampaignPlan
  import opened CampaignMachine
  import opened CampaignSafety
  import opened CampaignTheorems
  import opened CampaignStart

  // ----- the verdict on a window

  /** The seven answers read after a submission, whatever they say. */
  predicate AnswersRead(checks: seq<Event>, runId: string, request: Request) {
    var start, end := request.startBlock, request.endBlock;
    && |checks| == 7
    && checks[0].Polled? && checks[0].runId == runId && checks[0].outcome.Got? && checks[0].outcome.value.Some?
    && checks[1].CursorRead? && checks[1].cursor.Got?
    && RowsCounted(checks[2], FabricatedTransfers, request)
    && RowsCounted(checks[3], DuplicateTransactions, request)
    && RowsCounted(checks[4], DuplicateTransfers, request)
    && RowsCounted(checks[5], DuplicateLedgerEntries, request)
    && checks[6].ActiveRuns? && checks[6].count.Got?
  }

  predicate RowsCounted(e: Event, check: RowCheck, request: Request) {
    e.Rows? && e.check == check && e.startBlock == request.startBlock && e.endBlock == request.endBlock && e.count.Got?
  }

  /** The run was acceptable, the cursor stood exactly at its end, nothing was
      contaminated or duplicated in its range, and no operation was active. */
  predicate ChecksPassed(checks: seq<Event>, target: Target, runId: string, anchor: int, want: Expectation) {
    && AnswersRead(checks, runId, want.request)
    && Accepts(target, checks[0].outcome.value.value, want)
    && checks[1].cursor.value == Some(Cursor(anchor, want.request.endBlock))
    && checks[2].count.value == checks[3].count.value == checks[4].count.value == checks[5].count.value == 0
    && checks[6].count.value == 0
  }

  /** The one state and the one answer from which a verification step can be entered,
      with what the answer adds to the verdict so far. */
  predicate VerdictEntry(o: Options, s: State, e: Event, target: Target, request: Request, step: SubmitStep) {
    && s.phase.Submitting? && s.phase.target == target && s.phase.request == request
    && var before := s.phase.submit;
       match step
       case AwaitCursorAfter(runId, clean) =>
         && before == AwaitPoll(runId)
         && e.Polled? && e.runId == runId && e.outcome.Got? && e.outcome.value.Some?
         && clean == Accepts(target, e.outcome.value.value, Expectation(s.walletId, o.chainId, request))
       case AwaitRows(check, runId, clean) =>
         if check.FabricatedTransfers? then
           && before.AwaitCursorAfter? && before.runId == runId
           && e.CursorRead? && e.cursor.Got?
           && clean == (before.clean && e.cursor.value == Some(Cursor(o.expectedCursorFrom, request.endBlock)))
         else
           && before.AwaitRows? && before.runId == runId && before.check == CheckBefore(check)
           && RowsCounted(e, before.check, request)
           && clean == (before.clean && e.count.value == 0)
       case AwaitActiveAfter(runId, clean) =>
         && before.AwaitRows? && before.runId == runId && before.check == DuplicateLedgerEntries
         && RowsCounted(e, before.check, request)
         && clean == (before.clean && e.count.value == 0)
       case AwaitResultRecord(runId, clean) =>
         && before.AwaitActiveAfter? && before.runId == runId
         && e.ActiveRuns? && e.count.Got?
         && clean == (before.clean && e.count.value == 0)
       case _ => true
  }

  function CheckBefore(check: RowCheck): RowCheck {
    match check
    case DuplicateLedgerEntries => DuplicateTransfers
    case DuplicateTransfers => DuplicateTransactions
    case _ => FabricatedTransfers
  }

  predicate Verifying(step: SubmitStep) {
    step.AwaitCursorAfter? || step.AwaitRows? || step.AwaitActiveAfter? || step.AwaitResultRecord?
  }

  lemma EnteredCheck(o: Options, s: State, e: Event, target: Target, request: Request, step: SubmitStep)
    requires o.windowSize > 0 && o.checkpointInterval > 0
    requires Next(o, s, e).phase == Submitting(target, request, step) && Verifying(step)
    ensures s.walletId == Next(o, s, e).walletId && VerdictEntry(o, s, e, target, request, step)
  {
    hide Accepts, ReconciledWith, AfterWindow, AfterWindowRecord, AfterRecoveryRecord;
    OnlySubmissionsLeadOn(o, s, e);
    hide Next;
    if s.phase.submit.AwaitResultRecord? {
      SubmitRecordLeavesSubmission(o, s, e);
    }
  }

  lemma StepBack(o: Options, log: seq<Event>, n: nat, target: Target, request: Request, step: SubmitStep)
    requires Usable(o) && n <= |log|
    requires Replay(o, log[..n]).phase == Submitting(target, request, step) && Verifying(step)
    ensures n >= 1
    ensures Replay(o, log[..n - 1]).walletId == Replay(o, log[..n]).walletId
    ensures VerdictEntry(o, Replay(o, log[..n - 1]), log[n - 1], target, request, step)
  {
    hide Next, VerdictEntry;
    assert n >= 1;
    assert log[..n][..n - 1] == log[..n - 1];
    EnteredCheck(o, Replay(o, log[..n - 1]), log[n - 1], target, request, step);
  }

  /** A submission that stands at a row check, with the verdict so far. */
  predicate AtRows(s: State, target: Target, request: Request, check: RowCheck, runId: string) {
    && s.phase.Submitting? && s.phase.target == target && s.phase.request == request
    && s.phase.submit.AwaitRows? && s.phase.submit.check == check && s.phase.submit.runId == runId
  }

  lemma RowsVerdict(o: Options, log: seq<Event>, n: nat, target: Target, request: Request, runId: string, clean: bool)
    requires Usable(o) && n <= |log|
    requires Replay(o, log[..n]).phase == Submitting(target, request, AwaitActiveAfter(runId, clean))
    ensures n >= 4
    ensures RowsCounted(log[n - 4], FabricatedTransfers, request)
    ensures RowsCounted(log[n - 3], DuplicateTransactions, request)
    ensures RowsCounted(log[n - 2], DuplicateTransfers, request)
    ensures RowsCounted(log[n - 1], DuplicateLedgerEntries, request)
    ensures Replay(o, log[..n - 4]).walletId == Replay(o, log[..n]).walletId
    ensures AtRows(Replay(o, log[..n - 4]), target, request, FabricatedTransfers, runId)
    ensures clean <==>
      && Replay(o, log[..n - 4]).phase.submit.clean
      && log[n - 4].count.value == log[n - 3].count.value == log[n - 2].count.value == log[n - 1].count.value == 0
  {
    hide Next, Replay, Accepts;
    StepBack(o, log, n, target, request, AwaitActiveAfter(runId, clean));
    StepBack(o, log, n - 1, target, request, Replay(o, log[..n - 1]).phase.submit);
    StepBack(o, log, n - 2, target, request, Replay(o, log[..n - 2]).phase.submit);
    StepBack(o, log, n - 3, target, request, Replay(o, log[..n - 3]).phase.submit);
  }

  lemma RunVerdict(o: Options, log: seq<Event>, n: nat, target: Target, request: Request, runId: string, clean: bool)
    requires Usable(o) && n <= |log|
    requires Replay(o, log[..n]).phase == Submitting(target, request, AwaitRows(FabricatedTransfers, runId, clean))
    ensures n >= 2
    ensures log[n - 2].Polled? && log[n - 2].runId == runId && log[n - 2].outcome.Got? && log[n - 2].outcome.value.Some?
    ensures log[n - 1].CursorRead? && log[n - 1].cursor.Got?
    ensures Replay(o, log[..n - 2]).phase == Submitting(target, request, AwaitPoll(runId))
    ensures clean <==>
      && Accepts(target, log[n - 2].outcome.value.value, Expectation(Replay(o, log[..n]).walletId, o.chainId, request))
      && log[n - 1].cursor.value == Some(Cursor(o.expectedCursorFrom, request.endBlock))
  {
    hide Next, Replay, Accepts, Usable;
    StepBack(o, log, n, target, request, AwaitRows(FabricatedTransfers, runId, clean));
    StepBack(o, log, n - 1, target, request, Replay(o, log[..n - 1]).phase.submit);
  }

  /** The record that gives the verdict on a window. */
  function ResultOf(target: Target, request: Request, runId: string, clean: bool): Record {
    match target
    case RecoveryWindow => RecoveryResult(request, runId, clean)
    case OrdinaryWindow(number) => WindowResult(number, request, runId, clean)
  }

  lemma ResultNeedsPhase(
      o: Options, log: seq<Event>, target: Target, request: Request, runId: string, clean: bool, acknowledged: bool)
    requires Usable(o) && Follows(o, log + [Write(ResultOf(target, request, runId, clean), acknowledged)])
    ensures Replay(o, log).phase == Submitting(target, request, AwaitResultRecord(runId, clean))
  {
    hide Next, Replay, CheckOptions, ResultOf;
    ReplaySnoc(o, log, Write(ResultOf(target, request, runId, clean), acknowledged));
    RecordNeedsPhase(o, Replay(o, log), target, request, runId, clean, acknowledged);
  }

  lemma RecordNeedsPhase(
      o: Options, s: State, target: Target, request: Request, runId: string, clean: bool, acknowledged: bool)
    requires o.windowSize > 0 && o.checkpointInterval > 0
    requires Next(o, s, Write(ResultOf(target, request, runId, clean), acknowledged)).phase != Stuck
    ensures s.phase == Submitting(target, request, AwaitResultRecord(runId, clean))
  {
    hide EligibleSource, Accepts, ReconciledWith, PlanWindow, AfterWindow, AfterCursor, BeginWork,
      PlannedWithinBoundary;
  }

  /** Directly before every record that judges a window, ordinary or recovered, stand its
      own submission, which led to this run, and the seven answers read after it; the record
      calls the window clean exactly if its run was acceptable for the wallet read at the
      start (an ordinary one strictly clean), the cursor stood exactly at its end, no
      contaminated or duplicated rows existed in its range and no operation was active. */
  lemma EveryVerdictIsEarned(
      o: Options, log: seq<Event>, target: Target, request: Request, runId: string, clean: bool, acknowledged: bool)
    requires Usable(o) && Follows(o, log + [Write(ResultOf(target, request, runId, clean), acknowledged)])
    ensures |log| >= 7 && AnswersRead(log[|log| - 7..], runId, request)
    ensures OwnRun(log[..|log| - 7], target, Expectation(WalletOf(log), o.chainId, request), runId)
    ensures clean <==> ChecksPassed(log[|log| - 7..], target, runId, o.expectedCursorFrom,
                                    Expectation(WalletOf(log), o.chainId, request))
  {
    hide Next, Replay, Accepts, Usable, Follows, OwnRun;
    var n := |log|;
    assert log[..n] == log;
    ResultNeedsPhase(o, log, target, request, runId, clean, acknowledged);
    StartRead(o, log);
    StepBack(o, log, n, target, request, AwaitResultRecord(runId, clean));
    RowsVerdict(o, log, n - 1, target, request, runId, Replay(o, log[..n - 1]).phase.submit.clean);
    RunVerdict(o, log, n - 5, target, request, runId, Replay(o, log[..n - 5]).phase.submit.clean);
    PollIsOwn(o, log[..n - 7], target, request, runId);
    StartRead(o, log[..n - 7]);
  }

  /** In particular, no window is counted that was not verified. */
  lemma EveryCountedWindowIsVerified(o: Options, log: seq<Event>, target: Target, request: Request, runId: string)
    requires Usable(o) && Follows(o, log + [Write(ResultOf(target, request, runId, true), true)])
    ensures |log| >= 7
    ensures OwnRun(log[..|log| - 7], target, Expectation(WalletOf(log), o.chainId, request), runId)
    ensures ChecksPassed(log[|log| - 7..], target, runId, o.expectedCursorFrom,
                         Expectation(WalletOf(log), o.chainId, request))
  {
    hide Replay, ChecksPassed, OwnRun;
    EveryVerdictIsEarned(o, log, target, request, runId, true, true);
  }

  // ----- the verdict of a checkpoint

  /** The five answers a checkpoint reads, whatever they say. */
  predicate FactsRead(facts: seq<Event>) {
    && |facts| == 5
    && facts[0].GitHead? && facts[0].head.Got?
    && facts[1].WorkingTree? && facts[1].clean.Got?
    && facts[2].Health?
    && facts[3].CursorRead? && facts[3].cursor.Got?
    && facts[4].EvidenceWritable? && facts[4].writable.Got?
  }

  /** The repository and the server are those of the start, the cursor stands exactly
      where the campaign left it, and evidence can be written. */
  predicate FactsHold(facts: seq<Event>, head: string, appEnv: Option<string>, expected: Cursor) {
    && FactsRead(facts)
    && facts[0].head.value == head
    && facts[1].clean.value
    && facts[2].ok && facts[2].appEnv == appEnv
    && facts[3].cursor.value == Some(expected)
    && facts[4].writable.value
  }

  predicate CheckEntry(o: Options, s: State, e: Event, step: CheckStep) {
    && s.phase.Checking?
    && var before := s.phase.check;
       match step
       case CheckHead => true
       case CheckTree(ok) => before.CheckHead? && e.GitHead? && e.head.Got? && ok == (e.head.value == s.head)
       case CheckHealth(ok) => before.CheckTree? && e.WorkingTree? && e.clean.Got? && ok == (before.ok && e.clean.value)
       case CheckCursor(ok) => before.CheckHealth? && e.Health? && ok == (before.ok && e.ok && e.appEnv == s.appEnv)
       case CheckWritable(ok) =>
         && before.CheckCursor? && e.CursorRead? && e.cursor.Got?
         && ok == (before.ok && e.cursor.value == Some(Cursor(o.expectedCursorFrom, s.loop.expectedTo))
              && PlannedWithinBoundary(o, s))
       case CheckRecord(ok) =>
         before.CheckWritable? && e.EvidenceWritable? && e.writable.Got? && ok == (before.ok && e.writable.value)
  }

  /** Once begun, a checkpoint changes nothing but its own progress. */
  lemma EnteredCheckpoint(o: Options, s: State, e: Event)
    requires o.windowSize > 0 && o.checkpointInterval > 0
    requires Next(o, s, e).phase.Checking? && !Next(o, s, e).phase.check.CheckHead?
    ensures CheckEntry(o, s, e, Next(o, s, e).phase.check)
    ensures Next(o, s, e) == s.(phase := Next(o, s, e).phase)
  {
    hide PlannedWithinBoundary;
    OnlyChecksLeadOn(o, s, e);
    hide Next, Advance;
  }

  /** Past its first step, a checkpoint is entered only from inside itself. */
  lemma OnlyChecksLeadOn(o: Options, s: State, e: Event)
    requires o.windowSize > 0 && o.checkpointInterval > 0
    requires Next(o, s, e).phase.Checking? && !Next(o, s, e).phase.check.CheckHead?
    ensures s.phase.Checking? && Next(o, s, e) == NextCheck(o, s, s.phase.check, e)
  {
    hide NextWindowGate, NextSubmit, NextCheck, EligibleSource, CursorMatches, LabelFits, IntendedRecovery;
    match s.phase
    case WindowGates(step, plan) => GatesLeadToFirstCheck(o, s, step, plan, e);
    case Submitting(target, request, step) => SubmissionsLeadToFirstCheck(o, s, target, request, step, e);
    case _ =>
  }

  lemma GatesLeadToFirstCheck(o: Options, s: State, step: GateStep, plan: WindowPlan, e: Event)
    requires o.windowSize > 0 && o.checkpointInterval > 0
    ensures var next := NextWindowGate(o, s, step, plan, e).phase; next.Checking? ==> next.check.CheckHead?
  {
    hide PlanWindow, LabelFits, ForwardAdjacent, PlanningEdge, CursorMatches, EffectiveFirstWindowStart, Budget;
  }

  lemma SubmissionsLeadToFirstCheck(o: Options, s: State, target: Target, request: Request, step: SubmitStep, e: Event)
    requires o.checkpointInterval > 0
    ensures var next := NextSubmit(o, s, target, request, step, e).phase; next.Checking? ==> next.check.CheckHead?
  {
    hide Accepts, ReconciledWith, CursorMatches, Budget, NextRowCheck;
  }

  lemma CheckStepBack(o: Options, log: seq<Event>, n: nat)
    requires Usable(o) && n <= |log|
    requires Replay(o, log[..n]).phase.Checking? && !Replay(o, log[..n]).phase.check.CheckHead?
    ensures n >= 1
    ensures CheckEntry(o, Replay(o, log[..n - 1]), log[n - 1], Replay(o, log[..n]).phase.check)
    ensures Replay(o, log[..n - 1]).(phase := Replay(o, log[..n]).phase) == Replay(o, log[..n])
  {
    hide Next, CheckEntry;
    assert n >= 1;
    assert log[..n][..n - 1] == log[..n - 1];
    EnteredCheckpoint(o, Replay(o, log[..n - 1]), log[n - 1]);
  }

  lemma SurroundingsVerdict(o: Options, log: seq<Event>, n: nat)
    requires Usable(o) && n <= |log|
    requires Replay(o, log[..n]).phase.Checking? && Replay(o, log[..n]).phase.check.CheckCursor?
    ensures n >= 3
    ensures log[n - 3].GitHead? && log[n - 3].head.Got? && log[n - 2].WorkingTree? && log[n - 2].clean.Got?
    ensures log[n - 1].Health?
    ensures Replay(o, log[..n]).phase.check.ok <==>
      && log[n - 3].head.value == Replay(o, log[..n]).head
      && log[n - 2].clean.value
      && log[n - 1].ok && log[n - 1].appEnv == Replay(o, log[..n]).appEnv
  {
    hide Next, Replay, CheckOptions;
    CheckStepBack(o, log, n);
    CheckStepBack(o, log, n - 1);
    CheckStepBack(o, log, n - 2);
  }

  lemma CheckpointVerdict(o: Options, log: seq<Event>)
    requires Usable(o) && Replay(o, log).phase.Checking? && Replay(o, log).phase.check.CheckRecord?
    ensures |log| >= 5 && FactsRead(log[|log| - 5..])
    ensures var s := Replay(o, log);
      s.phase.check.ok <==>
        && FactsHold(log[|log| - 5..], s.head, s.appEnv, Cursor(o.expectedCursorFrom, s.loop.expectedTo))
        && PlannedWithinBoundary(o, s)
  {
    hide Next, Replay, CheckOptions;
    var n := |log|;
    assert log[..n] == log;
    CheckStepBack(o, log, n);
    CheckStepBack(o, log, n - 1);
    SurroundingsVerdict(o, log, n - 2);
  }

  // ----- what the verdicts are held against

  /** The planned end never passes the authorised final block, so this part of a
      checkpoint cannot fail. */
  lemma BoundaryStep(o: Options, s: State, h: History, e: Event)
    requires Usable(o) && Inv(o, s, h) && s.loop.windowCount == CheckOptions(o).windowCount
    requires PlannedWithinBoundary(o, s)
    ensures PlannedWithinBoundary(o, Next(o, s, e))
  {
    hide Next, CheckOptions, Inv;
    PlannedEndKept(o, s, e);
    if s.phase.WindowGates? && s.phase.gate.AwaitContamination? {
      GateWithinBoundary(o, s, h);
    }
  }

  /** The planned end changes only to that of the window whose last gate passes. */
  lemma PlannedEndKept(o: Options, s: State, e: Event)
    requires o.windowSize > 0 && o.checkpointInterval > 0
    ensures Next(o, s, e).lastPlannedEnd == s.lastPlannedEnd
         || (&& s.phase.WindowGates? && s.phase.gate.AwaitContamination?
             && Next(o, s, e).lastPlannedEnd == Some(s.phase.plan.request.endBlock))
  {
    hide Accepts, ReconciledWith, EligibleSource, PlanWindow, LabelFits, ForwardAdjacent, PlanningEdge,
      PlannedWithinBoundary, CursorMatches, IntendedRecovery, EffectiveFirstWindowStart, Budget, NextRowCheck;
  }

  lemma GateWithinBoundary(o: Options, s: State, h: History)
    requires Usable(o) && Inv(o, s, h) && s.loop.windowCount == CheckOptions(o).windowCount
    requires s.phase.WindowGates? && s.phase.gate.AwaitContamination?
    ensures s.phase.plan.request.endBlock <= o.authorizedFinalBlock
  {
    hide CheckOptions, IntendedWindow, Progress, Spaced;
    IntentStaysAuthorised(o, s.loop.iteration);
  }

  lemma {:induction false} BoundaryKept(o: Options, log: seq<Event>)
    requires Usable(o)
    ensures PlannedWithinBoundary(o, Replay(o, log))
  {
    hide Next, CheckOptions, Inv, PlannedWithinBoundary;
    if log != [] {
      var front := log[..|log| - 1];
      BoundaryKept(o, front);
      EveryRun(o, front);
      WindowCountFixed(o, front);
      BoundaryStep(o, Replay(o, front), HistoryOf(front), log[|log| - 1]);
    } else {
      assert PlannedWithinBoundary(o, Init(o)) by { NothingPlanned(o); }
    }
  }

  lemma NothingPlanned(o: Options)
    requires Usable(o)
    ensures PlannedWithinBoundary(o, Init(o))
  {
  }

  /** Where the cursor must stand at a checkpoint: at the end of the last window counted,
      or where it was at the start of a dry run. */
  function ExpectedCursor(o: Options, h: History): Cursor {
    Cursor(o.expectedCursorFrom,
           if h.completed == [] then o.expectedCursorTo else h.completed[|h.completed| - 1].request.endBlock)
  }

  lemma CheckpointExpectation(o: Options, s: State, h: History)
    requires Inv(o, s, h) && s.phase.Checking?
    ensures Cursor(o.expectedCursorFrom, s.loop.expectedTo) == ExpectedCursor(o, h)
    ensures s.loop.windowsCompleted == |h.completed|
    ensures s.loop.processed == |h.completed| + |h.planned| + |h.recoveryPosts|
  {
    hide Spaced;
  }

  /** Directly before every checkpoint record stand the five answers it read, and it
      passes exactly if the head is the one first read, the tree is clean, the server is
      healthy in the environment of the start, the cursor stands exactly at the end of the
      last counted window, and evidence can be written. */
  lemma EveryCheckpointIsEarned(
      o: Options, log: seq<Event>, processed: nat, completed: nat, ok: bool, acknowledged: bool)
    requires Usable(o) && Follows(o, log + [Write(Checkpoint(processed, completed, ok), acknowledged)])
    ensures |log| >= 8 && log[0].GitHead? && log[0].head.Got? && log[2].Health? && log[2].ok
    ensures FactsRead(log[|log| - 5..]) && completed == |HistoryOf(log).completed|
    ensures var h := HistoryOf(log); processed == |h.completed| + |h.planned| + |h.recoveryPosts|
    ensures ok <==> FactsHold(log[|log| - 5..], log[0].head.value, log[2].appEnv, ExpectedCursor(o, HistoryOf(log)))
  {
    hide Next, Replay, CheckOptions, Inv, PlannedWithinBoundary, FactsHold, HistoryOf;
    ReplaySnoc(o, log, Write(Checkpoint(processed, completed, ok), acknowledged));
    CheckpointRecordNeedsPhase(o, Replay(o, log), processed, completed, ok, acknowledged);
    CheckpointVerdict(o, log);
    StartRead(o, log);
    BoundaryKept(o, log);
    EveryRun(o, log);
    CheckpointExpectation(o, Replay(o, log), HistoryOf(log));
    FactsComeLater(o, log);
  }

  lemma CheckpointRecordNeedsPhase(o: Options, s: State, processed: nat, completed: nat, ok: bool, acknowledged: bool)
    requires o.windowSize > 0 && o.checkpointInterval > 0
    requires Next(o, s, Write(Checkpoint(processed, completed, ok), acknowledged)).phase != Stuck
    ensures s.phase == Checking(CheckRecord(ok)) && processed == s.loop.processed
    ensures completed == s.loop.windowsCompleted
  {
    hide EligibleSource, Accepts, ReconciledWith, PlanWindow, AfterWindow, AfterCursor, BeginWork,
      PlannedWithinBoundary;
  }

  lemma FactsComeLater(o: Options, log: seq<Event>)
    requires Usable(o) && |log| >= 5 && Replay(o, log).phase.Checking? && Replay(o, log).phase.check.CheckRecord?
    ensures |log| >= 8
  {
    hide Next, Replay, CheckOptions;
    var n := |log|;
    assert log[..n] == log;
    CheckStepBack(o, log, n);
    CheckStepBack(o, log, n - 1);
    CheckStepBack(o, log, n - 2);
    CheckStepBack(o, log, n - 3);
    CheckStepBack(o, log, n - 4);
    StartRead(o, log[..n - 5]);
  }
}
