/** Every stop reason of a campaign names the answer that caused it. */
module CampaignCauses {
  import opened Base
  import opened SyncPrimitives
  import opened RecoveryWarnings
  import opened CampaignPlan
  import opened CampaignMachine
  import opened CampaignSafety
  import opened CampaignTheorems
  import opened CampaignVerdicts
  import opened CampaignStart
  import opened CampaignSummaries

  /** A dependency threw instead of answering. */
  predicate Failure(e: Event) {
    match e
    case GitHead(head) => head.Threw?
    case WorkingTree(clean) => clean.Threw?
    case CursorRead(cursor) => cursor.Threw?
    case SourceRunRead(run) => run.Threw?
    case ActiveRuns(count) => count.Threw?
    case LabelList(labels) => labels.Threw?
    case Rows(_, _, _, count) => count.Threw?
    case Candidates(_, runs) => runs.Threw?
    case Polled(_, outcome) => outcome.Threw?
    case EvidenceWritable(writable) => writable.Threw?
    case _ => false
  }

  /** The label a phase is about to submit. */
  function LabelAtStake(o: Options, phase: Phase): Option<string> {
    match phase
    case RecoveryGates(_) => if o.recovery.Some? then Some(IntendedRecovery(o).policyLabel) else None
    case WindowGates(_, plan) => Some(plan.request.policyLabel)
    case _ => None
  }

  function RangeAtStake(o: Options, phase: Phase): Option<(int, int)> {
    match phase
    case RecoveryGates(_) =>
      if o.recovery.Some? then Some((IntendedRecovery(o).startBlock, IntendedRecovery(o).endBlock)) else None
    case WindowGates(_, plan) => Some((plan.request.startBlock, plan.request.endBlock))
    case _ => None
  }

  predicate SubmitRefused(s: State, e: Event) {
    && s.phase.Submitting?
    && (|| (&& e.Post? && e.target == s.phase.target && e.request == s.phase.request && s.phase.submit.AwaitPost?
            && e.reply.Got? && (e.reply.value.status != 202 || e.reply.value.runId == ""))
        || (&& s.phase.submit.AwaitCandidates? && e.Candidates? && e.runs.Got?
            && |e.runs.value| == 1 && e.runs.value[0].id == ""))
  }

  predicate NotReconciled(o: Options, s: State, e: Event) {
    && s.phase.Submitting? && s.phase.submit.AwaitCandidates? && e.Candidates? && e.runs.Got?
    && !ReconciledWith(e.runs.value, Expectation(s.walletId, o.chainId, s.phase.request))
  }

  predicate TimedOut(s: State, e: Event) {
    s.phase.Submitting? && e.Polled? && s.phase.submit == AwaitPoll(e.runId) && e.outcome == Got(None)
  }

  predicate AtGates(phase: Phase) {
    phase.RecoveryGates? || phase.WindowGates?
  }

  /** The answer or the failing record, in the state in which it came, that triggers a stop. */
  predicate Trigger(o: Options, s: State, e: Event, reason: StopReason) {
    match reason
    case GitHeadUnavailable => e == GitHead(Threw) && s.phase == Starting(AwaitHead)
    case WorkingTreeDirty => e == WorkingTree(Got(false)) && s.phase == Starting(AwaitTree)
    case InitialHealthBaselineFailed => e.Health? && !e.ok && s.phase == Starting(AwaitBaseline)
    case WalletNotFound => e == WalletLookup(Got(None)) && s.phase == Starting(AwaitWallet)
    case RecoveryWindowNotAtCursorFrontier =>
      s.phase.Starting? && o.recovery.Some? && !AtFrontier(o) && e == Write(CampaignStart, true)
    case RecoverySourceRunIneligible =>
      && s.phase.RecoveryGates? && o.recovery.Some? && e.SourceRunRead? && e.run.Got?
      && !EligibleSource(e.run.value, o.recovery.value, Expectation(s.walletId, o.chainId, IntendedRecovery(o)))
    case CursorExpectationMismatch =>
      && AtGates(s.phase) && e.CursorRead? && e.cursor.Got?
      && e.cursor.value != Some(Cursor(o.expectedCursorFrom, s.loop.expectedTo))
    case FirstWindowStartMismatch =>
      && s.phase.WindowGates? && e == CursorRead(Got(Some(Cursor(o.expectedCursorFrom, s.loop.expectedTo))))
      && s.loop.iteration == 0 && !AtFirstWindow(o)
    case ActiveOperationConflict => AtGates(s.phase) && e.ActiveRuns? && e.count.Got? && e.count.value > 0
    case PolicyLabelCollision =>
      && e.LabelList? && e.labels.Got? && LabelAtStake(o, s.phase).Some?
      && LabelAtStake(o, s.phase).value in e.labels.value
    case PolicyLabelOverlong =>
      if s.phase.RecoveryGates? then
        e.SourceRunRead? && o.recovery.Some? && |IntendedRecovery(o).policyLabel| > POLICY_LABEL_MAX_LENGTH
      else
        && s.phase.WindowGates? && e.CursorRead?
        && |IntendedWindow(o, s.loop.iteration).request.policyLabel| > POLICY_LABEL_MAX_LENGTH
    case ServerUnhealthy => e.Health? && !e.ok && AtGates(s.phase)
    case FabricatedContaminationPreGate =>
      && AtGates(s.phase) && e.Rows? && e.check.FabricatedTransfers? && e.count.Got? && e.count.value > 0
      && RangeAtStake(o, s.phase) == Some((e.startBlock, e.endBlock))
    case ManualSyncSubmitFailed => SubmitRefused(s, e) && s.phase.target.OrdinaryWindow?
    case RecoveryManualSyncSubmitFailed => SubmitRefused(s, e) && s.phase.target.RecoveryWindow?
    case AmbiguousSubmissionUnrecoverable => NotReconciled(o, s, e) && s.phase.target.OrdinaryWindow?
    case RecoveryAmbiguousSubmissionUnrecoverable => NotReconciled(o, s, e) && s.phase.target.RecoveryWindow?
    case PollTimeout => TimedOut(s, e) && s.phase.target.OrdinaryWindow?
    case RecoveryPollTimeout => TimedOut(s, e) && s.phase.target.RecoveryWindow?
    case InvariantFailedAfterRun => e.Write? && e.acknowledged && e.record.WindowResult? && !e.record.clean
    case RecoveryInvariantFailedAfterRun => e.Write? && e.acknowledged && e.record.RecoveryResult? && !e.record.clean
    case CheckpointFailed => e.Write? && e.acknowledged && e.record.Checkpoint? && !e.record.ok
    case UnexpectedError => Failure(e) && !s.phase.Starting?
    case _ => false
  }

  /** The step turned into a stop, and for a cause. */
  predicate Caused(o: Options, s: State, e: Event, next: Phase) {
    && (next.Stopping? ==> Trigger(o, s, e, next.summary.reason))
    && (next.Ended? && !next.summary.reason.Clean() ==>
          next.summary.reason.EvidenceAppendFailed? && e.Write? && !e.acknowledged)
  }

  lemma StartCaused(o: Options, s: State, h: History, e: Event)
    requires Inv(o, s, h) && s.phase.Starting?
    ensures Caused(o, s, e, NextStart(o, s, s.phase.start, e).phase)
  {
  }

  lemma RecoveryGateCaused(o: Options, s: State, h: History, e: Event)
    requires Inv(o, s, h) && s.phase.RecoveryGates?
    ensures Caused(o, s, e, NextRecoveryGate(o, s, s.phase.gate, e).phase)
  {
    hide EligibleSource, WindowLabel, RecoveryLabel;
  }

  lemma CursorCaused(o: Options, s: State, h: History, cursor: Cursor, e: Event)
    requires Inv(o, s, h) && s.phase.WindowGates? && s.phase.gate.AwaitCursor?
    requires cursor == Cursor(o.expectedCursorFrom, s.loop.expectedTo) && e == CursorRead(Got(Some(cursor)))
    ensures Caused(o, s, e, AfterCursor(o, s, cursor).phase)
  {
    hide Spaced, LogicalWindowNumber, WindowLabel;
    PlannerMeetsIntent(o, s.loop.iteration);
    CursorMatched(o, s, h, cursor);
  }

  lemma WindowGateCaused(o: Options, s: State, h: History, e: Event)
    requires Inv(o, s, h) && s.phase.WindowGates?
    ensures Caused(o, s, e, NextWindowGate(o, s, s.phase.gate, s.phase.plan, e).phase)
  {
    hide Progress, Spaced, AfterCursor, IntendedWindow, AtFirstWindow;
    if s.phase.gate.AwaitCursor? && e == CursorRead(Got(Some(Cursor(o.expectedCursorFrom, s.loop.expectedTo)))) {
      CursorCaused(o, s, h, Cursor(o.expectedCursorFrom, s.loop.expectedTo), e);
    }
  }

  lemma SubmitCaused(o: Options, s: State, e: Event)
    requires o.checkpointInterval > 0 && s.phase.Submitting?
    ensures Caused(o, s, e, NextSubmit(o, s, s.phase.target, s.phase.request, s.phase.submit, e).phase)
  {
    hide Accepts, Identifies, IntendedWindow, IntendedRecovery;
  }

  lemma CheckCaused(o: Options, s: State, e: Event)
    requires s.phase.Checking?
    ensures Caused(o, s, e, NextCheck(o, s, s.phase.check, e).phase)
  {
    hide PlannedWithinBoundary, CursorMatches;
  }

  lemma StepCaused(o: Options, s: State, h: History, e: Event)
    requires Inv(o, s, h) && !s.phase.Stopping?
    ensures Caused(o, s, e, Next(o, s, e).phase)
  {
    hide NextStart, NextRecoveryGate, NextWindowGate, NextSubmit, NextCheck, Trigger, InvGates, InvSubmit, InvCounted,
      InvRecovery, FreshCounters, Outcome, CleanOutcome;
    match s.phase
    case Starting(_) => StartCaused(o, s, h, e);
    case RecoveryGates(_) => RecoveryGateCaused(o, s, h, e);
    case WindowGates(_, _) => WindowGateCaused(o, s, h, e);
    case Submitting(_, _, _) => SubmitCaused(o, s, e);
    case Checking(_) => CheckCaused(o, s, e);
    case _ =>
  }

  // ----- from the trigger to the answers

  /** The record judges a window unclean, and of the seven answers directly before it at
      least one is bad. */
  predicate WindowFailed(o: Options, log: seq<Event>, record: Record)
    requires Usable(o)
  {
    && |log| >= 7
    && match record
       case WindowResult(number, request, runId, false) =>
         && AnswersRead(log[|log| - 7..], runId, request)
         && !ChecksPassed(log[|log| - 7..], OrdinaryWindow(number), runId, o.expectedCursorFrom,
                          Expectation(WalletOf(log), o.chainId, request))
       case RecoveryResult(request, runId, false) =>
         && AnswersRead(log[|log| - 7..], runId, request)
         && !ChecksPassed(log[|log| - 7..], RecoveryWindow, runId, o.expectedCursorFrom,
                          Expectation(WalletOf(log), o.chainId, request))
       case _ => false
  }

  /** The record fails a checkpoint, and of the five answers directly before it at least
      one is bad. */
  predicate CheckpointRefuted(o: Options, log: seq<Event>, record: Record) {
    && record.Checkpoint? && !record.ok
    && |log| >= 8 && log[0].GitHead? && log[0].head.Got? && log[2].Health?
    && FactsRead(log[|log| - 5..])
    && !FactsHold(log[|log| - 5..], log[0].head.value, log[2].appEnv, ExpectedCursor(o, HistoryOf(log)))
  }

  /** The request whose gates are being passed. */
  function AtStake(o: Options, log: seq<Event>): Request {
    if o.recovery.Some? && !RecoverySettled(log) then IntendedRecovery(o)
    else IntendedWindow(o, |HistoryOf(log).posts| + |HistoryOf(log).planned|).request
  }

  /** A submission to the server failed: its POST was refused, or was ambiguous and the one
      persisted run that matches it has no id. */
  predicate Refused(log: seq<Event>, e: Event, target: Target) {
    || (e.Post? && e.target == target && e.reply.Got? && (e.reply.value.status != 202 || e.reply.value.runId == ""))
    || (&& log != [] && Last(log, 1).Post? && Last(log, 1).target == target && Last(log, 1).reply.Threw?
        && e.Candidates? && e.runs.Got? && |e.runs.value| == 1 && e.runs.value[0].id == "")
  }

  /** The POST was ambiguous, and not exactly one persisted run matches it. */
  predicate Ambiguous(o: Options, log: seq<Event>, e: Event, target: Target) {
    && log != [] && Last(log, 1).Post? && Last(log, 1).target == target && Last(log, 1).reply.Threw?
    && e.Candidates? && e.policyLabel == Last(log, 1).request.policyLabel && e.runs.Got?
    && !(|e.runs.value| == 1
         && Identifies(e.runs.value[0], Expectation(WalletOf(log), o.chainId, Last(log, 1).request)))
  }

  /** The submission's own run did not become terminal in time. */
  ghost predicate NeverTerminal(o: Options, log: seq<Event>, e: Event, target: Target) {
    && e.Polled? && e.outcome == Got(None)
    && exists request :: OwnRun(log, target, Expectation(WalletOf(log), o.chainId, request), e.runId)
  }

  /** What a stop reason stands for, in the answers of the environment: the one given
      directly before the stop, or, where a verdict is recorded in between, one of those
      read directly before that record. */
  ghost predicate Cause(o: Options, log: seq<Event>, e: Event, reason: StopReason)
    requires Usable(o)
  {
    var h, next := HistoryOf(log), AtStake(o, log);
    match reason
    case GitHeadUnavailable => log == [] && e == GitHead(Threw)
    case WorkingTreeDirty => |log| == 1 && e == WorkingTree(Got(false))
    case InitialHealthBaselineFailed => |log| == 2 && e.Health? && !e.ok
    case WalletNotFound => |log| == 3 && e == WalletLookup(Got(None))
    case RecoveryWindowNotAtCursorFrontier =>
      |log| == 4 && o.recovery.Some? && o.expectedCursorTo != next.endBlock && e == Write(CampaignStart, true)
    case RecoverySourceRunIneligible =>
      && o.recovery.Some? && e.SourceRunRead? && e.run.Got?
      && !EligibleSource(e.run.value, o.recovery.value, Expectation(WalletOf(log), o.chainId, next))
    case CursorExpectationMismatch => e.CursorRead? && e.cursor.Got? && e.cursor.value != Some(ExpectedCursor(o, h))
    case FirstWindowStartMismatch =>
      && e == CursorRead(Got(Some(ExpectedCursor(o, h)))) && h.posts == [] && h.planned == []
      && o.expectedCursorTo + 1 != next.startBlock
    case ActiveOperationConflict => |log| > 4 && e.ActiveRuns? && e.count.Got? && e.count.value > 0
    case PolicyLabelCollision => e.LabelList? && e.labels.Got? && next.policyLabel in e.labels.value
    case PolicyLabelOverlong => (e.CursorRead? || e.SourceRunRead?) && |next.policyLabel| > 128
    case ServerUnhealthy => |log| > 4 && e.Health? && !e.ok
    case FabricatedContaminationPreGate =>
      && e.Rows? && e.check.FabricatedTransfers? && e.count.Got? && e.count.value > 0
      && e.startBlock == next.startBlock && e.endBlock == next.endBlock
    case ManualSyncSubmitFailed => exists number :: Refused(log, e, OrdinaryWindow(number))
    case RecoveryManualSyncSubmitFailed => Refused(log, e, RecoveryWindow)
    case AmbiguousSubmissionUnrecoverable => exists number :: Ambiguous(o, log, e, OrdinaryWindow(number))
    case RecoveryAmbiguousSubmissionUnrecoverable => Ambiguous(o, log, e, RecoveryWindow)
    case PollTimeout => exists number :: NeverTerminal(o, log, e, OrdinaryWindow(number))
    case RecoveryPollTimeout => NeverTerminal(o, log, e, RecoveryWindow)
    case InvariantFailedAfterRun => e.Write? && e.acknowledged && e.record.WindowResult?
      && WindowFailed(o, log, e.record)
    case RecoveryInvariantFailedAfterRun =>
      e.Write? && e.acknowledged && e.record.RecoveryResult? && WindowFailed(o, log, e.record)
    case CheckpointFailed => e.Write? && e.acknowledged && CheckpointRefuted(o, log, e.record)
    case UnexpectedError => |log| > 4 && Failure(e)
    case _ => false
  }

  lemma RecordHasCause(o: Options, log: seq<Event>, e: Event, reason: StopReason)
    requires Usable(o) && Follows(o, log + [e]) && Trigger(o, Replay(o, log), e, reason)
    requires reason.InvariantFailedAfterRun? || reason.RecoveryInvariantFailedAfterRun? || reason.CheckpointFailed?
    ensures Cause(o, log, e, reason)
  {
    hide Replay, CheckOptions, HistoryOf, FactsHold, ChecksPassed, EligibleSource, ReconciledWith, OwnRun, AtStake,
      WalletOf;
    match e.record
    case WindowResult(number, request, runId, clean) =>
      EveryVerdictIsEarned(o, log, OrdinaryWindow(number), request, runId, clean, e.acknowledged);
    case RecoveryResult(request, runId, clean) =>
      EveryVerdictIsEarned(o, log, RecoveryWindow, request, runId, clean, e.acknowledged);
    case Checkpoint(processed, completed, ok) =>
      EveryCheckpointIsEarned(o, log, processed, completed, ok, e.acknowledged);
    case _ =>
  }

  lemma StartHasCause(o: Options, log: seq<Event>, e: Event, reason: StopReason)
    requires Usable(o) && Replay(o, log).phase.Starting? && Trigger(o, Replay(o, log), e, reason) && Follows(o, log)
    requires Next(o, Replay(o, log), e).phase.Stopping? && Next(o, Replay(o, log), e).phase.summary.reason == reason
    ensures Cause(o, log, e, reason)
  {
    hide Replay, CheckOptions, HistoryOf, NextRecoveryGate, NextWindowGate, NextSubmit, NextCheck, RecoverySettled;
    BaselineKept(o, log);
    ReportAlwaysKept(o, log);
  }

  /** What is at stake at a gate, and where the cursor is expected there. */
  lemma StakeAtGate(o: Options, log: seq<Event>)
    requires Usable(o) && Follows(o, log) && AtGates(Replay(o, log).phase)
    ensures var s, h := Replay(o, log), HistoryOf(log);
      && |log| > 4 && s.walletId == WalletOf(log)
      && Cursor(o.expectedCursorFrom, s.loop.expectedTo) == ExpectedCursor(o, h)
      && (s.phase.RecoveryGates? ==> o.recovery.Some? && AtStake(o, log) == IntendedRecovery(o))
      && (s.phase.WindowGates? ==>
            && s.loop.iteration == |h.posts| + |h.planned|
            && AtStake(o, log) == IntendedWindow(o, s.loop.iteration).request
            && (!s.phase.gate.AwaitCursor? ==> s.phase.plan.request == AtStake(o, log)))
  {
    hide Replay, HistoryOf, CheckOptions, Spaced, IntendedWindow, IntendedRecovery, RecoverySettled, SourceAccepted,
      JudgedClean;
    EveryRun(o, log);
    ReportAlwaysKept(o, log);
    StartRead(o, log);
    ExpectedAtGate(o, Replay(o, log), HistoryOf(log));
  }

  lemma ExpectedAtGate(o: Options, s: State, h: History)
    requires Inv(o, s, h) && AtGates(s.phase)
    ensures Cursor(o.expectedCursorFrom, s.loop.expectedTo) == ExpectedCursor(o, h)
  {
    hide Spaced;
  }

  lemma GateHasCause(o: Options, log: seq<Event>, e: Event, reason: StopReason)
    requires Usable(o) && Follows(o, log) && AtGates(Replay(o, log).phase) && Trigger(o, Replay(o, log), e, reason)
    requires Next(o, Replay(o, log), e).phase.Stopping? && Next(o, Replay(o, log), e).phase.summary.reason == reason
    ensures Cause(o, log, e, reason)
  {
    hide Next, Replay, CheckOptions, HistoryOf, AtStake, EligibleSource, ExpectedCursor, WalletOf, IntendedWindow,
      IntendedRecovery, AtFirstWindow;
    StakeAtGate(o, log);
    GateStops(o, Replay(o, log), e);
    FirstStart(o);
  }

  lemma FirstStart(o: Options)
    ensures AtFirstWindow(o) <==> o.expectedCursorTo + 1 == IntendedWindow(o, 0).request.startBlock
  {
  }

  /** A gate that stops has been answered. */
  lemma GateStops(o: Options, s: State, e: Event)
    requires Usable(o) && AtGates(s.phase) && Next(o, s, e).phase.Stopping?
    ensures s.phase.WindowGates? && !e.CursorRead? ==> !s.phase.gate.AwaitCursor?
    ensures !e.GitHead? && !e.WorkingTree? && !e.WalletLookup? && !e.Polled? && !e.Candidates? && !e.Post? && !e.Write?
  {
    hide EligibleSource, PlanWindow, LabelFits, ForwardAdjacent, PlanningEdge, CursorMatches, EffectiveFirstWindowStart,
      Budget, AfterCursor, IntendedRecovery, CheckOptions, NextStart, NextSubmit, NextCheck;
  }

  lemma SubmissionHasCause(o: Options, log: seq<Event>, e: Event, reason: StopReason)
    requires Usable(o) && Follows(o, log) && Replay(o, log).phase.Submitting? && Trigger(o, Replay(o, log), e, reason)
    requires !reason.InvariantFailedAfterRun? && !reason.RecoveryInvariantFailedAfterRun? && !reason.CheckpointFailed?
    requires Next(o, Replay(o, log), e).phase.Stopping? && Next(o, Replay(o, log), e).phase.summary.reason == reason
    ensures Cause(o, log, e, reason)
  {
    hide Next, CheckOptions, HistoryOf, AtStake, Identifies, OwnRun;
    var s := Replay(o, log);
    StartRead(o, log);
    SubmissionStops(o, s, e);
    if s.phase.submit.AwaitCandidates? {
      var n := |log|;
      assert log[..n - 1] + [log[n - 1]] == log;
      EnteredCandidates(o, Replay(o, log[..n - 1]), log[n - 1], s.phase.target, s.phase.request);
    }
    if s.phase.submit.AwaitPoll? {
      PollIsOwn(o, log, s.phase.target, s.phase.request, s.phase.submit.runId);
    }
    if s.phase.target.OrdinaryWindow? {
      assert s.phase.target == OrdinaryWindow(s.phase.target.number);
    }
  }

  lemma SubmissionStops(o: Options, s: State, e: Event)
    requires Usable(o) && s.phase.Submitting? && Next(o, s, e).phase.Stopping?
    ensures s.phase.submit.AwaitCandidates? ==> e.Candidates? && e.policyLabel == s.phase.request.policyLabel
    ensures !e.GitHead? && !e.WorkingTree? && !e.WalletLookup? && !e.Health? && !e.LabelList? && !e.SourceRunRead?
  {
    hide Accepts, ReconciledWith, CursorMatches, NextRowCheck, AfterWindow, CheckOptions, NextStart, NextRecoveryGate,
      NextWindowGate, NextCheck;
  }

  lemma TriggerHasCause(o: Options, log: seq<Event>, e: Event, reason: StopReason)
    requires Usable(o) && Follows(o, log) && Follows(o, log + [e]) && Trigger(o, Replay(o, log), e, reason)
    requires Next(o, Replay(o, log), e).phase.Stopping? && Next(o, Replay(o, log), e).phase.summary.reason == reason
    ensures Cause(o, log, e, reason)
  {
    hide Next, Replay, CheckOptions, HistoryOf, Trigger, AtStake, Cause;
    var phase := Replay(o, log).phase;
    StopLeaves(o, Replay(o, log), e);
    if reason.InvariantFailedAfterRun? || reason.RecoveryInvariantFailedAfterRun? || reason.CheckpointFailed? {
      RecordHasCause(o, log, e, reason);
    } else if phase.Starting? {
      StartHasCause(o, log, e, reason);
    } else if AtGates(phase) {
      GateHasCause(o, log, e, reason);
    } else if phase.Submitting? {
      SubmissionHasCause(o, log, e, reason);
    } else {
      CheckHasCause(o, log, e, reason);
    }
  }

  lemma StopLeaves(o: Options, s: State, e: Event)
    requires Usable(o) && Next(o, s, e).phase.Stopping?
    ensures s.phase.Starting? || AtGates(s.phase) || s.phase.Submitting? || s.phase.Checking?
  {
    hide CheckOptions, NextStart, NextRecoveryGate, NextWindowGate, NextSubmit, NextCheck;
  }

  lemma CheckHasCause(o: Options, log: seq<Event>, e: Event, reason: StopReason)
    requires Usable(o) && Follows(o, log) && Replay(o, log).phase.Checking? && Trigger(o, Replay(o, log), e, reason)
    requires !reason.CheckpointFailed? && !reason.InvariantFailedAfterRun? && !reason.RecoveryInvariantFailedAfterRun?
    requires Next(o, Replay(o, log), e).phase.Stopping? && Next(o, Replay(o, log), e).phase.summary.reason == reason
    ensures Cause(o, log, e, reason)
  {
    hide Next, Replay, CheckOptions, HistoryOf, AtStake, EligibleSource;
    StartRead(o, log);
    CheckStops(o, Replay(o, log), e);
  }

  lemma CheckStops(o: Options, s: State, e: Event)
    requires Usable(o) && s.phase.Checking? && Next(o, s, e).phase.Stopping?
    ensures !e.SourceRunRead?
  {
    hide CheckOptions, NextStart, NextRecoveryGate, NextWindowGate, NextSubmit;
  }

  /** A finished run that is not clean either failed to append a mandatory record, which
      is then its last interaction, or attempted a stop record for its reason directly
      after what that reason stands for in the answers of the environment. */
  lemma StopReasonsAreTruthful(o: Options, log: seq<Event>, summary: Summary)
    requires Usable(o) && Finished(o, log, summary) && !summary.reason.Clean()
    ensures |log| >= 1 && Last(log, 1).Write?
    ensures if summary.reason.EvidenceAppendFailed? then !Last(log, 1).acknowledged
            else |log| >= 2 && Last(log, 1).record == StopRecord(summary.reason)
                 && Cause(o, log[..|log| - 2], Last(log, 2), summary.reason)
  {
    hide Next, Trigger, Cause, CheckOptions;
    assert |log| >= 1;
    var before := log[..|log| - 1];
    EveryRun(o, before);
    var s := Replay(o, before);
    if s.phase.Stopping? {
      StoppingEnds(o, s, Last(log, 1), summary);
      var prefix, e := log[..|log| - 2], Last(log, 2);
      assert |log| >= 2 && before[..|log| - 2] == prefix && before == prefix + [e];
      EveryRun(o, prefix);
      EnteredStopping(o, Replay(o, prefix), e);
      StepCaused(o, Replay(o, prefix), HistoryOf(prefix), e);
      NoAppendFailureStops(o, Replay(o, prefix), e);
      StuckIsFinal(o, Replay(o, prefix), e);
      TriggerHasCause(o, prefix, e, summary.reason);
    } else {
      StepCaused(o, s, HistoryOf(before), Last(log, 1));
    }
  }

  lemma StoppingEnds(o: Options, s: State, e: Event, summary: Summary)
    requires o.windowSize > 0 && o.checkpointInterval > 0 && s.phase.Stopping? && Next(o, s, e).phase == Ended(summary)
    ensures e.Write? && e.record == StopRecord(summary.reason) && s.phase.summary == summary
  {
  }

  /** A stop is entered but once. */
  lemma EnteredStopping(o: Options, s: State, e: Event)
    requires o.windowSize > 0 && o.checkpointInterval > 0 && Next(o, s, e).phase.Stopping?
    ensures !s.phase.Stopping?
  {
  }

  lemma NoAppendFailureStops(o: Options, s: State, e: Event)
    ensures !Trigger(o, s, e, EvidenceAppendFailed)
  {
  }
}
