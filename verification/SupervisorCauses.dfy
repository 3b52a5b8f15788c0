/** Every stop reason of the supervisor names the answer that caused it. */
module SupervisorCauses {
  import opened Base
  import opened SyncPrimitives
  import opened SupervisorPlan
  import opened SupervisorMachine
  import opened SupervisorTheorems
  import opened SupervisorVerdicts
  import ChildLabels
  import Campaign = CampaignPlan

  predicate Failure(e: Event) {
    match e
    case GitHead(head) => head.Threw?
    case WorkingTree(clean) => clean.Threw?
    case CursorRead(cursor) => cursor.Threw?
    case TerminalRuns(_, runs) => runs.Threw?
    case _ => false
  }

  /** The stop reasons that come with a record about the child. */
  predicate BlamesChild(reason: StopReason) {
    || reason.ChildProcessAmbiguousTermination? || reason.ChildResultNotClean?
    || reason.CanonicalCursorMismatchAfterChild? || reason.DryRunUnexpectedMutation?
  }

  /** The answer, in the state in which it came, that triggers a stop. */
  predicate Trigger(so: SupervisorOptions, s: State, e: Event, reason: StopReason) {
    match reason
    case GitHeadUnavailable => e == GitHead(Threw) && s.phase == Starting(AwaitHead)
    case WorkingTreeDirty => e == WorkingTree(Got(false)) && s.phase == Starting(AwaitTree)
    case InitialHealthBaselineFailed => e.Health? && (!e.ok || e.appEnv.None?) && s.phase == Starting(AwaitBaseline)
    case WalletNotFound => e == WalletLookup(Got(None)) && s.phase == Starting(AwaitWallet)
    case Interrupted => e == InterruptCheck(true)
    case CanonicalCursorMissing => e == CursorRead(Got(None)) && s.phase.AwaitCursor?
    case RepositoryDriftDetected =>
      && e.WorkingTree? && e.clean.Got? && s.phase.AwaitDrift? && s.phase.drift.DriftTree?
      && (!e.clean.value || !s.phase.drift.headOk)
    case HealthCheckFailed => e.Health? && !e.ok && s.phase.AwaitDrift?
    case EnvironmentDriftDetected => e.Health? && e.ok && e.appEnv != Some(s.appEnv) && s.phase.AwaitDrift?
    case CanonicalStateInvalid =>
      && s.phase.AwaitDrift? && s.phase.drift.DriftHealth? && e.Health?
      && !Reachable(so, PlanningCursor(so, s, s.phase.cursor))
    case PriorTerminalOperationNotVerifiedClean =>
      && s.phase.AwaitTerminalRuns? && e.TerminalRuns? && e.endBlock == s.phase.cursor.toBlock
      && e.runs.Got? && !PriorOperationClean(e.runs.value)
    case ChildCampaignIdInvalid =>
      && s.phase.AwaitDrift? && s.phase.drift.DriftHealth? && e.Health?
      && !Campaign.ValidCampaignId(ChildCampaignId(so.campaignIdPrefix, s.nextNumber))
    case ChildProcessSpawnFailed => e.Spawn? && e.result.Threw?
    case UnexpectedError => Failure(e) && !s.phase.Starting?
    case _ => false
  }

  /** What a child is blamed for, in the state in which the answer came. */
  predicate ChildTrigger(so: SupervisorOptions, s: State, e: Event, plan: ChildPlan, reason: StopReason) {
    match reason
    case ChildProcessAmbiguousTermination => e.Spawn? && e.plan == plan && e.result.Got? && e.result.value.signalled
    case ChildResultNotClean =>
      && e.Spawn? && e.plan == plan && e.result.Got? && !e.result.value.signalled
      && !CleanResult(e.result.value, so.execute, plan.maxWindows)
    case CanonicalCursorMismatchAfterChild =>
      so.execute && e.CursorRead? && e.cursor.Got? && !CursorAfterChild(e.cursor.value, plan)
    case DryRunUnexpectedMutation =>
      !so.execute && e.CursorRead? && e.cursor.Got? && s.phase.AwaitCursorAfter?
        && e.cursor.value != Some(s.phase.cursor)
    case _ => false
  }

  lemma AfterDriftCaused(so: SupervisorOptions, s: State, live: Cursor, e: Event)
    requires Acceptable(so) && s.phase.AwaitDrift? && s.phase.cursor == live && s.phase.drift.DriftHealth? && e.Health?
    ensures var next := AfterDrift(so, s, live).phase;
      && !next.Ended? && !next.AwaitFailureRecord?
      && (next.Stopping? ==> !BlamesChild(next.summary.reason) && Trigger(so, s, e, next.summary.reason))
  {
    hide Campaign.ValidCampaignId, ChildCampaignId;
    PlanRefusedIff(PlanningCursor(so, s, live), so.windowSize, so.campaignMaxWindows, so.authorizedFinalBlock,
      s.nextNumber);
  }

  lemma StopCaused(so: SupervisorOptions, s: State, e: Event)
    requires Acceptable(so) && Next(so, s, e).phase.Stopping?
    ensures !s.phase.Stopping?
    ensures var reason := Next(so, s, e).phase.summary.reason;
      if s.phase.AwaitFailureRecord? then s.phase.reason == reason && e == Write(ChildFailure(s.phase.plan), true)
      else !BlamesChild(reason) && Trigger(so, s, e, reason)
  {
    hide AfterDrift, PlanFor, PriorOperationClean, CleanResult, CursorAfterChild, Reachable;
    if s.phase.AwaitDrift? && s.phase.drift.DriftHealth? && e.Health? {
      AfterDriftCaused(so, s, s.phase.cursor, e);
    }
  }

  lemma FailureCaused(so: SupervisorOptions, s: State, e: Event)
    requires Acceptable(so) && Next(so, s, e).phase.AwaitFailureRecord?
    ensures BlamesChild(Next(so, s, e).phase.reason)
    ensures ChildTrigger(so, s, e, Next(so, s, e).phase.plan, Next(so, s, e).phase.reason)
  {
    hide PlanFor, PriorOperationClean, CleanResult, CursorAfterChild;
  }

  lemma EndCaused(so: SupervisorOptions, s: State, e: Event, summary: Summary)
    requires Acceptable(so) && Next(so, s, e).phase == Ended(summary) && !summary.reason.Clean()
    ensures e.Write?
    ensures !s.phase.Stopping? ==> summary.reason.EvidenceAppendFailed? && !e.acknowledged
    ensures s.phase.Stopping? ==> s.phase.summary == summary && e.record == StopRecord(summary.reason)
  {
    hide PlanFor, PriorOperationClean, CleanResult, CursorAfterChild;
  }

  lemma NoAppendFailureStops(so: SupervisorOptions, s: State, e: Event)
    ensures !Trigger(so, s, e, EvidenceAppendFailed)
  {
  }

  // ----- from the trigger to the answers

  /** The n-th interaction from the end read this cursor. */
  predicate ReadAt(log: seq<Event>, n: nat, live: Cursor) {
    1 <= n <= |log| && Last(log, n) == CursorRead(Got(Some(live)))
  }

  /** The number of the next child: past the labels read, one for each child spawned. */
  ghost predicate NextNumber(so: SupervisorOptions, log: seq<Event>, number: nat) {
    && LabelsRead(log).Some?
    && number == |HistoryOf(log).spawned|
         + ChildLabels.StartingNumber(LabelsRead(log).value, so.policyLabelPrefix, so.campaignIdPrefix)
  }

  /** What a stop reason stands for, in the answers of the environment: the one given last,
      with what was read before it in this run. */
  ghost predicate Cause(so: SupervisorOptions, log: seq<Event>, e: Event, reason: StopReason)
    requires Acceptable(so)
  {
    match reason
    case GitHeadUnavailable => log == [] && e == GitHead(Threw)
    case WorkingTreeDirty => |log| == 1 && e == WorkingTree(Got(false))
    case InitialHealthBaselineFailed => |log| == 2 && e.Health? && (!e.ok || e.appEnv.None?)
    case WalletNotFound => |log| == 3 && e == WalletLookup(Got(None))
    case Interrupted => e == InterruptCheck(true)
    case CanonicalCursorMissing => e == CursorRead(Got(None))
    case RepositoryDriftDetected =>
      && |log| > 6 && e.WorkingTree? && e.clean.Got? && Last(log, 1).GitHead? && Last(log, 1).head.Got?
      && (!e.clean.value || Last(log, 1) != log[0])
    case HealthCheckFailed => |log| > 6 && e.Health? && !e.ok
    case EnvironmentDriftDetected => |log| > 6 && e.Health? && e.ok && e != log[2]
    case CanonicalStateInvalid =>
      exists live :: ReadAt(log, 3, live) && !Reachable(so, PlannedFrom(so, HistoryOf(log), live))
    case PriorTerminalOperationNotVerifiedClean =>
      && e.TerminalRuns? && e.runs.Got? && !OneCleanTransfersRun(e.runs.value)
      && exists live :: ReadAt(log, 4, live) && live.fromBlock != live.toBlock == e.endBlock == so.authorizedFinalBlock
    case ChildCampaignIdInvalid =>
      exists number :: NextNumber(so, log, number)
        && !Campaign.ValidCampaignId(ChildCampaignId(so.campaignIdPrefix, number))
    case ChildProcessSpawnFailed => e.Spawn? && e.result.Threw?
    case UnexpectedError => |log| > 5 && Failure(e)
    case _ => false
  }

  /** What a child is blamed for, in the answer that follows its spawn or is given by it. */
  predicate ChildCause(so: SupervisorOptions, log: seq<Event>, e: Event, plan: ChildPlan, reason: StopReason) {
    match reason
    case ChildProcessAmbiguousTermination => e.Spawn? && e.plan == plan && e.result.Got? && e.result.value.signalled
    case ChildResultNotClean =>
      && e.Spawn? && e.plan == plan && e.result.Got? && !e.result.value.signalled
      && !Completed(e.result.value, if so.execute then plan.maxWindows else 0, plan.maxWindows)
    case CanonicalCursorMismatchAfterChild =>
      && so.execute && e.CursorRead? && e.cursor.Got?
      && e.cursor.value != Some(Cursor(plan.anchorFrom, plan.finalBlock))
      && log != [] && Last(log, 1).Spawn? && Last(log, 1).plan == plan
    case DryRunUnexpectedMutation =>
      && !so.execute && e.CursorRead? && e.cursor.Got?
      && |log| >= 6 && Last(log, 1).Spawn? && Last(log, 1).plan == plan
      && Last(log, 6).CursorRead? && Last(log, 6) != e
    case _ => false
  }

  /** A supervisor past its start that goes on has more than five interactions behind it. */
  lemma PastStart(so: SupervisorOptions, log: seq<Event>)
    requires Acceptable(so) && Follows(so, log)
    requires var phase := Replay(so, log).phase;
      !phase.Starting? && !phase.Stopping? && !phase.Ended? && !phase.Crashed?
    ensures |log| > 5 && StartPassed(so, Replay(so, log), log, 6)
  {
    hide Replay;
    BaselineKept(so, log);
  }

  lemma EnteredDriftTree(so: SupervisorOptions, s: State, e: Event)
    requires Acceptable(so) && Next(so, s, e).phase.AwaitDrift? && Next(so, s, e).phase.drift.DriftTree?
    ensures e.GitHead? && e.head.Got? && Next(so, s, e).head == s.head
    ensures Next(so, s, e).phase.drift.headOk <==> e.head.value == s.head
  {
    hide PlanFor, PriorOperationClean, CleanResult, CursorAfterChild, Campaign.ValidCampaignId, ChildCampaignId;
  }

  lemma TreeDriftCaused(so: SupervisorOptions, log: seq<Event>)
    requires Acceptable(so) && Follows(so, log)
    requires Replay(so, log).phase.AwaitDrift? && Replay(so, log).phase.drift.DriftTree?
    ensures |log| > 6 && Last(log, 1).GitHead? && Last(log, 1).head.Got?
    ensures Replay(so, log).phase.drift.headOk <==> Last(log, 1) == log[0]
  {
    hide Next, StartAnswer, Follows;
    PastStart(so, log);
    var front := log[..|log| - 1];
    StuckStays(so, Replay(so, front), Last(log, 1));
    EnteredDriftTree(so, Replay(so, front), Last(log, 1));
    assert StartAnswer(so, Replay(so, log), log[0], 0);
    HeadRead(so, Replay(so, log), log[0]);
    if |log| == 6 {
      assert StartAnswer(so, Replay(so, log), log[5], 5);
      NoHeadRead(so, Replay(so, log), log[5]);
    }
  }

  lemma HeadRead(so: SupervisorOptions, s: State, e: Event)
    requires StartAnswer(so, s, e, 0)
    ensures e == GitHead(Got(s.head))
  {
  }

  lemma NoHeadRead(so: SupervisorOptions, s: State, e: Event)
    requires StartAnswer(so, s, e, 5)
    ensures !e.GitHead?
  {
  }

  lemma ServerRead(so: SupervisorOptions, s: State, e: Event)
    requires StartAnswer(so, s, e, 2)
    ensures e == Health(true, Some(s.appEnv))
  {
  }

  lemma HealthDriftCaused(so: SupervisorOptions, log: seq<Event>)
    requires Acceptable(so) && Follows(so, log)
    requires Replay(so, log).phase.AwaitDrift? && Replay(so, log).phase.drift.DriftHealth?
    ensures |log| > 6 && log[2] == Health(true, Some(Replay(so, log).appEnv))
    ensures var s, h := Replay(so, log), HistoryOf(log);
      && ReadAt(log, 3, s.phase.cursor) && PlanningCursor(so, s, s.phase.cursor) == PlannedFrom(so, h, s.phase.cursor)
      && NextNumber(so, log, s.nextNumber)
  {
    hide Next, Replay, HistoryOf, LabelsRead, StartAnswer, PlanFor, ChildLabels.StartingNumber;
    assert log[..|log|] == log;
    PastStart(so, log);
    var s := Replay(so, log);
    assert StartAnswer(so, s, log[2], 2);
    ServerRead(so, s, log[2]);
    DriftGated(so, log, |log|);
    DriftHistory(so, log, |log|);
    AlwaysNumbered(so, log);
  }

  lemma DriftStepOf(so: SupervisorOptions, s: State, e: Event, reason: StopReason)
    requires Acceptable(so) && s.phase.AwaitDrift? && Next(so, s, e).phase.Stopping?
    requires Next(so, s, e).phase.summary.reason == reason
    ensures s.phase.drift.DriftHead? ==> e == GitHead(Threw)
    ensures s.phase.drift.DriftTree? ==> e.WorkingTree?
    ensures s.phase.drift.DriftHealth? ==> e.Health?
  {
    hide PlanFor, PriorOperationClean, CleanResult, CursorAfterChild, Campaign.ValidCampaignId, ChildCampaignId;
  }

  lemma DriftCaused(so: SupervisorOptions, log: seq<Event>, e: Event, reason: StopReason)
    requires Acceptable(so) && Follows(so, log) && Replay(so, log).phase.AwaitDrift?
    requires Next(so, Replay(so, log), e).phase.Stopping? && Next(so, Replay(so, log), e).phase.summary.reason == reason
    requires Trigger(so, Replay(so, log), e, reason)
    ensures Cause(so, log, e, reason)
  {
    hide Next, Replay, HistoryOf, Reachable, PriorOperationClean, OneCleanTransfersRun, Campaign.ValidCampaignId,
      PlannedFrom, ChildCampaignId, LabelsRead, NextNumber, ReadAt, StartPassed;
    var s := Replay(so, log);
    DriftStepOf(so, s, e, reason);
    PastStart(so, log);
    match s.phase.drift
    case DriftHead =>
    case DriftTree(_) => TreeDriftCaused(so, log);
    case DriftHealth => HealthDriftCaused(so, log);
  }

  lemma TriggerHasCause(so: SupervisorOptions, log: seq<Event>, e: Event, reason: StopReason)
    requires Acceptable(so) && Follows(so, log)
    requires Next(so, Replay(so, log), e).phase.Stopping? && Next(so, Replay(so, log), e).phase.summary.reason == reason
    requires Trigger(so, Replay(so, log), e, reason)
    ensures Cause(so, log, e, reason)
  {
    hide Next, Replay, HistoryOf, Reachable, PriorOperationClean, OneCleanTransfersRun, Campaign.ValidCampaignId,
      PlannedFrom, ChildCampaignId, LabelsRead, NextNumber, ReadAt, StartPassed;
    var s := Replay(so, log);
    StopLeaves(so, s, e);
    if e.TerminalRuns? && e.runs.Got? {
      PriorOperationIffOneClean(e.runs.value);
    }
    if s.phase.AwaitDrift? {
      DriftCaused(so, log, e, reason);
    } else if s.phase.Starting? {
      BaselineKept(so, log);
    } else {
      PastStart(so, log);
      if s.phase.AwaitTerminalRuns? {
        CursorAtTarget(so, log);
      }
    }
  }

  /** The terminal evidence is asked for after the drift gates, for a live cursor at the
      target that has moved from its anchor. */
  lemma CursorAtTarget(so: SupervisorOptions, log: seq<Event>)
    requires Acceptable(so) && Follows(so, log) && Replay(so, log).phase.AwaitTerminalRuns?
    ensures var live := Replay(so, log).phase.cursor;
      ReadAt(log, 4, live) && live.fromBlock != live.toBlock == so.authorizedFinalBlock
  {
    hide Next, PlanFor, DriftFree;
    assert log != [];
    var n := |log|;
    EnteredTerminalRuns(so, Replay(so, log[..n - 1]), log[n - 1]);
    CursorAlwaysTracked(so, log);
    DriftPassed(so, log, n - 1, Replay(so, log).phase.cursor);
  }

  lemma StopLeaves(so: SupervisorOptions, s: State, e: Event)
    requires Acceptable(so) && Next(so, s, e).phase.Stopping?
    ensures !s.phase.Stopping? && !s.phase.Ended? && !s.phase.Crashed?
  {
  }

  /** The cursor that a dry run read before the spawn. */
  lemma CursorBeforeSpawn(so: SupervisorOptions, log: seq<Event>)
    requires Acceptable(so) && Replay(so, log).phase.AwaitCursorAfter?
    ensures |log| >= 6 && Last(log, 1).Spawn? && Last(log, 1).plan == Replay(so, log).phase.plan
    ensures ReadAt(log, 6, Replay(so, log).phase.cursor)
  {
    hide Next, PlanFor, CleanResult;
    var n := |log|;
    assert n >= 1;
    EnteredCursorAfter(so, Replay(so, log[..n - 1]), log[n - 1], Replay(so, log).phase.plan);
    SpawnCursorRead(so, log, n - 1);
  }

  lemma BlameHasCause(so: SupervisorOptions, log: seq<Event>, e: Event)
    requires Acceptable(so) && Next(so, Replay(so, log), e).phase.AwaitFailureRecord?
    ensures BlamesChild(Next(so, Replay(so, log), e).phase.reason)
    ensures ChildCause(so, log, e, Next(so, Replay(so, log), e).phase.plan, Next(so, Replay(so, log), e).phase.reason)
  {
    hide Next, Replay, Completed, CleanResult;
    var s := Replay(so, log);
    FailureCaused(so, s, e);
    if e.Spawn? {
      CleanIffCompleted(e.result.value, so.execute, e.plan.maxWindows);
    } else {
      BlamedAfterSpawn(so, s, e);
      CursorBeforeSpawn(so, log);
    }
  }

  lemma BlamedAfterSpawn(so: SupervisorOptions, s: State, e: Event)
    requires Acceptable(so) && Next(so, s, e).phase.AwaitFailureRecord? && !e.Spawn?
    ensures s.phase.AwaitCursorAfter? && s.phase.plan == Next(so, s, e).phase.plan
  {
    hide PlanFor, PriorOperationClean, CleanResult, CursorAfterChild;
  }

  /** A finished supervisor run that is not clean either failed to append a mandatory
      record, which is then its last interaction, or attempted a stop record for its
      reason directly after the very answer that reason stands for; a child is blamed
      directly after a durable record about it, which follows what it is blamed for. */
  lemma StopReasonsAreTruthful(so: SupervisorOptions, log: seq<Event>, summary: Summary)
    requires Acceptable(so) && Finished(so, log, summary) && !summary.reason.Clean()
    ensures |log| >= 1 && Last(log, 1).Write?
    ensures summary.reason.EvidenceAppendFailed? ==> !Last(log, 1).acknowledged
    ensures !summary.reason.EvidenceAppendFailed? ==> |log| >= 2 && Last(log, 1).record == StopRecord(summary.reason)
    ensures BlamesChild(summary.reason) ==>
      && |log| >= 3 && Last(log, 2).Write? && Last(log, 2).acknowledged && Last(log, 2).record.ChildFailure?
      && ChildCause(so, log[..|log| - 3], Last(log, 3), Last(log, 2).record.plan, summary.reason)
    ensures !BlamesChild(summary.reason) && !summary.reason.EvidenceAppendFailed? ==>
      Cause(so, log[..|log| - 2], Last(log, 2), summary.reason)
  {
    hide Next, Cause, ChildCause, Trigger;
    var n := |log|;
    assert n >= 1;
    var s := Replay(so, log[..n - 1]);
    EndCaused(so, s, log[n - 1], summary);
    if s.phase.Stopping? {
      assert n >= 2 && log[..n - 1][..n - 2] == log[..n - 2];
      var t := Replay(so, log[..n - 2]);
      StopCaused(so, t, log[n - 2]);
      NoAppendFailureStops(so, t, log[n - 2]);
      StuckStays(so, t, log[n - 2]);
      if t.phase.AwaitFailureRecord? {
        assert n >= 3 && log[..n - 2][..n - 3] == log[..n - 3];
        BlameHasCause(so, log[..n - 3], log[n - 3]);
      } else {
        TriggerHasCause(so, log[..n - 2], log[n - 2], summary.reason);
      }
    }
  }

  // ----- what the summary of a run amounts to

  /** Whatever the reason, the summary counts the children with a durable success record
      and names the last of them. */
  lemma SummaryCountsChildren(so: SupervisorOptions, log: seq<Event>, summary: Summary)
    requires Acceptable(so) && Finished(so, log, summary)
    ensures var succeeded := HistoryOf(log).succeeded;
      && summary.childrenCompleted == |succeeded|
      && summary.lastChildNumber == if succeeded == [] then None else Some(Last(succeeded, 1).number)
  {
    hide Replay, HistoryOf, Inv, Counted;
    EveryRun(so, log);
    EndedCounts(so, Replay(so, log), HistoryOf(log));
    CountedChildren(so, Replay(so, log), HistoryOf(log));
  }

  lemma EndedCounts(so: SupervisorOptions, s: State, h: History)
    requires Acceptable(so) && Inv(so, s, h) && s.phase.Ended?
    ensures Counted(so, s, h) && s.phase.summary == SummaryOf(s, s.phase.summary.reason)
  {
    hide Counted, AtTarget, Unfinished;
  }

  lemma CountedChildren(so: SupervisorOptions, s: State, h: History)
    requires Acceptable(so) && Counted(so, s, h)
    ensures s.completed == |h.succeeded|
    ensures s.lastNumber == if h.succeeded == [] then None else Some(Last(h.succeeded, 1).number)
  {
    hide SimulatedEdge, Planned;
  }
}
