/** The supervisor as a program against an arbitrary environment. Its loop ends without
    any assumption on that environment: child numbers grow, and a child id longer than
    64 characters is refused. */
module SupervisorRunner {
  import opened Base
  import opened SyncPrimitives
  import opened SupervisorPlan
  import opened SupervisorMachine
  import opened SupervisorTheorems
  import SupervisorVerdicts
  import SupervisorCauses
  import Campaign = CampaignPlan
  import ChildLabels
  import Decimal

  datatype Outcome = Returned(summary: Summary) | Rejected

  datatype Flow = Proceed | Finish(summary: Summary)

  datatype Ready = Spawnable(live: Cursor, plan: ChildPlan) | Reached(live: Cursor) | Refusal(reason: StopReason)

  class Supervisor {
    const so: SupervisorOptions
    ghost var log: seq<Event>
    ghost var state: State

    ghost predicate Valid()
      reads this
    {
      Acceptable(so) && state == Replay(so, log)
    }

    constructor (options: SupervisorOptions)
      requires Acceptable(options)
      ensures so == options && log == [] && Valid()
    {
      so := options;
      log := [];
      state := INIT;
    }

    // ----- the injected dependencies

    ghost method Note(e: Event)
      requires Valid()
      modifies this
      ensures Valid() && log == old(log) + [e] && state == Next(so, old(state), e)
    {
      ReplaySnoc(so, log, e);
      log, state := log + [e], Next(so, state, e);
    }

    method GetGitHead() returns (head: Reply<string>)
      requires Valid()
      modifies this
      ensures Valid() && log == old(log) + [GitHead(head)] && state == Next(so, old(state), GitHead(head))
    {
      head := *;
      Note(GitHead(head));
    }

    method IsWorkingTreeClean() returns (clean: Reply<bool>)
      requires Valid()
      modifies this
      ensures Valid() && log == old(log) + [WorkingTree(clean)] && state == Next(so, old(state), WorkingTree(clean))
    {
      clean := *;
      Note(WorkingTree(clean));
    }

    method CheckServerHealth() returns (ok: bool, appEnv: Option<string>)
      requires Valid()
      modifies this
      ensures Valid() && log == old(log) + [Health(ok, appEnv)] && state == Next(so, old(state), Health(ok, appEnv))
    {
      ok, appEnv := *, *;
      Note(Health(ok, appEnv));
    }

    method ResolveWallet() returns (id: Reply<Option<string>>)
      requires Valid()
      modifies this
      ensures Valid() && log == old(log) + [WalletLookup(id)] && state == Next(so, old(state), WalletLookup(id))
    {
      id := *;
      Note(WalletLookup(id));
    }

    method ListPolicyLabels() returns (labels: Reply<seq<string>>)
      requires Valid()
      modifies this
      ensures Valid() && log == old(log) + [LabelList(labels)] && state == Next(so, old(state), LabelList(labels))
    {
      labels := *;
      Note(LabelList(labels));
    }

    method IsInterrupted() returns (interrupted: bool)
      requires Valid()
      modifies this
      ensures Valid() && log == old(log) + [InterruptCheck(interrupted)]
      ensures state == Next(so, old(state), InterruptCheck(interrupted))
    {
      interrupted := *;
      Note(InterruptCheck(interrupted));
    }

    method GetLiveCursor() returns (cursor: Reply<Option<Cursor>>)
      requires Valid()
      modifies this
      ensures Valid() && log == old(log) + [CursorRead(cursor)] && state == Next(so, old(state), CursorRead(cursor))
    {
      cursor := *;
      Note(CursorRead(cursor));
    }

    method FindTerminalRuns(endBlock: int) returns (runs: Reply<seq<SyncRun>>)
      requires Valid()
      modifies this
      ensures Valid() && log == old(log) + [TerminalRuns(endBlock, runs)]
      ensures state == Next(so, old(state), TerminalRuns(endBlock, runs))
    {
      runs := *;
      Note(TerminalRuns(endBlock, runs));
    }

    method RunChildCampaign(plan: ChildPlan) returns (result: Reply<ChildResult>)
      requires Valid()
      modifies this
      ensures Valid() && log == old(log) + [Spawn(plan, result)] && state == Next(so, old(state), Spawn(plan, result))
    {
      result := *;
      Note(Spawn(plan, result));
    }

    method WriteEvidence(record: Record) returns (acknowledged: bool)
      requires Valid()
      modifies this
      ensures Valid() && log == old(log) + [Write(record, acknowledged)]
      ensures state == Next(so, old(state), Write(record, acknowledged))
    {
      acknowledged := *;
      Note(Write(record, acknowledged));
    }

    method StopSupervisor(reason: StopReason, completed: nat, lastNumber: Option<nat>) returns (summary: Summary)
      requires Valid() && state.phase == Stopping(Summary(reason, completed, lastNumber))
      modifies this
      ensures Valid() && state.phase == Ended(summary)
    {
      summary := Summary(reason, completed, lastNumber);
      var _ := WriteEvidence(StopRecord(reason));
    }

    // ----- the start

    method StartUp() returns (early: Option<Outcome>, head: string, appEnv: string, number: nat)
      requires Valid() && state == INIT
      modifies this
      ensures Valid()
      ensures early.Some? && early.value.Returned? ==> state.phase == Ended(early.value.summary)
      ensures early.Some? && early.value.Rejected? ==> state.phase == Crashed
      ensures early.None? ==>
        state == INIT.(
          phase := AwaitInterrupt, head := head, appEnv := appEnv, firstNumber := number, nextNumber := number)
    {
      hide Replay, NextDrift, AfterSpawn, AfterChildCursor, AfterSuccess, NextSummaryRecord;
      head, appEnv, number := "", "", 1;
      var headReply := GetGitHead();
      if headReply.Threw? {
        var stopped := StopSupervisor(GitHeadUnavailable, 0, None);
        return Some(Returned(stopped)), head, appEnv, number;
      }
      head := headReply.value;
      var tree := IsWorkingTreeClean();
      if tree.Threw? { return Some(Rejected), head, appEnv, number; }
      if !tree.value {
        var stopped := StopSupervisor(WorkingTreeDirty, 0, None);
        return Some(Returned(stopped)), head, appEnv, number;
      }
      var healthy, environment := CheckServerHealth();
      if !healthy || environment.None? {
        var stopped := StopSupervisor(InitialHealthBaselineFailed, 0, None);
        return Some(Returned(stopped)), head, appEnv, number;
      }
      appEnv := environment.value;
      early, number := FinishStartUp();
    }

    method FinishStartUp() returns (early: Option<Outcome>, number: nat)
      requires Valid() && state.phase == Starting(AwaitWallet)
      requires state.completed == 0 && state.lastNumber.None?
      modifies this
      ensures Valid()
      ensures early.Some? && early.value.Returned? ==> state.phase == Ended(early.value.summary)
      ensures early.Some? && early.value.Rejected? ==> state.phase == Crashed
      ensures early.None? ==> state == old(state).(phase := AwaitInterrupt, firstNumber := number, nextNumber := number)
    {
      hide Replay, NextDrift, AfterSpawn, AfterChildCursor, AfterSuccess, NextSummaryRecord, ChildLabels.StartingNumber;
      number := 1;
      var wallet := ResolveWallet();
      if wallet.Threw? { return Some(Rejected), number; }
      if wallet.value.None? {
        var stopped := StopSupervisor(WalletNotFound, 0, None);
        return Some(Returned(stopped)), number;
      }
      var labels := ListPolicyLabels();
      if labels.Threw? { return Some(Rejected), number; }
      number := ChildLabels.StartingChildNumber(labels.value, so.policyLabelPrefix, so.campaignIdPrefix);
      var acknowledged := WriteEvidence(SupervisorStart(number));
      if !acknowledged {
        return Some(Returned(Summary(EvidenceAppendFailed, 0, None))), number;
      }
      return None, number;
    }

    // ----- one iteration

    /** Re-reads canonical state and drift baselines, and plans the next child. */
    method PrepareChild(head: string, appEnv: string, number: nat, simulatedTo: Option<int>) returns (ready: Ready)
      requires Valid() && state.phase == AwaitInterrupt
      requires state.head == head && state.appEnv == appEnv && state.nextNumber == number
      requires state.simulatedTo == simulatedTo
      modifies this
      ensures Valid()
      ensures ready.Refusal? ==> state == Halt(old(state), ready.reason)
      ensures ready.Reached? ==> state == old(state).(
        phase :=
          if ready.live.fromBlock != ready.live.toBlock then AwaitTerminalRuns(ready.live) else AwaitAlreadyRecord)
      ensures ready.Spawnable? ==>
        && state == old(state).(phase := AwaitChildStart(ready.live, ready.plan))
        && ready.plan.number == number && Campaign.ValidCampaignId(ChildCampaignId(so.campaignIdPrefix, number))
    {
      hide Replay, NextStart, AfterSpawn, AfterChildCursor, AfterSuccess, NextSummaryRecord, NextChildPlan;
      var interrupted := IsInterrupted();
      if interrupted { return Refusal(Interrupted); }
      var cursor := GetLiveCursor();
      if cursor.Threw? { return Refusal(UnexpectedError); }
      if cursor.value.None? { return Refusal(CanonicalCursorMissing); }
      var live := cursor.value.value;
      var drift := CheckDrift(live, head, appEnv);
      if drift.Some? { return Refusal(drift.value); }
      var planning := if !so.execute && simulatedTo.Some? then Cursor(live.fromBlock, simulatedTo.value) else live;
      match PlanFor(so, planning, number)
      case StateInvalid => return Refusal(CanonicalStateInvalid);
      case AlreadyReached => return Reached(live);
      case Child(plan) =>
        PlanKeepsCursor(so, planning, number);
        if !Campaign.ValidCampaignId(ChildCampaignId(so.campaignIdPrefix, plan.number)) {
          return Refusal(ChildCampaignIdInvalid);
        }
        return Spawnable(live, plan);
    }

    /** The drift gates; their verdict is taken before the plan is derived. */
    method CheckDrift(live: Cursor, head: string, appEnv: string) returns (reason: Option<StopReason>)
      requires Valid() && state.phase == AwaitDrift(live, DriftHead) && state.head == head && state.appEnv == appEnv
      modifies this
      ensures Valid()
      ensures reason.Some? ==> state == Halt(old(state), reason.value)
      ensures reason.None? ==> state == AfterDrift(so, old(state), live)
    {
      hide Replay, NextStart, AfterSpawn, AfterChildCursor, AfterSuccess, NextSummaryRecord, PlanFor;
      var currentHead := GetGitHead();
      if currentHead.Threw? { return Some(UnexpectedError); }
      var tree := IsWorkingTreeClean();
      if tree.Threw? { return Some(UnexpectedError); }
      if currentHead.value != head || !tree.value { return Some(RepositoryDriftDetected); }
      var healthy, environment := CheckServerHealth();
      if !healthy { return Some(HealthCheckFailed); }
      if environment != Some(appEnv) { return Some(EnvironmentDriftDetected); }
      return None;
    }

    /** Runs one child and verifies what it left behind. */
    method RunChild(live: Cursor, plan: ChildPlan, completed: nat, lastNumber: Option<nat>) returns (flow: Flow)
      requires Valid() && state.phase == AwaitChildStart(live, plan)
      requires state.completed == completed && state.lastNumber == lastNumber
      modifies this
      ensures Valid()
      ensures flow.Finish? ==> state.phase == Ended(flow.summary)
      ensures flow.Proceed? ==> state == AfterSuccess(so,
        old(state).(simulatedTo := if so.execute then old(state).simulatedTo else Some(plan.finalBlock)), plan)
    {
      hide Replay, NextStart, NextDrift, NextSummaryRecord;
      var started := WriteEvidence(ChildStart(plan));
      if !started {
        return Finish(Summary(EvidenceAppendFailed, completed, lastNumber));
      }
      var result := RunChildCampaign(plan);
      if result.Threw? {
        var stopped := StopSupervisor(ChildProcessSpawnFailed, completed, lastNumber);
        return Finish(stopped);
      }
      if !CleanResult(result.value, so.execute, plan.maxWindows) {
        var reason := if result.value.signalled then ChildProcessAmbiguousTermination else ChildResultNotClean;
        var stopped := RecordFailure(plan, reason, completed, lastNumber);
        return Finish(stopped);
      }
      flow := VerifyChild(live, plan, completed, lastNumber);
    }

    method VerifyChild(live: Cursor, plan: ChildPlan, completed: nat, lastNumber: Option<nat>) returns (flow: Flow)
      requires Valid() && state.phase == AwaitCursorAfter(live, plan)
      requires state.completed == completed && state.lastNumber == lastNumber
      modifies this
      ensures Valid()
      ensures flow.Finish? ==> state.phase == Ended(flow.summary)
      ensures flow.Proceed? ==> state == AfterSuccess(so,
        old(state).(simulatedTo := if so.execute then old(state).simulatedTo else Some(plan.finalBlock)), plan)
    {
      hide Replay, NextStart, NextDrift, AfterSpawn, NextSummaryRecord, CursorAfterChild;
      var after := GetLiveCursor();
      if after.Threw? {
        var stopped := StopSupervisor(UnexpectedError, completed, lastNumber);
        return Finish(stopped);
      }
      if so.execute {
        if !CursorAfterChild(after.value, plan) {
          var stopped := RecordFailure(plan, CanonicalCursorMismatchAfterChild, completed, lastNumber);
          return Finish(stopped);
        }
      } else if after.value != Some(live) {
        var stopped := RecordFailure(plan, DryRunUnexpectedMutation, completed, lastNumber);
        return Finish(stopped);
      }
      var recorded := WriteEvidence(ChildSuccess(plan));
      if !recorded {
        return Finish(Summary(EvidenceAppendFailed, completed, lastNumber));
      }
      return Proceed;
    }

    method RecordFailure(plan: ChildPlan, reason: StopReason, completed: nat, lastNumber: Option<nat>)
      returns (summary: Summary)
      requires Valid() && state.phase == AwaitFailureRecord(plan, reason)
      requires state.completed == completed && state.lastNumber == lastNumber
      modifies this
      ensures Valid() && state.phase == Ended(summary)
    {
      hide Replay, NextStart, NextDrift, AfterSpawn, AfterChildCursor, AfterSuccess, NextSummaryRecord;
      var recorded := WriteEvidence(ChildFailure(plan));
      if !recorded {
        return Summary(EvidenceAppendFailed, completed, lastNumber);
      }
      summary := StopSupervisor(reason, completed, lastNumber);
    }

    /** The target was reached before this iteration: trust it only with clean
        persisted evidence, unless the cursor has never moved. */
    method ConfirmReached(live: Cursor, completed: nat, lastNumber: Option<nat>) returns (summary: Summary)
      requires Valid() && state.completed == completed && state.lastNumber == lastNumber
      requires state.phase == if live.fromBlock != live.toBlock then AwaitTerminalRuns(live) else AwaitAlreadyRecord
      modifies this
      ensures Valid() && state.phase == Ended(summary)
    {
      hide Replay, NextStart, NextDrift, AfterSpawn, AfterChildCursor, AfterSuccess, PriorOperationClean;
      if live.fromBlock != live.toBlock {
        var runs := FindTerminalRuns(live.toBlock);
        if runs.Threw? {
          summary := StopSupervisor(UnexpectedError, completed, lastNumber);
          return;
        }
        if !PriorOperationClean(runs.value) {
          summary := StopSupervisor(PriorTerminalOperationNotVerifiedClean, completed, lastNumber);
          return;
        }
      }
      summary := FinishCleanly(AuthorizedFinalBlockAlreadyReached, completed, lastNumber);
    }

    method FinishCleanly(reason: StopReason, completed: nat, lastNumber: Option<nat>) returns (summary: Summary)
      requires Valid() && state.completed == completed && state.lastNumber == lastNumber
      requires || (state.phase.AwaitAlreadyRecord? && reason.AuthorizedFinalBlockAlreadyReached?)
               || (state.phase.AwaitFinalRecord? && reason.AuthorizedFinalBlockReached?)
      modifies this
      ensures Valid() && state.phase == Ended(summary)
    {
      hide Replay, NextStart, NextDrift, AfterSpawn, AfterChildCursor, AfterSuccess, PriorOperationClean;
      summary := Summary(reason, completed, lastNumber);
      var recorded := WriteEvidence(SupervisorSummary(summary));
      if !recorded {
        summary := Summary(EvidenceAppendFailed, completed, lastNumber);
      }
    }

    /** Child after child, until the target or the first problem. */
    method RunChildren(head: string, appEnv: string, first: nat) returns (summary: Summary)
      requires Valid()
      requires state == INIT.(
        phase := AwaitInterrupt, head := head, appEnv := appEnv, firstNumber := first, nextNumber := first)
      modifies this
      ensures Valid() && state.phase == Ended(summary)
    {
      hide Replay, Next, PlanFor, CleanResult, RefusalOf, Decimal.Pow10, Campaign.ValidCampaignId;
      var number: nat := first;
      var completed: nat := 0;
      var lastNumber: Option<nat> := None;
      var simulatedTo: Option<int> := None;
      while true
        invariant Valid() && Acceptable(so)
        invariant state == State(AwaitInterrupt, head, appEnv, first, number, completed, lastNumber, simulatedTo)
        decreases if number < Decimal.Pow10(62) then Decimal.Pow10(62) - number else 0
      {
        var ready := PrepareChild(head, appEnv, number, simulatedTo);
        match ready
        case Refusal(reason) =>
          summary := StopSupervisor(reason, completed, lastNumber);
          return;
        case Reached(live) =>
          summary := ConfirmReached(live, completed, lastNumber);
          return;
        case Spawnable(live, plan) =>
          ChildLabels.ValidChildIdBoundsNumber(so.campaignIdPrefix, number);
          var flow := RunChild(live, plan, completed, lastNumber);
          if flow.Finish? {
            return flow.summary;
          }
          if !so.execute {
            simulatedTo := Some(plan.finalBlock);
          }
          completed := completed + 1;
          lastNumber := Some(plan.number);
          number := number + 1;
          if plan.finalBlock == so.authorizedFinalBlock {
            summary := FinishCleanly(AuthorizedFinalBlockReached, completed, lastNumber);
            return;
          }
      }
    }

    method RunAccepted() returns (result: Outcome)
      requires Valid() && log == []
      modifies this
      ensures Valid()
      ensures result.Returned? ==> Finished(so, log, result.summary)
      ensures result.Rejected? ==> state.phase == Crashed
    {
      hide Next, PlanFor;
      var early, head, appEnv, number := StartUp();
      if early.Some? {
        return early.value;
      }
      var summary := RunChildren(head, appEnv, number);
      return Returned(summary);
    }
  }

  /** The supervisor. For every environment its interactions follow the protocol from
      beginning to end, and it always returns: every theorem about finished logs applies.
      Unacceptable options end it with their reason after one attempted stop record. */
  method RunSupervisor(options: SupervisorOptions) returns (result: Outcome, ghost log: seq<Event>)
    ensures Acceptable(options) ==> Follows(options, log)
    ensures Acceptable(options) && result.Returned? ==>
      && Finished(options, log, result.summary)
      && result.summary.childrenCompleted == |HistoryOf(log).succeeded|
      && result.summary.lastChildNumber == (if HistoryOf(log).succeeded == [] then None
                                            else Some(Last(HistoryOf(log).succeeded, 1).number))
    ensures Acceptable(options) && result.Rejected? ==> SupervisorVerdicts.Crash(log)
    ensures Acceptable(options) ==>
      forall k :: 0 <= k < |HistoryOf(log).spawned| ==>
        HistoryOf(log).spawned[k].finalBlock <= options.authorizedFinalBlock
    ensures !Acceptable(options) ==> result == Returned(Summary(RefusalOf(options).value, 0, None))
    ensures !Acceptable(options) ==>
      && |log| == 1 && log[0].Write? && log[0].record == StopRecord(RefusalOf(options).value)
      && HistoryOf(log).spawned == []
  {
    var refusal := RefusalOf(options);
    match refusal {
      case None =>
        var supervisor := new Supervisor(options);
        result := supervisor.RunAccepted();
        log := supervisor.log;
        SpawnedChildrenAreBounded(options, log);
        if result.Returned? {
          SupervisorCauses.SummaryCountsChildren(options, log, result.summary);
        } else {
          SupervisorVerdicts.BaselineKept(options, log);
        }
      case Some(reason) =>
        var acknowledged: bool := *;
        log := [Write(StopRecord(reason), acknowledged)];
        assert HistoryOf(log) == Observe(HistoryOf(log[..0]), log[0]);
        result := Returned(Summary(reason, 0, None));
    }
  }
}
