/** The campaign runner as a program against an arbitrary environment. Each injected
    dependency answers as it pleases; the ghost log keeps every interaction, and the
    ghost state is the protocol automaton after that log. */
module CampaignRunner {
  import opened Base
  import opened SyncPrimitives
  import opened RecoveryWarnings
  import opened CampaignPlan
  import opened CampaignMachine
  import opened CampaignSafety
  import opened CampaignTheorems
  import CampaignStart
  import opened CampaignVerdicts

  /** A run returns a summary, or rejects before any evidence was written. */
  datatype Outcome = Returned(summary: Summary) | Rejected

  datatype Posted = Submitted(runId: string) | NotSubmitted(reason: StopReason)

  datatype Judged = Judgement(runId: string, clean: bool) | Aborted(reason: StopReason)

  datatype Gated = Planned(plan: WindowPlan) | Refusal(reason: StopReason)

  datatype Flow = Proceed | Finish(summary: Summary)

  class Campaign {
    const o: Options
    ghost var log: seq<Event>
    ghost var state: State

    ghost predicate Valid()
      reads this
    {
      Usable(o) && state == Replay(o, log)
    }

    constructor (options: Options)
      ensures o == options && log == []
      ensures Usable(o) ==> Valid()
    {
      o := options;
      log := [];
      if Usable(options) {
        state := Init(options);
      }
    }

    // ----- the injected dependencies

    ghost method Note(e: Event)
      requires Valid()
      modifies this
      ensures Valid() && log == old(log) + [e] && state == Next(o, old(state), e)
    {
      ReplaySnoc(o, log, e);
      log, state := log + [e], Next(o, state, e);
    }

    method GetGitHead() returns (head: Reply<string>)
      requires Valid()
      modifies this
      ensures Valid() && log == old(log) + [GitHead(head)] && state == Next(o, old(state), GitHead(head))
    {
      head := *;
      Note(GitHead(head));
    }

    method IsWorkingTreeClean() returns (clean: Reply<bool>)
      requires Valid()
      modifies this
      ensures Valid() && log == old(log) + [WorkingTree(clean)] && state == Next(o, old(state), WorkingTree(clean))
    {
      clean := *;
      Note(WorkingTree(clean));
    }

    method CheckServerHealth() returns (ok: bool, appEnv: Option<string>)
      requires Valid()
      modifies this
      ensures Valid() && log == old(log) + [Health(ok, appEnv)] && state == Next(o, old(state), Health(ok, appEnv))
    {
      ok, appEnv := *, *;
      Note(Health(ok, appEnv));
    }

    method ResolveWallet() returns (id: Reply<Option<string>>)
      requires Valid()
      modifies this
      ensures Valid() && log == old(log) + [WalletLookup(id)] && state == Next(o, old(state), WalletLookup(id))
    {
      id := *;
      Note(WalletLookup(id));
    }

    method GetLiveCursor() returns (cursor: Reply<Option<Cursor>>)
      requires Valid()
      modifies this
      ensures Valid() && log == old(log) + [CursorRead(cursor)] && state == Next(o, old(state), CursorRead(cursor))
    {
      cursor := *;
      Note(CursorRead(cursor));
    }

    method FindSourceRun() returns (run: Reply<Option<SyncRun>>)
      requires Valid()
      modifies this
      ensures Valid() && log == old(log) + [SourceRunRead(run)] && state == Next(o, old(state), SourceRunRead(run))
    {
      run := *;
      Note(SourceRunRead(run));
    }

    method CountActiveOperations() returns (count: Reply<nat>)
      requires Valid()
      modifies this
      ensures Valid() && log == old(log) + [ActiveRuns(count)] && state == Next(o, old(state), ActiveRuns(count))
    {
      count := *;
      Note(ActiveRuns(count));
    }

    method ListPolicyLabels() returns (labels: Reply<seq<string>>)
      requires Valid()
      modifies this
      ensures Valid() && log == old(log) + [LabelList(labels)] && state == Next(o, old(state), LabelList(labels))
    {
      labels := *;
      Note(LabelList(labels));
    }

    method CountRows(check: RowCheck, start: int, end: int) returns (count: Reply<nat>)
      requires Valid()
      modifies this
      ensures Valid() && log == old(log) + [Rows(check, start, end, count)]
      ensures state == Next(o, old(state), Rows(check, start, end, count))
    {
      count := *;
      Note(Rows(check, start, end, count));
    }

    method HttpPost(target: Target, request: Request) returns (reply: Reply<Response>)
      requires Valid()
      modifies this
      ensures Valid() && log == old(log) + [Post(target, request, reply)]
      ensures state == Next(o, old(state), Post(target, request, reply))
    {
      reply := *;
      Note(Post(target, request, reply));
    }

    method FindCandidates(policyLabel: string) returns (runs: Reply<seq<SyncRun>>)
      requires Valid()
      modifies this
      ensures Valid() && log == old(log) + [Candidates(policyLabel, runs)]
      ensures state == Next(o, old(state), Candidates(policyLabel, runs))
    {
      runs := *;
      Note(Candidates(policyLabel, runs));
    }

    method PollToTerminal(runId: string) returns (outcome: Reply<Option<SyncRun>>)
      requires Valid()
      modifies this
      ensures Valid() && log == old(log) + [Polled(runId, outcome)]
      ensures state == Next(o, old(state), Polled(runId, outcome))
    {
      outcome := *;
      Note(Polled(runId, outcome));
    }

    method CheckEvidenceWritable() returns (writable: Reply<bool>)
      requires Valid()
      modifies this
      ensures Valid() && log == old(log) + [EvidenceWritable(writable)]
      ensures state == Next(o, old(state), EvidenceWritable(writable))
    {
      writable := *;
      Note(EvidenceWritable(writable));
    }

    method WriteEvidence(record: Record) returns (acknowledged: bool)
      requires Valid()
      modifies this
      ensures Valid() && log == old(log) + [Write(record, acknowledged)]
      ensures state == Next(o, old(state), Write(record, acknowledged))
    {
      acknowledged := *;
      Note(Write(record, acknowledged));
    }

    /** Writes the stop record as far as possible; its failure changes nothing. */
    method StopCampaign(
        ghost summary: Summary, reason: StopReason, windowsCompleted: nat, lastWindowNumber: Option<nat>,
                        checkpointsPassed: nat, recovery: Option<RecoveryReport>)
      returns (result: Summary)
      requires Valid() && state.phase == Stopping(summary)
      requires summary == Summary(reason, windowsCompleted, lastWindowNumber, checkpointsPassed, recovery)
      modifies this
      ensures Valid() && result == summary && state.phase == Ended(summary)
      ensures |log| == |old(log)| + 1 && log[..|old(log)|] == old(log)
    {
      var _ := WriteEvidence(StopRecord(reason));
      result := Summary(reason, windowsCompleted, lastWindowNumber, checkpointsPassed, recovery);
    }

    // ----- one submission

    method PostWindow(target: Target, request: Request, walletId: string) returns (posted: Posted)
      requires Valid() && state.phase == Submitting(target, request, AwaitPost) && walletId == state.walletId
      modifies this
      ensures Valid()
      ensures posted.Submitted? ==> state == old(state).(phase := Submitting(target, request, AwaitPoll(posted.runId)))
      ensures posted.NotSubmitted? ==> state == HaltSubmission(old(state), target, posted.reason, posted.reason)
    {
      hide Replay, Usable, NextStart, NextRecoveryGate, NextWindowGate, NextCheck, AfterRecoveryRecord,
        AfterWindowRecord, Accepts, CursorMatches;
      var reply := HttpPost(target, request);
      var runId := "";
      if reply.Threw? {
        var candidates := FindCandidates(request.policyLabel);
        if candidates.Threw? {
          return NotSubmitted(UnexpectedError);
        }
        if |candidates.value| != 1 || !Identifies(candidates.value[0], Expectation(walletId, o.chainId, request)) {
          return NotSubmitted(
            SubmissionStop(target, RecoveryAmbiguousSubmissionUnrecoverable, AmbiguousSubmissionUnrecoverable));
        }
        runId := candidates.value[0].id;
      } else if reply.value.status == 202 {
        runId := reply.value.runId;
      }
      if runId == "" {
        return NotSubmitted(SubmissionStop(target, RecoveryManualSyncSubmitFailed, ManualSyncSubmitFailed));
      }
      return Submitted(runId);
    }

    method JudgeRun(target: Target, request: Request, walletId: string, runId: string) returns (judged: Judged)
      requires Valid() && state.phase == Submitting(target, request, AwaitPoll(runId)) && walletId == state.walletId
      modifies this
      ensures Valid()
      ensures judged.Judgement? ==>
        && judged.runId == runId
        && state == (if target.RecoveryWindow? then WithRecovery(old(state), RecoveryReport(true, judged.clean))
             else old(state))
                    .(phase := Submitting(target, request, AwaitResultRecord(runId, judged.clean)))
      ensures judged.Aborted? ==> state == HaltSubmission(old(state), target, judged.reason, judged.reason)
    {
      hide Replay, Usable, NextStart, NextRecoveryGate, NextWindowGate, NextCheck, AfterRecoveryRecord,
        AfterWindowRecord, StrictlyClean, RecoveryAcceptable, ReconciledWith;
      var outcome := PollToTerminal(runId);
      if outcome.Threw? {
        return Aborted(UnexpectedError);
      }
      if outcome.value.None? {
        return Aborted(SubmissionStop(target, RecoveryPollTimeout, PollTimeout));
      }
      var want := Expectation(walletId, o.chainId, request);
      var reasons;
      if target.RecoveryWindow? {
        reasons := VerifyRecoveryWindowTerminalState(outcome.value.value, want);
      } else {
        reasons := VerifyWindowTerminalState(outcome.value.value, want);
      }
      var terminalOk := reasons == [];
      var cursorAfter := GetLiveCursor();
      if cursorAfter.Threw? {
        return Aborted(UnexpectedError);
      }
      var cursorOk := terminalOk && CursorMatches(cursorAfter.value, Cursor(o.expectedCursorFrom, request.endBlock));
      judged := CheckRowsAfter(target, request, runId, cursorOk);
    }

    method CheckRowsAfter(target: Target, request: Request, runId: string, cleanSoFar: bool) returns (judged: Judged)
      requires Valid() && state.phase == Submitting(target, request, AwaitRows(FabricatedTransfers, runId, cleanSoFar))
      modifies this
      ensures Valid()
      ensures judged.Judgement? ==>
        && judged.runId == runId
        && state == (if target.RecoveryWindow? then WithRecovery(old(state), RecoveryReport(true, judged.clean))
             else old(state))
                    .(phase := Submitting(target, request, AwaitResultRecord(runId, judged.clean)))
      ensures judged.Aborted? ==> state == HaltSubmission(old(state), target, judged.reason, judged.reason)
    {
      hide Replay, Usable, NextStart, NextRecoveryGate, NextWindowGate, NextCheck, AfterRecoveryRecord,
        AfterWindowRecord, Accepts, ReconciledWith, CursorMatches;
      var clean := cleanSoFar;
      var contamination := CountRows(FabricatedTransfers, request.startBlock, request.endBlock);
      if contamination.Threw? { return Aborted(UnexpectedError); }
      clean := clean && contamination.value == 0;
      var transactions := CountRows(DuplicateTransactions, request.startBlock, request.endBlock);
      if transactions.Threw? { return Aborted(UnexpectedError); }
      judged := CheckMoreRowsAfter(target, request, runId, clean && transactions.value == 0);
    }

    method CheckMoreRowsAfter(target: Target, request: Request, runId: string, cleanSoFar: bool)
      returns (judged: Judged)
      requires Valid() && state.phase == Submitting(target, request, AwaitRows(DuplicateTransfers, runId, cleanSoFar))
      modifies this
      ensures Valid()
      ensures judged.Judgement? ==>
        && judged.runId == runId
        && state == (if target.RecoveryWindow? then WithRecovery(old(state), RecoveryReport(true, judged.clean))
             else old(state))
                    .(phase := Submitting(target, request, AwaitResultRecord(runId, judged.clean)))
      ensures judged.Aborted? ==> state == HaltSubmission(old(state), target, judged.reason, judged.reason)
    {
      hide Replay, Usable, NextStart, NextRecoveryGate, NextWindowGate, NextCheck, AfterRecoveryRecord,
        AfterWindowRecord, Accepts, ReconciledWith, CursorMatches;
      var clean := cleanSoFar;
      var transfers := CountRows(DuplicateTransfers, request.startBlock, request.endBlock);
      if transfers.Threw? { return Aborted(UnexpectedError); }
      clean := clean && transfers.value == 0;
      var entries := CountRows(DuplicateLedgerEntries, request.startBlock, request.endBlock);
      if entries.Threw? { return Aborted(UnexpectedError); }
      clean := clean && entries.value == 0;
      var active := CountActiveOperations();
      if active.Threw? { return Aborted(UnexpectedError); }
      return Judgement(runId, clean && active.value == 0);
    }

    // ----- the gates before an ordinary window

    method GateWindow(iteration: nat, expectedTo: int, simulatedTo: Option<int>) returns (gated: Gated)
      requires Valid() && state.phase.WindowGates? && state.phase.gate.AwaitCursor?
      requires state.loop.iteration == iteration && state.loop.expectedTo == expectedTo
      requires state.loop.simulatedTo == simulatedTo
      modifies this
      ensures Valid()
      ensures gated.Planned? ==> state == old(state).(
        lastPlannedEnd := Some(gated.plan.request.endBlock),
        phase := if o.execute then Submitting(OrdinaryWindow(gated.plan.windowNumber), gated.plan.request, AwaitPost)
                 else WindowGates(AwaitPlanRecord, gated.plan))
      ensures gated.Refusal? ==> state == Halt(old(state), gated.reason)
    {
      hide Replay, NextStart, NextRecoveryGate, NextSubmit, NextCheck, AfterWindow, PlanWindow;
      var cursor := GetLiveCursor();
      if cursor.Threw? {
        return Refusal(UnexpectedError);
      }
      if !CursorMatches(cursor.value, Cursor(o.expectedCursorFrom, expectedTo)) {
        return Refusal(CursorExpectationMismatch);
      }
      var edge := if !o.execute && simulatedTo.Some? then simulatedTo.value else cursor.value.value.toBlock;
      var start := NextWindowStart(edge);
      if iteration == 0 && start != EffectiveFirstWindowStart(o) {
        return Refusal(FirstWindowStartMismatch);
      }
      assert ForwardAdjacent(edge, start);
      var planned := PlanWindow(o, edge);
      if planned.None? {
        return Refusal(UnexpectedError);
      }
      var plan := planned.value;
      if plan.request.endBlock > o.authorizedFinalBlock {
        return Refusal(AuthorizedFinalBlockExceeded);
      }
      if |plan.request.policyLabel| > POLICY_LABEL_MAX_LENGTH {
        return Refusal(PolicyLabelOverlong);
      }
      gated := GateServer(plan);
    }

    method GateServer(plan: WindowPlan) returns (gated: Gated)
      requires Valid() && state.phase == WindowGates(AwaitActive, plan)
      modifies this
      ensures Valid()
      ensures gated.Planned? ==> gated.plan == plan && state == old(state).(
        lastPlannedEnd := Some(plan.request.endBlock),
        phase := if o.execute then Submitting(OrdinaryWindow(plan.windowNumber), plan.request, AwaitPost)
                 else WindowGates(AwaitPlanRecord, plan))
      ensures gated.Refusal? ==> state == Halt(old(state), gated.reason)
    {
      hide Replay, NextStart, NextRecoveryGate, NextSubmit, NextCheck, AfterWindow, AfterCursor;
      var active := CountActiveOperations();
      if active.Threw? { return Refusal(UnexpectedError); }
      if active.value > 0 { return Refusal(ActiveOperationConflict); }
      var labels := ListPolicyLabels();
      if labels.Threw? { return Refusal(UnexpectedError); }
      if plan.request.policyLabel in labels.value { return Refusal(PolicyLabelCollision); }
      var healthy, _ := CheckServerHealth();
      if !healthy { return Refusal(ServerUnhealthy); }
      var contamination := CountRows(FabricatedTransfers, plan.request.startBlock, plan.request.endBlock);
      if contamination.Threw? { return Refusal(UnexpectedError); }
      if contamination.value > 0 { return Refusal(FabricatedContaminationPreGate); }
      return Planned(plan);
    }

    // ----- checkpoints

    /** Re-verifies the campaign-level invariants; None means the check itself threw. */
    method ReadCheckpoint(startHead: string, startAppEnv: Option<string>, expectedTo: int, lastPlannedEnd: Option<int>)
      returns (ok: Option<bool>)
      requires Valid() && state.phase == Checking(CheckHead)
      requires startHead == state.head && startAppEnv == state.appEnv
      requires expectedTo == state.loop.expectedTo && lastPlannedEnd == state.lastPlannedEnd
      modifies this
      ensures Valid()
      ensures ok.Some? ==> state == old(state).(phase := Checking(CheckRecord(ok.value)))
      ensures ok.Some? ==> |log| == |old(log)| + 5 && FactsRead(log[|old(log)|..])
      ensures ok.Some? ==> (ok.value <==>
        && FactsHold(log[|old(log)|..], startHead, startAppEnv, Cursor(o.expectedCursorFrom, expectedTo))
        && (lastPlannedEnd.Some? ==> lastPlannedEnd.value <= o.authorizedFinalBlock))
      ensures ok.None? ==> state == Halt(old(state), UnexpectedError)
    {
      hide Replay, NextStart, NextRecoveryGate, NextWindowGate, NextSubmit, Advance;
      var same := ReadSurroundings(startHead, startAppEnv);
      if same.None? { return None; }
      var cursor := GetLiveCursor();
      if cursor.Threw? { return None; }
      var writable := CheckEvidenceWritable();
      if writable.Threw? { return None; }
      return Some(
        && same.value
        && CursorMatches(cursor.value, Cursor(o.expectedCursorFrom, expectedTo))
        && (lastPlannedEnd.None? || lastPlannedEnd.value <= o.authorizedFinalBlock)
        && writable.value);
    }

    /** The repository and the server are those the campaign started with. */
    method ReadSurroundings(startHead: string, startAppEnv: Option<string>) returns (same: Option<bool>)
      requires Valid() && state.phase == Checking(CheckHead)
      requires startHead == state.head && startAppEnv == state.appEnv
      modifies this
      ensures Valid()
      ensures same.Some? ==> state == old(state).(phase := Checking(CheckCursor(same.value)))
      ensures same.Some? ==>
        && |log| == |old(log)| + 3
        && log[|old(log)|].GitHead? && log[|old(log)|].head.Got?
        && log[|old(log)| + 1].WorkingTree? && log[|old(log)| + 1].clean.Got?
        && log[|old(log)| + 2].Health?
        && (same.value <==>
              && log[|old(log)|].head.value == startHead && log[|old(log)| + 1].clean.value
              && log[|old(log)| + 2].ok && log[|old(log)| + 2].appEnv == startAppEnv)
      ensures same.None? ==> state == Halt(old(state), UnexpectedError)
    {
      hide Replay, NextStart, NextRecoveryGate, NextWindowGate, NextSubmit, Advance, CursorMatches,
        PlannedWithinBoundary;
      var head := GetGitHead();
      if head.Threw? { return None; }
      var tree := IsWorkingTreeClean();
      if tree.Threw? { return None; }
      var healthy, appEnv := CheckServerHealth();
      return Some(head.value == startHead && tree.value && healthy && appEnv == startAppEnv);
    }

    // ----- the recovery step before the loop

    /** The bounded recovery step; the caller goes on only if `flow` says so. */
    method RunRecovery(walletId: string) returns (flow: Flow)
      requires Valid() && o.recovery.Some? && walletId == state.walletId
      requires state.phase == RecoveryGates(AwaitCursor)
      requires state.loop == Init(o).loop.(recovery := Some(RecoveryReport(false, false)))
      modifies this
      ensures Valid()
      ensures flow.Finish? ==> state.phase == Ended(flow.summary)
      ensures flow.Proceed? ==> state == old(state).(
        phase := WindowGates(AwaitCursor, NO_PLAN),
        loop := old(state).loop.(recovery := Some(RecoveryReport(true, o.execute)),
          processed := if o.execute then 1 else 0))
    {
      hide Replay, NextStart, NextWindowGate, NextCheck, AfterWindowRecord, Accepts, ReconciledWith, IntendedRecovery;
      var request := IntendedRecovery(o);
      var eligible, reason := GateRecoverySource(request, walletId);
      var report := RecoveryReport(eligible, false);
      if reason.Some? {
        var stopped :=
          StopCampaign(Summary(reason.value, 0, None, 0, Some(report)), reason.value, 0, None, 0, Some(report));
        return Finish(stopped);
      }
      if !o.execute {
        var acknowledged := WriteEvidence(RecoveryPlanned(request));
        if !acknowledged {
          return Finish(Summary(EvidenceAppendFailed, 0, None, 0, Some(report)));
        }
        return Proceed;
      }
      var posted := PostWindow(RecoveryWindow, request, walletId);
      if posted.NotSubmitted? {
        var stopped :=
          StopCampaign(Summary(posted.reason, 0, None, 0, Some(report)), posted.reason, 0, None, 0, Some(report));
        return Finish(stopped);
      }
      var judged := JudgeRun(RecoveryWindow, request, walletId, posted.runId);
      if judged.Aborted? {
        var stopped :=
          StopCampaign(Summary(judged.reason, 0, None, 0, Some(report)), judged.reason, 0, None, 0, Some(report));
        return Finish(stopped);
      }
      flow := RecordRecovery(request, judged.runId, judged.clean);
    }

    method RecordRecovery(request: Request, runId: string, clean: bool) returns (flow: Flow)
      requires Valid() && state.phase == Submitting(RecoveryWindow, request, AwaitResultRecord(runId, clean))
      requires state.loop.recovery == Some(RecoveryReport(true, clean))
      requires state.loop.windowsCompleted == state.loop.checkpointsPassed == 0 && state.loop.lastWindowNumber == None
      modifies this
      ensures Valid()
      ensures flow.Finish? ==> state.phase == Ended(flow.summary)
      ensures flow.Proceed? ==> clean && state == old(state).(
        phase := WindowGates(AwaitCursor, NO_PLAN), loop := old(state).loop.(processed := 1))
    {
      hide Replay, NextStart, NextRecoveryGate, NextWindowGate, NextCheck, AfterWindowRecord, Accepts, ReconciledWith;
      var report := RecoveryReport(true, clean);
      var acknowledged := WriteEvidence(RecoveryResult(request, runId, clean));
      if !acknowledged {
        return Finish(Summary(EvidenceAppendFailed, 0, None, 0, Some(report)));
      }
      if !clean {
        var stopped := StopCampaign(Summary(RecoveryInvariantFailedAfterRun, 0, None, 0, Some(report)),
          RecoveryInvariantFailedAfterRun, 0, None, 0, Some(report));
        return Finish(stopped);
      }
      return Proceed;
    }

    /** Proves the source run eligible and then gates the recovery window. */
    method GateRecoverySource(request: Request, walletId: string) returns (eligible: bool, reason: Option<StopReason>)
      requires Valid() && o.recovery.Some? && request == IntendedRecovery(o) && walletId == state.walletId
      requires state.phase == RecoveryGates(AwaitCursor) && state.loop.recovery == Some(RecoveryReport(false, false))
      modifies this
      ensures Valid()
      ensures reason.Some? ==>
        state == HaltRecovery(WithRecovery(old(state), RecoveryReport(eligible, false)), reason.value)
      ensures reason.None? ==> eligible && state == WithRecovery(old(state), RecoveryReport(true, false)).(
        phase := if o.execute then Submitting(RecoveryWindow, request, AwaitPost) else RecoveryGates(AwaitPlanRecord))
    {
      hide Replay, NextStart, NextWindowGate, NextSubmit, NextCheck, EligibleSource, IntendedRecovery;
      eligible := false;
      var cursor := GetLiveCursor();
      if cursor.Threw? { return false, Some(UnexpectedError); }
      if !CursorMatches(cursor.value, Cursor(o.expectedCursorFrom, o.expectedCursorTo)) {
        return false, Some(CursorExpectationMismatch);
      }
      var source := FindSourceRun();
      if source.Threw? { return false, Some(UnexpectedError); }
      if !EligibleSource(source.value, o.recovery.value, Expectation(walletId, o.chainId, request)) {
        return false, Some(RecoverySourceRunIneligible);
      }
      eligible := true;
      if |request.policyLabel| > POLICY_LABEL_MAX_LENGTH { return true, Some(PolicyLabelOverlong); }
      reason := GateRecoveryServer(request);
    }

    method GateRecoveryServer(request: Request) returns (reason: Option<StopReason>)
      requires Valid() && o.recovery.Some? && request == IntendedRecovery(o)
      requires state.phase == RecoveryGates(AwaitLabels)
      modifies this
      ensures Valid()
      ensures reason.Some? ==> state == HaltRecovery(old(state), reason.value)
      ensures reason.None? ==> state == old(state).(
        phase := if o.execute then Submitting(RecoveryWindow, request, AwaitPost) else RecoveryGates(AwaitPlanRecord))
    {
      hide Replay, NextStart, NextWindowGate, NextSubmit, NextCheck, EligibleSource, IntendedRecovery;
      var labels := ListPolicyLabels();
      if labels.Threw? { return Some(UnexpectedError); }
      if request.policyLabel in labels.value { return Some(PolicyLabelCollision); }
      var active := CountActiveOperations();
      if active.Threw? { return Some(UnexpectedError); }
      if active.value > 0 { return Some(ActiveOperationConflict); }
      var healthy, _ := CheckServerHealth();
      if !healthy { return Some(ServerUnhealthy); }
      var contamination := CountRows(FabricatedTransfers, request.startBlock, request.endBlock);
      if contamination.Threw? { return Some(UnexpectedError); }
      if contamination.value > 0 { return Some(FabricatedContaminationPreGate); }
      return None;
    }

    // ----- the start of a campaign

    /** The baselines captured before any evidence is written. */
    method StartUp() returns (result: Option<Outcome>, head: string, appEnv: Option<string>, walletId: string)
      requires Valid() && state == Init(o)
      modifies this
      ensures Valid()
      ensures result.Some? && result.value.Returned? ==> state.phase == Ended(result.value.summary)
      ensures result.Some? && result.value.Rejected? ==> state.phase == Crashed
      ensures result.None? ==>
        state == BeginWork(o,
          Init(o).(phase := Starting(AwaitStartRecord), head := head, appEnv := appEnv, walletId := walletId))
    {
      hide Replay, NextRecoveryGate, NextWindowGate, NextSubmit, NextCheck, BeginWork, CheckOptions;
      head, appEnv, walletId := "", None, "";
      var headReply := GetGitHead();
      if headReply.Threw? {
        var stopped := StopEarly(GitHeadUnavailable);
        return Some(Returned(stopped)), head, appEnv, walletId;
      }
      head := headReply.value;
      var tree := IsWorkingTreeClean();
      if tree.Threw? { return Some(Rejected), head, appEnv, walletId; }
      if !tree.value {
        var stopped := StopEarly(WorkingTreeDirty);
        return Some(Returned(stopped)), head, appEnv, walletId;
      }
      var healthy;
      healthy, appEnv := CheckServerHealth();
      if !healthy {
        var stopped := StopEarly(InitialHealthBaselineFailed);
        return Some(Returned(stopped)), head, appEnv, walletId;
      }
      var wallet := ResolveWallet();
      if wallet.Threw? { return Some(Rejected), head, appEnv, walletId; }
      if wallet.value.None? {
        var stopped := StopEarly(WalletNotFound);
        return Some(Returned(stopped)), head, appEnv, walletId;
      }
      walletId := wallet.value.value;
      var acknowledged := WriteEvidence(CampaignStart);
      if !acknowledged {
        return Some(Returned(Summary(EvidenceAppendFailed, 0, None, 0, None))), head, appEnv, walletId;
      }
      return None, head, appEnv, walletId;
    }

    method StopEarly(reason: StopReason) returns (summary: Summary)
      requires Valid() && state.phase == Stopping(Summary(reason, 0, None, 0, None))
      modifies this
      ensures Valid() && state.phase == Ended(summary)
    {
      summary := StopCampaign(Summary(reason, 0, None, 0, None), reason, 0, None, 0, None);
    }

    // ----- the loop

    /** Plans one window and, in execute mode, submits and verifies it. */
    method RunWindow(walletId: string, l: Loop) returns (flow: Flow, plan: WindowPlan)
      requires Valid() && walletId == state.walletId
      requires state.phase == WindowGates(AwaitCursor, NO_PLAN) && state.loop == l
      modifies this
      ensures Valid()
      ensures flow.Finish? ==> state.phase == Ended(flow.summary)
      ensures flow.Proceed? ==> state == AfterWindow(o, old(state).(
        lastPlannedEnd := Some(plan.request.endBlock),
        loop := if o.execute then CountWindow(l, plan) else CountPreview(l, plan)))
    {
      hide Replay, NextStart, NextRecoveryGate, NextSubmit, NextCheck, AfterCursor;
      plan := NO_PLAN;
      var gated := GateWindow(l.iteration, l.expectedTo, l.simulatedTo);
      if gated.Refusal? {
        var stopped := StopCampaign(SummaryOf(l, gated.reason, None),
          gated.reason, l.windowsCompleted, l.lastWindowNumber, l.checkpointsPassed, None);
        return Finish(stopped), plan;
      }
      plan := gated.plan;
      if !o.execute {
        var acknowledged := WriteEvidence(WindowPlanned(plan.windowNumber, plan.request));
        if !acknowledged {
          return Finish(SummaryOf(l, EvidenceAppendFailed, None)), plan;
        }
        return Proceed, plan;
      }
      flow := SubmitWindow(plan, walletId, l);
    }

    method SubmitWindow(plan: WindowPlan, walletId: string, l: Loop) returns (flow: Flow)
      requires Valid() && o.execute && walletId == state.walletId && state.loop == l
      requires state.phase == Submitting(OrdinaryWindow(plan.windowNumber), plan.request, AwaitPost)
      modifies this
      ensures Valid()
      ensures flow.Finish? ==> state.phase == Ended(flow.summary)
      ensures flow.Proceed? ==> state == AfterWindow(o, old(state).(loop := CountWindow(l, plan)))
    {
      hide Replay, Next;
      var target := OrdinaryWindow(plan.windowNumber);
      var posted := PostWindow(target, plan.request, walletId);
      if posted.NotSubmitted? {
        var stopped := StopCampaign(SummaryOf(l, posted.reason, None),
          posted.reason, l.windowsCompleted, l.lastWindowNumber, l.checkpointsPassed, None);
        return Finish(stopped);
      }
      var judged := JudgeRun(target, plan.request, walletId, posted.runId);
      if judged.Aborted? {
        var stopped := StopCampaign(SummaryOf(l, judged.reason, None),
          judged.reason, l.windowsCompleted, l.lastWindowNumber, l.checkpointsPassed, None);
        return Finish(stopped);
      }
      flow := RecordWindow(plan, judged.runId, judged.clean, l);
    }

    /** A window counts only once its clean result is durably recorded. */
    method RecordWindow(plan: WindowPlan, runId: string, clean: bool, l: Loop) returns (flow: Flow)
      requires Valid() && state.loop == l
      requires state.phase
        == Submitting(OrdinaryWindow(plan.windowNumber), plan.request, AwaitResultRecord(runId, clean))
      modifies this
      ensures Valid()
      ensures flow.Finish? ==> state.phase == Ended(flow.summary)
      ensures flow.Proceed? ==> state == AfterWindow(o, old(state).(loop := CountWindow(l, plan)))
    {
      hide Replay, NextStart, NextRecoveryGate, NextWindowGate, NextCheck, Advance, Accepts, ReconciledWith,
        AfterRecoveryRecord;
      var acknowledged := WriteEvidence(WindowResult(plan.windowNumber, plan.request, runId, clean));
      if !acknowledged {
        return Finish(SummaryOf(l, EvidenceAppendFailed, None));
      }
      if !clean {
        var number := Some(plan.windowNumber);
        var stopped :=
          StopCampaign(Summary(InvariantFailedAfterRun, l.windowsCompleted, number, l.checkpointsPassed, None),
          InvariantFailedAfterRun, l.windowsCompleted, number, l.checkpointsPassed, None);
        return Finish(stopped);
      }
      return Proceed;
    }

    /** A checkpoint passes only with all its facts read and holding, durably recorded; it
        fails only with a fact that does not hold. */
    method RunCheckpoint(startHead: string, startAppEnv: Option<string>, l: Loop, lastPlannedEnd: Option<int>)
      returns (flow: Flow)
      requires Valid() && state.phase == Checking(CheckHead) && state.loop == l
      requires startHead == state.head && startAppEnv == state.appEnv && lastPlannedEnd == state.lastPlannedEnd
      modifies this
      ensures Valid()
      ensures flow.Finish? ==> state.phase == Ended(flow.summary)
      ensures flow.Proceed? ==>
        state == Advance(o, old(state).(loop := l.(checkpointsPassed := l.checkpointsPassed + 1)))
      ensures flow.Proceed? ==>
        && |log| == |old(log)| + 6
        && FactsHold(log[|old(log)|..|old(log)| + 5], startHead, startAppEnv,
             Cursor(o.expectedCursorFrom, l.expectedTo))
        && Last(log, 1) == Write(Checkpoint(l.processed, l.windowsCompleted, true), true)
      ensures flow.Finish? && flow.summary.reason.CheckpointFailed? ==>
        && |log| == |old(log)| + 7 && FactsRead(log[|old(log)|..|old(log)| + 5])
        && !(FactsHold(log[|old(log)|..|old(log)| + 5], startHead, startAppEnv,
               Cursor(o.expectedCursorFrom, l.expectedTo))
             && (lastPlannedEnd.Some? ==> lastPlannedEnd.value <= o.authorizedFinalBlock))
    {
      hide Replay, NextStart, NextRecoveryGate, NextWindowGate, NextSubmit, Budget, CursorMatches, FactsRead, FactsHold;
      ghost var start := |log|;
      var ok := ReadCheckpoint(startHead, startAppEnv, l.expectedTo, lastPlannedEnd);
      if ok.None? {
        var stopped := StopCampaign(SummaryOf(l, UnexpectedError, None),
          UnexpectedError, l.windowsCompleted, l.lastWindowNumber, l.checkpointsPassed, None);
        return Finish(stopped);
      }
      ghost var facts := log[start..];
      var acknowledged := WriteEvidence(Checkpoint(l.processed, l.windowsCompleted, ok.value));
      assert log[start..start + 5] == facts;
      if !acknowledged {
        return Finish(SummaryOf(l, EvidenceAppendFailed, None));
      }
      if !ok.value {
        ghost var judged := log;
        var stopped := StopCampaign(SummaryOf(l, CheckpointFailed, None),
          CheckpointFailed, l.windowsCompleted, l.lastWindowNumber, l.checkpointsPassed, None);
        assert log[start..start + 5] == log[..|judged|][start..start + 5] == facts;
        return Finish(stopped);
      }
      return Proceed;
    }

    /** The ordinary windows, each followed by a checkpoint when one is due. */
    method RunLoop(startHead: string, startAppEnv: Option<string>, walletId: string, start: Loop)
      returns (summary: Summary)
      requires Valid() && state.phase == WindowGates(AwaitCursor, NO_PLAN) && state.loop == start
      requires start.iteration == 0
      requires start.windowCount == CheckOptions(o).windowCount && state.lastPlannedEnd.None?
      requires startHead == state.head && startAppEnv == state.appEnv && walletId == state.walletId
      modifies this
      ensures Valid() && state.phase == Ended(summary)
    {
      hide Replay, NextStart, NextRecoveryGate, NextWindowGate, NextSubmit, NextCheck, CheckOptions;
      var l := start;
      var lastPlannedEnd: Option<int> := None;
      var budget := EffectiveMaxWindows(o);
      while l.iteration < budget
        invariant Valid() && state.loop == l && state.lastPlannedEnd == lastPlannedEnd
        invariant l.windowCount == start.windowCount && l.recovery == start.recovery
        invariant startHead == state.head && startAppEnv == state.appEnv && walletId == state.walletId
        invariant l.iteration <= budget
        invariant state.phase == if l.iteration < budget then WindowGates(AwaitCursor, NO_PLAN) else Summarising
        decreases budget - l.iteration
      {
        var flow, plan := RunWindow(walletId, l);
        if flow.Finish? {
          return flow.summary;
        }
        lastPlannedEnd := Some(plan.request.endBlock);
        l := if o.execute then CountWindow(l, plan) else CountPreview(l, plan);
        if l.processed > 0 && l.processed % o.checkpointInterval == 0 {
          flow := RunCheckpoint(startHead, startAppEnv, l, lastPlannedEnd);
          if flow.Finish? {
            return flow.summary;
          }
          l := l.(checkpointsPassed := l.checkpointsPassed + 1);
        }
        l := l.(iteration := l.iteration + 1);
      }
      var reason := if o.maxWindows <= l.windowCount then MaxWindowsReached else AuthorizedFinalBlockReached;
      summary := Summary(reason, l.windowsCompleted, l.lastWindowNumber, l.checkpointsPassed, l.recovery);
      var acknowledged := WriteEvidence(CampaignSummary(summary));
      if !acknowledged {
        summary := summary.(reason := EvidenceAppendFailed);
      }
    }

    /** A whole run of a campaign whose options are acceptable. */
    method RunAccepted() returns (result: Outcome)
      requires Valid() && log == []
      modifies this
      ensures Valid()
      ensures result.Returned? ==> Finished(o, log, result.summary)
      ensures result.Rejected? ==> state.phase == Crashed
    {
      hide NextStart, NextRecoveryGate, NextWindowGate, NextSubmit, NextCheck, Next, CheckOptions;
      var early, head, appEnv, walletId := StartUp();
      if early.Some? {
        return early.value;
      }
      var l := Init(o).loop;
      if o.recovery.Some? {
        var report := RecoveryReport(false, false);
        l := l.(recovery := Some(report));
        if o.expectedCursorTo != o.firstWindowStart + o.windowSize - 1 {
          var stopped := StopCampaign(SummaryOf(l, RecoveryWindowNotAtCursorFrontier, Some(report)),
            RecoveryWindowNotAtCursorFrontier, 0, None, 0, Some(report));
          return Returned(stopped);
        }
        var flow := RunRecovery(walletId);
        if flow.Finish? {
          return Returned(flow.summary);
        }
        l := l.(recovery := Some(RecoveryReport(true, o.execute)), processed := if o.execute then 1 else 0);
      }
      var summary := RunLoop(head, appEnv, walletId, l);
      return Returned(summary);
    }
  }

  /** Options that fail re-validation end the run before any dependency but the
      evidence destination is touched. */
  method RunRefused(o: Options) returns (result: Outcome, log: seq<Event>)
    requires !Usable(o)
    ensures CheckOptions(o).CrashesEarly? ==> result.Rejected? && log == []
    ensures CheckOptions(o).Refused? ==>
      && result == Returned(Summary(CheckOptions(o).reason, 0, None, 0, None))
      && exists acknowledged :: log == [Write(StopRecord(CheckOptions(o).reason), acknowledged)]
    ensures HistoryOf(log) == NOTHING_YET
  {
    match CheckOptions(o)
    case CrashesEarly => return Rejected, [];
    case Refused(reason) =>
      var acknowledged: bool := *;
      log := [Write(StopRecord(reason), acknowledged)];
      assert HistoryOf(log) == Observe(HistoryOf(log[..0]), log[0]);
      return Returned(Summary(reason, 0, None, 0, None)), log;
  }

  /** The campaign runner. For every environment, the interactions it has follow the
      protocol from beginning to end, so every theorem about finished logs applies. */
  method RunCampaign(options: Options) returns (result: Outcome, ghost log: seq<Event>)
    ensures Usable(options) ==> Follows(options, log)
    ensures Usable(options) && result.Returned? ==>
      && Finished(options, log, result.summary)
      && HistoryOf(log).completed == IntendedWindows(options, result.summary.windowsCompleted)
      && HistoryOf(log).posts == IntendedWindows(options, |HistoryOf(log).posts|)
      && |HistoryOf(log).posts| <= EffectiveMaxWindows(options)
    ensures Usable(options) && result.Returned? && result.summary.reason.Clean() ==>
      && result.summary.reason == CompletionReason(options)
      && result.summary.windowsCompleted == (if options.execute then EffectiveMaxWindows(options) else 0)
      && result.summary.lastWindowNumber == Some(FirstOrdinaryNumber(options) + EffectiveMaxWindows(options) - 1)
    ensures CheckOptions(options).Refused? ==>
      result == Returned(Summary(CheckOptions(options).reason, 0, None, 0, None))
    ensures CheckOptions(options).CrashesEarly? ==> result.Rejected?
    ensures Usable(options) && result.Rejected? ==> CampaignStart.Crash(log)
    ensures result.Rejected? || !Usable(options) ==> HistoryOf(log).posts == [] && HistoryOf(log).recoveryPosts == []
  {
    if Usable(options) {
      var campaign := new Campaign(options);
      result := campaign.RunAccepted();
      log := campaign.log;
      EveryRun(options, log);
      hide Replay, Inv, HistoryOf, CheckOptions;
      if result.Returned? {
        SubmissionsAreIntended(options, log);
        EvidenceAccountsForSubmissions(options, log, result.summary);
        if result.summary.reason.Clean() {
          CleanMeansComplete(options, log, result.summary);
        }
      } else {
        SubmittedNothing(options, log);
        CampaignStart.BaselineKept(options, log);
      }
    } else {
      result, log := RunRefused(options);
    }
  }

  lemma SubmittedNothing(o: Options, log: seq<Event>)
    requires Usable(o) && Replay(o, log).phase == Crashed
    ensures HistoryOf(log) == NOTHING_YET
  {
    EveryRun(o, log);
  }
}
