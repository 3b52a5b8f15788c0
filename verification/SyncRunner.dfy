/** The batch sync runner as a program against an arbitrary environment. The ghost log
    keeps every interaction; whatever the answers, the log stays orderly. */
module SyncRunner {
  import opened Base
  import opened SyncPrimitives
  import opened RecoveryWarnings
  import opened SyncRunnerProtocol
  import opened SyncRunnerCauses
  import Decimal

  datatype Verdict = Pass | StopWith(reason: StopReason) | Throws

  class Runner {
    const o: Options
    ghost var log: seq<Event>
    ghost var duty: Duty

    ghost predicate Valid()
      reads this
    {
      duty == DutyAfter(o, log) && duty.Duty?
    }

    constructor (options: Options)
      ensures Valid() && o == options && log == [] && duty == START
    {
      o := options;
      log := [];
      duty := START;
    }

    // ----- the injected dependencies

    ghost method Commit(e: Event)
      requires Valid() && Step(o, duty, log, e).Duty?
      modifies this
      ensures Valid() && log == old(log) + [e] && duty == Step(o, old(duty), old(log), e)
    {
      DutySnoc(o, log, e);
      log, duty := log + [e], Step(o, duty, log, e);
    }

    method ResolveWallet() returns (id: Reply<Option<string>>)
      requires Valid()
      modifies this
      ensures Valid() && log == old(log) + [WalletLookup(id)]
      ensures duty == if id.Got? && id.value.Some? then old(duty).(walletId := id.value.value) else old(duty)
    {
      id := *;
      Commit(WalletLookup(id));
    }

    method GetLiveCursor() returns (cursor: Reply<Option<Cursor>>)
      requires Valid()
      modifies this
      ensures Valid() && log == old(log) + [CursorRead(cursor)] && duty == old(duty)
    {
      cursor := *;
      Commit(CursorRead(cursor));
    }

    method FindSourceRun() returns (source: Reply<Option<SyncRun>>)
      requires Valid()
      modifies this
      ensures Valid() && log == old(log) + [SourceRunRead(source)] && duty == old(duty)
    {
      source := *;
      Commit(SourceRunRead(source));
    }

    method ListPolicyLabels() returns (labels: Reply<seq<string>>)
      requires Valid()
      modifies this
      ensures Valid() && log == old(log) + [LabelList(labels)] && duty == old(duty)
    {
      labels := *;
      Commit(LabelList(labels));
    }

    method CountActiveOperations() returns (count: Reply<nat>)
      requires Valid()
      modifies this
      ensures Valid() && log == old(log) + [ActiveRuns(count)] && duty == old(duty)
    {
      count := *;
      Commit(ActiveRuns(count));
    }

    method CheckServerHealth() returns (ok: bool)
      requires Valid()
      modifies this
      ensures Valid() && log == old(log) + [Health(ok)] && duty == old(duty)
    {
      ok := *;
      Commit(Health(ok));
    }

    method CountRows(check: RowCheck, request: Request) returns (rows: Reply<nat>)
      requires Valid()
      modifies this
      ensures Valid() && log == old(log) + [Rows(check, request.startBlock, request.endBlock, rows)]
      ensures duty == old(duty)
    {
      rows := *;
      Commit(Rows(check, request.startBlock, request.endBlock, rows));
    }

    method PollToTerminal(runId: string) returns (outcome: Reply<Option<SyncRun>>)
      requires Valid()
      modifies this
      ensures Valid() && log == old(log) + [Polled(runId, outcome)] && duty == old(duty)
    {
      outcome := *;
      Commit(Polled(runId, outcome));
    }

    method HttpPost(request: Request) returns (reply: Reply<Response>)
      requires Valid() && AfterPost(o, duty, log, request).Duty?
      modifies this
      ensures Valid() && log == old(log) + [Post(request, reply)] && duty == AfterPost(o, old(duty), old(log), request)
    {
      reply := *;
      Commit(Post(request, reply));
    }

    /** A record takes effect only when acknowledged. */
    method WriteEvidence(record: Record) returns (acknowledged: bool)
      requires Valid() && AfterRecord(o, duty, log, record).Duty?
      modifies this
      ensures Valid() && log == old(log) + [Write(record, acknowledged)]
      ensures duty == if acknowledged then AfterRecord(o, old(duty), old(log), record) else old(duty)
    {
      acknowledged := *;
      Commit(Write(record, acknowledged));
    }

    /** Stops for a reason that the log shows. */
    method Stop(
        reason: StopReason, windowsCompleted: nat, lastWindowNumber: Option<nat>, recovery: Option<RecoveryReport>)
      returns (outcome: Outcome)
      requires Valid() && Cause(o, log, reason) && !CleanEnd(reason)
      requires windowsCompleted == (if o.execute then Counted(log) else 0)
      requires lastWindowNumber == NumberDue(log, reason) && recovery == ReportDue(o, log, reason)
      requires Started(o, log) && log[0].acknowledged
      requires |log| == 3 ==> log[1].WalletLookup? && log[1].id.Got? && log[1].id.value.Some?
      modifies this
      ensures Valid() && Truthful(o, log, outcome)
    {
      hide DutyAfter, Cause, Counted, Settled, Step;
      ghost var before := log;
      var acknowledged := WriteEvidence(StopRecord(reason));
      StopChangesNothing(before, reason, acknowledged);
      if !acknowledged {
        return Rejected;
      }
      return Returned(Summary(reason, windowsCompleted, lastWindowNumber, recovery));
    }

    method Finish(
        reason: StopReason, windowsCompleted: nat, lastWindowNumber: Option<nat>, recovery: Option<RecoveryReport>)
      returns (outcome: Outcome)
      requires Valid() && CleanEnd(reason)
      requires
        if reason.RecoveryOnlyCompleted? then
          o.recoveryOnly && o.recovery.Some? && Settled(log) && Counted(log) == 0
        else
          !o.recoveryOnly && Counted(log) == Limit(o) && (o.recovery.Some? <==> Settled(log))
      requires windowsCompleted == (if o.execute then Counted(log) else 0)
      requires lastWindowNumber == NumberDue(log, reason) && recovery == ReportDue(o, log, reason)
      requires Started(o, log) && |log| >= 2 && log[1].WalletLookup? && log[1].id.Got? && log[1].id.value.Some?
      modifies this
      ensures Valid() && Truthful(o, log, outcome)
    {
      hide DutyAfter, Counted, Settled, Step;
      ghost var before := log;
      var acknowledged := WriteEvidence(SummaryRecord(reason));
      SummaryChangesNothing(before, reason, acknowledged);
      if !acknowledged {
        return Rejected;
      }
      return Returned(Summary(reason, windowsCompleted, lastWindowNumber, recovery));
    }

    // ----- the whole run

    /** The whole invocation. The log alone shows what its outcome is worth: the reason it
        gives, the windows it counts and the recovery it reports. Whatever is counted in
        execution is proven by a durable record directly after its own accepted run. */
    method Run() returns (outcome: Outcome)
      requires Valid() && log == [] && duty == START
      modifies this
      ensures Valid() && Truthful(o, log, outcome)
      ensures outcome.Returned? && outcome.summary.recovery.Some? && outcome.summary.recovery.value.recovered ==>
        o.recovery.Some? && Proven(o, log, RecoveryRequest(o), true)
      ensures outcome.Returned? && outcome.summary.reason.RecoveryOnlyCompleted? && o.execute ==>
        o.recovery.Some? && Proven(o, log, RecoveryRequest(o), true) && Posts(log) == [RecoveryRequest(o)]
      ensures outcome.Returned? && o.execute ==>
        forall k :: 0 <= k < outcome.summary.windowsCompleted ==> Proven(o, log, WindowRequest(o, k), false)
    {
      hide DutyAfter, Posts, Proven, WindowRequest, RecoveryRequest, Counted, Settled, Cause;
      outcome := RunProtocol();
      AlwaysVouched(o, log);
      AlwaysCoherent(o, log);
      DutyRead(o, log);
    }

    /** Past its first two interactions a run has its preflight record and its wallet. */
    ghost predicate UnderWay()
      reads this
    {
      && Valid() && Started(o, log) && |log| >= 2
      && log[1].WalletLookup? && log[1].id.Got? && log[1].id.value.Some?
    }

    method RunProtocol() returns (outcome: Outcome)
      requires Valid() && log == [] && duty == START
      modifies this
      ensures Valid() && Truthful(o, log, outcome)
    {
      hide DutyAfter;
      var acknowledged := WriteEvidence(Preflight(o.recoveryOnly));
      if !acknowledged {
        return Rejected;
      }
      DutyRead(o, log);
      if o.recoveryOnly && o.recovery.None? {
        outcome := Stop(RecoveryOnlyRequiresRecoveryMode, 0, None, None);
        return;
      }
      var wallet := ResolveWallet();
      DutyRead(o, log);
      if wallet.Threw? {
        return Rejected;
      }
      if wallet.value.None? {
        outcome := Stop(WalletNotFound, 0, None, None);
        return;
      }
      outcome := RunWork(wallet.value.value);
    }

    method RunWork(walletId: string) returns (outcome: Outcome)
      requires UnderWay() && |log| == 2 && duty == Duty(walletId, false, 0, Ground)
      requires o.recoveryOnly ==> o.recovery.Some?
      modifies this
      ensures Valid() && Truthful(o, log, outcome)
    {
      hide DutyAfter, Counted, Settled, Cause, Step;
      if o.recovery.Some? {
        var verdict, eligible := RunRecovery(walletId);
        DutyRead(o, log);
        match verdict {
          case Throws => return Rejected;
          case StopWith(reason) =>
            outcome := Stop(reason, 0, None, Some(RecoveryReport(eligible, false)));
            return;
          case Pass =>
        }
        var report := Some(RecoveryReport(true, o.execute));
        if o.recoveryOnly {
          outcome := Finish(RecoveryOnlyCompleted, 0, None, report);
          return;
        }
        outcome := RunWindows(walletId, report);
      } else {
        outcome := RunWindows(walletId, None);
      }
    }

    // ----- recovery

    method RunRecovery(walletId: string) returns (v: Verdict, eligible: bool)
      requires UnderWay() && |log| == 2 && o.recovery.Some? && duty == Duty(walletId, false, 0, Ground)
      modifies this
      ensures UnderWay()
      ensures v.Pass? ==> duty == Duty(walletId, true, 0, Ground)
      ensures !v.Pass? ==> !duty.settled && duty.done == 0
      ensures v.StopWith? ==> Explained(v.reason) && eligible == SourceAccepted(v.reason)
      ensures v.StopWith? ==> !v.reason.WalletNotFound? && !v.reason.InvariantFailedAfterRun?
      ensures v.Throws? ==> Broken(log)
    {
      hide DutyAfter, Step, EligibleSource, RecoveryAcceptable, StrictlyClean, RecoveryRequest, Counted, Settled;
      eligible := false;
      var request := RecoveryRequest(o);
      DutyRead(o, log);
      if o.expectedCursorTo != request.endBlock {
        v := StopWith(RecoveryWindowNotAtCursorFrontier);
        return;
      }
      v, eligible := GateRecovery(walletId, request);
      if !v.Pass? {
        return;
      }
      if !o.execute {
        var acknowledged := WriteEvidence(RecoveryPlanned(request));
        v := if acknowledged then Pass else Throws;
        return;
      }
      v := SubmitRecovery(walletId, request);
    }

    method SubmitRecovery(walletId: string, request: Request) returns (v: Verdict)
      requires UnderWay() && o.execute && o.recovery.Some? && request == RecoveryRequest(o)
      requires duty == Duty(walletId, false, 0, Ground) && RecoveryGatesPassed(o, log, walletId)
      modifies this
      ensures UnderWay()
      ensures v.Pass? ==> duty == Duty(walletId, true, 0, Ground)
      ensures !v.Pass? ==> !duty.settled && duty.done == 0
      ensures v.StopWith? ==> Explained(v.reason) && SourceAccepted(v.reason)
      ensures v.StopWith? ==> !v.reason.WalletNotFound? && !v.reason.InvariantFailedAfterRun?
      ensures v.Throws? ==> Broken(log)
    {
      hide DutyAfter, EligibleSource, RecoveryAcceptable, StrictlyClean, RecoveryRequest, Counted, Settled,
        RecoveryGatesPassed;
      var reply := HttpPost(request);
      DutyRead(o, log);
      if reply.Threw? {
        return Throws;
      }
      if reply.value.status != 202 || reply.value.runId == "" {
        return StopWith(RecoveryManualSyncSubmitFailed);
      }
      var polled := PollToTerminal(reply.value.runId);
      DutyRead(o, log);
      if polled.Threw? {
        return Throws;
      }
      match polled.value {
        case None => return StopWith(RecoveryPollTimeout);
        case Some(run) =>
          v := JudgeRun(walletId, request, reply.value.runId, run, true);
      }
    }

    /** The log shows the reason, which is not one of the clean ones. */
    ghost predicate Explained(reason: StopReason)
      reads this
    {
      Cause(o, log, reason) && !CleanEnd(reason)
    }

    method GateRecovery(walletId: string, request: Request) returns (v: Verdict, eligible: bool)
      requires UnderWay() && o.recovery.Some? && request == RecoveryRequest(o) && o.expectedCursorTo == request.endBlock
      requires duty == Duty(walletId, false, 0, Ground)
      modifies this
      ensures UnderWay() && duty == old(duty)
      ensures v.Pass? ==> eligible && RecoveryGatesPassed(o, log, walletId)
      ensures v.StopWith? ==> Explained(v.reason) && eligible == SourceAccepted(v.reason)
      ensures v.StopWith? ==> !v.reason.WalletNotFound? && !v.reason.InvariantFailedAfterRun?
      ensures v.Throws? ==> Broken(log)
    {
      hide DutyAfter, Step, RecoveryRequest, EligibleSource, Counted, Settled;
      eligible := false;
      v := Throws;
      var read := GetLiveCursor();
      if read.Threw? {
        return;
      }
      DutyRead(o, log);
      if !CursorMatches(read.value, Cursor(o.expectedCursorFrom, o.expectedCursorTo)) {
        EdgeZero();
        v := StopWith(CursorExpectationMismatch);
        return;
      }
      var source := FindSourceRun();
      if source.Threw? {
        return;
      }
      DutyRead(o, log);
      if !EligibleSource(source.value, o.recovery.value, Expectation(walletId, o.chainId, request)) {
        v := StopWith(RecoverySourceRunIneligible);
        return;
      }
      eligible := true;
      if !LabelFits(request.policyLabel) {
        v := StopWith(PolicyLabelOverlong);
        return;
      }
      v := GateRecoveryServer(walletId, request);
    }

    method GateRecoveryServer(walletId: string, request: Request) returns (v: Verdict)
      requires UnderWay() && o.recovery.Some? && request == RecoveryRequest(o) && o.expectedCursorTo == request.endBlock
      requires duty == Duty(walletId, false, 0, Ground) && LabelFits(request.policyLabel)
      requires Last(log, 2) == CursorRead(Got(Some(Cursor(o.expectedCursorFrom, request.endBlock))))
      requires Last(log, 1).SourceRunRead? && Last(log, 1).source.Got?
      requires EligibleSource(Last(log, 1).source.value, o.recovery.value, Expectation(walletId, o.chainId, request))
      modifies this
      ensures UnderWay() && duty == old(duty)
      ensures v.Pass? ==> RecoveryGatesPassed(o, log, walletId)
      ensures v.StopWith? ==> Explained(v.reason) && SourceAccepted(v.reason)
      ensures v.StopWith? ==> !v.reason.WalletNotFound? && !v.reason.InvariantFailedAfterRun?
      ensures v.Throws? ==> Broken(log)
    {
      hide DutyAfter, Step, RecoveryRequest, EligibleSource, Counted, Settled;
      var labels := ListPolicyLabels();
      if labels.Threw? {
        return Throws;
      }
      DutyRead(o, log);
      if request.policyLabel in labels.value {
        return StopWith(PolicyLabelCollision);
      }
      var active := CountActiveOperations();
      if active.Threw? {
        return Throws;
      }
      if active.value > 0 {
        return StopWith(ActiveOperationConflict);
      }
      var ok := CheckServerHealth();
      if !ok {
        return StopWith(ServerUnhealthy);
      }
      var rows := CountRows(FabricatedTransfers, request);
      if rows.Threw? {
        return Throws;
      }
      DutyRead(o, log);
      return if rows.value > 0 then StopWith(FabricatedContaminationPreGate) else Pass;
    }

    // ----- verification after a submission

    /** Verifies a run read back and writes its record; used for both kinds of window. */
    method JudgeRun(walletId: string, request: Request, runId: string, run: SyncRun, recovering: bool)
      returns (v: Verdict)
      requires UnderWay() && duty.walletId == walletId && runId != ""
      requires Last(log, 2) == Post(request, Got(Response(202, runId))) && Last(log, 1) == Polled(runId, Got(Some(run)))
      requires
        if recovering then
          duty.flight.Recovering? && o.recovery.Some? && !duty.settled && request == RecoveryRequest(o)
        else
          duty.flight.Syncing? && duty.settled == o.recovery.Some? && request == WindowRequest(o, duty.done)
      modifies this
      ensures UnderWay()
      ensures v.Pass? ==> duty == Landed(old(duty), recovering)
      ensures !v.Pass? ==> duty == old(duty)
      ensures v.StopWith? ==> Explained(v.reason)
      ensures v.StopWith? ==>
        v.reason == if recovering then RecoveryInvariantFailedAfterRun else InvariantFailedAfterRun
      ensures v.Throws? ==> Broken(log)
    {
      hide DutyAfter, RecoveryRequest, WindowRequest, RecoveryAcceptable, StrictlyClean, Counted, Settled, ChecksRead,
        ChecksPassed, Accepts, Cause;
      var want := Expectation(walletId, o.chainId, request);
      var reasons: seq<TerminalReason>;
      if recovering {
        reasons := VerifyRecoveryWindowTerminalState(run, want);
      } else {
        reasons := VerifyWindowTerminalState(run, want);
      }
      AcceptsMeans(recovering, run, want);
      var clean := reasons == [];
      clean, v := CheckAfterwards(request, runId, run, recovering, want, clean);
      if v.Throws? {
        return;
      }
      var record := if recovering then RecoveryRecord(request, runId, clean) else WindowRecord(request, runId, clean);
      ghost var judged := log;
      DutyRead(o, judged);
      var acknowledged := WriteEvidence(record);
      DutyRead(o, log);
      assert log[..|log| - 1] == judged;
      if !acknowledged {
        return Throws;
      }
      if !clean {
        UncleanShown(judged, record, runId, want, recovering);
        return StopWith(if recovering then RecoveryInvariantFailedAfterRun else InvariantFailedAfterRun);
      }
      return Pass;
    }

    static lemma AcceptsMeans(recovering: bool, run: SyncRun, want: Expectation)
      ensures Accepts(recovering, run, want) <==>
        if recovering then RecoveryAcceptable(run, want) else StrictlyClean(run, want)
    {
    }

    lemma UncleanShown(judged: seq<Event>, record: Record, runId: string, want: Expectation, recovering: bool)
      requires record ==
        if recovering then RecoveryRecord(want.request, runId, false) else WindowRecord(want.request, runId, false)
      requires want == Expectation(WalletRead(judged), o.chainId, AtStake(o, judged))
      requires recovering == Recovers(o, judged)
      requires ChecksRead(judged, runId, want.request) && !ChecksPassed(o, judged, runId, want, recovering)
      ensures Cause(o, judged + [Write(record, true)],
        if recovering then RecoveryInvariantFailedAfterRun else InvariantFailedAfterRun)
    {
      hide ChecksRead, ChecksPassed, WindowRequest, RecoveryRequest;
      var log' := judged + [Write(record, true)];
      assert log'[..|log'| - 1] == judged;
      assert Unclean(o, log', runId);
    }

    /** The duty once a submission is verified and recorded. */
    static function Landed(d: Duty, recovering: bool): Duty
      requires d.Duty?
    {
      if recovering then d.(flight := Ground, settled := true) else d.(flight := Ground, done := d.done + 1)
    }

    method CheckAfterwards(
        request: Request, runId: string, run: SyncRun, recovering: bool, want: Expectation, terminalOk: bool)
      returns (clean: bool, v: Verdict)
      requires UnderWay() && want.request == request && runId != ""
      requires Last(log, 2) == Post(request, Got(Response(202, runId))) && Last(log, 1) == Polled(runId, Got(Some(run)))
      requires terminalOk <==> Accepts(recovering, run, want)
      modifies this
      ensures UnderWay() && duty == old(duty)
      ensures v.Pass? ==> ChecksRead(log, runId, request) && clean == ChecksPassed(o, log, runId, want, recovering)
      ensures v.Pass? || v.Throws?
      ensures v.Throws? ==> Broken(log)
    {
      hide DutyAfter, Step, Accepts;
      clean := false;
      v := Throws;
      var cursor := GetLiveCursor();
      if cursor.Threw? {
        return;
      }
      var cursorOk := terminalOk && CursorMatches(cursor.value, Cursor(o.expectedCursorFrom, request.endBlock));
      var fabricated := CountRows(FabricatedTransfers, request);
      if fabricated.Threw? {
        return;
      }
      var transactions := CountRows(DuplicateTransactions, request);
      if transactions.Threw? {
        return;
      }
      var transfers := CountRows(DuplicateTransfers, request);
      if transfers.Threw? {
        return;
      }
      var entries := CountRows(DuplicateLedgerEntries, request);
      if entries.Threw? {
        return;
      }
      var active := CountActiveOperations();
      if active.Threw? {
        return;
      }
      clean := terminalOk && cursorOk && fabricated.value == 0 && transactions.value == 0 && transfers.value == 0
               && entries.value == 0 && active.value == 0;
      v := Pass;
    }

    // ----- the ordinary loop

    method RunWindows(walletId: string, report: Option<RecoveryReport>) returns (outcome: Outcome)
      requires UnderWay() && !o.recoveryOnly && duty == Duty(walletId, o.recovery.Some?, 0, Ground)
      requires report == if o.recovery.Some? then Some(RecoveryReport(true, o.execute)) else None
      modifies this
      ensures Valid() && Truthful(o, log, outcome)
    {
      hide DutyAfter, Step, WindowRequest, RecoveryRequest, StrictlyClean, Edge, ForwardAdjacent, Cause, Counted,
        Settled, EffectiveFirstWindowStart, Truthful, WindowGatesPassed;
      var windowsCompleted: nat, lastWindowNumber: Option<nat> := 0, None;
      var expectedTo, simulatedTo: Option<int> := o.expectedCursorTo, None;
      var iteration: nat := 0;
      EdgeZero();
      while iteration < o.maxWindows
        invariant UnderWay() && duty == Duty(walletId, o.recovery.Some?, iteration, Ground)
        invariant iteration == 0 || iteration <= o.maxWindows
        invariant windowsCompleted == if o.execute then iteration else 0
        invariant lastWindowNumber == if iteration == 0 then None else Some(iteration)
        invariant expectedTo == if o.execute then Edge(o, iteration) else o.expectedCursorTo
        invariant simulatedTo == if o.execute || iteration == 0 then None else Some(Edge(o, iteration))
      {
        var gate, request := PlanWindow(iteration, expectedTo, simulatedTo);
        DutyRead(o, log);
        if gate.Throws? {
          RejectedShown();
          return Rejected;
        }
        if gate.StopWith? {
          outcome := Stop(gate.reason, windowsCompleted, lastWindowNumber, None);
          return;
        }
        NextEdge(o, iteration);
        if !o.execute {
          var acknowledged := WriteEvidence(WindowPlanned(request));
          if !acknowledged {
            RejectedShown();
            return Rejected;
          }
          lastWindowNumber, simulatedTo := Some(iteration + 1), Some(request.endBlock);
        } else {
          var v := SubmitWindow(walletId, request);
          DutyRead(o, log);
          match v {
            case Throws =>
              RejectedShown();
              return Rejected;
            case StopWith(reason) =>
              outcome := Stop(reason, windowsCompleted,
                if reason.InvariantFailedAfterRun? then Some(iteration + 1) else lastWindowNumber, None);
              return;
            case Pass =>
          }
          windowsCompleted, lastWindowNumber, expectedTo := windowsCompleted + 1, Some(iteration + 1), request.endBlock;
        }
        iteration := iteration + 1;
      }
      DutyRead(o, log);
      outcome := Finish(MaxWindowsReached, windowsCompleted, lastWindowNumber, report);
    }

    /** Reads the cursor, plans the next window from it and passes its gates. */
    method PlanWindow(k: nat, expectedTo: int, simulatedTo: Option<int>) returns (v: Verdict, request: Request)
      requires UnderWay() && duty.done == k && duty.settled == o.recovery.Some?
      requires expectedTo == if o.execute then Edge(o, k) else o.expectedCursorTo
      requires simulatedTo == if o.execute || k == 0 then None else Some(Edge(o, k))
      modifies this
      ensures UnderWay() && duty == old(duty)
      ensures v.Pass? ==> request == WindowRequest(o, k) && WindowGatesPassed(o, log, k)
      ensures v.StopWith? ==> Explained(v.reason) && !v.reason.InvariantFailedAfterRun? && !v.reason.WalletNotFound?
      ensures v.Throws? ==> Broken(log)
    {
      hide DutyAfter, Step, WindowRequest, RecoveryRequest, Edge, ForwardAdjacent, Cause, Counted, Settled,
        EffectiveFirstWindowStart, WindowGatesPassed;
      request := Request(0, 0, "");
      EdgeZero();
      var read := GetLiveCursor();
      if read.Threw? {
        return Throws, request;
      }
      if !CursorMatches(read.value, Cursor(o.expectedCursorFrom, expectedTo)) {
        CursorMismatchShown();
        return StopWith(CursorExpectationMismatch), request;
      }
      var cursor := read.value.value;
      var edge := if !o.execute && simulatedTo.Some? then simulatedTo.value else cursor.toBlock;
      request := Request(NextWindowStart(edge), NextWindowEnd(edge, o.windowSize),
                         o.policyLabelPrefix + "-" + Decimal.Print(k + 1));
      PlanMeetsIntent(k, edge);
      if k == 0 && request.startBlock != EffectiveFirstWindowStart(o) {
        FirstStartShown();
        return StopWith(FirstWindowStartMismatch), request;
      }
      if !ForwardAdjacent(edge, request.startBlock) {
        NotAdjacentShown(edge, request.startBlock);
        return StopWith(AdjacencyViolation), request;
      }
      v := GateWindow(request, k);
    }

    lemma EdgeZero()
      ensures Edge(o, 0) == o.expectedCursorTo
    {
    }

    lemma NotAdjacentShown(edge: int, start: int)
      requires Valid() && log != [] && duty.settled == o.recovery.Some?
      requires edge == Edge(o, duty.done) && !ForwardAdjacent(edge, start)
      ensures start == WindowRequest(o, duty.done).startBlock ==> Cause(o, log, AdjacencyViolation)
    {
      hide DutyAfter, ForwardAdjacent, WindowRequest;
      DutyRead(o, log);
    }

    lemma RejectedShown()
      requires UnderWay() && Broken(log)
      ensures Truthful(o, log, Rejected)
    {
    }

    lemma CursorMismatchShown()
      requires Valid() && log != [] && Last(log, 1).CursorRead? && Last(log, 1).cursor.Got?
      requires Last(log, 1).cursor.value != Some(ExpectedLive(o, duty.done))
      ensures Cause(o, log, CursorExpectationMismatch)
    {
      hide DutyAfter;
      DutyRead(o, log);
    }

    lemma FirstStartShown()
      requires Valid() && log != [] && duty.done == 0 && duty.settled == o.recovery.Some?
      requires Last(log, 1) == CursorRead(Got(Some(ExpectedLive(o, 0))))
      requires o.expectedCursorTo + 1 != EffectiveFirstWindowStart(o)
      ensures Cause(o, log, FirstWindowStartMismatch)
    {
      hide DutyAfter;
      DutyRead(o, log);
    }

    lemma PlanMeetsIntent(k: nat, edge: int)
      requires edge == Edge(o, k)
      ensures Request(NextWindowStart(edge), NextWindowEnd(edge, o.windowSize),
        o.policyLabelPrefix + "-" + Decimal.Print(k + 1))
           == WindowRequest(o, k)
    {
    }

    method GateWindow(request: Request, k: nat) returns (v: Verdict)
      requires UnderWay() && Last(log, 1) == CursorRead(Got(Some(ExpectedLive(o, k))))
      requires duty.done == k && duty.settled == o.recovery.Some?
      requires request == WindowRequest(o, k) && (k == 0 ==> request.startBlock == EffectiveFirstWindowStart(o))
      modifies this
      ensures UnderWay() && duty == old(duty)
      ensures v.Pass? ==> WindowGatesPassed(o, log, k)
      ensures v.StopWith? ==> Explained(v.reason) && !v.reason.InvariantFailedAfterRun? && !v.reason.WalletNotFound?
      ensures v.Throws? ==> Broken(log)
    {
      hide DutyAfter, Step, WindowRequest, ExpectedLive, EffectiveFirstWindowStart, Counted, Settled, RecoveryRequest;
      v := Throws;
      var active := CountActiveOperations();
      if active.Threw? {
        return;
      }
      if active.value > 0 {
        return StopWith(ActiveOperationConflict);
      }
      var labels := ListPolicyLabels();
      if labels.Threw? {
        return;
      }
      DutyRead(o, log);
      if request.policyLabel in labels.value {
        return StopWith(PolicyLabelCollision);
      }
      var ok := CheckServerHealth();
      if !ok {
        return StopWith(ServerUnhealthy);
      }
      var rows := CountRows(FabricatedTransfers, request);
      if rows.Threw? {
        return;
      }
      DutyRead(o, log);
      return if rows.value > 0 then StopWith(FabricatedContaminationPreGate) else Pass;
    }

    method SubmitWindow(walletId: string, request: Request) returns (v: Verdict)
      requires UnderWay() && o.execute && duty.walletId == walletId
      requires MayPlanWindow(o, duty, log) && request == WindowRequest(o, duty.done)
      modifies this
      ensures UnderWay()
      ensures v.Pass? ==> duty == old(duty).(done := old(duty).done + 1)
      ensures duty.walletId == old(duty).walletId && duty.settled == old(duty).settled
      ensures !v.Pass? ==> duty.done == old(duty).done
      ensures v.StopWith? ==> Explained(v.reason) && !v.reason.WalletNotFound?
      ensures v.Throws? ==> Broken(log)
    {
      hide DutyAfter, WindowGatesPassed, WindowRequest, RecoveryRequest, Counted, Settled;
      var reply := HttpPost(request);
      DutyRead(o, log);
      if reply.Threw? {
        return Throws;
      }
      if reply.value.status != 202 || reply.value.runId == "" {
        return StopWith(ManualSyncSubmitFailed);
      }
      var polled := PollToTerminal(reply.value.runId);
      DutyRead(o, log);
      if polled.Threw? {
        return Throws;
      }
      match polled.value {
        case None => return StopWith(PollTimeout);
        case Some(run) =>
          v := JudgeRun(walletId, request, reply.value.runId, run, false);
      }
    }
  }
}
