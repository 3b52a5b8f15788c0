/** The backfill runner as a program against an arbitrary environment. The ghost log keeps
    every interaction; whatever the answers, the log stays orderly and shows the reason for
    which the run ends. */
module BackfillRunner {
  import opened Base
  import opened SyncPrimitives
  import opened BackfillPlan
  import opened BackfillProtocol
  import opened BackfillCauses

  /** How one part of the run ends: it goes on, stops with a stop record, gives up with
      its own record already written, or rejects. */
  datatype Verdict = Pass | StopWith(reason: StopReason) | GiveUp(reason: StopReason) | Throws

  class Backfill {
    const o: Options
    ghost var log: seq<Event>
    ghost var duty: Duty
    ghost var done: seq<Window>

    ghost predicate Valid()
      reads this
    {
      && duty == DutyAfter(o, log) && !duty.Violated?
      && done == WindowsDone(log)
    }

    constructor (options: Options)
      ensures Valid() && o == options && log == [] && done == [] && duty == Ready(None)
    {
      o := options;
      log := [];
      duty := Ready(None);
      done := [];
    }

    // ----- the injected dependencies

    /** An interaction that changes no duty. */
    ghost method Note(e: Event)
      requires Valid() && !e.PostWindow? && !e.PostRebuild? && (e.Write? ==> Plain(e.record))
      modifies this
      ensures Valid() && log == old(log) + [e] && duty == old(duty) && done == old(done)
    {
      DutySnoc(o, log, e);
      DoneSnoc(o, log, e);
      log := log + [e];
    }

    static predicate Plain(record: Record) {
      match record
      case StopRecord(_) => true
      case _ => false
    }

    method VerifyDecimalCapability() returns (capable: Reply<bool>)
      requires Valid()
      modifies this
      ensures Valid() && log == old(log) + [DecimalCheck(capable)] && duty == old(duty) && done == old(done)
    {
      capable := *;
      Note(DecimalCheck(capable));
    }

    method ResolveWallet() returns (id: Reply<Option<string>>)
      requires Valid()
      modifies this
      ensures Valid() && log == old(log) + [WalletLookup(id)] && duty == old(duty) && done == old(done)
    {
      id := *;
      Note(WalletLookup(id));
    }

    method GetLiveCursor() returns (cursor: Reply<Option<Cursor>>)
      requires Valid()
      modifies this
      ensures Valid() && log == old(log) + [CursorRead(cursor)] && duty == old(duty) && done == old(done)
    {
      cursor := *;
      Note(CursorRead(cursor));
    }

    method CountActiveOperations() returns (count: Reply<nat>)
      requires Valid()
      modifies this
      ensures Valid() && log == old(log) + [ActiveRuns(count)] && duty == old(duty) && done == old(done)
    {
      count := *;
      Note(ActiveRuns(count));
    }

    method ListPolicyLabels() returns (labels: Reply<seq<string>>)
      requires Valid()
      modifies this
      ensures Valid() && log == old(log) + [LabelList(labels)] && duty == old(duty) && done == old(done)
    {
      labels := *;
      Note(LabelList(labels));
    }

    method CheckServerHealth() returns (ok: bool)
      requires Valid()
      modifies this
      ensures Valid() && log == old(log) + [Health(ok)] && duty == old(duty) && done == old(done)
    {
      ok := *;
      Note(Health(ok));
    }

    method CountRows(check: RowCheck, w: Window) returns (count: Reply<nat>)
      requires Valid()
      modifies this
      ensures Valid() && log == old(log) + [Rows(check, w.startBlock, w.endBlock, count)]
      ensures duty == old(duty) && done == old(done)
    {
      count := *;
      Note(Rows(check, w.startBlock, w.endBlock, count));
    }

    method PollToTerminal(runId: string) returns (outcome: Reply<Option<SyncRun>>)
      requires Valid()
      modifies this
      ensures Valid() && log == old(log) + [Polled(runId, outcome)] && duty == old(duty) && done == old(done)
    {
      outcome := *;
      Note(Polled(runId, outcome));
    }

    method WriteEvidence(record: Record) returns (acknowledged: bool)
      requires Valid() && Plain(record)
      modifies this
      ensures Valid() && log == old(log) + [Write(record, acknowledged)] && duty == old(duty) && done == old(done)
    {
      acknowledged := *;
      Note(Write(record, acknowledged));
    }

    /** A submission or a durable success, which the duty must allow. */
    ghost method Commit(e: Event)
      requires Valid() && !Step(o, duty, log, e).Violated?
      modifies this
      ensures Valid() && log == old(log) + [e] && duty == Step(o, old(duty), old(log), e)
      ensures done == old(done) + (Completing(e) + Previewed(e))
    {
      DutySnoc(o, log, e);
      DoneSnoc(o, log, e);
      duty, done := Step(o, duty, log, e), done + (Completing(e) + Previewed(e));
      log := log + [e];
    }

    method PostManualSync(w: Window) returns (reply: Reply<Response>)
      requires Valid() && !AfterPost(o, duty, log, w).Violated?
      modifies this
      ensures Valid() && duty == AfterPost(o, old(duty), old(log), w) && done == old(done)
      ensures log == old(log) + [PostWindow(w, reply)]
    {
      reply := *;
      Commit(PostWindow(w, reply));
    }

    method PostRebuildRequest(w: Window) returns (reply: Reply<Response>)
      requires Valid() && duty.RebuildOwed? && duty.window == w && o.allowRebuild && RebuildGatesPassed(log)
      modifies this
      ensures Valid() && duty == Rebuilding(w, old(duty).live) && done == old(done)
      ensures log == old(log) + [PostRebuild(w, reply)]
    {
      reply := *;
      Commit(PostRebuild(w, reply));
    }

    /** A record about a window or a rebuild, which must be due; it takes effect only when
        acknowledged. */
    method WriteResult(record: Record) returns (acknowledged: bool)
      requires Valid() && !AfterRecord(o, duty, log, record).Violated?
      modifies this
      ensures Valid() && log == old(log) + [Write(record, acknowledged)]
      ensures duty == if acknowledged then AfterRecord(o, old(duty), old(log), record) else old(duty)
      ensures done == old(done) + (Completing(Write(record, acknowledged)) + Previewed(Write(record, acknowledged)))
    {
      acknowledged := *;
      Commit(Write(record, acknowledged));
    }

    // ----- the ends of a run

    /** Past its first two interactions a run is capable and has its wallet. */
    ghost predicate UnderWay()
      reads this
    {
      && Valid() && Started(log) && |log| >= 2
      && log[0] == DecimalCheck(Got(true)) && log[1].WalletLookup? && log[1].id.Got? && log[1].id.value.Some?
    }

    /** The log shows the reason, which comes with a stop record. */
    ghost predicate Explained(reason: StopReason)
      reads this
    {
      && Cause(o, log, reason) && !Unrecorded(reason)
      && !reason.CampaignCompleteAfterFinalRebuild? && !reason.MaxWindowsReached?
      && !reason.StoppedBeforeFinalRebuild? && !reason.StoppedBeforeCheckpointRebuild?
    }

    ghost predicate WithinLimit()
      reads this
    {
      |Posts(log)| <= Limit(o) && |Previews(log)| <= Limit(o)
    }

    /** Stops for a reason that the log shows. */
    method Stop(reason: StopReason, windowsCompleted: nat, lastWindowNumber: Option<nat>) returns (outcome: Outcome)
      requires Valid() && WithinLimit() && Cause(o, log, reason) && !Unrecorded(reason)
      requires !reason.CampaignCompleteAfterFinalRebuild? && !reason.MaxWindowsReached?
      requires reason.StoppedBeforeFinalRebuild? || reason.StoppedBeforeCheckpointRebuild? ==>
        duty.RebuildOwed? && !o.allowRebuild
      requires windowsCompleted == |CompletedWindows(log)| && lastWindowNumber == NumberDue(log, reason)
      requires Started(log) && (|log| >= 2 ==> log[0] == DecimalCheck(Got(true)) && log[1].WalletLookup?)
      requires |log| >= 3 ==> log[1].id.Got? && log[1].id.value.Some?
      modifies this
      ensures Valid() && Truthful(o, log, outcome)
    {
      hide DutyAfter, Cause, Posts, Previews, CompletedWindows, EndsAtDueWindow;
      ghost var before := log;
      var acknowledged := WriteEvidence(StopRecord(reason));
      StopChangesNothing(before, reason, acknowledged);
      if !acknowledged {
        return Rejected;
      }
      if reason.StoppedBeforeFinalRebuild? || reason.StoppedBeforeCheckpointRebuild? {
        OwedRebuildShown(o, log);
      }
      return Returned(Summary(reason, windowsCompleted, lastWindowNumber));
    }

    lemma RejectedShown()
      requires Started(log) && WithinLimit() && Broken(log)
      ensures Truthful(o, log, Rejected)
    {
    }

    /** What the loop knows of its counts is what the log shows. */
    lemma CountsShown(windowsCompleted: nat, lastWindowNumber: Option<nat>, reason: StopReason)
      requires Valid() && (|done| < o.maxWindows || (|done| <= o.maxWindows && !duty.Flying?) || done == [])
      requires duty.Flying? ==> |done| < o.maxWindows
      requires windowsCompleted == (if o.execute then |done| else 0) && !reason.InvariantFailedAfterRun?
      requires lastWindowNumber == if done == [] then None else Some(Last(done, 1).number)
      ensures WithinLimit() && windowsCompleted == |CompletedWindows(log)| && lastWindowNumber == NumberDue(log, reason)
    {
      hide DutyAfter, Posts, Previews, CompletedWindows;
      DoneRead(o, log);
    }

    // ----- one window

    method GateWindow(w: Window, live: Cursor) returns (v: Verdict)
      requires UnderWay() && Last(log, 1) == CursorRead(Got(Some(live))) && PlannedFrom(log, 1, w)
      modifies this
      ensures UnderWay() && duty == old(duty) && done == old(done) && old(log) <= log
      ensures v.Pass? ==> GatesPassed(log, w) && LiveCursor(log, w) == live
      ensures v.StopWith? ==> Explained(v.reason)
      ensures v.Throws? ==> Broken(log)
      ensures !v.GiveUp?
    {
      hide DutyAfter, PlannedAt, EdgeReached, WindowsDone, Cause, PlannedFrom;
      ghost var start := log;
      var count := CountActiveOperations();
      if count.Threw? {
        return Throws;
      }
      if count.value > 0 {
        ConflictShown();
        return StopWith(ActiveOperationConflict);
      }
      var labels := ListPolicyLabels();
      if labels.Threw? {
        return Throws;
      }
      if w.Label() in labels.value {
        StillPlanned(start, w);
        CollisionShown(w);
        return StopWith(PolicyLabelCollision);
      }
      v := GateServer(w, live, start);
    }

    method GateServer(w: Window, live: Cursor, ghost start: seq<Event>) returns (v: Verdict)
      requires UnderWay() && start <= log && |log| == |start| + 2 && PlannedFrom(start, 1, w)
      requires Orderly(o, start) && WindowsDone(start) == done
      requires |log| >= 3 && Last(log, 3) == CursorRead(Got(Some(live))) && Last(log, 2) == ActiveRuns(Got(0))
      requires Last(log, 1).LabelList? && Last(log, 1).labels.Got? && w.Label() !in Last(log, 1).labels.value
      modifies this
      ensures UnderWay() && duty == old(duty) && done == old(done) && old(log) <= log
      ensures v.Pass? ==> GatesPassed(log, w) && LiveCursor(log, w) == live
      ensures v.StopWith? ==> Explained(v.reason)
      ensures v.Throws? ==> Broken(log)
      ensures !v.GiveUp?
    {
      hide DutyAfter, PlannedAt, EdgeReached, WindowsDone, Cause, PlannedFrom;
      var ok := CheckServerHealth();
      if !ok {
        UnhealthyShown();
        return StopWith(ServerUnhealthy);
      }
      var rows := CountRows(FabricatedTransfers, w);
      if rows.Threw? {
        return Throws;
      }
      if rows.value > 0 {
        StillPlanned(start, w);
        ContaminationShown(w);
        return StopWith(FabricatedContaminationPreGate);
      }
      return Pass;
    }

    lemma ConflictShown()
      requires log != [] && Last(log, 1).ActiveRuns? && Last(log, 1).count.Got? && Last(log, 1).count.value > 0
      ensures Cause(o, log, ActiveOperationConflict)
    {
    }

    lemma UnhealthyShown()
      requires log != [] && Last(log, 1) == Health(false)
      ensures Cause(o, log, ServerUnhealthy)
    {
    }

    lemma CollisionShown(w: Window)
      requires log != [] && PlannedFrom(log, 3, w) && Last(log, 1).LabelList? && Last(log, 1).labels.Got?
      requires w.Label() in Last(log, 1).labels.value
      ensures Cause(o, log, PolicyLabelCollision)
    {
      hide PlannedFrom;
    }

    lemma ContaminationShown(w: Window)
      requires log != [] && PlannedFrom(log, 5, w) && Last(log, 1).Rows? && Last(log, 1).check.FabricatedTransfers?
      requires Last(log, 1).startBlock == w.startBlock && Last(log, 1).endBlock == w.endBlock
      requires Last(log, 1).count.Got? && Last(log, 1).count.value > 0
      ensures Cause(o, log, FabricatedContaminationPreGate)
    {
      hide PlannedFrom;
    }

    /** While nothing is previewed, what was planned from a cursor still is. */
    lemma StillPlanned(start: seq<Event>, w: Window)
      requires Valid() && PlannedFrom(start, 1, w) && start <= log
      requires Orderly(o, start) && WindowsDone(start) == WindowsDone(log)
      ensures PlannedFrom(log, 1 + |log| - |start|, w)
    {
      hide DutyAfter, PlannedAt, WindowsDone;
      DoneRead(o, start);
      DoneRead(o, log);
      assert Last(log, 1 + |log| - |start|) == Last(start, 1);
    }

    /** Submits one gated window and verifies it up to its durable record. */
    method SubmitWindow(w: Window, live: Cursor) returns (v: Verdict)
      requires UnderWay() && o.execute && duty.Ready? && GatesPassed(log, w) && LiveCursor(log, w) == live
      requires PlannedAt(live.fromBlock, w)
      requires if duty.expected.Some? then duty.expected.value == live else ExpectedByOperator(o, live)
      modifies this
      ensures UnderWay() && old(log) <= log
      ensures v.Pass? ==> done == old(done) + [w] && CompletedNow(w)
      ensures v.Pass? ==> duty == if RebuildDue(w) then RebuildOwed(w, After(live, w)) else Ready(Some(After(live, w)))
      ensures !v.Pass? ==> done == old(done) && (duty.Flying? || duty == old(duty))
      ensures v.StopWith? ==> Explained(v.reason)
      ensures v.GiveUp? ==> v.reason.InvariantFailedAfterRun? && Cause(o, log, v.reason) && duty == Flying(w, live)
      ensures v.Throws? ==> Broken(log)
    {
      hide DutyAfter, RunAcceptable, RebuildDue, PlannedAt, WindowsDone, GatesPassed, LiveCursor, Cause;
      ghost var gated := log;
      var reply := PostManualSync(w);
      if reply.Threw? {
        return Throws;
      }
      if reply.value.status != 202 || reply.value.runId == "" {
        RefusedShown();
        return StopWith(ManualSyncSubmitFailed);
      }
      var runId := reply.value.runId;
      var polled := PollToTerminal(runId);
      if polled.Threw? {
        return Throws;
      }
      match polled.value {
        case None =>
          TimeoutShown(runId);
          return StopWith(PollTimeout);
        case Some(run) =>
          assert log[..|log| - 2] == gated;
          v := JudgeWindow(w, live, runId, run);
      }
    }

    lemma RefusedShown()
      requires log != [] && Last(log, 1).PostWindow? && Refused(Last(log, 1).reply)
      ensures Cause(o, log, ManualSyncSubmitFailed)
    {
    }

    lemma TimeoutShown(runId: string)
      requires |log| >= 2 && runId != "" && Last(log, 1) == Polled(runId, Got(None))
      requires Last(log, 2).PostWindow? && Last(log, 2).reply == Accepted(runId)
      ensures Cause(o, log, PollTimeout)
    {
    }

    /** The last interaction durably completed this window. */
    ghost predicate CompletedNow(w: Window)
      reads this
    {
      log != [] && Last(log, 1).Write? && Last(log, 1).acknowledged && Last(log, 1).record.WindowRecord?
      && Last(log, 1).record.clean && Last(log, 1).record.window == w
    }

    method JudgeWindow(w: Window, live: Cursor, runId: string, run: SyncRun) returns (v: Verdict)
      requires UnderWay() && duty == Flying(w, live) && runId != ""
      requires Last(log, 2) == PostWindow(w, Accepted(runId)) && Last(log, 1) == Polled(runId, Got(Some(run)))
      requires GatesPassed(log[..|log| - 2], w) && LiveCursor(log[..|log| - 2], w) == live
      modifies this
      ensures UnderWay() && old(log) <= log
      ensures v.Pass? ==> done == old(done) + [w] && CompletedNow(w)
      ensures v.Pass? ==> duty == if RebuildDue(w) then RebuildOwed(w, After(live, w)) else Ready(Some(After(live, w)))
      ensures !v.Pass? ==> done == old(done) && duty == old(duty)
      ensures v.GiveUp? ==> v.reason.InvariantFailedAfterRun? && Cause(o, log, v.reason)
      ensures v.Throws? ==> Broken(log)
      ensures !v.StopWith?
    {
      hide DutyAfter, RunAcceptable, RebuildDue, GatesPassed, LiveCursor, WindowsDone, ChecksRead, ChecksPassed, Cause;
      ghost var gated := log[..|log| - 2];
      var reasons := VerifyTerminalState(run, WindowRun, w.startBlock, w.endBlock);
      var clean;
      clean, v := CheckAfterwards(w, live, runId, run, reasons == []);
      if v.Throws? {
        return;
      }
      assert log[..|log| - 7] == gated;
      ghost var judged := log;
      var acknowledged := WriteResult(WindowRecord(w, runId, clean));
      if !acknowledged {
        return Throws;
      }
      if !clean {
        UncleanShown(judged, w, runId, live);
        return GiveUp(InvariantFailedAfterRun);
      }
      return Pass;
    }

    method CheckAfterwards(w: Window, live: Cursor, runId: string, run: SyncRun, terminalOk: bool)
      returns (clean: bool, v: Verdict)
      requires UnderWay() && runId != ""
      requires Last(log, 2) == PostWindow(w, Accepted(runId)) && Last(log, 1) == Polled(runId, Got(Some(run)))
      requires terminalOk <==> RunAcceptable(run, WindowRun, w.startBlock, w.endBlock)
      modifies this
      ensures UnderWay() && done == old(done) && duty == old(duty) && old(log) <= log
      ensures v.Pass? || v.Throws?
      ensures v.Pass? ==>
        |log| == |old(log)| + 5 && ChecksRead(log, w, runId) && clean == ChecksPassed(log, w, runId, live)
      ensures v.Throws? ==> Broken(log)
    {
      hide DutyAfter, RunAcceptable, WindowsDone;
      clean := false;
      v := Throws;
      var cursor := GetLiveCursor();
      if cursor.Threw? {
        return;
      }
      var cursorOk := terminalOk && CursorMatches(cursor.value, After(live, w));
      var fabricated := CountRows(FabricatedTransfers, w);
      if fabricated.Threw? {
        return;
      }
      var transfers := CountRows(DuplicateTransfers, w);
      if transfers.Threw? {
        return;
      }
      var entries := CountRows(DuplicateLedgerEntries, w);
      if entries.Threw? {
        return;
      }
      var active := CountActiveOperations();
      if active.Threw? {
        return;
      }
      clean := terminalOk && cursorOk && fabricated.value == 0 && transfers.value == 0 && entries.value == 0
        && active.value == 0;
      v := Pass;
    }

    lemma UncleanShown(judged: seq<Event>, w: Window, runId: string, live: Cursor)
      requires ChecksRead(judged, w, runId) && !ChecksPassed(judged, w, runId, live)
      requires GatesPassed(judged[..|judged| - 7], w) && LiveCursor(judged[..|judged| - 7], w) == live
      ensures Cause(o, judged + [Write(WindowRecord(w, runId, false), true)], InvariantFailedAfterRun)
    {
      hide ChecksRead, ChecksPassed, GatesPassed, LiveCursor;
      var log' := judged + [Write(WindowRecord(w, runId, false), true)];
      assert log'[..|log'| - 1] == judged;
      ReadIsLong(judged, w, runId);
      assert Unclean(log', w, runId);
    }

    static lemma ReadIsLong(log: seq<Event>, w: Window, runId: string)
      requires ChecksRead(log, w, runId)
      ensures |log| >= 7
    {
    }

    // ----- one rebuild

    method RunRebuild(w: Window, isFinal: bool) returns (v: Verdict)
      requires UnderWay() && duty.RebuildOwed? && duty.window == w && o.allowRebuild
      requires isFinal == FinalRebuildDue(w.number, w.total) && RebuildDue(w) && CompletedNow(w)
      modifies this
      ensures UnderWay() && done == old(done) && !duty.Flying? && old(log) <= log
      ensures v.Pass? ==> duty == if isFinal then Done else Ready(Some(old(duty).live))
      ensures v.Pass? ==> EndsWithRebuild(log, w)
      ensures !v.StopWith?
      ensures v.GiveUp? ==> Cause(o, log, v.reason) && Unrecorded(v.reason) && !v.reason.InvariantFailedAfterRun?
      ensures v.Throws? ==> Broken(log)
    {
      hide DutyAfter, RunAcceptable, FinalRebuildDue, RebuildDue, WindowsDone;
      var count := CountActiveOperations();
      if count.Threw? {
        return Throws;
      }
      if count.value > 0 {
        assert CompletedDue(log, 2);
        return GiveUp(ActiveOperationConflictBeforeRebuild);
      }
      var ok := CheckServerHealth();
      if !ok {
        assert CompletedDue(log, 3);
        return GiveUp(ServerUnhealthyBeforeRebuild);
      }
      v := SubmitRebuild(w, isFinal);
    }

    method SubmitRebuild(w: Window, isFinal: bool) returns (v: Verdict)
      requires UnderWay() && duty.RebuildOwed? && duty.window == w && o.allowRebuild && RebuildGatesPassed(log)
      requires isFinal == FinalRebuildDue(w.number, w.total) && RebuildDue(w)
      modifies this
      ensures UnderWay() && done == old(done) && !duty.Flying? && old(log) <= log
      ensures v.Pass? ==> duty == if isFinal then Done else Ready(Some(old(duty).live))
      ensures v.Pass? ==> EndsWithRebuild(log, w)
      ensures !v.StopWith?
      ensures v.GiveUp? ==> Cause(o, log, v.reason) && Unrecorded(v.reason) && !v.reason.InvariantFailedAfterRun?
      ensures v.Throws? ==> Broken(log)
    {
      hide DutyAfter, RunAcceptable, FinalRebuildDue, RebuildDue, WindowsDone, RebuildGatesPassed, Cause, RebuildEnded,
        EndsWithRebuild;
      ghost var gated := log;
      var reply := PostRebuildRequest(w);
      if reply.Threw? {
        return Throws;
      }
      if reply.value.status != 202 || reply.value.runId == "" {
        assert log[..|log| - 1] == gated;
        var acknowledged := RecordFailure(w, isFinal, "", SubmitFailed);
        EndedShown(w, "", SubmitFailed);
        return if acknowledged then GiveUp(RebuildSubmitFailed) else Throws;
      }
      var runId := reply.value.runId;
      var polled := PollToTerminal(runId);
      if polled.Threw? {
        return Throws;
      }
      assert log[..|log| - 2] == gated;
      match polled.value {
        case None =>
          var acknowledged := RecordFailure(w, isFinal, runId, TimedOut);
          EndedShown(w, runId, TimedOut);
          return if acknowledged then GiveUp(RebuildPollTimeout) else Throws;
        case Some(run) =>
          v := JudgeRebuild(w, isFinal, runId, run);
      }
    }

    lemma EndedShown(w: Window, runId: string, outcome: RebuildOutcome)
      ensures RebuildEnded(log, w, runId, outcome) ==>
        match outcome
        case SubmitFailed => runId == "" ==> Cause(o, log, RebuildSubmitFailed)
        case TimedOut => Cause(o, log, RebuildPollTimeout)
        case FailedInvariant => Cause(o, log, RebuildInvariantFailed)
        case Completed => true
    {
      hide RebuildEnded;
      if RebuildEnded(log, w, runId, outcome) {
        EndedIsLong(log, w, runId, outcome);
      }
    }

    static lemma EndedIsLong(log: seq<Event>, w: Window, runId: string, outcome: RebuildOutcome)
      requires RebuildEnded(log, w, runId, outcome)
      ensures log != []
    {
    }

    /** Records a rebuild that did not succeed. */
    method RecordFailure(w: Window, isFinal: bool, runId: string, outcome: RebuildOutcome) returns (acknowledged: bool)
      requires UnderWay() && duty.Rebuilding? && duty.window == w && isFinal == FinalRebuildDue(w.number, w.total)
      requires RebuildDue(w) && RebuildFailed(log, w, runId, outcome) && !outcome.Completed?
      modifies this
      ensures UnderWay() && done == old(done) && duty == old(duty) && old(log) <= log
      ensures if acknowledged then RebuildEnded(log, w, runId, outcome) else Broken(log)
    {
      hide DutyAfter, RunAcceptable, FinalRebuildDue, RebuildDue, WindowsDone, RebuildFailed;
      ghost var before := log;
      acknowledged := WriteResult(RebuildRecord(w, isFinal, runId, outcome));
      assert log[..|log| - 1] == before;
    }

    method JudgeRebuild(w: Window, isFinal: bool, runId: string, run: SyncRun) returns (v: Verdict)
      requires UnderWay() && duty.Rebuilding? && duty.window == w && isFinal == FinalRebuildDue(w.number, w.total)
      requires RebuildDue(w) && |log| >= 4 && runId != "" && RebuildGatesPassed(log[..|log| - 2])
      requires Last(log, 2) == PostRebuild(w, Accepted(runId)) && Last(log, 1) == Polled(runId, Got(Some(run)))
      modifies this
      ensures UnderWay() && done == old(done) && !duty.Flying? && old(log) <= log
      ensures v.Pass? ==> duty == if isFinal then Done else Ready(Some(old(duty).live))
      ensures v.Pass? ==> EndsWithRebuild(log, w)
      ensures !v.StopWith?
      ensures v.GiveUp? ==> v.reason.RebuildInvariantFailed? && Cause(o, log, v.reason)
      ensures v.Throws? ==> Broken(log)
    {
      hide DutyAfter, RunAcceptable, FinalRebuildDue, RebuildGatesPassed, RebuildDue, WindowsDone, Cause, RebuildEnded;
      var kind := if isFinal then FinalRebuild else CheckpointRebuild;
      var reasons := VerifyTerminalState(run, kind, w.startBlock, w.endBlock);
      if reasons == [] {
        ghost var verified := log;
        var acknowledged := WriteResult(RebuildRecord(w, isFinal, runId, Completed));
        assert log[..|verified|] == verified;
        assert acknowledged ==> RebuildProvenAt(log, |verified|, w, runId);
        return if acknowledged then Pass else Throws;
      }
      var acknowledged := RecordFailure(w, isFinal, runId, FailedInvariant);
      EndedShown(w, runId, FailedInvariant);
      return if acknowledged then GiveUp(RebuildInvariantFailed) else Throws;
    }

    // ----- the whole run

    /** The whole invocation. The log alone shows what its outcome is worth: the reason it
        gives and the windows it counts. */
    method Run() returns (outcome: Outcome)
      requires Valid() && log == [] && duty == Ready(None) && done == []
      modifies this
      ensures Valid() && Truthful(o, log, outcome)
    {
      hide DutyAfter, Cause, Truthful, WithinLimit, WindowsDone, NumberDue, CompletedWindows;
      var capable := VerifyDecimalCapability();
      CountsShown(0, None, DecimalCapabilityCheckFailed);
      if capable.Threw? {
        RejectedShown();
        return Rejected;
      }
      if !capable.value {
        IncapableShown();
        outcome := Stop(DecimalCapabilityCheckFailed, 0, None);
        return;
      }
      var wallet := ResolveWallet();
      CountsShown(0, None, WalletNotFound);
      if wallet.Threw? {
        RejectedShown();
        return Rejected;
      }
      if wallet.value.None? {
        NoWalletShown();
        outcome := Stop(WalletNotFound, 0, None);
        return;
      }
      outcome := RunWindows();
    }

    lemma IncapableShown()
      requires |log| == 1 && log[0] == DecimalCheck(Got(false))
      ensures Cause(o, log, DecimalCapabilityCheckFailed)
    {
    }

    lemma NoWalletShown()
      requires |log| == 2 && log[1] == WalletLookup(Got(None))
      ensures Cause(o, log, WalletNotFound)
    {
    }

    /** What the loop variables say about the duty and the cursor. */
    ghost predicate AtLoopHead(
        iteration: nat, expectedFrom: Option<int>, expectedTo: Option<int>, simulated: Option<int>)
      reads this
    {
      && UnderWay() && |done| == iteration
      && (iteration == 0 ==>
           && duty == Ready(None) && expectedFrom == o.expectedFrom && expectedTo.None? && simulated.None?
           && FirstCursor(log).None?)
      && (iteration > 0 ==>
            && expectedFrom.Some? && expectedTo.Some? && FirstCursor(log).Some?
            && var live, first := Cursor(expectedFrom.value, expectedTo.value), FirstCursor(log).value;
               && live.toBlock == first.toBlock
               && (o.execute ==> duty == Ready(Some(live)) && simulated.None?)
               && (!o.execute ==>
                    && simulated.Some? && duty == Previewing(live, simulated.value)
                    && live.fromBlock == first.fromBlock))
    }

    method RunWindows() returns (outcome: Outcome)
      requires UnderWay() && |log| == 2 && duty == Ready(None) && done == []
      modifies this
      ensures Valid() && Truthful(o, log, outcome)
    {
      hide DutyAfter, WindowsDone, FailingGate, GatesPassed, PlannedAt, Truthful, Cause, FirstCursor, RebuildDue,
        FinalRebuildDue, PlannedFrom, EndsWithRebuild, WithinLimit, LiveCursor;
      var windowsCompleted: nat, lastWindowNumber: Option<nat> := 0, None;
      var expectedFrom, expectedTo: Option<int>, simulated: Option<int> := o.expectedFrom, None, None;
      var iteration: nat := 0;
      NoCursorYet();
      while iteration < o.maxWindows
        invariant AtLoopHead(iteration, expectedFrom, expectedTo, simulated)
        invariant iteration == 0 || iteration <= o.maxWindows
        invariant windowsCompleted == if o.execute then iteration else 0
        invariant lastWindowNumber == if done == [] then None else Some(Last(done, 1).number)
      {
        var v, w, cursor := PlanWindow(iteration, expectedFrom, expectedTo, simulated);
        if v.Throws? {
          CountsShown(windowsCompleted, lastWindowNumber, NoTransfersCursor);
          RejectedShown();
          return Rejected;
        }
        if v.StopWith? {
          CountsShown(windowsCompleted, lastWindowNumber, v.reason);
          outcome := Stop(v.reason, windowsCompleted, lastWindowNumber);
          return;
        }
        ghost var gated := log;
        expectedFrom, expectedTo := Some(cursor.fromBlock), Some(cursor.toBlock);
        if !o.execute {
          var acknowledged := PreviewWindow(w, cursor);
          if !acknowledged {
            CountsShown(windowsCompleted, lastWindowNumber, NoTransfersCursor);
            RejectedShown();
            return Rejected;
          }
          FirstCursorStays(gated, log);
          lastWindowNumber, simulated := Some(w.number), Some(w.startBlock);
        } else {
          var ended := RunWindow(w, cursor, windowsCompleted, lastWindowNumber);
          if ended.Some? {
            return ended.value;
          }
          FirstCursorStays(gated, log);
          windowsCompleted, lastWindowNumber := windowsCompleted + 1, Some(w.number);
          expectedFrom := Some(w.startBlock);
        }
        iteration := iteration + 1;
      }
      CountsShown(windowsCompleted, lastWindowNumber, MaxWindowsReached);
      LimitShown(windowsCompleted, lastWindowNumber);
      return Returned(Summary(MaxWindowsReached, windowsCompleted, lastWindowNumber));
    }

    /** Records one gated window of a dry run as planned. */
    method PreviewWindow(w: Window, cursor: Cursor) returns (acknowledged: bool)
      requires UnderWay() && !o.execute && GatesPassed(log, w) && LiveCursor(log, w) == cursor
      requires if duty.Previewing? then duty.live == cursor && PlannedAt(duty.edge, w)
               else duty == Ready(None) && PlannedAt(cursor.fromBlock, w) && ExpectedByOperator(o, cursor)
      modifies this
      ensures UnderWay() && old(log) <= log
      ensures if acknowledged then done == old(done) + [w] && duty == Previewing(cursor, w.startBlock)
              else done == old(done) && duty == old(duty) && Broken(log)
    {
      hide DutyAfter, WindowsDone, GatesPassed, PlannedAt;
      acknowledged := WriteResult(DryRunPlanned(w));
    }

    /** Submits one gated window, verifies it, and rebuilds if that is due; None lets the run
        go on. */
    method RunWindow(w: Window, cursor: Cursor, windowsCompleted: nat, lastWindowNumber: Option<nat>)
      returns (ended: Option<Outcome>)
      requires UnderWay() && o.execute && duty.Ready? && GatesPassed(log, w) && LiveCursor(log, w) == cursor
      requires PlannedAt(cursor.fromBlock, w)
      requires if duty.expected.Some? then duty.expected.value == cursor else ExpectedByOperator(o, cursor)
      requires windowsCompleted == |done| < o.maxWindows
      requires lastWindowNumber == if done == [] then None else Some(Last(done, 1).number)
      modifies this
      ensures Valid()
      ensures ended.None? ==>
        UnderWay() && done == old(done) + [w] && old(log) <= log && duty == Ready(Some(After(cursor, w)))
      ensures ended.Some? ==> Truthful(o, log, ended.value)
    {
      hide DutyAfter, WindowsDone, GatesPassed, PlannedAt, Truthful, Cause, RebuildDue, FinalRebuildDue,
        EndsWithRebuild, WithinLimit;
      var v := SubmitWindow(w, cursor);
      match v {
        case Throws =>
          CountsShown(windowsCompleted, lastWindowNumber, NoTransfersCursor);
          RejectedShown();
          return Some(Rejected);
        case StopWith(reason) =>
          CountsShown(windowsCompleted, lastWindowNumber, reason);
          var outcome := Stop(reason, windowsCompleted, lastWindowNumber);
          return Some(outcome);
        case GiveUp(reason) =>
          UncleanEnd(w, windowsCompleted, reason);
          return Some(Returned(Summary(reason, windowsCompleted, Some(w.number))));
        case Pass =>
      }
      ended := None;
      var finalDue := FinalRebuildDue(w.number, w.total);
      DueMeans(w);
      if CheckpointDue(w.number) || finalDue {
        ended := FinishDueWindow(w, finalDue, windowsCompleted + 1, Some(w.number));
      }
    }

    static lemma DueMeans(w: Window)
      ensures RebuildDue(w) <==> CheckpointDue(w.number) || FinalRebuildDue(w.number, w.total)
    {
    }

    lemma NoCursorYet()
      requires UnderWay() && |log| == 2
      ensures FirstCursor(log).None?
    {
      assert log[..1][..0] == [] && log[..1] == [log[0]];
      assert FirstCursor(log[..1]).None?;
    }

    lemma LimitShown(windowsCompleted: nat, lastWindowNumber: Option<nat>)
      requires UnderWay() && |done| == Limit(o) && WithinLimit()
      requires windowsCompleted == |CompletedWindows(log)| && lastWindowNumber == NumberDue(log, MaxWindowsReached)
      ensures Truthful(o, log, Returned(Summary(MaxWindowsReached, windowsCompleted, lastWindowNumber)))
    {
      hide DutyAfter, Posts, Previews, CompletedWindows;
      DoneRead(o, log);
    }

    lemma UncleanEnd(w: Window, windowsCompleted: nat, reason: StopReason)
      requires UnderWay() && reason.InvariantFailedAfterRun? && Cause(o, log, reason) && o.execute
      requires duty.Flying? && duty.window == w && |done| < o.maxWindows && windowsCompleted == |done|
      ensures Truthful(o, log, Returned(Summary(reason, windowsCompleted, Some(w.number))))
    {
      hide DutyAfter, Posts, Previews, CompletedWindows, Cause, Consecutive;
      DoneRead(o, log);
      AlwaysAccounted(o, log);
    }

    /** Reads the cursor, plans the next window from it and passes its gates. */
    method PlanWindow(iteration: nat, expectedFrom: Option<int>, expectedTo: Option<int>, simulated: Option<int>)
      returns (v: Verdict, w: Window, cursor: Cursor)
      requires AtLoopHead(iteration, expectedFrom, expectedTo, simulated)
      modifies this
      ensures UnderWay() && duty == old(duty) && done == old(done) && old(log) <= log
      ensures v.Pass? ==>
        && GatesPassed(log, w) && LiveCursor(log, w) == cursor && FirstCursor(log).Some?
        && cursor.toBlock == FirstCursor(log).value.toBlock
        && (expectedFrom.Some? ==> cursor.fromBlock == expectedFrom.value)
        && (expectedTo.Some? ==> cursor.toBlock == expectedTo.value)
        && (iteration == 0 ==> cursor == FirstCursor(log).value)
        && (iteration > 0 ==> FirstCursor(log) == FirstCursor(old(log)))
        && PlannedAt(if !o.execute && simulated.Some? then simulated.value else cursor.fromBlock, w)
      ensures v.StopWith? ==> Explained(v.reason)
      ensures v.Throws? ==> Broken(log)
      ensures !v.GiveUp?
    {
      hide DutyAfter, WindowsDone, GatesPassed, PlannedAt, Cause, FirstCursor, PlannedFrom;
      w, cursor := Window(0, 0, 0, false, 0), Cursor(0, 0);
      ghost var before := log;
      var read := GetLiveCursor();
      if read.Threw? {
        v := Throws;
        return;
      }
      if read.value.None? {
        NoCursorShown();
        v := StopWith(NoTransfersCursor);
        return;
      }
      cursor := read.value.value;
      FirstCursorAfter(before, cursor);
      if expectedFrom.Some? && cursor.fromBlock != expectedFrom.value {
        MismatchShown(before, iteration, expectedFrom, expectedTo, simulated, cursor);
        v := StopWith(CursorExpectationMismatch);
        return;
      }
      if expectedTo.Some? && cursor.toBlock != expectedTo.value {
        MismatchShown(before, iteration, expectedFrom, expectedTo, simulated, cursor);
        v := StopWith(CursorExpectationMismatch);
        return;
      }
      v, w := PlanAndGate(cursor, if !o.execute && simulated.Some? then simulated.value else cursor.fromBlock);
    }

    method PlanAndGate(cursor: Cursor, edge: int) returns (v: Verdict, w: Window)
      requires UnderWay() && Last(log, 1) == CursorRead(Got(Some(cursor))) && FirstCursor(log).Some?
      requires edge == if duty.Previewing? then duty.edge else cursor.fromBlock
      requires duty.Ready? || duty.Previewing?
      modifies this
      ensures UnderWay() && duty == old(duty) && done == old(done) && old(log) <= log
      ensures FirstCursor(log) == FirstCursor(old(log))
      ensures v.Pass? ==> GatesPassed(log, w) && LiveCursor(log, w) == cursor && PlannedAt(edge, w)
      ensures v.StopWith? ==> Explained(v.reason)
      ensures v.Throws? ==> Broken(log)
      ensures !v.GiveUp?
    {
      hide DutyAfter, WindowsDone, FailingGate, GatesPassed, Cause, FirstCursor, PlannedFrom;
      w := Window(0, 0, 0, false, 0);
      ghost var before := log;
      EdgeShown(cursor, edge);
      var plan := PlanFrom(CAMPAIGN, edge);
      if !plan.NextWindow? {
        PlanEndShown(cursor, edge);
        v := StopWith(if plan.Complete? then CampaignComplete else MisalignedCursor);
        return;
      }
      w := plan.window;
      PlannedShown(cursor, edge, w);
      var refused := FailingGate(edge, w);
      if refused.Some? {
        GateShown(edge, w, refused.value);
        v := StopWith(refused.value);
        return;
      }
      v := GateWindow(w, cursor);
      FirstCursorStays(before, log);
    }

    lemma NoCursorShown()
      requires log != [] && Last(log, 1) == CursorRead(Got(None))
      ensures Cause(o, log, NoTransfersCursor)
    {
    }

    lemma FirstCursorAfter(before: seq<Event>, cursor: Cursor)
      requires log == before + [CursorRead(Got(Some(cursor)))]
      ensures FirstCursor(log) == if FirstCursor(before).Some? then FirstCursor(before) else Some(cursor)
    {
      assert log[..|log| - 1] == before;
    }

    lemma MismatchShown(
        before: seq<Event>, iteration: nat, expectedFrom: Option<int>, expectedTo: Option<int>, simulated: Option<int>,
        cursor: Cursor)
      requires log == before + [CursorRead(Got(Some(cursor)))] && Orderly(o, before) && duty == DutyAfter(o, before)
      requires iteration == 0 ==> expectedFrom == o.expectedFrom && expectedTo.None? && FirstCursor(before).None?
      requires iteration > 0 ==>
        && expectedFrom.Some? && expectedTo.Some? && FirstCursor(before).Some?
        && expectedTo.value == FirstCursor(before).value.toBlock
        && if o.execute then duty == Ready(Some(Cursor(expectedFrom.value, expectedTo.value)))
           else simulated.Some? && duty.Previewing? && expectedFrom.value == FirstCursor(before).value.fromBlock
      requires (expectedFrom.Some? && cursor.fromBlock != expectedFrom.value)
            || (expectedTo.Some? && cursor.toBlock != expectedTo.value)
      ensures Cause(o, log, CursorExpectationMismatch)
    {
      hide DutyAfter, FirstCursor, Posts, Previews;
      ExpectedRead(o, before);
      assert log[..|log| - 1] == before;
    }

    lemma EdgeShown(cursor: Cursor, edge: int)
      requires Valid() && (duty.Ready? || duty.Previewing?)
      requires edge == if duty.Previewing? then duty.edge else cursor.fromBlock
      ensures EdgeReached(log, cursor) == edge
    {
      hide DutyAfter, Posts, Previews, CompletedWindows, Consecutive;
      AlwaysAccounted(o, log);
    }

    lemma PlanEndShown(cursor: Cursor, edge: int)
      requires log != [] && Last(log, 1) == CursorRead(Got(Some(cursor))) && EdgeReached(log, cursor) == edge
      requires !PlanFrom(CAMPAIGN, edge).NextWindow?
      ensures Cause(o, log, if PlanFrom(CAMPAIGN, edge).Complete? then CampaignComplete else MisalignedCursor)
    {
      if !PlanFrom(CAMPAIGN, edge).Complete? {
        PlannedIffOnGrid(CAMPAIGN, edge);
      }
    }

    lemma PlannedShown(cursor: Cursor, edge: int, w: Window)
      requires log != [] && Last(log, 1) == CursorRead(Got(Some(cursor))) && EdgeReached(log, cursor) == edge
      requires PlannedAt(edge, w)
      ensures PlannedFrom(log, 1, w)
    {
    }

    lemma GateShown(edge: int, w: Window, reason: StopReason)
      requires FailingGate(edge, w) == Some(reason)
      requires log != [] && Last(log, 1).CursorRead? && Last(log, 1).cursor.Got? && Last(log, 1).cursor.value.Some?
      requires EdgeReached(log, Last(log, 1).cursor.value.value) == edge
      ensures PlannedFrom(log, 1, w) ==> Cause(o, log, reason)
    {
      hide PlannedFrom, FailingGate;
      assert reason in {AdjacencyViolation, RangeSizeViolation, ForkBoundaryViolation};
      if PlannedFrom(log, 1, w) {
        assert GateRefuses(log, w, reason);
      }
    }

    /** The rebuild after a due window; None lets the run go on. */
    method FinishDueWindow(w: Window, finalDue: bool, windowsCompleted: nat, lastWindowNumber: Option<nat>)
      returns (ended: Option<Outcome>)
      requires UnderWay() && o.execute && duty.RebuildOwed? && duty.window == w && RebuildDue(w) && CompletedNow(w)
      requires finalDue == FinalRebuildDue(w.number, w.total)
      requires windowsCompleted == |done| <= o.maxWindows && done != []
      requires lastWindowNumber == Some(Last(done, 1).number)
      modifies this
      ensures Valid()
      ensures ended.None? ==>
        UnderWay() && done == old(done) && old(log) <= log && duty == Ready(Some(old(duty).live))
      ensures ended.Some? ==> Truthful(o, log, ended.value)
    {
      hide DutyAfter, WindowsDone, FinalRebuildDue, RebuildDue, Truthful, Cause, EndsWithRebuild, WithinLimit;
      if !o.allowRebuild {
        var reason := if finalDue then StoppedBeforeFinalRebuild else StoppedBeforeCheckpointRebuild;
        DueStopShown(w, reason);
        CountsShown(windowsCompleted, lastWindowNumber, reason);
        var outcome := Stop(reason, windowsCompleted, lastWindowNumber);
        return Some(outcome);
      }
      var v := RunRebuild(w, finalDue);
      match v {
        case Throws =>
          CountsShown(windowsCompleted, lastWindowNumber, RebuildSubmitFailed);
          RejectedShown();
          return Some(Rejected);
        case GiveUp(reason) =>
          CountsShown(windowsCompleted, lastWindowNumber, reason);
          GivenUpShown(windowsCompleted, lastWindowNumber, reason);
          return Some(Returned(Summary(reason, windowsCompleted, lastWindowNumber)));
        case Pass =>
          if !finalDue {
            return None;
          }
          CountsShown(windowsCompleted, lastWindowNumber, CampaignCompleteAfterFinalRebuild);
          FinalEndShown(w, windowsCompleted, lastWindowNumber);
          return Some(Returned(Summary(CampaignCompleteAfterFinalRebuild, windowsCompleted, lastWindowNumber)));
      }
    }

    lemma DueStopShown(w: Window, reason: StopReason)
      requires Valid() && duty.RebuildOwed? && duty.window == w && RebuildDue(w) && CompletedNow(w) && !o.allowRebuild
      requires reason ==
        if FinalRebuildDue(w.number, w.total) then StoppedBeforeFinalRebuild else StoppedBeforeCheckpointRebuild
      ensures Cause(o, log, reason)
    {
      hide DutyAfter, FinalRebuildDue, RebuildDue, Posts, EndsAtDueWindow;
      OwedRebuildShown(o, log);
    }

    lemma GivenUpShown(windowsCompleted: nat, lastWindowNumber: Option<nat>, reason: StopReason)
      requires UnderWay() && WithinLimit() && Cause(o, log, reason) && Unrecorded(reason)
      requires windowsCompleted == |CompletedWindows(log)| && lastWindowNumber == NumberDue(log, reason)
      ensures Truthful(o, log, Returned(Summary(reason, windowsCompleted, lastWindowNumber)))
    {
      hide Cause;
    }

    lemma FinalEndShown(w: Window, windowsCompleted: nat, lastWindowNumber: Option<nat>)
      requires UnderWay() && WithinLimit() && duty.Done? && EndsWithRebuild(log, w)
      requires windowsCompleted == |CompletedWindows(log)|
      requires lastWindowNumber == NumberDue(log, CampaignCompleteAfterFinalRebuild)
      ensures Truthful(o, log, Returned(Summary(CampaignCompleteAfterFinalRebuild, windowsCompleted, lastWindowNumber)))
    {
      hide DutyAfter, EndsWithRebuild, EndsAtDueWindow;
      FinalRebuildShown(o, log, w);
    }
  }
}
