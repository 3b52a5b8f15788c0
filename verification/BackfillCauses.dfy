/** What the log of a backfill shows of the reason for which it ends: the answer that each
    stop reason stands for, and what each field of the summary reports. */
module BackfillCauses {
  import opened Base
  import opened SyncPrimitives
  import opened BackfillPlan
  import opened BackfillProtocol

  datatype Summary = Summary(reason: StopReason, windowsCompleted: nat, lastWindowNumber: Option<nat>)

  /** A run returns a summary, or rejects because a dependency threw. */
  datatype Outcome = Returned(summary: Summary) | Rejected

  /** A dependency threw instead of answering. */
  predicate Failure(e: Event) {
    match e
    case DecimalCheck(capable) => capable.Threw?
    case WalletLookup(id) => id.Threw?
    case CursorRead(cursor) => cursor.Threw?
    case ActiveRuns(count) => count.Threw?
    case LabelList(labels) => labels.Threw?
    case Health(_) => false
    case Rows(_, _, _, count) => count.Threw?
    case PostWindow(_, reply) => reply.Threw?
    case PostRebuild(_, reply) => reply.Threw?
    case Polled(_, outcome) => outcome.Threw?
    case Write(_, acknowledged) => !acknowledged
  }

  predicate Broken(log: seq<Event>) {
    log != [] && Failure(Last(log, 1))
  }

  predicate Recorded(log: seq<Event>, reason: StopReason) {
    log != [] && Last(log, 1) == Write(StopRecord(reason), true)
  }

  // ----- the cursor and the window planned from it

  /** The first cursor the run read. */
  function FirstCursor(log: seq<Event>): Option<Cursor> {
    if log == [] then None
    else
      match FirstCursor(log[..|log| - 1])
      case Some(cursor) => Some(cursor)
      case None =>
        match log[|log| - 1]
        case CursorRead(Got(Some(cursor))) => Some(cursor)
        case _ => None
  }

  lemma {:induction false} FirstCursorStays(log: seq<Event>, longer: seq<Event>)
    requires log <= longer && FirstCursor(log).Some?
    ensures FirstCursor(longer) == FirstCursor(log)
  {
    if |longer| > |log| {
      assert log <= longer[..|longer| - 1];
      FirstCursorStays(log, longer[..|longer| - 1]);
    } else {
      assert longer == log;
    }
  }

  /** The edge the next window is planned from: the live one, or in a dry run that of the
      last preview. */
  function EdgeReached(log: seq<Event>, cursor: Cursor): int {
    if Previews(log) != [] then Previews(log)[|Previews(log)| - 1].startBlock else cursor.fromBlock
  }

  /** The cursor is where the run expects it: at first where the operator says, if he does;
      then with the upper edge first read, and a lower edge at the last window submitted or,
      while none is, as first read. */
  predicate AsExpected(o: Options, log: seq<Event>, cursor: Cursor) {
    match FirstCursor(log)
    case None => o.expectedFrom.Some? ==> cursor.fromBlock == o.expectedFrom.value
    case Some(first) =>
      && cursor.toBlock == first.toBlock
      && cursor.fromBlock == if Posts(log) != [] then LastPost(log).startBlock else first.fromBlock
  }

  function LastPost(log: seq<Event>): Window
    requires Posts(log) != []
  {
    Posts(log)[|Posts(log)| - 1]
  }

  /** The n-th interaction from the end read a cursor, and this window is planned from it. */
  predicate PlannedFrom(log: seq<Event>, n: nat, w: Window) {
    && 1 <= n <= |log| && Last(log, n).CursorRead? && Last(log, n).cursor.Got? && Last(log, n).cursor.value.Some?
    && PlannedAt(EdgeReached(log, Last(log, n).cursor.value.value), w)
  }

  /** The three gates between planning and the first database read. */
  function FailingGate(edge: int, w: Window): (r: Option<StopReason>)
    ensures r.Some? ==> r.value in {AdjacencyViolation, RangeSizeViolation, ForkBoundaryViolation}
  {
    if !Adjacent(edge, w) then Some(AdjacencyViolation)
    else if !RangeSizeOk(CAMPAIGN, w) then Some(RangeSizeViolation)
    else if !PostFork(w.startBlock) then Some(ForkBoundaryViolation)
    else None
  }

  /** The gates between planning and the first database read never fail. */
  lemma PlannedWindowsNeverFailGates(edge: int, w: Window)
    requires PlannedAt(edge, w)
    ensures FailingGate(edge, w).None?
  {
    PlannedWindowsPassGates(CAMPAIGN, edge);
  }

  /** One of these gates refuses the window planned from the cursor just read. */
  predicate GateRefuses(log: seq<Event>, w: Window, reason: StopReason) {
    PlannedFrom(log, 1, w) && FailingGate(EdgeReached(log, Last(log, 1).cursor.value.value), w) == Some(reason)
  }

  // ----- what each reason stands for

  /** The window just submitted was recorded as unclean, behind its gates and directly
      after at least one bad answer. */
  predicate Unclean(log: seq<Event>, w: Window, runId: string) {
    && |log| >= 8 && Last(log, 1) == Write(WindowRecord(w, runId, false), true)
    && var front := log[..|log| - 1];
    && ChecksRead(front, w, runId) && GatesPassed(front[..|front| - 7], w)
    && !ChecksPassed(front, w, runId, LiveCursor(front[..|front| - 7], w))
  }

  /** The rebuild of a window was recorded with this outcome, for what stands before. */
  predicate RebuildEnded(log: seq<Event>, w: Window, runId: string, outcome: RebuildOutcome) {
    && log != [] && RebuildDue(w)
    && Last(log, 1) == Write(RebuildRecord(w, FinalRebuildDue(w.number, w.total), runId, outcome), true)
    && RebuildFailed(log[..|log| - 1], w, runId, outcome)
  }

  /** The n-th interaction from the end durably completed a window at which a rebuild is due. */
  predicate CompletedDue(log: seq<Event>, n: nat) {
    && 1 <= n <= |log| && Last(log, n).Write? && Last(log, n).acknowledged
    && Last(log, n).record.WindowRecord? && Last(log, n).record.clean && RebuildDue(Last(log, n).record.window)
  }

  /** The reasons that come without a stop record, after a record of their own or, before a
      rebuild, after none. */
  predicate Unrecorded(reason: StopReason) {
    || reason.InvariantFailedAfterRun? || reason.ActiveOperationConflictBeforeRebuild?
    || reason.ServerUnhealthyBeforeRebuild? || reason.RebuildSubmitFailed? || reason.RebuildPollTimeout?
    || reason.RebuildInvariantFailed?
  }

  /** What a stop reason stands for in the log before the stop record, if there is one. */
  ghost predicate Cause(o: Options, log: seq<Event>, reason: StopReason) {
    && log != []
    && var last := Last(log, 1);
       match reason
       case DecimalCapabilityCheckFailed => |log| == 1 && last == DecimalCheck(Got(false))
       case WalletNotFound => |log| == 2 && last == WalletLookup(Got(None))
       case NoTransfersCursor => last == CursorRead(Got(None))
       case CursorExpectationMismatch =>
         && last.CursorRead? && last.cursor.Got? && last.cursor.value.Some?
         && !AsExpected(o, log[..|log| - 1], last.cursor.value.value)
       case CampaignComplete =>
         && last.CursorRead? && last.cursor.Got? && last.cursor.value.Some?
         && EdgeReached(log, last.cursor.value.value) <= CAMPAIGN.floor
       case MisalignedCursor =>
         && last.CursorRead? && last.cursor.Got? && last.cursor.value.Some?
         && var edge := EdgeReached(log, last.cursor.value.value);
         && edge > CAMPAIGN.floor && forall n: nat :: CAMPAIGN.Edge(n) != edge
       case AdjacencyViolation => exists w :: GateRefuses(log, w, reason)
       case RangeSizeViolation => exists w :: GateRefuses(log, w, reason)
       case ForkBoundaryViolation => exists w :: GateRefuses(log, w, reason)
       case ActiveOperationConflict => last.ActiveRuns? && last.count.Got? && last.count.value > 0
       case PolicyLabelCollision =>
         && last.LabelList? && last.labels.Got?
         && exists w :: PlannedFrom(log, 3, w) && w.Label() in last.labels.value
       case ServerUnhealthy => last == Health(false)
       case FabricatedContaminationPreGate =>
         && last.Rows? && last.check.FabricatedTransfers? && last.count.Got? && last.count.value > 0
         && exists w :: PlannedFrom(log, 5, w) && last.startBlock == w.startBlock && last.endBlock == w.endBlock
       case ManualSyncSubmitFailed => last.PostWindow? && Refused(last.reply)
       case PollTimeout =>
         && |log| >= 2 && last.Polled? && last.outcome == Got(None) && last.runId != ""
         && Last(log, 2).PostWindow? && Last(log, 2).reply == Accepted(last.runId)
       case InvariantFailedAfterRun => exists w, runId :: Unclean(log, w, runId)
       case StoppedBeforeFinalRebuild => CompletedDue(log, 1) && !o.allowRebuild
         && last.record.window.startBlock == CAMPAIGN.floor
       case StoppedBeforeCheckpointRebuild =>
         CompletedDue(log, 1) && !o.allowRebuild && last.record.window.startBlock != CAMPAIGN.floor
       case ActiveOperationConflictBeforeRebuild =>
         CompletedDue(log, 2) && o.allowRebuild && last.ActiveRuns? && last.count.Got? && last.count.value > 0
       case ServerUnhealthyBeforeRebuild =>
         CompletedDue(log, 3) && o.allowRebuild && Last(log, 2) == ActiveRuns(Got(0)) && last == Health(false)
       case RebuildSubmitFailed => exists w :: RebuildEnded(log, w, "", SubmitFailed)
       case RebuildPollTimeout => exists w, runId :: RebuildEnded(log, w, runId, TimedOut)
       case RebuildInvariantFailed => exists w, runId :: RebuildEnded(log, w, runId, FailedInvariant)
       case _ => false
  }

  /** Every submitted window is completed and proven, and a rebuild is due for the last. */
  ghost predicate EndsAtDueWindow(log: seq<Event>) {
    && Posts(log) != [] && CompletedWindows(log) == Posts(log)
    && (forall k :: 0 <= k < |Posts(log)| ==> WindowProven(log, Posts(log)[k]))
    && RebuildDue(LastPost(log))
  }

  /** The run stopped at a due window, with no rebuild submitted at all. */
  ghost predicate StoppedBeforeRebuild(log: seq<Event>) {
    EndsAtDueWindow(log) && forall k :: 0 <= k < |log| ==> !log[k].PostRebuild?
  }

  function Limit(o: Options): nat {
    if o.maxWindows < 0 then 0 else o.maxWindows
  }

  /** What the log shows of the reason for which a run ends. */
  ghost predicate Shown(o: Options, log: seq<Event>, reason: StopReason) {
    if reason.CampaignCompleteAfterFinalRebuild? then
      EndsAtDueWindow(log) && LastPost(log).startBlock == CAMPAIGN.floor && EndsWithRebuild(log, LastPost(log))
    else if reason.MaxWindowsReached? then
      (if o.execute then |CompletedWindows(log)| else |Previews(log)|) == Limit(o)
    else if Unrecorded(reason) then Cause(o, log, reason)
    else
      && Recorded(log, reason) && Cause(o, log[..|log| - 1], reason)
      && (reason.StoppedBeforeFinalRebuild? || reason.StoppedBeforeCheckpointRebuild? ==> StoppedBeforeRebuild(log))
  }

  /** The windows counted: completed or, in a dry run, previewed. */
  function WindowsDone(log: seq<Event>): seq<Window> {
    CompletedWindows(log) + Previews(log)
  }

  /** The number of the last window counted, or of the one recorded as unclean. */
  function NumberDue(log: seq<Event>, reason: StopReason): Option<nat> {
    if reason.InvariantFailedAfterRun? && Posts(log) != [] then Some(LastPost(log).number)
    else if WindowsDone(log) == [] then None
    else Some(Last(WindowsDone(log), 1).number)
  }

  /** The first two interactions of every run. */
  predicate Started(log: seq<Event>) {
    && log != [] && log[0].DecimalCheck?
    && (|log| > 2 ==> log[0] == DecimalCheck(Got(true)) && log[1].WalletLookup?)
    && (|log| > 3 ==> log[1].id.Got? && log[1].id.value.Some?)
  }

  /** What the outcome of a run is worth, told from its log alone. */
  ghost predicate Truthful(o: Options, log: seq<Event>, outcome: Outcome) {
    && Started(log) && |Posts(log)| <= Limit(o) && |Previews(log)| <= Limit(o)
    && match outcome
       case Rejected => Broken(log)
       case Returned(summary) =>
         && Shown(o, log, summary.reason)
         && summary.windowsCompleted == |CompletedWindows(log)|
         && summary.lastWindowNumber == NumberDue(log, summary.reason)
  }

  // ----- the gates, the verdicts and the edge, read back from the log

  /** A window is submitted only in execution and directly after all its gates, planned
      from the cursor read there. */
  lemma PostsAreGated(o: Options, log: seq<Event>, w: Window, reply: Reply<Response>)
    requires Orderly(o, log + [PostWindow(w, reply)])
    ensures o.execute && GatesPassed(log, w) && PlannedAt(LiveCursor(log, w).fromBlock, w)
  {
    hide DutyAfter, GatesPassed, PlannedAt;
    DutySnoc(o, log, PostWindow(w, reply));
  }

  /** A window is recorded as planned only in a dry run and directly after all its gates,
      planned from the edge reached. */
  lemma PlansAreGated(o: Options, log: seq<Event>, w: Window, acknowledged: bool)
    requires Orderly(o, log + [Write(DryRunPlanned(w), acknowledged)])
    ensures !o.execute && GatesPassed(log, w) && PlannedAt(EdgeReached(log, LiveCursor(log, w)), w)
  {
    hide DutyAfter, GatesPassed, PlannedAt, Previews, Posts, CompletedWindows;
    var e := Write(DryRunPlanned(w), acknowledged);
    DutySnoc(o, log, e);
    ViolationIsFinal(o, log, e);
    AlwaysAccounted(o, log);
  }

  /** Every record that judges a window says clean exactly if all that was read directly
      before, from its own gates and accepted submission on, is good. */
  lemma VerdictsAreEarned(o: Options, log: seq<Event>, w: Window, runId: string, clean: bool, acknowledged: bool)
    requires Orderly(o, log + [Write(WindowRecord(w, runId, clean), acknowledged)])
    ensures ChecksRead(log, w, runId) && GatesPassed(log[..|log| - 7], w)
    ensures clean <==> ChecksPassed(log, w, runId, LiveCursor(log[..|log| - 7], w))
  {
    hide DutyAfter, GatesPassed, PlannedAt, Previews, Posts, CompletedWindows, WindowProven, RebuildProven, LiveCursor,
      RunAcceptable, RebuildDue;
    var e := Write(WindowRecord(w, runId, clean), acknowledged);
    DutySnoc(o, log, e);
    ViolationIsFinal(o, log, e);
    AlwaysVouched(o, log);
    OpenedSevenBefore(log, w, runId, DutyAfter(o, log).live);
  }

  lemma OpenedSevenBefore(log: seq<Event>, w: Window, runId: string, live: Cursor)
    requires ChecksRead(log, w, runId)
    requires exists a: nat :: OpenedAt(log, a, w, live)
    ensures GatesPassed(log[..|log| - 7], w) && LiveCursor(log[..|log| - 7], w) == live
  {
    hide GatesPassed, LiveCursor;
    var a: nat :| OpenedAt(log, a, w, live);
    var n := |log|;
    assert log[n - 7] == Last(log, 7) && log[n - 6] == Last(log, 6) && log[n - 5] == Last(log, 5)
      && log[n - 4] == Last(log, 4)
      && log[n - 3] == Last(log, 3) && log[n - 2] == Last(log, 2) && log[n - 1] == Last(log, 1);
    assert a == n - 7;
  }

  /** The gates that repeat what planning guarantees end no run. */
  lemma NeverEndsForGates(o: Options, log: seq<Event>, outcome: Outcome)
    requires Truthful(o, log, outcome) && outcome.Returned?
    ensures var reason := outcome.summary.reason;
      !reason.AdjacencyViolation? && !reason.RangeSizeViolation? && !reason.ForkBoundaryViolation?
  {
    hide Posts, Previews, CompletedWindows, FailingGate, PlannedAt;
    var reason, front := outcome.summary.reason, log[..|log| - 1];
    if reason.AdjacencyViolation? || reason.RangeSizeViolation? || reason.ForkBoundaryViolation? {
      var w :| GateRefuses(front, w, reason);
      PlannedWindowsNeverFailGates(EdgeReached(front, Last(front, 1).cursor.value.value), w);
    }
  }

  // ----- what the duty says about the log

  /** The windows done are those completed in execution and those previewed in a dry run. */
  lemma DoneRead(o: Options, log: seq<Event>)
    requires Orderly(o, log)
    ensures CompletedWindows(log) == if o.execute then WindowsDone(log) else []
    ensures Previews(log) == if o.execute then [] else WindowsDone(log)
    ensures |Posts(log)| == |CompletedWindows(log)| + if DutyAfter(o, log).Flying? then 1 else 0
  {
    hide DutyAfter, Posts, Previews, CompletedWindows, Consecutive;
    AlwaysAccounted(o, log);
  }

  lemma DoneSnoc(o: Options, log: seq<Event>, e: Event)
    requires Orderly(o, log) && Orderly(o, log + [e])
    ensures WindowsDone(log + [e]) == WindowsDone(log) + (Completing(e) + Previewed(e))
  {
    hide DutyAfter;
    var log' := log + [e];
    assert log'[..|log|] == log;
    DoneRead(o, log');
    DoneRead(o, log);
    assert CompletedWindows(log') == CompletedWindows(log) + Completing(e)
      && Previews(log') == Previews(log) + Previewed(e);
  }

  /** Where the run expects the cursor. */
  lemma ExpectedRead(o: Options, log: seq<Event>)
    requires Orderly(o, log)
    ensures var d := DutyAfter(o, log);
      && (d.Ready? && d.expected.Some? ==> Posts(log) != [] && LastPost(log).startBlock == d.expected.value.fromBlock)
      && (d.Previewing? ==>
           Posts(log) == [] && Previews(log) != [] && Previews(log)[|Previews(log)| - 1].startBlock == d.edge)
      && (d == Ready(None) ==> Posts(log) == [] && Previews(log) == [])
  {
    hide DutyAfter, Posts, Previews, CompletedWindows, Consecutive;
    AlwaysAccounted(o, log);
  }

  /** What is owed or being rebuilt is the last window submitted, completed and proven. */
  lemma DueWindowShown(o: Options, log: seq<Event>)
    requires Orderly(o, log) && (DutyAfter(o, log).RebuildOwed? || DutyAfter(o, log).Rebuilding?)
    ensures EndsAtDueWindow(log) && LastPost(log) == DutyAfter(o, log).window
    ensures PlannedAt(LastPost(log).endBlock + 1, LastPost(log))
  {
    hide DutyAfter, Posts, Previews, CompletedWindows, RebuildDue, PlannedAt, WindowProven;
    AlwaysAccounted(o, log);
    AlwaysVouched(o, log);
  }

  lemma OwedRebuildShown(o: Options, log: seq<Event>)
    requires Orderly(o, log) && DutyAfter(o, log).RebuildOwed? && !o.allowRebuild
    ensures StoppedBeforeRebuild(log) && LastPost(log) == DutyAfter(o, log).window
    ensures var w := LastPost(log); FinalRebuildDue(w.number, w.total) <==> w.startBlock == CAMPAIGN.floor
  {
    hide DutyAfter, Posts, Previews, CompletedWindows, RebuildDue, PlannedAt, WindowProven, FinalRebuildDue;
    DueWindowShown(o, log);
    LastNumberAtFloor(LastPost(log).endBlock + 1, LastPost(log));
    forall k | 0 <= k < |log| ensures !log[k].PostRebuild? {
      if log[k].PostRebuild? {
        FlagForRebuild(o, log, k);
      }
    }
  }

  /** A rebuild recorded last is that of the last window submitted. */
  lemma FinalRebuildShown(o: Options, log: seq<Event>, w: Window)
    requires Orderly(o, log) && DutyAfter(o, log).Done? && EndsWithRebuild(log, w)
    ensures Shown(o, log, CampaignCompleteAfterFinalRebuild)
  {
    hide DutyAfter, Previews, RebuildDue, PlannedAt, WindowProven, FinalRebuildDue, RebuildVerified;
    var b: nat, runId :| b + 1 == |log| && RebuildProvenAt(log, b, w, runId);
    var front, e := log[..b], log[b];
    PrefixStep(o, log, b);
    assert log[..b + 1] == log;
    RebuildRecordNeeds(o, DutyAfter(o, front), front, w, runId);
    DueWindowShown(o, front);
    assert Posts(log) == Posts(front) && CompletedWindows(log) == CompletedWindows(front);
    assert log == front + [e];
    forall k | 0 <= k < |Posts(log)| ensures WindowProven(log, Posts(log)[k]) {
      ProvenStays(front, e, Posts(log)[k]);
    }
    LastNumberAtFloor(LastPost(log).endBlock + 1, LastPost(log));
  }

  lemma RebuildRecordNeeds(o: Options, d: Duty, log: seq<Event>, w: Window, runId: string)
    requires var isFinal := FinalRebuildDue(w.number, w.total);
      Step(o, d, log, Write(RebuildRecord(w, isFinal, runId, Completed), true)).Done?
    ensures d.Rebuilding? && d.window == w && FinalRebuildDue(w.number, w.total)
  {
    hide RebuildVerified;
  }

  /** A stop record submits, previews and completes nothing. */
  lemma StopChangesNothing(log: seq<Event>, reason: StopReason, acknowledged: bool)
    ensures var log' := log + [Write(StopRecord(reason), acknowledged)];
      && Posts(log') == Posts(log) && Previews(log') == Previews(log) && CompletedWindows(log') == CompletedWindows(log)
      && log'[..|log|] == log
  {
    assert (log + [Write(StopRecord(reason), acknowledged)])[..|log|] == log;
  }
}
