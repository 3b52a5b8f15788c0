/** What the log of a batch shows of the reason for which it ends: the answer that each
    stop reason stands for, and what each field of the summary reports. */
module SyncRunnerCauses {
  import opened Base
  import opened SyncPrimitives
  import opened RecoveryWarnings
  import opened SyncRunnerProtocol

  datatype RecoveryReport = RecoveryReport(eligible: bool, recovered: bool)

  datatype Summary = Summary(
    reason: StopReason, windowsCompleted: nat, lastWindowNumber: Option<nat>, recovery: Option<RecoveryReport>)

  /** A run returns a summary, or rejects because a dependency threw. */
  datatype Outcome = Returned(summary: Summary) | Rejected

  /** A dependency threw instead of answering. */
  predicate Failure(e: Event) {
    match e
    case WalletLookup(id) => id.Threw?
    case CursorRead(cursor) => cursor.Threw?
    case SourceRunRead(source) => source.Threw?
    case LabelList(labels) => labels.Threw?
    case ActiveRuns(count) => count.Threw?
    case Rows(_, _, _, rows) => rows.Threw?
    case Post(_, reply) => reply.Threw?
    case Polled(_, outcome) => outcome.Threw?
    case Health(_) => false
    case Write(_, acknowledged) => !acknowledged
  }

  predicate Broken(log: seq<Event>) {
    log != [] && Failure(Last(log, 1))
  }

  predicate EndsWith(log: seq<Event>, record: Record) {
    log != [] && Last(log, 1) == Write(record, true)
  }

  /** The recovery is asked for and not yet settled. */
  predicate Recovers(o: Options, log: seq<Event>) {
    o.recovery.Some? && !Settled(log)
  }

  /** The request whose gates are being passed, or which is in flight. */
  function AtStake(o: Options, log: seq<Event>): Request {
    if Recovers(o, log) then RecoveryRequest(o) else WindowRequest(o, Counted(log))
  }

  /** The POST of what is at stake was answered otherwise than with 202 and a run id. */
  predicate Refused(o: Options, log: seq<Event>) {
    && log != [] && Last(log, 1).Post? && Last(log, 1).request == AtStake(o, log)
    && Last(log, 1).reply.Got? && (Last(log, 1).reply.value.status != 202 || Last(log, 1).reply.value.runId == "")
  }

  /** The POST of what is at stake was accepted, and the run named did not become terminal
      in time. */
  predicate NeverTerminal(o: Options, log: seq<Event>) {
    && |log| >= 2 && Last(log, 1).Polled? && Last(log, 1).outcome == Got(None) && Last(log, 1).runId != ""
    && Last(log, 2) == Post(AtStake(o, log), Got(Response(202, Last(log, 1).runId)))
  }

  /** The durable record of what is at stake calls it unclean, directly after at least one
      bad answer. */
  predicate Unclean(o: Options, log: seq<Event>, runId: string) {
    && log != []
    && var front, want := log[..|log| - 1], Expectation(WalletRead(log), o.chainId, AtStake(o, log));
    && Last(log, 1)
       == Write(
            if Recovers(o, log) then RecoveryRecord(want.request, runId, false)
            else WindowRecord(want.request, runId, false),
            true)
    && ChecksRead(front, runId, want.request)
    && !ChecksPassed(o, front, runId, want, Recovers(o, log))
  }

  /** What a stop reason stands for in the log before the stop record. */
  ghost predicate Cause(o: Options, log: seq<Event>, reason: StopReason) {
    && log != []
    && var last, next := Last(log, 1), AtStake(o, log);
       match reason
       case RecoveryOnlyRequiresRecoveryMode => o.recoveryOnly && o.recovery.None? && |log| == 1
       case WalletNotFound => |log| == 2 && last == WalletLookup(Got(None))
       case RecoveryWindowNotAtCursorFrontier =>
         |log| == 2 && last.WalletLookup? && Recovers(o, log) && o.expectedCursorTo != next.endBlock
       case CursorExpectationMismatch =>
         last.CursorRead? && last.cursor.Got? && last.cursor.value != Some(ExpectedLive(o, Counted(log)))
       case RecoverySourceRunIneligible =>
         && Recovers(o, log) && last.SourceRunRead? && last.source.Got?
         && !EligibleSource(last.source.value, o.recovery.value, Expectation(WalletRead(log), o.chainId, next))
       case PolicyLabelOverlong => Recovers(o, log) && last.SourceRunRead? && last.source.Got?
         && |next.policyLabel| > 128
       case FirstWindowStartMismatch =>
         && last == CursorRead(Got(Some(ExpectedLive(o, 0)))) && Counted(log) == 0 && !Recovers(o, log)
         && o.expectedCursorTo + 1 != EffectiveFirstWindowStart(o)
       case AdjacencyViolation => !Recovers(o, log) && !ForwardAdjacent(Edge(o, Counted(log)), next.startBlock)
       case ActiveOperationConflict => last.ActiveRuns? && last.count.Got? && last.count.value > 0
       case PolicyLabelCollision => last.LabelList? && last.labels.Got? && next.policyLabel in last.labels.value
       case ServerUnhealthy => last == Health(false)
       case FabricatedContaminationPreGate =>
         && last.Rows? && last.check.FabricatedTransfers? && last.rows.Got? && last.rows.value > 0
         && last.startBlock == next.startBlock && last.endBlock == next.endBlock
       case RecoveryManualSyncSubmitFailed => Recovers(o, log) && Refused(o, log)
       case ManualSyncSubmitFailed => !Recovers(o, log) && Refused(o, log)
       case RecoveryPollTimeout => Recovers(o, log) && NeverTerminal(o, log)
       case PollTimeout => !Recovers(o, log) && NeverTerminal(o, log)
       case RecoveryInvariantFailedAfterRun => Recovers(o, log) && exists runId :: Unclean(o, log, runId)
       case InvariantFailedAfterRun => !Recovers(o, log) && exists runId :: Unclean(o, log, runId)
       case _ => false
  }

  /** How far a recovery that stopped the run had come: its source was accepted, unless
      that or something before it is the reason. */
  predicate SourceAccepted(reason: StopReason) {
    && !reason.RecoveryWindowNotAtCursorFrontier? && !reason.CursorExpectationMismatch?
    && !reason.RecoverySourceRunIneligible?
  }

  predicate CleanEnd(reason: StopReason) {
    reason.RecoveryOnlyCompleted? || reason.MaxWindowsReached?
  }

  /** What is reported about a recovery: at a clean end that it is done or, in a dry run,
      possible; where it stopped the run, how far it had come; otherwise nothing. */
  function ReportDue(o: Options, log: seq<Event>, reason: StopReason): Option<RecoveryReport> {
    if o.recovery.None? || reason.WalletNotFound? then None
    else if CleanEnd(reason) then Some(RecoveryReport(true, o.execute))
    else if Settled(log) then None
    else Some(RecoveryReport(SourceAccepted(reason), false))
  }

  /** The number of the last window counted, or of the one that was recorded as unclean. */
  function NumberDue(log: seq<Event>, reason: StopReason): Option<nat> {
    if reason.InvariantFailedAfterRun? then Some(Counted(log) + 1)
    else if Counted(log) == 0 then None
    else Some(Counted(log))
  }

  function Limit(o: Options): nat {
    if o.maxWindows < 0 then 0 else o.maxWindows
  }

  /** What the log shows of the reason: a clean end with the durable summary last, or the
      durable stop record directly after what the reason stands for. */
  ghost predicate Shown(o: Options, log: seq<Event>, reason: StopReason) {
    match reason
    case RecoveryOnlyCompleted =>
      && EndsWith(log, SummaryRecord(reason)) && o.recoveryOnly && o.recovery.Some? && Settled(log) && Counted(log) == 0
    case MaxWindowsReached =>
      && EndsWith(log, SummaryRecord(reason)) && !o.recoveryOnly && Counted(log) == Limit(o)
      && (o.recovery.Some? <==> Settled(log))
    case _ => EndsWith(log, StopRecord(reason)) && Cause(o, log[..|log| - 1], reason)
  }

  /** The first two interactions of every run. */
  predicate Started(o: Options, log: seq<Event>) {
    && log != [] && log[0].Write? && log[0].record == Preflight(o.recoveryOnly)
    && (|log| > 1 ==> log[0].acknowledged)
    && (|log| > 3 ==> log[1].WalletLookup? && log[1].id.Got? && log[1].id.value.Some?)
  }

  /** What the outcome of a run is worth, told from its log alone. */
  ghost predicate Truthful(o: Options, log: seq<Event>, outcome: Outcome) {
    && Started(o, log)
    && match outcome
       case Rejected => Broken(log)
       case Returned(summary) =>
         && Shown(o, log, summary.reason)
         && summary.windowsCompleted == (if o.execute then Counted(log) else 0)
         && summary.lastWindowNumber == NumberDue(log, summary.reason)
         && summary.recovery == ReportDue(o, log, summary.reason)
  }

  /** A stop record changes nothing of what is counted or settled. */
  lemma StopChangesNothing(log: seq<Event>, reason: StopReason, acknowledged: bool)
    ensures var log' := log + [Write(StopRecord(reason), acknowledged)];
      Counted(log') == Counted(log) && Settled(log') == Settled(log) && log'[..|log|] == log
  {
    assert (log + [Write(StopRecord(reason), acknowledged)])[..|log|] == log;
  }

  lemma SummaryChangesNothing(log: seq<Event>, reason: StopReason, acknowledged: bool)
    ensures var log' := log + [Write(SummaryRecord(reason), acknowledged)];
      Counted(log') == Counted(log) && Settled(log') == Settled(log)
  {
    assert (log + [Write(SummaryRecord(reason), acknowledged)])[..|log|] == log;
  }

  /** The adjacency gate repeats what planning guarantees: no run ends for it. */
  lemma NeverEndsForAdjacency(o: Options, log: seq<Event>, outcome: Outcome)
    requires Truthful(o, log, outcome)
    ensures outcome.Returned? ==> !outcome.summary.reason.AdjacencyViolation?
  {
  }
}
