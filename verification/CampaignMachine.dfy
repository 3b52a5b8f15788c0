/** The campaign protocol as an automaton over its interactions with the outside.

    An event is one call of an injected dependency together with the answer it
    gave. The environment chooses every answer; `Next` fixes what the campaign may
    do next and `Stuck` marks an interaction the protocol does not allow. */
module CampaignMachine {
  import opened Base
  import opened SyncPrimitives
  import opened RecoveryWarnings
  import opened CampaignPlan

  datatype Target = RecoveryWindow | OrdinaryWindow(number: nat)

  datatype Record =
    | CampaignStart
    | RecoveryPlanned(request: Request)
    | RecoveryResult(request: Request, runId: string, clean: bool)
    | WindowPlanned(number: nat, request: Request)
    | WindowResult(number: nat, request: Request, runId: string, clean: bool)
    | Checkpoint(processed: nat, windowsCompleted: nat, ok: bool)
    | StopRecord(reason: StopReason)
    | CampaignSummary(summary: Summary)

  datatype Event =
    | GitHead(head: Reply<string>)
    | WorkingTree(clean: Reply<bool>)
    | Health(ok: bool, appEnv: Option<string>)
    | WalletLookup(id: Reply<Option<string>>)
    | CursorRead(cursor: Reply<Option<Cursor>>)
    | SourceRunRead(run: Reply<Option<SyncRun>>)
    | ActiveRuns(count: Reply<nat>)
    | LabelList(labels: Reply<seq<string>>)
    | Rows(check: RowCheck, startBlock: int, endBlock: int, count: Reply<nat>)
    | Post(target: Target, request: Request, reply: Reply<Response>)
    | Candidates(policyLabel: string, runs: Reply<seq<SyncRun>>)
    | Polled(runId: string, outcome: Reply<Option<SyncRun>>)
    | EvidenceWritable(writable: Reply<bool>)
    | Write(record: Record, acknowledged: bool)

  datatype RecoveryReport = RecoveryReport(eligible: bool, recovered: bool)

  datatype Summary = Summary(
    reason: StopReason,
    windowsCompleted: nat,
    lastWindowNumber: Option<nat>,
    checkpointsPassed: nat,
    recovery: Option<RecoveryReport>)

  datatype StartStep = AwaitHead | AwaitTree | AwaitBaseline | AwaitWallet | AwaitStartRecord

  datatype GateStep = AwaitCursor | AwaitSource | AwaitLabels | AwaitActive | AwaitHealth | AwaitContamination
    | AwaitPlanRecord

  datatype SubmitStep =
    | AwaitPost
    | AwaitCandidates
    | AwaitPoll(runId: string)
    | AwaitCursorAfter(runId: string, clean: bool)
    | AwaitRows(check: RowCheck, runId: string, clean: bool)
    | AwaitActiveAfter(runId: string, clean: bool)
    | AwaitResultRecord(runId: string, clean: bool)

  datatype CheckStep =
    | CheckHead
    | CheckTree(ok: bool)
    | CheckHealth(ok: bool)
    | CheckCursor(ok: bool)
    | CheckWritable(ok: bool)
    | CheckRecord(ok: bool)

  datatype Phase =
    | Starting(start: StartStep)
    | RecoveryGates(gate: GateStep)
    | WindowGates(gate: GateStep, plan: WindowPlan)
    | Submitting(target: Target, request: Request, submit: SubmitStep)
    | Checking(check: CheckStep)
    | Summarising
    | Stopping(summary: Summary)
    | Ended(summary: Summary)
    | Crashed
    | Stuck

  /** The variables of the run that survive from one window to the next. */
  datatype Loop = Loop(
    windowCount: nat,
    recovery: Option<RecoveryReport>,
    iteration: nat,
    windowsCompleted: nat,
    lastWindowNumber: Option<nat>,
    checkpointsPassed: nat,
    processed: nat,
    expectedTo: int,
    simulatedTo: Option<int>)

  datatype State = State(
    phase: Phase,
    head: string,
    appEnv: Option<string>,
    walletId: string,
    lastPlannedEnd: Option<int>,
    loop: Loop)

  /** The options survive the run-time re-validation. */
  predicate Usable(o: Options) {
    CheckOptions(o).Accepted?
  }

  const NO_PLAN: WindowPlan := WindowPlan(0, Request(0, -1, ""))

  function Init(o: Options): State
    requires Usable(o)
  {
    State(Starting(AwaitHead), "", None, "", None,
      Loop(CheckOptions(o).windowCount, None, 0, 0, None, 0, 0, o.expectedCursorTo, None))
  }

  function Budget(o: Options, l: Loop): int {
    Min(o.maxWindows, l.windowCount)
  }

  // ----- leaving the protocol

  function SummaryOf(l: Loop, reason: StopReason, recovery: Option<RecoveryReport>): Summary {
    Summary(reason, l.windowsCompleted, l.lastWindowNumber, l.checkpointsPassed, recovery)
  }

  /** A hard stop: one best-effort stop record, then the summary. */
  function Halt(s: State, reason: StopReason): State {
    s.(phase := Stopping(SummaryOf(s.loop, reason, None)))
  }

  function HaltRecovery(s: State, reason: StopReason): State {
    s.(phase := Stopping(SummaryOf(s.loop, reason, s.loop.recovery)))
  }

  /** A mandatory record could not be appended: no stop record is attempted. */
  function AppendFailed(s: State, recovery: Option<RecoveryReport>): State {
    s.(phase := Ended(SummaryOf(s.loop, EvidenceAppendFailed, recovery)))
  }

  function WithRecovery(s: State, report: RecoveryReport): State {
    s.(loop := s.loop.(recovery := Some(report)))
  }

  function Reject(s: State): State {
    s.(phase := Stuck)
  }

  // ----- the start of a campaign

  function NextStart(o: Options, s: State, step: StartStep, e: Event): State {
    match (step, e)
    case (AwaitHead, GitHead(head)) =>
      if head.Threw? then Halt(s, GitHeadUnavailable)
      else s.(phase := Starting(AwaitTree), head := head.value)
    case (AwaitTree, WorkingTree(clean)) =>
      if clean.Threw? then s.(phase := Crashed)
      else if !clean.value then Halt(s, WorkingTreeDirty)
      else s.(phase := Starting(AwaitBaseline))
    case (AwaitBaseline, Health(ok, appEnv)) =>
      if !ok then Halt(s, InitialHealthBaselineFailed)
      else s.(phase := Starting(AwaitWallet), appEnv := appEnv)
    case (AwaitWallet, WalletLookup(id)) =>
      if id.Threw? then s.(phase := Crashed)
      else if id.value.None? then Halt(s, WalletNotFound)
      else s.(phase := Starting(AwaitStartRecord), walletId := id.value.value)
    case (AwaitStartRecord, Write(record, acknowledged)) =>
      if record != CampaignStart then Reject(s)
      else if !acknowledged then AppendFailed(s, None)
      else BeginWork(o, s)
    case _ => Reject(s)
  }

  function BeginWork(o: Options, s: State): State {
    if o.recovery.None? then s.(phase := WindowGates(AwaitCursor, NO_PLAN))
    else
      var s' := WithRecovery(s, RecoveryReport(false, false));
      if o.expectedCursorTo != IntendedRecovery(o).endBlock then HaltRecovery(s', RecoveryWindowNotAtCursorFrontier)
      else s'.(phase := RecoveryGates(AwaitCursor))
  }

  // ----- the gates before the recovery window

  function NextRecoveryGate(o: Options, s: State, step: GateStep, e: Event): State
    requires o.recovery.Some?
  {
    var request := IntendedRecovery(o);
    match (step, e)
    case (AwaitCursor, CursorRead(cursor)) =>
      if cursor.Threw? then HaltRecovery(s, UnexpectedError)
      else if !CursorMatches(cursor.value, Cursor(o.expectedCursorFrom, o.expectedCursorTo)) then
        HaltRecovery(s, CursorExpectationMismatch)
      else s.(phase := RecoveryGates(AwaitSource))
    case (AwaitSource, SourceRunRead(run)) =>
      if run.Threw? then HaltRecovery(s, UnexpectedError)
      else if !EligibleSource(run.value, o.recovery.value, Expectation(s.walletId, o.chainId, request)) then
        HaltRecovery(s, RecoverySourceRunIneligible)
      else
        var s' := WithRecovery(s, RecoveryReport(true, false));
        if !LabelFits(request.policyLabel) then HaltRecovery(s', PolicyLabelOverlong)
        else s'.(phase := RecoveryGates(AwaitLabels))
    case (AwaitLabels, LabelList(labels)) =>
      if labels.Threw? then HaltRecovery(s, UnexpectedError)
      else if request.policyLabel in labels.value then HaltRecovery(s, PolicyLabelCollision)
      else s.(phase := RecoveryGates(AwaitActive))
    case (AwaitActive, ActiveRuns(count)) =>
      if count.Threw? then HaltRecovery(s, UnexpectedError)
      else if count.value > 0 then HaltRecovery(s, ActiveOperationConflict)
      else s.(phase := RecoveryGates(AwaitHealth))
    case (AwaitHealth, Health(ok, _)) =>
      if !ok then HaltRecovery(s, ServerUnhealthy)
      else s.(phase := RecoveryGates(AwaitContamination))
    case (AwaitContamination, Rows(check, start, end, count)) =>
      if check != FabricatedTransfers || start != request.startBlock || end != request.endBlock then Reject(s)
      else if count.Threw? then HaltRecovery(s, UnexpectedError)
      else if count.value > 0 then HaltRecovery(s, FabricatedContaminationPreGate)
      else if o.execute then s.(phase := Submitting(RecoveryWindow, request, AwaitPost))
      else s.(phase := RecoveryGates(AwaitPlanRecord))
    case (AwaitPlanRecord, Write(record, acknowledged)) =>
      if record != RecoveryPlanned(request) then Reject(s)
      else if !acknowledged then AppendFailed(s, s.loop.recovery)
      else s.(phase := WindowGates(AwaitCursor, NO_PLAN))
    case _ => Reject(s)
  }

  // ----- the gates before an ordinary window

  /** The upper edge the next window is planned from: the live cursor, or the
      simulated one once a dry run has planned its first window. */
  function PlanningEdge(o: Options, s: State, cursor: Cursor): int {
    if !o.execute && s.loop.simulatedTo.Some? then s.loop.simulatedTo.value else cursor.toBlock
  }

  function AfterCursor(o: Options, s: State, cursor: Cursor): State
    requires o.windowSize > 0
  {
    var edge := PlanningEdge(o, s, cursor);
    if s.loop.iteration == 0 && NextWindowStart(edge) != EffectiveFirstWindowStart(o) then
      Halt(s, FirstWindowStartMismatch)
    else if !ForwardAdjacent(edge, NextWindowStart(edge)) then Halt(s, AdjacencyViolation)
    else
      match PlanWindow(o, edge)
      case None => Halt(s, UnexpectedError)
      case Some(plan) =>
        if plan.request.endBlock > o.authorizedFinalBlock then Halt(s, AuthorizedFinalBlockExceeded)
        else if !LabelFits(plan.request.policyLabel) then Halt(s, PolicyLabelOverlong)
        else s.(phase := WindowGates(AwaitActive, plan))
  }

  function NextWindowGate(o: Options, s: State, step: GateStep, plan: WindowPlan, e: Event): State
    requires o.windowSize > 0 && o.checkpointInterval > 0
  {
    var request := plan.request;
    match (step, e)
    case (AwaitCursor, CursorRead(cursor)) =>
      if cursor.Threw? then Halt(s, UnexpectedError)
      else if !CursorMatches(cursor.value, Cursor(o.expectedCursorFrom, s.loop.expectedTo)) then
        Halt(s, CursorExpectationMismatch)
      else AfterCursor(o, s, cursor.value.value)
    case (AwaitActive, ActiveRuns(count)) =>
      if count.Threw? then Halt(s, UnexpectedError)
      else if count.value > 0 then Halt(s, ActiveOperationConflict)
      else s.(phase := WindowGates(AwaitLabels, plan))
    case (AwaitLabels, LabelList(labels)) =>
      if labels.Threw? then Halt(s, UnexpectedError)
      else if request.policyLabel in labels.value then Halt(s, PolicyLabelCollision)
      else s.(phase := WindowGates(AwaitHealth, plan))
    case (AwaitHealth, Health(ok, _)) =>
      if !ok then Halt(s, ServerUnhealthy)
      else s.(phase := WindowGates(AwaitContamination, plan))
    case (AwaitContamination, Rows(check, start, end, count)) =>
      if check != FabricatedTransfers || start != request.startBlock || end != request.endBlock then Reject(s)
      else if count.Threw? then Halt(s, UnexpectedError)
      else if count.value > 0 then Halt(s, FabricatedContaminationPreGate)
      else
        var s' := s.(lastPlannedEnd := Some(request.endBlock));
        if o.execute then s'.(phase := Submitting(OrdinaryWindow(plan.windowNumber), request, AwaitPost))
        else s'.(phase := WindowGates(AwaitPlanRecord, plan))
    case (AwaitPlanRecord, Write(record, acknowledged)) =>
      if record != WindowPlanned(plan.windowNumber, request) then Reject(s)
      else if !acknowledged then AppendFailed(s, None)
      else AfterWindow(o, s.(loop := CountPreview(s.loop, plan)))
    case _ => Reject(s)
  }

  // ----- one submission, from the POST to its durable result

  /** The stop reason of a failure during a submission, by kind of window. */
  function SubmissionStop(target: Target, onRecovery: StopReason, onOrdinary: StopReason): StopReason {
    if target.RecoveryWindow? then onRecovery else onOrdinary
  }

  function HaltSubmission(s: State, target: Target, onRecovery: StopReason, onOrdinary: StopReason): State {
    if target.RecoveryWindow? then HaltRecovery(s, onRecovery) else Halt(s, onOrdinary)
  }

  /** The one canonical run an ambiguous submission may be identified with. */
  predicate ReconciledWith(candidates: seq<SyncRun>, want: Expectation) {
    |candidates| == 1 && Identifies(candidates[0], want)
  }

  function NextRowCheck(check: RowCheck, runId: string, clean: bool): SubmitStep {
    match check
    case FabricatedTransfers => AwaitRows(DuplicateTransactions, runId, clean)
    case DuplicateTransactions => AwaitRows(DuplicateTransfers, runId, clean)
    case DuplicateTransfers => AwaitRows(DuplicateLedgerEntries, runId, clean)
    case DuplicateLedgerEntries => AwaitActiveAfter(runId, clean)
  }

  predicate Accepts(target: Target, run: SyncRun, want: Expectation) {
    if target.RecoveryWindow? then RecoveryAcceptable(run, want) else StrictlyClean(run, want)
  }

  function NextSubmit(o: Options, s: State, target: Target, request: Request, step: SubmitStep, e: Event): State
    requires o.checkpointInterval > 0
  {
    var want := Expectation(s.walletId, o.chainId, request);
    match (step, e)
    case (AwaitPost, Post(target', request', reply)) =>
      if target' != target || request' != request then Reject(s)
      else if reply.Threw? then s.(phase := Submitting(target, request, AwaitCandidates))
      else if reply.value.status != 202 || reply.value.runId == "" then
        HaltSubmission(s, target, RecoveryManualSyncSubmitFailed, ManualSyncSubmitFailed)
      else s.(phase := Submitting(target, request, AwaitPoll(reply.value.runId)))
    case (AwaitCandidates, Candidates(policyLabel, runs)) =>
      if policyLabel != request.policyLabel then Reject(s)
      else if runs.Threw? then HaltSubmission(s, target, UnexpectedError, UnexpectedError)
      else if !ReconciledWith(runs.value, want) then
        HaltSubmission(s, target, RecoveryAmbiguousSubmissionUnrecoverable, AmbiguousSubmissionUnrecoverable)
      else if runs.value[0].id == "" then
        HaltSubmission(s, target, RecoveryManualSyncSubmitFailed, ManualSyncSubmitFailed)
      else s.(phase := Submitting(target, request, AwaitPoll(runs.value[0].id)))
    case (AwaitPoll(runId), Polled(runId', outcome)) =>
      if runId' != runId then Reject(s)
      else if outcome.Threw? then HaltSubmission(s, target, UnexpectedError, UnexpectedError)
      else if outcome.value.None? then HaltSubmission(s, target, RecoveryPollTimeout, PollTimeout)
      else s.(phase := Submitting(target, request, AwaitCursorAfter(runId, Accepts(target, outcome.value.value, want))))
    case (AwaitCursorAfter(runId, clean), CursorRead(cursor)) =>
      if cursor.Threw? then HaltSubmission(s, target, UnexpectedError, UnexpectedError)
      else
        var moved := CursorMatches(cursor.value, Cursor(o.expectedCursorFrom, request.endBlock));
        s.(phase := Submitting(target, request, AwaitRows(FabricatedTransfers, runId, clean && moved)))
    case (AwaitRows(check, runId, clean), Rows(check', start, end, count)) =>
      if check' != check || start != request.startBlock || end != request.endBlock then Reject(s)
      else if count.Threw? then HaltSubmission(s, target, UnexpectedError, UnexpectedError)
      else s.(phase := Submitting(target, request, NextRowCheck(check, runId, clean && count.value == 0)))
    case (AwaitActiveAfter(runId, clean), ActiveRuns(count)) =>
      if count.Threw? then HaltSubmission(s, target, UnexpectedError, UnexpectedError)
      else
        var allClean := clean && count.value == 0;
        var s' := if target.RecoveryWindow? then WithRecovery(s, RecoveryReport(true, allClean)) else s;
        s'.(phase := Submitting(target, request, AwaitResultRecord(runId, allClean)))
    case (AwaitResultRecord(runId, clean), Write(record, acknowledged)) =>
      if target.RecoveryWindow? then AfterRecoveryRecord(s, request, runId, clean, record, acknowledged)
      else AfterWindowRecord(o, s, target.number, request, runId, clean, record, acknowledged)
    case _ => Reject(s)
  }

  function AfterRecoveryRecord(
    s: State, request: Request, runId: string, clean: bool, record: Record, acknowledged: bool): State
  {
    if record != RecoveryResult(request, runId, clean) then Reject(s)
    else if !acknowledged then AppendFailed(s, s.loop.recovery)
    else if !clean then HaltRecovery(s, RecoveryInvariantFailedAfterRun)
    else s.(phase := WindowGates(AwaitCursor, NO_PLAN), loop := s.loop.(processed := 1))
  }

  function AfterWindowRecord(
    o: Options, s: State, number: nat, request: Request, runId: string, clean: bool, record: Record,
    acknowledged: bool): State
    requires o.checkpointInterval > 0
  {
    if record != WindowResult(number, request, runId, clean) then Reject(s)
    else if !acknowledged then AppendFailed(s, None)
    else if !clean then Halt(s.(loop := s.loop.(lastWindowNumber := Some(number))), InvariantFailedAfterRun)
    else AfterWindow(o, s.(loop := CountWindow(s.loop, WindowPlan(number, request))))
  }

  /** The loop variables after a window whose clean result is durably recorded. */
  function CountWindow(l: Loop, plan: WindowPlan): Loop {
    l.(windowsCompleted := l.windowsCompleted + 1,
       lastWindowNumber := Some(plan.windowNumber),
       expectedTo := plan.request.endBlock,
       processed := l.processed + 1)
  }

  /** The loop variables after a window planned in a dry run. */
  function CountPreview(l: Loop, plan: WindowPlan): Loop {
    l.(lastWindowNumber := Some(plan.windowNumber),
       simulatedTo := Some(plan.request.endBlock),
       processed := l.processed + 1)
  }

  function AfterWindow(o: Options, s: State): State
    requires o.checkpointInterval > 0
  {
    if s.loop.processed > 0 && s.loop.processed % o.checkpointInterval == 0 then s.(phase := Checking(CheckHead))
    else Advance(o, s)
  }

  function Advance(o: Options, s: State): State {
    var l := s.loop.(iteration := s.loop.iteration + 1);
    s.(phase := if l.iteration < Budget(o, l) then WindowGates(AwaitCursor, NO_PLAN) else Summarising, loop := l)
  }

  // ----- checkpoints

  function NextCheck(o: Options, s: State, step: CheckStep, e: Event): State {
    match (step, e)
    case (CheckHead, GitHead(head)) =>
      if head.Threw? then Halt(s, UnexpectedError)
      else s.(phase := Checking(CheckTree(head.value == s.head)))
    case (CheckTree(ok), WorkingTree(clean)) =>
      if clean.Threw? then Halt(s, UnexpectedError)
      else s.(phase := Checking(CheckHealth(ok && clean.value)))
    case (CheckHealth(ok), Health(healthy, appEnv)) =>
      s.(phase := Checking(CheckCursor(ok && healthy && appEnv == s.appEnv)))
    case (CheckCursor(ok), CursorRead(cursor)) =>
      if cursor.Threw? then Halt(s, UnexpectedError)
      else
        var exact := CursorMatches(cursor.value, Cursor(o.expectedCursorFrom, s.loop.expectedTo));
        s.(phase := Checking(CheckWritable(ok && exact && PlannedWithinBoundary(o, s))))
    case (CheckWritable(ok), EvidenceWritable(writable)) =>
      if writable.Threw? then Halt(s, UnexpectedError)
      else s.(phase := Checking(CheckRecord(ok && writable.value)))
    case (CheckRecord(ok), Write(record, acknowledged)) =>
      if record != Checkpoint(s.loop.processed, s.loop.windowsCompleted, ok) then Reject(s)
      else if !acknowledged then AppendFailed(s, None)
      else if !ok then Halt(s, CheckpointFailed)
      else Advance(o, s.(loop := s.loop.(checkpointsPassed := s.loop.checkpointsPassed + 1)))
    case _ => Reject(s)
  }

  predicate PlannedWithinBoundary(o: Options, s: State) {
    s.lastPlannedEnd.Some? ==> s.lastPlannedEnd.value <= o.authorizedFinalBlock
  }

  // ----- the whole automaton

  function FinalSummary(o: Options, s: State): Summary {
    var reason := if o.maxWindows <= s.loop.windowCount then MaxWindowsReached else AuthorizedFinalBlockReached;
    SummaryOf(s.loop, reason, s.loop.recovery)
  }

  function Next(o: Options, s: State, e: Event): State
    requires o.windowSize > 0 && o.checkpointInterval > 0
  {
    match s.phase
    case Starting(step) => NextStart(o, s, step, e)
    case RecoveryGates(step) => if o.recovery.None? then Reject(s) else NextRecoveryGate(o, s, step, e)
    case WindowGates(step, plan) => NextWindowGate(o, s, step, plan, e)
    case Submitting(target, request, step) => NextSubmit(o, s, target, request, step, e)
    case Checking(step) => NextCheck(o, s, step, e)
    case Summarising =>
      (match e
       case Write(record, acknowledged) =>
         if record != CampaignSummary(FinalSummary(o, s)) then Reject(s)
         else if !acknowledged then AppendFailed(s, s.loop.recovery)
         else s.(phase := Ended(FinalSummary(o, s)))
       case _ => Reject(s))
    case Stopping(summary) =>
      (match e
       case Write(record, _) => if record == StopRecord(summary.reason) then s.(phase := Ended(summary)) else Reject(s)
       case _ => Reject(s))
    case Ended(_) => Reject(s)
    case Crashed => Reject(s)
    case Stuck => Reject(s)
  }

  /** The state after a log of interactions. */
  function Replay(o: Options, log: seq<Event>): State
    requires Usable(o)
  {
    if log == [] then Init(o) else Next(o, Replay(o, log[..|log| - 1]), log[|log| - 1])
  }

  /** Every interaction of the log was allowed when it happened. */
  predicate Follows(o: Options, log: seq<Event>)
    requires Usable(o)
  {
    Replay(o, log).phase != Stuck
  }

  lemma ReplaySnoc(o: Options, log: seq<Event>, e: Event)
    requires Usable(o)
    ensures Replay(o, log + [e]) == Next(o, Replay(o, log), e)
  {
    assert (log + [e])[..|log|] == log;
  }
}
