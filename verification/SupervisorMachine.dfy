/** The supervisor's protocol as an automaton over its interactions. The child process,
    the database, git, the server and the evidence destination answer as they please. */
module SupervisorMachine {
  import opened Base
  import opened SyncPrimitives
  import opened SupervisorPlan
  import Campaign = CampaignPlan
  import ChildLabels

  datatype StopReason =
    | InvalidWindowSize | InvalidCampaignMaxWindows | InvalidCampaignIdPrefix | InvalidCheckpointInterval
    | GitHeadUnavailable | WorkingTreeDirty | InitialHealthBaselineFailed | WalletNotFound | EvidenceAppendFailed
    | Interrupted | CanonicalCursorMissing | RepositoryDriftDetected | HealthCheckFailed | EnvironmentDriftDetected
    | CanonicalStateInvalid | PriorTerminalOperationNotVerifiedClean | ChildCampaignIdInvalid
    | ChildProcessSpawnFailed | ChildProcessAmbiguousTermination | ChildResultNotClean
    | CanonicalCursorMismatchAfterChild | DryRunUnexpectedMutation | UnexpectedError
    | AuthorizedFinalBlockReached | AuthorizedFinalBlockAlreadyReached
  {
    predicate Clean() {
      AuthorizedFinalBlockReached? || AuthorizedFinalBlockAlreadyReached?
    }
  }

  /** The first range check that unacceptable options fail. */
  function RefusalOf(so: SupervisorOptions): (r: Option<StopReason>)
    ensures r.None? <==> Acceptable(so)
    ensures r.Some? ==> !r.value.Clean()
  {
    if so.windowSize != Campaign.REQUIRED_WINDOW_SIZE then Some(InvalidWindowSize)
    else if so.campaignMaxWindows < 1 || so.campaignMaxWindows > Campaign.MAX_WINDOWS_HARD_CAP then
      Some(InvalidCampaignMaxWindows)
    else if !Campaign.ValidCampaignId(so.campaignIdPrefix) then Some(InvalidCampaignIdPrefix)
    else if so.checkpointInterval < 1 || so.checkpointInterval > Campaign.MAX_CHECKPOINT_INTERVAL then
      Some(InvalidCheckpointInterval)
    else None
  }

  const GATES: seq<StopReason> :=
    [InvalidWindowSize, InvalidCampaignMaxWindows, InvalidCampaignIdPrefix, InvalidCheckpointInterval]

  /** What each refusal means, stated independently of the others. */
  predicate Faulty(so: SupervisorOptions, reason: StopReason) {
    match reason
    case InvalidWindowSize => so.windowSize != 1000
    case InvalidCampaignMaxWindows => !(1 <= so.campaignMaxWindows <= 1000)
    case InvalidCampaignIdPrefix => !Campaign.ValidCampaignId(so.campaignIdPrefix)
    case InvalidCheckpointInterval => !(1 <= so.checkpointInterval <= 25)
    case _ => false
  }

  /** Options are refused with the first of the gates at fault, and accepted exactly if
      none is. */
  lemma RefusalNamesFirstFault(so: SupervisorOptions, i: nat)
    requires i < |GATES|
    ensures RefusalOf(so) == Some(GATES[i]) <==>
      Faulty(so, GATES[i]) && forall j :: 0 <= j < i ==> !Faulty(so, GATES[j])
    ensures RefusalOf(so).None? <==> forall j :: 0 <= j < |GATES| ==> !Faulty(so, GATES[j])
  {
    hide Campaign.ValidCampaignId;
    assert Faulty(so, GATES[0]) <==> so.windowSize != 1000;
    assert Faulty(so, GATES[1]) <==> !(1 <= so.campaignMaxWindows <= 1000);
    assert Faulty(so, GATES[2]) <==> !Campaign.ValidCampaignId(so.campaignIdPrefix);
    assert Faulty(so, GATES[3]) <==> !(1 <= so.checkpointInterval <= 25);
  }

  datatype Summary = Summary(reason: StopReason, childrenCompleted: nat, lastChildNumber: Option<nat>)

  datatype Record =
    | SupervisorStart(startingNumber: nat)
    | ChildStart(plan: ChildPlan)
    | ChildFailure(plan: ChildPlan)
    | ChildSuccess(plan: ChildPlan)
    | StopRecord(reason: StopReason)
    | SupervisorSummary(summary: Summary)

  datatype Event =
    | GitHead(head: Reply<string>)
    | WorkingTree(clean: Reply<bool>)
    | Health(ok: bool, appEnv: Option<string>)
    | WalletLookup(id: Reply<Option<string>>)
    | LabelList(labels: Reply<seq<string>>)
    | InterruptCheck(interrupted: bool)
    | CursorRead(cursor: Reply<Option<Cursor>>)
    | TerminalRuns(endBlock: int, runs: Reply<seq<SyncRun>>)
    | Spawn(plan: ChildPlan, result: Reply<ChildResult>)
    | Write(record: Record, acknowledged: bool)

  datatype StartStep = AwaitHead | AwaitTree | AwaitBaseline | AwaitWallet | AwaitNumbering | AwaitStartRecord

  datatype DriftStep = DriftHead | DriftTree(headOk: bool) | DriftHealth

  datatype Phase =
    | Starting(start: StartStep)
    | AwaitInterrupt
    | AwaitCursor
    | AwaitDrift(cursor: Cursor, drift: DriftStep)
    | AwaitTerminalRuns(cursor: Cursor)
    | AwaitAlreadyRecord
    | AwaitChildStart(cursor: Cursor, plan: ChildPlan)
    | AwaitSpawn(cursor: Cursor, plan: ChildPlan)
    | AwaitCursorAfter(cursor: Cursor, plan: ChildPlan)
    | AwaitFailureRecord(plan: ChildPlan, reason: StopReason)
    | AwaitSuccessRecord(plan: ChildPlan)
    | AwaitFinalRecord
    | Stopping(summary: Summary)
    | Ended(summary: Summary)
    | Crashed
    | Stuck

  datatype State = State(
    phase: Phase,
    head: string,
    appEnv: string,
    firstNumber: nat,
    nextNumber: nat,
    completed: nat,
    lastNumber: Option<nat>,
    simulatedTo: Option<int>)

  const INIT: State := State(Starting(AwaitHead), "", "", 1, 1, 0, None, None)

  function SummaryOf(s: State, reason: StopReason): Summary {
    Summary(reason, s.completed, s.lastNumber)
  }

  function Halt(s: State, reason: StopReason): State {
    s.(phase := Stopping(SummaryOf(s, reason)))
  }

  function AppendFailed(s: State): State {
    s.(phase := Ended(SummaryOf(s, EvidenceAppendFailed)))
  }

  function Reject(s: State): State {
    s.(phase := Stuck)
  }

  function NextStart(so: SupervisorOptions, s: State, step: StartStep, e: Event): State {
    match (step, e)
    case (AwaitHead, GitHead(head)) =>
      if head.Threw? then Halt(s, GitHeadUnavailable)
      else s.(phase := Starting(AwaitTree), head := head.value)
    case (AwaitTree, WorkingTree(clean)) =>
      if clean.Threw? then s.(phase := Crashed)
      else if !clean.value then Halt(s, WorkingTreeDirty)
      else s.(phase := Starting(AwaitBaseline))
    case (AwaitBaseline, Health(ok, appEnv)) =>
      if !ok || appEnv.None? then Halt(s, InitialHealthBaselineFailed)
      else s.(phase := Starting(AwaitWallet), appEnv := appEnv.value)
    case (AwaitWallet, WalletLookup(id)) =>
      if id.Threw? then s.(phase := Crashed)
      else if id.value.None? then Halt(s, WalletNotFound)
      else s.(phase := Starting(AwaitNumbering))
    case (AwaitNumbering, LabelList(labels)) =>
      if labels.Threw? then s.(phase := Crashed)
      else
        var first := ChildLabels.StartingNumber(labels.value, so.policyLabelPrefix, so.campaignIdPrefix);
        s.(phase := Starting(AwaitStartRecord), firstNumber := first, nextNumber := first)
    case (AwaitStartRecord, Write(record, acknowledged)) =>
      if record != SupervisorStart(s.nextNumber) then Reject(s)
      else if !acknowledged then AppendFailed(s)
      else s.(phase := AwaitInterrupt)
    case _ => Reject(s)
  }

  /** The cursor a child is planned from: the live one, or in a dry run the edge of the
      previous simulated child. */
  function PlanningCursor(so: SupervisorOptions, s: State, live: Cursor): Cursor {
    if !so.execute && s.simulatedTo.Some? then Cursor(live.fromBlock, s.simulatedTo.value) else live
  }

  function AfterDrift(so: SupervisorOptions, s: State, live: Cursor): State
    requires Acceptable(so)
  {
    match PlanFor(so, PlanningCursor(so, s, live), s.nextNumber)
    case StateInvalid => Halt(s, CanonicalStateInvalid)
    case AlreadyReached =>
      s.(phase := if live.fromBlock != live.toBlock then AwaitTerminalRuns(live) else AwaitAlreadyRecord)
    case Child(plan) =>
      if !Campaign.ValidCampaignId(ChildCampaignId(so.campaignIdPrefix, plan.number)) then
        Halt(s, ChildCampaignIdInvalid)
      else s.(phase := AwaitChildStart(live, plan))
  }

  function NextDrift(so: SupervisorOptions, s: State, live: Cursor, step: DriftStep, e: Event): State
    requires Acceptable(so)
  {
    match (step, e)
    case (DriftHead, GitHead(head)) =>
      if head.Threw? then Halt(s, UnexpectedError)
      else s.(phase := AwaitDrift(live, DriftTree(head.value == s.head)))
    case (DriftTree(headOk), WorkingTree(clean)) =>
      if clean.Threw? then Halt(s, UnexpectedError)
      else if !headOk || !clean.value then Halt(s, RepositoryDriftDetected)
      else s.(phase := AwaitDrift(live, DriftHealth))
    case (DriftHealth, Health(ok, appEnv)) =>
      if !ok then Halt(s, HealthCheckFailed)
      else if appEnv != Some(s.appEnv) then Halt(s, EnvironmentDriftDetected)
      else AfterDrift(so, s, live)
    case _ => Reject(s)
  }

  function AfterSpawn(
      so: SupervisorOptions, s: State, live: Cursor, plan: ChildPlan, result: Reply<ChildResult>): State {
    if result.Threw? then Halt(s, ChildProcessSpawnFailed)
    else if CleanResult(result.value, so.execute, plan.maxWindows) then s.(phase := AwaitCursorAfter(live, plan))
    else s.(phase := AwaitFailureRecord(plan,
      if result.value.signalled then ChildProcessAmbiguousTermination else ChildResultNotClean))
  }

  /** In execute mode the cursor must have moved exactly to the child's boundary; in a
      dry run it must not have moved at all. */
  function AfterChildCursor(
      so: SupervisorOptions, s: State, live: Cursor, plan: ChildPlan, cursor: Option<Cursor>): State {
    if so.execute then
      if CursorAfterChild(cursor, plan) then s.(phase := AwaitSuccessRecord(plan))
      else s.(phase := AwaitFailureRecord(plan, CanonicalCursorMismatchAfterChild))
    else
      if cursor == Some(live) then s.(phase := AwaitSuccessRecord(plan), simulatedTo := Some(plan.finalBlock))
      else s.(phase := AwaitFailureRecord(plan, DryRunUnexpectedMutation))
  }

  function AfterSuccess(so: SupervisorOptions, s: State, plan: ChildPlan): State {
    s.(phase := if plan.finalBlock == so.authorizedFinalBlock then AwaitFinalRecord else AwaitInterrupt,
       completed := s.completed + 1,
       lastNumber := Some(plan.number),
       nextNumber := s.nextNumber + 1)
  }

  function NextSummaryRecord(s: State, reason: StopReason, e: Event): State {
    match e
    case Write(record, acknowledged) =>
      if record != SupervisorSummary(SummaryOf(s, reason)) then Reject(s)
      else if !acknowledged then AppendFailed(s)
      else s.(phase := Ended(SummaryOf(s, reason)))
    case _ => Reject(s)
  }

  function Next(so: SupervisorOptions, s: State, e: Event): State
    requires Acceptable(so)
  {
    match (s.phase, e)
    case (Starting(step), _) => NextStart(so, s, step, e)
    case (AwaitInterrupt, InterruptCheck(interrupted)) =>
      if interrupted then Halt(s, Interrupted) else s.(phase := AwaitCursor)
    case (AwaitCursor, CursorRead(cursor)) =>
      if cursor.Threw? then Halt(s, UnexpectedError)
      else if cursor.value.None? then Halt(s, CanonicalCursorMissing)
      else s.(phase := AwaitDrift(cursor.value.value, DriftHead))
    case (AwaitDrift(live, step), _) => NextDrift(so, s, live, step, e)
    case (AwaitTerminalRuns(live), TerminalRuns(endBlock, runs)) =>
      if endBlock != live.toBlock then Reject(s)
      else if runs.Threw? then Halt(s, UnexpectedError)
      else if !PriorOperationClean(runs.value) then Halt(s, PriorTerminalOperationNotVerifiedClean)
      else s.(phase := AwaitAlreadyRecord)
    case (AwaitAlreadyRecord, _) => NextSummaryRecord(s, AuthorizedFinalBlockAlreadyReached, e)
    case (AwaitChildStart(live, plan), Write(record, acknowledged)) =>
      if record != ChildStart(plan) then Reject(s)
      else if !acknowledged then AppendFailed(s)
      else s.(phase := AwaitSpawn(live, plan))
    case (AwaitSpawn(live, plan), Spawn(plan', result)) =>
      if plan' != plan then Reject(s) else AfterSpawn(so, s, live, plan, result)
    case (AwaitCursorAfter(live, plan), CursorRead(cursor)) =>
      if cursor.Threw? then Halt(s, UnexpectedError) else AfterChildCursor(so, s, live, plan, cursor.value)
    case (AwaitFailureRecord(plan, reason), Write(record, acknowledged)) =>
      if record != ChildFailure(plan) then Reject(s)
      else if !acknowledged then AppendFailed(s)
      else Halt(s, reason)
    case (AwaitSuccessRecord(plan), Write(record, acknowledged)) =>
      if record != ChildSuccess(plan) then Reject(s)
      else if !acknowledged then AppendFailed(s)
      else AfterSuccess(so, s, plan)
    case (AwaitFinalRecord, _) => NextSummaryRecord(s, AuthorizedFinalBlockReached, e)
    case (Stopping(summary), Write(record, _)) =>
      if record == StopRecord(summary.reason) then s.(phase := Ended(summary)) else Reject(s)
    case _ => Reject(s)
  }

  function Replay(so: SupervisorOptions, log: seq<Event>): State
    requires Acceptable(so)
  {
    if log == [] then INIT else Next(so, Replay(so, log[..|log| - 1]), log[|log| - 1])
  }

  lemma ReplaySnoc(so: SupervisorOptions, log: seq<Event>, e: Event)
    requires Acceptable(so)
    ensures Replay(so, log + [e]) == Next(so, Replay(so, log), e)
  {
    assert (log + [e])[..|log|] == log;
  }
}
