/** What stands behind the supervisor's spawns, successes and clean ends: each is read
    back from the answers that stand directly before it. */
module SupervisorVerdicts {
  import opened Base
  import opened SyncPrimitives
  import opened SupervisorPlan
  import opened SupervisorMachine
  import opened SupervisorTheorems
  import Campaign = CampaignPlan
  import ChildLabels

  // ----- what stands behind a success

  lemma EnteredSuccess(so: SupervisorOptions, s: State, e: Event, plan: ChildPlan)
    requires Acceptable(so) && Next(so, s, e).phase == AwaitSuccessRecord(plan)
    ensures s.phase.AwaitCursorAfter? && s.phase.plan == plan
    ensures e.CursorRead? && e.cursor.Got?
    ensures if so.execute then CursorAfterChild(e.cursor.value, plan) else e.cursor.value == Some(s.phase.cursor)
  {
    hide PlanFor, PriorOperationClean, CleanResult, CursorAfterChild;
  }

  lemma EnteredCursorAfter(so: SupervisorOptions, s: State, e: Event, plan: ChildPlan)
    requires Acceptable(so) && Next(so, s, e).phase.AwaitCursorAfter? && Next(so, s, e).phase.plan == plan
    ensures s.phase == AwaitSpawn(Next(so, s, e).phase.cursor, plan)
    ensures e.Spawn? && e.plan == plan && e.result.Got? && CleanResult(e.result.value, so.execute, plan.maxWindows)
  {
    hide PlanFor, PriorOperationClean, CleanResult, CursorAfterChild;
  }

  lemma SuccessNeedsPhase(so: SupervisorOptions, log: seq<Event>, plan: ChildPlan)
    requires Acceptable(so) && Follows(so, log + [Write(ChildSuccess(plan), true)])
    ensures Replay(so, log).phase == AwaitSuccessRecord(plan)
  {
    hide PlanFor, PriorOperationClean, CleanResult, CursorAfterChild, Replay;
    ReplaySnoc(so, log, Write(ChildSuccess(plan), true));
  }

  // ----- what stands behind a spawn

  /** The one state and the one answer from which each step towards a spawn is entered. */
  predicate SpawnEntry(so: SupervisorOptions, s: State, e: Event, to: Phase)
    requires Acceptable(so)
  {
    match to
    case AwaitSpawn(live, plan) => s.phase == AwaitChildStart(live, plan) && e == Write(ChildStart(plan), true)
    case AwaitChildStart(live, plan) =>
      && s.phase == AwaitDrift(live, DriftHealth) && e == Health(true, Some(s.appEnv))
      && PlanFor(so, PlanningCursor(so, s, live), s.nextNumber) == Child(plan)
      && Campaign.ValidCampaignId(ChildCampaignId(so.campaignIdPrefix, plan.number))
    case AwaitDrift(live, DriftHealth) =>
      s.phase == AwaitDrift(live, DriftTree(true)) && e == WorkingTree(Got(true))
    case AwaitDrift(live, DriftTree(true)) => s.phase == AwaitDrift(live, DriftHead) && e == GitHead(Got(s.head))
    case AwaitDrift(live, DriftHead) => s.phase == AwaitCursor && e == CursorRead(Got(Some(live)))
    case AwaitCursor => s.phase == AwaitInterrupt && e == InterruptCheck(false)
    case _ => true
  }

  lemma EnteredTowardsSpawn(so: SupervisorOptions, s: State, e: Event)
    requires Acceptable(so)
    ensures SpawnEntry(so, s, e, Next(so, s, e).phase)
  {
    hide PlanFor, PriorOperationClean, CleanResult, CursorAfterChild, Campaign.ValidCampaignId, ChildCampaignId;
  }

  predicate TowardsSpawn(phase: Phase) {
    || phase.AwaitSpawn? || phase.AwaitChildStart? || phase.AwaitCursor?
    || (phase.AwaitDrift? && (phase.drift.DriftTree? ==> phase.drift.headOk))
  }

  lemma SpawnStepBack(so: SupervisorOptions, log: seq<Event>, n: nat)
    requires Acceptable(so) && n <= |log| && TowardsSpawn(Replay(so, log[..n]).phase)
    ensures n >= 1
    ensures SpawnEntry(so, Replay(so, log[..n - 1]), log[n - 1], Replay(so, log[..n]).phase)
  {
    hide Next, SpawnEntry;
    assert n >= 1;
    assert log[..n][..n - 1] == log[..n - 1];
    EnteredTowardsSpawn(so, Replay(so, log[..n - 1]), log[n - 1]);
  }

  lemma SpawnNeedsPhase(so: SupervisorOptions, log: seq<Event>, plan: ChildPlan, result: Reply<ChildResult>)
    requires Acceptable(so) && Follows(so, log + [Spawn(plan, result)])
    ensures Replay(so, log).phase.AwaitSpawn? && Replay(so, log).phase.plan == plan
  {
    hide PlanFor, PriorOperationClean, CleanResult, CursorAfterChild, Replay;
    ReplaySnoc(so, log, Spawn(plan, result));
  }

  // ----- what the supervisor started with

  /** The answer with which the first interactions of a run must be passed, one by one. */
  predicate StartAnswer(so: SupervisorOptions, s: State, e: Event, i: nat) {
    match i
    case 0 => e == GitHead(Got(s.head))
    case 1 => e == WorkingTree(Got(true))
    case 2 => e == Health(true, Some(s.appEnv))
    case 3 => e.WalletLookup? && e.id.Got? && e.id.value.Some?
    case 4 => e.LabelList? && e.labels.Got?
              && s.firstNumber == ChildLabels.StartingNumber(e.labels.value, so.policyLabelPrefix, so.campaignIdPrefix)
    case 5 => e == Write(SupervisorStart(s.firstNumber), true)
    case _ => true
  }

  function StartIndex(step: StartStep): nat {
    match step
    case AwaitHead => 0
    case AwaitTree => 1
    case AwaitBaseline => 2
    case AwaitWallet => 3
    case AwaitNumbering => 4
    case AwaitStartRecord => 5
  }

  predicate StartPassed(so: SupervisorOptions, s: State, log: seq<Event>, n: nat) {
    n <= |log| && forall i :: 0 <= i < n ==> StartAnswer(so, s, log[i], i)
  }

  /** A supervisor past its start has had every answer it needs; one that ended at its
      start did so within six interactions. */
  predicate Baseline(so: SupervisorOptions, s: State, log: seq<Event>) {
    match s.phase
    case Starting(step) =>
      && |log| == StartIndex(step) && StartPassed(so, s, log, |log|)
      && (step.AwaitStartRecord? ==> s.nextNumber == s.firstNumber)
    case Stopping(_) => |log| <= 4 || StartPassed(so, s, log, 6)
    case Ended(_) => |log| <= 6 || StartPassed(so, s, log, 6)
    case Crashed => Crash(log)
    case Stuck => true
    case _ => StartPassed(so, s, log, 6)
  }

  /** The one way in which a supervision rejects: the working tree, the wallet or the
      labels could not be read at its start. */
  predicate Crash(log: seq<Event>) {
    || (|log| == 2 && log[1] == WorkingTree(Threw))
    || (|log| == 4 && log[3] == WalletLookup(Threw))
    || (|log| == 5 && log[4] == LabelList(Threw))
  }

  lemma BaselineStep(so: SupervisorOptions, s: State, log: seq<Event>, e: Event)
    requires Acceptable(so) && Baseline(so, s, log)
    ensures Baseline(so, Next(so, s, e), log + [e])
  {
    hide Baseline, NextStart, NextDrift, AfterSpawn, AfterChildCursor, AfterSuccess, NextSummaryRecord,
      ChildLabels.StartingNumber;
    if s.phase.Starting? {
      StartKeepsBaseline(so, s, log, e);
    } else {
      IdentityKept(so, s, e);
      PastStartKeepsBaseline(so, s, log, e, Next(so, s, e));
    }
  }

  lemma StartKeepsBaseline(so: SupervisorOptions, s: State, log: seq<Event>, e: Event)
    requires Acceptable(so) && s.phase.Starting? && Baseline(so, s, log)
    ensures Baseline(so, Next(so, s, e), log + [e])
  {
    hide ChildLabels.StartingNumber;
  }

  lemma IdentityKept(so: SupervisorOptions, s: State, e: Event)
    requires Acceptable(so) && !s.phase.Starting?
    ensures var next := Next(so, s, e);
      && next.head == s.head && next.appEnv == s.appEnv && next.firstNumber == s.firstNumber
      && !next.phase.Starting? && !next.phase.Crashed?
      && (s.phase.Stopping? || s.phase.Ended? || s.phase.Crashed? || s.phase.Stuck? ==>
           next.phase.Ended? || next.phase.Stuck?)
      && (s.phase.Ended? || s.phase.Crashed? ==> next.phase.Stuck?)
  {
    hide PlanFor, PriorOperationClean, CleanResult, CursorAfterChild, Campaign.ValidCampaignId, ChildCampaignId;
  }

  lemma PastStartKeepsBaseline(so: SupervisorOptions, s: State, log: seq<Event>, e: Event, next: State)
    requires Baseline(so, s, log) && !s.phase.Starting? && !next.phase.Starting? && !next.phase.Crashed?
    requires next.head == s.head && next.appEnv == s.appEnv && next.firstNumber == s.firstNumber
    requires s.phase.Stopping? || s.phase.Ended? || s.phase.Crashed? || s.phase.Stuck? ==>
      next.phase.Ended? || next.phase.Stuck?
    requires s.phase.Ended? || s.phase.Crashed? || s.phase.Stuck? ==> next.phase.Stuck?
    ensures Baseline(so, next, log + [e])
  {
    hide ChildLabels.StartingNumber, StartAnswer, Crash;
    if StartPassed(so, s, log, 6) {
      StartStays(so, s, log, e, next);
    }
  }

  lemma StartStays(so: SupervisorOptions, s: State, log: seq<Event>, e: Event, next: State)
    requires StartPassed(so, s, log, 6)
    requires next.head == s.head && next.appEnv == s.appEnv && next.firstNumber == s.firstNumber
    ensures StartPassed(so, next, log + [e], 6)
  {
    hide ChildLabels.StartingNumber;
  }

  lemma {:induction false} BaselineKept(so: SupervisorOptions, log: seq<Event>)
    requires Acceptable(so)
    ensures Baseline(so, Replay(so, log), log)
  {
    hide Next, Baseline;
    if log != [] {
      var front, e := log[..|log| - 1], log[|log| - 1];
      BaselineKept(so, front);
      BaselineStep(so, Replay(so, front), front, e);
      assert front + [e] == log;
    } else {
      assert Baseline(so, INIT, []) by { StartBaseline(so); }
    }
  }

  lemma StartBaseline(so: SupervisorOptions)
    ensures Baseline(so, INIT, [])
  {
  }

  /** A supervision of more than six interactions has read its git head, found a clean
      tree, a healthy server of a known environment, its wallet and the persisted labels,
      and durably recorded its start with the number that those labels leave free. */
  lemma EveryStartIsGated(so: SupervisorOptions, log: seq<Event>)
    requires Acceptable(so) && Follows(so, log) && |log| > 6
    ensures log[0].GitHead? && log[0].head.Got? && log[1] == WorkingTree(Got(true))
    ensures log[2].Health? && log[2].ok && log[2].appEnv.Some?
    ensures log[3].WalletLookup? && log[3].id.Got? && log[3].id.value.Some?
    ensures log[4].LabelList? && log[4].labels.Got?
    ensures var first := ChildLabels.StartingNumber(log[4].labels.value, so.policyLabelPrefix, so.campaignIdPrefix);
      log[5] == Write(SupervisorStart(first), true)
  {
    hide Replay, ChildLabels.StartingNumber;
    BaselineKept(so, log);
    assert StartAnswer(so, Replay(so, log), log[0], 0) && StartAnswer(so, Replay(so, log), log[1], 1);
    assert StartAnswer(so, Replay(so, log), log[2], 2) && StartAnswer(so, Replay(so, log), log[3], 3);
    assert StartAnswer(so, Replay(so, log), log[4], 4) && StartAnswer(so, Replay(so, log), log[5], 5);
  }

  /** The repository and the server answered as they did in the first and third
      interactions of the run, and the tree was clean. */
  predicate DriftFree(gates: seq<Event>, start: seq<Event>) {
    && |gates| == 3 && |start| >= 3
    && gates[0].GitHead? && gates[0].head.Got? && gates[0] == start[0]
    && gates[1] == WorkingTree(Got(true))
    && gates[2].Health? && gates[2].ok && gates[2].appEnv.Some? && gates[2] == start[2]
  }

  /** The cursor the next child is planned from: the one read, or in a dry run the edge
      of the child spawned last. */
  function PlannedFrom(so: SupervisorOptions, h: History, read: Cursor): Cursor {
    if !so.execute && h.spawned != [] then Cursor(read.fromBlock, h.spawned[|h.spawned| - 1].finalBlock) else read
  }

  lemma PlanningState(so: SupervisorOptions, s: State, h: History, live: Cursor)
    requires Acceptable(so) && Inv(so, s, h) && s.phase.AwaitDrift?
    ensures PlanningCursor(so, s, live) == PlannedFrom(so, h, live)
    ensures s.nextNumber == s.firstNumber + |h.spawned|
  {
    hide AllPlanned, SimulatedEdge;
  }

  /** No child is spawned unless, directly before, no interrupt was pending, the live
      cursor was read, nothing had drifted from the start of the run, the child was planned
      from that cursor and numbered past the labels read at the start, and its own start
      was durably recorded. */
  lemma EverySpawnIsGated(so: SupervisorOptions, log: seq<Event>, plan: ChildPlan, result: Reply<ChildResult>)
    requires Acceptable(so) && Follows(so, log + [Spawn(plan, result)])
    ensures |log| >= 6 && LabelsRead(log).Some?
    ensures var n, h := |log|, HistoryOf(log);
      && log[n - 1] == Write(ChildStart(plan), true)
      && DriftFree(log[n - 4..n - 1], log)
      && log[n - 5].CursorRead? && log[n - 5].cursor.Got? && log[n - 5].cursor.value.Some?
      && log[n - 6] == InterruptCheck(false)
      && var number :=
           ChildLabels.StartingNumber(LabelsRead(log).value, so.policyLabelPrefix, so.campaignIdPrefix) + |h.spawned|;
         PlanFor(so, PlannedFrom(so, h, log[n - 5].cursor.value.value), number) == Child(plan)
  {
    hide Next, Replay, PlanFor, Campaign.ValidCampaignId, HistoryOf, LabelsRead, Inv, Numbered, Baseline, StartPassed,
      ChildLabels.StartingNumber;
    var n := |log|;
    assert log[..n] == log;
    SpawnNeedsPhase(so, log, plan, result);
    SpawnStepBack(so, log, n);
    SpawnStepBack(so, log, n - 1);
    DriftGated(so, log, n - 2);
    DriftHistory(so, log, n - 2);
    HistoryAfterDrift(log);
    SpawnNumbering(so, log);
  }

  /** The two interactions between planning and spawning neither spawn nor read labels. */
  lemma HistoryAfterDrift(log: seq<Event>)
    requires |log| >= 2 && log[|log| - 1].Write? && log[|log| - 1].record.ChildStart? && log[|log| - 2].Health?
    ensures HistoryOf(log) == HistoryOf(log[..|log| - 2]) && LabelsRead(log) == LabelsRead(log[..|log| - 2])
  {
    var front := log[..|log| - 1];
    assert front[..|front| - 1] == log[..|log| - 2];
    assert HistoryOf(front) == HistoryOf(log[..|log| - 2]);
    assert LabelsRead(front) == LabelsRead(log[..|log| - 2]);
  }

  /** What the log says about the state in which the last drift gate is passed. */
  lemma DriftHistory(so: SupervisorOptions, log: seq<Event>, n: nat)
    requires Acceptable(so) && n <= |log|
    requires Replay(so, log[..n]).phase.AwaitDrift? && Replay(so, log[..n]).phase.drift.DriftHealth?
    ensures var s, h := Replay(so, log[..n]), HistoryOf(log[..n]);
      && PlanningCursor(so, s, s.phase.cursor) == PlannedFrom(so, h, s.phase.cursor)
      && s.nextNumber == s.firstNumber + |h.spawned|
      && |log| >= 3 && n >= 3 && log[0] == GitHead(Got(s.head)) && log[2] == Health(true, Some(s.appEnv))
  {
    hide Replay, HistoryOf, Inv;
    EveryRun(so, log[..n]);
    PlanningState(so, Replay(so, log[..n]), HistoryOf(log[..n]), Replay(so, log[..n]).phase.cursor);
    BaselineKept(so, log[..n]);
    assert StartAnswer(so, Replay(so, log[..n]), log[..n][0], 0)
      && StartAnswer(so, Replay(so, log[..n]), log[..n][2], 2);
  }

  lemma SpawnNumbering(so: SupervisorOptions, log: seq<Event>)
    requires Acceptable(so) && |log| >= 2 && Replay(so, log).phase.AwaitSpawn?
    requires Replay(so, log[..|log| - 2]).phase.AwaitDrift?
    requires LabelsRead(log) == LabelsRead(log[..|log| - 2])
    ensures LabelsRead(log).Some?
    ensures Replay(so, log[..|log| - 2]).firstNumber
         == ChildLabels.StartingNumber(LabelsRead(log).value, so.policyLabelPrefix, so.campaignIdPrefix)
  {
    hide Replay, HistoryOf, LabelsRead, ChildLabels.StartingNumber;
    AlwaysNumbered(so, log[..|log| - 2]);
  }

  lemma DriftGated(so: SupervisorOptions, log: seq<Event>, n: nat)
    requires Acceptable(so) && n <= |log|
    requires Replay(so, log[..n]).phase.AwaitDrift? && Replay(so, log[..n]).phase.drift.DriftHealth?
    ensures n >= 4
    ensures log[n - 1] == WorkingTree(Got(true)) && log[n - 2] == GitHead(Got(Replay(so, log[..n]).head))
    ensures log[n - 3] == CursorRead(Got(Some(Replay(so, log[..n]).phase.cursor)))
    ensures log[n - 4] == InterruptCheck(false)
  {
    hide Next, Replay, PlanFor, Campaign.ValidCampaignId;
    SpawnStepBack(so, log, n);
    SpawnStepBack(so, log, n - 1);
    SpawnStepBack(so, log, n - 2);
    SpawnStepBack(so, log, n - 3);
    HeadKept(so, log, n - 1);
    HeadKept(so, log, n);
  }

  lemma HeadKept(so: SupervisorOptions, log: seq<Event>, n: nat)
    requires Acceptable(so) && 1 <= n <= |log| && Replay(so, log[..n - 1]).phase.AwaitDrift?
    ensures Replay(so, log[..n]).head == Replay(so, log[..n - 1]).head
  {
    hide PlanFor, Campaign.ValidCampaignId;
    assert log[..n][..n - 1] == log[..n - 1];
  }

  lemma SpawnCursorRead(so: SupervisorOptions, log: seq<Event>, n: nat)
    requires Acceptable(so) && n <= |log| && Replay(so, log[..n]).phase.AwaitSpawn?
    ensures n >= 6 && log[n - 5] == CursorRead(Got(Some(Replay(so, log[..n]).phase.cursor)))
  {
    hide Next, Replay, PlanFor, Campaign.ValidCampaignId;
    SpawnStepBack(so, log, n);
    SpawnStepBack(so, log, n - 1);
    DriftGated(so, log, n - 2);
  }

  /** The process exited by itself with code zero, and the summary read from its output
      has a clean reason, this many windows completed and this last window number. */
  predicate Completed(result: ChildResult, windows: int, last: int) {
    && !result.signalled && result.exitCode == 0
    && match result.summary
       case None => false
       case Some(summary) =>
         && (summary.reason.MaxWindowsReached? || summary.reason.AuthorizedFinalBlockReached?)
         && summary.windowsCompleted == windows
         && summary.lastWindowNumber.Some? && summary.lastWindowNumber.value == last
  }

  /** The verification of a child's result accepts exactly such results. */
  lemma CleanIffCompleted(result: ChildResult, execute: bool, expectedMaxWindows: int)
    ensures CleanResult(result, execute, expectedMaxWindows)
       <==> Completed(result, if execute then expectedMaxWindows else 0, expectedMaxWindows)
  {
  }

  /** No child counts as successful unless, immediately before, its process ended
      cleanly with exactly the requested windows and the live cursor was read back at
      exactly its boundary or, in a dry run, exactly as it was read before the spawn. */
  lemma EverySuccessIsVerified(so: SupervisorOptions, log: seq<Event>, plan: ChildPlan)
    requires Acceptable(so) && Follows(so, log + [Write(ChildSuccess(plan), true)])
    ensures |log| >= 8
    ensures var spawn, read, before := log[|log| - 2], log[|log| - 1], log[|log| - 7];
      && spawn.Spawn? && spawn.plan == plan && spawn.result.Got?
      && Completed(spawn.result.value, if so.execute then plan.maxWindows else 0, plan.maxWindows)
      && read.CursorRead? && read.cursor.Got?
      && before.CursorRead? && before.cursor.Got? && before.cursor.value.Some?
      && if so.execute then CursorAfterChild(read.cursor.value, plan) else read.cursor.value == before.cursor.value
  {
    hide Next, CleanResult, CursorAfterChild, PlanFor, Completed;
    var n := |log|;
    SuccessNeedsPhase(so, log, plan);
    assert n >= 1;
    EnteredSuccess(so, Replay(so, log[..n - 1]), log[n - 1], plan);
    assert n >= 2 && log[..n - 1][..n - 2] == log[..n - 2];
    EnteredCursorAfter(so, Replay(so, log[..n - 2]), log[n - 2], plan);
    CleanIffCompleted(log[n - 2].result.value, so.execute, plan.maxWindows);
    SpawnCursorRead(so, log, n - 2);
  }

  // ----- what stands behind "already reached"

  lemma EnteredAlreadyRecord(so: SupervisorOptions, s: State, e: Event)
    requires Acceptable(so) && Next(so, s, e).phase.AwaitAlreadyRecord?
    ensures || (s.phase.AwaitTerminalRuns? && e.TerminalRuns? && e.endBlock == s.phase.cursor.toBlock
                && e.runs.Got? && PriorOperationClean(e.runs.value))
            || (s.phase.AwaitDrift? && s.phase.cursor.fromBlock == s.phase.cursor.toBlock
                && PassesDrift(so, s, e, s.phase.cursor))
  {
    hide PlanFor, PriorOperationClean, CleanResult, CursorAfterChild;
  }

  lemma EnteredAlreadyReached(so: SupervisorOptions, s: State, e: Event, summary: Summary)
    requires Acceptable(so) && Next(so, s, e).phase == Ended(summary)
    requires summary.reason.AuthorizedFinalBlockAlreadyReached?
    requires s.phase.Stopping? ==> !s.phase.summary.reason.Clean()
    ensures s.phase.AwaitAlreadyRecord? && e == Write(SupervisorSummary(summary), true)
  {
    hide PlanFor, PriorOperationClean, CleanResult, CursorAfterChild;
  }

  // ----- what a clean end is worth

  /** The last cursor the supervisor read successfully. */
  function LastCursorRead(log: seq<Event>): Option<Cursor> {
    if log == [] then None
    else
      match log[|log| - 1]
      case CursorRead(Got(cursor)) => cursor
      case _ => LastCursorRead(log[..|log| - 1])
  }

  function Reading(seen: Option<Cursor>, e: Event): Option<Cursor> {
    match e
    case CursorRead(Got(cursor)) => cursor
    case _ => seen
  }

  predicate AtTargetBlock(so: SupervisorOptions, seen: Option<Cursor>) {
    seen.Some? && seen.value.toBlock == so.authorizedFinalBlock
  }

  /** What is known about the last cursor read. */
  predicate CursorTracked(so: SupervisorOptions, s: State, seen: Option<Cursor>) {
    match s.phase
    case AwaitDrift(cursor, _) => seen == Some(cursor)
    case AwaitTerminalRuns(cursor) => seen == Some(cursor) && AtTargetBlock(so, seen)
    case AwaitAlreadyRecord => AtTargetBlock(so, seen)
    case AwaitSuccessRecord(plan) => so.execute ==> CursorAfterChild(seen, plan)
    case AwaitFailureRecord(_, reason) => !reason.Clean()
    case AwaitFinalRecord => so.execute ==> AtTargetBlock(so, seen)
    case Stopping(summary) => !summary.reason.Clean()
    case Ended(summary) =>
      && (summary.reason.AuthorizedFinalBlockAlreadyReached? ==> AtTargetBlock(so, seen))
      && (summary.reason.AuthorizedFinalBlockReached? && so.execute ==> AtTargetBlock(so, seen))
    case _ => true
  }

  /** Planning finds the target reached only from the live cursor: the simulation has
      stopped short of it. */
  lemma DriftTracked(so: SupervisorOptions, s: State, h: History, seen: Option<Cursor>, e: Event)
    requires Acceptable(so) && Inv(so, s, h) && s.phase.AwaitDrift? && CursorTracked(so, s, seen)
    ensures CursorTracked(so, Next(so, s, e), Reading(seen, e)) || Next(so, s, e).phase == Stuck
  {
    hide AllPlanned, SimulatedEdge, Campaign.ValidCampaignId, ChildCampaignId;
  }

  lemma OtherTracked(so: SupervisorOptions, s: State, seen: Option<Cursor>, e: Event)
    requires Acceptable(so) && !s.phase.AwaitDrift? && CursorTracked(so, s, seen)
    ensures CursorTracked(so, Next(so, s, e), Reading(seen, e)) || Next(so, s, e).phase == Stuck
  {
    hide PlanFor, PriorOperationClean, CleanResult, AfterDrift, ChildLabels.StartingNumber;
  }

  lemma {:induction false} CursorAlwaysTracked(so: SupervisorOptions, log: seq<Event>)
    requires Acceptable(so)
    ensures CursorTracked(so, Replay(so, log), LastCursorRead(log)) || Replay(so, log).phase == Stuck
  {
    hide Next, Inv, CursorTracked;
    if log != [] {
      var front, e := log[..|log| - 1], log[|log| - 1];
      var s := Replay(so, front);
      CursorAlwaysTracked(so, front);
      EveryRun(so, front);
      StuckStays(so, s, e);
      assert LastCursorRead(log) == Reading(LastCursorRead(front), e);
      if s.phase.AwaitDrift? {
        DriftTracked(so, s, HistoryOf(front), LastCursorRead(front), e);
      } else if s.phase != Stuck {
        OtherTracked(so, s, LastCursorRead(front), e);
      }
    } else {
      assert CursorTracked(so, INIT, None) by { NothingTracked(so); }
    }
  }

  lemma NothingTracked(so: SupervisorOptions)
    ensures CursorTracked(so, INIT, None)
  {
  }

  lemma EnteredReached(so: SupervisorOptions, s: State, e: Event, summary: Summary)
    requires Acceptable(so) && Next(so, s, e).phase == Ended(summary) && summary.reason.AuthorizedFinalBlockReached?
    requires s.phase.Stopping? ==> !s.phase.summary.reason.Clean()
    ensures s.phase.AwaitFinalRecord? && e == Write(SupervisorSummary(summary), true)
  {
    hide PlanFor, PriorOperationClean, CleanResult, CursorAfterChild;
  }

  lemma EnteredFinalRecord(so: SupervisorOptions, s: State, e: Event)
    requires Acceptable(so) && Next(so, s, e).phase.AwaitFinalRecord?
    ensures s.phase.AwaitSuccessRecord? && s.phase.plan.finalBlock == so.authorizedFinalBlock
    ensures e == Write(ChildSuccess(s.phase.plan), true)
  {
    hide PlanFor, PriorOperationClean, CleanResult, CursorAfterChild;
  }

  /** Whatever the environment did: either clean reason means that the summary is the last
      thing durably recorded. "Already reached" means, in a dry run too, that the last
      cursor read stood exactly at the target. "Reached" means that the child spawned last
      ended at the target, was durably recorded as successful directly before the summary
      like all children before it, and, when executed, that the last cursor read stood
      exactly at the target. */
  lemma CleanMeansAtTarget(so: SupervisorOptions, log: seq<Event>, summary: Summary)
    requires Acceptable(so) && Finished(so, log, summary) && summary.reason.Clean()
    ensures log != [] && Last(log, 1) == Write(SupervisorSummary(summary), true)
    ensures summary.reason.AuthorizedFinalBlockAlreadyReached? || so.execute ==>
      LastCursorRead(log).Some? && LastCursorRead(log).value.toBlock == so.authorizedFinalBlock
    ensures summary.reason.AuthorizedFinalBlockReached? ==>
      var spawned := HistoryOf(log).spawned;
      && spawned != [] && HistoryOf(log).succeeded == spawned && summary.childrenCompleted == |spawned|
      && Last(spawned, 1).finalBlock == so.authorizedFinalBlock
      && |log| >= 2 && Last(log, 2) == Write(ChildSuccess(Last(spawned, 1)), true)
  {
    hide Next, Inv, HistoryOf;
    var n := |log|;
    assert n >= 1;
    var s := Replay(so, log[..n - 1]);
    CursorAlwaysTracked(so, log);
    CursorAlwaysTracked(so, log[..n - 1]);
    EveryRun(so, log);
    if summary.reason.AuthorizedFinalBlockAlreadyReached? {
      EnteredAlreadyReached(so, s, log[n - 1], summary);
    } else {
      EnteredReached(so, s, log[n - 1], summary);
      ReachedMeansAtTarget(so, Replay(so, log), HistoryOf(log));
      assert n >= 2 && log[..n - 1][..n - 2] == log[..n - 2];
      EnteredFinalRecord(so, Replay(so, log[..n - 2]), log[n - 2]);
      LastSuccess(so, log, Replay(so, log[..n - 2]).phase.plan);
    }
  }

  /** The success recorded directly before the summary is that of the last child. */
  lemma LastSuccess(so: SupervisorOptions, log: seq<Event>, plan: ChildPlan)
    requires |log| >= 2 && Last(log, 1).Write? && !Last(log, 1).record.ChildSuccess?
    requires Last(log, 2) == Write(ChildSuccess(plan), true)
    requires HistoryOf(log).spawned != [] && HistoryOf(log).succeeded == HistoryOf(log).spawned
    ensures Last(HistoryOf(log).spawned, 1) == plan
  {
    var front := log[..|log| - 1];
    assert HistoryOf(log) == HistoryOf(front);
    assert HistoryOf(front).succeeded == HistoryOf(front[..|front| - 1]).succeeded + [plan];
  }

  /** A target is reported as already reached only after a durable summary, and only with
      exactly one clean persisted operation ending at the target, wherever it stands among
      the runs read directly before, or with a live cursor at the target that spans no
      block beyond its anchor; before that, no interrupt was pending, the cursor was read
      and nothing had drifted from the start of the run. */
  lemma AlreadyReachedNeedsEvidence(so: SupervisorOptions, log: seq<Event>, summary: Summary)
    requires Acceptable(so) && Finished(so, log, summary) && summary.reason.AuthorizedFinalBlockAlreadyReached?
    ensures |log| >= 6 && log[|log| - 1] == Write(SupervisorSummary(summary), true)
    ensures LastCursorRead(log).Some? && LastCursorRead(log).value.toBlock == so.authorizedFinalBlock
    ensures var n, answer, live := |log|, log[|log| - 2], LastCursorRead(log);
      || (&& n >= 7 && answer.TerminalRuns? && answer.endBlock == so.authorizedFinalBlock
          && answer.runs.Got? && OneCleanTransfersRun(answer.runs.value) && live.value.fromBlock != live.value.toBlock
          && DriftFree(log[n - 5..n - 2], log) && log[n - 6] == CursorRead(Got(live))
          && log[n - 7] == InterruptCheck(false))
      || (&& answer.Health? && live.value.fromBlock == so.authorizedFinalBlock
          && DriftFree(log[n - 4..n - 1], log) && log[n - 5] == CursorRead(Got(live))
          && log[n - 6] == InterruptCheck(false))
  {
    hide Next, PriorOperationClean, Inv, HistoryOf, Replay, OneCleanTransfersRun, CursorTracked, PassesDrift, DriftFree,
      LastCursorRead, Finished;
    var n := |log|;
    AlreadyStepsBack(so, log, summary);
    var answer, live := log[n - 2], LastCursorRead(log).value;
    if answer.TerminalRuns? {
      PriorOperationIffOneClean(answer.runs.value);
      DriftPassed(so, log, n - 3, live);
    } else {
      DriftPassed(so, log, n - 2, live);
    }
  }

  /** The last steps of such a run, and the cursor it read last. */
  lemma AlreadyStepsBack(so: SupervisorOptions, log: seq<Event>, summary: Summary)
    requires Acceptable(so) && Finished(so, log, summary) && summary.reason.AuthorizedFinalBlockAlreadyReached?
    ensures |log| >= 3 && log[|log| - 1] == Write(SupervisorSummary(summary), true)
    ensures LastCursorRead(log).Some? && LastCursorRead(log).value.toBlock == so.authorizedFinalBlock
    ensures var n, answer, live := |log|, log[|log| - 2], LastCursorRead(log).value;
      || (&& answer.TerminalRuns? && answer.endBlock == so.authorizedFinalBlock
          && answer.runs.Got? && PriorOperationClean(answer.runs.value) && live.fromBlock != live.toBlock
          && PassesDrift(so, Replay(so, log[..n - 3]), log[n - 3], live))
      || (&& live.fromBlock == so.authorizedFinalBlock && answer.Health?
          && PassesDrift(so, Replay(so, log[..n - 2]), log[n - 2], live))
  {
    hide Next, PriorOperationClean, Inv, HistoryOf;
    var n := |log|;
    assert n >= 1;
    CleanMeansAtTarget(so, log, summary);
    CursorAlwaysTracked(so, log[..n - 1]);
    EnteredAlreadyReached(so, Replay(so, log[..n - 1]), log[n - 1], summary);
    assert n >= 2 && log[..n - 1][..n - 2] == log[..n - 2];
    var before := Replay(so, log[..n - 2]);
    CursorAlwaysTracked(so, log[..n - 2]);
    EnteredAlreadyRecord(so, before, log[n - 2]);
    AlreadyStepReadsNothing(so, before, log[n - 2]);
    assert LastCursorRead(log) == LastCursorRead(log[..n - 2]);
    if before.phase.AwaitTerminalRuns? {
      assert n >= 3 && log[..n - 2][..n - 3] == log[..n - 3];
      EnteredTerminalRuns(so, Replay(so, log[..n - 3]), log[n - 3]);
    }
  }

  /** The last drift gate is passed by a healthy answer from the server of the start. */
  predicate PassesDrift(so: SupervisorOptions, s: State, e: Event, live: Cursor) {
    s.phase == AwaitDrift(live, DriftHealth) && e == Health(true, Some(s.appEnv))
  }

  lemma EnteredTerminalRuns(so: SupervisorOptions, s: State, e: Event)
    requires Acceptable(so) && Next(so, s, e).phase.AwaitTerminalRuns?
    ensures PassesDrift(so, s, e, Next(so, s, e).phase.cursor)
    ensures Next(so, s, e).phase.cursor.fromBlock != Next(so, s, e).phase.cursor.toBlock
  {
    hide PlanFor, PriorOperationClean, CleanResult, CursorAfterChild;
  }

  lemma DriftPassed(so: SupervisorOptions, log: seq<Event>, k: nat, live: Cursor)
    requires Acceptable(so) && k < |log| && PassesDrift(so, Replay(so, log[..k]), log[k], live)
    ensures k >= 4 && log[k].Health? && DriftFree(log[k - 2..k + 1], log)
    ensures log[k - 3] == CursorRead(Got(Some(live))) && log[k - 4] == InterruptCheck(false)
  {
    hide Replay, Next, HistoryOf, PlanFor;
    DriftGated(so, log, k);
    DriftHistory(so, log, k);
  }

  lemma AlreadyStepReadsNothing(so: SupervisorOptions, s: State, e: Event)
    requires Acceptable(so) && Next(so, s, e).phase.AwaitAlreadyRecord?
    ensures !e.CursorRead? && (s.phase.AwaitDrift? ==> e.Health?)
  {
    hide PlanFor, PriorOperationClean, CleanResult, CursorAfterChild;
  }
}
