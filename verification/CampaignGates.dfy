/** Nothing is submitted or, in a dry run, recorded as planned unless every gate before it
    was passed, each read directly before. */
module CampaignGates {
  import opened Base
  import opened SyncPrimitives
  import opened RecoveryWarnings
  import opened CampaignPlan
  import opened CampaignMachine
  import opened CampaignSafety
  import opened CampaignStart

  // ----- ordinary windows

  /** The five answers that must stand directly before an ordinary window is submitted
      or, in a dry run, recorded as planned: the cursor where it is expected, no active
      operation, an unused label, a healthy server and a clean range. */
  predicate GatesPassed(gates: seq<Event>, live: Cursor, request: Request) {
    && |gates| == 5
    && |request.policyLabel| <= 128
    && gates[0] == CursorRead(Got(Some(live)))
    && gates[1] == ActiveRuns(Got(0))
    && gates[2].LabelList? && gates[2].labels.Got? && request.policyLabel !in gates[2].labels.value
    && gates[3].Health? && gates[3].ok
    && gates[4] == Rows(FabricatedTransfers, request.startBlock, request.endBlock, Got(0))
  }

  /** Within one submission there is no second POST. */
  lemma NoSecondPost(o: Options, s: State, e: Event)
    requires o.windowSize > 0 && o.checkpointInterval > 0 && s.phase.Submitting?
    ensures var next := Next(o, s, e).phase; next.Submitting? ==> !next.submit.AwaitPost?
  {
    hide NextStart, NextRecoveryGate, NextWindowGate, NextCheck, Accepts, ReconciledWith, CursorMatches, Budget;
  }

  /** The last gate of a window leads to its submission in execution, and to its record in
      a dry run. */
  lemma EnteredPosting(o: Options, s: State, e: Event, number: nat, request: Request)
    requires o.windowSize > 0 && o.checkpointInterval > 0
    requires Next(o, s, e).phase == Submitting(OrdinaryWindow(number), request, AwaitPost)
    ensures o.execute && s.phase == WindowGates(AwaitContamination, WindowPlan(number, request))
    ensures e == Rows(FabricatedTransfers, request.startBlock, request.endBlock, Got(0))
    ensures Next(o, s, e).loop == s.loop
  {
    hide NextSubmit, EligibleSource, PlanWindow, CursorMatches, LabelFits, ForwardAdjacent, PlanningEdge,
      PlannedWithinBoundary, IntendedRecovery, EffectiveFirstWindowStart, Budget;
    if s.phase.Submitting? {
      NoSecondPost(o, s, e);
    }
  }

  /** Past its first gate, the loop is entered from nowhere but the previous gate. */
  lemma OnlyGatesLeadOn(o: Options, s: State, e: Event)
    requires o.windowSize > 0 && o.checkpointInterval > 0
    requires Next(o, s, e).phase.WindowGates? && !Next(o, s, e).phase.gate.AwaitCursor?
    ensures s.phase.WindowGates?
    ensures Next(o, s, e) == NextWindowGate(o, s, s.phase.gate, s.phase.plan, e)
  {
    hide EligibleSource, RecoveryAcceptable, StrictlyClean, Identifies, NextWindowGate, NextRowCheck,
      PlannedWithinBoundary;
  }

  lemma EnteredGate(o: Options, s: State, e: Event, step: GateStep, plan: WindowPlan)
    requires o.windowSize > 0 && o.checkpointInterval > 0
    requires step == AwaitLabels || step == AwaitHealth || step == AwaitContamination || step == AwaitPlanRecord
    requires Next(o, s, e).phase == WindowGates(step, plan)
    ensures Next(o, s, e).loop == s.loop
    ensures step.AwaitPlanRecord? ==>
      !o.execute && s.phase == WindowGates(AwaitContamination, plan)
        && e == Rows(FabricatedTransfers, plan.request.startBlock, plan.request.endBlock, Got(0))
    ensures step.AwaitContamination? ==> s.phase == WindowGates(AwaitHealth, plan) && e.Health? && e.ok
    ensures step.AwaitHealth? ==>
      s.phase == WindowGates(AwaitLabels, plan) && e.LabelList? && e.labels.Got?
        && plan.request.policyLabel !in e.labels.value
    ensures step.AwaitLabels? ==> s.phase == WindowGates(AwaitActive, plan) && e == ActiveRuns(Got(0))
  {
    OnlyGatesLeadOn(o, s, e);
    hide Next, LogicalWindowNumber;
  }

  lemma EnteredActiveGate(o: Options, s: State, e: Event, plan: WindowPlan)
    requires o.windowSize > 0 && o.checkpointInterval > 0
    requires Next(o, s, e).phase == WindowGates(AwaitActive, plan)
    ensures e == CursorRead(Got(Some(Cursor(o.expectedCursorFrom, s.loop.expectedTo))))
    ensures s.phase.WindowGates? && Next(o, s, e).loop == s.loop
    ensures LabelFits(plan.request.policyLabel)
  {
    OnlyGatesLeadOn(o, s, e);
    hide Next, LogicalWindowNumber;
  }

  /** The gates before the last one, in the order in which they were passed. */
  lemma GatesBehind(o: Options, log: seq<Event>, n: nat, plan: WindowPlan)
    requires Usable(o) && n < |log| && Replay(o, log[..n]).phase == WindowGates(AwaitContamination, plan)
    requires log[n] == Rows(FabricatedTransfers, plan.request.startBlock, plan.request.endBlock, Got(0))
    ensures n >= 4
    ensures GatesPassed(log[n - 4..n + 1], Cursor(o.expectedCursorFrom, Replay(o, log[..n]).loop.expectedTo),
      plan.request)
  {
    hide Next, CheckOptions;
    assert n >= 1 && log[..n][..n - 1] == log[..n - 1];
    EnteredGate(o, Replay(o, log[..n - 1]), log[n - 1], AwaitContamination, plan);
    assert n >= 2 && log[..n - 1][..n - 2] == log[..n - 2];
    EnteredGate(o, Replay(o, log[..n - 2]), log[n - 2], AwaitHealth, plan);
    assert n >= 3 && log[..n - 2][..n - 3] == log[..n - 3];
    EnteredGate(o, Replay(o, log[..n - 3]), log[n - 3], AwaitLabels, plan);
    assert n >= 4 && log[..n - 3][..n - 4] == log[..n - 4];
    EnteredActiveGate(o, Replay(o, log[..n - 4]), log[n - 4], plan);
  }

  lemma PostGates(o: Options, s: State, h: History)
    requires Usable(o) && Inv(o, s, h) && s.phase.Submitting? && s.phase.target.OrdinaryWindow?
    requires s.phase.submit.AwaitPost?
    ensures s.loop.expectedTo == s.phase.request.startBlock - 1
    ensures WindowPlan(s.phase.target.number, s.phase.request) == IntendedWindow(o, |h.posts|)
  {
    hide Spaced, CheckOptions;
  }

  /** No ordinary window is submitted unless it is the next intended one and, immediately
      before, the live cursor ended exactly one block earlier, no operation was active, the
      label was short enough and unused, the server was healthy and the range was
      uncontaminated. */
  lemma EveryPostIsGated(o: Options, log: seq<Event>, number: nat, request: Request, reply: Reply<Response>)
    requires Usable(o) && Follows(o, log + [Post(OrdinaryWindow(number), request, reply)])
    ensures o.execute && WindowPlan(number, request) == IntendedWindow(o, |HistoryOf(log).posts|)
    ensures |log| >= 5
    ensures GatesPassed(log[|log| - 5..], Cursor(o.expectedCursorFrom, request.startBlock - 1), request)
  {
    hide Next, GatesPassed, IntendedWindow, Inv, HistoryOf, CheckOptions;
    ReplaySnoc(o, log, Post(OrdinaryWindow(number), request, reply));
    PostNeedsPhase(o, Replay(o, log), number, request, reply);
    var n, plan := |log|, WindowPlan(number, request);
    assert n >= 1;
    EnteredPosting(o, Replay(o, log[..n - 1]), log[n - 1], number, request);
    EveryRun(o, log);
    PostGates(o, Replay(o, log), HistoryOf(log));
    GatesBehind(o, log, n - 1, plan);
    assert log[n - 5..n] == log[n - 5..];
  }

  lemma PlanNeedsPhase(o: Options, s: State, number: nat, request: Request, acknowledged: bool)
    requires o.windowSize > 0 && o.checkpointInterval > 0
    requires Next(o, s, Write(WindowPlanned(number, request), acknowledged)).phase != Stuck
    ensures s.phase == WindowGates(AwaitPlanRecord, WindowPlan(number, request))
  {
    hide EligibleSource, Accepts, ReconciledWith, PlanWindow, AfterWindow, AfterCursor, BeginWork,
      PlannedWithinBoundary;
  }

  lemma PreviewGates(o: Options, s: State, h: History)
    requires Usable(o) && Inv(o, s, h) && s.phase.WindowGates? && s.phase.gate.AwaitPlanRecord?
    ensures s.loop.expectedTo == o.expectedCursorTo && s.phase.plan == IntendedWindow(o, |h.planned|)
  {
    hide Spaced, CheckOptions;
  }

  /** No window is recorded as planned unless it is the next intended one of a dry run and,
      immediately before, the live cursor stood where it stood at the start, no operation
      was active, the label was short enough and unused, the server was healthy and the
      range was uncontaminated. */
  lemma EveryPreviewIsGated(o: Options, log: seq<Event>, number: nat, request: Request, acknowledged: bool)
    requires Usable(o) && Follows(o, log + [Write(WindowPlanned(number, request), acknowledged)])
    ensures !o.execute && WindowPlan(number, request) == IntendedWindow(o, |HistoryOf(log).planned|)
    ensures |log| >= 5
    ensures GatesPassed(log[|log| - 5..], Cursor(o.expectedCursorFrom, o.expectedCursorTo), request)
  {
    hide Next, GatesPassed, IntendedWindow, Inv, HistoryOf, CheckOptions;
    ReplaySnoc(o, log, Write(WindowPlanned(number, request), acknowledged));
    PlanNeedsPhase(o, Replay(o, log), number, request, acknowledged);
    var n, plan := |log|, WindowPlan(number, request);
    assert n >= 1;
    EnteredGate(o, Replay(o, log[..n - 1]), log[n - 1], AwaitPlanRecord, plan);
    EveryRun(o, log);
    PreviewGates(o, Replay(o, log), HistoryOf(log));
    GatesBehind(o, log, n - 1, plan);
    assert log[n - 5..n] == log[n - 5..];
  }

  lemma PostNeedsPhase(o: Options, s: State, number: nat, request: Request, reply: Reply<Response>)
    requires o.windowSize > 0 && o.checkpointInterval > 0
    requires Next(o, s, Post(OrdinaryWindow(number), request, reply)).phase != Stuck
    ensures s.phase == Submitting(OrdinaryWindow(number), request, AwaitPost)
  {
    hide EligibleSource, RecoveryAcceptable, StrictlyClean, Identifies, LogicalWindowNumber;
  }

  // ----- the recovery window

  /** The six answers that must stand directly before the recovery window is submitted or,
      in a dry run, recorded as planned. */
  predicate RecoveryGatesPassed(o: Options, gates: seq<Event>, request: Request, walletId: string)
    requires o.recovery.Some?
  {
    && |gates| == 6
    && |request.policyLabel| <= 128
    && gates[0] == CursorRead(Got(Some(Cursor(o.expectedCursorFrom, request.endBlock))))
    && gates[1].SourceRunRead? && gates[1].run.Got?
    && EligibleSource(gates[1].run.value, o.recovery.value, Expectation(walletId, o.chainId, request))
    && gates[2].LabelList? && gates[2].labels.Got? && request.policyLabel !in gates[2].labels.value
    && gates[3] == ActiveRuns(Got(0))
    && gates[4].Health? && gates[4].ok
    && gates[5] == Rows(FabricatedTransfers, request.startBlock, request.endBlock, Got(0))
  }

  /** The one state and the one answer from which each recovery step can be entered. */
  predicate RecoveryEntry(o: Options, s: State, e: Event, step: GateStep)
    requires o.recovery.Some?
  {
    var request := IntendedRecovery(o);
    match step
    case AwaitSource =>
      && s.phase == RecoveryGates(AwaitCursor)
      && e == CursorRead(Got(Some(Cursor(o.expectedCursorFrom, o.expectedCursorTo))))
    case AwaitLabels =>
      && s.phase == RecoveryGates(AwaitSource) && e.SourceRunRead? && e.run.Got?
      && EligibleSource(e.run.value, o.recovery.value, Expectation(s.walletId, o.chainId, request))
      && LabelFits(request.policyLabel)
    case AwaitActive =>
      && s.phase == RecoveryGates(AwaitLabels) && e.LabelList? && e.labels.Got?
      && request.policyLabel !in e.labels.value
    case AwaitHealth => s.phase == RecoveryGates(AwaitActive) && e == ActiveRuns(Got(0))
    case AwaitContamination => s.phase == RecoveryGates(AwaitHealth) && e.Health? && e.ok
    case AwaitPlanRecord =>
      && !o.execute && s.phase == RecoveryGates(AwaitContamination)
      && e == Rows(FabricatedTransfers, request.startBlock, request.endBlock, Got(0))
    case _ => true
  }

  lemma EnteredRecoveryGate(o: Options, s: State, e: Event, step: GateStep)
    requires o.windowSize > 0 && o.checkpointInterval > 0 && o.recovery.Some?
    requires Next(o, s, e).phase == RecoveryGates(step) && !step.AwaitCursor?
    ensures RecoveryEntry(o, s, e, step) && s.walletId == Next(o, s, e).walletId
  {
    hide NextWindowGate, NextSubmit, NextCheck, EligibleSource, IntendedRecovery;
    if s.phase.WindowGates? || s.phase.Submitting? || s.phase.Checking? {
      NothingReturnsToRecovery(o, s, e);
    }
  }

  lemma NothingReturnsToRecovery(o: Options, s: State, e: Event)
    requires o.windowSize > 0 && o.checkpointInterval > 0
    requires s.phase.WindowGates? || s.phase.Submitting? || s.phase.Checking?
    ensures !Next(o, s, e).phase.RecoveryGates?
  {
    hide EligibleSource, Accepts, ReconciledWith, PlanWindow, CursorMatches, LabelFits, ForwardAdjacent, PlanningEdge,
      PlannedWithinBoundary, IntendedRecovery, EffectiveFirstWindowStart, Budget;
  }

  lemma EnteredRecoveryPost(o: Options, s: State, e: Event, request: Request)
    requires o.windowSize > 0 && o.checkpointInterval > 0 && o.recovery.Some?
    requires Next(o, s, e).phase == Submitting(RecoveryWindow, request, AwaitPost)
    ensures o.execute && s.phase == RecoveryGates(AwaitContamination) && request == IntendedRecovery(o)
    ensures e == Rows(FabricatedTransfers, request.startBlock, request.endBlock, Got(0))
    ensures s.walletId == Next(o, s, e).walletId
  {
    hide NextSubmit, EligibleSource, PlanWindow, CursorMatches, LabelFits, ForwardAdjacent, PlanningEdge,
      PlannedWithinBoundary, IntendedRecovery, EffectiveFirstWindowStart, Budget;
    if s.phase.Submitting? {
      NoSecondPost(o, s, e);
    }
  }

  lemma RecoveryPostNeedsPhase(o: Options, s: State, request: Request, reply: Reply<Response>)
    requires o.windowSize > 0 && o.checkpointInterval > 0
    requires Next(o, s, Post(RecoveryWindow, request, reply)).phase != Stuck
    ensures s.phase == Submitting(RecoveryWindow, request, AwaitPost)
  {
    hide EligibleSource, RecoveryAcceptable, StrictlyClean, Identifies, LogicalWindowNumber;
  }

  lemma RecoveryStepBack(o: Options, log: seq<Event>, n: nat, step: GateStep)
    requires Usable(o) && o.recovery.Some? && n <= |log| && !step.AwaitCursor?
    requires Replay(o, log[..n]).phase == RecoveryGates(step)
    ensures n >= 1
    ensures Replay(o, log[..n - 1]).walletId == Replay(o, log[..n]).walletId
    ensures RecoveryEntry(o, Replay(o, log[..n - 1]), log[n - 1], step)
  {
    hide Next, RecoveryEntry;
    assert n >= 1;
    assert log[..n][..n - 1] == log[..n - 1];
    EnteredRecoveryGate(o, Replay(o, log[..n - 1]), log[n - 1], step);
  }

  lemma RecoveryServerGated(o: Options, log: seq<Event>, n: nat)
    requires Usable(o) && o.recovery.Some? && n <= |log|
    requires Replay(o, log[..n]).phase == RecoveryGates(AwaitContamination)
    ensures n >= 2
    ensures log[n - 1].Health? && log[n - 1].ok && log[n - 2] == ActiveRuns(Got(0))
    ensures Replay(o, log[..n - 2]).walletId == Replay(o, log[..n]).walletId
    ensures Replay(o, log[..n - 2]).phase == RecoveryGates(AwaitActive)
  {
    hide Next, Replay, EligibleSource, CheckOptions, IntendedRecovery;
    RecoveryStepBack(o, log, n, AwaitContamination);
    RecoveryStepBack(o, log, n - 1, AwaitHealth);
  }

  lemma RecoverySourceGated(o: Options, log: seq<Event>, n: nat)
    requires Usable(o) && o.recovery.Some? && n <= |log|
    requires Replay(o, log[..n]).phase == RecoveryGates(AwaitActive)
    ensures n >= 3
    ensures log[n - 1].LabelList? && log[n - 1].labels.Got?
    ensures IntendedRecovery(o).policyLabel !in log[n - 1].labels.value && LabelFits(IntendedRecovery(o).policyLabel)
    ensures log[n - 2].SourceRunRead? && log[n - 2].run.Got?
    ensures EligibleSource(log[n - 2].run.value, o.recovery.value,
                           Expectation(Replay(o, log[..n]).walletId, o.chainId, IntendedRecovery(o)))
    ensures log[n - 3] == CursorRead(Got(Some(Cursor(o.expectedCursorFrom, o.expectedCursorTo))))
  {
    hide Next, Replay, EligibleSource, CheckOptions, IntendedRecovery;
    RecoveryStepBack(o, log, n, AwaitActive);
    RecoveryStepBack(o, log, n - 1, AwaitLabels);
    RecoveryStepBack(o, log, n - 2, AwaitSource);
  }

  /** The gates before the last one of the recovery window. */
  lemma RecoveryBehind(o: Options, log: seq<Event>, n: nat)
    requires Usable(o) && o.recovery.Some? && n < |log|
    requires Replay(o, log[..n]).phase == RecoveryGates(AwaitContamination)
    requires var request := IntendedRecovery(o);
      log[n] == Rows(FabricatedTransfers, request.startBlock, request.endBlock, Got(0))
    requires o.expectedCursorTo == IntendedRecovery(o).endBlock
    ensures n >= 5 && RecoveryGatesPassed(o, log[n - 5..n + 1], IntendedRecovery(o), Replay(o, log[..n]).walletId)
  {
    hide Next, Replay, EligibleSource, CheckOptions, IntendedRecovery, RecoveryGatesPassed;
    RecoveryServerGated(o, log, n);
    RecoverySourceGated(o, log, n - 2);
    LastSix(o, log[..n + 1], IntendedRecovery(o), Replay(o, log[..n]).walletId);
    assert log[..n + 1][n - 5..] == log[n - 5..n + 1];
  }

  /** The recovery window is submitted only at the cursor frontier, with an eligible
      source run of the wallet read at the start, a label short enough and unused, no active
      operation, a healthy server and an uncontaminated range, all read directly before. */
  lemma EveryRecoveryIsGated(o: Options, log: seq<Event>, request: Request, reply: Reply<Response>)
    requires Usable(o) && o.recovery.Some? && Follows(o, log + [Post(RecoveryWindow, request, reply)])
    ensures o.execute && request == IntendedRecovery(o) && o.expectedCursorTo == request.endBlock
    ensures |log| >= 6 && RecoveryGatesPassed(o, log[|log| - 6..], request, WalletOf(log))
  {
    hide Next, Replay, EligibleSource, CheckOptions, IntendedRecovery, RecoveryGatesPassed;
    ReplaySnoc(o, log, Post(RecoveryWindow, request, reply));
    RecoveryPostNeedsPhase(o, Replay(o, log), request, reply);
    RecoveryPostStepBack(o, log, request);
    FrontierAtRecovery(o, log);
    RecoveryBehind(o, log, |log| - 1);
    StartRead(o, log);
    assert log[|log| - 6..|log|] == log[|log| - 6..];
  }

  lemma RecoveryPlanNeedsPhase(o: Options, s: State, request: Request, acknowledged: bool)
    requires o.windowSize > 0 && o.checkpointInterval > 0 && o.recovery.Some?
    requires Next(o, s, Write(RecoveryPlanned(request), acknowledged)).phase != Stuck
    ensures s.phase == RecoveryGates(AwaitPlanRecord) && request == IntendedRecovery(o)
  {
    hide EligibleSource, Accepts, ReconciledWith, PlanWindow, AfterWindow, AfterCursor, BeginWork,
      PlannedWithinBoundary, IntendedRecovery;
  }

  /** A recovery window is recorded as planned only in a dry run, behind the same gates. */
  lemma EveryRecoveryPreviewIsGated(o: Options, log: seq<Event>, request: Request, acknowledged: bool)
    requires Usable(o) && o.recovery.Some? && Follows(o, log + [Write(RecoveryPlanned(request), acknowledged)])
    ensures !o.execute && request == IntendedRecovery(o) && o.expectedCursorTo == request.endBlock
    ensures |log| >= 6 && RecoveryGatesPassed(o, log[|log| - 6..], request, WalletOf(log))
  {
    hide Next, Replay, EligibleSource, CheckOptions, IntendedRecovery, RecoveryGatesPassed;
    ReplaySnoc(o, log, Write(RecoveryPlanned(request), acknowledged));
    RecoveryPlanNeedsPhase(o, Replay(o, log), request, acknowledged);
    assert log[..|log|] == log;
    RecoveryStepBack(o, log, |log|, AwaitPlanRecord);
    FrontierAtRecovery(o, log);
    RecoveryBehind(o, log, |log| - 1);
    StartRead(o, log);
    assert log[|log| - 6..|log|] == log[|log| - 6..];
  }

  lemma LastSix(o: Options, log: seq<Event>, request: Request, walletId: string)
    requires o.recovery.Some? && |log| >= 6 && LabelFits(request.policyLabel)
    requires Last(log, 1) == Rows(FabricatedTransfers, request.startBlock, request.endBlock, Got(0))
    requires Last(log, 2).Health? && Last(log, 2).ok && Last(log, 3) == ActiveRuns(Got(0))
    requires Last(log, 4).LabelList? && Last(log, 4).labels.Got? && request.policyLabel !in Last(log, 4).labels.value
    requires Last(log, 5).SourceRunRead? && Last(log, 5).run.Got?
    requires EligibleSource(Last(log, 5).run.value, o.recovery.value, Expectation(walletId, o.chainId, request))
    requires Last(log, 6) == CursorRead(Got(Some(Cursor(o.expectedCursorFrom, request.endBlock))))
    ensures RecoveryGatesPassed(o, log[|log| - 6..], request, walletId)
  {
    hide EligibleSource;
  }

  lemma RecoveryPostStepBack(o: Options, log: seq<Event>, request: Request)
    requires Usable(o) && o.recovery.Some? && Replay(o, log).phase == Submitting(RecoveryWindow, request, AwaitPost)
    ensures |log| >= 1 && o.execute && request == IntendedRecovery(o)
    ensures Replay(o, log[..|log| - 1]).phase == RecoveryGates(AwaitContamination)
    ensures Replay(o, log[..|log| - 1]).walletId == Replay(o, log).walletId
    ensures log[|log| - 1] == Rows(FabricatedTransfers, request.startBlock, request.endBlock, Got(0))
  {
    hide Next, IntendedRecovery;
    assert |log| >= 1;
    EnteredRecoveryPost(o, Replay(o, log[..|log| - 1]), log[|log| - 1], request);
  }

  lemma FrontierAtRecovery(o: Options, log: seq<Event>)
    requires Usable(o) && o.recovery.Some?
    requires
      var phase := Replay(o, log).phase;
      phase.RecoveryGates? || (phase.Submitting? && phase.target.RecoveryWindow?)
    ensures o.expectedCursorTo == IntendedRecovery(o).endBlock
  {
    EveryRun(o, log);
  }
}
