/** What every run of the supervisor keeps, whatever its environment answers. */
module SupervisorTheorems {
  import opened Base
  import opened SyncPrimitives
  import opened SupervisorPlan
  import opened SupervisorMachine
  import Campaign = CampaignPlan
  import Arithmetic
  import ChildLabels

  // ----- the observable history

  datatype History = History(spawned: seq<ChildPlan>, succeeded: seq<ChildPlan>)

  function Observe(h: History, e: Event): History {
    match e
    case Spawn(plan, _) => h.(spawned := h.spawned + [plan])
    case Write(ChildSuccess(plan), true) => h.(succeeded := h.succeeded + [plan])
    case _ => h
  }

  function HistoryOf(log: seq<Event>): History {
    if log == [] then History([], []) else Observe(HistoryOf(log[..|log| - 1]), log[|log| - 1])
  }

  // ----- the invariant

  /** Every child was planned for its own cursor and number, with a well-formed id. */
  predicate Planned(so: SupervisorOptions, plan: ChildPlan)
    requires Acceptable(so)
  {
    && PlanFor(so, Cursor(plan.anchorFrom, plan.cursorTo), plan.number) == Child(plan)
    && Campaign.ValidCampaignId(ChildCampaignId(so.campaignIdPrefix, plan.number))
  }

  predicate AllPlanned(so: SupervisorOptions, first: nat, plans: seq<ChildPlan>)
    requires Acceptable(so)
  {
    forall k :: 0 <= k < |plans| ==> Planned(so, plans[k]) && plans[k].number == first + k
  }

  predicate Counted(so: SupervisorOptions, s: State, h: History)
    requires Acceptable(so)
  {
    && s.completed <= |h.spawned| <= s.completed + 1
    && h.succeeded == h.spawned[..s.completed]
    && AllPlanned(so, s.firstNumber, h.spawned)
    && s.nextNumber == s.firstNumber + s.completed
    && s.lastNumber == (if s.completed == 0 then None else Some(s.nextNumber - 1))
    && (!so.execute ==> SimulatedEdge(h))
  }

  /** In a dry run, a child is planned from the boundary of its predecessor. */
  predicate SimulatedEdge(h: History) {
    forall k :: 0 < k < |h.spawned| ==> h.spawned[k].cursorTo == h.spawned[k - 1].finalBlock
  }

  predicate Unfinished(so: SupervisorOptions, s: State, h: History) {
    && |h.spawned| == s.completed
    && (s.completed > 0 ==> h.spawned[s.completed - 1].finalBlock != so.authorizedFinalBlock)
    && (!so.execute ==>
          s.simulatedTo == if s.completed == 0 then None else Some(h.spawned[s.completed - 1].finalBlock))
  }

  /** A child that may be spawned next. */
  predicate Ready(so: SupervisorOptions, s: State, h: History, plan: ChildPlan)
    requires Acceptable(so)
  {
    && Unfinished(so, s, h)
    && Planned(so, plan) && plan.number == s.nextNumber
    && (!so.execute && s.completed > 0 ==> plan.cursorTo == h.spawned[s.completed - 1].finalBlock)
  }

  predicate Flying(s: State, h: History, plan: ChildPlan) {
    |h.spawned| == s.completed + 1 && h.spawned[s.completed] == plan
  }

  predicate Inv(so: SupervisorOptions, s: State, h: History)
    requires Acceptable(so)
  {
    match s.phase
    case Starting(_) =>
      && h == History([], []) && s.completed == 0 && s.lastNumber.None? && s.simulatedTo.None?
      && s.nextNumber == s.firstNumber
    case Crashed => h == History([], [])
    case Stuck => true
    case _ =>
      && Counted(so, s, h)
      && match s.phase
         case AwaitChildStart(_, plan) => Ready(so, s, h, plan)
         case AwaitSpawn(_, plan) => Ready(so, s, h, plan)
         case AwaitCursorAfter(_, plan) => Flying(s, h, plan)
         case AwaitFailureRecord(plan, reason) => Flying(s, h, plan) && !reason.Clean()
         case AwaitSuccessRecord(plan) =>
           Flying(s, h, plan) && (!so.execute ==> s.simulatedTo == Some(plan.finalBlock))
         case AwaitFinalRecord => AtTarget(so, s, h)
         case Stopping(summary) => summary == SummaryOf(s, summary.reason) && !summary.reason.Clean()
         case Ended(summary) =>
           && summary == SummaryOf(s, summary.reason)
           && (summary.reason.AuthorizedFinalBlockReached? ==> AtTarget(so, s, h))
           && (summary.reason.AuthorizedFinalBlockAlreadyReached? ==> Unfinished(so, s, h))
         case _ => Unfinished(so, s, h)
  }

  predicate AtTarget(so: SupervisorOptions, s: State, h: History) {
    && |h.spawned| == s.completed >= 1
    && h.spawned[s.completed - 1].finalBlock == so.authorizedFinalBlock
  }

  lemma PlanKeepsCursor(so: SupervisorOptions, cursor: Cursor, number: nat)
    requires Acceptable(so) && PlanFor(so, cursor, number).Child?
    ensures var plan := PlanFor(so, cursor, number).plan;
      plan.anchorFrom == cursor.fromBlock && plan.cursorTo == cursor.toBlock && plan.number == number
  {
  }

  /** The plan that follows the drift gates is ready to be spawned. */
  lemma AfterDriftStep(so: SupervisorOptions, s: State, h: History, live: Cursor)
    requires Acceptable(so) && Counted(so, s, h) && Unfinished(so, s, h)
    ensures Inv(so, AfterDrift(so, s, live), h)
  {
    hide AllPlanned, SimulatedEdge, PlanFor;
    var cursor := PlanningCursor(so, s, live);
    if PlanFor(so, cursor, s.nextNumber).Child? {
      PlanKeepsCursor(so, cursor, s.nextNumber);
    }
  }

  lemma DriftStep(so: SupervisorOptions, s: State, h: History, e: Event)
    requires Acceptable(so) && s.phase.AwaitDrift? && Inv(so, s, h)
    ensures Inv(so, Next(so, s, e), Observe(h, e))
  {
    hide AllPlanned, SimulatedEdge, AfterDrift, PriorOperationClean, CleanResult, PlanFor, NextStart, AfterSpawn,
      AfterChildCursor, AfterSuccess, NextSummaryRecord;
    AfterDriftStep(so, s, h, s.phase.cursor);
  }

  /** Spawning a ready child keeps the record of spawned children in order. */
  lemma SpawnedInOrder(so: SupervisorOptions, first: nat, plans: seq<ChildPlan>, plan: ChildPlan)
    requires Acceptable(so) && AllPlanned(so, first, plans) && Planned(so, plan) && plan.number == first + |plans|
    ensures AllPlanned(so, first, plans + [plan])
  {
    hide Planned;
  }

  lemma SpawnStep(so: SupervisorOptions, s: State, h: History, e: Event)
    requires Acceptable(so) && s.phase.AwaitSpawn? && Inv(so, s, h)
    ensures Inv(so, Next(so, s, e), Observe(h, e))
  {
    hide AfterSpawn, Planned, AllPlanned;
    var plan := s.phase.plan;
    if e.Spawn? && e.plan == plan {
      SpawnedInOrder(so, s.firstNumber, h.spawned, plan);
      AfterSpawnStep(so, s, History(h.spawned + [plan], h.succeeded), s.phase.cursor, plan, e.result);
    } else {
      assert Next(so, s, e).phase == Stuck;
    }
  }

  lemma AfterSpawnStep(
      so: SupervisorOptions, s: State, h: History, live: Cursor, plan: ChildPlan, result: Reply<ChildResult>)
    requires Acceptable(so) && Counted(so, s, h) && Flying(s, h, plan)
    ensures Inv(so, AfterSpawn(so, s, live, plan, result), h)
  {
    hide AllPlanned, SimulatedEdge, CleanResult;
  }

  lemma SuccessStep(so: SupervisorOptions, s: State, h: History, e: Event)
    requires Acceptable(so) && s.phase.AwaitSuccessRecord? && Inv(so, s, h)
    ensures Inv(so, Next(so, s, e), Observe(h, e))
  {
    hide Planned, PriorOperationClean, CleanResult, NextStart, NextDrift, AfterSpawn, AfterChildCursor,
      NextSummaryRecord;
  }

  lemma NothingSpawned(so: SupervisorOptions, first: nat)
    requires Acceptable(so)
    ensures AllPlanned(so, first, []) && SimulatedEdge(History([], []))
  {
  }

  lemma StartingStep(so: SupervisorOptions, s: State, h: History, e: Event)
    requires Acceptable(so) && s.phase.Starting? && Inv(so, s, h)
    ensures Inv(so, Next(so, s, e), Observe(h, e))
  {
    hide AllPlanned, SimulatedEdge, ChildLabels.StartingNumber;
    NothingSpawned(so, s.firstNumber);
    if e.LabelList? && e.labels.Got? {
      NothingSpawned(so, ChildLabels.StartingNumber(e.labels.value, so.policyLabelPrefix, so.campaignIdPrefix));
    }
  }

  lemma OtherStep(so: SupervisorOptions, s: State, h: History, e: Event)
    requires Acceptable(so) && Inv(so, s, h)
    requires !s.phase.Starting? && !s.phase.AwaitDrift? && !s.phase.AwaitSpawn? && !s.phase.AwaitSuccessRecord?
    ensures Inv(so, Next(so, s, e), Observe(h, e))
  {
    hide Planned, AllPlanned, SimulatedEdge, PriorOperationClean, CleanResult, CursorAfterChild, NextStart, NextDrift,
      AfterSpawn, AfterSuccess, PlanFor, AfterDrift;
  }

  lemma {:induction false} EveryRun(so: SupervisorOptions, log: seq<Event>)
    requires Acceptable(so)
    ensures Inv(so, Replay(so, log), HistoryOf(log))
  {
    if log != [] {
      hide Next, Inv;
      var s, h, e := Replay(so, log[..|log| - 1]), HistoryOf(log[..|log| - 1]), log[|log| - 1];
      EveryRun(so, log[..|log| - 1]);
      if s.phase.Starting? {
        StartingStep(so, s, h, e);
      } else if s.phase.AwaitDrift? {
        DriftStep(so, s, h, e);
      } else if s.phase.AwaitSpawn? {
        SpawnStep(so, s, h, e);
      } else if s.phase.AwaitSuccessRecord? {
        SuccessStep(so, s, h, e);
      } else {
        OtherStep(so, s, h, e);
      }
    }
  }

  // ----- theorems

  predicate Follows(so: SupervisorOptions, log: seq<Event>)
    requires Acceptable(so)
  {
    Replay(so, log).phase != Stuck
  }

  predicate Finished(so: SupervisorOptions, log: seq<Event>, summary: Summary)
    requires Acceptable(so)
  {
    Replay(so, log).phase == Ended(summary)
  }

  lemma SpawnsSoFar(so: SupervisorOptions, s: State, h: History)
    requires Acceptable(so) && Inv(so, s, h) && s.phase != Stuck
    ensures AllPlanned(so, s.firstNumber, h.spawned)
    ensures h.succeeded <= h.spawned && |h.spawned| <= |h.succeeded| + 1
    ensures !so.execute ==> SimulatedEdge(h)
  {
    hide Planned, PlanFor;
  }

  /** However the environment behaves, every spawned child was planned for the cursor
      it was given and passes its own gates; children are numbered consecutively, none
      is authorised past the immutable target, and at most the last one was not
      followed by a durable success record. */
  lemma SpawnedChildrenAreBounded(so: SupervisorOptions, log: seq<Event>)
    requires Acceptable(so) && Follows(so, log)
    ensures var h, first := HistoryOf(log), Replay(so, log).firstNumber;
      && h.succeeded <= h.spawned && |h.spawned| <= |h.succeeded| + 1
      && (forall k :: 0 <= k < |h.spawned| ==>
            && Planned(so, h.spawned[k])
            && h.spawned[k].number == first + k
            && h.spawned[k].finalBlock <= so.authorizedFinalBlock
            && var o := ChildOptions(so, h.spawned[k]);
               Campaign.CheckOptions(o) == Campaign.Accepted(h.spawned[k].maxWindows)
               && Campaign.EffectiveFirstWindowStart(o) == o.expectedCursorTo + 1)
  {
    EveryRun(so, log);
    hide Replay, HistoryOf, Inv;
    var h := HistoryOf(log);
    SpawnsSoFar(so, Replay(so, log), h);
    forall k | 0 <= k < |h.spawned|
      ensures h.spawned[k].finalBlock <= so.authorizedFinalBlock
      ensures var o := ChildOptions(so, h.spawned[k]);
        Campaign.CheckOptions(o) == Campaign.Accepted(h.spawned[k].maxWindows)
        && Campaign.EffectiveFirstWindowStart(o) == o.expectedCursorTo + 1
    {
      var plan := h.spawned[k];
      PlanPassesChildGates(so, Cursor(plan.anchorFrom, plan.cursorTo), plan.number);
    }
  }

  // ----- labels

  /** The labels the supervisor read at its start. */
  function LabelsRead(log: seq<Event>): Option<seq<string>> {
    if log == [] then None
    else
      match LabelsRead(log[..|log| - 1])
      case Some(labels) => Some(labels)
      case None =>
        match log[|log| - 1]
        case LabelList(Got(labels)) => Some(labels)
        case _ => None
  }

  /** Children are numbered from the labels read, and none is spawned before. */
  predicate Numbered(so: SupervisorOptions, s: State, h: History, labels: Option<seq<string>>) {
    match labels
    case Some(existing) =>
      && s.firstNumber == ChildLabels.StartingNumber(existing, so.policyLabelPrefix, so.campaignIdPrefix)
      && (s.phase.Starting? ==> s.phase.start.AwaitStartRecord?)
    case None =>
      && h.spawned == []
      && (s.phase.Starting? ==> !s.phase.start.AwaitStartRecord?)
      && (s.phase.Starting? || s.phase.Stopping? || s.phase.Ended? || s.phase.Crashed?)
  }

  lemma NumberedStep(so: SupervisorOptions, s: State, h: History, labels: Option<seq<string>>, e: Event)
    requires Acceptable(so) && Numbered(so, s, h, labels) && Next(so, s, e).phase != Stuck
    ensures Numbered(so, Next(so, s, e), Observe(h, e),
                     if labels.Some? then labels
                     else if e.LabelList? && e.labels.Got? then Some(e.labels.value) else None)
  {
    hide PlanFor, PriorOperationClean, CleanResult, CursorAfterChild, Campaign.ValidCampaignId, ChildCampaignId,
      ChildLabels.StartingNumber;
  }

  lemma {:induction false} AlwaysNumbered(so: SupervisorOptions, log: seq<Event>)
    requires Acceptable(so) && Follows(so, log)
    ensures Numbered(so, Replay(so, log), HistoryOf(log), LabelsRead(log))
  {
    hide Next, Numbered, Observe;
    if log != [] {
      var front, e := log[..|log| - 1], log[|log| - 1];
      StuckStays(so, Replay(so, front), e);
      AlwaysNumbered(so, front);
      NumberedStep(so, Replay(so, front), HistoryOf(front), LabelsRead(front), e);
    } else {
      NothingNumbered(so);
    }
  }

  lemma StuckStays(so: SupervisorOptions, s: State, e: Event)
    requires Acceptable(so)
    ensures s.phase == Stuck ==> Next(so, s, e).phase == Stuck
  {
  }

  lemma NothingNumbered(so: SupervisorOptions)
    ensures Numbered(so, INIT, History([], []), None)
  {
  }

  /** No window of any child a run spawns carries a label that was among those the run
      read at its start. */
  lemma SpawnedLabelsAreFresh(so: SupervisorOptions, log: seq<Event>, k: nat, window: nat)
    requires Acceptable(so) && Follows(so, log) && k < |HistoryOf(log).spawned|
    ensures LabelsRead(log).Some?
    ensures ChildLabels.ChildWindowLabel(
              so.policyLabelPrefix, so.campaignIdPrefix, HistoryOf(log).spawned[k].number, window)
         !in LabelsRead(log).value
  {
    hide Replay, HistoryOf, LabelsRead, ChildLabels.StartingNumber, ChildLabels.SafeStart, ChildLabels.ChildWindowLabel,
      PlanFor;
    AlwaysNumbered(so, log);
    SpawnedChildrenAreBounded(so, log);
    var labels := LabelsRead(log).value;
    var first := Replay(so, log).firstNumber;
    ChildLabels.StartingNumberIsSafe(labels, so.policyLabelPrefix, so.campaignIdPrefix);
    ChildLabels.LabelsAreFresh(labels, so.policyLabelPrefix, so.campaignIdPrefix, first,
      HistoryOf(log).spawned[k].number, window);
  }

  // ----- tiling when nothing else moves the cursor

  /** Each child was planned from the cursor verified after its predecessor. */
  predicate Chained(plans: seq<ChildPlan>) {
    forall k :: 0 < k < |plans| ==>
      plans[k].anchorFrom == plans[k - 1].anchorFrom && plans[k].cursorTo == plans[k - 1].finalBlock
  }

  lemma {:induction false} ChainFollowsChildren(so: SupervisorOptions, first: nat, plans: seq<ChildPlan>)
    requires Acceptable(so) && plans != [] && AllPlanned(so, first, plans) && Chained(plans)
    ensures plans <= Children(so, StartOf(plans[0]), first)
    ensures plans[|plans| - 1].finalBlock == so.authorizedFinalBlock ==> plans == Children(so, StartOf(plans[0]), first)
    decreases |plans|
  {
    var plan, rest := plans[0], plans[1..];
    assert PlanFor(so, StartOf(plan), first) == Child(plan);
    var next := Cursor(plan.anchorFrom, plan.finalBlock);
    assert Children(so, StartOf(plan), first) == [plan] + Children(so, next, first + 1);
    if rest == [] {
      assert plans == [plan];
    } else {
      assert StartOf(rest[0]) == next;
      ChainFollowsChildren(so, first + 1, rest);
      assert plans == [plan] + rest;
    }
  }

  /** If between children nothing else moves the cursor, then a supervisor that reports
      the target as reached has run exactly the children that tile the span from the
      first cursor to the target, as many as the remaining windows divided by the
      child limit, rounded up. */
  lemma UndisturbedRunTilesTheSpan(so: SupervisorOptions, log: seq<Event>, summary: Summary)
    requires Acceptable(so) && Finished(so, log, summary) && summary.reason.AuthorizedFinalBlockReached?
    requires Chained(HistoryOf(log).spawned)
    ensures var plans, first := HistoryOf(log).spawned, Replay(so, log).firstNumber;
      && plans != []
      && var start := StartOf(plans[0]);
      && HistoryOf(log).succeeded == plans == Children(so, start, first)
      && Tiles(plans, start.toBlock, so.authorizedFinalBlock)
      && start.toBlock <= so.authorizedFinalBlock
      && summary.childrenCompleted == |plans| == Arithmetic.CeilDiv(RemainingWindows(so, start), so.campaignMaxWindows)
      && summary.lastChildNumber == Some(first + |plans| - 1)
  {
    hide Replay, HistoryOf, Inv, Children, Tiles, Arithmetic.CeilDiv, PlanFor;
    EveryRun(so, log);
    ReachedMeansAtTarget(so, Replay(so, log), HistoryOf(log));
    var plans, first := HistoryOf(log).spawned, Replay(so, log).firstNumber;
    ChainFollowsChildren(so, first, plans);
    PlannedIsReachable(so, plans[0]);
    ChildrenTile(so, StartOf(plans[0]), first);
  }

  lemma PlannedIsReachable(so: SupervisorOptions, plan: ChildPlan)
    requires Acceptable(so) && Planned(so, plan)
    ensures Reachable(so, StartOf(plan))
  {
    PlanRefusedIff(StartOf(plan), so.windowSize, so.campaignMaxWindows, so.authorizedFinalBlock, plan.number);
  }

  lemma ReachedMeansAtTarget(so: SupervisorOptions, s: State, h: History)
    requires Acceptable(so) && Inv(so, s, h) && s.phase.Ended? && s.phase.summary.reason.AuthorizedFinalBlockReached?
    ensures h.spawned != [] && h.spawned == h.succeeded && AllPlanned(so, s.firstNumber, h.spawned)
    ensures h.spawned[|h.spawned| - 1].finalBlock == so.authorizedFinalBlock
    ensures s.phase.summary.childrenCompleted == |h.spawned|
    ensures s.phase.summary.lastChildNumber == Some(s.firstNumber + |h.spawned| - 1)
    ensures !so.execute ==> SimulatedEdge(h)
  {
    hide AllPlanned, SimulatedEdge;
  }
}
