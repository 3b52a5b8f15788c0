/** A supervisor whose environment never fails it, and whose cursor nothing but its own
    children moves, reaches the target by exactly the planned children. */
module SupervisorProgress {
  import opened Base
  import opened SyncPrimitives
  import opened SupervisorPlan
  import opened SupervisorMachine
  import opened SupervisorTheorems
  import Campaign = CampaignPlan
  import ChildLabels
  import Arithmetic

  /** The cursor in the database: an executed child moves it to its own final block,
      nothing else moves it. */
  function CursorIn(so: SupervisorOptions, origin: Cursor, log: seq<Event>): Cursor {
    if log == [] then origin else Moved(so, CursorIn(so, origin, log[..|log| - 1]), log[|log| - 1])
  }

  function Moved(so: SupervisorOptions, live: Cursor, e: Event): Cursor {
    match e
    case Spawn(plan, Got(_)) => if so.execute then Cursor(plan.anchorFrom, plan.finalBlock) else live
    case _ => live
  }

  /** An answer with which the step that asked for it succeeds. */
  predicate Favourable(so: SupervisorOptions, s: State, live: Cursor, first: nat, e: Event) {
    match e
    case GitHead(head) => head.Got? && (s.phase.AwaitDrift? ==> head.value == s.head)
    case WorkingTree(clean) => clean == Got(true)
    case Health(ok, appEnv) => ok && appEnv.Some? && (s.phase.AwaitDrift? ==> appEnv.value == s.appEnv)
    case WalletLookup(id) => id.Got? && id.value.Some?
    case LabelList(labels) =>
      labels.Got? && ChildLabels.StartingNumber(labels.value, so.policyLabelPrefix, so.campaignIdPrefix) == first
    case InterruptCheck(interrupted) => !interrupted
    case CursorRead(cursor) => cursor == Got(Some(live))
    case TerminalRuns(_, runs) => runs.Got? && PriorOperationClean(runs.value)
    case Spawn(plan, result) => result.Got? && CleanResult(result.value, so.execute, plan.maxWindows)
    case Write(_, acknowledged) => acknowledged
  }

  predicate FavourableRun(so: SupervisorOptions, origin: Cursor, first: nat, log: seq<Event>)
    requires Acceptable(so)
  {
    log != [] ==>
      && FavourableRun(so, origin, first, log[..|log| - 1])
      && Favourable(so, Replay(so, log[..|log| - 1]), CursorIn(so, origin, log[..|log| - 1]), first, log[|log| - 1])
  }

  /** Every planned child has a well-formed campaign id. */
  predicate IdsFit(so: SupervisorOptions, origin: Cursor, first: nat)
    requires Acceptable(so)
  {
    forall k :: 0 <= k < |Children(so, origin, first)| ==>
      Campaign.ValidCampaignId(ChildCampaignId(so.campaignIdPrefix, Children(so, origin, first)[k].number))
  }

  /** The edge up to which children have been spawned. */
  function Front(origin: Cursor, spawned: seq<ChildPlan>): Cursor {
    if spawned == [] then origin else Cursor(origin.fromBlock, spawned[|spawned| - 1].finalBlock)
  }

  /** What was spawned, followed by what would be planned from here, is the whole plan. */
  predicate OnCourse(so: SupervisorOptions, origin: Cursor, first: nat, spawned: seq<ChildPlan>)
    requires Acceptable(so)
  {
    && spawned + Children(so, Front(origin, spawned), first + |spawned|) == Children(so, origin, first)
    && Reachable(so, Front(origin, spawned))
  }

  predicate Smooth(so: SupervisorOptions, origin: Cursor, first: nat, s: State, spawned: seq<ChildPlan>, live: Cursor)
    requires Acceptable(so)
  {
    && OnCourse(so, origin, first, spawned)
    && live == (if so.execute then Front(origin, spawned) else origin)
    && (!s.phase.Starting? ==> s.firstNumber == first)
    && match s.phase
       case Starting(step) => spawned == [] && (step.AwaitStartRecord? ==> s.firstNumber == first)
       case AwaitDrift(cursor, step) => cursor == live && (step.DriftTree? ==> step.headOk)
       case AwaitTerminalRuns(_) => spawned == [] && origin.toBlock == so.authorizedFinalBlock
       case AwaitAlreadyRecord => spawned == [] && origin.toBlock == so.authorizedFinalBlock
       case AwaitChildStart(cursor, plan) => cursor == live
         && PlanFor(so, Front(origin, spawned), first + |spawned|) == Child(plan)
       case AwaitSpawn(cursor, plan) => cursor == live
         && PlanFor(so, Front(origin, spawned), first + |spawned|) == Child(plan)
       case AwaitCursorAfter(cursor, plan) =>
         plan.anchorFrom == origin.fromBlock && plan.finalBlock == Front(origin, spawned).toBlock
           && (!so.execute ==> cursor == origin)
       case AwaitFailureRecord(_, _) => false
       case Stopping(_) => false
       case Crashed => false
       case Ended(summary) =>
         && summary.reason.Clean()
         && (summary.reason.AuthorizedFinalBlockAlreadyReached? ==>
              spawned == [] && origin.toBlock == so.authorizedFinalBlock)
       case _ => true
  }

  lemma SmoothDrift(so: SupervisorOptions, origin: Cursor, first: nat, s: State, h: History, live: Cursor, e: Event)
    requires Acceptable(so) && IdsFit(so, origin, first) && s.phase.AwaitDrift?
    requires Inv(so, s, h) && Smooth(so, origin, first, s, h.spawned, live) && Favourable(so, s, live, first, e)
    requires e.Health? || e.GitHead? || e.WorkingTree?
    ensures Smooth(so, origin, first, Next(so, s, e), h.spawned, live)
  {
    hide AllPlanned, SimulatedEdge, Children;
    PlansFromFront(so, origin, first, s, h, live);
    var front := Front(origin, h.spawned);
    PlanRefusedIff(front, so.windowSize, so.campaignMaxWindows, so.authorizedFinalBlock, s.nextNumber);
    if PlanFor(so, front, s.nextNumber).Child? {
      NextChildIsPlanned(so, origin, first, h.spawned);
    }
  }

  /** The cursor planned from is the front, in execution and in a dry run. */
  lemma PlansFromFront(so: SupervisorOptions, origin: Cursor, first: nat, s: State, h: History, live: Cursor)
    requires Acceptable(so) && s.phase.AwaitDrift?
    requires Inv(so, s, h) && Smooth(so, origin, first, s, h.spawned, live)
    ensures PlanningCursor(so, s, live) == Front(origin, h.spawned)
    ensures s.nextNumber == first + |h.spawned|
    ensures h.spawned != [] ==> Front(origin, h.spawned).toBlock != so.authorizedFinalBlock
  {
    hide AllPlanned, SimulatedEdge, OnCourse, PlanFor;
  }

  /** The next child of the plan, with its well-formed id. */
  lemma NextChildIsPlanned(so: SupervisorOptions, origin: Cursor, first: nat, spawned: seq<ChildPlan>)
    requires Acceptable(so) && IdsFit(so, origin, first) && OnCourse(so, origin, first, spawned)
    requires PlanFor(so, Front(origin, spawned), first + |spawned|).Child?
    ensures var plan := PlanFor(so, Front(origin, spawned), first + |spawned|).plan;
      && plan.number == first + |spawned|
      && Campaign.ValidCampaignId(ChildCampaignId(so.campaignIdPrefix, plan.number))
      && OnCourse(so, origin, first, spawned + [plan])
      && Front(origin, spawned + [plan]) == Cursor(plan.anchorFrom, plan.finalBlock)
      && plan.anchorFrom == origin.fromBlock
  {
    hide Campaign.ValidCampaignId;
    var front, number := Front(origin, spawned), first + |spawned|;
    var plan := PlanFor(so, front, number).plan;
    var next := Cursor(front.fromBlock, plan.finalBlock);
    assert Children(so, front, number) == [plan] + Children(so, next, number + 1);
    assert (spawned + [plan]) + Children(so, next, number + 1) == spawned + Children(so, front, number);
    assert Children(so, origin, first)[|spawned|] == plan;
    StaysReachable(so, front, number);
  }

  lemma StaysReachable(so: SupervisorOptions, cursor: Cursor, number: nat)
    requires Acceptable(so) && Reachable(so, cursor) && PlanFor(so, cursor, number).Child?
    ensures Reachable(so, Cursor(cursor.fromBlock, PlanFor(so, cursor, number).plan.finalBlock))
  {
    var plan := PlanFor(so, cursor, number).plan;
    assert plan.finalBlock == cursor.toBlock + Campaign.REQUIRED_WINDOW_SIZE * plan.maxWindows;
  }

  lemma SmoothSpawn(so: SupervisorOptions, origin: Cursor, first: nat, s: State, h: History, live: Cursor, e: Event)
    requires Acceptable(so) && IdsFit(so, origin, first) && s.phase.AwaitSpawn?
    requires Inv(so, s, h) && Smooth(so, origin, first, s, h.spawned, live) && Favourable(so, s, live, first, e)
    ensures Smooth(so, origin, first, Next(so, s, e), Observe(h, e).spawned, Moved(so, live, e))
      || Next(so, s, e).phase == Stuck
  {
    hide Inv, Children, PlanFor, CleanResult, OnCourse, IdsFit;
    NextChildIsPlanned(so, origin, first, h.spawned);
  }

  lemma SmoothCursorAfter(
      so: SupervisorOptions, origin: Cursor, first: nat, s: State, h: History, live: Cursor, e: Event)
    requires Acceptable(so) && s.phase.AwaitCursorAfter?
    requires Inv(so, s, h) && Smooth(so, origin, first, s, h.spawned, live) && Favourable(so, s, live, first, e)
    ensures Smooth(so, origin, first, Next(so, s, e), Observe(h, e).spawned, Moved(so, live, e))
      || Next(so, s, e).phase == Stuck
  {
    hide Inv, PlanFor, CleanResult, OnCourse, PriorOperationClean;
  }

  lemma SmoothOther(so: SupervisorOptions, origin: Cursor, first: nat, s: State, h: History, live: Cursor, e: Event)
    requires Acceptable(so) && !s.phase.AwaitDrift? && !s.phase.AwaitSpawn? && !s.phase.AwaitCursorAfter?
    requires Smooth(so, origin, first, s, h.spawned, live) && Favourable(so, s, live, first, e)
    ensures Smooth(so, origin, first, Next(so, s, e), Observe(h, e).spawned, Moved(so, live, e))
      || Next(so, s, e).phase == Stuck
  {
    hide Inv, PlanFor, CleanResult, OnCourse, PriorOperationClean, NextDrift, AfterSpawn, AfterChildCursor;
  }

  lemma {:induction false} StaysSmooth(so: SupervisorOptions, origin: Cursor, first: nat, log: seq<Event>)
    requires Acceptable(so) && Reachable(so, origin) && IdsFit(so, origin, first)
    requires FavourableRun(so, origin, first, log)
    ensures Replay(so, log).phase == Stuck
      || Smooth(so, origin, first, Replay(so, log), HistoryOf(log).spawned, CursorIn(so, origin, log))
  {
    hide Next, Inv, Smooth, IdsFit, Favourable;
    if log == [] {
      SmoothStart(so, origin, first);
    } else {
      var before, e := log[..|log| - 1], log[|log| - 1];
      var s, h, live := Replay(so, before), HistoryOf(before), CursorIn(so, origin, before);
      StaysSmooth(so, origin, first, before);
      EveryRun(so, before);
      if s.phase == Stuck {
        StuckStays(so, s, e);
      } else if s.phase.AwaitDrift? {
        if e.Health? || e.GitHead? || e.WorkingTree? {
          SmoothDrift(so, origin, first, s, h, live, e);
        } else {
          DriftRejects(so, s, e);
        }
      } else if s.phase.AwaitSpawn? {
        SmoothSpawn(so, origin, first, s, h, live, e);
      } else if s.phase.AwaitCursorAfter? {
        SmoothCursorAfter(so, origin, first, s, h, live, e);
      } else {
        SmoothOther(so, origin, first, s, h, live, e);
      }
    }
  }

  lemma SmoothStart(so: SupervisorOptions, origin: Cursor, first: nat)
    requires Acceptable(so) && Reachable(so, origin)
    ensures Smooth(so, origin, first, INIT, [], origin)
  {
  }

  lemma DriftRejects(so: SupervisorOptions, s: State, e: Event)
    requires Acceptable(so) && s.phase.AwaitDrift? && !e.Health? && !e.GitHead? && !e.WorkingTree?
    ensures Next(so, s, e).phase == Stuck
  {
  }

  /** Undisturbed supervision succeeds: it ends for no other reason than the target,
      having spawned exactly the children that tile the span from the initial cursor,
      as many as the remaining windows divided by the child limit, rounded up. */
  lemma UndisturbedSupervisionReachesTheTarget(
      so: SupervisorOptions, origin: Cursor, first: nat, log: seq<Event>, summary: Summary)
    requires Acceptable(so) && Reachable(so, origin) && IdsFit(so, origin, first)
    requires FavourableRun(so, origin, first, log) && Finished(so, log, summary)
    ensures var plans := HistoryOf(log).spawned;
      && plans == HistoryOf(log).succeeded == Children(so, origin, first)
      && Tiles(plans, origin.toBlock, so.authorizedFinalBlock)
      && summary.childrenCompleted == |plans| == Arithmetic.CeilDiv(RemainingWindows(so, origin), so.campaignMaxWindows)
      && summary.reason == (if origin.toBlock == so.authorizedFinalBlock then AuthorizedFinalBlockAlreadyReached
                            else AuthorizedFinalBlockReached)
      && (so.execute ==> CursorIn(so, origin, log).toBlock == so.authorizedFinalBlock)
  {
    hide Replay, HistoryOf, CursorIn, FavourableRun, IdsFit, Inv, Tiles, Arithmetic.CeilDiv, Children, PlanFor;
    StaysSmooth(so, origin, first, log);
    EveryRun(so, log);
    var s, h := Replay(so, log), HistoryOf(log);
    ChildrenTile(so, origin, first);
    if origin.toBlock == so.authorizedFinalBlock {
      TargetEndsChildren(so, origin, first);
    }
    if summary.reason.AuthorizedFinalBlockReached? {
      ReachedMeansAtTarget(so, s, h);
      FrontAtTarget(so, origin, h.spawned);
      TargetEndsChildren(so, Front(origin, h.spawned), first + |h.spawned|);
    } else {
      AlreadyReachedMeansNothingSpawned(so, s, h);
    }
  }

  lemma FrontAtTarget(so: SupervisorOptions, origin: Cursor, spawned: seq<ChildPlan>)
    requires spawned != [] && spawned[|spawned| - 1].finalBlock == so.authorizedFinalBlock
    ensures Front(origin, spawned).toBlock == so.authorizedFinalBlock
  {
  }

  lemma TargetEndsChildren(so: SupervisorOptions, cursor: Cursor, number: nat)
    requires Acceptable(so) && cursor.toBlock == so.authorizedFinalBlock
    ensures Children(so, cursor, number) == []
  {
  }

  lemma AlreadyReachedMeansNothingSpawned(so: SupervisorOptions, s: State, h: History)
    requires Acceptable(so) && Inv(so, s, h) && s.phase.Ended?
    requires s.phase.summary.reason.AuthorizedFinalBlockAlreadyReached?
    ensures s.phase.summary.childrenCompleted == |h.spawned|
    ensures h.succeeded == h.spawned
  {
    hide AllPlanned, SimulatedEdge;
  }
}
