/** A supervisor together with the child campaigns behind its spawns: every answer of a
    child process is the report of a finished campaign run with the options of its plan. */
module JointRuns {
  import opened Base
  import opened SyncPrimitives
  import opened CampaignPlan
  import opened SupervisorPlan
  import opened SupervisorTheorems
  import opened SupervisorProgress
  import opened SupervisorMachine
  import Child = CampaignMachine
  import ChildSafety = CampaignSafety
  import ChildTheorems = CampaignTheorems
  import ChildPreview = CampaignPreview
  import Composition
  import ChildLabels
  import Arithmetic

  datatype ChildRun = ChildRun(log: seq<Child.Event>, summary: Child.Summary)

  /** The answer of a child process reports a finished run with the options of its plan. */
  predicate Faithful(so: SupervisorOptions, plan: ChildPlan, result: Reply<ChildResult>, run: ChildRun) {
    && Child.Usable(ChildOptions(so, plan))
    && ChildTheorems.Finished(ChildOptions(so, plan), run.log, run.summary)
    && result == Got(Composition.Reported(run.summary))
  }

  /** Behind every spawn of the log stands a child run, in order. */
  predicate Backed(so: SupervisorOptions, log: seq<Event>, runs: seq<ChildRun>) {
    if log == [] then runs == []
    else
      match log[|log| - 1]
      case Spawn(plan, result) =>
        && runs != []
        && Faithful(so, plan, result, runs[|runs| - 1])
        && Backed(so, log[..|log| - 1], runs[..|runs| - 1])
      case _ => Backed(so, log[..|log| - 1], runs)
  }

  lemma {:induction false} BackedInOrder(so: SupervisorOptions, log: seq<Event>, runs: seq<ChildRun>)
    requires Backed(so, log, runs)
    ensures |runs| == |HistoryOf(log).spawned|
    ensures forall k :: 0 <= k < |runs| ==>
      && Child.Usable(ChildOptions(so, HistoryOf(log).spawned[k]))
      && ChildTheorems.Finished(ChildOptions(so, HistoryOf(log).spawned[k]), runs[k].log, runs[k].summary)
  {
    hide Child.Usable, ChildTheorems.Finished;
    if log != [] {
      match log[|log| - 1]
      case Spawn(_, _) => BackedInOrder(so, log[..|log| - 1], runs[..|runs| - 1]);
      case _ => BackedInOrder(so, log[..|log| - 1], runs);
    }
  }

  // ----- successful children are clean

  predicate CleanAnswer(so: SupervisorOptions, plan: ChildPlan, result: Reply<ChildResult>) {
    result.Got? && CleanResult(result.value, so.execute, plan.maxWindows)
  }

  /** The runs of the children counted so far ended cleanly, and so did that of a child
      whose cursor is being verified. */
  predicate CleanSoFar(s: State, runs: seq<ChildRun>) {
    && s.completed <= |runs|
    && (forall k :: 0 <= k < s.completed ==> runs[k].summary.reason.Clean())
    && (s.phase.AwaitCursorAfter? || s.phase.AwaitSuccessRecord? ==>
          |runs| == s.completed + 1 && runs[s.completed].summary.reason.Clean())
  }

  lemma CleanStep(so: SupervisorOptions, s: State, h: History, runs: seq<ChildRun>, e: Event)
    requires Acceptable(so) && Inv(so, s, h) && CleanSoFar(s, runs) && |runs| == |h.spawned| && !e.Spawn?
    ensures CleanSoFar(Next(so, s, e), runs) || Next(so, s, e).phase == Stuck
  {
    hide PlanFor, PriorOperationClean, CleanResult, CursorAfterChild, Planned, AllPlanned, SimulatedEdge, NextStart,
      NextDrift;
    if s.phase.Starting? {
      StartKeepsCounts(so, s, s.phase.start, e);
    } else if s.phase.AwaitDrift? {
      DriftKeepsCounts(so, s, s.phase.cursor, s.phase.drift, e);
    }
  }

  lemma StartKeepsCounts(so: SupervisorOptions, s: State, step: StartStep, e: Event)
    ensures var next := NextStart(so, s, step, e);
      next.completed == s.completed && !next.phase.AwaitCursorAfter? && !next.phase.AwaitSuccessRecord?
  {
    hide ChildLabels.StartingNumber;
  }

  lemma DriftKeepsCounts(so: SupervisorOptions, s: State, live: Cursor, step: DriftStep, e: Event)
    requires Acceptable(so)
    ensures var next := NextDrift(so, s, live, step, e);
      next.completed == s.completed && !next.phase.AwaitCursorAfter? && !next.phase.AwaitSuccessRecord?
  {
    hide PlanFor, ValidCampaignId;
  }

  lemma CleanSpawn(
      so: SupervisorOptions, s: State, h: History, runs: seq<ChildRun>, plan: ChildPlan, result: Reply<ChildResult>,
      run: ChildRun)
    requires Acceptable(so) && Inv(so, s, h) && CleanSoFar(s, runs) && |runs| == |h.spawned|
    requires result == Got(Composition.Reported(run.summary))
    ensures CleanSoFar(Next(so, s, Spawn(plan, result)), runs + [run])
      || Next(so, s, Spawn(plan, result)).phase == Stuck
  {
    hide PlanFor, PriorOperationClean, CursorAfterChild, Planned, AllPlanned, SimulatedEdge;
  }

  lemma {:induction false} CountedRunsAreClean(so: SupervisorOptions, log: seq<Event>, runs: seq<ChildRun>)
    requires Acceptable(so) && Backed(so, log, runs)
    ensures CleanSoFar(Replay(so, log), runs) || Replay(so, log).phase == Stuck
  {
    hide Next, Inv, CleanSoFar, Child.Usable, ChildTheorems.Finished;
    if log == [] {
      assert CleanSoFar(INIT, []) by { NothingCounted(); }
    } else {
      var front, e := log[..|log| - 1], log[|log| - 1];
      var s, h := Replay(so, front), HistoryOf(front);
      EveryRun(so, front);
      StuckStays(so, s, e);
      match e
      case Spawn(plan, result) =>
        var before, run := runs[..|runs| - 1], runs[|runs| - 1];
        CountedRunsAreClean(so, front, before);
        BackedInOrder(so, front, before);
        if s.phase != Stuck {
          CleanSpawn(so, s, h, before, plan, result, run);
          assert before + [run] == runs;
        }
      case _ =>
        CountedRunsAreClean(so, front, runs);
        BackedInOrder(so, front, runs);
        if s.phase != Stuck {
          CleanStep(so, s, h, runs, e);
        }
    }
  }

  lemma NothingCounted()
    ensures CleanSoFar(INIT, [])
  {
  }

  // ----- all submissions of all children

  /** The ordinary submissions of the children, one child after the other. */
  function AllPosts(runs: seq<ChildRun>): seq<WindowPlan> {
    if runs == [] then [] else ChildSafety.HistoryOf(runs[0].log).posts + AllPosts(runs[1..])
  }

  /** Thousand-block windows, without gap or overlap, from the block after the edge. */
  predicate OnGrid(posts: seq<WindowPlan>, edge: int) {
    forall i :: 0 <= i < |posts| ==>
      && posts[i].request.startBlock == edge + 1 + REQUIRED_WINDOW_SIZE * i
      && posts[i].request.endBlock == edge + REQUIRED_WINDOW_SIZE * i + REQUIRED_WINDOW_SIZE
  }

  predicate Distinct(posts: seq<WindowPlan>) {
    forall i, j :: 0 <= i < j < |posts| ==> posts[i].request.policyLabel != posts[j].request.policyLabel
  }

  ghost predicate OfChild(so: SupervisorOptions, text: string, number: nat) {
    exists child: nat, window: nat :: child >= number
      && text == ChildLabels.ChildWindowLabel(so.policyLabelPrefix, so.campaignIdPrefix, child, window)
  }

  /** Every label is that of a window of a child numbered from here upward. */
  ghost predicate OfChildren(so: SupervisorOptions, posts: seq<WindowPlan>, number: nat) {
    forall i :: 0 <= i < |posts| ==> OfChild(so, posts[i].request.policyLabel, number)
  }

  /** Every child submitted exactly the windows of its plan. */
  predicate AllComplete(so: SupervisorOptions, plans: seq<ChildPlan>, runs: seq<ChildRun>) {
    && |plans| == |runs|
    && forall k :: 0 <= k < |plans| ==>
         plans[k].maxWindows >= 1
         && ChildSafety.HistoryOf(runs[k].log).posts == IntendedWindows(ChildOptions(so, plans[k]), plans[k].maxWindows)
  }

  lemma GridConcat(a: seq<WindowPlan>, b: seq<WindowPlan>, edge: int)
    requires OnGrid(a, edge) && OnGrid(b, edge + REQUIRED_WINDOW_SIZE * |a|)
    ensures OnGrid(a + b, edge)
  {
  }

  /** The windows of one child lie on the grid from the cursor it was planned from, and
      their labels are those of its own windows, all distinct. */
  lemma ChildOnGrid(so: SupervisorOptions, plan: ChildPlan)
    requires plan.maxWindows >= 0 && plan.firstWindowStart == plan.cursorTo + 1
    ensures var ws := IntendedWindows(ChildOptions(so, plan), plan.maxWindows);
      && OnGrid(ws, plan.cursorTo) && Distinct(ws)
      && forall i :: 0 <= i < |ws| ==>
           ws[i].request.policyLabel
             == ChildLabels.ChildWindowLabel(so.policyLabelPrefix, so.campaignIdPrefix, plan.number, i + 1)
  {
    var o := ChildOptions(so, plan);
    var ws := IntendedWindows(o, plan.maxWindows);
    forall i, j | 0 <= i < j < |ws| ensures ws[i].request.policyLabel != ws[j].request.policyLabel {
      ChildTheorems.IntentsAreLabelledApart(o, i, j);
    }
  }

  /** The windows of a child and those of later children carry distinct labels. */
  lemma LabelsConcat(so: SupervisorOptions, a: seq<WindowPlan>, b: seq<WindowPlan>, number: nat)
    requires Distinct(a) && Distinct(b) && OfChildren(so, b, number + 1)
    requires forall i :: 0 <= i < |a| ==>
      a[i].request.policyLabel == ChildLabels.ChildWindowLabel(so.policyLabelPrefix, so.campaignIdPrefix, number, i + 1)
    ensures Distinct(a + b) && OfChildren(so, a + b, number)
  {
    hide ChildLabels.ChildWindowLabel;
    var c := a + b;
    forall i, j | 0 <= i < j < |c| ensures c[i].request.policyLabel != c[j].request.policyLabel {
      if i < |a| <= j {
        assert OfChild(so, b[j - |a|].request.policyLabel, number + 1);
        var child: nat, window: nat :| child >= number + 1 && b[j - |a|].request.policyLabel
          == ChildLabels.ChildWindowLabel(so.policyLabelPrefix, so.campaignIdPrefix, child, window);
        if c[i].request.policyLabel == c[j].request.policyLabel {
          ChildLabels.LabelsAreInjective(so.policyLabelPrefix, so.campaignIdPrefix, number, i + 1, child, window);
        }
      }
    }
    forall i | 0 <= i < |c| ensures OfChild(so, c[i].request.policyLabel, number) {
      if i >= |a| {
        assert OfChild(so, b[i - |a|].request.policyLabel, number + 1);
      }
    }
  }

  lemma {:induction false} CompleteChildrenTile(
      so: SupervisorOptions, plans: seq<ChildPlan>, runs: seq<ChildRun>, edge: int, final: int, number: nat)
    requires Tiles(plans, edge, final) && AllComplete(so, plans, runs)
    requires forall k :: 0 <= k < |plans| ==>
      plans[k].number == number + k && plans[k].firstWindowStart == plans[k].cursorTo + 1
    ensures OnGrid(AllPosts(runs), edge) && REQUIRED_WINDOW_SIZE * |AllPosts(runs)| == final - edge
    ensures Distinct(AllPosts(runs)) && OfChildren(so, AllPosts(runs), number)
    decreases |plans|
  {
    hide IntendedWindows, OnGrid, Distinct, OfChildren, ChildSafety.HistoryOf, ChildOptions;
    if plans == [] {
      NoPosts(so, edge, number);
    } else {
      var plan := plans[0];
      var own, rest := IntendedWindows(ChildOptions(so, plan), plan.maxWindows), AllPosts(runs[1..]);
      assert forall k :: 0 <= k < |plans[1..]| ==> plans[1..][k] == plans[k + 1] && runs[1..][k] == runs[k + 1];
      CompleteChildrenTile(so, plans[1..], runs[1..], plan.finalBlock, final, number + 1);
      ChildOnGrid(so, plan);
      GridConcat(own, rest, edge);
      LabelsConcat(so, own, rest, number);
      assert AllPosts(runs) == own + rest;
    }
  }

  lemma NoPosts(so: SupervisorOptions, edge: int, number: nat)
    ensures OnGrid([], edge) && Distinct([]) && OfChildren(so, [], number)
  {
  }

  // ----- execution: the children's submissions tile the span

  /** What the children behind an executed supervision have submitted. */
  ghost predicate SpanSubmitted(so: SupervisorOptions, posts: seq<WindowPlan>, edge: int, first: nat) {
    && OnGrid(posts, edge) && REQUIRED_WINDOW_SIZE * |posts| == so.authorizedFinalBlock - edge
    && Distinct(posts) && OfChildren(so, posts, first)
  }

  lemma CleanChildIsComplete(so: SupervisorOptions, plan: ChildPlan, run: ChildRun)
    requires Acceptable(so) && so.execute && Planned(so, plan)
    requires Child.Usable(ChildOptions(so, plan))
    requires ChildTheorems.Finished(ChildOptions(so, plan), run.log, run.summary) && run.summary.reason.Clean()
    ensures plan.maxWindows >= 1
    ensures ChildSafety.HistoryOf(run.log).posts == IntendedWindows(ChildOptions(so, plan), plan.maxWindows)
  {
    hide Child.Replay, ChildSafety.HistoryOf, CheckOptions, IntendedWindows, Composition.LastCursor, CleanResult;
    Composition.ChildVerifiedIffClean(so, StartOf(plan), plan.number, run.log, run.summary);
    PlanPassesChildGates(so, StartOf(plan), plan.number);
  }

  lemma PlannedShape(so: SupervisorOptions, plan: ChildPlan)
    requires Acceptable(so) && Planned(so, plan)
    ensures plan.firstWindowStart == plan.cursorTo + 1
  {
  }

  /** If every child counted as successful and their plans tile the span, all blocks of
      the span have been submitted. */
  lemma CountedChildrenTile(so: SupervisorOptions, log: seq<Event>, runs: seq<ChildRun>, edge: int)
    requires Acceptable(so) && so.execute && Follows(so, log) && Backed(so, log, runs)
    requires Replay(so, log).completed == |HistoryOf(log).spawned|
    requires Tiles(HistoryOf(log).spawned, edge, so.authorizedFinalBlock)
    ensures SpanSubmitted(so, AllPosts(runs), edge, Replay(so, log).firstNumber)
  {
    hide Replay, HistoryOf, Child.Usable, ChildTheorems.Finished, Planned, Tiles, AllPosts, Backed, OnGrid, Distinct,
      OfChildren, CheckOptions, IntendedWindows, ChildSafety.HistoryOf;
    var plans, first := HistoryOf(log).spawned, Replay(so, log).firstNumber;
    BackedInOrder(so, log, runs);
    CountedRunsAreClean(so, log, runs);
    SpawnedChildrenAreBounded(so, log);
    forall k | 0 <= k < |plans|
      ensures plans[k].maxWindows >= 1 && plans[k].firstWindowStart == plans[k].cursorTo + 1
      ensures ChildSafety.HistoryOf(runs[k].log).posts
        == IntendedWindows(ChildOptions(so, plans[k]), plans[k].maxWindows)
    {
      CleanChildIsComplete(so, plans[k], runs[k]);
      PlannedShape(so, plans[k]);
    }
    CompleteChildrenTile(so, plans, runs, edge, so.authorizedFinalBlock, first);
  }

  /** An executed supervision that reports the target as reached, with real children and
      nothing else moving the cursor between them: the submissions of all children
      together are exactly the thousand-block windows from the first cursor to the target,
      in order, with pairwise distinct labels, none of them among those read at the start. */
  lemma ReachedMeansSubmitted(so: SupervisorOptions, log: seq<Event>, summary: Summary, runs: seq<ChildRun>)
    requires Acceptable(so) && so.execute && Finished(so, log, summary) && summary.reason.AuthorizedFinalBlockReached?
    requires Chained(HistoryOf(log).spawned) && Backed(so, log, runs)
    ensures HistoryOf(log).spawned != [] && LabelsRead(log).Some?
    ensures SpanSubmitted(so, AllPosts(runs), HistoryOf(log).spawned[0].cursorTo, Replay(so, log).firstNumber)
    ensures forall i :: 0 <= i < |AllPosts(runs)| ==> AllPosts(runs)[i].request.policyLabel !in LabelsRead(log).value
  {
    hide Replay, HistoryOf, Inv, Backed, AllPosts, Tiles, Children, LabelsRead, OnGrid, Distinct, OfChildren;
    UndisturbedRunTilesTheSpan(so, log, summary);
    CompletedWhenReached(so, log, summary);
    CountedChildrenTile(so, log, runs, HistoryOf(log).spawned[0].cursorTo);
    AlwaysNumbered(so, log);
    PostsAreFresh(so, log, AllPosts(runs));
  }

  lemma CompletedWhenReached(so: SupervisorOptions, log: seq<Event>, summary: Summary)
    requires Acceptable(so) && Finished(so, log, summary) && summary.reason.Clean()
    ensures Replay(so, log).completed == summary.childrenCompleted
  {
    EveryRun(so, log);
    hide Replay, HistoryOf, AllPlanned, SimulatedEdge;
  }

  lemma PostsAreFresh(so: SupervisorOptions, log: seq<Event>, posts: seq<WindowPlan>)
    requires Acceptable(so) && Follows(so, log) && LabelsRead(log).Some?
    requires OfChildren(so, posts, Replay(so, log).firstNumber)
    ensures forall i :: 0 <= i < |posts| ==> posts[i].request.policyLabel !in LabelsRead(log).value
  {
    hide Replay, HistoryOf, LabelsRead, ChildLabels.ChildWindowLabel, ChildLabels.StartingNumber, ChildLabels.SafeStart;
    AlwaysNumbered(so, log);
    var labels, first := LabelsRead(log).value, Replay(so, log).firstNumber;
    ChildLabels.StartingNumberIsSafe(labels, so.policyLabelPrefix, so.campaignIdPrefix);
    forall i | 0 <= i < |posts| ensures posts[i].request.policyLabel !in labels {
      assert OfChild(so, posts[i].request.policyLabel, first);
      var child: nat, window: nat :| child >= first && posts[i].request.policyLabel
        == ChildLabels.ChildWindowLabel(so.policyLabelPrefix, so.campaignIdPrefix, child, window);
      ChildLabels.LabelsAreFresh(labels, so.policyLabelPrefix, so.campaignIdPrefix, first, child, window);
    }
  }

  // ----- favourable supervision of favourable children

  /** Every answer but those of the children is favourable. */
  predicate QuietRun(so: SupervisorOptions, origin: Cursor, first: nat, log: seq<Event>)
    requires Acceptable(so)
  {
    log != [] ==>
      && QuietRun(so, origin, first, log[..|log| - 1])
      && (log[|log| - 1].Spawn?
          || Favourable(so, Replay(so, log[..|log| - 1]), CursorIn(so, origin, log[..|log| - 1]), first,
               log[|log| - 1]))
  }

  /** The children fit the live state and none of their own answers is unfavourable. */
  predicate FavourableChildren(so: SupervisorOptions, plans: seq<ChildPlan>, runs: seq<ChildRun>) {
    && |plans| == |runs|
    && forall k :: 0 <= k < |plans| ==> FavourableChild(so, plans[k], runs[k])
  }

  predicate FavourableChild(so: SupervisorOptions, plan: ChildPlan, run: ChildRun) {
    var o := ChildOptions(so, plan);
    Child.Usable(o) && ChildPreview.WellPosed(o) && ChildPreview.FavourableRun(o, run.log)
  }

  lemma FavourableChildIsClean(so: SupervisorOptions, plan: ChildPlan, result: Reply<ChildResult>, run: ChildRun)
    requires Acceptable(so) && Planned(so, plan) && Faithful(so, plan, result, run) && FavourableChild(so, plan, run)
    ensures CleanAnswer(so, plan, result)
  {
    hide Child.Replay, CheckOptions, CleanResult, ChildPreview.WellPosed, ChildPreview.FavourableRun, PlanFor;
    ChildPreview.FavourableRunsEndCleanly(ChildOptions(so, plan), run.log, run.summary);
    assert PlanFor(so, StartOf(plan), plan.number) == Child(plan);
    Composition.ChildVerifiedIffClean(so, StartOf(plan), plan.number, run.log, run.summary);
  }

  /** A quiet supervision of favourable children is favourable as a whole. */
  lemma {:induction false} QuietIsFavourable(
      so: SupervisorOptions, origin: Cursor, first: nat, log: seq<Event>, runs: seq<ChildRun>)
    requires Acceptable(so) && Follows(so, log) && QuietRun(so, origin, first, log)
    requires Backed(so, log, runs) && FavourableChildren(so, HistoryOf(log).spawned, runs)
    ensures FavourableRun(so, origin, first, log)
  {
    hide Next, Favourable, FavourableChild, Faithful, CursorIn, Planned, PlanFor;
    if log != [] {
      var front, e := log[..|log| - 1], log[|log| - 1];
      StuckStays(so, Replay(so, front), e);
      match e
      case Spawn(plan, result) =>
        var before, plans := runs[..|runs| - 1], HistoryOf(log).spawned;
        assert plans == HistoryOf(front).spawned + [plan];
        assert forall k :: 0 <= k < |before| ==> before[k] == runs[k] && HistoryOf(front).spawned[k] == plans[k];
        QuietIsFavourable(so, origin, first, front, before);
        SpawnedChildrenAreBounded(so, log);
        assert plans[|plans| - 1] == plan && Planned(so, plan);
        FavourableChildIsClean(so, plan, result, runs[|runs| - 1]);
        CleanSpawnIsFavourable(so, Replay(so, front), CursorIn(so, origin, front), first, e);
      case _ => QuietIsFavourable(so, origin, first, front, runs);
    }
  }

  lemma CleanSpawnIsFavourable(so: SupervisorOptions, s: State, live: Cursor, first: nat, e: Event)
    requires e.Spawn? && CleanAnswer(so, e.plan, e.result)
    ensures Favourable(so, s, live, first, e)
  {
  }

  /** Executed supervision of favourable children, disturbed by nothing else, ends at the
      target, and the submissions of all children together are exactly the thousand-block
      windows from the initial cursor to the target, in order, with distinct labels. */
  lemma FavourableExecutionSubmitsTheSpan(
      so: SupervisorOptions, origin: Cursor, first: nat, log: seq<Event>, summary: Summary, runs: seq<ChildRun>)
    requires Acceptable(so) && so.execute && Reachable(so, origin) && IdsFit(so, origin, first)
    requires QuietRun(so, origin, first, log) && Finished(so, log, summary)
    requires Backed(so, log, runs) && FavourableChildren(so, HistoryOf(log).spawned, runs)
    ensures origin.toBlock == so.authorizedFinalBlock ==> summary.reason.AuthorizedFinalBlockAlreadyReached?
    ensures origin.toBlock != so.authorizedFinalBlock ==> summary.reason.AuthorizedFinalBlockReached?
    ensures SpanSubmitted(so, AllPosts(runs), origin.toBlock, Replay(so, log).firstNumber)
    ensures |runs| == Arithmetic.CeilDiv(RemainingWindows(so, origin), so.campaignMaxWindows)
  {
    hide Replay, HistoryOf, Inv, Backed, AllPosts, Tiles, Children, SpanSubmitted, FavourableRun, QuietRun, IdsFit,
      CursorIn, FavourableChildren;
    QuietIsFavourable(so, origin, first, log, runs);
    UndisturbedSupervisionReachesTheTarget(so, origin, first, log, summary);
    CompletedWhenReached(so, log, summary);
    BackedInOrder(so, log, runs);
    CountedChildrenTile(so, log, runs, origin.toBlock);
  }

  // ----- dry runs

  /** Each child is well posed, every reading of the cursor shows the live one, and
      everything else goes well. */
  predicate LiveChildren(so: SupervisorOptions, live: Cursor, plans: seq<ChildPlan>, runs: seq<ChildRun>) {
    && |plans| == |runs|
    && forall k :: 0 <= k < |plans| ==> LiveChild(so, live, plans[k], runs[k])
  }

  predicate LiveChild(so: SupervisorOptions, live: Cursor, plan: ChildPlan, run: ChildRun) {
    var o := ChildOptions(so, plan);
    Child.Usable(o) && ChildPreview.WellPosed(o) && Composition.LiveRun(o, live, run.log)
  }

  lemma LiveChildIsCleanIff(so: SupervisorOptions, live: Cursor, plan: ChildPlan, run: ChildRun)
    requires Acceptable(so) && !so.execute && Planned(so, plan) && LiveChild(so, live, plan, run)
    requires ChildTheorems.Finished(ChildOptions(so, plan), run.log, run.summary)
    ensures CleanResult(Composition.Reported(run.summary), so.execute, plan.maxWindows) <==> live == StartOf(plan)
    ensures run.summary.reason.Clean() <==> live == StartOf(plan)
  {
    hide Child.Replay, CheckOptions, CleanResult, ChildPreview.WellPosed, Composition.LiveRun, PlanFor;
    assert PlanFor(so, StartOf(plan), plan.number) == Child(plan);
    Composition.DryChildVerifiedIffPlannedFromLiveCursor(so, StartOf(plan), plan.number, live, run.log, run.summary);
    Composition.ChildVerifiedIffClean(so, StartOf(plan), plan.number, run.log, run.summary);
  }

  /** While one child suffices, a quiet dry supervision of live children is favourable:
      its only child is planned from the live cursor. */
  lemma {:induction false} OneDryChildIsFavourable(
      so: SupervisorOptions, live: Cursor, first: nat, log: seq<Event>, runs: seq<ChildRun>)
    requires Acceptable(so) && !so.execute && Reachable(so, live) && IdsFit(so, live, first)
    requires |Children(so, live, first)| == 1
    requires Follows(so, log) && QuietRun(so, live, first, log)
    requires Backed(so, log, runs) && LiveChildren(so, live, HistoryOf(log).spawned, runs)
    ensures FavourableRun(so, live, first, log)
  {
    hide Next, Favourable, LiveChild, CursorIn, Planned, PlanFor, IdsFit, Children, Child.Usable,
      ChildTheorems.Finished;
    if log != [] {
      var front, e := log[..|log| - 1], log[|log| - 1];
      StuckStays(so, Replay(so, front), e);
      match e
      case Spawn(plan, result) =>
        var before, plans := runs[..|runs| - 1], HistoryOf(log).spawned;
        assert plans == HistoryOf(front).spawned + [plan];
        assert forall k :: 0 <= k < |before| ==> before[k] == runs[k] && HistoryOf(front).spawned[k] == plans[k];
        OneDryChildIsFavourable(so, live, first, front, before);
        StaysSmooth(so, live, first, front);
        OnlyChildStartsLive(so, live, first, Replay(so, front), HistoryOf(front).spawned, CursorIn(so, live, front), e);
        SpawnedChildrenAreBounded(so, log);
        assert plans[|plans| - 1] == plan && Planned(so, plan);
        LiveChildIsCleanIff(so, live, plan, runs[|runs| - 1]);
        CleanSpawnIsFavourable(so, Replay(so, front), CursorIn(so, live, front), first, e);
      case _ => OneDryChildIsFavourable(so, live, first, front, runs);
    }
  }

  lemma OnlyChildStartsLive(
      so: SupervisorOptions, live: Cursor, first: nat, s: State, spawned: seq<ChildPlan>, cursor: Cursor, e: Event)
    requires Acceptable(so) && Smooth(so, live, first, s, spawned, cursor) && |Children(so, live, first)| == 1
    requires e.Spawn? && Next(so, s, e).phase != Stuck
    ensures StartOf(e.plan) == live
  {
    hide PriorOperationClean, CleanResult, CursorAfterChild;
    var front := Front(live, spawned);
    assert Children(so, front, first + |spawned|) != [];
    assert spawned == [];
  }

  /** A dry supervision with real children that see the live cursor throughout, disturbed
      by nothing else and with blocks left to plan, reaches the target exactly if one
      child covers them all. */
  lemma DrySupervisionReachesIffOneChild(
      so: SupervisorOptions, live: Cursor, first: nat, log: seq<Event>, summary: Summary, runs: seq<ChildRun>)
    requires Acceptable(so) && !so.execute && Reachable(so, live) && live.toBlock < so.authorizedFinalBlock
    requires IdsFit(so, live, first)
    requires QuietRun(so, live, first, log) && Finished(so, log, summary)
    requires Backed(so, log, runs) && LiveChildren(so, live, HistoryOf(log).spawned, runs)
    ensures summary.reason.AuthorizedFinalBlockReached? <==> RemainingWindows(so, live) <= so.campaignMaxWindows
  {
    hide Replay, HistoryOf, Inv, Backed, Tiles, Children, FavourableRun, QuietRun, IdsFit, CursorIn, LiveChildren,
      RemainingWindows;
    Composition.DryRunSpansOneChild(so, live, first);
    if RemainingWindows(so, live) <= so.campaignMaxWindows {
      OneDryChildIsFavourable(so, live, first, log, runs);
      UndisturbedSupervisionReachesTheTarget(so, live, first, log, summary);
    }
    if summary.reason.AuthorizedFinalBlockReached? {
      ReachedByOneDryChild(so, live, log, summary, runs);
    }
  }

  /** A dry run that reached the target spawned one child, planned from the live cursor:
      a second one would have been planned from a simulated cursor and not been verified. */
  lemma ReachedByOneDryChild(
      so: SupervisorOptions, live: Cursor, log: seq<Event>, summary: Summary, runs: seq<ChildRun>)
    requires Acceptable(so) && !so.execute && Finished(so, log, summary) && summary.reason.AuthorizedFinalBlockReached?
    requires Reachable(so, live)
    requires Backed(so, log, runs) && LiveChildren(so, live, HistoryOf(log).spawned, runs)
    ensures |runs| == 1 && StartOf(HistoryOf(log).spawned[0]) == live
    ensures RemainingWindows(so, live) <= so.campaignMaxWindows
  {
    hide Replay, HistoryOf, Inv, Backed, Planned, LiveChild, RemainingWindows, PlanFor, Reachable, Child.Usable,
      ChildTheorems.Finished;
    var plans := HistoryOf(log).spawned;
    EveryRun(so, log);
    ReachedMeansAtTarget(so, Replay(so, log), HistoryOf(log));
    CompletedWhenReached(so, log, summary);
    CountedRunsAreClean(so, log, runs);
    BackedInOrder(so, log, runs);
    SpawnedChildrenAreBounded(so, log);
    LiveChildIsCleanIff(so, live, plans[0], runs[0]);
    PlansMoveOn(so, plans[0]);
    if |plans| > 1 {
      assert plans[1].cursorTo == plans[0].finalBlock;
      LiveChildIsCleanIff(so, live, plans[1], runs[1]);
    }
    OneChildSpans(so, live, plans[0]);
  }

  lemma PlansMoveOn(so: SupervisorOptions, plan: ChildPlan)
    requires Acceptable(so) && Planned(so, plan)
    ensures plan.finalBlock > plan.cursorTo
  {
    PlanPassesChildGates(so, StartOf(plan), plan.number);
  }

  lemma OneChildSpans(so: SupervisorOptions, live: Cursor, plan: ChildPlan)
    requires Acceptable(so) && Reachable(so, live) && Planned(so, plan) && StartOf(plan) == live
    requires plan.finalBlock == so.authorizedFinalBlock
    ensures RemainingWindows(so, live) <= so.campaignMaxWindows
  {
  }
}
