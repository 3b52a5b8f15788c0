/** Favourable supervisions exist: from every favourable log that has not ended the next
    interaction can be answered favourably, and by giving such answers every supervision
    ends. With real children behind the spawns, this makes the theorems about a supervisor
    and its children theorems about something. */
module SupervisorLiveness {
  import opened Base
  import opened SyncPrimitives
  import opened SupervisorPlan
  import opened SupervisorMachine
  import opened SupervisorTheorems
  import opened SupervisorProgress
  import opened JointRuns
  import Campaign = CampaignPlan
  import Child = CampaignMachine
  import ChildTheorems = CampaignTheorems
  import ChildPreview = CampaignPreview
  import CampaignLiveness
  import Composition
  import ChildLabels
  import Decimal

  // ----- a favourable answer for every interaction

  /** Labels from which a supervisor numbers its first child as wanted. */
  function StartLabels(so: SupervisorOptions, first: nat): seq<string>
    requires first >= 1
  {
    if first == 1 then [] else [ChildLabels.ChildWindowLabel(so.policyLabelPrefix, so.campaignIdPrefix, first - 1, 1)]
  }

  lemma StartLabelsNumber(so: SupervisorOptions, first: nat)
    requires first >= 1
    ensures ChildLabels.StartingNumber(StartLabels(so, first), so.policyLabelPrefix, so.campaignIdPrefix) == first
  {
    hide ChildLabels.ChildDigits, ChildLabels.LabelStem, ChildLabels.ChildWindowLabel;
    if first > 1 {
      var labels, number, window := StartLabels(so, first), Decimal.Print(first - 1), Decimal.Print(1);
      ChildLabels.LabelSplit(so.policyLabelPrefix, so.campaignIdPrefix, first - 1, 1);
      ChildLabels.MatchIsFound(so.policyLabelPrefix, so.campaignIdPrefix, number, window);
      Decimal.ReadPrint(first - 1);
      assert labels[..|labels| - 1] == [];
      assert ChildLabels.LargestNumber([], so.policyLabelPrefix, so.campaignIdPrefix) == 0;
    }
  }

  /** A persisted operation that ended cleanly at a block. */
  function CleanOperation(endBlock: int): SyncRun {
    CampaignLiveness.CleanRun("run", Expectation("", 0, Request(0, endBlock, "")))
  }

  /** A good answer; the k-th child spawned is answered by the k-th result. */
  function GoodAnswer(
      so: SupervisorOptions, first: nat, results: seq<ChildResult>, s: State, spawned: nat, live: Cursor): Event
    requires first >= 1
  {
    match s.phase
    case Starting(AwaitHead) => GitHead(Got(""))
    case Starting(AwaitTree) => WorkingTree(Got(true))
    case Starting(AwaitBaseline) => Health(true, Some(""))
    case Starting(AwaitWallet) => WalletLookup(Got(Some("")))
    case Starting(AwaitNumbering) => LabelList(Got(StartLabels(so, first)))
    case Starting(AwaitStartRecord) => Write(SupervisorStart(s.nextNumber), true)
    case AwaitInterrupt => InterruptCheck(false)
    case AwaitCursor => CursorRead(Got(Some(live)))
    case AwaitDrift(_, DriftHead) => GitHead(Got(s.head))
    case AwaitDrift(_, DriftTree(_)) => WorkingTree(Got(true))
    case AwaitDrift(_, DriftHealth) => Health(true, Some(s.appEnv))
    case AwaitTerminalRuns(cursor) => TerminalRuns(cursor.toBlock, Got([CleanOperation(cursor.toBlock)]))
    case AwaitAlreadyRecord => Write(SupervisorSummary(SummaryOf(s, AuthorizedFinalBlockAlreadyReached)), true)
    case AwaitChildStart(_, plan) => Write(ChildStart(plan), true)
    case AwaitSpawn(_, plan) => if spawned < |results| then Spawn(plan, Got(results[spawned])) else Spawn(plan, Threw)
    case AwaitCursorAfter(_, _) => CursorRead(Got(Some(live)))
    case AwaitSuccessRecord(plan) => Write(ChildSuccess(plan), true)
    case AwaitFinalRecord => Write(SupervisorSummary(SummaryOf(s, AuthorizedFinalBlockReached)), true)
    case _ => InterruptCheck(false)
  }

  /** Every result is one with which its child passes verification. */
  predicate CleanResults(so: SupervisorOptions, plans: seq<ChildPlan>, results: seq<ChildResult>) {
    && |results| <= |plans|
    && forall k :: 0 <= k < |results| ==> CleanResult(results[k], so.execute, plans[k].maxWindows)
  }

  // ----- progress

  function Rank(phase: Phase): nat {
    match phase
    case Starting(step) =>
      (match step
       case AwaitHead => 19 case AwaitTree => 18 case AwaitBaseline => 17 case AwaitWallet => 16
       case AwaitNumbering => 15 case AwaitStartRecord => 14)
    case AwaitCursorAfter(_, _) => 13
    case AwaitSuccessRecord(_) => 12
    case AwaitInterrupt => 11
    case AwaitCursor => 10
    case AwaitDrift(_, step) => (match step case DriftHead => 9 case DriftTree(_) => 8 case DriftHealth => 7)
    case AwaitChildStart(_, _) => 6
    case AwaitSpawn(_, _) => 5
    case AwaitTerminalRuns(_) => 4
    case AwaitAlreadyRecord => 3
    case AwaitFinalRecord => 2
    case AwaitFailureRecord(_, _) => 1
    case _ => 0
  }

  /** What a good answer does: it spawns a child or leads to a later step. */
  predicate Good(so: SupervisorOptions, first: nat, s: State, live: Cursor, e: Event)
    requires Acceptable(so)
  {
    && Favourable(so, s, live, first, e)
    && Next(so, s, e).phase != Stuck
    && (e.Spawn? || Rank(Next(so, s, e).phase) < Rank(s.phase))
  }

  predicate Unfinished(phase: Phase) {
    && !phase.AwaitFailureRecord? && !phase.Stopping? && !phase.Ended? && !phase.Crashed? && !phase.Stuck?
  }

  lemma StartAnswered(
      so: SupervisorOptions, first: nat, results: seq<ChildResult>, s: State, spawned: nat, live: Cursor)
    requires Acceptable(so) && first >= 1 && s.phase.Starting?
    ensures Good(so, first, s, live, GoodAnswer(so, first, results, s, spawned, live))
  {
    hide ChildLabels.StartingNumber, StartLabels;
    StartLabelsNumber(so, first);
  }

  lemma SpawnAnswered(
      so: SupervisorOptions, first: nat, results: seq<ChildResult>, s: State, spawned: nat, live: Cursor)
    requires Acceptable(so) && first >= 1 && s.phase.AwaitSpawn?
    requires spawned < |results| && CleanResult(results[spawned], so.execute, s.phase.plan.maxWindows)
    ensures Good(so, first, s, live, GoodAnswer(so, first, results, s, spawned, live))
  {
    hide CleanResult;
  }

  lemma DriftAnswered(
      so: SupervisorOptions, first: nat, results: seq<ChildResult>, s: State, spawned: nat, live: Cursor)
    requires Acceptable(so) && first >= 1 && s.phase.AwaitDrift? && (s.phase.drift.DriftTree? ==> s.phase.drift.headOk)
    ensures Good(so, first, s, live, GoodAnswer(so, first, results, s, spawned, live))
  {
    hide PlanFor, Campaign.ValidCampaignId, ChildCampaignId;
  }

  lemma OperationIsClean(endBlock: int)
    ensures PriorOperationClean([CleanOperation(endBlock)])
  {
  }

  lemma OtherAnswered(
      so: SupervisorOptions, first: nat, results: seq<ChildResult>, s: State, spawned: nat, live: Cursor)
    requires Acceptable(so) && first >= 1 && Unfinished(s.phase)
    requires !s.phase.Starting? && !s.phase.AwaitSpawn? && !s.phase.AwaitDrift?
    ensures Good(so, first, s, live, GoodAnswer(so, first, results, s, spawned, live))
  {
    hide PriorOperationClean, CleanOperation, NextStart, NextDrift;
    if s.phase.AwaitTerminalRuns? {
      OperationIsClean(s.phase.cursor.toBlock);
    }
  }

  /** The plan about to be spawned is the next one of the whole plan. */
  lemma SpawnsNextPlan(
      so: SupervisorOptions, origin: Cursor, first: nat, s: State, spawned: seq<ChildPlan>, live: Cursor)
    requires Acceptable(so) && Smooth(so, origin, first, s, spawned, live) && s.phase.AwaitSpawn?
    ensures |spawned| < |Children(so, origin, first)| && s.phase.plan == Children(so, origin, first)[|spawned|]
  {
    hide PlanFor, Reachable;
    var front := Front(origin, spawned);
    assert Children(so, front, first + |spawned|)[0] == s.phase.plan;
  }

  // ----- favourable logs extend

  /** The answers of the children, in the order they were spawned. */
  function Answers(log: seq<Event>): seq<Reply<ChildResult>> {
    if log == [] then [] else Answered(Answers(log[..|log| - 1]), log[|log| - 1])
  }

  function Answered(answers: seq<Reply<ChildResult>>, e: Event): seq<Reply<ChildResult>> {
    match e
    case Spawn(_, result) => answers + [result]
    case _ => answers
  }

  predicate AnsweredBy(answers: seq<Reply<ChildResult>>, results: seq<ChildResult>) {
    && |answers| <= |results|
    && forall k :: 0 <= k < |answers| ==> answers[k] == Got(results[k])
  }

  lemma {:induction false} OneAnswerPerChild(log: seq<Event>)
    ensures |Answers(log)| == |HistoryOf(log).spawned|
  {
    if log != [] {
      OneAnswerPerChild(log[..|log| - 1]);
    }
  }

  function AnswerTo(
      so: SupervisorOptions, origin: Cursor, first: nat, results: seq<ChildResult>, log: seq<Event>): Event
    requires Acceptable(so) && first >= 1
  {
    GoodAnswer(so, first, results, Replay(so, log), |HistoryOf(log).spawned|, CursorIn(so, origin, log))
  }

  /** A favourable log whose children were answered by the given results. */
  predicate OnTheWay(so: SupervisorOptions, origin: Cursor, first: nat, results: seq<ChildResult>, log: seq<Event>)
    requires Acceptable(so)
  {
    FavourableRun(so, origin, first, log) && Follows(so, log) && AnsweredBy(Answers(log), results)
  }

  /** The supervision has ended or is about to spawn a child for which no result is given. */
  predicate Settled(so: SupervisorOptions, results: seq<ChildResult>, log: seq<Event>)
    requires Acceptable(so)
  {
    || Replay(so, log).phase.Ended?
    || (Replay(so, log).phase.AwaitSpawn? && |HistoryOf(log).spawned| == |results|)
  }

  /** Every favourable log that has not ended can be continued by a favourable answer,
      which spawns the next child or leads to a later step. */
  lemma FavourableLogsExtend(
      so: SupervisorOptions, origin: Cursor, first: nat, results: seq<ChildResult>, log: seq<Event>)
    requires Acceptable(so) && Reachable(so, origin) && IdsFit(so, origin, first) && first >= 1
    requires CleanResults(so, Children(so, origin, first), results)
    requires OnTheWay(so, origin, first, results, log) && !Settled(so, results, log)
    ensures var e := AnswerTo(so, origin, first, results, log); var log' := log + [e];
      && OnTheWay(so, origin, first, results, log')
      && HistoryOf(log').spawned == HistoryOf(log).spawned + (if e.Spawn? then [e.plan] else [])
      && |HistoryOf(log').spawned| <= |results|
      && (e.Spawn? || Rank(Replay(so, log').phase) < Rank(Replay(so, log).phase))
  {
    hide Next, Smooth, GoodAnswer, Favourable, IdsFit, Children, Rank, CleanResult;
    var s, spawned, live := Replay(so, log), HistoryOf(log).spawned, CursorIn(so, origin, log);
    var e := AnswerTo(so, origin, first, results, log);
    StaysSmooth(so, origin, first, log);
    OneAnswerPerChild(log);
    StateAnswered(so, origin, first, results, s, spawned, live);
    ReplaySnoc(so, log, e);
    assert (log + [e])[..|log|] == log;
    SpawnAnswer(so, first, results, s, |spawned|, live);
    OneAnswerPerChild(log + [e]);
  }

  lemma StateAnswered(
      so: SupervisorOptions, origin: Cursor, first: nat, results: seq<ChildResult>, s: State, spawned: seq<ChildPlan>,
      live: Cursor)
    requires Acceptable(so) && first >= 1 && CleanResults(so, Children(so, origin, first), results)
    requires Smooth(so, origin, first, s, spawned, live) && s.phase != Stuck && !s.phase.Ended?
    requires |spawned| <= |results|
    requires s.phase.AwaitSpawn? ==> |spawned| < |results|
    ensures Good(so, first, s, live, GoodAnswer(so, first, results, s, |spawned|, live))
  {
    hide Good, GoodAnswer, OnCourse, PlanFor, CleanResult, Children;
    if s.phase.Starting? {
      StartAnswered(so, first, results, s, |spawned|, live);
    } else if s.phase.AwaitDrift? {
      DriftAnswered(so, first, results, s, |spawned|, live);
    } else if s.phase.AwaitSpawn? {
      SpawnsNextPlan(so, origin, first, s, spawned, live);
      SpawnAnswered(so, first, results, s, |spawned|, live);
    } else {
      OtherAnswered(so, first, results, s, |spawned|, live);
    }
  }

  lemma SpawnAnswer(so: SupervisorOptions, first: nat, results: seq<ChildResult>, s: State, spawned: nat, live: Cursor)
    requires first >= 1 && (s.phase.AwaitSpawn? ==> spawned < |results|)
    ensures var e := GoodAnswer(so, first, results, s, spawned, live);
      e.Spawn? ==> spawned < |results| && e.result == Got(results[spawned])
  {
  }

  /** From every favourable log a favourable one is reached that has ended, or has used
      up all results given and is about to spawn the next child. */
  lemma Advance(so: SupervisorOptions, origin: Cursor, first: nat, results: seq<ChildResult>, log: seq<Event>)
    returns (full: seq<Event>)
    requires Acceptable(so) && Reachable(so, origin) && IdsFit(so, origin, first) && first >= 1
    requires CleanResults(so, Children(so, origin, first), results) && OnTheWay(so, origin, first, results, log)
    ensures log <= full && OnTheWay(so, origin, first, results, full) && Settled(so, results, full)
    decreases |results| - |HistoryOf(log).spawned|, Rank(Replay(so, log).phase)
  {
    hide Replay, Reachable, IdsFit, CleanResults, Children, Rank, HistoryOf, OnTheWay;
    if Settled(so, results, log) {
      full := log;
    } else {
      FavourableLogsExtend(so, origin, first, results, log);
      full := Advance(so, origin, first, results, log + [AnswerTo(so, origin, first, results, log)]);
    }
  }

  lemma StartIsOnTheWay(so: SupervisorOptions, origin: Cursor, first: nat, results: seq<ChildResult>)
    requires Acceptable(so)
    ensures OnTheWay(so, origin, first, results, [])
  {
  }

  /** A supervision whose children all answer with the given clean results, from the
      start to the end. */
  lemma Supervise(so: SupervisorOptions, origin: Cursor, first: nat, results: seq<ChildResult>)
    returns (log: seq<Event>, summary: Summary)
    requires Acceptable(so) && Reachable(so, origin) && IdsFit(so, origin, first) && first >= 1
    requires CleanResults(so, Children(so, origin, first), results) && |results| == |Children(so, origin, first)|
    ensures FavourableRun(so, origin, first, log) && Finished(so, log, summary)
    ensures HistoryOf(log).spawned == Children(so, origin, first) && |Answers(log)| == |results|
    ensures AnsweredBy(Answers(log), results)
  {
    hide Next, Reachable, IdsFit, CleanResults, Children, HistoryOf, Smooth;
    StartIsOnTheWay(so, origin, first, results);
    log := Advance(so, origin, first, results, []);
    if Replay(so, log).phase.AwaitSpawn? {
      StaysSmooth(so, origin, first, log);
      SpawnsNextPlan(so, origin, first, Replay(so, log), HistoryOf(log).spawned, CursorIn(so, origin, log));
    }
    summary := Replay(so, log).phase.summary;
    UndisturbedSupervisionReachesTheTarget(so, origin, first, log, summary);
    OneAnswerPerChild(log);
  }

  /** The result of a child that completed the windows of its plan. */
  function CompleteResult(so: SupervisorOptions, plan: ChildPlan): ChildResult
    requires plan.maxWindows >= 1
  {
    ChildResult(0, false, Some(Child.Summary(
      Campaign.MaxWindowsReached, if so.execute then plan.maxWindows else 0, Some(plan.maxWindows), 0, None)))
  }

  /** Wherever the target is reachable and the children's ids fit, a favourable finished
      supervision exists, numbered from any number on. */
  lemma FavourableSupervisionsExist(so: SupervisorOptions, origin: Cursor, first: nat)
    requires Acceptable(so) && Reachable(so, origin) && IdsFit(so, origin, first) && first >= 1
    ensures exists log, summary :: FavourableRun(so, origin, first, log) && Finished(so, log, summary)
  {
    hide Replay, FavourableRun, IdsFit, Children, PlanFor;
    var plans := Children(so, origin, first);
    ChildrenArePlanned(so, origin, first);
    var results := seq(|plans|, k requires 0 <= k < |plans| => CompleteResult(so, plans[k]));
    var log, summary := Supervise(so, origin, first, results);
  }

  lemma {:induction false} ChildrenArePlanned(so: SupervisorOptions, origin: Cursor, first: nat)
    requires Acceptable(so)
    ensures forall k :: 0 <= k < |Children(so, origin, first)| ==>
      var plan := Children(so, origin, first)[k];
      plan.maxWindows >= 1 && plan.number == first + k && PlanFor(so, StartOf(plan), plan.number) == Child(plan)
    decreases so.authorizedFinalBlock - origin.toBlock
  {
    var planned := PlanFor(so, origin, first);
    if planned.Child? {
      var next := Cursor(origin.fromBlock, planned.plan.finalBlock);
      assert Children(so, origin, first) == [planned.plan] + Children(so, next, first + 1);
      ChildrenArePlanned(so, next, first + 1);
    }
  }

  // ----- real children behind the spawns

  /** Every planned child has a well-formed id and labels that are short enough. */
  predicate ChildrenFit(so: SupervisorOptions, origin: Cursor, first: nat)
    requires Acceptable(so)
  {
    && IdsFit(so, origin, first)
    && forall k :: 0 <= k < |Children(so, origin, first)| ==>
         var plan := Children(so, origin, first)[k];
         && plan.maxWindows > 0
         && Campaign.LongestLabelFits(
              so.policyLabelPrefix, ChildCampaignId(so.campaignIdPrefix, plan.number), 1, plan.maxWindows)
  }

  predicate Posed(so: SupervisorOptions, plan: ChildPlan) {
    var o := ChildOptions(so, plan);
    Child.Usable(o) && ChildPreview.WellPosed(o)
  }

  lemma ChildrenArePosed(so: SupervisorOptions, origin: Cursor, first: nat)
    requires Acceptable(so) && ChildrenFit(so, origin, first)
    ensures forall k :: 0 <= k < |Children(so, origin, first)| ==>
      Posed(so, Children(so, origin, first)[k]) && Planned(so, Children(so, origin, first)[k])
  {
    hide Children, PlanFor, Campaign.ValidCampaignId, Campaign.LongestLabelFits, Campaign.CheckOptions, ChildCampaignId;
    ChildrenArePlanned(so, origin, first);
    forall k | 0 <= k < |Children(so, origin, first)|
      ensures Posed(so, Children(so, origin, first)[k]) && Planned(so, Children(so, origin, first)[k])
    {
      var plan := Children(so, origin, first)[k];
      PlanPassesChildGates(so, StartOf(plan), plan.number);
    }
  }

  /** A finished favourable run for each plan. */
  lemma {:induction false} ChildRuns(so: SupervisorOptions, plans: seq<ChildPlan>) returns (runs: seq<ChildRun>)
    requires forall k :: 0 <= k < |plans| ==> Posed(so, plans[k])
    ensures FavourableChildren(so, plans, runs)
    ensures forall k :: 0 <= k < |runs| ==>
      ChildTheorems.Finished(ChildOptions(so, plans[k]), runs[k].log, runs[k].summary)
  {
    hide Child.Usable, ChildPreview.WellPosed, ChildTheorems.Finished, ChildPreview.FavourableRun, ChildOptions;
    if plans == [] {
      runs := [];
    } else {
      var front, plan := plans[..|plans| - 1], plans[|plans| - 1];
      var before := ChildRuns(so, front);
      CampaignLiveness.FavourableRunsExist(ChildOptions(so, plan));
      var log, summary :| ChildPreview.FavourableRun(ChildOptions(so, plan), log)
                          && ChildTheorems.Finished(ChildOptions(so, plan), log, summary);
      runs := before + [ChildRun(log, summary)];
      assert forall k :: 0 <= k < |front| ==> plans[k] == front[k] && runs[k] == before[k];
    }
  }

  function Reports(runs: seq<ChildRun>): (results: seq<ChildResult>)
    ensures |results| == |runs|
    ensures forall k :: 0 <= k < |runs| ==> results[k] == Composition.Reported(runs[k].summary)
  {
    seq(|runs|, k requires 0 <= k < |runs| => Composition.Reported(runs[k].summary))
  }

  /** If the k-th child was answered by the report of the k-th run, the runs stand behind
      the log. */
  lemma {:induction false} AnsweredIsBacked(so: SupervisorOptions, log: seq<Event>, runs: seq<ChildRun>)
    requires |Answers(log)| == |runs|
    requires AnsweredBy(Answers(log), Reports(runs))
    requires |HistoryOf(log).spawned| == |runs|
    requires forall k :: 0 <= k < |runs| ==>
      && Child.Usable(ChildOptions(so, HistoryOf(log).spawned[k]))
      && ChildTheorems.Finished(ChildOptions(so, HistoryOf(log).spawned[k]), runs[k].log, runs[k].summary)
    ensures Backed(so, log, runs)
  {
    hide Child.Usable, ChildTheorems.Finished, ChildOptions;
    if log != [] {
      var front := log[..|log| - 1];
      match log[|log| - 1]
      case Spawn(plan, result) =>
        var before := runs[..|runs| - 1];
        assert forall k :: 0 <= k < |before| ==>
          HistoryOf(front).spawned[k] == HistoryOf(log).spawned[k] && before[k] == runs[k]
          && Answers(front)[k] == Answers(log)[k] && Reports(before)[k] == Reports(runs)[k];
        assert HistoryOf(log).spawned[|before|] == plan && Answers(log)[|before|] == result;
        OneAnswerPerChild(front);
        AnsweredIsBacked(so, front, before);
      case _ => AnsweredIsBacked(so, front, runs);
    } else {
      assert runs == [];
    }
  }

  lemma {:induction false} FavourableIsQuiet(so: SupervisorOptions, origin: Cursor, first: nat, log: seq<Event>)
    requires Acceptable(so) && FavourableRun(so, origin, first, log)
    ensures QuietRun(so, origin, first, log)
  {
    hide Favourable, Replay, CursorIn;
    if log != [] {
      FavourableIsQuiet(so, origin, first, log[..|log| - 1]);
    }
  }

  lemma ReportsAreClean(so: SupervisorOptions, plans: seq<ChildPlan>, runs: seq<ChildRun>)
    requires Acceptable(so) && FavourableChildren(so, plans, runs)
    requires forall k :: 0 <= k < |runs| ==>
      Planned(so, plans[k]) && ChildTheorems.Finished(ChildOptions(so, plans[k]), runs[k].log, runs[k].summary)
    ensures CleanResults(so, plans, Reports(runs))
  {
    hide Child.Usable, ChildTheorems.Finished, ChildPreview.FavourableRun, ChildPreview.WellPosed, ChildOptions,
      CleanResult, Planned, Composition.Reported;
    forall k | 0 <= k < |runs| ensures CleanResult(Reports(runs)[k], so.execute, plans[k].maxWindows) {
      FavourableChildIsClean(so, plans[k], Got(Reports(runs)[k]), runs[k]);
    }
  }

  /** A quiet finished supervision with favourable children behind its spawns exists
      wherever the target is reachable and the children's ids and labels fit. */
  lemma FavourableJointRunsExist(so: SupervisorOptions, origin: Cursor, first: nat)
    requires Acceptable(so) && Reachable(so, origin) && ChildrenFit(so, origin, first) && first >= 1
    ensures exists log, summary, runs ::
      && QuietRun(so, origin, first, log) && Finished(so, log, summary)
      && Backed(so, log, runs) && FavourableChildren(so, HistoryOf(log).spawned, runs)
  {
    hide Replay, HistoryOf, FavourableRun, QuietRun, Backed, IdsFit, Reachable, Children, Planned, Child.Usable,
      ChildPreview.WellPosed, ChildPreview.FavourableRun, ChildTheorems.Finished, ChildOptions, CleanResults, Answers,
      Campaign.LongestLabelFits;
    var plans := Children(so, origin, first);
    ChildrenArePosed(so, origin, first);
    var runs := ChildRuns(so, plans);
    ReportsAreClean(so, plans, runs);
    var log, summary := Supervise(so, origin, first, Reports(runs));
    AnsweredIsBacked(so, log, runs);
    FavourableIsQuiet(so, origin, first, log);
    assert FavourableChildren(so, HistoryOf(log).spawned, runs);
  }

  // ----- dry runs

  /** The answers of a campaign up to a cursor it does not expect, and its stop record. */
  function DeniedLog(live: Cursor): seq<Child.Event> {
    [ Child.GitHead(Got("")), Child.WorkingTree(Got(true)), Child.Health(true, None), Child.WalletLookup(Got(Some(""))),
      Child.Write(Child.CampaignStart, true), Child.CursorRead(Got(Some(live))),
      Child.Write(Child.StopRecord(Campaign.CursorExpectationMismatch), true) ]
  }

  /** A campaign that reads another cursor than it expects, and for which everything else
      goes well, ends. */
  lemma DeniedRunFinishes(o: Campaign.Options, live: Cursor)
    requires Child.Usable(o) && o.recovery.None? && live != Cursor(o.expectedCursorFrom, o.expectedCursorTo)
    ensures Composition.LiveRun(o, live, DeniedLog(live))
    ensures exists summary :: ChildTheorems.Finished(o, DeniedLog(live), summary)
  {
    hide Campaign.CheckOptions;
    var log := DeniedLog(live);
    DeniedStart(o, live);
    assert log[..6][..5] == log[..5] && log[..7][..6] == log[..6] && log[..7] == log;
    var s := Child.Replay(o, log[..5]);
    assert Child.Replay(o, log[..6]) == Child.Next(o, s, log[5]);
    assert Child.Replay(o, log) == Child.Next(o, Child.Replay(o, log[..6]), log[6]);
    assert Composition.LiveRun(o, live, log[..6]);
    assert Child.Replay(o, log).phase.Ended?;
    assert ChildTheorems.Finished(o, log, Child.Replay(o, log).phase.summary);
  }

  lemma DeniedStart(o: Campaign.Options, live: Cursor)
    requires Child.Usable(o) && o.recovery.None?
    ensures Composition.LiveRun(o, live, DeniedLog(live)[..5])
    ensures Child.Replay(o, DeniedLog(live)[..5]).phase == Child.WindowGates(Child.AwaitCursor, Child.NO_PLAN)
    ensures Child.Replay(o, DeniedLog(live)[..5]).loop.expectedTo == o.expectedCursorTo
  {
    hide Campaign.CheckOptions, Child.NextRecoveryGate, Child.NextWindowGate, Child.NextSubmit, Child.NextCheck;
    var log := DeniedLog(live);
    StartBaseline(o, live);
    Prefixed(log, 3);
    Prefixed(log, 4);
    assert Child.Replay(o, log[..4]).phase == Child.Starting(Child.AwaitStartRecord);
    assert Composition.LiveRun(o, live, log[..4]);
  }

  lemma StartBaseline(o: Campaign.Options, live: Cursor)
    requires Child.Usable(o)
    ensures Composition.LiveRun(o, live, DeniedLog(live)[..3])
    ensures Child.Replay(o, DeniedLog(live)[..3]).phase == Child.Starting(Child.AwaitWallet)
    ensures Child.Replay(o, DeniedLog(live)[..3]).loop.expectedTo == o.expectedCursorTo
  {
    hide Campaign.CheckOptions, Child.NextRecoveryGate, Child.NextWindowGate, Child.NextSubmit, Child.NextCheck;
    var log := DeniedLog(live);
    assert log[..0] == [] && Child.Replay(o, []) == Child.Init(o);
    Prefixed(log, 0);
    Prefixed(log, 1);
    Prefixed(log, 2);
    assert Child.Replay(o, log[..1]).phase == Child.Starting(Child.AwaitTree);
    assert Child.Replay(o, log[..2]).phase == Child.Starting(Child.AwaitBaseline);
    assert Composition.LiveRun(o, live, log[..1]);
    assert Composition.LiveRun(o, live, log[..2]);
  }

  lemma Prefixed<T>(log: seq<T>, n: nat)
    requires n < |log|
    ensures log[..n + 1][..n] == log[..n] && log[..n + 1][n] == log[n]
  {
  }

  /** A dry run that expects the live cursor and is answered favourably reads nothing but
      the live cursor. */
  lemma {:induction false} FavourableDryRunIsLive(o: Campaign.Options, log: seq<Child.Event>)
    requires Child.Usable(o) && !o.execute && ChildPreview.FavourableRun(o, log)
    ensures Composition.LiveRun(o, Cursor(o.expectedCursorFrom, o.expectedCursorTo), log)
    ensures Composition.DryState(o, Child.Replay(o, log))
  {
    hide Child.Next, Campaign.CheckOptions;
    if log != [] {
      FavourableDryRunIsLive(o, log[..|log| - 1]);
      Composition.StaysDry(o, Child.Replay(o, log[..|log| - 1]), log[|log| - 1]);
    } else {
      assert Child.Replay(o, log) == Child.Init(o);
    }
  }

  /** Whatever the live cursor is, each planned dry child has a finished run that sees it;
      the run is favourable if the child was planned from it. */
  lemma LiveRunExists(so: SupervisorOptions, live: Cursor, plan: ChildPlan) returns (run: ChildRun)
    requires !so.execute && Posed(so, plan)
    ensures LiveChild(so, live, plan, run) && ChildTheorems.Finished(ChildOptions(so, plan), run.log, run.summary)
    ensures StartOf(plan) == live ==> FavourableChild(so, plan, run)
  {
    hide Child.Usable, ChildPreview.WellPosed, ChildTheorems.Finished, ChildPreview.FavourableRun, Composition.LiveRun;
    var o := ChildOptions(so, plan);
    if StartOf(plan) == live {
      CampaignLiveness.FavourableRunsExist(o);
      var log, summary :| ChildPreview.FavourableRun(o, log) && ChildTheorems.Finished(o, log, summary);
      FavourableDryRunIsLive(o, log);
      run := ChildRun(log, summary);
    } else {
      DeniedRunFinishes(o, live);
      var summary :| ChildTheorems.Finished(o, DeniedLog(live), summary);
      run := ChildRun(DeniedLog(live), summary);
    }
  }

  /** A durable record keeps a supervision quiet and backed. */
  lemma QuietWrite(
      so: SupervisorOptions, origin: Cursor, first: nat, log: seq<Event>, runs: seq<ChildRun>, record: Record)
    requires Acceptable(so) && QuietRun(so, origin, first, log) && Backed(so, log, runs)
    ensures var full := log + [Write(record, true)];
      && QuietRun(so, origin, first, full) && Backed(so, full, runs)
      && HistoryOf(full).spawned == HistoryOf(log).spawned
      && Replay(so, full) == Next(so, Replay(so, log), Write(record, true))
  {
    hide Next, Faithful, CursorIn, PriorOperationClean, CleanResult;
    assert (log + [Write(record, true)])[..|log|] == log;
  }

  /** So does the spawn of a child with a run behind it. */
  lemma QuietSpawn(
      so: SupervisorOptions, origin: Cursor, first: nat, log: seq<Event>, runs: seq<ChildRun>, e: Event, run: ChildRun)
    requires Acceptable(so) && QuietRun(so, origin, first, log) && Backed(so, log, runs)
    requires e.Spawn? && Faithful(so, e.plan, e.result, run)
    ensures var full := log + [e];
      && QuietRun(so, origin, first, full) && Backed(so, full, runs + [run])
      && HistoryOf(full).spawned == HistoryOf(log).spawned + [e.plan]
      && Replay(so, full) == Next(so, Replay(so, log), e)
  {
    hide Next, Faithful, CursorIn, Favourable;
    assert (log + [e])[..|log|] == log && (runs + [run])[..|runs|] == runs;
  }

  /** A supervision that is about to spawn a child which then fails ends, and remains
      quiet and backed. */
  lemma FailingChildEndsIt(
      so: SupervisorOptions, origin: Cursor, first: nat, log: seq<Event>, runs: seq<ChildRun>, plan: ChildPlan,
      run: ChildRun) returns (full: seq<Event>)
    requires Acceptable(so) && QuietRun(so, origin, first, log) && Backed(so, log, runs)
    requires Replay(so, log).phase.AwaitSpawn? && Replay(so, log).phase.plan == plan
    requires Child.Usable(ChildOptions(so, plan))
    requires ChildTheorems.Finished(ChildOptions(so, plan), run.log, run.summary)
    requires !CleanResult(Composition.Reported(run.summary), so.execute, plan.maxWindows)
    ensures QuietRun(so, origin, first, full) && Replay(so, full).phase.Ended?
    ensures Backed(so, full, runs + [run]) && HistoryOf(full).spawned == HistoryOf(log).spawned + [plan]
  {
    hide Replay, HistoryOf, QuietRun, Backed, Child.Usable, ChildTheorems.Finished, CleanResult, ChildOptions, PlanFor,
      PriorOperationClean, NextStart, NextDrift;
    var spawn := Spawn(plan, Got(Composition.Reported(run.summary)));
    QuietSpawn(so, origin, first, log, runs, spawn, run);
    var failed := log + [spawn];
    QuietWrite(so, origin, first, failed, runs + [run], ChildFailure(plan));
    var stopping := failed + [Write(ChildFailure(plan), true)];
    QuietWrite(so, origin, first, stopping, runs + [run], StopRecord(ChildResultNotClean));
    full := stopping + [Write(StopRecord(ChildResultNotClean), true)];
  }

  lemma SpawnedArePlanned(
      so: SupervisorOptions, origin: Cursor, first: nat, s: State, spawned: seq<ChildPlan>, live: Cursor)
    requires Acceptable(so) && Smooth(so, origin, first, s, spawned, live)
    ensures spawned <= Children(so, origin, first)
  {
    hide PlanFor, Reachable, Children;
  }

  lemma ReportIsClean(so: SupervisorOptions, plans: seq<ChildPlan>, run: ChildRun)
    requires Acceptable(so) && plans != [] && Planned(so, plans[0]) && FavourableChild(so, plans[0], run)
    requires ChildTheorems.Finished(ChildOptions(so, plans[0]), run.log, run.summary)
    ensures CleanResults(so, plans, Reports([run]))
  {
    hide CleanResult, PlanFor, ChildOptions;
    FavourableChildIsClean(so, plans[0], Got(Composition.Reported(run.summary)), run);
  }

  /** The favourable start of a dry supervision: its first child sees the live cursor and
      succeeds. Then it has ended, or is about to spawn the second planned child. */
  lemma FirstDryChild(so: SupervisorOptions, live: Cursor, first: nat) returns (log: seq<Event>, runs: seq<ChildRun>)
    requires Acceptable(so) && !so.execute && Reachable(so, live) && live.toBlock < so.authorizedFinalBlock
    requires ChildrenFit(so, live, first) && first >= 1
    ensures QuietRun(so, live, first, log) && Backed(so, log, runs)
    ensures LiveChildren(so, live, HistoryOf(log).spawned, runs)
    ensures || Replay(so, log).phase.Ended?
            || (Replay(so, log).phase.AwaitSpawn? && |Children(so, live, first)| > 1
                && Replay(so, log).phase.plan == Children(so, live, first)[1])
  {
    hide Next, Replay, HistoryOf, FavourableRun, QuietRun, Backed, IdsFit, Reachable, Children, PlanFor, Child.Usable,
      ChildPreview.WellPosed, ChildPreview.FavourableRun, ChildTheorems.Finished, ChildOptions, CleanResults, Answers,
      Campaign.LongestLabelFits, Composition.LiveRun, Smooth, CursorIn, LiveChild, FavourableChild;
    var plans := Children(so, live, first);
    ChildrenArePosed(so, live, first);
    Composition.DryRunSpansOneChild(so, live, first);
    var run := LiveRunExists(so, live, plans[0]);
    runs := [run];
    ReportIsClean(so, plans, run);
    StartIsOnTheWay(so, live, first, Reports(runs));
    log := Advance(so, live, first, Reports(runs), []);
    FavourableIsQuiet(so, live, first, log);
    OneAnswerPerChild(log);
    var s, spawned := Replay(so, log), HistoryOf(log).spawned;
    if s.phase.Ended? {
      UndisturbedSupervisionReachesTheTarget(so, live, first, log, s.phase.summary);
    } else {
      StaysSmooth(so, live, first, log);
      SpawnedArePlanned(so, live, first, s, spawned, CursorIn(so, live, log));
      SpawnsNextPlan(so, live, first, s, spawned, CursorIn(so, live, log));
    }
    assert spawned == [plans[0]];
    AnsweredIsBacked(so, log, runs);
  }

  /** A quiet finished dry supervision whose children all see the live cursor exists
      wherever the target is reachable and the children's ids and labels fit, whether or
      not one child covers the remaining windows. */
  lemma LiveJointRunsExist(so: SupervisorOptions, live: Cursor, first: nat)
    requires Acceptable(so) && !so.execute && Reachable(so, live) && live.toBlock < so.authorizedFinalBlock
    requires ChildrenFit(so, live, first) && first >= 1
    ensures exists log, summary, runs ::
      && QuietRun(so, live, first, log) && Finished(so, log, summary)
      && Backed(so, log, runs) && LiveChildren(so, live, HistoryOf(log).spawned, runs)
  {
    hide Replay, HistoryOf, QuietRun, Backed, ChildrenFit, Reachable, Children, PlanFor, Child.Usable,
      ChildPreview.WellPosed, ChildTheorems.Finished, ChildOptions, LiveChild, FavourableChild;
    var log, runs := FirstDryChild(so, live, first);
    if Replay(so, log).phase.Ended? {
      assert Finished(so, log, Replay(so, log).phase.summary);
    } else {
      var plan := Children(so, live, first)[1];
      ChildrenArePosed(so, live, first);
      Composition.DryRunSpansOneChild(so, live, first);
      var run := LiveRunExists(so, live, plan);
      LiveChildIsCleanIff(so, live, plan, run);
      var full := FailingChildEndsIt(so, live, first, log, runs, plan, run);
      assert Finished(so, full, Replay(so, full).phase.summary);
      assert LiveChildren(so, live, HistoryOf(full).spawned, runs + [run]);
    }
  }
}
