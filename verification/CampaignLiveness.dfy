/** Favourable runs exist: from every favourable log that has not ended there is a
    favourable answer to the next interaction, and by giving such answers every run ends. */
module CampaignLiveness {
  import opened Base
  import opened Json
  import opened SyncPrimitives
  import opened RecoveryWarnings
  import opened CampaignPlan
  import opened CampaignMachine
  import opened CampaignSafety
  import opened CampaignTheorems
  import opened CampaignGates
  import opened CampaignVerdicts
  import opened CampaignPreview

  // ----- runs the verifiers accept

  const NO_WARNINGS: Json := Object([("truncatedCount", Number(0.0)), ("warnings", Array([]))])

  const ONE_WARNING: Json := Object([("code", String(RECOVERY_ELIGIBLE_WARNING_CODE)), ("detail", String("kept"))])

  function CleanRun(id: string, want: Expectation): SyncRun {
    SyncRun(id, "MANUAL", "COMPLETED", want.chainId, Some(want.walletId), want.request.policyLabel, [TRANSFERS],
      Some(want.request.startBlock), Some(want.request.endBlock), Some(want.request.endBlock),
      0, Array([]), Some(NO_WARNINGS), None, None, None, None)
  }

  function BenignRun(id: string, want: Expectation): SyncRun {
    CleanRun(id, want).(warningCount := 1, warningDetails := Array([String("kept")]),
      structuredWarnings := Some(Object([("truncatedCount", Number(0.0)), ("warnings", Array([ONE_WARNING]))])))
  }

  /** Some run is acceptable for every request, and some run may be recovered. */
  lemma AcceptableRunsExist(id: string, want: Expectation)
    ensures StrictlyClean(CleanRun(id, want), want) && RecoveryAcceptable(CleanRun(id, want), want)
    ensures EligibleSource(Some(BenignRun(id, want)), id, want)
  {
    var fields := [("truncatedCount", Number(0.0)), ("warnings", Array([]))];
    assert Field(fields[1..], "warnings") == Some(Array([]));
    var benign := [("truncatedCount", Number(0.0)), ("warnings", Array([ONE_WARNING]))];
    assert Field(benign[1..], "warnings") == Some(Array([ONE_WARNING]));
    var warning := ONE_WARNING.fields;
    assert Field(warning[1..], "detail") == Some(String("kept"));
  }

  // ----- a favourable answer for every interaction

  function GoodGateAnswer(o: Options, s: State, step: GateStep, request: Request, record: Record): Event {
    match step
    case AwaitCursor => CursorRead(Got(Some(AppliedCursor(o, s))))
    case AwaitSource =>
      if o.recovery.Some? then
        SourceRunRead(Got(Some(BenignRun(o.recovery.value, Expectation(s.walletId, o.chainId, request)))))
      else SourceRunRead(Threw)
    case AwaitLabels => LabelList(Got([]))
    case AwaitActive => ActiveRuns(Got(0))
    case AwaitHealth => Health(true, s.appEnv)
    case AwaitContamination => Rows(FabricatedTransfers, request.startBlock, request.endBlock, Got(0))
    case AwaitPlanRecord => Write(record, true)
  }

  function GoodSubmitAnswer(o: Options, s: State, target: Target, request: Request, step: SubmitStep): Event {
    match step
    case AwaitPost => Post(target, request, Got(Response(202, "run")))
    case AwaitCandidates => Candidates(request.policyLabel, Threw)
    case AwaitPoll(runId) => Polled(runId, Got(Some(CleanRun(runId, Expectation(s.walletId, o.chainId, request)))))
    case AwaitCursorAfter(_, _) => CursorRead(Got(Some(AppliedCursor(o, s))))
    case AwaitRows(check, _, _) => Rows(check, request.startBlock, request.endBlock, Got(0))
    case AwaitActiveAfter(_, _) => ActiveRuns(Got(0))
    case AwaitResultRecord(runId, clean) => Write(ResultOf(target, request, runId, clean), true)
  }

  function GoodCheckAnswer(o: Options, s: State, step: CheckStep): Event {
    match step
    case CheckHead => GitHead(Got(s.head))
    case CheckTree(_) => WorkingTree(Got(true))
    case CheckHealth(_) => Health(true, s.appEnv)
    case CheckCursor(_) => CursorRead(Got(Some(AppliedCursor(o, s))))
    case CheckWritable(_) => EvidenceWritable(Got(true))
    case CheckRecord(ok) => Write(Checkpoint(s.loop.processed, s.loop.windowsCompleted, ok), true)
  }

  function GoodAnswer(o: Options, s: State): Event {
    match s.phase
    case Starting(AwaitHead) => GitHead(Got(""))
    case Starting(AwaitTree) => WorkingTree(Got(true))
    case Starting(AwaitBaseline) => Health(true, None)
    case Starting(AwaitWallet) => WalletLookup(Got(Some("")))
    case Starting(AwaitStartRecord) => Write(CampaignStart, true)
    case RecoveryGates(step) =>
      if o.recovery.Some? then GoodGateAnswer(o, s, step, IntendedRecovery(o), RecoveryPlanned(IntendedRecovery(o)))
      else Health(true, None)
    case WindowGates(step, plan) =>
      GoodGateAnswer(o, s, step, plan.request, WindowPlanned(plan.windowNumber, plan.request))
    case Submitting(target, request, step) => GoodSubmitAnswer(o, s, target, request, step)
    case Checking(step) => GoodCheckAnswer(o, s, step)
    case Summarising => Write(CampaignSummary(FinalSummary(o, s)), true)
    case _ => Health(true, None)
  }

  // ----- progress

  predicate Unfinished(s: State) {
    !s.phase.Stopping? && !s.phase.Ended? && !s.phase.Crashed? && !s.phase.Stuck?
  }

  function Stage(phase: Phase): nat {
    match phase
    case Starting(_) => 3
    case RecoveryGates(_) => 2
    case Submitting(RecoveryWindow, _, _) => 2
    case WindowGates(_, _) => 1
    case Submitting(_, _, _) => 1
    case Checking(_) => 1
    case _ => 0
  }

  function WindowsLeft(o: Options, s: State): nat {
    if Stage(s.phase) == 1 && s.loop.iteration < Budget(o, s.loop) then Budget(o, s.loop) - s.loop.iteration else 0
  }

  function Rank(phase: Phase): nat {
    match phase
    case Starting(step) =>
      (match step
       case AwaitHead => 5 case AwaitTree => 4 case AwaitBaseline => 3 case AwaitWallet => 2 case AwaitStartRecord => 1)
    case RecoveryGates(step) =>
      (match step
       case AwaitCursor => 30 case AwaitSource => 29 case AwaitLabels => 28 case AwaitActive => 27
       case AwaitHealth => 26 case AwaitContamination => 25 case AwaitPlanRecord => 24)
    case WindowGates(step, _) =>
      (match step
       case AwaitCursor => 30 case AwaitActive => 29 case AwaitLabels => 28 case AwaitHealth => 27
       case AwaitContamination => 26 case AwaitPlanRecord => 25 case AwaitSource => 0)
    case Submitting(_, _, step) =>
      (match step
       case AwaitPost => 20 case AwaitCandidates => 19 case AwaitPoll(_) => 18 case AwaitCursorAfter(_, _) => 17
       case AwaitRows(check, _, _) =>
         (match check
          case FabricatedTransfers => 16 case DuplicateTransactions => 15 case DuplicateTransfers => 14
          case DuplicateLedgerEntries => 13)
       case AwaitActiveAfter(_, _) => 12 case AwaitResultRecord(_, _) => 11)
    case Checking(step) =>
      (match step
       case CheckHead => 6 case CheckTree(_) => 5 case CheckHealth(_) => 4 case CheckCursor(_) => 3
       case CheckWritable(_) => 2 case CheckRecord(_) => 1)
    case Summarising => 1
    case _ => 0
  }

  /** The next state is closer to the end: an earlier stage, fewer windows, or a later step. */
  predicate Closer(o: Options, s: State, next: State) {
    || Stage(next.phase) < Stage(s.phase)
    || (Stage(next.phase) == Stage(s.phase) && WindowsLeft(o, next) < WindowsLeft(o, s))
    || (Stage(next.phase) == Stage(s.phase) && WindowsLeft(o, next) == WindowsLeft(o, s)
         && Rank(next.phase) < Rank(s.phase))
  }

  /** What a good answer does. */
  predicate Good(o: Options, s: State, next: State) {
    Favourable(o, s, GoodAnswer(o, s)) && next.phase != Stuck && Closer(o, s, next)
  }

  lemma StartAnswered(o: Options, s: State)
    requires Usable(o) && WellPosed(o) && s.phase.Starting?
    ensures Good(o, s, NextStart(o, s, s.phase.start, GoodAnswer(o, s)))
  {
    hide CheckOptions, LongestLabelFits, RecoveryLabel;
  }

  lemma RecoveryGateAnswered(o: Options, s: State, h: History)
    requires Usable(o) && s.phase.RecoveryGates? && Inv(o, s, h)
    ensures Good(o, s, NextRecoveryGate(o, s, s.phase.gate, GoodAnswer(o, s)))
  {
    hide EligibleSource, CheckOptions, IntendedRecovery, LabelFits;
    AcceptableRunsExist(o.recovery.value, Expectation(s.walletId, o.chainId, IntendedRecovery(o)));
  }

  lemma WindowGateAnswered(o: Options, s: State, h: History)
    requires Usable(o) && s.phase.WindowGates? && Inv(o, s, h) && !s.phase.gate.AwaitSource?
    ensures Good(o, s, NextWindowGate(o, s, s.phase.gate, s.phase.plan, GoodAnswer(o, s)))
  {
    hide CheckOptions, PlanWindow, Progress, Spaced, IntendedWindow, LabelFits, EffectiveFirstWindowStart,
      ForwardAdjacent, PlanningEdge;
  }

  lemma SubmissionAnswered(o: Options, s: State, h: History)
    requires Usable(o) && s.phase.Submitting? && Inv(o, s, h) && Untroubled(o, s)
    ensures Good(o, s, NextSubmit(o, s, s.phase.target, s.phase.request, s.phase.submit, GoodAnswer(o, s)))
  {
    hide CheckOptions, RecoveryAcceptable, StrictlyClean, CleanRun, Progress, Spaced, IntendedWindow, IntendedRecovery;
    if s.phase.submit.AwaitPoll? {
      AcceptableRunsExist(s.phase.submit.runId, Expectation(s.walletId, o.chainId, s.phase.request));
    }
  }

  lemma CheckAnswered(o: Options, s: State, h: History)
    requires Usable(o) && s.phase.Checking? && Inv(o, s, h)
    ensures Good(o, s, NextCheck(o, s, s.phase.check, GoodAnswer(o, s)))
  {
    hide CheckOptions, Spaced, IntendedWindow, PlannedWithinBoundary, CursorMatches;
  }

  lemma EveryStateIsAnswered(o: Options, s: State, h: History)
    requires Usable(o) && WellPosed(o) && Inv(o, s, h) && Untroubled(o, s) && Unfinished(s)
    requires s.phase.WindowGates? ==> !s.phase.gate.AwaitSource?
    ensures Good(o, s, Next(o, s, GoodAnswer(o, s)))
  {
    hide NextStart, NextRecoveryGate, NextWindowGate, NextSubmit, NextCheck, Good, WellPosed;
    match s.phase
    case Starting(_) => StartAnswered(o, s);
    case RecoveryGates(_) => RecoveryGateAnswered(o, s, h);
    case WindowGates(_, _) => WindowGateAnswered(o, s, h);
    case Submitting(_, _, _) => SubmissionAnswered(o, s, h);
    case Checking(_) => CheckAnswered(o, s, h);
    case Summarising => SummaryAnswered(o, s);
  }

  lemma SummaryAnswered(o: Options, s: State)
    requires Usable(o) && s.phase.Summarising?
    ensures Good(o, s, Next(o, s, GoodAnswer(o, s)))
  {
    hide NextStart, NextRecoveryGate, NextWindowGate, NextSubmit, NextCheck, CheckOptions;
  }

  /** The gate of a recovery's source run is never met in the loop. */
  lemma NoSourceGateInLoop(o: Options, log: seq<Event>)
    requires Usable(o) && Replay(o, log).phase.WindowGates?
    ensures !Replay(o, log).phase.gate.AwaitSource?
  {
    hide Next, CheckOptions;
    assert log != [];
    var s, e := Replay(o, log[..|log| - 1]), log[|log| - 1];
    if Replay(o, log).phase.gate.AwaitSource? {
      OnlyGatesLeadOn(o, s, e);
      GatesSkipSource(o, s, e);
    }
  }

  lemma GatesSkipSource(o: Options, s: State, e: Event)
    requires o.windowSize > 0 && o.checkpointInterval > 0 && s.phase.WindowGates?
    ensures var next := NextWindowGate(o, s, s.phase.gate, s.phase.plan, e).phase;
      next.WindowGates? ==> !next.gate.AwaitSource?
  {
    hide PlanWindow, LabelFits, ForwardAdjacent, PlanningEdge, CursorMatches, EffectiveFirstWindowStart, Budget;
  }

  /** Every favourable log that follows the protocol and has not ended can be continued
      by a favourable answer, and each such answer brings the end closer. */
  lemma FavourableLogsExtend(o: Options, log: seq<Event>)
    requires Usable(o) && WellPosed(o) && FavourableRun(o, log) && Follows(o, log) && !Replay(o, log).phase.Ended?
    ensures var log' := log + [GoodAnswer(o, Replay(o, log))];
      FavourableRun(o, log') && Follows(o, log') && Closer(o, Replay(o, log), Replay(o, log'))
  {
    hide Next, CheckOptions, Inv, WellPosed, GoodAnswer, Favourable, Closer;
    var s := Replay(o, log);
    FavourableRunIsUntroubled(o, log);
    EveryRun(o, log);
    if s.phase.WindowGates? {
      NoSourceGateInLoop(o, log);
    }
    EveryStateIsAnswered(o, s, HistoryOf(log));
    ReplaySnoc(o, log, GoodAnswer(o, s));
    assert (log + [GoodAnswer(o, s)])[..|log|] == log;
  }

  /** From every favourable log a favourable finished run can be reached. */
  lemma Complete(o: Options, log: seq<Event>) returns (full: seq<Event>, summary: Summary)
    requires Usable(o) && WellPosed(o) && FavourableRun(o, log) && Follows(o, log)
    ensures log <= full && FavourableRun(o, full) && Finished(o, full, summary)
    decreases Stage(Replay(o, log).phase), WindowsLeft(o, Replay(o, log)), Rank(Replay(o, log).phase)
  {
    hide Replay, FavourableRun, CheckOptions, WellPosed, GoodAnswer, Stage, WindowsLeft, Rank;
    if Replay(o, log).phase.Ended? {
      full, summary := log, Replay(o, log).phase.summary;
    } else {
      FavourableLogsExtend(o, log);
      full, summary := Complete(o, log + [GoodAnswer(o, Replay(o, log))]);
    }
  }

  /** For all well-posed options a favourable finished run exists, so the theorems about
      such runs are about something. */
  lemma FavourableRunsExist(o: Options)
    requires Usable(o) && WellPosed(o)
    ensures exists log, summary :: FavourableRun(o, log) && Finished(o, log, summary)
  {
    hide Replay, CheckOptions, WellPosed;
    StartFollows(o);
    var full, summary := Complete(o, []);
  }

  lemma StartFollows(o: Options)
    requires Usable(o)
    ensures Follows(o, [])
  {
  }
}
