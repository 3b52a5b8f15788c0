/** How a campaign starts: the five interactions that every campaign has behind it which
    got past its start, and what it knows of them ever after. */
module CampaignStart {
  import opened Base
  import opened SyncPrimitives
  import opened RecoveryWarnings
  import opened CampaignPlan
  import opened CampaignMachine

  /** The answer with which the first interactions of a run must be passed, one by one. */
  predicate StartAnswer(s: State, e: Event, i: nat) {
    match i
    case 0 => e == GitHead(Got(s.head))
    case 1 => e == WorkingTree(Got(true))
    case 2 => e == Health(true, s.appEnv)
    case 3 => e == WalletLookup(Got(Some(s.walletId)))
    case 4 => e == Write(CampaignStart, true)
    case _ => true
  }

  function StartIndex(step: StartStep): nat {
    match step
    case AwaitHead => 0
    case AwaitTree => 1
    case AwaitBaseline => 2
    case AwaitWallet => 3
    case AwaitStartRecord => 4
  }

  predicate StartPassed(s: State, log: seq<Event>, n: nat) {
    n <= |log| && forall i :: 0 <= i < n ==> StartAnswer(s, log[i], i)
  }

  /** The one way in which an accepted campaign rejects: the working tree or the wallet
      could not be read at its start. */
  predicate Crash(log: seq<Event>) {
    || (|log| == 2 && log[1] == WorkingTree(Threw))
    || (|log| == 4 && log[3] == WalletLookup(Threw))
  }

  predicate PastStart(phase: Phase) {
    !phase.Starting? && !phase.Stopping? && !phase.Ended? && !phase.Crashed? && !phase.Stuck?
  }

  /** A campaign past its start has had every answer it needs and still knows them; one
      that ended at its start did so within five interactions. */
  predicate Baseline(s: State, log: seq<Event>) {
    match s.phase
    case Starting(step) => |log| == StartIndex(step) && StartPassed(s, log, |log|)
    case Stopping(_) => |log| <= 4 || StartPassed(s, log, 5)
    case Ended(_) => |log| <= 5 || StartPassed(s, log, 5)
    case Crashed => Crash(log)
    case Stuck => true
    case _ => StartPassed(s, log, 5)
  }

  lemma BaselineStep(o: Options, s: State, log: seq<Event>, e: Event)
    requires o.windowSize > 0 && o.checkpointInterval > 0 && Baseline(s, log)
    ensures Baseline(Next(o, s, e), log + [e])
  {
    hide Baseline, NextStart, NextRecoveryGate, NextWindowGate, NextSubmit, NextCheck;
    if s.phase.Starting? {
      StartKeepsBaseline(o, s, log, e);
    } else {
      IdentityKept(o, s, e);
      PastStartKeepsBaseline(s, log, e, Next(o, s, e));
    }
  }

  lemma StartKeepsBaseline(o: Options, s: State, log: seq<Event>, e: Event)
    requires o.windowSize > 0 && o.checkpointInterval > 0 && s.phase.Starting? && Baseline(s, log)
    ensures Baseline(Next(o, s, e), log + [e])
  {
    hide NextRecoveryGate, NextWindowGate, NextSubmit, NextCheck, IntendedRecovery;
  }

  /** Past the start, the head, the server and the wallet of the start are kept. */
  predicate SameIdentity(s: State, next: State) {
    && next.head == s.head && next.appEnv == s.appEnv && next.walletId == s.walletId
    && !next.phase.Starting? && !next.phase.Crashed?
  }

  lemma IdentityKept(o: Options, s: State, e: Event)
    requires o.windowSize > 0 && o.checkpointInterval > 0 && !s.phase.Starting?
    ensures SameIdentity(s, Next(o, s, e))
    ensures s.phase.Stopping? ==> Next(o, s, e).phase.Ended? || Next(o, s, e).phase.Stuck?
    ensures s.phase.Ended? || s.phase.Crashed? || s.phase.Stuck? ==> Next(o, s, e).phase.Stuck?
  {
    hide NextStart, NextRecoveryGate, NextWindowGate, NextSubmit, NextCheck;
    match s.phase
    case RecoveryGates(step) =>
      if o.recovery.Some? {
        RecoveryGateKeepsIdentity(o, s, step, e);
      }
    case WindowGates(step, plan) => WindowGateKeepsIdentity(o, s, step, plan, e);
    case Submitting(target, request, step) => SubmitKeepsIdentity(o, s, target, request, step, e);
    case Checking(step) => CheckKeepsIdentity(o, s, step, e);
    case _ =>
  }

  lemma RecoveryGateKeepsIdentity(o: Options, s: State, step: GateStep, e: Event)
    requires o.recovery.Some?
    ensures SameIdentity(s, NextRecoveryGate(o, s, step, e))
  {
    hide EligibleSource, CursorMatches, LabelFits, IntendedRecovery;
  }

  lemma WindowGateKeepsIdentity(o: Options, s: State, step: GateStep, plan: WindowPlan, e: Event)
    requires o.windowSize > 0 && o.checkpointInterval > 0
    ensures SameIdentity(s, NextWindowGate(o, s, step, plan, e))
  {
    hide PlanWindow, LabelFits, ForwardAdjacent, PlanningEdge, CursorMatches, EffectiveFirstWindowStart, Budget;
  }

  lemma SubmitKeepsIdentity(o: Options, s: State, target: Target, request: Request, step: SubmitStep, e: Event)
    requires o.checkpointInterval > 0
    ensures SameIdentity(s, NextSubmit(o, s, target, request, step, e))
  {
    hide Accepts, ReconciledWith, CursorMatches, Budget, NextRowCheck;
  }

  lemma CheckKeepsIdentity(o: Options, s: State, step: CheckStep, e: Event)
    ensures SameIdentity(s, NextCheck(o, s, step, e))
  {
    hide CursorMatches, PlannedWithinBoundary, Budget;
  }

  lemma PastStartKeepsBaseline(s: State, log: seq<Event>, e: Event, next: State)
    requires Baseline(s, log) && !s.phase.Starting? && SameIdentity(s, next)
    requires s.phase.Stopping? ==> next.phase.Ended? || next.phase.Stuck?
    requires s.phase.Ended? || s.phase.Crashed? || s.phase.Stuck? ==> next.phase.Stuck?
    ensures Baseline(next, log + [e])
  {
    hide StartAnswer, Crash;
    if StartPassed(s, log, 5) {
      StartStays(s, log, e, next);
    }
  }

  lemma StartStays(s: State, log: seq<Event>, e: Event, next: State)
    requires StartPassed(s, log, 5) && SameIdentity(s, next)
    ensures StartPassed(next, log + [e], 5)
  {
  }

  lemma {:induction false} BaselineKept(o: Options, log: seq<Event>)
    requires Usable(o)
    ensures Baseline(Replay(o, log), log)
  {
    hide Next, CheckOptions, Baseline;
    if log != [] {
      var front, e := log[..|log| - 1], log[|log| - 1];
      BaselineKept(o, front);
      BaselineStep(o, Replay(o, front), front, e);
      assert front + [e] == log;
    } else {
      StartBaseline(o);
    }
  }

  lemma StartBaseline(o: Options)
    requires Usable(o)
    ensures Baseline(Init(o), [])
  {
  }

  /** What the first four answers of a run were, as far as it knows them later. */
  lemma StartRead(o: Options, log: seq<Event>)
    requires Usable(o) && PastStart(Replay(o, log).phase)
    ensures |log| >= 5 && log[4] == Write(CampaignStart, true)
    ensures var s := Replay(o, log);
      && log[0] == GitHead(Got(s.head)) && log[1] == WorkingTree(Got(true)) && log[2] == Health(true, s.appEnv)
      && log[3] == WalletLookup(Got(Some(s.walletId))) && s.walletId == WalletOf(log)
  {
    hide Replay, CheckOptions;
    BaselineKept(o, log);
    var s := Replay(o, log);
    assert StartAnswer(s, log[0], 0) && StartAnswer(s, log[1], 1) && StartAnswer(s, log[2], 2);
    assert StartAnswer(s, log[3], 3) && StartAnswer(s, log[4], 4);
  }

  /** The wallet read at the start. */
  function WalletOf(log: seq<Event>): string {
    if |log| <= 3 then ""
    else
      match log[3]
      case WalletLookup(Got(Some(id))) => id
      case _ => ""
  }

  /** A campaign of more than five interactions has read its git head, found a clean tree,
      a healthy server and its wallet, and durably recorded its start. */
  lemma EveryStartIsGated(o: Options, log: seq<Event>)
    requires Usable(o) && Follows(o, log) && |log| > 5
    ensures log[0].GitHead? && log[0].head.Got? && log[1] == WorkingTree(Got(true))
    ensures log[2].Health? && log[2].ok
    ensures log[3].WalletLookup? && log[3].id.Got? && log[3].id.value.Some?
    ensures log[4] == Write(CampaignStart, true)
  {
    hide Replay, CheckOptions;
    BaselineKept(o, log);
    var s := Replay(o, log);
    assert StartAnswer(s, log[0], 0) && StartAnswer(s, log[1], 1) && StartAnswer(s, log[2], 2);
    assert StartAnswer(s, log[3], 3) && StartAnswer(s, log[4], 4);
  }
}
