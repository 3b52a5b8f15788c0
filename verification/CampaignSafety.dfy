/** What every run of a campaign keeps, whatever its environment answers. */
module CampaignSafety {
  import opened Base
  import opened SyncPrimitives
  import opened RecoveryWarnings
  import opened CampaignPlan
  import opened CampaignMachine
  import Arithmetic

  // ----- the observable history of a log

  /** What an outside observer can tell from the interactions alone. */
  datatype History = History(
    recoveryPosts: seq<Request>,
    posts: seq<WindowPlan>,
    planned: seq<WindowPlan>,
    completed: seq<WindowPlan>,
    checkpoints: nat,
    postsSinceCheckpoint: nat)

  const NOTHING_YET: History := History([], [], [], [], 0, 0)

  function Observe(h: History, e: Event): History {
    match e
    case Post(RecoveryWindow, request, _) =>
      h.(recoveryPosts := h.recoveryPosts + [request], postsSinceCheckpoint := h.postsSinceCheckpoint + 1)
    case Post(OrdinaryWindow(number), request, _) =>
      h.(posts := h.posts + [WindowPlan(number, request)], postsSinceCheckpoint := h.postsSinceCheckpoint + 1)
    case Write(record, true) => Append(h, record)
    case _ => h
  }

  /** The effect of a durable record. */
  function Append(h: History, record: Record): History {
    match record
    case WindowPlanned(number, request) => h.(planned := h.planned + [WindowPlan(number, request)])
    case WindowResult(number, request, _, true) => h.(completed := h.completed + [WindowPlan(number, request)])
    case Checkpoint(_, _, true) => h.(checkpoints := h.checkpoints + 1, postsSinceCheckpoint := 0)
    case _ => h
  }

  function HistoryOf(log: seq<Event>): History {
    if log == [] then NOTHING_YET else Observe(HistoryOf(log[..|log| - 1]), log[|log| - 1])
  }

  /** The last record the evidence destination acknowledged. */
  function LastDurable(log: seq<Event>): Option<Record> {
    if log == [] then None
    else
      match log[|log| - 1]
      case Write(record, true) => Some(record)
      case _ => LastDurable(log[..|log| - 1])
  }

  // ----- the inductive invariant

  /** The numeric facts about accepted options that the invariant uses. */
  predicate Sized(o: Options, windowCount: nat) {
    && o.windowSize == REQUIRED_WINDOW_SIZE
    && 1 <= o.maxWindows
    && 1 <= o.checkpointInterval <= MAX_CHECKPOINT_INTERVAL
    && 1 <= windowCount
    && o.authorizedFinalBlock == EffectiveFirstWindowStart(o) + REQUIRED_WINDOW_SIZE * windowCount - 1
  }

  /** One if a recovery window has really been resubmitted and verified. */
  function Recovered(l: Loop): nat {
    if l.recovery == Some(RecoveryReport(true, true)) then 1 else 0
  }

  function Edge(o: Options, n: nat): int {
    EffectiveFirstWindowStart(o) + REQUIRED_WINDOW_SIZE * n
  }

  /** Posts since the last checkpoint after p counted windows, when all are counted. */
  function Spacing(c: int, p: nat, passed: nat, pending: bool): int
    requires c > 0
  {
    if passed == 0 then p else if pending then c else p % c
  }

  function SpacingBound(o: Options): int {
    if o.checkpointInterval >= 2 then o.checkpointInterval
    else if o.recovery.Some? then 2 else 1
  }

  predicate FreshCounters(o: Options, l: Loop) {
    && l.iteration == l.windowsCompleted == l.checkpointsPassed == l.processed == 0
    && l.lastWindowNumber.None? && l.simulatedTo.None?
    && l.expectedTo == o.expectedCursorTo
  }

  /** After `done` whole windows, with `flying` (0 or 1) posted but not yet recorded. */
  predicate Progress(o: Options, l: Loop, h: History, done: nat, flying: nat) {
    && done + flying <= Budget(o, l) && flying <= 1
    && l.processed == Recovered(l) + done
    && l.lastWindowNumber == (if done == 0 then None else Some(FirstOrdinaryNumber(o) + done - 1))
    && (done + flying > 0 ==> AtFirstWindow(o))
    && (if o.execute then Executed(o, l, h, done, flying) else Previewed(o, l, h, done) && flying == 0)
  }

  predicate Executed(o: Options, l: Loop, h: History, done: nat, flying: nat) {
    && l.windowsCompleted == done
    && l.expectedTo == (if done == 0 then o.expectedCursorTo else Edge(o, done) - 1)
    && l.simulatedTo.None?
    && h.planned == []
    && h.posts == IntendedWindows(o, done + flying)
    && h.completed == IntendedWindows(o, done)
    && Recovered(l) == (if o.recovery.Some? then 1 else 0)
    && h.recoveryPosts == (if o.recovery.Some? then [IntendedRecovery(o)] else [])
  }

  predicate Previewed(o: Options, l: Loop, h: History, done: nat) {
    && l.windowsCompleted == 0
    && l.expectedTo == o.expectedCursorTo
    && l.simulatedTo == (if done == 0 then None else Some(Edge(o, done) - 1))
    && h.planned == IntendedWindows(o, done)
    && h.posts == [] && h.completed == [] && h.recoveryPosts == []
    && Recovered(l) == 0
  }

  /** Checkpoints passed so far; `pending` while one is due but not yet passed. */
  predicate Spaced(o: Options, l: Loop, h: History, done: nat, flying: nat, pending: bool)
    requires o.checkpointInterval > 0
  {
    var c, p := o.checkpointInterval, Recovered(l) + done;
    && h.checkpoints == l.checkpointsPassed
    && l.checkpointsPassed + (if pending then 1 else 0) == p / c - Recovered(l) / c
    && (pending ==> p % c == 0)
    && (o.execute ==> h.postsSinceCheckpoint == Spacing(c, p, l.checkpointsPassed, pending) + flying)
  }

  /** What holds once nothing but a stop record can follow. */
  predicate Outcome(o: Options, windowCount: nat, h: History, windowsCompleted: nat, checkpointsPassed: nat) {
    && |h.recoveryPosts| <= 1
    && (h.recoveryPosts != [] ==> o.execute && o.recovery.Some? && h.recoveryPosts == [IntendedRecovery(o)])
    && h.checkpoints == checkpointsPassed
    && (o.execute ==> h.postsSinceCheckpoint <= SpacingBound(o))
    && (if o.execute then
          && h.planned == []
          && |h.posts| <= Min(o.maxWindows, windowCount)
          && h.posts == IntendedWindows(o, |h.posts|)
          && windowsCompleted <= |h.posts| <= windowsCompleted + 1
          && h.completed == IntendedWindows(o, windowsCompleted)
        else
          && h.posts == [] && h.completed == [] && h.recoveryPosts == [] && windowsCompleted == 0
          && |h.planned| <= Min(o.maxWindows, windowCount)
          && h.planned == IntendedWindows(o, |h.planned|))
  }

  /** What a clean stop reason adds. */
  predicate CleanOutcome(o: Options, l: Loop, h: History, summary: Summary)
    requires o.checkpointInterval > 0
  {
    var n := Budget(o, l);
    var r := if o.execute && o.recovery.Some? then 1 else 0;
    && n >= 1
    && summary.reason == (if o.maxWindows <= l.windowCount then MaxWindowsReached else AuthorizedFinalBlockReached)
    && summary.windowsCompleted == (if o.execute then n else 0)
    && summary.lastWindowNumber == Some(FirstOrdinaryNumber(o) + n - 1)
    && AtFirstWindow(o)
    && (if o.execute then h.posts == IntendedWindows(o, n) else h.planned == IntendedWindows(o, n))
    && |h.recoveryPosts| == r
    && summary.checkpointsPassed == (r + n) / o.checkpointInterval - r / o.checkpointInterval
  }

  predicate AtFrontier(o: Options) {
    o.recovery.Some? ==> o.expectedCursorTo == IntendedRecovery(o).endBlock
  }

  predicate AtFirstWindow(o: Options) {
    o.expectedCursorTo + 1 == EffectiveFirstWindowStart(o)
  }

  predicate InvGates(o: Options, l: Loop, h: History, step: GateStep, plan: WindowPlan)
    requires o.checkpointInterval > 0
  {
    && Progress(o, l, h, l.iteration, 0)
    && Spaced(o, l, h, l.iteration, 0, false)
    && l.iteration < Budget(o, l)
    && (step.AwaitCursor? || (plan == IntendedWindow(o, l.iteration) && AtFirstWindow(o)))
    && (step.AwaitPlanRecord? ==> !o.execute)
  }

  predicate InvRecovery(o: Options, l: Loop, h: History, request: Request, step: SubmitStep) {
    && o.recovery.Some? && o.execute && AtFrontier(o)
    && request == IntendedRecovery(o)
    && FreshCounters(o, l)
    && h == (if step.AwaitPost? then NOTHING_YET
         else NOTHING_YET.(recoveryPosts := [request], postsSinceCheckpoint := 1))
    && (if step.AwaitResultRecord? then l.recovery == Some(RecoveryReport(true, step.clean)) else Recovered(l) == 0)
  }

  predicate InvSubmit(o: Options, l: Loop, h: History, number: nat, request: Request, step: SubmitStep)
    requires o.checkpointInterval > 0
  {
    var flying := if step.AwaitPost? then 0 else 1;
    && o.execute
    && Progress(o, l, h, l.iteration, flying)
    && Spaced(o, l, h, l.iteration, flying, false)
    && l.iteration < Budget(o, l)
    && AtFirstWindow(o)
    && WindowPlan(number, request) == IntendedWindow(o, l.iteration)
  }

  predicate InvCounted(o: Options, l: Loop, h: History, done: nat, pending: bool)
    requires o.checkpointInterval > 0
  {
    && Progress(o, l, h, done, 0)
    && Spaced(o, l, h, done, 0, pending)
  }

  predicate Inv(o: Options, s: State, h: History) {
    && Sized(o, s.loop.windowCount)
    && match s.phase
       case Starting(_) => FreshCounters(o, s.loop) && s.loop.recovery.None? && h == NOTHING_YET
       case RecoveryGates(step) =>
         && FreshCounters(o, s.loop) && Recovered(s.loop) == 0 && h == NOTHING_YET
         && o.recovery.Some? && AtFrontier(o) && (step.AwaitPlanRecord? ==> !o.execute)
       case WindowGates(step, plan) => InvGates(o, s.loop, h, step, plan)
       case Submitting(target, request, step) =>
         if target.RecoveryWindow? then InvRecovery(o, s.loop, h, request, step)
         else InvSubmit(o, s.loop, h, target.number, request, step)
       case Checking(_) => InvCounted(o, s.loop, h, s.loop.iteration + 1, true)
       case Summarising => s.loop.iteration == Budget(o, s.loop) && InvCounted(o, s.loop, h, s.loop.iteration, false)
       case Stopping(summary) => Stopped(o, s.loop, h, summary) && !summary.reason.Clean()
       case Ended(summary) => Stopped(o, s.loop, h, summary)
         && (summary.reason.Clean() ==> CleanOutcome(o, s.loop, h, summary))
       case Crashed => h == NOTHING_YET
       case Stuck => true
  }

  predicate Stopped(o: Options, l: Loop, h: History, summary: Summary) {
    && !summary.reason.AdjacencyViolation? && !summary.reason.AuthorizedFinalBlockExceeded?
    && Outcome(o, l.windowCount, h, summary.windowsCompleted, summary.checkpointsPassed)
  }

  // ----- the bound on the spacing of checkpoints

  lemma SpacingBounded(o: Options, l: Loop, h: History, done: nat, flying: nat, pending: bool)
    requires o.checkpointInterval > 0 && o.execute && flying <= 1 && (pending ==> flying == 0)
    requires Recovered(l) == 1 ==> o.recovery.Some?
    requires Spaced(o, l, h, done, flying, pending)
    ensures h.postsSinceCheckpoint <= SpacingBound(o)
  {
    var c, r, p := o.checkpointInterval, Recovered(l), Recovered(l) + done;
    if c == 1 {
      Arithmetic.DivOne(p);
      Arithmetic.DivOne(r);
      assert p % c == 0;
    } else {
      Arithmetic.SmallQuotient(r, c);
      Arithmetic.QuotientAtMostOne(p, c);
    }
  }

  /** The loop may stop at any point. */
  lemma StopFromLoop(o: Options, l: Loop, h: History, done: nat, flying: nat, pending: bool)
    requires Sized(o, l.windowCount) && Progress(o, l, h, done, flying) && Spaced(o, l, h, done, flying, pending)
    requires pending ==> flying == 0
    ensures Outcome(o, l.windowCount, h, l.windowsCompleted, l.checkpointsPassed)
  {
    if o.execute {
      SpacingBounded(o, l, h, done, flying, pending);
    }
  }

  /** Before any window, a run may stop, or enter the loop. */
  lemma FreshRun(o: Options, l: Loop, h: History)
    requires Sized(o, l.windowCount) && FreshCounters(o, l) && Recovered(l) == 0 && h == NOTHING_YET
    ensures Outcome(o, l.windowCount, h, 0, 0)
    ensures !o.execute || o.recovery.None? ==> InvGates(o, l, h, AwaitCursor, NO_PLAN)
  {
    Arithmetic.SmallQuotient(0, o.checkpointInterval);
  }

  /** After the one recovery post, a run may stop, or enter the loop once it is verified. */
  lemma RecoveryPosted(o: Options, l: Loop, h: History, request: Request)
    requires Sized(o, l.windowCount) && FreshCounters(o, l) && o.execute && o.recovery.Some?
    requires request == IntendedRecovery(o)
    requires h == NOTHING_YET.(recoveryPosts := [request], postsSinceCheckpoint := 1)
    ensures Outcome(o, l.windowCount, h, 0, 0)
    ensures Recovered(l) == 1 ==> InvGates(o, l.(processed := 1), h, AwaitCursor, NO_PLAN)
  {
  }

  // ----- one step, by phase

  lemma StartStep(o: Options, s: State, h: History, e: Event)
    requires s.phase.Starting? && Inv(o, s, h)
    ensures Inv(o, NextStart(o, s, s.phase.start, e), Observe(h, e))
  {
    hide Outcome, InvGates;
    FreshRun(o, s.loop, h);
    FreshRun(o, s.loop.(recovery := Some(RecoveryReport(false, false))), h);
  }

  lemma RecoveryGateStep(o: Options, s: State, h: History, e: Event)
    requires s.phase.RecoveryGates? && Inv(o, s, h)
    ensures Inv(o, NextRecoveryGate(o, s, s.phase.gate, e), Observe(h, e))
  {
    hide Outcome, InvGates, InvSubmit, InvCounted, CleanOutcome, EligibleSource;
    FreshRun(o, s.loop, h);
    FreshRun(o, s.loop.(recovery := Some(RecoveryReport(true, false))), h);
  }

  /** Once the cursor has matched, the plan is the intended next window. */
  lemma CursorMatched(o: Options, s: State, h: History, cursor: Cursor)
    requires s.phase.WindowGates? && s.phase.gate.AwaitCursor? && Inv(o, s, h)
    requires cursor == Cursor(o.expectedCursorFrom, s.loop.expectedTo)
    ensures Inv(o, AfterCursor(o, s, cursor), h)
  {
    StopFromLoop(o, s.loop, h, s.loop.iteration, 0, false);
    PlannerMeetsIntent(o, s.loop.iteration);
    hide Outcome, Spaced, LogicalWindowNumber;
  }

  lemma CursorGateStep(o: Options, s: State, h: History, e: Event)
    requires s.phase.WindowGates? && s.phase.gate.AwaitCursor? && Inv(o, s, h)
    ensures Inv(o, NextWindowGate(o, s, s.phase.gate, s.phase.plan, e), Observe(h, e))
  {
    hide Outcome, AfterCursor, AfterWindow, Progress, Spaced, IntendedWindow;
    StopFromLoop(o, s.loop, h, s.loop.iteration, 0, false);
    if e == CursorRead(Got(Some(Cursor(o.expectedCursorFrom, s.loop.expectedTo)))) {
      CursorMatched(o, s, h, Cursor(o.expectedCursorFrom, s.loop.expectedTo));
    }
  }

  lemma WindowGateStep(o: Options, s: State, h: History, e: Event)
    requires s.phase.WindowGates? && !s.phase.gate.AwaitCursor? && !s.phase.gate.AwaitPlanRecord? && Inv(o, s, h)
    ensures Inv(o, NextWindowGate(o, s, s.phase.gate, s.phase.plan, e), Observe(h, e))
  {
    hide Progress, Spaced, Outcome, AfterCursor, AfterWindow, IntendedWindow, AtFirstWindow;
    StopFromLoop(o, s.loop, h, s.loop.iteration, 0, false);
  }

  /** Adding the k-th intended window extends the intended sequence by one. */
  lemma IntendedSnoc(o: Options, k: nat)
    ensures IntendedWindows(o, k) + [IntendedWindow(o, k)] == IntendedWindows(o, k + 1)
  {
  }

  /** Counting a window leads to a due checkpoint or to the next window. */
  lemma WindowCounted(o: Options, s: State, h: History)
    requires Sized(o, s.loop.windowCount) && s.loop.iteration < Budget(o, s.loop)
    requires Progress(o, s.loop, h, s.loop.iteration + 1, 0)
    requires h.checkpoints == s.loop.checkpointsPassed
    requires var c, p := o.checkpointInterval, Recovered(s.loop) + s.loop.iteration;
      && s.loop.checkpointsPassed == p / c - Recovered(s.loop) / c
      && (o.execute ==> h.postsSinceCheckpoint == Spacing(c, p, s.loop.checkpointsPassed, false) + 1)
    ensures Inv(o, AfterWindow(o, s), h)
  {
    hide IntendedWindow, IntendedWindows;
    Arithmetic.CountOneMore(Recovered(s.loop) + s.loop.iteration, o.checkpointInterval);
  }

  lemma PlanRecordStep(o: Options, s: State, h: History, e: Event)
    requires s.phase.WindowGates? && s.phase.gate.AwaitPlanRecord? && Inv(o, s, h)
    ensures Inv(o, NextWindowGate(o, s, s.phase.gate, s.phase.plan, e), Observe(h, e))
  {
    hide AfterWindow, AfterCursor, Outcome, InvSubmit, InvRecovery, InvCounted, CleanOutcome, Progress, Spaced,
      IntendedWindow;
    StopFromLoop(o, s.loop, h, s.loop.iteration, 0, false);
    if e == Write(WindowPlanned(s.phase.plan.windowNumber, s.phase.plan.request), true) {
      PreviewCounted(o, s, h, e);
    }
  }

  /** A preview, durably recorded, counts its window. */
  lemma PreviewCounted(o: Options, s: State, h: History, e: Event)
    requires s.phase.WindowGates? && s.phase.gate.AwaitPlanRecord? && Inv(o, s, h)
    requires e == Write(WindowPlanned(s.phase.plan.windowNumber, s.phase.plan.request), true)
    ensures Inv(o, AfterWindow(o, s.(loop := CountPreview(s.loop, s.phase.plan))), Observe(h, e))
  {
    hide AfterWindow, InvSubmit, InvRecovery, InvCounted, Stopped, CleanOutcome;
    IntendedSnoc(o, s.loop.iteration);
    WindowCounted(o, s.(loop := CountPreview(s.loop, s.phase.plan)), Observe(h, e));
  }

  lemma RecoveryPostStep(o: Options, s: State, h: History, e: Event)
    requires s.phase.Submitting? && s.phase.target.RecoveryWindow? && s.phase.submit.AwaitPost? && Inv(o, s, h)
    ensures Inv(o, NextSubmit(o, s, s.phase.target, s.phase.request, s.phase.submit, e), Observe(h, e))
  {
    hide Outcome, InvGates, InvSubmit, InvCounted, CleanOutcome, AfterWindowRecord, AfterRecoveryRecord;
    if e.Post? && e.target == s.phase.target && e.request == s.phase.request {
      RecoveryPosted(o, s.loop, Observe(h, e), s.phase.request);
    }
  }

  lemma RecoverySubmitStep(o: Options, s: State, h: History, e: Event)
    requires s.phase.Submitting? && s.phase.target.RecoveryWindow? && Inv(o, s, h)
    requires !s.phase.submit.AwaitPost? && !s.phase.submit.AwaitResultRecord?
    ensures Inv(o, NextSubmit(o, s, s.phase.target, s.phase.request, s.phase.submit, e), Observe(h, e))
  {
    hide Outcome, InvGates, InvSubmit, InvCounted, CleanOutcome, Accepts, ReconciledWith, AfterWindowRecord,
      AfterRecoveryRecord;
    RecoveryPosted(o, s.loop, h, s.phase.request);
  }

  lemma RecoveryRecordStep(o: Options, s: State, h: History, e: Event)
    requires s.phase.Submitting? && s.phase.target.RecoveryWindow? && s.phase.submit.AwaitResultRecord? && Inv(o, s, h)
    ensures Inv(o, NextSubmit(o, s, s.phase.target, s.phase.request, s.phase.submit, e), Observe(h, e))
  {
    hide Outcome, InvGates, InvSubmit, InvCounted, CleanOutcome, Accepts, ReconciledWith, AfterWindowRecord;
    RecoveryPosted(o, s.loop, h, s.phase.request);
  }

  lemma PostStep(o: Options, s: State, h: History, e: Event)
    requires s.phase.Submitting? && s.phase.target.OrdinaryWindow? && s.phase.submit.AwaitPost? && Inv(o, s, h)
    ensures Inv(o, NextSubmit(o, s, s.phase.target, s.phase.request, s.phase.submit, e), Observe(h, e))
  {
    hide Outcome, AfterRecoveryRecord, AfterWindowRecord;
    var h' := Observe(h, e);
    if e.Post? && e.target == s.phase.target && e.request == s.phase.request {
      IntendedSnoc(o, s.loop.iteration);
      assert Progress(o, s.loop, h', s.loop.iteration, 1) && Spaced(o, s.loop, h', s.loop.iteration, 1, false);
      StopFromLoop(o, s.loop, h', s.loop.iteration, 1, false);
    }
  }

  lemma SubmitStep(o: Options, s: State, h: History, e: Event)
    requires s.phase.Submitting? && s.phase.target.OrdinaryWindow? && Inv(o, s, h)
    requires !s.phase.submit.AwaitPost? && !s.phase.submit.AwaitResultRecord?
    ensures Inv(o, NextSubmit(o, s, s.phase.target, s.phase.request, s.phase.submit, e), Observe(h, e))
  {
    hide Progress, Spaced, Outcome, IntendedWindow, AtFirstWindow, Accepts, ReconciledWith, AfterWindowRecord,
      AfterRecoveryRecord;
    StopFromLoop(o, s.loop, h, s.loop.iteration, 1, false);
  }

  lemma ResultRecordStep(o: Options, s: State, h: History, e: Event)
    requires s.phase.Submitting? && s.phase.target.OrdinaryWindow? && s.phase.submit.AwaitResultRecord? && Inv(o, s, h)
    ensures Inv(o, NextSubmit(o, s, s.phase.target, s.phase.request, s.phase.submit, e), Observe(h, e))
  {
    hide AfterWindow, AfterRecoveryRecord, Outcome, Accepts, ReconciledWith, InvGates, InvRecovery, InvCounted,
      CleanOutcome, Progress, Spaced, AtFirstWindow, IntendedWindow;
    StopFromLoop(o, s.loop, h, s.loop.iteration, 1, false);
    var record := WindowResult(s.phase.target.number, s.phase.request, s.phase.submit.runId, s.phase.submit.clean);
    if e == Write(record, true)
       && s.phase.submit.clean {
      ResultCounted(o, s, h, e);
    }
  }

  /** A clean result, durably recorded, counts its window. */
  lemma ResultCounted(o: Options, s: State, h: History, e: Event)
    requires s.phase.Submitting? && s.phase.target.OrdinaryWindow? && s.phase.submit.AwaitResultRecord? && Inv(o, s, h)
    requires e == Write(WindowResult(s.phase.target.number, s.phase.request, s.phase.submit.runId, true), true)
    ensures var counted := CountWindow(s.loop, WindowPlan(s.phase.target.number, s.phase.request));
      Inv(o, AfterWindow(o, s.(loop := counted)), Observe(h, e))
  {
    hide AfterWindow, InvGates, InvRecovery, InvCounted, Stopped, CleanOutcome;
    IntendedSnoc(o, s.loop.iteration);
    WindowCounted(o, s.(loop := CountWindow(s.loop, WindowPlan(s.phase.target.number, s.phase.request))),
      Observe(h, e));
  }

  lemma CheckStep(o: Options, s: State, h: History, e: Event)
    requires s.phase.Checking? && !s.phase.check.CheckRecord? && Inv(o, s, h)
    ensures Inv(o, NextCheck(o, s, s.phase.check, e), Observe(h, e))
  {
    hide Progress, Spaced, Outcome, Advance, PlannedWithinBoundary, CursorMatches;
    StopFromLoop(o, s.loop, h, s.loop.iteration + 1, 0, true);
  }

  lemma CheckRecordStep(o: Options, s: State, h: History, e: Event)
    requires s.phase.Checking? && s.phase.check.CheckRecord? && Inv(o, s, h)
    ensures Inv(o, NextCheck(o, s, s.phase.check, e), Observe(h, e))
  {
    hide Progress, Spaced, Outcome, Advance, PlannedWithinBoundary, CursorMatches, InvGates;
    StopFromLoop(o, s.loop, h, s.loop.iteration + 1, 0, true);
    if e.Write? && e.record == Checkpoint(s.loop.processed, s.loop.windowsCompleted, true) && s.phase.check.ok {
      CheckpointPassed(o, s.(loop := s.loop.(checkpointsPassed := s.loop.checkpointsPassed + 1)), s.loop, h);
    }
  }

  lemma CheckpointPassed(o: Options, s: State, before: Loop, h: History)
    requires Sized(o, s.loop.windowCount) && InvCounted(o, before, h, before.iteration + 1, true)
    requires s.loop == before.(checkpointsPassed := before.checkpointsPassed + 1)
    ensures Inv(o, Advance(o, s), h.(checkpoints := h.checkpoints + 1, postsSinceCheckpoint := 0))
  {
    hide IntendedWindow, IntendedWindows;
  }

  lemma SummaryStep(o: Options, s: State, h: History, e: Event)
    requires s.phase.Summarising? && Inv(o, s, h)
    ensures Inv(o, Next(o, s, e), Observe(h, e))
  {
    hide Outcome, NextStart, NextRecoveryGate, NextWindowGate, NextSubmit, NextCheck, IntendedWindow;
    StopFromLoop(o, s.loop, h, s.loop.iteration, 0, false);
  }

  lemma Step(o: Options, s: State, h: History, e: Event)
    requires Inv(o, s, h)
    ensures Inv(o, Next(o, s, e), Observe(h, e))
  {
    hide NextStart, NextRecoveryGate, NextWindowGate, NextSubmit, NextCheck, FreshCounters, InvGates, InvRecovery,
      InvSubmit, InvCounted, Outcome, CleanOutcome, AtFrontier;
    match s.phase
    case Starting(_) => StartStep(o, s, h, e);
    case RecoveryGates(_) => RecoveryGateStep(o, s, h, e);
    case WindowGates(step, _) =>
      if step.AwaitCursor? {
        CursorGateStep(o, s, h, e);
      } else if step.AwaitPlanRecord? {
        PlanRecordStep(o, s, h, e);
      } else {
        WindowGateStep(o, s, h, e);
      }
    case Submitting(target, _, step) =>
      if target.RecoveryWindow? {
        if step.AwaitPost? {
          RecoveryPostStep(o, s, h, e);
        } else if step.AwaitResultRecord? {
          RecoveryRecordStep(o, s, h, e);
        } else {
          RecoverySubmitStep(o, s, h, e);
        }
      } else if step.AwaitPost? {
        PostStep(o, s, h, e);
      } else if step.AwaitResultRecord? {
        ResultRecordStep(o, s, h, e);
      } else {
        SubmitStep(o, s, h, e);
      }
    case Checking(step) =>
      if step.CheckRecord? {
        CheckRecordStep(o, s, h, e);
      } else {
        CheckStep(o, s, h, e);
      }
    case Summarising => SummaryStep(o, s, h, e);
    case Stopping(_) =>
    case Ended(_) =>
    case Crashed =>
    case Stuck =>
  }

  /** The invariant holds after every log of interactions. */
  lemma {:induction false} EveryRun(o: Options, log: seq<Event>)
    requires Usable(o)
    ensures Inv(o, Replay(o, log), HistoryOf(log))
  {
    if log != [] {
      EveryRun(o, log[..|log| - 1]);
      Step(o, Replay(o, log[..|log| - 1]), HistoryOf(log[..|log| - 1]), log[|log| - 1]);
    }
  }
}
