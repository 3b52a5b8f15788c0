/** What the batch sync runner may do next, as a function of its log so far: an optional
    recovery of one earlier window, then at most a few ordinary forward windows. */
module SyncRunnerProtocol {
  import opened Base
  import opened SyncPrimitives
  import opened RecoveryWarnings
  import Arithmetic
  import Decimal
  import CampaignPlan

  /** Options as any caller may build them, checked by the command line or not. */
  datatype Options = Options(
    execute: bool,
    chainId: int,
    expectedCursorFrom: int,
    expectedCursorTo: int,
    firstWindowStart: int,
    windowSize: int,
    maxWindows: int,
    policyLabelPrefix: string,
    recovery: Option<string>,
    recoveryOnly: bool)

  datatype StopReason =
    | RecoveryOnlyRequiresRecoveryMode | WalletNotFound | RecoveryWindowNotAtCursorFrontier | CursorExpectationMismatch
    | RecoverySourceRunIneligible | PolicyLabelOverlong | PolicyLabelCollision | ActiveOperationConflict
    | ServerUnhealthy | FabricatedContaminationPreGate | RecoveryManualSyncSubmitFailed | RecoveryPollTimeout
    | RecoveryInvariantFailedAfterRun | FirstWindowStartMismatch | AdjacencyViolation | ManualSyncSubmitFailed
    | PollTimeout | InvariantFailedAfterRun | RecoveryOnlyCompleted | MaxWindowsReached

  datatype Record =
    | Preflight(recoveryOnly: bool)
    | RecoveryPlanned(request: Request)
    | RecoveryRecord(request: Request, runId: string, recovered: bool)
    | WindowPlanned(request: Request)
    | WindowRecord(request: Request, runId: string, clean: bool)
    | StopRecord(reason: StopReason)
    | SummaryRecord(reason: StopReason)

  /** One call of an injected dependency with its answer. */
  datatype Event =
    | WalletLookup(id: Reply<Option<string>>)
    | CursorRead(cursor: Reply<Option<Cursor>>)
    | SourceRunRead(source: Reply<Option<SyncRun>>)
    | LabelList(labels: Reply<seq<string>>)
    | ActiveRuns(count: Reply<nat>)
    | Health(ok: bool)
    | Rows(check: RowCheck, startBlock: int, endBlock: int, rows: Reply<nat>)
    | Post(request: Request, reply: Reply<Response>)
    | Polled(runId: string, outcome: Reply<Option<SyncRun>>)
    | Write(record: Record, acknowledged: bool)

  // ----- the intended requests

  function Edge(o: Options, k: nat): int {
    o.expectedCursorTo + o.windowSize * k
  }

  /** The k-th ordinary window of the batch, counting from zero. */
  function WindowRequest(o: Options, k: nat): Request {
    Request(Edge(o, k) + 1, Edge(o, k) + o.windowSize, o.policyLabelPrefix + "-" + Decimal.Print(k + 1))
  }

  function RecoveryRequest(o: Options): Request
    requires o.recovery.Some?
  {
    Request(o.firstWindowStart, o.firstWindowStart + o.windowSize - 1,
      CampaignPlan.RecoveryLabel(o.policyLabelPrefix, o.recovery.value))
  }

  function EffectiveFirstWindowStart(o: Options): int {
    if o.recovery.Some? then RecoveryRequest(o).endBlock + 1 else o.firstWindowStart
  }

  lemma NextEdge(o: Options, k: nat)
    ensures Edge(o, k + 1) == Edge(o, k) + o.windowSize == WindowRequest(o, k).endBlock
  {
    Arithmetic.Distribute(o.windowSize, k + 1, k);
  }

  // ----- the monitor

  datatype Flight = Ground | Recovering | Syncing

  /** Whose wallet, whether the recovery is settled and how many windows are done (in a dry
      run: planned), and what has been submitted but not yet verified. */
  datatype Duty = Duty(walletId: string, settled: bool, done: nat, flight: Flight) | Violated

  const START: Duty := Duty("", false, 0, Ground)

  /** The live cursor that must be read before a window: a dry run never moves it. */
  function ExpectedLive(o: Options, done: nat): Cursor {
    Cursor(o.expectedCursorFrom, if o.execute then Edge(o, done) else o.expectedCursorTo)
  }

  predicate WindowGatesPassed(o: Options, log: seq<Event>, done: nat) {
    var request := WindowRequest(o, done);
    && |log| >= 5
    && Last(log, 5) == CursorRead(Got(Some(ExpectedLive(o, done))))
    && Last(log, 4) == ActiveRuns(Got(0))
    && Last(log, 3).LabelList? && Last(log, 3).labels.Got? && request.policyLabel !in Last(log, 3).labels.value
    && Last(log, 2) == Health(true)
    && Last(log, 1) == Rows(FabricatedTransfers, request.startBlock, request.endBlock, Got(0))
    && (done == 0 ==> request.startBlock == EffectiveFirstWindowStart(o))
  }

  predicate RecoveryGatesPassed(o: Options, log: seq<Event>, walletId: string)
    requires o.recovery.Some?
  {
    var request := RecoveryRequest(o);
    && o.expectedCursorTo == request.endBlock
    && LabelFits(request.policyLabel)
    && |log| >= 6
    && Last(log, 6) == CursorRead(Got(Some(Cursor(o.expectedCursorFrom, request.endBlock))))
    && Last(log, 5).SourceRunRead? && Last(log, 5).source.Got?
    && EligibleSource(Last(log, 5).source.value, o.recovery.value, Expectation(walletId, o.chainId, request))
    && Last(log, 4).LabelList? && Last(log, 4).labels.Got? && request.policyLabel !in Last(log, 4).labels.value
    && Last(log, 3) == ActiveRuns(Got(0))
    && Last(log, 2) == Health(true)
    && Last(log, 1) == Rows(FabricatedTransfers, request.startBlock, request.endBlock, Got(0))
  }

  /** The verifier the runner applies to a run read back: the recovery one or the strict one. */
  predicate Accepts(recovering: bool, run: SyncRun, want: Expectation) {
    if recovering then RecoveryAcceptable(run, want) else StrictlyClean(run, want)
  }

  predicate RowsCounted(e: Event, check: RowCheck, request: Request) {
    e.Rows? && e.check == check && e.startBlock == request.startBlock && e.endBlock == request.endBlock && e.rows.Got?
  }

  /** What must stand directly before a record that judges a window: its own accepted
      submission, the poll of the very run the server named then, and six more answers. */
  predicate ChecksRead(log: seq<Event>, runId: string, request: Request) {
    && |log| >= 8 && runId != ""
    && Last(log, 8) == Post(request, Got(Response(202, runId)))
    && Last(log, 7).Polled? && Last(log, 7).runId == runId && Last(log, 7).outcome.Got?
    && Last(log, 7).outcome.value.Some?
    && Last(log, 6).CursorRead? && Last(log, 6).cursor.Got?
    && RowsCounted(Last(log, 5), FabricatedTransfers, request)
    && RowsCounted(Last(log, 4), DuplicateTransactions, request)
    && RowsCounted(Last(log, 3), DuplicateTransfers, request)
    && RowsCounted(Last(log, 2), DuplicateLedgerEntries, request)
    && Last(log, 1).ActiveRuns? && Last(log, 1).count.Got?
  }

  /** The window is clean: its run is acceptable, the cursor stands at its end, nothing is
      contaminated or duplicated in its range, and no operation is active. */
  predicate ChecksPassed(o: Options, log: seq<Event>, runId: string, want: Expectation, recovering: bool) {
    && ChecksRead(log, runId, want.request)
    && Accepts(recovering, Last(log, 7).outcome.value.value, want)
    && Last(log, 6).cursor.value == Some(Cursor(o.expectedCursorFrom, want.request.endBlock))
    && Last(log, 5).rows.value == Last(log, 4).rows.value == Last(log, 3).rows.value == Last(log, 2).rows.value == 0
    && Last(log, 1).count.value == 0
  }

  /** An ordinary window may be planned: never in recovery-only mode, and after a
      requested recovery only once that is verified. */
  predicate MayPlanWindow(o: Options, d: Duty, log: seq<Event>) {
    && d.Duty? && d.flight.Ground? && !o.recoveryOnly
    && d.settled == o.recovery.Some?
    && d.done < o.maxWindows
    && WindowGatesPassed(o, log, d.done)
  }

  function AfterPost(o: Options, d: Duty, log: seq<Event>, request: Request): Duty {
    if !d.Duty? || !o.execute || !d.flight.Ground? then Violated
    else if o.recovery.Some? && !d.settled then
      if d.done == 0 && request == RecoveryRequest(o) && RecoveryGatesPassed(o, log, d.walletId)
      then d.(flight := Recovering) else Violated
    else if MayPlanWindow(o, d, log) && request == WindowRequest(o, d.done) then d.(flight := Syncing)
    else Violated
  }

  function AfterRecord(o: Options, d: Duty, log: seq<Event>, record: Record): Duty
    requires d.Duty?
  {
    match record
    case RecoveryPlanned(request) =>
      if !o.execute && o.recovery.Some? && !d.settled && d.done == 0 && request == RecoveryRequest(o)
         && RecoveryGatesPassed(o, log, d.walletId)
      then d.(settled := true) else Violated
    case RecoveryRecord(request, runId, clean) =>
      if d.flight.Recovering? && o.recovery.Some? && request == RecoveryRequest(o) && ChecksRead(log, runId, request)
         && clean == ChecksPassed(o, log, runId, Expectation(d.walletId, o.chainId, request), true)
      then if clean then d.(flight := Ground, settled := true) else d
      else Violated
    case WindowRecord(request, runId, clean) =>
      if d.flight.Syncing? && request == WindowRequest(o, d.done) && ChecksRead(log, runId, request)
         && clean == ChecksPassed(o, log, runId, Expectation(d.walletId, o.chainId, request), false)
      then if clean then d.(flight := Ground, done := d.done + 1) else d
      else Violated
    case WindowPlanned(request) =>
      if !o.execute && MayPlanWindow(o, d, log) && request == WindowRequest(o, d.done)
      then d.(done := d.done + 1) else Violated
    case _ => d
  }

  /** A record must be due even where it is not acknowledged; it takes effect only then. */
  function Step(o: Options, d: Duty, log: seq<Event>, e: Event): Duty {
    if d.Violated? then Violated
    else
      match e
      case WalletLookup(Got(Some(id))) => d.(walletId := id)
      case Post(request, _) => AfterPost(o, d, log, request)
      case Write(record, acknowledged) =>
        if acknowledged || AfterRecord(o, d, log, record).Violated? then AfterRecord(o, d, log, record) else d
      case _ => d
  }

  function DutyAfter(o: Options, log: seq<Event>): Duty {
    if log == [] then START else Step(o, DutyAfter(o, log[..|log| - 1]), log[..|log| - 1], log[|log| - 1])
  }

  predicate Orderly(o: Options, log: seq<Event>) {
    DutyAfter(o, log).Duty?
  }

  lemma DutySnoc(o: Options, log: seq<Event>, e: Event)
    ensures DutyAfter(o, log + [e]) == Step(o, DutyAfter(o, log), log, e)
  {
    assert (log + [e])[..|log|] == log;
  }

  // ----- what was submitted

  function Posted(e: Event): seq<Request> {
    if e.Post? then [e.request] else []
  }

  function Posts(log: seq<Event>): seq<Request> {
    if log == [] then [] else Posts(log[..|log| - 1]) + Posted(log[|log| - 1])
  }

  function WindowRequests(o: Options, n: nat): (rs: seq<Request>)
    ensures |rs| == n && forall k :: 0 <= k < n ==> rs[k] == WindowRequest(o, k)
  {
    seq(n, k requires 0 <= k => WindowRequest(o, k))
  }

  /** The submissions that a duty stands for. */
  function PostsFor(o: Options, d: Duty): seq<Request>
    requires d.Duty?
  {
    if !o.execute then []
    else
      (if o.recovery.Some? && (d.settled || d.flight.Recovering?) then [RecoveryRequest(o)] else [])
      + WindowRequests(o, d.done + if d.flight.Syncing? then 1 else 0)
  }

  predicate Coherent(o: Options, d: Duty) {
    && d.Duty?
    && (d.done > 0 || d.flight.Syncing? ==> !o.recoveryOnly && o.expectedCursorTo + 1 == EffectiveFirstWindowStart(o))
    && (d.done + (if d.flight.Syncing? then 1 else 0) > 0 ==>
         d.done + (if d.flight.Syncing? then 1 else 0) <= o.maxWindows)
    && (d.flight.Recovering? ==> o.recovery.Some? && d.done == 0 && !d.settled && o.execute)
    && (d.flight.Syncing? ==> o.execute)
    && (d.settled ==> o.recovery.Some?)
    && (d.settled || d.flight.Recovering? ==> o.expectedCursorTo == RecoveryRequest(o).endBlock)
    && (d.done > 0 || d.flight.Syncing? ==> d.settled == o.recovery.Some?)
  }

  lemma CoherentPost(o: Options, d: Duty, log: seq<Event>, request: Request)
    requires Coherent(o, d) && AfterPost(o, d, log, request).Duty?
    ensures Coherent(o, AfterPost(o, d, log, request))
    ensures PostsFor(o, AfterPost(o, d, log, request)) == PostsFor(o, d) + [request]
  {
    NextEdge(o, 0);
    hide EligibleSource, WindowRequest;
    assert WindowRequests(o, d.done) + [WindowRequest(o, d.done)] == WindowRequests(o, d.done + 1);
  }

  lemma CoherentRecord(o: Options, d: Duty, log: seq<Event>, record: Record)
    requires Coherent(o, d) && AfterRecord(o, d, log, record).Duty?
    ensures Coherent(o, AfterRecord(o, d, log, record))
    ensures PostsFor(o, AfterRecord(o, d, log, record)) == PostsFor(o, d)
  {
    hide ChecksPassed, ChecksRead, EligibleSource;
    NextEdge(o, 0);
  }

  lemma CoherentStep(o: Options, d: Duty, log: seq<Event>, e: Event)
    requires Coherent(o, d) && Step(o, d, log, e).Duty?
    ensures Coherent(o, Step(o, d, log, e))
    ensures PostsFor(o, Step(o, d, log, e)) == PostsFor(o, d) + Posted(e)
  {
    hide AfterPost, AfterRecord;
    match e
    case Post(request, _) => CoherentPost(o, d, log, request);
    case Write(record, true) => CoherentRecord(o, d, log, record);
    case _ =>
  }

  lemma {:induction false} AlwaysCoherent(o: Options, log: seq<Event>)
    requires Orderly(o, log)
    ensures Coherent(o, DutyAfter(o, log)) && Posts(log) == PostsFor(o, DutyAfter(o, log))
  {
    hide Step, Coherent, PostsFor;
    if log != [] {
      var front, e := log[..|log| - 1], log[|log| - 1];
      ViolationIsFinal(o, DutyAfter(o, front), front, e);
      AlwaysCoherent(o, front);
      CoherentStep(o, DutyAfter(o, front), front, e);
    } else {
      StartCoherent(o);
    }
  }

  lemma ViolationIsFinal(o: Options, d: Duty, log: seq<Event>, e: Event)
    ensures Step(o, d, log, e).Duty? ==> d.Duty?
  {
  }

  lemma StartCoherent(o: Options)
    ensures Coherent(o, START) && PostsFor(o, START) == []
  {
  }

  // ----- theorems

  /** The submissions of an orderly log: first the recovery window if one was asked for,
      ending at the cursor frontier, then ordinary windows without gap or overlap from
      the frontier on, at most as many as allowed; nothing at all in a dry run. */
  lemma SubmissionsAreBounded(o: Options, log: seq<Event>)
    requires Orderly(o, log)
    ensures !o.execute ==> Posts(log) == []
    ensures o.recovery.None? ==>
      Posts(log) == WindowRequests(o, |Posts(log)|) && (Posts(log) != [] ==> |Posts(log)| <= o.maxWindows)
    ensures o.recovery.Some? && Posts(log) != [] ==>
      && Posts(log) == [RecoveryRequest(o)] + WindowRequests(o, |Posts(log)| - 1)
      && RecoveryRequest(o).endBlock == o.expectedCursorTo
      && (|Posts(log)| > 1 ==> |Posts(log)| - 1 <= o.maxWindows)
  {
    hide DutyAfter, Posts, RecoveryRequest, WindowRequest;
    AlwaysCoherent(o, log);
  }

  /** Recovery-only mode, whatever the other options say: at most one submission, and
      that one is the named recovery window ending at the verified cursor frontier;
      without a recovery, none. */
  lemma RecoveryOnlyIsBounded(o: Options, log: seq<Event>)
    requires Orderly(o, log) && o.recoveryOnly
    ensures |Posts(log)| <= 1
    ensures Posts(log) != [] ==>
      && o.execute && o.recovery.Some? && Posts(log) == [RecoveryRequest(o)]
      && Posts(log)[0].startBlock == o.firstWindowStart
      && Posts(log)[0].endBlock == o.firstWindowStart + o.windowSize - 1 == o.expectedCursorTo
  {
    hide DutyAfter, Posts;
    AlwaysCoherent(o, log);
  }

  // ----- what the log shows of verified windows

  /** The wallet last resolved. */
  function WalletRead(log: seq<Event>): string {
    if log == [] then ""
    else
      match log[|log| - 1]
      case WalletLookup(Got(Some(id))) => id
      case _ => WalletRead(log[..|log| - 1])
  }

  /** At position i stands a durable record of success, directly after the accepted
      submission, the poll of its own run and six good answers. */
  predicate ProvenAt(o: Options, log: seq<Event>, i: nat, request: Request, runId: string, recovering: bool) {
    && i < |log|
    && log[i] == Write(if recovering then RecoveryRecord(request, runId, true)
         else WindowRecord(request, runId, true), true)
    && ChecksPassed(o, log[..i], runId, Expectation(WalletRead(log[..i]), o.chainId, request), recovering)
  }

  ghost predicate Proven(o: Options, log: seq<Event>, request: Request, recovering: bool) {
    exists i: nat, runId :: ProvenAt(o, log, i, request, runId, recovering)
  }

  /** Whatever the duty counts as verified is proven in the log. */
  ghost predicate Vouched(o: Options, d: Duty, log: seq<Event>) {
    && d.Duty? && d.walletId == WalletRead(log)
    && (o.execute && d.settled ==> o.recovery.Some? && Proven(o, log, RecoveryRequest(o), true))
    && (o.execute ==> forall k :: 0 <= k < d.done ==> Proven(o, log, WindowRequest(o, k), false))
  }

  lemma ProvenStays(o: Options, log: seq<Event>, e: Event, request: Request, recovering: bool)
    requires Proven(o, log, request, recovering)
    ensures Proven(o, log + [e], request, recovering)
  {
    hide ChecksPassed;
    var i: nat, runId :| ProvenAt(o, log, i, request, runId, recovering);
    assert (log + [e])[..i] == log[..i];
    assert ProvenAt(o, log + [e], i, request, runId, recovering);
  }

  lemma ProvenNow(o: Options, log: seq<Event>, request: Request, runId: string, recovering: bool)
    requires ChecksPassed(o, log, runId, Expectation(WalletRead(log), o.chainId, request), recovering)
    ensures var record :=
        if recovering then RecoveryRecord(request, runId, true) else WindowRecord(request, runId, true);
      Proven(o, log + [Write(record, true)], request, recovering)
  {
    hide ChecksPassed;
    var record := if recovering then RecoveryRecord(request, runId, true) else WindowRecord(request, runId, true);
    var log' := log + [Write(record, true)];
    assert log'[..|log|] == log;
    assert ProvenAt(o, log', |log|, request, runId, recovering);
  }

  lemma VouchedStep(o: Options, d: Duty, log: seq<Event>, e: Event)
    requires Vouched(o, d, log) && Step(o, d, log, e).Duty?
    ensures Vouched(o, Step(o, d, log, e), log + [e])
  {
    hide Proven, ChecksPassed, ChecksRead, AfterPost, MayPlanWindow, WindowRequest, RecoveryRequest,
      RecoveryGatesPassed;
    assert (log + [e])[..|log|] == log;
    if d.settled && o.execute {
      ProvenStays(o, log, e, RecoveryRequest(o), true);
    }
    forall k | 0 <= k < d.done && o.execute
      ensures Proven(o, log + [e], WindowRequest(o, k), false)
    {
      ProvenStays(o, log, e, WindowRequest(o, k), false);
    }
    match e
    case Post(request, _) => PostCountsNothing(o, d, log, request);
    case Write(RecoveryRecord(request, runId, true), true) => ProvenNow(o, log, request, runId, true);
    case Write(WindowRecord(request, runId, true), true) => ProvenNow(o, log, request, runId, false);
    case _ =>
  }

  lemma PostCountsNothing(o: Options, d: Duty, log: seq<Event>, request: Request)
    requires d.Duty? && AfterPost(o, d, log, request).Duty?
    ensures AfterPost(o, d, log, request) == d.(flight := AfterPost(o, d, log, request).flight)
  {
    hide MayPlanWindow, RecoveryGatesPassed, WindowRequest;
  }

  lemma {:induction false} AlwaysVouched(o: Options, log: seq<Event>)
    requires Orderly(o, log)
    ensures Vouched(o, DutyAfter(o, log), log)
  {
    hide Step, Vouched;
    if log != [] {
      var front, e := log[..|log| - 1], log[|log| - 1];
      ViolationIsFinal(o, DutyAfter(o, front), front, e);
      AlwaysVouched(o, front);
      VouchedStep(o, DutyAfter(o, front), front, e);
      assert front + [e] == log;
    } else {
      StartVouched(o);
    }
  }

  lemma StartVouched(o: Options)
    ensures Vouched(o, START, [])
  {
  }

  /** Each submission directly follows the gates of its kind, and everything submitted
      before it is proven in the log: the first one is the recovery window if one was
      asked for, and after k ordinary windows the next is the k-th. */
  lemma SubmissionsAreGated(o: Options, log: seq<Event>, request: Request, reply: Reply<Response>)
    requires Orderly(o, log + [Post(request, reply)])
    ensures o.execute
    ensures o.recovery.Some? && Posts(log) == [] ==>
      request == RecoveryRequest(o) && RecoveryGatesPassed(o, log, WalletRead(log))
    ensures o.recovery.None? || Posts(log) != [] ==>
      var k := if o.recovery.Some? then |Posts(log)| - 1 else |Posts(log)|;
      && request == WindowRequest(o, k) && WindowGatesPassed(o, log, k)
      && (o.recovery.Some? ==> Proven(o, log, RecoveryRequest(o), true))
      && forall j :: 0 <= j < k ==> Proven(o, log, WindowRequest(o, j), false)
  {
    hide WindowGatesPassed, RecoveryGatesPassed, WindowRequest, RecoveryRequest, DutyAfter, Proven, Posts;
    DutySnoc(o, log, Post(request, reply));
    ViolationIsFinal(o, DutyAfter(o, log), log, Post(request, reply));
    AlwaysCoherent(o, log);
    AlwaysVouched(o, log);
  }

  // ----- records

  /** A window is recorded as planned only in a dry run and directly after all its gates. */
  lemma PlansAreGated(o: Options, log: seq<Event>, request: Request, acknowledged: bool)
    requires Orderly(o, log + [Write(WindowPlanned(request), acknowledged)])
    ensures !o.execute && !o.recoveryOnly && Counted(log) < o.maxWindows
    ensures request == WindowRequest(o, Counted(log)) && WindowGatesPassed(o, log, Counted(log))
    ensures o.recovery.Some? <==> Settled(log)
  {
    hide WindowGatesPassed, WindowRequest, DutyAfter, Settled, Counted;
    var e := Write(WindowPlanned(request), acknowledged);
    DutySnoc(o, log, e);
    ViolationIsFinal(o, DutyAfter(o, log), log, e);
    DutyRead(o, log);
  }

  /** So is the recovery window. */
  lemma RecoveryPlansAreGated(o: Options, log: seq<Event>, request: Request, acknowledged: bool)
    requires Orderly(o, log + [Write(RecoveryPlanned(request), acknowledged)])
    ensures !o.execute && o.recovery.Some? && request == RecoveryRequest(o)
    ensures RecoveryGatesPassed(o, log, WalletRead(log)) && !Settled(log) && Counted(log) == 0
  {
    hide RecoveryGatesPassed, RecoveryRequest, DutyAfter, Settled, Counted;
    var e := Write(RecoveryPlanned(request), acknowledged);
    DutySnoc(o, log, e);
    ViolationIsFinal(o, DutyAfter(o, log), log, e);
    DutyRead(o, log);
  }

  /** Every record that judges a window says clean exactly if all that was read directly
      before, from its own accepted submission on, is good. */
  lemma VerdictsAreEarned(
      o: Options, log: seq<Event>, request: Request, runId: string, clean: bool, recovering: bool, acknowledged: bool)
    requires
      var record := if recovering then RecoveryRecord(request, runId, clean) else WindowRecord(request, runId, clean);
      Orderly(o, log + [Write(record, acknowledged)])
    ensures if recovering then o.recovery.Some? && request == RecoveryRequest(o)
      else request == WindowRequest(o, Counted(log))
    ensures ChecksRead(log, runId, request)
    ensures clean <==> ChecksPassed(o, log, runId, Expectation(WalletRead(log), o.chainId, request), recovering)
  {
    hide ChecksRead, ChecksPassed, RecoveryRequest, WindowRequest, DutyAfter, Settled, Counted;
    var record := if recovering then RecoveryRecord(request, runId, clean) else WindowRecord(request, runId, clean);
    DutySnoc(o, log, Write(record, acknowledged));
    ViolationIsFinal(o, DutyAfter(o, log), log, Write(record, acknowledged));
    DutyRead(o, log);
  }

  // ----- the duty, read back from the log

  function Counting(e: Event): nat {
    match e
    case Write(WindowPlanned(_), true) => 1
    case Write(WindowRecord(_, _, true), true) => 1
    case _ => 0
  }

  /** The windows durably recorded as clean or, in a dry run, as planned. */
  function Counted(log: seq<Event>): nat {
    if log == [] then 0 else Counted(log[..|log| - 1]) + Counting(log[|log| - 1])
  }

  predicate Settling(e: Event) {
    match e
    case Write(RecoveryPlanned(_), true) => true
    case Write(RecoveryRecord(_, _, true), true) => true
    case _ => false
  }

  /** The recovery is durably recorded as clean or, in a dry run, as planned. */
  predicate Settled(log: seq<Event>) {
    log != [] && (Settled(log[..|log| - 1]) || Settling(log[|log| - 1]))
  }

  lemma {:induction false} DutyRead(o: Options, log: seq<Event>)
    requires Orderly(o, log)
    ensures var d := DutyAfter(o, log);
      d.walletId == WalletRead(log) && d.settled == Settled(log) && d.done == Counted(log)
  {
    hide Step;
    if log != [] {
      var front, e := log[..|log| - 1], log[|log| - 1];
      ViolationIsFinal(o, DutyAfter(o, front), front, e);
      DutyRead(o, front);
      StepRead(o, DutyAfter(o, front), front, e);
    }
  }

  lemma StepRead(o: Options, d: Duty, log: seq<Event>, e: Event)
    requires d.Duty? && Step(o, d, log, e).Duty?
    ensures var next := Step(o, d, log, e);
      && next.settled == (d.settled || Settling(e)) && next.done == d.done + Counting(e)
      && next.walletId == match e case WalletLookup(Got(Some(id))) => id case _ => d.walletId
  {
    hide ChecksPassed, ChecksRead, MayPlanWindow, WindowRequest, RecoveryRequest, RecoveryGatesPassed;
  }

  /** A recovery durably recorded as clean is proven in the log. */
  lemma RecoveryIsProven(o: Options, log: seq<Event>)
    requires Orderly(o, log) && o.execute && Settled(log)
    ensures o.recovery.Some? && Proven(o, log, RecoveryRequest(o), true)
  {
    hide DutyAfter, Proven, Settled;
    AlwaysVouched(o, log);
    DutyRead(o, log);
  }
}
