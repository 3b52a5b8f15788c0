/** What a backfill invocation may do next, as a function of what it has done so far:
    the duty that its log leaves it with. */
module BackfillProtocol {
  import opened Base
  import opened SyncPrimitives
  import opened BackfillPlan

  datatype Options = Options(execute: bool, maxWindows: int, allowRebuild: bool, expectedFrom: Option<int>)

  datatype RebuildOutcome = SubmitFailed | TimedOut | Completed | FailedInvariant

  datatype StopReason =
    | DecimalCapabilityCheckFailed | WalletNotFound | NoTransfersCursor
    | CursorExpectationMismatch | CampaignComplete | MisalignedCursor | AdjacencyViolation | RangeSizeViolation
    | ForkBoundaryViolation | ActiveOperationConflict | PolicyLabelCollision | ServerUnhealthy
    | FabricatedContaminationPreGate | ManualSyncSubmitFailed | PollTimeout | InvariantFailedAfterRun
    | StoppedBeforeFinalRebuild | StoppedBeforeCheckpointRebuild | CampaignCompleteAfterFinalRebuild
    | MaxWindowsReached | ActiveOperationConflictBeforeRebuild | ServerUnhealthyBeforeRebuild
    | RebuildSubmitFailed | RebuildPollTimeout | RebuildInvariantFailed

  datatype Record =
    | DryRunPlanned(window: Window)
    | WindowRecord(window: Window, runId: string, clean: bool)
    | RebuildRecord(window: Window, isFinal: bool, runId: string, outcome: RebuildOutcome)
    | StopRecord(reason: StopReason)

  /** One call of an injected dependency with its answer. */
  datatype Event =
    | DecimalCheck(capable: Reply<bool>)
    | WalletLookup(id: Reply<Option<string>>)
    | CursorRead(cursor: Reply<Option<Cursor>>)
    | ActiveRuns(count: Reply<nat>)
    | LabelList(labels: Reply<seq<string>>)
    | Health(ok: bool)
    | Rows(check: RowCheck, startBlock: int, endBlock: int, count: Reply<nat>)
    | PostWindow(window: Window, reply: Reply<Response>)
    | PostRebuild(window: Window, reply: Reply<Response>)
    | Polled(runId: string, outcome: Reply<Option<SyncRun>>)
    | Write(record: Record, acknowledged: bool)

  /** What the invocation owes before it may submit the next window. */
  datatype Duty =
    | Ready(expected: Option<Cursor>)
    | Previewing(live: Cursor, edge: int)
    | Flying(window: Window, live: Cursor)
    | RebuildOwed(window: Window, live: Cursor)
    | Rebuilding(window: Window, live: Cursor)
    | Done
    | Violated

  predicate RebuildDue(w: Window) {
    CheckpointDue(w.number) || FinalRebuildDue(w.number, w.total)
  }

  /** The five answers that must stand directly before a window is submitted or, in a
      dry run, recorded as planned. */
  predicate GatesPassed(log: seq<Event>, w: Window) {
    && |log| >= 5
    && Last(log, 5).CursorRead? && Last(log, 5).cursor.Got? && Last(log, 5).cursor.value.Some?
    && Last(log, 4) == ActiveRuns(Got(0))
    && Last(log, 3).LabelList? && Last(log, 3).labels.Got? && w.Label() !in Last(log, 3).labels.value
    && Last(log, 2) == Health(true)
    && Last(log, 1) == Rows(FabricatedTransfers, w.startBlock, w.endBlock, Got(0))
  }

  function LiveCursor(log: seq<Event>, w: Window): Cursor
    requires GatesPassed(log, w)
  {
    Last(log, 5).cursor.value.value
  }

  /** The cursor that the server leaves behind after a window. */
  function After(live: Cursor, w: Window): Cursor {
    Cursor(w.startBlock, live.toBlock)
  }

  /** The answer with which the server accepts a submission and names its run. */
  function Accepted(runId: string): Reply<Response> {
    Got(Response(202, runId))
  }

  /** The poll of a run, answered with one that is acceptable for its kind and range. */
  predicate PolledAcceptable(e: Event, runId: string, expected: Expected, w: Window) {
    && e.Polled? && e.runId == runId && e.outcome.Got? && e.outcome.value.Some?
    && RunAcceptable(e.outcome.value.value, expected, w.startBlock, w.endBlock)
  }

  predicate RowsCounted(e: Event, check: RowCheck, w: Window) {
    e.Rows? && e.check == check && e.startBlock == w.startBlock && e.endBlock == w.endBlock && e.count.Got?
  }

  /** The seven interactions that must stand directly before a record that judges a window:
      its own accepted submission, the poll of the very run the server named then, and
      five more answers. */
  predicate ChecksRead(log: seq<Event>, w: Window, runId: string) {
    && |log| >= 7 && runId != ""
    && Last(log, 7) == PostWindow(w, Accepted(runId))
    && Last(log, 6).Polled? && Last(log, 6).runId == runId && Last(log, 6).outcome.Got?
    && Last(log, 6).outcome.value.Some?
    && Last(log, 5).CursorRead? && Last(log, 5).cursor.Got?
    && RowsCounted(Last(log, 4), FabricatedTransfers, w)
    && RowsCounted(Last(log, 3), DuplicateTransfers, w)
    && RowsCounted(Last(log, 2), DuplicateLedgerEntries, w)
    && Last(log, 1).ActiveRuns? && Last(log, 1).count.Got?
  }

  /** The window is clean: its run is acceptable, the cursor stands where the window leaves
      it, nothing is contaminated or duplicated in its range, and no operation is active. */
  predicate ChecksPassed(log: seq<Event>, w: Window, runId: string, live: Cursor) {
    && ChecksRead(log, w, runId)
    && RunAcceptable(Last(log, 6).outcome.value.value, WindowRun, w.startBlock, w.endBlock)
    && Last(log, 5).cursor.value == Some(After(live, w))
    && Last(log, 4).count.value == Last(log, 3).count.value == Last(log, 2).count.value == 0
    && Last(log, 1).count.value == 0
  }

  /** The two answers that must stand directly before a rebuild is submitted. */
  predicate RebuildGatesPassed(log: seq<Event>) {
    |log| >= 2 && Last(log, 2) == ActiveRuns(Got(0)) && Last(log, 1) == Health(true)
  }

  function RebuildKind(w: Window): Expected {
    if FinalRebuildDue(w.number, w.total) then FinalRebuild else CheckpointRebuild
  }

  /** The four interactions that must stand directly before a rebuild is recorded as
      completed: two gates, its own accepted submission, and the poll of the very run the
      server named then. */
  predicate RebuildVerified(log: seq<Event>, w: Window, runId: string) {
    && |log| >= 4 && runId != ""
    && RebuildGatesPassed(log[..|log| - 2])
    && Last(log, 2) == PostRebuild(w, Accepted(runId))
    && PolledAcceptable(Last(log, 1), runId, RebuildKind(w), w)
  }

  /** What must stand directly before a rebuild is recorded with some other outcome: its
      gates and its refused submission; or its gates, its accepted submission, and a poll of
      that run without an end or with an unacceptable one. */
  predicate RebuildFailed(log: seq<Event>, w: Window, runId: string, outcome: RebuildOutcome) {
    match outcome
    case SubmitFailed =>
      && |log| >= 3 && runId == "" && RebuildGatesPassed(log[..|log| - 1])
      && Last(log, 1).PostRebuild? && Last(log, 1).window == w && Refused(Last(log, 1).reply)
    case TimedOut =>
      && |log| >= 4 && runId != "" && RebuildGatesPassed(log[..|log| - 2])
      && Last(log, 2) == PostRebuild(w, Accepted(runId)) && Last(log, 1) == Polled(runId, Got(None))
    case FailedInvariant =>
      && |log| >= 4 && runId != "" && RebuildGatesPassed(log[..|log| - 2])
      && Last(log, 2) == PostRebuild(w, Accepted(runId))
      && Last(log, 1).Polled? && Last(log, 1).runId == runId && Last(log, 1).outcome.Got?
      && Last(log, 1).outcome.value.Some?
      && !RunAcceptable(Last(log, 1).outcome.value.value, RebuildKind(w), w.startBlock, w.endBlock)
    case Completed => false
  }

  /** The server answered a submission otherwise than with 202 and a run id. */
  predicate Refused(reply: Reply<Response>) {
    reply.Got? && (reply.value.status != 202 || reply.value.runId == "")
  }

  /** The window is the next one of the fixed campaign from the edge planned from. */
  predicate PlannedAt(edge: int, w: Window) {
    PlanFrom(CAMPAIGN, edge) == NextWindow(w)
  }

  predicate ExpectedByOperator(o: Options, live: Cursor) {
    o.expectedFrom.Some? ==> live.fromBlock == o.expectedFrom.value
  }

  function AfterPost(o: Options, d: Duty, log: seq<Event>, w: Window): Duty {
    if !d.Ready? || !o.execute || !GatesPassed(log, w) then Violated
    else
      var live := LiveCursor(log, w);
      if !PlannedAt(live.fromBlock, w) then Violated
      else if if d.expected.Some? then d.expected.value != live else !ExpectedByOperator(o, live) then Violated
      else Flying(w, live)
  }

  function AfterPreview(o: Options, d: Duty, log: seq<Event>, w: Window): Duty {
    if o.execute || !GatesPassed(log, w) then Violated
    else
      var live := LiveCursor(log, w);
      match d
      case Ready(None) =>
        if PlannedAt(live.fromBlock, w) && ExpectedByOperator(o, live) then Previewing(live, w.startBlock) else Violated
      case Previewing(seen, edge) =>
        if live == seen && PlannedAt(edge, w) then Previewing(live, w.startBlock) else Violated
      case _ => Violated
  }

  function AfterRecord(o: Options, d: Duty, log: seq<Event>, record: Record): Duty {
    match record
    case DryRunPlanned(w) => AfterPreview(o, d, log, w)
    case WindowRecord(w, runId, clean) =>
      var judged := d.Flying? && d.window == w && ChecksRead(log, w, runId);
      if !judged || clean != ChecksPassed(log, w, runId, d.live) then Violated
      else if !clean then d
      else if RebuildDue(w) then RebuildOwed(w, After(d.live, w))
      else Ready(Some(After(d.live, w)))
    case RebuildRecord(w, isFinal, runId, outcome) =>
      if !d.Rebuilding? || d.window != w || isFinal != FinalRebuildDue(w.number, w.total) then Violated
      else if !outcome.Completed? then if RebuildFailed(log, w, runId, outcome) then d else Violated
      else if !RebuildVerified(log, w, runId) then Violated
      else if isFinal then Done
      else Ready(Some(d.live))
    case StopRecord(_) => d
  }

  /** The duty after one more event. Only submissions and durable records change it; a
      record must be due even where it is not acknowledged. */
  function Step(o: Options, d: Duty, log: seq<Event>, e: Event): Duty {
    if d.Violated? then Violated
    else
      match e
      case PostWindow(w, _) => AfterPost(o, d, log, w)
      case PostRebuild(w, _) =>
        if d.RebuildOwed? && d.window == w && o.allowRebuild && RebuildGatesPassed(log)
        then Rebuilding(w, d.live) else Violated
      case Write(record, acknowledged) =>
        if acknowledged || AfterRecord(o, d, log, record).Violated? then AfterRecord(o, d, log, record) else d
      case _ => d
  }

  function DutyAfter(o: Options, log: seq<Event>): Duty {
    if log == [] then Ready(None)
    else Step(o, DutyAfter(o, log[..|log| - 1]), log[..|log| - 1], log[|log| - 1])
  }

  predicate Orderly(o: Options, log: seq<Event>) {
    !DutyAfter(o, log).Violated?
  }

  lemma DutySnoc(o: Options, log: seq<Event>, e: Event)
    ensures DutyAfter(o, log + [e]) == Step(o, DutyAfter(o, log), log, e)
  {
    assert (log + [e])[..|log|] == log;
  }

  /** Every prefix of an orderly log is orderly. */
  lemma {:induction false} PrefixOrderly(o: Options, log: seq<Event>, n: nat)
    requires Orderly(o, log) && n <= |log|
    ensures Orderly(o, log[..n])
  {
    hide AfterPost, AfterRecord;
    if n < |log| {
      var front := log[..|log| - 1];
      PrefixOrderly(o, front, n);
      assert front[..n] == log[..n];
    } else {
      assert log[..n] == log;
    }
  }

  // ----- rebuilds stand between due windows and the next submission

  /** At position b stands a durable record that the rebuild for a window is completed,
      directly after its gates, its accepted submission and the poll of its own run. */
  predicate RebuildProvenAt(log: seq<Event>, b: nat, w: Window, runId: string) {
    && b < |log|
    && log[b] == Write(RebuildRecord(w, FinalRebuildDue(w.number, w.total), runId, Completed), true)
    && RebuildVerified(log[..b], w, runId)
  }

  /** The last thing in the log is the record of a proven rebuild for the window. */
  ghost predicate EndsWithRebuild(log: seq<Event>, w: Window) {
    exists b: nat, runId :: b + 1 == |log| && RebuildProvenAt(log, b, w, runId)
  }

  /** Between positions i and n a rebuild for the window was submitted, accepted and
      verified, all of it one run, and recorded as completed. */
  ghost predicate RebuiltBetween(log: seq<Event>, i: nat, n: nat, w: Window) {
    exists b: nat, runId :: i + 2 < b < n && RebuildProvenAt(log, b, w, runId)
  }

  /** How far the run has come with the window submitted at position i. */
  ghost predicate Settling(o: Options, log: seq<Event>, i: nat, n: nat, w: Window)
    requires n <= |log|
  {
    var d := DutyAfter(o, log[..n]);
    || RebuiltBetween(log, i, n, w)
    || ((d.Flying? || d.RebuildOwed? || d.Rebuilding?) && d.window == w)
  }

  lemma SettlingStep(o: Options, log: seq<Event>, i: nat, n: nat, w: Window)
    requires i < n < |log| && Orderly(o, log) && RebuildDue(w) && log[i].PostWindow?
    requires Settling(o, log, i, n, w)
    ensures Settling(o, log, i, n + 1, w)
  {
    hide GatesPassed, ChecksPassed, RebuildVerified, PlannedAt, RebuildDue, FinalRebuildDue, DutyAfter,
      RebuildGatesPassed;
    PrefixStep(o, log, n);
    var d := DutyAfter(o, log[..n]);
    if RebuiltBetween(log, i, n, w) {
      var b: nat, runId :| i + 2 < b < n && RebuildProvenAt(log, b, w, runId);
      assert i + 2 < b < n + 1;
    } else {
      match log[n]
      case Write(RebuildRecord(v, isFinal, runId, Completed), true) =>
        RebuildEndsSettling(o, log, i, n, w, isFinal, runId);
      case _ =>
    }
  }

  lemma RebuildEndsSettling(o: Options, log: seq<Event>, i: nat, n: nat, w: Window, isFinal: bool, runId: string)
    requires i < n < |log| && Orderly(o, log) && log[i].PostWindow?
    requires log[n].Write? && log[n].acknowledged && log[n].record.RebuildRecord? && log[n].record.outcome.Completed?
    requires log[n].record.isFinal == isFinal && log[n].record.runId == runId
    requires var d := DutyAfter(o, log[..n]); (d.Flying? || d.RebuildOwed? || d.Rebuilding?) && d.window == w
    ensures RebuiltBetween(log, i, n + 1, w)
  {
    hide GatesPassed, ChecksPassed, PlannedAt, RebuildDue, DutyAfter, FinalRebuildDue, RebuildGatesPassed,
      PolledAcceptable;
    PrefixStep(o, log, n);
    assert RebuildProvenAt(log, n, w, runId);
    RecordComesThirdOrLater(log, i, n, w, runId);
  }

  /** No submission of a window stands among the interactions of a verified rebuild. */
  lemma RecordComesThirdOrLater(log: seq<Event>, i: nat, n: nat, w: Window, runId: string)
    requires i < n <= |log| && log[i].PostWindow? && RebuildVerified(log[..n], w, runId)
    ensures i + 2 < n
  {
    hide RebuildGatesPassed;
    assert Last(log[..n], 2) == log[n - 2] && Last(log[..n], 1) == log[n - 1];
  }

  lemma {:induction false} SettlingUpTo(o: Options, log: seq<Event>, i: nat, n: nat, w: Window)
    requires i < n <= |log| && Orderly(o, log) && RebuildDue(w) && log[i].PostWindow? && log[i].window == w
    ensures Settling(o, log, i, n, w)
    decreases n
  {
    hide RebuildDue, AfterRecord, RebuiltBetween, GatesPassed, PlannedAt, DutyAfter;
    if n == i + 1 {
      PrefixStep(o, log, i);
    } else {
      SettlingUpTo(o, log, i, n - 1, w);
      SettlingStep(o, log, i, n - 1, w);
    }
  }

  /** Between a submitted window at which a rebuild is due and any later submission of a
      window, a rebuild for that very window was submitted, accepted by the server, and
      verified by the run the server named, which needs the rebuild flag. */
  lemma DueWindowsAreRebuiltFirst(o: Options, log: seq<Event>, i: nat, j: nat)
    requires Orderly(o, log) && i < j < |log| && log[i].PostWindow? && log[j].PostWindow?
    requires RebuildDue(log[i].window)
    ensures RebuiltBetween(log, i, j, log[i].window) && o.allowRebuild
  {
    hide RebuildDue, AfterRecord, RebuiltBetween, GatesPassed, PlannedAt, RebuildGatesPassed, DutyAfter;
    SettlingUpTo(o, log, i, j, log[i].window);
    PrefixStep(o, log, j);
    RebuildNeedsFlag(o, log, i, j, log[i].window);
  }

  lemma RebuildNeedsFlag(o: Options, log: seq<Event>, i: nat, j: nat, w: Window)
    requires Orderly(o, log) && j <= |log| && RebuiltBetween(log, i, j, w)
    ensures o.allowRebuild
  {
    hide RebuildGatesPassed, PolledAcceptable;
    var b: nat, runId :| i + 2 < b < j && RebuildProvenAt(log, b, w, runId);
    assert Last(log[..b], 2) == log[b - 2];
    FlagForRebuild(o, log, b - 2);
  }

  /** No rebuild is submitted without the rebuild flag. */
  lemma FlagForRebuild(o: Options, log: seq<Event>, a: nat)
    requires Orderly(o, log) && a < |log| && log[a].PostRebuild?
    ensures o.allowRebuild
  {
    hide DutyAfter, AfterPost, AfterRecord, RebuildGatesPassed;
    PrefixStep(o, log, a);
  }

  lemma PrefixStep(o: Options, log: seq<Event>, n: nat)
    requires Orderly(o, log) && n < |log|
    ensures Orderly(o, log[..n]) && Orderly(o, log[..n + 1])
    ensures DutyAfter(o, log[..n + 1]) == Step(o, DutyAfter(o, log[..n]), log[..n], log[n])
  {
    hide Step, DutyAfter;
    PrefixOrderly(o, log, n);
    PrefixOrderly(o, log, n + 1);
    assert log[..n + 1] == log[..n] + [log[n]];
    DutySnoc(o, log[..n], log[n]);
  }

  lemma FinalRebuildDischarges(o: Options, d: Duty, log: seq<Event>, w: Window, runId: string)
    requires !Step(o, d, log, Write(RebuildRecord(w, true, runId, Completed), true)).Violated?
    ensures Step(o, d, log, Write(RebuildRecord(w, true, runId, Completed), true)) == Done
  {
    hide FinalRebuildDue, RebuildVerified;
  }

  lemma DoneStays(o: Options, log: seq<Event>, e: Event)
    requires !Step(o, Done, log, e).Violated?
    ensures Step(o, Done, log, e) == Done && !e.PostWindow? && !e.PostRebuild?
  {
    hide GatesPassed, ChecksPassed, RebuildGatesPassed, RebuildVerified, PlannedAt;
  }

  /** After a verified final rebuild nothing more is submitted. */
  lemma {:induction false} NothingAfterFinalRebuild(
      o: Options, log: seq<Event>, i: nat, j: nat, w: Window, runId: string)
    requires Orderly(o, log) && i < j <= |log|
    requires log[i] == Write(RebuildRecord(w, true, runId, Completed), true)
    ensures DutyAfter(o, log[..j]) == Done
    ensures j < |log| ==> !log[j].PostWindow? && !log[j].PostRebuild?
    decreases j
  {
    hide Step, DutyAfter;
    PrefixStep(o, log, j - 1);
    if j == i + 1 {
      FinalRebuildDischarges(o, DutyAfter(o, log[..i]), log[..i], w, runId);
    } else {
      NothingAfterFinalRebuild(o, log, i, j - 1, w, runId);
      DoneStays(o, log[..j - 1], log[j - 1]);
    }
    if j < |log| {
      PrefixStep(o, log, j);
      DoneStays(o, log[..j], log[j]);
    }
  }

  // ----- what was submitted, planned and completed

  function Posted(e: Event): seq<Window> {
    if e.PostWindow? then [e.window] else []
  }

  function Previewed(e: Event): seq<Window> {
    match e
    case Write(DryRunPlanned(w), true) => [w]
    case _ => []
  }

  function Completing(e: Event): seq<Window> {
    match e
    case Write(WindowRecord(w, _, true), true) => [w]
    case _ => []
  }

  function Posts(log: seq<Event>): seq<Window> {
    if log == [] then [] else Posts(log[..|log| - 1]) + Posted(log[|log| - 1])
  }

  function Previews(log: seq<Event>): seq<Window> {
    if log == [] then [] else Previews(log[..|log| - 1]) + Previewed(log[|log| - 1])
  }

  function CompletedWindows(log: seq<Event>): seq<Window> {
    if log == [] then [] else CompletedWindows(log[..|log| - 1]) + Completing(log[|log| - 1])
  }

  /** Consecutive windows of the fixed campaign, from an edge on the grid. */
  predicate Consecutive(ws: seq<Window>) {
    && (forall k :: 0 <= k < |ws| ==> PlannedAt(ws[k].endBlock + 1, ws[k]))
    && (forall k :: 0 < k < |ws| ==> ws[k].endBlock + 1 == ws[k - 1].startBlock)
  }

  /** What the duty says about the windows so far. */
  predicate Accounted(o: Options, d: Duty, posts: seq<Window>, previews: seq<Window>, completed: seq<Window>) {
    && Consecutive(posts) && Consecutive(previews)
    && (posts != [] ==>
         o.execute && previews == [] && (o.expectedFrom.Some? ==> posts[0].endBlock + 1 == o.expectedFrom.value))
    && (previews != [] ==> !o.execute && (o.expectedFrom.Some? ==> previews[0].endBlock + 1 == o.expectedFrom.value))
    && if d.Flying? then posts == completed + [d.window]
       else
         && posts == completed
         && (d.Previewing? <==> previews != [])
         && (d.Previewing? ==> previews[|previews| - 1].startBlock == d.edge)
         && (posts != [] && !d.Previewing? && !d.Done? && !d.Violated? ==>
              Edge(d) == Some(posts[|posts| - 1].startBlock))
         && (posts == [] && d.Ready? ==> d.expected.None?)
         && (d.RebuildOwed? || d.Rebuilding? ==> posts != [] && posts[|posts| - 1] == d.window && RebuildDue(d.window))
  }

  function Edge(d: Duty): Option<int> {
    match d
    case Ready(Some(live)) => Some(live.fromBlock)
    case RebuildOwed(_, live) => Some(live.fromBlock)
    case Rebuilding(_, live) => Some(live.fromBlock)
    case _ => None
  }

  lemma PlannedEdge(edge: int, w: Window)
    requires PlannedAt(edge, w)
    ensures w.endBlock + 1 == edge
  {
  }

  lemma AccountedPost(
      o: Options, d: Duty, log: seq<Event>, posts: seq<Window>, previews: seq<Window>, completed: seq<Window>,
      w: Window)
    requires Accounted(o, d, posts, previews, completed) && !d.Violated? && !AfterPost(o, d, log, w).Violated?
    ensures Accounted(o, AfterPost(o, d, log, w), posts + [w], previews, completed)
  {
    hide PlannedAt, GatesPassed;
    PlannedEdge(LiveCursor(log, w).fromBlock, w);
  }

  lemma AccountedPreview(
      o: Options, d: Duty, log: seq<Event>, posts: seq<Window>, previews: seq<Window>, completed: seq<Window>,
      w: Window)
    requires Accounted(o, d, posts, previews, completed) && !d.Violated? && !AfterPreview(o, d, log, w).Violated?
    ensures Accounted(o, AfterPreview(o, d, log, w), posts, previews + [w], completed)
  {
    hide PlannedAt, GatesPassed;
    PlannedEdge(if d.Previewing? then d.edge else LiveCursor(log, w).fromBlock, w);
  }

  lemma AccountedStep(
      o: Options, d: Duty, log: seq<Event>, e: Event, posts: seq<Window>, previews: seq<Window>, completed: seq<Window>)
    requires Accounted(o, d, posts, previews, completed) && !d.Violated? && !Step(o, d, log, e).Violated?
    ensures Accounted(o, Step(o, d, log, e), posts + Posted(e), previews + Previewed(e), completed + Completing(e))
  {
    hide PlannedAt, GatesPassed, ChecksPassed, RebuildVerified, RebuildGatesPassed, Consecutive, AfterPost,
      AfterPreview, RebuildDue;
    assert posts + [] == posts && previews + [] == previews && completed + [] == completed;
    match e
    case PostWindow(w, _) => AccountedPost(o, d, log, posts, previews, completed, w);
    case Write(DryRunPlanned(w), true) => AccountedPreview(o, d, log, posts, previews, completed, w);
    case _ =>
  }

  lemma {:induction false} AlwaysAccounted(o: Options, log: seq<Event>)
    requires Orderly(o, log)
    ensures Accounted(o, DutyAfter(o, log), Posts(log), Previews(log), CompletedWindows(log))
  {
    hide Step, Accounted;
    if log != [] {
      PrefixOrderly(o, log, |log| - 1);
      var front, e := log[..|log| - 1], log[|log| - 1];
      AlwaysAccounted(o, front);
      ViolationIsFinal(o, front, e);
      AccountedStep(o, DutyAfter(o, front), front, e, Posts(front), Previews(front), CompletedWindows(front));
    } else {
      NothingAccounted(o);
    }
  }

  lemma ViolationIsFinal(o: Options, log: seq<Event>, e: Event)
    ensures DutyAfter(o, log).Violated? ==> Step(o, DutyAfter(o, log), log, e).Violated?
  {
  }

  lemma NothingAccounted(o: Options)
    ensures Accounted(o, Ready(None), [], [], [])
  {
  }

  lemma WalkUnfolds(edge: int, w: Window)
    requires PlannedAt(edge, w)
    ensures w.endBlock + 1 == edge && Walk(CAMPAIGN, edge) == [w] + Walk(CAMPAIGN, w.startBlock)
  {
  }

  lemma {:induction false} ConsecutiveIsWalk(ws: seq<Window>)
    requires Consecutive(ws) && ws != []
    ensures ws <= Walk(CAMPAIGN, ws[0].endBlock + 1)
    decreases |ws|
  {
    hide PlannedAt, Walk;
    WalkUnfolds(ws[0].endBlock + 1, ws[0]);
    if |ws| > 1 {
      assert forall k :: 0 <= k < |ws[1..]| ==> ws[1..][k] == ws[k + 1];
      ConsecutiveIsWalk(ws[1..]);
      assert ws == [ws[0]] + ws[1..];
    } else {
      assert ws == [ws[0]];
    }
  }

  // ----- what the log shows of completed windows and rebuilds

  /** At position b stands a durable record of completion, directly after the window's
      gates, its accepted submission, the poll of its own run and five good answers. */
  predicate WindowProvenAt(log: seq<Event>, b: nat, w: Window, runId: string) {
    && 7 <= b < |log|
    && log[b] == Write(WindowRecord(w, runId, true), true)
    && GatesPassed(log[..b - 7], w)
    && ChecksPassed(log[..b], w, runId, LiveCursor(log[..b - 7], w))
  }

  ghost predicate WindowProven(log: seq<Event>, w: Window) {
    exists b: nat, runId :: WindowProvenAt(log, b, w, runId)
  }

  ghost predicate RebuildProven(log: seq<Event>, w: Window) {
    exists b: nat, runId :: RebuildProvenAt(log, b, w, runId)
  }

  /** The latest submission of a window stands at position a, directly after its gates. */
  predicate OpenedAt(log: seq<Event>, a: nat, w: Window, live: Cursor) {
    && a < |log|
    && log[a].PostWindow? && log[a].window == w
    && GatesPassed(log[..a], w) && LiveCursor(log[..a], w) == live
    && forall k :: a < k < |log| ==> !log[k].PostWindow?
  }

  /** Whatever the duty counts is proven in the log. */
  ghost predicate Vouched(d: Duty, log: seq<Event>, completed: seq<Window>) {
    && (forall k :: 0 <= k < |completed| ==> WindowProven(log, completed[k]))
    && (d.Flying? ==> exists a: nat :: OpenedAt(log, a, d.window, d.live))
    && (d.Done? ==>
          && completed != []
          && var w := completed[|completed| - 1]; FinalRebuildDue(w.number, w.total) && RebuildProven(log, w))
  }

  lemma ProvenStays(log: seq<Event>, e: Event, w: Window)
    ensures WindowProven(log, w) ==> WindowProven(log + [e], w)
    ensures RebuildProven(log, w) ==> RebuildProven(log + [e], w)
  {
    hide GatesPassed, ChecksPassed, RebuildVerified, LiveCursor;
    if WindowProven(log, w) {
      var b: nat, runId :| WindowProvenAt(log, b, w, runId);
      assert (log + [e])[..b] == log[..b] && (log + [e])[..b - 7] == log[..b - 7];
      assert WindowProvenAt(log + [e], b, w, runId);
    }
    if RebuildProven(log, w) {
      var b: nat, runId :| RebuildProvenAt(log, b, w, runId);
      assert (log + [e])[..b] == log[..b];
      assert RebuildProvenAt(log + [e], b, w, runId);
    }
  }

  lemma OpenStays(log: seq<Event>, e: Event, w: Window, live: Cursor)
    requires exists a: nat :: OpenedAt(log, a, w, live)
    requires !e.PostWindow?
    ensures exists a: nat :: OpenedAt(log + [e], a, w, live)
  {
    hide GatesPassed, LiveCursor;
    var a: nat :| OpenedAt(log, a, w, live);
    assert (log + [e])[..a] == log[..a];
    assert OpenedAt(log + [e], a, w, live);
  }

  /** A window recorded as completed was opened seven interactions before. */
  lemma CompletionProven(log: seq<Event>, w: Window, runId: string, live: Cursor)
    requires exists a: nat :: OpenedAt(log, a, w, live)
    requires ChecksPassed(log, w, runId, live)
    ensures WindowProven(log + [Write(WindowRecord(w, runId, true), true)], w)
  {
    hide GatesPassed, LiveCursor, RunAcceptable;
    var a: nat :| OpenedAt(log, a, w, live);
    var log', n := log + [Write(WindowRecord(w, runId, true), true)], |log|;
    assert log[n - 7] == Last(log, 7) && log[n - 6] == Last(log, 6) && log[n - 5] == Last(log, 5)
      && log[n - 4] == Last(log, 4)
      && log[n - 3] == Last(log, 3) && log[n - 2] == Last(log, 2) && log[n - 1] == Last(log, 1);
    assert a == n - 7;
    assert log'[..n] == log && log'[..n - 7] == log[..n - 7];
    assert WindowProvenAt(log', n, w, runId);
  }

  lemma RebuildCompletionProven(log: seq<Event>, w: Window, runId: string)
    requires RebuildVerified(log, w, runId)
    ensures var record := RebuildRecord(w, FinalRebuildDue(w.number, w.total), runId, Completed);
      RebuildProven(log + [Write(record, true)], w)
  {
    hide RebuildVerified;
    var log' := log + [Write(RebuildRecord(w, FinalRebuildDue(w.number, w.total), runId, Completed), true)];
    assert log'[..|log|] == log;
    assert RebuildProvenAt(log', |log|, w, runId);
  }

  lemma VouchedStep(
      o: Options, d: Duty, log: seq<Event>, e: Event, posts: seq<Window>, previews: seq<Window>, completed: seq<Window>)
    requires Vouched(d, log, completed) && Accounted(o, d, posts, previews, completed)
    requires !d.Violated? && !Step(o, d, log, e).Violated?
    ensures Vouched(Step(o, d, log, e), log + [e], completed + Completing(e))
  {
    hide WindowProven, RebuildProven, OpenedAt, GatesPassed, ChecksPassed, RebuildVerified, PlannedAt, Consecutive,
      LiveCursor, AfterPost, AfterPreview, RebuildDue, FinalRebuildDue, RebuildGatesPassed;
    forall k | 0 <= k < |completed| ensures WindowProven(log + [e], completed[k]) {
      ProvenStays(log, e, completed[k]);
    }
    if d.Flying? && !e.PostWindow? {
      OpenStays(log, e, d.window, d.live);
    }
    if d.Done? {
      ProvenStays(log, e, completed[|completed| - 1]);
    }
    match e
    case PostWindow(w, _) => PostOpens(o, d, log, e, w);
    case Write(DryRunPlanned(w), true) => PreviewKeeps(o, d, log, w);
    case Write(WindowRecord(w, runId, true), true) => CompletionProven(log, w, runId, d.live);
    case Write(RebuildRecord(w, _, runId, Completed), true) => RebuildCompletionProven(log, w, runId);
    case _ =>
  }

  lemma PostOpens(o: Options, d: Duty, log: seq<Event>, e: Event, w: Window)
    requires e.PostWindow? && e.window == w && !AfterPost(o, d, log, w).Violated?
    ensures AfterPost(o, d, log, w).Flying? && AfterPost(o, d, log, w).window == w
    ensures exists a: nat :: OpenedAt(log + [e], a, w, AfterPost(o, d, log, w).live)
  {
    hide GatesPassed, LiveCursor, PlannedAt;
    assert (log + [e])[..|log|] == log;
    assert OpenedAt(log + [e], |log|, w, AfterPost(o, d, log, w).live);
  }

  lemma PreviewKeeps(o: Options, d: Duty, log: seq<Event>, w: Window)
    ensures var next := AfterPreview(o, d, log, w); next.Violated? || next.Previewing?
  {
    hide GatesPassed, PlannedAt, LiveCursor;
  }

  lemma {:induction false} AlwaysVouched(o: Options, log: seq<Event>)
    requires Orderly(o, log)
    ensures Vouched(DutyAfter(o, log), log, CompletedWindows(log))
  {
    hide Step, Accounted, Vouched;
    if log != [] {
      PrefixOrderly(o, log, |log| - 1);
      var front, e := log[..|log| - 1], log[|log| - 1];
      AlwaysVouched(o, front);
      AlwaysAccounted(o, front);
      ViolationIsFinal(o, front, e);
      VouchedStep(o, DutyAfter(o, front), front, e, Posts(front), Previews(front), CompletedWindows(front));
      assert front + [e] == log;
    } else {
      NothingVouched();
    }
  }

  lemma NothingVouched()
    ensures Vouched(Ready(None), [], [])
  {
  }

  /** In every orderly log, the submitted windows are the first ones of the campaign's
      descending partition from wherever the cursor stood, each submitted once; all but
      possibly the last are completed, each proven in the log by its own accepted run; a
      dry run previews such windows instead and submits nothing. */
  lemma SubmissionsWalkTheCampaign(o: Options, log: seq<Event>)
    requires Orderly(o, log)
    ensures var posts, previews := Posts(log), Previews(log);
      && (posts != [] ==> o.execute && posts <= Walk(CAMPAIGN, posts[0].endBlock + 1))
      && (previews != [] ==> !o.execute && previews <= Walk(CAMPAIGN, previews[0].endBlock + 1))
      && CompletedWindows(log) <= posts && |posts| <= |CompletedWindows(log)| + 1
      && (forall k :: 0 <= k < |CompletedWindows(log)| ==> WindowProven(log, CompletedWindows(log)[k]))
      && (o.expectedFrom.Some? && posts != [] ==> posts[0].endBlock + 1 == o.expectedFrom.value)
  {
    hide PlannedAt, Consecutive, Walk, DutyAfter, Posts, Previews, CompletedWindows, WindowProven, RebuildProven,
      RebuildDue;
    AlwaysAccounted(o, log);
    AlwaysVouched(o, log);
    if Posts(log) != [] {
      ConsecutiveIsWalk(Posts(log));
    }
    if Previews(log) != [] {
      ConsecutiveIsWalk(Previews(log));
    }
  }

  /** A window carries the last number exactly if it reaches down to the lower bound. */
  lemma LastNumberAtFloor(edge: int, w: Window)
    requires PlannedAt(edge, w)
    ensures FinalRebuildDue(w.number, w.total) <==> w.startBlock == CAMPAIGN.floor
  {
    PlannedIffOnGrid(CAMPAIGN, edge);
    var n: nat :| CAMPAIGN.Edge(n) == edge;
    PlanOnGrid(CAMPAIGN, n);
  }

  /** A rebuild is due exactly when another twenty-five thousand blocks of the campaign are
      done, and when the lower bound is reached. */
  lemma RebuildDueExactly(edge: int, w: Window)
    requires PlannedAt(edge, w)
    ensures RebuildDue(w) <==> (26_697_999 - w.startBlock) % 25_000 == 0 || w.startBlock == 17_233_000
  {
    PlannedIffOnGrid(CAMPAIGN, edge);
    var n: nat :| CAMPAIGN.Edge(n) == edge;
    PlanOnGrid(CAMPAIGN, n);
    LastNumberAtFloor(edge, w);
    if w.startBlock == CAMPAIGN.Edge(n + 1) {
      assert 26_697_999 - w.startBlock == 1000 * w.number;
      TwentyFive(w.number);
    }
  }

  lemma TwentyFive(n: nat)
    ensures (1000 * n) % 25_000 == 0 <==> n % 25 == 0
  {
  }
}
