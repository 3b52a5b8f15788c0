/** Planning of the descending transfer backfill: a fixed grid of windows below the
    original cursor, the last one clamped to the lower bound. */
module BackfillPlan {
  import opened Base
  import opened Json
  import opened SyncPrimitives
  import Arithmetic
  import Decimal

  const ORIGINAL_CURSOR_FROM: int := 26_697_999
  const FIRST_ACTIVITY: int := 13_010_696
  const LAST_INHERITED_BLOCK: int := 17_232_999
  const FIRST_POST_FORK_BLOCK: int := 17_233_000
  const ORDINARY_LOWER_BOUND: int :=
    if FIRST_ACTIVITY > FIRST_POST_FORK_BLOCK then FIRST_ACTIVITY else FIRST_POST_FORK_BLOCK
  const FULL_WINDOW_BLOCKS: nat := 1000
  const CHECKPOINT_INTERVAL: nat := 25
  const LABEL_PREFIX: string := "transfer-history-backfill-window-"

  /** The blocks from `floor` up to just below `origin`, cut from above into `size`. */
  datatype Grid = Grid(origin: int, floor: int, size: nat) {
    predicate Valid() {
      floor <= origin && size > 0
    }

    /** The upper edge of the window after n windows. */
    function Edge(n: int): int {
      origin - size * n
    }
  }

  const CAMPAIGN: Grid := Grid(ORIGINAL_CURSOR_FROM, ORDINARY_LOWER_BOUND, FULL_WINDOW_BLOCKS)

  datatype Window = Window(number: nat, startBlock: int, endBlock: int, isFinal: bool, total: nat) {
    function Label(): string {
      LABEL_PREFIX + Decimal.Print(number)
    }

    function BlockCount(): int {
      endBlock - startBlock + 1
    }
  }

  datatype Plan = NextWindow(window: Window) | Complete(total: nat) | Misaligned

  function TotalWindows(g: Grid): (n: nat)
    requires g.Valid()
  {
    Arithmetic.CeilDiv(g.origin - g.floor, g.size)
  }

  function PlanFrom(g: Grid, edge: int): (p: Plan)
    requires g.Valid()
    ensures p.NextWindow? ==> g.floor <= p.window.startBlock < edge == p.window.endBlock + 1
  {
    var total := TotalWindows(g);
    if edge <= g.floor then Complete(total)
    else if edge > g.origin then Misaligned
    else
      var offset := g.origin - edge;
      if offset % g.size != 0 then Misaligned
      else
        var rawStart := edge - g.size;
        var start := if rawStart < g.floor then g.floor else rawStart;
        NextWindow(Window(offset / g.size + 1, start, edge - 1, start == g.floor, total))
  }

  predicate CheckpointDue(number: nat) {
    number > 0 && number % CHECKPOINT_INTERVAL == 0
  }

  predicate FinalRebuildDue(number: nat, total: nat) {
    number == total
  }

  // ----- gates

  predicate Adjacent(edge: int, w: Window) {
    w.endBlock + 1 == edge
  }

  predicate RangeSizeOk(g: Grid, w: Window) {
    && w.BlockCount() > 0
    && (if w.isFinal then w.BlockCount() <= g.size else w.BlockCount() == g.size)
  }

  /** The start classifies as post-fork history of the one supported chain. */
  predicate PostFork(startBlock: int) {
    startBlock >= 0 && startBlock > LAST_INHERITED_BLOCK && startBlock >= FIRST_POST_FORK_BLOCK
  }

  // ----- one plan

  /** From the edge after n whole windows: the window planned is the n-th of the grid,
      it is final exactly if it carries the last number, and planning from an edge off
      the grid is refused. */
  lemma PlanOnGrid(g: Grid, n: nat)
    requires g.Valid()
    ensures g.Edge(n) <= g.floor <==> n >= TotalWindows(g)
    ensures n >= TotalWindows(g) ==> PlanFrom(g, g.Edge(n)) == Complete(TotalWindows(g))
    ensures n < TotalWindows(g) ==>
      var start := if g.Edge(n + 1) < g.floor then g.floor else g.Edge(n + 1);
      && PlanFrom(g, g.Edge(n))
           == NextWindow(Window(n + 1, start, g.Edge(n) - 1, n + 1 == TotalWindows(g), TotalWindows(g)))
      && (n + 1 < TotalWindows(g) ==> start == g.Edge(n + 1))
  {
    Arithmetic.CeilDivExact(g.origin - g.floor, g.size, n + 1);
    Arithmetic.CeilDivExact(g.origin - g.floor, g.size, n + 2);
    Arithmetic.DivModUnique(g.size * n, g.size, n, 0);
    assert g.Edge(n + 1) == g.Edge(n) - g.size by { Arithmetic.Distribute(g.size, n + 1, n); }
    Arithmetic.ProductMonotone(g.size, 0, n);
  }

  /** An edge above the lower bound is planned exactly if it lies on the grid. */
  lemma PlannedIffOnGrid(g: Grid, edge: int)
    requires g.Valid() && edge > g.floor
    ensures PlanFrom(g, edge).NextWindow? <==> exists n: nat :: g.Edge(n) == edge
  {
    if PlanFrom(g, edge).NextWindow? {
      var n := (g.origin - edge) / g.size;
      assert g.Edge(n) == edge;
    }
    if n: nat :| g.Edge(n) == edge {
      Arithmetic.DivModUnique(g.origin - edge, g.size, n, 0);
      Arithmetic.ProductMonotone(g.size, 0, n);
    }
  }

  /** The gates after planning repeat what planning guarantees; the fork gate passes
      exactly from the first post-fork block up, so a grid above it never fails it. */
  lemma PlannedWindowsPassGates(g: Grid, edge: int)
    requires g.Valid() && PlanFrom(g, edge).NextWindow?
    ensures var w := PlanFrom(g, edge).window;
      && Adjacent(edge, w)
      && RangeSizeOk(g, w)
      && (PostFork(w.startBlock) <==> w.startBlock >= FIRST_POST_FORK_BLOCK)
      && (g.floor >= FIRST_POST_FORK_BLOCK ==> PostFork(w.startBlock))
  {
  }

  // ----- the whole campaign

  /** The windows planned one after the other, each from the start of its predecessor. */
  function Walk(g: Grid, edge: int): seq<Window>
    requires g.Valid()
    decreases edge - g.floor
  {
    match PlanFrom(g, edge)
    case NextWindow(w) => [w] + Walk(g, w.startBlock)
    case _ => []
  }

  /** The windows descend from the edge to the floor without gap or overlap. */
  predicate TilesDown(ws: seq<Window>, edge: int, floor: int) {
    if ws == [] then edge == floor
    else ws[0].endBlock == edge - 1 && ws[0].startBlock <= ws[0].endBlock && TilesDown(ws[1..], ws[0].startBlock, floor)
  }

  /** The edge from which the walk goes on after n windows. */
  function Position(g: Grid, n: nat): int
    requires g.Valid()
  {
    if n < TotalWindows(g) then g.Edge(n) else g.floor
  }

  lemma {:induction false} WalkTiles(g: Grid, n: nat)
    requires g.Valid() && n <= TotalWindows(g)
    ensures var ws := Walk(g, Position(g, n));
      && |ws| == TotalWindows(g) - n
      && TilesDown(ws, Position(g, n), g.floor)
      && (forall k :: 0 <= k < |ws| ==> ws[k].number == n + k + 1 && ws[k].endBlock == g.Edge(n + k) - 1)
      && (forall k :: 0 <= k < |ws| ==> ws[k].startBlock == Position(g, n + k + 1))
      && (forall k :: 0 <= k < |ws| ==>
           ws[k].total == TotalWindows(g) && (ws[k].isFinal <==> ws[k].number == TotalWindows(g)))
    decreases TotalWindows(g) - n
  {
    PlanOnGrid(g, n);
    if n < TotalWindows(g) {
      PlanOnGrid(g, n + 1);
      WalkTiles(g, n + 1);
      var w := PlanFrom(g, g.Edge(n)).window;
      assert w.startBlock == Position(g, n + 1);
      var rest := Walk(g, w.startBlock);
      var ws := Walk(g, g.Edge(n));
      assert ws == [w] + rest && ws[1..] == rest;
    } else {
      assert PlanFrom(g, g.floor) == Complete(TotalWindows(g));
    }
  }

  /** The whole campaign: numbers run from one to the rounded-up quotient, the windows
      partition the blocks from the lower bound up to the original cursor in descending
      order, exactly the last one is final and all others are full, and planning ends
      with completion, never with a misaligned cursor. */
  lemma CampaignTiles(g: Grid)
    requires g.Valid()
    ensures var ws := Walk(g, g.origin);
      && |ws| == TotalWindows(g) == Arithmetic.CeilDiv(g.origin - g.floor, g.size)
      && TilesDown(ws, g.origin, g.floor)
      && (forall k :: 0 <= k < |ws| ==> ws[k].number == k + 1 && (ws[k].isFinal <==> k + 1 == TotalWindows(g)))
      && (forall k :: 0 <= k < |ws| - 1 ==> ws[k].BlockCount() == g.size)
      && (forall k :: 0 <= k < |ws| ==> !PlanFrom(g, ws[k].startBlock).Misaligned?)
      && PlanFrom(g, if ws == [] then g.origin else ws[|ws| - 1].startBlock).Complete?
  {
    assert g.Edge(0) == g.origin;
    PlanOnGrid(g, 0);
    WalkTiles(g, 0);
    var ws := Walk(g, g.origin);
    forall k | 0 <= k < |ws|
      ensures k < |ws| - 1 ==> ws[k].BlockCount() == g.size
      ensures !PlanFrom(g, ws[k].startBlock).Misaligned?
      ensures k == |ws| - 1 ==> PlanFrom(g, ws[k].startBlock).Complete?
    {
      PlanOnGrid(g, k + 1);
      assert g.Edge(k + 1) == g.Edge(k) - g.size by { Arithmetic.Distribute(g.size, k + 1, k); }
    }
  }

  /** The fixed campaign: 9465 windows, every one a thousand blocks except the last. */
  lemma FixedCampaign()
    ensures CAMPAIGN.Valid() && TotalWindows(CAMPAIGN) == 9465
    ensures var ws := Walk(CAMPAIGN, ORIGINAL_CURSOR_FROM);
      |ws| == 9465 && ws[9464].startBlock == FIRST_POST_FORK_BLOCK && ws[9464].BlockCount() == 999
  {
    hide Walk, TilesDown, PlanFrom;
    CampaignTiles(CAMPAIGN);
    WalkTiles(CAMPAIGN, 0);
  }

  // ----- terminal verification of window runs and rebuilds

  datatype Expected = WindowRun | CheckpointRebuild | FinalRebuild

  const EXPECTED_WARNING_PREFIX: string := "negative-token-balance:"

  predicate ExpectedDetail(detail: Json) {
    detail.String? && EXPECTED_WARNING_PREFIX <= detail.text
  }

  predicate ExpectedDetails(details: Json) {
    details.Array? && details.items != [] && forall i :: 0 <= i < |details.items| ==> ExpectedDetail(details.items[i])
  }

  predicate RunFields(run: SyncRun, expected: Expected, start: int, end: int) {
    && run.trigger == (if expected.WindowRun? then "MANUAL" else "REBUILD")
    && run.status == "COMPLETED"
    && NoFailure(run)
    && TransfersOnly(run.sourceFamilies)
    && run.startBlock == Some(start) && run.endBlock == Some(end)
    && (expected.WindowRun? ==> run.latestSafeBlock == Some(end))
  }

  /** The acceptance set of the terminal verifier. */
  predicate RunAcceptable(run: SyncRun, expected: Expected, start: int, end: int) {
    && RunFields(run, expected, start, end)
    && (if expected.CheckpointRebuild? then run.warningCount > 0 ==> ExpectedDetails(run.warningDetails)
        else run.warningCount == 0)
  }

  /** The warnings outside the documented class, in order. */
  function Unexpected(details: seq<Json>): (r: seq<Json>)
    ensures r == [] <==> forall i :: 0 <= i < |details| ==> ExpectedDetail(details[i])
  {
    if details == [] then []
    else
      assert forall i :: 1 <= i < |details| ==> details[i] == details[1..][i - 1];
      (if ExpectedDetail(details[0]) then [] else [details[0]]) + Unexpected(details[1..])
  }

  function OutcomeReasons(run: SyncRun, expected: Expected): (reasons: seq<TerminalReason>)
    ensures reasons == [] <==>
      && run.trigger == (if expected.WindowRun? then "MANUAL" else "REBUILD") && run.status == "COMPLETED"
      && NoFailure(run)
  {
    Fail(run.trigger != (if expected.WindowRun? then "MANUAL" else "REBUILD"), WrongTrigger)
    + Fail(run.status != "COMPLETED", WrongStatus)
    + Fail(run.errorMessage.Some?, UnexpectedErrorMessage)
    + Fail(run.failedSourceFamily.Some?, UnexpectedFailedFamily)
    + Fail(run.failedFromBlock.Some? || run.failedToBlock.Some?, UnexpectedFailedRange)
  }

  function RangeReasons(run: SyncRun, expected: Expected, start: int, end: int): (reasons: seq<TerminalReason>)
    ensures reasons == [] <==>
      && TransfersOnly(run.sourceFamilies) && run.startBlock == Some(start) && run.endBlock == Some(end)
      && (expected.WindowRun? ==> run.latestSafeBlock == Some(end))
  {
    Fail(|run.sourceFamilies| != 1 || run.sourceFamilies[0] != TRANSFERS, WrongFamilies)
    + Fail(run.startBlock != Some(start), WrongStart)
    + Fail(run.endBlock != Some(end), WrongEnd)
    + Fail(expected.WindowRun? && run.latestSafeBlock != Some(end), WrongSafeBlock)
  }

  function FieldReasons(run: SyncRun, expected: Expected, start: int, end: int): (reasons: seq<TerminalReason>)
    ensures reasons == [] <==> RunFields(run, expected, start, end)
  {
    OutcomeReasons(run, expected) + RangeReasons(run, expected, start, end)
  }

  /** What each failure stands for, stated one by one. */
  predicate RunFault(run: SyncRun, expected: Expected, start: int, end: int, reason: TerminalReason) {
    match reason
    case WrongTrigger => run.trigger != (if expected.WindowRun? then "MANUAL" else "REBUILD")
    case WrongStatus => run.status != "COMPLETED"
    case UnexpectedErrorMessage => run.errorMessage.Some?
    case UnexpectedFailedFamily => run.failedSourceFamily.Some?
    case UnexpectedFailedRange => run.failedFromBlock.Some? || run.failedToBlock.Some?
    case WrongFamilies => run.sourceFamilies != [TRANSFERS]
    case WrongStart => run.startBlock != Some(start)
    case WrongEnd => run.endBlock != Some(end)
    case WrongSafeBlock => expected.WindowRun? && run.latestSafeBlock != Some(end)
    case NonZeroWarningCount => !expected.CheckpointRebuild? && run.warningCount != 0
    case WarningsNotEligible => expected.CheckpointRebuild? && run.warningCount > 0
      && !ExpectedDetails(run.warningDetails)
    case _ => false
  }

  lemma OutcomeReasonsExact(run: SyncRun, expected: Expected, reason: TerminalReason)
    ensures reason in OutcomeReasons(run, expected) <==>
      match reason
      case WrongTrigger => run.trigger != (if expected.WindowRun? then "MANUAL" else "REBUILD")
      case WrongStatus => run.status != "COMPLETED"
      case UnexpectedErrorMessage => run.errorMessage.Some?
      case UnexpectedFailedFamily => run.failedSourceFamily.Some?
      case UnexpectedFailedRange => run.failedFromBlock.Some? || run.failedToBlock.Some?
      case _ => false
  {
  }

  lemma RangeReasonsExact(run: SyncRun, expected: Expected, start: int, end: int, reason: TerminalReason)
    ensures reason in RangeReasons(run, expected, start, end) <==>
      match reason
      case WrongFamilies => run.sourceFamilies != [TRANSFERS]
      case WrongStart => run.startBlock != Some(start)
      case WrongEnd => run.endBlock != Some(end)
      case WrongSafeBlock => expected.WindowRun? && run.latestSafeBlock != Some(end)
      case _ => false
  {
  }

  /** The reasons that do not come from the warnings. */
  lemma FieldReasonsExact(run: SyncRun, expected: Expected, start: int, end: int, reason: TerminalReason)
    ensures reason in FieldReasons(run, expected, start, end) <==>
      && !reason.NonZeroWarningCount? && !reason.WarningsNotEligible?
      && RunFault(run, expected, start, end, reason)
  {
    hide OutcomeReasons, RangeReasons, ExpectedDetails;
    OutcomeReasonsExact(run, expected, reason);
    RangeReasonsExact(run, expected, start, end, reason);
  }

  method VerifyTerminalState(run: SyncRun, expected: Expected, start: int, end: int)
    returns (reasons: seq<TerminalReason>)
    ensures reasons == [] <==> RunAcceptable(run, expected, start, end)
    ensures forall reason :: reason in reasons <==> RunFault(run, expected, start, end, reason)
  {
    hide FieldReasons, RunFields, ExpectedDetail;
    reasons := FieldReasons(run, expected, start, end);
    forall reason ensures reason in FieldReasons(run, expected, start, end) <==>
      && !reason.NonZeroWarningCount? && !reason.WarningsNotEligible?
      && RunFault(run, expected, start, end, reason)
    {
      FieldReasonsExact(run, expected, start, end, reason);
    }
    if expected.CheckpointRebuild? {
      if run.warningCount > 0 {
        if !run.warningDetails.Array? || |run.warningDetails.items| == 0 || |Unexpected(run.warningDetails.items)| > 0 {
          reasons := reasons + [WarningsNotEligible];
        }
      }
    } else if run.warningCount != 0 {
      reasons := reasons + [NonZeroWarningCount];
    }
  }

  /** The checkpoint allowance widens the strict rebuild verification by exactly the
      rebuilds whose warnings all belong to the documented class; without warnings the
      two agree, and a final rebuild with warnings is never accepted. */
  lemma CheckpointAllowance(run: SyncRun, start: int, end: int)
    requires run.warningCount >= 0
    ensures RunAcceptable(run, CheckpointRebuild, start, end)
       <==> || RunAcceptable(run, FinalRebuild, start, end)
            || (run.warningCount > 0 && RunFields(run, FinalRebuild, start, end) && ExpectedDetails(run.warningDetails))
  {
  }
}
