/** Planning of bounded child campaigns towards one fixed final block. */
module SupervisorPlan {
  import opened Base
  import opened SyncPrimitives
  import opened CampaignPlan
  import opened CampaignMachine
  import Arithmetic
  import Decimal

  datatype SupervisorOptions = SupervisorOptions(
    execute: bool,
    walletAddress: string,
    chainId: int,
    authorizedFinalBlock: int,
    campaignMaxWindows: int,
    windowSize: int,
    campaignIdPrefix: string,
    policyLabelPrefix: string,
    checkpointInterval: int,
    baseUrl: string,
    evidenceFile: string,
    childEvidenceFile: Option<string>,
    pollIntervalMs: int,
    pollTimeoutMs: int,
    runnerScriptPath: string)

  datatype ChildPlan = ChildPlan(
    number: nat, anchorFrom: int, cursorTo: int, firstWindowStart: int, maxWindows: int, finalBlock: int)

  datatype NextChild = AlreadyReached | StateInvalid | Child(plan: ChildPlan)

  function NextChildPlan(
      cursor: Cursor, windowSize: int, campaignMaxWindows: int, authorizedFinalBlock: int, number: nat): NextChild
    requires windowSize > 0
  {
    if cursor.toBlock > authorizedFinalBlock then StateInvalid
    else if cursor.toBlock == authorizedFinalBlock then AlreadyReached
    else
      var remainingBlocks := authorizedFinalBlock - cursor.toBlock;
      if remainingBlocks % windowSize != 0 then StateInvalid
      else
        var childWindows := Min(remainingBlocks / windowSize, campaignMaxWindows);
        var finalBlock := cursor.toBlock + 1 + childWindows * windowSize - 1;
        if finalBlock > authorizedFinalBlock then StateInvalid
        else Child(ChildPlan(number, cursor.fromBlock, cursor.toBlock, cursor.toBlock + 1, childWindows, finalBlock))
  }

  /** The run-time re-validation of supervisor options. */
  predicate Acceptable(so: SupervisorOptions) {
    && so.windowSize == REQUIRED_WINDOW_SIZE
    && 1 <= so.campaignMaxWindows <= MAX_WINDOWS_HARD_CAP
    && ValidCampaignId(so.campaignIdPrefix)
    && 1 <= so.checkpointInterval <= MAX_CHECKPOINT_INTERVAL
  }

  function ChildCampaignId(prefix: string, number: nat): string {
    prefix + "-c" + Decimal.Print(number)
  }

  const DEFAULT_CHILD_EVIDENCE_FILE: string := "operator-evidence/wallet-forward-campaign-runner/evidence.jsonl"

  /** The options a child campaign runs with. */
  function ChildOptions(so: SupervisorOptions, plan: ChildPlan): Options {
    Options(so.execute, so.walletAddress, so.chainId, plan.anchorFrom, plan.cursorTo, plan.firstWindowStart,
      so.windowSize, plan.maxWindows, plan.finalBlock, ChildCampaignId(so.campaignIdPrefix, plan.number),
      so.policyLabelPrefix, so.checkpointInterval, so.baseUrl,
      if so.childEvidenceFile.Some? && so.childEvidenceFile.value != "" then so.childEvidenceFile.value
      else DEFAULT_CHILD_EVIDENCE_FILE,
      so.pollIntervalMs, so.pollTimeoutMs, None)
  }

  function PlanFor(so: SupervisorOptions, cursor: Cursor, number: nat): NextChild
    requires Acceptable(so)
  {
    NextChildPlan(cursor, so.windowSize, so.campaignMaxWindows, so.authorizedFinalBlock, number)
  }

  /** The cursor a child was planned from. */
  function StartOf(plan: ChildPlan): Cursor {
    Cursor(plan.anchorFrom, plan.cursorTo)
  }

  // ----- what one plan guarantees

  /** The re-check of the immutable target never fires: a plan is refused only for a
      cursor beyond the target or a span that is not made of whole windows. */
  lemma PlanRefusedIff(cursor: Cursor, windowSize: int, campaignMaxWindows: int, final: int, number: nat)
    requires windowSize > 0
    ensures NextChildPlan(cursor, windowSize, campaignMaxWindows, final, number).StateInvalid?
       <==> cursor.toBlock > final || (final - cursor.toBlock) % windowSize != 0
  {
    var span := final - cursor.toBlock;
    if span > 0 && span % windowSize == 0 {
      Arithmetic.ProductMonotone(windowSize, Min(span / windowSize, campaignMaxWindows), span / windowSize);
      assert windowSize * (span / windowSize) == span;
      assert Min(span / windowSize, campaignMaxWindows) * windowSize <= span;
    } else if span == 0 {
      Arithmetic.SmallQuotient(0, windowSize);
    }
  }

  /** Every plan passes the child's own gates: its options are accepted, the window
      count implied by its boundary is exactly its window limit, and its first window
      starts right after the cursor it was planned from. */
  lemma PlanPassesChildGates(so: SupervisorOptions, cursor: Cursor, number: nat)
    requires Acceptable(so) && PlanFor(so, cursor, number).Child?
    requires ValidCampaignId(ChildCampaignId(so.campaignIdPrefix, number))
    ensures var plan := PlanFor(so, cursor, number).plan; var o := ChildOptions(so, plan);
      && CheckOptions(o) == Accepted(plan.maxWindows)
      && EffectiveMaxWindows(o) == plan.maxWindows
      && CompletionReason(o) == MaxWindowsReached
      && EffectiveFirstWindowStart(o) == o.expectedCursorTo + 1
      && cursor.toBlock < plan.finalBlock <= so.authorizedFinalBlock
  {
    var plan := PlanFor(so, cursor, number).plan;
    assert plan.maxWindows >= 1;
    AlignedExactly(plan.firstWindowStart, plan.finalBlock, plan.maxWindows);
  }

  /** A child is planned as large as its limit and the target allow: fewer windows than the
      limit only where they reach the target. */
  lemma PlansAreLargest(so: SupervisorOptions, cursor: Cursor, number: nat)
    requires Acceptable(so) && PlanFor(so, cursor, number).Child?
    ensures var plan := PlanFor(so, cursor, number).plan;
      && plan.number == number && StartOf(plan) == cursor && plan.firstWindowStart == cursor.toBlock + 1
      && plan.finalBlock == cursor.toBlock + 1000 * plan.maxWindows
      && 1 <= plan.maxWindows <= so.campaignMaxWindows
      && (plan.maxWindows < so.campaignMaxWindows ==> plan.finalBlock == so.authorizedFinalBlock)
  {
  }

  lemma AlignedExactly(first: int, final: int, count: nat)
    requires 1 <= count <= MAX_WINDOWS_HARD_CAP && final == first + REQUIRED_WINDOW_SIZE * count - 1
    ensures AlignFinalBlock(first, REQUIRED_WINDOW_SIZE, final) == Aligned(count)
  {
    assert final == WindowEdge(first, REQUIRED_WINDOW_SIZE, count) - 1;
  }

  // ----- the sequence of children when nothing else moves the cursor

  function RemainingWindows(so: SupervisorOptions, cursor: Cursor): nat
    requires Acceptable(so) && cursor.toBlock <= so.authorizedFinalBlock
  {
    (so.authorizedFinalBlock - cursor.toBlock) / so.windowSize
  }

  /** The children that lead from a cursor to the target, each planned from the
      boundary of its predecessor. */
  function Children(so: SupervisorOptions, cursor: Cursor, number: nat): (plans: seq<ChildPlan>)
    requires Acceptable(so)
    decreases so.authorizedFinalBlock - cursor.toBlock
  {
    match PlanFor(so, cursor, number)
    case Child(plan) =>
      [plan] + Children(so, Cursor(cursor.fromBlock, plan.finalBlock), number + 1)
    case _ => []
  }

  predicate Reachable(so: SupervisorOptions, cursor: Cursor) {
    cursor.toBlock <= so.authorizedFinalBlock && (so.authorizedFinalBlock - cursor.toBlock) % REQUIRED_WINDOW_SIZE == 0
  }

  /** Blocks are partitioned: each child starts right after its predecessor ends, the
      first right after the cursor, and the last ends exactly at the target. */
  predicate Tiles(plans: seq<ChildPlan>, cursorTo: int, final: int) {
    if plans == [] then cursorTo == final
    else
      && plans[0].firstWindowStart == cursorTo + 1
      && plans[0].finalBlock == cursorTo + REQUIRED_WINDOW_SIZE * plans[0].maxWindows
      && plans[0].maxWindows >= 1
      && Tiles(plans[1..], plans[0].finalBlock, final)
  }

  /** The children tile the whole remaining span, consecutively numbered, and there are
      exactly as many as the remaining windows divided by the child limit, rounded up. */
  lemma {:induction false} ChildrenTile(so: SupervisorOptions, cursor: Cursor, number: nat)
    requires Acceptable(so) && Reachable(so, cursor)
    ensures Tiles(Children(so, cursor, number), cursor.toBlock, so.authorizedFinalBlock)
    ensures |Children(so, cursor, number)| == Arithmetic.CeilDiv(RemainingWindows(so, cursor), so.campaignMaxWindows)
    ensures forall k :: 0 <= k < |Children(so, cursor, number)| ==>
      Children(so, cursor, number)[k].number == number + k
        && Children(so, cursor, number)[k].anchorFrom == cursor.fromBlock
    decreases so.authorizedFinalBlock - cursor.toBlock
  {
    var n, m := RemainingWindows(so, cursor), so.campaignMaxWindows;
    if cursor.toBlock < so.authorizedFinalBlock {
      PlanRefusedIff(cursor, so.windowSize, m, so.authorizedFinalBlock, number);
      var plan := PlanFor(so, cursor, number).plan;
      assert n >= 1 && plan.maxWindows == Min(n, m) >= 1;
      var next := Cursor(cursor.fromBlock, plan.finalBlock);
      assert RemainingWindows(so, next) == n - Min(n, m);
      ChildrenTile(so, next, number + 1);
      CeilDivStep(n, m);
      assert Children(so, cursor, number)[1..] == Children(so, next, number + 1);
    } else {
      Arithmetic.SmallQuotient(m - 1, m);
    }
  }

  /** Every child but the last is as large as the limit allows, and the last reaches the
      target. */
  lemma {:induction false} AllButLastAreFull(so: SupervisorOptions, cursor: Cursor, number: nat)
    requires Acceptable(so) && Reachable(so, cursor)
    ensures var plans := Children(so, cursor, number);
      && (forall k :: 0 <= k < |plans| ==> 1 <= plans[k].maxWindows <= so.campaignMaxWindows)
      && (forall k :: 0 <= k < |plans| - 1 ==> plans[k].maxWindows == so.campaignMaxWindows)
      && (plans != [] ==> plans[|plans| - 1].finalBlock == so.authorizedFinalBlock)
    decreases so.authorizedFinalBlock - cursor.toBlock
  {
    if cursor.toBlock < so.authorizedFinalBlock {
      PlanRefusedIff(cursor, so.windowSize, so.campaignMaxWindows, so.authorizedFinalBlock, number);
      PlansAreLargest(so, cursor, number);
      var plan := PlanFor(so, cursor, number).plan;
      var next := Cursor(cursor.fromBlock, plan.finalBlock);
      assert Reachable(so, next) by {
        assert plan.finalBlock == cursor.toBlock + REQUIRED_WINDOW_SIZE * plan.maxWindows;
      }
      AllButLastAreFull(so, next, number + 1);
      assert Children(so, cursor, number) == [plan] + Children(so, next, number + 1);
      if plan.finalBlock < so.authorizedFinalBlock {
        PlanRefusedIff(next, so.windowSize, so.campaignMaxWindows, so.authorizedFinalBlock, number + 1);
      }
    }
  }

  lemma CeilDivStep(n: nat, m: nat)
    requires n >= 1 && m >= 1
    ensures Arithmetic.CeilDiv(n, m) == 1 + Arithmetic.CeilDiv(n - Min(n, m), m)
  {
    if n <= m {
      Arithmetic.DivModUnique(n + m - 1, m, 1, n - 1);
      Arithmetic.SmallQuotient(m - 1, m);
    } else {
      var q, r := (n - 1) / m, (n - 1) % m;
      assert n - 1 == m * q + r;
      Arithmetic.DivModUnique(n - m + m - 1, m, q, r);
      assert m * (q + 1) == m * q + m by { Arithmetic.Distribute(m, q + 1, q); }
      Arithmetic.DivModUnique(n + m - 1, m, q + 1, r);
    }
  }

  // ----- verification of a child's terminal result

  /** What the supervisor gets back from a child process; None stands for output from
      which no summary with a stop reason can be read. */
  datatype ChildResult = ChildResult(exitCode: int, signalled: bool, summary: Option<Summary>)

  predicate CleanResult(result: ChildResult, execute: bool, expectedMaxWindows: int) {
    && !result.signalled
    && result.exitCode == 0
    && result.summary.Some?
    && result.summary.value.reason.Clean()
    && result.summary.value.windowsCompleted == (if execute then expectedMaxWindows else 0)
    && result.summary.value.lastWindowNumber.Some?
    && result.summary.value.lastWindowNumber.value == expectedMaxWindows
  }

  predicate CursorAfterChild(cursor: Option<Cursor>, plan: ChildPlan) {
    cursor == Some(Cursor(plan.anchorFrom, plan.finalBlock))
  }

  /** The persisted evidence behind a target that is already reached. */
  predicate PriorOperationClean(candidates: seq<SyncRun>) {
    var transfers := Transfers(candidates);
    && |transfers| == 1
    && transfers[0].status == "COMPLETED"
    && transfers[0].warningCount == 0
    && EmptyList(transfers[0].warningDetails)
    && transfers[0].errorMessage.None?
    && transfers[0].failedSourceFamily.None?
  }

  function Transfers(candidates: seq<SyncRun>): seq<SyncRun> {
    if candidates == [] then []
    else (if TransfersOnly(candidates[0].sourceFamilies) then [candidates[0]] else []) + Transfers(candidates[1..])
  }

  /** A run that ended well: completed, without warnings and without any failure. */
  predicate EndedWell(run: SyncRun) {
    && run.status == "COMPLETED"
    && run.warningCount == 0 && EmptyList(run.warningDetails)
    && run.errorMessage.None? && run.failedSourceFamily.None?
  }

  /** Among the runs of all families, exactly one is of transfers alone, wherever it
      stands, and that one ended well. */
  ghost predicate OneCleanTransfersRun(candidates: seq<SyncRun>) {
    exists i ::
      && 0 <= i < |candidates|
      && candidates[i].sourceFamilies == [TRANSFERS] && EndedWell(candidates[i])
      && forall j :: 0 <= j < |candidates| && j != i ==> candidates[j].sourceFamilies != [TRANSFERS]
  }

  /** The filter finds the runs of transfers wherever they stand. */
  lemma {:induction false} NoTransfers(candidates: seq<SyncRun>)
    ensures Transfers(candidates) == []
       <==> forall j :: 0 <= j < |candidates| ==> candidates[j].sourceFamilies != [TRANSFERS]
  {
    if candidates != [] {
      NoTransfers(candidates[1..]);
      assert forall j :: 1 <= j < |candidates| ==> candidates[j] == candidates[1..][j - 1];
    }
  }

  lemma {:induction false} OneTransfer(candidates: seq<SyncRun>, i: nat)
    requires i < |candidates| && candidates[i].sourceFamilies == [TRANSFERS]
    requires forall j :: 0 <= j < |candidates| && j != i ==> candidates[j].sourceFamilies != [TRANSFERS]
    ensures Transfers(candidates) == [candidates[i]]
  {
    var rest := candidates[1..];
    assert forall j :: 1 <= j < |candidates| ==> candidates[j] == rest[j - 1];
    if i == 0 {
      NoTransfers(rest);
    } else {
      OneTransfer(rest, i - 1);
    }
  }

  lemma {:induction false} TransferFound(candidates: seq<SyncRun>) returns (i: nat)
    requires |Transfers(candidates)| == 1
    ensures i < |candidates| && candidates[i].sourceFamilies == [TRANSFERS] && Transfers(candidates) == [candidates[i]]
    ensures forall j :: 0 <= j < |candidates| && j != i ==> candidates[j].sourceFamilies != [TRANSFERS]
  {
    var rest := candidates[1..];
    assert forall j :: 1 <= j < |candidates| ==> candidates[j] == rest[j - 1];
    if TransfersOnly(candidates[0].sourceFamilies) {
      NoTransfers(rest);
      i := 0;
    } else {
      var k := TransferFound(rest);
      i := k + 1;
    }
  }

  /** The persisted evidence is accepted exactly if, wherever it stands among the runs of
      other families, there is one run of transfers alone, no second one, and it ended well. */
  lemma PriorOperationIffOneClean(candidates: seq<SyncRun>)
    ensures PriorOperationClean(candidates) <==> OneCleanTransfersRun(candidates)
  {
    if PriorOperationClean(candidates) {
      var i := TransferFound(candidates);
      assert candidates[i].sourceFamilies == [TRANSFERS] && EndedWell(candidates[i]);
    }
    if OneCleanTransfersRun(candidates) {
      var i: nat :| && i < |candidates| && candidates[i].sourceFamilies == [TRANSFERS] && EndedWell(candidates[i])
        && forall j :: 0 <= j < |candidates| && j != i ==> candidates[j].sourceFamilies != [TRANSFERS];
      OneTransfer(candidates, i);
    }
  }
}
