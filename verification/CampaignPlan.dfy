/** Window planning, labels and option validation of the forward campaign runner. */
module CampaignPlan {
  import opened Base
  import opened SyncPrimitives
  import Arithmetic
  import Decimal

  const MAX_WINDOWS_HARD_CAP: int := 1000
  const MAX_CHECKPOINT_INTERVAL: int := 25
  const REQUIRED_WINDOW_SIZE: int := 1000
  const CAMPAIGN_ID_MAX_LENGTH: nat := 64

  datatype Options = Options(
    execute: bool,
    walletAddress: string,
    chainId: int,
    expectedCursorFrom: int,
    expectedCursorTo: int,
    firstWindowStart: int,
    windowSize: int,
    maxWindows: int,
    authorizedFinalBlock: int,
    campaignId: string,
    policyLabelPrefix: string,
    checkpointInterval: int,
    baseUrl: string,
    evidenceFile: string,
    pollIntervalMs: int,
    pollTimeoutMs: int,
    recovery: Option<string>)

  datatype WindowPlan = WindowPlan(windowNumber: nat, request: Request)

  datatype StopReason =
    | AuthorizedFinalBlockMisaligned | InvalidMaxWindows | InvalidCampaignId | InvalidWindowSize
    | InvalidCheckpointInterval | GitHeadUnavailable | WorkingTreeDirty | InitialHealthBaselineFailed
    | WalletNotFound | EvidenceAppendFailed | RecoveryWindowNotAtCursorFrontier
    | RecoverySourceRunIneligible | RecoveryAmbiguousSubmissionUnrecoverable
    | RecoveryManualSyncSubmitFailed | RecoveryPollTimeout | RecoveryInvariantFailedAfterRun
    | CursorExpectationMismatch | FirstWindowStartMismatch | AdjacencyViolation
    | AuthorizedFinalBlockExceeded | PolicyLabelOverlong | ActiveOperationConflict
    | PolicyLabelCollision | ServerUnhealthy | FabricatedContaminationPreGate
    | AmbiguousSubmissionUnrecoverable | ManualSyncSubmitFailed | PollTimeout
    | InvariantFailedAfterRun | CheckpointFailed | UnexpectedError
    | MaxWindowsReached | AuthorizedFinalBlockReached
  {
    /** The allowlist of genuine, non-error completions. */
    predicate Clean() {
      MaxWindowsReached? || AuthorizedFinalBlockReached?
    }
  }

  // ----- labels

  predicate IsAlphanumeric(c: char) {
    'a' <= c <= 'z' || 'A' <= c <= 'Z' || '0' <= c <= '9'
  }

  /** The language of `^[a-zA-Z0-9][a-zA-Z0-9_-]{0,63}$`. */
  predicate ValidCampaignId(id: string) {
    && 1 <= |id| <= CAMPAIGN_ID_MAX_LENGTH
    && IsAlphanumeric(id[0])
    && forall i :: 0 <= i < |id| ==> IsAlphanumeric(id[i]) || id[i] == '_' || id[i] == '-'
  }

  function WindowLabel(prefix: string, campaignId: string, number: nat): string {
    prefix + "-" + campaignId + "-w" + Decimal.Print(number)
  }

  function RecoveryLabel(prefix: string, sourceRunId: string): string {
    prefix + "-recovery-of-" + sourceRunId
  }

  lemma WindowLabelInjective(prefix: string, campaignId: string, m: nat, n: nat)
    requires WindowLabel(prefix, campaignId, m) == WindowLabel(prefix, campaignId, n)
    ensures m == n
  {
    var stem := prefix + "-" + campaignId + "-w";
    assert WindowLabel(prefix, campaignId, m)[|stem|..] == Decimal.Print(m);
    assert WindowLabel(prefix, campaignId, n)[|stem|..] == Decimal.Print(n);
    Decimal.PrintInjective(m, n);
  }

  /** The two ways in which the ids of a campaign and of a source run can spell the
      ordinary label of window n in the place of the recovery label. */
  predicate IdsClash(campaignId: string, sourceRunId: string, n: nat) {
    || ("recovery-of-" <= campaignId && sourceRunId == campaignId[12..] + "-w" + Decimal.Print(n))
    || (campaignId == "recovery-of" && sourceRunId == "w" + Decimal.Print(n))
  }

  /** The recovery label lies outside the ordinary label scheme except when the campaign
      id starts with "recovery-of-" and the source run id is the rest of it with the
      window's suffix, or the campaign id is "recovery-of" and the source run id is that
      suffix without its hyphen. */
  lemma RecoveryLabelClash(prefix: string, campaignId: string, sourceRunId: string, n: nat)
    ensures RecoveryLabel(prefix, sourceRunId) == WindowLabel(prefix, campaignId, n)
      <==> IdsClash(campaignId, sourceRunId, n)
  {
    var stem := prefix + "-";
    var left, right := "recovery-of-" + sourceRunId, campaignId + "-w" + Decimal.Print(n);
    assert RecoveryLabel(prefix, sourceRunId) == stem + left;
    assert WindowLabel(prefix, campaignId, n) == stem + right;
    assert (stem + left)[|stem|..] == left && (stem + right)[|stem|..] == right;
    IdsSpellTheSame(campaignId, sourceRunId, Decimal.Print(n), n);
  }

  lemma IdsSpellTheSame(campaignId: string, sourceRunId: string, numeral: string, n: nat)
    requires numeral == Decimal.Print(n)
    ensures "recovery-of-" + sourceRunId == campaignId + "-w" + numeral <==> IdsClash(campaignId, sourceRunId, n)
  {
    hide Decimal.Print;
    var left, right := "recovery-of-" + sourceRunId, campaignId + "-w" + numeral;
    if left == right {
      if |campaignId| >= 12 {
        assert campaignId == right[..|campaignId|] == left[..|campaignId|];
        assert right[12..] == campaignId[12..] + "-w" + numeral;
        assert left[12..] == sourceRunId;
      } else if |campaignId| == 11 {
        assert campaignId == right[..11] == left[..11] == "recovery-of";
        assert right[12..] == "w" + numeral && left[12..] == sourceRunId;
      } else {
        ShortIdsDiffer(campaignId, sourceRunId, numeral);
      }
    }
    if "recovery-of-" <= campaignId && sourceRunId == campaignId[12..] + "-w" + numeral {
      assert campaignId == "recovery-of-" + campaignId[12..];
    }
    if campaignId == "recovery-of" && sourceRunId == "w" + numeral {
      assert left == "recovery-of" + "-w" + numeral;
    }
  }

  /** No shorter campaign id can be continued by a hyphen and a "w". */
  lemma ShortIdsDiffer(campaignId: string, sourceRunId: string, numeral: string)
    requires |campaignId| < 11
    ensures "recovery-of-" + sourceRunId != campaignId + "-w" + numeral
  {
    var left, right, stem := "recovery-of-" + sourceRunId, campaignId + "-w" + numeral, "recovery-of-";
    var k := |campaignId|;
    assert right[k] == '-' && right[k + 1] == 'w';
    assert left[k] == stem[k] && left[k + 1] == stem[k + 1];
    assert stem[k] == '-' ==> stem[k + 1] != 'w';
  }

  /** Such a clash exists among well-formed inputs. */
  lemma RecoveryLabelClashWitness()
    ensures ValidCampaignId("recovery-of-a")
    ensures RecoveryLabel("p", "a-w2") == WindowLabel("p", "recovery-of-a", 2)
  {
    assert Decimal.Print(2) == "2";
  }

  predicate LongestLabelFits(prefix: string, campaignId: string, startingNumber: nat, maxWindows: nat)
    requires maxWindows > 0
  {
    LabelFits(WindowLabel(prefix, campaignId, startingNumber + maxWindows - 1))
  }

  /** One label-length check before the campaign covers every label inside it. */
  lemma LongestLabelBoundsAll(prefix: string, campaignId: string, startingNumber: nat, maxWindows: nat, number: nat)
    requires maxWindows > 0 && LongestLabelFits(prefix, campaignId, startingNumber, maxWindows)
    requires number < startingNumber + maxWindows
    ensures LabelFits(WindowLabel(prefix, campaignId, number))
  {
    Decimal.PrintLengthMonotone(number, startingNumber + maxWindows - 1);
  }

  // ----- alignment of the authorised final block

  datatype Alignment = Misaligned | Aligned(windowCount: nat) | DividesByZero

  /** Blocks and window sizes are unbounded integers; a zero window size makes the
      remainder throw, and a negative one always leaves fewer than one window. */
  function AlignFinalBlock(firstWindowStart: int, windowSize: int, authorizedFinalBlock: int): (r: Alignment)
    ensures windowSize > 0 ==>
      (r.Aligned? <==>
         exists n :: 1 <= n <= MAX_WINDOWS_HARD_CAP
           && authorizedFinalBlock == WindowEdge(firstWindowStart, windowSize, n) - 1)
    ensures r.Aligned? ==> windowSize > 0 && 1 <= r.windowCount <= MAX_WINDOWS_HARD_CAP
    ensures r.Aligned? ==> authorizedFinalBlock == WindowEdge(firstWindowStart, windowSize, r.windowCount) - 1
  {
    if authorizedFinalBlock < firstWindowStart then
      assert forall n :: windowSize > 0 && 1 <= n ==>
        WindowEdge(firstWindowStart, windowSize, n) > firstWindowStart by {
        forall n | windowSize > 0 && 1 <= n ensures WindowEdge(firstWindowStart, windowSize, n) > firstWindowStart {
          ProductPositive(windowSize, n);
        }
      }
      Misaligned
    else if windowSize == 0 then DividesByZero
    else
      var span := authorizedFinalBlock - firstWindowStart + 1;
      if windowSize > 0 then
        assert forall n :: WindowEdge(firstWindowStart, windowSize, n) == firstWindowStart + span ==>
            span % windowSize == 0 && n == span / windowSize by {
          forall n | WindowEdge(firstWindowStart, windowSize, n) == firstWindowStart + span
            ensures span % windowSize == 0 && n == span / windowSize
          {
            ExactQuotient(span, windowSize, n);
          }
        }
        if span % windowSize != 0 then Misaligned
        else
          var count := span / windowSize;
          assert windowSize * count == span;
          if count < 1 || count > MAX_WINDOWS_HARD_CAP then Misaligned
          else
            assert WindowEdge(firstWindowStart, windowSize, count) == firstWindowStart + span;
            Aligned(count)
      else Misaligned
  }

  /** The first block after n whole windows. */
  function WindowEdge(firstWindowStart: int, windowSize: int, n: int): int {
    firstWindowStart + windowSize * n
  }

  lemma ProductPositive(a: int, b: int)
    requires a > 0 && b > 0
    ensures a * b > 0
  {
  }

  lemma ExactQuotient(span: int, size: int, n: int)
    requires size > 0 && size * n == span
    ensures span % size == 0 && span / size == n
  {
    Arithmetic.DivModUnique(span, size, n, 0);
  }

  // ----- options accepted at run time

  datatype OptionCheck = Accepted(windowCount: nat) | Refused(reason: StopReason) | CrashesEarly

  function EffectiveFirstWindowStart(o: Options): int {
    if o.recovery.Some? then o.firstWindowStart + o.windowSize else o.firstWindowStart
  }

  /** The run-time re-validation of options, in the order it is performed. */
  function CheckOptions(o: Options): (r: OptionCheck)
    ensures r.Accepted? ==>
      && o.windowSize == REQUIRED_WINDOW_SIZE
      && 1 <= o.maxWindows <= MAX_WINDOWS_HARD_CAP
      && 1 <= o.checkpointInterval <= MAX_CHECKPOINT_INTERVAL
      && ValidCampaignId(o.campaignId)
      && 1 <= r.windowCount <= MAX_WINDOWS_HARD_CAP
      && o.authorizedFinalBlock == EffectiveFirstWindowStart(o) + REQUIRED_WINDOW_SIZE * r.windowCount - 1
    ensures r.Refused? ==> !r.reason.Clean()
  {
    match AlignFinalBlock(EffectiveFirstWindowStart(o), o.windowSize, o.authorizedFinalBlock)
    case DividesByZero => CrashesEarly
    case Misaligned => Refused(AuthorizedFinalBlockMisaligned)
    case Aligned(windowCount) =>
      if o.maxWindows < 1 || o.maxWindows > MAX_WINDOWS_HARD_CAP then Refused(InvalidMaxWindows)
      else if !ValidCampaignId(o.campaignId) then Refused(InvalidCampaignId)
      else if o.windowSize != REQUIRED_WINDOW_SIZE then Refused(InvalidWindowSize)
      else if o.checkpointInterval < 1 || o.checkpointInterval > MAX_CHECKPOINT_INTERVAL then
        Refused(InvalidCheckpointInterval)
      else Accepted(windowCount)
  }

  /** What is wrong with options, gate by gate and independently of the others. */
  ghost predicate Faulty(o: Options, reason: StopReason) {
    match reason
    case AuthorizedFinalBlockMisaligned =>
      || o.windowSize <= 0
      || forall n :: 1 <= n <= MAX_WINDOWS_HARD_CAP ==>
           o.authorizedFinalBlock != WindowEdge(EffectiveFirstWindowStart(o), o.windowSize, n) - 1
    case InvalidMaxWindows => !(1 <= o.maxWindows <= MAX_WINDOWS_HARD_CAP)
    case InvalidCampaignId => !ValidCampaignId(o.campaignId)
    case InvalidWindowSize => o.windowSize != REQUIRED_WINDOW_SIZE
    case InvalidCheckpointInterval => !(1 <= o.checkpointInterval <= MAX_CHECKPOINT_INTERVAL)
    case _ => false
  }

  const GATES: seq<StopReason> :=
    [AuthorizedFinalBlockMisaligned, InvalidMaxWindows, InvalidCampaignId, InvalidWindowSize, InvalidCheckpointInterval]

  /** The i-th gate is passed by. */
  ghost predicate Passed(o: Options, i: nat)
    requires i < |GATES|
  {
    !Faulty(o, GATES[i])
  }

  /** Dividing by a zero window size throws; otherwise options are refused with the first
      of the gates at fault, and accepted exactly if none is. */
  lemma RefusalNamesFirstFault(o: Options, i: nat)
    requires i < |GATES|
    ensures CheckOptions(o).CrashesEarly?
      <==> o.windowSize == 0 && o.authorizedFinalBlock >= EffectiveFirstWindowStart(o)
    ensures !CheckOptions(o).CrashesEarly? ==>
      (CheckOptions(o) == Refused(GATES[i]) <==> Faulty(o, GATES[i]) && forall j :: 0 <= j < i ==> Passed(o, j))
    ensures CheckOptions(o).Accepted? <==> forall j :: 0 <= j < |GATES| ==> Passed(o, j)
  {
    hide ValidCampaignId;
    var r := AlignFinalBlock(EffectiveFirstWindowStart(o), o.windowSize, o.authorizedFinalBlock);
    assert !r.DividesByZero? ==> (r.Misaligned? <==> Faulty(o, AuthorizedFinalBlockMisaligned));
    assert Passed(o, 0) <==> !Faulty(o, AuthorizedFinalBlockMisaligned);
    assert Passed(o, 1) <==> !Faulty(o, InvalidMaxWindows);
    assert Passed(o, 2) <==> !Faulty(o, InvalidCampaignId);
    assert Passed(o, 3) <==> !Faulty(o, InvalidWindowSize);
    assert Passed(o, 4) <==> !Faulty(o, InvalidCheckpointInterval);
  }

  function Min(a: int, b: int): int {
    if a <= b then a else b
  }

  function EffectiveMaxWindows(o: Options): (n: nat)
    requires CheckOptions(o).Accepted?
    ensures 1 <= n <= o.maxWindows && n <= CheckOptions(o).windowCount
  {
    Min(o.maxWindows, CheckOptions(o).windowCount)
  }

  function CompletionReason(o: Options): (r: StopReason)
    requires CheckOptions(o).Accepted?
    ensures r.Clean()
  {
    if o.maxWindows <= CheckOptions(o).windowCount then MaxWindowsReached else AuthorizedFinalBlockReached
  }

  // ----- window plans

  /** The logical number of the window starting at a block; None where the source throws. */
  function LogicalWindowNumber(start: int, firstWindowStart: int, windowSize: int): Option<nat>
    requires windowSize > 0
  {
    var offset := start - firstWindowStart;
    if offset < 0 || offset % windowSize != 0 then None
    else Some(offset / windowSize + 1)
  }

  function PlanWindow(o: Options, cursorTo: int): Option<WindowPlan>
    requires o.windowSize > 0
  {
    var start := NextWindowStart(cursorTo);
    match LogicalWindowNumber(start, o.firstWindowStart, o.windowSize)
    case None => None
    case Some(number) =>
      Some(WindowPlan(number,
        Request(start, NextWindowEnd(cursorTo, o.windowSize), WindowLabel(o.policyLabelPrefix, o.campaignId, number))))
  }

  // ----- the intended sequence of windows, independently of any run

  function FirstOrdinaryNumber(o: Options): nat {
    if o.recovery.Some? then 2 else 1
  }

  /** The k-th ordinary window of a campaign, counting from zero. */
  function IntendedWindow(o: Options, k: nat): WindowPlan {
    var start := EffectiveFirstWindowStart(o) + REQUIRED_WINDOW_SIZE * k;
    var number := FirstOrdinaryNumber(o) + k;
    WindowPlan(number,
      Request(start, start + REQUIRED_WINDOW_SIZE - 1, WindowLabel(o.policyLabelPrefix, o.campaignId, number)))
  }

  function IntendedWindows(o: Options, n: nat): (ws: seq<WindowPlan>)
    ensures |ws| == n
    ensures forall k :: 0 <= k < n ==> ws[k] == IntendedWindow(o, k)
  {
    seq(n, k requires 0 <= k => IntendedWindow(o, k))
  }

  function IntendedRecovery(o: Options): Request
    requires o.recovery.Some?
  {
    Request(o.firstWindowStart, o.firstWindowStart + o.windowSize - 1,
      RecoveryLabel(o.policyLabelPrefix, o.recovery.value))
  }

  /** The planner, run from the upper edge of the previous window, meets the intent. */
  lemma PlannerMeetsIntent(o: Options, k: nat)
    requires o.windowSize == REQUIRED_WINDOW_SIZE
    ensures PlanWindow(o, EffectiveFirstWindowStart(o) + REQUIRED_WINDOW_SIZE * k - 1) == Some(IntendedWindow(o, k))
  {
    var start := EffectiveFirstWindowStart(o) + REQUIRED_WINDOW_SIZE * k;
    var skipped := FirstOrdinaryNumber(o) - 1;
    assert start - o.firstWindowStart == REQUIRED_WINDOW_SIZE * (k + skipped);
    assert (REQUIRED_WINDOW_SIZE * (k + skipped)) % REQUIRED_WINDOW_SIZE == 0;
  }

  /** No window of an accepted campaign reaches past the authorised final block. */
  lemma IntentStaysAuthorised(o: Options, k: nat)
    requires CheckOptions(o).Accepted? && k < CheckOptions(o).windowCount
    ensures IntendedWindow(o, k).request.endBlock <= o.authorizedFinalBlock
    ensures IntendedWindow(o, k).request.endBlock == o.authorizedFinalBlock <==> k + 1 == CheckOptions(o).windowCount
  {
  }
}
