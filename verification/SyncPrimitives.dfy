/** The gates and verifiers shared by the wallet-forward runners. */
module SyncPrimitives {
  import opened Base
  import opened Json

  const SUPPORTED_CHAIN_ID: int := 369
  const TRANSFERS: string := "TRANSFERS"
  const POLICY_LABEL_MAX_LENGTH: nat := 128
  const WINDOW_SIZE_HARD_CAP_BLOCKS: int := 1001
  const RECOVERY_ELIGIBLE_WARNING_CODE: string := "RAW_BLOCKS_ALREADY_PERSISTED"

  datatype Cursor = Cursor(fromBlock: int, toBlock: int)

  /** The block range and label carried by a manual sync request. */
  datatype Request = Request(startBlock: int, endBlock: int, policyLabel: string)

  /** A persisted synchronisation run, as the runners read it back. */
  datatype SyncRun = SyncRun(
    id: string,
    trigger: string,
    status: string,
    chainId: int,
    walletId: Option<string>,
    policyLabel: string,
    sourceFamilies: seq<string>,
    startBlock: Option<int>,
    endBlock: Option<int>,
    latestSafeBlock: Option<int>,
    warningCount: int,
    warningDetails: Json,
    structuredWarnings: Option<Json>,
    errorMessage: Option<string>,
    failedSourceFamily: Option<string>,
    failedFromBlock: Option<int>,
    failedToBlock: Option<int>)

  /** What a run must match to be the run of one request. */
  datatype Expectation = Expectation(walletId: string, chainId: int, request: Request)

  /** An HTTP answer; the empty run id stands for every absent or falsy id. */
  datatype Response = Response(status: int, runId: string)

  datatype RowCheck = FabricatedTransfers | DuplicateTransactions | DuplicateTransfers | DuplicateLedgerEntries

  // ----- window planning and pre-submit gates

  function NextWindowStart(cursorTo: int): int {
    cursorTo + 1
  }

  function NextWindowEnd(cursorTo: int, windowSize: int): int {
    NextWindowStart(cursorTo) + windowSize - 1
  }

  predicate ForwardAdjacent(cursorTo: int, start: int) {
    start == cursorTo + 1
  }

  predicate CursorMatches(cursor: Option<Cursor>, expected: Cursor) {
    cursor == Some(expected)
  }

  predicate LabelFits(policyLabel: string) {
    |policyLabel| <= POLICY_LABEL_MAX_LENGTH
  }

  // ----- terminal verification

  predicate TransfersOnly(families: seq<string>) {
    families == [TRANSFERS]
  }

  predicate EmptyList(details: Json) {
    details.Array? && details.items == []
  }

  predicate NoFailure(run: SyncRun) {
    && run.errorMessage.None?
    && run.failedSourceFamily.None?
    && run.failedFromBlock.None?
    && run.failedToBlock.None?
  }

  predicate Identifies(run: SyncRun, want: Expectation) {
    && run.policyLabel == want.request.policyLabel
    && run.walletId == Some(want.walletId)
    && run.chainId == want.chainId
    && TransfersOnly(run.sourceFamilies)
    && run.startBlock == Some(want.request.startBlock)
    && run.endBlock == Some(want.request.endBlock)
  }

  predicate TerminalFields(run: SyncRun, want: Expectation) {
    && run.trigger == "MANUAL"
    && run.status == "COMPLETED"
    && NoFailure(run)
    && Identifies(run, want)
    && run.latestSafeBlock == Some(want.request.endBlock)
  }

  /** The strict verifier's acceptance set. */
  predicate StrictlyClean(run: SyncRun, want: Expectation) {
    TerminalFields(run, want) && run.warningCount == 0 && EmptyList(run.warningDetails)
  }

  datatype TerminalReason =
    | WrongTrigger | WrongStatus | NonZeroWarningCount | NonEmptyWarningDetails
    | UnexpectedErrorMessage | UnexpectedFailedFamily | UnexpectedFailedRange | WrongFamilies
    | WrongWallet | WrongChain | WrongLabel | WrongStart | WrongEnd | WrongSafeBlock
    | WarningsNotEligible | StructuredNotKnownEmpty

  function Fail(failed: bool, reason: TerminalReason): (r: seq<TerminalReason>)
    ensures r == [] <==> !failed
    ensures forall other :: other in r <==> failed && other == reason
  {
    if failed then [reason] else []
  }

  function FailureReasons(run: SyncRun): (reasons: seq<TerminalReason>)
    ensures reasons == [] <==> run.trigger == "MANUAL" && run.status == "COMPLETED" && NoFailure(run)
  {
    Fail(run.trigger != "MANUAL", WrongTrigger)
    + Fail(run.status != "COMPLETED", WrongStatus)
    + Fail(run.errorMessage.Some?, UnexpectedErrorMessage)
    + Fail(run.failedSourceFamily.Some?, UnexpectedFailedFamily)
    + Fail(run.failedFromBlock.Some? || run.failedToBlock.Some?, UnexpectedFailedRange)
  }

  function RequestReasons(run: SyncRun, want: Expectation): (reasons: seq<TerminalReason>)
    ensures reasons == [] <==> Identifies(run, want) && run.latestSafeBlock == Some(want.request.endBlock)
  {
    Fail(|run.sourceFamilies| != 1 || run.sourceFamilies[0] != TRANSFERS, WrongFamilies)
    + Fail(run.walletId != Some(want.walletId), WrongWallet)
    + Fail(run.chainId != want.chainId, WrongChain)
    + Fail(run.policyLabel != want.request.policyLabel, WrongLabel)
    + Fail(run.startBlock != Some(want.request.startBlock), WrongStart)
    + Fail(run.endBlock != Some(want.request.endBlock), WrongEnd)
    + Fail(run.latestSafeBlock != Some(want.request.endBlock), WrongSafeBlock)
  }

  function RunIdentityReasons(run: SyncRun, want: Expectation): (reasons: seq<TerminalReason>)
    ensures reasons == [] <==> TerminalFields(run, want)
  {
    FailureReasons(run) + RequestReasons(run, want)
  }

  /** What each failure of identity stands for, stated one by one. */
  predicate IdentityFault(run: SyncRun, want: Expectation, reason: TerminalReason) {
    match reason
    case WrongTrigger => run.trigger != "MANUAL"
    case WrongStatus => run.status != "COMPLETED"
    case UnexpectedErrorMessage => run.errorMessage.Some?
    case UnexpectedFailedFamily => run.failedSourceFamily.Some?
    case UnexpectedFailedRange => run.failedFromBlock.Some? || run.failedToBlock.Some?
    case WrongFamilies => run.sourceFamilies != [TRANSFERS]
    case WrongWallet => run.walletId != Some(want.walletId)
    case WrongChain => run.chainId != want.chainId
    case WrongLabel => run.policyLabel != want.request.policyLabel
    case WrongStart => run.startBlock != Some(want.request.startBlock)
    case WrongEnd => run.endBlock != Some(want.request.endBlock)
    case WrongSafeBlock => run.latestSafeBlock != Some(want.request.endBlock)
    case _ => false
  }

  lemma FailureReasonsExact(run: SyncRun, reason: TerminalReason)
    ensures reason in FailureReasons(run) <==>
      match reason
      case WrongTrigger => run.trigger != "MANUAL"
      case WrongStatus => run.status != "COMPLETED"
      case UnexpectedErrorMessage => run.errorMessage.Some?
      case UnexpectedFailedFamily => run.failedSourceFamily.Some?
      case UnexpectedFailedRange => run.failedFromBlock.Some? || run.failedToBlock.Some?
      case _ => false
  {
  }

  lemma RequestReasonsExact(run: SyncRun, want: Expectation, reason: TerminalReason)
    ensures reason in RequestReasons(run, want) <==>
      match reason
      case WrongFamilies => run.sourceFamilies != [TRANSFERS]
      case WrongWallet => run.walletId != Some(want.walletId)
      case WrongChain => run.chainId != want.chainId
      case WrongLabel => run.policyLabel != want.request.policyLabel
      case WrongStart => run.startBlock != Some(want.request.startBlock)
      case WrongEnd => run.endBlock != Some(want.request.endBlock)
      case WrongSafeBlock => run.latestSafeBlock != Some(want.request.endBlock)
      case _ => false
  {
  }

  /** The list names exactly the failures that a run has. */
  lemma IdentityReasonsExact(run: SyncRun, want: Expectation, reason: TerminalReason)
    ensures reason in RunIdentityReasons(run, want) <==> IdentityFault(run, want, reason)
  {
    hide FailureReasons, RequestReasons;
    FailureReasonsExact(run, reason);
    RequestReasonsExact(run, want, reason);
  }
}
