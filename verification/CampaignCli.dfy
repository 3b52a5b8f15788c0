/** The command line of the forward campaign runner. */
module CampaignCli {
  import opened Base
  import opened SyncPrimitives
  import opened CampaignPlan
  import opened CommandLine

  datatype Flag =
    | Execute | RecoveryMode | RecoveryOfRunId | WalletAddress | ChainId | ExpectedCursorFrom | ExpectedCursorTo
    | FirstWindowStart | WindowSize | MaxWindows | AuthorizedFinalBlock | CampaignId | PolicyLabelPrefix
    | CheckpointInterval | BaseUrl | EvidenceFile | PollIntervalMs | PollTimeoutMs

  function FlagText(flag: Flag): string {
    match flag
    case Execute => "--execute"
    case RecoveryMode => "--recovery-mode"
    case RecoveryOfRunId => "--recovery-of-run-id"
    case WalletAddress => "--wallet-address"
    case ChainId => "--chain-id"
    case ExpectedCursorFrom => "--expected-cursor-from"
    case ExpectedCursorTo => "--expected-cursor-to"
    case FirstWindowStart => "--first-window-start"
    case WindowSize => "--window-size"
    case MaxWindows => "--max-windows"
    case AuthorizedFinalBlock => "--authorized-final-block"
    case CampaignId => "--campaign-id"
    case PolicyLabelPrefix => "--policy-label-prefix"
    case CheckpointInterval => "--checkpoint-interval"
    case BaseUrl => "--base-url"
    case EvidenceFile => "--evidence-file"
    case PollIntervalMs => "--poll-interval-ms"
    case PollTimeoutMs => "--poll-timeout-ms"
  }

  function FlagOf(text: string): Option<Flag> {
    if text == "--execute" then Some(Execute)
    else if text == "--recovery-mode" then Some(RecoveryMode)
    else if text == "--recovery-of-run-id" then Some(RecoveryOfRunId)
    else if text == "--wallet-address" then Some(WalletAddress)
    else if text == "--chain-id" then Some(ChainId)
    else if text == "--expected-cursor-from" then Some(ExpectedCursorFrom)
    else if text == "--expected-cursor-to" then Some(ExpectedCursorTo)
    else if text == "--first-window-start" then Some(FirstWindowStart)
    else if text == "--window-size" then Some(WindowSize)
    else if text == "--max-windows" then Some(MaxWindows)
    else if text == "--authorized-final-block" then Some(AuthorizedFinalBlock)
    else if text == "--campaign-id" then Some(CampaignId)
    else if text == "--policy-label-prefix" then Some(PolicyLabelPrefix)
    else if text == "--checkpoint-interval" then Some(CheckpointInterval)
    else if text == "--base-url" then Some(BaseUrl)
    else if text == "--evidence-file" then Some(EvidenceFile)
    else if text == "--poll-interval-ms" then Some(PollIntervalMs)
    else if text == "--poll-timeout-ms" then Some(PollTimeoutMs)
    else None
  }

  lemma FlagRoundTrip(flag: Flag)
    ensures FlagOf(FlagText(flag)) == Some(flag)
  {
  }

  datatype Gate =
    | SupportedChain | WindowSizeCap | ExactWindowSize | WindowLimit | CampaignIdShape | CheckpointSpacing
    | BoundaryAlignment | RecoveryFlags | LabelLength

  datatype ParseError = BadValue(flag: Flag) | UnknownArgument(text: string) | MissingFlag(flag: Flag)
    | GateFailed(gate: Gate)

  /** The variables of the argument loop. */
  datatype Draft = Draft(
    execute: bool,
    walletAddress: Option<string>,
    chainId: Option<int>,
    expectedCursorFrom: Option<int>,
    expectedCursorTo: Option<int>,
    firstWindowStart: Option<int>,
    windowSize: Option<int>,
    maxWindows: Option<int>,
    authorizedFinalBlock: Option<int>,
    campaignId: Option<string>,
    policyLabelPrefix: Option<string>,
    checkpointInterval: int,
    baseUrl: Option<string>,
    evidenceFile: string,
    pollIntervalMs: int,
    pollTimeoutMs: int,
    recoveryMode: bool,
    recoveryOfRunId: Option<string>)

  const DEFAULT_EVIDENCE_FILE: string := "operator-evidence/wallet-forward-campaign-runner/evidence.jsonl"
  const DEFAULT_CHECKPOINT_INTERVAL: int := 25
  const DEFAULT_POLL_INTERVAL_MS: int := 5_000
  const DEFAULT_POLL_TIMEOUT_MS: int := 1_200_000

  const EMPTY_DRAFT: Draft :=
    Draft(false, None, None, None, None, None, None, None, None, None, None, DEFAULT_CHECKPOINT_INTERVAL, None,
          DEFAULT_EVIDENCE_FILE, DEFAULT_POLL_INTERVAL_MS, DEFAULT_POLL_TIMEOUT_MS, false, None)

  predicate TakesValue(flag: Flag) {
    flag != Execute && flag != RecoveryMode
  }

  /** The draft after one flag and its value, or None if the value is refused. */
  function Assign(d: Draft, flag: Flag, value: string): Option<Draft>
    requires TakesValue(flag)
  {
    match flag
    case RecoveryOfRunId => if Blank(value) then None else Some(d.(recoveryOfRunId := Some(value)))
    case WalletAddress => if IsAddress(value) then Some(d.(walletAddress := Some(LowerCase(value)))) else None
    case ChainId => (match ReadNat(value) case None => None case Some(n) => Some(d.(chainId := Some(n))))
    case ExpectedCursorFrom =>
      (match ReadNat(value) case None => None case Some(n) => Some(d.(expectedCursorFrom := Some(n))))
    case ExpectedCursorTo =>
      (match ReadNat(value) case None => None case Some(n) => Some(d.(expectedCursorTo := Some(n))))
    case FirstWindowStart =>
      (match ReadNat(value) case None => None case Some(n) => Some(d.(firstWindowStart := Some(n))))
    case WindowSize =>
      if value == "0" then None
      else (match ReadNat(value) case None => None case Some(n) => Some(d.(windowSize := Some(n))))
    case MaxWindows => (match ReadInt(value) case None => None case Some(n) => Some(d.(maxWindows := Some(n))))
    case AuthorizedFinalBlock =>
      (match ReadNat(value) case None => None case Some(n) => Some(d.(authorizedFinalBlock := Some(n))))
    case CampaignId => Some(d.(campaignId := Some(value)))
    case PolicyLabelPrefix =>
      if value == "" || !Trimmed(value) then None else Some(d.(policyLabelPrefix := Some(value)))
    case CheckpointInterval =>
      (match ReadPositive(value) case None => None case Some(n) => Some(d.(checkpointInterval := n)))
    case BaseUrl => Some(d.(baseUrl := Some(value)))
    case EvidenceFile => Some(d.(evidenceFile := value))
    case PollIntervalMs => (match ReadPositive(value) case None => None case Some(n) => Some(d.(pollIntervalMs := n)))
    case PollTimeoutMs => (match ReadPositive(value) case None => None case Some(n) => Some(d.(pollTimeoutMs := n)))
  }

  /** The draft after all arguments; the first refused argument decides the error. */
  function ReadArguments(d: Draft, argv: seq<string>): Result<Draft, ParseError>
    decreases |argv|
  {
    if argv == [] then Ok(d)
    else
      match FlagOf(argv[0])
      case None => Err(UnknownArgument(argv[0]))
      case Some(Execute) => ReadArguments(d.(execute := true), argv[1..])
      case Some(RecoveryMode) => ReadArguments(d.(recoveryMode := true), argv[1..])
      case Some(flag) =>
        match ValueAfter(argv)
        case None => Err(BadValue(flag))
        case Some(value) =>
          match Assign(d, flag, value)
          case None => Err(BadValue(flag))
          case Some(d') => ReadArguments(d', argv[2..])
  }

  function FirstMissing(d: Draft): Option<Flag> {
    if d.walletAddress.None? then Some(WalletAddress)
    else if d.chainId.None? then Some(ChainId)
    else if d.expectedCursorFrom.None? then Some(ExpectedCursorFrom)
    else if d.expectedCursorTo.None? then Some(ExpectedCursorTo)
    else if d.firstWindowStart.None? then Some(FirstWindowStart)
    else if d.windowSize.None? then Some(WindowSize)
    else if d.maxWindows.None? then Some(MaxWindows)
    else if d.authorizedFinalBlock.None? then Some(AuthorizedFinalBlock)
    else if d.campaignId.None? then Some(CampaignId)
    else if d.policyLabelPrefix.None? then Some(PolicyLabelPrefix)
    else if d.baseUrl.None? then Some(BaseUrl)
    else None
  }

  function Assemble(d: Draft): Options
    requires FirstMissing(d).None?
  {
    Options(d.execute, d.walletAddress.value, d.chainId.value, d.expectedCursorFrom.value, d.expectedCursorTo.value,
      d.firstWindowStart.value, d.windowSize.value, d.maxWindows.value, d.authorizedFinalBlock.value,
      d.campaignId.value, d.policyLabelPrefix.value, d.checkpointInterval, d.baseUrl.value, d.evidenceFile,
      d.pollIntervalMs, d.pollTimeoutMs,
      if d.recoveryMode then d.recoveryOfRunId else None)
  }

  /** The first gate that refuses a complete draft. The boundary is aligned to the
      unshifted first window, even when a recovery window precedes the loop. */
  function FailingGate(d: Draft): Option<Gate>
    requires FirstMissing(d).None?
  {
    var o := Assemble(d);
    if o.chainId != SUPPORTED_CHAIN_ID then Some(SupportedChain)
    else if o.windowSize < 1 || o.windowSize > WINDOW_SIZE_HARD_CAP_BLOCKS then Some(WindowSizeCap)
    else if o.windowSize != REQUIRED_WINDOW_SIZE then Some(ExactWindowSize)
    else if o.maxWindows < 1 || o.maxWindows > MAX_WINDOWS_HARD_CAP then Some(WindowLimit)
    else if !ValidCampaignId(o.campaignId) then Some(CampaignIdShape)
    else if o.checkpointInterval < 1 || o.checkpointInterval > MAX_CHECKPOINT_INTERVAL then Some(CheckpointSpacing)
    else if !AlignFinalBlock(o.firstWindowStart, o.windowSize, o.authorizedFinalBlock).Aligned? then
      Some(BoundaryAlignment)
    else if d.recoveryMode != d.recoveryOfRunId.Some? then Some(RecoveryFlags)
    else if !LongestLabelFits(o.policyLabelPrefix, o.campaignId, FirstOrdinaryNumber(o), o.maxWindows) then
      Some(LabelLength)
    else None
  }

  function Finish(d: Draft): Result<Options, ParseError> {
    match FirstMissing(d)
    case Some(flag) => Err(MissingFlag(flag))
    case None =>
      match FailingGate(d)
      case Some(gate) => Err(GateFailed(gate))
      case None => Ok(Assemble(d))
  }

  function Parse(argv: seq<string>): Result<Options, ParseError> {
    match ReadArguments(EMPTY_DRAFT, argv)
    case Err(error) => Err(error)
    case Ok(d) => Finish(d)
  }

  // ----- the order of arguments

  /** Reading one flag with its value. */
  lemma Consume(d: Draft, argv: seq<string>, i: nat, flag: Flag, value: string)
    requires TakesValue(flag) && !Dashed(value) && i + 1 < |argv|
    requires argv[i] == FlagText(flag) && argv[i + 1] == value
    ensures ReadArguments(d, argv[i..])
         == match Assign(d, flag, value)
            case None => Err(BadValue(flag))
            case Some(d') => ReadArguments(d', argv[i + 2..])
  {
    hide Assign, FlagOf, FlagText;
    FlagRoundTrip(flag);
    assert argv[i..][2..] == argv[i + 2..];
  }

  /** Arguments after an accepted prefix are read into the draft that prefix yields. */
  lemma {:induction false} ReadAfter(d: Draft, argv: seq<string>, rest: seq<string>)
    requires ReadArguments(d, argv).Ok?
    ensures ReadArguments(d, argv + rest) == ReadArguments(ReadArguments(d, argv).value, rest)
    decreases |argv|
  {
    hide Assign, FlagOf;
    if argv == [] {
      assert argv + rest == rest;
    } else {
      assert (argv + rest)[0] == argv[0];
      assert (argv + rest)[1..] == argv[1..] + rest;
      match FlagOf(argv[0])
      case Some(Execute) => ReadAfter(d.(execute := true), argv[1..], rest);
      case Some(RecoveryMode) => ReadAfter(d.(recoveryMode := true), argv[1..], rest);
      case Some(flag) =>
        assert |argv| >= 2 && (argv + rest)[1] == argv[1] && (argv + rest)[2..] == argv[2..] + rest;
        ReadAfter(Assign(d, flag, argv[1]).value, argv[2..], rest);
    }
  }

  /** A flag with its value, as two arguments. */
  function Setting(flag: Flag, value: string): seq<string> {
    [FlagText(flag), value]
  }

  lemma ReadSetting(d: Draft, flag: Flag, value: string, rest: seq<string>)
    requires TakesValue(flag) && !Dashed(value) && Assign(d, flag, value).Some?
    ensures ReadArguments(d, Setting(flag, value) + rest) == ReadArguments(Assign(d, flag, value).value, rest)
  {
    hide Assign, ReadArguments, FlagText;
    var argv := Setting(flag, value) + rest;
    Consume(d, argv, 0, flag, value);
    assert argv[0..] == argv && argv[2..] == rest;
  }

  /** Whether a value is accepted does not depend on what was assigned before. */
  lemma AcceptanceIsLocal(d: Draft, e: Draft, flag: Flag, value: string)
    requires TakesValue(flag)
    ensures Assign(d, flag, value).Some? <==> Assign(e, flag, value).Some?
  {
    hide ReadNat, ReadInt, ReadPositive, IsAddress, Blank, Trimmed;
  }

  /** The flags whose value is kept as a text. */
  predicate Textual(flag: Flag) {
    || flag.RecoveryOfRunId? || flag.WalletAddress? || flag.CampaignId? || flag.PolicyLabelPrefix? || flag.BaseUrl?
    || flag.EvidenceFile?
  }

  lemma AssignCommutes(d: Draft, f: Flag, v: string, g: Flag, w: string)
    requires TakesValue(f) && TakesValue(g) && f != g && Assign(d, f, v).Some? && Assign(d, g, w).Some?
    ensures Assign(Assign(d, f, v).value, g, w) == Assign(Assign(d, g, w).value, f, v)
    ensures Assign(Assign(d, f, v).value, g, w).Some?
  {
    hide Assign;
    if Textual(f) {
      TextCommutes(d, f, v, g, w);
    } else if Textual(g) {
      TextCommutes(d, g, w, f, v);
    } else {
      NumbersCommute(d, f, v, g, w);
    }
  }

  lemma TextCommutes(d: Draft, f: Flag, v: string, g: Flag, w: string)
    requires TakesValue(f) && TakesValue(g) && f != g && Textual(f) && Assign(d, f, v).Some? && Assign(d, g, w).Some?
    ensures Assign(Assign(d, f, v).value, g, w) == Assign(Assign(d, g, w).value, f, v)
    ensures Assign(Assign(d, f, v).value, g, w).Some?
  {
    hide ReadNat, ReadInt, ReadPositive, IsAddress, Blank, Trimmed, LowerCase;
  }

  lemma NumbersCommute(d: Draft, f: Flag, v: string, g: Flag, w: string)
    requires TakesValue(f) && TakesValue(g) && f != g && !Textual(f) && !Textual(g)
    requires Assign(d, f, v).Some? && Assign(d, g, w).Some?
    ensures Assign(Assign(d, f, v).value, g, w) == Assign(Assign(d, g, w).value, f, v)
    ensures Assign(Assign(d, f, v).value, g, w).Some?
  {
    hide ReadNat, ReadInt, ReadPositive, IsAddress, Blank, Trimmed, LowerCase;
  }

  lemma AssignOverwrites(d: Draft, flag: Flag, v: string, w: string)
    requires TakesValue(flag) && Assign(d, flag, v).Some?
    ensures Assign(Assign(d, flag, v).value, flag, w) == Assign(d, flag, w)
  {
    hide ReadNat, ReadInt, ReadPositive, IsAddress, Blank, Trimmed, LowerCase;
  }

  /** Two neighbouring settings of different flags may be exchanged, wherever they stand:
      the result of the whole command line is the same. */
  lemma SettingsCommute(before: seq<string>, f: Flag, v: string, g: Flag, w: string, after: seq<string>)
    requires TakesValue(f) && TakesValue(g) && f != g && !Dashed(v) && !Dashed(w)
    requires ReadArguments(EMPTY_DRAFT, before).Ok?
    requires Assign(EMPTY_DRAFT, f, v).Some? && Assign(EMPTY_DRAFT, g, w).Some?
    ensures Parse(before + (Setting(f, v) + (Setting(g, w) + after)))
      == Parse(before + (Setting(g, w) + (Setting(f, v) + after)))
  {
    hide Assign, ReadArguments, Finish, Setting;
    var d := ReadArguments(EMPTY_DRAFT, before).value;
    ReadAfter(EMPTY_DRAFT, before, Setting(f, v) + (Setting(g, w) + after));
    ReadAfter(EMPTY_DRAFT, before, Setting(g, w) + (Setting(f, v) + after));
    AcceptanceIsLocal(EMPTY_DRAFT, d, f, v);
    AcceptanceIsLocal(EMPTY_DRAFT, d, g, w);
    AssignCommutes(d, f, v, g, w);
    ReadSetting(d, f, v, Setting(g, w) + after);
    ReadSetting(Assign(d, f, v).value, g, w, after);
    ReadSetting(d, g, w, Setting(f, v) + after);
    ReadSetting(Assign(d, g, w).value, f, v, after);
  }

  /** Of two neighbouring settings of one flag the later one alone counts. */
  lemma LaterSettingWins(before: seq<string>, flag: Flag, v: string, w: string, after: seq<string>)
    requires TakesValue(flag) && !Dashed(v) && !Dashed(w)
    requires ReadArguments(EMPTY_DRAFT, before).Ok?
    requires Assign(EMPTY_DRAFT, flag, v).Some? && Assign(EMPTY_DRAFT, flag, w).Some?
    ensures Parse(before + (Setting(flag, v) + (Setting(flag, w) + after)))
      == Parse(before + (Setting(flag, w) + after))
  {
    hide Assign, ReadArguments, Finish, Setting;
    var d := ReadArguments(EMPTY_DRAFT, before).value;
    ReadAfter(EMPTY_DRAFT, before, Setting(flag, v) + (Setting(flag, w) + after));
    ReadAfter(EMPTY_DRAFT, before, Setting(flag, w) + after);
    AcceptanceIsLocal(EMPTY_DRAFT, d, flag, v);
    AcceptanceIsLocal(EMPTY_DRAFT, d, flag, w);
    AssignOverwrites(d, flag, v, w);
    ReadSetting(d, flag, v, Setting(flag, w) + after);
    ReadSetting(d, flag, w, after);
    ReadSetting(Assign(d, flag, v).value, flag, w, after);
  }

  // ----- parsed options at run time

  /** Options the parser accepts pass the run-time re-validation, except that a recovery
      needs at least one ordinary window after the recovery window. */
  lemma ParsedOptionsAreUsable(argv: seq<string>, o: Options)
    requires Parse(argv) == Ok(o)
    ensures CheckOptions(o).Accepted?
      <==> (o.recovery.Some? ==> o.authorizedFinalBlock > o.firstWindowStart + o.windowSize - 1)
    ensures LongestLabelFits(o.policyLabelPrefix, o.campaignId, FirstOrdinaryNumber(o), o.maxWindows)
  {
    hide ReadArguments, LongestLabelFits, ValidCampaignId;
    var shifted := EffectiveFirstWindowStart(o);
    var n := AlignFinalBlock(o.firstWindowStart, o.windowSize, o.authorizedFinalBlock).windowCount;
    if o.recovery.Some? && n > 1 {
      assert o.authorizedFinalBlock == WindowEdge(shifted, o.windowSize, n - 1) - 1;
    }
  }

  /** Asking to recover the only window of an accepted command line gives a command line
      that is accepted again and yet refused at run time. */
  lemma RecoveringTheOnlyWindow(argv: seq<string>, o: Options, runId: string)
    requires Parse(argv) == Ok(o) && o.recovery.None? && o.authorizedFinalBlock == o.firstWindowStart + o.windowSize - 1
    requires !Dashed(runId) && !Blank(runId)
    requires o.maxWindows > 0 && LongestLabelFits(o.policyLabelPrefix, o.campaignId, 2, o.maxWindows)
    ensures Parse(argv + ["--recovery-mode", "--recovery-of-run-id", runId]) == Ok(o.(recovery := Some(runId)))
    ensures CheckOptions(o.(recovery := Some(runId))) == Refused(AuthorizedFinalBlockMisaligned)
  {
    hide ReadArguments, Finish, CheckOptions, LongestLabelFits, Blank;
    var d := ReadArguments(EMPTY_DRAFT, argv).value;
    ReadAfter(EMPTY_DRAFT, argv, ["--recovery-mode", "--recovery-of-run-id", runId]);
    RecoveryFlagsAreRead(d, runId);
    FinishWithRecovery(d, o, runId);
    NoWindowIsLeft(d, o, runId);
  }

  lemma FinishWithRecovery(d: Draft, o: Options, runId: string)
    requires Finish(d) == Ok(o) && o.recovery.None?
    requires o.maxWindows > 0 && LongestLabelFits(o.policyLabelPrefix, o.campaignId, 2, o.maxWindows)
    ensures Finish(d.(recoveryMode := true, recoveryOfRunId := Some(runId))) == Ok(o.(recovery := Some(runId)))
  {
    hide LongestLabelFits, ValidCampaignId, AlignFinalBlock;
  }

  lemma NoWindowIsLeft(d: Draft, o: Options, runId: string)
    requires Finish(d) == Ok(o) && o.authorizedFinalBlock == o.firstWindowStart + o.windowSize - 1
    ensures CheckOptions(o.(recovery := Some(runId))) == Refused(AuthorizedFinalBlockMisaligned)
  {
    hide LongestLabelFits, ValidCampaignId;
  }

  lemma RecoveryFlagsAreRead(d: Draft, runId: string)
    requires !Dashed(runId) && !Blank(runId)
    ensures ReadArguments(d, ["--recovery-mode", "--recovery-of-run-id", runId])
         == Ok(d.(recoveryMode := true, recoveryOfRunId := Some(runId)))
  {
    hide FlagOf, Blank, ReadArguments;
    var argv, d1 := ["--recovery-mode", "--recovery-of-run-id", runId], d.(recoveryMode := true);
    assert argv[1..] == Setting(RecoveryOfRunId, runId) + [];
    ReadRecoveryMode(d, argv);
    ReadSetting(d1, RecoveryOfRunId, runId, []);
    ReadNothing(d1.(recoveryOfRunId := Some(runId)));
  }

  lemma ReadRecoveryMode(d: Draft, argv: seq<string>)
    requires argv != [] && argv[0] == "--recovery-mode"
    ensures ReadArguments(d, argv) == ReadArguments(d.(recoveryMode := true), argv[1..])
  {
    hide FlagOf, Assign;
    FlagRoundTrip(RecoveryMode);
  }

  lemma ReadNothing(d: Draft)
    ensures ReadArguments(d, []) == Ok(d)
  {
  }
}
