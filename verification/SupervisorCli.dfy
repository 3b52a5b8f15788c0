/** The command line of the supervisor, and the one it prints for a child campaign. */
module SupervisorCli {
  import opened Base
  import opened SyncPrimitives
  import opened CommandLine
  import opened SupervisorPlan
  import Campaign = CampaignPlan
  import Child = CampaignCli

  datatype Flag =
    | Execute | WalletAddress | ChainId | AuthorizedFinalBlock | CampaignMaxWindows | WindowSize | CampaignIdPrefix
    | PolicyLabelPrefix | CheckpointInterval | BaseUrl | EvidenceFile | ChildEvidenceFile | PollIntervalMs
    | PollTimeoutMs | RunnerScript

  function FlagOf(text: string): Option<Flag> {
    if text == "--execute" then Some(Execute)
    else if text == "--wallet-address" then Some(WalletAddress)
    else if text == "--chain-id" then Some(ChainId)
    else if text == "--authorized-final-block" then Some(AuthorizedFinalBlock)
    else if text == "--campaign-max-windows" then Some(CampaignMaxWindows)
    else if text == "--window-size" then Some(WindowSize)
    else if text == "--campaign-id-prefix" then Some(CampaignIdPrefix)
    else if text == "--policy-label-prefix" then Some(PolicyLabelPrefix)
    else if text == "--checkpoint-interval" then Some(CheckpointInterval)
    else if text == "--base-url" then Some(BaseUrl)
    else if text == "--evidence-file" then Some(EvidenceFile)
    else if text == "--child-evidence-file" then Some(ChildEvidenceFile)
    else if text == "--poll-interval-ms" then Some(PollIntervalMs)
    else if text == "--poll-timeout-ms" then Some(PollTimeoutMs)
    else if text == "--runner-script" then Some(RunnerScript)
    else None
  }

  datatype Gate = SupportedChain | WindowSizeCap | ExactWindowSize | WindowLimit | CampaignIdShape | CheckpointSpacing

  datatype ParseError = BadValue(flag: Flag) | UnknownArgument(text: string) | MissingFlag(flag: Flag)
    | GateFailed(gate: Gate)

  /** The variables of the argument loop. */
  datatype Draft = Draft(
    execute: bool,
    walletAddress: Option<string>,
    chainId: Option<int>,
    authorizedFinalBlock: Option<int>,
    campaignMaxWindows: Option<int>,
    windowSize: Option<int>,
    campaignIdPrefix: Option<string>,
    policyLabelPrefix: Option<string>,
    checkpointInterval: int,
    baseUrl: Option<string>,
    evidenceFile: string,
    childEvidenceFile: Option<string>,
    pollIntervalMs: int,
    pollTimeoutMs: int,
    runnerScriptPath: string)

  const EMPTY_DRAFT: Draft :=
    Draft(false, None, None, None, None, None, None, None, 25, None,
      "operator-evidence/" + "wallet-forward-supervisor/evidence.jsonl", None, 5_000, 1_200_000,
      "scripts/wallet-forward-campaign-runner.ts")

  function Assign(d: Draft, flag: Flag, value: string): Option<Draft>
    requires flag != Execute
  {
    match flag
    case WalletAddress => if IsAddress(value) then Some(d.(walletAddress := Some(LowerCase(value)))) else None
    case ChainId => (match ReadNat(value) case None => None case Some(n) => Some(d.(chainId := Some(n))))
    case AuthorizedFinalBlock =>
      (match ReadNat(value) case None => None case Some(n) => Some(d.(authorizedFinalBlock := Some(n))))
    case CampaignMaxWindows =>
      (match ReadInt(value) case None => None case Some(n) => Some(d.(campaignMaxWindows := Some(n))))
    case WindowSize =>
      if value == "0" then None
      else (match ReadNat(value) case None => None case Some(n) => Some(d.(windowSize := Some(n))))
    case CampaignIdPrefix => Some(d.(campaignIdPrefix := Some(value)))
    case PolicyLabelPrefix =>
      if value == "" || !Trimmed(value) then None else Some(d.(policyLabelPrefix := Some(value)))
    case CheckpointInterval =>
      (match ReadPositive(value) case None => None case Some(n) => Some(d.(checkpointInterval := n)))
    case BaseUrl => Some(d.(baseUrl := Some(value)))
    case EvidenceFile => Some(d.(evidenceFile := value))
    case ChildEvidenceFile => Some(d.(childEvidenceFile := Some(value)))
    case PollIntervalMs => (match ReadPositive(value) case None => None case Some(n) => Some(d.(pollIntervalMs := n)))
    case PollTimeoutMs => (match ReadPositive(value) case None => None case Some(n) => Some(d.(pollTimeoutMs := n)))
    case RunnerScript => if value == "" then None else Some(d.(runnerScriptPath := value))
  }

  function ReadArguments(d: Draft, argv: seq<string>): Result<Draft, ParseError>
    decreases |argv|
  {
    if argv == [] then Ok(d)
    else
      match FlagOf(argv[0])
      case None => Err(UnknownArgument(argv[0]))
      case Some(Execute) => ReadArguments(d.(execute := true), argv[1..])
      case Some(flag) =>
        match ValueAfter(argv)
        case None => Err(BadValue(flag))
        case Some(value) =>
          match Assign(d, flag, value)
          case None => Err(BadValue(flag))
          case Some(d') => ReadArguments(d', argv[2..])
  }

  function FirstMissing(d: Draft): Option<Flag> {
    if d.walletAddress.None? then Some(WalletAddress)
    else if d.chainId.None? then Some(ChainId)
    else if d.authorizedFinalBlock.None? then Some(AuthorizedFinalBlock)
    else if d.campaignMaxWindows.None? then Some(CampaignMaxWindows)
    else if d.windowSize.None? then Some(WindowSize)
    else if d.campaignIdPrefix.None? then Some(CampaignIdPrefix)
    else if d.policyLabelPrefix.None? then Some(PolicyLabelPrefix)
    else if d.baseUrl.None? then Some(BaseUrl)
    else None
  }

  function Assemble(d: Draft): SupervisorOptions
    requires FirstMissing(d).None?
  {
    SupervisorOptions(d.execute, d.walletAddress.value, d.chainId.value, d.authorizedFinalBlock.value,
      d.campaignMaxWindows.value, d.windowSize.value, d.campaignIdPrefix.value, d.policyLabelPrefix.value,
      d.checkpointInterval, d.baseUrl.value, d.evidenceFile, d.childEvidenceFile, d.pollIntervalMs, d.pollTimeoutMs,
      d.runnerScriptPath)
  }

  function FailingGate(so: SupervisorOptions): Option<Gate> {
    if so.chainId != SUPPORTED_CHAIN_ID then Some(SupportedChain)
    else if so.windowSize < 1 || so.windowSize > WINDOW_SIZE_HARD_CAP_BLOCKS then Some(WindowSizeCap)
    else if so.windowSize != Campaign.REQUIRED_WINDOW_SIZE then Some(ExactWindowSize)
    else if so.campaignMaxWindows < 1 || so.campaignMaxWindows > Campaign.MAX_WINDOWS_HARD_CAP then Some(WindowLimit)
    else if !Campaign.ValidCampaignId(so.campaignIdPrefix) then Some(CampaignIdShape)
    else if so.checkpointInterval < 1 || so.checkpointInterval > Campaign.MAX_CHECKPOINT_INTERVAL then
      Some(CheckpointSpacing)
    else None
  }

  function Finish(d: Draft): Result<SupervisorOptions, ParseError> {
    match FirstMissing(d)
    case Some(flag) => Err(MissingFlag(flag))
    case None =>
      match FailingGate(Assemble(d))
      case Some(gate) => Err(GateFailed(gate))
      case None => Ok(Assemble(d))
  }

  function Parse(argv: seq<string>): Result<SupervisorOptions, ParseError> {
    match ReadArguments(EMPTY_DRAFT, argv)
    case Err(error) => Err(error)
    case Ok(d) => Finish(d)
  }

  /** Reading one flag with its value. */
  lemma ReadSetting(d: Draft, text: string, flag: Flag, value: string, rest: seq<string>)
    requires FlagOf(text) == Some(flag) && flag != Execute && !Dashed(value) && Assign(d, flag, value).Some?
    ensures ReadArguments(d, [text, value] + rest) == ReadArguments(Assign(d, flag, value).value, rest)
  {
    hide Assign, FlagOf;
    assert ([text, value] + rest)[2..] == rest;
  }

  // ----- what accepted options look like

  predicate Plain(s: Option<string>) {
    s.Some? ==> !Dashed(s.value)
  }

  predicate WellFormed(d: Draft) {
    && (d.walletAddress.Some? ==>
         IsAddress(d.walletAddress.value) && LowerCase(d.walletAddress.value) == d.walletAddress.value)
    && (d.authorizedFinalBlock.Some? ==> d.authorizedFinalBlock.value >= 0)
    && (d.policyLabelPrefix.Some? ==> d.policyLabelPrefix.value != "" && Trimmed(d.policyLabelPrefix.value))
    && Plain(d.policyLabelPrefix) && Plain(d.baseUrl) && Plain(d.childEvidenceFile)
    && d.checkpointInterval > 0 && d.pollIntervalMs > 0 && d.pollTimeoutMs > 0
  }

  lemma AssignKeepsWellFormed(d: Draft, flag: Flag, value: string)
    requires WellFormed(d) && flag != Execute && !Dashed(value) && Assign(d, flag, value).Some?
    ensures WellFormed(Assign(d, flag, value).value)
  {
    if flag.WalletAddress? {
      LowerCaseAddress(value);
    }
  }

  lemma {:induction false} ReadArgumentsWellFormed(d: Draft, argv: seq<string>)
    requires WellFormed(d) && ReadArguments(d, argv).Ok?
    ensures WellFormed(ReadArguments(d, argv).value)
    decreases |argv|
  {
    hide Assign, FlagOf, WellFormed;
    if argv != [] {
      match FlagOf(argv[0])
      case Some(Execute) =>
        ExecuteKeepsWellFormed(d);
        ReadArgumentsWellFormed(d.(execute := true), argv[1..]);
      case Some(flag) =>
        AssignKeepsWellFormed(d, flag, argv[1]);
        ReadArgumentsWellFormed(Assign(d, flag, argv[1]).value, argv[2..]);
    }
  }

  lemma ExecuteKeepsWellFormed(d: Draft)
    requires WellFormed(d)
    ensures WellFormed(d.(execute := true))
  {
  }

  /** The options an accepted supervisor command line can yield. */
  predicate Parsed(so: SupervisorOptions) {
    && Acceptable(so)
    && so.chainId == SUPPORTED_CHAIN_ID
    && IsAddress(so.walletAddress) && LowerCase(so.walletAddress) == so.walletAddress
    && so.authorizedFinalBlock >= 0
    && so.policyLabelPrefix != "" && Trimmed(so.policyLabelPrefix) && !Dashed(so.policyLabelPrefix)
    && !Dashed(so.baseUrl) && Plain(so.childEvidenceFile)
    && so.pollIntervalMs > 0 && so.pollTimeoutMs > 0
  }

  lemma AcceptedOptionsAreParsed(argv: seq<string>)
    requires Parse(argv).Ok?
    ensures Parsed(Parse(argv).value)
  {
    hide ReadArguments;
    ReadArgumentsWellFormed(EMPTY_DRAFT, argv);
  }

  // ----- the child's command line

  /** The settings every child is given, in their order, in groups of four. */
  function SourceArguments(so: SupervisorOptions, plan: ChildPlan): seq<string> {
    ["--wallet-address", so.walletAddress,
     "--chain-id", PrintInt(so.chainId),
     "--expected-cursor-from", PrintInt(plan.anchorFrom),
     "--expected-cursor-to", PrintInt(plan.cursorTo)]
  }

  function RangeArguments(so: SupervisorOptions, plan: ChildPlan): seq<string> {
    ["--first-window-start", PrintInt(plan.firstWindowStart),
     "--window-size", PrintInt(so.windowSize),
     "--max-windows", PrintInt(plan.maxWindows),
     "--authorized-final-block", PrintInt(plan.finalBlock)]
  }

  function NamingArguments(so: SupervisorOptions, childCampaignId: string): seq<string> {
    ["--campaign-id", childCampaignId,
     "--policy-label-prefix", so.policyLabelPrefix,
     "--checkpoint-interval", PrintInt(so.checkpointInterval),
     "--base-url", so.baseUrl]
  }

  function PollArguments(so: SupervisorOptions): seq<string> {
    ["--poll-interval-ms", PrintInt(so.pollIntervalMs),
     "--poll-timeout-ms", PrintInt(so.pollTimeoutMs)]
  }

  function EvidenceArguments(so: SupervisorOptions): seq<string> {
    if so.childEvidenceFile.Some? && so.childEvidenceFile.value != "" then
      ["--evidence-file", so.childEvidenceFile.value]
    else []
  }

  function ExecuteArguments(so: SupervisorOptions): seq<string> {
    if so.execute then ["--execute"] else []
  }

  /** The arguments of a child after its script path. */
  function ChildArguments(so: SupervisorOptions, plan: ChildPlan): seq<string> {
    SourceArguments(so, plan)
    + (RangeArguments(so, plan)
    + (NamingArguments(so, ChildCampaignId(so.campaignIdPrefix, plan.number))
    + (PollArguments(so) + (EvidenceArguments(so) + ExecuteArguments(so)))))
  }

  method BuildChildArgs(so: SupervisorOptions, plan: ChildPlan, childCampaignId: string)
    returns (childArgs: seq<string>)
    requires childCampaignId == ChildCampaignId(so.campaignIdPrefix, plan.number)
    ensures childArgs == [so.runnerScriptPath] + ChildArguments(so, plan)
  {
    hide SourceArguments, RangeArguments, NamingArguments, PollArguments, ChildCampaignId;
    childArgs := [so.runnerScriptPath] + SourceArguments(so, plan) + RangeArguments(so, plan)
      + NamingArguments(so, childCampaignId) + PollArguments(so);
    if so.childEvidenceFile.Some? && so.childEvidenceFile.value != "" {
      childArgs := childArgs + ["--evidence-file", so.childEvidenceFile.value];
    }
    if so.execute {
      childArgs := childArgs + ["--execute"];
    }
  }

  // ----- the round trip across the process boundary

  function WithSource(d: Child.Draft, so: SupervisorOptions, plan: ChildPlan): Child.Draft {
    d.(walletAddress := Some(so.walletAddress), chainId := Some(so.chainId),
       expectedCursorFrom := Some(plan.anchorFrom), expectedCursorTo := Some(plan.cursorTo))
  }

  function WithRange(d: Child.Draft, so: SupervisorOptions, plan: ChildPlan): Child.Draft {
    d.(firstWindowStart := Some(plan.firstWindowStart), windowSize := Some(so.windowSize),
       maxWindows := Some(plan.maxWindows), authorizedFinalBlock := Some(plan.finalBlock))
  }

  function WithNaming(d: Child.Draft, so: SupervisorOptions, childCampaignId: string): Child.Draft {
    d.(campaignId := Some(childCampaignId), policyLabelPrefix := Some(so.policyLabelPrefix),
       checkpointInterval := so.checkpointInterval, baseUrl := Some(so.baseUrl))
  }

  function WithRest(d: Child.Draft, so: SupervisorOptions): Child.Draft {
    d.(pollIntervalMs := so.pollIntervalMs, pollTimeoutMs := so.pollTimeoutMs,
       evidenceFile := if so.childEvidenceFile.Some? && so.childEvidenceFile.value != "" then so.childEvidenceFile.value
                       else d.evidenceFile,
       execute := so.execute || d.execute)
  }

  lemma SourceIsRead(d: Child.Draft, so: SupervisorOptions, plan: ChildPlan, rest: seq<string>)
    requires Parsed(so)
    ensures Child.ReadArguments(d, SourceArguments(so, plan) + rest)
         == if plan.anchorFrom < 0 then Err(Child.BadValue(Child.ExpectedCursorFrom))
            else if plan.cursorTo < 0 then Err(Child.BadValue(Child.ExpectedCursorTo))
            else Child.ReadArguments(WithSource(d, so, plan), rest)
  {
    hide PrintInt, ReadNat, ReadInt, Child.FlagOf, Child.ReadArguments, LowerCase, ReadPositive;
    PrintedInt(so.chainId);
    PrintedInt(plan.anchorFrom);
    PrintedInt(plan.cursorTo);
    var argv := SourceArguments(so, plan) + rest;
    assert argv[0..] == argv && argv[8..] == rest;
    Child.Consume(d, argv, 0, Child.WalletAddress, so.walletAddress);
    var d1 := d.(walletAddress := Some(so.walletAddress));
    Child.Consume(d1, argv, 2, Child.ChainId, PrintInt(so.chainId));
    var d2 := d1.(chainId := Some(so.chainId));
    Child.Consume(d2, argv, 4, Child.ExpectedCursorFrom, PrintInt(plan.anchorFrom));
    var d3 := d2.(expectedCursorFrom := Some(plan.anchorFrom));
    Child.Consume(d3, argv, 6, Child.ExpectedCursorTo, PrintInt(plan.cursorTo));
  }

  lemma RangeIsRead(d: Child.Draft, so: SupervisorOptions, plan: ChildPlan, rest: seq<string>)
    requires so.windowSize == Campaign.REQUIRED_WINDOW_SIZE && plan.firstWindowStart >= 0 && plan.finalBlock >= 0
    ensures Child.ReadArguments(d, RangeArguments(so, plan) + rest) == Child.ReadArguments(WithRange(d, so, plan), rest)
  {
    hide PrintInt, ReadNat, Child.FlagOf, Child.ReadArguments, Trimmed, Blank, Dashed;
    PrintedInt(plan.firstWindowStart);
    PrintedInt(so.windowSize);
    var argv := RangeArguments(so, plan) + rest;
    assert argv[0..] == argv;
    Child.Consume(d, argv, 0, Child.FirstWindowStart, PrintInt(plan.firstWindowStart));
    var d1 := d.(firstWindowStart := Some(plan.firstWindowStart));
    Child.Consume(d1, argv, 2, Child.WindowSize, PrintInt(so.windowSize));
    RangeEndIsRead(d1.(windowSize := Some(so.windowSize)), so, plan, rest);
  }

  lemma RangeEndIsRead(d: Child.Draft, so: SupervisorOptions, plan: ChildPlan, rest: seq<string>)
    requires plan.finalBlock >= 0
    ensures Child.ReadArguments(d, (RangeArguments(so, plan) + rest)[4..])
         == Child.ReadArguments(
              d.(maxWindows := Some(plan.maxWindows), authorizedFinalBlock := Some(plan.finalBlock)), rest)
  {
    hide PrintInt, ReadNat, ReadInt, Child.FlagOf, Child.ReadArguments, Trimmed, Blank, Dashed;
    PrintedInt(plan.maxWindows);
    PrintedInt(plan.finalBlock);
    var argv := RangeArguments(so, plan) + rest;
    assert argv[8..] == rest;
    Child.Consume(d, argv, 4, Child.MaxWindows, PrintInt(plan.maxWindows));
    Child.Consume(d.(maxWindows := Some(plan.maxWindows)), argv, 6, Child.AuthorizedFinalBlock,
      PrintInt(plan.finalBlock));
  }

  lemma NamingIsRead(d: Child.Draft, so: SupervisorOptions, childCampaignId: string, rest: seq<string>)
    requires Parsed(so) && Campaign.ValidCampaignId(childCampaignId)
    ensures Child.ReadArguments(d, NamingArguments(so, childCampaignId) + rest)
         == Child.ReadArguments(WithNaming(d, so, childCampaignId), rest)
  {
    hide PrintInt, Child.FlagOf, Child.ReadArguments, LowerCase, IsAddress, Trimmed, Blank;
    var argv := NamingArguments(so, childCampaignId) + rest;
    assert argv[0..] == argv;
    Child.Consume(d, argv, 0, Child.CampaignId, childCampaignId);
    var d1 := d.(campaignId := Some(childCampaignId));
    Child.Consume(d1, argv, 2, Child.PolicyLabelPrefix, so.policyLabelPrefix);
    NamingEndIsRead(d1.(policyLabelPrefix := Some(so.policyLabelPrefix)), so, childCampaignId, rest);
  }

  lemma NamingEndIsRead(d: Child.Draft, so: SupervisorOptions, childCampaignId: string, rest: seq<string>)
    requires so.checkpointInterval > 0 && !Dashed(so.baseUrl)
    ensures Child.ReadArguments(d, (NamingArguments(so, childCampaignId) + rest)[4..])
         == Child.ReadArguments(d.(checkpointInterval := so.checkpointInterval, baseUrl := Some(so.baseUrl)), rest)
  {
    hide PrintInt, ReadPositive, Child.FlagOf, Child.ReadArguments, Trimmed, Blank, Dashed;
    PrintedInt(so.checkpointInterval);
    var argv := NamingArguments(so, childCampaignId) + rest;
    assert argv[8..] == rest;
    Child.Consume(d, argv, 4, Child.CheckpointInterval, PrintInt(so.checkpointInterval));
    Child.Consume(d.(checkpointInterval := so.checkpointInterval), argv, 6, Child.BaseUrl, so.baseUrl);
  }

  lemma PollIsRead(d: Child.Draft, so: SupervisorOptions, rest: seq<string>)
    requires Parsed(so)
    ensures Child.ReadArguments(d, PollArguments(so) + rest)
         == Child.ReadArguments(d.(pollIntervalMs := so.pollIntervalMs, pollTimeoutMs := so.pollTimeoutMs), rest)
  {
    hide PrintInt, ReadNat, ReadInt, Child.FlagOf, Child.ReadArguments, LowerCase, ReadPositive, IsAddress;
    PrintedInt(so.pollIntervalMs);
    PrintedInt(so.pollTimeoutMs);
    var argv := PollArguments(so) + rest;
    assert argv[0..] == argv && argv[4..] == rest;
    Child.Consume(d, argv, 0, Child.PollIntervalMs, PrintInt(so.pollIntervalMs));
    var d1 := d.(pollIntervalMs := so.pollIntervalMs);
    Child.Consume(d1, argv, 2, Child.PollTimeoutMs, PrintInt(so.pollTimeoutMs));
  }

  lemma RestIsRead(d: Child.Draft, so: SupervisorOptions)
    requires Parsed(so)
    ensures Child.ReadArguments(d, PollArguments(so) + (EvidenceArguments(so) + ExecuteArguments(so)))
      == Ok(WithRest(d, so))
  {
    hide PollArguments, Child.FlagOf;
    var last := ExecuteArguments(so);
    PollIsRead(d, so, EvidenceArguments(so) + last);
    var d1 := d.(pollIntervalMs := so.pollIntervalMs, pollTimeoutMs := so.pollTimeoutMs);
    Child.FlagRoundTrip(Child.Execute);
    if EvidenceArguments(so) != [] {
      var argv := EvidenceArguments(so) + last;
      assert argv[0..] == argv && argv[2..] == last;
      Child.Consume(d1, argv, 0, Child.EvidenceFile, so.childEvidenceFile.value);
    } else {
      assert EvidenceArguments(so) + last == last;
    }
  }

  /** The draft the child ends up with. */
  function ChildDraft(so: SupervisorOptions, plan: ChildPlan): Child.Draft {
    WithRest(WithNaming(WithRange(WithSource(Child.EMPTY_DRAFT, so, plan), so, plan), so,
                        ChildCampaignId(so.campaignIdPrefix, plan.number)), so)
  }

  lemma ChildArgumentsAreRead(so: SupervisorOptions, plan: ChildPlan)
    requires Parsed(so) && plan.firstWindowStart == plan.cursorTo + 1 && plan.finalBlock >= plan.cursorTo
    requires Campaign.ValidCampaignId(ChildCampaignId(so.campaignIdPrefix, plan.number))
    ensures if plan.anchorFrom >= 0 && plan.cursorTo >= 0 then
              Child.ReadArguments(Child.EMPTY_DRAFT, ChildArguments(so, plan)) == Ok(ChildDraft(so, plan))
            else Child.ReadArguments(Child.EMPTY_DRAFT, ChildArguments(so, plan)).Err?
  {
    hide Child.ReadArguments, SourceArguments, RangeArguments, NamingArguments, PollArguments, EvidenceArguments,
      ExecuteArguments, IsAddress, LowerCase, WithSource, WithRange, WithNaming, WithRest, Campaign.ValidCampaignId,
      ChildCampaignId;
    var id := ChildCampaignId(so.campaignIdPrefix, plan.number);
    var rest := PollArguments(so) + (EvidenceArguments(so) + ExecuteArguments(so));
    var naming := NamingArguments(so, id) + rest;
    SourceIsRead(Child.EMPTY_DRAFT, so, plan, RangeArguments(so, plan) + naming);
    if plan.anchorFrom >= 0 && plan.cursorTo >= 0 {
      var d1 := WithSource(Child.EMPTY_DRAFT, so, plan);
      RangeIsRead(d1, so, plan, naming);
      var d2 := WithRange(d1, so, plan);
      NamingIsRead(d2, so, id, rest);
      RestIsRead(WithNaming(d2, so, id), so);
    }
  }

  /** The command line printed for a child parses exactly if the cursor it was planned
      from is not negative and its longest label fits; then it yields exactly the
      options the plan stands for, field by field, and never a recovery. */
  lemma ChildCommandLineRoundTrip(so: SupervisorOptions, cursor: Cursor, number: nat)
    requires Parsed(so) && PlanFor(so, cursor, number).Child?
    requires Campaign.ValidCampaignId(ChildCampaignId(so.campaignIdPrefix, number))
    ensures var plan := PlanFor(so, cursor, number).plan; var r := Child.Parse(ChildArguments(so, plan));
      && plan.maxWindows > 0
      && (r.Ok? <==>
            && cursor.fromBlock >= 0 && cursor.toBlock >= 0
            && Campaign.LongestLabelFits(
                 so.policyLabelPrefix, ChildCampaignId(so.campaignIdPrefix, number), 1, plan.maxWindows))
      && (r.Ok? ==> r.value == ChildOptions(so, plan) && r.value.recovery.None?)
  {
    hide Child.ReadArguments, ChildArguments, Child.Finish, Campaign.LongestLabelFits, Campaign.CheckOptions,
      Campaign.AlignFinalBlock;
    var plan := PlanFor(so, cursor, number).plan;
    PlanPassesChildGates(so, cursor, number);
    ChildArgumentsAreRead(so, plan);
    if cursor.fromBlock >= 0 && cursor.toBlock >= 0 {
      ChildDraftFinishes(so, plan);
    }
  }

  lemma ChildDraftFinishes(so: SupervisorOptions, plan: ChildPlan)
    requires Parsed(so) && 1 <= plan.maxWindows <= Campaign.MAX_WINDOWS_HARD_CAP
    requires plan.finalBlock == plan.firstWindowStart + Campaign.REQUIRED_WINDOW_SIZE * plan.maxWindows - 1
    requires Campaign.ValidCampaignId(ChildCampaignId(so.campaignIdPrefix, plan.number))
    ensures Child.Finish(ChildDraft(so, plan)) ==
      if Campaign.LongestLabelFits(
           so.policyLabelPrefix, ChildCampaignId(so.campaignIdPrefix, plan.number), 1, plan.maxWindows)
      then Ok(ChildOptions(so, plan)) else Err(Child.GateFailed(Child.LabelLength))
  {
    hide Campaign.LongestLabelFits, Campaign.ValidCampaignId, ChildCampaignId, Campaign.AlignFinalBlock, IsAddress,
      LowerCase, Trimmed, Dashed;
    AlignedExactly(plan.firstWindowStart, plan.finalBlock, plan.maxWindows);
  }
}
