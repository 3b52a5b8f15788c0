/** What a supervisor command line means: each of its fifteen flags sets its own option, the
    last value given counts, and whatever is accepted can be printed and read back. */
module SupervisorCliMeaning {
  import opened Base
  import opened CommandLine
  import opened SupervisorPlan
  import opened SupervisorCli
  import Campaign = CampaignPlan
  import Decimal

  function FlagText(flag: Flag): string {
    match flag
    case Execute => "--execute"
    case WalletAddress => "--wallet-address"
    case ChainId => "--chain-id"
    case AuthorizedFinalBlock => "--authorized-final-block"
    case CampaignMaxWindows => "--campaign-max-windows"
    case WindowSize => "--window-size"
    case CampaignIdPrefix => "--campaign-id-prefix"
    case PolicyLabelPrefix => "--policy-label-prefix"
    case CheckpointInterval => "--checkpoint-interval"
    case BaseUrl => "--base-url"
    case EvidenceFile => "--evidence-file"
    case ChildEvidenceFile => "--child-evidence-file"
    case PollIntervalMs => "--poll-interval-ms"
    case PollTimeoutMs => "--poll-timeout-ms"
    case RunnerScript => "--runner-script"
  }

  lemma FlagIsRead(flag: Flag)
    ensures FlagOf(FlagText(flag)) == Some(flag)
  {
  }

  lemma FlagIsText(flag: Flag, text: string)
    requires FlagOf(text) == Some(flag)
    ensures text == FlagText(flag)
  {
    hide FlagOf, FlagText;
    if flag.Execute? || flag.WalletAddress? || flag.ChainId? || flag.AuthorizedFinalBlock? || flag.CampaignMaxWindows? {
      EarlyFlagIsText(flag, text);
    } else if flag.WindowSize? || flag.CampaignIdPrefix? || flag.PolicyLabelPrefix? || flag.CheckpointInterval?
      || flag.BaseUrl? {
      MiddleFlagIsText(flag, text);
    } else {
      LateFlagIsText(flag, text);
    }
  }

  lemma EarlyFlagIsText(flag: Flag, text: string)
    requires flag.Execute? || flag.WalletAddress? || flag.ChainId? || flag.AuthorizedFinalBlock?
      || flag.CampaignMaxWindows?
    requires FlagOf(text) == Some(flag)
    ensures text == FlagText(flag)
  {
  }

  lemma MiddleFlagIsText(flag: Flag, text: string)
    requires flag.WindowSize? || flag.CampaignIdPrefix? || flag.PolicyLabelPrefix? || flag.CheckpointInterval?
      || flag.BaseUrl?
    requires FlagOf(text) == Some(flag)
    ensures text == FlagText(flag)
  {
  }

  lemma LateFlagIsText(flag: Flag, text: string)
    requires || flag.EvidenceFile? || flag.ChildEvidenceFile? || flag.PollIntervalMs? || flag.PollTimeoutMs?
             || flag.RunnerScript?
    requires FlagOf(text) == Some(flag)
    ensures text == FlagText(flag)
  {
  }

  /** The flags whose value is kept as a text. */
  predicate Textual(flag: Flag) {
    || flag.WalletAddress? || flag.CampaignIdPrefix? || flag.PolicyLabelPrefix? || flag.BaseUrl?
    || flag.EvidenceFile? || flag.ChildEvidenceFile? || flag.RunnerScript?
  }

  // ----- command lines as settings

  /** One flag of a command line, with its value if it takes one. */
  datatype Setting = Switch | Valued(flag: Flag, value: string)

  function Words(s: Setting): seq<string> {
    match s
    case Switch => ["--execute"]
    case Valued(flag, value) => [FlagText(flag), value]
  }

  function Line(ss: seq<Setting>): seq<string> {
    if ss == [] then [] else Words(ss[0]) + Line(ss[1..])
  }

  /** The values a flag takes. */
  predicate ValueOk(flag: Flag, value: string) {
    match flag
    case Execute => false
    case WalletAddress => IsAddress(value)
    case ChainId => Decimal.IsNumeral(value)
    case AuthorizedFinalBlock => Decimal.IsNumeral(value)
    case CampaignMaxWindows => IsInteger(value)
    case WindowSize => Decimal.IsNumeral(value) && value != "0"
    case PolicyLabelPrefix => value != "" && Trimmed(value)
    case CheckpointInterval => Decimal.IsNumeral(value) && Decimal.Read(value) > 0
    case PollIntervalMs => Decimal.IsNumeral(value) && Decimal.Read(value) > 0
    case PollTimeoutMs => Decimal.IsNumeral(value) && Decimal.Read(value) > 0
    case RunnerScript => value != ""
    case _ => true
  }

  predicate Proper(s: Setting) {
    s.Valued? ==> !Dashed(s.value) && ValueOk(s.flag, s.value)
  }

  predicate AllProper(ss: seq<Setting>) {
    forall i :: 0 <= i < |ss| ==> Proper(ss[i])
  }

  /** The last value given for a flag. */
  function Latest(ss: seq<Setting>, flag: Flag): Option<string> {
    if ss == [] then None
    else
      match Latest(ss[1..], flag)
      case Some(value) => Some(value)
      case None => if ss[0].Valued? && ss[0].flag == flag then Some(ss[0].value) else None
  }

  lemma LatestOfOne(s: Setting)
    ensures forall flag :: Latest([s], flag) == if s.Valued? && s.flag == flag then Some(s.value) else None
  {
    assert [s][1..] == [];
  }

  lemma {:induction false} LatestIsProper(ss: seq<Setting>, flag: Flag)
    requires AllProper(ss)
    ensures Latest(ss, flag).Some? ==> ValueOk(flag, Latest(ss, flag).value) && !Dashed(Latest(ss, flag).value)
  {
    if ss != [] {
      LatestIsProper(ss[1..], flag);
    }
  }

  // ----- the meaning of settings

  datatype Value = Text(text: Option<string>) | Number(number: Option<int>)

  /** The option a flag sets. */
  function OptionOf(d: Draft, flag: Flag): Value {
    match flag
    case Execute => Number(Some(if d.execute then 1 else 0))
    case WalletAddress => Text(d.walletAddress)
    case ChainId => Number(d.chainId)
    case AuthorizedFinalBlock => Number(d.authorizedFinalBlock)
    case CampaignMaxWindows => Number(d.campaignMaxWindows)
    case WindowSize => Number(d.windowSize)
    case CampaignIdPrefix => Text(d.campaignIdPrefix)
    case PolicyLabelPrefix => Text(d.policyLabelPrefix)
    case CheckpointInterval => Number(Some(d.checkpointInterval))
    case BaseUrl => Text(d.baseUrl)
    case EvidenceFile => Text(Some(d.evidenceFile))
    case ChildEvidenceFile => Text(d.childEvidenceFile)
    case PollIntervalMs => Number(Some(d.pollIntervalMs))
    case PollTimeoutMs => Number(Some(d.pollTimeoutMs))
    case RunnerScript => Text(Some(d.runnerScriptPath))
  }

  /** What a flag's value stands for. */
  function Reading(flag: Flag, value: string): Value {
    if flag.WalletAddress? then Text(Some(LowerCase(value)))
    else if Textual(flag) then Text(Some(value))
    else Number(ReadInt(value))
  }

  function Chosen(ss: seq<Setting>, flag: Flag, default: Value): Value {
    match Latest(ss, flag)
    case None => default
    case Some(value) => Reading(flag, value)
  }

  /** Starting from one draft, the settings lead to the other: each option is the last one
      given for its flag, and kept where none is given. */
  ghost predicate Leads(d: Draft, ss: seq<Setting>, r: Draft) {
    && r.execute == (d.execute || Switch in ss)
    && forall flag :: flag != Execute ==> OptionOf(r, flag) == Chosen(ss, flag, OptionOf(d, flag))
  }

  /** A numeral reads alike as a number and as an integer. */
  lemma NumeralReads(value: string)
    requires Decimal.IsNumeral(value)
    ensures ReadInt(value) == Some(Decimal.Read(value)) && ReadNat(value) == Some(Decimal.Read(value))
    ensures Decimal.Read(value) > 0 ==> ReadPositive(value) == Some(Decimal.Read(value))
  {
    assert Decimal.IsDigit(value[0]) && !Decimal.IsDigit('-');
  }

  lemma AcceptedValues(d: Draft, flag: Flag, value: string)
    requires flag != Execute
    ensures Assign(d, flag, value).Some? <==> ValueOk(flag, value)
    ensures Decimal.IsNumeral(value) ==> ReadInt(value) == ReadNat(value) == Some(Decimal.Read(value))
    ensures Decimal.IsNumeral(value) && Decimal.Read(value) > 0 ==> ReadPositive(value) == Some(Decimal.Read(value))
  {
    hide IsAddress, Trimmed, LowerCase;
    if Decimal.IsNumeral(value) {
      NumeralReads(value);
    }
  }

  function After(d: Draft, s: Setting): Draft
    requires Proper(s)
  {
    match s
    case Switch => d.(execute := true)
    case Valued(flag, value) =>
      AcceptedValues(d, flag, value);
      Assign(d, flag, value).value
  }

  /** One setting changes its own option alone, to what its value stands for. */
  lemma OneOptionChanges(d: Draft, flag: Flag, value: string)
    requires flag != Execute && ValueOk(flag, value) && Assign(d, flag, value).Some?
    ensures var r := Assign(d, flag, value).value;
      && r.execute == d.execute
      && forall g :: OptionOf(r, g) == if g == flag then Reading(flag, value) else OptionOf(d, g)
  {
    hide Assign, OptionOf, Reading, ValueOk;
    if Textual(flag) {
      TextChanges(d, flag, value);
    } else {
      NumberChanges(d, flag, value);
    }
  }

  lemma TextChanges(d: Draft, flag: Flag, value: string)
    requires Textual(flag) && Assign(d, flag, value).Some?
    ensures var r := Assign(d, flag, value).value;
      && r.execute == d.execute
      && forall g :: OptionOf(r, g) == if g == flag then Reading(flag, value) else OptionOf(d, g)
  {
    hide IsAddress, Trimmed, LowerCase, ReadInt;
  }

  lemma NumberChanges(d: Draft, flag: Flag, value: string)
    requires flag != Execute && !Textual(flag) && ValueOk(flag, value) && Assign(d, flag, value).Some?
    ensures var r := Assign(d, flag, value).value;
      && r.execute == d.execute
      && forall g :: OptionOf(r, g) == if g == flag then Reading(flag, value) else OptionOf(d, g)
  {
    hide ReadInt, ReadNat, ReadPositive, Decimal.Read, Decimal.IsNumeral, IsInteger;
    AcceptedValues(d, flag, value);
  }

  lemma {:induction false} SettingsLead(d: Draft, ss: seq<Setting>, rest: seq<string>) returns (r: Draft)
    requires AllProper(ss)
    ensures Leads(d, ss, r) && ReadArguments(d, Line(ss) + rest) == ReadArguments(r, rest)
    decreases |ss|
  {
    hide ReadArguments, After, Leads, Words;
    if ss == [] {
      r := d;
      assert Line(ss) + rest == rest;
      NothingLeads(d);
    } else {
      var tail := Line(ss[1..]) + rest;
      assert Line(ss) + rest == Words(ss[0]) + tail;
      OneSettingIsRead(d, ss[0], tail);
      r := SettingsLead(After(d, ss[0]), ss[1..], rest);
      StepLeads(d, ss, r);
    }
  }

  lemma OneSettingIsRead(d: Draft, s: Setting, rest: seq<string>)
    requires Proper(s)
    ensures ReadArguments(d, Words(s) + rest) == ReadArguments(After(d, s), rest)
  {
    hide Assign, FlagOf, FlagText, ValueOk;
    match s
    case Switch =>
      FlagIsRead(Execute);
      assert FlagText(Execute) == "--execute" by { SwitchText(); }
      assert (["--execute"] + rest)[1..] == rest;
    case Valued(flag, value) =>
      NoSwitchValue(flag, value);
      AcceptedValues(d, flag, value);
      FlagIsRead(flag);
      ReadSetting(d, FlagText(flag), flag, value, rest);
  }

  lemma SwitchText()
    ensures FlagText(Execute) == "--execute"
  {
  }

  lemma NoSwitchValue(flag: Flag, value: string)
    requires ValueOk(flag, value)
    ensures flag != Execute
  {
  }

  lemma StepLeads(d: Draft, ss: seq<Setting>, r: Draft)
    requires ss != [] && Proper(ss[0]) && Leads(After(d, ss[0]), ss[1..], r)
    ensures Leads(d, ss, r)
  {
    hide Assign, OptionOf, Reading, ValueOk;
    assert ss == [ss[0]] + ss[1..];
    match ss[0]
    case Switch => SwitchChangesNothingElse(d);
    case Valued(flag, value) =>
      NoSwitchValue(flag, value);
      AcceptedValues(d, flag, value);
      OneOptionChanges(d, flag, value);
  }

  lemma SwitchChangesNothingElse(d: Draft)
    ensures forall g :: g != Execute ==> OptionOf(d.(execute := true), g) == OptionOf(d, g)
  {
  }

  /** Whatever is read without an error is a sequence of proper settings. */
  lemma {:induction false} ReadIsSettings(d: Draft, argv: seq<string>) returns (ss: seq<Setting>)
    requires ReadArguments(d, argv).Ok?
    ensures AllProper(ss) && Line(ss) == argv
    decreases |argv|
  {
    hide Assign, FlagOf, FlagText, ValueOk;
    if argv == [] {
      ss := [];
    } else {
      var flag := FlagOf(argv[0]).value;
      FlagIsText(flag, argv[0]);
      if flag == Execute {
        SwitchText();
        var rest := ReadIsSettings(d.(execute := true), argv[1..]);
        ss := [Switch] + rest;
        assert argv == ["--execute"] + argv[1..];
      } else {
        AcceptedValues(d, flag, argv[1]);
        var rest := ReadIsSettings(Assign(d, flag, argv[1]).value, argv[2..]);
        ss := [Valued(flag, argv[1])] + rest;
        assert argv == [argv[0], argv[1]] + argv[2..];
      }
    }
  }

  // ----- what an accepted command line yields

  /** The number given last for a flag. */
  predicate GivenNumber(ss: seq<Setting>, flag: Flag, n: int) {
    Latest(ss, flag).Some? && ReadInt(Latest(ss, flag).value) == Some(n)
  }

  predicate NumberOrDefault(ss: seq<Setting>, flag: Flag, n: int, default: int) {
    if Latest(ss, flag).None? then n == default else GivenNumber(ss, flag, n)
  }

  predicate TextOrDefault(ss: seq<Setting>, flag: Flag, text: string, default: string) {
    text == if Latest(ss, flag).None? then default else Latest(ss, flag).value
  }

  /** Each option is the last value given for its own flag; seven have a default. */
  predicate Yields(ss: seq<Setting>, so: SupervisorOptions) {
    && so.execute == (Switch in ss)
    && Latest(ss, WalletAddress).Some? && so.walletAddress == LowerCase(Latest(ss, WalletAddress).value)
    && GivenNumber(ss, ChainId, so.chainId)
    && GivenNumber(ss, AuthorizedFinalBlock, so.authorizedFinalBlock)
    && GivenNumber(ss, CampaignMaxWindows, so.campaignMaxWindows)
    && GivenNumber(ss, WindowSize, so.windowSize)
    && Latest(ss, CampaignIdPrefix) == Some(so.campaignIdPrefix)
    && Latest(ss, PolicyLabelPrefix) == Some(so.policyLabelPrefix)
    && NumberOrDefault(ss, CheckpointInterval, so.checkpointInterval, 25)
    && Latest(ss, BaseUrl) == Some(so.baseUrl)
    && TextOrDefault(ss, EvidenceFile, so.evidenceFile,
         "operator-evidence/" + "wallet-forward-supervisor/evidence.jsonl")
    && so.childEvidenceFile == Latest(ss, ChildEvidenceFile)
    && NumberOrDefault(ss, PollIntervalMs, so.pollIntervalMs, 5000)
    && NumberOrDefault(ss, PollTimeoutMs, so.pollTimeoutMs, 1200000)
    && TextOrDefault(ss, RunnerScript, so.runnerScriptPath, "scripts/wallet-forward-campaign-runner.ts")
  }

  lemma NothingLeads(d: Draft)
    ensures Leads(d, [], d)
  {
  }

  /** A complete draft to which settings lead holds the options they yield. */
  lemma AssembledIsYielded(ss: seq<Setting>, d: Draft)
    requires AllProper(ss) && Leads(EMPTY_DRAFT, ss, d) && FirstMissing(d).None?
    ensures Yields(ss, Assemble(d))
  {
    hide Leads, ReadInt, LowerCase, ValueOk, Latest, AllProper;
    ChosenTexts(ss, d);
    ChosenNumbers(ss, d);
  }

  /** The first flag missing from a draft is the first required one that is not given. */
  lemma MissingInOrder(ss: seq<Setting>, d: Draft, i: nat)
    requires AllProper(ss) && Leads(EMPTY_DRAFT, ss, d) && i < |REQUIRED|
    ensures FirstMissing(d) == Some(REQUIRED[i]) <==> !Given(ss, i) && forall j :: 0 <= j < i ==> Given(ss, j)
    ensures FirstMissing(d).None? <==> forall j :: 0 <= j < |REQUIRED| ==> Given(ss, j)
  {
    hide Leads, ReadInt, LowerCase, ValueOk, Latest, AllProper, NumberOrDefault, TextOrDefault;
    NumbersRead(ss);
    ChosenTexts(ss, d);
    ChosenNumbers(ss, d);
    assert Given(ss, 0) <==> d.walletAddress.Some?;
    assert Given(ss, 1) <==> d.chainId.Some?;
    assert Given(ss, 2) <==> d.authorizedFinalBlock.Some?;
    assert Given(ss, 3) <==> d.campaignMaxWindows.Some?;
    assert Given(ss, 4) <==> d.windowSize.Some?;
    assert Given(ss, 5) <==> d.campaignIdPrefix.Some?;
    assert Given(ss, 6) <==> d.policyLabelPrefix.Some?;
    assert Given(ss, 7) <==> d.baseUrl.Some?;
  }

  const REQUIRED: seq<Flag> :=
    [WalletAddress, ChainId, AuthorizedFinalBlock, CampaignMaxWindows, WindowSize, CampaignIdPrefix, PolicyLabelPrefix,
     BaseUrl]

  /** The i-th required flag is given. */
  predicate Given(ss: seq<Setting>, i: nat)
    requires i < |REQUIRED|
  {
    Latest(ss, REQUIRED[i]).Some?
  }

  predicate Numeric(flag: Flag) {
    !Textual(flag) && flag != Execute
  }

  lemma NumbersRead(ss: seq<Setting>)
    requires AllProper(ss)
    ensures forall flag :: Numeric(flag) && Latest(ss, flag).Some? ==> ReadInt(Latest(ss, flag).value).Some?
  {
    hide ReadInt, Latest, ValueOk;
    forall flag | Numeric(flag) && Latest(ss, flag).Some? ensures ReadInt(Latest(ss, flag).value).Some? {
      LatestIsProper(ss, flag);
      NumberReads(flag, Latest(ss, flag).value);
    }
  }

  lemma NumberReads(flag: Flag, value: string)
    requires Numeric(flag) && ValueOk(flag, value)
    ensures ReadInt(value).Some?
  {
  }

  lemma ChosenFor(ss: seq<Setting>, d: Draft, flag: Flag)
    requires Leads(EMPTY_DRAFT, ss, d) && flag != Execute
    ensures OptionOf(d, flag) == Chosen(ss, flag, OptionOf(EMPTY_DRAFT, flag))
  {
    hide OptionOf, Chosen;
  }

  lemma ChosenTexts(ss: seq<Setting>, d: Draft)
    requires Leads(EMPTY_DRAFT, ss, d)
    ensures d.walletAddress == match Latest(ss, WalletAddress) case None => None case Some(v) => Some(LowerCase(v))
    ensures d.campaignIdPrefix == Latest(ss, CampaignIdPrefix) && d.policyLabelPrefix == Latest(ss, PolicyLabelPrefix)
    ensures d.baseUrl == Latest(ss, BaseUrl) && d.childEvidenceFile == Latest(ss, ChildEvidenceFile)
    ensures TextOrDefault(ss, EvidenceFile, d.evidenceFile, EMPTY_DRAFT.evidenceFile)
    ensures TextOrDefault(ss, RunnerScript, d.runnerScriptPath, EMPTY_DRAFT.runnerScriptPath)
  {
    hide LowerCase, Latest, Leads;
    ChosenFor(ss, d, WalletAddress);
    ChosenFor(ss, d, CampaignIdPrefix);
    ChosenFor(ss, d, PolicyLabelPrefix);
    ChosenFor(ss, d, BaseUrl);
    ChosenFor(ss, d, ChildEvidenceFile);
    ChosenFor(ss, d, EvidenceFile);
    ChosenFor(ss, d, RunnerScript);
  }

  function NumberGiven(ss: seq<Setting>, flag: Flag): Option<int> {
    match Latest(ss, flag)
    case None => None
    case Some(value) => ReadInt(value)
  }

  lemma ChosenNumbers(ss: seq<Setting>, d: Draft)
    requires Leads(EMPTY_DRAFT, ss, d)
    ensures d.execute == (Switch in ss)
    ensures d.chainId == NumberGiven(ss, ChainId) && d.authorizedFinalBlock == NumberGiven(ss, AuthorizedFinalBlock)
    ensures d.campaignMaxWindows == NumberGiven(ss, CampaignMaxWindows) && d.windowSize == NumberGiven(ss, WindowSize)
    ensures NumberOrDefault(ss, CheckpointInterval, d.checkpointInterval, 25)
    ensures NumberOrDefault(ss, PollIntervalMs, d.pollIntervalMs, 5000)
    ensures NumberOrDefault(ss, PollTimeoutMs, d.pollTimeoutMs, 1200000)
  {
    ExecuteChosen(ss, d);
    hide ReadInt, Latest, Leads;
    ChosenFor(ss, d, ChainId);
    ChosenFor(ss, d, AuthorizedFinalBlock);
    ChosenFor(ss, d, CampaignMaxWindows);
    ChosenFor(ss, d, WindowSize);
    ChosenFor(ss, d, CheckpointInterval);
    ChosenFor(ss, d, PollIntervalMs);
    ChosenFor(ss, d, PollTimeoutMs);
  }

  lemma ExecuteChosen(ss: seq<Setting>, d: Draft)
    requires Leads(EMPTY_DRAFT, ss, d)
    ensures d.execute == (Switch in ss)
  {
    hide OptionOf, Chosen;
  }

  /** What a gate refuses, stated independently of the others. */
  predicate Fails(so: SupervisorOptions, gate: Gate) {
    match gate
    case SupportedChain => so.chainId != 369
    case WindowSizeCap => so.windowSize < 1 || so.windowSize > 1001
    case ExactWindowSize => so.windowSize != 1000
    case WindowLimit => !(1 <= so.campaignMaxWindows <= 1000)
    case CampaignIdShape => !Campaign.ValidCampaignId(so.campaignIdPrefix)
    case CheckpointSpacing => !(1 <= so.checkpointInterval <= 25)
  }

  const GATES: seq<Gate> :=
    [SupportedChain, WindowSizeCap, ExactWindowSize, WindowLimit, CampaignIdShape, CheckpointSpacing]

  /** The i-th gate is passed. */
  predicate Passes(so: SupervisorOptions, i: nat)
    requires i < |GATES|
  {
    !Fails(so, GATES[i])
  }

  lemma GatesInOrder(so: SupervisorOptions, i: nat)
    requires i < |GATES|
    ensures FailingGate(so) == Some(GATES[i]) <==> !Passes(so, i) && forall j :: 0 <= j < i ==> Passes(so, j)
    ensures FailingGate(so).None? <==> forall j :: 0 <= j < |GATES| ==> Passes(so, j)
  {
    hide Campaign.ValidCampaignId;
    assert Passes(so, 0) <==> so.chainId == 369;
    assert Passes(so, 1) <==> 1 <= so.windowSize <= 1001;
    assert Passes(so, 2) <==> so.windowSize == 1000;
    assert Passes(so, 3) <==> 1 <= so.campaignMaxWindows <= 1000;
    assert Passes(so, 4) <==> Campaign.ValidCampaignId(so.campaignIdPrefix);
    assert Passes(so, 5) <==> 1 <= so.checkpointInterval <= 25;
  }

  // ----- theorems

  /** The draft that a sequence of proper settings leads to from the start. */
  lemma LineIsRead(ss: seq<Setting>) returns (d: Draft)
    requires AllProper(ss)
    ensures Leads(EMPTY_DRAFT, ss, d) && ReadArguments(EMPTY_DRAFT, Line(ss)) == Ok(d)
  {
    hide Leads, Line;
    d := SettingsLead(EMPTY_DRAFT, ss, []);
    assert Line(ss) + [] == Line(ss);
  }

  /** Settings determine the draft they lead to. */
  lemma LeadsIsFunctional(ss: seq<Setting>, d: Draft, e: Draft)
    requires Leads(EMPTY_DRAFT, ss, d) && Leads(EMPTY_DRAFT, ss, e)
    ensures d == e
  {
    hide Chosen;
    SameOptions(d, e);
  }

  lemma SameOptions(d: Draft, e: Draft)
    requires d.execute == e.execute && forall flag :: flag != Execute ==> OptionOf(d, flag) == OptionOf(e, flag)
    ensures d == e
  {
    assert OptionOf(d, WalletAddress) == OptionOf(e, WalletAddress) && OptionOf(d, ChainId) == OptionOf(e, ChainId);
    assert OptionOf(d, AuthorizedFinalBlock) == OptionOf(e, AuthorizedFinalBlock);
    assert OptionOf(d, CampaignMaxWindows) == OptionOf(e, CampaignMaxWindows);
    assert OptionOf(d, WindowSize) == OptionOf(e, WindowSize);
    assert OptionOf(d, CampaignIdPrefix) == OptionOf(e, CampaignIdPrefix);
    assert OptionOf(d, PolicyLabelPrefix) == OptionOf(e, PolicyLabelPrefix);
    assert OptionOf(d, CheckpointInterval) == OptionOf(e, CheckpointInterval);
    assert OptionOf(d, BaseUrl) == OptionOf(e, BaseUrl) && OptionOf(d, EvidenceFile) == OptionOf(e, EvidenceFile);
    assert OptionOf(d, ChildEvidenceFile) == OptionOf(e, ChildEvidenceFile);
    assert OptionOf(d, PollIntervalMs) == OptionOf(e, PollIntervalMs);
    assert OptionOf(d, PollTimeoutMs) == OptionOf(e, PollTimeoutMs);
    assert OptionOf(d, RunnerScript) == OptionOf(e, RunnerScript);
  }

  /** Options are yielded by at most one choice of values. */
  lemma YieldsIsFunctional(ss: seq<Setting>, so: SupervisorOptions, to: SupervisorOptions)
    requires Yields(ss, so) && Yields(ss, to)
    ensures so == to
  {
    hide Latest, LowerCase, ReadInt;
  }

  /** A required flag is given wherever options are yielded. */
  lemma YieldsGives(ss: seq<Setting>, so: SupervisorOptions, i: nat)
    requires Yields(ss, so) && i < |REQUIRED|
    ensures Given(ss, i)
  {
    hide Latest, LowerCase, ReadInt, NumberOrDefault, TextOrDefault;
    assert REQUIRED[i] in REQUIRED;
  }

  /** A command line is accepted with these options exactly if it is made of flags with
      values they take, in any order; each of the fifteen options is the last value given
      for its own flag, or its default; and every gate is passed. */
  ghost predicate Means(argv: seq<string>, so: SupervisorOptions) {
    && (exists ss :: AllProper(ss) && argv == Line(ss) && Yields(ss, so))
    && forall j :: 0 <= j < |GATES| ==> Passes(so, j)
  }

  lemma AcceptedIffMeant(argv: seq<string>, so: SupervisorOptions)
    ensures Parse(argv) == Ok(so) <==> Means(argv, so)
  {
    hide ReadArguments, Leads, Yields, AllProper, FailingGate, Passes, FirstMissing, Line, Given;
    GatesInOrder(so, 0);
    if Parse(argv) == Ok(so) {
      var ss := ReadIsSettings(EMPTY_DRAFT, argv);
      var d := LineIsRead(ss);
      AssembledIsYielded(ss, d);
    }
    if Means(argv, so) {
      var ss :| AllProper(ss) && argv == Line(ss) && Yields(ss, so);
      var d := LineIsRead(ss);
      forall j: nat | j < |REQUIRED| ensures Given(ss, j) {
        YieldsGives(ss, so, j);
      }
      MissingInOrder(ss, d, 0);
      AssembledIsYielded(ss, d);
      YieldsIsFunctional(ss, so, Assemble(d));
    }
  }

  /** In particular a supervision runs for real exactly if it was asked to. */
  lemma ExecutesIffAsked(ss: seq<Setting>)
    requires AllProper(ss) && Parse(Line(ss)).Ok?
    ensures Parse(Line(ss)).value.execute <==> Switch in ss
  {
    hide ReadArguments, Leads, FailingGate, FirstMissing, Line;
    var d := LineIsRead(ss);
    AssembledIsYielded(ss, d);
  }

  /** What each refusal means. */
  ghost predicate RefusedFor(argv: seq<string>, error: ParseError) {
    match error
    case UnknownArgument(text) =>
      exists ss, rest :: AllProper(ss) && argv == Line(ss) + ([text] + rest) && FlagOf(text).None?
    case BadValue(flag) => exists ss, rest :: AllProper(ss) && argv == Line(ss) + rest && StartsBadly(flag, rest)
    case MissingFlag(flag) =>
      exists ss, i: nat :: AllProper(ss) && argv == Line(ss) && FirstNotGiven(ss, i) && flag == REQUIRED[i]
    case GateFailed(gate) =>
      exists ss, so, i: nat :: AllProper(ss) && argv == Line(ss) && Yields(ss, so) && FirstNotPassed(so, i)
        && gate == GATES[i]
  }

  /** A flag stands without a value it takes. */
  predicate StartsBadly(flag: Flag, argv: seq<string>) {
    && flag != Execute && argv != [] && argv[0] == FlagText(flag)
    && (|argv| == 1 || Dashed(argv[1]) || !ValueOk(flag, argv[1]))
  }

  predicate FirstNotGiven(ss: seq<Setting>, i: nat) {
    i < |REQUIRED| && !Given(ss, i) && forall j :: 0 <= j < i ==> Given(ss, j)
  }

  predicate FirstNotPassed(so: SupervisorOptions, i: nat) {
    i < |GATES| && !Passes(so, i) && forall j :: 0 <= j < i ==> Passes(so, j)
  }

  /** An argument that is not read ends the reading with its error. */
  lemma UnknownIsRefused(d: Draft, text: string, rest: seq<string>)
    requires FlagOf(text).None?
    ensures ReadArguments(d, [text] + rest) == Err(UnknownArgument(text))
  {
  }

  lemma BadValueIsRefused(d: Draft, flag: Flag, argv: seq<string>)
    requires StartsBadly(flag, argv)
    ensures ReadArguments(d, argv) == Err(BadValue(flag))
  {
    hide FlagOf, FlagText, Assign, ValueOk;
    FlagIsRead(flag);
    if |argv| > 1 {
      AcceptedValues(d, flag, argv[1]);
    }
  }

  /** Where reading fails, proper settings precede the argument that is refused. */
  lemma {:induction false} FailureFollowsSettings(d: Draft, argv: seq<string>)
    returns (ss: seq<Setting>, rest: seq<string>)
    requires ReadArguments(d, argv).Err?
    ensures AllProper(ss) && argv == Line(ss) + rest && rest != []
    ensures match ReadArguments(d, argv).error
      case UnknownArgument(text) => text == rest[0] && FlagOf(text).None?
      case BadValue(flag) => StartsBadly(flag, rest)
      case _ => false
    decreases |argv|
  {
    hide Assign, FlagOf, FlagText, ValueOk;
    var flag := FlagOf(argv[0]);
    if flag.None? {
      ss, rest := [], argv;
    } else {
      FlagIsText(flag.value, argv[0]);
      if flag.value == Execute {
        SwitchText();
        var tail;
        tail, rest := FailureFollowsSettings(d.(execute := true), argv[1..]);
        ss := [Switch] + tail;
        assert argv == ["--execute"] + argv[1..];
      } else if |argv| == 1 || Dashed(argv[1]) || !ValueOk(flag.value, argv[1]) {
        ss, rest := [], argv;
        if |argv| > 1 {
          AcceptedValues(d, flag.value, argv[1]);
        }
      } else {
        AcceptedValues(d, flag.value, argv[1]);
        var tail;
        tail, rest := FailureFollowsSettings(Assign(d, flag.value, argv[1]).value, argv[2..]);
        ss := [Valued(flag.value, argv[1])] + tail;
        assert argv == [argv[0], argv[1]] + argv[2..];
      }
    }
  }

  lemma MissingIndex(d: Draft) returns (i: nat)
    requires FirstMissing(d).Some?
    ensures i < |REQUIRED| && FirstMissing(d) == Some(REQUIRED[i])
  {
    i := if d.walletAddress.None? then 0 else if d.chainId.None? then 1 else if d.authorizedFinalBlock.None? then 2
         else if d.campaignMaxWindows.None? then 3 else if d.windowSize.None? then 4
         else if d.campaignIdPrefix.None? then 5 else if d.policyLabelPrefix.None? then 6 else 7;
  }

  lemma GateIndex(so: SupervisorOptions) returns (i: nat)
    requires FailingGate(so).Some?
    ensures i < |GATES| && FailingGate(so) == Some(GATES[i])
  {
    hide Campaign.ValidCampaignId;
    match FailingGate(so).value
    case SupportedChain => i := 0;
    case WindowSizeCap => i := 1;
    case ExactWindowSize => i := 2;
    case WindowLimit => i := 3;
    case CampaignIdShape => i := 4;
    case CheckpointSpacing => i := 5;
  }

  lemma RefusalIsMeant(argv: seq<string>)
    requires Parse(argv).Err?
    ensures RefusedFor(argv, Parse(argv).error)
  {
    hide ReadArguments, Leads, Yields, AllProper, FailingGate, Passes, FirstMissing, Line, Given, FlagOf, StartsBadly;
    if ReadArguments(EMPTY_DRAFT, argv).Err? {
      var ss, rest := FailureFollowsSettings(EMPTY_DRAFT, argv);
      assert rest == [rest[0]] + rest[1..];
    } else {
      var ss := ReadIsSettings(EMPTY_DRAFT, argv);
      var d := LineIsRead(ss);
      if FirstMissing(d).Some? {
        var i := MissingIndex(d);
        MissingInOrder(ss, d, i);
        assert FirstNotGiven(ss, i);
      } else {
        AssembledIsYielded(ss, d);
        var i := GateIndex(Assemble(d));
        GatesInOrder(Assemble(d), i);
        assert FirstNotPassed(Assemble(d), i);
      }
    }
  }

  lemma MeaningIsRefused(argv: seq<string>, error: ParseError)
    requires RefusedFor(argv, error)
    ensures Parse(argv) == Err(error)
  {
    hide ReadArguments, Leads, Yields, AllProper, FailingGate, Passes, FirstMissing, Line, Given, FlagOf, StartsBadly;
    match error
    case UnknownArgument(text) =>
      var ss, rest :| AllProper(ss) && argv == Line(ss) + ([text] + rest) && FlagOf(text).None?;
      var d := SettingsLead(EMPTY_DRAFT, ss, [text] + rest);
      UnknownIsRefused(d, text, rest);
    case BadValue(flag) =>
      var ss, rest :| AllProper(ss) && argv == Line(ss) + rest && StartsBadly(flag, rest);
      var d := SettingsLead(EMPTY_DRAFT, ss, rest);
      BadValueIsRefused(d, flag, rest);
    case MissingFlag(flag) =>
      var ss, i: nat :| AllProper(ss) && argv == Line(ss) && FirstNotGiven(ss, i) && flag == REQUIRED[i];
      var d := LineIsRead(ss);
      MissingInOrder(ss, d, i);
    case GateFailed(gate) =>
      var ss, so, i: nat :| AllProper(ss) && argv == Line(ss) && Yields(ss, so) && FirstNotPassed(so, i)
        && gate == GATES[i];
      var d := LineIsRead(ss);
      forall j: nat | j < |REQUIRED| ensures Given(ss, j) {
        YieldsGives(ss, so, j);
      }
      MissingInOrder(ss, d, 0);
      AssembledIsYielded(ss, d);
      YieldsIsFunctional(ss, so, Assemble(d));
      GatesInOrder(so, i);
  }

  /** A command line is refused with an error exactly if that is what it means: the first
      argument that is no flag, or the first flag without a value it takes; else the first
      required flag that is missing; else the first gate that fails. */
  lemma RefusedIffMeant(argv: seq<string>, error: ParseError)
    ensures Parse(argv) == Err(error) <==> RefusedFor(argv, error)
  {
    hide Parse, RefusedFor;
    if Parse(argv) == Err(error) {
      RefusalIsMeant(argv);
    }
    if RefusedFor(argv, error) {
      MeaningIsRefused(argv, error);
    }
  }

  // ----- the argument loop

  /** The argument loop: what it accepts is what the command line means, and what it refuses
      is refused for what is wrong with it. */
  method ParseSupervisorCliArgs(argv: seq<string>) returns (r: Result<SupervisorOptions, ParseError>)
    ensures r == Parse(argv)
    ensures r.Ok? ==> Means(argv, r.value)
    ensures r.Err? ==> RefusedFor(argv, r.error)
  {
    hide Assign, FlagOf, Finish, Means, RefusedFor;
    if Parse(argv).Ok? {
      AcceptedIffMeant(argv, Parse(argv).value);
    } else {
      RefusedIffMeant(argv, Parse(argv).error);
    }
    var d := EMPTY_DRAFT;
    var index := 0;
    while index < |argv|
      invariant 0 <= index <= |argv|
      invariant ReadArguments(EMPTY_DRAFT, argv) == ReadArguments(d, argv[index..])
    {
      var rest := argv[index..];
      var flag := FlagOf(rest[0]);
      if flag.None? {
        return Err(UnknownArgument(rest[0]));
      }
      if flag.value.Execute? {
        d := d.(execute := true);
        assert rest[1..] == argv[index + 1..];
        index := index + 1;
      } else {
        var value := ValueAfter(rest);
        if value.None? {
          return Err(BadValue(flag.value));
        }
        var updated := Assign(d, flag.value, value.value);
        if updated.None? {
          return Err(BadValue(flag.value));
        }
        d := updated.value;
        assert rest[2..] == argv[index + 2..];
        index := index + 2;
      }
    }
    assert argv[index..] == [];
    r := Finish(d);
  }

  // ----- the order of settings

  /** Nothing but the last value of each flag counts, and whether execution was asked for. */
  lemma OnlyLastValuesCount(ss: seq<Setting>, tt: seq<Setting>)
    requires AllProper(ss) && AllProper(tt)
    requires forall flag :: Latest(ss, flag) == Latest(tt, flag)
    requires Switch in ss <==> Switch in tt
    ensures Parse(Line(ss)) == Parse(Line(tt))
  {
    hide ReadArguments, Latest, Finish, Line, AllProper;
    var d := LineIsRead(ss);
    var e := LineIsRead(tt);
    assert Leads(EMPTY_DRAFT, ss, e) by { SameChoice(ss, tt, e); }
    LeadsIsFunctional(ss, d, e);
  }

  lemma SameChoice(ss: seq<Setting>, tt: seq<Setting>, e: Draft)
    requires Leads(EMPTY_DRAFT, tt, e) && forall flag :: Latest(ss, flag) == Latest(tt, flag)
    requires Switch in ss <==> Switch in tt
    ensures Leads(EMPTY_DRAFT, ss, e)
  {
    hide Latest, OptionOf, Reading;
  }

  lemma {:induction false} LatestOfConcat(ss: seq<Setting>, tt: seq<Setting>, flag: Flag)
    ensures Latest(ss + tt, flag) == if Latest(tt, flag).Some? then Latest(tt, flag) else Latest(ss, flag)
  {
    if ss == [] {
      assert ss + tt == tt;
    } else {
      assert (ss + tt)[1..] == ss[1..] + tt;
      LatestOfConcat(ss[1..], tt, flag);
    }
  }

  /** Two neighbouring settings of different flags may be exchanged. */
  lemma SettingsCommute(before: seq<Setting>, s: Setting, t: Setting, after: seq<Setting>)
    requires AllProper(before + ([s, t] + after)) && (s.Valued? && t.Valued? ==> s.flag != t.flag)
    ensures Parse(Line(before + ([s, t] + after))) == Parse(Line(before + ([t, s] + after)))
  {
    hide Parse, Latest, Line;
    var ss, tt := before + ([s, t] + after), before + ([t, s] + after);
    forall flag ensures Latest(ss, flag) == Latest(tt, flag) {
      LatestOfConcat(before, [s, t] + after, flag);
      LatestOfConcat(before, [t, s] + after, flag);
      LatestOfConcat([s, t], after, flag);
      LatestOfConcat([t, s], after, flag);
      LatestOfConcat([s], [t], flag);
      LatestOfConcat([t], [s], flag);
      assert [s] + [t] == [s, t] && [t] + [s] == [t, s];
      LatestOfOne(s);
      LatestOfOne(t);
    }
    Exchanged(before, s, t, after);
    OnlyLastValuesCount(ss, tt);
  }

  lemma Exchanged(before: seq<Setting>, s: Setting, t: Setting, after: seq<Setting>)
    ensures var ss, tt := before + ([s, t] + after), before + ([t, s] + after);
      && (AllProper(ss) ==> AllProper(tt)) && (Switch in ss <==> Switch in tt)
  {
    hide Proper;
    var ss, tt, n := before + ([s, t] + after), before + ([t, s] + after), |before|;
    assert tt[n] == ss[n + 1] && tt[n + 1] == ss[n];
    assert forall i :: 0 <= i < |ss| && i != n && i != n + 1 ==> ss[i] == tt[i];
  }

  /** Of two settings of one flag the later one alone counts, wherever they stand. */
  lemma LaterSettingWins(before: seq<Setting>, s: Setting, between: seq<Setting>, t: Setting, after: seq<Setting>)
    requires AllProper(before + ([s] + (between + ([t] + after)))) && s.Valued? && t.Valued? && s.flag == t.flag
    ensures Parse(Line(before + ([s] + (between + ([t] + after))))) == Parse(Line(before + (between + ([t] + after))))
  {
    hide Parse, Latest, Line;
    var tail := between + ([t] + after);
    var ss, tt := before + ([s] + tail), before + tail;
    forall flag ensures Latest(ss, flag) == Latest(tt, flag) {
      LatestOfConcat(before, [s] + tail, flag);
      LatestOfConcat(before, tail, flag);
      LatestOfConcat([s], tail, flag);
      LatestOfConcat(between, [t] + after, flag);
      LatestOfConcat([t], after, flag);
      LatestOfOne(s);
      LatestOfOne(t);
    }
    Dropped(before, s, tail);
    OnlyLastValuesCount(ss, tt);
  }

  lemma Dropped(before: seq<Setting>, s: Setting, tail: seq<Setting>)
    requires s.Valued?
    ensures var ss, tt := before + ([s] + tail), before + tail;
      && (AllProper(ss) ==> AllProper(tt)) && (Switch in ss <==> Switch in tt)
  {
    hide Proper;
    var ss, tt, n := before + ([s] + tail), before + tail, |before|;
    assert forall i :: 0 <= i < n ==> ss[i] == tt[i];
    assert forall i :: n <= i < |tt| ==> ss[i + 1] == tt[i];
  }

  // ----- printing options

  /** The options that command lines can yield. */
  predicate Printable(so: SupervisorOptions) {
    && Parsed(so)
    && !Dashed(so.evidenceFile) && so.runnerScriptPath != "" && !Dashed(so.runnerScriptPath)
  }

  function TextSettings(so: SupervisorOptions): seq<Setting> {
    [ Valued(WalletAddress, so.walletAddress), Valued(CampaignIdPrefix, so.campaignIdPrefix),
      Valued(PolicyLabelPrefix, so.policyLabelPrefix), Valued(BaseUrl, so.baseUrl),
      Valued(EvidenceFile, so.evidenceFile), Valued(RunnerScript, so.runnerScriptPath) ]
  }

  function NumberSettings(so: SupervisorOptions): seq<Setting> {
    [ Valued(ChainId, PrintInt(so.chainId)), Valued(AuthorizedFinalBlock, PrintInt(so.authorizedFinalBlock)),
      Valued(CampaignMaxWindows, PrintInt(so.campaignMaxWindows)), Valued(WindowSize, PrintInt(so.windowSize)),
      Valued(CheckpointInterval, PrintInt(so.checkpointInterval)), Valued(PollIntervalMs, PrintInt(so.pollIntervalMs)),
      Valued(PollTimeoutMs, PrintInt(so.pollTimeoutMs)) ]
  }

  function OptionalSettings(so: SupervisorOptions): seq<Setting> {
    (if so.childEvidenceFile.Some? then [Valued(ChildEvidenceFile, so.childEvidenceFile.value)] else [])
    + (if so.execute then [Switch] else [])
  }

  /** A setting for each of the fifteen options. */
  function SettingsOf(so: SupervisorOptions): seq<Setting> {
    TextSettings(so) + (NumberSettings(so) + OptionalSettings(so))
  }

  function PrintedArguments(so: SupervisorOptions): seq<string> {
    Line(SettingsOf(so))
  }

  lemma SettingsAreProper(so: SupervisorOptions)
    requires Printable(so)
    ensures AllProper(SettingsOf(so))
  {
    hide IsAddress, Trimmed, PrintInt, Decimal.AllDigits, Decimal.Read, IsInteger;
    forall n | n > 0 ensures Decimal.IsNumeral(PrintInt(n)) && Decimal.Read(PrintInt(n)) == n && !Dashed(PrintInt(n)) {
      PrintedNumeral(n);
    }
    PrintedNumeral(so.authorizedFinalBlock);
    PrintedInt(so.windowSize);
    NumeralIsInteger(PrintInt(so.campaignMaxWindows));
    CampaignIdIsPlain(so.campaignIdPrefix);
    AddressIsPlain(so.walletAddress);
  }

  lemma PrintedNumeral(n: int)
    requires n >= 0
    ensures Decimal.IsNumeral(PrintInt(n)) && Decimal.Read(PrintInt(n)) == n && !Dashed(PrintInt(n))
  {
    PrintedInt(n);
    Decimal.ReadPrint(n);
  }

  lemma NumeralIsInteger(s: string)
    ensures Decimal.IsNumeral(s) ==> IsInteger(s)
  {
  }

  lemma CampaignIdIsPlain(id: string)
    requires Campaign.ValidCampaignId(id)
    ensures !Dashed(id)
  {
  }

  lemma AddressIsPlain(address: string)
    requires IsAddress(address)
    ensures !Dashed(address)
  {
  }

  /** A printed flag stands in one of the three groups alone. */
  lemma LatestInGroups(so: SupervisorOptions, flag: Flag)
    ensures Latest(SettingsOf(so), flag)
      == if Latest(OptionalSettings(so), flag).Some? then Latest(OptionalSettings(so), flag)
         else if Latest(NumberSettings(so), flag).Some? then Latest(NumberSettings(so), flag)
         else Latest(TextSettings(so), flag)
  {
    hide Latest, TextSettings, NumberSettings, OptionalSettings;
    LatestOfConcat(TextSettings(so), NumberSettings(so) + OptionalSettings(so), flag);
    LatestOfConcat(NumberSettings(so), OptionalSettings(so), flag);
  }

  /** Each printed text is the last value, and the only one, of its flag. */
  lemma LatestTexts(so: SupervisorOptions)
    ensures var ss := SettingsOf(so);
      && Latest(ss, WalletAddress) == Some(so.walletAddress)
      && Latest(ss, CampaignIdPrefix) == Some(so.campaignIdPrefix)
      && Latest(ss, PolicyLabelPrefix) == Some(so.policyLabelPrefix) && Latest(ss, BaseUrl) == Some(so.baseUrl)
      && Latest(ss, EvidenceFile) == Some(so.evidenceFile) && Latest(ss, RunnerScript) == Some(so.runnerScriptPath)
      && Latest(ss, ChildEvidenceFile) == so.childEvidenceFile
      && (Switch in ss <==> so.execute)
  {
    hide PrintInt, Latest, TextSettings, NumberSettings, OptionalSettings;
    TextPrinted(so);
    NumberPrinted(so);
    OptionalPrinted(so);
    LatestInGroups(so, WalletAddress);
    LatestInGroups(so, CampaignIdPrefix);
    LatestInGroups(so, PolicyLabelPrefix);
    LatestInGroups(so, BaseUrl);
    LatestInGroups(so, EvidenceFile);
    LatestInGroups(so, RunnerScript);
    LatestInGroups(so, ChildEvidenceFile);
  }

  /** So is each printed number. */
  lemma LatestNumbers(so: SupervisorOptions)
    ensures var ss := SettingsOf(so);
      && Latest(ss, ChainId) == Some(PrintInt(so.chainId))
      && Latest(ss, AuthorizedFinalBlock) == Some(PrintInt(so.authorizedFinalBlock))
      && Latest(ss, CampaignMaxWindows) == Some(PrintInt(so.campaignMaxWindows))
      && Latest(ss, WindowSize) == Some(PrintInt(so.windowSize))
      && Latest(ss, CheckpointInterval) == Some(PrintInt(so.checkpointInterval))
      && Latest(ss, PollIntervalMs) == Some(PrintInt(so.pollIntervalMs))
      && Latest(ss, PollTimeoutMs) == Some(PrintInt(so.pollTimeoutMs))
  {
    hide PrintInt, Latest, TextSettings, NumberSettings, OptionalSettings, SettingsOf;
    NumberPrinted(so);
    OptionalPrinted(so);
    LatestInGroups(so, ChainId);
    LatestInGroups(so, AuthorizedFinalBlock);
    LatestInGroups(so, CampaignMaxWindows);
    LatestInGroups(so, WindowSize);
    LatestInGroups(so, CheckpointInterval);
    LatestInGroups(so, PollIntervalMs);
    LatestInGroups(so, PollTimeoutMs);
  }

  lemma TextPrinted(so: SupervisorOptions)
    ensures var ss := TextSettings(so);
      && Latest(ss, WalletAddress) == Some(so.walletAddress)
      && Latest(ss, CampaignIdPrefix) == Some(so.campaignIdPrefix)
      && Latest(ss, PolicyLabelPrefix) == Some(so.policyLabelPrefix) && Latest(ss, BaseUrl) == Some(so.baseUrl)
      && Latest(ss, EvidenceFile) == Some(so.evidenceFile) && Latest(ss, RunnerScript) == Some(so.runnerScriptPath)
      && Latest(ss, ChildEvidenceFile) == None && Switch !in ss
  {
    var ss := TextSettings(so);
    forall i | 0 <= i < |ss| ensures Latest(ss, ss[i].flag) == Some(ss[i].value) {
      LatestOfApart(ss, i);
    }
    assert ss[0].flag == WalletAddress && ss[1].flag == CampaignIdPrefix && ss[2].flag == PolicyLabelPrefix;
    assert ss[3].flag == BaseUrl && ss[4].flag == EvidenceFile && ss[5].flag == RunnerScript;
    NeverGiven(ss, ChildEvidenceFile);
  }

  lemma NumberPrinted(so: SupervisorOptions)
    ensures var ss := NumberSettings(so);
      && Latest(ss, ChainId) == Some(PrintInt(so.chainId))
      && Latest(ss, AuthorizedFinalBlock) == Some(PrintInt(so.authorizedFinalBlock))
      && Latest(ss, CampaignMaxWindows) == Some(PrintInt(so.campaignMaxWindows))
      && Latest(ss, WindowSize) == Some(PrintInt(so.windowSize))
      && Latest(ss, CheckpointInterval) == Some(PrintInt(so.checkpointInterval))
      && Latest(ss, PollIntervalMs) == Some(PrintInt(so.pollIntervalMs))
      && Latest(ss, PollTimeoutMs) == Some(PrintInt(so.pollTimeoutMs))
      && (forall flag :: Textual(flag) ==> Latest(ss, flag) == None) && Switch !in ss
  {
    hide PrintInt, Latest;
    var ss := NumberSettings(so);
    forall i | 0 <= i < |ss| ensures Latest(ss, ss[i].flag) == Some(ss[i].value) {
      LatestOfApart(ss, i);
    }
    assert ss[0].flag == ChainId && ss[1].flag == AuthorizedFinalBlock && ss[2].flag == CampaignMaxWindows;
    assert ss[3].flag == WindowSize && ss[4].flag == CheckpointInterval && ss[5].flag == PollIntervalMs;
    assert ss[6].flag == PollTimeoutMs;
    forall flag | Textual(flag) ensures Latest(ss, flag) == None {
      NeverGiven(ss, flag);
    }
  }

  lemma OptionalPrinted(so: SupervisorOptions)
    ensures var ss := OptionalSettings(so);
      && Latest(ss, ChildEvidenceFile) == so.childEvidenceFile && (Switch in ss <==> so.execute)
      && forall flag :: flag != ChildEvidenceFile ==> Latest(ss, flag) == None
  {
    var ss := OptionalSettings(so);
    if so.childEvidenceFile.Some? {
      LatestOfApart(ss, 0);
    } else {
      NeverGiven(ss, ChildEvidenceFile);
    }
    forall flag | flag != ChildEvidenceFile ensures Latest(ss, flag) == None {
      NeverGiven(ss, flag);
    }
  }

  /** A flag given once has the value given. */
  lemma {:induction false} LatestOfApart(ss: seq<Setting>, i: nat)
    requires i < |ss| && ss[i].Valued?
    requires forall j :: i < j < |ss| ==> ss[j].Switch? || ss[j].flag != ss[i].flag
    ensures Latest(ss, ss[i].flag) == Some(ss[i].value)
  {
    if i == 0 {
      assert forall j :: 0 <= j < |ss[1..]| ==> ss[1..][j] == ss[j + 1];
      NeverGiven(ss[1..], ss[0].flag);
    } else {
      LatestOfApart(ss[1..], i - 1);
    }
  }

  lemma {:induction false} NeverGiven(ss: seq<Setting>, flag: Flag)
    requires forall j :: 0 <= j < |ss| ==> ss[j].Switch? || ss[j].flag != flag
    ensures Latest(ss, flag) == None
  {
    if ss != [] {
      assert forall j :: 0 <= j < |ss[1..]| ==> ss[1..][j] == ss[j + 1];
      NeverGiven(ss[1..], flag);
    }
  }

  lemma SettingsYield(so: SupervisorOptions)
    requires Printable(so)
    ensures Yields(SettingsOf(so), so)
  {
    hide PrintInt, Latest, SettingsOf, IsAddress, Trimmed, ReadInt, Campaign.ValidCampaignId;
    LatestTexts(so);
    LatestNumbers(so);
    forall n: int ensures ReadInt(PrintInt(n)) == Some(n) {
      PrintedInt(n);
    }
  }

  lemma GatesOfPrintable(so: SupervisorOptions)
    requires Parsed(so)
    ensures forall j :: 0 <= j < |GATES| ==> Passes(so, j)
  {
    hide Campaign.ValidCampaignId;
  }

  /** Printing all fifteen options gives a command line that is read back as those options. */
  lemma PrintedIsReadBack(so: SupervisorOptions)
    requires Printable(so)
    ensures Parse(PrintedArguments(so)) == Ok(so)
  {
    hide Parse, Line, Yields, SettingsOf, Parsed, Passes;
    SettingsAreProper(so);
    SettingsYield(so);
    GatesOfPrintable(so);
    AcceptedIffMeant(PrintedArguments(so), so);
  }

  /** Options are the meaning of some command line exactly if they are printable. */
  lemma PrintableIffMeant(so: SupervisorOptions)
    ensures Printable(so) <==> exists argv :: Parse(argv) == Ok(so)
  {
    hide Parse, Parsed;
    if Printable(so) {
      PrintedIsReadBack(so);
    }
    if exists argv :: Parse(argv) == Ok(so) {
      var argv :| Parse(argv) == Ok(so);
      AcceptedOptionsAreParsed(argv);
      PathsArePlain(argv, so);
    }
  }

  lemma PathsArePlain(argv: seq<string>, so: SupervisorOptions)
    requires Parse(argv) == Ok(so)
    ensures !Dashed(so.evidenceFile) && so.runnerScriptPath != "" && !Dashed(so.runnerScriptPath)
  {
    hide Parse, Latest, Line, AllProper, GivenNumber, NumberOrDefault;
    AcceptedIffMeant(argv, so);
    var ss :| AllProper(ss) && argv == Line(ss) && Yields(ss, so);
    LatestIsProper(ss, EvidenceFile);
    LatestIsProper(ss, RunnerScript);
    DefaultPaths();
  }

  lemma DefaultPaths()
    ensures !Dashed("operator-evidence/" + "wallet-forward-supervisor/evidence.jsonl")
    ensures !Dashed("scripts/wallet-forward-campaign-runner.ts")
  {
    assert "operator-evidence/"[0] == 'o';
    assert "scripts/wallet-forward-campaign-runner.ts"[0] == 's';
  }
}
