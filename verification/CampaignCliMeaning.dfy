/** What a campaign's command line means: each of its eighteen flags sets its own option and
    the last value given counts; every refusal names the first thing wrong. */
module CampaignCliMeaning {
  import opened Base
  import opened CommandLine
  import opened CampaignPlan
  import opened CampaignCli
  import Decimal

  lemma FlagIsText(flag: Flag, text: string)
    requires FlagOf(text) == Some(flag)
    ensures text == FlagText(flag)
  {
    hide FlagOf, FlagText;
    if flag.Execute? || flag.RecoveryMode? || flag.RecoveryOfRunId? || flag.WalletAddress? || flag.ChainId?
      || flag.ExpectedCursorFrom? {
      EarlyFlagIsText(flag, text);
    } else if flag.ExpectedCursorTo? || flag.FirstWindowStart? || flag.WindowSize? || flag.MaxWindows?
      || flag.AuthorizedFinalBlock? || flag.CampaignId? {
      MiddleFlagIsText(flag, text);
    } else if flag.PolicyLabelPrefix? || flag.CheckpointInterval? || flag.BaseUrl? {
      LateFlagIsText(flag, text);
    } else {
      LastFlagIsText(flag, text);
    }
  }

  lemma EarlyFlagIsText(flag: Flag, text: string)
    requires || flag.Execute? || flag.RecoveryMode? || flag.RecoveryOfRunId? || flag.WalletAddress? || flag.ChainId?
             || flag.ExpectedCursorFrom?
    requires FlagOf(text) == Some(flag)
    ensures text == FlagText(flag)
  {
  }

  lemma MiddleFlagIsText(flag: Flag, text: string)
    requires || flag.ExpectedCursorTo? || flag.FirstWindowStart? || flag.WindowSize? || flag.MaxWindows?
             || flag.AuthorizedFinalBlock? || flag.CampaignId?
    requires FlagOf(text) == Some(flag)
    ensures text == FlagText(flag)
  {
  }

  lemma LateFlagIsText(flag: Flag, text: string)
    requires flag.PolicyLabelPrefix? || flag.CheckpointInterval? || flag.BaseUrl?
    requires FlagOf(text) == Some(flag)
    ensures text == FlagText(flag)
  {
  }

  lemma LastFlagIsText(flag: Flag, text: string)
    requires flag.EvidenceFile? || flag.PollIntervalMs? || flag.PollTimeoutMs?
    requires FlagOf(text) == Some(flag)
    ensures text == FlagText(flag)
  {
  }

  // ----- command lines as settings

  /** One flag of a command line, with its value if it takes one. */
  datatype Setting = Switch(flag: Flag) | Valued(flag: Flag, value: string)

  function Words(s: Setting): seq<string> {
    match s
    case Switch(flag) => [FlagText(flag)]
    case Valued(flag, value) => [FlagText(flag), value]
  }

  function Line(ss: seq<Setting>): seq<string> {
    if ss == [] then [] else Words(ss[0]) + Line(ss[1..])
  }

  /** The values a flag takes. */
  predicate ValueOk(flag: Flag, value: string) {
    match flag
    case Execute => false
    case RecoveryMode => false
    case RecoveryOfRunId => !Blank(value)
    case WalletAddress => IsAddress(value)
    case MaxWindows => IsInteger(value)
    case WindowSize => Decimal.IsNumeral(value) && value != "0"
    case PolicyLabelPrefix => value != "" && Trimmed(value)
    case CheckpointInterval => Decimal.IsNumeral(value) && Decimal.Read(value) > 0
    case PollIntervalMs => Decimal.IsNumeral(value) && Decimal.Read(value) > 0
    case PollTimeoutMs => Decimal.IsNumeral(value) && Decimal.Read(value) > 0
    case CampaignId => true
    case BaseUrl => true
    case EvidenceFile => true
    case _ => Decimal.IsNumeral(value)
  }

  predicate Proper(s: Setting) {
    match s
    case Switch(flag) => flag.Execute? || flag.RecoveryMode?
    case Valued(flag, value) => !Dashed(value) && ValueOk(flag, value)
  }

  predicate AllProper(ss: seq<Setting>) {
    forall i :: 0 <= i < |ss| ==> Proper(ss[i])
  }

  /** The last value given for a flag. */
  function Latest(ss: seq<Setting>, flag: Flag): Option<string> {
    if ss == [] then None
    else
      match Latest(ss[1..], flag)
      case Some(value) => Some(value)
      case None => if ss[0].Valued? && ss[0].flag == flag then Some(ss[0].value) else None
  }

  lemma LatestOfOne(s: Setting)
    ensures forall flag :: Latest([s], flag) == if s.Valued? && s.flag == flag then Some(s.value) else None
  {
    assert [s][1..] == [];
  }

  lemma {:induction false} LatestIsProper(ss: seq<Setting>, flag: Flag)
    requires AllProper(ss)
    ensures Latest(ss, flag).Some? ==> ValueOk(flag, Latest(ss, flag).value) && !Dashed(Latest(ss, flag).value)
  {
    if ss != [] {
      LatestIsProper(ss[1..], flag);
    }
  }

  // ----- the meaning of settings

  datatype Value = Text(text: Option<string>) | Number(number: Option<int>)

  /** The option a flag sets. */
  function OptionOf(d: Draft, flag: Flag): Value {
    match flag
    case Execute => Number(Some(if d.execute then 1 else 0))
    case RecoveryMode => Number(Some(if d.recoveryMode then 1 else 0))
    case RecoveryOfRunId => Text(d.recoveryOfRunId)
    case WalletAddress => Text(d.walletAddress)
    case ChainId => Number(d.chainId)
    case ExpectedCursorFrom => Number(d.expectedCursorFrom)
    case ExpectedCursorTo => Number(d.expectedCursorTo)
    case FirstWindowStart => Number(d.firstWindowStart)
    case WindowSize => Number(d.windowSize)
    case MaxWindows => Number(d.maxWindows)
    case AuthorizedFinalBlock => Number(d.authorizedFinalBlock)
    case CampaignId => Text(d.campaignId)
    case PolicyLabelPrefix => Text(d.policyLabelPrefix)
    case CheckpointInterval => Number(Some(d.checkpointInterval))
    case BaseUrl => Text(d.baseUrl)
    case EvidenceFile => Text(Some(d.evidenceFile))
    case PollIntervalMs => Number(Some(d.pollIntervalMs))
    case PollTimeoutMs => Number(Some(d.pollTimeoutMs))
  }

  /** What a flag's value stands for. */
  function Reading(flag: Flag, value: string): Value {
    if flag.WalletAddress? then Text(Some(LowerCase(value)))
    else if Textual(flag) then Text(Some(value))
    else Number(ReadInt(value))
  }

  function Chosen(ss: seq<Setting>, flag: Flag, default: Value): Value {
    match Latest(ss, flag)
    case None => default
    case Some(value) => Reading(flag, value)
  }

  /** Starting from one draft, the settings lead to the other: each option is the last one
      given for its flag, and kept where none is given. */
  ghost predicate Leads(d: Draft, ss: seq<Setting>, r: Draft) {
    && r.execute == (d.execute || Switch(Execute) in ss)
    && r.recoveryMode == (d.recoveryMode || Switch(RecoveryMode) in ss)
    && forall flag :: TakesValue(flag) ==> OptionOf(r, flag) == Chosen(ss, flag, OptionOf(d, flag))
  }

  /** A numeral reads alike as a number and as an integer. */
  lemma NumeralReads(value: string)
    requires Decimal.IsNumeral(value)
    ensures ReadInt(value) == Some(Decimal.Read(value)) && ReadNat(value) == Some(Decimal.Read(value))
    ensures Decimal.Read(value) > 0 ==> ReadPositive(value) == Some(Decimal.Read(value))
  {
    assert Decimal.IsDigit(value[0]) && !Decimal.IsDigit('-');
  }

  lemma AcceptedValues(d: Draft, flag: Flag, value: string)
    requires TakesValue(flag)
    ensures Assign(d, flag, value).Some? <==> ValueOk(flag, value)
    ensures Decimal.IsNumeral(value) ==> ReadInt(value) == ReadNat(value) == Some(Decimal.Read(value))
    ensures Decimal.IsNumeral(value) && Decimal.Read(value) > 0 ==> ReadPositive(value) == Some(Decimal.Read(value))
  {
    hide IsAddress, Trimmed, LowerCase;
    if Decimal.IsNumeral(value) {
      NumeralReads(value);
    }
  }

  function After(d: Draft, s: Setting): Draft
    requires Proper(s)
  {
    match s
    case Switch(flag) => if flag.Execute? then d.(execute := true) else d.(recoveryMode := true)
    case Valued(flag, value) =>
      AcceptedValues(d, flag, value);
      Assign(d, flag, value).value
  }

  /** One setting changes its own option alone, to what its value stands for. */
  lemma OneOptionChanges(d: Draft, flag: Flag, value: string)
    requires TakesValue(flag) && ValueOk(flag, value) && Assign(d, flag, value).Some?
    ensures var r := Assign(d, flag, value).value;
      && r.execute == d.execute && r.recoveryMode == d.recoveryMode
      && forall g :: OptionOf(r, g) == if g == flag then Reading(flag, value) else OptionOf(d, g)
  {
    hide Assign, OptionOf, Reading, ValueOk;
    if Textual(flag) {
      TextChanges(d, flag, value);
    } else {
      NumberChanges(d, flag, value);
    }
  }

  lemma TextChanges(d: Draft, flag: Flag, value: string)
    requires TakesValue(flag) && Textual(flag) && Assign(d, flag, value).Some?
    ensures var r := Assign(d, flag, value).value;
      && r.execute == d.execute && r.recoveryMode == d.recoveryMode
      && forall g :: OptionOf(r, g) == if g == flag then Reading(flag, value) else OptionOf(d, g)
  {
    hide IsAddress, Trimmed, LowerCase, ReadInt;
  }

  lemma NumberChanges(d: Draft, flag: Flag, value: string)
    requires TakesValue(flag) && !Textual(flag) && ValueOk(flag, value) && Assign(d, flag, value).Some?
    ensures var r := Assign(d, flag, value).value;
      && r.execute == d.execute && r.recoveryMode == d.recoveryMode
      && forall g :: OptionOf(r, g) == if g == flag then Reading(flag, value) else OptionOf(d, g)
  {
    hide ReadInt, ReadNat, ReadPositive, Decimal.Read, Decimal.IsNumeral, IsInteger;
    AcceptedValues(d, flag, value);
  }

  lemma {:induction false} SettingsLead(d: Draft, ss: seq<Setting>, rest: seq<string>) returns (r: Draft)
    requires AllProper(ss)
    ensures Leads(d, ss, r) && ReadArguments(d, Line(ss) + rest) == ReadArguments(r, rest)
    decreases |ss|
  {
    hide ReadArguments, After, Leads, Words;
    if ss == [] {
      r := d;
      assert Line(ss) + rest == rest;
      NothingLeads(d);
    } else {
      var tail := Line(ss[1..]) + rest;
      assert Line(ss) + rest == Words(ss[0]) + tail;
      OneSettingIsRead(d, ss[0], tail);
      r := SettingsLead(After(d, ss[0]), ss[1..], rest);
      StepLeads(d, ss, r);
    }
  }

  lemma OneSettingIsRead(d: Draft, s: Setting, rest: seq<string>)
    requires Proper(s)
    ensures ReadArguments(d, Words(s) + rest) == ReadArguments(After(d, s), rest)
  {
    hide Assign, FlagOf, FlagText, ValueOk;
    match s
    case Switch(flag) =>
      FlagRoundTrip(flag);
      assert ([FlagText(flag)] + rest)[1..] == rest;
    case Valued(flag, value) =>
      NoSwitchValue(flag, value);
      AcceptedValues(d, flag, value);
      assert Words(s) == CampaignCli.Setting(flag, value);
      ReadSetting(d, flag, value, rest);
  }

  lemma NoSwitchValue(flag: Flag, value: string)
    requires ValueOk(flag, value)
    ensures TakesValue(flag)
  {
  }

  lemma StepLeads(d: Draft, ss: seq<Setting>, r: Draft)
    requires ss != [] && Proper(ss[0]) && Leads(After(d, ss[0]), ss[1..], r)
    ensures Leads(d, ss, r)
  {
    hide Assign, OptionOf, Reading, ValueOk;
    assert ss == [ss[0]] + ss[1..];
    match ss[0]
    case Switch(_) => SwitchChangesNothingElse(d);
    case Valued(flag, value) =>
      NoSwitchValue(flag, value);
      AcceptedValues(d, flag, value);
      OneOptionChanges(d, flag, value);
  }

  lemma SwitchChangesNothingElse(d: Draft)
    ensures forall g :: TakesValue(g) ==> OptionOf(d.(execute := true), g) == OptionOf(d, g)
    ensures forall g :: TakesValue(g) ==> OptionOf(d.(recoveryMode := true), g) == OptionOf(d, g)
  {
  }

  /** Whatever is read without an error is a sequence of proper settings. */
  lemma {:induction false} ReadIsSettings(d: Draft, argv: seq<string>) returns (ss: seq<Setting>)
    requires ReadArguments(d, argv).Ok?
    ensures AllProper(ss) && Line(ss) == argv
    decreases |argv|
  {
    hide Assign, FlagOf, FlagText, ValueOk;
    if argv == [] {
      ss := [];
    } else {
      var flag := FlagOf(argv[0]).value;
      FlagIsText(flag, argv[0]);
      if flag.Execute? || flag.RecoveryMode? {
        var rest := ReadIsSettings(if flag.Execute? then d.(execute := true) else d.(recoveryMode := true), argv[1..]);
        ss := [Switch(flag)] + rest;
        assert argv == [argv[0]] + argv[1..];
      } else {
        AcceptedValues(d, flag, argv[1]);
        var rest := ReadIsSettings(Assign(d, flag, argv[1]).value, argv[2..]);
        ss := [Valued(flag, argv[1])] + rest;
        assert argv == [argv[0], argv[1]] + argv[2..];
      }
    }
  }

  // ----- what an accepted command line yields

  /** The number given last for a flag. */
  predicate GivenNumber(ss: seq<Setting>, flag: Flag, n: int) {
    Latest(ss, flag).Some? && ReadInt(Latest(ss, flag).value) == Some(n)
  }

  predicate NumberOrDefault(ss: seq<Setting>, flag: Flag, n: int, default: int) {
    if Latest(ss, flag).None? then n == default else GivenNumber(ss, flag, n)
  }

  predicate TextOrDefault(ss: seq<Setting>, flag: Flag, text: string, default: string) {
    text == if Latest(ss, flag).None? then default else Latest(ss, flag).value
  }

  /** Each option is the last value given for its own flag; four have a default. A source
      run is named exactly if recovery is asked for. */
  predicate Yields(ss: seq<Setting>, o: Options) {
    && o.execute == (Switch(Execute) in ss)
    && Latest(ss, WalletAddress).Some? && o.walletAddress == LowerCase(Latest(ss, WalletAddress).value)
    && GivenNumber(ss, ChainId, o.chainId)
    && GivenNumber(ss, ExpectedCursorFrom, o.expectedCursorFrom)
    && GivenNumber(ss, ExpectedCursorTo, o.expectedCursorTo)
    && GivenNumber(ss, FirstWindowStart, o.firstWindowStart)
    && GivenNumber(ss, WindowSize, o.windowSize)
    && GivenNumber(ss, MaxWindows, o.maxWindows)
    && GivenNumber(ss, AuthorizedFinalBlock, o.authorizedFinalBlock)
    && Latest(ss, CampaignId) == Some(o.campaignId)
    && Latest(ss, PolicyLabelPrefix) == Some(o.policyLabelPrefix)
    && NumberOrDefault(ss, CheckpointInterval, o.checkpointInterval, 25)
    && Latest(ss, BaseUrl) == Some(o.baseUrl)
    && TextOrDefault(ss, EvidenceFile, o.evidenceFile,
         "operator-evidence/wallet-forward-campaign-runner/evidence.jsonl")
    && NumberOrDefault(ss, PollIntervalMs, o.pollIntervalMs, 5000)
    && NumberOrDefault(ss, PollTimeoutMs, o.pollTimeoutMs, 1200000)
    && o.recovery == (if Switch(RecoveryMode) in ss then Latest(ss, RecoveryOfRunId) else None)
  }

  lemma NothingLeads(d: Draft)
    ensures Leads(d, [], d)
  {
  }

  /** A complete draft to which settings lead holds the options they yield. */
  lemma AssembledIsYielded(ss: seq<Setting>, d: Draft)
    requires AllProper(ss) && Leads(EMPTY_DRAFT, ss, d) && FirstMissing(d).None?
    ensures Yields(ss, Assemble(d))
  {
    hide Leads, ReadInt, LowerCase, ValueOk, Latest, AllProper;
    ChosenTexts(ss, d);
    ChosenNumbers(ss, d);
    ChosenBlocks(ss, d);
  }

  /** The first flag missing from a draft is the first required one that is not given. */
  lemma MissingInOrder(ss: seq<Setting>, d: Draft, i: nat)
    requires AllProper(ss) && Leads(EMPTY_DRAFT, ss, d) && i < |REQUIRED|
    ensures FirstMissing(d) == Some(REQUIRED[i]) <==> !Given(ss, i) && forall j :: 0 <= j < i ==> Given(ss, j)
    ensures FirstMissing(d).None? <==> forall j :: 0 <= j < |REQUIRED| ==> Given(ss, j)
  {
    hide Leads, ReadInt, LowerCase, ValueOk, Latest, AllProper, Given;
    GivenFields(ss, d);
  }

  /** The required fields of a draft, in the order of their flags. */
  lemma GivenFields(ss: seq<Setting>, d: Draft)
    requires AllProper(ss) && Leads(EMPTY_DRAFT, ss, d)
    ensures (Given(ss, 0) <==> d.walletAddress.Some?) && (Given(ss, 1) <==> d.chainId.Some?)
    ensures (Given(ss, 2) <==> d.expectedCursorFrom.Some?) && (Given(ss, 3) <==> d.expectedCursorTo.Some?)
    ensures (Given(ss, 4) <==> d.firstWindowStart.Some?) && (Given(ss, 5) <==> d.windowSize.Some?)
    ensures (Given(ss, 6) <==> d.maxWindows.Some?) && (Given(ss, 7) <==> d.authorizedFinalBlock.Some?)
    ensures (Given(ss, 8) <==> d.campaignId.Some?) && (Given(ss, 9) <==> d.policyLabelPrefix.Some?)
    ensures Given(ss, 10) <==> d.baseUrl.Some?
  {
    hide Leads, Latest, AllProper, NumberOrDefault, TextOrDefault, NumberGiven;
    ChosenTexts(ss, d);
    ChosenNumbers(ss, d);
    ChosenBlocks(ss, d);
    GivenReads(ss, ChainId);
    GivenReads(ss, ExpectedCursorFrom);
    GivenReads(ss, ExpectedCursorTo);
    GivenReads(ss, FirstWindowStart);
    GivenReads(ss, WindowSize);
    GivenReads(ss, MaxWindows);
    GivenReads(ss, AuthorizedFinalBlock);
  }

  lemma GivenReads(ss: seq<Setting>, flag: Flag)
    requires AllProper(ss) && Numeric(flag)
    ensures NumberGiven(ss, flag).Some? <==> Latest(ss, flag).Some?
  {
    hide ReadInt, Latest, ValueOk;
    if Latest(ss, flag).Some? {
      LatestIsProper(ss, flag);
      NumberReads(flag, Latest(ss, flag).value);
    }
  }

  const REQUIRED: seq<Flag> :=
    [WalletAddress, ChainId, ExpectedCursorFrom, ExpectedCursorTo, FirstWindowStart, WindowSize, MaxWindows,
     AuthorizedFinalBlock, CampaignId, PolicyLabelPrefix, BaseUrl]

  /** The i-th required flag is given. */
  predicate Given(ss: seq<Setting>, i: nat)
    requires i < |REQUIRED|
  {
    Latest(ss, REQUIRED[i]).Some?
  }

  predicate Numeric(flag: Flag) {
    !Textual(flag) && TakesValue(flag)
  }

  lemma NumberReads(flag: Flag, value: string)
    requires Numeric(flag) && ValueOk(flag, value)
    ensures ReadInt(value).Some?
  {
  }

  lemma ChosenFor(ss: seq<Setting>, d: Draft, flag: Flag)
    requires Leads(EMPTY_DRAFT, ss, d) && TakesValue(flag)
    ensures OptionOf(d, flag) == Chosen(ss, flag, OptionOf(EMPTY_DRAFT, flag))
  {
    hide OptionOf, Chosen;
  }

  lemma ChosenTexts(ss: seq<Setting>, d: Draft)
    requires Leads(EMPTY_DRAFT, ss, d)
    ensures d.walletAddress == match Latest(ss, WalletAddress) case None => None case Some(v) => Some(LowerCase(v))
    ensures d.campaignId == Latest(ss, CampaignId) && d.policyLabelPrefix == Latest(ss, PolicyLabelPrefix)
    ensures d.baseUrl == Latest(ss, BaseUrl) && d.recoveryOfRunId == Latest(ss, RecoveryOfRunId)
    ensures TextOrDefault(ss, EvidenceFile, d.evidenceFile, DEFAULT_EVIDENCE_FILE)
  {
    hide LowerCase, Latest, Leads;
    ChosenFor(ss, d, WalletAddress);
    ChosenFor(ss, d, CampaignId);
    ChosenFor(ss, d, PolicyLabelPrefix);
    ChosenFor(ss, d, BaseUrl);
    ChosenFor(ss, d, RecoveryOfRunId);
    ChosenFor(ss, d, EvidenceFile);
  }

  function NumberGiven(ss: seq<Setting>, flag: Flag): Option<int> {
    match Latest(ss, flag)
    case None => None
    case Some(value) => ReadInt(value)
  }

  lemma ChosenBlocks(ss: seq<Setting>, d: Draft)
    requires Leads(EMPTY_DRAFT, ss, d)
    ensures d.authorizedFinalBlock == NumberGiven(ss, AuthorizedFinalBlock)
    ensures d.expectedCursorFrom == NumberGiven(ss, ExpectedCursorFrom)
    ensures d.expectedCursorTo == NumberGiven(ss, ExpectedCursorTo)
    ensures d.firstWindowStart == NumberGiven(ss, FirstWindowStart)
  {
    hide ReadInt, Latest, Leads;
    ChosenFor(ss, d, AuthorizedFinalBlock);
    ChosenFor(ss, d, ExpectedCursorFrom);
    ChosenFor(ss, d, ExpectedCursorTo);
    ChosenFor(ss, d, FirstWindowStart);
  }

  lemma ChosenNumbers(ss: seq<Setting>, d: Draft)
    requires Leads(EMPTY_DRAFT, ss, d)
    ensures d.execute == (Switch(Execute) in ss) && d.recoveryMode == (Switch(RecoveryMode) in ss)
    ensures d.chainId == NumberGiven(ss, ChainId)
    ensures d.maxWindows == NumberGiven(ss, MaxWindows) && d.windowSize == NumberGiven(ss, WindowSize)
    ensures NumberOrDefault(ss, CheckpointInterval, d.checkpointInterval, 25)
    ensures NumberOrDefault(ss, PollIntervalMs, d.pollIntervalMs, 5000)
    ensures NumberOrDefault(ss, PollTimeoutMs, d.pollTimeoutMs, 1200000)
  {
    SwitchesChosen(ss, d);
    hide ReadInt, Latest, Leads;
    ChosenFor(ss, d, ChainId);
    ChosenFor(ss, d, MaxWindows);
    ChosenFor(ss, d, WindowSize);
    ChosenFor(ss, d, CheckpointInterval);
    ChosenFor(ss, d, PollIntervalMs);
    ChosenFor(ss, d, PollTimeoutMs);
  }

  lemma SwitchesChosen(ss: seq<Setting>, d: Draft)
    requires Leads(EMPTY_DRAFT, ss, d)
    ensures d.execute == (Switch(Execute) in ss) && d.recoveryMode == (Switch(RecoveryMode) in ss)
  {
    hide OptionOf, Chosen;
  }

  /** What a gate refuses, stated independently of the others. */
  ghost predicate Fails(ss: seq<Setting>, o: Options, gate: Gate) {
    match gate
    case SupportedChain => o.chainId != 369
    case WindowSizeCap => o.windowSize < 1 || o.windowSize > 1001
    case ExactWindowSize => o.windowSize != 1000
    case WindowLimit => !(1 <= o.maxWindows <= 1000)
    case CampaignIdShape => !ValidCampaignId(o.campaignId)
    case CheckpointSpacing => !(1 <= o.checkpointInterval <= 25)
    case BoundaryAlignment =>
      forall n :: 1 <= n <= MAX_WINDOWS_HARD_CAP ==>
        o.authorizedFinalBlock != WindowEdge(o.firstWindowStart, o.windowSize, n) - 1
    case RecoveryFlags => (Switch(RecoveryMode) in ss) != Latest(ss, RecoveryOfRunId).Some?
    case LabelLength =>
      && o.maxWindows >= 1
      && |WindowLabel(o.policyLabelPrefix, o.campaignId, (if o.recovery.Some? then 2 else 1) + o.maxWindows - 1)| > 128
  }

  const GATES: seq<Gate> :=
    [SupportedChain, WindowSizeCap, ExactWindowSize, WindowLimit, CampaignIdShape, CheckpointSpacing, BoundaryAlignment,
     RecoveryFlags, LabelLength]

  /** The i-th gate is passed. */
  ghost predicate Passes(ss: seq<Setting>, o: Options, i: nat)
    requires i < |GATES|
  {
    !Fails(ss, o, GATES[i])
  }

  lemma GatesInOrder(ss: seq<Setting>, d: Draft, i: nat)
    requires AllProper(ss) && Leads(EMPTY_DRAFT, ss, d) && FirstMissing(d).None? && i < |GATES|
    ensures var o := Assemble(d);
      && (FailingGate(d) == Some(GATES[i]) <==> !Passes(ss, o, i) && forall j :: 0 <= j < i ==> Passes(ss, o, j))
      && (FailingGate(d).None? <==> forall j :: 0 <= j < |GATES| ==> Passes(ss, o, j))
  {
    hide Leads, ReadInt, LowerCase, ValueOk, Latest, AllProper, NumberOrDefault, TextOrDefault, ValidCampaignId,
      WindowEdge, WindowLabel;
    ChosenTexts(ss, d);
    ChosenNumbers(ss, d);
    ChosenBlocks(ss, d);
    var o := Assemble(d);
    assert Passes(ss, o, 0) <==> o.chainId == 369;
    assert Passes(ss, o, 1) <==> 1 <= o.windowSize <= 1001;
    assert Passes(ss, o, 2) <==> o.windowSize == 1000;
    assert Passes(ss, o, 3) <==> 1 <= o.maxWindows <= 1000;
    assert Passes(ss, o, 4) <==> ValidCampaignId(o.campaignId);
    assert Passes(ss, o, 5) <==> 1 <= o.checkpointInterval <= 25;
    assert Passes(ss, o, 6) <==> !Fails(ss, o, BoundaryAlignment);
    assert Passes(ss, o, 7) <==> d.recoveryMode == d.recoveryOfRunId.Some?;
    assert Passes(ss, o, 8) <==> !Fails(ss, o, LabelLength);
    if o.windowSize == 1000 {
      AlignmentGate(ss, o);
    }
  }

  lemma AlignmentGate(ss: seq<Setting>, o: Options)
    requires o.windowSize == 1000
    ensures AlignFinalBlock(o.firstWindowStart, o.windowSize, o.authorizedFinalBlock).Aligned?
       <==> !Fails(ss, o, BoundaryAlignment)
  {
  }

  // ----- theorems

  /** The draft that a sequence of proper settings leads to from the start. */
  lemma LineIsRead(ss: seq<Setting>) returns (d: Draft)
    requires AllProper(ss)
    ensures Leads(EMPTY_DRAFT, ss, d) && ReadArguments(EMPTY_DRAFT, Line(ss)) == Ok(d)
  {
    hide Leads, Line;
    d := SettingsLead(EMPTY_DRAFT, ss, []);
    assert Line(ss) + [] == Line(ss);
  }

  /** Settings determine the draft they lead to. */
  lemma LeadsIsFunctional(ss: seq<Setting>, d: Draft, e: Draft)
    requires Leads(EMPTY_DRAFT, ss, d) && Leads(EMPTY_DRAFT, ss, e)
    ensures d == e
  {
    hide Chosen;
    SameOptions(d, e);
  }

  lemma SameOptions(d: Draft, e: Draft)
    requires d.execute == e.execute && d.recoveryMode == e.recoveryMode
    requires forall flag :: TakesValue(flag) ==> OptionOf(d, flag) == OptionOf(e, flag)
    ensures d == e
  {
    hide OptionOf;
    SameTexts(d, e);
    SameNumbers(d, e);
    SameBlocks(d, e);
  }

  lemma SameTexts(d: Draft, e: Draft)
    requires forall flag :: TakesValue(flag) ==> OptionOf(d, flag) == OptionOf(e, flag)
    ensures d.walletAddress == e.walletAddress && d.campaignId == e.campaignId
    ensures d.policyLabelPrefix == e.policyLabelPrefix && d.baseUrl == e.baseUrl
    ensures d.evidenceFile == e.evidenceFile && d.recoveryOfRunId == e.recoveryOfRunId
  {
    assert OptionOf(d, WalletAddress) == OptionOf(e, WalletAddress)
      && OptionOf(d, CampaignId) == OptionOf(e, CampaignId);
    assert OptionOf(d, PolicyLabelPrefix) == OptionOf(e, PolicyLabelPrefix);
    assert OptionOf(d, BaseUrl) == OptionOf(e, BaseUrl) && OptionOf(d, EvidenceFile) == OptionOf(e, EvidenceFile);
    assert OptionOf(d, RecoveryOfRunId) == OptionOf(e, RecoveryOfRunId);
  }

  lemma SameNumbers(d: Draft, e: Draft)
    requires forall flag :: TakesValue(flag) ==> OptionOf(d, flag) == OptionOf(e, flag)
    ensures d.chainId == e.chainId && d.maxWindows == e.maxWindows && d.windowSize == e.windowSize
    ensures d.checkpointInterval == e.checkpointInterval
    ensures d.pollIntervalMs == e.pollIntervalMs && d.pollTimeoutMs == e.pollTimeoutMs
  {
    assert OptionOf(d, ChainId) == OptionOf(e, ChainId);
    assert OptionOf(d, MaxWindows) == OptionOf(e, MaxWindows) && OptionOf(d, WindowSize) == OptionOf(e, WindowSize);
    assert OptionOf(d, CheckpointInterval) == OptionOf(e, CheckpointInterval);
    assert OptionOf(d, PollIntervalMs) == OptionOf(e, PollIntervalMs);
    assert OptionOf(d, PollTimeoutMs) == OptionOf(e, PollTimeoutMs);
  }

  lemma SameBlocks(d: Draft, e: Draft)
    requires forall flag :: TakesValue(flag) ==> OptionOf(d, flag) == OptionOf(e, flag)
    ensures d.authorizedFinalBlock == e.authorizedFinalBlock && d.firstWindowStart == e.firstWindowStart
    ensures d.expectedCursorFrom == e.expectedCursorFrom && d.expectedCursorTo == e.expectedCursorTo
  {
    assert OptionOf(d, AuthorizedFinalBlock) == OptionOf(e, AuthorizedFinalBlock);
    assert OptionOf(d, ExpectedCursorFrom) == OptionOf(e, ExpectedCursorFrom);
    assert OptionOf(d, ExpectedCursorTo) == OptionOf(e, ExpectedCursorTo);
    assert OptionOf(d, FirstWindowStart) == OptionOf(e, FirstWindowStart);
  }

  /** Options are yielded by at most one choice of values. */
  lemma YieldsIsFunctional(ss: seq<Setting>, o: Options, p: Options)
    requires Yields(ss, o) && Yields(ss, p)
    ensures o == p
  {
    hide Latest, LowerCase, ReadInt;
  }

  /** A required flag is given wherever options are yielded. */
  lemma YieldsGives(ss: seq<Setting>, o: Options, i: nat)
    requires Yields(ss, o) && i < |REQUIRED|
    ensures Given(ss, i)
  {
    hide Latest, LowerCase, ReadInt, NumberOrDefault, TextOrDefault;
    assert REQUIRED[i] in REQUIRED;
  }

  /** A command line is accepted with these options exactly if it is made of flags with
      values they take, in any order; each option is the last value given for its own flag,
      or its default; and every gate is passed: it names chain 369, and gives either both
      recovery flags or neither. */
  ghost predicate Means(argv: seq<string>, o: Options) {
    exists ss :: AllProper(ss) && argv == Line(ss) && Yields(ss, o) && AllPassed(ss, o)
  }

  ghost predicate AllPassed(ss: seq<Setting>, o: Options) {
    forall j :: 0 <= j < |GATES| ==> Passes(ss, o, j)
  }

  lemma AcceptedIffMeant(argv: seq<string>, o: Options)
    ensures Parse(argv) == Ok(o) <==> Means(argv, o)
  {
    hide ReadArguments, Leads, Yields, AllProper, FailingGate, Passes, FirstMissing, Line, Given;
    if Parse(argv) == Ok(o) {
      var ss := ReadIsSettings(EMPTY_DRAFT, argv);
      var d := LineIsRead(ss);
      AssembledIsYielded(ss, d);
      GatesInOrder(ss, d, 0);
      assert AllPassed(ss, o);
    }
    if Means(argv, o) {
      var ss :| AllProper(ss) && argv == Line(ss) && Yields(ss, o) && AllPassed(ss, o);
      var d := LineIsRead(ss);
      forall j: nat | j < |REQUIRED| ensures Given(ss, j) {
        YieldsGives(ss, o, j);
      }
      MissingInOrder(ss, d, 0);
      AssembledIsYielded(ss, d);
      YieldsIsFunctional(ss, o, Assemble(d));
      GatesInOrder(ss, d, 0);
    }
  }

  /** In particular, an accepted command line names chain 369 and recovers a run exactly if
      recovery mode and the run are both given. */
  lemma RecoveryFlagsArePaired(ss: seq<Setting>)
    requires AllProper(ss) && Parse(Line(ss)).Ok?
    ensures var o := Parse(Line(ss)).value;
      && o.chainId == 369
      && (o.recovery.Some? <==> Switch(RecoveryMode) in ss) && (o.recovery.Some? <==> Latest(ss, RecoveryOfRunId).Some?)
  {
    hide ReadArguments, Leads, FailingGate, FirstMissing, Line, Latest, AllProper, GivenNumber, NumberOrDefault,
      TextOrDefault, LowerCase, ValidCampaignId, WindowLabel;
    var d := LineIsRead(ss);
    AssembledIsYielded(ss, d);
    GatesInOrder(ss, d, 0);
    assert Passes(ss, Assemble(d), 0) && Passes(ss, Assemble(d), 7);
  }

  /** What each refusal means. */
  ghost predicate RefusedFor(argv: seq<string>, error: ParseError) {
    match error
    case UnknownArgument(text) =>
      exists ss, rest :: AllProper(ss) && argv == Line(ss) + ([text] + rest) && FlagOf(text).None?
    case BadValue(flag) => exists ss, rest :: AllProper(ss) && argv == Line(ss) + rest && StartsBadly(flag, rest)
    case MissingFlag(flag) =>
      exists ss, i: nat :: AllProper(ss) && argv == Line(ss) && FirstNotGiven(ss, i) && flag == REQUIRED[i]
    case GateFailed(gate) =>
      exists ss, o, i: nat :: AllProper(ss) && argv == Line(ss) && Yields(ss, o) && FirstNotPassed(ss, o, i)
        && gate == GATES[i]
  }

  /** A flag stands without a value it takes. */
  predicate StartsBadly(flag: Flag, argv: seq<string>) {
    && TakesValue(flag) && argv != [] && argv[0] == FlagText(flag)
    && (|argv| == 1 || Dashed(argv[1]) || !ValueOk(flag, argv[1]))
  }

  predicate FirstNotGiven(ss: seq<Setting>, i: nat) {
    i < |REQUIRED| && !Given(ss, i) && forall j :: 0 <= j < i ==> Given(ss, j)
  }

  ghost predicate FirstNotPassed(ss: seq<Setting>, o: Options, i: nat) {
    i < |GATES| && !Passes(ss, o, i) && forall j :: 0 <= j < i ==> Passes(ss, o, j)
  }

  /** An argument that is not read ends the reading with its error. */
  lemma UnknownIsRefused(d: Draft, text: string, rest: seq<string>)
    requires FlagOf(text).None?
    ensures ReadArguments(d, [text] + rest) == Err(UnknownArgument(text))
  {
  }

  lemma BadValueIsRefused(d: Draft, flag: Flag, argv: seq<string>)
    requires StartsBadly(flag, argv)
    ensures ReadArguments(d, argv) == Err(BadValue(flag))
  {
    hide FlagOf, FlagText, Assign, ValueOk;
    FlagRoundTrip(flag);
    if |argv| > 1 {
      AcceptedValues(d, flag, argv[1]);
    }
  }

  /** Where reading fails, proper settings precede the argument that is refused. */
  lemma {:induction false} FailureFollowsSettings(d: Draft, argv: seq<string>)
    returns (ss: seq<Setting>, rest: seq<string>)
    requires ReadArguments(d, argv).Err?
    ensures AllProper(ss) && argv == Line(ss) + rest && rest != []
    ensures match ReadArguments(d, argv).error
      case UnknownArgument(text) => text == rest[0] && FlagOf(text).None?
      case BadValue(flag) => StartsBadly(flag, rest)
      case _ => false
    decreases |argv|
  {
    hide Assign, FlagOf, FlagText, ValueOk;
    var flag := FlagOf(argv[0]);
    if flag.None? {
      ss, rest := [], argv;
    } else {
      FlagIsText(flag.value, argv[0]);
      if flag.value.Execute? || flag.value.RecoveryMode? {
        var tail;
        tail, rest := FailureFollowsSettings(
          if flag.value.Execute? then d.(execute := true) else d.(recoveryMode := true), argv[1..]);
        ss := [Switch(flag.value)] + tail;
        assert argv == [argv[0]] + argv[1..];
      } else if |argv| == 1 || Dashed(argv[1]) || !ValueOk(flag.value, argv[1]) {
        ss, rest := [], argv;
        if |argv| > 1 {
          AcceptedValues(d, flag.value, argv[1]);
        }
      } else {
        AcceptedValues(d, flag.value, argv[1]);
        var tail;
        tail, rest := FailureFollowsSettings(Assign(d, flag.value, argv[1]).value, argv[2..]);
        ss := [Valued(flag.value, argv[1])] + tail;
        assert argv == [argv[0], argv[1]] + argv[2..];
      }
    }
  }

  lemma MissingIndex(d: Draft) returns (i: nat)
    requires FirstMissing(d).Some?
    ensures i < |REQUIRED| && FirstMissing(d) == Some(REQUIRED[i])
  {
    i := if d.walletAddress.None? then 0 else if d.chainId.None? then 1 else if d.expectedCursorFrom.None? then 2
         else if d.expectedCursorTo.None? then 3 else if d.firstWindowStart.None? then 4
         else if d.windowSize.None? then 5 else if d.maxWindows.None? then 6 else if d.authorizedFinalBlock.None? then 7
         else if d.campaignId.None? then 8 else if d.policyLabelPrefix.None? then 9 else 10;
  }

  lemma GateIndex(gate: Gate) returns (i: nat)
    ensures i < |GATES| && gate == GATES[i]
  {
    match gate
    case SupportedChain => i := 0;
    case WindowSizeCap => i := 1;
    case ExactWindowSize => i := 2;
    case WindowLimit => i := 3;
    case CampaignIdShape => i := 4;
    case CheckpointSpacing => i := 5;
    case BoundaryAlignment => i := 6;
    case RecoveryFlags => i := 7;
    case LabelLength => i := 8;
  }

  lemma RefusalIsMeant(argv: seq<string>)
    requires Parse(argv).Err?
    ensures RefusedFor(argv, Parse(argv).error)
  {
    hide ReadArguments, Leads, Yields, AllProper, FailingGate, Passes, FirstMissing, Line, Given, FlagOf, StartsBadly;
    if ReadArguments(EMPTY_DRAFT, argv).Err? {
      var ss, rest := FailureFollowsSettings(EMPTY_DRAFT, argv);
      assert rest == [rest[0]] + rest[1..];
    } else {
      var ss := ReadIsSettings(EMPTY_DRAFT, argv);
      var d := LineIsRead(ss);
      if FirstMissing(d).Some? {
        var i := MissingIndex(d);
        MissingInOrder(ss, d, i);
        assert FirstNotGiven(ss, i);
      } else {
        AssembledIsYielded(ss, d);
        var i := GateIndex(FailingGate(d).value);
        GatesInOrder(ss, d, i);
        assert FirstNotPassed(ss, Assemble(d), i);
      }
    }
  }

  lemma MeaningIsRefused(argv: seq<string>, error: ParseError)
    requires RefusedFor(argv, error)
    ensures Parse(argv) == Err(error)
  {
    hide ReadArguments, Leads, Yields, AllProper, FailingGate, Passes, FirstMissing, Line, Given, FlagOf, StartsBadly;
    match error
    case UnknownArgument(text) =>
      var ss, rest :| AllProper(ss) && argv == Line(ss) + ([text] + rest) && FlagOf(text).None?;
      var d := SettingsLead(EMPTY_DRAFT, ss, [text] + rest);
      UnknownIsRefused(d, text, rest);
    case BadValue(flag) =>
      var ss, rest :| AllProper(ss) && argv == Line(ss) + rest && StartsBadly(flag, rest);
      var d := SettingsLead(EMPTY_DRAFT, ss, rest);
      BadValueIsRefused(d, flag, rest);
    case MissingFlag(flag) =>
      var ss, i: nat :| AllProper(ss) && argv == Line(ss) && FirstNotGiven(ss, i) && flag == REQUIRED[i];
      var d := LineIsRead(ss);
      MissingInOrder(ss, d, i);
    case GateFailed(gate) =>
      var ss, o, i: nat :| AllProper(ss) && argv == Line(ss) && Yields(ss, o) && FirstNotPassed(ss, o, i)
        && gate == GATES[i];
      var d := LineIsRead(ss);
      forall j: nat | j < |REQUIRED| ensures Given(ss, j) {
        YieldsGives(ss, o, j);
      }
      MissingInOrder(ss, d, 0);
      AssembledIsYielded(ss, d);
      YieldsIsFunctional(ss, o, Assemble(d));
      GatesInOrder(ss, d, i);
  }

  /** A command line is refused with an error exactly if that is what it means: the first
      argument that is no flag, or the first flag without a value it takes; else the first
      required flag that is missing; else the first gate that fails. */
  lemma RefusedIffMeant(argv: seq<string>, error: ParseError)
    ensures Parse(argv) == Err(error) <==> RefusedFor(argv, error)
  {
    hide Parse, RefusedFor;
    if Parse(argv) == Err(error) {
      RefusalIsMeant(argv);
    }
    if RefusedFor(argv, error) {
      MeaningIsRefused(argv, error);
    }
  }

  // ----- the argument loop

  /** The argument loop: what it accepts is what the command line means, and what it refuses
      is refused for what is wrong with it. */
  method ParseCampaignCliArgs(argv: seq<string>) returns (r: Result<Options, ParseError>)
    ensures r == Parse(argv)
    ensures r.Ok? ==> Means(argv, r.value)
    ensures r.Err? ==> RefusedFor(argv, r.error)
  {
    hide Assign, FlagOf, Finish, Means, RefusedFor;
    if Parse(argv).Ok? {
      AcceptedIffMeant(argv, Parse(argv).value);
    } else {
      RefusedIffMeant(argv, Parse(argv).error);
    }
    var d := EMPTY_DRAFT;
    var index := 0;
    while index < |argv|
      invariant 0 <= index <= |argv|
      invariant ReadArguments(EMPTY_DRAFT, argv) == ReadArguments(d, argv[index..])
    {
      var rest := argv[index..];
      var flag := FlagOf(rest[0]);
      if flag.None? {
        return Err(UnknownArgument(rest[0]));
      }
      if flag.value.Execute? {
        d := d.(execute := true);
        assert rest[1..] == argv[index + 1..];
        index := index + 1;
      } else if flag.value.RecoveryMode? {
        d := d.(recoveryMode := true);
        assert rest[1..] == argv[index + 1..];
        index := index + 1;
      } else {
        var value := ValueAfter(rest);
        if value.None? {
          return Err(BadValue(flag.value));
        }
        var updated := Assign(d, flag.value, value.value);
        if updated.None? {
          return Err(BadValue(flag.value));
        }
        d := updated.value;
        assert rest[2..] == argv[index + 2..];
        index := index + 2;
      }
    }
    assert argv[index..] == [];
    r := Finish(d);
  }

  // ----- the order of settings

  /** Nothing but the last value of each flag counts, and whether execution was asked for. */
  lemma OnlyLastValuesCount(ss: seq<Setting>, tt: seq<Setting>)
    requires AllProper(ss) && AllProper(tt)
    requires forall flag :: Latest(ss, flag) == Latest(tt, flag)
    requires forall flag :: Switch(flag) in ss <==> Switch(flag) in tt
    ensures Parse(Line(ss)) == Parse(Line(tt))
  {
    hide ReadArguments, Latest, Finish, Line, AllProper;
    var d := LineIsRead(ss);
    var e := LineIsRead(tt);
    assert Leads(EMPTY_DRAFT, ss, e) by { SameChoice(ss, tt, e); }
    LeadsIsFunctional(ss, d, e);
  }

  lemma SameChoice(ss: seq<Setting>, tt: seq<Setting>, e: Draft)
    requires Leads(EMPTY_DRAFT, tt, e) && forall flag :: Latest(ss, flag) == Latest(tt, flag)
    requires forall flag :: Switch(flag) in ss <==> Switch(flag) in tt
    ensures Leads(EMPTY_DRAFT, ss, e)
  {
    hide Latest, OptionOf, Reading;
  }
}
