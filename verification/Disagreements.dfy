/** Concrete inputs at which the runners and their own descriptions disagree. */
module Disagreements {
  import opened Base
  import opened SyncPrimitives
  import opened CommandLine
  import opened CampaignPlan
  import opened CampaignMachine
  import opened CampaignTheorems
  import opened CampaignPreview
  import opened SupervisorPlan
  import opened Composition
  import Cli = CampaignCli
  import SupervisorCli
  import Decimal

  const WALLET: string := "0x0000000000000000000000000000000000000000"

  const LIVE: Cursor := Cursor(0, 999)

  /** The command line of a dry supervisor with children of one window each. */
  function Arguments(finalBlock: nat): seq<string> {
    ["--wallet-address", WALLET]
    + (["--chain-id", PrintInt(369)]
    + (["--authorized-final-block", PrintInt(finalBlock)]
    + (["--campaign-max-windows", PrintInt(1)]
    + (["--window-size", PrintInt(1000)]
    + (["--campaign-id-prefix", "c"]
    + (["--policy-label-prefix", "p"]
    + (["--base-url", "http://localhost"]
    + [])))))))
  }

  function Supervision(finalBlock: nat): SupervisorOptions {
    SupervisorOptions(false, WALLET, 369, finalBlock, 1, 1000, "c", "p", 25, "http://localhost",
      "operator-evidence/" + "wallet-forward-supervisor/evidence.jsonl", None, 5_000, 1_200_000,
      "scripts/wallet-forward-campaign-runner.ts")
  }

  lemma WalletIsAddress()
    ensures IsAddress(WALLET) && LowerCase(WALLET) == WALLET && !Dashed(WALLET)
  {
  }

  lemma ScopeIsRead(d: SupervisorCli.Draft, finalBlock: nat, rest: seq<string>)
    ensures SupervisorCli.ReadArguments(d,
              ["--wallet-address", WALLET]
                + (["--chain-id", PrintInt(369)] + (["--authorized-final-block", PrintInt(finalBlock)] + rest)))
         == SupervisorCli.ReadArguments(
              d.(walletAddress := Some(WALLET), chainId := Some(369), authorizedFinalBlock := Some(finalBlock)), rest)
  {
    hide PrintInt, ReadNat, IsAddress, LowerCase, SupervisorCli.ReadArguments;
    WalletIsAddress();
    PrintedInt(369);
    PrintedInt(finalBlock);
    var d1 := d.(walletAddress := Some(WALLET));
    var d2 := d1.(chainId := Some(369));
    var rest2 := ["--authorized-final-block", PrintInt(finalBlock)] + rest;
    SupervisorCli.ReadSetting(d, "--wallet-address", SupervisorCli.WalletAddress, WALLET,
      ["--chain-id", PrintInt(369)] + rest2);
    SupervisorCli.ReadSetting(d1, "--chain-id", SupervisorCli.ChainId, PrintInt(369), rest2);
    SupervisorCli.ReadSetting(d2, "--authorized-final-block", SupervisorCli.AuthorizedFinalBlock, PrintInt(finalBlock),
      rest);
  }

  lemma SizesAreRead(d: SupervisorCli.Draft, rest: seq<string>)
    ensures SupervisorCli.ReadArguments(d,
      ["--campaign-max-windows", PrintInt(1)] + (["--window-size", PrintInt(1000)] + rest))
         == SupervisorCli.ReadArguments(d.(campaignMaxWindows := Some(1), windowSize := Some(1000)), rest)
  {
    hide PrintInt, ReadNat, ReadInt, SupervisorCli.ReadArguments;
    PrintedInt(1);
    PrintedInt(1000);
    var d1 := d.(campaignMaxWindows := Some(1));
    SupervisorCli.ReadSetting(
      d, "--campaign-max-windows", SupervisorCli.CampaignMaxWindows, PrintInt(1),
      ["--window-size", PrintInt(1000)] + rest);
    SupervisorCli.ReadSetting(d1, "--window-size", SupervisorCli.WindowSize, PrintInt(1000), rest);
  }

  lemma NamesAreRead(d: SupervisorCli.Draft)
    ensures SupervisorCli.ReadArguments(d,
              ["--campaign-id-prefix", "c"]
                + (["--policy-label-prefix", "p"] + (["--base-url", "http://localhost"] + [])))
         == Ok(d.(campaignIdPrefix := Some("c"), policyLabelPrefix := Some("p"), baseUrl := Some("http://localhost")))
  {
    hide SupervisorCli.ReadArguments;
    var d1 := d.(campaignIdPrefix := Some("c"));
    var d2 := d1.(policyLabelPrefix := Some("p"));
    var last := ["--base-url", "http://localhost"] + [];
    SupervisorCli.ReadSetting(d, "--campaign-id-prefix", SupervisorCli.CampaignIdPrefix, "c",
      ["--policy-label-prefix", "p"] + last);
    SupervisorCli.ReadSetting(d1, "--policy-label-prefix", SupervisorCli.PolicyLabelPrefix, "p", last);
    SupervisorCli.ReadSetting(d2, "--base-url", SupervisorCli.BaseUrl, "http://localhost", []);
    NothingLeft(d2.(baseUrl := Some("http://localhost")));
  }

  lemma NothingLeft(d: SupervisorCli.Draft)
    ensures SupervisorCli.ReadArguments(d, []) == Ok(d)
  {
  }

  /** These supervisor options come from a command line the supervisor accepts. */
  lemma SupervisionIsAccepted(finalBlock: nat)
    ensures SupervisorCli.Parse(Arguments(finalBlock)) == Ok(Supervision(finalBlock))
    ensures SupervisorCli.Parsed(Supervision(finalBlock))
  {
    hide SupervisorCli.ReadArguments, PrintInt;
    var d := SupervisorCli.EMPTY_DRAFT;
    var names :=
      ["--campaign-id-prefix", "c"] + (["--policy-label-prefix", "p"] + (["--base-url", "http://localhost"] + []));
    var sizes := ["--campaign-max-windows", PrintInt(1)] + (["--window-size", PrintInt(1000)] + names);
    ScopeIsRead(d, finalBlock, sizes);
    var d1 := d.(walletAddress := Some(WALLET), chainId := Some(369), authorizedFinalBlock := Some(finalBlock));
    SizesAreRead(d1, names);
    NamesAreRead(d1.(campaignMaxWindows := Some(1), windowSize := Some(1000)));
    SupervisorCli.AcceptedOptionsAreParsed(Arguments(finalBlock));
  }

  lemma ShortNames(window: nat)
    requires window < 10
    ensures ValidCampaignId(ChildCampaignId("c", 1)) && ValidCampaignId(ChildCampaignId("c", 2))
    ensures LabelFits(WindowLabel("p", ChildCampaignId("c", 1), window))
    ensures LabelFits(WindowLabel("p", ChildCampaignId("c", 2), window))
  {
    assert Decimal.Print(1) == "1" && Decimal.Print(2) == "2" && |Decimal.Print(window)| == 1;
  }

  /** The command line of a child that has one window, extended by the recovery flags. */
  function RecoveryArguments(): seq<string> {
    SupervisorCli.ChildArguments(Supervision(1999), ChildPlan(1, 0, 999, 1000, 1, 1999))
    + ["--recovery-mode", "--recovery-of-run-id", "x"]
  }

  /** A command line the campaign's parser accepts and its run-time check refuses. */
  lemma AcceptedAndRefused()
    ensures Cli.Parse(RecoveryArguments()).Ok?
    ensures CheckOptions(Cli.Parse(RecoveryArguments()).value) == Refused(AuthorizedFinalBlockMisaligned)
  {
    hide Cli.Parse, SupervisorCli.Parse, SupervisorCli.ChildArguments, CheckOptions, WindowLabel, ChildCampaignId;
    var so, plan := Supervision(1999), ChildPlan(1, 0, 999, 1000, 1, 1999);
    SupervisionIsAccepted(1999);
    ShortNames(1);
    ShortNames(2);
    assert PlanFor(so, LIVE, 1) == Child(plan);
    SupervisorCli.ChildCommandLineRoundTrip(so, LIVE, 1);
    assert !IsSpace("x"[0]);
    Cli.RecoveringTheOnlyWindow(SupervisorCli.ChildArguments(so, plan), ChildOptions(so, plan), "x");
  }

  /** A dry supervision of two children, each with a command line its parser accepts: the
      second is told to expect a cursor that is not the live one, and however well
      everything else goes it is never verified. */
  lemma SecondDryChildFails(log: seq<Event>, summary: Summary)
    ensures var so := Supervision(2999);
      && SupervisorCli.Parsed(so)
      && Children(so, LIVE, 1) == [ChildPlan(1, 0, 999, 1000, 1, 1999), ChildPlan(2, 0, 1999, 2000, 1, 2999)]
      && var o := ChildOptions(so, ChildPlan(2, 0, 1999, 2000, 1, 2999));
         && Cli.Parse(SupervisorCli.ChildArguments(so, ChildPlan(2, 0, 1999, 2000, 1, 2999))) == Ok(o)
         && Usable(o) && WellPosed(o) && Cursor(o.expectedCursorFrom, o.expectedCursorTo) != LIVE
         && (LiveRun(o, LIVE, log) && Finished(o, log, summary) ==> !CleanResult(Reported(summary), false, 1))
  {
    hide Cli.Parse, SupervisorCli.Parse, SupervisorCli.ChildArguments, CheckOptions, WindowLabel, ChildCampaignId,
      CleanResult, LiveRun, Replay, WellPosed;
    var so, second := Supervision(2999), ChildPlan(2, 0, 1999, 2000, 1, 2999);
    SupervisionIsAccepted(2999);
    ShortNames(1);
    TwoChildren();
    SupervisorCli.ChildCommandLineRoundTrip(so, Cursor(0, 1999), 2);
    ParsedChildIsWellPosed(so, Cursor(0, 1999), 2);
    var o := ChildOptions(so, second);
    if LiveRun(o, LIVE, log) && Finished(o, log, summary) {
      DryChildVerifiedIffPlannedFromLiveCursor(so, Cursor(0, 1999), 2, LIVE, log, summary);
    }
  }

  lemma TwoChildren()
    ensures Acceptable(Supervision(2999))
    ensures Children(Supervision(2999), LIVE, 1)
      == [ChildPlan(1, 0, 999, 1000, 1, 1999), ChildPlan(2, 0, 1999, 2000, 1, 2999)]
    ensures PlanFor(Supervision(2999), Cursor(0, 1999), 2) == Child(ChildPlan(2, 0, 1999, 2000, 1, 2999))
  {
    var so := Supervision(2999);
    assert Children(so, Cursor(0, 2999), 3) == [];
    assert Children(so, Cursor(0, 1999), 2)
      == [ChildPlan(2, 0, 1999, 2000, 1, 2999)] + Children(so, Cursor(0, 2999), 3);
  }
}
