# Wallet-forward synchronisation, backfill and HEX codec: a verified model

This project models the operator runners of a blockchain wallet tracker and the data
codecs beside them, and proves what they promise.

* **The forward campaign runner** submits 1,000-block windows one at a time. Before each
  submission it re-reads a shared database that other processes may change; afterwards it
  verifies the run, the cursor and the stored rows; periodically it passes a checkpoint;
  every mandatory step is appended to an evidence log that may fail at any moment.
  `CampaignPlan` holds the planning arithmetic, `CampaignMachine` the protocol as an
  automaton over interactions, `CampaignSafety` its inductive invariant, `CampaignStart`,
  `CampaignTheorems`, `CampaignGates`, `CampaignVerdicts`, `CampaignSummaries`, `CampaignCauses`,
  `CampaignPreview` and `CampaignLiveness` the promises,
  and `CampaignRunner` the program itself: a class whose loop calls injected dependencies that
  answer arbitrarily and whose every interaction is proved to follow the automaton.
* **The supervisor** cuts the way to one fixed final block into child campaigns and runs
  them as processes: `SupervisorPlan`, `ChildLabels`, `SupervisorMachine`,
  `SupervisorTheorems`, `SupervisorVerdicts`, `SupervisorCauses`, `SupervisorProgress`,
  `SupervisorLiveness`, `SupervisorRunner`.
  `CampaignCli` and `SupervisorCli` model both command lines and the one printed for a child,
  `CampaignCliMeaning` and `SupervisorCliMeaning` say what they mean; `Composition`
  joins a child's run to the supervisor's verification of it and `JointRuns` a whole
  supervision to all its children; `SummaryHandOver` models the way the summary takes through
  standard output, and `Disagreements` gives concrete inputs for two of the points below.
* **The batch sync runner** with its recovery-only mode (`SyncRunnerProtocol`,
  `SyncRunnerCauses`, `SyncRunner`), **polling** (`Polling`) and the shared **terminal verifiers**
  (`SyncPrimitives`, `RecoveryWarnings`).
* **The descending backfill runner**: planning on a fixed grid for any window size
  (`BackfillPlan`), the duty that a log leaves open, with rebuilds between windows
  (`BackfillProtocol`), what its log shows of an end (`BackfillCauses`), and the program
  (`BackfillRunner`).
* **The HEX daily-data codec**: packed words (`HexCodec`) and the JSON payload of decimal
  strings (`HexPayload`).
* **Block windows** (`BlockWindows`), their use in **adaptive log fetching** (`LogFetcher`),
  **Hearts formatting** (`HexFormat`) and **reason slugs** (`ReasonSlug`).

`Base`, `Json`, `Decimal`, `Arithmetic` and `CommandLine` are shared vocabulary.

The environment is adversarial throughout: every answer of the database, the server, git,
the clock, the child process and the evidence destination is havoc. A ghost log records each
interaction, and theorems quantify over all logs that follow the protocol. Numbers are exact.

Three places where the code and its own description disagree are kept as the code has them
and stated as theorems.

* The child prints its summary indented and the supervisor parses the last line only. That
  line is always the closing brace, so as written no summary arrives
  (`SummaryHandOver.IndentedSummaryIsLost`), and a supervision of such children counts none of
  them, spawns at most one and never reports its target as reached
  (`SummaryHandOver.IndentedChildrenNeverCount`); a summary arrives exactly if it is printed on
  one line (`SummaryHandOver.SummaryArrivesIffOneLine`). The supervisor model therefore takes
  the parsed summary as the value handed over.
* In a dry run the second child is told to expect a simulated cursor but compares it with the
  live one. A dry child is verified exactly if it was planned from the live cursor
  (`Composition.DryChildVerifiedIffPlannedFromLiveCursor`), so a dry supervision of real
  children reaches its target exactly if one child covers the whole span
  (`JointRuns.DrySupervisionReachesIffOneChild`); `Disagreements.SecondDryChildFails` is an
  instance.
* The command line aligns the final block to the unshifted first window even when a recovery
  window precedes the loop; the run-time check uses the shifted one. The two agree except
  when the recovery window is the only one (`CampaignCli.ParsedOptionsAreUsable`);
  `Disagreements.AcceptedAndRefused` is an instance.

Verify everything with `dafny verify dfyconfig.toml`.

## Model

| member | source | states |
|---|---|---|
| `CampaignPlan.WindowLabelInjective` | scripts/wallet-forward-campaign-runner.ts:217-223 | Within a campaign, distinct window numbers have distinct policy labels. |
| `CampaignPlan.RecoveryLabelClash` | scripts/lib/wallet-forward-sync-primitives.ts:672-674 | The recovery label equals an ordinary window label in exactly two cases: the campaign id is "recovery-of-" and more, and the source run id is the rest of it with the window suffix; or the campaign id is "recovery-of" and the source run id is that suffix without its hyphen. |
| `CampaignPlan.RecoveryLabelClashWitness` | scripts/lib/wallet-forward-sync-primitives.ts:672-674 | Such a clash exists among well-formed inputs. |
| `CampaignPlan.LongestLabelBoundsAll` | scripts/wallet-forward-campaign-runner.ts:350-359 | One length check on the last window's label before the campaign bounds every label inside it by 128 characters. |
| `CampaignPlan.AlignFinalBlock` | scripts/wallet-forward-campaign-runner.ts:300-329 | For a positive window size, the final block is accepted exactly if it ends between 1 and 1000 whole windows after the first start, and the count returned is that number. |
| `CampaignPlan.CheckOptions` | scripts/wallet-forward-campaign-runner.ts:1008-1073 | Options that pass the run-time re-validation have window size 1000, limits in range, a well-formed id and a final block whole windows after the effective first start; no refusal carries a clean reason. |
| `CampaignPlan.RefusalNamesFirstFault` | scripts/wallet-forward-campaign-runner.ts:1008-1073 | Options are refused with the first of the five gates at fault, each fault stated independently of the others, and accepted exactly if none is; a zero window size that reaches the division throws. |
| `CampaignPlan.PlannerMeetsIntent` | scripts/wallet-forward-campaign-runner.ts:203-248 | Planning from the upper edge of the previous window yields exactly the next intended window: number, label and range. |
| `CampaignPlan.IntentStaysAuthorised` | scripts/wallet-forward-campaign-runner.ts:337-348 | No intended window ends above the authorised final block, and exactly the last one ends at it. |
| `SyncPrimitives.RunIdentityReasons` | scripts/lib/wallet-forward-sync-primitives.ts:229-291 | The list of terminal failures is empty exactly if trigger, status, failure fields, family, wallet, chain, label, range and safe block are all as expected. |
| `SyncPrimitives.IdentityReasonsExact` | scripts/lib/wallet-forward-sync-primitives.ts:229-291 | The list names exactly the failures that a run has, each stated on its own. |
| `RecoveryWarnings.VerifyStructuredWarnings` | scripts/lib/wallet-forward-sync-primitives.ts:396-478 | Accepts exactly the runs whose structured warnings are untruncated, non-empty, all of the one benign code and aligned index by index with the legacy details; otherwise names the first rule that fails, with the least index at which it does. |
| `RecoveryWarnings.VerifyWindowTerminalState` | scripts/lib/wallet-forward-sync-primitives.ts:229-291 | Returns no reason exactly for a strictly clean run of the expected request, and otherwise exactly the reasons that hold of the run. |
| `RecoveryWarnings.VerifyRecoveryWindowTerminalState` | scripts/lib/wallet-forward-sync-primitives.ts:560-646 | Returns no reason exactly for a run that matches the request and is provably warning-free or carries only benign warnings, and otherwise exactly the reasons that hold of the run. |
| `RecoveryWarnings.ZeroWarningAcceptanceIsStrict` | scripts/lib/wallet-forward-sync-primitives.ts:560-646 | A run without warnings that the recovery verifier accepts is also accepted by the strict verifier. |
| `RecoveryWarnings.RecoveryWidensStrictByBenignRuns` | scripts/lib/wallet-forward-sync-primitives.ts:560-646 | The recovery verifier accepts exactly the strictly clean runs with known-empty structured warnings together with the matching benign runs, and the two never overlap. |
| `RecoveryWarnings.EligibleSourceIsNeverStrictlyClean` | scripts/lib/wallet-forward-sync-primitives.ts:494-547 | A run eligible as a recovery source is never acceptable to the strict verifier. |
| `RecoveryWarnings.BenignDetailsArePrimitive` | scripts/lib/wallet-forward-sync-primitives.ts:452-478 | Every accepted legacy detail is a primitive JSON value, because the comparison is by identity for anything else. |
| `CampaignSafety.EveryRun` | scripts/wallet-forward-campaign-runner.ts:1008-2125 | The inductive invariant of the protocol holds after every log, whatever the environment answered. |
| `CampaignStart.EveryStartIsGated` | scripts/wallet-forward-campaign-runner.ts:1075-1165 | A campaign of more than five interactions has read its git head, found a clean tree, a healthy server and its wallet, and durably recorded its start. |
| `CampaignTheorems.SubmissionsAreIntended` | scripts/wallet-forward-campaign-runner.ts:1631-1790 | In every run the submissions are the intended windows, in order, each at most once, at most the smaller of both limits, preceded by at most the one recovery window; none ends above the authorised final block, no label repeats, and a dry run submits nothing. |
| `CampaignTheorems.SubmissionsTile` | scripts/wallet-forward-campaign-runner.ts:1631-1690 | The k-th ordinary submission covers exactly the k-th thousand blocks after the effective first start. |
| `CampaignGates.EveryPostIsGated` | scripts/wallet-forward-campaign-runner.ts:1634-1784 | Every ordinary POST is the next intended window, with a label of at most 128 characters, directly after a cursor read ending one block below it, no active operation, an unused label, a healthy server and an uncontaminated range. |
| `CampaignGates.EveryPreviewIsGated` | scripts/wallet-forward-campaign-runner.ts:1634-1758 | Every record of a planned window, durable or not, is of the next intended window of a dry run, directly after the same five answers with the cursor where it stood at the start. |
| `CampaignGates.EveryRecoveryIsGated` | scripts/wallet-forward-campaign-runner.ts:1172-1385 | The recovery POST happens only in execution and at the cursor frontier, with a label of at most 128 characters, directly after the frontier cursor, an eligible source run of the wallet read at the start, an unused label, no active operation, a healthy server and an uncontaminated range were read. |
| `CampaignGates.EveryRecoveryPreviewIsGated` | scripts/wallet-forward-campaign-runner.ts:1172-1330 | A recovery window is recorded as planned only in a dry run, at the frontier and directly after the same six answers. |
| `CampaignTheorems.EveryPollIsReconciled` | scripts/wallet-forward-campaign-runner.ts:1781-1847 | A run is polled only if the POST directly before was accepted and named it, or was ambiguous and exactly one persisted run matches it in label, wallet of the start, chain, family and range; an ambiguous POST is never repeated. |
| `CampaignVerdicts.EveryVerdictIsEarned` | scripts/wallet-forward-campaign-runner.ts:1847-1935 | Directly before every record that judges a window, ordinary or recovered, stand its own submission, which led to this run, and the seven answers read after it, and the record says clean exactly if the run was acceptable for the wallet read at the start, the cursor stood at its end, the four row counts were zero and no operation was active. |
| `CampaignVerdicts.EveryCountedWindowIsVerified` | scripts/wallet-forward-campaign-runner.ts:1847-2000 | Directly before every record that counts a window, recovered or ordinary, stands its own submission, its run was read back acceptable, the cursor stood at its end, four row checks found nothing and no operation was active. |
| `CampaignTheorems.EvidenceAccountsForSubmissions` | scripts/wallet-forward-campaign-runner.ts:1937-2005 | However evidence writes fail, the counted windows are exactly those with a durable clean record, in order, and a finished run submitted at most one window more than it counts. |
| `CampaignTheorems.CleanMeansComplete` | scripts/wallet-forward-campaign-runner.ts:2093-2125 | A clean stop reason implies that the summary is the last durable record, that every approved window was submitted and recorded (or planned), and that the reason truthfully names the limit met. |
| `CampaignTheorems.CleanRunPassesEveryCheckpoint` | scripts/wallet-forward-campaign-runner.ts:2007-2062 | A clean run of n windows passes exactly floor((r+n)/c) - floor(r/c) checkpoints, r being one if a recovery really ran. |
| `CampaignVerdicts.EveryCheckpointIsEarned` | scripts/wallet-forward-campaign-runner.ts:446-483 | Directly before every checkpoint record stand its five answers, and it passes exactly if the head is the one first read, the tree is clean, the server is healthy in the environment of the start, the cursor stands at the end of the last counted window and evidence is writable; its two counts are those of the windows recorded; the boundary condition never fails. |
| `CampaignTheorems.CheckpointSpacing` | scripts/wallet-forward-campaign-runner.ts:1609-2062 | At no moment have more submissions been made since the last checkpoint than the interval, never more than 25; only an interval of one with a recovery lets two through. |
| `CampaignTheorems.CheckpointSpacingIsExact` | scripts/wallet-forward-campaign-runner.ts:1609-2062 | When a checkpoint passes, the submissions since the previous one number exactly the interval, except two before the first with interval one and a recovery. |
| `CampaignTheorems.RedundantGatesNeverFire` | scripts/wallet-forward-campaign-runner.ts:1671-1695 | No run ever stops for an adjacency violation or an exceeded final block: both gates repeat what planning guarantees. |
| `CampaignCauses.StopReasonsAreTruthful` | scripts/wallet-forward-campaign-runner.ts:1008-2125 | A finished run that is not clean either failed to append a mandatory record last, or attempted a stop record for its reason directly after the answer that reason stands for, held against what the log shows to be expected there: the cursor, the label and range at stake, the submission in flight; where a verdict was recorded in between, at least one of the answers directly before that record was bad. |
| `CampaignSummaries.SummariesAreTruthful` | scripts/wallet-forward-campaign-runner.ts:1008-2125 | Every summary counts the windows and checkpoints durably recorded, numbers the last window counted or the one recorded as unclean, and reports the recovery as far as the log shows it. |
| `CampaignSummaries.CleanEndReportsRecovery` | scripts/wallet-forward-campaign-runner.ts:2093-2125 | A clean end reports a requested recovery, as recovered exactly if executed, and none that was not requested. |
| `CampaignPreview.FavourableRunsEndCleanly` | scripts/wallet-forward-campaign-runner.ts:1008-2125 | With options that fit the live state, every finished run without an unfavourable answer ends cleanly. |
| `CampaignPreview.FavourableRunsDoEverything` | scripts/wallet-forward-campaign-runner.ts:1607-2125 | Such a run submits (or, dry, plans) every approved window and reports the limit it met. |
| `CampaignLiveness.FavourableLogsExtend` | scripts/wallet-forward-campaign-runner.ts:1008-2125 | Every favourable log of well-posed options that has not ended can be continued by a favourable answer, which brings the end closer. |
| `CampaignLiveness.FavourableRunsExist` | scripts/wallet-forward-campaign-runner.ts:1008-2125 | For all well-posed options a favourable finished run exists. |
| `CampaignPreview.DryRunPreviewsExecution` | scripts/wallet-forward-campaign-runner.ts:1618-1758 | A favourable dry run plans, with the same numbers, labels and ranges, exactly the windows a favourable execution of the same options submits, and submits nothing itself. |
| `CampaignRunner.RunCampaign` | scripts/wallet-forward-campaign-runner.ts:1008-2125 | For every environment the program's interactions follow the protocol and a returned summary is the one the protocol ends with, so all theorems about finished logs apply to it; it rejects only where the tree or the wallet could not be read at the start. |
| `CampaignRunner.RunRefused` | scripts/wallet-forward-campaign-runner.ts:1029-1073 | Options that fail re-validation end the run with their reason after nothing but one attempted stop record. |
| `CampaignRunner.Campaign.RunLoop` | scripts/wallet-forward-campaign-runner.ts:1607-2125 | The ordinary loop follows the protocol from its first gate to the summary of a finished run. |
| `CampaignRunner.Campaign.RunRecovery` | scripts/wallet-forward-campaign-runner.ts:1172-1603 | The recovery step follows the protocol; it proceeds only with a verified recovery, or an unsubmitted one in a dry run, and otherwise ends the run. |
| `CampaignRunner.Campaign.RunCheckpoint` | scripts/wallet-forward-campaign-runner.ts:2007-2062 | A checkpoint reads five facts; the loop goes on only after all of them held and a passing record was durably written, and the run stops as failed only after one of them did not hold. |
| `CampaignCliMeaning.ParseCampaignCliArgs` | scripts/wallet-forward-campaign-runner.ts:568-849 | The argument loop accepts exactly what a command line means and refuses exactly what is wrong with it, as the next two rows say. |
| `CampaignCliMeaning.AcceptedIffMeant` | scripts/wallet-forward-campaign-runner.ts:568-849 | A command line is accepted with given options exactly if it is a sequence of the eighteen flags with values they take, each option is the last value given for its own flag or its default, and all nine gates are passed. |
| `CampaignCliMeaning.RefusedIffMeant` | scripts/wallet-forward-campaign-runner.ts:568-849 | It is refused with an error exactly if that names the first argument that is no flag or the first flag without a value it takes, else the first required flag that is missing, else the first gate that fails. |
| `CampaignCliMeaning.RecoveryFlagsArePaired` | scripts/wallet-forward-campaign-runner.ts:776-825 | Accepted options name chain 369 and recover a run exactly if recovery mode is asked for, and exactly if a run is named. |
| `CampaignCliMeaning.OnlyLastValuesCount` | scripts/wallet-forward-campaign-runner.ts:568-849 | Two sequences of settings with the same switches and the same last value of every flag have the same result. |
| `CampaignCli.SettingsCommute` | scripts/wallet-forward-campaign-runner.ts:568-849 | Two neighbouring accepted settings of different flags may be exchanged, wherever they stand, without changing the result. |
| `CampaignCli.LaterSettingWins` | scripts/wallet-forward-campaign-runner.ts:568-849 | Of two neighbouring accepted settings of one flag the later one alone counts. |
| `CampaignCli.ParsedOptionsAreUsable` | scripts/wallet-forward-campaign-runner.ts:776-825 | Parsed options pass the run-time re-validation exactly if no recovery is asked for or an ordinary window follows it, and their labels fit. |
| `CampaignCli.RecoveringTheOnlyWindow` | scripts/wallet-forward-campaign-runner.ts:776-825 | Adding the recovery flags to an accepted command line of one window gives a command line that is accepted again and refused at run time as misaligned. |
| `Disagreements.AcceptedAndRefused` | scripts/wallet-forward-campaign-runner.ts:1025-1060 | A concrete command line that the parser accepts and the run-time check refuses. |
| `SupervisorCliMeaning.ParseSupervisorCliArgs` | scripts/wallet-forward-supervisor.ts:651-856 | The supervisor's argument loop accepts exactly what a command line means and refuses exactly what is wrong with it, as the next two rows say. |
| `SupervisorCliMeaning.AcceptedIffMeant` | scripts/wallet-forward-supervisor.ts:651-856 | A command line is accepted with given options exactly if it is a sequence of the fifteen flags with values they take, each option is the last value given for its own flag or its default, and all six gates are passed. |
| `SupervisorCliMeaning.RefusedIffMeant` | scripts/wallet-forward-supervisor.ts:651-856 | It is refused with an error exactly if that names the first argument that is no flag or the first flag without a value it takes, else the first required flag that is missing, else the first gate that fails. |
| `SupervisorCliMeaning.ExecutesIffAsked` | scripts/wallet-forward-supervisor.ts:671-674 | Accepted options execute exactly if the execute flag is given. |
| `SupervisorCliMeaning.PrintedIsReadBack` | scripts/wallet-forward-supervisor.ts:651-856 | Printing all fifteen options gives a command line that is read back as those options. |
| `SupervisorCliMeaning.PrintableIffMeant` | scripts/wallet-forward-supervisor.ts:651-856 | Options are the meaning of some command line exactly if they have the shape that can be printed. |
| `SupervisorCliMeaning.OnlyLastValuesCount` | scripts/wallet-forward-supervisor.ts:651-856 | Nothing but the last value of each flag counts, and whether execution was asked for. |
| `SupervisorCliMeaning.SettingsCommute` | scripts/wallet-forward-supervisor.ts:651-856 | Two neighbouring settings of different flags may be exchanged without changing the result. |
| `SupervisorCliMeaning.LaterSettingWins` | scripts/wallet-forward-supervisor.ts:651-856 | Of two settings of one flag, wherever they stand, the later one alone counts. |
| `SupervisorCli.AcceptedOptionsAreParsed` | scripts/wallet-forward-supervisor.ts:651-856 | Accepted supervisor options pass the run-time re-validation, name the supported chain and a lower-case address, and hold no text that a flag reader would refuse. |
| `SupervisorCli.BuildChildArgs` | scripts/wallet-forward-supervisor.ts:944-990 | Builds the script path followed by the printed settings of the child. |
| `SupervisorCli.ChildCommandLineRoundTrip` | scripts/wallet-forward-supervisor.ts:944-990 | For all accepted supervisor options and every plan with a valid child id, the child's parser accepts the printed command line exactly if the cursor planned from is not negative and the longest label fits; it then yields every option field unchanged, and never a recovery. |
| `CommandLine.PrintedInt` | scripts/wallet-forward-campaign-runner.ts:560-566 | A printed integer is always taken as a value and reads back unchanged, as unsigned exactly if it is not negative. |
| `SupervisorPlan.PlanRefusedIff` | scripts/wallet-forward-supervisor.ts:184-238 | A plan is refused exactly for a cursor beyond the target or a span that is not whole windows; the final re-check of the target never fires. |
| `SupervisorPlan.PlanPassesChildGates` | scripts/wallet-forward-supervisor.ts:184-238 | Every plan passes the child's own validation with an implied window count equal to its limit, starts right after the cursor and ends at most at the target. |
| `SupervisorPlan.ChildrenTile` | scripts/wallet-forward-supervisor.ts:184-238 | Planned one after the other, the children tile the remaining blocks exactly, are numbered consecutively, and number the remaining windows divided by the child limit, rounded up. |
| `SupervisorPlan.AllButLastAreFull` | scripts/wallet-forward-supervisor.ts:184-238 | Every child but the last has as many windows as the limit allows, and the last one ends at the target. |
| `SupervisorPlan.PriorOperationIffOneClean` | scripts/wallet-forward-supervisor.ts:451-492 | The evidence behind a target already reached is accepted exactly if, wherever it stands among the runs of all families, there is one run of transfers alone, no second one, and it completed without warnings or failure. |
| `SupervisorMachine.RefusalNamesFirstFault` | scripts/wallet-forward-supervisor.ts:998-1020 | Supervisor options are refused with the first of the four gates at fault, each fault stated independently of the others, and accepted exactly if none is. |
| `ChildLabels.ChildDigitsExact` | scripts/wallet-forward-supervisor.ts:541-580 | The matcher finds a child number exactly where the expression matches, and the group is unique. |
| `ChildLabels.StartingChildNumber` | scripts/wallet-forward-supervisor.ts:561-580 | Returns one more than the largest child number among the persisted labels, or one. |
| `ChildLabels.LabelsAreFresh` | scripts/wallet-forward-supervisor.ts:552-580 | No label of any window of any child numbered from there on is among the persisted labels. |
| `ChildLabels.LabelsAreInjective` | scripts/wallet-forward-supervisor.ts:521-523 | Distinct pairs of child and window numbers carry distinct labels. |
| `ChildLabels.ValidChildIdBoundsNumber` | scripts/wallet-forward-supervisor.ts:531-539 | A child number whose id is still valid is below ten to the 62, which bounds every supervisor run. |
| `SupervisorTheorems.EveryRun` | scripts/wallet-forward-supervisor.ts:992-1424 | The inductive invariant of the supervisor's protocol holds after every log. |
| `SupervisorTheorems.SpawnedChildrenAreBounded` | scripts/wallet-forward-supervisor.ts:1156-1254 | Whatever happens, every spawned child was planned for its own cursor, passes its own gates and ends at most at the target; children are numbered consecutively, and all but possibly the last have a durable success record. |
| `SupervisorVerdicts.EveryStartIsGated` | scripts/wallet-forward-supervisor.ts:1020-1110 | A supervision of more than six interactions has read its git head, found a clean tree, a healthy server of a known environment, its wallet and the persisted labels, and durably recorded its start with the number those labels leave free. |
| `SupervisorVerdicts.EverySpawnIsGated` | scripts/wallet-forward-supervisor.ts:1112-1254 | Directly before every spawn: no interrupt, a cursor read, the git head and the server's environment as first read at the start of the run, a clean tree, a healthy server and a durable start record; the child was planned from that cursor, in a dry run from the edge of its predecessor, and numbered past the labels read at the start. |
| `SupervisorVerdicts.EverySuccessIsVerified` | scripts/wallet-forward-supervisor.ts:1254-1380 | No child counts as successful unless directly before its process exited by itself with code zero and a summary with a clean reason, exactly the requested windows and the expected last number, and the cursor was read back at exactly its boundary or, in a dry run, exactly as it was read before the spawn. |
| `SupervisorVerdicts.CleanMeansAtTarget` | scripts/wallet-forward-supervisor.ts:1165-1411 | Either clean reason implies that the summary is the last durable record. "Already reached" implies, in a dry run too, that the last cursor read stood exactly at the target. "Reached" implies that every spawned child succeeded, that the last one ended at the target and was recorded directly before the summary and, when executed, that the last cursor read stood exactly at the target. |
| `SupervisorTheorems.SpawnedLabelsAreFresh` | scripts/wallet-forward-supervisor.ts:1071-1080 | No window of any child a run spawns carries a label among those the run read at its start. |
| `SupervisorVerdicts.AlreadyReachedNeedsEvidence` | scripts/wallet-forward-supervisor.ts:1167-1210 | A target is reported as already reached only after a durable summary, no pending interrupt, a cursor read exactly at the target and the unchanged repository and server, and then either directly after exactly one clean run of transfers ending there was found among the runs of all families, for a cursor that has moved, or with a cursor that spans no block beyond its anchor. |
| `SupervisorCauses.StopReasonsAreTruthful` | scripts/wallet-forward-supervisor.ts:992-1424 | The same for the supervisor, held against what was read before in the same run: the head and environment of the start, the cursor planned from, the number due; a child is blamed only directly after a durable record about it, which directly follows what it is blamed for. |
| `SupervisorCauses.SummaryCountsChildren` | scripts/wallet-forward-supervisor.ts:1380-1411 | Whatever the reason, the summary counts the children with a durable success record and names the last of them. |
| `SupervisorTheorems.UndisturbedRunTilesTheSpan` | scripts/wallet-forward-supervisor.ts:1112-1411 | If nothing else moves the cursor between children, a supervisor that reports the target as reached ran exactly the tiling children, as many as the rounded-up quotient. |
| `SupervisorProgress.UndisturbedSupervisionReachesTheTarget` | scripts/wallet-forward-supervisor.ts:1112-1411 | If every answer is favourable, those of the child processes included, and only executed children move the cursor, every finished supervisor run ends at the target, by exactly the children planned from the initial cursor. |
| `SupervisorLiveness.FavourableLogsExtend` | scripts/wallet-forward-supervisor.ts:992-1424 | Every favourable log of a supervision that has not ended can be continued by a favourable answer, which spawns the next planned child or leads to a later step. |
| `SupervisorLiveness.FavourableSupervisionsExist` | scripts/wallet-forward-supervisor.ts:992-1424 | Wherever the target is reachable and the children's ids fit, a favourable finished supervision exists, numbered from any number on. |
| `SupervisorRunner.RunSupervisor` | scripts/wallet-forward-supervisor.ts:992-1424 | For every environment the supervisor always returns, its interactions follow the protocol, its summary counts the durably successful children and names the last, and no child is authorised past the target; it rejects only where the tree, the wallet or the labels could not be read at the start; unacceptable options end it with the first failing check after one attempted stop record. |
| `Composition.ParsedChildIsWellPosed` | scripts/wallet-forward-supervisor.ts:944-990 | A child whose command line parses runs with usable options whose first window starts right after the cursor it was planned from. |
| `Composition.ChildVerifiedIffClean` | scripts/wallet-forward-supervisor.ts:262-354 | A finished child passes the supervisor's result verification exactly if it completed cleanly; an executed one then left its last cursor reading exactly at the required boundary and submitted exactly the planned windows. |
| `Composition.FavourableChildIsVerified` | scripts/wallet-forward-supervisor.ts:262-354 | A child whose command line parses and whose every answer is favourable passes the supervisor's verification of its result and, executed, of its cursor. |
| `Composition.CleanRunsSawTheirCursor` | scripts/wallet-forward-campaign-runner.ts:1634-1643 | No campaign completes cleanly without having read the cursor it was told to expect. |
| `Composition.DryChildVerifiedIffPlannedFromLiveCursor` | scripts/wallet-forward-supervisor.ts:1148-1163 | A dry child for which everything but the cursor goes well is verified exactly if it was planned from the live cursor. |
| `Composition.DryRunSpansOneChild` | scripts/wallet-forward-supervisor.ts:1148-1163 | All children of a dry run are planned from the live cursor exactly if one child covers the remaining span; otherwise the second one expects a cursor beyond the live one. |
| `Disagreements.SecondDryChildFails` | scripts/wallet-forward-supervisor.ts:1148-1163 | A concrete accepted dry supervision of two children with accepted command lines, the second of which expects a cursor other than the live one and is never verified. |
| `JointRuns.ReachedMeansSubmitted` | scripts/wallet-forward-supervisor.ts:1112-1411 | With real child runs behind the spawns and nothing else moving the cursor between them, a target reported as reached means that all submissions of all children together are exactly the thousand-block windows from the first cursor to the target, in order, with distinct labels, none read at the start. |
| `JointRuns.FavourableExecutionSubmitsTheSpan` | scripts/wallet-forward-supervisor.ts:1112-1411 | An undisturbed executed supervision of favourable real children ends at the target, and their submissions together are exactly the windows from the initial cursor to it. |
| `JointRuns.DrySupervisionReachesIffOneChild` | scripts/wallet-forward-supervisor.ts:1148-1163 | An undisturbed dry supervision of real children that see the live cursor reaches the target exactly if one child covers all remaining windows. |
| `SupervisorLiveness.FavourableJointRunsExist` | scripts/wallet-forward-supervisor.ts:1112-1411 | An undisturbed finished supervision with favourable finished campaign runs behind all its spawns exists wherever the target is reachable and the children's ids and labels fit. |
| `SupervisorLiveness.LiveJointRunsExist` | scripts/wallet-forward-supervisor.ts:1112-1411 | So does an undisturbed finished dry supervision whose children all read the live cursor, whether or not one child covers the remaining windows. |
| `SummaryHandOver.IndentedSummaryIsLost` | scripts/wallet-forward-supervisor.ts:283-297 | Whatever a child printed before it, the line parsed of an indented summary is the closing brace alone. |
| `SummaryHandOver.IndentedChildrenNeverCount` | scripts/wallet-forward-supervisor.ts:262-354 | If every child prints an indented summary last and the closing brace parses as none, no child ever counts, at most one is spawned, the target is never reported as reached, and a supervision that spawned a child ends by blaming it or by failing to record it. |
| `SummaryHandOver.SummaryArrivesIffOneLine` | scripts/lib/wallet-forward-sync-primitives.ts:997-999 | A summary printed alone arrives whole exactly if it holds no line break. |
| `Polling.VerdictExact` | scripts/lib/wallet-forward-sync-primitives.ts:941-961 | Polling returns a run exactly if some read was terminal, namely the last one, and times out exactly if every read answered and none was terminal. |
| `Polling.Poller.PollToTerminal` | scripts/lib/wallet-forward-sync-primitives.ts:941-961 | If sleeping takes at least the positive interval asked for each time, polling sleeps between every two reads and nowhere else, ends after at most the rounded-up quotient of timeout and interval plus one reads with the verdict of those reads, never times out early, and times out after exactly that many reads if nothing but the sleeps takes time. |
| `SyncRunnerProtocol.SubmissionsAreBounded` | scripts/wallet-forward-sync-runner.ts:592-1177 | The batch runner submits the recovery window first, ending at the frontier, then gap-free windows from the frontier on, at most as many as allowed, and nothing in a dry run. |
| `SyncRunnerProtocol.RecoveryOnlyIsBounded` | scripts/wallet-forward-sync-runner.ts:592-900 | In recovery-only mode, for options built by any caller, at most one submission happens and it covers exactly the named window ending at the verified frontier. |
| `SyncRunnerProtocol.SubmissionsAreGated` | scripts/wallet-forward-sync-runner.ts:625-1019 | Each submission directly follows all gates of its kind, and every window submitted before it is proven in the log by a durable record directly after its own accepted submission, the poll of the run named then, and its other checks. |
| `SyncRunnerProtocol.PlansAreGated` | scripts/wallet-forward-sync-runner.ts:936-1019 | A window is recorded as planned only in a dry run, not in recovery-only mode, as the next one, and directly after all its gates. |
| `SyncRunnerProtocol.RecoveryPlansAreGated` | scripts/wallet-forward-sync-runner.ts:625-735 | The recovery window is recorded as planned only in a dry run, once, before any window, and directly after all its gates. |
| `SyncRunnerProtocol.VerdictsAreEarned` | scripts/wallet-forward-sync-runner.ts:751-1130 | Every record that judges a window stands directly after its own accepted submission, the poll of the run named then and six more answers, and says clean exactly if they are all good. |
| `SyncRunnerProtocol.RecoveryIsProven` | scripts/wallet-forward-sync-runner.ts:751-876 | In execution, a recovery durably recorded as clean is proven in the log: the record directly follows its accepted submission, the poll of the very run the server named then, and its other checks. |
| `SyncRunner.Runner.Run` | scripts/wallet-forward-sync-runner.ts:553-1178 | For every environment the log alone shows what the outcome is worth: each reason directly follows the answer it stands for, a refused POST being told from a run that never ended and a recovery from a window; the counts, the last number and the recovery reported are those of the durable records; it rejects only after a dependency failed; whatever is counted in execution is proven by a durable record directly after its own accepted run; a recovery-only completion has submitted exactly the recovery window. |
| `SyncRunnerCauses.NeverEndsForAdjacency` | scripts/wallet-forward-sync-runner.ts:972-982 | The adjacency gate repeats what planning guarantees: no run ends for it. |
| `BackfillPlan.PlanOnGrid` | scripts/transfer-backfill-runner.ts:162-215 | For any window size, the plan from the n-th grid edge is the n-th window, clamped at the lower bound, and final exactly if it carries the last number; from the last edge on the campaign is complete. |
| `BackfillPlan.PlannedIffOnGrid` | scripts/transfer-backfill-runner.ts:178-196 | An edge above the lower bound is planned exactly if it lies on the grid. |
| `BackfillPlan.PlannedWindowsPassGates` | scripts/transfer-backfill-runner.ts:276-339 | Planned windows always pass the adjacency and size gates, and the fork gate exactly from the first post-fork block up. |
| `BackfillPlan.CampaignTiles` | scripts/transfer-backfill-runner.ts:112-215 | Planning from the original cursor down yields numbers one to the rounded-up quotient, an exact descending partition, full windows but for the last, and completion, never misalignment. |
| `BackfillPlan.FixedCampaign` | scripts/transfer-backfill-runner.ts:70-130 | The fixed campaign has 9465 windows, the last one of 999 blocks starting at the first post-fork block. |
| `BackfillPlan.VerifyTerminalState` | scripts/transfer-backfill-runner.ts:449-512 | Returns no reason exactly for an acceptable run of the expected kind and range, and otherwise exactly the reasons that hold of the run. |
| `BackfillPlan.CheckpointAllowance` | scripts/transfer-backfill-runner.ts:430-512 | A checkpoint rebuild is accepted exactly if a final one would be, or its warnings are all of the documented class. |
| `BackfillProtocol.DueWindowsAreRebuiltFirst` | scripts/transfer-backfill-runner.ts:1217-1240 | Between a window at which a rebuild is due and any later submission of a window, a rebuild for that very window was submitted behind its gates, accepted, and durably recorded after the poll of the very run the server named then; this needs the rebuild flag. |
| `BackfillProtocol.RebuildDueExactly` | scripts/transfer-backfill-runner.ts:217-229 | A rebuild is due exactly when another twenty-five thousand blocks of the campaign are done, and when the lower bound is reached. |
| `BackfillProtocol.NothingAfterFinalRebuild` | scripts/transfer-backfill-runner.ts:1232-1240 | After a verified final rebuild nothing more is submitted. |
| `BackfillProtocol.SubmissionsWalkTheCampaign` | scripts/transfer-backfill-runner.ts:1003-1243 | The submitted windows are the first ones of the campaign's partition from wherever the cursor stood, each once; all but possibly the last are durably completed, each directly after its own accepted submission, the poll of the run named then, and five good answers; a dry run previews such windows and submits nothing. |
| `BackfillCauses.PlannedWindowsNeverFailGates` | scripts/transfer-backfill-runner.ts:1044-1054 | The three gates between planning and the database reads never fail for a planned window. |
| `BackfillCauses.NeverEndsForGates` | scripts/transfer-backfill-runner.ts:1044-1054 | So no run ends for one of these gates. |
| `BackfillCauses.PostsAreGated` | scripts/transfer-backfill-runner.ts:1056-1118 | A window is submitted only in execution and directly after all its gates, planned from the cursor read there. |
| `BackfillCauses.PlansAreGated` | scripts/transfer-backfill-runner.ts:1056-1105 | A window is recorded as planned only in a dry run and directly after all its gates, planned from the edge reached. |
| `BackfillCauses.VerdictsAreEarned` | scripts/transfer-backfill-runner.ts:1107-1208 | Every record that judges a window stands directly after its gates, its own accepted submission, the poll of the run named then and five more answers, and says clean exactly if they are all good. |
| `BackfillRunner.Backfill.Run` | scripts/transfer-backfill-runner.ts:954-1243 | For every environment the log stays orderly and alone shows what the outcome is worth: each reason directly follows what it stands for, a collision being of the very label planned, a mismatch of the very cursor expected; a complete campaign ends with the proven rebuild of its last window; completed windows, the last number and the limit are truthful; it rejects only after a dependency failed. |
| `BackfillRunner.Backfill.RunRebuild` | scripts/transfer-backfill-runner.ts:1245-1320 | A rebuild is submitted only when owed and gated, passes only if the log ends with the durable record of it, directly after its gates, its accepted submission and the poll of the very run named then, and gives up only for the reason that stands directly before. |
| `HexCodec.MaskIsRemainder` | src/services/hexmining/daily-data-packed-decoder.ts:10-49 | Masking with k one-bits, bit by bit, is the remainder modulo two to the k. |
| `HexCodec.ShiftIsQuotient` | src/services/hexmining/daily-data-packed-decoder.ts:36-53 | Shifting right by n places is the quotient by two to the n. |
| `HexCodec.DecodableIff` | src/services/hexmining/daily-data-packed-decoder.ts:36-53 | A word decodes exactly if it is between zero and two to the 200, exclusive; negative words are told apart. |
| `HexCodec.PackAfterDecode` | src/services/hexmining/daily-data-packed-decoder.ts:36-53 | Every decoded entry is in range and packs to the word it came from. |
| `HexCodec.DecodeAfterPack` | src/services/hexmining/daily-data-packed-decoder.ts:36-53 | Every entry in range packs to a word that decodes to it. |
| `HexCodec.PackInjective` | src/services/hexmining/daily-data-packed-decoder.ts:5-8 | The in-range fields of a word are unique. |
| `HexCodec.DecodePackedRange` | src/services/hexmining/daily-data-packed-decoder.ts:57-69 | Decodes every word in order, or reports the first word that fails with its code and index. |
| `HexCodec.RangeRoundTrip` | src/services/hexmining/daily-data-packed-decoder.ts:57-69 | A range decodes to entries exactly if they are in range and the words are their packing. |
| `HexPayload.RejectNumericValues` | src/services/hexmining/daily-data-payload-decoder.ts:33-44 | The traversal throws exactly if a number stands at some path of the tree. |
| `HexPayload.DecodePayload` | src/services/hexmining/daily-data-payload-decoder.ts:56-115 | Succeeds exactly on trees without numbers whose root is an object of version "v1" with an array of digit strings, returning their values; otherwise names the first failing check with the least failing index. |
| `HexPayload.DecodesOnce` | src/services/hexmining/daily-data-payload-decoder.ts:56-115 | Acceptance and the diagnoses exclude one another, so the result is determined for every tree. |
| `HexPayload.DecodeAfterEncode` | src/services/hexmining/daily-data-observation-service.ts:27-32 | An encoded list of words decodes to itself exactly if no word is negative; otherwise the first negative word is reported. |
| `HexPayload.EncodeAfterDecode` | src/services/hexmining/daily-data-payload-decoder.ts:46-52 | Encoding what was decoded reproduces the strings exactly if none has a redundant leading zero. |
| `HexPayload.RoundTrip` | src/services/hexmining/daily-data-observation-service.ts:27-32 | Entries in range survive packing, encoding, payload decoding and range decoding unchanged. |
| `BlockWindows.BuildAdaptiveWindows` | src/services/ingestion/block-window.ts:16-45 | Refuses a size that is not positive; otherwise the windows cover the range exactly and in order, number the rounded-up quotient, and all but the last are full. |
| `BlockWindows.Split` | src/services/ingestion/block-window.ts:47-66 | Halves a window into two adjacent non-empty ones, the lower one rounded down, and leaves a single block alone. |
| `BlockWindows.SplitKeepsBlocks` | src/services/ingestion/block-window.ts:47-66 | Splitting keeps exactly the blocks, in order. |
| `BlockWindows.LeavesPartition` | src/services/ingestion/block-window.ts:47-66 | Under any stopping rule repeated splitting ends, and its leaves partition the window exactly. |
| `LogFetcher.Fetcher.FetchLogs` | src/services/ingestion/log-fetcher.ts:38-121 | However the client fails, fetching ends within a bound on the calls; success covers exactly the blocks asked for, each once and in order, and reports the windows called for; it gives up only at a window too small to split that, in the last calls made, failed as often as allowed. Every window called for is given or a half of a larger one that failed, a failed one being followed by its lower half if it is larger than the minimum and by itself otherwise. |
| `LogFetcher.FailuresLeaveNoTrace` | src/services/ingestion/log-fetcher.ts:38-121 | With honest answers, the logs of a successful fetch depend on the blocks alone, not on which calls failed or which windows were split. |
| `HexFormat.FractionShown` | src/lib/hex-format.ts:17-18 | The fraction shown has one to eight digits, no trailing zero, and the value of the remainder. |
| `HexFormat.FormatIsTheDisplay` | src/lib/hex-format.ts:8-19 | What is displayed for a digit string is exactly the one display of its value: a canonical numeral, followed only if it is not whole by a point and at most eight digits without a trailing zero. |
| `HexFormat.ParseAfterFormat` | src/lib/hex-format.ts:8-19 | Exactly digit strings are displayed, and the display read as a decimal times a hundred million has the input's value. |
| `HexFormat.SameDisplayIffSameValue` | src/lib/hex-format.ts:8-19 | Two digit strings are displayed alike exactly if their values are equal. |
| `ReasonSlug.SlugMeaning` | scripts/evidence-directed-window-runner.ts:136-146 | A reason is refused exactly if it holds no letter or digit; otherwise its slug is well formed and keeps the first letters and digits of the reason in order, all of them if it is short. |
| `ReasonSlug.SlugJoinsWords` | scripts/evidence-directed-window-runner.ts:136-146 | The slug is made of the maximal runs of letters and digits of the lower-cased reason with one hyphen between each two, cut to 64 characters without a hyphen at the end. |
| `ReasonSlug.SlugsAreFixed` | scripts/evidence-directed-window-runner.ts:136-146 | Every well-formed slug is its own slug. |
| `ReasonSlug.SlugImageAndIdempotence` | scripts/evidence-directed-window-runner.ts:136-146 | The slugs are exactly the hyphen-separated non-empty runs of at most 64 characters in all, and slugging is idempotent. |
| `ReasonSlug.PolicyLabelExact` | scripts/evidence-directed-window-runner.ts:157-163 | A label is the fixed prefix and a well-formed slug within the backend's limit; it is refused exactly if the reason holds no letter or digit. |

## Left out

- SupervisorRunner.Supervisor.RunChildCampaign: the child process is one answer, a parsed summary with exit code and signal; its timeout and standard error are not modelled, and the way through standard output is modelled in SummaryHandOver alone.
- CommandLine.LowerCase: only ASCII letters are lowered; characters whose lower case is an ASCII letter elsewhere in Unicode are not.
- CampaignCliMeaning.ParseCampaignCliArgs: error texts are codes, and numeric values are exact integers where the source rounds above 2^53.
- LogFetcher.Fetcher.FetchLogs: the delays between calls are not modelled.
- Polling.Poller.PollToTerminal: modelled on its own; inside the runners one polling is one answer of the environment, any run or a timeout.
- HexPayload.DecodePayload: the text parser of JSON is not modelled; a text that is not JSON is an absent tree, and property names are unique.
- Reason and detail texts, usage strings, timestamps, the identity of the last attempted window and the contents of evidence records beyond their kind, identity and verdict.
- A failed evidence write is treated as not durable; a write that fails after it became durable is not told apart.
- Clocks that throw, and processes killed between two interactions: a log simply ends there, which the theorems about unfinished logs cover.
- The comparison of a checkpoint's base URL with itself, which cannot fail.
- The server side: synchronisation, cursor merging, operation locks, pricing and rebuilding are only what the runners read back.
- The command lines of the backfill and batch sync runners, environment checks and the decimal capability probe, which would add only easy members.
- Response redaction, URL handling, dashboards, reports, route handlers and user interface.
