/** The promises of the campaign runner, for every run and every environment. */
module CampaignTheorems {
  import opened Base
  import opened SyncPrimitives
  import opened RecoveryWarnings
  import opened CampaignPlan
  import opened CampaignMachine
  import opened CampaignSafety
  import opened CampaignStart
  import Arithmetic

  predicate Finished(o: Options, log: seq<Event>, summary: Summary)
    requires Usable(o)
  {
    Replay(o, log).phase == Ended(summary)
  }

  // ----- how far a log has come

  lemma {:induction false} WindowCountFixed(o: Options, log: seq<Event>)
    requires Usable(o)
    ensures Replay(o, log).loop.windowCount == CheckOptions(o).windowCount
  {
    if log != [] {
      WindowCountFixed(o, log[..|log| - 1]);
      StepKeepsWindowCount(o, Replay(o, log[..|log| - 1]), log[|log| - 1]);
    }
  }

  lemma StepKeepsWindowCount(o: Options, s: State, e: Event)
    requires o.windowSize > 0 && o.checkpointInterval > 0
    ensures Next(o, s, e).loop.windowCount == s.loop.windowCount
  {
    hide EligibleSource, Accepts, ReconciledWith, PlanWindow, CursorMatches, LabelFits, ForwardAdjacent, PlanningEdge,
      PlannedWithinBoundary, IntendedRecovery, NextRowCheck, EffectiveFirstWindowStart, Budget;
  }

  /** Whatever phase a run is in, its submissions so far are bounded and intended. */
  lemma PostsSoFar(o: Options, s: State, h: History)
    requires Inv(o, s, h) && s.phase != Stuck
    ensures !o.execute ==> h.posts == [] && h.recoveryPosts == []
    ensures |h.recoveryPosts| <= 1
    ensures h.recoveryPosts != [] ==> o.recovery.Some? && h.recoveryPosts == [IntendedRecovery(o)]
    ensures |h.posts| <= Budget(o, s.loop) && h.posts == IntendedWindows(o, |h.posts|)
    ensures h.postsSinceCheckpoint <= SpacingBound(o) || !o.execute
  {
    match s.phase
    case Checking(_) => StopFromLoop(o, s.loop, h, s.loop.iteration + 1, 0, true);
    case WindowGates(_, _) => StopFromLoop(o, s.loop, h, s.loop.iteration, 0, false);
    case Summarising => StopFromLoop(o, s.loop, h, s.loop.iteration, 0, false);
    case Submitting(target, _, step) =>
      if target.OrdinaryWindow? {
        StopFromLoop(o, s.loop, h, s.loop.iteration, if step.AwaitPost? then 0 else 1, false);
      }
    case _ =>
  }

  // ----- submissions

  /** However the environment behaves, a run submits nothing but the intended
      windows, in order and at most once each, plus at most one recovery window;
      nothing reaches past the authorised final block and a dry run submits nothing. */
  lemma SubmissionsAreIntended(o: Options, log: seq<Event>)
    requires Usable(o) && Follows(o, log)
    ensures var h := HistoryOf(log);
      && h.posts == IntendedWindows(o, |h.posts|)
      && |h.posts| <= EffectiveMaxWindows(o)
      && (h.recoveryPosts == [] || (o.recovery.Some? && h.recoveryPosts == [IntendedRecovery(o)]))
      && (!o.execute ==> h.posts == [] && h.recoveryPosts == [])
      && (forall i :: 0 <= i < |h.posts| ==> h.posts[i].request.endBlock <= o.authorizedFinalBlock)
      && (h.recoveryPosts != [] ==> h.recoveryPosts[0].endBlock <= o.authorizedFinalBlock)
      && (forall i, j :: 0 <= i < j < |h.posts| ==> h.posts[i].request.policyLabel != h.posts[j].request.policyLabel)
  {
    hide Replay, HistoryOf, Inv, IntendedWindow, WindowLabel, CheckOptions;
    EveryRun(o, log);
    WindowCountFixed(o, log);
    var h := HistoryOf(log);
    PostsSoFar(o, Replay(o, log), h);
    forall i | 0 <= i < |h.posts| ensures h.posts[i].request.endBlock <= o.authorizedFinalBlock {
      IntentStaysAuthorised(o, i);
    }
    if h.recoveryPosts != [] {
      RecoveryStaysAuthorised(o);
    }
    forall i, j | 0 <= i < j < |h.posts| ensures h.posts[i].request.policyLabel != h.posts[j].request.policyLabel {
      IntentsAreLabelledApart(o, i, j);
    }
  }

  lemma RecoveryStaysAuthorised(o: Options)
    requires Usable(o) && o.recovery.Some?
    ensures IntendedRecovery(o).endBlock <= o.authorizedFinalBlock
  {
  }

  lemma IntentsAreLabelledApart(o: Options, i: nat, j: nat)
    requires i != j
    ensures IntendedWindow(o, i).request.policyLabel != IntendedWindow(o, j).request.policyLabel
  {
    hide WindowLabel;
    var m, n := FirstOrdinaryNumber(o) + i, FirstOrdinaryNumber(o) + j;
    if WindowLabel(o.policyLabelPrefix, o.campaignId, m) == WindowLabel(o.policyLabelPrefix, o.campaignId, n) {
      WindowLabelInjective(o.policyLabelPrefix, o.campaignId, m, n);
    }
  }

  /** Consecutive submissions leave no gap and no overlap, from the first ordinary
      window start onwards. */
  lemma SubmissionsTile(o: Options, log: seq<Event>, k: nat)
    requires Usable(o) && Follows(o, log) && k < |HistoryOf(log).posts|
    ensures var request := HistoryOf(log).posts[k].request;
      && request.startBlock == EffectiveFirstWindowStart(o) + 1000 * k
      && request.endBlock == request.startBlock + 999
  {
    SubmissionsAreIntended(o, log);
  }

  // ----- inside one submission

  /** A submission step is entered only from inside the same submission. */
  lemma OnlySubmissionsLeadOn(o: Options, s: State, e: Event)
    requires o.windowSize > 0 && o.checkpointInterval > 0
    requires Next(o, s, e).phase.Submitting? && !Next(o, s, e).phase.submit.AwaitPost?
    ensures s.phase.Submitting?
    ensures Next(o, s, e) == NextSubmit(o, s, s.phase.target, s.phase.request, s.phase.submit, e)
  {
    hide NextSubmit, EligibleSource, PlanWindow, CursorMatches, LabelFits, ForwardAdjacent, PlanningEdge,
      PlannedWithinBoundary, IntendedRecovery, EffectiveFirstWindowStart, Budget;
  }

  lemma SubmitRecordLeavesSubmission(o: Options, s: State, e: Event)
    requires o.checkpointInterval > 0 && s.phase.Submitting? && s.phase.submit.AwaitResultRecord?
    ensures !NextSubmit(o, s, s.phase.target, s.phase.request, s.phase.submit, e).phase.Submitting?
  {
    hide Accepts, ReconciledWith;
  }

  // ----- every poll is of a run this submission produced

  /** The log ends with what makes this run the one of a submission: its POST was accepted
      and named the run; or its POST was ambiguous, and the one persisted run that matches
      its request is this one. */
  predicate OwnRun(log: seq<Event>, target: Target, want: Expectation, runId: string) {
    && runId != ""
    && (|| (log != [] && Last(log, 1) == Post(target, want.request, Got(Response(202, runId))))
        || (&& |log| >= 2 && Last(log, 2) == Post(target, want.request, Threw)
            && Last(log, 1).Candidates? && Last(log, 1).policyLabel == want.request.policyLabel
            && Last(log, 1).runs.Got? && |Last(log, 1).runs.value| == 1
            && Identifies(Last(log, 1).runs.value[0], want) && Last(log, 1).runs.value[0].id == runId))
  }

  lemma EnteredPoll(o: Options, s: State, e: Event, target: Target, request: Request, runId: string)
    requires o.windowSize > 0 && o.checkpointInterval > 0
    requires Next(o, s, e).phase == Submitting(target, request, AwaitPoll(runId))
    ensures runId != ""
    ensures || e == Post(target, request, Got(Response(202, runId)))
            || (&& s.phase == Submitting(target, request, AwaitCandidates)
                && e.Candidates? && e.policyLabel == request.policyLabel && e.runs.Got?
                && ReconciledWith(e.runs.value, Expectation(s.walletId, o.chainId, request))
                && e.runs.value[0].id == runId)
  {
    hide Accepts, ReconciledWith, AfterWindow, AfterWindowRecord, AfterRecoveryRecord;
    OnlySubmissionsLeadOn(o, s, e);
    hide Next;
    if s.phase.submit.AwaitResultRecord? {
      SubmitRecordLeavesSubmission(o, s, e);
    }
  }

  lemma EnteredCandidates(o: Options, s: State, e: Event, target: Target, request: Request)
    requires o.windowSize > 0 && o.checkpointInterval > 0
    requires Next(o, s, e).phase == Submitting(target, request, AwaitCandidates)
    ensures s.phase == Submitting(target, request, AwaitPost) && e == Post(target, request, Threw)
    ensures s.walletId == Next(o, s, e).walletId
  {
    hide Accepts, ReconciledWith, AfterWindow, AfterWindowRecord, AfterRecoveryRecord;
    OnlySubmissionsLeadOn(o, s, e);
    hide Next;
    if s.phase.submit.AwaitResultRecord? {
      SubmitRecordLeavesSubmission(o, s, e);
    }
  }

  lemma PollNeedsPhase(o: Options, s: State, runId: string, outcome: Reply<Option<SyncRun>>)
    requires o.windowSize > 0 && o.checkpointInterval > 0
    requires Next(o, s, Polled(runId, outcome)).phase != Stuck
    ensures s.phase.Submitting? && s.phase.submit == AwaitPoll(runId)
  {
    hide EligibleSource, Accepts, ReconciledWith, PlanWindow;
  }

  lemma PollIsOwn(o: Options, log: seq<Event>, target: Target, request: Request, runId: string)
    requires Usable(o) && Replay(o, log).phase == Submitting(target, request, AwaitPoll(runId))
    ensures OwnRun(log, target, Expectation(WalletOf(log), o.chainId, request), runId)
  {
    hide Next, CheckOptions, Identifies;
    var n := |log|;
    assert n >= 1;
    StartRead(o, log);
    EnteredPoll(o, Replay(o, log[..n - 1]), log[n - 1], target, request, runId);
    if log[n - 1].Candidates? {
      assert n >= 2 && log[..n - 1][..n - 2] == log[..n - 2];
      EnteredCandidates(o, Replay(o, log[..n - 2]), log[n - 2], target, request);
      WalletKept(o, Replay(o, log[..n - 1]), log[n - 1]);
    }
  }

  /** A run is polled only if the server accepted the POST directly before and named it,
      or if that POST was ambiguous and the one persisted run that matches it in label,
      wallet, chain, source family and range is this one. An ambiguous POST is never
      repeated. */
  lemma EveryPollIsReconciled(o: Options, log: seq<Event>, runId: string, outcome: Reply<Option<SyncRun>>)
    requires Usable(o) && Follows(o, log + [Polled(runId, outcome)])
    ensures exists target, request :: OwnRun(log, target, Expectation(WalletOf(log), o.chainId, request), runId)
  {
    hide Next, CheckOptions, OwnRun;
    ReplaySnoc(o, log, Polled(runId, outcome));
    var s := Replay(o, log);
    PollNeedsPhase(o, s, runId, outcome);
    PollIsOwn(o, log, s.phase.target, s.phase.request, runId);
  }

  lemma WalletKept(o: Options, s: State, e: Event)
    requires o.windowSize > 0 && o.checkpointInterval > 0 && s.phase.Submitting? && s.phase.submit.AwaitCandidates?
    ensures Next(o, s, e).walletId == s.walletId
  {
    hide NextStart, NextRecoveryGate, NextWindowGate, NextCheck, ReconciledWith;
  }

  // ----- evidence accounting

  /** Evidence writes may fail at any moment; still, when a run ends, the windows it
      counts are exactly those with a durable clean record, in order, and it has
      submitted at most one more than it counts. */
  lemma EvidenceAccountsForSubmissions(o: Options, log: seq<Event>, summary: Summary)
    requires Usable(o) && Finished(o, log, summary)
    ensures var h := HistoryOf(log);
      && h.completed == IntendedWindows(o, summary.windowsCompleted)
      && (o.execute ==> summary.windowsCompleted <= |h.posts| <= summary.windowsCompleted + 1)
      && (!o.execute ==> summary.windowsCompleted == 0)
      && h.completed <= h.posts
      && h.checkpoints == summary.checkpointsPassed
  {
    EveryRun(o, log);
    var h := HistoryOf(log);
    PostsSoFar(o, Replay(o, log), h);
    PrefixOfIntent(o, summary.windowsCompleted, |h.posts|);
  }

  lemma PrefixOfIntent(o: Options, m: nat, n: nat)
    ensures m <= n ==> IntendedWindows(o, m) <= IntendedWindows(o, n)
  {
  }

  /** A clean stop reason means the whole approved campaign happened: the summary is
      the last durable record, every approved window was submitted (or, in a dry run,
      planned), and the reason says truthfully which limit was met. */
  lemma CleanMeansComplete(o: Options, log: seq<Event>, summary: Summary)
    requires Usable(o) && Finished(o, log, summary) && summary.reason.Clean()
    ensures var h, n := HistoryOf(log), EffectiveMaxWindows(o);
      && LastDurable(log) == Some(CampaignSummary(summary))
      && summary.reason == CompletionReason(o)
      && summary.windowsCompleted == (if o.execute then n else 0)
      && summary.lastWindowNumber == Some(FirstOrdinaryNumber(o) + n - 1)
      && (if o.execute then h.posts == h.completed == IntendedWindows(o, n) else h.planned == IntendedWindows(o, n))
      && (|h.recoveryPosts| == if o.execute && o.recovery.Some? then 1 else 0)
      && (summary.reason.AuthorizedFinalBlockReached? ==>
           IntendedWindow(o, n - 1).request.endBlock == o.authorizedFinalBlock)
  {
    hide Next;
    EveryRun(o, log);
    WindowCountFixed(o, log);
    EveryRun(o, log[..|log| - 1]);
    CleanEndIsRecorded(o, Replay(o, log[..|log| - 1]), log[|log| - 1], summary);
    IntentStaysAuthorised(o, EffectiveMaxWindows(o) - 1);
  }

  lemma SubmissionEndsInFailure(o: Options, s: State, e: Event, summary: Summary)
    requires o.windowSize > 0 && o.checkpointInterval > 0 && s.phase.Submitting?
    requires Next(o, s, e).phase == Ended(summary)
    ensures !summary.reason.Clean()
  {
    hide NextStart, NextRecoveryGate, NextWindowGate, NextCheck, Accepts, ReconciledWith, CursorMatches, Budget;
  }

  lemma CleanEndIsRecorded(o: Options, s: State, e: Event, summary: Summary)
    requires o.windowSize > 0 && o.checkpointInterval > 0
    requires Next(o, s, e).phase == Ended(summary) && summary.reason.Clean()
    requires s.phase.Stopping? ==> !s.phase.summary.reason.Clean()
    ensures e == Write(CampaignSummary(summary), true)
  {
    hide NextStart, NextRecoveryGate, NextWindowGate, NextSubmit, NextCheck;
    if s.phase.Submitting? {
      SubmissionEndsInFailure(o, s, e, summary);
    } else if s.phase.Starting? || s.phase.RecoveryGates? || s.phase.WindowGates? || s.phase.Checking? {
      GatesEndInFailure(o, s, e, summary);
    }
  }

  lemma GatesEndInFailure(o: Options, s: State, e: Event, summary: Summary)
    requires o.windowSize > 0 && o.checkpointInterval > 0
    requires s.phase.Starting? || s.phase.RecoveryGates? || s.phase.WindowGates? || s.phase.Checking?
    requires Next(o, s, e).phase == Ended(summary)
    ensures !summary.reason.Clean()
  {
    hide NextSubmit, EligibleSource, PlanWindow, CursorMatches, LabelFits, ForwardAdjacent, PlanningEdge,
      PlannedWithinBoundary, IntendedRecovery, EffectiveFirstWindowStart, Budget;
  }

  // ----- checkpoints

  /** A clean run passes a checkpoint each time the number of processed windows,
      a real recovery included, reaches a multiple of the interval. */
  lemma CleanRunPassesEveryCheckpoint(o: Options, log: seq<Event>, summary: Summary)
    requires Usable(o) && Finished(o, log, summary) && summary.reason.Clean()
    ensures var c, n := o.checkpointInterval, EffectiveMaxWindows(o);
      var r := if o.execute && o.recovery.Some? then 1 else 0;
      summary.checkpointsPassed == HistoryOf(log).checkpoints == (r + n) / c - r / c
  {
    hide Next;
    EveryRun(o, log);
    WindowCountFixed(o, log);
  }

  /** At no moment have more submissions been made since the last checkpoint than the
      interval allows, which is never more than 25; only an interval of one combined
      with a recovery lets two through. */
  lemma CheckpointSpacing(o: Options, log: seq<Event>)
    requires Usable(o) && o.execute && Follows(o, log)
    ensures var since := HistoryOf(log).postsSinceCheckpoint;
      && since <= MAX_CHECKPOINT_INTERVAL
      && (o.checkpointInterval >= 2 || o.recovery.None? ==> since <= o.checkpointInterval)
      && (o.checkpointInterval == 1 && o.recovery.Some? ==> since <= 2)
  {
    EveryRun(o, log);
    PostsSoFar(o, Replay(o, log), HistoryOf(log));
  }

  /** When a checkpoint passes, the submissions since the one before it number
      exactly the interval; before the first one, exactly two if the interval is one
      and a recovery window came first. */
  lemma CheckpointSpacingIsExact(o: Options, log: seq<Event>, processed: nat, completed: nat)
    requires Usable(o) && o.execute && Follows(o, log + [Write(Checkpoint(processed, completed, true), true)])
    ensures var h := HistoryOf(log);
      h.postsSinceCheckpoint ==
        if h.checkpoints == 0 && o.checkpointInterval == 1 && o.recovery.Some? then 2 else o.checkpointInterval
  {
    hide Next, Replay;
    ReplaySnoc(o, log, Write(Checkpoint(processed, completed, true), true));
    EveryRun(o, log);
    var s := Replay(o, log);
    CheckpointNeedsPhase(o, s, processed, completed);
    hide Progress, Spaced, CheckOptions;
    RecoveredWhenAsked(o, s, HistoryOf(log));
    DueSpacing(o, s.loop, HistoryOf(log), s.loop.iteration + 1);
  }

  lemma RecoveredWhenAsked(o: Options, s: State, h: History)
    requires o.execute && Inv(o, s, h) && s.phase.Checking?
    ensures Recovered(s.loop) == if o.recovery.Some? then 1 else 0
  {
  }

  lemma DueSpacing(o: Options, l: Loop, h: History, done: nat)
    requires o.checkpointInterval > 0 && o.execute && Spaced(o, l, h, done, 0, true)
    ensures h.checkpoints == 0 && o.checkpointInterval == 1 ==> h.postsSinceCheckpoint == 1 + Recovered(l)
    ensures h.checkpoints > 0 || o.checkpointInterval > 1 ==> h.postsSinceCheckpoint == o.checkpointInterval
  {
    var c, r, p := o.checkpointInterval, Recovered(l), Recovered(l) + done;
    if l.checkpointsPassed == 0 {
      if c == 1 {
        Arithmetic.DivOne(p);
        Arithmetic.DivOne(r);
      } else {
        Arithmetic.SmallQuotient(r, c);
        Arithmetic.QuotientAtMostOne(p, c);
      }
    }
  }

  lemma CheckpointNeedsPhase(o: Options, s: State, processed: nat, completed: nat)
    requires o.windowSize > 0 && o.checkpointInterval > 0
    requires Next(o, s, Write(Checkpoint(processed, completed, true), true)).phase != Stuck
    ensures s.phase.Checking?
  {
    hide EligibleSource, RecoveryAcceptable, StrictlyClean, Identifies, LogicalWindowNumber;
  }

  // ----- defence in depth

  /** The gates that repeat what planning already guarantees never fire: whatever the
      environment answers, no run stops for an adjacency violation or for a window
      past the authorised final block. */
  lemma RedundantGatesNeverFire(o: Options, log: seq<Event>, summary: Summary)
    requires Usable(o) && Finished(o, log, summary)
    ensures !summary.reason.AdjacencyViolation? && !summary.reason.AuthorizedFinalBlockExceeded?
  {
    EveryRun(o, log);
  }
}
