/** Polling one synchronisation run until it is terminal or the time is up. The
    database and the clock answer as they please; sleeping takes at least as long
    as asked. */
module Polling {
  import opened Base
  import opened SyncPrimitives
  import Arithmetic

  predicate Terminal(read: Option<SyncRun>) {
    read.Some? && (read.value.status == "COMPLETED" || read.value.status == "FAILED")
  }

  datatype Verdict = Finished(run: SyncRun) | TimedOut(last: Option<SyncRun>) | Failed

  /** Reading goes on only after an answer that is not terminal. */
  predicate Unfinished(answers: seq<Reply<Option<SyncRun>>>) {
    forall i :: 0 <= i < |answers| ==> answers[i].Got? && !Terminal(answers[i].value)
  }

  /** What the last of the answers decides. */
  function VerdictOf(answers: seq<Reply<Option<SyncRun>>>): Verdict
    requires answers != []
  {
    match answers[|answers| - 1]
    case Threw => Failed
    case Got(read) => if Terminal(read) then Finished(read.value) else TimedOut(read)
  }

  /** Whatever the reads of a completed polling were, it returns a run exactly if some
      read was terminal, and times out exactly if every read answered and none was. */
  lemma VerdictExact(answers: seq<Reply<Option<SyncRun>>>)
    requires answers != [] && Unfinished(answers[..|answers| - 1])
    ensures VerdictOf(answers).Finished?
      <==> exists i :: 0 <= i < |answers| && answers[i].Got? && Terminal(answers[i].value)
    ensures VerdictOf(answers).TimedOut? <==> Unfinished(answers)
    ensures forall i :: 0 <= i < |answers| && answers[i].Got? && Terminal(answers[i].value) ==>
      i == |answers| - 1 && VerdictOf(answers) == Finished(answers[i].value.value)
  {
    var front := answers[..|answers| - 1];
    assert forall i :: 0 <= i < |front| ==> front[i] == answers[i];
    assert VerdictOf(answers).Finished? ==> answers[|answers| - 1].Got? && Terminal(answers[|answers| - 1].value);
  }

  /** One more than the sleeps that fit before the deadline. */
  lemma ReadsBounded(interval: nat, timeout: nat, answers: nat)
    requires interval > 0 && answers >= 1
    ensures answers == 1 || interval * (answers - 2) < timeout <==> answers <= Arithmetic.CeilDiv(timeout, interval) + 1
  {
    if answers >= 2 {
      Arithmetic.CeilDivExact(timeout, interval, answers - 1);
    }
  }

  /** With no delay but its own sleeps, polling that times out after n sleeps has slept
      exactly as often as the timeout needs. */
  lemma NapsExact(interval: nat, timeout: nat, n: nat)
    requires interval > 0 && (n == 0 || interval * (n - 1) < timeout) && interval * n >= timeout
    ensures n == Arithmetic.CeilDiv(timeout, interval)
  {
    Arithmetic.CeilDivExact(timeout, interval, n + 1);
    if n > 0 {
      Arithmetic.CeilDivExact(timeout, interval, n);
    }
  }

  class Poller {
    /** Milliseconds shown by the clock. */
    var clock: int
    ghost var answers: seq<Reply<Option<SyncRun>>>
    /** The sleeps asked for, and the milliseconds that passed beyond them. */
    ghost var naps: seq<nat>
    ghost var delay: nat

    constructor (clock: int)
      ensures this.clock == clock && answers == [] && naps == [] && delay == 0
    {
      this.clock, answers, naps, delay := clock, [], [], 0;
    }

    /** Time passes as the environment pleases. */
    method Now() returns (t: int)
      modifies this`clock, this`delay
      ensures t == clock && delay >= old(delay) && clock - old(clock) == delay - old(delay)
    {
      var elapsed: int := *;
      if elapsed > 0 {
        clock := clock + elapsed;
        delay := delay + elapsed;
      }
      t := clock;
    }

    method Sleep(ms: nat)
      modifies this`clock, this`delay, this`naps
      ensures naps == old(naps) + [ms]
      ensures delay >= old(delay) && clock - old(clock) == ms + delay - old(delay)
    {
      clock := clock + ms;
      naps := naps + [ms];
      var overslept := Now();
    }

    method FindRun() returns (run: Reply<Option<SyncRun>>)
      modifies this`answers, this`clock, this`delay
      ensures answers == old(answers) + [run]
      ensures delay >= old(delay) && clock - old(clock) == delay - old(delay)
    {
      run := *;
      answers := answers + [run];
      var answered := Now();
    }

    method PollToTerminal(interval: nat, timeout: nat) returns (verdict: Verdict)
      requires interval > 0 && answers == [] && naps == [] && delay == 0
      modifies this
      ensures answers != [] && Unfinished(answers[..|answers| - 1])
      ensures verdict == VerdictOf(answers)
      ensures |answers| <= Arithmetic.CeilDiv(timeout, interval) + 1
      ensures |naps| == |answers| - 1 && forall i :: 0 <= i < |naps| ==> naps[i] == interval
      ensures clock == old(clock) + interval * |naps| + delay
      ensures verdict.TimedOut? ==> clock >= old(clock) + timeout
      ensures verdict.TimedOut? && delay == 0 ==> |answers| == Arithmetic.CeilDiv(timeout, interval) + 1
    {
      var start := Now();
      var deadline := start + timeout;
      while true
        invariant Unfinished(answers)
        invariant start >= old(clock) && clock >= start + interval * |answers|
        invariant clock == old(clock) + interval * |naps| + delay
        invariant |naps| == |answers| && forall i :: 0 <= i < |naps| ==> naps[i] == interval
        invariant |answers| >= 1 ==> interval * (|answers| - 1) < timeout
        decreases deadline - clock
      {
        ghost var before := answers;
        var run := FindRun();
        assert answers[..|answers| - 1] == before;
        ReadsBounded(interval, timeout, |answers|);
        match run {
          case Threw => return Failed;
          case Got(read) =>
            if Terminal(read) {
              return Finished(read.value);
            }
            var now := Now();
            if now >= deadline {
              TimedOutExactly(interval, timeout);
              return TimedOut(read);
            }
            Arithmetic.Distribute(interval, |answers|, 1);
            Sleep(interval);
        }
      }
    }

    lemma TimedOutExactly(interval: nat, timeout: nat)
      requires interval > 0 && answers != [] && |naps| == |answers| - 1 && interval * |naps| + delay >= timeout
      requires |answers| == 1 || interval * (|answers| - 2) < timeout
      ensures delay == 0 ==> |answers| == Arithmetic.CeilDiv(timeout, interval) + 1
    {
      if delay == 0 {
        NapsExact(interval, timeout, |naps|);
      }
    }
  }
}
