/** Fetching logs window by window from a client that may fail at any call: failing
    windows are split while they are large enough, then retried, then given up. */
module LogFetcher {
  import opened Base
  import opened BlockWindows
  import Arithmetic

  type Log = string

  datatype Attempt = Attempt(window: BlockWindow, number: nat)

  /** One successful call with its answer. */
  datatype Fetch = Fetch(window: BlockWindow, logs: seq<Log>)

  /** One call, whatever came of it. */
  datatype Call = Call(window: BlockWindow, reply: Reply<seq<Log>>)

  datatype Outcome = Fetched(logs: seq<Log>, attempted: seq<BlockWindow>) | GaveUp(window: BlockWindow) | BadArguments

  function Windows(queue: seq<Attempt>): (ws: seq<BlockWindow>)
    ensures |ws| == |queue|
    ensures forall i :: 0 <= i < |queue| ==> ws[i] == queue[i].window
  {
    seq(|queue|, i requires 0 <= i < |queue| => queue[i].window)
  }

  function Fetches(trace: seq<Fetch>): (ws: seq<BlockWindow>)
    ensures |ws| == |trace|
    ensures forall i :: 0 <= i < |trace| ==> ws[i] == trace[i].window
  {
    seq(|trace|, i requires 0 <= i < |trace| => trace[i].window)
  }

  function Logs(trace: seq<Fetch>): seq<Log> {
    if trace == [] then [] else Logs(trace[..|trace| - 1]) + trace[|trace| - 1].logs
  }

  /** The successful calls. */
  function Trace(calls: seq<Call>): seq<Fetch> {
    if calls == [] then []
    else
      var last := calls[|calls| - 1];
      Trace(calls[..|calls| - 1]) + (if last.reply.Got? then [Fetch(last.window, last.reply.value)] else [])
  }

  lemma TraceSnoc(calls: seq<Call>, call: Call)
    ensures Trace(calls + [call])
         == if call.reply.Got? then Trace(calls) + [Fetch(call.window, call.reply.value)] else Trace(calls)
  {
    assert (calls + [call])[..|calls|] == calls;
  }

  function Asked(calls: seq<Call>): (ws: seq<BlockWindow>)
    ensures |ws| == |calls|
    ensures forall i :: 0 <= i < |calls| ==> ws[i] == calls[i].window
  {
    seq(|calls|, i requires 0 <= i < |calls| => calls[i].window)
  }

  /** The last n calls were all for this window, and all failed. */
  predicate FailedLast(calls: seq<Call>, w: BlockWindow, n: nat) {
    n <= |calls| && forall i :: |calls| - n <= i < |calls| ==> calls[i] == Call(w, Threw)
  }

  // ----- how many calls a queue can still cause

  function Extent(w: BlockWindow): (n: nat)
    ensures n >= 1
  {
    if Size(w) < 1 then 1 else Size(w)
  }

  /** The calls that one window of n blocks can cause with m attempts each is m for each
      of the at most 2n - 1 windows it can be split into. */
  function CallsFor(w: BlockWindow, m: nat): nat {
    (2 * Extent(w) - 1) * m
  }

  function Budget(queue: seq<Attempt>, m: nat): int {
    if queue == [] then 0 else CallsFor(queue[0].window, m) - queue[0].number + 1 + Budget(queue[1..], m)
  }

  predicate Started(queue: seq<Attempt>, m: nat) {
    forall i :: 0 <= i < |queue| ==> 1 <= queue[i].number <= m
  }

  lemma CallsAtLeast(w: BlockWindow, m: nat)
    ensures CallsFor(w, m) >= m
  {
    Arithmetic.ProductMonotone(if m == 0 then 1 else m, 1, 2 * Extent(w) - 1);
  }

  lemma {:induction false} BudgetPositive(queue: seq<Attempt>, m: nat)
    requires Started(queue, m)
    ensures Budget(queue, m) >= |queue|
  {
    if queue != [] {
      CallsAtLeast(queue[0].window, m);
      BudgetPositive(queue[1..], m);
    }
  }

  lemma SplitCalls(w: BlockWindow, m: nat)
    requires Size(w) > 1
    ensures CallsFor(Split(w)[0], m) + CallsFor(Split(w)[1], m) == CallsFor(w, m) - m
  {
    var a, b := Extent(Split(w)[0]), Extent(Split(w)[1]);
    assert Extent(w) == a + b;
    assert (2 * a - 1) * m + (2 * b - 1) * m == (2 * (a + b) - 1) * m - m;
  }

  // ----- the queue

  function FirstAttempts(ws: seq<BlockWindow>): (queue: seq<Attempt>)
    ensures |queue| == |ws|
    ensures forall i :: 0 <= i < |ws| ==> queue[i] == Attempt(ws[i], 1)
  {
    seq(|ws|, i requires 0 <= i < |ws| => Attempt(ws[i], 1))
  }

  lemma PopBlocks(queue: seq<Attempt>)
    requires queue != []
    ensures Blocks(Windows(queue))
      == Range(queue[0].window.fromBlock, queue[0].window.toBlock) + Blocks(Windows(queue[1..]))
  {
    assert Windows(queue)[1..] == Windows(queue[1..]);
  }

  lemma PushSplitBlocks(w: BlockWindow, rest: seq<Attempt>)
    ensures Blocks(Windows(FirstAttempts(Split(w)) + rest)) == Range(w.fromBlock, w.toBlock) + Blocks(Windows(rest))
  {
    assert Windows(FirstAttempts(Split(w)) + rest) == Split(w) + Windows(rest);
    BlocksConcat(Split(w), Windows(rest));
    SplitKeepsBlocks(w);
  }

  lemma PushSplitBudget(w: BlockWindow, number: nat, rest: seq<Attempt>, m: nat)
    requires Size(w) > 1 && 1 <= number <= m
    ensures Budget(FirstAttempts(Split(w)) + rest, m) < Budget([Attempt(w, number)] + rest, m)
  {
    var parts := FirstAttempts(Split(w));
    assert (parts + rest)[1..] == [parts[1]] + rest && ([parts[1]] + rest)[1..] == rest;
    assert ([Attempt(w, number)] + rest)[1..] == rest;
    SplitCalls(w, m);
  }

  /** A successful call moves the blocks of the first window from the queue to the trace. */
  lemma FetchedFirst(trace: seq<Fetch>, queue: seq<Attempt>, logs: seq<Log>)
    requires queue != []
    ensures var trace' := trace + [Fetch(queue[0].window, logs)];
      && Blocks(Fetches(trace')) + Blocks(Windows(queue[1..])) == Blocks(Fetches(trace)) + Blocks(Windows(queue))
      && Logs(trace') == Logs(trace) + logs
  {
    hide Range;
    var w := queue[0].window;
    var trace' := trace + [Fetch(w, logs)];
    assert trace'[..|trace'| - 1] == trace;
    assert Fetches(trace') == Fetches(trace) + [w];
    BlocksConcat(Fetches(trace), [w]);
    BlocksOne(w);
    PopBlocks(queue);
  }

  lemma SplitFirst(queue: seq<Attempt>, m: nat)
    requires queue != [] && Started(queue, m) && Size(queue[0].window) > 1
    ensures var queue' := FirstAttempts(Split(queue[0].window)) + queue[1..];
      Started(queue', m) && Blocks(Windows(queue')) == Blocks(Windows(queue)) && Budget(queue', m) < Budget(queue, m)
  {
    hide Range, CallsFor;
    var w, rest := queue[0].window, queue[1..];
    assert queue == [Attempt(w, queue[0].number)] + rest;
    PopBlocks(queue);
    PushSplitBlocks(w, rest);
    PushSplitBudget(w, queue[0].number, rest, m);
  }

  lemma RetryFirst(queue: seq<Attempt>, m: nat)
    requires queue != [] && Started(queue, m) && queue[0].number < m
    ensures var queue' := [Attempt(queue[0].window, queue[0].number + 1)] + queue[1..];
      Started(queue', m) && Blocks(Windows(queue')) == Blocks(Windows(queue)) && Budget(queue', m) < Budget(queue, m)
  {
    hide Range, CallsFor;
    var queue' := [Attempt(queue[0].window, queue[0].number + 1)] + queue[1..];
    assert queue'[1..] == queue[1..];
    PopBlocks(queue);
    PopBlocks(queue');
  }

  lemma DropFirst(queue: seq<Attempt>, m: nat)
    requires queue != [] && Started(queue, m)
    ensures Started(queue[1..], m) && Budget(queue[1..], m) < Budget(queue, m)
  {
    CallsAtLeast(queue[0].window, m);
  }

  /** A first window at its n-th attempt has just failed n - 1 times; the others wait for
      their first attempt. */
  predicate AttemptsCounted(queue: seq<Attempt>, calls: seq<Call>) {
    && (queue != [] ==> queue[0].number >= 1 && FailedLast(calls, queue[0].window, queue[0].number - 1))
    && forall i :: 1 <= i < |queue| ==> queue[i].number == 1
  }

  // ----- which calls are made

  /** The window is given, or a half of one that failed and was large enough to split. */
  predicate Arises(windows: seq<BlockWindow>, calls: seq<Call>, w: BlockWindow, minSize: int) {
    w in windows || exists j :: 0 <= j < |calls| && SplitsInto(calls[j], w, minSize)
  }

  predicate SplitsInto(call: Call, w: BlockWindow, minSize: int) {
    call.reply.Threw? && Size(call.window) > minSize && w in Split(call.window)
  }

  /** After a failed call the next one is for the lower half of its window, if that is
      larger than the minimum, and otherwise for the same window again. */
  predicate NextAfter(call: Call, next: BlockWindow, minSize: int) {
    call.reply.Threw? ==> next == if Size(call.window) > minSize then Split(call.window)[0] else call.window
  }

  /** Every call is for a window that arises from the calls before it and comes next after
      the one directly before, and no small window fails more often in a row than allowed. */
  ghost predicate Lawful(windows: seq<BlockWindow>, calls: seq<Call>, minSize: int, maxAttempts: int) {
    && (forall i :: 0 <= i < |calls| ==> Arises(windows, calls[..i], calls[i].window, minSize))
    && (forall i :: 0 < i < |calls| ==> NextAfter(calls[i - 1], calls[i].window, minSize))
    && forall i, w, n: nat :: 0 <= i <= |calls| && Size(w) <= minSize && FailedLast(calls[..i], w, n) ==>
         n <= maxAttempts
  }

  /** What the queue holds for that. */
  ghost predicate QueueLawful(windows: seq<BlockWindow>, calls: seq<Call>, queue: seq<Attempt>, minSize: int) {
    && (forall i :: 0 <= i < |queue| ==> Arises(windows, calls, queue[i].window, minSize))
    && (calls != [] && calls[|calls| - 1].reply.Threw? ==> queue != [])
    && (queue != [] ==>
          && (calls != [] ==> NextAfter(calls[|calls| - 1], queue[0].window, minSize))
          && forall w :: Size(w) <= minSize ==> !FailedLast(calls, w, queue[0].number))
  }

  lemma ArisesStill(windows: seq<BlockWindow>, calls: seq<Call>, call: Call, w: BlockWindow, minSize: int)
    requires Arises(windows, calls, w, minSize)
    ensures Arises(windows, calls + [call], w, minSize)
  {
    hide SplitsInto;
    if w !in windows {
      var j :| 0 <= j < |calls| && SplitsInto(calls[j], w, minSize);
      assert SplitsInto((calls + [call])[j], w, minSize);
    }
  }

  lemma FailedSnoc(calls: seq<Call>, call: Call, w: BlockWindow, n: nat)
    ensures FailedLast(calls + [call], w, n) <==> n == 0 || (call == Call(w, Threw) && FailedLast(calls, w, n - 1))
  {
    var calls' := calls + [call];
    if n > 0 && FailedLast(calls', w, n) {
      assert calls'[|calls|] == call;
      assert forall i :: |calls| - (n - 1) <= i < |calls| ==> calls[i] == calls'[i];
    }
  }

  lemma FailedLess(calls: seq<Call>, w: BlockWindow, n: nat, m: nat)
    requires FailedLast(calls, w, n) && m <= n
    ensures FailedLast(calls, w, m)
  {
  }

  /** One more lawful call keeps the calls lawful. */
  lemma LawfulSnoc(
      windows: seq<BlockWindow>, calls: seq<Call>, queue: seq<Attempt>, reply: Reply<seq<Log>>, minSize: int,
      maxAttempts: int)
    requires Lawful(windows, calls, minSize, maxAttempts) && QueueLawful(windows, calls, queue, minSize)
    requires queue != [] && 1 <= queue[0].number <= maxAttempts
    ensures Lawful(windows, calls + [Call(queue[0].window, reply)], minSize, maxAttempts)
  {
    hide Arises, NextAfter, FailedLast, Split;
    var call := Call(queue[0].window, reply);
    var calls' := calls + [call];
    assert forall i :: 0 <= i <= |calls| ==> calls'[..i] == calls[..i];
    assert calls'[..|calls|] == calls && calls'[..|calls'|] == calls';
    forall i, w, n: nat | 0 <= i <= |calls'| && Size(w) <= minSize && FailedLast(calls'[..i], w, n)
      ensures n <= maxAttempts
    {
      if i == |calls'| {
        FailedSnoc(calls, call, w, n);
        if n > 0 && n - 1 >= queue[0].number {
          FailedLess(calls, w, n - 1, queue[0].number);
        }
      } else {
        assert calls'[..i] == calls[..i];
      }
    }
  }

  lemma QueueAfterSuccess(
      windows: seq<BlockWindow>, calls: seq<Call>, queue: seq<Attempt>, logs: seq<Log>, minSize: int)
    requires QueueLawful(windows, calls, queue, minSize) && AttemptsCounted(queue, calls) && queue != []
    ensures QueueLawful(windows, calls + [Call(queue[0].window, Got(logs))], queue[1..], minSize)
    ensures AttemptsCounted(queue[1..], calls + [Call(queue[0].window, Got(logs))])
  {
    hide Arises, FailedLast, Split;
    var call := Call(queue[0].window, Got(logs));
    forall i | 0 <= i < |queue[1..]| ensures Arises(windows, calls + [call], queue[1..][i].window, minSize) {
      ArisesStill(windows, calls, call, queue[i + 1].window, minSize);
    }
    if |queue| > 1 {
      FailedSnoc(calls, call, queue[1].window, 0);
    }
    forall w | |queue| > 1 && Size(w) <= minSize ensures !FailedLast(calls + [call], w, queue[1..][0].number) {
      FailedSnoc(calls, call, w, queue[1].number);
    }
  }

  lemma QueueAfterSplit(windows: seq<BlockWindow>, calls: seq<Call>, queue: seq<Attempt>, minSize: int)
    requires QueueLawful(windows, calls, queue, minSize) && AttemptsCounted(queue, calls)
    requires queue != [] && Size(queue[0].window) > minSize > 0
    ensures var w, queue' := queue[0].window, FirstAttempts(Split(queue[0].window)) + queue[1..];
      QueueLawful(windows, calls + [Call(w, Threw)], queue', minSize)
        && AttemptsCounted(queue', calls + [Call(w, Threw)])
  {
    hide FailedLast, Arises;
    var w := queue[0].window;
    var call := Call(w, Threw);
    var calls', queue' := calls + [call], FirstAttempts(Split(w)) + queue[1..];
    forall i | 0 <= i < |queue'| ensures Arises(windows, calls', queue'[i].window, minSize) {
      if i < |Split(w)| {
        HalfArises(windows, calls, w, Split(w)[i], minSize);
      } else {
        ArisesStill(windows, calls, call, queue[i - |Split(w)| + 1].window, minSize);
      }
    }
    FailedSnoc(calls, call, queue'[0].window, 0);
    forall v | Size(v) <= minSize ensures !FailedLast(calls', v, queue'[0].number) {
      FailedSnoc(calls, call, v, 1);
    }
  }

  lemma HalfArises(windows: seq<BlockWindow>, calls: seq<Call>, w: BlockWindow, half: BlockWindow, minSize: int)
    requires Size(w) > minSize && half in Split(w)
    ensures Arises(windows, calls + [Call(w, Threw)], half, minSize)
  {
    assert SplitsInto((calls + [Call(w, Threw)])[|calls|], half, minSize);
  }

  lemma QueueAfterRetry(windows: seq<BlockWindow>, calls: seq<Call>, queue: seq<Attempt>, minSize: int)
    requires QueueLawful(windows, calls, queue, minSize) && AttemptsCounted(queue, calls)
    requires queue != [] && Size(queue[0].window) <= minSize
    ensures var w, queue' := queue[0].window, [Attempt(queue[0].window, queue[0].number + 1)] + queue[1..];
      QueueLawful(windows, calls + [Call(w, Threw)], queue', minSize)
        && AttemptsCounted(queue', calls + [Call(w, Threw)])
    ensures FailedLast(calls + [Call(queue[0].window, Threw)], queue[0].window, queue[0].number)
  {
    hide FailedLast, Arises, Split;
    var w := queue[0].window;
    var call := Call(w, Threw);
    var queue' := [Attempt(w, queue[0].number + 1)] + queue[1..];
    forall i | 0 <= i < |queue'| ensures Arises(windows, calls + [call], queue'[i].window, minSize) {
      ArisesStill(windows, calls, call, queue[i].window, minSize);
    }
    FailedSnoc(calls, call, w, queue[0].number);
    forall v | Size(v) <= minSize ensures !FailedLast(calls + [call], v, queue'[0].number) {
      FailedSnoc(calls, call, v, queue[0].number + 1);
    }
  }

  lemma NothingCalled(windows: seq<BlockWindow>, minSize: int, maxAttempts: int)
    requires maxAttempts > 0
    ensures Lawful(windows, [], minSize, maxAttempts) && QueueLawful(windows, [], FirstAttempts(windows), minSize)
    ensures AttemptsCounted(FirstAttempts(windows), [])
  {
  }

  class Fetcher {
    ghost var calls: seq<Call>

    constructor ()
      ensures calls == []
    {
      calls := [];
    }

    /** The client answers or throws as it pleases. */
    method GetLogs(w: BlockWindow) returns (reply: Reply<seq<Log>>)
      modifies this
      ensures calls == old(calls) + [Call(w, reply)]
    {
      reply := *;
      calls := calls + [Call(w, reply)];
    }

    /** However the client behaves, fetching ends, after no more calls than the windows
        allow; if it succeeds, the successful calls cover exactly the blocks asked for,
        each once and in order, and the logs are theirs in that order; it gives up only
        at a window that is too small to split and that has, in the last calls made,
        failed as often as allowed. No other calls are made: only a failed window larger than
        the minimum is split, and only a smaller one is called for again. */
    method FetchLogs(windows: seq<BlockWindow>, minSize: int, maxAttempts: int) returns (outcome: Outcome)
      requires calls == []
      modifies this
      ensures outcome.BadArguments? <==> minSize <= 0 || maxAttempts <= 0
      ensures outcome.BadArguments? ==> calls == []
      ensures outcome.Fetched? ==>
        && Blocks(Fetches(Trace(calls))) == Blocks(windows)
        && outcome.logs == Logs(Trace(calls))
        && outcome.attempted == Asked(calls)
      ensures outcome.GaveUp? ==> Size(outcome.window) <= minSize && FailedLast(calls, outcome.window, maxAttempts)
      ensures !outcome.BadArguments? ==>
        Lawful(windows, calls, minSize, maxAttempts) && |calls| <= Budget(FirstAttempts(windows), maxAttempts)
    {
      hide Blocks, Budget, Logs, Started, Windows, Fetches, FirstAttempts, Split, Extent, CallsFor, Trace, Lawful,
        QueueLawful, AttemptsCounted, FailedLast;
      if minSize <= 0 {
        return BadArguments;
      }
      if maxAttempts <= 0 {
        return BadArguments;
      }
      var queue := FirstAttempts(windows);
      var logs: seq<Log> := [];
      var attempted: seq<BlockWindow> := [];
      FreshQueue(windows, maxAttempts);
      NothingCalled(windows, minSize, maxAttempts);
      while queue != []
        invariant Started(queue, maxAttempts) && AttemptsCounted(queue, calls)
        invariant Lawful(windows, calls, minSize, maxAttempts) && QueueLawful(windows, calls, queue, minSize)
        invariant Blocks(Fetches(Trace(calls))) + Blocks(Windows(queue)) == Blocks(windows)
        invariant logs == Logs(Trace(calls)) && attempted == Asked(calls)
        invariant |calls| + Budget(queue, maxAttempts) <= Budget(FirstAttempts(windows), maxAttempts)
        decreases Budget(queue, maxAttempts)
      {
        var current, rest := queue[0], queue[1..];
        BudgetPositive(queue, maxAttempts);
        DropFirst(queue, maxAttempts);
        attempted := attempted + [current.window];
        ghost var before := calls;
        var reply := GetLogs(current.window);
        TraceSnoc(before, Call(current.window, reply));
        FirstInRange(queue, maxAttempts);
        LawfulSnoc(windows, before, queue, reply, minSize, maxAttempts);
        if reply.Got? {
          FetchedFirst(Trace(before), queue, reply.value);
          QueueAfterSuccess(windows, before, queue, reply.value, minSize);
          logs := logs + reply.value;
          queue := rest;
        } else if Size(current.window) > minSize {
          SplitFirst(queue, maxAttempts);
          QueueAfterSplit(windows, before, queue, minSize);
          queue := FirstAttempts(Split(current.window)) + rest;
        } else if current.number < maxAttempts {
          RetryFirst(queue, maxAttempts);
          QueueAfterRetry(windows, before, queue, minSize);
          queue := [Attempt(current.window, current.number + 1)] + rest;
        } else {
          QueueAfterRetry(windows, before, queue, minSize);
          return GaveUp(current.window);
        }
      }
      EmptyQueue(maxAttempts);
      return Fetched(logs, attempted);
    }
  }

  lemma FirstInRange(queue: seq<Attempt>, m: nat)
    requires queue != [] && Started(queue, m)
    ensures 1 <= queue[0].number <= m
  {
  }

  lemma FreshQueue(windows: seq<BlockWindow>, m: nat)
    requires m > 0
    ensures Started(FirstAttempts(windows), m) && Logs(Trace([])) == []
    ensures Blocks(Fetches(Trace([]))) + Blocks(Windows(FirstAttempts(windows))) == Blocks(windows)
  {
    assert Windows(FirstAttempts(windows)) == windows;
    assert Fetches([]) == [] && Blocks([]) == [];
  }

  lemma EmptyQueue(m: nat)
    ensures Blocks(Windows([])) == [] && Budget([], m) == 0
  {
    assert Windows([]) == [];
  }

  // ----- an honest client

  /** The logs of the blocks, block after block. */
  function Gather(chain: int -> seq<Log>, blocks: seq<int>): seq<Log> {
    if blocks == [] then [] else Gather(chain, blocks[..|blocks| - 1]) + chain(blocks[|blocks| - 1])
  }

  lemma {:induction false} GatherConcat(chain: int -> seq<Log>, a: seq<int>, b: seq<int>)
    ensures Gather(chain, a + b) == Gather(chain, a) + Gather(chain, b)
  {
    if b == [] {
      assert a + b == a;
    } else {
      var front, last, whole := b[..|b| - 1], b[|b| - 1], a + b;
      assert whole[..|whole| - 1] == a + front && whole[|whole| - 1] == last;
      GatherConcat(chain, a, front);
      assert Gather(chain, whole) == Gather(chain, a + front) + chain(last);
      assert Gather(chain, b) == Gather(chain, front) + chain(last);
    }
  }

  predicate Honest(chain: int -> seq<Log>, trace: seq<Fetch>) {
    forall i :: 0 <= i < |trace| ==>
      trace[i].logs == Gather(chain, Range(trace[i].window.fromBlock, trace[i].window.toBlock))
  }

  lemma {:induction false} LogsOfHonestTrace(chain: int -> seq<Log>, trace: seq<Fetch>)
    requires Honest(chain, trace)
    ensures Logs(trace) == Gather(chain, Blocks(Fetches(trace)))
  {
    if trace == [] {
      assert Blocks(Fetches(trace)) == [];
    } else {
      var front, last := trace[..|trace| - 1], trace[|trace| - 1];
      LogsOfHonestTrace(chain, front);
      assert Fetches(trace) == Fetches(front) + [last.window];
      BlocksConcat(Fetches(front), [last.window]);
      BlocksOne(last.window);
      GatherConcat(chain, Blocks(Fetches(front)), Range(last.window.fromBlock, last.window.toBlock));
    }
  }

  /** If the answers that arrive are honest, the logs of a successful fetch depend on the
      blocks asked for alone, not on which calls failed or which windows were split. */
  lemma FailuresLeaveNoTrace(chain: int -> seq<Log>, trace: seq<Fetch>, windows: seq<BlockWindow>)
    requires Honest(chain, trace) && Blocks(Fetches(trace)) == Blocks(windows)
    ensures Logs(trace) == Gather(chain, Blocks(windows))
  {
    LogsOfHonestTrace(chain, trace);
  }
}
