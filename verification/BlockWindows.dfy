/** Cutting a block range into windows, and halving a window again and again. */
module BlockWindows {
  import opened Base
  import Arithmetic

  datatype BlockWindow = BlockWindow(fromBlock: int, toBlock: int)

  function Size(w: BlockWindow): int {
    w.toBlock - w.fromBlock + 1
  }

  function Range(from: int, to: int): (blocks: seq<int>)
    ensures |blocks| == if to < from then 0 else to - from + 1
    ensures forall i :: 0 <= i < |blocks| ==> blocks[i] == from + i
  {
    if to < from then [] else seq(to - from + 1, i => from + i)
  }

  /** All blocks of the windows, window after window. Windows cover a range without gap,
      overlap or disorder exactly if their blocks, in this order, are the range. */
  function Blocks(ws: seq<BlockWindow>): seq<int> {
    if ws == [] then [] else Range(ws[0].fromBlock, ws[0].toBlock) + Blocks(ws[1..])
  }

  lemma RangeSplit(from: int, middle: int, to: int)
    requires from <= middle + 1 <= to + 1
    ensures Range(from, middle) + Range(middle + 1, to) == Range(from, to)
  {
  }

  lemma FirstBlocks(ws: seq<BlockWindow>)
    ensures ws == [] ==> Blocks(ws) == []
    ensures ws != [] ==> Blocks(ws) == Range(ws[0].fromBlock, ws[0].toBlock) + Blocks(ws[1..])
  {
  }

  lemma {:induction false} BlocksConcat(a: seq<BlockWindow>, b: seq<BlockWindow>)
    ensures Blocks(a + b) == Blocks(a) + Blocks(b)
  {
    hide Blocks, Range;
    FirstBlocks(a);
    if a == [] {
      assert a + b == b;
    } else {
      BlocksConcat(a[1..], b);
      FirstBlocks(a + b);
      assert (a + b)[1..] == a[1..] + b;
    }
  }

  lemma BlocksOne(w: BlockWindow)
    ensures Blocks([w]) == Range(w.fromBlock, w.toBlock)
  {
    hide Range;
    FirstBlocks([w][1..]);
  }

  /** Appending the next window extends a covered range. */
  lemma CoverGrows(ws: seq<BlockWindow>, start: int, w: BlockWindow)
    requires start <= w.fromBlock <= w.toBlock + 1 && Blocks(ws) == Range(start, w.fromBlock - 1)
    ensures Blocks(ws + [w]) == Range(start, w.toBlock)
  {
    hide Blocks, Range;
    BlocksConcat(ws, [w]);
    BlocksOne(w);
    RangeSplit(start, w.fromBlock - 1, w.toBlock);
  }

  // ----- cutting

  /** The windows cover the range exactly, there are no more than necessary, and all but
      the last are full. A window size that is not positive is refused. */
  method BuildAdaptiveWindows(start: int, end: int, maxSize: int) returns (r: Option<seq<BlockWindow>>)
    ensures r.None? <==> maxSize <= 0
    ensures r.Some? ==>
      && Blocks(r.value) == Range(start, end)
      && |r.value| == (if end < start then 0 else Arithmetic.CeilDiv(end - start + 1, maxSize))
      && (forall i :: 0 <= i < |r.value| ==> 1 <= Size(r.value[i]) <= maxSize)
      && (forall i :: 0 <= i < |r.value| - 1 ==> Size(r.value[i]) == maxSize)
  {
    hide Blocks, Range;
    if maxSize <= 0 {
      return None;
    }
    NothingCovered(start);
    if end < start {
      assert Range(start, end) == [];
      return Some([]);
    }
    var windows: seq<BlockWindow> := [];
    var cursor := start;
    ghost var full := 0;
    while cursor <= end
      invariant start <= cursor <= end + 1 && full == maxSize * |windows|
      invariant if cursor <= end then cursor == start + full
        else windows != [] && full - maxSize < end - start + 1 <= full
      invariant Blocks(windows) == Range(start, cursor - 1)
      invariant forall i :: 0 <= i < |windows| ==> 1 <= Size(windows[i]) <= maxSize
      invariant forall i :: 0 <= i < |windows| - 1 ==> Size(windows[i]) == maxSize
      invariant cursor <= end && windows != [] ==> Size(windows[|windows| - 1]) == maxSize
      decreases end - cursor
    {
      var toBlock := if cursor + maxSize - 1 < end then cursor + maxSize - 1 else end;
      CoverGrows(windows, start, BlockWindow(cursor, toBlock));
      Arithmetic.OneMore(maxSize, |windows|);
      windows := windows + [BlockWindow(cursor, toBlock)];
      cursor, full := toBlock + 1, full + maxSize;
    }
    Arithmetic.CeilDivIs(end - start + 1, maxSize, |windows|);
    return Some(windows);
  }

  lemma NothingCovered(start: int)
    ensures Blocks([]) == Range(start, start - 1) == []
  {
  }

  // ----- halving

  function Split(w: BlockWindow): (parts: seq<BlockWindow>)
    ensures Size(w) <= 1 ==> parts == [w]
    ensures Size(w) > 1 ==>
      && |parts| == 2
      && Size(parts[0]) == Size(w) / 2 >= 1 && Size(parts[1]) == Size(w) - Size(w) / 2 >= 1
      && parts[0].fromBlock == w.fromBlock && parts[0].toBlock + 1 == parts[1].fromBlock
      && parts[1].toBlock == w.toBlock
  {
    var size := Size(w);
    if size <= 1 then [w]
    else
      var midpoint := w.fromBlock + size / 2 - 1;
      [BlockWindow(w.fromBlock, midpoint), BlockWindow(midpoint + 1, w.toBlock)]
  }

  /** Splitting keeps exactly the blocks, in order. */
  lemma SplitKeepsBlocks(w: BlockWindow)
    ensures Blocks(Split(w)) == Range(w.fromBlock, w.toBlock)
  {
    hide Blocks, Range;
    BlocksOne(w);
    if Size(w) > 1 {
      var parts := Split(w);
      BlocksOne(parts[0]);
      BlocksOne(parts[1]);
      assert parts == [parts[0]] + [parts[1]];
      BlocksConcat([parts[0]], [parts[1]]);
      RangeSplit(w.fromBlock, parts[0].toBlock, w.toBlock);
    }
  }

  /** The windows left when splitting goes on until a rule says stop. */
  function Leaves(w: BlockWindow, stop: BlockWindow -> bool): seq<BlockWindow>
    decreases Size(w)
  {
    if Size(w) <= 1 || stop(w) then [w]
    else Leaves(Split(w)[0], stop) + Leaves(Split(w)[1], stop)
  }

  /** Under any stopping rule, repeated splitting ends, and its leaves are again an exact
      partition into non-empty windows at which the rule, or size one, says stop. */
  lemma {:induction false} LeavesPartition(w: BlockWindow, stop: BlockWindow -> bool)
    requires Size(w) >= 1
    ensures Blocks(Leaves(w, stop)) == Range(w.fromBlock, w.toBlock)
    ensures forall i :: 0 <= i < |Leaves(w, stop)| ==>
      Size(Leaves(w, stop)[i]) >= 1 && (Size(Leaves(w, stop)[i]) == 1 || stop(Leaves(w, stop)[i]))
    decreases Size(w)
  {
    hide Range, Blocks;
    if Size(w) <= 1 || stop(w) {
      BlocksOne(w);
    } else {
      var left, right := Split(w)[0], Split(w)[1];
      LeavesPartition(left, stop);
      LeavesPartition(right, stop);
      BlocksConcat(Leaves(left, stop), Leaves(right, stop));
      RangeSplit(w.fromBlock, left.toBlock, w.toBlock);
    }
  }
}
