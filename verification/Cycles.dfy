/** The cycle counters of one device goroutine: when a device declares itself ready for the
    authority transfer. `dirty` is the length of the list that one drain returned. */
module Cycles {
  datatype Limits = Limits(maxDirtyBlocks: int, minCycles: int, maxCycles: int)
  datatype Counters = Counters(total: nat, below: nat, marked: bool)

  const FRESH := Counters(0, 0, false)

  function CountCycle(l: Limits, c: Counters, dirty: nat): Counters {
    var total := c.total + 1;
    if dirty < l.maxDirtyBlocks then
      Counters(total, c.below + 1, c.marked || c.below + 1 > l.minCycles)
    else if total > l.maxCycles then
      Counters(total, c.below, true)
    else
      Counters(total, 0, c.marked)
  }

  /** The counters after the cycles whose drains returned `counts`, oldest first. */
  function After(l: Limits, counts: seq<nat>): Counters {
    if counts == [] then FRESH else CountCycle(l, After(l, counts[..|counts| - 1]), counts[|counts| - 1])
  }

  function NonNegative(x: int): nat { if x < 0 then 0 else x }

  function Earliest(l: Limits): nat {
    (if NonNegative(l.minCycles) < NonNegative(l.maxCycles) then NonNegative(l.minCycles) else NonNegative(l.maxCycles)) + 1
  }

  function Latest(l: Limits): nat { NonNegative(l.maxCycles) + NonNegative(l.minCycles) + 1 }

  /** What every sequence of cycles keeps: both bounds are consequences. */
  ghost predicate CountersOk(l: Limits, c: Counters) {
    && c.below <= c.total
    && (c.marked ==> Earliest(l) <= c.total)
    && (!c.marked ==>
          && c.below <= NonNegative(l.minCycles)
          && (c.total >= NonNegative(l.maxCycles) ==> c.below + NonNegative(l.maxCycles) >= c.total))
  }

  lemma {:induction false} CountCycleKeeps(l: Limits, c: Counters, dirty: nat)
    requires CountersOk(l, c)
    ensures CountersOk(l, CountCycle(l, c, dirty))
  {
  }

  lemma {:induction false} LatestIsMarked(l: Limits, c: Counters)
    requires CountersOk(l, c)
    requires c.total >= Latest(l)
    ensures c.marked
  {
  }

  lemma {:induction false} AfterOk(l: Limits, counts: seq<nat>)
    ensures CountersOk(l, After(l, counts)) && After(l, counts).total == |counts|
  {
    if counts != [] {
      AfterOk(l, counts[..|counts| - 1]);
      CountCycleKeeps(l, After(l, counts[..|counts| - 1]), counts[|counts| - 1]);
    }
  }

  /** For every sequence of dirty counts and all limits: never marked before cycle `Earliest`,
      always marked from cycle `Latest` on. */
  lemma {:induction false} ConvergenceBound(l: Limits, counts: seq<nat>)
    ensures |counts| < Earliest(l) ==> !After(l, counts).marked
    ensures |counts| >= Latest(l) ==> After(l, counts).marked
  {
    AfterOk(l, counts);
  }

  function Repeat(x: nat, n: nat): (r: seq<nat>)
    ensures |r| == n && forall i :: 0 <= i < n ==> r[i] == x
  {
    if n == 0 then [] else Repeat(x, n - 1) + [x]
  }

  lemma {:induction false} AfterAppend(l: Limits, counts: seq<nat>, dirty: nat)
    ensures After(l, counts + [dirty]) == CountCycle(l, After(l, counts), dirty)
  {
    assert (counts + [dirty])[..|counts|] == counts;
  }

  lemma {:induction false} HighCyclesDoNotMark(l: Limits, n: nat)
    requires n <= NonNegative(l.maxCycles)
    ensures After(l, Repeat(NonNegative(l.maxDirtyBlocks), n)) == Counters(n, 0, false)
  {
    if n > 0 {
      HighCyclesDoNotMark(l, n - 1);
      AfterAppend(l, Repeat(NonNegative(l.maxDirtyBlocks), n - 1), NonNegative(l.maxDirtyBlocks));
    }
  }

  lemma {:induction false} QuietCycle(l: Limits, n: nat)
    requires l.maxDirtyBlocks >= 1 && 1 <= n <= NonNegative(l.minCycles)
    ensures CountCycle(l, Counters(NonNegative(l.maxCycles) + n - 1, n - 1, false), 0) == Counters(NonNegative(l.maxCycles) + n, n, false)
  {
  }

  lemma {:induction false} QuietCyclesAfterHighOnes(l: Limits, n: nat)
    requires l.maxDirtyBlocks >= 1 || n == 0
    requires n <= NonNegative(l.minCycles)
    ensures After(l, Repeat(NonNegative(l.maxDirtyBlocks), NonNegative(l.maxCycles)) + Repeat(0, n))
         == Counters(NonNegative(l.maxCycles) + n, n, false)
  {
    var high := Repeat(NonNegative(l.maxDirtyBlocks), NonNegative(l.maxCycles));
    if n == 0 {
      HighCyclesDoNotMark(l, NonNegative(l.maxCycles));
      assert high + [] == high;
    } else {
      QuietCyclesAfterHighOnes(l, n - 1);
      QuietCycle(l, n);
      hide After, CountCycle;
      AfterAppend(l, high + Repeat(0, n - 1), 0);
      assert high + Repeat(0, n) == high + Repeat(0, n - 1) + [0];
    }
  }

  lemma {:induction false} WithoutQuietCycles(l: Limits, counts: seq<nat>)
    requires l.maxDirtyBlocks < 1
    ensures After(l, counts).below == 0
    ensures After(l, counts).marked <==> |counts| > NonNegative(l.maxCycles)
  {
    AfterOk(l, counts);
    if counts != [] {
      WithoutQuietCycles(l, counts[..|counts| - 1]);
      AfterOk(l, counts[..|counts| - 1]);
    }
  }

  /** The upper bound is attained exactly when a quiet cycle is possible or none is asked for. */
  lemma {:induction false} LatestIsAttained(l: Limits)
    ensures (exists counts: seq<nat> :: |counts| == Latest(l) - 1 && !After(l, counts).marked)
       <==> (l.maxDirtyBlocks >= 1 || l.minCycles <= 0)
  {
    if l.maxDirtyBlocks >= 1 || l.minCycles <= 0 {
      QuietCyclesAfterHighOnes(l, NonNegative(l.minCycles));
      var counts := Repeat(NonNegative(l.maxDirtyBlocks), NonNegative(l.maxCycles)) + Repeat(0, NonNegative(l.minCycles));
      assert |counts| == Latest(l) - 1 && !After(l, counts).marked;
    } else {
      forall counts: seq<nat> | |counts| == Latest(l) - 1 ensures After(l, counts).marked {
        WithoutQuietCycles(l, counts);
      }
    }
  }

  lemma {:induction false} QuietFromStart(l: Limits, n: nat)
    requires l.maxDirtyBlocks >= 1
    ensures After(l, Repeat(0, n)) == Counters(n, n, n > NonNegative(l.minCycles))
  {
    if n > 0 {
      QuietFromStart(l, n - 1);
      AfterAppend(l, Repeat(0, n - 1), 0);
    }
  }

  lemma {:induction false} EarliestByHighCycles(l: Limits)
    requires NonNegative(l.maxCycles) <= NonNegative(l.minCycles)
    ensures |Repeat(NonNegative(l.maxDirtyBlocks), Earliest(l))| == Earliest(l) && After(l, Repeat(NonNegative(l.maxDirtyBlocks), Earliest(l))).marked
  {
    var high, n := NonNegative(l.maxDirtyBlocks), NonNegative(l.maxCycles);
    hide After;
    HighCyclesDoNotMark(l, n);
    AfterAppend(l, Repeat(high, n), high);
    assert CountCycle(l, Counters(n, 0, false), high).marked;
    hide CountCycle;
    assert Earliest(l) == n + 1 && Repeat(high, n + 1) == Repeat(high, n) + [high];
    hide Repeat, NonNegative, Earliest;
  }

  /** The lower bound is attained exactly when a quiet cycle is possible or the limit on all cycles is the
      smaller one. */
  lemma {:induction false} EarliestIsAttained(l: Limits)
    ensures (exists counts: seq<nat> :: |counts| == Earliest(l) && After(l, counts).marked)
       <==> (l.maxDirtyBlocks >= 1 || NonNegative(l.maxCycles) <= NonNegative(l.minCycles))
  {
    hide After;
    if NonNegative(l.maxCycles) <= NonNegative(l.minCycles) {
      EarliestByHighCycles(l);
    } else if l.maxDirtyBlocks >= 1 {
      QuietFromStart(l, Earliest(l));
      assert |Repeat(0, Earliest(l))| == Earliest(l) && After(l, Repeat(0, Earliest(l))).marked;
    } else {
      forall counts: seq<nat> | |counts| == Earliest(l) ensures !After(l, counts).marked {
        WithoutQuietCycles(l, counts);
      }
    }
  }

  /* ------------------------------------------------- marked, from the counts alone */

  /** The cycles from `lo` to before `hi` were all quiet. */
  predicate AllQuiet(l: Limits, counts: seq<nat>, lo: nat, hi: nat) {
    hi <= |counts| && forall i :: lo <= i < hi ==> counts[i] < l.maxDirtyBlocks
  }

  /** Cycle `k`, counted from one, makes a device ready: it is the last of more than MinCycles quiet ones
      in a row, or a cycle that is not quiet beyond MaxCycles. */
  predicate MarksAt(l: Limits, counts: seq<nat>, k: nat) {
    && 1 <= k <= |counts|
    && ((k > NonNegative(l.minCycles) && AllQuiet(l, counts, k - NonNegative(l.minCycles) - 1, k))
        || (counts[k - 1] >= l.maxDirtyBlocks && k > l.maxCycles))
  }

  /** As long as the device is not marked, `below` is the length of the last row of quiet cycles. */
  ghost predicate LastRow(l: Limits, counts: seq<nat>, below: nat) {
    && below <= |counts| && AllQuiet(l, counts, |counts| - below, |counts|)
    && (below < |counts| ==> counts[|counts| - 1 - below] >= l.maxDirtyBlocks)
  }

  lemma {:induction false} MarksAtPrefix(l: Limits, counts: seq<nat>, n: nat, k: nat)
    requires k <= n <= |counts|
    ensures MarksAt(l, counts[..n], k) <==> MarksAt(l, counts, k)
  {
    hide NonNegative;
    var m := NonNegative(l.minCycles);
    if 1 <= k && k > m {
      assert AllQuiet(l, counts[..n], k - m - 1, k) <==> AllQuiet(l, counts, k - m - 1, k) by {
        assert forall i :: k - m - 1 <= i < k ==> counts[..n][i] == counts[i];
      }
    }
  }

  /** One cycle more, of an unmarked device. */
  lemma {:induction false} RowGoesOn(l: Limits, counts: seq<nat>, c: Counters)
    requires counts != [] && c.total == |counts| - 1 && !c.marked && LastRow(l, counts[..|counts| - 1], c.below)
    requires c.below <= NonNegative(l.minCycles)
    ensures var next := CountCycle(l, c, counts[|counts| - 1]);
      && (next.marked <==> MarksAt(l, counts, |counts|))
      && (!next.marked ==> LastRow(l, counts, next.below))
  {
    var n, dirty, m := |counts|, counts[|counts| - 1], NonNegative(l.minCycles);
    assert forall i :: 0 <= i < n - 1 ==> counts[..n - 1][i] == counts[i];
    if dirty < l.maxDirtyBlocks {
      assert AllQuiet(l, counts, n - 1 - c.below, n);
      if c.below < m && n > m { assert counts[n - 2 - c.below] >= l.maxDirtyBlocks; }
    }
  }

  /** Whatever the drains return, the device is marked if and only if some cycle makes it ready. */
  lemma {:induction false} MarkedExactly(l: Limits, counts: seq<nat>)
    ensures After(l, counts).marked <==> exists k: nat :: MarksAt(l, counts, k)
    ensures !After(l, counts).marked ==> LastRow(l, counts, After(l, counts).below)
  {
    if counts != [] {
      var n := |counts|;
      var init := counts[..n - 1];
      MarkedExactly(l, init);
      AfterOk(l, init);
      forall k: nat | k < n ensures MarksAt(l, init, k) <==> MarksAt(l, counts, k) { MarksAtPrefix(l, counts, n - 1, k); }
      if !After(l, init).marked {
        RowGoesOn(l, counts, After(l, init));
        assert After(l, counts).marked ==> MarksAt(l, counts, n);
      } else {
        var k: nat :| MarksAt(l, init, k);
        assert MarksAt(l, counts, k);
      }
      hide MarksAt, LastRow;
    }
  }

  /** The counting part of the device loop, driven by the lengths that its drains return. */
  method CountCyclesUntilMarked(l: Limits, drains: seq<nat>) returns (totalCycles: nat, marked: bool)
    ensures marked <==> exists k: nat :: MarksAt(l, drains, k)
    ensures marked ==> MarksAt(l, drains, totalCycles) && forall k: nat :: MarksAt(l, drains, k) ==> totalCycles <= k
    ensures marked ==> Earliest(l) <= totalCycles <= Latest(l)
    ensures !marked ==> totalCycles == |drains| < Latest(l)
  {
    hide MarksAt;
    totalCycles, marked := 0, false;
    var cyclesBelowDirtyBlockTreshold := 0;
    while totalCycles < |drains| && !marked
      invariant totalCycles <= |drains|
      invariant After(l, drains[..totalCycles]) == Counters(totalCycles, cyclesBelowDirtyBlockTreshold, marked)
      invariant forall k :: 0 <= k < totalCycles ==> !After(l, drains[..k]).marked
      decreases |drains| - totalCycles, if marked then 0 else 1
    {
      var blocks := drains[totalCycles];
      assert drains[..totalCycles + 1][..totalCycles] == drains[..totalCycles];
      totalCycles := totalCycles + 1;
      if blocks < l.maxDirtyBlocks {
        cyclesBelowDirtyBlockTreshold := cyclesBelowDirtyBlockTreshold + 1;
        if cyclesBelowDirtyBlockTreshold > l.minCycles {
          marked := true;
        }
      } else if totalCycles > l.maxCycles {
        marked := true;
      } else {
        cyclesBelowDirtyBlockTreshold := 0;
      }
    }
    FirstMark(l, drains, totalCycles);
    ConvergenceBound(l, drains[..totalCycles]);
    if marked {
      ConvergenceBound(l, drains[..totalCycles - 1]);
    }
  }

  /** Where the counting stops. */
  lemma {:induction false} FirstMark(l: Limits, drains: seq<nat>, n: nat)
    requires n <= |drains| && forall k :: 0 <= k < n ==> !After(l, drains[..k]).marked
    ensures After(l, drains[..n]).marked ==> MarksAt(l, drains, n)
    ensures forall k: nat :: MarksAt(l, drains, k) ==> n <= k <= |drains| && (k == n ==> After(l, drains[..n]).marked)
  {
    hide After, MarksAt;
    forall k: nat | MarksAt(l, drains, k) ensures n <= k <= |drains| && (k == n ==> After(l, drains[..n]).marked) {
      InRange(l, drains, k);
      if k <= n {
        MarksAtPrefix(l, drains, k, k);
        MarkedExactly(l, drains[..k]);
      }
    }
    if After(l, drains[..n]).marked {
      MarkedExactly(l, drains[..n]);
      var k: nat :| MarksAt(l, drains[..n], k);
      InRange(l, drains[..n], k);
      MarksAtPrefix(l, drains, n, k);
    }
  }

  lemma {:induction false} InRange(l: Limits, counts: seq<nat>, k: nat)
    requires MarksAt(l, counts, k)
    ensures 1 <= k <= |counts|
  {
  }
}
