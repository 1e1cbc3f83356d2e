/**
 * The Production Smoother policy: order the average of the last
 * `windowSize` incoming orders plus a small backlog correction, clamped
 * into [minProduction, maxProduction]. The rolling history is updated in
 * place on every decision.
 */
module ProductionSmoother {
  import opened Builtins
  import opened Interfaces

  /** The last n elements of s (all of s when it is shorter), oldest first. */
  function LastN(s: seq<int>, n: nat): (w: seq<int>)
    ensures |w| == if |s| <= n then |s| else n
    ensures w == s[|s| - |w|..]
  {
    if |s| <= n then s else s[|s| - n..]
  }

  /** One decision's history update: append, then drop the oldest entry if over the window. */
  function Push(history: seq<int>, x: int, windowSize: int): seq<int>
  {
    var h := history + [x];
    if |h| > windowSize then h[1..] else h
  }

  /** Pushing onto the window of a stream gives the window of the extended stream. */
  lemma PushKeepsWindow(seen: seq<int>, x: int, windowSize: nat)
    requires windowSize >= 1
    ensures Push(LastN(seen, windowSize), x, windowSize) == LastN(seen + [x], windowSize)
  {
    var w := LastN(seen, windowSize);
    var s := seen + [x];
    if |seen| < windowSize {
      assert w + [x] == s;
    } else {
      assert (w + [x])[1..] == s[|s| - windowSize..];
    }
  }

  /** With a window of zero or less, every decision leaves an empty history (and the average divides by zero). */
  lemma NonPositiveWindowEmptiesHistory(x: int, windowSize: int)
    requires windowSize <= 0
    ensures Push([], x, windowSize) == []
  {
  }

  /** `int(a / b)` for b > 0: divide and truncate toward zero. */
  function TruncDiv(a: int, b: int): (q: int)
    requires b > 0
    ensures a >= 0 ==> q == a / b
  {
    if a >= 0 then a / b else -((-a) / b)
  }

  /**
   * Truncation rounds toward zero: the quotient times `b` is the multiple of
   * `b` nearest to zero within `b` of `a`, and negating `a` negates the quotient.
   */
  lemma TruncDivTowardZero(a: int, b: int)
    requires b > 0
    ensures a >= 0 ==> TruncDiv(a, b) * b <= a < TruncDiv(a, b) * b + b
    ensures a < 0 ==> TruncDiv(a, b) * b - b < a <= TruncDiv(a, b) * b <= 0
    ensures TruncDiv(-a, b) == -TruncDiv(a, b)
  {
  }

  /** The backlog correction: a third of the backlog, at most 2, and none without backlog. */
  function BacklogAdjustment(backlog: int): (adj: int)
    ensures 0 <= adj <= 2
    ensures backlog <= 0 ==> adj == 0
    ensures backlog > 0 ==> 3 * adj <= backlog && (adj == 2 || backlog < 3 * adj + 3)
  {
    if backlog > 0 then Min(2, backlog / 3) else 0
  }

  /** Average of the history plus the backlog correction, truncated as `int()` does. */
  function UnclampedProduction(history: seq<int>, backlog: int): int
    requires |history| > 0
  {
    TruncDiv(Sum(history) + BacklogAdjustment(backlog) * |history|, |history|)
  }

  /**
   * The production order lies in the band: never below `minProduction`,
   * never above `maxProduction` unless the band is empty, and equal to the
   * smoothed value whenever that value lies inside the band.
   */
  function Production(history: seq<int>, backlog: int, minProduction: int, maxProduction: int): (q: int)
    requires |history| > 0
    ensures q >= minProduction
    ensures minProduction <= maxProduction ==> q <= maxProduction
    ensures var u := UnclampedProduction(history, backlog);
      && (minProduction <= u <= maxProduction ==> q == u)
      && (u < minProduction || maxProduction < minProduction ==> q == minProduction)
      && (minProduction <= maxProduction < u ==> q == maxProduction)
  {
    Max(minProduction, Min(maxProduction, UnclampedProduction(history, backlog)))
  }

  /** For non-negative orders the unclamped value is the floored average plus the correction. */
  lemma UnclampedIsAveragePlusAdjustment(history: seq<int>, backlog: int)
    requires |history| > 0
    requires forall k :: 0 <= k < |history| ==> history[k] >= 0
    ensures UnclampedProduction(history, backlog) == Sum(history) / |history| + BacklogAdjustment(backlog)
  {
    SumNonNegative(history);
    var n := |history|;
    var adj := BacklogAdjustment(backlog);
    assert (Sum(history) + adj * n) / n == Sum(history) / n + adj by {
      DivAddMultiple(Sum(history), adj, n);
    }
  }

  lemma DivAddMultiple(a: int, k: int, n: int)
    requires n > 0
    ensures (a + k * n) / n == a / n + k
  {
    var q, r := a / n, a % n;
    assert a + k * n == (q + k) * n + r;
    DivUnique(a + k * n, n, q + k, r);
  }

  lemma DivUnique(a: int, n: int, q: int, r: int)
    requires n > 0 && 0 <= r < n && a == q * n + r
    ensures a / n == q
  {
    var q', r' := a / n, a % n;
    assert a == q' * n + r';
    if q > q' {
      MulAtLeast(q - q', n);
    } else if q < q' {
      MulAtLeast(q' - q, n);
    }
  }

  lemma MulAtLeast(x: int, n: int)
    requires x >= 1 && n > 0
    ensures x * n >= n
  {
  }

  /** Without backlog, an order never exceeds the largest order in the window. */
  lemma ProductionBelowPeak(history: seq<int>, peak: int, minProduction: int, maxProduction: int)
    requires |history| > 0 && minProduction <= peak
    requires forall k :: 0 <= k < |history| ==> 0 <= history[k] <= peak
    ensures Production(history, 0, minProduction, maxProduction) <= peak
  {
    SumBounded(history, peak);
    UnclampedIsAveragePlusAdjustment(history, 0);
    assert Sum(history) / |history| <= peak by {
      DivBound(Sum(history), |history|, peak);
    }
  }

  lemma DivBound(a: int, n: int, peak: int)
    requires n > 0 && a <= n * peak
    ensures a / n <= peak
  {
  }

  class ProductionSmootherAgent {
    const windowSize: int
    const minProduction: int
    const maxProduction: int
    /** The incoming orders of the last `windowSize` decisions, oldest first. */
    var orderHistory: seq<int>
    /** Every incoming order this agent has been asked about, oldest first. */
    ghost var seen: seq<int>

    ghost predicate Valid()
      reads this
    {
      windowSize >= 1 && orderHistory == LastN(seen, windowSize)
    }

    /** The source's defaults are window 5 and production between 2 and 15. */
    constructor (windowSize: int, minProduction: int, maxProduction: int)
      requires windowSize >= 1
      ensures Valid()
      ensures this.windowSize == windowSize && this.minProduction == minProduction && this.maxProduction == maxProduction
      ensures orderHistory == [] && seen == []
    {
      this.windowSize := windowSize;
      this.minProduction := minProduction;
      this.maxProduction := maxProduction;
      orderHistory := [];
      seen := [];
    }

    /**
     * Records the incoming order, then orders the smoothed production for
     * the updated window.
     */
    method DecideOrder(s: RoleState) returns (q: int)
      requires Valid()
      modifies this
      ensures Valid()
      ensures seen == old(seen) + [s.incomingOrder]
      ensures orderHistory == LastN(seen, windowSize) && 1 <= |orderHistory| <= windowSize
      ensures q == Production(orderHistory, s.backlog, minProduction, maxProduction)
    {
      PushKeepsWindow(seen, s.incomingOrder, windowSize);
      orderHistory := orderHistory + [s.incomingOrder];
      if |orderHistory| > windowSize {
        orderHistory := orderHistory[1..];
      }
      seen := seen + [s.incomingOrder];
      var production := TruncDiv(Sum(orderHistory) + BacklogAdjustment(s.backlog) * |orderHistory|, |orderHistory|);
      q := Max(minProduction, Min(maxProduction, production));
    }
  }
}
