/**
 * The comparison by counting over the values as they came: the median, both ends
 * of the interval and the verdict, without sorting.
 */
module PairedCounting {
  import opened Basics
  import opened PairedStatistics

  // ------------------------------------------------- values on the wrong side

  datatype Side = Above | Below

  /** The value does not lie strictly on the given side of `v`. */
  predicate Off(side: Side, v: real, x: real) {
    if side.Above? then x <= v else x >= v
  }

  function OffCount(side: Side, v: real, xs: seq<real>): (c: nat)
    ensures c <= |xs|
  {
    if xs == [] then 0 else (if Off(side, v, xs[0]) then 1 else 0) + OffCount(side, v, xs[1..])
  }

  lemma {:induction false} OffCountInsert(side: Side, v: real, x: real, xs: seq<real>)
    ensures OffCount(side, v, Insert(x, xs)) == (if Off(side, v, x) then 1 else 0) + OffCount(side, v, xs)
  {
    if xs != [] && x > xs[0] { OffCountInsert(side, v, x, xs[1..]); }
  }

  lemma {:induction false} OffCountSorted(side: Side, v: real, xs: seq<real>)
    ensures OffCount(side, v, Sorted(xs)) == OffCount(side, v, xs)
  {
    if xs != [] {
      OffCountSorted(side, v, xs[1..]);
      OffCountInsert(side, v, xs[0], Sorted(xs[1..]));
    }
  }

  /** A stretch on the right side leaves only the rest to be off it. */
  lemma {:induction false} OffCountOutside(side: Side, v: real, xs: seq<real>, lo: nat, hi: nat)
    requires lo <= hi <= |xs| && forall i | lo <= i < hi :: !Off(side, v, xs[i])
    ensures OffCount(side, v, xs) <= |xs| - (hi - lo)
  {
    if xs != [] && hi > 0 {
      OffCountOutside(side, v, xs[1..], if lo == 0 then 0 else lo - 1, hi - 1);
    }
  }

  lemma {:induction false} OffCountInside(side: Side, v: real, xs: seq<real>, lo: nat, hi: nat)
    requires lo <= hi <= |xs| && forall i | lo <= i < hi :: Off(side, v, xs[i])
    ensures OffCount(side, v, xs) >= hi - lo
  {
    if xs != [] && hi > 0 {
      OffCountInside(side, v, xs[1..], if lo == 0 then 0 else lo - 1, hi - 1);
    }
  }

  lemma OrderedAround(xs: seq<real>, m: nat)
    requires Ordered(xs) && m < |xs|
    ensures forall i | 0 <= i <= m :: xs[i] <= xs[m]
    ensures forall i | m <= i < |xs| :: xs[m] <= xs[i]
  {
    forall i | 0 <= i < |xs|
      ensures i <= m ==> xs[i] <= xs[m]
      ensures m <= i ==> xs[m] <= xs[i]
    {
      if i <= m { OrderedThroughout(xs, i, m); }
      if m <= i { OrderedThroughout(xs, m, i); }
    }
  }

  lemma LowOfOrdered(v: real, xs: seq<real>, rank: nat)
    requires Ordered(xs) && 1 <= rank <= |xs|
    ensures xs[rank - 1] > v <==> OffCount(Above, v, xs) < rank
  {
    hide Ordered;
    OrderedAround(xs, rank - 1);
    if xs[rank - 1] > v {
      OffCountOutside(Above, v, xs, rank - 1, |xs|);
    } else {
      OffCountInside(Above, v, xs, 0, rank);
    }
  }

  lemma HighOfOrdered(v: real, xs: seq<real>, top: nat, rank: nat)
    requires Ordered(xs) && rank >= 1 && top + rank == |xs|
    ensures xs[top] < v <==> OffCount(Below, v, xs) < rank
  {
    hide Ordered;
    OrderedAround(xs, top);
    if xs[top] < v {
      OffCountOutside(Below, v, xs, 0, top + 1);
    } else {
      OffCountInside(Below, v, xs, top, |xs|);
    }
  }

  /** The value of a rank is above `v` exactly when fewer values than the rank are not. */
  lemma LowByCounting(v: real, xs: seq<real>, rank: nat)
    requires 1 <= rank <= |xs|
    ensures Sorted(xs)[rank - 1] > v <==> OffCount(Above, v, xs) < rank
  {
    hide Ordered;
    SortedIsOrdered(xs);
    OffCountSorted(Above, v, xs);
    LowOfOrdered(v, Sorted(xs), rank);
  }

  lemma HighByCounting(v: real, xs: seq<real>, rank: nat)
    requires 1 <= rank <= |xs|
    ensures Sorted(xs)[|xs| - rank] < v <==> OffCount(Below, v, xs) < rank
  {
    hide Ordered;
    SortedIsOrdered(xs);
    OffCountSorted(Below, v, xs);
    HighOfOrdered(v, Sorted(xs), |xs| - rank, rank);
  }

  // ---------------------------------------------------------------- order by counting

  /** The `k`-th smallest: at least `k` values are no larger and at least `n + 1 - k` no smaller. */
  predicate IsRanked(xs: seq<real>, k: nat, v: real) {
    v in xs && OffCount(Above, v, xs) >= k && OffCount(Below, v, xs) >= |xs| + 1 - k
  }

  /** The two values in the middle of an even number. */
  predicate AreMiddle(xs: seq<real>, a: real, b: real) {
    IsRanked(xs, |xs| / 2, a) && IsRanked(xs, |xs| / 2 + 1, b)
  }

  /** The middle value, or halfway between the two middle ones; zero without values. */
  ghost predicate IsMedian(xs: seq<real>, m: real) {
    if xs == [] then m == 0.0
    else if |xs| % 2 == 1 then IsRanked(xs, |xs| / 2 + 1, m)
    else exists a, b :: AreMiddle(xs, a, b) && m == (a + b) / 2.0
  }

  lemma SortedHasRank(xs: seq<real>, k: nat)
    requires 1 <= k <= |xs|
    ensures IsRanked(xs, k, Sorted(xs)[k - 1])
  {
    hide Sorted, OffCount;
    var v := Sorted(xs)[k - 1];
    SortedKeepsMembers(xs);
    assert v in multiset(Sorted(xs));
    LowByCounting(v, xs, k);
    HighByCounting(v, xs, |xs| + 1 - k);
  }

  lemma {:induction false} CountsApart(v: real, w: real, xs: seq<real>)
    requires v < w
    ensures OffCount(Above, v, xs) + OffCount(Below, w, xs) <= |xs|
  {
    if xs != [] { CountsApart(v, w, xs[1..]); }
  }

  /** The counts leave one value at most for each rank. */
  lemma RankedIsUnique(xs: seq<real>, k: nat, v: real, w: real)
    requires IsRanked(xs, k, v) && IsRanked(xs, k, w)
    ensures v == w
  {
    hide OffCount;
    if v < w { CountsApart(v, w, xs); }
    if w < v { CountsApart(w, v, xs); }
  }

  lemma MedianIsUnique(xs: seq<real>, m: real, n: real)
    requires IsMedian(xs, m) && IsMedian(xs, n)
    ensures m == n
  {
    hide IsRanked;
    var half := |xs| / 2;
    if xs != [] && |xs| % 2 == 1 {
      RankedIsUnique(xs, half + 1, m, n);
    } else if xs != [] {
      var a, b :| AreMiddle(xs, a, b) && m == (a + b) / 2.0;
      var c, d :| AreMiddle(xs, c, d) && n == (c + d) / 2.0;
      RankedIsUnique(xs, half, a, c);
      RankedIsUnique(xs, half + 1, b, d);
    }
  }

  /** What the source computes on the sorted values is the median of the values as they came. */
  lemma MedianByCounting(xs: seq<real>)
    ensures IsMedian(xs, Median(xs)) && Median(Sorted(xs)) == Median(xs)
  {
    hide Sorted, IsRanked;
    SortedIsOrdered(xs);
    SortingIsIdempotent(Sorted(xs));
    var half := |xs| / 2;
    if xs != [] {
      SortedHasRank(xs, half + 1);
      if |xs| % 2 == 0 {
        SortedHasRank(xs, half);
        assert AreMiddle(xs, Sorted(xs)[half - 1], Sorted(xs)[half]);
      }
    }
  }

  // ----------------------------------------------------------------- the comparison

  /** The log ratios are those of the usable samples, each as often as it occurs. */
  lemma {:induction false} LogRatiosAreTheUsable(samples: seq<Sample>, x: real)
    ensures multiset(LogRatios(samples))[x] == multiset(samples)[Usable(x)]
  {
    if samples != [] {
      LogRatiosAreTheUsable(samples[1..], x);
      Members(samples);
      var xs := LogRatios(samples);
      if samples[0].Usable? {
        Members(xs);
        assert xs[1..] == LogRatios(samples[1..]);
      } else {
        assert xs == LogRatios(samples[1..]);
      }
    }
  }

  function WorseSide(better: Better): Side {
    if better.Lower? then Above else Below
  }

  function BetterSide(better: Better): Side {
    if better.Lower? then Below else Above
  }

  /**
   * The verdict without sorting: a change is reported exactly when fewer than
   * `rank` log ratios fail to lie strictly on one side of zero and the median
   * clears the floor; which side decides between regression and improvement.
   */
  lemma SignalByCounting(samples: seq<Sample>, policy: Policy, percent: real -> real, median: real)
    requires IsMedian(LogRatios(samples), median)
    ensures var xs := LogRatios(samples);
            var rank := Rank(|xs|, policy.alpha);
            Compare(samples, policy, percent).signal ==
            if |xs| < policy.minimumPairs || rank.None? then NotMeasured
            else if Abs(percent(median)) < policy.floorPercent then NoSignal
            else if OffCount(WorseSide(policy.better), 0.0, xs) < rank.value then Regression
            else if OffCount(BetterSide(policy.better), 0.0, xs) < rank.value then Improvement
            else NoSignal
  {
    hide Rank, Sorted, OffCount, Median, IsMedian, WithinBudget, Abs, Tail;
    var xs := LogRatios(samples);
    var rank := Rank(|xs|, policy.alpha);
    assert IsDeepest(|xs|, policy.alpha, rank);
    MedianByCounting(xs);
    MedianIsUnique(xs, median, Median(xs));
    if rank.Some? {
      LowByCounting(0.0, xs, rank.value);
      HighByCounting(0.0, xs, rank.value);
    }
  }

  /**
   * The figures without sorting: the percentages are those of the median and of
   * the values that are `rank` from the bottom and from the top.
   */
  lemma FiguresByCounting(samples: seq<Sample>, policy: Policy, percent: real -> real,
                          median: real, low: real, high: real)
    requires var xs := LogRatios(samples);
             var rank := Rank(|xs|, policy.alpha);
             && IsMedian(xs, median)
             && (rank.Some? ==> IsRanked(xs, rank.value, low) && IsRanked(xs, |xs| + 1 - rank.value, high))
    ensures var xs := LogRatios(samples);
            var rank := Rank(|xs|, policy.alpha);
            var c := Compare(samples, policy, percent);
            && c.pairs == |xs| && c.discardedPairs == |samples| - |xs|
            && c.medianPercent == (if |xs| < policy.minimumPairs then None else Some(percent(median)))
            && c.lowPercent == (if c.signal.NotMeasured? then None else Some(percent(low)))
            && c.highPercent == (if c.signal.NotMeasured? then None else Some(percent(high)))
            && (c.signal.NotMeasured? <==> |xs| < policy.minimumPairs || rank.None?)
            && c.coverage == (if c.signal.NotMeasured? then 0.0
                              else 1.0 - 2.0 * (Tail(|xs|, rank.value - 1) as real / Pow2(|xs|) as real))
  {
    hide Rank, Sorted, OffCount, Median, IsMedian, IsRanked, WithinBudget, Abs, Tail, Pow2;
    var xs := LogRatios(samples);
    var rank := Rank(|xs|, policy.alpha);
    assert IsDeepest(|xs|, policy.alpha, rank);
    MedianByCounting(xs);
    MedianIsUnique(xs, median, Median(xs));
    if rank.Some? {
      SortedHasRank(xs, rank.value);
      RankedIsUnique(xs, rank.value, low, Sorted(xs)[rank.value - 1]);
      SortedHasRank(xs, |xs| + 1 - rank.value);
      RankedIsUnique(xs, |xs| + 1 - rank.value, high, Sorted(xs)[|xs| - rank.value]);
    }
  }

  /** The median, and the values `rank` from the bottom and from the top when there is a rank. */
  ghost predicate Located(samples: seq<Sample>, policy: Policy, median: real, low: real, high: real) {
    var xs := LogRatios(samples);
    var rank := Rank(|xs|, policy.alpha);
    && IsMedian(xs, median)
    && (rank.Some? ==> IsRanked(xs, rank.value, low) && IsRanked(xs, |xs| + 1 - rank.value, high))
  }

  /** The comparison that counting calls for. */
  ghost function Counted(samples: seq<Sample>, policy: Policy, percent: real -> real,
                         median: real, low: real, high: real): Comparison {
    var xs := LogRatios(samples);
    var n, discarded := |xs|, |samples| - |xs|;
    var rank := Rank(n, policy.alpha);
    if n < policy.minimumPairs then Comparison(n, discarded, None, None, None, 0.0, NotMeasured)
    else if rank.None? then Comparison(n, discarded, Some(percent(median)), None, None, 0.0, NotMeasured)
    else
      Comparison(n, discarded, Some(percent(median)), Some(percent(low)), Some(percent(high)),
                 1.0 - 2.0 * (Tail(n, rank.value - 1) as real / Pow2(n) as real),
                 if Abs(percent(median)) < policy.floorPercent then NoSignal
                 else if OffCount(WorseSide(policy.better), 0.0, xs) < rank.value then Regression
                 else if OffCount(BetterSide(policy.better), 0.0, xs) < rank.value then Improvement
                 else NoSignal)
  }

  lemma ComparisonIsCounted(samples: seq<Sample>, policy: Policy, percent: real -> real,
                            median: real, low: real, high: real)
    requires Located(samples, policy, median, low, high)
    ensures Compare(samples, policy, percent) == Counted(samples, policy, percent, median, low, high)
  {
    hide Compare, Rank, OffCount, IsMedian, IsRanked, Abs, Tail, Pow2;
    SignalByCounting(samples, policy, percent, median);
    FiguresByCounting(samples, policy, percent, median, low, high);
  }

  lemma CompareIsCounted(samples: seq<Sample>, policy: Policy, percent: real -> real)
    ensures exists median, low, high ::
              && Located(samples, policy, median, low, high)
              && Compare(samples, policy, percent) == Counted(samples, policy, percent, median, low, high)
  {
    hide Compare, Rank, Sorted, Median, IsMedian, IsRanked, Counted, WithinBudget;
    var xs := LogRatios(samples);
    var rank := Rank(|xs|, policy.alpha);
    MedianByCounting(xs);
    assert IsDeepest(|xs|, policy.alpha, rank);
    var low, high := 0.0, 0.0;
    if rank.Some? {
      low, high := Sorted(xs)[rank.value - 1], Sorted(xs)[|xs| - rank.value];
      SortedHasRank(xs, rank.value);
      SortedHasRank(xs, |xs| + 1 - rank.value);
    }
    assert Located(samples, policy, Median(xs), low, high);
    ComparisonIsCounted(samples, policy, percent, Median(xs), low, high);
  }

  /** The comparison, as the source computes it, and as counting calls for it. */
  method ComparePaired(samples: seq<Sample>, policy: Policy, percent: real -> real) returns (c: Comparison)
    ensures c == Compare(samples, policy, percent)
    ensures exists median, low, high ::
              Located(samples, policy, median, low, high) && c == Counted(samples, policy, percent, median, low, high)
  {
    hide Verdict, Median, WithinBudget, Tail, Located, Counted;
    CompareIsCounted(samples, policy, percent);
    var xs := LogRatios(samples);
    var discarded := |samples| - |xs|;
    if |xs| < policy.minimumPairs {
      return Comparison(|xs|, discarded, None, None, None, 0.0, NotMeasured);
    }
    var rank := MedianIntervalRank(|xs|, policy.alpha);
    DeepestIsUnique(|xs|, policy.alpha, rank, Rank(|xs|, policy.alpha));
    if rank.None? {
      return Comparison(|xs|, discarded, Some(percent(Median(xs))), None, None, 0.0, NotMeasured);
    }
    var sorted := Sorted(xs);
    var low, high := sorted[rank.value - 1], sorted[|sorted| - rank.value];
    var centre := percent(Median(sorted));
    var tail := BinomialTailProbability(|sorted|, rank.value - 1);
    return Comparison(|xs|, discarded, Some(centre), Some(percent(low)), Some(percent(high)),
                      1.0 - 2.0 * tail, Verdict(low, high, centre, policy));
  }
}
