/**
 * The error bound of the paired comparison. When base and head do not differ,
 * swapping them within any pairs is as likely as not; of all such swaps, at most
 * the share alpha lead to a verdict.
 */
module PairedErrorBound {
  import opened Basics
  import opened PairedStatistics
  import opened PairedCounting

  /** All ways to swap or keep each of `n` pairs. */
  ghost function Relabellings(n: nat): set<seq<bool>> {
    if n == 0 then {[]}
    else Prefixed(true, Relabellings(n - 1)) + Prefixed(false, Relabellings(n - 1))
  }

  ghost function Prefixed(b: bool, fs: set<seq<bool>>): set<seq<bool>> {
    set f | f in fs :: [b] + f
  }

  lemma PrefixedHas(b: bool, fs: set<seq<bool>>, f: seq<bool>)
    ensures f in Prefixed(b, fs) <==> f != [] && f[0] == b && f[1..] in fs
  {
    if f in Prefixed(b, fs) {
      var g :| g in fs && f == [b] + g;
      assert g == f[1..];
    } else if f != [] {
      assert f == [f[0]] + f[1..];
    }
  }

  lemma {:induction false} RelabellingsAre(n: nat, f: seq<bool>)
    ensures f in Relabellings(n) <==> |f| == n
  {
    if n > 0 {
      PrefixedHas(true, Relabellings(n - 1), f);
      PrefixedHas(false, Relabellings(n - 1), f);
      if f != [] { RelabellingsAre(n - 1, f[1..]); }
    }
  }

  lemma {:induction false} PrefixedCount(b: bool, fs: set<seq<bool>>)
    ensures |Prefixed(b, fs)| == |fs|
  {
    if fs != {} {
      var f :| f in fs;
      PrefixedCount(b, fs - {f});
      assert Prefixed(b, fs) == Prefixed(b, fs - {f}) + {[b] + f};
      PrefixedHas(b, fs - {f}, [b] + f);
      assert ([b] + f)[1..] == f;
    }
  }

  lemma BothCount(fs: set<seq<bool>>, gs: set<seq<bool>>)
    ensures |Prefixed(true, fs) + Prefixed(false, gs)| == |fs| + |gs|
  {
    PrefixedCount(true, fs);
    PrefixedCount(false, gs);
    assert Prefixed(true, fs) !! Prefixed(false, gs) by {
      forall f | f in Prefixed(true, fs)
        ensures f !in Prefixed(false, gs)
      {
        assert f[0];
      }
    }
  }

  lemma {:induction false} RelabellingsCount(n: nat)
    ensures |Relabellings(n)| == Pow2(n)
  {
    if n > 0 {
      RelabellingsCount(n - 1);
      BothCount(Relabellings(n - 1), Relabellings(n - 1));
    }
  }

  // ------------------------------------------------------------------ swapping

  /** Base and head exchanged in one pair. */
  function Swap(s: Sample): Sample {
    if s.Usable? then Usable(-s.logRatio) else s
  }

  function Relabel(samples: seq<Sample>, f: seq<bool>): (r: seq<Sample>)
    requires |f| == |samples|
    ensures |r| == |samples|
  {
    if samples == [] then []
    else [if f[0] then Swap(samples[0]) else samples[0]] + Relabel(samples[1..], f[1..])
  }

  // ------------------------------------------------------------------ one side

  predicate Decides(signal: Signal) {
    signal.Regression? || signal.Improvement?
  }

  lemma {:induction false} SidesCover(xs: seq<real>)
    ensures OffCount(Above, 0.0, xs) + OffCount(Below, 0.0, xs) >= |xs|
  {
    if xs != [] { SidesCover(xs[1..]); }
  }

  /** With a rank of at most half, the values cannot lie on both sides. */
  lemma OnlyOneSide(xs: seq<real>, rank: nat)
    requires 1 <= rank <= |xs| / 2
    ensures !(OffCount(Above, 0.0, xs) < rank && OffCount(Below, 0.0, xs) < rank)
  {
    SidesCover(xs);
  }

  // ------------------------------------------------------------------ counting

  /** Swaps that leave at most `k` values off the side. */
  ghost function FewOff(side: Side, samples: seq<Sample>, k: int): set<seq<bool>> {
    set f | f in Relabellings(|samples|) && Few(side, samples, k, f)
  }

  ghost predicate Few(side: Side, samples: seq<Sample>, k: int, f: seq<bool>) {
    |f| == |samples| && OffCount(side, 0.0, LogRatios(Relabel(samples, f))) <= k
  }

  /** How much one pair, kept or swapped, adds to the count. */
  function Adds(side: Side, s: Sample, swapped: bool): nat {
    var t := if swapped then Swap(s) else s;
    if t.Usable? && Off(side, 0.0, t.logRatio) then 1 else 0
  }

  lemma OffCountFirst(side: Side, samples: seq<Sample>, f: seq<bool>)
    requires |f| == |samples| > 0
    ensures OffCount(side, 0.0, LogRatios(Relabel(samples, f)))
         == Adds(side, samples[0], f[0]) + OffCount(side, 0.0, LogRatios(Relabel(samples[1..], f[1..])))
  {
    var r := Relabel(samples, f);
    assert r[1..] == Relabel(samples[1..], f[1..]);
    assert LogRatios(r)[if r[0].Usable? then 1 else 0..] == LogRatios(r[1..]);
  }

  lemma FewOffSplits(side: Side, samples: seq<Sample>, k: int)
    requires samples != []
    ensures FewOff(side, samples, k) == Prefixed(true, FewOff(side, samples[1..], k - Adds(side, samples[0], true)))
                                      + Prefixed(false, FewOff(side, samples[1..], k - Adds(side, samples[0], false)))
  {
    hide Adds, Few;
    var n := |samples| - 1;
    forall f
      ensures f in FewOff(side, samples, k)
         <==> f in Prefixed(true, FewOff(side, samples[1..], k - Adds(side, samples[0], true)))
                 + Prefixed(false, FewOff(side, samples[1..], k - Adds(side, samples[0], false)))
    {
      RelabellingsAre(n + 1, f);
      if |f| == n + 1 {
        RelabellingsAre(n, f[1..]);
        assert f == [f[0]] + f[1..];
        FewFirst(side, samples, k, f);
        PrefixedHas(true, FewOff(side, samples[1..], k - Adds(side, samples[0], true)), f);
        PrefixedHas(false, FewOff(side, samples[1..], k - Adds(side, samples[0], false)), f);
      } else {
        ShortNotPrefixed(true, side, samples[1..], k - Adds(side, samples[0], true), f);
        ShortNotPrefixed(false, side, samples[1..], k - Adds(side, samples[0], false), f);
      }
    }
  }

  lemma FewFirst(side: Side, samples: seq<Sample>, k: int, f: seq<bool>)
    requires |f| == |samples| > 0
    ensures Few(side, samples, k, f) <==> Few(side, samples[1..], k - Adds(side, samples[0], f[0]), f[1..])
  {
    OffCountFirst(side, samples, f);
  }

  lemma ShortNotPrefixed(b: bool, side: Side, samples: seq<Sample>, k: int, f: seq<bool>)
    requires |f| != |samples| + 1
    ensures f !in Prefixed(b, FewOff(side, samples, k))
  {
    PrefixedHas(b, FewOff(side, samples, k), f);
  }

  lemma Spread(a: nat, b: nat, c: nat, p: nat)
    requires a + b <= c
    ensures a * p + b * p <= c * p
  {
    assert a * p + b * p == (a + b) * p;
    assert c * p == (a + b) * p + (c - (a + b)) * p;
  }

  lemma {:induction false} OneSubset(k: nat)
    ensures Tail(0, k) == 1
  {
    if k > 0 { OneSubset(k - 1); }
  }

  lemma FewOffNone(side: Side, k: int)
    ensures |FewOff(side, [], k)| <= Tail(0, k) * Pow2(0)
  {
    if k >= 0 {
      OneSubset(k);
      assert FewOff(side, [], k) <= {[]};
      Subset(FewOff(side, [], k), {[]});
    } else {
      assert FewOff(side, [], k) == {};
    }
  }

  /** One more pair: at most one more value off the side, one way at least as the other. */
  lemma TailsOfOneMore(side: Side, s: Sample, n: nat, k: int)
    ensures var j, l := k - Adds(side, s, true), k - Adds(side, s, false);
            Tail(n, j) + Tail(n, l) <= if s.Usable? then Tail(n + 1, k) else 2 * Tail(n, k)
  {
    TailPascal(n + 1, k);
    TailGrows(n, k - 1, k);
  }

  /** Swaps with few values off one side are no more than subsets with few members. */
  lemma {:induction false} FewOffBound(side: Side, samples: seq<Sample>, k: int)
    ensures |FewOff(side, samples, k)| <= Tail(|LogRatios(samples)|, k) * Pow2(|samples| - |LogRatios(samples)|)
  {
    if samples == [] {
      FewOffNone(side, k);
    } else {
      var rest := samples[1..];
      FewOffBound(side, rest, k - Adds(side, samples[0], true));
      FewOffBound(side, rest, k - Adds(side, samples[0], false));
      OneMorePair(side, samples, k);
    }
  }

  lemma OneMorePair(side: Side, samples: seq<Sample>, k: int)
    requires samples != []
    requires var rest := samples[1..]; var n, u := |LogRatios(rest)|, |rest| - |LogRatios(rest)|;
             var j, l := k - Adds(side, samples[0], true), k - Adds(side, samples[0], false);
             && |FewOff(side, rest, j)| <= Tail(n, j) * Pow2(u)
             && |FewOff(side, rest, l)| <= Tail(n, l) * Pow2(u)
    ensures |FewOff(side, samples, k)| <= Tail(|LogRatios(samples)|, k) * Pow2(|samples| - |LogRatios(samples)|)
  {
    hide FewOff, Adds;
    var rest := samples[1..];
    var n, u := |LogRatios(rest)|, |rest| - |LogRatios(rest)|;
    var j, l := k - Adds(side, samples[0], true), k - Adds(side, samples[0], false);
    FewOffSplits(side, samples, k);
    BothCount(FewOff(side, rest, j), FewOff(side, rest, l));
    TailsOfOneMore(side, samples[0], n, k);
    var most := if samples[0].Usable? then Tail(n + 1, k) else 2 * Tail(n, k);
    Spread(Tail(n, j), Tail(n, l), most, Pow2(u));
    Doubled(Tail(n, k), Pow2(u));
  }

  lemma Doubled(a: nat, p: nat)
    ensures 2 * a * p == a * (2 * p)
  {
  }

  // ----------------------------------------------------------------- the bound

  /** The swaps that lead to a verdict. */
  ghost function Decided(samples: seq<Sample>, policy: Policy, percent: real -> real): set<seq<bool>> {
    set f | f in Relabellings(|samples|) && DecidedBy(samples, policy, percent, f)
  }

  ghost predicate DecidedBy(samples: seq<Sample>, policy: Policy, percent: real -> real, f: seq<bool>) {
    |f| == |samples| && Decides(Compare(Relabel(samples, f), policy, percent).signal)
  }

  lemma {:induction false} SwapsKeepPairs(samples: seq<Sample>, f: seq<bool>)
    requires |f| == |samples|
    ensures |LogRatios(Relabel(samples, f))| == |LogRatios(samples)|
  {
    if samples != [] {
      SwapsKeepPairs(samples[1..], f[1..]);
      assert Relabel(samples, f)[1..] == Relabel(samples[1..], f[1..]);
    }
  }

  lemma DecidedIsFewOff(samples: seq<Sample>, policy: Policy, percent: real -> real, rank: nat, f: seq<bool>)
    requires Rank(|LogRatios(samples)|, policy.alpha) == Some(rank)
    requires DecidedBy(samples, policy, percent, f)
    ensures Few(Above, samples, rank - 1, f) || Few(Below, samples, rank - 1, f)
  {
    hide Compare, Rank, Sorted, OffCount, Median, IsMedian, WithinBudget;
    SwapsKeepPairs(samples, f);
    MedianByCounting(LogRatios(Relabel(samples, f)));
    SignalByCounting(Relabel(samples, f), policy, percent, Median(LogRatios(Relabel(samples, f))));
  }

  lemma DecidedCount(samples: seq<Sample>, policy: Policy, percent: real -> real, rank: nat)
    requires Rank(|LogRatios(samples)|, policy.alpha) == Some(rank)
    ensures |Decided(samples, policy, percent)|
         <= 2 * (Tail(|LogRatios(samples)|, rank - 1) * Pow2(|samples| - |LogRatios(samples)|))
  {
    hide Few, DecidedBy, Rank, Tail, Pow2;
    var above, below := FewOff(Above, samples, rank - 1), FewOff(Below, samples, rank - 1);
    forall f | f in Decided(samples, policy, percent)
      ensures f in above + below
    {
      DecidedIsFewOff(samples, policy, percent, rank, f);
    }
    Subset(Decided(samples, policy, percent), above + below);
    FewOffBound(Above, samples, rank - 1);
    FewOffBound(Below, samples, rank - 1);
  }

  lemma NothingDecided(samples: seq<Sample>, policy: Policy, percent: real -> real)
    requires Rank(|LogRatios(samples)|, policy.alpha).None?
    ensures Decided(samples, policy, percent) == {}
  {
    hide Rank, Verdict;
    forall f | f in Relabellings(|samples|)
      ensures !DecidedBy(samples, policy, percent, f)
    {
      RelabellingsAre(|samples|, f);
      SwapsKeepPairs(samples, f);
    }
  }

  /**
   * For all samples, whatever their values: of the ways to swap base and head
   * within pairs, at most the share alpha make the comparison answer regression
   * or improvement.
   */
  lemma FalseVerdictsAreRare(samples: seq<Sample>, policy: Policy, percent: real -> real)
    requires policy.alpha >= 0.0
    ensures |Decided(samples, policy, percent)| as real <= policy.alpha * |Relabellings(|samples|)| as real
  {
    hide Decided, Rank, Relabellings, Tail, Pow2;
    RelabellingsCount(|samples|);
    match Rank(|LogRatios(samples)|, policy.alpha)
    case None =>
      NothingDecided(samples, policy, percent);
      MoreTimes(0.0, policy.alpha, Pow2(|samples|) as real);
    case Some(rank) => DecidedShare(samples, policy, percent, rank);
  }

  lemma DecidedShare(samples: seq<Sample>, policy: Policy, percent: real -> real, rank: nat)
    requires Rank(|LogRatios(samples)|, policy.alpha) == Some(rank)
    ensures |Decided(samples, policy, percent)| as real <= Share(policy.alpha, |samples|)
  {
    hide Decided, Rank, Share, Twice;
    var n := |LogRatios(samples)|;
    DecidedTwice(samples, policy, percent, rank);
    RankShare(n, |samples| - n, policy.alpha, rank);
  }

  /** The two tails of a rank, for every way to swap the unusable pairs. */
  ghost function Twice(n: nat, u: nat, rank: nat): nat {
    2 * (Tail(n, rank - 1) * Pow2(u))
  }

  ghost function Share(alpha: real, n: nat): real {
    alpha * Pow2(n) as real
  }

  lemma DecidedTwice(samples: seq<Sample>, policy: Policy, percent: real -> real, rank: nat)
    requires Rank(|LogRatios(samples)|, policy.alpha) == Some(rank)
    ensures |Decided(samples, policy, percent)| <= Twice(|LogRatios(samples)|, |samples| - |LogRatios(samples)|, rank)
  {
    hide Decided, Rank, Tail, Pow2;
    DecidedCount(samples, policy, percent, rank);
  }

  lemma RankShare(n: nat, u: nat, alpha: real, rank: nat)
    requires Rank(n, alpha) == Some(rank)
    ensures Twice(n, u, rank) as real <= Share(alpha, n + u)
  {
    hide Rank, Tail, Pow2;
    assert IsDeepest(n, alpha, Some(rank));
    WithinShare(Tail(n, rank - 1), n, u, alpha);
  }

  lemma {:induction false} Pow2Sum(n: nat, u: nat)
    ensures Pow2(n + u) == Pow2(n) * Pow2(u)
  {
    if n > 0 {
      Pow2Sum(n - 1, u);
      Doubled(Pow2(u), Pow2(n - 1));
    }
  }

  lemma WithinShare(tail: nat, n: nat, u: nat, alpha: real)
    requires 2.0 * (tail as real / Pow2(n) as real) <= alpha
    ensures (2 * (tail * Pow2(u))) as real <= alpha * Pow2(n + u) as real
  {
    hide Pow2;
    Pow2Sum(n, u);
    var p, q := Pow2(n), Pow2(u);
    assert (tail * q) as real == tail as real * q as real;
    assert (p * q) as real == p as real * q as real;
    Scale(tail as real, p as real, q as real, alpha);
  }

  lemma Scale(t: real, p: real, q: real, alpha: real)
    requires p > 0.0 && q > 0.0 && 2.0 * (t / p) <= alpha
    ensures 2.0 * (t * q) <= alpha * (p * q)
  {
    var share := t / p;
    assert t == share * p;
    assert 2.0 * (t * q) == (2.0 * share) * (p * q);
    MoreTimes(2.0 * share, alpha, p * q);
  }

  lemma MoreTimes(a: real, b: real, w: real)
    requires a <= b && w >= 0.0
    ensures a * w <= b * w
  {
  }

  // --------------------------------------------------------------- the bound is met

  predicate AllNonzero(samples: seq<Sample>) {
    forall s | s in samples && s.Usable? :: s.logRatio != 0.0
  }

  lemma {:induction false} FewOffExactly(side: Side, samples: seq<Sample>, k: int)
    requires AllNonzero(samples)
    ensures |FewOff(side, samples, k)| == Tail(|LogRatios(samples)|, k) * Pow2(|samples| - |LogRatios(samples)|)
  {
    if samples == [] {
      FewOffNoneExactly(side, k);
    } else {
      var rest := samples[1..];
      FewOffExactly(side, rest, k - Adds(side, samples[0], true));
      FewOffExactly(side, rest, k - Adds(side, samples[0], false));
      OneMorePairExactly(side, samples, k);
    }
  }

  lemma FewOffNoneExactly(side: Side, k: int)
    ensures |FewOff(side, [], k)| == Tail(0, k) * Pow2(0)
  {
    if k >= 0 {
      OneSubset(k);
      assert Few(side, [], k, []);
      assert FewOff(side, [], k) == {[]};
    } else {
      assert FewOff(side, [], k) == {};
    }
  }

  lemma OneMorePairExactly(side: Side, samples: seq<Sample>, k: int)
    requires samples != [] && (samples[0].Usable? ==> samples[0].logRatio != 0.0)
    requires var rest := samples[1..]; var n, u := |LogRatios(rest)|, |rest| - |LogRatios(rest)|;
             var j, l := k - Adds(side, samples[0], true), k - Adds(side, samples[0], false);
             && |FewOff(side, rest, j)| == Tail(n, j) * Pow2(u)
             && |FewOff(side, rest, l)| == Tail(n, l) * Pow2(u)
    ensures |FewOff(side, samples, k)| == Tail(|LogRatios(samples)|, k) * Pow2(|samples| - |LogRatios(samples)|)
  {
    hide FewOff, Adds, Tail, Pow2;
    var rest := samples[1..];
    var n, u := |LogRatios(rest)|, |rest| - |LogRatios(rest)|;
    var j, l := k - Adds(side, samples[0], true), k - Adds(side, samples[0], false);
    FewOffSplits(side, samples, k);
    BothCount(FewOff(side, rest, j), FewOff(side, rest, l));
    TailsSpread(side, samples[0], n, u, k);
  }

  lemma TailsSpread(side: Side, s: Sample, n: nat, u: nat, k: int)
    requires s.Usable? ==> s.logRatio != 0.0
    ensures Tail(n, k - Adds(side, s, true)) * Pow2(u) + Tail(n, k - Adds(side, s, false)) * Pow2(u)
         == if s.Usable? then Tail(n + 1, k) * Pow2(u) else Tail(n, k) * Pow2(u + 1)
  {
    hide Adds;
    TailsOfOneMoreExactly(side, s, n, k);
    Together(Tail(n, k - Adds(side, s, true)), Tail(n, k - Adds(side, s, false)), Pow2(u));
    Doubled(Tail(n, k), Pow2(u));
  }

  lemma TailsOfOneMoreExactly(side: Side, s: Sample, n: nat, k: int)
    requires s.Usable? ==> s.logRatio != 0.0
    ensures Tail(n, k - Adds(side, s, true)) + Tail(n, k - Adds(side, s, false))
         == if s.Usable? then Tail(n + 1, k) else 2 * Tail(n, k)
  {
    TailPascal(n + 1, k);
  }

  lemma Together(a: nat, b: nat, p: nat)
    ensures a * p + b * p == (a + b) * p
  {
  }

  /** With no floor and no tied pair, the swaps that decide are exactly the two tails. */
  lemma VerdictsAreTheTails(samples: seq<Sample>, policy: Policy, percent: real -> real, rank: nat)
    requires AllNonzero(samples) && policy.floorPercent <= 0.0 && policy.minimumPairs <= |LogRatios(samples)|
    requires Rank(|LogRatios(samples)|, policy.alpha) == Some(rank)
    ensures |Decided(samples, policy, percent)|
         == 2 * (Tail(|LogRatios(samples)|, rank - 1) * Pow2(|samples| - |LogRatios(samples)|))
  {
    hide *;
    TailsApart(samples, policy, percent, rank);
    FewOffExactly(Above, samples, rank - 1);
    FewOffExactly(Below, samples, rank - 1);
  }

  lemma TailsApart(samples: seq<Sample>, policy: Policy, percent: real -> real, rank: nat)
    requires policy.floorPercent <= 0.0 && policy.minimumPairs <= |LogRatios(samples)|
    requires Rank(|LogRatios(samples)|, policy.alpha) == Some(rank)
    ensures var above, below := FewOff(Above, samples, rank - 1), FewOff(Below, samples, rank - 1);
            Decided(samples, policy, percent) == above + below && above !! below
  {
    hide Few, DecidedBy, Rank;
    var above, below := FewOff(Above, samples, rank - 1), FewOff(Below, samples, rank - 1);
    forall f | f in Relabellings(|samples|)
      ensures f in Decided(samples, policy, percent) <==> f in above + below
      ensures !(f in above && f in below)
    {
      RelabellingsAre(|samples|, f);
      DecidedIffFew(samples, policy, percent, rank, f);
    }
  }

  lemma DecidedIffFew(samples: seq<Sample>, policy: Policy, percent: real -> real, rank: nat, f: seq<bool>)
    requires policy.floorPercent <= 0.0 && policy.minimumPairs <= |LogRatios(samples)| && |f| == |samples|
    requires Rank(|LogRatios(samples)|, policy.alpha) == Some(rank)
    ensures DecidedBy(samples, policy, percent, f)
       <==> Few(Above, samples, rank - 1, f) || Few(Below, samples, rank - 1, f)
    ensures !(Few(Above, samples, rank - 1, f) && Few(Below, samples, rank - 1, f))
  {
    hide Compare, Rank, Sorted, OffCount, Median, IsMedian, WithinBudget;
    SwapsKeepPairs(samples, f);
    MedianByCounting(LogRatios(Relabel(samples, f)));
    SignalByCounting(Relabel(samples, f), policy, percent, Median(LogRatios(Relabel(samples, f))));
    assert IsDeepest(|LogRatios(samples)|, policy.alpha, Some(rank));
    OnlyOneSide(LogRatios(Relabel(samples, f)), rank);
  }
}
