/**
 * The paired comparison of a benchmark: an order-statistic interval for the
 * median of log ratios, and the verdict read off it. Arithmetic is exact, and a
 * pair is its log ratio, which swapping base and head negates.
 */
module PairedStatistics {
  import opened Basics

  // ----------------------------------------------------------- binomial tails

  function Choose(n: nat, k: nat): nat {
    if k == 0 then 1
    else if n == 0 then 0
    else Choose(n - 1, k - 1) + Choose(n - 1, k)
  }

  /** How many subsets of `n` things have at most `upTo` members. */
  function Tail(n: nat, upTo: int): nat {
    if upTo < 0 then 0 else Tail(n, upTo - 1) + Choose(n, upTo)
  }

  function Pow2(n: nat): (p: nat)
    ensures p > 0
  {
    if n == 0 then 1 else 2 * Pow2(n - 1)
  }

  lemma {:induction false} NothingBeyond(n: nat, k: nat)
    requires k > n
    ensures Choose(n, k) == 0
  {
    if n > 0 {
      NothingBeyond(n - 1, k - 1);
      NothingBeyond(n - 1, k);
    }
  }

  lemma AddColumns(a: int, b: int, c: int, n: int, k: int)
    requires b * (k - 1) == a * (n - k + 1) && c * k == b * (n - k)
    ensures (b + c) * k == (a + b) * (n - k + 1)
  {
    var m := n - k + 1;
    assert b * k == b * (k - 1) + b;
    assert b * m == b * (n - k) + b;
    assert (b + c) * k == b * k + c * k;
    assert (a + b) * m == a * m + b * m;
  }

  lemma Ratio(next: nat, last: nat, factor: int, k: nat)
    requires k > 0 && next * k == last * factor
    ensures next as real == last as real * factor as real / k as real
  {
    assert (next * k) as real == next as real * k as real;
    assert (last * factor) as real == last as real * factor as real;
    Cancel(next as real, k as real);
  }

  lemma Cancel(x: real, d: real)
    requires d > 0.0
    ensures x * d / d == x
  {
  }

  lemma Divide(x: real, y: real, d: real)
    requires d > 0.0
    ensures x <= y <==> x / d <= y / d
  {
    Cancel(x, d);
    Cancel(y, d);
  }

  /** The step from one coefficient to the next. */
  lemma {:induction false} NextCoefficient(n: nat, k: nat)
    requires k > 0
    ensures Choose(n, k) * k == Choose(n, k - 1) * (n - k + 1)
  {
    if n == 0 {
    } else if k > 1 {
      NextCoefficient(n - 1, k - 1);
      NextCoefficient(n - 1, k);
      AddColumns(Choose(n - 1, k - 2), Choose(n - 1, k - 1), Choose(n - 1, k), n, k);
    } else {
      NextCoefficient(n - 1, 1);
    }
  }

  lemma {:induction false} TailPascal(n: nat, k: int)
    requires n > 0
    ensures Tail(n, k) == Tail(n - 1, k) + Tail(n - 1, k - 1)
  {
    if k >= 0 { TailPascal(n, k - 1); }
  }

  lemma {:induction false} TailGrows(n: nat, j: int, k: int)
    requires j <= k
    ensures Tail(n, j) <= Tail(n, k)
    decreases k - j
  {
    if j < k { TailGrows(n, j, k - 1); }
  }

  function Step(coefficient: real, n: nat, i: nat): real
    requires i > 0
  {
    coefficient * (n - i + 1) as real / i as real
  }

  lemma StepIsExact(n: nat, i: nat)
    requires i > 0
    ensures Step(Choose(n, i - 1) as real, n, i) == Choose(n, i) as real
  {
    NextCoefficient(n, i);
    Ratio(Choose(n, i), Choose(n, i - 1), n - i + 1, i);
  }

  lemma FirstCoefficient(n: nat)
    ensures Choose(n, 0) == 1
  {
  }

  /** The loop computes the exact tail of the fair binomial distribution. */
  method BinomialTailProbability(n: nat, upTo: nat) returns (p: real)
    ensures p == Tail(n, upTo) as real / Pow2(n) as real
  {
    hide Step, Choose;
    var total := 0.0;
    var coefficient := 1.0;
    assert Choose(n, 0) == 1 by { FirstCoefficient(n); }
    var i := 0;
    while i <= upTo
      invariant i <= upTo + 1
      invariant total == Tail(n, i - 1) as real
      invariant i == 0 ==> coefficient == 1.0
      invariant i > 0 ==> coefficient == Choose(n, i - 1) as real
    {
      if i > 0 {
        StepIsExact(n, i);
        coefficient := Step(coefficient, n, i);
      }
      total := total + coefficient;
      i := i + 1;
    }
    return total / Pow2(n) as real;
  }

  // ---------------------------------------------------------------- the rank

  /** The interval between the `rank`-th smallest and the `rank`-th largest keeps within the error budget. */
  ghost predicate WithinBudget(pairs: nat, rank: nat, alpha: real) {
    2.0 * (Tail(pairs, rank - 1) as real / Pow2(pairs) as real) <= alpha
  }

  ghost predicate IsDeepest(pairs: nat, alpha: real, rank: Option<nat>) {
    match rank
    case Some(r) =>
      && 1 <= r <= pairs / 2 && WithinBudget(pairs, r, alpha)
      && forall q | r < q <= pairs / 2 :: !WithinBudget(pairs, q, alpha)
    case None => forall q | 1 <= q <= pairs / 2 :: !WithinBudget(pairs, q, alpha)
  }

  method MedianIntervalRank(pairs: nat, alpha: real) returns (rank: Option<nat>)
    ensures IsDeepest(pairs, alpha, rank)
  {
    var r := pairs / 2;
    while r >= 1
      invariant 0 <= r <= pairs / 2
      invariant forall q | r < q <= pairs / 2 :: !WithinBudget(pairs, q, alpha)
    {
      var tail := BinomialTailProbability(pairs, r - 1);
      if 2.0 * tail <= alpha { return Some(r); }
      r := r - 1;
    }
    return None;
  }

  /** Ranks within budget are exactly those no deeper than the one returned. */
  lemma DeepestIsTheCutoff(pairs: nat, alpha: real, rank: Option<nat>, q: nat)
    requires IsDeepest(pairs, alpha, rank) && 1 <= q <= pairs / 2
    ensures WithinBudget(pairs, q, alpha) <==> rank.Some? && q <= rank.value
  {
    if rank.Some? && q <= rank.value {
      TailGrows(pairs, q - 1, rank.value - 1);
      Divide(Tail(pairs, q - 1) as real, Tail(pairs, rank.value - 1) as real, Pow2(pairs) as real);
    }
  }

  lemma DeepestIsUnique(pairs: nat, alpha: real, a: Option<nat>, b: Option<nat>)
    requires IsDeepest(pairs, alpha, a) && IsDeepest(pairs, alpha, b)
    ensures a == b
  {
    hide WithinBudget;
    if a.Some? && b.Some? {
      assert !(a.value < b.value) && !(b.value < a.value);
    }
  }

  /** The rank the search finds. */
  ghost function Rank(pairs: nat, alpha: real): (rank: Option<nat>)
    ensures IsDeepest(pairs, alpha, rank)
  {
    RankFrom(pairs, alpha, pairs / 2)
  }

  ghost function RankFrom(pairs: nat, alpha: real, r: nat): (rank: Option<nat>)
    requires r <= pairs / 2 && forall q | r < q <= pairs / 2 :: !WithinBudget(pairs, q, alpha)
    ensures IsDeepest(pairs, alpha, rank)
  {
    if r == 0 then None
    else if WithinBudget(pairs, r, alpha) then Some(r)
    else RankFrom(pairs, alpha, r - 1)
  }

  // ----------------------------------------------------------------- sorting

  predicate Ordered(xs: seq<real>) {
    forall i | 0 < i < |xs| :: xs[i - 1] <= xs[i]
  }

  function Insert(x: real, xs: seq<real>): (r: seq<real>)
    ensures |r| == |xs| + 1
  {
    if xs == [] then [x]
    else if x <= xs[0] then [x] + xs
    else [xs[0]] + Insert(x, xs[1..])
  }

  /** The values in ascending order. */
  function Sorted(xs: seq<real>): (r: seq<real>)
    ensures |r| == |xs|
  {
    if xs == [] then [] else Insert(xs[0], Sorted(xs[1..]))
  }

  lemma {:induction false} InsertKeepsOrder(x: real, xs: seq<real>)
    requires Ordered(xs)
    ensures Ordered(Insert(x, xs))
    ensures xs != [] ==> Insert(x, xs)[0] == if x <= xs[0] then x else xs[0]
  {
    if xs != [] && x > xs[0] {
      InsertKeepsOrder(x, xs[1..]);
    }
  }

  lemma {:induction false} SortedIsOrdered(xs: seq<real>)
    ensures Ordered(Sorted(xs))
  {
    if xs != [] {
      SortedIsOrdered(xs[1..]);
      InsertKeepsOrder(xs[0], Sorted(xs[1..]));
    }
  }

  lemma {:induction false} OrderedThroughout(xs: seq<real>, i: nat, j: nat)
    requires Ordered(xs) && i <= j < |xs|
    ensures xs[i] <= xs[j]
  {
    if i < j { OrderedThroughout(xs, i, j - 1); }
  }

  lemma {:induction false} InsertAddsMember(x: real, xs: seq<real>)
    ensures multiset(Insert(x, xs)) == multiset(xs) + multiset{x}
  {
    if xs != [] && x > xs[0] {
      InsertAddsMember(x, xs[1..]);
      Members(xs);
    }
  }

  lemma {:induction false} SortedKeepsMembers(xs: seq<real>)
    ensures multiset(Sorted(xs)) == multiset(xs)
  {
    if xs != [] {
      SortedKeepsMembers(xs[1..]);
      InsertAddsMember(xs[0], Sorted(xs[1..]));
      Members(xs);
    }
  }

  lemma {:induction false} InsertsCommute(x: real, y: real, xs: seq<real>)
    ensures Insert(x, Insert(y, xs)) == Insert(y, Insert(x, xs))
  {
    if xs != [] && x > xs[0] && y > xs[0] {
      InsertsCommute(x, y, xs[1..]);
    }
  }

  lemma {:induction false} InsertInOrder(x: real, xs: seq<real>)
    requires Ordered([x] + xs)
    ensures Insert(x, xs) == [x] + xs
  {
    if xs != [] { assert ([x] + xs)[0] <= ([x] + xs)[1]; }
  }

  lemma {:induction false} SortingIsIdempotent(xs: seq<real>)
    requires Ordered(xs)
    ensures Sorted(xs) == xs
  {
    if xs != [] {
      SortingIsIdempotent(xs[1..]);
      assert xs == [xs[0]] + xs[1..];
      InsertInOrder(xs[0], xs[1..]);
    }
  }

  // -------------------------------------------------------------- comparison

  /** One repetition: the log of head over base, unless a side was not a positive finite number. */
  datatype Sample = Usable(logRatio: real) | Unusable

  datatype Better = Lower | Higher

  datatype Policy = Policy(floorPercent: real, alpha: real, minimumPairs: nat, better: Better)

  datatype Signal = NotMeasured | NoSignal | Regression | Improvement

  /** Absent percentages are the ones the source reports as not a number. */
  datatype Comparison = Comparison(
    pairs: nat, discardedPairs: nat,
    medianPercent: Option<real>, lowPercent: Option<real>, highPercent: Option<real>,
    coverage: real, signal: Signal)

  function LogRatios(samples: seq<Sample>): (xs: seq<real>)
    ensures |xs| <= |samples|
  {
    if samples == [] then []
    else (if samples[0].Usable? then [samples[0].logRatio] else []) + LogRatios(samples[1..])
  }

  function Median(values: seq<real>): real {
    if values == [] then 0.0
    else
      var sorted := Sorted(values);
      var middle := |sorted| / 2;
      if |sorted| % 2 == 1 then sorted[middle] else (sorted[middle - 1] + sorted[middle]) / 2.0
  }

  function Abs(x: real): real { if x < 0.0 then -x else x }

  /** The verdict from the interval and the median. */
  function Verdict(low: real, high: real, medianPercent: real, policy: Policy): Signal {
    var worse := if policy.better.Lower? then low > 0.0 else high < 0.0;
    var improved := if policy.better.Lower? then high < 0.0 else low > 0.0;
    if !worse && !improved then NoSignal
    else if Abs(medianPercent) < policy.floorPercent then NoSignal
    else if worse then Regression
    else Improvement
  }

  ghost function Compare(samples: seq<Sample>, policy: Policy, percent: real -> real): Comparison {
    var xs := LogRatios(samples);
    Judge(xs, |samples| - |xs|, policy, percent)
  }

  ghost function Judge(xs: seq<real>, discarded: nat, policy: Policy, percent: real -> real): Comparison {
    if |xs| < policy.minimumPairs then Comparison(|xs|, discarded, None, None, None, 0.0, NotMeasured)
    else
      match Rank(|xs|, policy.alpha)
      case None => Comparison(|xs|, discarded, Some(percent(Median(xs))), None, None, 0.0, NotMeasured)
      case Some(rank) =>
        var sorted := Sorted(xs);
        var low, high := sorted[rank - 1], sorted[|sorted| - rank];
        var centre := percent(Median(sorted));
        Comparison(|xs|, discarded, Some(centre), Some(percent(low)), Some(percent(high)),
                   1.0 - 2.0 * (Tail(|xs|, rank - 1) as real / Pow2(|xs|) as real),
                   Verdict(low, high, centre, policy))
  }

  // ------------------------------------------------------- what does not matter

  /** The log ratios in ascending order. */
  function SortedRatios(samples: seq<Sample>): (xs: seq<real>)
    ensures |xs| == |LogRatios(samples)|
  {
    Sorted(LogRatios(samples))
  }

  function Include(s: Sample, xs: seq<real>): seq<real> {
    if s.Usable? then Insert(s.logRatio, xs) else xs
  }

  lemma SortedRatiosHead(samples: seq<Sample>)
    requires samples != []
    ensures SortedRatios(samples) == Include(samples[0], SortedRatios(samples[1..]))
  {
    var xs := LogRatios(samples);
    if samples[0].Usable? { assert xs[1..] == LogRatios(samples[1..]); }
    else { assert xs == LogRatios(samples[1..]); }
  }

  /** Any sample may be taken out first. */
  lemma {:induction false} SortedRatiosWithout(samples: seq<Sample>, i: nat)
    requires i < |samples|
    ensures SortedRatios(samples) == Include(samples[i], SortedRatios(Without(samples, i)))
  {
    hide SortedRatios, Include;
    SortedRatiosHead(samples);
    if i == 0 {
      assert Without(samples, 0) == samples[1..];
    } else {
      var rest := samples[1..];
      SortedRatiosWithout(rest, i - 1);
      WithoutLater(samples, i);
      SortedRatiosHead(Without(samples, i));
      IncludesCommute(samples[0], samples[i], SortedRatios(Without(rest, i - 1)));
    }
  }

  lemma WithoutLater(samples: seq<Sample>, i: nat)
    requires 0 < i < |samples|
    ensures var less := Without(samples, i);
            less != [] && less[0] == samples[0] && less[1..] == Without(samples[1..], i - 1)
  {
  }

  lemma IncludesCommute(a: Sample, b: Sample, xs: seq<real>)
    ensures Include(a, Include(b, xs)) == Include(b, Include(a, xs))
  {
    if a.Usable? && b.Usable? { InsertsCommute(a.logRatio, b.logRatio, xs); }
  }

  lemma {:induction false} SameSamplesSortAlike(a: seq<Sample>, b: seq<Sample>)
    requires multiset(a) == multiset(b)
    ensures SortedRatios(a) == SortedRatios(b)
  {
    hide SortedRatios;
    Members(a);
    Members(b);
    if a == [] {
      assert b == [];
    } else {
      assert a[0] in multiset(b);
      var i :| 0 <= i < |b| && b[i] == a[0];
      WithoutMember(b, i);
      RestMatches(a[0], multiset(a[1..]), multiset(Without(b, i)));
      SameSamplesSortAlike(a[1..], Without(b, i));
      SortedRatiosWithout(b, i);
      SortedRatiosHead(a);
    }
  }

  lemma RestMatches<T>(x: T, a: multiset<T>, b: multiset<T>)
    requires multiset{x} + a == multiset{x} + b
    ensures a == b
  {
    assert a == multiset{x} + a - multiset{x};
    assert b == multiset{x} + b - multiset{x};
  }

  lemma MedianOfSorted(xs: seq<real>)
    ensures Median(Sorted(xs)) == Median(xs)
  {
    SortedIsOrdered(xs);
    SortingIsIdempotent(Sorted(xs));
  }

  /** The order in which repetitions ran does not change the comparison. */
  lemma OrderDoesNotMatter(a: seq<Sample>, b: seq<Sample>, policy: Policy, percent: real -> real)
    requires multiset(a) == multiset(b)
    ensures Compare(a, policy, percent) == Compare(b, policy, percent)
  {
    hide Judge, Sorted, LogRatios;
    SameSamplesSortAlike(a, b);
    assert |a| == |b| by { Members(a); Members(b); }
    JudgeSorted(LogRatios(a), |a| - |LogRatios(a)|, policy, percent);
    JudgeSorted(LogRatios(b), |b| - |LogRatios(b)|, policy, percent);
  }

  /** A comparison is determined by how many samples there were and their sorted log ratios. */
  lemma JudgeSorted(xs: seq<real>, discarded: nat, policy: Policy, percent: real -> real)
    ensures Judge(Sorted(xs), discarded, policy, percent) == Judge(xs, discarded, policy, percent)
  {
    hide Rank, Verdict, Tail, Median, WithinBudget, Sorted;
    MedianOfSorted(xs);
    SortedIsOrdered(xs);
    SortingIsIdempotent(Sorted(xs));
  }
}
