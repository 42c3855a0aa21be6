/** Small shared vocabulary: optional values and sums over finite maps. */
module Basics {

  datatype Option<+T> = None | Some(value: T)

  /** The sum of the values of a finite map. */
  ghost function Sum(m: map<nat, nat>): nat
  {
    if m == map[] then 0
    else
      var k :| k in m;
      m[k] + Sum(m - {k})
  }

  /** Any key may be taken out first. */
  lemma {:induction false} SumRemove(m: map<nat, nat>, k: nat)
    requires k in m
    ensures Sum(m) == m[k] + Sum(m - {k})
    decreases |m|
  {
    var j :| j in m && Sum(m) == m[j] + Sum(m - {j});
    if j != k {
      SumRemove(m - {j}, k);
      SumRemove(m - {k}, j);
      assert m - {j} - {k} == m - {k} - {j};
    }
  }

  /** The sum under a name that proofs can treat as a black box. */
  ghost function Total(m: map<nat, nat>): nat {
    Sum(m)
  }

  lemma TotalAdd(m: map<nat, nat>, k: nat, v: nat)
    requires k !in m
    ensures Total(m[k := v]) == Total(m) + v
  {
    SumRemove(m[k := v], k);
    assert m[k := v] - {k} == m;
  }

  lemma TotalReplace(m: map<nat, nat>, k: nat, v: nat)
    requires k in m
    ensures Total(m[k := v]) == Total(m) - m[k] + v
  {
    SumRemove(m, k);
    SumRemove(m[k := v], k);
    assert m[k := v] - {k} == m - {k};
  }

  lemma TotalRemove(m: map<nat, nat>, k: nat)
    requires k in m
    ensures Total(m) == m[k] + Total(m - {k})
  {
    SumRemove(m, k);
  }

  /** The part of a map at some of its keys. */
  ghost function At(m: map<nat, nat>, ks: set<nat>): map<nat, nat> {
    map k | k in ks && k in m :: m[k]
  }

  /** Splitting a map by a set of keys splits its sum. */
  lemma {:induction false} TotalSplit(m: map<nat, nat>, ks: set<nat>)
    requires ks <= m.Keys
    ensures Total(m) == Total(m - ks) + Total(At(m, ks))
    decreases |ks|
  {
    if ks == {} {
      assert At(m, ks) == map[];
      assert m - ks == m;
    } else {
      var k :| k in ks;
      var rest := ks - {k};
      TotalSplit(m, rest);
      assert At(m, ks) - {k} == At(m, rest);
      TotalRemove(At(m, ks), k);
      assert m - rest - {k} == m - ks;
      TotalRemove(m - rest, k);
    }
  }

  lemma SizeSplit<T>(m: map<nat, T>, ks: set<nat>)
    requires ks <= m.Keys
    ensures |m - ks| == |m| - |ks|
  {
    assert (m - ks).Keys == m.Keys - ks;
  }

  lemma SizeAdd<T>(m: map<nat, T>, k: nat, v: T)
    requires k !in m
    ensures |m[k := v]| == |m| + 1
  {
    assert m[k := v].Keys == m.Keys + {k};
  }

  lemma {:induction false} Subset<T>(a: set<T>, b: set<T>)
    requires a <= b
    ensures |a| <= |b|
  {
    if a != {} {
      var x :| x in a;
      Subset(a - {x}, b - {x});
    }
  }

  // ---------------------------------------------------------- members of sequences

  lemma Members<T>(a: seq<T>)
    ensures |multiset(a)| == |a|
    ensures forall x :: x in multiset(a) <==> x in a
    ensures a != [] ==> multiset(a) == multiset{a[0]} + multiset(a[1..])
  {
    if a != [] { assert a == [a[0]] + a[1..]; }
  }

  /** A sequence with one place left out. */
  function Without<T>(a: seq<T>, i: nat): seq<T>
    requires i < |a|
  {
    a[..i] + a[i + 1..]
  }

  lemma WithoutMember<T>(a: seq<T>, i: nat)
    requires i < |a|
    ensures multiset(a) == multiset{a[i]} + multiset(Without(a, i))
  {
    assert a == a[..i] + ([a[i]] + a[i + 1..]);
  }
}
