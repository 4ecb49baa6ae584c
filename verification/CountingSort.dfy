/**
 * The counting sort over expert ids: one array first counts, then holds prefix sums, then serves as the running
 * position of every expert but the first, which has a counter of its own.
 */
module CountingSort {
  import opened Prelude

  const MAX_EXPERTS: nat := 128

  // ------------------------------------------------------- specification

  ghost function Below(keys: seq<nat>, e: nat): nat {
    if |keys| == 0 then 0 else Below(keys[..|keys| - 1], e) + if keys[|keys| - 1] < e then 1 else 0
  }

  ghost function Equal(keys: seq<nat>, e: nat): nat {
    if |keys| == 0 then 0 else Equal(keys[..|keys| - 1], e) + if keys[|keys| - 1] == e then 1 else 0
  }

  /** Where element i belongs: after all smaller keys, and after the equal keys before it. */
  ghost function StableRank(keys: seq<nat>, i: nat): nat
    requires i < |keys|
  {
    Below(keys, keys[i]) + Equal(keys[..i], keys[i])
  }

  /** The elements whose key is e, in order. */
  ghost function WithKey<T>(xs: seq<T>, keys: seq<nat>, e: nat): seq<T>
    requires |xs| == |keys|
  {
    if |xs| == 0 then []
    else
      var n := |xs| - 1;
      WithKey(xs[..n], keys[..n], e) + if keys[n] == e then [xs[n]] else []
  }

  /** The stable sort of xs by key, for keys below m: key 0's elements, then key 1's, and so on. */
  ghost function StableSort<T>(xs: seq<T>, keys: seq<nat>, m: nat): seq<T>
    requires |xs| == |keys|
  {
    if m == 0 then [] else StableSort(xs, keys, m - 1) + WithKey(xs, keys, m - 1)
  }

  /** Write data[0], data[1], ... at their positions, starting from `blank`. */
  function Scatter<T>(blank: seq<T>, data: seq<T>, positions: seq<nat>): (r: seq<T>)
    requires |positions| <= |data|
    requires forall i :: 0 <= i < |positions| ==> positions[i] < |blank|
    ensures |r| == |blank|
  {
    if |positions| == 0 then blank
    else
      var n := |positions| - 1;
      assert forall i :: 0 <= i < n ==> positions[..n][i] == positions[i];
      Scatter(blank, data, positions[..n])[positions[n] := data[n]]
  }

  // --------------------------------------------------------------- counts

  lemma {:induction false} BelowStep(keys: seq<nat>, e: nat)
    ensures Below(keys, e + 1) == Below(keys, e) + Equal(keys, e)
  {
    if |keys| > 0 {
      BelowStep(keys[..|keys| - 1], e);
    }
  }

  lemma {:induction false} BelowBounds(keys: seq<nat>, e: nat)
    ensures Below(keys, 0) == 0
    ensures (forall i :: 0 <= i < |keys| ==> keys[i] < e) ==> Below(keys, e) == |keys|
    ensures Below(keys, e) <= |keys|
  {
    if |keys| > 0 {
      BelowBounds(keys[..|keys| - 1], e);
    }
  }

  lemma {:induction false} EqualPrefix(keys: seq<nat>, i: nat, j: nat, e: nat)
    requires i <= j <= |keys|
    ensures Equal(keys[..i], e) <= Equal(keys[..j], e)
  {
    if i < j {
      assert keys[..j][..j - 1] == keys[..j - 1];
      EqualPrefix(keys, i, j - 1, e);
    }
  }

  lemma EqualAppend(keys: seq<nat>, i: nat, e: nat)
    requires i < |keys|
    ensures Equal(keys[..i + 1], e) == Equal(keys[..i], e) + if keys[i] == e then 1 else 0
  {
    assert keys[..i + 1][..i] == keys[..i];
  }

  // -------------------------------------------- the reference sort's shape

  lemma {:induction false} WithKeyAt<T>(xs: seq<T>, keys: seq<nat>, e: nat)
    requires |xs| == |keys|
    ensures |WithKey(xs, keys, e)| == Equal(keys, e)
    ensures forall i :: 0 <= i < |xs| && keys[i] == e ==>
      Equal(keys[..i], e) < |WithKey(xs, keys, e)| && WithKey(xs, keys, e)[Equal(keys[..i], e)] == xs[i]
  {
    if |xs| > 0 {
      var n := |xs| - 1;
      WithKeyAt(xs[..n], keys[..n], e);
      forall i | 0 <= i < |xs| && keys[i] == e
        ensures Equal(keys[..i], e) < |WithKey(xs, keys, e)| && WithKey(xs, keys, e)[Equal(keys[..i], e)] == xs[i]
      {
        if i < n {
          assert keys[..n][i] == e && keys[..n][..i] == keys[..i];
        }
      }
    }
  }

  /** Element i of the input is element StableRank(i) of the stable sort. */
  lemma {:induction false} StableSortAt<T>(xs: seq<T>, keys: seq<nat>, m: nat)
    requires |xs| == |keys|
    ensures |StableSort(xs, keys, m)| == Below(keys, m)
    ensures forall i :: 0 <= i < |xs| && keys[i] < m ==>
      StableRank(keys, i) < |StableSort(xs, keys, m)| && StableSort(xs, keys, m)[StableRank(keys, i)] == xs[i]
  {
    hide Below, Equal, WithKey;
    if m == 0 {
      BelowBounds(keys, 0);
    } else {
      StableSortAt(xs, keys, m - 1);
      BelowStep(keys, m - 1);
      WithKeyAt(xs, keys, m - 1);
      var front, back := StableSort(xs, keys, m - 1), WithKey(xs, keys, m - 1);
      forall i | 0 <= i < |xs| && keys[i] < m
        ensures StableRank(keys, i) < |front + back| && (front + back)[StableRank(keys, i)] == xs[i]
      {
        if keys[i] == m - 1 {
          assert StableRank(keys, i) == |front| + Equal(keys[..i], m - 1);
          assert back[Equal(keys[..i], m - 1)] == xs[i];
        } else {
          assert front[StableRank(keys, i)] == xs[i];
        }
      }
    }
  }

  lemma {:induction false} WithKeyHasKey(xs: seq<nat>, keys: seq<nat>, e: nat)
    requires xs == keys
    ensures forall k :: 0 <= k < |WithKey(xs, keys, e)| ==> WithKey(xs, keys, e)[k] == e
  {
    if |keys| > 0 {
      WithKeyHasKey(xs[..|xs| - 1], keys[..|keys| - 1], e);
    }
  }

  /** The stable sort of the keys themselves is in increasing order. */
  lemma {:induction false} StableSortSorted(keys: seq<nat>, m: nat)
    ensures forall i, j :: 0 <= i < j < |StableSort<nat>(keys, keys, m)| ==>
      StableSort<nat>(keys, keys, m)[i] <= StableSort<nat>(keys, keys, m)[j] < m
    ensures forall i :: 0 <= i < |StableSort<nat>(keys, keys, m)| ==> StableSort<nat>(keys, keys, m)[i] < m
  {
    hide WithKey;
    if m > 0 {
      StableSortSorted(keys, m - 1);
      WithKeyHasKey(keys, keys, m - 1);
      var front, back := StableSort<nat>(keys, keys, m - 1), WithKey<nat>(keys, keys, m - 1);
      forall i, j | 0 <= i < j < |front + back|
        ensures (front + back)[i] <= (front + back)[j] < m
      {
      }
      assert forall i :: 0 <= i < |front + back| ==> (front + back)[i] < m;
    }
  }

  ghost function Count<T>(xs: seq<T>, x: T): nat {
    multiset(xs)[x]
  }

  lemma CountConcat<T>(xs: seq<T>, ys: seq<T>, x: T)
    ensures Count(xs + ys, x) == Count(xs, x) + Count(ys, x)
  {
  }

  lemma {:induction false} StableSortSnoc<T>(xs: seq<T>, keys: seq<nat>, m: nat, x: T)
    requires |xs| == |keys| > 0
    ensures var n := |xs| - 1;
      Count(StableSort(xs, keys, m), x)
      == Count(StableSort(xs[..n], keys[..n], m), x) + if keys[n] < m && xs[n] == x then 1 else 0
  {
    hide Count;
    var n := |xs| - 1;
    if m > 0 {
      StableSortSnoc(xs, keys, m - 1, x);
      var last: seq<T> := if keys[n] == m - 1 then [xs[n]] else [];
      CountConcat(StableSort(xs, keys, m - 1), WithKey(xs, keys, m - 1), x);
      CountConcat(WithKey(xs[..n], keys[..n], m - 1), last, x);
      CountConcat(StableSort(xs[..n], keys[..n], m - 1), WithKey(xs[..n], keys[..n], m - 1), x);
      CountOne(last, xs[n], x);
    } else {
      assert StableSort(xs, keys, 0) == StableSort(xs[..n], keys[..n], 0);
    }
  }

  lemma CountOne<T>(xs: seq<T>, y: T, x: T)
    ensures xs == [y] ==> Count(xs, x) == if y == x then 1 else 0
    ensures xs == [] ==> Count(xs, x) == 0
  {
  }

  /** The stable sort loses and invents nothing: every value occurs as often as before. */
  lemma {:induction false} StableSortCount<T>(xs: seq<T>, keys: seq<nat>, m: nat, x: T)
    requires |xs| == |keys| && forall i :: 0 <= i < |keys| ==> keys[i] < m
    ensures Count(StableSort(xs, keys, m), x) == Count(xs, x)
  {
    hide Count, StableSort;
    if |xs| == 0 {
      StableSortAt(xs, keys, m);
      BelowBounds(keys, m);
    } else {
      var n := |xs| - 1;
      StableSortSnoc(xs, keys, m, x);
      StableSortCount(xs[..n], keys[..n], m, x);
      assert xs == xs[..n] + [xs[n]];
      CountConcat(xs[..n], [xs[n]], x);
      CountOne([xs[n]], xs[n], x);
    }
  }

  lemma {:induction false} BelowMonotone(keys: seq<nat>, d: nat, e: nat)
    requires d < e
    ensures Below(keys, d) + Equal(keys, d) <= Below(keys, e)
  {
    if |keys| > 0 {
      BelowMonotone(keys[..|keys| - 1], d, e);
    }
  }

  lemma {:induction false} RankBefore(keys: seq<nat>, i: nat, j: nat)
    requires i < |keys| && j < |keys| && (keys[i] < keys[j] || (keys[i] == keys[j] && i < j))
    ensures StableRank(keys, i) < StableRank(keys, j)
  {
    EqualAppend(keys, i, keys[i]);
    if keys[i] < keys[j] {
      BelowMonotone(keys, keys[i], keys[j]);
      EqualPrefix(keys, i + 1, |keys|, keys[i]);
      assert keys[..|keys|] == keys;
    } else {
      EqualPrefix(keys, i + 1, j, keys[i]);
    }
  }

  /** The counting-sort positions order tokens by key first and by arrival second: the sort is stable. */
  lemma {:induction false} RankOrder(keys: seq<nat>, i: nat, j: nat)
    requires i < |keys| && j < |keys|
    ensures StableRank(keys, i) < StableRank(keys, j) <==> keys[i] < keys[j] || (keys[i] == keys[j] && i < j)
  {
    if keys[i] < keys[j] || (keys[i] == keys[j] && i < j) {
      RankBefore(keys, i, j);
    } else if i != j {
      RankBefore(keys, j, i);
    }
  }

  // ----------------------------------------------------------- permutations

  /** Different elements have different ranks, all within bounds: the ranks are a permutation. */
  lemma RanksArePermutation(keys: seq<nat>, m: nat)
    requires forall i :: 0 <= i < |keys| ==> keys[i] < m
    ensures forall i :: 0 <= i < |keys| ==> StableRank(keys, i) < |keys|
    ensures forall i, j :: 0 <= i < j < |keys| ==> StableRank(keys, i) != StableRank(keys, j)
  {
    var indices := Range(0, |keys|);
    StableSortAt(indices, keys, m);
    BelowBounds(keys, m);
    forall i, j | 0 <= i < j < |keys|
      ensures StableRank(keys, i) != StableRank(keys, j)
    {
      assert StableSort(indices, keys, m)[StableRank(keys, i)] == i;
      assert StableSort(indices, keys, m)[StableRank(keys, j)] == j;
    }
  }

  ghost predicate IsPermutation(positions: seq<nat>) {
    && (forall i :: 0 <= i < |positions| ==> positions[i] < |positions|)
    && (forall i, j :: 0 <= i < j < |positions| ==> positions[i] != positions[j])
  }

  ghost function Elements(xs: seq<nat>): set<nat> {
    set x: nat | x in xs
  }

  lemma {:induction false} DistinctCount(xs: seq<nat>)
    requires forall i, j :: 0 <= i < j < |xs| ==> xs[i] != xs[j]
    ensures |Elements(xs)| == |xs|
  {
    if |xs| > 0 {
      var n := |xs| - 1;
      DistinctCount(xs[..n]);
      assert xs == xs[..n] + [xs[n]];
      assert Elements(xs) == Elements(xs[..n]) + {xs[n]};
    }
  }

  lemma SubsetOfSameSize(a: set<nat>, b: set<nat>)
    requires a <= b && |a| == |b|
    ensures a == b
  {
    assert |b - a| == |b| - |a|;
  }

  /** A permutation hits every index. */
  lemma PermutationIsOnto(positions: seq<nat>, k: nat)
    requires IsPermutation(positions) && k < |positions|
    ensures exists i :: 0 <= i < |positions| && positions[i] == k
  {
    var all := Range(0, |positions|);
    DistinctCount(positions);
    DistinctCount(all);
    assert forall j :: 0 <= j < |all| ==> all[j] == j;
    forall x | x in Elements(positions)
      ensures x in Elements(all)
    {
      assert all[x] == x;
    }
    SubsetOfSameSize(Elements(positions), Elements(all));
    assert all[k] in Elements(all);
  }

  lemma {:induction false} ScatterAt<T>(blank: seq<T>, data: seq<T>, positions: seq<nat>)
    requires |positions| <= |data|
    requires forall i :: 0 <= i < |positions| ==> positions[i] < |blank|
    requires forall i, j :: 0 <= i < j < |positions| ==> positions[i] != positions[j]
    ensures forall i :: 0 <= i < |positions| ==> Scatter(blank, data, positions)[positions[i]] == data[i]
  {
    if |positions| > 0 {
      var n := |positions| - 1;
      var before := positions[..n];
      assert forall i :: 0 <= i < n ==> before[i] == positions[i];
      ScatterAt(blank, data, before);
    }
  }

  ghost function Ranks(keys: seq<nat>): (r: seq<nat>)
    ensures |r| == |keys| && forall i :: 0 <= i < |keys| ==> r[i] == StableRank(keys, i)
  {
    seq(|keys|, i requires 0 <= i < |keys| => StableRank(keys, i))
  }

  /** Scattering to the stable ranks is the stable sort. */
  lemma ScatterIsStableSort<T>(blank: seq<T>, data: seq<T>, keys: seq<nat>, m: nat)
    requires |blank| == |data| == |keys| && forall i :: 0 <= i < |keys| ==> keys[i] < m
    ensures IsPermutation(Ranks(keys))
    ensures Scatter(blank, data, Ranks(keys)) == StableSort(data, keys, m)
  {
    RanksArePermutation(keys, m);
    var positions := Ranks(keys);
    ScatterAt(blank, data, positions);
    StableSortAt(data, keys, m);
    BelowBounds(keys, m);
    var r, s := Scatter(blank, data, positions), StableSort(data, keys, m);
    forall k | 0 <= k < |data|
      ensures r[k] == s[k]
    {
      PermutationIsOnto(positions, k);
      var i :| 0 <= i < |positions| && positions[i] == k;
      assert r[positions[i]] == data[i] && s[StableRank(keys, i)] == data[i];
    }
  }

  // -------------------------------------------------------------- methods

  /** The shared counter array after counting: entry e holds the number of tokens of expert e. */
  method CountExperts(expIds: seq<nat>, counts: array<nat>)
    requires counts.Length == MAX_EXPERTS && forall i :: 0 <= i < |expIds| ==> expIds[i] < MAX_EXPERTS
    modifies counts
    ensures forall e :: 0 <= e < MAX_EXPERTS ==> counts[e] == old(counts[e]) + Equal(expIds, e)
  {
    for i := 0 to |expIds|
      invariant forall e :: 0 <= e < MAX_EXPERTS ==> counts[e] == old(counts[e]) + Equal(expIds[..i], e)
    {
      counts[expIds[i]] := counts[expIds[i]] + 1;
      forall e | 0 <= e < MAX_EXPERTS
        ensures counts[e] == old(counts[e]) + Equal(expIds[..i + 1], e)
      {
        EqualAppend(expIds, i, e);
      }
    }
    assert expIds[..|expIds|] == expIds;
  }

  /** Turn counts into prefix sums in place: entry e becomes the number of tokens of experts up to e. */
  method PrefixSums(counts: array<nat>, ghost keys: seq<nat>)
    requires counts.Length == MAX_EXPERTS
    requires forall e :: 0 <= e < MAX_EXPERTS ==> counts[e] == Equal(keys, e)
    modifies counts
    ensures forall e :: 0 <= e < MAX_EXPERTS ==> counts[e] == Below(keys, e + 1)
  {
    BelowStep(keys, 0);
    BelowBounds(keys, 0);
    for i := 1 to MAX_EXPERTS
      invariant forall e :: 0 <= e < i ==> counts[e] == Below(keys, e + 1)
      invariant forall e :: i <= e < MAX_EXPERTS ==> counts[e] == Equal(keys, e)
    {
      BelowStep(keys, i);
      counts[i] := counts[i] + counts[i - 1];
    }
  }

  /**
   * The running counters while positions are handed out in token order: entry e - 1 is the next position of
   * expert e, and `first` that of expert 0. The last entry is never used again.
   */
  ghost predicate Counters(counts: array<nat>, first: nat, keys: seq<nat>, i: nat)
    requires counts.Length == MAX_EXPERTS && i <= |keys|
    reads counts
  {
    && first == Equal(keys[..i], 0)
    && forall e :: 1 <= e < MAX_EXPERTS ==> counts[e - 1] == Below(keys, e) + Equal(keys[..i], e)
  }

  /** The position of token i, taken from the counters, which move on to token i + 1. */
  method NextPosition(counts: array<nat>, first: nat, ghost keys: seq<nat>, ghost i: nat, expId: nat)
    returns (position: nat, first': nat)
    requires counts.Length == MAX_EXPERTS && i < |keys| && expId == keys[i] < MAX_EXPERTS
    requires Counters(counts, first, keys, i)
    modifies counts
    ensures position == StableRank(keys, i)
    ensures Counters(counts, first', keys, i + 1)
  {
    forall e | 0 <= e < MAX_EXPERTS
      ensures Equal(keys[..i + 1], e) == Equal(keys[..i], e) + if keys[i] == e then 1 else 0
    {
      EqualAppend(keys, i, e);
    }
    BelowBounds(keys, 0);
    if expId == 0 {
      position := first;
      first' := first + 1;
    } else {
      position := counts[expId - 1];
      counts[expId - 1] := counts[expId - 1] + 1;
      first' := first;
    }
  }

  /** The positions of the counting sort: positions[i] = j means token i goes to place j. */
  method SortPositions(expIds: seq<nat>) returns (positions: seq<nat>)
    requires forall i :: 0 <= i < |expIds| ==> expIds[i] < MAX_EXPERTS
    ensures positions == Ranks(expIds)
  {
    var counts := new nat[MAX_EXPERTS](_ => 0);
    CountExperts(expIds, counts);
    PrefixSums(counts, expIds);
    var first := 0;
    positions := [];
    for i := 0 to |expIds|
      invariant Counters(counts, first, expIds, i)
      invariant positions == Ranks(expIds)[..i]
    {
      var p;
      p, first := NextPosition(counts, first, expIds, i, expIds[i]);
      positions := positions + [p];
    }
  }

  /** Scatter a vector to its new positions; an empty vector stays empty. */
  method Permute<T(0)>(data: seq<T>, positions: seq<nat>) returns (result: seq<T>)
    requires data == [] || (|positions| == |data| && IsPermutation(positions))
    ensures data == [] ==> result == []
    ensures data != [] ==> |result| == |data| && forall i :: 0 <= i < |data| ==> result[positions[i]] == data[i]
  {
    if data == [] {
      return [];
    }
    var a := new T[|data|];
    for i := 0 to |positions|
      invariant forall j :: 0 <= j < i ==> a[positions[j]] == data[j]
    {
      a[positions[i]] := data[i];
    }
    result := a[..];
  }
}
