/** Maximal runs of equal keys, and cutting a batch along them. */
module Chunks {
  import opened Prelude
  import opened Batches
  import opened BatchSplit

  /** The sizes cut the keys into maximal runs of equal keys. */
  ghost predicate Runs(keys: seq<nat>, sizes: seq<nat>) {
    && Total(sizes) == |keys|
    && (forall i :: 0 <= i < |sizes| ==> sizes[i] > 0)
    && (forall i, k :: 0 <= i < |sizes| && Base(sizes, i) <= k < Base(sizes, i) + sizes[i] ==>
          keys[k] == keys[Base(sizes, i)])
    && (forall i :: 0 < i < |sizes| ==> keys[Base(sizes, i)] != keys[Base(sizes, i) - 1])
  }

  lemma BaseAppend(sizes: seq<nat>, n: nat, i: nat)
    requires i <= |sizes|
    ensures Base(sizes + [n], i) == Base(sizes, i)
    ensures Total(sizes + [n]) == Total(sizes) + n
    ensures Base(sizes + [n], |sizes|) == Total(sizes)
  {
    assert (sizes + [n])[..i] == sizes[..i];
    assert (sizes + [n])[..|sizes|] == sizes;
  }

  /** One more maximal run. */
  lemma RunsAppend(keys: seq<nat>, sizes: seq<nat>, i: nat, j: nat)
    requires i < j <= |keys| && Runs(keys[..i], sizes)
    requires forall k :: i <= k < j ==> keys[k] == keys[i]
    requires i > 0 ==> keys[i] != keys[i - 1]
    ensures Runs(keys[..j], sizes + [j - i])
  {
    hide Base, Total;
    var more := sizes + [j - i];
    forall k | 0 <= k <= |sizes|
      ensures Base(more, k) == Base(sizes, k)
    {
      BaseAppend(sizes, j - i, k);
      WholeBase(sizes);
    }
    BaseAppend(sizes, j - i, 0);
    WholeBase(sizes);
    forall m, k | 0 <= m < |more| && Base(more, m) <= k < Base(more, m) + more[m]
      ensures keys[..j][k] == keys[..j][Base(more, m)]
    {
      if m < |sizes| {
        assert keys[..i][k] == keys[..i][Base(sizes, m)];
      }
    }
    forall m | 0 < m < |more|
      ensures 0 < Base(more, m) <= i && keys[..j][Base(more, m)] != keys[..j][Base(more, m) - 1]
    {
      BasePositive(sizes, m);
      if m < |sizes| {
        assert keys[..i][Base(sizes, m)] != keys[..i][Base(sizes, m) - 1];
      }
    }
  }

  lemma {:induction false} BasePositive(sizes: seq<nat>, m: nat)
    requires 0 < m <= |sizes| && forall i :: 0 <= i < |sizes| ==> sizes[i] > 0
    ensures Base(sizes, m) > 0
  {
  }

  lemma WholeBase(sizes: seq<nat>)
    ensures Base(sizes, |sizes|) == Total(sizes)
  {
    assert sizes[..|sizes|] == sizes;
  }

  // --------------------------------------------------------------- uniqueness

  /** All runs but the last are the runs of the keys before it. */
  lemma RunsDropLast(keys: seq<nat>, sizes: seq<nat>)
    requires Runs(keys, sizes) && |sizes| > 0
    ensures Base(sizes, |sizes| - 1) + sizes[|sizes| - 1] == |keys|
    ensures Runs(keys[..Base(sizes, |sizes| - 1)], sizes[..|sizes| - 1])
  {
    hide Base, Total;
    var n := |sizes| - 1;
    var front, last := sizes[..n], sizes[n];
    assert sizes == front + [last];
    WholeBase(front);
    WholeBase(sizes);
    forall k | 0 <= k <= n
      ensures Base(sizes, k) == Base(front, k)
    {
      BaseAppend(front, last, k);
    }
    BaseAppend(front, last, 0);
    var end := Base(sizes, n);
    forall m, k | 0 <= m < n && Base(front, m) <= k < Base(front, m) + front[m]
      ensures keys[..end][k] == keys[..end][Base(front, m)]
    {
      assert keys[k] == keys[Base(sizes, m)];
    }
    forall m | 0 < m < n
      ensures 0 < Base(front, m) <= end && keys[..end][Base(front, m)] != keys[..end][Base(front, m) - 1]
    {
      BasePositive(sizes, m);
      assert keys[Base(sizes, m)] != keys[Base(sizes, m) - 1];
    }
  }

  lemma InsideLastRun(keys: seq<nat>, sizes: seq<nat>)
    requires Runs(keys, sizes) && |sizes| > 0
    ensures forall k :: Base(sizes, |sizes| - 1) < k < |keys| ==> keys[k] == keys[k - 1]
  {
    RunsDropLast(keys, sizes);
    var b := Base(sizes, |sizes| - 1);
    assert forall k :: b <= k < |keys| ==> keys[k] == keys[b];
  }

  lemma StartOfLastRun(keys: seq<nat>, sizes: seq<nat>)
    requires Runs(keys, sizes) && |sizes| > 0
    ensures var b := Base(sizes, |sizes| - 1); b < |keys| && (b > 0 ==> keys[b] != keys[b - 1])
  {
    RunsDropLast(keys, sizes);
    assert sizes[..0] == [] && Total([]) == 0;
  }

  lemma SameLastRun(keys: seq<nat>, sizes: seq<nat>, sizes': seq<nat>)
    requires Runs(keys, sizes) && Runs(keys, sizes') && |sizes| > 0 && |sizes'| > 0
    ensures Base(sizes, |sizes| - 1) >= Base(sizes', |sizes'| - 1)
  {
    InsideLastRun(keys, sizes);
    StartOfLastRun(keys, sizes');
  }

  /** There is only one way to cut keys into maximal runs. */
  lemma {:induction false} RunsUnique(keys: seq<nat>, sizes: seq<nat>, sizes': seq<nat>)
    requires Runs(keys, sizes) && Runs(keys, sizes')
    ensures sizes == sizes'
    decreases |sizes|
  {
    if |sizes| == 0 || |sizes'| == 0 {
      NoRuns(keys, sizes);
      NoRuns(keys, sizes');
    } else {
      RunsDropLast(keys, sizes);
      RunsDropLast(keys, sizes');
      SameLastRun(keys, sizes, sizes');
      SameLastRun(keys, sizes', sizes);
      hide Runs, Base;
      RunsUnique(keys[..Base(sizes, |sizes| - 1)], sizes[..|sizes| - 1], sizes'[..|sizes'| - 1]);
      assert sizes == sizes[..|sizes| - 1] + [sizes[|sizes| - 1]];
      assert sizes' == sizes'[..|sizes'| - 1] + [sizes'[|sizes'| - 1]];
    }
  }

  lemma NoRuns(keys: seq<nat>, sizes: seq<nat>)
    requires Runs(keys, sizes)
    ensures sizes == [] <==> keys == []
  {
    if |sizes| > 0 {
      RunsDropLast(keys, sizes);
    }
  }

  // ------------------------------------------------------------------- chunks

  /** The runs before `last` are recorded, and one run reaches from there to i at least. */
  ghost predicate ChunkedUpTo(keys: seq<nat>, sizes: seq<nat>, last: nat, i: nat) {
    && last < i <= |keys| && Runs(keys[..last], sizes)
    && (forall k :: last <= k < i ==> keys[k] == keys[last])
    && (last > 0 ==> keys[last] != keys[last - 1])
  }

  lemma FirstChunk(keys: seq<nat>)
    requires |keys| > 0
    ensures ChunkedUpTo(keys, [], 0, 1)
  {
  }

  lemma NextChunk(keys: seq<nat>, sizes: seq<nat>, last: nat, i: nat)
    requires ChunkedUpTo(keys, sizes, last, i)
    ensures Runs(keys[..i], sizes + [i - last])
    ensures i < |keys| ==> ChunkedUpTo(keys, if keys[i] != keys[i - 1] then sizes + [i - last] else sizes,
                                       if keys[i] != keys[i - 1] then i else last, i + 1)
  {
    hide Runs;
    RunsAppend(keys, sizes, last, i);
  }

  /** The chunk sizes of consecutive equal keys; a batch without tokens has one chunk of size zero. */
  method GetChunkSizes(keys: seq<nat>) returns (sizes: seq<nat>)
    ensures keys == [] ==> sizes == [0]
    ensures keys != [] ==> Runs(keys, sizes)
  {
    sizes := [];
    var last := 0;
    if |keys| == 0 {
      return [0];
    }
    FirstChunk(keys);
    for i := 1 to |keys|
      invariant 0 <= last < i && ChunkedUpTo(keys, sizes, last, i)
    {
      hide ChunkedUpTo, Runs;
      NextChunk(keys, sizes, last, i);
      if keys[i] != keys[i - 1] {
        sizes := sizes + [i - last];
        last := i;
      }
    }
    NextChunk(keys, sizes, last, |keys|);
    sizes := sizes + [|keys| - last];
    assert keys[..|keys|] == keys;
  }

  /**
   * Cut a batch into its chunks, one after another: by experts if it is an expert batch, by attention ranks otherwise. A
   * batch without tokens is one empty chunk.
   */
  method SplitByExpert(b: TokenBatch) returns (pieces: seq<TokenBatch>, sizes: seq<nat>)
    requires RoutedBatch(b)
    ensures b.meta.numTokens > 0 && b.meta.tag == Expert ==> Runs(b.meta.expIds, sizes)
    ensures b.meta.numTokens > 0 && b.meta.tag != Expert ==> Runs(b.meta.ranks, sizes)
    ensures b.meta.numTokens == 0 ==> sizes == [0]
    ensures |pieces| == |sizes|
    ensures forall i :: 0 <= i < |sizes| ==> pieces[i] == Piece(b, Base(sizes, i), Base(sizes, i) + sizes[i])
  {
    sizes := GetChunkSizes(if b.meta.tag == Expert then b.meta.expIds else b.meta.ranks);
    OneZero();
    pieces := SplitWithSizes(b, sizes);
  }

  lemma OneZero()
    ensures Total([0]) == 0
  {
    assert [0][..0] == [];
  }
}
