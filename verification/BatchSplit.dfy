/**
 * Splitting a batch into consecutive pieces and permuting its metadata in place. The optional vectors of a batch
 * are either absent (empty) or have an entry for every token.
 */
module BatchSplit {
  import opened Prelude
  import opened CountingSort
  import opened Batches
  import opened BatchMerge

  // ---------------------------------------------------------------- pieces

  ghost predicate FullOrEmpty<T>(v: seq<T>, n: nat) {
    v == [] || |v| == n
  }

  ghost predicate WellFormed(m: Meta) {
    && |m.reqIds| == |m.prefillLens| == m.numTokens
    && FullOrEmpty(m.expIds, m.numTokens) && FullOrEmpty(m.weights, m.numTokens) && FullOrEmpty(m.ranks, m.numTokens)
  }

  ghost predicate WellFormedBatch(b: TokenBatch) {
    WellFormed(b.meta) && |b.rows| == b.meta.numTokens
  }

  /** Everything a batch says about one token. */
  datatype Item = Item(row: Row, req: int, prefill: int, exp: Option<nat>, rank: Option<nat>, weight: Option<real>)

  ghost function At<T>(v: seq<T>, i: nat): Option<T>
    requires v == [] || i < |v|
  {
    if v == [] then None else Some(v[i])
  }

  ghost function Items(b: TokenBatch): (r: seq<Item>)
    requires WellFormedBatch(b)
    ensures |r| == b.meta.numTokens
  {
    seq(b.meta.numTokens, i requires 0 <= i < b.meta.numTokens =>
      Item(b.rows[i], b.meta.reqIds[i], b.meta.prefillLens[i], At(b.meta.expIds, i), At(b.meta.ranks, i),
           At(b.meta.weights, i)))
  }

  function Part<T>(v: seq<T>, lo: nat, hi: nat): seq<T>
    requires lo <= hi && (v == [] || hi <= |v|)
  {
    if v == [] then [] else v[lo..hi]
  }

  function NumPrefill(lens: seq<int>): (r: nat)
    ensures r <= |lens|
  {
    if |lens| == 0 then 0 else NumPrefill(lens[..|lens| - 1]) + if lens[|lens| - 1] != -1 then 1 else 0
  }

  /** Tokens lo, ..., hi - 1; an attention piece counts its own prefill and decode tokens. */
  ghost function MetaPiece(m: Meta, lo: nat, hi: nat): Meta
    requires WellFormed(m) && lo <= hi <= m.numTokens
  {
    var lens := Part(m.prefillLens, lo, hi);
    var p := if m.tag == Attention then Some(NumPrefill(lens)) else None;
    var d := if m.tag == Attention then Some((hi - lo) - NumPrefill(lens)) else None;
    Meta(m.tag, m.layerId, hi - lo, Part(m.reqIds, lo, hi), Part(m.expIds, lo, hi), Part(m.weights, lo, hi),
         Part(m.ranks, lo, hi), lens, p, p, d)
  }

  ghost function Piece(b: TokenBatch, lo: nat, hi: nat): TokenBatch
    requires WellFormedBatch(b) && lo <= hi <= b.meta.numTokens
  {
    TokenBatch(b.rows[lo..hi], MetaPiece(b.meta, lo, hi))
  }

  lemma PieceItems(b: TokenBatch, lo: nat, hi: nat)
    requires WellFormedBatch(b) && lo <= hi <= b.meta.numTokens
    ensures WellFormedBatch(Piece(b, lo, hi)) && Items(Piece(b, lo, hi)) == Items(b)[lo..hi]
  {
    var c := Piece(b, lo, hi);
    forall k | 0 <= k < hi - lo
      ensures Items(c)[k] == Items(b)[lo + k]
    {
      PartAt(b.meta.expIds, lo, hi, k);
      PartAt(b.meta.ranks, lo, hi, k);
      PartAt(b.meta.weights, lo, hi, k);
    }
  }

  lemma PartAt<T>(v: seq<T>, lo: nat, hi: nat, k: nat)
    requires lo <= lo + k < hi && (v == [] || hi <= |v|)
    ensures At(Part(v, lo, hi), k) == At(v, lo + k)
  {
  }

  lemma PieceRouted(b: TokenBatch, lo: nat, hi: nat)
    requires RoutedBatch(b) && lo <= hi <= b.meta.numTokens
    ensures WellFormedBatch(b) && RoutedBatch(Piece(b, lo, hi))
    ensures RoutedTokens(Piece(b, lo, hi)) == RoutedTokens(b)[lo..hi]
  {
    var c := Piece(b, lo, hi);
    assert forall k :: 0 <= k < hi - lo ==> WeightAt(c.meta, k) == WeightAt(b.meta, lo + k);
  }

  lemma {:induction false} NumPrefillIs(lens: seq<int>, p: nat)
    requires p <= |lens|
    requires forall k :: 0 <= k < |lens| ==> (lens[k] != -1 <==> k < p)
    ensures NumPrefill(lens) == p
  {
    if |lens| > 0 {
      var n := |lens| - 1;
      NumPrefillIs(lens[..n], if p == |lens| then n else p);
    }
  }

  /** The positions of prefill tokens. */
  ghost function PrefillPositions(lens: seq<int>): set<nat> {
    set i: nat | i < |lens| && lens[i] != -1
  }

  /** Prefill tokens are counted one by one. */
  lemma {:induction false} PrefillsCounted(lens: seq<int>)
    ensures NumPrefill(lens) == |PrefillPositions(lens)|
  {
    if |lens| == 0 {
      assert PrefillPositions(lens) == {};
    } else {
      var n := |lens| - 1;
      PrefillsCounted(lens[..n]);
      var before := PrefillPositions(lens[..n]);
      assert PrefillPositions(lens) == if lens[n] != -1 then before + {n} else before;
    }
  }

  lemma PieceAttnTokens(b: TokenBatch, lo: nat, hi: nat)
    requires AttnBatch(b) && WellFormedBatch(b) && b.meta.tag == Attention && lo <= hi <= b.meta.numTokens
    ensures AttnBatch(Piece(b, lo, hi)) && AttnTokens(Piece(b, lo, hi)) == AttnTokens(b)[lo..hi]
    ensures Piece(b, lo, hi).meta.numPrefill.value == NumPrefill(Piece(b, lo, hi).meta.prefillLens)
  {
  }

  lemma LensArePrefills(b: TokenBatch)
    requires AttnBatch(b)
    ensures PrefillFirst(b) <==>
      forall k :: 0 <= k < |b.meta.prefillLens| ==> (b.meta.prefillLens[k] != -1 <==> k < b.meta.numPrefill.value)
  {
    var ts, q := AttnTokens(b), b.meta.numPrefill.value;
    assert forall k :: 0 <= k < |ts| ==> ts[k].prefill == b.meta.prefillLens[k];
    assert forall k :: 0 <= k < q ==> PrefillTokens(b)[k] == ts[k];
    assert forall k :: q <= k < |ts| ==> ts[k] == DecodeTokens(b)[k - q];
    assert forall k :: 0 <= k < |ts| - q ==> DecodeTokens(b)[k] == ts[q + k];
  }

  /** A piece of an attention batch is one again, and of a prefill-first batch a prefill-first one. */
  lemma PieceAttention(b: TokenBatch, lo: nat, hi: nat)
    requires AttnBatch(b) && WellFormedBatch(b) && b.meta.tag == Attention && lo <= hi <= b.meta.numTokens
    ensures AttnBatch(Piece(b, lo, hi)) && AttnTokens(Piece(b, lo, hi)) == AttnTokens(b)[lo..hi]
    ensures PrefillFirst(b) ==> PrefillFirst(Piece(b, lo, hi))
    ensures Piece(b, lo, hi).meta.numPrefill.value == |PrefillPositions(b.meta.prefillLens[lo..hi])|
  {
    PieceAttnTokens(b, lo, hi);
    PrefillsCounted(b.meta.prefillLens[lo..hi]);
    LensArePrefills(b);
    LensArePrefills(Piece(b, lo, hi));
    hide PrefillFirst, AttnTokens, NumPrefill, WellFormed;
    if PrefillFirst(b) {
      var q := b.meta.numPrefill.value;
      NumPrefillIs(Piece(b, lo, hi).meta.prefillLens, if q <= lo then 0 else if q >= hi then hi - lo else q - lo);
    }
  }

  // --------------------------------------------------------------- splitting

  ghost function Total(sizes: seq<nat>): nat {
    if |sizes| == 0 then 0 else Total(sizes[..|sizes| - 1]) + sizes[|sizes| - 1]
  }

  lemma {:induction false} TotalPrefix(sizes: seq<nat>, i: nat)
    requires i <= |sizes|
    ensures Total(sizes[..i]) <= Total(sizes)
    ensures i < |sizes| ==>
      Total(sizes[..i]) + sizes[i] == Total(sizes[..i + 1]) <= Total(sizes)
    decreases |sizes| - i
  {
    if i < |sizes| {
      TotalPrefix(sizes, i + 1);
      assert sizes[..i + 1][..i] == sizes[..i];
    } else {
      assert sizes[..i] == sizes;
    }
  }

  /** Where piece i starts. */
  ghost function Base(sizes: seq<nat>, i: nat): (r: nat)
    requires i <= |sizes|
    ensures r <= Total(sizes) && (i < |sizes| ==> r + sizes[i] <= Total(sizes))
  {
    TotalPrefix(sizes, i);
    Total(sizes[..i])
  }

  /** Piece i of a vector; an absent vector has absent pieces. */
  ghost function Cut<T>(v: seq<T>, sizes: seq<nat>, i: nat): seq<T>
    requires i < |sizes| && (v == [] || Total(sizes) <= |v|)
  {
    Part(v, Base(sizes, i), Base(sizes, i) + sizes[i])
  }

  /** Cut a vector into consecutive pieces; an empty vector gives empty pieces. */
  method SplitVector<T>(vec: seq<T>, sizes: seq<nat>) returns (res: seq<seq<T>>)
    requires vec == [] || Total(sizes) <= |vec|
    ensures |res| == |sizes|
    ensures forall i :: 0 <= i < |sizes| ==> res[i] == Cut(vec, sizes, i)
  {
    if vec == [] {
      return seq(|sizes|, _ => []);
    }
    res := [];
    var base := 0;
    for i := 0 to |sizes|
      invariant base == Base(sizes, i) && |res| == i
      invariant forall k :: 0 <= k < i ==> res[k] == Cut(vec, sizes, k)
    {
      TotalPrefix(sizes, i);
      var piece := vec[base..base + sizes[i]];
      assert piece == Cut(vec, sizes, i);
      hide Cut;
      res := res + [piece];
      base := base + sizes[i];
    }
  }

  method CountPrefill(lens: seq<int>) returns (n: nat)
    ensures n == NumPrefill(lens)
  {
    n := 0;
    for i := 0 to |lens|
      invariant n == NumPrefill(lens[..i])
    {
      assert lens[..i + 1][..i] == lens[..i];
      if lens[i] != -1 {
        n := n + 1;
      }
    }
    assert lens[..|lens|] == lens;
  }

  method SplitMeta(m: Meta, sizes: seq<nat>) returns (metas: seq<Meta>)
    requires WellFormed(m) && Total(sizes) <= m.numTokens
    ensures |metas| == |sizes|
    ensures forall i :: 0 <= i < |sizes| ==> metas[i] == MetaPiece(m, Base(sizes, i), Base(sizes, i) + sizes[i])
  {
    hide Base, Total, NumPrefill;
    var reqs := SplitVector(m.reqIds, sizes);
    var exps := SplitVector(m.expIds, sizes);
    var ranks := SplitVector(m.ranks, sizes);
    var lens := SplitVector(m.prefillLens, sizes);
    var weights := SplitVector(m.weights, sizes);
    metas := [];
    for i := 0 to |sizes|
      invariant |metas| == i
      invariant forall k :: 0 <= k < i ==> metas[k] == MetaPiece(m, Base(sizes, k), Base(sizes, k) + sizes[k])
    {
      var piece;
      if m.tag == Attention {
        var prefill := CountPrefill(lens[i]);
        piece := Meta(m.tag, m.layerId, sizes[i], reqs[i], exps[i], weights[i], ranks[i], lens[i], Some(prefill),
                      Some(prefill), Some(sizes[i] - prefill));
      } else {
        piece := Meta(m.tag, m.layerId, sizes[i], reqs[i], exps[i], weights[i], ranks[i], lens[i], None, None, None);
      }
      assert piece == MetaPiece(m, Base(sizes, i), Base(sizes, i) + sizes[i]);
      hide MetaPiece, Cut;
      metas := metas + [piece];
    }
  }

  /** Cut rows and metadata by the same sizes. */
  method SplitWithSizes(b: TokenBatch, sizes: seq<nat>) returns (pieces: seq<TokenBatch>)
    requires WellFormedBatch(b) && Total(sizes) <= b.meta.numTokens
    ensures |pieces| == |sizes|
    ensures forall i :: 0 <= i < |sizes| ==> pieces[i] == Piece(b, Base(sizes, i), Base(sizes, i) + sizes[i])
  {
    hide MetaPiece, Base, Total;
    var metas := SplitMeta(b.meta, sizes);
    var chunks := SplitVector(b.rows, sizes);
    pieces := [];
    for i := 0 to |sizes|
      invariant |pieces| == i
      invariant forall k :: 0 <= k < i ==> pieces[k] == Piece(b, Base(sizes, k), Base(sizes, k) + sizes[k])
    {
      pieces := pieces + [TokenBatch(chunks[i], metas[i])];
    }
  }

  // ------------------------------------------------------ metadata in place

  /** Element i of v is element positions[i] of w. */
  ghost predicate Moved<T>(v: seq<T>, w: seq<T>, positions: seq<nat>) {
    if v == [] then w == []
    else |w| == |v| == |positions| && IsPermutation(positions) && forall i :: 0 <= i < |v| ==> w[positions[i]] == v[i]
  }

  /** The result of moving is determined by the positions. */
  lemma MovedUnique<T>(v: seq<T>, w: seq<T>, w': seq<T>, positions: seq<nat>)
    requires Moved(v, w, positions) && Moved(v, w', positions)
    ensures w == w'
  {
    if v != [] {
      forall k | 0 <= k < |v|
        ensures w[k] == w'[k]
      {
        PermutationIsOnto(positions, k);
        var i :| 0 <= i < |positions| && positions[i] == k;
        assert w[positions[i]] == v[i] == w'[positions[i]];
      }
    }
  }

  class BatchMetadata {
    var tag: Tag
    var layerId: int
    var numTokens: nat
    var reqIds: seq<int>
    var expIds: seq<nat>
    var weights: seq<real>
    var ranks: seq<nat>
    var prefillLens: seq<int>
    var numSeqs: Option<nat>
    var numPrefill: Option<nat>
    var numDecode: Option<nat>

    constructor (m: Meta)
      ensures View() == m
    {
      tag, layerId, numTokens := m.tag, m.layerId, m.numTokens;
      reqIds, expIds, weights, ranks, prefillLens := m.reqIds, m.expIds, m.weights, m.ranks, m.prefillLens;
      numSeqs, numPrefill, numDecode := m.numSeqs, m.numPrefill, m.numDecode;
    }

    function View(): Meta
      reads this
    {
      Meta(tag, layerId, numTokens, reqIds, expIds, weights, ranks, prefillLens, numSeqs, numPrefill, numDecode)
    }

    /** Send token i to place positions[i] in every vector; no positions leave the batch alone. */
    method PermuteTokenInfos(positions: seq<nat>)
      requires WellFormed(View())
      requires positions == [] || (|positions| == numTokens && IsPermutation(positions))
      modifies this
      ensures positions == [] ==> View() == old(View())
      ensures View() == old(View()).(reqIds := reqIds, expIds := expIds, ranks := ranks, prefillLens := prefillLens,
                                     weights := weights)
      ensures positions != [] ==>
        && Moved(old(reqIds), reqIds, positions) && Moved(old(expIds), expIds, positions)
        && Moved(old(ranks), ranks, positions) && Moved(old(prefillLens), prefillLens, positions)
        && Moved(old(weights), weights, positions)
    {
      if positions == [] {
        return;
      }
      reqIds := Permute(reqIds, positions);
      expIds := Permute(expIds, positions);
      ranks := Permute(ranks, positions);
      prefillLens := Permute(prefillLens, positions);
      weights := Permute(weights, positions);
    }

    /** Sort the metadata by expert, stably; positions[i] = j says token i is now at place j. */
    method SortByExpert() returns (positions: seq<nat>)
      requires RoutedMeta(View())
      modifies this
      ensures positions == Ranks(old(expIds))
      ensures View() == old(View()).(reqIds := reqIds, expIds := expIds, ranks := ranks, prefillLens := prefillLens,
                                     weights := weights)
      ensures Moved(old(reqIds), reqIds, positions) && Moved(old(expIds), expIds, positions)
           && Moved(old(ranks), ranks, positions) && Moved(old(prefillLens), prefillLens, positions)
           && Moved(old(weights), weights, positions)
    {
      positions := SortPositions(expIds);
      RanksArePermutation(expIds, MAX_EXPERTS);
      PermuteTokenInfos(positions);
    }
  }

  /** Sorting an expert vector in place gives its stable sort. */
  lemma MovedIsStableSort(keys: seq<nat>, w: seq<nat>)
    requires forall i :: 0 <= i < |keys| ==> keys[i] < MAX_EXPERTS
    requires Moved(keys, w, Ranks(keys))
    ensures w == StableSort<nat>(keys, keys, MAX_EXPERTS)
    ensures forall i, j :: 0 <= i < j < |w| ==> w[i] <= w[j]
  {
    StableSortAt<nat>(keys, keys, MAX_EXPERTS);
    StableSortSorted(keys, MAX_EXPERTS);
    BelowBounds(keys, MAX_EXPERTS);
    if keys != [] {
      MovedUnique<nat>(keys, w, StableSort<nat>(keys, keys, MAX_EXPERTS), Ranks(keys));
    }
  }

  /** Merging by expert is concatenating and then sorting: same positions, same vectors. */
  lemma MergeIsSortOfConcatenation(metas: seq<Meta>, merged: Meta, sorted: Meta)
    requires |metas| > 0 && forall i :: 0 <= i < |metas| ==> RoutedMeta(metas[i])
    requires var c := Columns(metas);
      var positions := Ranks(c.expIds);
      && IsPermutation(positions) && IsScattered(merged, metas[0].layerId, c, positions)
      && Moved(c.reqIds, sorted.reqIds, positions) && Moved(c.expIds, sorted.expIds, positions)
      && Moved(c.ranks, sorted.ranks, positions) && Moved(c.prefillLens, sorted.prefillLens, positions)
      && Moved(c.weights, sorted.weights, positions)
    ensures merged.reqIds == sorted.reqIds && merged.expIds == sorted.expIds && merged.ranks == sorted.ranks
    ensures merged.prefillLens == sorted.prefillLens && merged.weights == sorted.weights
  {
    hide IsScattered, StableRank;
    var c := Columns(metas);
    var positions := Ranks(c.expIds);
    ScatteredAt(merged, metas[0].layerId, c, positions);
    MovedUnique(c.reqIds, merged.reqIds, sorted.reqIds, positions);
    MovedUnique(c.expIds, merged.expIds, sorted.expIds, positions);
    MovedUnique(c.ranks, merged.ranks, sorted.ranks, positions);
    MovedUnique(c.prefillLens, merged.prefillLens, sorted.prefillLens, positions);
    MovedUnique(c.weights, merged.weights, sorted.weights, positions);
  }
}
