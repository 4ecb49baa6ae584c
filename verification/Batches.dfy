/**
 * Token batches: a matrix of rows beside per-token metadata vectors, and the merges and splits that must keep
 * every row at the index of its own metadata.
 */
module Batches {
  import opened Prelude
  import opened CountingSort

  datatype Tag = Attention | Expert | Tokenizer

  /** One row of activations: one that lives at an address, or the sum of several. */
  datatype Row = Row(address: nat) | Sum(parts: seq<Row>)

  datatype Meta = Meta(
    tag: Tag,
    layerId: int,
    numTokens: nat,
    reqIds: seq<int>,
    expIds: seq<nat>,
    weights: seq<real>,
    ranks: seq<nat>,
    prefillLens: seq<int>,
    numSeqs: Option<nat>,
    numPrefill: Option<nat>,
    numDecode: Option<nat>)

  datatype TokenBatch = TokenBatch(rows: seq<Row>, meta: Meta)

  /** Everything a routed batch says about one token. */
  datatype RoutedToken = RoutedToken(row: Row, req: int, exp: nat, rank: nat, prefill: int, weight: real)

  /** Everything an attention batch says about one token. */
  datatype AttnToken = AttnToken(row: Row, req: int, prefill: int)

  // ------------------------------------------------------------ well-formed

  /** Routed metadata: every vector has an entry for every token; weights may be absent. */
  predicate RoutedMeta(m: Meta) {
    && |m.reqIds| == |m.expIds| == |m.ranks| == |m.prefillLens| == m.numTokens
    && (m.weights == [] || |m.weights| == m.numTokens)
    && forall i :: 0 <= i < |m.expIds| ==> m.expIds[i] < MAX_EXPERTS
  }

  predicate RoutedBatch(b: TokenBatch) {
    RoutedMeta(b.meta) && |b.rows| == b.meta.numTokens
  }

  /** The safe check of an attention batch: it counts its tokens, and its prefill sequences as prefill tokens. */
  predicate AttnMeta(m: Meta) {
    && |m.reqIds| == |m.prefillLens| == m.numTokens
    && m.numSeqs.Some? && m.numPrefill.Some? && m.numDecode.Some?
    && m.numPrefill.value == m.numSeqs.value
    && m.numPrefill.value + m.numDecode.value == m.numTokens
  }

  predicate AttnBatch(b: TokenBatch) {
    AttnMeta(b.meta) && |b.rows| == b.meta.numTokens
  }

  function WeightAt(m: Meta, i: nat): real
    requires RoutedMeta(m) && i < m.numTokens
  {
    if m.weights == [] then 0.0 else m.weights[i]
  }

  ghost function RoutedTokens(b: TokenBatch): (r: seq<RoutedToken>)
    requires RoutedBatch(b)
    ensures |r| == b.meta.numTokens
  {
    seq(b.meta.numTokens, i requires 0 <= i < b.meta.numTokens =>
      RoutedToken(b.rows[i], b.meta.reqIds[i], b.meta.expIds[i], b.meta.ranks[i], b.meta.prefillLens[i],
                  WeightAt(b.meta, i)))
  }

  ghost function AttnTokens(b: TokenBatch): (r: seq<AttnToken>)
    requires AttnBatch(b)
    ensures |r| == b.meta.numTokens
  {
    seq(b.meta.numTokens, i requires 0 <= i < b.meta.numTokens =>
      AttnToken(b.rows[i], b.meta.reqIds[i], b.meta.prefillLens[i]))
  }

  // ---------------------------------------------------------- concatenation

  /** The columns of c followed by those of m, absent weights read as zero. */
  ghost function Append(c: Meta, m: Meta): (r: Meta)
    requires RoutedMeta(c) && |c.weights| == c.numTokens && RoutedMeta(m)
    ensures RoutedMeta(r) && |r.weights| == r.numTokens == c.numTokens + m.numTokens
  {
    Meta(Expert, 0, c.numTokens + m.numTokens, c.reqIds + m.reqIds, c.expIds + m.expIds,
         c.weights + seq(m.numTokens, i requires 0 <= i < m.numTokens => WeightAt(m, i)),
         c.ranks + m.ranks, c.prefillLens + m.prefillLens, None, None, None)
  }

  /** The columns of several batches, one batch after another. */
  ghost function Columns(ms: seq<Meta>): (r: Meta)
    requires forall i :: 0 <= i < |ms| ==> RoutedMeta(ms[i])
    ensures RoutedMeta(r) && |r.weights| == r.numTokens
  {
    if |ms| == 0 then Meta(Expert, 0, 0, [], [], [], [], [], None, None, None)
    else Append(Columns(ms[..|ms| - 1]), ms[|ms| - 1])
  }

  ghost function AllRows(bs: seq<TokenBatch>): seq<Row> {
    if |bs| == 0 then [] else AllRows(bs[..|bs| - 1]) + bs[|bs| - 1].rows
  }

  function Metas(bs: seq<TokenBatch>): (r: seq<Meta>)
    ensures |r| == |bs| && forall i :: 0 <= i < |bs| ==> r[i] == bs[i].meta
    ensures (forall i :: 0 <= i < |bs| ==> RoutedBatch(bs[i])) ==> forall i :: 0 <= i < |r| ==> RoutedMeta(r[i])
    ensures (forall i :: 0 <= i < |bs| ==> AttnBatch(bs[i])) ==> forall i :: 0 <= i < |r| ==> AttnMeta(r[i])
  {
    seq(|bs|, i requires 0 <= i < |bs| => bs[i].meta)
  }

  ghost function AllRoutedTokens(bs: seq<TokenBatch>): seq<RoutedToken>
    requires forall i :: 0 <= i < |bs| ==> RoutedBatch(bs[i])
  {
    if |bs| == 0 then [] else AllRoutedTokens(bs[..|bs| - 1]) + RoutedTokens(bs[|bs| - 1])
  }

  /** Token idx of c is token j of m. */
  ghost predicate SameToken(c: Meta, idx: nat, m: Meta, j: nat)
    requires RoutedMeta(c) && |c.weights| == c.numTokens && RoutedMeta(m) && j < m.numTokens
  {
    && idx < c.numTokens
    && c.reqIds[idx] == m.reqIds[j] && c.expIds[idx] == m.expIds[j] && c.ranks[idx] == m.ranks[j]
    && c.prefillLens[idx] == m.prefillLens[j] && c.weights[idx] == WeightAt(m, j)
  }

  lemma AppendKeeps(c: Meta, last: Meta, idx: nat, m: Meta, j: nat)
    requires RoutedMeta(c) && |c.weights| == c.numTokens && RoutedMeta(last) && RoutedMeta(m) && j < m.numTokens
    requires SameToken(c, idx, m, j)
    ensures SameToken(Append(c, last), idx, m, j) && idx < Append(c, last).numTokens
  {
  }

  lemma AppendAdds(c: Meta, m: Meta, j: nat)
    requires RoutedMeta(c) && |c.weights| == c.numTokens && RoutedMeta(m) && j < m.numTokens
    ensures SameToken(Append(c, m), c.numTokens + j, m, j) && c.numTokens + j < Append(c, m).numTokens
  {
  }

  /** Where token j of batch i sits in the concatenation. */
  lemma {:induction false} ColumnsAt(ms: seq<Meta>, i: nat, j: nat)
    requires forall k :: 0 <= k < |ms| ==> RoutedMeta(ms[k])
    requires i < |ms| && j < ms[i].numTokens
    ensures SameToken(Columns(ms), Columns(ms[..i]).numTokens + j, ms[i], j)
    ensures Columns(ms[..i]).numTokens + j < Columns(ms).numTokens
  {
    hide RoutedMeta, Append, SameToken;
    var n := |ms| - 1;
    if i < n {
      ColumnsAt(ms[..n], i, j);
      assert ms[..n][..i] == ms[..i];
      AppendKeeps(Columns(ms[..n]), ms[n], Columns(ms[..i]).numTokens + j, ms[i], j);
    } else {
      AppendAdds(Columns(ms[..n]), ms[n], j);
    }
  }

  lemma ColumnsStep(ms: seq<Meta>, i: nat)
    requires forall k :: 0 <= k < |ms| ==> RoutedMeta(ms[k])
    requires i < |ms|
    ensures Columns(ms[..i + 1]).numTokens == Columns(ms[..i]).numTokens + ms[i].numTokens
  {
    assert ms[..i + 1][..i] == ms[..i];
  }

  lemma {:induction false} AppendTokens(rows: seq<Row>, c: Meta, b: TokenBatch)
    requires RoutedMeta(c) && |rows| == |c.weights| == c.numTokens && RoutedBatch(b)
    ensures RoutedTokens(TokenBatch(rows + b.rows, Append(c, b.meta)))
         == RoutedTokens(TokenBatch(rows, c)) + RoutedTokens(b)
  {
    var r := TokenBatch(rows + b.rows, Append(c, b.meta));
    var ts, us := RoutedTokens(TokenBatch(rows, c)), RoutedTokens(b);
    forall k | 0 <= k < r.meta.numTokens
      ensures RoutedTokens(r)[k] == (ts + us)[k]
    {
      assert WeightAt(r.meta, k) == if k < c.numTokens then c.weights[k] else WeightAt(b.meta, k - c.numTokens);
    }
  }

  /** The tokens of several batches are the rows and columns of their concatenation, zipped. */
  lemma {:induction false} TokensAreColumns(bs: seq<TokenBatch>)
    requires forall i :: 0 <= i < |bs| ==> RoutedBatch(bs[i])
    ensures |AllRows(bs)| == Columns(Metas(bs)).numTokens
    ensures RoutedTokens(TokenBatch(AllRows(bs), Columns(Metas(bs)))) == AllRoutedTokens(bs)
  {
    hide RoutedTokens, Append;
    if |bs| > 0 {
      var n := |bs| - 1;
      TokensAreColumns(bs[..n]);
      assert Metas(bs)[..n] == Metas(bs[..n]);
      AppendTokens(AllRows(bs[..n]), Columns(Metas(bs[..n])), bs[n]);
    } else {
      EmptyTokens(TokenBatch([], Columns(Metas(bs))));
    }
  }

  lemma EmptyTokens(b: TokenBatch)
    requires RoutedBatch(b) && b.meta.numTokens == 0
    ensures RoutedTokens(b) == []
  {
  }

  // ------------------------------------------------------- merge by expert

  lemma ScatterNext<T>(blank: seq<T>, data: seq<T>, positions: seq<nat>, p: nat)
    requires |positions| < |data| && p < |blank|
    requires forall i :: 0 <= i < |positions| ==> positions[i] < |blank|
    ensures Scatter(blank, data, positions + [p]) == Scatter(blank, data, positions)[p := data[|positions|]]
  {
    assert (positions + [p])[..|positions|] == positions;
  }

  /** A place nothing has been scattered to is still blank. */
  lemma {:induction false} ScatterBlank<T>(blank: seq<T>, data: seq<T>, positions: seq<nat>, p: nat)
    requires |positions| <= |data| && p < |blank| && p !in positions
    requires forall i :: 0 <= i < |positions| ==> positions[i] < |blank|
    ensures Scatter(blank, data, positions)[p] == blank[p]
  {
    if |positions| > 0 {
      ScatterBlank(blank, data, positions[..|positions| - 1], p);
    }
  }

  function Zeros<T>(n: nat, zero: T): (r: seq<T>)
    ensures |r| == n && forall i :: 0 <= i < n ==> r[i] == zero
  {
    seq(n, i => zero)
  }

  /** Empty output columns, before any token is placed. */
  function BlankMeta(layerId: int, n: nat): Meta {
    Meta(Expert, layerId, n, Zeros(n, 0), Zeros(n, 0), Zeros(n, 0.0), Zeros(n, 0), Zeros(n, 0), None, None, None)
  }

  /** The concatenated columns c, scattered to the given positions. */
  ghost predicate IsScattered(out: Meta, layerId: int, c: Meta, positions: seq<nat>)
    requires RoutedMeta(c) && |c.weights| == c.numTokens && |positions| <= c.numTokens
    requires forall i :: 0 <= i < |positions| ==> positions[i] < c.numTokens
  {
    var b := BlankMeta(layerId, c.numTokens);
    out == b.(reqIds := Scatter(b.reqIds, c.reqIds, positions),
              expIds := Scatter(b.expIds, c.expIds, positions),
              weights := Scatter(b.weights, c.weights, positions),
              ranks := Scatter(b.ranks, c.ranks, positions),
              prefillLens := Scatter(b.prefillLens, c.prefillLens, positions))
  }

  /** Write token j of m at place p of the output columns. */
  function PutToken(out: Meta, p: nat, m: Meta, j: nat): Meta
    requires RoutedMeta(m) && j < m.numTokens
    requires p < |out.reqIds| == |out.expIds| == |out.weights| == |out.ranks| == |out.prefillLens|
  {
    var out1 := out.(reqIds := out.reqIds[p := m.reqIds[j]],
                     expIds := out.expIds[p := m.expIds[j]],
                     ranks := out.ranks[p := m.ranks[j]],
                     prefillLens := out.prefillLens[p := m.prefillLens[j]]);
    if m.weights == [] then out1 else out1.(weights := out.weights[p := m.weights[j]])
  }

  lemma PutTokenScatters(out: Meta, layerId: int, c: Meta, positions: seq<nat>, p: nat, m: Meta, j: nat)
    requires RoutedMeta(c) && |c.weights| == c.numTokens && |positions| < c.numTokens && p < c.numTokens
    requires forall i :: 0 <= i < |positions| ==> positions[i] < c.numTokens
    requires p !in positions && IsScattered(out, layerId, c, positions)
    requires RoutedMeta(m) && j < m.numTokens && SameToken(c, |positions|, m, j)
    ensures IsScattered(PutToken(out, p, m, j), layerId, c, positions + [p])
  {
    var b := BlankMeta(layerId, c.numTokens);
    ScatterNext(b.reqIds, c.reqIds, positions, p);
    ScatterNext(b.expIds, c.expIds, positions, p);
    ScatterNext(b.weights, c.weights, positions, p);
    ScatterNext(b.ranks, c.ranks, positions, p);
    ScatterNext(b.prefillLens, c.prefillLens, positions, p);
    if m.weights == [] {
      ScatterBlank(b.weights, c.weights, positions, p);
      assert out.weights[p := 0.0] == out.weights;
    }
  }

  /** Count the tokens of several batches, in all and per expert. */
  method CountBatches(metas: seq<Meta>, counts: array<nat>) returns (total: nat)
    requires forall i :: 0 <= i < |metas| ==> RoutedMeta(metas[i])
    requires counts.Length == MAX_EXPERTS && forall e :: 0 <= e < MAX_EXPERTS ==> counts[e] == 0
    modifies counts
    ensures total == Columns(metas).numTokens
    ensures forall e :: 0 <= e < MAX_EXPERTS ==> counts[e] == Equal(Columns(metas).expIds, e)
  {
    total := 0;
    for i := 0 to |metas|
      invariant total == Columns(metas[..i]).numTokens
      invariant forall e :: 0 <= e < MAX_EXPERTS ==> counts[e] == Equal(Columns(metas[..i]).expIds, e)
    {
      total := total + metas[i].numTokens;
      CountExperts(metas[i].expIds, counts);
      ColumnsCount(metas, i);
    }
    assert metas[..|metas|] == metas;
  }

  lemma ColumnsCount(ms: seq<Meta>, i: nat)
    requires forall k :: 0 <= k < |ms| ==> RoutedMeta(ms[k])
    requires i < |ms|
    ensures Columns(ms[..i + 1]).numTokens == Columns(ms[..i]).numTokens + ms[i].numTokens
    ensures forall e: nat ::
      Equal(Columns(ms[..i + 1]).expIds, e) == Equal(Columns(ms[..i]).expIds, e) + Equal(ms[i].expIds, e)
  {
    ColumnsStep(ms, i);
    assert ms[..i + 1][..i] == ms[..i];
    forall e: nat
      ensures Equal(Columns(ms[..i + 1]).expIds, e) == Equal(Columns(ms[..i]).expIds, e) + Equal(ms[i].expIds, e)
    {
      EqualConcat(Columns(ms[..i]).expIds, ms[i].expIds, e);
    }
  }

  /** The merge so far: the tokens up to some point of the concatenation are placed. */
  ghost predicate Placed(out: Meta, layerId: int, c: Meta, positions: seq<nat>, counts: array<nat>, first: nat)
    requires RoutedMeta(c) && |c.weights| == c.numTokens && counts.Length == MAX_EXPERTS
    reads counts
  {
    && |positions| <= c.numTokens
    && IsPermutation(Ranks(c.expIds))
    && positions == Ranks(c.expIds)[..|positions|]
    && Counters(counts, first, c.expIds, |positions|)
    && IsScattered(out, layerId, c, positions)
  }

  method PlaceToken(out: Meta, layerId: int, ghost c: Meta, positions: seq<nat>, counts: array<nat>, first: nat,
                    m: Meta, j: nat)
    returns (out': Meta, positions': seq<nat>, first': nat)
    requires RoutedMeta(c) && |c.weights| == c.numTokens && counts.Length == MAX_EXPERTS
    requires Placed(out, layerId, c, positions, counts, first) && |positions| < c.numTokens
    requires RoutedMeta(m) && j < m.numTokens && SameToken(c, |positions|, m, j)
    modifies counts
    ensures Placed(out', layerId, c, positions', counts, first') && |positions'| == |positions| + 1
  {
    ghost var all := Ranks(c.expIds);
    var p;
    p, first' := NextPosition(counts, first, c.expIds, |positions|, m.expIds[j]);
    assert p == all[|positions|];
    PutTokenScatters(out, layerId, c, positions, p, m, j);
    out' := PutToken(out, p, m, j);
    positions' := positions + [p];
  }

  /** Merge expert metadata: every vector scattered to the counting-sort positions of the concatenation. */
  method MergeMetaByExpert(metas: seq<Meta>) returns (merged: Meta, positions: seq<nat>)
    requires |metas| > 0 && forall i :: 0 <= i < |metas| ==> RoutedMeta(metas[i])
    ensures var c := Columns(metas);
      && positions == Ranks(c.expIds)
      && IsPermutation(positions)
      && IsScattered(merged, metas[0].layerId, c, positions)
  {
    hide IsScattered, Equal, Below, Scatter, SameToken, Placed;
    ghost var c := Columns(metas);
    var counts := new nat[MAX_EXPERTS](_ => 0);
    var total := CountBatches(metas, counts);
    PrefixSums(counts, c.expIds);
    merged := BlankMeta(metas[0].layerId, total);
    positions := [];
    var first := 0;
    NothingPlaced(metas[0].layerId, c, counts);
    assert metas[..0] == [];
    for i := 0 to |metas|
      invariant |positions| == Columns(metas[..i]).numTokens
      invariant Placed(merged, metas[0].layerId, c, positions, counts, first)
    {
      var m := metas[i];
      ColumnsStep(metas, i);
      ghost var start := |positions|;
      for j := 0 to m.numTokens
        invariant |positions| == start + j
        invariant Placed(merged, metas[0].layerId, c, positions, counts, first)
      {
        ColumnsAt(metas, i, j);
        merged, positions, first := PlaceToken(merged, metas[0].layerId, c, positions, counts, first, m, j);
      }
    }
    assert metas[..|metas|] == metas;
    AllPlaced(merged, metas[0].layerId, c, positions, counts, first);
  }

  lemma AllPlaced(out: Meta, layerId: int, c: Meta, positions: seq<nat>, counts: array<nat>, first: nat)
    requires RoutedMeta(c) && |c.weights| == c.numTokens == |positions| && counts.Length == MAX_EXPERTS
    requires Placed(out, layerId, c, positions, counts, first)
    ensures positions == Ranks(c.expIds) && IsPermutation(positions) && IsScattered(out, layerId, c, positions)
  {
  }

  lemma NothingPlaced(layerId: int, c: Meta, counts: array<nat>)
    requires RoutedMeta(c) && |c.weights| == c.numTokens && counts.Length == MAX_EXPERTS
    requires forall e :: 0 <= e < MAX_EXPERTS ==> counts[e] == Below(c.expIds, e + 1)
    ensures Placed(BlankMeta(layerId, c.numTokens), layerId, c, [], counts, 0)
  {
    RanksArePermutation(c.expIds, MAX_EXPERTS);
  }

  lemma {:induction false} EqualConcat(xs: seq<nat>, ys: seq<nat>, e: nat)
    ensures Equal(xs + ys, e) == Equal(xs, e) + Equal(ys, e)
  {
    if |ys| == 0 {
      assert xs + ys == xs;
    } else {
      assert (xs + ys)[..|xs + ys| - 1] == xs + ys[..|ys| - 1];
      EqualConcat(xs, ys[..|ys| - 1], e);
    }
  }

  // ---------------------------------------------------- merge of row + meta

  lemma {:induction false} RowsAt(bs: seq<TokenBatch>, i: nat, j: nat)
    requires forall k :: 0 <= k < |bs| ==> |bs[k].rows| == bs[k].meta.numTokens
    requires i < |bs| && j < |bs[i].rows|
    ensures var idx := |AllRows(bs[..i])| + j; idx < |AllRows(bs)| && AllRows(bs)[idx] == bs[i].rows[j]
  {
    var n := |bs| - 1;
    if i < n {
      RowsAt(bs[..n], i, j);
      assert bs[..n][..i] == bs[..i];
    }
  }

  /** Walk the rows of every batch in order and put each at its token's position. */
  method PlaceRows(bs: seq<TokenBatch>, positions: seq<nat>) returns (rows: seq<Row>)
    requires forall k :: 0 <= k < |bs| ==> |bs[k].rows| == bs[k].meta.numTokens
    requires |positions| == |AllRows(bs)| && IsPermutation(positions)
    ensures rows == Scatter(Zeros(|positions|, Row(0)), AllRows(bs), positions)
  {
    ghost var all := AllRows(bs);
    ghost var blank := Zeros(|positions|, Row(0));
    rows := Zeros(|positions|, Row(0));
    var idx := 0;
    for i := 0 to |bs|
      invariant idx == |AllRows(bs[..i])| <= |all|
      invariant rows == Scatter(blank, all, positions[..idx])
    {
      assert bs[..i + 1][..i] == bs[..i];
      ghost var start := idx;
      for j := 0 to |bs[i].rows|
        invariant idx == start + j <= |all|
        invariant rows == Scatter(blank, all, positions[..idx])
      {
        RowsAt(bs, i, j);
        assert positions[..idx + 1] == positions[..idx] + [positions[idx]];
        ScatterNext(blank, all, positions[..idx], positions[idx]);
        rows := rows[positions[idx] := bs[i].rows[j]];
        idx := idx + 1;
      }
    }
    assert bs[..|bs|] == bs && positions[..|positions|] == positions;
  }

  /** The keys the merge sorts by. */
  ghost function AllExpIds(bs: seq<TokenBatch>): (r: seq<nat>)
    requires forall i :: 0 <= i < |bs| ==> RoutedBatch(bs[i])
    ensures |r| == |AllRoutedTokens(bs)|
  {
    TokensAreColumns(bs);
    Columns(Metas(bs)).expIds
  }

  /** What is at the new place of token i, column by column. */
  lemma {:induction false} ScatteredAt(out: Meta, layerId: int, c: Meta, positions: seq<nat>)
    requires RoutedMeta(c) && |c.weights| == c.numTokens == |positions| && IsPermutation(positions)
    requires IsScattered(out, layerId, c, positions)
    ensures out.numTokens == |out.reqIds| == |out.expIds| == |out.weights| == |out.ranks| == |out.prefillLens| == c.numTokens
    ensures forall i :: 0 <= i < c.numTokens ==>
      var p := positions[i];
      && out.reqIds[p] == c.reqIds[i] && out.expIds[p] == c.expIds[i] && out.weights[p] == c.weights[i]
      && out.ranks[p] == c.ranks[i] && out.prefillLens[p] == c.prefillLens[i]
  {
    hide Scatter;
    var b := BlankMeta(layerId, c.numTokens);
    ScatterAt(b.reqIds, c.reqIds, positions);
    ScatterAt(b.expIds, c.expIds, positions);
    ScatterAt(b.weights, c.weights, positions);
    ScatterAt(b.ranks, c.ranks, positions);
    ScatterAt(b.prefillLens, c.prefillLens, positions);
  }

  /** The metadata loop and the row loop agree: token by token, the merge is the stable sort by expert. */
  lemma {:induction false} ScatteredTokensSorted(bs: seq<TokenBatch>, out: TokenBatch, c: Meta)
    requires |bs| > 0 && forall i :: 0 <= i < |bs| ==> RoutedBatch(bs[i])
    requires c == Columns(Metas(bs)) && |AllRows(bs)| == c.numTokens && IsPermutation(Ranks(c.expIds))
    requires IsScattered(out.meta, bs[0].meta.layerId, c, Ranks(c.expIds))
    requires out.rows == Scatter(Zeros(c.numTokens, Row(0)), AllRows(bs), Ranks(c.expIds))
    ensures RoutedBatch(out)
    ensures RoutedTokens(out) == StableSort(AllRoutedTokens(bs), AllExpIds(bs), MAX_EXPERTS)
  {
    hide Scatter, IsScattered, StableSort, Columns, AllRows, AllRoutedTokens, Below, Equal;
    var positions := Ranks(c.expIds);
    TokensAreColumns(bs);
    var ts := AllRoutedTokens(bs);
    ScatteredAt(out.meta, bs[0].meta.layerId, c, positions);
    ScatterAt(Zeros(c.numTokens, Row(0)), AllRows(bs), positions);
    StableSortAt(ts, c.expIds, MAX_EXPERTS);
    BelowBounds(c.expIds, MAX_EXPERTS);
    var s := StableSort(ts, c.expIds, MAX_EXPERTS);
    forall k | 0 <= k < c.numTokens
      ensures out.meta.expIds[k] < MAX_EXPERTS
      ensures RoutedToken(out.rows[k], out.meta.reqIds[k], out.meta.expIds[k], out.meta.ranks[k], out.meta.prefillLens[k],
                          out.meta.weights[k]) == s[k]
    {
      PermutationIsOnto(positions, k);
      var i :| 0 <= i < |positions| && positions[i] == k;
      assert s[StableRank(c.expIds, i)] == ts[i];
    }
    assert RoutedMeta(out.meta);
    assert forall k :: 0 <= k < c.numTokens ==> WeightAt(out.meta, k) == out.meta.weights[k];
  }

  /** Merge expert batches; one batch comes back as it is. */
  method MergeByExpert(bs: seq<TokenBatch>) returns (out: TokenBatch)
    requires |bs| > 0 && forall i :: 0 <= i < |bs| ==> RoutedBatch(bs[i])
    ensures |bs| == 1 ==> out == bs[0]
    ensures |bs| > 1 ==> RoutedBatch(out) && out.meta.tag == Expert && out.meta.layerId == bs[0].meta.layerId
    ensures |bs| > 1 ==> RoutedTokens(out) == StableSort(AllRoutedTokens(bs), AllExpIds(bs), MAX_EXPERTS)
  {
    if |bs| == 1 {
      return bs[0];
    }
    var merged, mappings := MergeMetaByExpert(Metas(bs));
    TokensAreColumns(bs);
    var rows := PlaceRows(bs, mappings);
    out := TokenBatch(rows, merged);
    ScatteredTokensSorted(bs, out, Columns(Metas(bs)));
  }

  // ---------------------------------------------------- merge by attention

  ghost function PrefillTokens(b: TokenBatch): seq<AttnToken>
    requires AttnBatch(b)
  {
    AttnTokens(b)[..b.meta.numPrefill.value]
  }

  ghost function DecodeTokens(b: TokenBatch): seq<AttnToken>
    requires AttnBatch(b)
  {
    AttnTokens(b)[b.meta.numPrefill.value..]
  }

  ghost function AllPrefill(bs: seq<TokenBatch>): seq<AttnToken>
    requires forall i :: 0 <= i < |bs| ==> AttnBatch(bs[i])
  {
    if |bs| == 0 then [] else AllPrefill(bs[..|bs| - 1]) + PrefillTokens(bs[|bs| - 1])
  }

  ghost function AllDecode(bs: seq<TokenBatch>): seq<AttnToken>
    requires forall i :: 0 <= i < |bs| ==> AttnBatch(bs[i])
  {
    if |bs| == 0 then [] else AllDecode(bs[..|bs| - 1]) + DecodeTokens(bs[|bs| - 1])
  }

  ghost predicate Reads(ts: seq<AttnToken>, reqs: seq<int>, lens: seq<int>) {
    && |ts| == |reqs| == |lens|
    && forall k :: 0 <= k < |ts| ==> ts[k].req == reqs[k] && ts[k].prefill == lens[k]
  }

  /** Append the metadata of tokens lo, ..., hi - 1 of a batch. */
  method AppendInfos(reqs: seq<int>, lens: seq<int>, b: TokenBatch, lo: nat, hi: nat, ghost ts: seq<AttnToken>)
    returns (reqs': seq<int>, lens': seq<int>)
    requires AttnBatch(b) && lo <= hi <= b.meta.numTokens && Reads(ts, reqs, lens)
    ensures Reads(ts + AttnTokens(b)[lo..hi], reqs', lens')
  {
    reqs', lens' := reqs, lens;
    for i := lo to hi
      invariant Reads(ts + AttnTokens(b)[lo..i], reqs', lens')
    {
      reqs' := reqs' + [b.meta.reqIds[i]];
      lens' := lens' + [b.meta.prefillLens[i]];
    }
  }

  /** The first loop: counters, and the prefill part of every batch. */
  method CollectPrefill(bs: seq<TokenBatch>)
    returns (reqs: seq<int>, lens: seq<int>, seqs: nat, prefill: nat, decode: nat)
    requires forall i :: 0 <= i < |bs| ==> AttnBatch(bs[i])
    ensures seqs == prefill == |AllPrefill(bs)| && decode == |AllDecode(bs)|
    ensures Reads(AllPrefill(bs), reqs, lens)
  {
    reqs, lens, seqs, prefill, decode := [], [], 0, 0, 0;
    for i := 0 to |bs|
      invariant seqs == prefill == |AllPrefill(bs[..i])| && decode == |AllDecode(bs[..i])|
      invariant Reads(AllPrefill(bs[..i]), reqs, lens)
    {
      var m := bs[i].meta;
      assert bs[..i + 1][..i] == bs[..i];
      seqs := seqs + m.numSeqs.value;
      prefill := prefill + m.numPrefill.value;
      decode := decode + m.numDecode.value;
      reqs, lens := AppendInfos(reqs, lens, bs[i], 0, m.numSeqs.value, AllPrefill(bs[..i]));
    }
    assert bs[..|bs|] == bs;
  }

  /** The second loop: the decode part of every batch. */
  method CollectDecode(bs: seq<TokenBatch>, reqs: seq<int>, lens: seq<int>, ghost front: seq<AttnToken>)
    returns (reqs': seq<int>, lens': seq<int>)
    requires forall i :: 0 <= i < |bs| ==> AttnBatch(bs[i])
    requires Reads(front, reqs, lens)
    ensures Reads(front + AllDecode(bs), reqs', lens')
  {
    reqs', lens' := reqs, lens;
    assert front + AllDecode(bs[..0]) == front;
    for i := 0 to |bs|
      invariant Reads(front + AllDecode(bs[..i]), reqs', lens')
    {
      var m := bs[i].meta;
      assert bs[..i + 1][..i] == bs[..i];
      reqs', lens' := AppendInfos(reqs', lens', bs[i], m.numSeqs.value, m.numSeqs.value + m.numDecode.value,
                                  front + AllDecode(bs[..i]));
      assert front + AllDecode(bs[..i]) + DecodeTokens(bs[i]) == front + AllDecode(bs[..i + 1]);
    }
    assert bs[..|bs|] == bs;
  }

  /** Metadata: all prefill tokens batch after batch, then all decode tokens batch after batch. */
  method MergeMetaByAttention(bs: seq<TokenBatch>) returns (merged: Meta)
    requires |bs| > 0 && forall i :: 0 <= i < |bs| ==> AttnBatch(bs[i])
    ensures AttnMeta(merged) && merged.tag == Attention && merged.layerId == bs[0].meta.layerId
    ensures merged.numPrefill.value == |AllPrefill(bs)|
    ensures Reads(AllPrefill(bs) + AllDecode(bs), merged.reqIds, merged.prefillLens)
  {
    hide AllPrefill, AllDecode;
    var reqs, lens, seqs, prefill, decode := CollectPrefill(bs);
    reqs, lens := CollectDecode(bs, reqs, lens, AllPrefill(bs));
    merged := Meta(Attention, bs[0].meta.layerId, |reqs|, reqs, [], [], [], lens, Some(seqs), Some(prefill), Some(decode));
  }


  ghost predicate HasRows(ts: seq<AttnToken>, rows: seq<Row>) {
    |ts| == |rows| && forall k :: 0 <= k < |ts| ==> ts[k].row == rows[k]
  }

  /** Copy rows lo, ..., hi - 1 of a batch to consecutive places of the output. */
  method CopyRows(srcs: array<Row>, at: nat, b: TokenBatch, lo: nat, hi: nat)
    requires AttnBatch(b) && lo <= hi <= |b.rows| && at + (hi - lo) <= srcs.Length
    modifies srcs
    ensures srcs[..] == old(srcs[..at]) + b.rows[lo..hi] + old(srcs[at + (hi - lo)..])
  {
    for i := lo to hi
      invariant srcs[..] == old(srcs[..at]) + b.rows[lo..i] + old(srcs[at + (i - lo)..])
    {
      srcs[at + (i - lo)] := b.rows[i];
    }
  }

  /** Copy the prefill rows of a batch to one region of the output and its decode rows to a later one. */
  method CopyParts(srcs: array<Row>, prefillIdx: nat, start: nat, decodeIdx: nat, b: TokenBatch)
    requires AttnBatch(b) && prefillIdx + b.meta.numPrefill.value <= start <= decodeIdx
    requires decodeIdx + b.meta.numDecode.value <= srcs.Length
    modifies srcs
    ensures var p, d := b.meta.numPrefill.value, b.meta.numDecode.value;
      && srcs[..prefillIdx + p] == old(srcs[..prefillIdx]) + b.rows[..p]
      && srcs[start..decodeIdx + d] == old(srcs[start..decodeIdx]) + b.rows[p..]
  {
    var p, d := b.meta.numPrefill.value, b.meta.numDecode.value;
    ghost var s0 := srcs[..];
    CopyRows(srcs, prefillIdx, b, 0, p);
    ghost var s1 := srcs[..];
    assert s1[..prefillIdx + p] == s0[..prefillIdx] + b.rows[..p];
    assert s1[start..decodeIdx] == s0[start..decodeIdx];
    CopyRows(srcs, decodeIdx, b, p, p + d);
    ghost var s2 := srcs[..];
    assert s2[..prefillIdx + p] == s1[..prefillIdx + p];
    assert s2[start..decodeIdx + d] == s1[start..decodeIdx] + b.rows[p..];
  }

  lemma {:induction false} PartSizes(bs: seq<TokenBatch>, i: nat)
    requires forall k :: 0 <= k < |bs| ==> AttnBatch(bs[k])
    requires i <= |bs|
    ensures |AllPrefill(bs[..i])| <= |AllPrefill(bs)| && |AllDecode(bs[..i])| <= |AllDecode(bs)|
    decreases |bs| - i
  {
    if i < |bs| {
      PartSizes(bs, i + 1);
      assert bs[..i + 1][..i] == bs[..i];
    } else {
      assert bs[..i] == bs;
    }
  }

  lemma PartsStep(bs: seq<TokenBatch>, i: nat)
    requires i < |bs| && forall k :: 0 <= k < |bs| ==> AttnBatch(bs[k])
    ensures AllPrefill(bs[..i + 1]) == AllPrefill(bs[..i]) + PrefillTokens(bs[i])
    ensures AllDecode(bs[..i + 1]) == AllDecode(bs[..i]) + DecodeTokens(bs[i])
  {
    assert bs[..i + 1][..i] == bs[..i];
  }

  lemma PartRows(b: TokenBatch)
    requires AttnBatch(b)
    ensures var p := b.meta.numPrefill.value;
      && HasRows(PrefillTokens(b), b.rows[..p]) && HasRows(DecodeTokens(b), b.rows[p..])
      && |PrefillTokens(b)| == p && |DecodeTokens(b)| == b.meta.numDecode.value
  {
  }

  lemma JoinRows(ts: seq<AttnToken>, us: seq<AttnToken>, rows: seq<Row>, more: seq<Row>)
    requires HasRows(ts, rows) && HasRows(us, more)
    ensures HasRows(ts + us, rows + more)
  {
  }

  /** Place the rows of one batch behind those of the batches before it. */
  method PlaceParts(srcs: array<Row>, prefillIdx: nat, start: nat, decodeIdx: nat, b: TokenBatch,
                    ghost front: seq<AttnToken>, ghost back: seq<AttnToken>)
    requires AttnBatch(b) && prefillIdx + b.meta.numPrefill.value <= start <= decodeIdx
    requires decodeIdx + b.meta.numDecode.value <= srcs.Length
    requires HasRows(front, srcs[..prefillIdx]) && HasRows(back, srcs[start..decodeIdx])
    modifies srcs
    ensures var p, d := b.meta.numPrefill.value, b.meta.numDecode.value;
      && HasRows(front + PrefillTokens(b), srcs[..prefillIdx + p])
      && HasRows(back + DecodeTokens(b), srcs[start..decodeIdx + d])
  {
    hide HasRows, PrefillTokens, DecodeTokens;
    var p := b.meta.numPrefill.value;
    PartRows(b);
    JoinRows(front, PrefillTokens(b), srcs[..prefillIdx], b.rows[..p]);
    JoinRows(back, DecodeTokens(b), srcs[start..decodeIdx], b.rows[p..]);
    CopyParts(srcs, prefillIdx, start, decodeIdx, b);
  }

  /** The rows of the first i batches are in place. */
  ghost predicate PartsPlaced(bs: seq<TokenBatch>, i: nat, srcs: seq<Row>, numPrefill: nat, prefillIdx: nat, decodeIdx: nat)
    requires i <= |bs| && forall k :: 0 <= k < |bs| ==> AttnBatch(bs[k])
  {
    && numPrefill == |AllPrefill(bs)| && |srcs| == numPrefill + |AllDecode(bs)|
    && prefillIdx == |AllPrefill(bs[..i])| <= numPrefill && decodeIdx == numPrefill + |AllDecode(bs[..i])| <= |srcs|
    && HasRows(AllPrefill(bs[..i]), srcs[..prefillIdx]) && HasRows(AllDecode(bs[..i]), srcs[numPrefill..decodeIdx])
  }

  method PlaceNext(srcs: array<Row>, bs: seq<TokenBatch>, i: nat, numPrefill: nat, prefillIdx: nat, decodeIdx: nat)
    requires i < |bs| && forall k :: 0 <= k < |bs| ==> AttnBatch(bs[k])
    requires PartsPlaced(bs, i, srcs[..], numPrefill, prefillIdx, decodeIdx)
    modifies srcs
    ensures PartsPlaced(bs, i + 1, srcs[..], numPrefill, prefillIdx + bs[i].meta.numPrefill.value,
                        decodeIdx + bs[i].meta.numDecode.value)
  {
    hide HasRows, PrefillTokens, DecodeTokens;
    PartsStep(bs, i);
    PartSizes(bs, i + 1);
    PartRows(bs[i]);
    assert srcs[..][..prefillIdx] == srcs[..prefillIdx] && srcs[..][numPrefill..decodeIdx] == srcs[numPrefill..decodeIdx];
    PlaceParts(srcs, prefillIdx, numPrefill, decodeIdx, bs[i], AllPrefill(bs[..i]), AllDecode(bs[..i]));
    var p, d := prefillIdx + bs[i].meta.numPrefill.value, decodeIdx + bs[i].meta.numDecode.value;
    assert srcs[..][..p] == srcs[..p] && srcs[..][numPrefill..d] == srcs[numPrefill..d];
  }

  /** The row loop: prefill rows fill the output from the front, decode rows from behind the last prefill row. */
  method PlaceAttentionRows(srcs: array<Row>, bs: seq<TokenBatch>, numPrefill: nat)
    requires forall i :: 0 <= i < |bs| ==> AttnBatch(bs[i])
    requires numPrefill == |AllPrefill(bs)| && srcs.Length == numPrefill + |AllDecode(bs)|
    modifies srcs
    ensures HasRows(AllPrefill(bs) + AllDecode(bs), srcs[..])
  {
    hide PartsPlaced, AllPrefill, AllDecode, HasRows;
    var prefillIdx: nat, decodeIdx: nat := 0, numPrefill;
    NonePlaced(bs, srcs[..], numPrefill);
    for i := 0 to |bs|
      invariant PartsPlaced(bs, i, srcs[..], numPrefill, prefillIdx, decodeIdx)
    {
      PlaceNext(srcs, bs, i, numPrefill, prefillIdx, decodeIdx);
      prefillIdx := prefillIdx + bs[i].meta.numPrefill.value;
      decodeIdx := decodeIdx + bs[i].meta.numDecode.value;
    }
    AllPartsPlaced(bs, srcs[..], numPrefill, prefillIdx, decodeIdx);
  }

  lemma NonePlaced(bs: seq<TokenBatch>, srcs: seq<Row>, numPrefill: nat)
    requires forall k :: 0 <= k < |bs| ==> AttnBatch(bs[k])
    requires numPrefill == |AllPrefill(bs)| && |srcs| == numPrefill + |AllDecode(bs)|
    ensures PartsPlaced(bs, 0, srcs, numPrefill, 0, numPrefill)
  {
    assert bs[..0] == [] && srcs[..0] == [] && srcs[numPrefill..numPrefill] == [];
  }

  lemma AllPartsPlaced(bs: seq<TokenBatch>, srcs: seq<Row>, numPrefill: nat, prefillIdx: nat, decodeIdx: nat)
    requires forall k :: 0 <= k < |bs| ==> AttnBatch(bs[k])
    requires PartsPlaced(bs, |bs|, srcs, numPrefill, prefillIdx, decodeIdx)
    ensures HasRows(AllPrefill(bs) + AllDecode(bs), srcs)
  {
    assert bs[..|bs|] == bs;
    hide HasRows, AllPrefill, AllDecode, AttnBatch;
    assert prefillIdx == numPrefill && decodeIdx == |srcs|;
    assert srcs[numPrefill..decodeIdx] == srcs[numPrefill..];
    JoinRows(AllPrefill(bs), AllDecode(bs), srcs[..numPrefill], srcs[numPrefill..]);
    assert srcs == srcs[..numPrefill] + srcs[numPrefill..];
  }

  lemma TokensFromParts(out: TokenBatch, ts: seq<AttnToken>)
    requires AttnBatch(out) && HasRows(ts, out.rows) && Reads(ts, out.meta.reqIds, out.meta.prefillLens)
    ensures AttnTokens(out) == ts
  {
    forall k | 0 <= k < |ts|
      ensures AttnTokens(out)[k] == ts[k]
    {
    }
  }

  /** Merge attention batches; one batch comes back as it is. */
  method MergeByAttention(bs: seq<TokenBatch>) returns (out: TokenBatch)
    requires |bs| > 0 && forall i :: 0 <= i < |bs| ==> AttnBatch(bs[i])
    ensures |bs| == 1 ==> out == bs[0]
    ensures |bs| > 1 ==> out.meta.tag == Attention && out.meta.layerId == bs[0].meta.layerId
    ensures AttnBatch(out) && out.meta.numPrefill.value == |AllPrefill(bs)|
    ensures AttnTokens(out) == AllPrefill(bs) + AllDecode(bs)
  {
    if |bs| == 1 {
      OneBatch(bs);
      return bs[0];
    }
    hide HasRows, AllPrefill, AllDecode, AttnTokens;
    var merged := MergeMetaByAttention(bs);
    var n := merged.numPrefill.value;
    var srcs := new Row[merged.numTokens](_ => Row(0));
    PlaceAttentionRows(srcs, bs, n);
    out := TokenBatch(srcs[..], merged);
    TokensFromParts(out, AllPrefill(bs) + AllDecode(bs));
  }

  lemma OneBatch(bs: seq<TokenBatch>)
    requires |bs| == 1 && AttnBatch(bs[0])
    ensures AllPrefill(bs) == PrefillTokens(bs[0]) && AllDecode(bs) == DecodeTokens(bs[0])
    ensures AttnTokens(bs[0]) == AllPrefill(bs) + AllDecode(bs)
  {
    assert bs[..0] == [];
  }
}
