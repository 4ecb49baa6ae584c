/** Packing gathered tokens into one attention batch: sort, collect metadata, sum the expert outputs of each token. */
module PackTopK {
  import opened Prelude
  import opened CountingSort
  import opened Batches
  import opened BatchMerge
  import opened BatchSplit
  import opened LayerQueue
  import opened TopKPool

  // --------------------------------------------------------------- the order

  /** The comparison the tokens are sorted by: prefill tokens by sequence, then all decode tokens. */
  predicate Before(a: TopKToken, b: TopKToken) {
    if a.prefill == -1 || b.prefill == -1 then a.prefill > b.prefill else a.seqId < b.seqId
  }

  ghost predicate Sorted(ts: seq<TopKToken>) {
    forall i, j :: 0 <= i < j < |ts| ==> !Before(ts[j], ts[i])
  }

  /** Lengths are -1 for decode tokens and not negative otherwise. */
  ghost predicate LengthsOk(ts: seq<TopKToken>) {
    forall i :: 0 <= i < |ts| ==> ts[i].prefill >= -1
  }

  lemma InsertedSorted(r: seq<TopKToken>, t: TopKToken, k: nat)
    requires k <= |r| && Sorted(r) && LengthsOk(r) && t.prefill >= -1
    requires forall j :: k <= j < |r| ==> Before(t, r[j])
    requires k > 0 ==> !Before(t, r[k - 1])
    ensures Sorted(r[..k] + [t] + r[k..]) && LengthsOk(r[..k] + [t] + r[k..])
  {
    var s := r[..k] + [t] + r[k..];
    forall i, j | 0 <= i < j < |s|
      ensures !Before(s[j], s[i])
    {
      if j == k {
        assert !Before(r[k - 1], r[i]) || i == k - 1;
      } else if i < k < j {
        assert !Before(r[j - 1], r[i]);
      }
    }
  }

  method InsertToken(r: seq<TopKToken>, t: TopKToken) returns (s: seq<TopKToken>)
    requires Sorted(r) && LengthsOk(r) && t.prefill >= -1
    ensures Sorted(s) && LengthsOk(s) && |s| == |r| + 1 && multiset(s) == multiset(r) + multiset{t}
  {
    var k := |r|;
    while k > 0 && Before(t, r[k - 1])
      invariant 0 <= k <= |r|
      invariant forall j :: k <= j < |r| ==> Before(t, r[j])
    {
      k := k - 1;
    }
    InsertedSorted(r, t, k);
    s := r[..k] + [t] + r[k..];
    assert r == r[..k] + r[k..];
  }

  /** Some order the comparison allows: all that std::sort promises. */
  method SortTokens(ts: seq<TopKToken>) returns (r: seq<TopKToken>)
    requires LengthsOk(ts)
    ensures LengthsOk(r) && Sorted(r) && |r| == |ts| && multiset(r) == multiset(ts)
  {
    r := [];
    for i := 0 to |ts|
      invariant LengthsOk(r) && Sorted(r) && |r| == i && multiset(r) == multiset(ts[..i])
    {
      assert ts[..i + 1] == ts[..i] + [ts[i]];
      hide Sorted;
      r := InsertToken(r, ts[i]);
    }
    assert ts[..|ts|] == ts;
  }

  lemma SortedPrefillFirst(ts: seq<TopKToken>)
    requires LengthsOk(ts) && Sorted(ts)
    ensures forall i, j :: 0 <= i < j < |ts| && ts[i].prefill == -1 ==> ts[j].prefill == -1
    ensures PrefillBySequence(ts)
  {
    forall i, j | 0 <= i < j < |ts| && ts[j].prefill != -1
      ensures ts[i].prefill != -1 && ts[i].seqId <= ts[j].seqId
    {
      assert !Before(ts[j], ts[i]);
    }
  }

  // ------------------------------------------------------------------ packing

  /** The metadata of the packed batch. */
  method PackMeta(layerId: int, ts: seq<TopKToken>) returns (m: Meta)
    ensures AttnMeta(m) && WellFormed(m) && m.tag == Attention && m.layerId == layerId && m.numTokens == |ts|
    ensures |m.ranks| == |ts| && m.expIds == [] && m.weights == []
    ensures forall i :: 0 <= i < |ts| ==>
      m.reqIds[i] == ts[i].seqId && m.prefillLens[i] == ts[i].prefill && m.ranks[i] == ts[i].rank
    ensures m.numPrefill.value == NumPrefill(m.prefillLens)
  {
    var reqs: seq<int>, lens: seq<int>, ranks: seq<nat> := [], [], [];
    var seqs, prefill, decode := 0, 0, 0;
    for i := 0 to |ts|
      invariant |reqs| == |lens| == |ranks| == i
      invariant forall k :: 0 <= k < i ==> reqs[k] == ts[k].seqId && lens[k] == ts[k].prefill && ranks[k] == ts[k].rank
      invariant seqs == prefill == NumPrefill(lens) && prefill + decode == i
    {
      assert (lens + [ts[i].prefill])[..i] == lens;
      reqs := reqs + [ts[i].seqId];
      ranks := ranks + [ts[i].rank];
      if ts[i].prefill == -1 {
        decode := decode + 1;
        lens := lens + [-1];
      } else {
        prefill := prefill + 1;
        seqs := seqs + 1;
        lens := lens + [ts[i].prefill];
      }
    }
    m := Meta(Attention, layerId, |reqs|, reqs, [], [], ranks, lens, Some(seqs), Some(prefill), Some(decode));
  }

  lemma {:induction false} TensorsAt(ts: seq<TopKToken>, k: nat, i: nat)
    requires i < |ts| && forall j :: 0 <= j < |ts| ==> |ts[j].tensors| == k
    ensures |Tensors(ts)| == |ts| * k && 0 <= i * k <= (i + 1) * k <= |ts| * k
    ensures Tensors(ts)[i * k..(i + 1) * k] == ts[i].tensors
  {
    var n := |ts| - 1;
    assert |ts| * k == n * k + k && (i + 1) * k == i * k + k;
    if |ts| > 1 {
      var j := if i == 0 then 0 else i - 1;
      TensorsAt(ts[1..], k, j);
      if i > 0 {
        assert i * k == j * k + k;
      }
    }
  }

  /** The source pointers, token by token and copy by copy. */
  method CollectSources(ts: seq<TopKToken>, topK: nat) returns (srcs: seq<Row>)
    requires forall j :: 0 <= j < |ts| ==> |ts[j].tensors| == topK
    ensures srcs == Tensors(ts)
  {
    srcs := [];
    for i := 0 to |ts|
      invariant srcs + Tensors(ts[i..]) == Tensors(ts)
    {
      ghost var before, rest := srcs, Tensors(ts[i + 1..]);
      assert ts[i..][1..] == ts[i + 1..];
      for k := 0 to topK
        invariant srcs == before + ts[i].tensors[..k]
      {
        srcs := srcs + [ts[i].tensors[k]];
      }
      assert srcs == before + ts[i].tensors;
      assert before + (ts[i].tensors + rest) == srcs + rest;
    }
    assert srcs + [] == srcs;
  }

  /** Prefill tokens first, by their sequences. */
  ghost predicate PrefillBySequence(order: seq<TopKToken>) {
    forall i, j :: 0 <= i < j < |order| && order[j].prefill != -1 ==>
      order[i].prefill != -1 && order[i].seqId <= order[j].seqId
  }

  /** The batch holds the tokens, prefill ones by sequence and then the others, each beside the sum of its own tensors. */
  ghost predicate PackedAs(b: TokenBatch, order: seq<TopKToken>, tokens: seq<TopKToken>) {
    && multiset(order) == multiset(tokens) && |order| == |tokens| && PrefillBySequence(order)
    && AttnBatch(b) && b.meta.numTokens == |order| == |b.meta.ranks|
    && forall i :: 0 <= i < |order| ==>
      && AttnTokens(b)[i] == AttnToken(Sum(order[i].tensors), order[i].seqId, order[i].prefill)
      && b.meta.ranks[i] == order[i].rank
  }

  ghost predicate Packed(b: TokenBatch, tokens: seq<TopKToken>) {
    exists order :: PackedAs(b, order, tokens)
  }

  /** Each packed row sums exactly the expert outputs of the token whose metadata it stands beside. */
  method Pack(layerId: int, tokens: seq<TopKToken>) returns (b: TokenBatch, ghost order: seq<TopKToken>)
    requires |tokens| > 0 && LengthsOk(tokens)
    requires forall j :: 0 <= j < |tokens| ==> |tokens[j].tensors| == |tokens[0].tensors|
    ensures PackedAs(b, order, tokens)
    ensures AttnBatch(b) && WellFormedBatch(b) && b.meta.tag == Attention && b.meta.layerId == layerId
    ensures PrefillFirst(b)
  {
    var ts := SortTokens(tokens);
    order := ts;
    var n, topK := |ts|, |tokens[0].tensors|;
    forall j | 0 <= j < |ts|
      ensures |ts[j].tensors| == topK
    {
      assert ts[j] in multiset(ts);
      assert ts[j] in tokens;
    }
    var meta := PackMeta(layerId, ts);
    var srcs := CollectSources(ts, topK);
    var rows: seq<Row> := [];
    for i := 0 to n
      invariant |rows| == i && forall k :: 0 <= k < i ==> rows[k] == Sum(ts[k].tensors)
    {
      TensorsAt(ts, topK, i);
      rows := rows + [Sum(srcs[i * topK..(i + 1) * topK])];
    }
    b := TokenBatch(rows, meta);
    SortedPrefillFirst(ts);
    PackedPrefillFirst(b, ts);
  }

  lemma PackedPrefillFirst(b: TokenBatch, ts: seq<TopKToken>)
    requires AttnBatch(b) && b.meta.numTokens == |ts|
    requires forall i :: 0 <= i < |ts| ==> b.meta.prefillLens[i] == ts[i].prefill
    requires b.meta.numPrefill.value == NumPrefill(b.meta.prefillLens)
    requires forall i, j :: 0 <= i < j < |ts| && ts[i].prefill == -1 ==> ts[j].prefill == -1
    ensures PrefillFirst(b)
  {
    var lens := b.meta.prefillLens;
    var p := 0;
    while p < |lens| && lens[p] != -1
      invariant 0 <= p <= |lens| && forall k :: 0 <= k < p ==> lens[k] != -1
    {
      p := p + 1;
    }
    assert forall k :: p < k < |lens| ==> ts[k].prefill == -1;
    NumPrefillIs(lens, p);
    assert forall k :: 0 <= k < |AttnTokens(b)| ==> AttnTokens(b)[k].prefill == lens[k];
  }
}
