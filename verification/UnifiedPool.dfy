/**
 * The receiving pool of a worker that hosts both attention and experts: batches are routed to layer queues, gathered
 * over top-k where needed, and drained again as one merged batch.
 */
module UnifiedPool {
  import opened Prelude
  import opened Batches
  import opened BatchMerge
  import opened BatchSplit
  import opened DataPlane
  import opened LayerQueue
  import opened PackTopK
  import opened PoolModel
  import opened TopKPool

  // ------------------------------------------------- first layer, first served

  /** Pipeline order: attention 0, expert 0, attention 1, expert 1, ... */
  function PipelinePos(layer: nat, numAttn: nat): nat {
    if layer < numAttn then 2 * layer else 2 * (layer - numAttn) + 1
  }

  /** The layer chosen for the given queue lengths: -1, or the non-empty one earliest in the pipeline. */
  ghost predicate FirstLayer(tokens: seq<int>, numAttn: nat, best: int) {
    if best < 0 then best == -1 && forall i :: 0 <= i < |tokens| ==> tokens[i] <= 0
    else
      && best < |tokens| && tokens[best] > 0
      && forall i :: 0 <= i < |tokens| && PipelinePos(i, numAttn) < PipelinePos(best, numAttn) ==> tokens[i] <= 0
  }

  // ---------------------------------------------------------------- scheduler

  method CreateLayers(n: nat, isAttention: bool) returns (layers: seq<UnifiedLayer>)
    ensures fresh(layers) && |layers| == n && forall j, k :: 0 <= j < k < n ==> layers[j] != layers[k]
    ensures forall k :: 0 <= k < n ==> layers[k].layerId == k && layers[k].Exact()
    ensures forall k :: 0 <= k < n ==> layers[k].batchQueue == [] && layers[k].tokenQueue == []
  {
    layers := [];
    for i := 0 to n
      invariant |layers| == i && fresh(layers) && forall j, k :: 0 <= j < k < i ==> layers[j] != layers[k]
      invariant forall k :: 0 <= k < i ==> layers[k].layerId == k && layers[k].Exact()
      invariant forall k :: 0 <= k < i ==> layers[k].batchQueue == [] && layers[k].tokenQueue == []
    {
      var layer := new UnifiedLayer(isAttention, i);
      layers := layers + [layer];
    }
  }

  class UnifiedLayerScheduler {
    const numAttn: nat
    const numExpert: nat
    const topK: nat
    const layers: seq<UnifiedLayer>

    constructor (numAttn: nat, numExpert: nat, topK: int)
      ensures this.numAttn == numAttn && this.numExpert == numExpert && this.topK == (if topK > 0 then topK else 1)
      ensures Counted() && Agreed() && fresh(layers)
      ensures forall i :: 0 <= i < |layers| ==> layers[i].batchQueue == [] && layers[i].tokenQueue == []
    {
      var attn := CreateLayers(numAttn, true);
      var expert := CreateLayers(numExpert, false);
      this.numAttn, this.numExpert, this.topK := numAttn, numExpert, if topK > 0 then topK else 1;
      layers := attn + expert;
    }

    predicate UsesTokenQueue(layer: int) {
      GathersAt(topK, numAttn, layer)
    }

    /** Every layer's counter is exact. */
    ghost predicate Counted()
      reads layers
    {
      && |layers| == numAttn + numExpert
      && (forall j, k :: 0 <= j < k < |layers| ==> layers[j] != layers[k])
      && (forall i :: 0 <= i < |layers| ==> layers[i].layerId == if i < numAttn then i else i - numAttn)
      && forall i :: 0 <= i < |layers| ==> layers[i].Exact()
    }

    /** Every layer keeps its tokens in the queue it is drained from. */
    ghost predicate Agreed()
      reads layers
    {
      forall i :: 0 <= i < |layers| ==>
        if UsesTokenQueue(i) then layers[i].batchQueue == [] else layers[i].tokenQueue == []
    }

    method AddBatch(b: TokenBatch, ghost layer: nat)
      requires Counted() && WellFormedBatch(b)
      requires b.meta.tag == Attention ==> layer == b.meta.layerId < numAttn
      requires b.meta.tag == Expert ==> layer - numAttn == b.meta.layerId && layer < numAttn + numExpert
      requires b.meta.tag != Tokenizer
      modifies layers
      ensures Counted()
      ensures layers[layer].batchQueue == old(layers[layer].batchQueue) + [b]
      ensures layers[layer].tokenQueue == old(layers[layer].tokenQueue)
      ensures forall i :: 0 <= i < |layers| && i != layer ==> unchanged(layers[i])
      ensures old(Agreed()) ==> (Agreed() <==> !UsesTokenQueue(layer))
    {
      if b.meta.tag == Attention {
        layers[b.meta.layerId].AddBatch(b);
      } else {
        layers[numAttn + b.meta.layerId].AddBatch(b);
      }
    }

    method AttnAddTokens(layer: nat, tokens: seq<TopKToken>)
      requires Counted() && layer < numAttn
      modifies layers
      ensures Counted()
      ensures layers[layer].tokenQueue == old(layers[layer].tokenQueue) + tokens
      ensures layers[layer].batchQueue == old(layers[layer].batchQueue)
      ensures forall i :: 0 <= i < |layers| && i != layer ==> unchanged(layers[i])
      ensures old(Agreed()) && UsesTokenQueue(layer) ==> Agreed()
    {
      layers[layer].AddTokens(tokens);
    }

    ghost function Tokens(): (r: seq<int>)
      reads layers
      ensures |r| == |layers| && forall i :: 0 <= i < |layers| ==> r[i] == layers[i].numTokens
    {
      seq(|layers|, i requires 0 <= i < |layers| reads layers => layers[i].numTokens)
    }

    method GetPoolSnapshot() returns (snapshot: seq<int>)
      ensures snapshot == Tokens()
    {
      snapshot := [];
      for i := 0 to |layers|
        invariant |snapshot| == i && forall k :: 0 <= k < i ==> snapshot[k] == layers[k].numTokens
      {
        snapshot := snapshot + [layers[i].numTokens];
      }
    }

    /** Snapshot the queues and choose the layer to serve; the pool always has one attention layer more than experts. */
    method ScheduleWithSnapshot() returns (best: int, snapshot: seq<int>)
      requires Counted() && numExpert <= numAttn
      ensures snapshot == Tokens() && FirstLayer(Tokens(), numAttn, best)
    {
      snapshot := GetPoolSnapshot();
      best := FirstServed(snapshot, numAttn);
    }

    /** Drain a layer of gathered tokens and pack what was taken; None where there is nothing to pack. */
    method GetTokensRestricted(layer: nat, limit: int)
      returns (out: Option<TokenBatch>, ghost tokens: seq<TopKToken>)
      requires Counted() && Agreed() && layer < |layers| && UsesTokenQueue(layer)
      requires LengthsOk(layers[layer].tokenQueue) && SameWidth(layers[layer].tokenQueue)
      modifies layers
      ensures Counted() && Agreed() && forall i :: 0 <= i < |layers| && i != layer ==> unchanged(layers[i])
      ensures var ts := old(layers[layer].tokenQueue);
        tokens == ts[..TokenCut(ts, limit)] && layers[layer].tokenQueue == ts[TokenCut(ts, limit)..]
      ensures out.None? <==> tokens == []
      ensures out.Some? ==> AttnKind(out.value) && Packed(out.value, tokens) && PrefillFirst(out.value)
      ensures out.Some? ==> IsFor(out.value, numAttn, layer)
    {
      ghost var us := layers[layer].tokenQueue;
      var taken := layers[layer].GetTokensRestricted(limit);
      tokens := taken;
      if |taken| == 0 {
        return None, tokens;
      }
      assert forall j :: 0 <= j < |taken| ==> taken[j] == us[j];
      var b;
      ghost var order;
      b, order := Pack(layer, taken);
      assert PackedAs(b, order, tokens);
      out := Some(b);
    }

    /** Drain a layer of batches and merge what was taken; None where the source throws because nothing was. */
    method GetBatchesRestricted(layer: nat, limit: int)
      returns (out: Option<TokenBatch>, ghost batches: seq<TokenBatch>)
      requires Counted() && Agreed() && layer < |layers| && !UsesTokenQueue(layer)
      requires Typed(numAttn, layer, layers[layer].batchQueue)
      modifies layers
      ensures Counted() && Agreed() && forall i :: 0 <= i < |layers| && i != layer ==> unchanged(layers[i])
      ensures WellFormedQueue(old(layers[layer].batchQueue))
      ensures (batches, layers[layer].batchQueue) == Drain(old(layers[layer].batchQueue), limit)
      ensures out.None? <==> Taken(old(layers[layer].batchQueue), limit) == 0
      ensures out.Some? && layer < numAttn ==> MergedFromAttention(out.value, batches)
      ensures out.Some? && layer >= numAttn ==> MergedFromExperts(out.value, batches)
      ensures out.Some? ==> IsFor(out.value, numAttn, layer)
    {
      hide Counted, Agreed, Drain, Taken, AttnKind, ExpertKind, MergedFromAttention, MergedFromExperts, Typed;
      var ok, taken := DrainLayer(layer, limit);
      batches := taken;
      if !ok {
        return None, batches;
      }
      var b := MergeLayer(taken, numAttn, layer);
      out := Some(b);
    }

    /** Take the front batches of a layer, all of the layer's kind. */
    method DrainLayer(layer: nat, limit: int) returns (ok: bool, taken: seq<TokenBatch>)
      requires Counted() && Agreed() && layer < |layers| && !UsesTokenQueue(layer)
      requires Typed(numAttn, layer, layers[layer].batchQueue)
      modifies layers
      ensures Counted() && Agreed() && forall i :: 0 <= i < |layers| && i != layer ==> unchanged(layers[i])
      ensures WellFormedQueue(old(layers[layer].batchQueue))
      ensures (taken, layers[layer].batchQueue) == Drain(old(layers[layer].batchQueue), limit)
      ensures ok <==> Taken(old(layers[layer].batchQueue), limit) > 0
      ensures ok ==> |taken| > 0
      ensures Typed(numAttn, layer, taken)
    {
      ghost var q := layers[layer].batchQueue;
      DrainTakesPrefix(q, limit);
      DrainKeepsKind(numAttn, layer, q, limit);
      hide Drain, QueueItems, Taken, WellFormedBatch, Typed;
      ok, taken := layers[layer].GetBatchesRestricted(limit);
      SomethingTaken(taken);
    }

    /** Drain a layer under a limit, from the queue it uses: the batch holds exactly what was at the front. */
    method GetBatchRestricted(layer: nat, limit: int)
      returns (out: Option<TokenBatch>, ghost batches: seq<TokenBatch>, ghost tokens: seq<TopKToken>)
      requires Counted() && Agreed() && layer < |layers| && Typed(numAttn, layer, layers[layer].batchQueue)
      requires LengthsOk(layers[layer].tokenQueue) && SameWidth(layers[layer].tokenQueue)
      modifies layers
      ensures Counted() && Agreed() && forall i :: 0 <= i < |layers| && i != layer ==> unchanged(layers[i])
      ensures WellFormedQueue(old(layers[layer].batchQueue))
      ensures layers[layer].batchQueue == Drain(old(layers[layer].batchQueue), limit).1
      ensures var ts := old(layers[layer].tokenQueue); layers[layer].tokenQueue == ts[TokenCut(ts, limit)..]
      ensures Yields(layer, limit, old(layers[layer].batchQueue), old(layers[layer].tokenQueue),
                     old(layers[layer].numTokens), out, batches, tokens)
    {
      EmptyQueue();
      batches, tokens := [], [];
      if UsesTokenQueue(layer) {
        out, tokens := GetTokensRestricted(layer, limit);
      } else {
        out, batches := GetBatchesRestricted(layer, limit);
      }
    }

    /** What comes out of a layer: something exactly when the limit lets tokens out, and exactly its drained front. */
    ghost predicate Yields(layer: nat, limit: int, q: seq<TokenBatch>, ts: seq<TopKToken>, numTokens: int,
                           out: Option<TokenBatch>, batches: seq<TokenBatch>, tokens: seq<TopKToken>) {
      && WellFormedQueue(q) && (out.Some? <==> limit > 0 && numTokens > 0)
      && batches == Drain(q, limit).0 && tokens == ts[..TokenCut(ts, limit)]
      && (out.Some? ==> HoldsExactly(layer, out.value, batches, tokens))
    }

    /** A drained batch is for its layer, and holds the gathered tokens or merges the batches it was drained from. */
    ghost predicate HoldsExactly(layer: nat, b: TokenBatch, batches: seq<TokenBatch>, tokens: seq<TopKToken>) {
      && IsFor(b, numAttn, layer)
      && if UsesTokenQueue(layer) then Packed(b, tokens)
         else if layer < numAttn then MergedFromAttention(b, batches)
         else MergedFromExperts(b, batches)
    }
  }

  /** All tokens gathered the same number of copies. */
  ghost predicate SameWidth(ts: seq<TopKToken>) {
    forall j :: 0 <= j < |ts| ==> |ts[j].tensors| == |ts[0].tensors|
  }

  ghost predicate MergedFromAttention(b: TokenBatch, batches: seq<TokenBatch>) {
    && (forall k :: 0 <= k < |batches| ==> AttnBatch(batches[k]))
    && AttnBatch(b) && AttnTokens(b) == AllPrefill(batches) + AllDecode(batches)
  }

  ghost predicate MergedFromExperts(b: TokenBatch, batches: seq<TokenBatch>) {
    && |batches| > 0 && (forall k :: 0 <= k < |batches| ==> RoutedBatch(batches[k]))
    && RoutedBatch(b) && RoutedTokens(b) == MergedTokens(batches)
  }

  /** No work in the layers before pipeline position 2 * i. */
  ghost predicate EmptyUpTo(tokens: seq<int>, numAttn: nat, i: nat) {
    && (forall k :: 0 <= k < i && k < |tokens| && k < numAttn ==> tokens[k] <= 0)
    && (forall k :: numAttn <= k < numAttn + i && k < |tokens| ==> tokens[k] <= 0)
  }

  lemma NothingYet(tokens: seq<int>, numAttn: nat)
    ensures EmptyUpTo(tokens, numAttn, 0)
  {
  }

  lemma OneLayerOn(tokens: seq<int>, numAttn: nat, i: nat)
    requires EmptyUpTo(tokens, numAttn, i) && i < numAttn <= |tokens| && tokens[i] <= 0
    requires numAttn + i < |tokens| ==> tokens[numAttn + i] <= 0
    ensures EmptyUpTo(tokens, numAttn, i + 1)
  {
  }

  lemma FoundFirst(tokens: seq<int>, numAttn: nat, i: nat, best: nat)
    requires EmptyUpTo(tokens, numAttn, i) && i < numAttn && best < |tokens| && tokens[best] > 0
    requires best == i || (best == numAttn + i && tokens[i] <= 0)
    ensures FirstLayer(tokens, numAttn, best)
  {
  }

  /** First layer first served, along the pipeline. */
  method FirstServed(tokens: seq<int>, numAttn: nat) returns (best: int)
    requires numAttn <= |tokens| <= 2 * numAttn
    ensures FirstLayer(tokens, numAttn, best)
  {
    hide FirstLayer, EmptyUpTo;
    NothingYet(tokens, numAttn);
    for i := 0 to numAttn
      invariant EmptyUpTo(tokens, numAttn, i)
    {
      if tokens[i] > 0 {
        FoundFirst(tokens, numAttn, i, i);
        return i;
      }
      if numAttn + i < |tokens| && tokens[numAttn + i] > 0 {
        FoundFirst(tokens, numAttn, i, numAttn + i);
        return numAttn + i;
      }
      OneLayerOn(tokens, numAttn, i);
    }
    best := -1;
    NothingFound(tokens, numAttn);
  }

  lemma NothingFound(tokens: seq<int>, numAttn: nat)
    requires EmptyUpTo(tokens, numAttn, numAttn) && |tokens| <= 2 * numAttn
    ensures FirstLayer(tokens, numAttn, -1)
  {
  }

  /** Merge the batches of a layer. */
  method MergeLayer(batches: seq<TokenBatch>, ghost numAttn: nat, ghost layer: nat) returns (b: TokenBatch)
    requires |batches| > 0 && Typed(numAttn, layer, batches)
    ensures if layer < numAttn then MergedFromAttention(b, batches) else MergedFromExperts(b, batches)
    ensures IsFor(b, numAttn, layer)
  {
    assert IsFor(batches[0], numAttn, layer);
    assert layer < numAttn ==> forall k :: 0 <= k < |batches| ==> AttnKind(batches[k]) && AttnBatch(batches[k]);
    assert layer >= numAttn ==> forall k :: 0 <= k < |batches| ==> ExpertKind(batches[k]) && RoutedBatch(batches[k]);
    hide Typed, AttnBatch, RoutedBatch, AttnKind, ExpertKind;
    var _, out := Merge(batches);
    b := out.value;
  }

  lemma EmptyQueue()
    ensures QueueItems([]) == []
  {
  }

  lemma SomethingTaken(q: seq<TokenBatch>)
    requires WellFormedQueue(q)
    ensures |QueueItems(q)| > 0 ==> |q| > 0
  {
  }

  // --------------------------------------------------------------------- pool

  method CreatePools(n: nat, topK: nat) returns (pools: seq<TokenTopKPool>)
    requires topK > 1
    ensures fresh(pools) && |pools| == n && forall k :: 0 <= k < n ==> pools[k].topK == topK && pools[k].Exact()
    ensures forall k :: 0 <= k < n ==> pools[k].View() == Pool(map[], [])
    ensures forall j, k :: 0 <= j < k < |pools| ==> pools[j] != pools[k]
  {
    pools := [];
    for i := 0 to n
      invariant |pools| == i && fresh(pools) && forall k :: 0 <= k < i ==> pools[k].topK == topK && pools[k].Exact()
      invariant forall k :: 0 <= k < i ==> pools[k].View() == Pool(map[], [])
      invariant forall j, k :: 0 <= j < k < |pools| ==> pools[j] != pools[k]
    {
      var p := new TokenTopKPool(topK);
      pools := pools + [p];
    }
  }

  class UnifiedPool {
    const scheduler: UnifiedLayerScheduler
    const topK: nat
    const numGroups: nat
    const topKPools: seq<TokenTopKPool>
    var attnLimit: int
    var expertLimit: int

    constructor (numLayers: nat, numGroups: nat, topK: nat)
      ensures Ready() && scheduler.Agreed() && fresh(scheduler.layers) && fresh(topKPools)
      ensures Cfg() == Config(numLayers + 1, numLayers, topK, numGroups) && View() == EmptyLanes(Cfg())
      ensures attnLimit == expertLimit == -1
    {
      var s := new UnifiedLayerScheduler(numLayers + 1, numLayers, topK);
      var pools: seq<TokenTopKPool> := [];
      if topK > 1 {
        pools := CreatePools(numLayers + 1, topK);
      }
      scheduler, this.topK, this.numGroups, topKPools := s, topK, numGroups, pools;
      attnLimit, expertLimit := -1, -1;
      new;
      hide Shaped;
      assert View() == EmptyLanes(Cfg());
    }

    ghost function Cfg(): Config {
      Config(scheduler.numAttn, scheduler.numExpert, topK, numGroups)
    }

    /** All counters are exact, and so is every top-k join. */
    ghost predicate Valid()
      reads this, scheduler.layers, topKPools
    {
      && scheduler.Counted() && scheduler.topK == (if topK > 0 then topK else 1)
      && |topKPools| == (if topK > 1 then scheduler.numAttn else 0) && PoolsOk()
    }

    /** Every join is exact, and nothing is left to fetch. */
    ghost predicate PoolsOk()
      reads topKPools
    {
      && (forall j, k :: 0 <= j < k < |topKPools| ==> topKPools[j] != topKPools[k])
      && forall k :: 0 <= k < |topKPools| ==>
        topKPools[k].topK == topK && topKPools[k].Exact() && topKPools[k].readyTokens == []
    }

    /** What a layer holds. */
    ghost function LaneAt(i: nat): Lane
      requires i < |scheduler.layers|
      reads scheduler.layers, topKPools
    {
      var layer := scheduler.layers[i];
      Lane(layer.batchQueue, layer.tokenQueue, if i < |topKPools| then topKPools[i].held else map[])
    }

    ghost function View(): (r: seq<Lane>)
      reads scheduler.layers, topKPools
      ensures |r| == |scheduler.layers|
    {
      seq(|scheduler.layers|, i requires 0 <= i < |scheduler.layers| reads scheduler.layers, topKPools => LaneAt(i))
    }

    /** Whatever is drained can be merged or packed. */
    ghost predicate Ready()
      reads this, scheduler.layers, topKPools
    {
      Valid() && Shaped(Cfg(), View())
    }

    /** Pool the copies of a batch, and take every token that is now complete. */
    method PoolCopies(b: TokenBatch) returns (ready: seq<TopKToken>)
      requires Valid() && WellFormedBatch(b) && Gathers(Cfg(), b.meta) && |b.meta.ranks| == b.meta.numTokens
      requires b.meta.layerId < scheduler.numAttn
      modifies topKPools[b.meta.layerId]
      ensures Valid()
      ensures var pool := topKPools[b.meta.layerId];
        && pool.arrived == old(pool.arrived) + Arrivals(b) && pool.fetched == old(pool.fetched) + ready
        && Pool(pool.held, ready) == ArriveAll(Pool(old(pool.held), []), topK, Arrivals(b))
    {
      hide TokenTopKPool.Exact, Arrivals;
      var pool := topKPools[b.meta.layerId];
      pool.PutBatch(b);
      ready := pool.FetchReadyTokens();
    }

    /** Gather: pool the copies, and queue every token that is now complete. */
    method ProcessAttnBatchTopK(b: TokenBatch)
      requires Valid() && WellFormedBatch(b) && Gathers(Cfg(), b.meta) && |b.meta.ranks| == b.meta.numTokens
      requires b.meta.layerId < scheduler.numAttn
      modifies scheduler.layers, topKPools
      ensures Valid()
      ensures forall i :: 0 <= i < |scheduler.layers| && i != b.meta.layerId ==> unchanged(scheduler.layers[i])
      ensures forall k :: 0 <= k < |topKPools| && k != b.meta.layerId ==> unchanged(topKPools[k])
      ensures topKPools[b.meta.layerId].arrived == old(topKPools[b.meta.layerId].arrived) + Arrivals(b)
      ensures LaneAt(b.meta.layerId) == Routed(Cfg(), old(LaneAt(b.meta.layerId)), b)
      ensures old(scheduler.Agreed()) ==> scheduler.Agreed()
    {
      assert |scheduler.layers| == scheduler.numAttn + scheduler.numExpert;
      assert forall k :: 0 <= k < |topKPools| && k != b.meta.layerId ==> topKPools[k] != topKPools[b.meta.layerId];
      hide UnifiedLayerScheduler.Agreed, UnifiedLayerScheduler.Counted, PoolsOk, Arrivals, ArriveAll, WellFormedBatch, UnifiedLayer.Exact, TokenTopKPool.Exact;
      var ready := PoolCopies(b);
      if |ready| == 0 {
        assert ready == [];
        return;
      }
      scheduler.AttnAddTokens(b.meta.layerId, ready);
    }

    /** Retag a batch for attention, count its prefill and decode tokens, and queue it. */
    method ProcessAttnBatch(b: TokenBatch)
      requires Valid() && WellFormedBatch(b) && 0 <= b.meta.layerId < scheduler.numAttn
      modifies scheduler.layers
      ensures Valid()
      ensures forall i :: 0 <= i < |scheduler.layers| && i != b.meta.layerId ==> unchanged(scheduler.layers[i])
      ensures var layer := scheduler.layers[b.meta.layerId];
        layer.batchQueue == old(layer.batchQueue) + [AsAttentionBatch(b)] && layer.tokenQueue == old(layer.tokenQueue)
      ensures old(scheduler.Agreed()) ==> (scheduler.Agreed() <==> !scheduler.UsesTokenQueue(b.meta.layerId))
    {
      hide PoolsOk;
      var seqs, prefill, decode := 0, 0, 0;
      var lens := b.meta.prefillLens;
      for i := 0 to |b.meta.reqIds|
        invariant seqs == prefill == NumPrefill(lens[..i]) && decode == i - prefill
      {
        assert lens[..i + 1][..i] == lens[..i];
        if lens[i] != -1 {
          prefill := prefill + 1;
          seqs := seqs + 1;
        } else {
          decode := decode + 1;
        }
      }
      assert lens[..|lens|] == lens;
      var meta := b.meta.(tag := Attention, numSeqs := Some(seqs), numPrefill := Some(prefill), numDecode := Some(decode));
      scheduler.AddBatch(b.(meta := meta), b.meta.layerId);
    }

    /** Retag a batch for the experts and queue it; several groups are not supported. */
    method ProcessExpertBatch(b: TokenBatch) returns (ok: bool)
      requires Valid() && WellFormedBatch(b) && 0 <= b.meta.layerId < scheduler.numExpert
      modifies scheduler.layers
      ensures Valid() && (ok <==> numGroups <= 1)
      ensures var at := scheduler.numAttn + b.meta.layerId;
        && (forall i :: 0 <= i < |scheduler.layers| && (i != at || !ok) ==> unchanged(scheduler.layers[i]))
        && (ok ==> scheduler.layers[at].batchQueue == old(scheduler.layers[at].batchQueue) + [AsExpertBatch(b)])
        && scheduler.layers[at].tokenQueue == old(scheduler.layers[at].tokenQueue)
      ensures old(scheduler.Agreed()) ==> scheduler.Agreed()
    {
      hide PoolsOk;
      if numGroups > 1 {
        return false;
      }
      scheduler.AddBatch(AsExpertBatch(b), scheduler.numAttn + b.meta.layerId);
      ok := true;
    }

    /**
     * Route an arriving batch. Only its target layer changes, counters and joins stay exact, and every layer keeps its
     * tokens in the queue it is drained from, unless the batch is misrouted.
     */
    method Route(b: TokenBatch) returns (ok: bool)
      requires Valid() && WellFormedBatch(b) && 0 <= b.meta.layerId
      requires b.meta.layerId < if b.meta.tag == Attention then scheduler.numExpert else scheduler.numAttn
      requires Gathers(Cfg(), b.meta) ==> |b.meta.ranks| == b.meta.numTokens
      modifies scheduler.layers, topKPools
      ensures Valid() && (ok <==> !Refused(Cfg(), b.meta))
      ensures forall i :: 0 <= i < |scheduler.layers| && (i != Target(Cfg(), b.meta) || !ok) ==> unchanged(scheduler.layers[i])
      ensures forall k ::
        0 <= k < |topKPools| && (k != b.meta.layerId || !Gathers(Cfg(), b.meta)) ==> unchanged(topKPools[k])
      ensures ok ==> LaneAt(Target(Cfg(), b.meta)) == Routed(Cfg(), old(LaneAt(Target(Cfg(), b.meta))), b)
      ensures forall i :: 0 <= i < |scheduler.layers| && (i != Target(Cfg(), b.meta) || !ok) ==> LaneAt(i) == old(LaneAt(i))
      ensures Gathers(Cfg(), b.meta) ==>
        topKPools[b.meta.layerId].arrived == old(topKPools[b.meta.layerId].arrived) + Arrivals(b)
      ensures old(scheduler.Agreed()) && ok ==> (scheduler.Agreed() <==> !Misrouted(Cfg(), b.meta))
    {
      assert Gathers(Cfg(), b.meta) ==> PutOk(b) && b.meta.layerId < |topKPools|;
      assert 0 <= Target(Cfg(), b.meta) < |scheduler.layers| == scheduler.numAttn + scheduler.numExpert;
      hide Valid, WellFormedBatch, AsAttentionBatch, AsExpertBatch, Arrivals, PutOk, UnifiedLayerScheduler.Agreed;
      ok := true;
      if b.meta.tag == Tokenizer {
        ProcessAttnBatch(b);
      } else if b.meta.tag == Expert {
        if topK > 1 && b.meta.layerId > 0 {
          ProcessAttnBatchTopK(b);
        } else {
          ProcessAttnBatch(b);
        }
      } else {
        ok := ProcessExpertBatch(b);
      }
    }

    /**
     * Process an arriving batch: what the model's step does. The pool stays ready to be drained exactly when the batch
     * is not misrouted, or refused.
     */
    method ProcessBatch(b: TokenBatch) returns (ok: bool)
      requires Valid() && WellFormedBatch(b) && 0 <= b.meta.layerId
      requires b.meta.layerId < if b.meta.tag == Attention then scheduler.numExpert else scheduler.numAttn
      requires Gathers(Cfg(), b.meta) ==> |b.meta.ranks| == b.meta.numTokens
      modifies scheduler.layers, topKPools
      ensures Valid() && (ok <==> !Refused(Cfg(), b.meta))
      ensures var t := Target(Cfg(), b.meta);
        View() == if ok then old(View())[t := Routed(Cfg(), old(View())[t], b)] else old(View())
      ensures Gathers(Cfg(), b.meta) ==>
        topKPools[b.meta.layerId].arrived == old(topKPools[b.meta.layerId].arrived) + Arrivals(b)
      ensures old(scheduler.Agreed()) && ok ==> (scheduler.Agreed() <==> !Misrouted(Cfg(), b.meta))
      ensures old(Ready()) && Arriving(Cfg(), b) ==>
        && View() == StepOf(Cfg(), old(View()), Process(b))
        && (Ready() <==> !ok || !Misrouted(Cfg(), b.meta))
    {
      assert Gathers(Cfg(), b.meta) ==> PutOk(b) && b.meta.layerId < |topKPools|;
      assert 0 <= Target(Cfg(), b.meta) < |scheduler.layers| == scheduler.numAttn + scheduler.numExpert;
      hide Valid, WellFormedBatch, Arrivals, PutOk, UnifiedLayerScheduler.Agreed, Routed, Shaped, Arriving, LaneAt;
      ghost var before, t := View(), Target(Cfg(), b.meta);
      assert before[t] == LaneAt(t);
      ok := Route(b);
      assert View() == if ok then before[t := Routed(Cfg(), before[t], b)] else before;
      ProcessReadyIff(Cfg(), before, b);
    }

    /** Drain a layer under the limit configured for its kind. */
    method GetBatchFromLayer(layer: nat)
      returns (out: Option<TokenBatch>, ghost batches: seq<TokenBatch>, ghost tokens: seq<TopKToken>)
      requires Ready() && layer < |scheduler.layers|
      modifies scheduler.layers
      ensures Ready() && scheduler.Agreed()
      ensures var limit := if layer < scheduler.numAttn then attnLimit else expertLimit;
        && (out.Some? <==> limit > 0 && old(scheduler.layers[layer].numTokens) > 0)
        && View() == StepOf(Cfg(), old(View()), Get(layer, limit))
        && batches == Drain(old(LaneAt(layer)).batches, limit).0
        && tokens == old(LaneAt(layer)).tokens[..TokenCut(old(LaneAt(layer)).tokens, limit)]
      ensures out.Some? ==> scheduler.HoldsExactly(layer, out.value, batches, tokens)
      ensures out.Some? ==> IsFor(out.value, scheduler.numAttn, layer)
      ensures attnLimit == expertLimit == -1 ==> out.None?
    {
      ghost var before := View();
      ReadyLayer(layer);
      var limit := -1;
      if layer < scheduler.numAttn {
        limit := attnLimit;
      } else {
        limit := expertLimit;
      }
      StepShaped(Cfg(), before, Get(layer, limit));
      hide Shaped, Typed, LaneOk, Drained, UnifiedLayerScheduler.HoldsExactly, UnifiedLayerScheduler.Agreed, LaneAt;
      hide UnifiedLayerScheduler.Counted, Valid, Drainable;
      assert before[layer] == LaneAt(layer);
      out, batches, tokens := DrainAt(layer, limit);
      assert View() == before[layer := Drained(Cfg(), layer, before[layer], limit)];
    }

    /** Drain a layer under some limit. */
    method DrainAt(layer: nat, limit: int)
      returns (out: Option<TokenBatch>, ghost batches: seq<TokenBatch>, ghost tokens: seq<TopKToken>)
      requires Valid() && scheduler.Agreed() && Drainable(layer)
      modifies scheduler.layers
      ensures Valid() && scheduler.Agreed()
      ensures var lane := old(LaneAt(layer));
        scheduler.Yields(layer, limit, lane.batches, lane.tokens, old(scheduler.layers[layer].numTokens), out, batches, tokens)
      ensures LaneAt(layer) == Drained(Cfg(), layer, old(LaneAt(layer)), limit)
      ensures forall i :: 0 <= i < |scheduler.layers| && i != layer ==> LaneAt(i) == old(LaneAt(i))
    {
      DrainsBoth(Cfg(), layer, LaneAt(layer), limit);
      hide Drained, UnifiedLayerScheduler.Yields, UnifiedLayerScheduler.Agreed;
      hide UnifiedLayerScheduler.Counted, PoolsOk, Drain, QueueItems, WellFormedQueue, TokenCut, LaneOk, Typed, LengthsOk;
      hide SameWidth;
      out, batches, tokens := scheduler.GetBatchRestricted(layer, limit);
    }

    ghost predicate Drainable(layer: nat)
      reads scheduler.layers, topKPools
    {
      && layer < |scheduler.layers| && LaneOk(Cfg(), layer, LaneAt(layer))
      && Typed(scheduler.numAttn, layer, scheduler.layers[layer].batchQueue)
      && LengthsOk(scheduler.layers[layer].tokenQueue) && SameWidth(scheduler.layers[layer].tokenQueue)
    }

    /** A ready pool can be drained. */
    lemma ReadyLayer(layer: nat)
      requires Ready() && layer < |scheduler.layers|
      ensures Drainable(layer) && WellFormedQueue(LaneAt(layer).batches) && scheduler.Agreed()
    {
      hide Typed, Waiting;
      assert View()[layer] == LaneAt(layer);
      forall i | 0 <= i < |scheduler.layers|
        ensures LaneOk(Cfg(), i, LaneAt(i)) && scheduler.UsesTokenQueue(i) == UsesTokenQueue(Cfg(), i)
      {
        assert View()[i] == LaneAt(i);
      }
    }
  }
}
