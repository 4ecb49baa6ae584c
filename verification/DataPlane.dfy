/** One hop end to end: split by destination, deliver, retag at the receiving pool, merge. */
module DataPlane {
  import opened Prelude
  import opened CountingSort
  import opened Batches
  import opened BatchMerge
  import opened BatchSplit
  import opened Dispatcher

  // ------------------------------------------------------- the receiving pool

  /** What the pool does to a batch for its experts: retag it. */
  function AsExpertBatch(b: TokenBatch): TokenBatch {
    b.(meta := b.meta.(tag := Expert))
  }

  /** What the pool does to a batch for attention: retag it and count its prefill and decode tokens. */
  function AsAttentionBatch(b: TokenBatch): TokenBatch
  {
    var p := NumPrefill(b.meta.prefillLens);
    b.(meta := b.meta.(tag := Attention, numSeqs := Some(p), numPrefill := Some(p),
                       numDecode := Some(|b.meta.prefillLens| - p)))
  }

  ghost function AsExpertBatches(bs: seq<TokenBatch>): (r: seq<TokenBatch>)
    ensures |r| == |bs|
  {
    if |bs| == 0 then [] else AsExpertBatches(bs[..|bs| - 1]) + [AsExpertBatch(bs[|bs| - 1])]
  }

  ghost function AsAttentionBatches(bs: seq<TokenBatch>): (r: seq<TokenBatch>)
    requires forall i :: 0 <= i < |bs| ==> RoutedBatch(bs[i])
    ensures |r| == |bs|
  {
    if |bs| == 0 then [] else AsAttentionBatches(bs[..|bs| - 1]) + [AsAttentionBatch(bs[|bs| - 1])]
  }

  lemma {:induction false} ExpertBatchesKeepTokens(bs: seq<TokenBatch>)
    requires forall i :: 0 <= i < |bs| ==> RoutedBatch(bs[i])
    ensures forall i :: 0 <= i < |bs| ==> RoutedBatch(AsExpertBatches(bs)[i]) && AsExpertBatches(bs)[i].meta.tag == Expert
    ensures AllRoutedTokens(AsExpertBatches(bs)) == AllRoutedTokens(bs)
  {
    if |bs| > 0 {
      var n := |bs| - 1;
      ExpertBatchesKeepTokens(bs[..n]);
      var before := AsExpertBatches(bs[..n]);
      assert (before + [AsExpertBatch(bs[n])])[..n] == before;
      assert RoutedTokens(AsExpertBatch(bs[n])) == RoutedTokens(bs[n]);
    }
  }

  function ToAttn(t: RoutedToken): AttnToken {
    AttnToken(t.row, t.req, t.prefill)
  }

  ghost function Project(ts: seq<RoutedToken>): (r: seq<AttnToken>)
    ensures |r| == |ts|
  {
    if |ts| == 0 then [] else Project(ts[..|ts| - 1]) + [ToAttn(ts[|ts| - 1])]
  }

  lemma {:induction false} ProjectAt(ts: seq<RoutedToken>, k: nat)
    requires k < |ts|
    ensures Project(ts)[k] == ToAttn(ts[k])
  {
    if k < |ts| - 1 {
      ProjectAt(ts[..|ts| - 1], k);
    }
  }

  lemma {:induction false} ProjectConcat(ts: seq<RoutedToken>, us: seq<RoutedToken>)
    ensures Project(ts + us) == Project(ts) + Project(us)
  {
    if |us| == 0 {
      assert ts + us == ts;
    } else {
      assert (ts + us)[..|ts + us| - 1] == ts + us[..|us| - 1];
      ProjectConcat(ts, us[..|us| - 1]);
    }
  }

  lemma AttentionBatchTokens(b: TokenBatch)
    requires RoutedBatch(b)
    ensures AttnBatch(AsAttentionBatch(b)) && AttnTokens(AsAttentionBatch(b)) == Project(RoutedTokens(b))
  {
    var ts := RoutedTokens(b);
    forall k | 0 <= k < |ts|
      ensures AttnTokens(AsAttentionBatch(b))[k] == Project(ts)[k]
    {
      ProjectAt(ts, k);
    }
  }

  lemma {:induction false} AttentionBatchesKeepTokens(bs: seq<TokenBatch>)
    requires forall i :: 0 <= i < |bs| ==> RoutedBatch(bs[i])
    ensures forall i :: 0 <= i < |bs| ==>
      AttnBatch(AsAttentionBatches(bs)[i]) && AsAttentionBatches(bs)[i].meta.tag == Attention
    ensures AllAttnTokens(AsAttentionBatches(bs)) == Project(AllRoutedTokens(bs))
  {
    hide RoutedBatch, AttnBatch, RoutedTokens, AttnTokens;
    if |bs| > 0 {
      var n := |bs| - 1;
      AttentionBatchesKeepTokens(bs[..n]);
      var before := AsAttentionBatches(bs[..n]);
      assert (before + [AsAttentionBatch(bs[n])])[..n] == before;
      AttentionBatchTokens(bs[n]);
      ProjectConcat(AllRoutedTokens(bs[..n]), RoutedTokens(bs[n]));
    }
  }

  // ------------------------------------------------------------- end to end

  /** The token multiset of all channels together. */
  ghost function CountOver<T>(xs: seq<T>, keys: seq<nat>, channels: nat, t: T): nat
    requires |xs| == |keys|
  {
    if channels == 0 then 0 else CountOver(xs, keys, channels - 1, t) + Count(WithKey(xs, keys, channels - 1), t)
  }

  /** Splitting tokens over channels keeps each of them exactly once. */
  lemma {:induction false} ChannelsConserve<T>(xs: seq<T>, keys: seq<nat>, channels: nat, t: T)
    requires |xs| == |keys| && forall i :: 0 <= i < |keys| ==> keys[i] < channels
    ensures CountOver(xs, keys, channels, t) == Count(xs, t)
  {
    CountOverIsSort(xs, keys, channels, t);
    StableSortCount(xs, keys, channels, t);
  }

  lemma {:induction false} CountOverIsSort<T>(xs: seq<T>, keys: seq<nat>, m: nat, t: T)
    requires |xs| == |keys|
    ensures CountOver(xs, keys, m, t) == Count(StableSort(xs, keys, m), t)
  {
    hide WithKey;
    if m > 0 {
      CountOverIsSort(xs, keys, m - 1, t);
      CountConcat(StableSort(xs, keys, m - 1), WithKey(xs, keys, m - 1), t);
    }
  }

  /** How often token t is in what the experts behind channels 0, ..., m - 1 merge. */
  ghost function MergedAtExperts(sent: seq<Send>, m: nat, t: RoutedToken): nat
    requires AllRouted(sent)
  {
    if m == 0 then 0
    else
      ReceivedRouted(sent, m - 1);
      ExpertBatchesKeepTokens(Received(sent, m - 1));
      MergedAtExperts(sent, m - 1, t) +
      if Received(sent, m - 1) == [] then 0 else Count(MergedTokens(AsExpertBatches(Received(sent, m - 1))), t)
  }

  lemma MergedAtOneChannel(sent: seq<Send>, ch: nat, t: RoutedToken)
    requires AllRouted(sent)
    ensures (forall i :: 0 <= i < |Received(sent, ch)| ==> RoutedBatch(AsExpertBatches(Received(sent, ch))[i]))
    ensures (if Received(sent, ch) == [] then 0 else Count(MergedTokens(AsExpertBatches(Received(sent, ch))), t))
         == Count(Delivered(sent, ch), t)
  {
    hide RoutedBatch, MergedTokens, AsExpertBatches;
    ReceivedRouted(sent, ch);
    ExpertBatchesKeepTokens(Received(sent, ch));
    if Received(sent, ch) != [] {
      MergeConserves(AsExpertBatches(Received(sent, ch)), t);
    } else {
      NoneDelivered(t);
    }
  }

  lemma NoneDelivered(t: RoutedToken)
    ensures Count<RoutedToken>([], t) == 0
  {
  }

  lemma {:induction false} MergedAtExpertsIs(sent: seq<Send>, m: nat, t: RoutedToken, ts: seq<RoutedToken>, keys: seq<nat>)
    requires AllRouted(sent) && |ts| == |keys|
    requires forall ch :: Delivered(sent, ch) == WithKey(ts, keys, ch)
    ensures MergedAtExperts(sent, m, t) == CountOver(ts, keys, m, t)
  {
    hide Delivered, WithKey, AllRouted, Count, MergedTokens, AsExpertBatches, Received;
    if m > 0 {
      MergedAtExpertsIs(sent, m - 1, t, ts, keys);
      MergedAtOneChannel(sent, m - 1, t);
    }
  }

  /**
   * From attention to experts: across all channels, the merged batches hold every token of the batch that was sent,
   * each exactly as often, with its own row, request and expert.
   */
  lemma {:induction false} ExpertHopConserves(b: TokenBatch, keys: seq<nat>, sent: seq<Send>, channels: nat, t: RoutedToken)
    requires RoutedBatch(b) && AllRouted(sent) && |keys| == b.meta.numTokens
    requires forall ch :: Delivered(sent, ch) == WithKey(RoutedTokens(b), keys, ch)
    requires forall i :: 0 <= i < |keys| ==> keys[i] < channels
    ensures MergedAtExperts(sent, channels, t) == Count(RoutedTokens(b), t)
  {
    MergedAtExpertsIs(sent, channels, t, RoutedTokens(b), keys);
    ChannelsConserve(RoutedTokens(b), keys, channels, t);
  }

  /**
   * From experts back to attention: what a channel's receiver merges holds every token sent over that channel, each
   * exactly as often, with its own row and request.
   */
  lemma {:induction false} AttentionHopConserves(b: TokenBatch, keys: seq<nat>, sent: seq<Send>, ch: nat, t: AttnToken)
    requires RoutedBatch(b) && AllRouted(sent) && |keys| == b.meta.numTokens
    requires Delivered(sent, ch) == WithKey(RoutedTokens(b), keys, ch)
    ensures forall i :: 0 <= i < |Received(sent, ch)| ==> RoutedBatch(Received(sent, ch)[i])
    ensures var bs := AsAttentionBatches(Received(sent, ch));
      && (forall i :: 0 <= i < |bs| ==> AttnBatch(bs[i]))
      && Count(AllPrefill(bs) + AllDecode(bs), t) == Count(Project(WithKey(RoutedTokens(b), keys, ch)), t)
  {
    hide RoutedBatch, AttnBatch, Count, WithKey, RoutedTokens, AllPrefill, AllDecode;
    ReceivedRouted(sent, ch);
    AttentionBatchesKeepTokens(Received(sent, ch));
    AttentionMergeConserves(AsAttentionBatches(Received(sent, ch)), t);
  }

  /**
   * And what the receiver behind a channel merges is only tokens of experts whose last placement is on the rank that
   * channel leads to.
   */
  lemma MergedAtOwners(sent: seq<Send>, ps: seq<Placement>, channelRanks: seq<nat>, ch: nat, t: RoutedToken)
    requires AllRouted(sent) && ToOwners(sent, ps, channelRanks) && Received(sent, ch) != []
    ensures forall i :: 0 <= i < |Received(sent, ch)| ==> RoutedBatch(AsExpertBatches(Received(sent, ch))[i])
    ensures Count(MergedTokens(AsExpertBatches(Received(sent, ch))), t) > 0 ==> OwnsExpert(ps, channelRanks, ch, t.exp)
  {
    hide RoutedBatch, MergedTokens, AsExpertBatches, Delivered, OwnsExpert, Received;
    MergedAtOneChannel(sent, ch, t);
    CountIn(Delivered(sent, ch), t);
  }

  lemma CountIn<T>(xs: seq<T>, t: T)
    ensures Count(xs, t) > 0 <==> t in xs
  {
    assert t in multiset(xs) <==> t in xs;
  }
}
