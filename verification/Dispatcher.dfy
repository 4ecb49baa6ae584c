/**
 * The dispatcher cuts an outgoing batch into maximal runs of tokens for the same destination and sends every run
 * over the channel that owns it; the receivers merge what arrives.
 */
module Dispatcher {
  import opened Prelude
  import opened CountingSort
  import opened Batches
  import opened BatchMerge
  import opened BatchSplit
  import opened Chunks

  /** Expert `expert` of layer `layer` lives on rank `rank`. */
  datatype Placement = Placement(layer: int, expert: nat, rank: nat)

  datatype Send = Send(channel: nat, batch: TokenBatch)

  // --------------------------------------------------------- routing tables

  /** The rank of the last placement of an expert, whatever its layer; -1 if it has none. */
  ghost function LastRank(ps: seq<Placement>, e: nat): int {
    if |ps| == 0 then -1
    else if ps[|ps| - 1].expert == e then ps[|ps| - 1].rank
    else LastRank(ps[..|ps| - 1], e)
  }

  /** The last channel to a rank, or -1. */
  ghost function LastChannel(ranks: seq<nat>, r: nat): int {
    if |ranks| == 0 then -1
    else if ranks[|ranks| - 1] == r then |ranks| - 1
    else LastChannel(ranks[..|ranks| - 1], r)
  }

  lemma {:induction false} LastRankHits(ps: seq<Placement>, e: nat)
    ensures LastRank(ps, e) >= 0 ==> exists i :: 0 <= i < |ps| && ps[i].expert == e && ps[i].rank == LastRank(ps, e)
    ensures LastRank(ps, e) < 0 ==> forall i :: 0 <= i < |ps| ==> ps[i].expert != e
  {
    if |ps| > 0 && ps[|ps| - 1].expert != e {
      var n := |ps| - 1;
      LastRankHits(ps[..n], e);
      if LastRank(ps, e) >= 0 {
        var i :| 0 <= i < n && ps[..n][i].expert == e && ps[..n][i].rank == LastRank(ps[..n], e);
        assert ps[i].expert == e;
      } else {
        assert forall i :: 0 <= i < n ==> ps[i] == ps[..n][i];
      }
    }
  }

  /** The table, which ignores layers, is right about every placement exactly when an expert has one rank overall. */
  lemma {:induction false} TableRightIff(ps: seq<Placement>)
    ensures (forall i :: 0 <= i < |ps| ==> LastRank(ps, ps[i].expert) == ps[i].rank)
        <==> (forall i, j :: 0 <= i < |ps| && 0 <= j < |ps| && ps[i].expert == ps[j].expert ==> ps[i].rank == ps[j].rank)
  {
    forall i | 0 <= i < |ps| && forall j :: 0 <= j < |ps| && ps[i].expert == ps[j].expert ==> ps[i].rank == ps[j].rank
      ensures LastRank(ps, ps[i].expert) == ps[i].rank
    {
      LastRankHits(ps, ps[i].expert);
    }
  }

  /** A layer-dependent placement the table gets wrong. */
  lemma {:induction false} LayersCollide() returns (ps: seq<Placement>)
    ensures |ps| == 2 && ps[0].layer != ps[1].layer && LastRank(ps, ps[0].expert) != ps[0].rank
  {
    ps := [Placement(0, 3, 0), Placement(1, 3, 1)];
    assert LastRank(ps, 3) == 1;
  }

  /** A channel found for a rank is a channel to that rank; none is found only if there is none. */
  lemma {:induction false} ChannelOwnsRank(ranks: seq<nat>, r: nat)
    ensures LastChannel(ranks, r) < |ranks|
    ensures LastChannel(ranks, r) >= 0 ==> ranks[LastChannel(ranks, r)] == r
    ensures LastChannel(ranks, r) < 0 <==> r !in ranks
  {
    if |ranks| > 0 && ranks[|ranks| - 1] != r {
      ChannelOwnsRank(ranks[..|ranks| - 1], r);
      assert ranks == ranks[..|ranks| - 1] + [ranks[|ranks| - 1]];
    }
  }

  /** Rank r has the last placement of an expert. */
  ghost predicate LastPlacedOn(ps: seq<Placement>, e: nat, r: nat) {
    exists i :: 0 <= i < |ps| && ps[i].expert == e && ps[i].rank == r && forall j :: i < j < |ps| ==> ps[j].expert != e
  }

  /** Channel ch is the last one that leads to rank r. */
  ghost predicate LastChannelTo(ranks: seq<nat>, ch: nat, r: nat) {
    ch < |ranks| && ranks[ch] == r && forall k :: ch < k < |ranks| ==> ranks[k] != r
  }

  lemma {:induction false} LastRankAt(ps: seq<Placement>, e: nat) returns (i: nat)
    requires LastRank(ps, e) >= 0
    ensures i < |ps| && ps[i].expert == e && ps[i].rank == LastRank(ps, e)
    ensures forall j :: i < j < |ps| ==> ps[j].expert != e
  {
    var n := |ps| - 1;
    if ps[n].expert == e {
      i := n;
    } else {
      i := LastRankAt(ps[..n], e);
      assert forall j :: i < j < n ==> ps[j] == ps[..n][j];
    }
  }

  lemma LastRankPlaced(ps: seq<Placement>, e: nat)
    requires LastRank(ps, e) >= 0
    ensures LastPlacedOn(ps, e, LastRank(ps, e))
  {
    var i := LastRankAt(ps, e);
    hide LastRank;
  }

  lemma {:induction false} LastChannelLeads(ranks: seq<nat>, r: nat)
    ensures LastChannel(ranks, r) >= 0 ==> LastChannelTo(ranks, LastChannel(ranks, r), r)
  {
    if |ranks| > 0 && ranks[|ranks| - 1] != r {
      LastChannelLeads(ranks[..|ranks| - 1], r);
    }
  }

  // ------------------------------------------------------------- what arrives

  /** The batches sent over a channel, in order. */
  ghost function Received(sent: seq<Send>, ch: nat): seq<TokenBatch> {
    if |sent| == 0 then []
    else
      var s := sent[|sent| - 1];
      Received(sent[..|sent| - 1], ch) + if s.channel == ch then [s.batch] else []
  }

  ghost predicate AllRouted(sent: seq<Send>) {
    forall i :: 0 <= i < |sent| ==> RoutedBatch(sent[i].batch)
  }

  lemma {:induction false} ReceivedRouted(sent: seq<Send>, ch: nat)
    requires AllRouted(sent)
    ensures forall i :: 0 <= i < |Received(sent, ch)| ==> RoutedBatch(Received(sent, ch)[i])
  {
    if |sent| > 0 {
      ReceivedRouted(sent[..|sent| - 1], ch);
    }
  }

  /** The tokens that arrive over a channel, in order. */
  ghost function Delivered(sent: seq<Send>, ch: nat): seq<RoutedToken>
    requires AllRouted(sent)
  {
    ReceivedRouted(sent, ch);
    AllRoutedTokens(Received(sent, ch))
  }

  /** Channel ch is the last to the rank of an expert's last placement. */
  ghost predicate OwnsExpert(ps: seq<Placement>, channelRanks: seq<nat>, ch: nat, e: nat) {
    ch < |channelRanks| && LastPlacedOn(ps, e, channelRanks[ch]) && LastChannelTo(channelRanks, ch, channelRanks[ch])
  }

  /** Every placement of an expert is on the rank a channel leads to. */
  ghost predicate OnlyPlacedAt(ps: seq<Placement>, channelRanks: seq<nat>, ch: nat, e: nat) {
    ch < |channelRanks| && forall i :: 0 <= i < |ps| && ps[i].expert == e ==> ps[i].rank == channelRanks[ch]
  }

  /** Whatever arrives over a channel is for an expert whose last placement is on the rank the channel leads to. */
  ghost predicate ToOwners(sent: seq<Send>, ps: seq<Placement>, channelRanks: seq<nat>)
    requires AllRouted(sent)
  {
    forall ch: nat, t :: t in Delivered(sent, ch) ==> OwnsExpert(ps, channelRanks, ch, t.exp)
  }

  /** Whatever arrives over a channel is for the rank the channel leads to. */
  ghost predicate ToRanks(sent: seq<Send>, channelRanks: seq<nat>)
    requires AllRouted(sent)
  {
    forall ch: nat, t :: t in Delivered(sent, ch) ==> LastChannelTo(channelRanks, ch, t.rank)
  }

  lemma {:induction false} WithKeyMember<T>(xs: seq<T>, keys: seq<nat>, e: nat, t: T)
    requires |xs| == |keys| && t in WithKey(xs, keys, e)
    ensures exists i :: 0 <= i < |xs| && xs[i] == t && keys[i] == e
  {
    var n := |xs| - 1;
    if keys[n] == e && xs[n] == t {
      assert xs[n] == t;
    } else {
      WithKeyMember(xs[..n], keys[..n], e, t);
      var i :| 0 <= i < n && xs[..n][i] == t && keys[..n][i] == e;
      assert xs[i] == t && keys[i] == e;
    }
  }

  /** If an expert has one rank in all layers, that is the rank its tokens go to. */
  lemma OwnersHaveExpert(sent: seq<Send>, ps: seq<Placement>, channelRanks: seq<nat>)
    requires AllRouted(sent) && ToOwners(sent, ps, channelRanks)
    requires forall i, j :: 0 <= i < |ps| && 0 <= j < |ps| && ps[i].expert == ps[j].expert ==> ps[i].rank == ps[j].rank
    ensures forall ch: nat, t :: t in Delivered(sent, ch) ==> OnlyPlacedAt(ps, channelRanks, ch, t.exp)
  {
    hide Delivered;
    forall ch: nat, t | t in Delivered(sent, ch)
      ensures OnlyPlacedAt(ps, channelRanks, ch, t.exp)
    {
      assert OwnsExpert(ps, channelRanks, ch, t.exp);
    }
  }

  /** Pieces 0, 1, ... of a batch, each sent to the channel of its first token. */
  ghost predicate SentPieces(b: TokenBatch, channels: seq<nat>, sizes: seq<nat>, sent: seq<Send>)
    requires RoutedBatch(b) && |channels| == b.meta.numTokens && Total(sizes) <= b.meta.numTokens
  {
    && |sent| <= |sizes|
    && forall i :: 0 <= i < |sent| ==>
      sizes[i] > 0 && sent[i] == Send(channels[Base(sizes, i)], Piece(b, Base(sizes, i), Base(sizes, i) + sizes[i]))
  }

  /** No piece mixes channels. */
  ghost predicate Unmixed(channels: seq<nat>, sizes: seq<nat>)
    requires Total(sizes) <= |channels|
  {
    forall i, k :: 0 <= i < |sizes| && Base(sizes, i) <= k < Base(sizes, i) + sizes[i] ==>
      channels[k] == channels[Base(sizes, i)]
  }

  /** Runs of equal keys do not mix channels when the key decides the channel. */
  lemma RunsUnmixed(keys: seq<nat>, channels: seq<nat>, sizes: seq<nat>)
    requires Runs(keys, sizes) && |channels| == |keys|
    requires forall i, j :: 0 <= i < |keys| && 0 <= j < |keys| && keys[i] == keys[j] ==> channels[i] == channels[j]
    ensures Unmixed(channels, sizes)
  {
  }

  lemma SentRouted(b: TokenBatch, channels: seq<nat>, sizes: seq<nat>, sent: seq<Send>)
    requires RoutedBatch(b) && |channels| == b.meta.numTokens && Total(sizes) <= b.meta.numTokens
    requires SentPieces(b, channels, sizes, sent)
    ensures AllRouted(sent)
  {
    hide RoutedBatch, Base, Piece, Total;
    forall i | 0 <= i < |sent|
      ensures RoutedBatch(sent[i].batch)
    {
      PieceRouted(b, Base(sizes, i), Base(sizes, i) + sizes[i]);
    }
  }

  lemma {:induction false} WithKeyConcat<T>(xs: seq<T>, keys: seq<nat>, ys: seq<T>, more: seq<nat>, e: nat)
    requires |xs| == |keys| && |ys| == |more|
    ensures WithKey(xs + ys, keys + more, e) == WithKey(xs, keys, e) + WithKey(ys, more, e)
  {
    if |ys| == 0 {
      assert xs + ys == xs && keys + more == keys;
    } else {
      var n := |ys| - 1;
      assert (xs + ys)[..|xs| + n] == xs + ys[..n] && (keys + more)[..|xs| + n] == keys + more[..n];
      WithKeyConcat(xs, keys, ys[..n], more[..n], e);
    }
  }

  lemma {:induction false} WithKeyUniform<T>(xs: seq<T>, keys: seq<nat>, c: nat, e: nat)
    requires |xs| == |keys| && forall k :: 0 <= k < |keys| ==> keys[k] == c
    ensures WithKey(xs, keys, e) == if c == e then xs else []
  {
    if |xs| > 0 {
      WithKeyUniform(xs[..|xs| - 1], keys[..|xs| - 1], c, e);
    }
  }

  /** What arrives over a channel is exactly the tokens for it, in their original order. */
  lemma {:induction false} DeliveredIsFilter(b: TokenBatch, channels: seq<nat>, sizes: seq<nat>, sent: seq<Send>, ch: nat)
    requires RoutedBatch(b) && |channels| == b.meta.numTokens && Total(sizes) <= b.meta.numTokens
    requires SentPieces(b, channels, sizes, sent) && Unmixed(channels, sizes)
    ensures AllRouted(sent)
    ensures var end := Base(sizes, |sent|);
      Delivered(sent, ch) == WithKey(RoutedTokens(b)[..end], channels[..end], ch)
  {
    hide RoutedBatch, RoutedTokens, MetaPiece, Total, WithKey, Delivered;
    SentRouted(b, channels, sizes, sent);
    if |sent| > 0 {
      var n := |sent| - 1;
      var lo, hi := Base(sizes, n), Base(sizes, n) + sizes[n];
      assert SentPieces(b, channels, sizes, sent[..n]);
      DeliveredIsFilter(b, channels, sizes, sent[..n], ch);
      TotalPrefix(sizes, n);
      PieceRouted(b, lo, hi);
      DeliveredStep(sent, ch);
      assert forall k :: lo <= k < hi ==> channels[k] == channels[lo];
      FilterStep(RoutedTokens(b), channels, lo, hi, ch);
    } else {
      BaseZero(sizes);
      NothingDelivered(RoutedTokens(b), channels, ch);
    }
  }

  lemma NothingDelivered(ts: seq<RoutedToken>, channels: seq<nat>, ch: nat)
    ensures Delivered([], ch) == [] && |ts[..0]| == |channels[..0]| && WithKey(ts[..0], channels[..0], ch) == []
  {
  }

  lemma FilterStep(ts: seq<RoutedToken>, channels: seq<nat>, lo: nat, hi: nat, ch: nat)
    requires lo < hi <= |ts| == |channels| && forall k :: lo <= k < hi ==> channels[k] == channels[lo]
    ensures WithKey(ts[..hi], channels[..hi], ch)
         == WithKey(ts[..lo], channels[..lo], ch) + if channels[lo] == ch then ts[lo..hi] else []
  {
    assert ts[..hi] == ts[..lo] + ts[lo..hi] && channels[..hi] == channels[..lo] + channels[lo..hi];
    WithKeyConcat(ts[..lo], channels[..lo], ts[lo..hi], channels[lo..hi], ch);
    WithKeyUniform(ts[lo..hi], channels[lo..hi], channels[lo], ch);
  }

  lemma BaseZero(sizes: seq<nat>)
    ensures Base(sizes, 0) == 0
  {
    assert sizes[..0] == [];
  }

  lemma DeliveredStep(sent: seq<Send>, ch: nat)
    requires AllRouted(sent) && |sent| > 0
    ensures var n := |sent| - 1;
      && AllRouted(sent[..n])
      && Delivered(sent, ch)
         == Delivered(sent[..n], ch) + if sent[n].channel == ch then RoutedTokens(sent[n].batch) else []
  {
    hide RoutedBatch, RoutedTokens;
    var n := |sent| - 1;
    var before := Received(sent[..n], ch);
    if sent[n].channel == ch {
      assert Received(sent, ch) == before + [sent[n].batch];
      assert (before + [sent[n].batch])[..|before|] == before;
    } else {
      assert Received(sent, ch) == before;
    }
  }

  // --------------------------------------------------------------- dispatcher

  class UnifiedDispatcher {
    var expertToRank: seq<int>
    var rankToChannel: seq<int>
    ghost const placements: seq<Placement>
    ghost const channelRanks: seq<nat>

    /** Fill both tables, the last entry winning. */
    constructor (placements: seq<Placement>, nTotalExperts: nat, ep: nat, nExpPerRank: nat, dp: nat,
                 channelRanks: seq<nat>)
      requires var n := if nTotalExperts > 0 then nTotalExperts else ep * nExpPerRank;
        forall i :: 0 <= i < |placements| ==> placements[i].expert < n
      requires forall i :: 0 <= i < |channelRanks| ==> channelRanks[i] < dp
      ensures this.placements == placements && this.channelRanks == channelRanks && Valid()
      ensures |expertToRank| == (if nTotalExperts > 0 then nTotalExperts else ep * nExpPerRank)
      ensures forall e :: 0 <= e < |expertToRank| ==> expertToRank[e] == LastRank(placements, e)
      ensures |rankToChannel| == dp
      ensures forall r :: 0 <= r < dp ==> rankToChannel[r] == LastChannel(channelRanks, r)
    {
      var n := if nTotalExperts > 0 then nTotalExperts else ep * nExpPerRank;
      var experts: seq<int>, channels: seq<int> := seq(n, _ => -1), seq(dp, _ => -1);
      for i := 0 to |placements|
        invariant |experts| == n && forall e :: 0 <= e < n ==> experts[e] == LastRank(placements[..i], e)
      {
        assert placements[..i + 1][..i] == placements[..i];
        experts := experts[placements[i].expert := placements[i].rank];
      }
      for i := 0 to |channelRanks|
        invariant |channels| == dp && forall r :: 0 <= r < dp ==> channels[r] == LastChannel(channelRanks[..i], r)
      {
        assert channelRanks[..i + 1][..i] == channelRanks[..i];
        channels := channels[channelRanks[i] := i];
      }
      assert placements[..|placements|] == placements && channelRanks[..|channelRanks|] == channelRanks;
      expertToRank, rankToChannel := experts, channels;
      this.placements, this.channelRanks := placements, channelRanks;
    }

    /** The tables hold the last placement of each expert and the last channel to each rank. */
    ghost predicate Valid()
      reads this
    {
      && (forall e :: 0 <= e < |expertToRank| ==> expertToRank[e] == LastRank(placements, e))
      && forall r :: 0 <= r < |rankToChannel| ==> rankToChannel[r] == LastChannel(channelRanks, r)
    }

    lemma ExpertChannelOwns(e: nat)
      requires Valid() && Routable(e)
      ensures OwnsExpert(placements, channelRanks, ExpertChannel(e), e)
    {
      LastRankPlaced(placements, e);
      LastChannelLeads(channelRanks, LastRank(placements, e));
    }

    lemma AttnChannelLeads(r: nat)
      requires Valid() && Reachable(r)
      ensures LastChannelTo(channelRanks, AttnChannel(r), r)
    {
      LastChannelLeads(channelRanks, r);
    }

    lemma ExpertsToOwners(b: TokenBatch, sent: seq<Send>)
      requires Valid() && RoutedBatch(b) && AllRouted(sent)
      requires forall i :: 0 <= i < |b.meta.expIds| ==> Routable(b.meta.expIds[i])
      requires forall ch :: Delivered(sent, ch) == WithKey(RoutedTokens(b), ExpertChannels(b.meta.expIds), ch)
      ensures ToOwners(sent, placements, channelRanks)
    {
      var ts, keys := RoutedTokens(b), ExpertChannels(b.meta.expIds);
      hide Delivered, WithKey, OwnsExpert, Valid;
      forall ch: nat, t | t in Delivered(sent, ch)
        ensures OwnsExpert(placements, channelRanks, ch, t.exp)
      {
        WithKeyMember(ts, keys, ch, t);
        var i :| 0 <= i < |ts| && ts[i] == t && keys[i] == ch;
        ExpertChannelOwns(b.meta.expIds[i]);
      }
    }

    lemma TokensToRanks(b: TokenBatch, sent: seq<Send>)
      requires Valid() && RoutedBatch(b) && AllRouted(sent)
      requires forall i :: 0 <= i < |b.meta.ranks| ==> Reachable(b.meta.ranks[i])
      requires forall ch :: Delivered(sent, ch) == WithKey(RoutedTokens(b), AttnChannels(b.meta.ranks), ch)
      ensures ToRanks(sent, channelRanks)
    {
      var ts, keys := RoutedTokens(b), AttnChannels(b.meta.ranks);
      hide Delivered, WithKey, LastChannelTo, Valid;
      forall ch: nat, t | t in Delivered(sent, ch)
        ensures LastChannelTo(channelRanks, ch, t.rank)
      {
        WithKeyMember(ts, keys, ch, t);
        var i :| 0 <= i < |ts| && ts[i] == t && keys[i] == ch;
        AttnChannelLeads(b.meta.ranks[i]);
      }
    }

    /** A rank with a channel. */
    predicate Reachable(r: int)
      reads this
    {
      0 <= r < |rankToChannel| && rankToChannel[r] >= 0
    }

    /** An expert placed on a rank with a channel. */
    predicate Routable(e: nat)
      reads this
    {
      e < |expertToRank| && Reachable(expertToRank[e])
    }

    function AttnChannel(r: nat): nat
      requires Reachable(r)
      reads this
    {
      rankToChannel[r]
    }

    function ExpertChannel(e: nat): nat
      requires Routable(e)
      reads this
    {
      rankToChannel[expertToRank[e]]
    }

    ghost function ExpertChannels(es: seq<nat>): (r: seq<nat>)
      requires forall i :: 0 <= i < |es| ==> Routable(es[i])
      reads this
      ensures |r| == |es| && forall i :: 0 <= i < |es| ==> r[i] == ExpertChannel(es[i])
    {
      seq(|es|, i requires 0 <= i < |es| && Routable(es[i]) reads this => ExpertChannel(es[i]))
    }

    ghost function AttnChannels(rs: seq<nat>): (r: seq<nat>)
      requires forall i :: 0 <= i < |rs| ==> Reachable(rs[i])
      reads this
      ensures |r| == |rs| && forall i :: 0 <= i < |rs| ==> r[i] == AttnChannel(rs[i])
    {
      seq(|rs|, i requires 0 <= i < |rs| && Reachable(rs[i]) reads this => AttnChannel(rs[i]))
    }

    /** The sizes of the maximal runs of tokens for one channel. */
    method ExpertRuns(es: seq<nat>) returns (sizes: seq<nat>)
      requires forall i :: 0 <= i < |es| ==> Routable(es[i])
      ensures Runs(ExpertChannels(es), sizes) && Total(sizes) == |es| && forall i :: 0 <= i < |sizes| ==> sizes[i] > 0
    {
      ghost var keys := ExpertChannels(es);
      sizes := [];
      var i, j, n := 0, 1, |es|;
      assert Runs(keys[..0], []);
      while i < n
        invariant 0 <= i <= n && j == (if i == 0 then 1 else i)
        invariant Runs(keys[..i], sizes)
        invariant 0 < i < n ==> keys[i] != keys[i - 1]
      {
        var channel := ExpertChannel(es[i]);
        while j < n && ExpertChannel(es[j]) == channel
          invariant i <= j <= n && (i < j || j == i) && (i == 0 ==> 1 <= j)
          invariant forall k :: i <= k < j ==> keys[k] == channel
        {
          j := j + 1;
        }
        assert keys[i] == channel && i < j;
        RunsAppend(keys, sizes, i, j);
        sizes := sizes + [j - i];
        i := j;
      }
      assert keys[..n] == keys;
    }

    /** The sizes of the maximal runs of tokens for one rank. */
    method RankRuns(rs: seq<nat>) returns (sizes: seq<nat>)
      ensures Runs(rs, sizes) && Total(sizes) == |rs| && forall i :: 0 <= i < |sizes| ==> sizes[i] > 0
    {
      sizes := [];
      var i, j, n := 0, 1, |rs|;
      assert Runs(rs[..0], []);
      while i < n
        invariant 0 <= i <= n && j == (if i == 0 then 1 else i)
        invariant Runs(rs[..i], sizes)
        invariant 0 < i < n ==> rs[i] != rs[i - 1]
      {
        var rank := rs[i];
        while j < n && rs[j] == rank
          invariant i <= j <= n && (i == 0 ==> 1 <= j)
          invariant forall k :: i <= k < j ==> rs[k] == rank
        {
          j := j + 1;
        }
        RunsAppend(rs, sizes, i, j);
        sizes := sizes + [j - i];
        i := j;
      }
      assert rs[..n] == rs;
    }

    /** From an attention worker to the experts: every channel gets, in order, the tokens of the experts it leads to. */
    method SendToExpert(b: TokenBatch) returns (sent: seq<Send>)
      requires Valid() && RoutedBatch(b) && forall i :: 0 <= i < |b.meta.expIds| ==> Routable(b.meta.expIds[i])
      ensures AllRouted(sent)
      ensures forall ch :: Delivered(sent, ch) == WithKey(RoutedTokens(b), ExpertChannels(b.meta.expIds), ch)
      ensures ToOwners(sent, placements, channelRanks)
    {
      ghost var channels := ExpertChannels(b.meta.expIds);
      var sizes := ExpertRuns(b.meta.expIds);
      RunsUnmixed(channels, channels, sizes);
      hide Runs, Unmixed, MetaPiece, Piece, Base, Total, SentPieces, RoutedTokens, Delivered, AllRouted, WithKey, ToOwners, ToRanks;
      hide Valid;
      var batches := SplitWithSizes(b, sizes);
      sent := [];
      NothingSent(b, channels, sizes);
      for i := 0 to |batches|
        invariant |sent| == i && SentPieces(b, channels, sizes, sent)
      {
        NextPiece(b, channels, sizes, sent, i);
        sent := sent + [Send(ExpertChannel(batches[i].meta.expIds[0]), batches[i])];
      }
      AllDelivered(b, channels, sizes, sent);
      ExpertsToOwners(b, sent);
    }

    /** From an expert worker back to attention: every channel gets, in order, the tokens of the rank it leads to. */
    method SendToAttn(b: TokenBatch) returns (sent: seq<Send>)
      requires Valid() && RoutedBatch(b) && forall i :: 0 <= i < |b.meta.ranks| ==> Reachable(b.meta.ranks[i])
      ensures AllRouted(sent)
      ensures forall ch :: Delivered(sent, ch) == WithKey(RoutedTokens(b), AttnChannels(b.meta.ranks), ch)
      ensures ToRanks(sent, channelRanks)
    {
      ghost var channels := AttnChannels(b.meta.ranks);
      var sizes := RankRuns(b.meta.ranks);
      RunsUnmixed(b.meta.ranks, channels, sizes);
      hide Runs, Unmixed, MetaPiece, Piece, Base, Total, SentPieces, RoutedTokens, Delivered, AllRouted, WithKey, ToOwners, ToRanks;
      hide Valid;
      var batches := SplitWithSizes(b, sizes);
      sent := [];
      NothingSent(b, channels, sizes);
      for i := 0 to |batches|
        invariant |sent| == i && SentPieces(b, channels, sizes, sent)
      {
        NextPiece(b, channels, sizes, sent, i);
        sent := sent + [Send(AttnChannel(batches[i].meta.ranks[0]), batches[i])];
      }
      AllDelivered(b, channels, sizes, sent);
      TokensToRanks(b, sent);
    }
  }

  lemma NothingSent(b: TokenBatch, channels: seq<nat>, sizes: seq<nat>)
    requires RoutedBatch(b) && |channels| == b.meta.numTokens && Total(sizes) <= b.meta.numTokens
    ensures SentPieces(b, channels, sizes, [])
  {
  }

  /** Piece i, sent to the channel of its first token, extends what was sent. */
  lemma NextPiece(b: TokenBatch, channels: seq<nat>, sizes: seq<nat>, sent: seq<Send>, i: nat)
    requires RoutedBatch(b) && |channels| == b.meta.numTokens && Total(sizes) <= b.meta.numTokens
    requires i == |sent| < |sizes| && sizes[i] > 0 && SentPieces(b, channels, sizes, sent)
    ensures WellFormedBatch(b) && Base(sizes, i) + sizes[i] <= b.meta.numTokens
    ensures var p := Piece(b, Base(sizes, i), Base(sizes, i) + sizes[i]);
      && |p.meta.expIds| == |p.meta.ranks| == sizes[i]
      && p.meta.expIds[0] == b.meta.expIds[Base(sizes, i)] && p.meta.ranks[0] == b.meta.ranks[Base(sizes, i)]
      && SentPieces(b, channels, sizes, sent + [Send(channels[Base(sizes, i)], p)])
  {
    hide Base, Total;
  }

  lemma AllDelivered(b: TokenBatch, channels: seq<nat>, sizes: seq<nat>, sent: seq<Send>)
    requires RoutedBatch(b) && |channels| == b.meta.numTokens == Total(sizes)
    requires SentPieces(b, channels, sizes, sent) && Unmixed(channels, sizes) && |sent| == |sizes|
    ensures AllRouted(sent)
    ensures forall ch :: Delivered(sent, ch) == WithKey(RoutedTokens(b), channels, ch)
  {
    hide RoutedBatch, RoutedTokens, SentPieces, Unmixed, Delivered, AllRouted, WithKey, Total;
    SentRouted(b, channels, sizes, sent);
    forall ch: nat
      ensures AllRouted(sent) && Delivered(sent, ch) == WithKey(RoutedTokens(b), channels, ch)
    {
      DeliveredIsFilter(b, channels, sizes, sent, ch);
      WholeBase(sizes);
      assert RoutedTokens(b)[..|channels|] == RoutedTokens(b) && channels[..|channels|] == channels;
    }
  }
}
