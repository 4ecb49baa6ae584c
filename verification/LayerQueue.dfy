/** The queues of one layer, and draining them under a token limit. */
module LayerQueue {
  import opened Prelude
  import opened Batches
  import opened BatchSplit

  /** A token whose expert outputs are gathered: one tensor per expert copy. */
  datatype TopKToken = TopKToken(seqId: int, prefill: int, rank: nat, tensors: seq<Row>)

  // ---------------------------------------------------------- specification

  ghost predicate WellFormedQueue(q: seq<TokenBatch>) {
    forall i :: 0 <= i < |q| ==> WellFormedBatch(q[i])
  }

  /** The tokens of a queue, front batch first. */
  ghost function QueueItems(q: seq<TokenBatch>): seq<Item>
    requires WellFormedQueue(q)
  {
    if |q| == 0 then [] else Items(q[0]) + QueueItems(q[1..])
  }

  /** What a drain with limit t takes, and what it leaves. */
  ghost function Drain(q: seq<TokenBatch>, t: int): (r: (seq<TokenBatch>, seq<TokenBatch>))
    requires WellFormedQueue(q)
  {
    if |q| == 0 || t <= 0 then ([], q)
    else
      var n := q[0].meta.numTokens;
      if n > t then ([Piece(q[0], 0, t)], [Piece(q[0], t, n)] + q[1..])
      else
        var r := Drain(q[1..], t - n);
        ([q[0]] + r.0, r.1)
  }

  /** The number of tokens a drain takes. */
  ghost function Taken(q: seq<TokenBatch>, t: int): (r: nat)
    requires WellFormedQueue(q)
    ensures r <= |QueueItems(q)|
  {
    var n := |QueueItems(q)|;
    if t <= 0 then 0 else if t < n then t else n
  }

  lemma {:induction false} QueueConcat(p: seq<TokenBatch>, q: seq<TokenBatch>)
    requires WellFormedQueue(p) && WellFormedQueue(q)
    ensures QueueItems(p + q) == QueueItems(p) + QueueItems(q)
  {
    hide WellFormedBatch, Items;
    if |p| == 0 {
      assert p + q == q;
    } else {
      assert (p + q)[1..] == p[1..] + q;
      QueueConcat(p[1..], q);
    }
  }

  lemma OneBatchQueue(b: TokenBatch)
    requires WellFormedBatch(b)
    ensures QueueItems([b]) == Items(b)
  {
    assert [b][1..] == [];
  }

  /** A drain takes exactly the first tokens up to the limit, in order, and leaves the others in order. */
  lemma {:induction false} DrainTakesPrefix(q: seq<TokenBatch>, t: int)
    requires WellFormedQueue(q)
    ensures var r := Drain(q, t);
      && WellFormedQueue(r.0) && WellFormedQueue(r.1)
      && QueueItems(r.0) == QueueItems(q)[..Taken(q, t)]
      && QueueItems(r.1) == QueueItems(q)[Taken(q, t)..]
  {
    hide WellFormedBatch, Piece, Items;
    if |q| > 0 && t > 0 {
      var b, n := q[0], q[0].meta.numTokens;
      assert WellFormedBatch(b);
      var tail := QueueItems(q[1..]);
      ItemsLength(b);
      assert QueueItems(q) == Items(b) + tail;
      if n > t {
        ItemsLength(b);
        PieceOf(b, t);
        OneBatchQueue(Piece(b, 0, t));
        QueueConcat([Piece(b, t, n)], q[1..]);
        OneBatchQueue(Piece(b, t, n));
      } else {
        DrainTakesPrefix(q[1..], t - n);
        var r := Drain(q[1..], t - n);
        QueueConcat([b], r.0);
        OneBatchQueue(b);
      }
    }
  }

  lemma ItemsLength(b: TokenBatch)
    requires WellFormedBatch(b)
    ensures |Items(b)| == b.meta.numTokens
  {
  }

  lemma PieceOf(b: TokenBatch, t: nat)
    requires WellFormedBatch(b) && t <= b.meta.numTokens
    ensures WellFormedBatch(Piece(b, 0, t)) && Items(Piece(b, 0, t)) == Items(b)[..t]
    ensures WellFormedBatch(Piece(b, t, b.meta.numTokens))
    ensures Items(Piece(b, t, b.meta.numTokens)) == Items(b)[t..]
  {
    PieceItems(b, 0, t);
    PieceItems(b, t, b.meta.numTokens);
  }

  /** A drain cuts one batch at most, batch i after k of its tokens; all others are taken or left whole. */
  lemma {:induction false} DrainCutsOneBatch(q: seq<TokenBatch>, t: int) returns (i: nat, k: nat)
    requires WellFormedQueue(q)
    ensures i <= |q| && (k > 0 ==> i < |q| && k < q[i].meta.numTokens)
    ensures k == 0 ==> Drain(q, t) == (q[..i], q[i..])
    ensures k > 0 ==>
      Drain(q, t) == (q[..i] + [Piece(q[i], 0, k)], [Piece(q[i], k, q[i].meta.numTokens)] + q[i + 1..])
  {
    hide WellFormedBatch, Piece;
    if |q| == 0 || t <= 0 {
      i, k := 0, 0;
    } else if q[0].meta.numTokens > t {
      i, k := 0, t;
      assert q[..0] + [Piece(q[0], 0, k)] == [Piece(q[0], 0, k)];
    } else {
      var tail := q[1..];
      var j;
      j, k := DrainCutsOneBatch(tail, t - q[0].meta.numTokens);
      i := j + 1;
      assert q[..i] == [q[0]] + tail[..j] && q[i..] == tail[j..];
      if k > 0 {
        assert q[i] == tail[j] && q[i + 1..] == tail[j + 1..];
        assert q[..i] + [Piece(q[i], 0, k)] == [q[0]] + (tail[..j] + [Piece(tail[j], 0, k)]);
      }
    }
  }

  /**
   * Documented as no limit, a limit of zero or below would have to take everything: it takes nothing, which is
   * everything exactly when nothing is queued, and nothing is a failure.
   */
  lemma {:induction false} NonPositiveLimit(q: seq<TokenBatch>, t: int)
    requires WellFormedQueue(q) && t <= 0
    ensures Drain(q, t) == ([], q)
    ensures Taken(q, t) == |QueueItems(q)| <==> QueueItems(q) == []
  {
  }

  /** One queued token and the default limit of -1: nothing is taken. */
  lemma {:induction false} DefaultLimitFails() returns (q: seq<TokenBatch>)
    ensures WellFormedQueue(q) && |QueueItems(q)| == 1 && Taken(q, -1) == 0
  {
    q := [TokenBatch([Row(0)], Meta(Attention, 0, 1, [7], [], [], [], [-1], Some(0), Some(0), Some(1)))];
    assert QueueItems(q[1..]) == [];
  }

  // --------------------------------------------------------------- the layer

  class UnifiedLayer {
    const isAttention: bool
    const layerId: nat
    var batchQueue: seq<TokenBatch>
    var tokenQueue: seq<TopKToken>
    var numTokens: int

    constructor (isAttention: bool, layerId: nat)
      ensures this.isAttention == isAttention && this.layerId == layerId
      ensures batchQueue == [] && tokenQueue == [] && Exact()
    {
      this.isAttention, this.layerId := isAttention, layerId;
      batchQueue, tokenQueue, numTokens := [], [], 0;
    }

    /** The counter equals what is queued. */
    ghost predicate Exact()
      reads this
    {
      WellFormedQueue(batchQueue) && numTokens == |QueueItems(batchQueue)| + |tokenQueue|
    }

    method AddBatch(b: TokenBatch)
      requires Exact() && WellFormedBatch(b)
      modifies this
      ensures Exact() && tokenQueue == old(tokenQueue)
      ensures batchQueue == old(batchQueue) + [b]
      ensures QueueItems(batchQueue) == old(QueueItems(batchQueue)) + Items(b)
    {
      QueueConcat(batchQueue, [b]);
      OneBatchQueue(b);
      batchQueue := batchQueue + [b];
      numTokens := numTokens + b.meta.numTokens;
    }

    /** Take every batch. The counter is reset, which is exact when no gathered token is queued beside them. */
    method GetAllBatches() returns (result: seq<TokenBatch>)
      requires Exact()
      modifies this
      ensures result == old(batchQueue) && batchQueue == [] && tokenQueue == old(tokenQueue) && numTokens == 0
      ensures Exact() <==> old(tokenQueue) == []
    {
      result := [];
      while |batchQueue| > 0
        invariant result + batchQueue == old(batchQueue) && tokenQueue == old(tokenQueue)
        decreases |batchQueue|
      {
        result := result + [batchQueue[0]];
        batchQueue := batchQueue[1..];
      }
      numTokens := 0;
    }

    /** Take batches up to the limit; `ok` is false where the source throws because it took nothing. */
    method GetBatchesRestricted(limit: int) returns (ok: bool, result: seq<TokenBatch>)
      requires Exact()
      modifies this
      ensures Exact() && tokenQueue == old(tokenQueue)
      ensures (result, batchQueue) == Drain(old(batchQueue), limit)
      ensures numTokens == old(numTokens) - Taken(old(batchQueue), limit)
      ensures ok <==> Taken(old(batchQueue), limit) > 0
    {
      hide WellFormedBatch, Items, Piece, QueueItems;
      DrainTakesPrefix(batchQueue, limit);
      NothingQueued();
      ghost var q0 := batchQueue;
      result := [];
      var total, numBatches := 0, 0;
      assert result + Drain(q0, limit).0 == Drain(q0, limit).0;
      while |batchQueue| > 0 && total < limit
        invariant WellFormedQueue(batchQueue) && tokenQueue == old(tokenQueue) && numTokens == old(numTokens)
        invariant 0 <= total && (0 < limit ==> total <= limit) && (total > 0 ==> numBatches > 0)
        invariant WellFormedQueue(result) && total == |QueueItems(result)|
        invariant Drain(q0, limit) == (result + Drain(batchQueue, limit - total).0, Drain(batchQueue, limit - total).1)
        decreases if limit - total > 0 then limit - total else 0, |batchQueue|
      {
        var first, rest := batchQueue[0], batchQueue[1..];
        var tokens := first.meta.numTokens;
        assert WellFormedBatch(first);
        ItemsLength(first);
        if total + tokens > limit {
          var need := limit - total;
          var taken, left := CutFirst(first, need);
          tokens := taken.meta.numTokens;
          EnqueueItems(result, taken);
          result := result + [taken];
          batchQueue := [left] + rest;
          assert result + Drain(batchQueue, 0).0 == result;
        } else {
          EnqueueItems(result, first);
          assert result + ([first] + Drain(rest, limit - total - tokens).0)
              == result + [first] + Drain(rest, limit - total - tokens).0;
          result := result + [first];
          batchQueue := rest;
        }
        total := total + tokens;
        numBatches := numBatches + 1;
      }
      assert Drain(batchQueue, limit - total) == ([], batchQueue) && result + [] == result;
      numTokens := numTokens - total;
      ok := total > 0 && numBatches > 0;
    }

    method AddToken(token: TopKToken)
      requires Exact()
      modifies this
      ensures Exact() && batchQueue == old(batchQueue) && tokenQueue == old(tokenQueue) + [token]
    {
      tokenQueue := tokenQueue + [token];
      numTokens := numTokens + 1;
    }

    method AddTokens(tokens: seq<TopKToken>)
      requires Exact()
      modifies this
      ensures Exact() && batchQueue == old(batchQueue) && tokenQueue == old(tokenQueue) + tokens
    {
      for i := 0 to |tokens|
        invariant Exact() && batchQueue == old(batchQueue) && tokenQueue == old(tokenQueue) + tokens[..i]
      {
        AddToken(tokens[i]);
      }
    }

    /** Take every gathered token; the counter reset is exact when no batch is queued beside them. */
    method GetAllTokens() returns (result: seq<TopKToken>)
      requires Exact()
      modifies this
      ensures result == old(tokenQueue) && tokenQueue == [] && batchQueue == old(batchQueue) && numTokens == 0
      ensures Exact() <==> old(QueueItems(batchQueue)) == []
    {
      result := [];
      while |tokenQueue| > 0
        invariant result + tokenQueue == old(tokenQueue) && batchQueue == old(batchQueue)
        decreases |tokenQueue|
      {
        result := result + [tokenQueue[0]];
        tokenQueue := tokenQueue[1..];
      }
      numTokens := 0;
    }

    /** Take the first gathered tokens up to the limit. */
    method GetTokensRestricted(limit: int) returns (result: seq<TopKToken>)
      requires Exact()
      modifies this
      ensures Exact() && batchQueue == old(batchQueue)
      ensures var n := |old(tokenQueue)|;
        var k := if limit <= 0 then 0 else if limit < n then limit else n;
        result == old(tokenQueue)[..k] && tokenQueue == old(tokenQueue)[k..] && numTokens == old(numTokens) - k
    {
      result := [];
      var total := 0;
      while |tokenQueue| > 0 && total < limit
        invariant batchQueue == old(batchQueue) && numTokens == old(numTokens)
        invariant total == |result| && result + tokenQueue == old(tokenQueue) && (total == 0 || total <= limit)
        decreases |tokenQueue|
      {
        result := result + [tokenQueue[0]];
        tokenQueue := tokenQueue[1..];
        total := total + 1;
      }
      numTokens := numTokens - total;
    }
  }

  /** Cut a batch in two after its first `need` tokens. */
  method CutFirst(b: TokenBatch, need: nat) returns (taken: TokenBatch, left: TokenBatch)
    requires WellFormedBatch(b) && need <= b.meta.numTokens
    ensures taken == Piece(b, 0, need) && left == Piece(b, need, b.meta.numTokens)
    ensures WellFormedBatch(taken) && WellFormedBatch(left) && taken.meta.numTokens == need
  {
    TwoParts(need, b.meta.numTokens - need);
    PieceOf(b, need);
    var batches := SplitWithSizes(b, [need, b.meta.numTokens - need]);
    taken, left := batches[0], batches[1];
  }

  lemma EnqueueItems(q: seq<TokenBatch>, b: TokenBatch)
    requires WellFormedQueue(q) && WellFormedBatch(b)
    ensures WellFormedQueue(q + [b]) && QueueItems(q + [b]) == QueueItems(q) + Items(b)
    ensures |QueueItems(q + [b])| == |QueueItems(q)| + b.meta.numTokens
  {
    QueueConcat(q, [b]);
    OneBatchQueue(b);
  }

  lemma NothingQueued()
    ensures QueueItems([]) == []
  {
  }

  lemma TwoParts(a: nat, b: nat)
    ensures Total([a, b]) == a + b && Base([a, b], 0) == 0 && Base([a, b], 1) == a
  {
    assert [a, b][..1] == [a] && [a][..0] == [] && [a, b][..0] == [];
    assert Total([a]) == a;
  }
}
