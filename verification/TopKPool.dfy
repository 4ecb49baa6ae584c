/** The top-k join: expert outputs of a sequence are pooled until one per routed expert has arrived. */
module TopKPool {
  import opened Prelude
  import opened Batches
  import opened LayerQueue

  datatype Arrival = Arrival(req: int, prefill: int, rank: nat, row: Row)

  // ---------------------------------------------------------- specification

  ghost function ArrivalsFor(xs: seq<Arrival>, r: int): (ys: seq<Arrival>)
    ensures forall k :: 0 <= k < |ys| ==> ys[k].req == r
  {
    if |xs| == 0 then []
    else
      var ys := ArrivalsFor(xs[..|xs| - 1], r);
      if xs[|xs| - 1].req == r then ys + [xs[|xs| - 1]] else ys
  }

  ghost function TokensFor(ts: seq<TopKToken>, r: int): seq<TopKToken> {
    if |ts| == 0 then []
    else
      var us := TokensFor(ts[..|ts| - 1], r);
      if ts[|ts| - 1].seqId == r then us + [ts[|ts| - 1]] else us
  }

  ghost function Rows(xs: seq<Arrival>): (r: seq<Row>)
    ensures |r| == |xs| && forall k :: 0 <= k < |xs| ==> r[k] == xs[k].row
  {
    seq(|xs|, k requires 0 <= k < |xs| => xs[k].row)
  }

  /** The token gathered from some arrivals: the metadata of the first, the tensors of all, in order. */
  ghost function Gathered(xs: seq<Arrival>): TopKToken
    requires |xs| > 0
  {
    TopKToken(xs[0].req, xs[0].prefill, xs[0].rank, Rows(xs))
  }

  /** The tokens gathered from consecutive groups of k arrivals. */
  ghost function Groups(xs: seq<Arrival>, k: nat): seq<TopKToken>
    requires k > 0
  {
    if |xs| < k then [] else [Gathered(xs[..k])] + Groups(xs[k..], k)
  }

  /** The arrivals after the last full group. */
  ghost function Pending(xs: seq<Arrival>, k: nat): (r: seq<Arrival>)
    requires k > 0
    ensures |r| < k
  {
    if |xs| < k then xs else Pending(xs[k..], k)
  }

  lemma {:induction false} PendingSuffix(xs: seq<Arrival>, k: nat)
    requires k > 0
    ensures |Pending(xs, k)| <= |xs| && Pending(xs, k) == xs[|xs| - |Pending(xs, k)|..]
  {
    if |xs| >= k {
      PendingSuffix(xs[k..], k);
    }
  }

  lemma PendingFor(xs: seq<Arrival>, r: int, k: nat)
    requires k > 0
    ensures Pending(ArrivalsFor(xs, r), k) != [] ==> Pending(ArrivalsFor(xs, r), k)[0].req == r
  {
    PendingSuffix(ArrivalsFor(xs, r), k);
  }

  /** Arrivals are k times the emissions plus what is pending. */
  lemma {:induction false} GroupsCount(xs: seq<Arrival>, k: nat)
    requires k > 0
    ensures |xs| == k * |Groups(xs, k)| + |Pending(xs, k)|
    ensures forall j :: 0 <= j < |Groups(xs, k)| ==> |Groups(xs, k)[j].tensors| == k
  {
    if |xs| >= k {
      GroupsCount(xs[k..], k);
      assert k * (1 + |Groups(xs[k..], k)|) == k + k * |Groups(xs[k..], k)|;
    }
  }

  /** All the tensors of some tokens, one token after another. */
  ghost function Tensors(ts: seq<TopKToken>): seq<Row> {
    if |ts| == 0 then [] else ts[0].tensors + Tensors(ts[1..])
  }

  /** Emitted tensors followed by pending ones are the arrived rows, in arrival order. */
  lemma {:induction false} GroupsKeepOrder(xs: seq<Arrival>, k: nat)
    requires k > 0
    ensures Tensors(Groups(xs, k)) + Rows(Pending(xs, k)) == Rows(xs)
  {
    hide Groups, Pending, Tensors, Gathered;
    GroupsFirst(xs, k);
    if |xs| < k {
      NoTensors();
    } else {
      GroupsKeepOrder(xs[k..], k);
      TensorsCons(Gathered(xs[..k]), Groups(xs[k..], k));
      GatheredTensors(xs[..k]);
      assert Rows(xs) == Rows(xs[..k]) + Rows(xs[k..]);
      Associate(Rows(xs[..k]), Tensors(Groups(xs[k..], k)), Rows(Pending(xs[k..], k)));
    }
  }

  lemma GroupsFirst(xs: seq<Arrival>, k: nat)
    requires k > 0
    ensures |xs| < k ==> Groups(xs, k) == [] && Pending(xs, k) == xs
    ensures |xs| >= k ==>
      Groups(xs, k) == [Gathered(xs[..k])] + Groups(xs[k..], k) && Pending(xs, k) == Pending(xs[k..], k)
  {
  }

  lemma NoTensors()
    ensures Tensors([]) == []
  {
  }

  lemma GatheredTensors(xs: seq<Arrival>)
    requires |xs| > 0
    ensures Gathered(xs).tensors == Rows(xs)
  {
  }

  lemma TensorsCons(t: TopKToken, ts: seq<TopKToken>)
    ensures Tensors([t] + ts) == t.tensors + Tensors(ts)
  {
    assert ([t] + ts)[1..] == ts;
  }

  lemma Associate<T>(a: seq<T>, b: seq<T>, d: seq<T>)
    ensures (a + b) + d == a + (b + d)
  {
  }

  /** Group j is arrivals jk, ..., jk + k - 1: the metadata of the first of them, and all their rows in order. */
  lemma {:induction false} GroupsAre(xs: seq<Arrival>, k: nat, j: nat)
    requires k > 0 && j < |Groups(xs, k)|
    ensures 0 <= j * k && j * k + k <= |xs|
    ensures var g, first := Groups(xs, k)[j], xs[j * k];
      && g.seqId == first.req && g.prefill == first.prefill && g.rank == first.rank
      && |g.tensors| == k && forall i :: 0 <= i < k ==> g.tensors[i] == xs[j * k + i].row
  {
    if j > 0 {
      GroupsAre(xs[k..], k, j - 1);
      assert j * k == (j - 1) * k + k;
    }
  }

  /** The arrivals of a sequence, in order of arrival: all of them, of no other, and each as often as it came. */
  lemma {:induction false} ArrivalsForAre(xs: seq<Arrival>, ys: seq<Arrival>, r: int, a: Arrival)
    ensures ArrivalsFor(xs + ys, r) == ArrivalsFor(xs, r) + ArrivalsFor(ys, r)
    ensures multiset(ArrivalsFor(ys, r))[a] == if a.req == r then multiset(ys)[a] else 0
  {
    if |ys| == 0 {
      assert xs + ys == xs;
    } else {
      var n := |ys| - 1;
      assert (xs + ys)[..|xs + ys| - 1] == xs + ys[..n];
      assert ys == ys[..n] + [ys[n]];
      ArrivalsForAre(xs, ys[..n], r, a);
    }
  }

  /** One more arrival either completes a group or waits. */
  lemma {:induction false} GroupsAppend(xs: seq<Arrival>, x: Arrival, k: nat)
    requires k > 0
    ensures var p := Pending(xs, k);
      if |p| + 1 == k then
        Groups(xs + [x], k) == Groups(xs, k) + [Gathered(p + [x])] && Pending(xs + [x], k) == []
      else
        Groups(xs + [x], k) == Groups(xs, k) && Pending(xs + [x], k) == p + [x]
  {
    if |xs| >= k {
      assert (xs + [x])[..k] == xs[..k] && (xs + [x])[k..] == xs[k..] + [x];
      GroupsAppend(xs[k..], x, k);
      var p := Pending(xs[k..], k);
      if |p| + 1 == k {
        assert [Gathered(xs[..k])] + (Groups(xs[k..], k) + [Gathered(p + [x])])
            == [Gathered(xs[..k])] + Groups(xs[k..], k) + [Gathered(p + [x])];
      }
    } else {
      if |xs| + 1 == k {
        assert (xs + [x])[..k] == xs + [x] && (xs + [x])[k..] == [];
        assert Groups([], k) == [];
      }
    }
  }

  // --------------------------------------------------------------- one arrival

  datatype Pool = Pool(held: map<int, TopKToken>, ready: seq<TopKToken>)

  /** What the pool does with one token of an arriving batch: only a second or later arrival is tested. */
  function Arrive(p: Pool, k: nat, a: Arrival): Pool {
    if a.req !in p.held then
      p.(held := p.held[a.req := TopKToken(a.req, a.prefill, a.rank, [a.row])])
    else
      var t := p.held[a.req].(tensors := p.held[a.req].tensors + [a.row]);
      if |t.tensors| == k then Pool(p.held - {a.req}, p.ready + [t]) else p.(held := p.held[a.req := t])
  }

  /** Tokens get ready one after another: what is ready stays so, in order, and an arrival adds one token at most. */
  lemma ReadyGrows(p: Pool, k: nat, a: Arrival)
    ensures var q := Arrive(p, k, a);
      p.ready <= q.ready && |q.ready| <= |p.ready| + 1
  {
  }

  ghost function ArriveAll(p: Pool, k: nat, xs: seq<Arrival>): Pool {
    if |xs| == 0 then p else Arrive(ArriveAll(p, k, xs[..|xs| - 1]), k, xs[|xs| - 1])
  }

  lemma {:induction false} ArriveAllConcat(p: Pool, k: nat, xs: seq<Arrival>, ys: seq<Arrival>)
    ensures ArriveAll(p, k, xs + ys) == ArriveAll(ArriveAll(p, k, xs), k, ys)
  {
    if |ys| == 0 {
      assert xs + ys == xs;
    } else {
      assert (xs + ys)[..|xs + ys| - 1] == xs + ys[..|ys| - 1];
      ArriveAllConcat(p, k, xs, ys[..|ys| - 1]);
    }
  }

  /** Sequence r after the arrivals xs: its full groups are emitted in order, the rest is held. */
  ghost predicate Joined(p: Pool, emitted: seq<TopKToken>, k: nat, xs: seq<Arrival>, r: int)
    requires k > 0
  {
    var mine := ArrivalsFor(xs, r);
    && TokensFor(emitted + p.ready, r) == Groups(mine, k)
    && (r in p.held <==> Pending(mine, k) != [])
    && (r in p.held ==> p.held[r] == Gathered(Pending(mine, k)))
  }

  lemma {:induction false} ArriveJoins(p: Pool, emitted: seq<TopKToken>, k: nat, xs: seq<Arrival>, a: Arrival, r: int)
    requires k >= 2 && Joined(p, emitted, k, xs, r) && Joined(p, emitted, k, xs, a.req)
    ensures Joined(Arrive(p, k, a), emitted, k, xs + [a], r)
  {
    assert (xs + [a])[..|xs|] == xs;
    PendingFor(xs, a.req, k);
    var q := Arrive(p, k, a);
    var mine := ArrivalsFor(xs, r);
    if a.req in p.held && |p.held[a.req].tensors| + 1 == k {
      var t := p.held[a.req].(tensors := p.held[a.req].tensors + [a.row]);
      assert (emitted + q.ready)[..|emitted + p.ready|] == emitted + p.ready;
      assert (emitted + q.ready)[|emitted + p.ready|] == t;
    }
    if r == a.req {
      GroupsAppend(mine, a, k);
      var pending := Pending(mine, k);
      if pending != [] {
        assert Rows(pending + [a]) == Rows(pending) + [a.row];
      } else {
        assert Rows([a]) == [a.row];
      }
    }
  }

  /** For k of at least two, the join is exact for every sequence, whatever arrives in whatever order. */
  lemma {:induction false} JoinIsExact(k: nat, xs: seq<Arrival>, r: int)
    requires k >= 2
    ensures Joined(ArriveAll(Pool(map[], []), k, xs), [], k, xs, r)
  {
    if |xs| > 0 {
      var n := |xs| - 1;
      JoinIsExact(k, xs[..n], r);
      JoinIsExact(k, xs[..n], xs[n].req);
      ArriveJoins(ArriveAll(Pool(map[], []), k, xs[..n]), [], k, xs[..n], xs[n], r);
      assert xs == xs[..n] + [xs[n]];
    } else {
      assert Groups([], k) == [] && Pending([], k) == [];
    }
  }

  /** With k of one, the first arrival is never tested and nothing is ever emitted. */
  lemma {:induction false} SingleNeverEmits(xs: seq<Arrival>)
    ensures ArriveAll(Pool(map[], []), 1, xs).ready == []
    ensures forall r :: r in ArriveAll(Pool(map[], []), 1, xs).held ==>
      |ArriveAll(Pool(map[], []), 1, xs).held[r].tensors| >= 1
  {
    if |xs| > 0 {
      SingleNeverEmits(xs[..|xs| - 1]);
    }
  }

  /** Every arrival pattern is joined exactly if and only if k is at least two. */
  lemma {:induction false} JoinIsExactIff(k: nat)
    requires k > 0
    ensures k >= 2 <==>
      forall xs: seq<Arrival>, r: int :: Joined(ArriveAll(Pool(map[], []), k, xs), [], k, xs, r)
  {
    if k >= 2 {
      forall xs: seq<Arrival>, r: int
        ensures Joined(ArriveAll(Pool(map[], []), k, xs), [], k, xs, r)
      {
        JoinIsExact(k, xs, r);
      }
    } else {
      var xs := [Arrival(7, -1, 0, Row(0))];
      SingleNeverEmits(xs);
      assert ArrivalsFor(xs, 7) == xs by {
        assert ArrivalsFor(xs[..0], 7) == [];
      }
      assert |Groups(xs, 1)| == 1 by {
        GroupsCount(xs, 1);
      }
      assert !Joined(ArriveAll(Pool(map[], []), k, xs), [], k, xs, 7);
    }
  }

  // ------------------------------------------------------------------- class

  /** A batch as put_batch asserts it. */
  ghost predicate PutOk(b: TokenBatch) {
    |b.rows| == |b.meta.reqIds| == |b.meta.ranks| == |b.meta.prefillLens| == b.meta.numTokens
  }

  ghost function Arrivals(b: TokenBatch): (r: seq<Arrival>)
    requires PutOk(b)
    ensures |r| == b.meta.numTokens && forall i :: 0 <= i < |r| ==> r[i].req == b.meta.reqIds[i] && r[i].row == b.rows[i]
    ensures forall i :: 0 <= i < |r| ==> r[i].prefill == b.meta.prefillLens[i] && r[i].rank == b.meta.ranks[i]
  {
    seq(b.meta.numTokens, i requires 0 <= i < b.meta.numTokens =>
      Arrival(b.meta.reqIds[i], b.meta.prefillLens[i], b.meta.ranks[i], b.rows[i]))
  }

  class TokenTopKPool {
    const topK: nat
    var held: map<int, TopKToken>
    var readyTokens: seq<TopKToken>
    ghost var arrived: seq<Arrival>
    ghost var fetched: seq<TopKToken>

    constructor (topK: nat)
      ensures this.topK == topK && View() == Pool(map[], []) && arrived == [] && fetched == []
      ensures topK >= 2 ==> Exact()
    {
      this.topK, held, readyTokens, arrived, fetched := topK, map[], [], [], [];
      new;
      if topK >= 2 {
        forall r: int
          ensures Joined(View(), fetched, topK, arrived, r)
        {
          JoinIsExact(topK, [], r);
        }
      }
    }

    ghost function View(): Pool
      reads this
    {
      Pool(held, readyTokens)
    }

    /** All tokens ever fetched or ready, and those held, are exactly the join of all arrivals. */
    ghost predicate Exact()
      reads this
    {
      topK >= 2 && forall r: int :: Joined(View(), fetched, topK, arrived, r)
    }

    method FetchReadyTokens() returns (result: seq<TopKToken>)
      modifies this
      ensures result == old(readyTokens) && readyTokens == [] && held == old(held)
      ensures fetched == old(fetched) + result && arrived == old(arrived)
      ensures old(Exact()) ==> Exact()
    {
      result := readyTokens;
      fetched := fetched + readyTokens;
      readyTokens := [];
      assert fetched + readyTokens == old(fetched + readyTokens);
      if old(Exact()) {
        forall r: int
          ensures Joined(View(), fetched, topK, arrived, r)
        {
          assert old(Joined(View(), fetched, topK, arrived, r));
        }
      }
    }

    method PutBatch(b: TokenBatch)
      requires PutOk(b)
      modifies this
      ensures View() == ArriveAll(old(View()), topK, Arrivals(b))
      ensures arrived == old(arrived) + Arrivals(b) && fetched == old(fetched)
      ensures old(Exact()) ==> Exact()
    {
      ghost var xs := Arrivals(b);
      for i := 0 to b.meta.numTokens
        invariant View() == ArriveAll(old(View()), topK, xs[..i])
        invariant arrived == old(arrived) + xs[..i] && fetched == old(fetched)
        invariant old(Exact()) ==> Exact()
      {
        assert xs[..i + 1][..i] == xs[..i];
        ghost var before, all := View(), arrived;
        var id := b.meta.reqIds[i];
        if id !in held {
          held := held[id := TopKToken(id, b.meta.prefillLens[i], b.meta.ranks[i], [b.rows[i]])];
        } else {
          var t := held[id].(tensors := held[id].tensors + [b.rows[i]]);
          held := held[id := t];
          if |t.tensors| == topK {
            readyTokens := readyTokens + [t];
            held := held - {id};
          }
        }
        arrived := arrived + [xs[i]];
        assert View() == Arrive(before, topK, xs[i]);
        ArriveKeepsExact(before, fetched, topK, all, xs[i]);
      }
      assert xs[..b.meta.numTokens] == xs;
    }
  }

  lemma ArriveKeepsExact(p: Pool, emitted: seq<TopKToken>, k: nat, xs: seq<Arrival>, a: Arrival)
    ensures k >= 2 && (forall r: int :: Joined(p, emitted, k, xs, r)) ==>
      forall r: int :: Joined(Arrive(p, k, a), emitted, k, xs + [a], r)
  {
    if k >= 2 && forall r: int :: Joined(p, emitted, k, xs, r) {
      forall r: int
        ensures Joined(Arrive(p, k, a), emitted, k, xs + [a], r)
      {
        ArriveJoins(p, emitted, k, xs, a, r);
      }
    }
  }

  /** The books of an exact pool: per sequence, arrivals are k times the emissions plus fewer than k still held. */
  lemma {:induction false} ExactAccounts(p: Pool, emitted: seq<TopKToken>, k: nat, xs: seq<Arrival>, r: int)
    requires k >= 2 && Joined(p, emitted, k, xs, r)
    ensures var out := TokensFor(emitted + p.ready, r);
      var waiting := if r in p.held then p.held[r].tensors else [];
      && |ArrivalsFor(xs, r)| == k * |out| + |waiting| && |waiting| < k
      && (forall j :: 0 <= j < |out| ==> |out[j].tensors| == k)
      && Tensors(out) + waiting == Rows(ArrivalsFor(xs, r))
  {
    GroupsCount(ArrivalsFor(xs, r), k);
    GroupsKeepOrder(ArrivalsFor(xs, r), k);
  }
}
