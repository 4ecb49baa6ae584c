/**
 * Which decays keep the defragmenting scheduler from idling while there is work: exactly those under which no layer
 * contributes a negative weight over the whole lookahead.
 */
module DefragDecay {
  import opened Prelude
  import opened UnifiedPool
  import opened DefragScheduler

  /** The weight with which the layer q places down the pipeline enters a score; the lookahead may wrap around. */
  ghost function Coef(c: Params, q: nat, m: int): real
    requires c.Layers() > 0
    decreases m
  {
    if m <= 1 then 0.0 else Coef(c, q, m - 1) + if (m - 1) % c.Layers() == q then Pow(c.decay, m - 1) else 0.0
  }

  ghost predicate Consistent(c: Params, raw: seq<int>, hist: seq<seq<int>>, sums: seq<int>) {
    && |raw| == c.Layers() && |hist| == |sums| == (if c.lookback > 0 then c.Layers() else 0)
    && (forall i :: 0 <= i < |raw| ==> raw[i] >= 0)
    && forall i :: 0 <= i < |sums| ==> sums[i] == Sum(hist[i])
  }

  /** Whatever is queued and whatever was recorded, the scheduler does not idle while a layer has work. */
  ghost predicate NeverIdlesWithWork(c: Params)
    requires c.Valid()
  {
    forall raw, hist, sums :: Consistent(c, raw, hist, sums) && Best(c, raw, hist, sums, -1) ==>
      forall i :: 0 <= i < |raw| ==> raw[i] == 0
  }

  // ------------------------------------------------------ a score by weights

  ghost function Weighted(c: Params, f: seq<real>, m: int, n: nat): real
    requires c.Layers() > 0 && n <= |f|
  {
    if n == 0 then 0.0 else Weighted(c, f, m, n - 1) + f[n - 1] * Coef(c, n - 1, m)
  }

  lemma {:induction false} WeightedStep(c: Params, f: seq<real>, m: nat, n: nat)
    requires c.Layers() > 0 && n <= |f| && m >= 1
    ensures var q := m % c.Layers();
      Weighted(c, f, m + 1, n) == Weighted(c, f, m, n) + if q < n then f[q] * Pow(c.decay, m) else 0.0
  {
    if n > 0 {
      WeightedStep(c, f, m, n - 1);
      if m % c.Layers() == n - 1 {
        Distribute(f[n - 1], Coef(c, n - 1, m), Pow(c.decay, m));
      }
    }
  }

  lemma Distribute(a: real, x: real, y: real)
    ensures a * (x + y) == a * x + a * y
  {
  }

  lemma {:induction false} WeightedStart(c: Params, f: seq<real>, m: int, n: nat)
    requires c.Layers() > 0 && n <= |f| && m <= 1
    ensures Weighted(c, f, m, n) == 0.0
  {
    if n > 0 {
      WeightedStart(c, f, m, n - 1);
    }
  }

  lemma {:induction false} WeightedNonNegative(c: Params, f: seq<real>, m: int, n: nat)
    requires c.Layers() > 0 && n <= |f| && forall q :: 0 <= q < n ==> f[q] >= 0.0 && Coef(c, q, m) >= 0.0
    ensures Weighted(c, f, m, n) >= 0.0
  {
    if n > 0 {
      WeightedNonNegative(c, f, m, n - 1);
    }
  }

  lemma ModMod(a: nat, k: nat, n: nat)
    requires n > 0
    ensures (a + k) % n == (a + k % n) % n
  {
    var q := k / n;
    assert k == q * n + k % n;
    ModPlus(a + k % n, q, n);
    assert a + k == (a + k % n) + q * n;
  }

  lemma AheadWraps(c: Params, raw: seq<int>, hist: seq<seq<int>>, sums: seq<int>, layer: nat, k: nat)
    requires c.Valid() && |raw| == c.Layers() && layer < |raw|
    requires |hist| == |sums| && (c.lookback > 0 ==> |hist| == |raw|)
    ensures Ahead(c, raw, hist, sums, layer, k) == Ahead(c, raw, hist, sums, layer, k % c.Layers())
  {
    ModMod(PipelinePos(layer, c.numAttn), k, c.Layers());
  }

  lemma {:induction false} LookaheadIsWeighted(c: Params, raw: seq<int>, hist: seq<seq<int>>, sums: seq<int>, layer: nat,
                                               f: seq<real>, m: nat)
    requires c.Valid() && |raw| == c.Layers() && layer < |raw|
    requires |hist| == |sums| && (c.lookback > 0 ==> |hist| == |raw|)
    requires |f| == c.Layers() && forall q :: 0 <= q < |f| ==> f[q] == Ahead(c, raw, hist, sums, layer, q)
    ensures Lookahead(c, raw, hist, sums, layer, m) == Weighted(c, f, m, c.Layers())
  {
    hide Ahead;
    if m <= 1 {
      WeightedStart(c, f, m, c.Layers());
    } else {
      LookaheadIsWeighted(c, raw, hist, sums, layer, f, m - 1);
      WeightedStep(c, f, m - 1, c.Layers());
      AheadWraps(c, raw, hist, sums, layer, m - 1);
    }
  }

  /** Without negative weights, a layer with work scores at least that work. */
  lemma {:induction false} WorkScores(c: Params, raw: seq<int>, hist: seq<seq<int>>, sums: seq<int>, layer: nat)
    requires c.Valid() && |raw| == c.Layers() && layer < |raw|
    requires |hist| == |sums| && (c.lookback > 0 ==> |hist| == |raw|)
    requires forall q: nat :: q < c.Layers() ==> Coef(c, q, c.lookahead) >= 0.0
    requires raw[layer] > 0
    ensures Score(c, raw, hist, sums, layer) > 0.0
  {
    hide Ahead;
    if c.lookahead > 1 {
      var f := seq(c.Layers(), q requires 0 <= q < c.Layers() => Ahead(c, raw, hist, sums, layer, q));
      LookaheadIsWeighted(c, raw, hist, sums, layer, f, c.lookahead);
      WeightedNonNegative(c, f, c.lookahead, c.Layers());
    }
  }

  // ------------------------------------------------------- a state that idles

  /** One token at the first layer; a history of h at the layer q places down the pipeline. */
  lemma {:induction false} OneBusyLayer(c: Params, raw: seq<int>, hist: seq<seq<int>>, sums: seq<int>, q: nat, h: nat, m: nat)
    requires c.Valid() && c.lookback > 0 && |raw| == |hist| == |sums| == c.Layers() && q < c.Layers()
    requires forall i :: 0 <= i < |raw| ==> raw[i] == if i == 0 then 1 else 0
    requires var at := FromPipelinePos(q, c.numAttn);
      forall i :: 0 <= i < |raw| ==> |hist[i]| == 1 && sums[i] == if i == at then h else 0
    ensures Lookahead(c, raw, hist, sums, 0, m) == Coef(c, 0, m) + h as real * Coef(c, q, m)
  {
    hide Ahead;
    if m > 1 {
      OneBusyLayer(c, raw, hist, sums, q, h, m - 1);
      var k := m - 1;
      BusyAhead(c, raw, hist, sums, q, h, k);
      var p := Pow(c.decay, k);
      Distribute(h as real, Coef(c, q, k), p);
      Distribute(p, if k % c.Layers() == 0 then 1.0 else 0.0, if k % c.Layers() == q then h as real else 0.0);
    }
  }

  lemma BusyAhead(c: Params, raw: seq<int>, hist: seq<seq<int>>, sums: seq<int>, q: nat, h: nat, k: nat)
    requires c.Valid() && c.lookback > 0 && |raw| == |hist| == |sums| == c.Layers() && q < c.Layers()
    requires forall i :: 0 <= i < |raw| ==> raw[i] == if i == 0 then 1 else 0
    requires var at := FromPipelinePos(q, c.numAttn);
      forall i :: 0 <= i < |raw| ==> |hist[i]| == 1 && sums[i] == if i == at then h else 0
    ensures Ahead(c, raw, hist, sums, 0, k)
         == (if k % c.Layers() == 0 then 1.0 else 0.0) + (if k % c.Layers() == q then h as real else 0.0)
  {
    InversesIff(c.numAttn, c.numExpert);
    var p := k % c.Layers();
    var next := FromPipelinePos(p, c.numAttn);
    assert PipelinePos(0, c.numAttn) == 0 && PipelinePos(next, c.numAttn) == p;
    assert PipelinePos(FromPipelinePos(q, c.numAttn), c.numAttn) == q;
    assert next == 0 <==> p == 0;
    assert next == FromPipelinePos(q, c.numAttn) <==> p == q;
  }

  /** A weight that is negative outweighs one token once the history is large enough. */
  lemma {:induction false} IdlesWithWork(c: Params, q: nat)
    requires c.Valid() && c.lookback > 0 && q < c.Layers() && Coef(c, q, c.lookahead) < 0.0
    ensures !NeverIdlesWithWork(c)
  {
    InversesIff(c.numAttn, c.numExpert);
    var at := FromPipelinePos(q, c.numAttn);
    var h := Enough(1.0 + Coef(c, 0, c.lookahead), Coef(c, q, c.lookahead));
    var n := c.Layers();
    var raw: seq<int> := seq(n, i => if i == 0 then 1 else 0);
    var sums: seq<int> := seq(n, i => if i == at then h else 0);
    var hist: seq<seq<int>> := seq(n, i => [if i == at then h else 0]);
    forall i | 0 <= i < n
      ensures sums[i] == Sum(hist[i])
    {
      assert hist[i][..0] == [];
    }
    OneBusyLayer(c, raw, hist, sums, q, h, c.lookahead);
    assert Effective(c, 0, 1) == 1.0;
    assert Score(c, raw, hist, sums, 0) <= 0.0;
    assert Consistent(c, raw, hist, sums) && Best(c, raw, hist, sums, -1) && raw[0] != 0;
  }

  lemma Enough(a: real, b: real) returns (h: nat)
    requires b < 0.0
    ensures a + h as real * b <= 0.0
  {
    if a <= 0.0 {
      h := 0;
    } else {
      var r := a / -b;
      assert r * b == -a;
      h := r.Floor + 1;
      assert h as real >= r;
      assert (h as real - r) * b <= 0.0;
      assert h as real * b == r * b + (h as real - r) * b;
    }
  }

  /**
   * With histories in use, the scheduler never idles while there is work exactly when no weight over the lookahead is
   * negative. A decay that is not negative is enough.
   */
  lemma {:induction false} NeverIdlesIff(c: Params)
    requires c.Valid() && c.lookback > 0 && c.Layers() > 0
    ensures NeverIdlesWithWork(c) <==> forall q: nat :: q < c.Layers() ==> Coef(c, q, c.lookahead) >= 0.0
    ensures c.decay >= 0.0 ==> NeverIdlesWithWork(c)
  {
    if c.decay >= 0.0 {
      forall q: nat | q < c.Layers()
        ensures Coef(c, q, c.lookahead) >= 0.0
      {
        CoefNonNegative(c, q, c.lookahead);
      }
    }
    if forall q: nat :: q < c.Layers() ==> Coef(c, q, c.lookahead) >= 0.0 {
      forall raw, hist, sums | Consistent(c, raw, hist, sums) && Best(c, raw, hist, sums, -1)
        ensures forall i :: 0 <= i < |raw| ==> raw[i] == 0
      {
        forall i | 0 <= i < |raw|
          ensures raw[i] == 0
        {
          if raw[i] > 0 {
            WorkScores(c, raw, hist, sums, i);
          }
        }
      }
    } else {
      var q: nat :| q < c.Layers() && Coef(c, q, c.lookahead) < 0.0;
      IdlesWithWork(c, q);
    }
  }

  lemma {:induction false} CoefNonNegative(c: Params, q: nat, m: int)
    requires c.Layers() > 0 && c.decay >= 0.0
    ensures Coef(c, q, m) >= 0.0
    decreases m
  {
    if m > 1 {
      CoefNonNegative(c, q, m - 1);
      PowNonNegative(c.decay, m - 1);
    }
  }
}
