/**
 * The defragmenting scheduler: a layer's score is its own work plus the decayed work, current and recent, of the layers
 * that follow it in the circular pipeline attention 0, expert 0, attention 1, expert 1, ...
 */
module DefragScheduler {
  import opened Prelude
  import opened LayerQueue
  import opened UnifiedPool

  // -------------------------------------------------------- pipeline positions

  function FromPipelinePos(pos: nat, numAttn: nat): nat {
    if pos % 2 == 0 then pos / 2 else numAttn + pos / 2
  }

  /** Both maps stay within 0, ..., n - 1 and undo each other. */
  ghost predicate MutualInverses(numAttn: nat, numExpert: nat) {
    var n := numAttn + numExpert;
    && (forall i: nat :: i < n ==> PipelinePos(i, numAttn) < n && FromPipelinePos(PipelinePos(i, numAttn), numAttn) == i)
    && (forall p: nat :: p < n ==> FromPipelinePos(p, numAttn) < n && PipelinePos(FromPipelinePos(p, numAttn), numAttn) == p)
  }

  /** The maps are inverse exactly when attention layers match expert layers or exceed them by one. */
  lemma {:induction false} InversesIff(numAttn: nat, numExpert: nat)
    ensures MutualInverses(numAttn, numExpert) <==> numExpert <= numAttn <= numExpert + 1
  {
    if numAttn > numExpert + 1 {
      assert PipelinePos(numAttn - 1, numAttn) >= numAttn + numExpert;
    } else if numExpert > numAttn {
      assert PipelinePos(numAttn + numExpert - 1, numAttn) >= numAttn + numExpert;
    }
  }

  // -------------------------------------------------------------------- scores

  ghost function Pow(w: real, k: nat): real {
    if k == 0 then 1.0 else Pow(w, k - 1) * w
  }

  ghost function Sum(xs: seq<int>): int {
    if |xs| == 0 then 0 else Sum(xs[..|xs| - 1]) + xs[|xs| - 1]
  }

  datatype Params = Params(numAttn: nat, numExpert: nat, topK: nat, lookback: nat, lookahead: int, decay: real) {
    predicate Valid() {
      topK >= 1 && numExpert <= numAttn <= numExpert + 1
    }

    function Layers(): nat {
      numAttn + numExpert
    }
  }

  /** Expert layers hold top_k copies of every token, so their work counts a top_k-th. */
  function Effective(c: Params, layer: nat, raw: int): (r: real)
    requires c.topK >= 1
    ensures r >= 0.0 && (r > 0.0 <==> raw > 0)
  {
    if raw <= 0 then 0.0
    else if layer < c.numAttn || c.topK <= 1 then raw as real
    else raw as real / c.topK as real
  }

  /** The average of a layer's history window, or zero. */
  function HistoryScore(c: Params, hist: seq<seq<int>>, sums: seq<int>, layer: nat): (r: real)
    requires |hist| == |sums| && (c.lookback > 0 ==> layer < |hist|)
    ensures r >= 0.0
  {
    if c.lookback > 0 && |hist[layer]| > 0 && sums[layer] > 0 then sums[layer] as real / |hist[layer]| as real else 0.0
  }

  /** The current and recent work of the layer k places down the pipeline. */
  function Ahead(c: Params, raw: seq<int>, hist: seq<seq<int>>, sums: seq<int>, layer: nat, k: nat): (r: real)
    requires c.Valid() && |raw| == c.Layers() && layer < |raw|
    requires |hist| == |sums| && (c.lookback > 0 ==> |hist| == |raw|)
    ensures r >= 0.0
  {
    InversesIff(c.numAttn, c.numExpert);
    var next := FromPipelinePos((PipelinePos(layer, c.numAttn) + k) % c.Layers(), c.numAttn);
    Effective(c, next, raw[next]) + HistoryScore(c, hist, sums, next)
  }

  /** The decayed work of the next m - 1 layers. */
  ghost function Lookahead(c: Params, raw: seq<int>, hist: seq<seq<int>>, sums: seq<int>, layer: nat, m: int): real
    requires c.Valid() && |raw| == c.Layers() && layer < |raw|
    requires |hist| == |sums| && (c.lookback > 0 ==> |hist| == |raw|)
    decreases m
  {
    if m <= 1 then 0.0
    else Lookahead(c, raw, hist, sums, layer, m - 1) + Ahead(c, raw, hist, sums, layer, m - 1) * Pow(c.decay, m - 1)
  }

  ghost function Score(c: Params, raw: seq<int>, hist: seq<seq<int>>, sums: seq<int>, layer: nat): real
    requires c.Valid() && |raw| == c.Layers() && layer < |raw|
    requires |hist| == |sums| && (c.lookback > 0 ==> |hist| == |raw|)
  {
    if raw[layer] <= 0 then 0.0
    else Lookahead(c, raw, hist, sums, layer, c.lookahead) + Effective(c, layer, raw[layer])
  }

  lemma LookaheadStep(c: Params, raw: seq<int>, hist: seq<seq<int>>, sums: seq<int>, layer: nat, k: nat)
    requires c.Valid() && |raw| == c.Layers() && layer < |raw|
    requires |hist| == |sums| && (c.lookback > 0 ==> |hist| == |raw|)
    ensures Lookahead(c, raw, hist, sums, layer, k + 1)
         == if k == 0 then 0.0
            else Lookahead(c, raw, hist, sums, layer, k) + Ahead(c, raw, hist, sums, layer, k) * Pow(c.decay, k)
    ensures Pow(c.decay, k + 1) == Pow(c.decay, k) * c.decay && Pow(c.decay, 0) == 1.0
    ensures forall m: int :: m <= 1 ==> Lookahead(c, raw, hist, sums, layer, m) == 0.0
  {
    hide Ahead;
  }

  lemma {:induction false} PowNonNegative(w: real, k: nat)
    requires w >= 0.0
    ensures Pow(w, k) >= 0.0
  {
    if k > 0 {
      PowNonNegative(w, k - 1);
    }
  }

  lemma NonNegativeProduct(a: real, b: real)
    requires a >= 0.0 && b >= 0.0
    ensures a * b >= 0.0
  {
  }

  lemma {:induction false} LookaheadAtLeastZero(c: Params, raw: seq<int>, hist: seq<seq<int>>, sums: seq<int>, layer: nat, m: int)
    requires c.Valid() && |raw| == c.Layers() && layer < |raw|
    requires |hist| == |sums| && (c.lookback > 0 ==> |hist| == |raw|)
    requires c.decay >= 0.0
    ensures Lookahead(c, raw, hist, sums, layer, m) >= 0.0
    decreases m
  {
    hide Ahead, Pow;
    if m > 1 {
      LookaheadAtLeastZero(c, raw, hist, sums, layer, m - 1);
      PowNonNegative(c.decay, m - 1);
      NonNegativeProduct(Ahead(c, raw, hist, sums, layer, m - 1), Pow(c.decay, m - 1));
    }
  }

  /** With a decay that is not negative, exactly the layers with work have a positive score. */
  lemma {:induction false} PositiveScoreIff(c: Params, raw: seq<int>, hist: seq<seq<int>>, sums: seq<int>, layer: nat)
    requires c.Valid() && |raw| == c.Layers() && layer < |raw|
    requires |hist| == |sums| && (c.lookback > 0 ==> |hist| == |raw|)
    requires c.decay >= 0.0
    ensures Score(c, raw, hist, sums, layer) > 0.0 <==> raw[layer] > 0
  {
    LookaheadAtLeastZero(c, raw, hist, sums, layer, c.lookahead);
  }

  /** The chosen layer: the first of maximal positive score, or -1 if no score is positive. */
  ghost predicate Best(c: Params, raw: seq<int>, hist: seq<seq<int>>, sums: seq<int>, best: int)
    requires c.Valid() && |raw| == c.Layers()
    requires |hist| == |sums| && (c.lookback > 0 ==> |hist| == |raw|)
  {
    if best < 0 then best == -1 && forall i :: 0 <= i < |raw| ==> Score(c, raw, hist, sums, i) <= 0.0
    else
      && best < |raw| && Score(c, raw, hist, sums, best) > 0.0
      && (forall i :: 0 <= i < |raw| ==> Score(c, raw, hist, sums, i) <= Score(c, raw, hist, sums, best))
      && forall i :: 0 <= i < best ==> Score(c, raw, hist, sums, i) < Score(c, raw, hist, sums, best)
  }

  /** The scheduler idles exactly when every layer is empty, and otherwise picks a layer that has work. */
  lemma {:induction false} BestHasWork(c: Params, raw: seq<int>, hist: seq<seq<int>>, sums: seq<int>, best: int)
    requires c.Valid() && |raw| == c.Layers() && c.decay >= 0.0
    requires |hist| == |sums| && (c.lookback > 0 ==> |hist| == |raw|)
    requires Best(c, raw, hist, sums, best)
    ensures best == -1 <==> forall i :: 0 <= i < |raw| ==> raw[i] <= 0
    ensures best >= 0 ==> raw[best] > 0
  {
    forall i | 0 <= i < |raw|
      ensures Score(c, raw, hist, sums, i) > 0.0 <==> raw[i] > 0
    {
      PositiveScoreIff(c, raw, hist, sums, i);
    }
  }

  /** With a negative decay a layer with work can be passed over: one token now, a busy next layer before. */
  lemma {:induction false} NegativeDecayIdles()
    ensures var c := Params(1, 1, 1, 1, 2, -1.0);
      c.Valid() && Best(c, [1, 0], [[0], [5]], [0, 5], -1)
  {
    var c := Params(1, 1, 1, 1, 2, -1.0);
    var raw, hist, sums := [1, 0], [[0], [5]], [0, 5];
    assert Ahead(c, raw, hist, sums, 0, 1) == 5.0;
    assert Pow(-1.0, 1) == -1.0 by {
      assert Pow(-1.0, 0) == 1.0;
    }
    assert Lookahead(c, raw, hist, sums, 0, 1) == 0.0;
    assert Score(c, raw, hist, sums, 0) == -4.0;
  }

  // ------------------------------------------------------ what a score is made of

  /** Work at an attention layer counts in full, at an expert layer a top_k-th; there is no negative work. */
  lemma EffectiveIs(c: Params, layer: nat, raw: int)
    requires c.topK >= 1
    ensures raw <= 0 ==> Effective(c, layer, raw) == 0.0
    ensures raw > 0 && layer < c.numAttn ==> Effective(c, layer, raw) == raw as real
    ensures raw > 0 && layer >= c.numAttn ==> Effective(c, layer, raw) * c.topK as real == raw as real
  {
  }

  /** The pipeline goes from attention to the experts of the same layer, and from there to the next layer's attention. */
  lemma PipelineOrder(c: Params, i: nat)
    requires c.Valid()
    ensures PipelinePos(0, c.numAttn) == 0 || c.numAttn == 0
    ensures i < c.numAttn && i < c.numExpert ==> PipelinePos(c.numAttn + i, c.numAttn) == PipelinePos(i, c.numAttn) + 1
    ensures i + 1 < c.numAttn && i < c.numExpert ==>
      PipelinePos(i + 1, c.numAttn) == PipelinePos(c.numAttn + i, c.numAttn) + 1
  {
  }

  /** The layer k places down the pipeline, around the circle, is the one whose work is looked at. */
  lemma AheadIs(c: Params, raw: seq<int>, hist: seq<seq<int>>, sums: seq<int>, layer: nat, k: nat, next: nat)
    requires c.Valid() && |raw| == c.Layers() && layer < |raw| && next < |raw|
    requires |hist| == |sums| && (c.lookback > 0 ==> |hist| == |raw|)
    requires PipelinePos(next, c.numAttn) == (PipelinePos(layer, c.numAttn) + k) % c.Layers()
    ensures Ahead(c, raw, hist, sums, layer, k) == Effective(c, next, raw[next]) + HistoryScore(c, hist, sums, next)
  {
    InversesIff(c.numAttn, c.numExpert);
    hide Effective, HistoryScore;
  }

  /** The work of the layers k, ..., m - 1 places down the pipeline, every further place decayed once more. */
  ghost function Discounted(c: Params, raw: seq<int>, hist: seq<seq<int>>, sums: seq<int>, layer: nat, k: nat, m: int): real
    requires c.Valid() && |raw| == c.Layers() && layer < |raw|
    requires |hist| == |sums| && (c.lookback > 0 ==> |hist| == |raw|)
    decreases m - k
  {
    if k >= m then 0.0
    else c.decay * (Ahead(c, raw, hist, sums, layer, k) + Discounted(c, raw, hist, sums, layer, k + 1, m))
  }

  lemma Regroup(decay: real, power: real, ahead: real, rest: real, further: real)
    requires rest * (power * decay) == further
    ensures decay * (ahead + rest) * power == ahead * (power * decay) + further
  {
    assert decay * (ahead + rest) * power == (ahead + rest) * (power * decay);
  }

  lemma {:induction false} DiscountedIs(c: Params, raw: seq<int>, hist: seq<seq<int>>, sums: seq<int>, layer: nat, k: nat, m: int)
    requires c.Valid() && |raw| == c.Layers() && layer < |raw| && 1 <= k <= m
    requires |hist| == |sums| && (c.lookback > 0 ==> |hist| == |raw|)
    ensures Discounted(c, raw, hist, sums, layer, k, m) * Pow(c.decay, k - 1)
         == Lookahead(c, raw, hist, sums, layer, m) - Lookahead(c, raw, hist, sums, layer, k)
    decreases m - k
  {
    hide Ahead, Lookahead, Pow;
    if k < m {
      DiscountedIs(c, raw, hist, sums, layer, k + 1, m);
      LookaheadStep(c, raw, hist, sums, layer, k);
      LookaheadStep(c, raw, hist, sums, layer, k - 1);
      Regroup(c.decay, Pow(c.decay, k - 1), Ahead(c, raw, hist, sums, layer, k),
              Discounted(c, raw, hist, sums, layer, k + 1, m),
              Lookahead(c, raw, hist, sums, layer, m) - Lookahead(c, raw, hist, sums, layer, k + 1));
    }
  }

  /** A layer with work scores that work, and that of each of the next layers decayed once for every place. */
  lemma {:induction false} ScoreIs(c: Params, raw: seq<int>, hist: seq<seq<int>>, sums: seq<int>, layer: nat)
    requires c.Valid() && |raw| == c.Layers() && layer < |raw|
    requires |hist| == |sums| && (c.lookback > 0 ==> |hist| == |raw|)
    ensures Score(c, raw, hist, sums, layer)
         == if raw[layer] <= 0 then 0.0
            else Effective(c, layer, raw[layer]) + Discounted(c, raw, hist, sums, layer, 1, c.lookahead)
  {
    hide Ahead, Lookahead, Pow, Effective;
    LookaheadStep(c, raw, hist, sums, layer, 0);
    if c.lookahead >= 1 {
      DiscountedIs(c, raw, hist, sums, layer, 1, c.lookahead);
    }
  }

  // ------------------------------------------------------------------- history

  /** The sum of a layer's entries in the last n snapshots. */
  ghost function Recent(snapshots: seq<seq<int>>, layer: nat, n: nat): int
    requires n <= |snapshots| && forall k :: 0 <= k < |snapshots| ==> layer < |snapshots[k]|
  {
    if n == 0 then 0 else snapshots[|snapshots| - n][layer] + Recent(snapshots, layer, n - 1)
  }

  lemma {:induction false} SumIsRecent(snapshots: seq<seq<int>>, layer: nat, n: nat)
    requires n <= |snapshots| && forall k :: 0 <= k < |snapshots| ==> layer < |snapshots[k]|
    ensures var column := Column(snapshots, layer); Sum(column[|column| - n..]) == Recent(snapshots, layer, n)
  {
    var column := Column(snapshots, layer);
    if n > 0 {
      SumIsRecent(snapshots, layer, n - 1);
      var window := column[|column| - n..];
      SumDropFirst(window);
      assert window[1..] == column[|column| - (n - 1)..];
    }
  }

  /** The entries of a layer in the last n snapshots are between lo and hi. */
  ghost predicate Spans(snapshots: seq<seq<int>>, layer: nat, n: nat, lo: int, hi: int)
    requires n <= |snapshots| && forall k :: 0 <= k < |snapshots| ==> layer < |snapshots[k]|
  {
    forall k :: |snapshots| - n <= k < |snapshots| ==> lo <= snapshots[k][layer] <= hi
  }

  /** A sum of n numbers lies between n times the least and n times the greatest. */
  lemma {:induction false} RecentBetween(snapshots: seq<seq<int>>, layer: nat, n: nat, lo: int, hi: int)
    requires n <= |snapshots| && forall k :: 0 <= k < |snapshots| ==> layer < |snapshots[k]|
    requires Spans(snapshots, layer, n, lo, hi)
    ensures n * lo <= Recent(snapshots, layer, n) <= n * hi
  {
    if n > 0 {
      RecentBetween(snapshots, layer, n - 1, lo, hi);
      assert n * lo == (n - 1) * lo + lo && n * hi == (n - 1) * hi + hi;
    }
  }

  /** How many snapshots a window covers. */
  function Covered(lookback: nat, recorded: nat): nat {
    if recorded < lookback then recorded else lookback
  }

  lemma AtMostQuotient(q: real, n: real, lo: real)
    requires n > 0.0 && n * lo <= q * n
    ensures lo <= q
  {
    if q < lo {
      StrictProduct(lo - q, n);
    }
  }

  lemma StrictProduct(a: real, b: real)
    requires a > 0.0 && b > 0.0
    ensures a * b > 0.0
  {
  }

  lemma TimesQuotient(x: real, n: real)
    requires n > 0.0
    ensures x / n * n == x
  {
  }

  /** Times n, the average is the sum; without entries it is zero. */
  ghost predicate IsAverage(h: real, total: int, n: nat) {
    h * n as real == total as real && (n == 0 ==> h == 0.0)
  }

  lemma AverageOf(total: int, n: nat, h: real)
    requires (n == 0 ==> h == 0.0 && total == 0) && (n > 0 ==> h == total as real / n as real)
    ensures IsAverage(h, total, n)
  {
    if n > 0 {
      TimesQuotient(total as real, n as real);
    }
  }

  lemma NonNegativeTimes(a: int, b: int)
    requires a >= 0 && b >= 0
    ensures a * b >= 0
  {
  }

  lemma ProductAsReal(a: int, b: int)
    ensures (a * b) as real == a as real * b as real
  {
  }

  /** An average lies between any bounds of its entries. */
  lemma AverageBetween(total: int, n: nat, h: real, lo: int, hi: int)
    requires n > 0 && IsAverage(h, total, n) && n * lo <= total <= n * hi
    ensures lo as real <= h <= hi as real
  {
    ProductAsReal(n, lo);
    ProductAsReal(n, hi);
    AtMostQuotient(h, n as real, lo as real);
    AtMostQuotient(-h, n as real, -(hi as real));
  }

  ghost function Column(snapshots: seq<seq<int>>, layer: nat): (r: seq<int>)
    requires forall k :: 0 <= k < |snapshots| ==> layer < |snapshots[k]|
    ensures |r| == |snapshots|
  {
    seq(|snapshots|, k requires 0 <= k < |snapshots| => snapshots[k][layer])
  }

  /** The last n elements, or all. */
  ghost function Last(xs: seq<int>, n: nat): seq<int> {
    if |xs| <= n then xs else xs[|xs| - n..]
  }

  lemma {:induction false} SumDropFirst(xs: seq<int>)
    requires |xs| > 0
    ensures Sum(xs[1..]) == Sum(xs) - xs[0]
  {
    if |xs| > 1 {
      var n := |xs| - 1;
      assert xs[1..][..n - 1] == xs[..n][1..];
      SumDropFirst(xs[..n]);
    }
  }

  lemma SumAppend(xs: seq<int>, x: int)
    ensures Sum(xs + [x]) == Sum(xs) + x
  {
    assert (xs + [x])[..|xs|] == xs;
  }

  /** Dropping the oldest entry of a full window and pushing a new one gives the new window. */
  lemma WindowStep(xs: seq<int>, x: int, n: nat)
    requires n > 0
    ensures var w := Last(xs, n);
      Last(xs + [x], n) == (if |w| >= n then w[1..] else w) + [x]
  {
  }

  /** Accumulate the decayed work down the pipeline. */
  method LookaheadScore(c: Params, raw: seq<int>, hist: seq<seq<int>>, sums: seq<int>, layer: nat) returns (r: real)
    requires c.Valid() && |raw| == c.Layers() && layer < |raw|
    requires |hist| == |sums| && (c.lookback > 0 ==> |hist| == |raw|)
    ensures r == Lookahead(c, raw, hist, sums, layer, c.lookahead)
  {
    hide Ahead, Lookahead, Pow;
    LookaheadStep(c, raw, hist, sums, layer, 0);
    r := 0.0;
    var decay, k := c.decay, 1;
    while k < c.lookahead
      invariant 1 <= k && (k <= c.lookahead || k == 1)
      invariant decay == Pow(c.decay, k)
      invariant r == Lookahead(c, raw, hist, sums, layer, k)
    {
      LookaheadStep(c, raw, hist, sums, layer, k);
      r := r + Ahead(c, raw, hist, sums, layer, k) * decay;
      decay := decay * c.decay;
      k := k + 1;
    }
  }

  lemma ColumnAppend(snapshots: seq<seq<int>>, snapshot: seq<int>, layer: nat)
    requires forall k :: 0 <= k < |snapshots| ==> layer < |snapshots[k]|
    requires layer < |snapshot|
    ensures Column(snapshots + [snapshot], layer) == Column(snapshots, layer) + [snapshot[layer]]
  {
  }

  /** Push a value into a window of at most n, keeping the running sum. */
  method PushWindow(hist: seq<int>, sum: int, x: int, n: nat, ghost all: seq<int>)
    returns (hist': seq<int>, sum': int)
    requires n > 0 && hist == Last(all, n) && sum == Sum(hist)
    ensures hist' == Last(all + [x], n) && sum' == Sum(hist')
  {
    hist', sum' := hist, sum;
    WindowStep(all, x, n);
    if |hist| >= n {
      SumDropFirst(hist);
      sum' := sum' - hist[0];
      hist' := hist[1..];
    }
    SumAppend(hist', x);
    hist' := hist' + [x];
    sum' := sum' + x;
  }

  method TotalRaw(raw: seq<int>) returns (total: int)
    requires forall i :: 0 <= i < |raw| ==> raw[i] >= 0
    ensures total == 0 <==> forall i :: 0 <= i < |raw| ==> raw[i] == 0
  {
    total := 0;
    for i := 0 to |raw|
      invariant total >= 0 && (total == 0 <==> forall k :: 0 <= k < i ==> raw[k] == 0)
    {
      total := total + raw[i];
    }
  }

  /** A layer's window holds its last snapshots, and the running sum is the sum of the window. */
  ghost predicate WindowOk(hist: seq<int>, sum: int, snapshots: seq<seq<int>>, layer: nat, n: nat)
    requires forall k :: 0 <= k < |snapshots| ==> layer < |snapshots[k]|
  {
    hist == Last(Column(snapshots, layer), n) && sum == Sum(hist)
  }

  lemma WindowIsRecent(hist: seq<int>, sum: int, snapshots: seq<seq<int>>, layer: nat, lookback: nat)
    requires forall k :: 0 <= k < |snapshots| ==> layer < |snapshots[k]|
    requires WindowOk(hist, sum, snapshots, layer, lookback)
    ensures var n := Covered(lookback, |snapshots|); |hist| == n && sum == Recent(snapshots, layer, n)
  {
    hide Sum, Recent;
    var column, n := Column(snapshots, layer), Covered(lookback, |snapshots|);
    assert hist == column[|column| - n..];
    SumIsRecent(snapshots, layer, n);
  }

  lemma HistoryOf(c: Params, hist: seq<seq<int>>, sums: seq<int>, snapshots: seq<seq<int>>, layer: nat)
    requires |hist| == |sums| && (c.lookback > 0 ==> layer < |hist|)
    requires forall k :: 0 <= k < |snapshots| ==> layer < |snapshots[k]|
    requires var n := Covered(c.lookback, |snapshots|);
      c.lookback > 0 ==> |hist[layer]| == n && sums[layer] == Recent(snapshots, layer, n)
    ensures var n := Covered(c.lookback, |snapshots|);
      var total := Recent(snapshots, layer, n);
      IsAverage(HistoryScore(c, hist, sums, layer), if total > 0 then total else 0, n)
  {
    hide IsAverage;
    var n := Covered(c.lookback, |snapshots|);
    var total := Recent(snapshots, layer, n);
    AverageOf(if total > 0 then total else 0, n, HistoryScore(c, hist, sums, layer));
  }

  lemma HistoryBetween(snapshots: seq<seq<int>>, layer: nat, n: nat, h: real, lo: int, hi: int)
    requires n <= |snapshots| && forall k :: 0 <= k < |snapshots| ==> layer < |snapshots[k]|
    requires var total := Recent(snapshots, layer, n); IsAverage(h, if total > 0 then total else 0, n)
    ensures n > 0 && 0 <= lo && Spans(snapshots, layer, n, lo, hi) ==> lo as real <= h <= hi as real
  {
    hide IsAverage, Recent, Spans;
    if n > 0 && 0 <= lo && Spans(snapshots, layer, n, lo, hi) {
      RecentBetween(snapshots, layer, n, lo, hi);
      NonNegativeTimes(n, lo);
      AverageBetween(Recent(snapshots, layer, n), n, h, lo, hi);
    }
  }

  class UnifiedDefraggingLayerScheduler {
    const base: UnifiedLayerScheduler
    const params: Params
    var histories: seq<seq<int>>
    var sums: seq<int>
    ghost var snapshots: seq<seq<int>>

    constructor (base: UnifiedLayerScheduler, lookback: nat, lookahead: int, decay: real)
      requires base.Counted() && base.numExpert <= base.numAttn <= base.numExpert + 1 && base.topK >= 1
      ensures this.base == base && Valid() && snapshots == []
      ensures params == Params(base.numAttn, base.numExpert, base.topK, lookback, lookahead, decay)
    {
      this.base := base;
      var n := base.numAttn + base.numExpert;
      params := Params(base.numAttn, base.numExpert, base.topK, lookback, lookahead, decay);
      histories := if lookback > 0 then seq(n, _ => []) else [];
      sums := if lookback > 0 then seq(n, _ => 0) else [];
      snapshots := [];
    }

    /** Every window holds a layer's last snapshots, and every running sum is the sum of its window. */
    ghost predicate Valid()
      reads this
    {
      && params.Valid() && |histories| == |sums| && |histories| == (if params.lookback > 0 then params.Layers() else 0)
      && (forall k :: 0 <= k < |snapshots| ==> |snapshots[k]| == params.Layers())
      && forall i :: 0 <= i < |histories| ==> WindowOk(histories[i], sums[i], snapshots, i, params.lookback)
    }

    /**
     * The history a score looks at is the average of a layer over the last snapshots, as many as there are up to
     * lookback; without any, or without lookback, it is nothing.
     */
    lemma HistoryIsAverage(layer: nat, lo: int, hi: int)
      requires Valid() && layer < params.Layers()
      ensures var n := Covered(params.lookback, |snapshots|);
        var h := HistoryScore(params, histories, sums, layer);
        var total := Recent(snapshots, layer, n);
        && IsAverage(h, if total > 0 then total else 0, n)
        && (n > 0 && 0 <= lo && Spans(snapshots, layer, n, lo, hi) ==> lo as real <= h <= hi as real)
    {
      var n := Covered(params.lookback, |snapshots|);
      hide Recent, IsAverage, Spans, HistoryScore, WindowOk, Covered;
      if params.lookback > 0 {
        assert WindowOk(histories[layer], sums[layer], snapshots, layer, params.lookback);
        WindowIsRecent(histories[layer], sums[layer], snapshots, layer, params.lookback);
      }
      HistoryOf(params, histories, sums, snapshots, layer);
      HistoryBetween(snapshots, layer, n, HistoryScore(params, histories, sums, layer), lo, hi);
    }

    /** Push a snapshot of effective tokens into the windows. */
    method StepEnd(snapshot: seq<int>)
      requires Valid() && |snapshot| == params.Layers()
      modifies this
      ensures Valid() && snapshots == old(snapshots) + [snapshot]
    {
      snapshots := snapshots + [snapshot];
      if params.lookback == 0 {
        return;
      }
      ghost var before := old(snapshots);
      hide Sum, Last, Column;
      for i := 0 to params.Layers()
        invariant |histories| == |sums| == params.Layers() && snapshots == before + [snapshot]
        invariant forall j :: 0 <= j < i ==> WindowOk(histories[j], sums[j], snapshots, j, params.lookback)
        invariant forall j :: i <= j < |histories| ==> WindowOk(histories[j], sums[j], before, j, params.lookback)
      {
        ColumnAppend(before, snapshot, i);
        assert WindowOk(histories[i], sums[i], before, i, params.lookback);
        var hist, sum := PushWindow(histories[i], sums[i], snapshot[i], params.lookback, Column(before, i));
        histories := histories[i := hist];
        sums := sums[i := sum];
      }
    }

    method ScoreLayer(raw: seq<int>, layer: nat) returns (score: real)
      requires Valid() && |raw| == params.Layers() && layer < |raw|
      ensures score == Score(params, raw, histories, sums, layer)
    {
      var immediate := Effective(params, layer, raw[layer]);
      if immediate <= 0.0 {
        return 0.0;
      }
      hide Lookahead, Last, Column, Sum, HistoryScore;
      var ahead := LookaheadScore(params, raw, histories, sums, layer);
      score := ahead + immediate;
    }

    method ChooseBest(raw: seq<int>) returns (best: int)
      requires Valid() && |raw| == params.Layers()
      ensures Best(params, raw, histories, sums, best)
    {
      hide Score, Last, Column, Sum;
      var scores: seq<real> := [];
      for i := 0 to |raw|
        invariant |scores| == i && forall k :: 0 <= k < i ==> scores[k] == Score(params, raw, histories, sums, k)
      {
        var score := ScoreLayer(raw, i);
        scores := scores + [score];
      }
      var maxScore := 0.0;
      best := -1;
      for i := 0 to |raw|
        invariant -1 <= best < i && maxScore >= 0.0
        invariant best >= 0 ==> maxScore > 0.0 && scores[best] == maxScore
        invariant best < 0 ==> maxScore == 0.0
        invariant forall k :: 0 <= k < i ==> scores[k] <= maxScore
        invariant forall k :: 0 <= k < best ==> scores[k] < maxScore
      {
        if scores[i] > maxScore {
          maxScore := scores[i];
          best := i;
        }
      }
    }

    /** The effective work of every layer, rounded down. */
    method Snapshot(raw: seq<int>) returns (snapshot: seq<int>)
      requires params.topK >= 1
      ensures |snapshot| == |raw|
      ensures forall i :: 0 <= i < |raw| ==> snapshot[i] == Effective(params, i, raw[i]).Floor
    {
      snapshot := [];
      for i := 0 to |raw|
        invariant |snapshot| == i && forall k :: 0 <= k < i ==> snapshot[k] == Effective(params, k, raw[k]).Floor
      {
        snapshot := snapshot + [Effective(params, i, raw[i]).Floor];
      }
    }

    /** Choose a layer and, unless idle, record the effective work of every layer. */
    method ScheduleWithSnapshot() returns (best: int, raw: seq<int>, ghost recorded: seq<seq<int>>)
      requires Valid() && base.Counted() && params.numAttn == base.numAttn && params.numExpert == base.numExpert
      modifies this
      ensures Valid() && raw == base.Tokens() && snapshots == old(snapshots) + recorded
      ensures |raw| == params.Layers() && Best(params, raw, old(histories), old(sums), best)
      ensures params.decay >= 0.0 ==> (best == -1 <==> forall i :: 0 <= i < |raw| ==> raw[i] == 0)
      ensures params.decay >= 0.0 && best >= 0 ==> raw[best] > 0
      ensures recorded == [] <==> forall i :: 0 <= i < |raw| ==> raw[i] == 0
      ensures recorded != [] ==> |recorded| == 1 && |recorded[0]| == |raw|
      ensures forall i :: recorded != [] && 0 <= i < |raw| ==> recorded[0][i] == Effective(params, i, raw[i]).Floor
    {
      hide Best, Effective;
      raw := base.GetPoolSnapshot();
      assert forall i :: 0 <= i < |raw| ==> base.layers[i].Exact();
      hide Last, Column, Sum, WindowOk;
      recorded := [];
      var total := TotalRaw(raw);
      if total == 0 {
        IdleIsBest(params, raw, histories, sums);
        best := -1;
        return;
      }
      best := ChooseBest(raw);
      if params.decay >= 0.0 {
        BestHasWork(params, raw, histories, sums, best);
      }
      var snapshot := Snapshot(raw);
      StepEnd(snapshot);
      recorded := [snapshot];
    }
  }

  lemma IdleIsBest(c: Params, raw: seq<int>, hist: seq<seq<int>>, sums: seq<int>)
    requires c.Valid() && |raw| == c.Layers() && forall i :: 0 <= i < |raw| ==> raw[i] == 0
    requires |hist| == |sums| && (c.lookback > 0 ==> |hist| == |raw|)
    ensures Best(c, raw, hist, sums, -1)
  {
  }
}
