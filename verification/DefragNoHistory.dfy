/**
 * Idling without histories. The score then depends on the queues alone: a decay above -1 never lets the scheduler idle
 * while there is work, and for an even lookahead any other decay does.
 */
module DefragNoHistory {
  import opened Prelude
  import opened UnifiedPool
  import opened DefragScheduler
  import opened DefragDecay

  // ----------------------------------------------------------------- products

  lemma Positive(a: real, b: real)
    requires a > 0.0 && b > 0.0
    ensures a * b > 0.0
  {
  }

  lemma Spread(a: real, w: real)
    ensures a * (1.0 - w) == a - a * w && a * (1.0 + w) == a + a * w && w * a == a * w
  {
  }

  function Abs(x: real): real {
    if x < 0.0 then -x else x
  }

  ghost function Times(a: real, b: real): real {
    a * b
  }

  /** Multiplying by less than one makes smaller. */
  lemma SmallProduct(a: real, w: real, bound: real)
    requires -1.0 < w < 1.0 && Abs(a) <= bound && bound > 0.0
    ensures Abs(a * w) < bound && Abs(w * a) < bound
  {
    SmallTimes(a, w, bound);
    assert w * a == Times(a, w);
  }

  lemma SmallTimes(a: real, w: real, bound: real)
    requires -1.0 < w < 1.0 && Abs(a) <= bound && bound > 0.0
    ensures Abs(Times(a, w)) < bound
  {
    hide Times;
    if a > 0.0 {
      SmallPositive(a, w);
    } else if a < 0.0 {
      SmallPositive(-a, w);
      Opposite(a, w);
    } else {
      Nothing(w);
    }
  }

  lemma SmallPositive(a: real, w: real)
    requires -1.0 < w < 1.0 && a > 0.0
    ensures -a < Times(a, w) < a
  {
    Positive(a, 1.0 - w);
    assert a * (1.0 - w) == a - a * w;
    Positive(a, 1.0 + w);
    assert a * (1.0 + w) == a + a * w;
  }

  lemma Opposite(a: real, w: real)
    ensures Times(-a, w) == -Times(a, w)
  {
  }

  lemma Nothing(w: real)
    ensures Times(0.0, w) == 0.0
  {
  }

  lemma PowStep(w: real, k: nat)
    ensures Pow(w, k + 1) == Pow(w, k) * w && Pow(w, 0) == 1.0
  {
  }

  lemma {:induction false} PowSmall(w: real, k: nat)
    requires -1.0 < w < 1.0
    ensures -1.0 <= Pow(w, k) <= 1.0 && (k > 0 ==> -1.0 < Pow(w, k) < 1.0)
  {
    if k > 0 {
      PowSmall(w, k - 1);
      SmallProduct(Pow(w, k - 1), w, 1.0);
    }
  }

  // ------------------------------------------------------- around a circle of work

  ghost function Around(f: seq<real>, p: nat): real
    requires |f| > 0
  {
    f[p % |f|]
  }

  /** The decayed work of m places from p on. */
  ghost function Reach(f: seq<real>, w: real, p: nat, m: nat): real
    requires |f| > 0
  {
    if m == 0 then 0.0 else Reach(f, w, p, m - 1) + Around(f, p + (m - 1)) * Pow(w, m - 1)
  }

  lemma ReachLast(f: seq<real>, w: real, p: nat, m: nat)
    requires |f| > 0
    ensures Reach(f, w, p, m + 1) == Reach(f, w, p, m) + Around(f, p + m) * Pow(w, m)
    ensures Reach(f, w, p, 0) == 0.0
  {
    hide Around, Pow;
  }

  lemma {:induction false} ReachTurns(f: seq<real>, w: real, p: nat, q: nat, m: nat)
    requires |f| > 0 && p % |f| == q % |f|
    ensures Reach(f, w, p, m) == Reach(f, w, q, m)
  {
    hide Pow, Reach;
    if m == 0 {
      ReachLast(f, w, p, 0);
      ReachLast(f, w, q, 0);
    } else {
      ReachTurns(f, w, p, q, m - 1);
      SamePlace(p, q, m - 1, |f|);
      ReachLast(f, w, p, m - 1);
      ReachLast(f, w, q, m - 1);
    }
  }

  lemma SamePlace(p: nat, q: nat, k: nat, n: nat)
    requires n > 0 && p % n == q % n
    ensures (p + k) % n == (q + k) % n
  {
    ModMod(k, p, n);
    ModMod(k, q, n);
    assert p + k == k + p && q + k == k + q;
  }

  lemma Factor(w: real, here: real, r: real, e: real, pow: real)
    ensures here + w * (r + e * pow) == (here + w * r) + e * (pow * w)
  {
  }

  lemma Longer(w: real, here: real, r: real, e: real, pow: real, short: real, long: real, next: real)
    requires short == here + w * r && long == short + e * (pow * w) && next == r + e * pow
    ensures long == here + w * next
  {
    Factor(w, here, r, e, pow);
  }

  /** Reaching one further is the work here and the decayed reach of the next place. */
  lemma {:induction false} ReachShifts(f: seq<real>, w: real, p: nat, m: nat)
    requires |f| > 0
    ensures Reach(f, w, p, m + 1) == Around(f, p) + w * Reach(f, w, p + 1, m)
  {
    hide Around, Pow, Reach;
    if m == 0 {
      ReachLast(f, w, p, 0);
      ReachLast(f, w, p + 1, 0);
      PowStep(w, 0);
    } else {
      var k := m - 1;
      assert m == k + 1 && p + m == (p + 1) + k;
      ReachShifts(f, w, p, k);
      ReachLast(f, w, p, m);
      ReachLast(f, w, p + 1, k);
      PowStep(w, k);
      var e, pow := Around(f, p + m), Pow(w, k);
      assert Reach(f, w, p, m + 1) == Reach(f, w, p, m) + e * (pow * w);
      Longer(w, Around(f, p), Reach(f, w, p + 1, k), e, pow, Reach(f, w, p, m), Reach(f, w, p, m + 1),
             Reach(f, w, p + 1, m));
    }
  }

  /** The decayed work of infinitely many places: a whole turn, divided by what a turn loses. */
  ghost function Forever(f: seq<real>, w: real, p: nat): real
    requires |f| > 0 && -1.0 < w < 1.0
  {
    PowSmall(w, |f|);
    Reach(f, w, p, |f|) / (1.0 - Pow(w, |f|))
  }

  lemma Quotient(x: real, y: real, w: real, e: real, d: real)
    requires d > 0.0 && x == e * d + w * y
    ensures x / d == e + w * (y / d)
  {
    var a, b := x / d, y / d;
    assert a * d == x && b * d == y;
    assert (e + w * b) * d == e * d + w * (b * d);
  }

  lemma ForeverStep(f: seq<real>, w: real, p: nat)
    requires |f| > 0 && -1.0 < w < 1.0
    ensures Forever(f, w, p) == Around(f, p) + w * Forever(f, w, p + 1)
  {
    hide Pow, Reach, Around;
    var n := |f|;
    PowSmall(w, n);
    ReachShifts(f, w, p, n);
    ReachLast(f, w, p, n);
    FullTurn(f, p);
    Spread(Around(f, p), Pow(w, n));
    Quotient(Reach(f, w, p, n), Reach(f, w, p + 1, n), w, Around(f, p), 1.0 - Pow(w, n));
  }

  lemma FullTurn(f: seq<real>, p: nat)
    requires |f| > 0
    ensures Around(f, p + |f|) == Around(f, p)
  {
    ModPlus(p, 1, |f|);
    assert p + 1 * |f| == p + |f|;
  }

  lemma ForeverTurns(f: seq<real>, w: real, q: nat)
    requires |f| > 0 && -1.0 < w < 1.0
    ensures Forever(f, w, q) == Forever(f, w, q % |f|)
  {
    ReachTurns(f, w, q, q % |f|, |f|);
    hide Reach, Pow;
  }

  lemma Regroup(w: real, a: real, a': real, pow: real, pow': real, b: real)
    requires a' == a - pow * b && pow' == pow * w
    ensures w * a' == w * a - pow' * b
  {
    assert w * (a - pow * b) == w * a - (pow * w) * b;
  }

  /** A finite reach is the infinite one less the decayed infinite one from where it ends. */
  lemma {:induction false} ReachIsDifference(f: seq<real>, w: real, p: nat, m: nat)
    requires |f| > 0 && -1.0 < w < 1.0
    ensures Reach(f, w, p, m) == Forever(f, w, p) - Pow(w, m) * Forever(f, w, p + m)
    decreases m
  {
    hide Around, Pow, Forever, Reach;
    if m == 0 {
      ReachLast(f, w, p, 0);
      PowStep(w, 0);
    } else {
      ReachIsDifference(f, w, p + 1, m - 1);
      ReachShifts(f, w, p, m - 1);
      ForeverStep(f, w, p);
      PowStep(w, m - 1);
      assert p + 1 + (m - 1) == p + m;
      Regroup(w, Forever(f, w, p + 1), Reach(f, w, p + 1, m - 1), Pow(w, m - 1), Pow(w, m), Forever(f, w, p + m));
    }
  }

  lemma {:induction false} Largest(f: seq<real>, w: real, n: nat) returns (p: nat)
    requires |f| > 0 && -1.0 < w < 1.0 && 0 < n
    ensures p < n && forall q: nat :: q < n ==> Abs(Forever(f, w, q)) <= Abs(Forever(f, w, p))
  {
    hide Forever;
    if n == 1 {
      p := 0;
    } else {
      p := Largest(f, w, n - 1);
      if Abs(Forever(f, w, n - 1)) > Abs(Forever(f, w, p)) {
        p := n - 1;
      }
    }
  }

  /** Where the infinite reach is largest there is work, and every finite reach is positive. */
  lemma LargestReaches(f: seq<real>, w: real, p: nat, m: nat)
    requires |f| > 0 && -1.0 < w < 1.0 && p < |f| && m > 0
    requires forall q: nat :: q < |f| ==> f[q] >= 0.0 && Abs(Forever(f, w, q)) <= Abs(Forever(f, w, p))
    requires Forever(f, w, p) != 0.0
    ensures f[p] > 0.0 && Reach(f, w, p, m) > 0.0
  {
    hide Forever, Reach, Pow, Around, Abs;
    var here := Forever(f, w, p);
    AroundHere(f, p);
    ForeverStep(f, w, p);
    ForeverTurns(f, w, p + 1);
    LargerHere(here, Forever(f, w, p + 1), w, f[p]);
    ReachIsDifference(f, w, p, m);
    ForeverTurns(f, w, p + m);
    PowSmall(w, m);
    LargerThere(here, Forever(f, w, p + m), Pow(w, m));
  }

  lemma AroundHere(f: seq<real>, p: nat)
    requires p < |f|
    ensures Around(f, p) == f[p]
  {
  }

  lemma LargerHere(here: real, next: real, w: real, work: real)
    requires -1.0 < w < 1.0 && here != 0.0 && Abs(next) <= Abs(here) && here == work + w * next && work >= 0.0
    ensures here > 0.0 && work > 0.0
  {
    SmallProduct(next, w, Abs(here));
  }

  lemma LargerThere(here: real, there: real, pow: real)
    requires here > 0.0 && Abs(there) <= Abs(here) && -1.0 < pow < 1.0
    ensures here - pow * there > 0.0
  {
    SmallProduct(there, pow, here);
  }

  lemma SomethingForever(f: seq<real>, w: real, busy: nat)
    requires |f| > 0 && -1.0 < w < 1.0 && busy < |f| && f[busy] > 0.0
    ensures Forever(f, w, busy) != 0.0 || Forever(f, w, (busy + 1) % |f|) != 0.0
  {
    AroundHere(f, busy);
    ForeverStep(f, w, busy);
    ForeverTurns(f, w, busy + 1);
    hide Forever, Around;
  }

  /** If there is work anywhere, some place with work has a positive reach. */
  lemma SomePlaceReaches(f: seq<real>, w: real, busy: nat, m: nat) returns (p: nat)
    requires |f| > 0 && -1.0 < w < 1.0 && busy < |f| && m > 0
    requires f[busy] > 0.0 && forall q: nat :: q < |f| ==> f[q] >= 0.0
    ensures p < |f| && f[p] > 0.0 && Reach(f, w, p, m) > 0.0
  {
    hide Forever, Reach;
    p := Largest(f, w, |f|);
    SomethingForever(f, w, busy);
    LargestReaches(f, w, p, m);
  }

  // -------------------------------------------------------------------- scores

  /** The work of the layers, in pipeline order. */
  ghost function Works(c: Params, raw: seq<int>): (f: seq<real>)
    requires c.Valid() && |raw| == c.Layers()
    ensures |f| == |raw| && forall p :: 0 <= p < |f| ==> f[p] >= 0.0
  {
    InversesIff(c.numAttn, c.numExpert);
    seq(c.Layers(), p requires 0 <= p < c.Layers() =>
      Effective(c, FromPipelinePos(p, c.numAttn), raw[FromPipelinePos(p, c.numAttn)]))
  }

  /** How many layers enter a score; a layer's own always does. */
  function Span(c: Params): nat {
    if c.lookahead <= 1 then 1 else c.lookahead
  }

  lemma WorkOfLayer(c: Params, raw: seq<int>, layer: nat)
    requires c.Valid() && |raw| == c.Layers() && layer < |raw|
    ensures PipelinePos(layer, c.numAttn) < |raw|
    ensures Works(c, raw)[PipelinePos(layer, c.numAttn)] == Effective(c, layer, raw[layer])
  {
    InversesIff(c.numAttn, c.numExpert);
  }

  lemma LayerOfWork(c: Params, raw: seq<int>, p: nat) returns (layer: nat)
    requires c.Valid() && |raw| == c.Layers() && p < |raw|
    ensures layer < |raw| && PipelinePos(layer, c.numAttn) == p && Works(c, raw)[p] == Effective(c, layer, raw[layer])
  {
    InversesIff(c.numAttn, c.numExpert);
    layer := FromPipelinePos(p, c.numAttn);
  }

  lemma AheadIsAround(c: Params, raw: seq<int>, layer: nat, k: nat)
    requires c.Valid() && c.lookback == 0 && |raw| == c.Layers() && layer < |raw|
    ensures Ahead(c, raw, [], [], layer, k) == Around(Works(c, raw), PipelinePos(layer, c.numAttn) + k)
  {
    hide Effective;
  }

  lemma {:induction false} LookaheadReaches(c: Params, raw: seq<int>, layer: nat, m: nat)
    requires c.Valid() && c.lookback == 0 && |raw| == c.Layers() && layer < |raw| && m >= 1
    ensures Lookahead(c, raw, [], [], layer, m) + Effective(c, layer, raw[layer])
         == Reach(Works(c, raw), c.decay, PipelinePos(layer, c.numAttn), m)
  {
    hide Works, Effective, Ahead, Around, Reach, Pow, PipelinePos, Lookahead;
    if m == 1 {
      OwnWork(c, raw, layer);
    } else {
      LookaheadReaches(c, raw, layer, m - 1);
      OneFurther(c, raw, layer, m - 1);
    }
  }

  lemma OwnWork(c: Params, raw: seq<int>, layer: nat)
    requires c.Valid() && c.lookback == 0 && |raw| == c.Layers() && layer < |raw|
    ensures Lookahead(c, raw, [], [], layer, 1) == 0.0
    ensures Reach(Works(c, raw), c.decay, PipelinePos(layer, c.numAttn), 1) == Effective(c, layer, raw[layer])
  {
    var f, p := Works(c, raw), PipelinePos(layer, c.numAttn);
    hide Works, Effective, Around, Reach, PipelinePos, Ahead;
    WorkOfLayer(c, raw, layer);
    AroundHere(f, p);
    ReachLast(f, c.decay, p, 0);
    PowStep(c.decay, 0);
  }

  lemma OneFurther(c: Params, raw: seq<int>, layer: nat, k: nat)
    requires c.Valid() && c.lookback == 0 && |raw| == c.Layers() && layer < |raw| && k >= 1
    ensures Lookahead(c, raw, [], [], layer, k + 1) - Lookahead(c, raw, [], [], layer, k)
         == Reach(Works(c, raw), c.decay, PipelinePos(layer, c.numAttn), k + 1)
          - Reach(Works(c, raw), c.decay, PipelinePos(layer, c.numAttn), k)
  {
    hide Works, Ahead, Around, Reach, Pow, PipelinePos, Lookahead;
    LookaheadStep(c, raw, [], [], layer, k);
    AheadIsAround(c, raw, layer, k);
    ReachLast(Works(c, raw), c.decay, PipelinePos(layer, c.numAttn), k);
  }

  lemma ScoreReaches(c: Params, raw: seq<int>, layer: nat)
    requires c.Valid() && c.lookback == 0 && |raw| == c.Layers() && layer < |raw| && raw[layer] > 0
    ensures Score(c, raw, [], [], layer) == Reach(Works(c, raw), c.decay, PipelinePos(layer, c.numAttn), Span(c))
  {
    hide Reach, Effective, Works, Ahead;
    LookaheadReaches(c, raw, layer, Span(c));
  }

  /** With a decay between -1 and 1, some layer scores whenever some layer has work. */
  lemma SomeLayerScores(c: Params, raw: seq<int>, busy: nat)
    requires c.Valid() && c.lookback == 0 && -1.0 < c.decay < 1.0 && |raw| == c.Layers() && busy < |raw| && raw[busy] > 0
    ensures exists i :: 0 <= i < |raw| && Score(c, raw, [], [], i) > 0.0
  {
    hide Score, Reach, Works;
    WorkOfLayer(c, raw, busy);
    var p := SomePlaceReaches(Works(c, raw), c.decay, PipelinePos(busy, c.numAttn), Span(c));
    var i := LayerOfWork(c, raw, p);
    ScoreReaches(c, raw, i);
  }

  // ------------------------------------------------------------- decays that idle

  /** The same work at every layer. */
  ghost function Evenly(c: Params): (raw: seq<int>)
    requires c.Valid()
    ensures |raw| == c.Layers() && forall i :: 0 <= i < |raw| ==> raw[i] > 0 && Effective(c, i, raw[i]) == 1.0
  {
    assert c.topK as real / c.topK as real == 1.0;
    seq(c.Layers(), i requires 0 <= i < c.Layers() => if i < c.numAttn then 1 else c.topK as int)
  }

  /** Two more places of the same work never add to the reach when the decay is -1 or below. */
  lemma {:induction false} EvenReach(f: seq<real>, w: real, p: nat, k: nat)
    requires |f| > 0 && w <= -1.0 && forall i :: 0 <= i < |f| ==> f[i] == 1.0
    ensures Reach(f, w, p, 2 * k) <= 0.0 && Pow(w, 2 * k) >= 0.0
  {
    hide Pow, Reach;
    if k == 0 {
      ReachLast(f, w, p, 0);
      PowStep(w, 0);
    } else {
      var m := 2 * (k - 1);
      EvenReach(f, w, p, k - 1);
      ReachLast(f, w, p, m);
      ReachLast(f, w, p, m + 1);
      PowStep(w, m);
      PowStep(w, m + 1);
      PairFalls(Pow(w, m), w);
    }
  }

  lemma PairFalls(pow: real, w: real)
    requires pow >= 0.0 && w <= -1.0
    ensures pow + pow * w <= 0.0 && (pow * w) * w >= 0.0
  {
    Spread(pow, w);
    NonNegativeProduct(pow, -(1.0 + w));
    assert pow * -(1.0 + w) == -(pow * (1.0 + w));
    NonNegativeProduct(-w, -w);
    NonNegativeProduct(pow, w * w);
    assert (pow * w) * w == pow * (w * w);
  }

  lemma EvenIdles(c: Params)
    requires c.Valid() && c.Layers() > 0 && c.lookback == 0 && c.decay <= -1.0 && c.lookahead > 1 && c.lookahead % 2 == 0
    ensures !NeverIdlesWithWork(c)
  {
    hide Reach, Score, Effective;
    var raw := Evenly(c);
    forall i | 0 <= i < |raw|
      ensures Score(c, raw, [], [], i) <= 0.0
    {
      ScoreReaches(c, raw, i);
      EvenReach(Works(c, raw), c.decay, PipelinePos(i, c.numAttn), c.lookahead / 2);
    }
    assert Consistent(c, raw, [], []) && Best(c, raw, [], [], -1) && raw[0] != 0;
  }

  /**
   * Without histories a decay above -1 never lets the scheduler idle while there is work, and for an even lookahead no
   * other decay is safe. A lookahead that reaches no other layer never does either.
   */
  lemma {:induction false} NoHistoryIdles(c: Params)
    requires c.Valid() && c.lookback == 0 && c.Layers() > 0
    ensures c.decay > -1.0 || c.lookahead <= 1 || c.lookahead == 3 ==> NeverIdlesWithWork(c)
    ensures c.lookahead > 1 && c.lookahead % 2 == 0 ==> (NeverIdlesWithWork(c) <==> c.decay > -1.0)
  {
    hide Score;
    if c.decay > -1.0 || c.lookahead <= 1 || c.lookahead == 3 {
      forall raw, hist, sums | Consistent(c, raw, hist, sums) && Best(c, raw, hist, sums, -1)
        ensures forall i :: 0 <= i < |raw| ==> raw[i] == 0
      {
        assert hist == [] && sums == [];
        forall i | 0 <= i < |raw|
          ensures raw[i] == 0
        {
          if raw[i] > 0 {
            WorkIsServed(c, raw, i);
          }
        }
      }
    } else if c.lookahead % 2 == 0 {
      EvenIdles(c);
    }
  }

  lemma WorkIsServed(c: Params, raw: seq<int>, i: nat)
    requires c.Valid() && c.lookback == 0 && |raw| == c.Layers() && i < |raw| && raw[i] > 0
    requires c.decay > -1.0 || c.lookahead <= 1 || c.lookahead == 3
    ensures exists k :: 0 <= k < |raw| && Score(c, raw, [], [], k) > 0.0
  {
    if c.decay >= 0.0 {
      PositiveScoreIff(c, raw, [], [], i);
    } else if c.decay > -1.0 {
      SomeLayerScores(c, raw, i);
    } else if c.lookahead <= 1 {
      assert Score(c, raw, [], [], i) > 0.0;
    } else {
      ThreeServes(c, raw, i);
    }
  }

  // ------------------------------------------------------------- odd lookaheads

  /** Of two neighbours with work, one has a positive reach over three places; so has one whose neighbour has none. */
  lemma ThreeReach(f: seq<real>, w: real, p: nat)
    requires |f| > 0 && w < 0.0 && Around(f, p) > 0.0 && forall i :: 0 <= i < |f| ==> f[i] >= 0.0
    ensures Reach(f, w, p, 3) > 0.0 || (Around(f, p + 1) > 0.0 && Reach(f, w, p + 1, 3) > 0.0)
  {
    hide Around, Pow, Reach;
    AroundPositive(f, p + 1);
    AroundPositive(f, p + 2);
    AroundPositive(f, p + 3);
    ReachShifts(f, w, p, 3);
    ReachLast(f, w, p, 3);
    ReachThree(f, w, p);
    ThreeSigns(w, Around(f, p), Around(f, p + 1), Around(f, p + 2), Around(f, p + 3), Reach(f, w, p + 1, 3));
  }

  lemma AroundPositive(f: seq<real>, p: nat)
    requires |f| > 0 && forall i :: 0 <= i < |f| ==> f[i] >= 0.0
    ensures Around(f, p) >= 0.0
  {
  }

  lemma ReachThree(f: seq<real>, w: real, p: nat)
    requires |f| > 0
    ensures Reach(f, w, p, 3) == Around(f, p) + Around(f, p + 1) * w + Around(f, p + 2) * (w * w)
    ensures Pow(w, 3) == w * w * w
  {
    hide Around, Pow, Reach;
    ReachLast(f, w, p, 0);
    ReachLast(f, w, p, 1);
    ReachLast(f, w, p, 2);
    PowStep(w, 0);
    PowStep(w, 1);
    PowStep(w, 2);
  }

  lemma ThreeSigns(w: real, a: real, b: real, c: real, d: real, next: real)
    requires w < 0.0 && a > 0.0 && b >= 0.0 && c >= 0.0 && d >= 0.0
    requires a + b * w + c * (w * w) + d * (w * w * w) == a + w * next
    ensures a + b * w + c * (w * w) > 0.0 || (b > 0.0 && next > 0.0)
  {
    NonNegativeProduct(-w, -w);
    NonNegativeProduct(c, w * w);
    NonNegativeProduct(-w, w * w);
    NonNegativeProduct(d, -w * (w * w));
    assert d * (w * w * w) == -(d * (-w * (w * w)));
    if b > 0.0 && next <= 0.0 {
      NonNegativeProduct(-w, -next);
      assert w * next == -w * -next;
    }
  }

  lemma SamePlaceAround(f: seq<real>, p: nat)
    requires |f| > 0
    ensures p % |f| < |f| && Around(f, p) == f[p % |f|] && (p % |f|) % |f| == p % |f|
  {
  }

  lemma ThreeServes(c: Params, raw: seq<int>, i: nat)
    requires c.Valid() && c.lookback == 0 && |raw| == c.Layers() && i < |raw| && raw[i] > 0
    requires c.decay < 0.0 && c.lookahead == 3
    ensures exists k :: 0 <= k < |raw| && Score(c, raw, [], [], k) > 0.0
  {
    var f, p := Works(c, raw), PipelinePos(i, c.numAttn);
    WorkOfLayer(c, raw, i);
    hide Works, Reach, Score, Around, PipelinePos;
    AroundHere(f, p);
    ThreeReach(f, c.decay, p);
    ScoreReaches(c, raw, i);
    if Reach(f, c.decay, p, 3) <= 0.0 {
      var k := LayerOfWork(c, raw, (p + 1) % |f|);
      AroundHere(f, (p + 1) % |f|);
      SamePlaceAround(f, p + 1);
      ReachTurns(f, c.decay, p + 1, (p + 1) % |f|, 3);
      ScoreReaches(c, raw, k);
    }
  }

  /** Looking four layers ahead, three layers and a decay of -1 do idle: one token at the first. */
  lemma {:induction false} FiveIdlesOnThree()
    ensures var c := Params(2, 1, 1, 0, 5, -1.0);
      c.Valid() && Consistent(c, [1, 0, 0], [], []) && Best(c, [1, 0, 0], [], [], -1) && !NeverIdlesWithWork(c)
  {
    var c, raw := Params(2, 1, 1, 0, 5, -1.0), [1, 0, 0];
    hide Score, Sum;
    OneTokenIdles(c, raw);
    assert Best(c, raw, [], [], -1) && Consistent(c, raw, [], []) && raw[0] != 0;
  }

  lemma OneTokenIdles(c: Params, raw: seq<int>)
    requires c == Params(2, 1, 1, 0, 5, -1.0) && raw == [1, 0, 0]
    ensures forall i :: 0 <= i < 3 ==> Score(c, raw, [], [], i) <= 0.0
  {
    OneTokenWorks(c);
    hide Works, Reach, Score;
    ScoreReaches(c, raw, 0);
    FiveReach(Works(c, raw));
    NoWorkNoScore(c, raw);
  }

  lemma OneTokenWorks(c: Params)
    requires c == Params(2, 1, 1, 0, 5, -1.0)
    ensures Works(c, [1, 0, 0]) == [1.0, 0.0, 0.0]
  {
  }

  lemma NoWorkNoScore(c: Params, raw: seq<int>)
    requires c.Valid() && c.lookback == 0 && |raw| == c.Layers()
    ensures forall i :: 0 <= i < |raw| && raw[i] <= 0 ==> Score(c, raw, [], [], i) == 0.0
  {
    hide Lookahead, Effective;
  }

  lemma FiveReach(f: seq<real>)
    requires f == [1.0, 0.0, 0.0]
    ensures Reach(f, -1.0, 0, 5) == 0.0
  {
    ReachLast(f, -1.0, 0, 0);
    ReachLast(f, -1.0, 0, 1);
    ReachLast(f, -1.0, 0, 2);
    ReachLast(f, -1.0, 0, 3);
    ReachLast(f, -1.0, 0, 4);
    PowStep(-1.0, 0);
    PowStep(-1.0, 1);
    PowStep(-1.0, 2);
    hide Pow, Reach;
  }
}
