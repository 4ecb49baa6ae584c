/** The layer choice of one simulated GPU: score every layer, take the first layer of greatest positive score. */
module LayerPolicy {
  import opened Prelude

  datatype Policy = LongestQueueFirst | DefraggingV0

  const WEIGHT_DECAY: real := 0.8
  const LOOKAHEAD_STEPS: nat := 4

  /** Decayed load of the layers i + k, i + k + 1, ... below the lookahead horizon, wrapping around. */
  function Lookahead(totals: seq<nat>, i: nat, k: nat, decay: real): (r: real)
    requires |totals| > 0
    decreases LOOKAHEAD_STEPS - k
  {
    if k >= LOOKAHEAD_STEPS then 0.0
    else Ahead(totals[(i + k) % |totals|], decay) + Lookahead(totals, i, k + 1, decay * WEIGHT_DECAY)
  }

  function Ahead(load: nat, decay: real): real {
    if load > 0 then load as real * decay else 0.0
  }

  lemma LookaheadOne(totals: seq<nat>, i: nat, k: nat, decay: real)
    requires |totals| > 0 && k < LOOKAHEAD_STEPS
    ensures Lookahead(totals, i, k, decay)
         == Ahead(totals[(i + k) % |totals|], decay) + Lookahead(totals, i, k + 1, decay * WEIGHT_DECAY)
  {
    hide Ahead;
  }

  lemma LookaheadDone(totals: seq<nat>, i: nat, decay: real)
    requires |totals| > 0
    ensures Lookahead(totals, i, LOOKAHEAD_STEPS, decay) == 0.0
  {
  }

  function LayerScore(policy: Policy, totals: seq<nat>, i: nat): real
    requires i < |totals|
  {
    match policy
    case LongestQueueFirst => totals[i] as real
    case DefraggingV0 =>
      if totals[i] == 0 then 0.0 else totals[i] as real + Lookahead(totals, i, 1, WEIGHT_DECAY)
  }

  /** The first layer below n with the greatest score, and that score; no layer when no score is positive. */
  function BestBelow(policy: Policy, totals: seq<nat>, n: nat): (r: (Option<nat>, real))
    requires n <= |totals|
    ensures r.0.Some? ==> r.0.value < n
  {
    if n == 0 then (None, 0.0)
    else
      var (best, score) := BestBelow(policy, totals, n - 1);
      var s := LayerScore(policy, totals, n - 1);
      if s > score then (Some(n - 1), s) else (best, score)
  }

  function BestLayer(policy: Policy, totals: seq<nat>): (Option<nat>, real) {
    BestBelow(policy, totals, |totals|)
  }

  lemma {:induction false} LookaheadNonNegative(totals: seq<nat>, i: nat, k: nat, decay: real)
    requires |totals| > 0 && decay >= 0.0
    ensures Lookahead(totals, i, k, decay) >= 0.0
    decreases LOOKAHEAD_STEPS - k
  {
    if k < LOOKAHEAD_STEPS {
      LookaheadNonNegative(totals, i, k + 1, decay * WEIGHT_DECAY);
    }
  }

  /** Under both policies a layer's score is positive exactly when it has queued tokens. */
  lemma ScorePositive(policy: Policy, totals: seq<nat>, i: nat)
    requires i < |totals|
    ensures LayerScore(policy, totals, i) >= 0.0
    ensures LayerScore(policy, totals, i) > 0.0 <==> totals[i] > 0
  {
    LookaheadNonNegative(totals, i, 1, WEIGHT_DECAY);
  }

  lemma {:induction false} BestBelowIsArgMax(policy: Policy, totals: seq<nat>, n: nat)
    requires n <= |totals|
    ensures var (best, score) := BestBelow(policy, totals, n);
      && (best.None? ==> score == 0.0)
      && (best.Some? ==>
            && best.value < n && score == LayerScore(policy, totals, best.value) > 0.0
            && forall j :: 0 <= j < best.value ==> LayerScore(policy, totals, j) < score)
      && (forall j :: 0 <= j < n ==> LayerScore(policy, totals, j) <= score)
  {
    if n > 0 {
      BestBelowIsArgMax(policy, totals, n - 1);
    }
  }

  /**
   * Both policies find work whenever there is any: no layer is chosen exactly when every layer is empty, and a
   * chosen layer is the first of greatest score and has queued tokens.
   */
  lemma BestLayerHasWork(policy: Policy, totals: seq<nat>)
    ensures var (best, score) := BestLayer(policy, totals);
      && (best.None? <==> forall i :: 0 <= i < |totals| ==> totals[i] == 0)
      && (best.Some? ==>
            && best.value < |totals| && totals[best.value] > 0
            && score == LayerScore(policy, totals, best.value)
            && (forall j :: 0 <= j < |totals| ==> LayerScore(policy, totals, j) <= score)
            && (forall j :: 0 <= j < best.value ==> LayerScore(policy, totals, j) < score))
  {
    BestBelowIsArgMax(policy, totals, |totals|);
    forall i | 0 <= i < |totals|
      ensures LayerScore(policy, totals, i) > 0.0 <==> totals[i] > 0
    {
      ScorePositive(policy, totals, i);
    }
  }

  /** The score of a layer with work: its own tokens, and those of the next three layers around, at 0.8 per layer. */
  lemma ScoresAre(totals: seq<nat>, i: nat)
    requires i < |totals|
    ensures LayerScore(LongestQueueFirst, totals, i) == totals[i] as real
    ensures totals[i] > 0 ==>
      LayerScore(DefraggingV0, totals, i)
      == totals[i] as real + 0.8 * totals[(i + 1) % |totals|] as real + 0.64 * totals[(i + 2) % |totals|] as real
       + 0.512 * totals[(i + 3) % |totals|] as real
  {
    LookaheadOne(totals, i, 1, WEIGHT_DECAY);
    LookaheadOne(totals, i, 2, WEIGHT_DECAY * WEIGHT_DECAY);
    LookaheadOne(totals, i, 3, WEIGHT_DECAY * WEIGHT_DECAY * WEIGHT_DECAY);
    LookaheadDone(totals, i, WEIGHT_DECAY * WEIGHT_DECAY * WEIGHT_DECAY * WEIGHT_DECAY);
    hide Lookahead;
  }
}
