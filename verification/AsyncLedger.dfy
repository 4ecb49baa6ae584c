/**
 * Where the work of the protocol sits: how many attention jobs and how many expert copies of each token exist,
 * over all GPUs and routing processes. Each operation on a GPU changes these counts by exactly what it adds,
 * keeps the GPU's own invariant, and changes its weight, a natural number that bounds how much longer it can run
 * without new work.
 */
module AsyncLedger {
  import opened Prelude
  import opened LayerPolicy
  import opened AsyncModel

  // --------------------------------------------------------------- counts

  /** Occurrences of t in a queue. */
  ghost function Occurs(t: Token): seq<Token> -> nat {
    (q: seq<Token>) => multiset(q)[t]
  }

  ghost function LayerCopies(qs: seq<seq<Token>>, t: Token): nat {
    NatSum(qs, Occurs(t))
  }

  ghost function PhaseCopies(p: Phase, l: nat, t: Token): nat {
    if (p.Computing? || p.Forwarding?) && p.layer == l then multiset(p.batch)[t] else 0
  }

  /** Copies of t for layer l held by a GPU: queued there or in the batch it works on. */
  ghost function CopiesIn(w: Worker, l: nat, t: Token): nat {
    (if l < |w.queues| then LayerCopies(w.queues[l], t) else 0) + PhaseCopies(w.phase, l, t)
  }

  /** Attention jobs of t at layer l held by a GPU: queued or running. */
  ghost function JobsIn(w: Worker, l: nat, t: Token): nat {
    multiset(w.attention)[(l, t)] + if w.phase == Attending(l, t) then 1 else 0
  }

  ghost function WorkerCopies(l: nat, t: Token): Worker -> nat {
    (w: Worker) => CopiesIn(w, l, t)
  }

  ghost function WorkerJobs(l: nat, t: Token): Worker -> nat {
    (w: Worker) => JobsIn(w, l, t)
  }

  ghost function ProcCopies(l: nat, t: Token): Proc -> nat {
    (p: Proc) => if p.Transit? && p.layer == l && p.token == t then |p.experts| else 0
  }

  ghost function ProcJobs(l: nat, t: Token): Proc -> nat {
    (p: Proc) => if p == Routing(l, t) then 1 else 0
  }

  /** Copies of t for layer l anywhere: in transit, queued or in a batch. */
  ghost function Copies(s: State, l: nat, t: Token): nat {
    NatSum(s.core.ws, WorkerCopies(l, t)) + NatSum(s.procs, ProcCopies(l, t))
  }

  /** Attention jobs of t at layer l anywhere: queued, running, or done and not yet routed. */
  ghost function Jobs(s: State, l: nat, t: Token): nat {
    NatSum(s.core.ws, WorkerJobs(l, t)) + NatSum(s.procs, ProcJobs(l, t))
  }

  // -------------------------------------------------------------- weights

  ghost function PhaseWeight(p: Phase): nat {
    match p
    case LoopTop => 1
    case Asleep => 0
    case Attending(_, _) => 3
    case Computing(_, batch) => 3 * |batch|
    case Forwarding(_, batch) => |batch| + 1
  }

  ghost function WorkerWeight(w: Worker): nat {
    4 * |w.attention| + 4 * NatSum(w.queues, LayerLen) + PhaseWeight(w.phase)
  }

  ghost function ProcWeight(p: Proc): nat {
    match p
    case Routing(_, _) => 1
    case Transit(_, _, experts) => 5 * |experts|
  }

  ghost function Weight(s: State): nat {
    NatSum(s.core.ws, WorkerWeight) + NatSum(s.procs, ProcWeight)
  }

  // ------------------------------------------------------ worker invariant

  ghost predicate PhaseOk(c: Config, i: nat, p: Phase) {
    match p
    case LoopTop => true
    case Asleep => true
    case Attending(layer, token) => layer < c.numLayers && token.home == i
    case Computing(layer, batch) => layer < c.numLayers && 0 < |batch| <= c.maxBatch
    case Forwarding(layer, batch) => layer < c.numLayers && 0 < |batch| <= c.maxBatch
  }

  ghost predicate ShapeOk(c: Config, queues: seq<seq<seq<Token>>>) {
    |queues| == c.numLayers && forall l :: 0 <= l < |queues| ==> |queues[l]| == c.queuesPerWorker
  }

  /**
   * GPU number i is consistent: its cached total is the sum of its queue lengths, a batch is never empty or over
   * the limit, it attends only tokens it is home to, and it sleeps on an unfired event only with nothing queued
   * and on a fired one only with something queued.
   */
  ghost predicate WorkerOk(c: Config, i: nat, w: Worker) {
    && ShapeOk(c, w.queues)
    && w.total == NatSum(w.queues, LayerLen)
    && (forall j :: 0 <= j < |w.attention| ==> w.attention[j].0 < c.numLayers && w.attention[j].1.home == i)
    && PhaseOk(c, i, w.phase)
    && (w.phase.Asleep? ==> (w.triggered <==> !HasNoWork(w)))
  }

  ghost predicate ProcOk(c: Config, p: Proc) {
    && p.layer < c.numLayers
    && (p.Transit? ==> ValidExperts(c, p.experts))
  }

  // --------------------------------------------------------- worker steps

  lemma EnqueueExpertEffect(c: Config, i: nat, w: Worker, layer: nat, q: nat, t: Token)
    requires WorkerOk(c, i, w) && layer < c.numLayers && q < c.queuesPerWorker
    ensures var w' := EnqueueExpert(w, layer, q, t);
      && WorkerOk(c, i, w')
      && WorkerWeight(w') == WorkerWeight(w) + 4
      && (forall l: nat, u :: JobsIn(w', l, u) == JobsIn(w, l, u))
      && (forall l: nat, u :: CopiesIn(w', l, u) == CopiesIn(w, l, u) + if l == layer && u == t then 1 else 0)
  {
    var w' := EnqueueExpert(w, layer, q, t);
    var qs := w.queues[layer];
    var q' := qs[q] + [t];
    NatSumUpdate(qs, q, q', SeqLen);
    NatSumUpdate(w.queues, layer, qs[q := q'], LayerLen);
    forall l: nat, u
      ensures CopiesIn(w', l, u) == CopiesIn(w, l, u) + if l == layer && u == t then 1 else 0
    {
      NatSumUpdate(qs, q, q', Occurs(u));
    }
  }

  lemma EnqueueAttentionEffect(c: Config, w: Worker, layer: nat, t: Token)
    requires WorkerOk(c, t.home, w) && layer < c.numLayers
    ensures var w' := EnqueueAttention(w, layer, t);
      && WorkerOk(c, t.home, w')
      && WorkerWeight(w') == WorkerWeight(w) + 4
      && (forall l: nat, u :: JobsIn(w', l, u) == JobsIn(w, l, u) + if l == layer && u == t then 1 else 0)
      && (forall l: nat, u :: CopiesIn(w', l, u) == CopiesIn(w, l, u))
  {
  }

  lemma {:induction false} DrainLength(qs: seq<seq<Token>>, room: nat)
    ensures var (batch, rest) := Drain(qs, room);
      && |rest| == |qs|
      && LayerLen(rest) + |batch| == LayerLen(qs)
      && |batch| == Min(room, LayerLen(qs))
  {
    if |qs| > 0 {
      var k := if |qs[0]| <= room then |qs[0]| else room;
      DrainLength(qs[1..], room - k);
    }
  }

  lemma {:induction false} DrainConserves(qs: seq<seq<Token>>, room: nat, t: Token)
    ensures var (batch, rest) := Drain(qs, room); LayerCopies(rest, t) + multiset(batch)[t] == LayerCopies(qs, t)
  {
    if |qs| > 0 {
      var k := if |qs[0]| <= room then |qs[0]| else room;
      DrainConserves(qs[1..], room - k, t);
      assert qs[0] == qs[0][..k] + qs[0][k..];
    }
  }

  /** There is something queued for experts exactly when some layer has tokens. */
  lemma TotalsZero(queues: seq<seq<seq<Token>>>)
    ensures NatSum(queues, LayerLen) == 0 <==> forall i :: 0 <= i < |queues| ==> LayerTotals(queues)[i] == 0
  {
    NatSumZero(queues, LayerLen);
    assert forall i :: 0 <= i < |queues| ==> LayerTotals(queues)[i] == LayerLen(queues[i]);
  }

  lemma TakeAttentionEffect(c: Config, i: nat, w: Worker)
    requires WorkerOk(c, i, w) && w.attention != [] && (w.phase.LoopTop? || w.phase.Asleep?)
    ensures var w' := w.(attention := w.attention[1..], phase := Attending(w.attention[0].0, w.attention[0].1));
      && WorkerOk(c, i, w')
      && WorkerWeight(w') < WorkerWeight(w)
      && (forall l: nat, u :: JobsIn(w', l, u) == JobsIn(w, l, u))
      && (forall l: nat, u :: CopiesIn(w', l, u) == CopiesIn(w, l, u))
  {
    assert w.attention == [w.attention[0]] + w.attention[1..];
  }

  /** The worker after forming a batch from one layer. */
  ghost function BatchTaken(c: Config, w: Worker, layer: nat): Worker
    requires layer < |w.queues|
  {
    var (batch, rest) := Drain(w.queues[layer], c.maxBatch);
    w.(queues := w.queues[layer := rest], total := w.total - |batch|, phase := Computing(layer, batch))
  }

  lemma TakeBatchCopies(c: Config, w: Worker, layer: nat, l: nat, u: Token)
    requires layer < |w.queues| && (w.phase.LoopTop? || w.phase.Asleep?)
    ensures CopiesIn(BatchTaken(c, w, layer), l, u) == CopiesIn(w, l, u)
  {
    DrainConserves(w.queues[layer], c.maxBatch, u);
  }

  lemma TakeBatchEffect(c: Config, i: nat, w: Worker, layer: nat)
    requires c.Valid() && WorkerOk(c, i, w) && (w.phase.LoopTop? || w.phase.Asleep?)
    requires layer < c.numLayers && LayerLen(w.queues[layer]) > 0
    ensures var w' := BatchTaken(c, w, layer);
      && Drain(w.queues[layer], c.maxBatch).0 != []
      && WorkerOk(c, i, w')
      && WorkerWeight(w') < WorkerWeight(w)
  {
    var (batch, rest) := Drain(w.queues[layer], c.maxBatch);
    DrainLength(w.queues[layer], c.maxBatch);
    NatSumUpdate(w.queues, layer, rest, LayerLen);
  }

  /** With work queued, one pass of the loop body takes at least one token: it never goes round empty-handed. */
  lemma TakeTaskEffect(c: Config, i: nat, w: Worker)
    requires c.Valid() && WorkerOk(c, i, w) && !HasNoWork(w) && (w.phase.LoopTop? || w.phase.Asleep?)
    ensures var w' := TakeTask(c, w);
      && WorkerOk(c, i, w')
      && (w'.phase.Attending? || w'.phase.Computing?)
      && WorkerWeight(w') < WorkerWeight(w)
      && (forall l: nat, u :: JobsIn(w', l, u) == JobsIn(w, l, u))
      && (forall l: nat, u :: CopiesIn(w', l, u) == CopiesIn(w, l, u))
  {
    BestLayerHasWork(c.policy, LayerTotals(w.queues));
    TotalsZero(w.queues);
    match SelectTask(c, w)
    case AttentionTask =>
      TakeAttentionEffect(c, i, w);
    case ExpertTask(best) =>
      TakeBatchEffect(c, i, w, best.value);
      assert TakeTask(c, w) == BatchTaken(c, w, best.value);
      forall l: nat, u
        ensures CopiesIn(TakeTask(c, w), l, u) == CopiesIn(w, l, u)
      {
        TakeBatchCopies(c, w, best.value, l, u);
      }
  }

  /** From the top of the loop a GPU either takes a task or goes to sleep; both use up weight. */
  lemma LoopPassEffect(c: Config, i: nat, w: Worker)
    requires c.Valid() && WorkerOk(c, i, w) && w.phase.LoopTop?
    ensures var w' := LoopPass(c, w);
      && WorkerOk(c, i, w')
      && !w'.phase.LoopTop?
      && WorkerWeight(w') < WorkerWeight(w)
      && (forall l: nat, u :: JobsIn(w', l, u) == JobsIn(w, l, u))
      && (forall l: nat, u :: CopiesIn(w', l, u) == CopiesIn(w, l, u))
  {
    if !HasNoWork(w) {
      TakeTaskEffect(c, i, w);
    }
  }

  // ---------------------------------------------------------- all workers

  ghost predicate WorkersOk(c: Config, ws: seq<Worker>) {
    |ws| == c.numWorkers && forall i :: 0 <= i < |ws| ==> WorkerOk(c, i, ws[i])
  }

  ghost predicate ProcsOk(c: Config, procs: seq<Proc>) {
    forall k :: 0 <= k < |procs| ==> ProcOk(c, procs[k])
  }

  /** Replacing one GPU changes every total by the difference between the new one and the old one. */
  lemma SetWorkerEffect(s: State, i: nat, w: Worker)
    requires i < |s.core.ws|
    ensures var s' := SetWorker(s, i, w);
      var v := s.core.ws[i];
      && Weight(s') + WorkerWeight(v) == Weight(s) + WorkerWeight(w)
      && (forall l: nat, u :: Jobs(s', l, u) + JobsIn(v, l, u) == Jobs(s, l, u) + JobsIn(w, l, u))
      && (forall l: nat, u :: Copies(s', l, u) + CopiesIn(v, l, u) == Copies(s, l, u) + CopiesIn(w, l, u))
  {
    var ws := s.core.ws;
    var s' := SetWorker(s, i, w);
    var v := ws[i];
    NatSumUpdate(ws, i, w, WorkerWeight);
    forall l: nat, u
      ensures Jobs(s', l, u) + JobsIn(v, l, u) == Jobs(s, l, u) + JobsIn(w, l, u)
    {
      NatSumUpdate(ws, i, w, WorkerJobs(l, u));
    }
    forall l: nat, u
      ensures Copies(s', l, u) + CopiesIn(v, l, u) == Copies(s, l, u) + CopiesIn(w, l, u)
    {
      NatSumUpdate(ws, i, w, WorkerCopies(l, u));
    }
  }

  /** The state with its GPUs replaced. */
  function WithWorkers(s: State, ws: seq<Worker>): State {
    s.(core := s.core.(ws := ws))
  }

  /** Queueing attention for a token adds one job, on the token's home GPU, and nothing else. */
  lemma EnqueueAtEffect(c: Config, s: State, layer: nat, t: Token)
    requires WorkersOk(c, s.core.ws) && layer < c.numLayers && t.home < c.numWorkers
    ensures EnqueueAt(s.core.ws, layer, t).Ok?
    ensures var s' := WithWorkers(s, EnqueueAt(s.core.ws, layer, t).value);
      && WorkersOk(c, s'.core.ws)
      && Weight(s') == Weight(s) + 4
      && (forall l: nat, u :: Jobs(s', l, u) == Jobs(s, l, u) + if l == layer && u == t then 1 else 0)
      && (forall l: nat, u :: Copies(s', l, u) == Copies(s, l, u))
  {
    var w := s.core.ws[t.home];
    EnqueueAttentionEffect(c, w, layer, t);
    SetWorkerEffect(s, t.home, EnqueueAttention(w, layer, t));
  }

  /** Delivering a token to its experts adds as many queued copies of it as experts were chosen. */
  lemma {:induction false} DeliverAllEffect(c: Config, s: State, layer: nat, t: Token, experts: seq<nat>)
    requires c.Valid() && WorkersOk(c, s.core.ws) && layer < c.numLayers
    requires forall e :: e in experts ==> e < c.ExpertCount()
    ensures DeliverAll(c, s.core.ws, layer, t, experts).Ok?
    ensures var s' := WithWorkers(s, DeliverAll(c, s.core.ws, layer, t, experts).value);
      && WorkersOk(c, s'.core.ws)
      && Weight(s') == Weight(s) + 4 * |experts|
      && (forall l: nat, u :: Jobs(s', l, u) == Jobs(s, l, u))
      && (forall l: nat, u :: Copies(s', l, u) == Copies(s, l, u) + if l == layer && u == t then |experts| else 0)
    decreases |experts|
  {
    if experts == [] {
      assert WithWorkers(s, s.core.ws) == s;
    } else {
      var e := experts[0];
      assert e in experts;
      QuotientBelow(e, c.queuesPerWorker, c.numWorkers);
      var w := e / c.queuesPerWorker;
      var q := e % c.queuesPerWorker;
      EnqueueExpertEffect(c, w, s.core.ws[w], layer, q, t);
      var w' := EnqueueExpert(s.core.ws[w], layer, q, t);
      SetWorkerEffect(s, w, w');
      var s1 := SetWorker(s, w, w');
      assert forall x :: x in experts[1..] ==> x in experts;
      DeliverAllEffect(c, s1, layer, t, experts[1..]);
    }
  }

  lemma QuotientBelow(e: nat, q: nat, n: nat)
    requires q > 0 && e < n * q
    ensures e / q < n
  {
    if e / q >= n {
      MulMonotone(n, e / q, q);
      assert false;
    }
  }

  lemma MulMonotone(a: nat, b: nat, q: nat)
    requires a <= b
    ensures a * q <= b * q
  {
  }
}
