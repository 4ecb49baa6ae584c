/**
 * Where copies go and in which order work is served: a copy is queued at the expert it was routed to and nowhere else,
 * attention jobs and expert queues are first in, first out, and requests are spread over the GPUs in turn.
 */
module AsyncPlaces {
  import opened Prelude
  import opened LayerPolicy
  import opened AsyncModel
  import opened AsyncLedger
  import opened AsyncInvariant
  import opened AsyncTheorems

  // ------------------------------------------------------------ delivered copies

  ghost function Times(t: Token, n: nat): (r: seq<Token>)
    ensures |r| == n && forall i :: 0 <= i < n ==> r[i] == t
  {
    seq(n, _ => t)
  }

  /** The queue of an expert is the only one with its number. */
  lemma QueueOfExpert(e: nat, w: nat, q: nat, perWorker: nat)
    requires perWorker > 0 && q < perWorker
    ensures w * perWorker + q == e <==> w == e / perWorker && q == e % perWorker
  {
    DivMod(e, perWorker);
    if w * perWorker + q == e {
      PairUnique(w, q, e / perWorker, e % perWorker, perWorker);
    }
  }

  /** How often an expert was chosen. */
  ghost function Chosen(experts: seq<nat>, e: nat): nat {
    multiset(experts)[e]
  }

  /** The queue of local expert q for a layer on some GPU. */
  ghost function QueueAt(ws: seq<Worker>, w: nat, l: nat, q: nat): seq<Token> {
    if w < |ws| && l < |ws[w].queues| && q < |ws[w].queues[l]| then ws[w].queues[l][q] else []
  }

  lemma DeliverCopyPlace(c: Config, ws: seq<Worker>, layer: nat, t: Token, e: nat, w: nat, l: nat, q: nat)
    requires c.Valid() && WorkersOk(c, ws) && layer < c.numLayers && e < c.ExpertCount()
    requires w < c.numWorkers && q < c.queuesPerWorker
    ensures DeliverCopy(c, ws, layer, t, e).Ok?
    ensures var ws' := DeliverCopy(c, ws, layer, t, e).value;
      && WorkersOk(c, ws')
      && QueueAt(ws', w, l, q)
         == QueueAt(ws, w, l, q) + if l == layer && w * c.queuesPerWorker + q == e then [t] else []
  {
    hide DeliverCopy, WorkersOk, QueueAt, EnqueueExpert;
    var w0, q0 := DeliverCopyOk(c, ws, layer, t, e);
    PlaceEnqueued(ws, w0, layer, q0, t, w, l, q);
    assert w * c.queuesPerWorker + q == e <==> w == w0 && q == q0 by {
      QueueOfExpert(e, w, q, c.queuesPerWorker);
    }
  }

  lemma DeliverCopyOk(c: Config, ws: seq<Worker>, layer: nat, t: Token, e: nat) returns (w: nat, q: nat)
    requires c.Valid() && WorkersOk(c, ws) && layer < c.numLayers && e < c.ExpertCount()
    ensures w == e / c.queuesPerWorker && q == e % c.queuesPerWorker
    ensures w < |ws| && layer < |ws[w].queues| && q < |ws[w].queues[layer]|
    ensures DeliverCopy(c, ws, layer, t, e) == Ok(ws[w := EnqueueExpert(ws[w], layer, q, t)])
    ensures WorkersOk(c, ws[w := EnqueueExpert(ws[w], layer, q, t)])
  {
    QuotientBelow(e, c.queuesPerWorker, c.numWorkers);
    w, q := e / c.queuesPerWorker, e % c.queuesPerWorker;
    assert WorkerOk(c, w, ws[w]) && ShapeOk(c, ws[w].queues);
    hide WorkerOk;
    EnqueueKeepsOk(c, w, ws[w], layer, q, t);
  }

  lemma PlaceEnqueued(ws: seq<Worker>, w0: nat, layer: nat, q0: nat, t: Token, w: nat, l: nat, q: nat)
    requires w0 < |ws| && layer < |ws[w0].queues| && q0 < |ws[w0].queues[layer]|
    ensures QueueAt(ws[w0 := EnqueueExpert(ws[w0], layer, q0, t)], w, l, q)
         == QueueAt(ws, w, l, q) + if l == layer && w == w0 && q == q0 then [t] else []
  {
  }

  lemma EnqueueKeepsOk(c: Config, i: nat, w: Worker, layer: nat, q: nat, t: Token)
    requires WorkerOk(c, i, w) && layer < c.numLayers && q < c.queuesPerWorker
    ensures WorkerOk(c, i, EnqueueExpert(w, layer, q, t))
  {
    EnqueueExpertEffect(c, i, w, layer, q, t);
  }

  lemma OneTimeMore(t: Token, n: nat)
    ensures [t] + Times(t, n) == Times(t, n + 1)
  {
  }

  lemma FirstCounts(experts: seq<nat>, e: nat)
    requires |experts| > 0
    ensures Chosen(experts, e) == Chosen(experts[1..], e) + if e == experts[0] then 1 else 0
  {
    assert experts == [experts[0]] + experts[1..];
  }

  /**
   * Delivering a token: every expert queue is its old content followed by the token, once for each time its expert was
   * chosen, in the token's layer only.
   */
  lemma {:induction false} DeliverAllPlaces(c: Config, ws: seq<Worker>, layer: nat, t: Token, experts: seq<nat>,
                                            w: nat, l: nat, q: nat)
    requires c.Valid() && WorkersOk(c, ws) && layer < c.numLayers
    requires forall e :: e in experts ==> e < c.ExpertCount()
    requires w < c.numWorkers && q < c.queuesPerWorker
    ensures DeliverAll(c, ws, layer, t, experts).Ok?
    ensures var ws' := DeliverAll(c, ws, layer, t, experts).value;
      && WorkersOk(c, ws')
      && QueueAt(ws', w, l, q)
         == QueueAt(ws, w, l, q) + if l == layer then Times(t, Chosen(experts, w * c.queuesPerWorker + q)) else []
    decreases |experts|
  {
    hide WorkersOk, DeliverCopy, QueueAt, Times, Chosen;
    var at := w * c.queuesPerWorker + q;
    if experts == [] {
      NoTimes(t);
      NotChosen(at);
      assert QueueAt(ws, w, l, q) + [] == QueueAt(ws, w, l, q);
    } else {
      var e, rest := experts[0], experts[1..];
      assert e in experts && forall x :: x in rest ==> x in experts;
      DeliverCopyPlace(c, ws, layer, t, e, w, l, q);
      var ws1 := DeliverCopy(c, ws, layer, t, e).value;
      DeliverAllPlaces(c, ws1, layer, t, rest, w, l, q);
      FirstCounts(experts, at);
      OneTimeMore(t, Chosen(rest, at));
      Associate(QueueAt(ws, w, l, q), if l == layer && at == e then [t] else [],
                if l == layer then Times(t, Chosen(rest, at)) else []);
    }
  }

  lemma NotChosen(e: nat)
    ensures Chosen([], e) == 0
  {
  }

  lemma NoTimes(t: Token)
    ensures Times(t, 0) == []
  {
  }

  lemma Associate<T>(a: seq<T>, b: seq<T>, d: seq<T>)
    ensures (a + b) + d == a + (b + d) && a + [] == a && [] + d == d
  {
  }

  // ---------------------------------------------------------- first in, first out

  /** Every GPU has what it had, and perhaps more attention jobs behind the others. */
  ghost predicate Extends(ws: seq<Worker>, ws': seq<Worker>) {
    |ws'| == |ws| && forall i :: 0 <= i < |ws| ==> Extended(ws[i], ws'[i])
  }

  ghost predicate Extended(w: Worker, w': Worker) {
    w.attention <= w'.attention && w'.queues == w.queues && w'.phase == w.phase
  }

  lemma ExtendsTwice(ws: seq<Worker>, ws1: seq<Worker>, ws2: seq<Worker>)
    requires Extends(ws, ws1) && Extends(ws1, ws2)
    ensures Extends(ws, ws2)
  {
    forall i | 0 <= i < |ws|
      ensures Extended(ws[i], ws2[i])
    {
      assert Extended(ws[i], ws1[i]) && Extended(ws1[i], ws2[i]);
    }
  }

  lemma EnqueueAtExtends(ws: seq<Worker>, layer: nat, t: Token)
    ensures EnqueueAt(ws, layer, t).Ok? ==> Extends(ws, EnqueueAt(ws, layer, t).value)
  {
  }

  lemma StartExtends(c: Config, k: Core, rid: nat)
    ensures DispatchNext(c, k, rid).Ok? ==> Extends(k.ws, DispatchNext(c, k, rid).value.ws)
    ensures StartRequest(c, k, rid).Ok? ==> Extends(k.ws, StartRequest(c, k, rid).value.ws)
  {
    hide EnqueueAt, Extends;
    if rid in k.m.nextIndex && rid in k.m.home {
      EnqueueAtExtends(k.ws, 0, Token(k.m.nextTid, rid, k.m.nextIndex[rid], k.m.home[rid]));
    }
    ExtendsSame(k.ws);
    var home := k.m.nextHome % (if c.numWorkers == 0 then 1 else c.numWorkers);
    EnqueueAtExtends(k.ws, 0, Token(k.m.nextTid, rid, 0, home));
  }

  lemma ExtendsSame(ws: seq<Worker>)
    ensures Extends(ws, ws)
  {
  }

  lemma {:induction false} AdmitExtends(c: Config, k: Core)
    ensures AdmitQueued(c, k).Ok? ==> Extends(k.ws, AdmitQueued(c, k).value.ws)
    decreases |k.m.pending|
  {
    hide StartRequest, Extends;
    ExtendsSame(k.ws);
    if k.m.pending != [] && HasRoom(c, k.m) {
      var k0 := k.(m := k.m.(pending := k.m.pending[1..]));
      StartExtends(c, k0, k.m.pending[0]);
      if StartRequest(c, k0, k.m.pending[0]).Ok? {
        var k1 := StartRequest(c, k0, k.m.pending[0]).value;
        AdmitExtends(c, k1);
        if AdmitQueued(c, k1).Ok? {
          ExtendsTwice(k.ws, k1.ws, AdmitQueued(c, k1).value.ws);
        }
      }
    }
  }

  lemma HandleExtends(c: Config, k: Core, t: Token)
    ensures HandleCompletion(c, k, t).Ok? ==> Extends(k.ws, HandleCompletion(c, k, t).value.ws)
  {
    hide DispatchNext, AdmitQueued, Extends;
    var m := k.m.(completed := k.m.completed + [t]);
    StartExtends(c, k.(m := m), t.rid);
    var m1 := m.(nextIndex := m.nextIndex - {t.rid}, home := m.home - {t.rid}, finished := m.finished + [t.rid]);
    AdmitExtends(c, k.(m := m1));
  }

  lemma CompleteExtends(c: Config, s: State, layer: nat, t: Token)
    ensures CompleteCopy(c, s, layer, t).Ok? ==>
      var s' := CompleteCopy(c, s, layer, t).value;
      s'.procs == s.procs && Extends(s.core.ws, s'.core.ws)
  {
    hide HandleCompletion, EnqueueAt, Extends, Tally;
    ExtendsSame(s.core.ws);
    if layer < |s.joins| && layer < |s.fanout| {
      var r := Tally(s.joins[layer], FanoutOf(s.fanout[layer], t.tid), t, layer + 1 != c.numLayers);
      if r.Ok? && r.value.released.Some? {
        HandleExtends(c, s.core, r.value.released.value);
        EnqueueAtExtends(s.core.ws, layer + 1, r.value.released.value);
      }
    }
  }

  lemma ArriveExtends(c: Config, k: Core, rid: nat)
    ensures AdmitRequest(c, k, rid).Ok? ==> Extends(k.ws, AdmitRequest(c, k, rid).value.ws)
  {
    hide StartRequest, Extends;
    ExtendsSame(k.ws);
    StartExtends(c, k, rid);
  }

  /** Attention jobs join at the end; the one that is taken is the first. */
  ghost predicate AttentionFifo(w: Worker, w': Worker) {
    || w.attention <= w'.attention
    || (w.attention != [] && w'.attention == w.attention[1..]
        && w'.phase == Attending(w.attention[0].0, w.attention[0].1))
  }

  /** The first tokens of each queue, as many as its cut says, queue after queue. */
  ghost function Fronts(qs: seq<seq<Token>>, cuts: seq<nat>): seq<Token>
    requires |cuts| == |qs| && forall q :: 0 <= q < |qs| ==> cuts[q] <= |qs[q]|
  {
    if |qs| == 0 then [] else qs[0][..cuts[0]] + Fronts(qs[1..], cuts[1..])
  }

  /** A batch takes a front of every queue of a layer, each queue whole before the next, and as many as it may. */
  ghost predicate BatchFrom(qs: seq<seq<Token>>, room: nat, cuts: seq<nat>, batch: seq<Token>, rest: seq<seq<Token>>) {
    && |cuts| == |rest| == |qs| && (forall q :: 0 <= q < |qs| ==> cuts[q] <= |qs[q]|)
    && (forall q :: 0 <= q < |qs| ==> rest[q] == qs[q][cuts[q]..])
    && (forall p, q :: 0 <= p < q < |qs| && cuts[p] < |qs[p]| ==> cuts[q] == 0)
    && batch == Fronts(qs, cuts) && |batch| == Min(room, LayerLen(qs))
  }

  ghost predicate ExpertsFifo(c: Config, w: Worker, w': Worker) {
    || (|w'.queues| == |w.queues| && forall l :: 0 <= l < |w.queues| ==>
          |w'.queues[l]| == |w.queues[l]| && forall q :: 0 <= q < |w.queues[l]| ==> w.queues[l][q] <= w'.queues[l][q])
    || (exists layer: nat, cuts: seq<nat> :: Takes(c, w, w', layer, cuts))
  }

  ghost predicate Takes(c: Config, w: Worker, w': Worker, layer: nat, cuts: seq<nat>) {
    && layer < |w.queues| == |w'.queues| && w'.queues == w.queues[layer := w'.queues[layer]]
    && w'.phase.Computing? && w'.phase.layer == layer
    && BatchFrom(w.queues[layer], c.maxBatch, cuts, w'.phase.batch, w'.queues[layer])
  }

  lemma {:induction false} DrainsFronts(qs: seq<seq<Token>>, room: nat) returns (cuts: seq<nat>)
    ensures BatchFrom(qs, room, cuts, Drain(qs, room).0, Drain(qs, room).1)
  {
    hide BatchFrom;
    if |qs| == 0 {
      cuts := [];
      EmptyBatch(room);
    } else {
      var k := if |qs[0]| <= room then |qs[0]| else room;
      var more := DrainsFronts(qs[1..], room - k);
      cuts := [k] + more;
      var (batch, rest) := Drain(qs[1..], room - k);
      FrontBatch(qs, room, k, more, batch, rest);
    }
  }

  lemma EmptyBatch(room: nat)
    ensures BatchFrom([], room, [], [], [])
  {
  }

  lemma FrontBatch(qs: seq<seq<Token>>, room: nat, k: nat, more: seq<nat>, batch: seq<Token>, rest: seq<seq<Token>>)
    requires |qs| > 0 && k == (if |qs[0]| <= room then |qs[0]| else room) && BatchFrom(qs[1..], room - k, more, batch, rest)
    ensures BatchFrom(qs, room, [k] + more, qs[0][..k] + batch, [qs[0][k..]] + rest)
  {
    var cuts := [k] + more;
    assert cuts[1..] == more;
    assert forall q :: 0 < q < |qs| ==> qs[q] == qs[1..][q - 1] && cuts[q] == more[q - 1];
    if k < |qs[0]| {
      NoRoom(qs[1..], more);
    }
    assert LayerLen(qs) == |qs[0]| + LayerLen(qs[1..]);
    hide LayerLen;
  }

  lemma {:induction false} NoRoom(qs: seq<seq<Token>>, cuts: seq<nat>)
    requires |cuts| == |qs| && (forall q :: 0 <= q < |qs| ==> cuts[q] <= |qs[q]|) && |Fronts(qs, cuts)| == 0
    ensures forall q :: 0 <= q < |qs| ==> cuts[q] == 0
  {
    if |qs| > 0 {
      NoRoom(qs[1..], cuts[1..]);
      assert forall q :: 0 < q < |qs| ==> cuts[q] == cuts[1..][q - 1];
    }
  }

  /** A GPU that takes a task takes the first attention job, or the front of the queues of a layer. */
  lemma TaskFifo(c: Config, w: Worker)
    ensures AttentionFifo(w, TakeTask(c, w)) && ExpertsFifo(c, w, TakeTask(c, w))
  {
    hide AttentionFifo, ExpertsFifo, BatchFrom, Drain;
    match SelectTask(c, w)
    case AttentionTask =>
      FirstJobTaken(c, w);
    case ExpertTask(best) =>
      if best.None? {
        Unchanged(c, w, w.(phase := LoopTop));
      } else {
        var cuts := DrainsFronts(w.queues[best.value], c.maxBatch);
        var (batch, rest) := Drain(w.queues[best.value], c.maxBatch);
        BatchFifo(c, w, best.value, cuts, batch, rest);
      }
  }

  lemma FirstJobTaken(c: Config, w: Worker)
    requires w.attention != []
    ensures var w' := w.(attention := w.attention[1..], phase := Attending(w.attention[0].0, w.attention[0].1));
      AttentionFifo(w, w') && ExpertsFifo(c, w, w')
  {
  }

  lemma BatchFifo(c: Config, w: Worker, layer: nat, cuts: seq<nat>, batch: seq<Token>, rest: seq<seq<Token>>)
    requires layer < |w.queues| && BatchFrom(w.queues[layer], c.maxBatch, cuts, batch, rest)
    ensures var w' := w.(queues := w.queues[layer := rest], total := w.total - |batch|,
                         phase := if batch == [] then LoopTop else Computing(layer, batch));
      AttentionFifo(w, w') && ExpertsFifo(c, w, w')
  {
    var w' := w.(queues := w.queues[layer := rest], total := w.total - |batch|,
                 phase := if batch == [] then LoopTop else Computing(layer, batch));
    if batch == [] {
      NoRoom(w.queues[layer], cuts);
      assert rest == w.queues[layer];
      assert w'.queues == w.queues;
      Unchanged(c, w, w');
    } else {
      hide BatchFrom;
      assert Takes(c, w, w', layer, cuts);
    }
  }

  lemma DeliverFifo(c: Config, ws: seq<Worker>, layer: nat, t: Token, e: nat)
    ensures DeliverCopy(c, ws, layer, t, e).Ok? ==> Grown(ws, DeliverCopy(c, ws, layer, t, e).value)
  {
    if DeliverCopy(c, ws, layer, t, e).Ok? {
      var w, q := e / c.queuesPerWorker, e % c.queuesPerWorker;
      EnqueueGrows(ws[w], layer, q, t);
      hide EnqueueExpert, GrownWorker;
      forall i | 0 <= i < |ws|
        ensures GrownWorker(ws[i], ws[w := EnqueueExpert(ws[w], layer, q, t)][i])
      {
        GrowsNot(ws[i]);
      }
    }
  }

  lemma EnqueueGrows(w: Worker, layer: nat, q: nat, t: Token)
    requires layer < |w.queues| && q < |w.queues[layer]|
    ensures GrownWorker(w, EnqueueExpert(w, layer, q, t))
  {
  }

  lemma GrowsNot(w: Worker)
    ensures GrownWorker(w, w)
  {
  }

  /** Every GPU's queues are what they were, with perhaps more behind. */
  ghost predicate Grown(ws: seq<Worker>, ws': seq<Worker>) {
    |ws'| == |ws| && forall i :: 0 <= i < |ws| ==> GrownWorker(ws[i], ws'[i])
  }

  ghost predicate GrownWorker(w: Worker, w': Worker) {
    && w.attention == w'.attention && w'.phase == w.phase && |w'.queues| == |w.queues|
    && forall l :: 0 <= l < |w.queues| ==>
      |w'.queues[l]| == |w.queues[l]| && forall q :: 0 <= q < |w.queues[l]| ==> w.queues[l][q] <= w'.queues[l][q]
  }

  lemma GrownTwice(ws: seq<Worker>, ws1: seq<Worker>, ws2: seq<Worker>)
    requires Grown(ws, ws1) && Grown(ws1, ws2)
    ensures Grown(ws, ws2)
  {
    forall i | 0 <= i < |ws|
      ensures GrownWorker(ws[i], ws2[i])
    {
      assert GrownWorker(ws[i], ws1[i]) && GrownWorker(ws1[i], ws2[i]);
    }
  }

  lemma {:induction false} DeliverAllFifo(c: Config, ws: seq<Worker>, layer: nat, t: Token, experts: seq<nat>)
    ensures DeliverAll(c, ws, layer, t, experts).Ok? ==> Grown(ws, DeliverAll(c, ws, layer, t, experts).value)
    decreases |experts|
  {
    if experts != [] {
      hide DeliverCopy, Grown;
      DeliverFifo(c, ws, layer, t, experts[0]);
      if DeliverCopy(c, ws, layer, t, experts[0]).Ok? {
        var ws1 := DeliverCopy(c, ws, layer, t, experts[0]).value;
        DeliverAllFifo(c, ws1, layer, t, experts[1..]);
        if DeliverAll(c, ws1, layer, t, experts[1..]).Ok? {
          GrownTwice(ws, ws1, DeliverAll(c, ws1, layer, t, experts[1..]).value);
        }
      }
    }
  }

  /** On every GPU and in every step, attention jobs and the tokens of each expert queue leave in the order they came. */
  lemma ServedInOrder(c: Config, s: State, l: Label, s': State, i: nat)
    requires IsStep(c, s, l, s') && i < |s.core.ws|
    ensures |s'.core.ws| == |s.core.ws|
    ensures AttentionFifo(s.core.ws[i], s'.core.ws[i]) && ExpertsFifo(c, s.core.ws[i], s'.core.ws[i])
  {
    hide AdmitRequest, CompleteCopy, DeliverAll, TakeTask, AttentionFifo, ExpertsFifo, Extended, GrownWorker, ForwardedWorker;
    var ws := s.core.ws;
    Unchanged(c, ws[i], ws[i]);
    match l
    case Arrive =>
      ArriveExtends(c, s.core, s.arrived);
      ExtendedFifo(c, ws[i], s'.core.ws[i]);
    case Pass(w) =>
      TaskFifo(c, ws[w]);
      Unchanged(c, ws[w], ws[w].(triggered := false, phase := Asleep));
    case Wake(w) =>
      TaskFifo(c, ws[w]);
    case AttentionDone(w) =>
      Unchanged(c, ws[w], ws[w].(phase := LoopTop));
    case ComputeDone(w) =>
      Unchanged(c, ws[w], ws[w].(phase := Forwarding(ws[w].phase.layer, ws[w].phase.batch)));
    case Forward(w) =>
      var p := ws[w].phase;
      ForwardedSame(ws[w]);
      CompleteExtends(c, SetWorker(s, w, ForwardedWorker(ws[w])), p.layer, p.batch[0]);
      var w1 := SetWorker(s, w, ForwardedWorker(ws[w])).core.ws[i];
      assert Extended(w1, s'.core.ws[i]);
      FrameFifo(c, ws[i], w1, s'.core.ws[i]);
    case Route(k, experts) =>
    case Deliver(k) =>
      var p := s.procs[k];
      DeliverAllFifo(c, ws, p.layer, p.token, p.experts);
      assert GrownWorker(ws[i], s'.core.ws[i]);
      GrownFifo(c, ws[i], s'.core.ws[i]);
  }

  /** A computed batch is handed on whole and in order, the first token first. */
  lemma BatchForwarded(c: Config, s: State, l: Label, s': State, i: nat)
    requires IsStep(c, s, l, s') && i < |s.core.ws|
    ensures |s'.core.ws| == |s.core.ws|
    ensures var p, p' := s.core.ws[i].phase, s'.core.ws[i].phase;
      && (p.Computing? ==> p' == if l == ComputeDone(i) then Forwarding(p.layer, p.batch) else p)
      && (p.Forwarding? ==> p' == if l != Forward(i) then p else if |p.batch| == 1 then LoopTop
                                  else Forwarding(p.layer, p.batch[1..]))
  {
    hide AdmitRequest, CompleteCopy, DeliverAll, TakeTask, Extended, GrownWorker;
    var ws := s.core.ws;
    match l
    case Arrive =>
      ArriveExtends(c, s.core, s.arrived);
      assert Extended(ws[i], s'.core.ws[i]);
      SamePhase(ws[i], s'.core.ws[i]);
    case Pass(w) =>
    case Wake(w) =>
    case AttentionDone(w) =>
    case ComputeDone(w) =>
    case Forward(w) =>
      var p := ws[w].phase;
      CompleteExtends(c, SetWorker(s, w, ForwardedWorker(ws[w])), p.layer, p.batch[0]);
      var w1 := SetWorker(s, w, ForwardedWorker(ws[w])).core.ws[i];
      assert Extended(w1, s'.core.ws[i]);
      SamePhase(w1, s'.core.ws[i]);
    case Route(k, experts) =>
    case Deliver(k) =>
      var p := s.procs[k];
      DeliverAllFifo(c, ws, p.layer, p.token, p.experts);
      assert GrownWorker(ws[i], s'.core.ws[i]);
      SamePhase(ws[i], s'.core.ws[i]);
  }

  lemma SamePhase(w: Worker, w': Worker)
    ensures Extended(w, w') || GrownWorker(w, w') ==> w'.phase == w.phase
  {
  }

  lemma ForwardedSame(w: Worker)
    requires w.phase.Forwarding? && w.phase.batch != []
    ensures ForwardedWorker(w).attention == w.attention && ForwardedWorker(w).queues == w.queues
  {
  }

  lemma Unchanged(c: Config, w: Worker, w': Worker)
    requires w'.attention == w.attention && w'.queues == w.queues
    ensures AttentionFifo(w, w') && ExpertsFifo(c, w, w')
  {
  }

  lemma ExtendedFifo(c: Config, w: Worker, w': Worker)
    requires Extended(w, w')
    ensures AttentionFifo(w, w') && ExpertsFifo(c, w, w')
  {
  }

  lemma FrameFifo(c: Config, w: Worker, w1: Worker, w': Worker)
    requires w1.attention == w.attention && w1.queues == w.queues && Extended(w1, w')
    ensures AttentionFifo(w, w') && ExpertsFifo(c, w, w')
  {
  }

  lemma GrownFifo(c: Config, w: Worker, w': Worker)
    requires GrownWorker(w, w')
    ensures AttentionFifo(w, w') && ExpertsFifo(c, w, w')
  {
  }

  // -------------------------------------------------------- copies and their routes

  /** Copies a routing step sends a token to an expert of a layer. */
  ghost function RoutesNow(s: State, l: Label, layer: nat, t: Token, e: nat): nat {
    if l.Route? && l.k < |s.procs| && s.procs[l.k] == Routing(layer, t) then Chosen(l.experts, e) else 0
  }

  /** Copies of a token routed to an expert of a layer in a run. */
  ghost function RoutedTo(states: seq<State>, labels: seq<Label>, layer: nat, t: Token, e: nat): nat
    requires |states| == |labels| + 1
    decreases |labels|
  {
    if |labels| == 0 then 0
    else
      var n := |labels| - 1;
      RoutedTo(states[..n + 1], labels[..n], layer, t, e) + RoutesNow(states[n], labels[n], layer, t, e)
  }

  ghost function OnTheWay(layer: nat, t: Token, e: nat): Proc -> nat {
    (p: Proc) => if p.Transit? && p.layer == layer && p.token == t then Chosen(p.experts, e) else 0
  }

  /** Copies queued for an expert, and copies on the way to it. */
  ghost function HeldFor(s: State, w: nat, q: nat, e: nat, layer: nat, t: Token): nat {
    Occurs(t)(QueueAt(s.core.ws, w, layer, q)) + NatSum(s.procs, OnTheWay(layer, t, e))
  }

  lemma SuffixOccurs(xs: seq<Token>, k: nat, t: Token)
    requires k <= |xs|
    ensures Occurs(t)(xs[k..]) <= Occurs(t)(xs)
  {
    assert xs == xs[..k] + xs[k..];
  }

  lemma TimesOccurs(xs: seq<Token>, u: Token, n: nat, t: Token)
    ensures Occurs(t)(xs + Times(u, n)) == Occurs(t)(xs) + if t == u then n else 0
  {
    OnlyTimes(u, n, t);
  }

  lemma {:induction false} OnlyTimes(u: Token, n: nat, t: Token)
    ensures multiset(Times(u, n))[t] == if t == u then n else 0
  {
    if n > 0 {
      OnlyTimes(u, n - 1, t);
      assert Times(u, n) == Times(u, n - 1) + [u];
    }
  }

  /** A GPU that takes a task keeps of each queue what is behind its front. */
  lemma TaskLeaves(c: Config, ws: seq<Worker>, i: nat, w: nat, l: nat, q: nat, t: Token)
    requires i < |ws|
    ensures Occurs(t)(QueueAt(ws[i := TakeTask(c, ws[i])], w, l, q)) <= Occurs(t)(QueueAt(ws, w, l, q))
  {
    match SelectTask(c, ws[i])
    case AttentionTask =>
    case ExpertTask(best) =>
      if best.Some? {
        var layer := best.value;
        var cuts := DrainsFronts(ws[i].queues[layer], c.maxBatch);
        hide Drain;
        if w == i && l == layer && q < |ws[i].queues[layer]| {
          SuffixOccurs(ws[i].queues[layer][q], cuts[q], t);
        }
      }
  }

  lemma SameQueues(ws: seq<Worker>, ws': seq<Worker>, w: nat, l: nat, q: nat)
    requires |ws'| == |ws| && forall i :: 0 <= i < |ws| ==> ws'[i].queues == ws[i].queues
    ensures QueueAt(ws', w, l, q) == QueueAt(ws, w, l, q)
  {
  }

  lemma ExtendsQueues(ws: seq<Worker>, ws': seq<Worker>, w: nat, l: nat, q: nat)
    requires Extends(ws, ws')
    ensures QueueAt(ws', w, l, q) == QueueAt(ws, w, l, q)
  {
    forall i | 0 <= i < |ws|
      ensures ws'[i].queues == ws[i].queues
    {
      assert Extended(ws[i], ws'[i]);
    }
    SameQueues(ws, ws', w, l, q);
  }

  lemma ForwardQueues(c: Config, s: State, i: nat, s': State, w: nat, l: nat, q: nat)
    requires IsStep(c, s, Forward(i), s')
    ensures QueueAt(s'.core.ws, w, l, q) == QueueAt(s.core.ws, w, l, q) && s'.procs == s.procs
  {
    hide CompleteCopy, Extends, QueueAt;
    var ws := s.core.ws;
    var s1 := SetWorker(s, i, ForwardedWorker(ws[i]));
    CompleteExtends(c, s1, ws[i].phase.layer, ws[i].phase.batch[0]);
    ExtendsQueues(s1.core.ws, s'.core.ws, w, l, q);
    SameQueues(ws, s1.core.ws, w, l, q);
  }

  lemma RouteHeld(c: Config, s: State, l: Label, s': State, layer: nat, t: Token, e: nat)
    requires IsStep(c, s, l, s') && l.Route?
    ensures s'.core == s.core
    ensures NatSum(s'.procs, OnTheWay(layer, t, e)) == NatSum(s.procs, OnTheWay(layer, t, e)) + RoutesNow(s, l, layer, t, e)
  {
    var p := s.procs[l.k];
    NatSumUpdate(s.procs, l.k, Transit(p.layer, p.token, l.experts), OnTheWay(layer, t, e));
  }

  lemma DeliverHeld(c: Config, s: State, k: nat, s': State, w: nat, q: nat, layer: nat, t: Token)
    requires c.Valid() && WorkersOk(c, s.core.ws) && ProcsOk(c, s.procs) && IsStep(c, s, Deliver(k), s')
    requires w < c.numWorkers && q < c.queuesPerWorker
    ensures HeldFor(s', w, q, w * c.queuesPerWorker + q, layer, t) == HeldFor(s, w, q, w * c.queuesPerWorker + q, layer, t)
  {
    var p, e := s.procs[k], w * c.queuesPerWorker + q;
    assert ProcOk(c, p);
    DeliverAllPlaces(c, s.core.ws, p.layer, p.token, p.experts, w, layer, q);
    NatSumRemove(s.procs, k, OnTheWay(layer, t, e));
    hide WorkersOk, ProcsOk, DeliverAll, QueueAt, Times, Chosen, Occurs;
    TimesOccurs(QueueAt(s.core.ws, w, layer, q), p.token, Chosen(p.experts, e), t);
    Associate(QueueAt(s.core.ws, w, layer, q), [], []);
  }

  /** One step: only routing adds to what is held for an expert, and it adds what it routes there. */
  lemma StepHeld(c: Config, s: State, l: Label, s': State, w: nat, q: nat, layer: nat, t: Token)
    requires c.Valid() && WorkersOk(c, s.core.ws) && ProcsOk(c, s.procs) && IsStep(c, s, l, s')
    requires w < c.numWorkers && q < c.queuesPerWorker
    ensures var e := w * c.queuesPerWorker + q;
      HeldFor(s', w, q, e, layer, t) <= HeldFor(s, w, q, e, layer, t) + RoutesNow(s, l, layer, t, e)
  {
    hide AdmitRequest, CompleteCopy, DeliverAll, TakeTask, QueueAt, WorkersOk, ProcsOk, ForwardedWorker, Extends;
    var e, ws := w * c.queuesPerWorker + q, s.core.ws;
    match l
    case Arrive =>
      ArriveExtends(c, s.core, s.arrived);
      ExtendsQueues(ws, s'.core.ws, w, layer, q);
    case Pass(i) =>
      TaskLeaves(c, ws, i, w, layer, q, t);
      SameQueues(ws, ws[i := ws[i].(triggered := false, phase := Asleep)], w, layer, q);
    case Wake(i) =>
      TaskLeaves(c, ws, i, w, layer, q, t);
    case AttentionDone(i) =>
      SameQueues(ws, s'.core.ws, w, layer, q);
      NatSumAppend(s.procs, Routing(ws[i].phase.layer, ws[i].phase.token), OnTheWay(layer, t, e));
    case ComputeDone(i) =>
      SameQueues(ws, s'.core.ws, w, layer, q);
    case Forward(i) =>
      ForwardQueues(c, s, i, s', w, layer, q);
    case Route(k, experts) =>
      RouteHeld(c, s, l, s', layer, t, e);
    case Deliver(k) =>
      DeliverHeld(c, s, k, s', w, q, layer, t);
  }

  /**
   * In every run, a copy of a token queued at local expert q of GPU w was routed to expert w * queuesPerWorker + q: at
   * no time are more copies queued there, or on the way there, than the router sent to that expert.
   */
  lemma {:induction false} CopiesWhereRouted(c: Config, states: seq<State>, labels: seq<Label>, w: nat, q: nat, layer: nat,
                                             t: Token)
    requires c.Valid() && IsRun(c, states, labels) && w < c.numWorkers && q < c.queuesPerWorker
    ensures var e := w * c.queuesPerWorker + q;
      HeldFor(states[|labels|], w, q, e, layer, t) <= RoutedTo(states, labels, layer, t, e)
    decreases |labels|
  {
    hide HeldFor, RoutesNow, WorkersOk, ProcsOk, IsStep;
    var e := w * c.queuesPerWorker + q;
    if |labels| == 0 {
      NothingHeld(c, w, q, e, layer, t);
    } else {
      var n := |labels| - 1;
      assert IsRun(c, states[..n + 1], labels[..n]) by {
        assert forall i :: 0 <= i < n ==> IsStep(c, states[i], labels[i], states[i + 1]);
      }
      CopiesWhereRouted(c, states[..n + 1], labels[..n], w, q, layer, t);
      PlacesOk(c, states[..n + 1], labels[..n]);
      assert IsStep(c, states[n], labels[n], states[n + 1]);
      StepHeld(c, states[n], labels[n], states[n + 1], w, q, layer, t);
    }
  }

  lemma PlacesOk(c: Config, states: seq<State>, labels: seq<Label>)
    requires c.Valid() && IsRun(c, states, labels)
    ensures WorkersOk(c, states[|labels|].core.ws) && ProcsOk(c, states[|labels|].procs)
  {
    hide IsRun;
    var cen := RunKeepsInv(c, states, labels);
    hide WorkersOk, ProcsOk;
  }

  lemma NothingHeld(c: Config, w: nat, q: nat, e: nat, layer: nat, t: Token)
    ensures HeldFor(Init(c), w, q, e, layer, t) == 0
  {
  }

  // -------------------------------------------------------------------- homes

  /** Requests start in the order they arrive, and take the GPUs in turn; the next to start is number n. */
  ghost predicate InTurn(c: Config, m: Manager, n: nat)
    requires c.Valid()
  {
    && m.nextHome == n && m.pending == Range(n, n + |m.pending|)
    && forall rid :: rid in m.home ==> m.home[rid] == rid % c.numWorkers
  }

  lemma StartInTurn(c: Config, k: Core, n: nat, rest: nat)
    requires c.Valid() && k.m.nextHome == n && k.m.pending == Range(n + 1, n + 1 + rest)
    requires forall rid :: rid in k.m.home ==> k.m.home[rid] == rid % c.numWorkers
    ensures StartRequest(c, k, n).Ok? ==> InTurn(c, StartRequest(c, k, n).value.m, n + 1)
  {
    hide EnqueueAt;
  }

  lemma {:induction false} AdmitInTurn(c: Config, k: Core, n: nat)
    requires c.Valid() && InTurn(c, k.m, n)
    ensures AdmitQueued(c, k).Ok? ==>
      var m := AdmitQueued(c, k).value.m;
      InTurn(c, m, m.nextHome) && m.nextHome + |m.pending| == n + |k.m.pending|
    decreases |k.m.pending|
  {
    hide StartRequest;
    if k.m.pending != [] && HasRoom(c, k.m) {
      var k0 := k.(m := k.m.(pending := k.m.pending[1..]));
      assert k.m.pending[0] == n && k0.m.pending == Range(n + 1, n + 1 + |k0.m.pending|);
      StartInTurn(c, k0, n, |k0.m.pending|);
      if StartRequest(c, k0, n).Ok? {
        AdmitInTurn(c, StartRequest(c, k0, n).value, n + 1);
      }
    }
  }

  lemma HandleInTurn(c: Config, k: Core, t: Token)
    requires c.Valid() && InTurn(c, k.m, k.m.nextHome)
    ensures HandleCompletion(c, k, t).Ok? ==>
      var m := HandleCompletion(c, k, t).value.m;
      InTurn(c, m, m.nextHome) && m.nextHome + |m.pending| == k.m.nextHome + |k.m.pending|
  {
    hide AdmitQueued, EnqueueAt;
    var m := k.m.(completed := k.m.completed + [t]);
    var m1 := m.(nextIndex := m.nextIndex - {t.rid}, home := m.home - {t.rid}, finished := m.finished + [t.rid]);
    AdmitInTurn(c, k.(m := m1), k.m.nextHome);
  }

  lemma CompleteInTurn(c: Config, s: State, layer: nat, t: Token)
    requires c.Valid() && InTurn(c, s.core.m, s.core.m.nextHome)
    ensures CompleteCopy(c, s, layer, t).Ok? ==>
      var s' := CompleteCopy(c, s, layer, t).value;
      var m := s'.core.m;
      && s'.arrived == s.arrived
      && InTurn(c, m, m.nextHome) && m.nextHome + |m.pending| == s.core.m.nextHome + |s.core.m.pending|
  {
    hide HandleCompletion, EnqueueAt, Tally, InTurn;
    if layer < |s.joins| && layer < |s.fanout| {
      var r := Tally(s.joins[layer], FanoutOf(s.fanout[layer], t.tid), t, layer + 1 != c.numLayers);
      if r.Ok? && r.value.released.Some? {
        HandleInTurn(c, s.core, r.value.released.value);
      }
    }
  }

  ghost predicate HomesOk(c: Config, s: State)
    requires c.Valid()
  {
    InTurn(c, s.core.m, s.core.m.nextHome) && s.arrived == s.core.m.nextHome + |s.core.m.pending|
  }

  lemma ArriveInTurn(c: Config, s: State, s': State)
    requires c.Valid() && HomesOk(c, s) && FullOk(c, s.core.m) && IsStep(c, s, Arrive, s')
    ensures HomesOk(c, s')
  {
    hide StartRequest;
    if HasRoom(c, s.core.m) {
      StartInTurn(c, s.core, s.arrived, 0);
      var k := StartRequest(c, s.core, s.arrived).value;
      assert s'.core == k && k.m.pending == s.core.m.pending == [];
    }
  }

  lemma StepHomes(c: Config, s: State, l: Label, s': State)
    requires c.Valid() && HomesOk(c, s) && FullOk(c, s.core.m) && IsStep(c, s, l, s')
    ensures HomesOk(c, s')
  {
    hide AdmitRequest, CompleteCopy, DeliverAll, TakeTask, InTurn, ForwardedWorker;
    match l
    case Arrive =>
      ArriveInTurn(c, s, s');
    case Forward(i) =>
      var w := s.core.ws[i];
      CompleteInTurn(c, SetWorker(s, i, ForwardedWorker(w)), w.phase.layer, w.phase.batch[0]);
    case Pass(_) =>
    case Wake(_) =>
    case AttentionDone(_) =>
    case ComputeDone(_) =>
    case Route(_, _) =>
    case Deliver(_) =>
  }

  lemma {:induction false} RunHomes(c: Config, states: seq<State>, labels: seq<Label>)
    requires c.Valid() && IsRun(c, states, labels)
    ensures HomesOk(c, states[|labels|])
    decreases |labels|
  {
    hide IsStep, HomesOk;
    if |labels| == 0 {
      InitHomes(c);
    } else {
      var n := |labels| - 1;
      assert IsRun(c, states[..n + 1], labels[..n]) by {
        assert forall i :: 0 <= i < n ==> IsStep(c, states[i], labels[i], states[i + 1]);
      }
      RunHomes(c, states[..n + 1], labels[..n]);
      FullAlong(c, states[..n + 1], labels[..n]);
      assert IsStep(c, states[n], labels[n], states[n + 1]);
      StepHomes(c, states[n], labels[n], states[n + 1]);
    }
  }

  lemma InitHomes(c: Config)
    requires c.Valid()
    ensures HomesOk(c, Init(c))
  {
  }

  lemma FullAlong(c: Config, states: seq<State>, labels: seq<Label>)
    requires c.Valid() && IsRun(c, states, labels)
    ensures FullOk(c, states[|labels|].core.m)
  {
    hide IsRun;
    var cen := RunKeepsInv(c, states, labels);
    hide Holds, FullOk;
  }

  /** Requests take the GPUs in turn: every active request, and every token in flight, lives on its number's turn. */
  lemma HomesInTurn(c: Config, s: State)
    requires c.Valid() && Reachable(c, s)
    ensures forall rid :: rid in s.core.m.home ==> s.core.m.home[rid] == rid % c.numWorkers
    ensures forall t: Token :: InFlight(s, t) ==> t.home == t.rid % c.numWorkers
  {
    var states, labels :| IsRun(c, states, labels) && states[|labels|] == s;
    hide IsRun, InFlight, Inv;
    RunHomes(c, states, labels);
    var cen := ReachableInv(c, s);
    forall t: Token | InFlight(s, t)
      ensures t.home == t.rid % c.numWorkers
    {
      InFlightIsLive(c, s, cen, t);
      LiveHome(c, s, cen, t);
    }
  }

  lemma LiveHome(c: Config, s: State, cen: Census, t: Token)
    requires Inv(c, s, cen) && t.tid in cen.live && cen.live[t.tid].token == t
    ensures t.rid in s.core.m.home && s.core.m.home[t.rid] == t.home
  {
    hide WorkersOk, ProcsOk, JobsOk, CopiesOk, JoinsOk, FanoutOk, HistoryOk, CompletedOk, QueueOk;
    assert LiveOk(c, s.core.m, cen, t.tid, cen.live[t.tid]);
  }

  // ------------------------------------------------------------------- choices

  ghost predicate Idle(totals: seq<nat>) {
    forall l :: 0 <= l < |totals| ==> totals[l] == 0
  }

  /** No layer's score reaches some bound. */
  ghost predicate AllBelow(policy: Policy, totals: seq<nat>, bound: real) {
    forall l :: 0 <= l < |totals| ==> LayerScore(policy, totals, l) < bound
  }

  /** The first layer of greatest score, which has tokens. */
  ghost predicate FirstBest(policy: Policy, totals: seq<nat>, best: nat) {
    && best < |totals| && totals[best] > 0
    && (forall l :: 0 <= l < |totals| ==> LayerScore(policy, totals, l) <= LayerScore(policy, totals, best))
    && (forall l :: 0 <= l < best ==> LayerScore(policy, totals, l) < LayerScore(policy, totals, best))
  }

  /**
   * Attention goes first exactly when its jobs, each counted as often as a token has experts, outweigh the score of
   * every layer, or no layer has work; otherwise the first layer of greatest score goes.
   */
  lemma TaskChoice(c: Config, w: Worker)
    ensures var totals := LayerTotals(w.queues);
      match SelectTask(c, w)
      case AttentionTask =>
        w.attention != [] && (Idle(totals) || AllBelow(c.policy, totals, |w.attention| as real * c.topK as real))
      case ExpertTask(best) =>
        && (w.attention == [] || (!Idle(totals) && !AllBelow(c.policy, totals, |w.attention| as real * c.topK as real)))
        && (best.None? <==> Idle(totals)) && (best.Some? ==> FirstBest(c.policy, totals, best.value))
  {
    hide LayerScore, BestLayer;
    BestLayerHasWork(c.policy, LayerTotals(w.queues));
    var (best, score) := BestLayer(c.policy, LayerTotals(w.queues));
    if best.Some? {
      assert LayerScore(c.policy, LayerTotals(w.queues), best.value) == score;
    }
  }
}
