/**
 * The simulator's objects and their calls into one another, updated in place, with each method tied to the
 * function of the same moment in the transition system; `Simulation.Step` implements `Next`.
 */
module AsyncSimulation {
  import opened Prelude
  import opened AsyncModel
  import opened AsyncWorker
  import opened AsyncTheorems

  /** The objects are pairwise different. */
  ghost predicate Distinct<T>(objects: seq<T>) {
    forall i, j :: 0 <= i < j < |objects| ==> objects[i] != objects[j]
  }

  ghost function Views(ws: seq<ExpertWorker>): (r: seq<Worker>)
    reads ws
    ensures |r| == |ws| && forall i :: 0 <= i < |ws| ==> r[i] == ws[i].View()
  {
    seq(|ws|, i requires 0 <= i < |ws| reads ws => ws[i].View())
  }

  /** The error a method reports is the one its function has, and the new state is the function's value. */
  ghost predicate Agrees<T>(e: Option<SimError>, r: Outcome<T>, v: T) {
    match r
    case Ok(value) => e.None? && value == v
    case Err(error) => e == Some(error)
  }

  /** One layer's attention: joins the copies of the layer before it and dispatches to its own layer's experts. */
  class AttentionWorker {
    const layer: nat
    const config: Config
    const workers: seq<ExpertWorker>
    var pendingCounts: map<nat, nat>
    var pendingTokens: map<nat, Token>
    var fanout: map<nat, nat>

    constructor (config: Config, layer: nat, workers: seq<ExpertWorker>)
      ensures this.layer == layer && this.workers == workers && this.config == config
      ensures pendingCounts == map[] && pendingTokens == map[] && fanout == map[]
    {
      this.config, this.layer, this.workers := config, layer, workers;
      pendingCounts, pendingTokens, fanout := map[], map[], map[];
    }

    ghost function Pending(): Join
      reads this
    {
      Join(pendingCounts, pendingTokens)
    }

    method Enqueue(t: Token) returns (e: Option<SimError>)
      requires Distinct(workers)
      modifies workers
      ensures Agrees(e, EnqueueAt(old(Views(workers)), layer, t), Views(workers))
    {
      if t.home >= |workers| {
        return Some(BadHome);
      }
      workers[t.home].PutAttention(layer, t);
      assert Views(workers) == old(Views(workers))[t.home := EnqueueAttention(old(Views(workers))[t.home], layer, t)];
      return None;
    }

    /** A copy came back from the layer before; `expected` is the fanout entry the token carries for it. */
    method NotifyExpertCompletion(t: Token, expected: Option<nat>) returns (e: Option<SimError>)
      requires Distinct(workers)
      modifies this`pendingCounts, this`pendingTokens, workers
      ensures var r := Tally(old(Pending()), expected, t, true);
        && (r.Err? ==> e == Some(r.error))
        && (r.Ok? ==> Pending() == r.value.join)
        && (r.Ok? && r.value.released.None? ==> e.None? && Views(workers) == old(Views(workers)))
        && (r.Ok? && r.value.released.Some? ==>
              Agrees(e, EnqueueAt(old(Views(workers)), layer, r.value.released.value), Views(workers)))
    {
      if expected.None? || expected.value == 0 {
        return Some(MissingFanout);
      }
      var current := (if t.tid in pendingCounts then pendingCounts[t.tid] else 0) + 1;
      if current < expected.value {
        pendingCounts := pendingCounts[t.tid := current];
        if t.tid !in pendingTokens {
          pendingTokens := pendingTokens[t.tid := t];
        }
        return None;
      }
      if current > expected.value {
        return Some(TooManyCompletions);
      }
      var released := if t.tid in pendingTokens then pendingTokens[t.tid] else t;
      pendingCounts := pendingCounts - {t.tid};
      pendingTokens := pendingTokens - {t.tid};
      e := Enqueue(released);
    }

    /** Routing: record how many experts the router chose. */
    method RecordRoute(t: Token, experts: seq<nat>)
      modifies this`fanout
      ensures fanout == old(fanout)[t.tid := |experts|]
    {
      fanout := fanout[t.tid := |experts|];
    }

    /** Queue one copy of the token at an expert. */
    method DispatchCopy(t: Token, expert: nat) returns (e: Option<SimError>)
      requires Distinct(workers)
      modifies workers
      ensures Agrees(e, DeliverCopy(config, old(Views(workers)), layer, t, expert), Views(workers))
    {
      if config.queuesPerWorker == 0 {
        return Some(IndexOutOfRange);
      }
      var w := expert / config.queuesPerWorker;
      var q := expert % config.queuesPerWorker;
      if w >= |workers| || layer >= |workers[w].queues| || q >= |workers[w].queues[layer]| {
        return Some(IndexOutOfRange);
      }
      ghost var before := Views(workers);
      workers[w].Enqueue(layer, q, t);
      assert Views(workers) == before[w := EnqueueExpert(before[w], layer, q, t)];
      e := None;
    }

    /** The transfers ended: queue a copy of the token at each chosen expert. */
    method DispatchCopies(t: Token, experts: seq<nat>) returns (e: Option<SimError>)
      requires Distinct(workers)
      modifies workers
      ensures Agrees(e, DeliverAll(config, old(Views(workers)), layer, t, experts), Views(workers))
    {
      var k := 0;
      assert experts[0..] == experts;
      hide DeliverAll, DeliverCopy;
      while k < |experts|
        invariant k <= |experts|
        invariant DeliverAll(config, old(Views(workers)), layer, t, experts)
               == DeliverAll(config, Views(workers), layer, t, experts[k..])
      {
        DeliverOne(config, Views(workers), layer, t, experts, k);
        e := DispatchCopy(t, experts[k]);
        if e.Some? {
          return;
        }
        k := k + 1;
      }
      NoneLeft(config, Views(workers), layer, t);
      return None;
    }
  }

  lemma NoneLeft(c: Config, ws: seq<Worker>, layer: nat, t: Token)
    ensures DeliverAll(c, ws, layer, t, []) == Ok(ws)
  {
  }

  /** Delivering from copy k on: that copy, then the others. */
  lemma DeliverOne(c: Config, ws: seq<Worker>, layer: nat, t: Token, experts: seq<nat>, k: nat)
    requires k < |experts|
    ensures DeliverAll(c, ws, layer, t, experts[k..]) ==
      match DeliverCopy(c, ws, layer, t, experts[k])
      case Err(error) => Err(error)
      case Ok(ws1) => DeliverAll(c, ws1, layer, t, experts[k + 1..])
  {
    hide DeliverCopy;
    assert experts[k..][1..] == experts[k + 1..];
  }

  class RequestManager {
    const config: Config
    const firstAttention: AttentionWorker
    var nextIndex: map<nat, nat>
    var home: map<nat, nat>
    var pending: seq<nat>
    var nextHome: nat
    var nextTid: nat
    var completed: seq<Token>
    var finished: seq<nat>

    constructor (config: Config, firstAttention: AttentionWorker)
      ensures this.config == config && this.firstAttention == firstAttention
      ensures View() == Manager(map[], map[], [], 0, 0, [], [])
    {
      this.config, this.firstAttention := config, firstAttention;
      nextIndex, home, pending, nextHome, nextTid, completed, finished := map[], map[], [], 0, 0, [], [];
    }

    ghost function View(): Manager
      reads this
    {
      Manager(nextIndex, home, pending, nextHome, nextTid, completed, finished)
    }

    ghost predicate Valid()
    {
      Distinct(firstAttention.workers) && firstAttention.layer == 0
    }

    ghost function CoreView(): Core
      reads this, firstAttention.workers
    {
      Core(View(), Views(firstAttention.workers))
    }

    method DispatchNextToken(rid: nat) returns (e: Option<SimError>)
      requires Valid()
      modifies this, firstAttention.workers
      ensures Agrees(e, DispatchNext(config, old(CoreView()), rid), CoreView())
    {
      if rid !in nextIndex {
        return Some(RequestNotTracked);
      }
      var index := nextIndex[rid];
      if index >= config.tokensPerRequest {
        return None;
      }
      if rid !in home {
        return Some(MissingHome);
      }
      var t := Token(nextTid, rid, index, home[rid]);
      nextTid := nextTid + 1;
      nextIndex := nextIndex[rid := index + 1];
      e := firstAttention.Enqueue(t);
    }

    method StartRequestNow(rid: nat) returns (e: Option<SimError>)
      requires Valid()
      modifies this, firstAttention.workers
      ensures Agrees(e, StartRequest(config, old(CoreView()), rid), CoreView())
    {
      hide DispatchNext;
      if rid in nextIndex {
        return Some(AlreadyStarted);
      }
      nextIndex := nextIndex[rid := 0];
      home := home[rid := nextHome % (if config.numWorkers == 0 then 1 else config.numWorkers)];
      nextHome := nextHome + 1;
      e := DispatchNextToken(rid);
    }

    method Admit(rid: nat) returns (e: Option<SimError>)
      requires Valid()
      modifies this, firstAttention.workers
      ensures Agrees(e, AdmitRequest(config, old(CoreView()), rid), CoreView())
    {
      if config.cap.None? || |nextIndex| < config.cap.value {
        e := StartRequestNow(rid);
      } else {
        pending := pending + [rid];
        e := None;
      }
    }

    method MaybeAdmitQueuedRequests() returns (e: Option<SimError>)
      requires Valid()
      modifies this, firstAttention.workers
      ensures Agrees(e, AdmitQueued(config, old(CoreView())), CoreView())
    {
      while pending != [] && (config.cap.None? || |nextIndex| < config.cap.value)
        invariant AdmitQueued(config, old(CoreView())) == AdmitQueued(config, CoreView())
        decreases |pending|
      {
        var rid := pending[0];
        pending := pending[1..];
        e := StartRequestNow(rid);
        if e.Some? {
          return;
        }
      }
      e := None;
    }

    method HandleTokenCompletion(t: Token) returns (e: Option<SimError>)
      requires Valid()
      modifies this, firstAttention.workers
      ensures Agrees(e, HandleCompletion(config, old(CoreView()), t), CoreView())
    {
      hide DispatchNext, AdmitQueued, StartRequest;
      completed := completed + [t];
      if t.rid !in nextIndex {
        return Some(UnknownRequest);
      }
      if t.index + 1 < config.tokensPerRequest {
        e := DispatchNextToken(t.rid);
      } else {
        nextIndex := nextIndex - {t.rid};
        home := home - {t.rid};
        finished := finished + [t.rid];
        e := MaybeAdmitQueuedRequests();
      }
    }
  }

  class FinalCompletionTracker {
    const manager: RequestManager
    var pendingCounts: map<nat, nat>

    constructor (manager: RequestManager)
      ensures this.manager == manager && pendingCounts == map[]
    {
      this.manager := manager;
      pendingCounts := map[];
    }

    method RecordCompletion(t: Token, expected: Option<nat>) returns (e: Option<SimError>)
      requires manager.Valid()
      modifies this, manager, manager.firstAttention.workers
      ensures var r := Tally(Join(old(pendingCounts), map[]), expected, t, false);
        && (r.Err? ==> e == Some(r.error))
        && (r.Ok? ==> Join(pendingCounts, map[]) == r.value.join)
        && (r.Ok? && r.value.released.None? ==> e.None? && manager.CoreView() == old(manager.CoreView()))
        && (r.Ok? && r.value.released.Some? ==>
              Agrees(e, HandleCompletion(manager.config, old(manager.CoreView()), r.value.released.value),
                     manager.CoreView()))
    {
      if expected.None? || expected.value == 0 {
        return Some(MissingFanout);
      }
      var count := (if t.tid in pendingCounts then pendingCounts[t.tid] else 0) + 1;
      if count < expected.value {
        pendingCounts := pendingCounts[t.tid := count];
        return None;
      }
      if count == expected.value {
        pendingCounts := pendingCounts - {t.tid};
        e := manager.HandleTokenCompletion(t);
        return;
      }
      return Some(TooManyCompletions);
    }
  }

  /** The wired-up simulation: GPUs, one attention object per layer, the request manager and the final join. */
  method CreateWorkers(config: Config) returns (ws: seq<ExpertWorker>)
    ensures fresh(ws) && |ws| == config.numWorkers && Distinct(ws)
    ensures forall i :: 0 <= i < |ws| ==> ws[i].View() == EmptyWorker(config)
  {
    ws := [];
    while |ws| < config.numWorkers
      invariant |ws| <= config.numWorkers && Distinct(ws) && fresh(ws)
      invariant forall i :: 0 <= i < |ws| ==> ws[i].View() == EmptyWorker(config)
    {
      var w := new ExpertWorker(config);
      ws := ws + [w];
    }
  }

  method CreateAttention(config: Config, ws: seq<ExpertWorker>) returns (attn: seq<AttentionWorker>)
    ensures fresh(attn) && |attn| == config.numLayers && Distinct(attn)
    ensures forall l :: 0 <= l < |attn| ==>
      && attn[l].layer == l && attn[l].workers == ws && attn[l].config == config
      && attn[l].Pending() == Join(map[], map[]) && attn[l].fanout == map[]
  {
    attn := [];
    while |attn| < config.numLayers
      invariant |attn| <= config.numLayers && Distinct(attn) && fresh(attn)
      invariant forall l :: 0 <= l < |attn| ==>
        && attn[l].layer == l && attn[l].workers == ws && attn[l].config == config
        && attn[l].Pending() == Join(map[], map[]) && attn[l].fanout == map[]
    {
      var a := new AttentionWorker(config, |attn|, ws);
      attn := attn + [a];
    }
  }

  class Simulation {
    const config: Config
    const workers: seq<ExpertWorker>
    const attention: seq<AttentionWorker>
    const manager: RequestManager
    const tracker: FinalCompletionTracker
    var arrived: nat
    var procs: seq<Proc>

    ghost predicate Wired() {
      && |workers| == config.numWorkers && Distinct(workers)
      && 0 < |attention| == config.numLayers && Distinct(attention)
      && (forall l :: 0 <= l < |attention| ==>
            attention[l].layer == l && attention[l].workers == workers && attention[l].config == config)
      && manager.firstAttention == attention[0] && manager.config == config
      && tracker.manager == manager
    }

    /** The table that joins the copies leaving layer l. */
    ghost function JoinAfter(l: nat): Join
      requires l < |attention|
      reads attention, tracker
    {
      if l + 1 < |attention| then attention[l + 1].Pending() else Join(tracker.pendingCounts, map[])
    }

    ghost function Joins(): seq<Join>
      reads attention, tracker
    {
      seq(|attention|, l requires 0 <= l < |attention| reads attention, tracker => JoinAfter(l))
    }

    ghost function Fanouts(): seq<map<nat, nat>>
      reads attention
    {
      seq(|attention|, l requires 0 <= l < |attention| reads attention => attention[l].fanout)
    }

    ghost function View(): State
      reads this, workers, attention, manager, tracker
    {
      State(arrived, Core(manager.View(), Views(workers)), Joins(), Fanouts(), procs)
    }

    constructor (config: Config)
      requires config.Valid()
      ensures this.config == config && Wired() && View() == Init(config)
      ensures Reachable(config, View())
    {
      InitReachable(config);
      var ws := CreateWorkers(config);
      var attn := CreateAttention(config, ws);
      var m := new RequestManager(config, attn[0]);
      var t := new FinalCompletionTracker(m);
      this.config, workers, attention, manager, tracker := config, ws, attn, m, t;
      arrived, procs := 0, [];
    }

    /** Hand one copy of a token that left a layer to the object that joins it. */
    method CompleteToken(layer: nat, t: Token) returns (e: Option<SimError>)
      requires Wired()
      modifies workers, attention, manager, tracker
      ensures Agrees(e, CompleteCopy(config, old(View()), layer, t), View())
    {
      hide EnqueueAt, HandleCompletion;
      if layer >= |attention| {
        return Some(IndexOutOfRange);
      }
      var table := attention[layer].fanout;
      var expected := if t.tid in table then Some(table[t.tid]) else None;
      assert expected == FanoutOf(View().fanout[layer], t.tid);
      if layer + 1 == config.numLayers {
        e := tracker.RecordCompletion(t, expected);
      } else {
        e := attention[layer + 1].NotifyExpertCompletion(t, expected);
      }
      assert e.None? ==> Joins() == old(Joins())[layer := JoinAfter(layer)];
      assert e.None? ==> Fanouts() == old(Fanouts());
    }

    /** A GPU goes round its loop, or wakes up and takes a task. */
    method RunWorker(w: nat, fromTop: bool)
      requires Wired() && w < |workers|
      modifies workers[w]
      ensures var v := old(View()).core.ws[w];
        View() == SetWorker(old(View()), w, if fromTop then LoopPass(config, v) else TakeTask(config, v))
    {
      hide LoopPass, TakeTask;
      if fromTop {
        workers[w].RunLoopTop(config);
      } else {
        workers[w].RunTask(config);
      }
      assert Views(workers) == old(Views(workers))[w := workers[w].View()];
      assert Joins() == old(Joins()) && Fanouts() == old(Fanouts());
    }

    /** A GPU moves to another point of its loop. */
    method SetPhase(w: nat, phase: Phase)
      requires Wired() && w < |workers|
      modifies workers[w]
      ensures View() == SetWorker(old(View()), w, old(View()).core.ws[w].(phase := phase))
    {
      workers[w].phase := phase;
      assert Views(workers) == old(Views(workers))[w := workers[w].View()];
      assert Joins() == old(Joins()) && Fanouts() == old(Fanouts());
    }

    method RouteProc(k: nat, experts: seq<nat>) returns (e: Option<SimError>)
      requires Wired() && Enabled(config, View(), Route(k, experts))
      modifies this`procs, attention
      ensures Agrees(e, Next(config, old(View()), Route(k, experts)), View())
    {
      var p := procs[k];
      if p.layer >= |attention| {
        return Some(IndexOutOfRange);
      }
      attention[p.layer].RecordRoute(p.token, experts);
      procs := procs[k := Transit(p.layer, p.token, experts)];
      e := None;
      assert Joins() == old(Joins());
      assert Fanouts() == old(Fanouts())[p.layer := attention[p.layer].fanout];
    }

    method DeliverProc(k: nat) returns (e: Option<SimError>)
      requires Wired() && Enabled(config, View(), Deliver(k))
      modifies this`procs, workers
      ensures Agrees(e, Next(config, old(View()), Deliver(k)), View())
    {
      hide DeliverAll;
      var p := procs[k];
      if p.layer >= |attention| {
        return Some(IndexOutOfRange);
      }
      e := attention[p.layer].DispatchCopies(p.token, p.experts);
      procs := Without(procs, k);
      assert Joins() == old(Joins()) && Fanouts() == old(Fanouts());
    }

    /** A step from a state the simulation can reach raises nothing and reaches another such state. */
    method SafeStep(l: Label)
      requires config.Valid() && Wired() && Reachable(config, View()) && Enabled(config, View(), l)
      modifies this, workers, attention, manager, tracker
      ensures Reachable(config, View())
      ensures IsStep(config, old(View()), l, View())
    {
      hide Reachable, Next;
      NeverRaises(config, View(), l);
      ghost var s := View();
      var e := Step(l);
      StepReachable(config, s, l, View());
    }

    /** Hand on the next token of a finished batch. */
    method ForwardToken(w: nat) returns (e: Option<SimError>)
      requires Wired() && Enabled(config, View(), Label.Forward(w))
      modifies this, workers, attention, manager, tracker
      ensures Agrees(e, Next(config, old(View()), Label.Forward(w)), View())
    {
      hide CompleteCopy;
      var layer, batch := workers[w].phase.layer, workers[w].phase.batch;
      if batch == [] {
        return Some(IndexOutOfRange);
      }
      SetPhase(w, if |batch| == 1 then LoopTop else Forwarding(layer, batch[1..]));
      e := CompleteToken(layer, batch[0]);
    }

    /** One moment of the simulation: what `Next` says, done to the objects. */
    method Step(l: Label) returns (e: Option<SimError>)
      requires Wired() && Enabled(config, View(), l)
      modifies this, workers, attention, manager, tracker
      ensures Agrees(e, Next(config, old(View()), l), View())
    {
      hide AdmitRequest, LoopPass, TakeTask, CompleteCopy, DeliverAll;
      e := None;
      match l
      case Arrive =>
        e := manager.Admit(arrived);
        arrived := arrived + 1;
        assert Joins() == old(Joins()) && Fanouts() == old(Fanouts());
      case Pass(w) =>
        RunWorker(w, true);
      case Wake(w) =>
        RunWorker(w, false);
      case AttentionDone(w) =>
        procs := procs + [Routing(workers[w].phase.layer, workers[w].phase.token)];
        SetPhase(w, LoopTop);
      case ComputeDone(w) =>
        SetPhase(w, Forwarding(workers[w].phase.layer, workers[w].phase.batch));
      case Forward(w) =>
        e := ForwardToken(w);
      case Route(k, experts) =>
        e := RouteProc(k, experts);
      case Deliver(k) =>
        e := DeliverProc(k);
    }
  }
}
