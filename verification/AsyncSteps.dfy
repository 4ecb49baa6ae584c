/** Every step of the protocol raises nothing, keeps the invariant and uses up a bounded amount of work. */
module AsyncSteps {
  import opened Prelude
  import opened LayerPolicy
  import opened AsyncModel
  import opened AsyncLedger
  import opened AsyncInvariant
  import opened AsyncRequests
  import opened AsyncJoins

  // ------------------------------------------------- finishing a request

  /** The request of the last logged token leaves the active ones. */
  ghost function Closed(s: State, rid: nat): State {
    var m := s.core.m;
    s.(core := s.core.(m := m.(nextIndex := m.nextIndex - {rid}, home := m.home - {rid}, finished := m.finished + [rid])))
  }

  lemma CloseCensus(c: Config, s: State, cen: Census, rid: nat)
    requires CensusOk(c, s.core.m, cen, {rid}) && QueueOk(c, s)
    ensures CensusOk(c, Closed(s, rid).core.m, cen, {})
    ensures QueueOk(c, Closed(s, rid))
  {
    var m, m' := s.core.m, Closed(s, rid).core.m;
    forall tid | tid in cen.live
      ensures LiveOk(c, m', cen, tid, cen.live[tid])
    {
      assert LiveOk(c, m, cen, tid, cen.live[tid]);
    }
    hide LiveOk;
    CloseQueue(c, s, rid);
  }

  lemma CloseQueue(c: Config, s: State, rid: nat)
    requires QueueOk(c, s)
    ensures QueueOk(c, Closed(s, rid))
  {
    FewerKeys(s.core.m.nextIndex, rid);
  }

  lemma FewerKeys(m: map<nat, nat>, k: nat)
    ensures |m - {k}| <= |m|
  {
    assert (m - {k}).Keys == m.Keys - {k};
    assert |m - {k}| == |(m - {k}).Keys| && |m| == |m.Keys|;
  }

  lemma CloseDone(c: Config, s: State, cen: Census, rid: nat, r: nat)
    requires CensusOk(c, s.core.m, cen, {rid}) && QueueOk(c, s)
    requires rid in s.core.m.nextIndex && s.core.m.nextIndex[rid] == c.tokensPerRequest
    ensures Done(c, Closed(s, rid), cen, r) == Done(c, s, cen, r)
  {
  }

  lemma CloseHistory(c: Config, s: State, cen: Census, rid: nat)
    requires CensusOk(c, s.core.m, cen, {rid}) && QueueOk(c, s)
    requires rid in s.core.m.nextIndex && s.core.m.nextIndex[rid] == c.tokensPerRequest
    ensures HistoryOk(c, s, cen) ==> HistoryOk(c, Closed(s, rid), cen)
    ensures Remaining(c, Closed(s, rid), cen) == Remaining(c, s, cen)
  {
    hide CensusOk, Done, IndicesOf, Remaining;
    forall r: nat
      ensures Done(c, Closed(s, rid), cen, r) == Done(c, s, cen, r)
    {
      CloseDone(c, s, cen, rid, r);
    }
    SameDone(c, s, Closed(s, rid), cen);
  }

  lemma CloseHolds(c: Config, s: State, cen: Census, rid: nat)
    requires c.Valid() && Holds(c, s, cen, {rid}, None)
    requires rid in s.core.m.nextIndex && s.core.m.nextIndex[rid] == c.tokensPerRequest
    ensures Holds(c, Closed(s, rid), cen, {}, None)
    ensures Remaining(c, Closed(s, rid), cen) == Remaining(c, s, cen)
  {
    hide WorkersOk, ProcsOk, JobsOk, CopiesOk, JoinsOk, FanoutOk, HistoryOk, CompletedOk, CensusOk, QueueOk, Remaining;
    CloseCensus(c, s, cen, rid);
    CloseHistory(c, s, cen, rid);
    SamePlaces(c, s, Closed(s, rid), cen);
  }

  /** A completed token's request dispatches the next token or finishes and lets waiting requests in. */
  lemma HandleCompletionOk(c: Config, s: State, cen: Census, layer: nat, t: Token) returns (cen': Census)
    requires InHand(c, s, cen, layer, t) && LastCopy(c, s, cen, layer, t) && FullOk(c, s.core.m)
    ensures var r := HandleCompletion(c, s.core, t);
      && r.Ok?
      && Inv(c, s.(joins := s.joins[layer := Cleared(s.joins[layer], t.tid)], core := r.value), cen')
      && Remaining(c, s.(joins := s.joins[layer := Cleared(s.joins[layer], t.tid)], core := r.value), cen')
         < Remaining(c, s, cen)
  {
    hide WorkersOk, ProcsOk, JobsOk, CopiesOk, JoinsOk, FanoutOk, HistoryOk, CompletedOk, QueueOk, Remaining, CensusOk, DispatchNext, AdmitQueued;
    var s1 := CompletedState(s, layer, t);
    var cen1 := Retired(cen, t);
    LiveFacts(c, s.core.m, cen, t);
    RetireHolds(c, s, cen, layer, t);
    if t.index + 1 < c.tokensPerRequest {
      DispatchNextOk(c, s1, cen1, t.rid);
      cen' := Issued(s1.core.m, cen1, t.rid);
      SameSize(s1.core.m.nextIndex, DispatchNext(c, s1.core, t.rid).value.m.nextIndex);
    } else {
      CloseHolds(c, s1, cen1, t.rid);
      cen' := AdmitQueuedOk(c, Closed(s1, t.rid), cen1);
    }
  }

  lemma AdvanceOk(c: Config, s: State, cen: Census, layer: nat, t: Token)
    requires InHand(c, s, cen, layer, t) && FullOk(c, s.core.m) && layer + 1 < c.numLayers && layer < |s.joins|
    requires Tallied(s.joins[layer], t.tid) + 1 == Recorded(s, layer, t.tid)
    ensures EnqueueAt(s.core.ws, layer + 1, t).Ok?
    ensures var s' := s.(joins := s.joins[layer := Cleared(s.joins[layer], t.tid)],
                         core := s.core.(ws := EnqueueAt(s.core.ws, layer + 1, t).value));
      Inv(c, s', Advanced(cen, layer, t)) && Remaining(c, s', Advanced(cen, layer, t)) < Remaining(c, s, cen)
  {
    hide ProcsOk, JobsOk, CopiesOk, JoinsOk, FanoutOk, HistoryOk, CompletedOk, QueueOk, Remaining, CensusOk, WorkerOk;
    LiveFacts(c, s.core.m, cen, t);
    EnqueueAtEffect(c, s, layer + 1, t);
    var s1 := WithWorkers(s, EnqueueAt(s.core.ws, layer + 1, t).value);
    var s' := s.(joins := s.joins[layer := Cleared(s.joins[layer], t.tid)],
                 core := s.core.(ws := EnqueueAt(s.core.ws, layer + 1, t).value));
    AdvanceEffect(c, s, s1, s', layer, t);
    AdvanceHolds(c, s, s', cen, layer, t);
  }

  lemma AdvanceEffect(c: Config, s: State, s1: State, s': State, layer: nat, t: Token)
    requires layer + 1 < c.numLayers && layer < |s.joins|
    requires s1 == WithWorkers(s, s1.core.ws) && s' == s1.(joins := s.joins[layer := Cleared(s.joins[layer], t.tid)])
    requires WorkersOk(c, s1.core.ws) && JobsGain(s, s1, Some((layer + 1, t))) && SameCopies(s, s1)
    requires Tallied(s.joins[layer], t.tid) + 1 == Recorded(s, layer, t.tid)
    ensures IsAdvance(c, s, s', layer, t)
  {
    assert forall l: nat, u :: Jobs(s', l, u) == Jobs(s1, l, u);
    assert forall l: nat, u :: Copies(s', l, u) == Copies(s1, l, u);
  }

  /** Handing on a copy raises nothing; either it only waits, or its token moves to its next stage. */
  lemma CompleteCopyOk(c: Config, s: State, cen: Census, layer: nat, t: Token) returns (cen': Census)
    requires InHand(c, s, cen, layer, t) && FullOk(c, s.core.m)
    ensures CompleteCopy(c, s, layer, t).Ok?
    ensures var s' := CompleteCopy(c, s, layer, t).value;
      && Inv(c, s', cen')
      && (Remaining(c, s', cen') < Remaining(c, s, cen)
          || (Remaining(c, s', cen') == Remaining(c, s, cen) && s'.arrived == s.arrived && Weight(s') == Weight(s)))
  {
    hide WorkersOk, ProcsOk, JobsOk, CopiesOk, JoinsOk, FanoutOk, HistoryOk, CompletedOk, QueueOk, Remaining, CensusOk;
    hide HandleCompletion, EnqueueAt, Tally;
    TallyOk(c, s, cen, layer, t);
    var j := s.joins[layer];
    if Tallied(j, t.tid) + 1 < s.fanout[layer][t.tid] {
      cen' := cen;
      WaitHolds(c, s, CompleteCopy(c, s, layer, t).value, cen, layer, t);
    } else if layer + 1 == c.numLayers {
      cen' := HandleCompletionOk(c, s, cen, layer, t);
    } else {
      cen' := Advanced(cen, layer, t);
      AdvanceOk(c, s, cen, layer, t);
    }
  }

  // ------------------------------------------------------------ progress

  /** One step's progress: a token reached its next stage, or else a request arrived, or else weight was used up. */
  ghost predicate Progress(c: Config, s: State, cen: Census, s': State, cen': Census) {
    || Remaining(c, s', cen') < Remaining(c, s, cen)
    || (Remaining(c, s', cen') == Remaining(c, s, cen)
        && (s.arrived < s'.arrived || (s.arrived == s'.arrived && Weight(s') < Weight(s))))
  }

  // ------------------------------------------------- steps within one GPU

  ghost predicate SameJobs(s: State, s': State) {
    forall l: nat, u :: Jobs(s', l, u) == Jobs(s, l, u)
  }

  /** Moving work about without creating or consuming any keeps the whole invariant. */
  lemma MoveHolds(c: Config, s: State, s': State, cen: Census)
    requires Inv(c, s, cen)
    requires s'.arrived == s.arrived && s'.core.m == s.core.m && s'.joins == s.joins && s'.fanout == s.fanout
    requires WorkersOk(c, s'.core.ws) && ProcsOk(c, s'.procs) && SameJobs(s, s') && SameCopies(s, s')
    ensures Inv(c, s', cen)
    ensures Remaining(c, s', cen) == Remaining(c, s, cen)
  {
    hide WorkersOk, ProcsOk, JobsOk, CopiesOk, JoinsOk, IndicesOf, CensusOk, Remaining, SameJobs, SameCopies;
    MovePlaces(c, s, s', cen);
    SameTables(c, s, s', cen);
    SameDone(c, s, s', cen);
  }

  lemma MovePlaces(c: Config, s: State, s': State, cen: Census)
    requires s'.joins == s.joins && s'.fanout == s.fanout && SameJobs(s, s') && SameCopies(s, s')
    ensures JobsOk(s, cen) ==> JobsOk(s', cen)
    ensures CopiesOk(s, cen, None) ==> CopiesOk(s', cen, None)
    ensures JoinsOk(c, s, cen) ==> JoinsOk(c, s', cen)
  {
    assert forall l: nat, tid :: Recorded(s', l, tid) == Recorded(s, l, tid);
  }

  lemma WorkerStepOk(c: Config, s: State, cen: Census, i: nat, v: Worker)
    requires Inv(c, s, cen) && i < |s.core.ws| && WorkerOk(c, i, v)
    requires WorkerWeight(v) < WorkerWeight(s.core.ws[i])
    requires forall l: nat, u :: JobsIn(v, l, u) == JobsIn(s.core.ws[i], l, u)
    requires forall l: nat, u :: CopiesIn(v, l, u) == CopiesIn(s.core.ws[i], l, u)
    ensures Inv(c, SetWorker(s, i, v), cen)
    ensures Progress(c, s, cen, SetWorker(s, i, v), cen)
  {
    hide WorkerOk, ProcsOk, JobsOk, CopiesOk, JoinsOk, FanoutOk, HistoryOk, CompletedOk, QueueOk, Remaining, CensusOk;
    SetWorkerEffect(s, i, v);
    assert WorkersOk(c, SetWorker(s, i, v).core.ws);
    MoveHolds(c, s, SetWorker(s, i, v), cen);
  }

  lemma PassOk(c: Config, s: State, cen: Census, i: nat)
    requires Inv(c, s, cen) && Enabled(c, s, Pass(i))
    ensures var s' := SetWorker(s, i, LoopPass(c, s.core.ws[i]));
      Inv(c, s', cen) && Progress(c, s, cen, s', cen) && !s'.core.ws[i].phase.LoopTop?
  {
    hide ProcsOk, JobsOk, CopiesOk, JoinsOk, FanoutOk, HistoryOk, CompletedOk, QueueOk, CensusOk, WorkerOk, LoopPass, Progress;
    LoopPassEffect(c, i, s.core.ws[i]);
    WorkerStepOk(c, s, cen, i, LoopPass(c, s.core.ws[i]));
  }

  lemma AwakeHasWork(c: Config, i: nat, w: Worker)
    requires WorkerOk(c, i, w) && w.phase.Asleep? && w.triggered
    ensures !HasNoWork(w)
  {
  }

  lemma WakeOk(c: Config, s: State, cen: Census, i: nat)
    requires Inv(c, s, cen) && Enabled(c, s, Wake(i))
    ensures var s' := SetWorker(s, i, TakeTask(c, s.core.ws[i]));
      Inv(c, s', cen) && Progress(c, s, cen, s', cen) && !s'.core.ws[i].phase.LoopTop?
  {
    hide ProcsOk, JobsOk, CopiesOk, JoinsOk, FanoutOk, HistoryOk, CompletedOk, QueueOk, CensusOk, WorkerOk, TakeTask, Progress;
    AwakeHasWork(c, i, s.core.ws[i]);
    TakeTaskEffect(c, i, s.core.ws[i]);
    WorkerStepOk(c, s, cen, i, TakeTask(c, s.core.ws[i]));
  }

  lemma ComputeDoneEffect(c: Config, i: nat, w: Worker)
    requires WorkerOk(c, i, w) && w.phase.Computing?
    ensures var v := w.(phase := Forwarding(w.phase.layer, w.phase.batch));
      && WorkerOk(c, i, v)
      && WorkerWeight(v) < WorkerWeight(w)
      && (forall l: nat, u :: JobsIn(v, l, u) == JobsIn(w, l, u))
      && (forall l: nat, u :: CopiesIn(v, l, u) == CopiesIn(w, l, u))
  {
  }

  lemma ComputeDoneOk(c: Config, s: State, cen: Census, i: nat)
    requires Inv(c, s, cen) && Enabled(c, s, ComputeDone(i))
    ensures var p := s.core.ws[i].phase;
      var s' := SetWorker(s, i, s.core.ws[i].(phase := Forwarding(p.layer, p.batch)));
      Inv(c, s', cen) && Progress(c, s, cen, s', cen)
  {
    hide ProcsOk, JobsOk, CopiesOk, JoinsOk, FanoutOk, HistoryOk, CompletedOk, QueueOk, CensusOk, WorkerOk, Progress;
    ComputeDoneEffect(c, i, s.core.ws[i]);
    var p := s.core.ws[i].phase;
    WorkerStepOk(c, s, cen, i, s.core.ws[i].(phase := Forwarding(p.layer, p.batch)));
  }

  // ------------------------------------------------------ attention ends

  lemma AttentionDoneEffect(c: Config, i: nat, w: Worker)
    requires WorkerOk(c, i, w) && w.phase.Attending?
    ensures var v := w.(phase := LoopTop);
      var p := w.phase;
      && WorkerOk(c, i, v)
      && WorkerWeight(v) + 2 == WorkerWeight(w)
      && (forall l: nat, u :: JobsIn(v, l, u) + (if l == p.layer && u == p.token then 1 else 0) == JobsIn(w, l, u))
      && (forall l: nat, u :: CopiesIn(v, l, u) == CopiesIn(w, l, u))
  {
  }

  lemma AppendProcEffect(s: State, p: Proc)
    ensures var s' := s.(procs := s.procs + [p]);
      && Weight(s') == Weight(s) + ProcWeight(p)
      && (forall l: nat, u :: Jobs(s', l, u) == Jobs(s, l, u) + ProcJobs(l, u)(p))
      && (forall l: nat, u :: Copies(s', l, u) == Copies(s, l, u) + ProcCopies(l, u)(p))
  {
    var s' := s.(procs := s.procs + [p]);
    NatSumAppend(s.procs, p, ProcWeight);
    forall l: nat, u
      ensures Jobs(s', l, u) == Jobs(s, l, u) + ProcJobs(l, u)(p)
      ensures Copies(s', l, u) == Copies(s, l, u) + ProcCopies(l, u)(p)
    {
      NatSumAppend(s.procs, p, ProcJobs(l, u));
      NatSumAppend(s.procs, p, ProcCopies(l, u));
    }
  }

  lemma AttentionDoneOk(c: Config, s: State, cen: Census, i: nat)
    requires Inv(c, s, cen) && Enabled(c, s, AttentionDone(i))
    ensures var p := s.core.ws[i].phase;
      var s' := SetWorker(s, i, s.core.ws[i].(phase := LoopTop)).(procs := s.procs + [Routing(p.layer, p.token)]);
      Inv(c, s', cen) && Progress(c, s, cen, s', cen)
  {
    hide JobsOk, CopiesOk, JoinsOk, FanoutOk, HistoryOk, CompletedOk, QueueOk, CensusOk, Remaining;
    var w := s.core.ws[i];
    var p := w.phase;
    var v := w.(phase := LoopTop);
    AttentionDoneEffect(c, i, w);
    SetWorkerEffect(s, i, v);
    var s1 := SetWorker(s, i, v);
    AppendProcEffect(s1, Routing(p.layer, p.token));
    var s' := s1.(procs := s.procs + [Routing(p.layer, p.token)]);
    assert SameJobs(s, s');
    assert SameCopies(s, s');
    MoveHolds(c, s, s', cen);
  }

  // -------------------------------------------------------------- routing

  ghost function Routed(cen: Census, layer: nat, t: Token): Census {
    cen.(live := cen.live[t.tid := Live(t, AtExperts(layer))])
  }

  /** Routing t at a layer trades its attention job for n copies and records n as its fanout. */
  ghost predicate IsRoute(c: Config, s: State, s': State, layer: nat, t: Token, n: nat) {
    && n > 0 && layer < |s.fanout| && layer < c.numLayers
    && s'.arrived == s.arrived && s'.core == s.core && s'.joins == s.joins
    && (var table: map<nat, nat> := s.fanout[layer][t.tid := n]; s'.fanout == s.fanout[layer := table])
    && (forall l: nat, u :: Jobs(s', l, u) + (if l == layer && u == t then 1 else 0) == Jobs(s, l, u))
    && (forall l: nat, u :: Copies(s', l, u) == Copies(s, l, u) + if l == layer && u == t then n else 0)
  }

  lemma RouteEffect(c: Config, s: State, k: nat, experts: seq<nat>)
    requires ProcsOk(c, s.procs) && |s.fanout| == c.numLayers && Enabled(c, s, Route(k, experts))
    ensures var s' := Next(c, s, Route(k, experts));
      && s'.Ok?
      && ProcsOk(c, s'.value.procs)
      && IsRoute(c, s, s'.value, s.procs[k].layer, s.procs[k].token, |experts|)
  {
    var p := s.procs[k];
    var q := Transit(p.layer, p.token, experts);
    var s' := Next(c, s, Route(k, experts)).value;
    forall l: nat, u
      ensures Jobs(s', l, u) + (if l == p.layer && u == p.token then 1 else 0) == Jobs(s, l, u)
      ensures Copies(s', l, u) == Copies(s, l, u) + if l == p.layer && u == p.token then |experts| else 0
    {
      NatSumUpdate(s.procs, k, q, ProcJobs(l, u));
      NatSumUpdate(s.procs, k, q, ProcCopies(l, u));
    }
  }

  lemma RoutingIsAtAttention(c: Config, s: State, cen: Census, k: nat)
    requires JobsOk(s, cen) && k < |s.procs| && s.procs[k].Routing?
    ensures AtStage(cen, s.procs[k].token, AtAttention(s.procs[k].layer))
  {
    var p := s.procs[k];
    NatSumPart(s.procs, k, ProcJobs(p.layer, p.token));
    assert Jobs(s, p.layer, p.token) >= 1;
  }

  lemma RouteCensus(c: Config, m: Manager, cen: Census, layer: nat, t: Token)
    requires CensusOk(c, m, cen, {}) && AtStage(cen, t, AtAttention(layer))
    ensures CensusOk(c, m, Routed(cen, layer, t), {})
  {
    var cen' := Routed(cen, layer, t);
    forall tid | tid in cen'.live
      ensures LiveOk(c, m, cen', tid, cen'.live[tid])
    {
      assert LiveOk(c, m, cen, tid, cen.live[tid]);
    }
  }

  lemma RouteJobs(c: Config, s: State, s': State, cen: Census, layer: nat, t: Token, n: nat)
    requires AtStage(cen, t, AtAttention(layer)) && JobsOk(s, cen) && IsRoute(c, s, s', layer, t, n)
    ensures JobsOk(s', Routed(cen, layer, t))
  {
    var cen' := Routed(cen, layer, t);
    forall l: nat, u
      ensures Jobs(s', l, u) == if AtStage(cen', u, AtAttention(l)) then 1 else 0
    {
      assert Jobs(s, l, u) == if AtStage(cen, u, AtAttention(l)) then 1 else 0;
    }
  }

  lemma RouteCopies(c: Config, s: State, s': State, cen: Census, layer: nat, t: Token, n: nat)
    requires AtStage(cen, t, AtAttention(layer)) && IsRoute(c, s, s', layer, t, n)
    requires CopiesOk(s, cen, None) && JoinsOk(c, s, cen)
    ensures CopiesOk(s', Routed(cen, layer, t), None)
  {
    var cen' := Routed(cen, layer, t);
    assert t.tid !in s.joins[layer].counts;
    forall l: nat, u | l < |s'.joins|
      ensures Copies(s', l, u)
           == if AtStage(cen', u, AtExperts(l)) then Recorded(s', l, u.tid) - Tallied(s'.joins[l], u.tid) else 0
    {
      assert Copies(s, l, u)
          == if AtStage(cen, u, AtExperts(l)) then Recorded(s, l, u.tid) - Tallied(s.joins[l], u.tid) else 0;
      assert u.tid != t.tid ==> Recorded(s', l, u.tid) == Recorded(s, l, u.tid);
    }
  }

  lemma RouteJoins(c: Config, s: State, s': State, cen: Census, layer: nat, t: Token, n: nat)
    requires AtStage(cen, t, AtAttention(layer)) && IsRoute(c, s, s', layer, t, n) && JoinsOk(c, s, cen)
    ensures JoinsOk(c, s', Routed(cen, layer, t))
  {
    var cen' := Routed(cen, layer, t);
    assert t.tid !in s.joins[layer].counts;
    forall tid | tid in cen'.live && cen'.live[tid].stage.AtExperts?
      ensures var l := cen'.live[tid].stage.layer;
        l < |s'.joins| && Tallied(s'.joins[l], tid) < Recorded(s', l, tid)
    {
      if tid != t.tid {
        assert cen'.live[tid] == cen.live[tid];
      }
    }
  }

  lemma RouteFanout(c: Config, s: State, s': State, cen: Census, layer: nat, t: Token, n: nat)
    requires AtStage(cen, t, AtAttention(layer)) && IsRoute(c, s, s', layer, t, n)
    requires CensusOk(c, s.core.m, cen, {}) && FanoutOk(c, s, cen)
    ensures FanoutOk(c, s', Routed(cen, layer, t))
    ensures t.tid !in s.fanout[layer]
  {
    LiveFacts(c, s.core.m, cen, t);
  }

  lemma RouteCompleted(c: Config, s: State, s': State, cen: Census, layer: nat, t: Token, n: nat)
    requires AtStage(cen, t, AtAttention(layer)) && IsRoute(c, s, s', layer, t, n) && CompletedOk(c, s, cen)
    ensures CompletedOk(c, s', Routed(cen, layer, t))
  {
  }

  lemma RouteDone(c: Config, s: State, s': State, cen: Census, layer: nat, t: Token, n: nat, r: nat)
    requires AtStage(cen, t, AtAttention(layer)) && IsRoute(c, s, s', layer, t, n) && CensusOk(c, s.core.m, cen, {})
    ensures var cen' := Routed(cen, layer, t);
      && Done(c, s', cen', r) == Done(c, s, cen, r)
      && (r != t.rid ==> StagesLeft(c, s', cen', r) == StagesLeft(c, s, cen, r))
  {
    assert r in cen.current && cen.current[r] == t.tid ==> r == t.rid;
  }

  lemma RouteHistory(c: Config, s: State, s': State, cen: Census, layer: nat, t: Token, n: nat)
    requires AtStage(cen, t, AtAttention(layer)) && IsRoute(c, s, s', layer, t, n) && CensusOk(c, s.core.m, cen, {})
    requires HistoryOk(c, s, cen)
    ensures HistoryOk(c, s', Routed(cen, layer, t))
  {
    hide CensusOk, IsRoute, IndicesOf;
    assert s'.core == s.core && s'.arrived == s.arrived by {
      IsRouteFrame(c, s, s', layer, t, n);
    }
    forall r: nat
      ensures Done(c, s', Routed(cen, layer, t), r) == Done(c, s, cen, r)
    {
      RouteDone(c, s, s', cen, layer, t, n, r);
    }
  }

  lemma IsRouteFrame(c: Config, s: State, s': State, layer: nat, t: Token, n: nat)
    requires IsRoute(c, s, s', layer, t, n)
    ensures s'.core == s.core && s'.arrived == s.arrived && layer < c.numLayers
  {
  }

  lemma RouteRemaining(c: Config, s: State, s': State, cen: Census, layer: nat, t: Token, n: nat)
    requires c.Valid() && CensusOk(c, s.core.m, cen, {}) && QueueOk(c, s) && IsRoute(c, s, s', layer, t, n)
    requires AtStage(cen, t, AtAttention(layer))
    ensures Remaining(c, s', Routed(cen, layer, t)) == Remaining(c, s, cen) - 1
  {
    hide CensusOk, IsRoute;
    var cen' := Routed(cen, layer, t);
    IsRouteFrame(c, s, s', layer, t, n);
    LiveFacts(c, s.core.m, cen, t);
    RouteDone(c, s, s', cen, layer, t, n, t.rid);
    forall r: nat | r != t.rid
      ensures StagesLeft(c, s', cen', r) == StagesLeft(c, s, cen, r)
    {
      RouteDone(c, s, s', cen, layer, t, n, r);
    }
    assert StagesLeft(c, s', cen', t.rid) == StagesLeft(c, s, cen, t.rid) - 1 >= 0 by {
      TimesLayers(c, c.tokensPerRequest - t.index);
    }
    RangeSumChange(c.totalRequests, StagesOf(c, s, cen), StagesOf(c, s', cen'), t.rid);
  }

  /** A token is routed at a layer when it is at that layer's attention, for the first time. */
  lemma RouteOk(c: Config, s: State, cen: Census, k: nat, experts: seq<nat>) returns (cen': Census)
    requires Inv(c, s, cen) && Enabled(c, s, Route(k, experts))
    ensures var r := Next(c, s, Route(k, experts));
      && r.Ok? && Inv(c, r.value, cen') && Progress(c, s, cen, r.value, cen')
      && s.procs[k].layer < |s.fanout| && s.procs[k].token.tid !in s.fanout[s.procs[k].layer]
  {
    hide WorkersOk, ProcsOk, JobsOk, CopiesOk, JoinsOk, HistoryOk, CompletedOk, CensusOk, QueueOk, Remaining;
    RouteEffect(c, s, k, experts);
    RoutingIsAtAttention(c, s, cen, k);
    var layer, t, n := s.procs[k].layer, s.procs[k].token, |experts|;
    var s' := Next(c, s, Route(k, experts)).value;
    cen' := Routed(cen, layer, t);
    hide FanoutOk, Next, Enabled, IsRoute;
    IsRouteFrame(c, s, s', layer, t, n);
    RouteCensus(c, s.core.m, cen, layer, t);
    RouteJobs(c, s, s', cen, layer, t, n);
    RouteCopies(c, s, s', cen, layer, t, n);
    RouteJoins(c, s, s', cen, layer, t, n);
    RouteFanout(c, s, s', cen, layer, t, n);
    RouteCompleted(c, s, s', cen, layer, t, n);
    RouteHistory(c, s, s', cen, layer, t, n);
    RouteRemaining(c, s, s', cen, layer, t, n);
    assert QueueOk(c, s') by {
      SameQueue(c, s, s');
    }
  }

  lemma SameQueue(c: Config, s: State, s': State)
    requires QueueOk(c, s) && s'.core.m == s.core.m && s'.arrived == s.arrived
    ensures QueueOk(c, s')
  {
  }

  // ------------------------------------------------------------- delivery

  lemma RemoveProcEffect(c: Config, s: State, k: nat)
    requires k < |s.procs| && ProcsOk(c, s.procs)
    ensures var p := s.procs[k];
      var s' := s.(procs := Without(s.procs, k));
      && ProcsOk(c, s'.procs)
      && Weight(s') + ProcWeight(p) == Weight(s)
      && (forall l: nat, u :: Jobs(s', l, u) + ProcJobs(l, u)(p) == Jobs(s, l, u))
      && (forall l: nat, u :: Copies(s', l, u) + ProcCopies(l, u)(p) == Copies(s, l, u))
  {
    var p := s.procs[k];
    var s' := s.(procs := Without(s.procs, k));
    NatSumRemove(s.procs, k, ProcWeight);
    forall l: nat, u
      ensures Jobs(s', l, u) + ProcJobs(l, u)(p) == Jobs(s, l, u)
      ensures Copies(s', l, u) + ProcCopies(l, u)(p) == Copies(s, l, u)
    {
      NatSumRemove(s.procs, k, ProcJobs(l, u));
      NatSumRemove(s.procs, k, ProcCopies(l, u));
    }
  }

  lemma DeliverOk(c: Config, s: State, cen: Census, k: nat)
    requires Inv(c, s, cen) && Enabled(c, s, Deliver(k))
    ensures var r := Next(c, s, Deliver(k));
      r.Ok? && Inv(c, r.value, cen) && Progress(c, s, cen, r.value, cen)
  {
    hide WorkersOk, JobsOk, CopiesOk, JoinsOk, HistoryOk, CompletedOk, CensusOk, QueueOk, Remaining;
    var p := s.procs[k];
    var s1 := s.(procs := Without(s.procs, k));
    RemoveProcEffect(c, s, k);
    DeliverAllEffect(c, s1, p.layer, p.token, p.experts);
    var s' := WithWorkers(s1, DeliverAll(c, s.core.ws, p.layer, p.token, p.experts).value);
    hide DeliverAll, Weight;
    assert SameJobs(s, s');
    assert SameCopies(s, s');
    MoveHolds(c, s, s', cen);
  }

  // ----------------------------------------------------------- forwarding

  lemma ForwardEffect(c: Config, i: nat, w: Worker)
    requires WorkerOk(c, i, w) && w.phase.Forwarding?
    ensures w.phase.batch != [] && w.phase.layer < c.numLayers
    ensures var v := ForwardedWorker(w);
      var layer, t := w.phase.layer, w.phase.batch[0];
      && WorkerOk(c, i, v)
      && WorkerWeight(v) < WorkerWeight(w)
      && (forall l: nat, u :: JobsIn(v, l, u) == JobsIn(w, l, u))
      && (forall l: nat, u :: CopiesIn(v, l, u) + (if l == layer && u == t then 1 else 0) == CopiesIn(w, l, u))
  {
    var batch := w.phase.batch;
    assert batch == [batch[0]] + batch[1..];
  }

  lemma TakenInHand(c: Config, s: State, cen: Census, i: nat)
    requires Inv(c, s, cen) && Enabled(c, s, Forward(i))
    ensures var w := s.core.ws[i];
      var s1 := SetWorker(s, i, ForwardedWorker(w));
      && w.phase.batch != []
      && InHand(c, s1, cen, w.phase.layer, w.phase.batch[0]) && FullOk(c, s1.core.m)
      && s1.arrived == s.arrived
      && Weight(s1) < Weight(s) && Remaining(c, s1, cen) == Remaining(c, s, cen)
  {
    hide JobsOk, CopiesOk, JoinsOk, IndicesOf, CensusOk, Remaining, Weight, WorkerOk;
    var w := s.core.ws[i];
    ForwardEffect(c, i, w);
    var layer, t := w.phase.layer, w.phase.batch[0];
    var v := ForwardedWorker(w);
    var s1 := SetWorker(s, i, v);
    SetWorkerEffect(s, i, v);
    TakenPlaces(c, s, s1, cen, layer, t);
    SameTables(c, s, s1, cen);
    SameDone(c, s, s1, cen);
  }

  lemma TakenPlaces(c: Config, s: State, s1: State, cen: Census, layer: nat, t: Token)
    requires JobsOk(s, cen) && CopiesOk(s, cen, None) && JoinsOk(c, s, cen)
    requires s1.joins == s.joins && s1.fanout == s.fanout && layer < c.numLayers
    requires forall l: nat, u :: Jobs(s1, l, u) == Jobs(s, l, u)
    requires forall l: nat, u :: Copies(s1, l, u) + (if l == layer && u == t then 1 else 0) == Copies(s, l, u)
    ensures JobsOk(s1, cen) && CopiesOk(s1, cen, Some((layer, t))) && JoinsOk(c, s1, cen)
    ensures AtStage(cen, t, AtExperts(layer))
  {
    assert Copies(s, layer, t) >= 1;
    assert forall l: nat, tid :: Recorded(s1, l, tid) == Recorded(s, l, tid);
  }

  lemma ForwardOk(c: Config, s: State, cen: Census, i: nat) returns (cen': Census)
    requires Inv(c, s, cen) && Enabled(c, s, Forward(i))
    ensures var r := Next(c, s, Forward(i));
      r.Ok? && Inv(c, r.value, cen') && Progress(c, s, cen, r.value, cen')
  {
    hide Inv, InHand, FullOk, Remaining, Weight, CompleteCopy;
    TakenInHand(c, s, cen, i);
    var w := s.core.ws[i];
    var s1 := SetWorker(s, i, ForwardedWorker(w));
    cen' := CompleteCopyOk(c, s1, cen, w.phase.layer, w.phase.batch[0]);
  }

  // ------------------------------------------------------------ every step

  /** No enabled step raises; each keeps the invariant and makes progress. */
  lemma StepOk(c: Config, s: State, cen: Census, l: Label) returns (cen': Census)
    requires Inv(c, s, cen) && Enabled(c, s, l)
    ensures var r := Next(c, s, l);
      r.Ok? && Inv(c, r.value, cen') && Progress(c, s, cen, r.value, cen')
  {
    hide Inv, Remaining, Weight, AdmitRequest, LoopPass, TakeTask, CompleteCopy;
    cen' := cen;
    match l
    case Arrive => cen' := ArriveOk(c, s, cen);
    case Pass(i) => PassOk(c, s, cen, i);
    case Wake(i) => WakeOk(c, s, cen, i);
    case AttentionDone(i) => AttentionDoneOk(c, s, cen, i);
    case ComputeDone(i) => ComputeDoneOk(c, s, cen, i);
    case Forward(i) => cen' := ForwardOk(c, s, cen, i);
    case Route(k, experts) => cen' := RouteOk(c, s, cen, k, experts);
    case Deliver(k) => DeliverOk(c, s, cen, k);
  }
}
