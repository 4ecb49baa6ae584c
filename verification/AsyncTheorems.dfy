/**
 * What holds of every run of the protocol: it raises nothing, loses nothing, keeps requests in order, cannot run
 * for ever, and stops only when every token of every request has completed exactly once.
 */
module AsyncTheorems {
  import opened Prelude
  import opened LayerPolicy
  import opened AsyncModel
  import opened AsyncLedger
  import opened AsyncInvariant
  import opened AsyncJoins
  import opened AsyncSteps

  // -------------------------------------------------------- all reachable

  lemma EmptyWorkerOk(c: Config, i: nat)
    requires c.Valid()
    ensures WorkerOk(c, i, EmptyWorker(c))
    ensures forall l: nat, t :: JobsIn(EmptyWorker(c), l, t) == 0 && CopiesIn(EmptyWorker(c), l, t) == 0
  {
    var w := EmptyWorker(c);
    forall l | 0 <= l < |w.queues|
      ensures LayerLen(w.queues[l]) == 0
    {
      NatSumZero(w.queues[l], SeqLen);
    }
    NatSumZero(w.queues, LayerLen);
    forall l: nat, t
      ensures CopiesIn(w, l, t) == 0
    {
      if l < |w.queues| {
        NatSumZero(w.queues[l], Occurs(t));
      }
    }
  }

  lemma InitOk(c: Config)
    requires c.Valid()
    ensures Inv(c, Init(c), Census(map[], map[]))
  {
    var s := Init(c);
    EmptyWorkerOk(c, 0);
    forall i | 0 <= i < |s.core.ws|
      ensures WorkerOk(c, i, s.core.ws[i])
    {
      EmptyWorkerOk(c, i);
    }
    forall l: nat, t
      ensures Jobs(s, l, t) == 0 && Copies(s, l, t) == 0
    {
      NatSumZero(s.core.ws, WorkerJobs(l, t));
      NatSumZero(s.core.ws, WorkerCopies(l, t));
    }
  }

  /** Every state of a run satisfies the invariant under some census. */
  lemma {:induction false} RunKeepsInv(c: Config, states: seq<State>, labels: seq<Label>) returns (cen: Census)
    requires c.Valid() && IsRun(c, states, labels)
    ensures Inv(c, states[|labels|], cen)
    decreases |labels|
  {
    hide Inv, Enabled, Next;
    if |labels| == 0 {
      InitOk(c);
      cen := Census(map[], map[]);
    } else {
      var n := |labels| - 1;
      assert IsStep(c, states[n], labels[n], states[n + 1]);
      assert IsRun(c, states[..n + 1], labels[..n]) by {
        assert forall i :: 0 <= i < n ==> IsStep(c, states[i], labels[i], states[i + 1]);
      }
      cen := RunKeepsInv(c, states[..n + 1], labels[..n]);
      cen := StepOk(c, states[n], cen, labels[n]);
    }
  }

  ghost predicate Reachable(c: Config, s: State) {
    exists states, labels :: IsRun(c, states, labels) && states[|labels|] == s
  }

  lemma InitReachable(c: Config)
    ensures Reachable(c, Init(c))
  {
    var states, labels: seq<Label> := [Init(c)], [];
    assert IsRun(c, states, labels) && states[|labels|] == Init(c);
  }

  lemma StepReachable(c: Config, s: State, l: Label, s': State)
    requires Reachable(c, s) && IsStep(c, s, l, s')
    ensures Reachable(c, s')
  {
    hide IsStep;
    var states, labels :| IsRun(c, states, labels) && states[|labels|] == s;
    var states', labels' := states + [s'], labels + [l];
    forall i | 0 <= i < |labels'|
      ensures IsStep(c, states'[i], labels'[i], states'[i + 1])
    {
      assert i < |labels| ==> IsStep(c, states[i], labels[i], states[i + 1]);
    }
    assert IsRun(c, states', labels') && states'[|labels'|] == s';
  }

  lemma ReachableInv(c: Config, s: State) returns (cen: Census)
    requires c.Valid() && Reachable(c, s)
    ensures Inv(c, s, cen)
  {
    hide Inv;
    var states, labels :| IsRun(c, states, labels) && states[|labels|] == s;
    cen := RunKeepsInv(c, states, labels);
  }

  // --------------------------------------------------------- no exception

  /** None of the simulator's runtime errors can be raised, whatever the interleaving and the routing. */
  lemma NeverRaises(c: Config, s: State, l: Label)
    requires c.Valid() && Reachable(c, s) && Enabled(c, s, l)
    ensures Next(c, s, l).Ok?
  {
    hide Inv, Next, Enabled;
    var cen := ReachableInv(c, s);
    cen := StepOk(c, s, cen, l);
  }

  // --------------------------------------------------------- conservation

  ghost predicate InFlight(s: State, t: Token) {
    exists l: nat :: Jobs(s, l, t) > 0 || Copies(s, l, t) > 0
  }

  /**
   * Copies are conserved: while any copy of a token for a layer is queued, in a batch or in transit, the copies
   * out plus those tallied at the join make exactly the fanout recorded when it was dispatched, and the token has
   * no attention job and no copy anywhere else.
   */
  lemma CopiesConserved(c: Config, s: State, l: nat, t: Token)
    requires c.Valid() && Reachable(c, s) && l < c.numLayers && Copies(s, l, t) > 0
    ensures |s.joins| == c.numLayers
    ensures Copies(s, l, t) + Tallied(s.joins[l], t.tid) == Recorded(s, l, t.tid)
    ensures forall k: nat :: Jobs(s, k, t) == 0
    ensures forall k: nat :: k < c.numLayers && k != l ==> Copies(s, k, t) == 0
  {
    var cen := ReachableInv(c, s);
    assert AtStage(cen, t, AtExperts(l));
  }

  /** A token at attention has exactly one job, at one layer, and no copies out. */
  lemma OneJob(c: Config, s: State, l: nat, t: Token)
    requires c.Valid() && Reachable(c, s) && Jobs(s, l, t) > 0
    ensures l < c.numLayers && Jobs(s, l, t) == 1
    ensures forall k: nat :: k != l ==> Jobs(s, k, t) == 0
    ensures forall k: nat :: k < c.numLayers ==> Copies(s, k, t) == 0
  {
    hide WorkerOk, Jobs, Copies;
    var cen := ReachableInv(c, s);
    assert AtStage(cen, t, AtAttention(l));
    assert LiveOk(c, s.core.m, cen, t.tid, cen.live[t.tid]);
  }

  /** A count held at a join is positive, short of the fanout, and belongs to a token with copies still out. */
  lemma TalliesAreOwed(c: Config, s: State, l: nat, tid: nat)
    requires c.Valid() && Reachable(c, s) && l < |s.joins| && tid in s.joins[l].counts
    ensures 0 < s.joins[l].counts[tid] < Recorded(s, l, tid)
    ensures exists t: Token :: t.tid == tid && Copies(s, l, t) == Recorded(s, l, tid) - s.joins[l].counts[tid]
  {
    hide WorkerOk, Copies;
    var cen := ReachableInv(c, s);
    var t := cen.live[tid].token;
    assert LiveOk(c, s.core.m, cen, tid, cen.live[tid]);
    assert AtStage(cen, t, AtExperts(l));
    assert t.tid == tid && Copies(s, l, t) == Recorded(s, l, tid) - s.joins[l].counts[tid];
  }

  // ------------------------------------------------------------- requests

  /**
   * Requests are admitted in arrival order and wait only behind a full cap; each active one has one token in
   * flight, its tokens before that one have completed in order, and a finished one completed all of them in order.
   */
  lemma RequestsInOrder(c: Config, s: State)
    requires c.Valid() && Reachable(c, s)
    ensures var m := s.core.m;
      && |m.pending| <= s.arrived
      && m.pending == Range(s.arrived - |m.pending|, s.arrived)
      && (c.cap.Some? ==> |m.nextIndex| <= c.cap.value)
      && (m.pending != [] ==> c.cap.Some? && |m.nextIndex| == c.cap.value)
      && (forall rid :: rid in m.nextIndex ==>
            && rid < s.arrived - |m.pending|
            && 0 < m.nextIndex[rid] <= c.tokensPerRequest
            && IndicesOf(m.completed, rid) == Range(0, m.nextIndex[rid] - 1))
      && (forall rid: nat :: rid !in m.nextIndex ==>
            IndicesOf(m.completed, rid) == Range(0, if rid < s.arrived - |m.pending| then c.tokensPerRequest else 0))
  {
    hide WorkersOk, ProcsOk, JobsOk, CopiesOk, JoinsOk, FanoutOk, CompletedOk;
    var cen := ReachableInv(c, s);
    var m := s.core.m;
    hide Reachable, IndicesOf, Range;
    forall rid | rid in m.nextIndex
      ensures 0 < m.nextIndex[rid] <= c.tokensPerRequest
      ensures IndicesOf(m.completed, rid) == Range(0, m.nextIndex[rid] - 1)
    {
      assert rid in cen.current;
      assert LiveOk(c, m, cen, cen.current[rid], cen.live[cen.current[rid]]);
      assert Done(c, s, cen, rid) == m.nextIndex[rid] - 1;
    }
  }

  lemma InFlightIsLive(c: Config, s: State, cen: Census, u: Token)
    requires Inv(c, s, cen) && InFlight(s, u)
    ensures u.tid in cen.live && cen.live[u.tid].token == u
  {
    hide Jobs, Copies, WorkerOk;
    assert forall l: nat :: c.numLayers <= l ==> Copies(s, l, u) == 0 by {
      forall l: nat | c.numLayers <= l
        ensures Copies(s, l, u) == 0
      {
        NoCopiesBeyond(c, s, l, u);
      }
    }
  }

  lemma NoCopiesBeyond(c: Config, s: State, l: nat, u: Token)
    requires WorkersOk(c, s.core.ws) && ProcsOk(c, s.procs) && c.numLayers <= l
    ensures Copies(s, l, u) == 0
  {
    forall i | 0 <= i < |s.core.ws|
      ensures CopiesIn(s.core.ws[i], l, u) == 0
    {
      assert WorkerOk(c, i, s.core.ws[i]);
    }
    NatSumZero(s.core.ws, WorkerCopies(l, u));
    NatSumZero(s.procs, ProcCopies(l, u));
  }

  lemma LiveIsInFlight(c: Config, s: State, cen: Census, tid: nat)
    requires Inv(c, s, cen) && tid in cen.live
    ensures InFlight(s, cen.live[tid].token)
  {
    hide Jobs, Copies, WorkerOk;
    var e := cen.live[tid];
    assert LiveOk(c, s.core.m, cen, tid, e);
    assert AtStage(cen, e.token, e.stage);
    assert Jobs(s, e.stage.layer, e.token) > 0 || Copies(s, e.stage.layer, e.token) > 0;
  }

  /** Each active request has exactly one token in flight, the one dispatched last; no other request has any. */
  lemma OneTokenPerRequest(c: Config, s: State, rid: nat)
    requires c.Valid() && Reachable(c, s)
    ensures rid in s.core.m.nextIndex ==>
      exists t: Token :: t.rid == rid && InFlight(s, t) && t.index + 1 == s.core.m.nextIndex[rid]
    ensures forall t: Token, u: Token :: InFlight(s, t) && InFlight(s, u) && t.rid == u.rid ==> t == u
    ensures rid !in s.core.m.nextIndex ==> forall t: Token :: InFlight(s, t) ==> t.rid != rid
  {
    hide Inv, InFlight;
    var cen := ReachableInv(c, s);
    assert CensusOk(c, s.core.m, cen, {}) by {
      InvCensus(c, s, cen);
    }
    forall t | InFlight(s, t)
      ensures t.rid in s.core.m.nextIndex && t.rid in cen.current && cen.current[t.rid] == t.tid
      ensures t.tid in cen.live && cen.live[t.tid].token == t
    {
      InFlightIsLive(c, s, cen, t);
      LiveFacts(c, s.core.m, cen, t);
    }
    if rid in s.core.m.nextIndex {
      assert rid in cen.current;
      var tid := cen.current[rid];
      LiveIsInFlight(c, s, cen, tid);
      assert LiveOk(c, s.core.m, cen, tid, cen.live[tid]);
      assert cen.live[tid].token.rid == rid;
    }
  }

  lemma InvCensus(c: Config, s: State, cen: Census)
    requires Inv(c, s, cen)
    ensures CensusOk(c, s.core.m, cen, {})
  {
  }

  // ------------------------------------------------- wake-ups and progress

  /**
   * No wake-up is lost and no loop spins: a GPU asleep on an unfired event has nothing queued, one whose event
   * fired has something, cached totals are exact, and going through the loop top or waking always leaves it
   * working or asleep, with less weight.
   */
  lemma NoLostWakeup(c: Config, s: State, i: nat)
    requires c.Valid() && Reachable(c, s) && i < |s.core.ws|
    ensures var w := s.core.ws[i];
      && w.total == NatSum(w.queues, LayerLen)
      && (w.phase.Asleep? ==> (w.triggered <==> w.total != 0 || w.attention != []))
      && (w.phase.LoopTop? ==> !LoopPass(c, w).phase.LoopTop? && WorkerWeight(LoopPass(c, w)) < WorkerWeight(w))
      && (w.phase.Asleep? && w.triggered ==>
            (TakeTask(c, w).phase.Attending? || TakeTask(c, w).phase.Computing?)
            && WorkerWeight(TakeTask(c, w)) < WorkerWeight(w))
  {
    hide JobsOk, CopiesOk, JoinsOk, FanoutOk, HistoryOk, CompletedOk, CensusOk, QueueOk, LoopPass, TakeTask;
    var cen := ReachableInv(c, s);
    var w := s.core.ws[i];
    assert WorkerOk(c, i, w);
    if w.phase.LoopTop? {
      LoopPassEffect(c, i, w);
    } else if w.phase.Asleep? && w.triggered {
      TakeTaskEffect(c, i, w);
    }
  }

  lemma {:induction false} Descent(c: Config, states: nat -> State, labels: nat -> Label, n: nat, cen: Census)
    requires Inv(c, states(n), cen)
    requires states(n).arrived <= c.totalRequests
    ensures exists k: nat :: !IsStep(c, states(k), labels(k), states(k + 1))
    decreases Remaining(c, states(n), cen), c.totalRequests - states(n).arrived, Weight(states(n))
  {
    hide Inv, Remaining, Weight, Next, Enabled;
    if IsStep(c, states(n), labels(n), states(n + 1)) {
      var cen' := StepOk(c, states(n), cen, labels(n));
      InvArrived(c, states(n + 1), cen');
      Descent(c, states, labels, n + 1, cen');
    }
  }

  lemma InvArrived(c: Config, s: State, cen: Census)
    requires Inv(c, s, cen)
    ensures s.arrived <= c.totalRequests
  {
  }

  /** Every run ends: an infinite sequence of states from the initial one has a step the protocol cannot take. */
  lemma EveryRunEnds(c: Config, states: nat -> State, labels: nat -> Label)
    requires c.Valid() && states(0) == Init(c)
    ensures exists k: nat :: !IsStep(c, states(k), labels(k), states(k + 1))
  {
    InitOk(c);
    Descent(c, states, labels, 0, Census(map[], map[]));
  }

  // ------------------------------------------------------------ completion

  /** Nothing is queued, running or in transit, and no join holds a count or a token. */
  ghost predicate Drained(s: State) {
    && (forall i :: 0 <= i < |s.core.ws| ==> s.core.ws[i].phase.Asleep? && HasNoWork(s.core.ws[i]))
    && s.procs == []
    && (forall l :: 0 <= l < |s.joins| ==> s.joins[l] == Join(map[], map[]))
  }

  /** Every request finished once, after each of its tokens completed once, in order, through every layer. */
  ghost predicate AllDone(c: Config, s: State) {
    var m := s.core.m;
    && s.arrived == c.totalRequests && m.pending == [] && m.nextIndex == map[]
    && (forall rid: nat :: rid < c.totalRequests ==>
          IndicesOf(m.completed, rid) == Range(0, c.tokensPerRequest) && multiset(m.finished)[rid] == 1)
    && |m.completed| == c.totalRequests * c.tokensPerRequest
    && (forall i, j :: 0 <= i < j < |m.completed| ==> m.completed[i].tid != m.completed[j].tid)
    && |s.fanout| == c.numLayers
    && (forall i, l: nat :: 0 <= i < |m.completed| && l < |s.fanout| ==> m.completed[i].tid in s.fanout[l])
  }

  lemma QuiescentWorkers(c: Config, s: State, cen: Census)
    requires Inv(c, s, cen) && forall l :: !Enabled(c, s, l)
    ensures s.procs == [] && s.arrived == c.totalRequests
    ensures forall i :: 0 <= i < |s.core.ws| ==> s.core.ws[i].phase.Asleep? && HasNoWork(s.core.ws[i])
  {
    hide JobsOk, CopiesOk, JoinsOk, FanoutOk, HistoryOk, CompletedOk, CensusOk;
    assert !Enabled(c, s, Arrive);
    forall i | 0 <= i < |s.core.ws|
      ensures s.core.ws[i].phase.Asleep? && HasNoWork(s.core.ws[i])
    {
      assert WorkerOk(c, i, s.core.ws[i]);
      assert !Enabled(c, s, Pass(i)) && !Enabled(c, s, Wake(i)) && !Enabled(c, s, AttentionDone(i));
      assert !Enabled(c, s, ComputeDone(i)) && !Enabled(c, s, Forward(i));
    }
    assert c.ExpertCount() > 0 by {
      MulMonotone(1, c.numWorkers, c.queuesPerWorker);
    }
    assert ValidExperts(c, [0]);
    assert !Enabled(c, s, Deliver(0)) && !Enabled(c, s, Route(0, [0]));
  }

  lemma IdleHoldsNothing(s: State, l: nat, t: Token)
    requires s.procs == []
    requires forall i :: 0 <= i < |s.core.ws| ==> s.core.ws[i].phase.Asleep? && HasNoWork(s.core.ws[i])
    requires forall i :: 0 <= i < |s.core.ws| ==> s.core.ws[i].total == NatSum(s.core.ws[i].queues, LayerLen)
    ensures Jobs(s, l, t) == 0 && Copies(s, l, t) == 0
  {
    forall i | 0 <= i < |s.core.ws|
      ensures JobsIn(s.core.ws[i], l, t) == 0 && CopiesIn(s.core.ws[i], l, t) == 0
    {
      var w := s.core.ws[i];
      NatSumZero(w.queues, LayerLen);
      if l < |w.queues| {
        assert LayerLen(w.queues[l]) == 0;
        NatSumZero(w.queues[l], SeqLen);
        NatSumZero(w.queues[l], Occurs(t));
        assert forall q :: 0 <= q < |w.queues[l]| ==> w.queues[l][q] == [];
      }
    }
    NatSumZero(s.core.ws, WorkerJobs(l, t));
    NatSumZero(s.core.ws, WorkerCopies(l, t));
  }

  lemma QuiescentHasNoLive(c: Config, s: State, cen: Census)
    requires Inv(c, s, cen) && forall l :: !Enabled(c, s, l)
    ensures cen.live == map[]
  {
    hide Enabled, Jobs, Copies;
    QuiescentWorkers(c, s, cen);
    if tid :| tid in cen.live {
      LiveIsInFlight(c, s, cen, tid);
      var t := cen.live[tid].token;
      assert forall i :: 0 <= i < |s.core.ws| ==> WorkerOk(c, i, s.core.ws[i]);
      forall l: nat
        ensures Jobs(s, l, t) == 0 && Copies(s, l, t) == 0
      {
        IdleHoldsNothing(s, l, t);
      }
      assert false;
    }
  }

  /** A log's length is the number of its entries counted request by request. */
  lemma {:induction false} CountByRequest(log: seq<Token>, n: nat)
    requires forall i :: 0 <= i < |log| ==> log[i].rid < n
    ensures RangeSum(n, CountOf(log)) == |log|
  {
    if |log| == 0 {
      RangeSumConst(n, 0, CountOf(log));
    } else {
      var rest, t := log[..|log| - 1], log[|log| - 1];
      CountByRequest(rest, n);
      RangeSumChange(n, CountOf(rest), CountOf(log), t.rid);
    }
  }

  ghost function CountOf(log: seq<Token>): nat -> nat {
    (rid: nat) => |IndicesOf(log, rid)|
  }

  lemma {:induction false} RangeSumConst(n: nat, k: nat, f: nat -> nat)
    requires forall i: nat :: i < n ==> f(i) == k
    ensures RangeSum(n, f) == n * k
  {
    if n > 0 {
      RangeSumConst(n - 1, k, f);
    }
  }

  lemma {:induction false} LoggedRequests(log: seq<Token>, n: nat)
    requires forall rid: nat :: rid >= n ==> IndicesOf(log, rid) == []
    ensures forall i :: 0 <= i < |log| ==> log[i].rid < n
  {
    if |log| > 0 {
      var rest, t := log[..|log| - 1], log[|log| - 1];
      forall rid: nat | rid >= n
        ensures IndicesOf(rest, rid) == [] && t.rid != rid
      {
        assert IndicesOf(log, rid) == IndicesOf(rest, rid) + if t.rid == rid then [t.index] else [];
      }
      LoggedRequests(rest, n);
      assert forall i :: 0 <= i < |log| - 1 ==> log[i] == rest[i];
    }
  }

  /**
   * No deadlock and nothing forgotten: a reachable state in which nothing can happen any more has every token of
   * every request completed exactly once, and the whole system drained.
   */
  lemma QuiescentIsDone(c: Config, s: State)
    requires c.Valid() && Reachable(c, s) && forall l :: !Enabled(c, s, l)
    ensures AllDone(c, s) && Drained(s)
  {
    hide Enabled, Jobs, Copies, Reachable;
    var cen := ReachableInv(c, s);
    QuiescentWorkers(c, s, cen);
    QuiescentHasNoLive(c, s, cen);
    DoneWhenNoneLive(c, s, cen);
    forall l | 0 <= l < |s.joins|
      ensures s.joins[l] == Join(map[], map[])
    {
      assert forall tid :: tid in s.joins[l].counts || tid in s.joins[l].tokens ==> tid in cen.live;
      assert s.joins[l].counts == map[] && s.joins[l].tokens == map[];
    }
  }

  lemma DoneWhenNoneLive(c: Config, s: State, cen: Census)
    requires Inv(c, s, cen) && cen.live == map[] && s.arrived == c.totalRequests
    ensures AllDone(c, s)
  {
    hide WorkersOk, ProcsOk, JobsOk, CopiesOk, JoinsOk;
    var m := s.core.m;
    assert forall rid :: rid in cen.current ==> cen.current[rid] in cen.live;
    assert m.nextIndex == map[];
    assert m.pending == [];
    forall rid: nat
      ensures IndicesOf(m.completed, rid) == if rid < c.totalRequests then Range(0, c.tokensPerRequest) else []
    {
      assert Done(c, s, cen, rid) == if rid < c.totalRequests then c.tokensPerRequest else 0;
    }
    LoggedRequests(m.completed, c.totalRequests);
    CountByRequest(m.completed, c.totalRequests);
    RangeSumConst(c.totalRequests, c.tokensPerRequest, CountOf(m.completed));
  }

  // ------------------------------------------------- once per layer

  ghost predicate RoutesAt(s: State, l: Label, layer: nat, tid: nat) {
    l.Route? && l.k < |s.procs| && s.procs[l.k].layer == layer && s.procs[l.k].token.tid == tid
  }

  lemma JoinKeepsFanout(c: Config, s: State, layer: nat, t: Token)
    ensures CompleteCopy(c, s, layer, t).Ok? ==> CompleteCopy(c, s, layer, t).value.fanout == s.fanout
  {
  }

  /** Fanout entries are never removed. */
  lemma FanoutGrows(c: Config, s: State, l: Label, s': State, layer: nat, tid: nat)
    requires IsStep(c, s, l, s')
    requires layer < |s.fanout| && tid in s.fanout[layer]
    ensures layer < |s'.fanout| && tid in s'.fanout[layer]
  {
    hide CompleteCopy, AdmitRequest, DeliverAll, LoopPass, TakeTask;
    if l.Forward? {
      var w := s.core.ws[l.w];
      if w.phase.batch != [] {
        JoinKeepsFanout(c, SetWorker(s, l.w, ForwardedWorker(w)), w.phase.layer, w.phase.batch[0]);
      }
    }
  }

  lemma {:induction false} FanoutStays(c: Config, states: seq<State>, labels: seq<Label>, i: nat, j: nat, layer: nat, tid: nat)
    requires IsRun(c, states, labels) && i <= j <= |labels|
    requires layer < |states[i].fanout| && tid in states[i].fanout[layer]
    ensures layer < |states[j].fanout| && tid in states[j].fanout[layer]
    decreases j - i
  {
    hide IsStep;
    if i < j {
      FanoutGrows(c, states[i], labels[i], states[i + 1], layer, tid);
      FanoutStays(c, states, labels, i + 1, j, layer, tid);
    }
  }

  lemma RouteRecords(c: Config, s: State, l: Label, s': State, layer: nat, tid: nat)
    requires IsStep(c, s, l, s') && RoutesAt(s, l, layer, tid)
    ensures layer < |s'.fanout| && tid in s'.fanout[layer]
  {
  }

  /** In any run, a token is routed at most once per layer. */
  lemma RoutedOnce(c: Config, states: seq<State>, labels: seq<Label>, i: nat, j: nat, layer: nat, tid: nat)
    requires c.Valid() && IsRun(c, states, labels) && i < j < |labels|
    requires RoutesAt(states[i], labels[i], layer, tid)
    ensures !RoutesAt(states[j], labels[j], layer, tid)
  {
    hide Inv, Next, Enabled;
    if RoutesAt(states[j], labels[j], layer, tid) {
      assert IsStep(c, states[i], labels[i], states[i + 1]) && IsStep(c, states[j], labels[j], states[j + 1]);
      RouteRecords(c, states[i], labels[i], states[i + 1], layer, tid);
      FanoutStays(c, states, labels, i + 1, j, layer, tid);
      assert IsRun(c, states[..j + 1], labels[..j]) by {
        assert forall n :: 0 <= n < j ==> IsStep(c, states[n], labels[n], states[n + 1]);
      }
      var cen := RunKeepsInv(c, states[..j + 1], labels[..j]);
      cen := RouteOk(c, states[j], cen, labels[j].k, labels[j].experts);
      assert false;
    }
  }
}
