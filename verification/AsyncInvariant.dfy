/**
 * The protocol invariant. A census names, for every active request, the one token it has in flight and the stage
 * of that token; every count, table and log of the state is then determined by the census.
 */
module AsyncInvariant {
  import opened Prelude
  import opened LayerPolicy
  import opened AsyncModel
  import opened AsyncLedger

  datatype Stage = AtAttention(layer: nat) | AtExperts(layer: nat)

  datatype Live = Live(token: Token, stage: Stage)

  /** The tokens in flight by token id, and the token id in flight for each active request. */
  datatype Census = Census(live: map<nat, Live>, current: map<nat, nat>)

  // ------------------------------------------------------------- requests

  /** Requests that left the waiting queue: exactly the first ones to arrive. */
  ghost function Admitted(s: State): int {
    s.arrived - |s.core.m.pending|
  }

  /** Active requests have one token in flight each, except those in `hole`, which are between two tokens. */
  ghost predicate CensusOk(c: Config, m: Manager, cen: Census, hole: set<nat>) {
    && m.nextIndex.Keys == m.home.Keys == cen.current.Keys + hole
    && cen.current.Keys !! hole
    && (forall rid :: rid in m.home ==> m.home[rid] < c.numWorkers)
    && (forall rid :: rid in cen.current ==> cen.current[rid] in cen.live && cen.live[cen.current[rid]].token.rid == rid)
    && (forall tid :: tid in cen.live ==> LiveOk(c, m, cen, tid, cen.live[tid]))
  }

  ghost predicate LiveOk(c: Config, m: Manager, cen: Census, tid: nat, e: Live) {
    && e.token.tid == tid < m.nextTid
    && e.stage.layer < c.numLayers
    && e.token.rid in cen.current && cen.current[e.token.rid] == tid
    && e.token.rid in m.nextIndex && m.nextIndex[e.token.rid] == e.token.index + 1 <= c.tokensPerRequest
    && e.token.rid in m.home && m.home[e.token.rid] == e.token.home < c.numWorkers
  }

  /** Requests wait in arrival order; active ones have been admitted; their number respects the cap. */
  ghost predicate QueueOk(c: Config, s: State) {
    var m := s.core.m;
    && |m.pending| <= s.arrived <= c.totalRequests
    && m.pending == Range(s.arrived - |m.pending|, s.arrived)
    && (forall rid :: rid in m.nextIndex ==> rid < Admitted(s))
    && (c.cap.Some? ==> |m.nextIndex| <= c.cap.value)
  }

  /** Requests wait only while the cap is reached. */
  ghost predicate FullOk(c: Config, m: Manager) {
    m.pending != [] ==> c.cap.Some? && |m.nextIndex| == c.cap.value
  }

  // ---------------------------------------------------------- conservation

  ghost function Tallied(j: Join, tid: nat): nat {
    if tid in j.counts then j.counts[tid] else 0
  }

  ghost predicate AtStage(cen: Census, t: Token, stage: Stage) {
    t.tid in cen.live && cen.live[t.tid] == Live(t, stage)
  }

  /** Attention jobs: one for each token at an attention stage, none otherwise. */
  ghost predicate JobsOk(s: State, cen: Census) {
    forall l: nat, t :: Jobs(s, l, t) == if AtStage(cen, t, AtAttention(l)) then 1 else 0
  }

  ghost function Recorded(s: State, l: nat, tid: nat): nat {
    if l < |s.fanout| && tid in s.fanout[l] then s.fanout[l][tid] else 0
  }

  /** Copies still out plus copies tallied make up the fanout recorded at dispatch; `lost` is a copy in the hand. */
  ghost predicate CopiesOk(s: State, cen: Census, lost: Option<Job>) {
    forall l: nat, t :: l < |s.joins| ==>
      Copies(s, l, t) + (if lost == Some((l, t)) then 1 else 0)
      == if AtStage(cen, t, AtExperts(l)) then Recorded(s, l, t.tid) - Tallied(s.joins[l], t.tid) else 0
  }

  /** Only tokens at the experts of a layer have a count there, positive and short of the fanout. */
  ghost predicate JoinsOk(c: Config, s: State, cen: Census) {
    && |s.joins| == c.numLayers
    && (forall l: nat, tid {:trigger tid in s.joins[l].counts} :: l < |s.joins| && tid in s.joins[l].counts ==>
          s.joins[l].counts[tid] > 0 && tid in cen.live && cen.live[tid].stage == AtExperts(l))
    && (forall l: nat, tid {:trigger tid in s.joins[l].tokens} :: l < |s.joins| && tid in s.joins[l].tokens ==>
          tid in cen.live && cen.live[tid] == Live(s.joins[l].tokens[tid], AtExperts(l)))
    && (forall tid :: tid in cen.live && cen.live[tid].stage.AtExperts? ==>
          var l := cen.live[tid].stage.layer;
          l < |s.joins| && Tallied(s.joins[l], tid) < Recorded(s, l, tid))
  }

  /** Layers a token has been routed through. */
  ghost function RoutedLayers(stage: Stage): nat {
    match stage
    case AtAttention(l) => l
    case AtExperts(l) => l + 1
  }

  /** A live token has a fanout entry exactly for the layers it was routed at; ids not yet issued have none. */
  ghost predicate FanoutOk(c: Config, s: State, cen: Census) {
    && |s.fanout| == c.numLayers
    && (forall l: nat, tid {:trigger tid in s.fanout[l]} :: l < |s.fanout| && tid in s.fanout[l] ==> tid < s.core.m.nextTid)
    && (forall l: nat, tid {:trigger tid in s.fanout[l]} :: l < |s.fanout| && tid in cen.live ==>
          (tid in s.fanout[l] <==> l < RoutedLayers(cen.live[tid].stage)))
  }

  // --------------------------------------------------------------- history

  /** Token indices of request rid in a completion log, in log order. */
  ghost function IndicesOf(log: seq<Token>, rid: nat): seq<nat> {
    if |log| == 0 then []
    else
      var t := log[|log| - 1];
      IndicesOf(log[..|log| - 1], rid) + if t.rid == rid then [t.index] else []
  }

  /** How many tokens of a request have completed. */
  ghost function Done(c: Config, s: State, cen: Census, rid: nat): nat {
    var m := s.core.m;
    if rid in cen.current && cen.current[rid] in cen.live then cen.live[cen.current[rid]].token.index
    else if rid in m.nextIndex then m.nextIndex[rid]
    else if rid < Admitted(s) then c.tokensPerRequest
    else 0
  }

  /** Every request's tokens completed in order 0, 1, 2, ..., and it was reported finished once all had. */
  ghost predicate HistoryOk(c: Config, s: State, cen: Census) {
    && (forall rid: nat :: IndicesOf(s.core.m.completed, rid) == Range(0, Done(c, s, cen, rid)))
    && (forall rid: nat :: multiset(s.core.m.finished)[rid]
                        == if rid < Admitted(s) && rid !in s.core.m.nextIndex then 1 else 0)
  }

  /** Completed tokens are distinct, no longer live, and were routed at every layer. */
  ghost predicate CompletedOk(c: Config, s: State, cen: Census) {
    var log := s.core.m.completed;
    && (forall i, j :: 0 <= i < j < |log| ==> log[i].tid != log[j].tid)
    && (forall i :: 0 <= i < |log| ==> log[i].tid < s.core.m.nextTid && log[i].tid !in cen.live)
    && (forall i, l: nat :: 0 <= i < |log| && l < |s.fanout| ==> log[i].tid in s.fanout[l])
  }

  // ------------------------------------------------------------- invariant

  /** All of the above but the condition on waiting; `hole` and `lost` describe points inside a callback. */
  ghost predicate Holds(c: Config, s: State, cen: Census, hole: set<nat>, lost: Option<Job>) {
    && WorkersOk(c, s.core.ws)
    && ProcsOk(c, s.procs)
    && CensusOk(c, s.core.m, cen, hole)
    && QueueOk(c, s)
    && JobsOk(s, cen)
    && CopiesOk(s, cen, lost)
    && JoinsOk(c, s, cen)
    && FanoutOk(c, s, cen)
    && HistoryOk(c, s, cen)
    && CompletedOk(c, s, cen)
  }

  ghost predicate Inv(c: Config, s: State, cen: Census) {
    c.Valid() && Holds(c, s, cen, {}, None) && FullOk(c, s.core.m)
  }

  // --------------------------------------------------------- work remaining

  ghost function Position(stage: Stage): nat {
    match stage
    case AtAttention(l) => 2 * l
    case AtExperts(l) => 2 * l + 1
  }

  /** Stages the tokens of a request still have to pass. */
  ghost function StagesLeft(c: Config, s: State, cen: Census, rid: nat): int {
    var all := (c.tokensPerRequest - Done(c, s, cen, rid)) * (2 * c.numLayers);
    if rid in cen.current && cen.current[rid] in cen.live
    then all - Position(cen.live[cen.current[rid]].stage)
    else all
  }

  ghost function StagesOf(c: Config, s: State, cen: Census): nat -> nat {
    (rid: nat) => if StagesLeft(c, s, cen, rid) < 0 then 0 else StagesLeft(c, s, cen, rid)
  }

  /** Stages left over all requests. */
  ghost function Remaining(c: Config, s: State, cen: Census): nat {
    RangeSum(c.totalRequests, StagesOf(c, s, cen))
  }
}
