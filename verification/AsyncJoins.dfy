/** The join side keeps the invariant: a returned copy waits, releases its token to the next layer, or completes it. */
module AsyncJoins {
  import opened Prelude
  import opened LayerPolicy
  import opened AsyncModel
  import opened AsyncLedger
  import opened AsyncInvariant
  import opened AsyncRequests

  /** What is known when a GPU hands on a copy of t that it has just taken out of its batch. */
  ghost predicate InHand(c: Config, s: State, cen: Census, layer: nat, t: Token) {
    c.Valid() && Holds(c, s, cen, {}, Some((layer, t))) && AtStage(cen, t, AtExperts(layer)) && layer < c.numLayers
  }

  ghost function Cleared(j: Join, tid: nat): Join {
    Join(j.counts - {tid}, j.tokens - {tid})
  }

  /** A copy in the hand is a copy still owed, so the tally cannot overrun; the token released is t itself. */
  lemma TallyOk(c: Config, s: State, cen: Census, layer: nat, t: Token)
    requires InHand(c, s, cen, layer, t)
    ensures layer < |s.joins| && layer < |s.fanout| && t.tid in s.fanout[layer]
    ensures var j := s.joins[layer];
      var count := Tallied(j, t.tid) + 1;
      var expected := s.fanout[layer][t.tid];
      var r := Tally(j, FanoutOf(s.fanout[layer], t.tid), t, layer + 1 != c.numLayers);
      && r.Ok?
      && count <= expected
      && (count < expected ==>
            && r.value.released.None? && r.value.join.counts == j.counts[t.tid := count]
            && (r.value.join.tokens == j.tokens || r.value.join.tokens == j.tokens[t.tid := t]))
      && (count == expected ==> r.value == JoinResult(Cleared(j, t.tid), Some(t)))
  {
    hide WorkersOk, ProcsOk, JobsOk, CopiesOk, HistoryOk, CompletedOk, CensusOk, QueueOk;
  }

  lemma LiveFacts(c: Config, m: Manager, cen: Census, t: Token)
    requires CensusOk(c, m, cen, {}) && t.tid in cen.live && cen.live[t.tid].token == t
    ensures LiveOk(c, m, cen, t.tid, cen.live[t.tid])
  {
  }

  // ------------------------------------------------------------- waiting

  ghost predicate IsWait(c: Config, s: State, s': State, cen: Census, layer: nat, t: Token) {
    && layer < |s.joins|
    && var j := s.joins[layer];
    && |s'.joins| == |s.joins|
    && s' == s.(joins := s.joins[layer := s'.joins[layer]])
    && s'.joins[layer].counts == j.counts[t.tid := Tallied(j, t.tid) + 1]
    && (s'.joins[layer].tokens == j.tokens || s'.joins[layer].tokens == j.tokens[t.tid := t])
    && Tallied(j, t.tid) + 1 < Recorded(s, layer, t.tid)
  }

  lemma WaitCopies(c: Config, s: State, s': State, cen: Census, layer: nat, t: Token)
    requires AtStage(cen, t, AtExperts(layer)) && CopiesOk(s, cen, Some((layer, t))) && IsWait(c, s, s', cen, layer, t)
    ensures CopiesOk(s', cen, None)
  {
    forall l: nat, u | l < |s'.joins|
      ensures Copies(s', l, u)
           == if AtStage(cen, u, AtExperts(l)) then Recorded(s', l, u.tid) - Tallied(s'.joins[l], u.tid) else 0
    {
      assert Copies(s', l, u) == Copies(s, l, u);
    }
  }

  lemma WaitJoins(c: Config, s: State, s': State, cen: Census, layer: nat, t: Token)
    requires AtStage(cen, t, AtExperts(layer)) && JoinsOk(c, s, cen) && IsWait(c, s, s', cen, layer, t)
    ensures JoinsOk(c, s', cen)
  {
  }

  lemma WaitHolds(c: Config, s: State, s': State, cen: Census, layer: nat, t: Token)
    requires InHand(c, s, cen, layer, t) && IsWait(c, s, s', cen, layer, t)
    ensures Holds(c, s', cen, {}, None)
    ensures Remaining(c, s', cen) == Remaining(c, s, cen)
  {
    hide WorkersOk, ProcsOk, CopiesOk, JoinsOk, FanoutOk, IndicesOf, CompletedOk, CensusOk, Remaining;
    WaitCopies(c, s, s', cen, layer, t);
    WaitJoins(c, s, s', cen, layer, t);
    SameDone(c, s, s', cen);
    assert JobsOk(s', cen) by {
      assert forall l: nat, u :: Jobs(s', l, u) == Jobs(s, l, u);
    }
    assert FanoutOk(c, s', cen) && CompletedOk(c, s', cen) by {
      SameTables(c, s, s', cen);
    }
  }

  lemma SameTables(c: Config, s: State, s': State, cen: Census)
    requires s'.fanout == s.fanout && s'.core.m == s.core.m
    ensures FanoutOk(c, s, cen) ==> FanoutOk(c, s', cen)
    ensures CompletedOk(c, s, cen) ==> CompletedOk(c, s', cen)
  {
  }

  // ----------------------------------------------------------- advancing

  ghost function Advanced(cen: Census, layer: nat, t: Token): Census {
    cen.(live := cen.live[t.tid := Live(t, AtAttention(layer + 1))])
  }

  ghost predicate IsAdvance(c: Config, s: State, s': State, layer: nat, t: Token) {
    && layer + 1 < c.numLayers && layer < |s.joins|
    && s'.arrived == s.arrived && s'.core.m == s.core.m && s'.fanout == s.fanout && s'.procs == s.procs
    && s'.joins == s.joins[layer := Cleared(s.joins[layer], t.tid)]
    && WorkersOk(c, s'.core.ws)
    && JobsGain(s, s', Some((layer + 1, t)))
    && SameCopies(s, s')
    && Tallied(s.joins[layer], t.tid) + 1 == Recorded(s, layer, t.tid)
  }

  lemma AdvanceCensus(c: Config, m: Manager, cen: Census, layer: nat, t: Token)
    requires CensusOk(c, m, cen, {}) && AtStage(cen, t, AtExperts(layer)) && layer + 1 < c.numLayers
    ensures CensusOk(c, m, Advanced(cen, layer, t), {})
  {
    var cen' := Advanced(cen, layer, t);
    forall tid | tid in cen'.live
      ensures LiveOk(c, m, cen', tid, cen'.live[tid])
    {
      assert LiveOk(c, m, cen, tid, cen.live[tid]);
    }
  }

  lemma AdvanceJobs(c: Config, s: State, s': State, cen: Census, layer: nat, t: Token)
    requires AtStage(cen, t, AtExperts(layer)) && JobsOk(s, cen) && IsAdvance(c, s, s', layer, t)
    ensures JobsOk(s', Advanced(cen, layer, t))
  {
  }

  lemma AdvanceCopies(c: Config, s: State, s': State, cen: Census, layer: nat, t: Token)
    requires AtStage(cen, t, AtExperts(layer)) && CopiesOk(s, cen, Some((layer, t))) && IsAdvance(c, s, s', layer, t)
    ensures CopiesOk(s', Advanced(cen, layer, t), None)
  {
    var cen' := Advanced(cen, layer, t);
    forall l: nat, u | l < |s'.joins|
      ensures Copies(s', l, u)
           == if AtStage(cen', u, AtExperts(l)) then Recorded(s', l, u.tid) - Tallied(s'.joins[l], u.tid) else 0
    {
      assert Copies(s', l, u) == Copies(s, l, u);
    }
  }

  lemma AdvanceJoins(c: Config, s: State, s': State, cen: Census, layer: nat, t: Token)
    requires AtStage(cen, t, AtExperts(layer)) && JoinsOk(c, s, cen) && IsAdvance(c, s, s', layer, t)
    ensures JoinsOk(c, s', Advanced(cen, layer, t))
  {
    var cen' := Advanced(cen, layer, t);
    forall tid | tid in cen'.live && cen'.live[tid].stage.AtExperts?
      ensures var l := cen'.live[tid].stage.layer;
        l < |s'.joins| && Tallied(s'.joins[l], tid) < Recorded(s', l, tid)
    {
      assert tid != t.tid && cen'.live[tid] == cen.live[tid];
    }
  }

  lemma AdvanceFanout(c: Config, s: State, s': State, cen: Census, layer: nat, t: Token)
    requires AtStage(cen, t, AtExperts(layer)) && FanoutOk(c, s, cen) && IsAdvance(c, s, s', layer, t)
    ensures FanoutOk(c, s', Advanced(cen, layer, t))
  {
  }

  lemma AdvanceHistory(c: Config, s: State, s': State, cen: Census, layer: nat, t: Token)
    requires CensusOk(c, s.core.m, cen, {}) && QueueOk(c, s) && IsAdvance(c, s, s', layer, t)
    requires AtStage(cen, t, AtExperts(layer))
    ensures var cen' := Advanced(cen, layer, t);
      && (HistoryOk(c, s, cen) ==> HistoryOk(c, s', cen'))
      && (CompletedOk(c, s, cen) ==> CompletedOk(c, s', cen'))
  {
    hide IndicesOf;
    var cen' := Advanced(cen, layer, t);
    forall r: nat
      ensures Done(c, s', cen', r) == Done(c, s, cen, r)
    {
      AdvanceDone(c, s, s', cen, layer, t, r);
    }
    hide Done, CensusOk, QueueOk;
  }

  lemma TimesLayers(c: Config, tokens: int)
    requires c.numLayers >= 1
    ensures tokens >= 0 ==> tokens * (2 * c.numLayers) >= 0
    ensures tokens >= 1 ==> tokens * (2 * c.numLayers) >= 2 * c.numLayers
    ensures (tokens - 1) * (2 * c.numLayers) == tokens * (2 * c.numLayers) - 2 * c.numLayers
  {
  }

  lemma AdvanceDone(c: Config, s: State, s': State, cen: Census, layer: nat, t: Token, r: nat)
    requires CensusOk(c, s.core.m, cen, {}) && IsAdvance(c, s, s', layer, t) && AtStage(cen, t, AtExperts(layer))
    ensures var cen' := Advanced(cen, layer, t);
      && Done(c, s', cen', r) == Done(c, s, cen, r)
      && (r != t.rid ==> StagesLeft(c, s', cen', r) == StagesLeft(c, s, cen, r))
  {
    assert r in cen.current && cen.current[r] == t.tid ==> r == t.rid;
  }

  lemma AdvanceStages(c: Config, s: State, s': State, cen: Census, layer: nat, t: Token)
    requires c.Valid() && CensusOk(c, s.core.m, cen, {}) && QueueOk(c, s) && IsAdvance(c, s, s', layer, t)
    requires AtStage(cen, t, AtExperts(layer))
    ensures t.rid < c.totalRequests
    ensures var f, g := StagesOf(c, s, cen), StagesOf(c, s', Advanced(cen, layer, t));
      && (forall r: nat :: r != t.rid ==> f(r) == g(r))
      && f(t.rid) == g(t.rid) + 1
  {
    hide CensusOk, IsAdvance;
    var cen' := Advanced(cen, layer, t);
    LiveFacts(c, s.core.m, cen, t);
    AdvanceDone(c, s, s', cen, layer, t, t.rid);
    forall r: nat | r != t.rid
      ensures StagesLeft(c, s', cen', r) == StagesLeft(c, s, cen, r)
    {
      AdvanceDone(c, s, s', cen, layer, t, r);
    }
    assert StagesLeft(c, s', cen', t.rid) == StagesLeft(c, s, cen, t.rid) - 1 >= 0 by {
      TimesLayers(c, c.tokensPerRequest - t.index);
    }
  }

  lemma AdvanceRemaining(c: Config, s: State, s': State, cen: Census, layer: nat, t: Token)
    requires c.Valid() && CensusOk(c, s.core.m, cen, {}) && QueueOk(c, s) && IsAdvance(c, s, s', layer, t)
    requires AtStage(cen, t, AtExperts(layer))
    ensures Remaining(c, s', Advanced(cen, layer, t)) == Remaining(c, s, cen) - 1
  {
    hide CensusOk, QueueOk, IsAdvance, StagesOf;
    AdvanceStages(c, s, s', cen, layer, t);
    RangeSumChange(c.totalRequests, StagesOf(c, s, cen), StagesOf(c, s', Advanced(cen, layer, t)), t.rid);
  }

  lemma AdvanceHolds(c: Config, s: State, s': State, cen: Census, layer: nat, t: Token)
    requires InHand(c, s, cen, layer, t) && IsAdvance(c, s, s', layer, t)
    ensures Holds(c, s', Advanced(cen, layer, t), {}, None)
    ensures Remaining(c, s', Advanced(cen, layer, t)) == Remaining(c, s, cen) - 1
  {
    hide WorkersOk, ProcsOk, JobsOk, CopiesOk, JoinsOk, FanoutOk, HistoryOk, CompletedOk, CensusOk, Remaining;
    AdvanceCensus(c, s.core.m, cen, layer, t);
    AdvanceJobs(c, s, s', cen, layer, t);
    AdvanceCopies(c, s, s', cen, layer, t);
    AdvanceJoins(c, s, s', cen, layer, t);
    AdvanceFanout(c, s, s', cen, layer, t);
    AdvanceHistory(c, s, s', cen, layer, t);
    AdvanceRemaining(c, s, s', cen, layer, t);
  }

  // ---------------------------------------------------------- completing

  ghost function Retired(cen: Census, t: Token): Census {
    Census(cen.live - {t.tid}, cen.current - {t.rid})
  }

  /** The last copy of t left the last layer: its join entry is gone and it is in the completion log. */
  ghost function CompletedState(s: State, layer: nat, t: Token): State
    requires layer < |s.joins|
  {
    s.(joins := s.joins[layer := Cleared(s.joins[layer], t.tid)],
       core := s.core.(m := s.core.m.(completed := s.core.m.completed + [t])))
  }

  ghost predicate LastCopy(c: Config, s: State, cen: Census, layer: nat, t: Token) {
    && layer + 1 == c.numLayers && layer < |s.joins|
    && AtStage(cen, t, AtExperts(layer))
    && Tallied(s.joins[layer], t.tid) + 1 == Recorded(s, layer, t.tid)
  }

  lemma RetireCensus(c: Config, m: Manager, cen: Census, t: Token, m': Manager)
    requires CensusOk(c, m, cen, {}) && t.tid in cen.live && cen.live[t.tid].token == t
    requires m'.nextIndex == m.nextIndex && m'.home == m.home && m'.nextTid == m.nextTid
    ensures CensusOk(c, m', Retired(cen, t), {t.rid})
  {
    var cen' := Retired(cen, t);
    assert LiveOk(c, m, cen, t.tid, cen.live[t.tid]);
    forall tid | tid in cen'.live
      ensures LiveOk(c, m', cen', tid, cen'.live[tid])
    {
      assert LiveOk(c, m, cen, tid, cen.live[tid]);
    }
    forall rid | rid in cen'.current
      ensures cen'.current[rid] in cen'.live && cen'.live[cen'.current[rid]].token.rid == rid
    {
      assert rid in cen.current;
    }
  }

  lemma RetireJobs(c: Config, s: State, cen: Census, layer: nat, t: Token)
    requires LastCopy(c, s, cen, layer, t) && JobsOk(s, cen)
    ensures JobsOk(CompletedState(s, layer, t), Retired(cen, t))
  {
    var s' := CompletedState(s, layer, t);
    assert forall l: nat, u :: Jobs(s', l, u) == Jobs(s, l, u);
  }

  lemma RetireCopies(c: Config, s: State, cen: Census, layer: nat, t: Token)
    requires LastCopy(c, s, cen, layer, t) && CopiesOk(s, cen, Some((layer, t)))
    ensures CopiesOk(CompletedState(s, layer, t), Retired(cen, t), None)
  {
    var s' := CompletedState(s, layer, t);
    var cen' := Retired(cen, t);
    forall l: nat, u | l < |s'.joins|
      ensures Copies(s', l, u)
           == if AtStage(cen', u, AtExperts(l)) then Recorded(s', l, u.tid) - Tallied(s'.joins[l], u.tid) else 0
    {
      assert Copies(s', l, u) == Copies(s, l, u);
    }
  }

  lemma RetireJoins(c: Config, s: State, cen: Census, layer: nat, t: Token)
    requires LastCopy(c, s, cen, layer, t) && JoinsOk(c, s, cen)
    ensures JoinsOk(c, CompletedState(s, layer, t), Retired(cen, t))
  {
    var s' := CompletedState(s, layer, t);
    var cen' := Retired(cen, t);
    forall tid | tid in cen'.live && cen'.live[tid].stage.AtExperts?
      ensures var l := cen'.live[tid].stage.layer;
        l < |s'.joins| && Tallied(s'.joins[l], tid) < Recorded(s', l, tid)
    {
      assert tid in cen.live;
    }
  }

  lemma RetireLogs(c: Config, s: State, cen: Census, layer: nat, t: Token)
    requires LastCopy(c, s, cen, layer, t) && FanoutOk(c, s, cen) && CompletedOk(c, s, cen)
    requires CensusOk(c, s.core.m, cen, {})
    ensures FanoutOk(c, CompletedState(s, layer, t), Retired(cen, t))
    ensures CompletedOk(c, CompletedState(s, layer, t), Retired(cen, t))
  {
    LiveFacts(c, s.core.m, cen, t);
  }

  lemma RetireDone(c: Config, s: State, cen: Census, layer: nat, t: Token, r: nat)
    requires LastCopy(c, s, cen, layer, t) && CensusOk(c, s.core.m, cen, {})
    ensures Done(c, CompletedState(s, layer, t), Retired(cen, t), r)
         == Done(c, s, cen, r) + if r == t.rid then 1 else 0
  {
    assert LiveOk(c, s.core.m, cen, t.tid, cen.live[t.tid]);
    assert r in cen.current ==> LiveOk(c, s.core.m, cen, cen.current[r], cen.live[cen.current[r]]);
  }

  lemma RetireHistory(c: Config, s: State, cen: Census, layer: nat, t: Token)
    requires LastCopy(c, s, cen, layer, t) && CensusOk(c, s.core.m, cen, {}) && HistoryOk(c, s, cen)
    ensures HistoryOk(c, CompletedState(s, layer, t), Retired(cen, t))
  {
    var s' := CompletedState(s, layer, t);
    var cen' := Retired(cen, t);
    var log, log' := s.core.m.completed, s'.core.m.completed;
    assert log'[..|log|] == log;
    assert LiveOk(c, s.core.m, cen, t.tid, cen.live[t.tid]);
    assert Done(c, s, cen, t.rid) == t.index;
    forall r: nat
      ensures IndicesOf(log', r) == Range(0, Done(c, s', cen', r))
    {
      RetireDone(c, s, cen, layer, t, r);
      assert IndicesOf(log, r) == Range(0, Done(c, s, cen, r));
    }
  }

  lemma RetireRemaining(c: Config, s: State, cen: Census, layer: nat, t: Token)
    requires c.Valid() && LastCopy(c, s, cen, layer, t) && CensusOk(c, s.core.m, cen, {}) && QueueOk(c, s)
    ensures Remaining(c, CompletedState(s, layer, t), Retired(cen, t)) == Remaining(c, s, cen) - 1
  {
    hide CensusOk, QueueOk, Done;
    var s' := CompletedState(s, layer, t);
    var cen' := Retired(cen, t);
    RetireStages(c, s, cen, layer, t);
    RangeSumChange(c.totalRequests, StagesOf(c, s, cen), StagesOf(c, s', cen'), t.rid);
  }

  lemma RetireStages(c: Config, s: State, cen: Census, layer: nat, t: Token)
    requires c.Valid() && LastCopy(c, s, cen, layer, t) && CensusOk(c, s.core.m, cen, {}) && QueueOk(c, s)
    ensures t.rid < c.totalRequests
    ensures var f, g := StagesOf(c, s, cen), StagesOf(c, CompletedState(s, layer, t), Retired(cen, t));
      && (forall r: nat :: r != t.rid ==> f(r) == g(r))
      && f(t.rid) == g(t.rid) + 1
  {
    var s' := CompletedState(s, layer, t);
    var cen' := Retired(cen, t);
    assert LiveOk(c, s.core.m, cen, t.tid, cen.live[t.tid]);
    assert t.rid < c.totalRequests;
    forall r: nat
      ensures Done(c, s', cen', r) == Done(c, s, cen, r) + if r == t.rid then 1 else 0
      ensures r != t.rid ==> StagesLeft(c, s', cen', r) == StagesLeft(c, s, cen, r)
    {
      RetireDone(c, s, cen, layer, t, r);
    }
    hide CensusOk, QueueOk;
    assert StagesLeft(c, s', cen', t.rid) == StagesLeft(c, s, cen, t.rid) - 1 >= 0 by {
      TimesLayers(c, c.tokensPerRequest - t.index);
      TimesLayers(c, c.tokensPerRequest - t.index - 1);
    }
  }

  /** A token whose last copy left the last layer is logged, and its request is between two tokens. */
  lemma RetireHolds(c: Config, s: State, cen: Census, layer: nat, t: Token)
    requires InHand(c, s, cen, layer, t) && LastCopy(c, s, cen, layer, t)
    ensures Holds(c, CompletedState(s, layer, t), Retired(cen, t), {t.rid}, None)
    ensures Remaining(c, CompletedState(s, layer, t), Retired(cen, t)) == Remaining(c, s, cen) - 1
  {
    hide WorkersOk, ProcsOk, JobsOk, CopiesOk, JoinsOk, FanoutOk, HistoryOk, CompletedOk, CensusOk, Remaining;
    hide Retired, Cleared;
    var s' := CompletedState(s, layer, t);
    assert QueueOk(c, s');
    hide QueueOk;
    RetireCensus(c, s.core.m, cen, t, s'.core.m);
    RetireJobs(c, s, cen, layer, t);
    RetireCopies(c, s, cen, layer, t);
    RetireJoins(c, s, cen, layer, t);
    RetireLogs(c, s, cen, layer, t);
    RetireHistory(c, s, cen, layer, t);
    RetireRemaining(c, s, cen, layer, t);
  }
}
