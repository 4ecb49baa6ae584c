/** The request side keeps the invariant: dispatching the next token, starting, admitting and completing requests. */
module AsyncRequests {
  import opened Prelude
  import opened LayerPolicy
  import opened AsyncModel
  import opened AsyncLedger
  import opened AsyncInvariant

  /** Counts of s' are those of s, with one more attention job if `gain` names one. */
  ghost predicate JobsGain(s: State, s': State, gain: Option<Job>) {
    forall l: nat, u :: Jobs(s', l, u) == Jobs(s, l, u) + if gain == Some((l, u)) then 1 else 0
  }

  ghost predicate SameCopies(s: State, s': State) {
    forall l: nat, u :: Copies(s', l, u) == Copies(s, l, u)
  }

  // ------------------------------------------------- dispatching a token

  /** The token a request dispatches next. */
  ghost function NewToken(m: Manager, rid: nat): Token
    requires rid in m.nextIndex && rid in m.home
  {
    Token(m.nextTid, rid, m.nextIndex[rid], m.home[rid])
  }

  ghost function IssuedManager(m: Manager, rid: nat): Manager
    requires rid in m.nextIndex
  {
    m.(nextTid := m.nextTid + 1, nextIndex := m.nextIndex[rid := m.nextIndex[rid] + 1])
  }

  ghost function Issued(m: Manager, cen: Census, rid: nat): Census
    requires rid in m.nextIndex && rid in m.home
  {
    var t := NewToken(m, rid);
    Census(cen.live[t.tid := Live(t, AtAttention(0))], cen.current[rid := t.tid])
  }

  /** What dispatching the next token of rid does to the state. */
  ghost predicate IsDispatch(c: Config, s: State, s': State, rid: nat) {
    && rid in s.core.m.nextIndex && rid in s.core.m.home
    && s'.arrived == s.arrived && s'.joins == s.joins && s'.fanout == s.fanout && s'.procs == s.procs
    && s'.core.m == IssuedManager(s.core.m, rid)
    && WorkersOk(c, s'.core.ws)
    && JobsGain(s, s', Some((0, NewToken(s.core.m, rid))))
    && SameCopies(s, s')
  }

  lemma DispatchNextEffect(c: Config, s: State, rid: nat)
    requires c.Valid() && WorkersOk(c, s.core.ws)
    requires rid in s.core.m.nextIndex && s.core.m.nextIndex[rid] < c.tokensPerRequest
    requires rid in s.core.m.home && s.core.m.home[rid] < c.numWorkers
    ensures DispatchNext(c, s.core, rid).Ok?
    ensures IsDispatch(c, s, s.(core := DispatchNext(c, s.core, rid).value), rid)
  {
    var t := NewToken(s.core.m, rid);
    EnqueueAtEffect(c, s, 0, t);
    var s1 := WithWorkers(s, EnqueueAt(s.core.ws, 0, t).value);
    var s' := s.(core := DispatchNext(c, s.core, rid).value);
    assert s'.core.ws == s1.core.ws && s'.procs == s1.procs;
  }

  lemma IssueCensus(c: Config, m: Manager, cen: Census, rid: nat)
    requires c.Valid() && CensusOk(c, m, cen, {rid})
    requires rid in m.nextIndex && m.nextIndex[rid] < c.tokensPerRequest
    ensures CensusOk(c, IssuedManager(m, rid), Issued(m, cen, rid), {})
  {
    var m', cen' := IssuedManager(m, rid), Issued(m, cen, rid);
    forall tid | tid in cen'.live
      ensures LiveOk(c, m', cen', tid, cen'.live[tid])
    {
      if tid != m.nextTid {
        assert LiveOk(c, m, cen, tid, cen.live[tid]);
      }
    }
  }

  lemma IssueJobs(c: Config, s: State, s': State, cen: Census, rid: nat)
    requires IsDispatch(c, s, s', rid) && CensusOk(c, s.core.m, cen, {rid}) && JobsOk(s, cen)
    ensures JobsOk(s', Issued(s.core.m, cen, rid))
  {
  }

  lemma IssueCopies(c: Config, s: State, s': State, cen: Census, rid: nat)
    requires IsDispatch(c, s, s', rid) && CensusOk(c, s.core.m, cen, {rid}) && CopiesOk(s, cen, None)
    ensures CopiesOk(s', Issued(s.core.m, cen, rid), None)
  {
  }

  lemma IssueJoins(c: Config, s: State, s': State, cen: Census, rid: nat)
    requires rid in s.core.m.nextIndex && rid in s.core.m.home
    requires s'.joins == s.joins && s'.fanout == s.fanout
    requires s.core.m.nextTid !in cen.live && JoinsOk(c, s, cen)
    ensures JoinsOk(c, s', Issued(s.core.m, cen, rid))
  {
  }

  lemma IssueFanout(c: Config, s: State, s': State, cen: Census, rid: nat)
    requires rid in s.core.m.nextIndex && rid in s.core.m.home
    requires s'.fanout == s.fanout && s'.core.m == IssuedManager(s.core.m, rid)
    requires s.core.m.nextTid !in cen.live && FanoutOk(c, s, cen)
    ensures FanoutOk(c, s', Issued(s.core.m, cen, rid))
  {
  }

  lemma IssueCompleted(c: Config, s: State, s': State, cen: Census, rid: nat)
    requires rid in s.core.m.nextIndex && rid in s.core.m.home
    requires s'.fanout == s.fanout && s'.core.m == IssuedManager(s.core.m, rid)
    requires CompletedOk(c, s, cen)
    ensures CompletedOk(c, s', Issued(s.core.m, cen, rid))
  {
  }

  lemma IssueHistory(c: Config, s: State, s': State, cen: Census, rid: nat)
    requires IsDispatch(c, s, s', rid) && CensusOk(c, s.core.m, cen, {rid})
    ensures var cen' := Issued(s.core.m, cen, rid);
      && (HistoryOk(c, s, cen) ==> HistoryOk(c, s', cen'))
      && Remaining(c, s', cen') == Remaining(c, s, cen)
  {
    var cen' := Issued(s.core.m, cen, rid);
    forall r: nat
      ensures Done(c, s', cen', r) == Done(c, s, cen, r)
      ensures StagesLeft(c, s', cen', r) == StagesLeft(c, s, cen, r)
    {
      if r != rid && r in cen.current {
        assert cen.current[r] in cen.live && LiveOk(c, s.core.m, cen, cen.current[r], cen.live[cen.current[r]]);
      }
    }
    RangeSumEqual(c.totalRequests, StagesOf(c, s, cen), StagesOf(c, s', cen'));
  }

  lemma SameSize<K, V>(m: map<K, V>, m': map<K, V>)
    requires m.Keys == m'.Keys
    ensures |m| == |m'|
  {
  }

  lemma IssueHolds(c: Config, s: State, s': State, cen: Census, rid: nat)
    requires c.Valid() && Holds(c, s, cen, {rid}, None) && IsDispatch(c, s, s', rid)
    requires s.core.m.nextIndex[rid] < c.tokensPerRequest
    ensures var cen' := Issued(s.core.m, cen, rid);
      && Holds(c, s', cen', {}, None)
      && Remaining(c, s', cen') == Remaining(c, s, cen)
  {
    hide WorkersOk, ProcsOk, JobsOk, CopiesOk, JoinsOk, FanoutOk, HistoryOk, CompletedOk, Remaining;
    hide LiveOk, Issued, IssuedManager;
    IssueCensus(c, s.core.m, cen, rid);
    IssueJobs(c, s, s', cen, rid);
    IssueCopies(c, s, s', cen, rid);
    FreshTid(c, s.core.m, cen, rid);
    hide CensusOk, QueueOk;
    IssueJoins(c, s, s', cen, rid);
    IssueFanout(c, s, s', cen, rid);
    IssueCompleted(c, s, s', cen, rid);
    IssueHistory(c, s, s', cen, rid);
    IssueQueue(c, s, s', rid);
  }

  lemma FreshTid(c: Config, m: Manager, cen: Census, rid: nat)
    requires CensusOk(c, m, cen, {rid})
    ensures m.nextTid !in cen.live
  {
    forall tid | tid in cen.live
      ensures tid < m.nextTid
    {
      assert LiveOk(c, m, cen, tid, cen.live[tid]);
    }
  }

  lemma IssueQueue(c: Config, s: State, s': State, rid: nat)
    requires QueueOk(c, s) && IsDispatch(c, s, s', rid)
    ensures QueueOk(c, s')
  {
    SameSize(s'.core.m.nextIndex, s.core.m.nextIndex);
  }

  lemma DispatchNextOk(c: Config, s: State, cen: Census, rid: nat)
    requires c.Valid() && Holds(c, s, cen, {rid}, None)
    requires rid in s.core.m.nextIndex && s.core.m.nextIndex[rid] < c.tokensPerRequest
    ensures DispatchNext(c, s.core, rid).Ok?
    ensures var s' := s.(core := DispatchNext(c, s.core, rid).value);
      var cen' := Issued(s.core.m, cen, rid);
      && Holds(c, s', cen', {}, None)
      && s'.core.m.pending == s.core.m.pending
      && s'.core.m.nextIndex.Keys == s.core.m.nextIndex.Keys
      && Remaining(c, s', cen') == Remaining(c, s, cen)
  {
    DispatchNextEffect(c, s, rid);
    var s' := s.(core := DispatchNext(c, s.core, rid).value);
    IssueHolds(c, s, s', cen, rid);
  }

  // ------------------------------------------------ starting a request

  /** A request leaves the waiting queue, or never enters it, and has no token yet. */
  ghost predicate IsOpening(c: Config, s: State, s1: State) {
    var m := s.core.m;
    var rid := Admitted(s);
    && c.numWorkers > 0
    && 0 <= rid && Admitted(s1) == rid + 1 && s1.arrived <= c.totalRequests
    && |s1.core.m.pending| < s1.arrived
    && s1.core.m.pending == Range(rid + 1, s1.arrived)
    && s1.core.m == m.(nextIndex := m.nextIndex[rid := 0],
                       home := m.home[rid := m.nextHome % c.numWorkers],
                       nextHome := m.nextHome + 1,
                       pending := s1.core.m.pending)
    && s1.core.ws == s.core.ws
    && s1.joins == s.joins && s1.fanout == s.fanout && s1.procs == s.procs
  }

  lemma OpenCensus(c: Config, s: State, s1: State, cen: Census)
    requires c.Valid() && CensusOk(c, s.core.m, cen, {}) && QueueOk(c, s) && HasRoom(c, s.core.m) && IsOpening(c, s, s1)
    ensures CensusOk(c, s1.core.m, cen, {Admitted(s) as nat})
    ensures QueueOk(c, s1)
  {
    hide LiveOk;
    var rid: nat := Admitted(s);
    NotYetActive(c, s);
    OpenQueue(c, s, s1);
    hide QueueOk;
    assert s1.core.m.home.Keys == s.core.m.home.Keys + {rid};
    assert s1.core.m.nextIndex.Keys == s.core.m.nextIndex.Keys + {rid};
    OpenLives(c, s.core.m, s1.core.m, cen, rid);
  }

  lemma OpenQueue(c: Config, s: State, s1: State)
    requires QueueOk(c, s) && HasRoom(c, s.core.m) && IsOpening(c, s, s1) && Admitted(s) !in s.core.m.nextIndex
    ensures QueueOk(c, s1)
  {
    OneKeyMore(s.core.m.nextIndex, Admitted(s), 0);
  }

  lemma OneKeyMore(m: map<nat, nat>, k: nat, v: nat)
    requires k !in m
    ensures m[k := v].Keys == m.Keys + {k} && |m[k := v]| == |m| + 1
  {
    assert |m[k := v]| == |m[k := v].Keys| && |m| == |m.Keys|;
  }

  lemma OpenLives(c: Config, m: Manager, m1: Manager, cen: Census, rid: nat)
    requires m1.nextTid == m.nextTid && rid !in m.nextIndex
    requires m1.nextIndex == m.nextIndex[rid := 0]
    requires forall r :: r in m.home && r != rid ==> r in m1.home && m1.home[r] == m.home[r]
    requires forall tid :: tid in cen.live ==> LiveOk(c, m, cen, tid, cen.live[tid])
    ensures forall tid :: tid in cen.live ==> LiveOk(c, m1, cen, tid, cen.live[tid])
  {
    forall tid | tid in cen.live
      ensures LiveOk(c, m1, cen, tid, cen.live[tid])
    {
      assert LiveOk(c, m, cen, tid, cen.live[tid]);
    }
  }

  lemma SamePlaces(c: Config, s: State, s1: State, cen: Census)
    requires s1.core.ws == s.core.ws && s1.joins == s.joins && s1.fanout == s.fanout && s1.procs == s.procs
    requires s1.core.m.nextTid == s.core.m.nextTid && s1.core.m.completed == s.core.m.completed
    ensures JobsOk(s, cen) ==> JobsOk(s1, cen)
    ensures CopiesOk(s, cen, None) ==> CopiesOk(s1, cen, None)
    ensures JoinsOk(c, s, cen) ==> JoinsOk(c, s1, cen)
    ensures FanoutOk(c, s, cen) ==> FanoutOk(c, s1, cen)
    ensures CompletedOk(c, s, cen) ==> CompletedOk(c, s1, cen)
  {
    assert forall l: nat, u :: Jobs(s1, l, u) == Jobs(s, l, u);
    assert forall l: nat, u :: Copies(s1, l, u) == Copies(s, l, u);
    assert forall l: nat, tid :: Recorded(s1, l, tid) == Recorded(s, l, tid);
  }

  lemma OpenDone(c: Config, s: State, s1: State, cen: Census, r: nat)
    requires c.Valid() && CensusOk(c, s.core.m, cen, {}) && QueueOk(c, s) && IsOpening(c, s, s1)
    ensures Done(c, s1, cen, r) == Done(c, s, cen, r)
    ensures r < Admitted(s1) && r !in s1.core.m.nextIndex <==> r < Admitted(s) && r !in s.core.m.nextIndex
  {
    assert r in cen.current ==> r in s.core.m.nextIndex;
  }

  lemma SameDone(c: Config, s: State, s1: State, cen: Census)
    requires forall r: nat :: Done(c, s1, cen, r) == Done(c, s, cen, r)
    ensures Remaining(c, s1, cen) == Remaining(c, s, cen)
  {
    forall r: nat
      ensures StagesOf(c, s1, cen)(r) == StagesOf(c, s, cen)(r)
    {
      assert Done(c, s1, cen, r) == Done(c, s, cen, r);
    }
    RangeSumEqual(c.totalRequests, StagesOf(c, s, cen), StagesOf(c, s1, cen));
  }

  lemma OpenHistory(c: Config, s: State, s1: State, cen: Census)
    requires c.Valid() && CensusOk(c, s.core.m, cen, {}) && QueueOk(c, s) && IsOpening(c, s, s1)
    ensures HistoryOk(c, s, cen) ==> HistoryOk(c, s1, cen)
    ensures Remaining(c, s1, cen) == Remaining(c, s, cen)
  {
    hide CensusOk, QueueOk, Remaining, Done, IndicesOf;
    forall r: nat
      ensures Done(c, s1, cen, r) == Done(c, s, cen, r)
      ensures r < Admitted(s1) && r !in s1.core.m.nextIndex <==> r < Admitted(s) && r !in s.core.m.nextIndex
    {
      OpenDone(c, s, s1, cen, r);
    }
    SameDone(c, s, s1, cen);
  }

  lemma OpenHolds(c: Config, s: State, s1: State, cen: Census)
    requires c.Valid() && Holds(c, s, cen, {}, None) && HasRoom(c, s.core.m) && IsOpening(c, s, s1)
    ensures Holds(c, s1, cen, {Admitted(s) as nat}, None)
    ensures Remaining(c, s1, cen) == Remaining(c, s, cen)
  {
    hide WorkersOk, ProcsOk, JobsOk, CopiesOk, JoinsOk, FanoutOk, HistoryOk, CompletedOk, Remaining;
    OpenCensus(c, s, s1, cen);
    SamePlaces(c, s, s1, cen);
    OpenHistory(c, s, s1, cen);
  }

  /** Starting the next request to be admitted raises nothing and gives it its first token. */
  lemma StartRequestOk(c: Config, s: State, pending: seq<nat>, arrived: nat, cen: Census) returns (cen': Census)
    requires c.Valid() && Holds(c, s, cen, {}, None) && HasRoom(c, s.core.m)
    requires |pending| < arrived <= c.totalRequests && arrived - |pending| == Admitted(s) + 1
    requires pending == Range(Admitted(s) + 1, arrived)
    ensures var k := s.core.(m := s.core.m.(pending := pending));
      var r := StartRequest(c, k, Admitted(s));
      && r.Ok?
      && r.value.m.pending == pending
      && Holds(c, s.(arrived := arrived, core := r.value), cen', {}, None)
      && Remaining(c, s.(arrived := arrived, core := r.value), cen') == Remaining(c, s, cen)
  {
    var rid: nat := Admitted(s);
    var s1 := Opened(c, s, pending, arrived);
    NotYetActive(c, s);
    OpenedIsOpening(c, s, pending, arrived);
    OpenHolds(c, s, s1, cen);
    StartIsDispatch(c, s, pending, arrived);
    hide Holds, DispatchNext, StartRequest, Remaining, HasRoom, IsOpening;
    DispatchNextOk(c, s1, cen, rid);
    cen' := Issued(s1.core.m, cen, rid);
  }

  /** The state after a request has become active but before its first token. */
  ghost function Opened(c: Config, s: State, pending: seq<nat>, arrived: nat): State
    requires c.Valid() && Admitted(s) >= 0
  {
    var m := s.core.m;
    s.(arrived := arrived,
       core := s.core.(m := m.(nextIndex := m.nextIndex[Admitted(s) := 0],
                               home := m.home[Admitted(s) := m.nextHome % c.numWorkers],
                               nextHome := m.nextHome + 1,
                               pending := pending)))
  }

  lemma NotYetActive(c: Config, s: State)
    requires QueueOk(c, s)
    ensures Admitted(s) >= 0 && Admitted(s) !in s.core.m.nextIndex
  {
  }

  lemma OpenedIsOpening(c: Config, s: State, pending: seq<nat>, arrived: nat)
    requires c.Valid() && QueueOk(c, s) && Admitted(s) !in s.core.m.nextIndex
    requires |pending| < arrived <= c.totalRequests && arrived - |pending| == Admitted(s) + 1
    requires pending == Range(Admitted(s) + 1, arrived)
    ensures IsOpening(c, s, Opened(c, s, pending, arrived))
  {
  }

  lemma StartIsDispatch(c: Config, s: State, pending: seq<nat>, arrived: nat)
    requires c.Valid() && Admitted(s) >= 0 && Admitted(s) !in s.core.m.nextIndex
    ensures StartRequest(c, s.core.(m := s.core.m.(pending := pending)), Admitted(s))
         == DispatchNext(c, Opened(c, s, pending, arrived).core, Admitted(s))
  {
  }

  /** Admitting waiting requests raises nothing and stops only when none waits or the cap is reached. */
  lemma {:induction false} AdmitQueuedOk(c: Config, s: State, cen: Census) returns (cen': Census)
    requires c.Valid() && Holds(c, s, cen, {}, None)
    ensures AdmitQueued(c, s.core).Ok?
    ensures var s' := s.(core := AdmitQueued(c, s.core).value);
      && Holds(c, s', cen', {}, None)
      && FullOk(c, s'.core.m)
      && Remaining(c, s', cen') == Remaining(c, s, cen)
    decreases |s.core.m.pending|
  {
    hide WorkersOk, ProcsOk, CensusOk, JobsOk, CopiesOk, JoinsOk, FanoutOk, HistoryOk, CompletedOk, Remaining, StartRequest;
    var m := s.core.m;
    if m.pending == [] || !HasRoom(c, m) {
      cen' := cen;
      assert s.(core := s.core) == s;
    } else {
      var rest := m.pending[1..];
      assert m.pending[0] == Admitted(s);
      assert rest == Range(Admitted(s) + 1, s.arrived);
      cen' := StartRequestOk(c, s, rest, s.arrived, cen);
      var k1 := StartRequest(c, s.core.(m := m.(pending := rest)), m.pending[0]).value;
      cen' := AdmitQueuedOk(c, s.(core := k1), cen');
    }
  }

  /** An arriving request is started, or queued behind a full cap. */
  lemma ArriveOk(c: Config, s: State, cen: Census) returns (cen': Census)
    requires Inv(c, s, cen) && s.arrived < c.totalRequests
    ensures AdmitRequest(c, s.core, s.arrived).Ok?
    ensures var s' := s.(arrived := s.arrived + 1, core := AdmitRequest(c, s.core, s.arrived).value);
      Inv(c, s', cen') && Remaining(c, s', cen') == Remaining(c, s, cen)
  {
    hide WorkersOk, ProcsOk, CensusOk, JobsOk, CopiesOk, JoinsOk, FanoutOk, HistoryOk, CompletedOk, Remaining, StartRequest;
    var m := s.core.m;
    if HasRoom(c, m) {
      assert m.pending == [];
      assert [] == Range(s.arrived + 1, s.arrived + 1);
      cen' := StartRequestOk(c, s, [], s.arrived + 1, cen);
      assert s.core.(m := m.(pending := [])) == s.core;
    } else {
      cen' := cen;
      QueueUpOk(c, s, cen);
    }
  }

  lemma QueueUpOk(c: Config, s: State, cen: Census)
    requires Inv(c, s, cen) && s.arrived < c.totalRequests && !HasRoom(c, s.core.m)
    ensures var s' := s.(arrived := s.arrived + 1, core := s.core.(m := s.core.m.(pending := s.core.m.pending + [s.arrived])));
      Inv(c, s', cen) && Remaining(c, s', cen) == Remaining(c, s, cen)
  {
    hide WorkersOk, ProcsOk, JobsOk, CopiesOk, JoinsOk, FanoutOk, IndicesOf, CompletedOk, Remaining;
    var m := s.core.m;
    var s' := s.(arrived := s.arrived + 1, core := s.core.(m := m.(pending := m.pending + [s.arrived])));
    SamePlaces(c, s, s', cen);
    QueueUpHistory(c, s, s', cen);
    SameDone(c, s, s', cen);
    hide CensusOk, QueueOk, HistoryOk;
    QueueUpQueue(c, s, s');
    QueueUpCensus(c, s.core.m, s'.core.m, cen);
  }

  lemma QueueUpHistory(c: Config, s: State, s': State, cen: Census)
    requires s' == s.(arrived := s.arrived + 1,
                      core := s.core.(m := s.core.m.(pending := s.core.m.pending + [s.arrived])))
    ensures forall r: nat :: Done(c, s', cen, r) == Done(c, s, cen, r)
    ensures HistoryOk(c, s, cen) ==> HistoryOk(c, s', cen)
  {
    hide IndicesOf;
  }

  lemma QueueUpQueue(c: Config, s: State, s': State)
    requires s' == s.(arrived := s.arrived + 1,
                      core := s.core.(m := s.core.m.(pending := s.core.m.pending + [s.arrived])))
    requires QueueOk(c, s) && s.arrived < c.totalRequests
    ensures QueueOk(c, s')
  {
    assert s'.core.m.pending == Range(Admitted(s), s.arrived + 1);
  }

  lemma QueueUpCensus(c: Config, m: Manager, m': Manager, cen: Census)
    requires CensusOk(c, m, cen, {}) && m' == m.(pending := m'.pending)
    ensures CensusOk(c, m', cen, {})
  {
    forall tid | tid in cen.live
      ensures LiveOk(c, m', cen, tid, cen.live[tid])
    {
      assert LiveOk(c, m, cen, tid, cen.live[tid]);
    }
  }
}
