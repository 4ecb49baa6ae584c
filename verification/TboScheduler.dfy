/**
 * The two-batch-overlap scheduler: two lists of tasks share one compute resource, transfers are launched
 * asynchronously, and the earliest task that can start goes next.
 */
module TboScheduler {
  import opened Prelude

  datatype Kind = Compute | Dispatch | Combine | Other

  datatype Task = Task(kind: Kind, duration: real)

  /** Task `index` of microbatch `mb`, run from start to end. */
  datatype Launch = Launch(mb: nat, index: nat, task: Task, start: real, end: real)

  datatype Sched = Sched(next: seq<nat>, ready: seq<real>, free: real, inflight: seq<real>, trace: seq<Launch>)

  predicate IsComm(k: Kind) {
    k.Dispatch? || k.Combine?
  }

  /** Known kinds and durations that are not negative. */
  ghost predicate TasksOk(ts: seq<Task>) {
    forall i :: 0 <= i < |ts| ==> !ts[i].kind.Other? && ts[i].duration >= 0.0
  }

  // ---------------------------------------------------------- specification

  ghost predicate Shape(tasks: seq<seq<Task>>, s: Sched) {
    && |tasks| == |s.next| == |s.ready| == |s.inflight| == 2
    && s.next[0] <= |tasks[0]| && s.next[1] <= |tasks[1]|
  }

  function Max(a: real, b: real): real {
    if a >= b then a else b
  }

  /** The earliest start of a microbatch's next task. */
  function Est(t: Task, ready: real, inflight: real, free: real): real {
    if t.kind.Compute? then Max(Max(ready, inflight), free) else ready
  }

  function Priority(k: Kind): nat {
    if IsComm(k) then 0 else 1
  }

  ghost predicate Pending(tasks: seq<seq<Task>>, s: Sched, mb: nat)
    requires Shape(tasks, s) && mb < 2
  {
    s.next[mb] < |tasks[mb]|
  }

  ghost function EstOf(tasks: seq<seq<Task>>, s: Sched, mb: nat): real
    requires Shape(tasks, s) && mb < 2 && Pending(tasks, s, mb)
  {
    Est(tasks[mb][s.next[mb]], s.ready[mb], s.inflight[mb], s.free)
  }

  /** Earliest start first, transfers before compute, then the first microbatch. */
  ghost predicate Picked(tasks: seq<seq<Task>>, s: Sched, mb: nat)
    requires Shape(tasks, s)
  {
    && mb < 2 && Pending(tasks, s, mb)
    && (Pending(tasks, s, 1 - mb) ==>
          var e, e' := EstOf(tasks, s, mb), EstOf(tasks, s, 1 - mb);
          var p, p' := Priority(tasks[mb][s.next[mb]].kind), Priority(tasks[1 - mb][s.next[1 - mb]].kind);
          e < e' || (e == e' && (p < p' || (p == p' && mb == 0))))
  }

  /** Run the next task of a microbatch. */
  ghost function Step(tasks: seq<seq<Task>>, s: Sched, mb: nat): Sched
    requires Shape(tasks, s) && mb < 2 && Pending(tasks, s, mb)
  {
    var t := tasks[mb][s.next[mb]];
    var start := EstOf(tasks, s, mb);
    var end := start + t.duration;
    var s' := s.(next := s.next[mb := s.next[mb] + 1], trace := s.trace + [Launch(mb, s.next[mb], t, start, end)]);
    if t.kind.Compute? then s'.(ready := s.ready[mb := end], free := end)
    else s'.(inflight := s.inflight[mb := Max(s.inflight[mb], end)])
  }

  // -------------------------------------------------------------- the bounds

  ghost function Total(ts: seq<Task>): real {
    if |ts| == 0 then 0.0 else Total(ts[..|ts| - 1]) + ts[|ts| - 1].duration
  }

  ghost function ComputeTotal(ts: seq<Task>): real {
    if |ts| == 0 then 0.0
    else ComputeTotal(ts[..|ts| - 1]) + if ts[|ts| - 1].kind.Compute? then ts[|ts| - 1].duration else 0.0
  }

  /** When a microbatch alone would be ready, and when its transfers would be done, after some tasks. */
  ghost function Solo(ts: seq<Task>): (r: (real, real))
    requires TasksOk(ts)
    ensures r.0 >= 0.0 && r.1 >= 0.0
  {
    if |ts| == 0 then (0.0, 0.0)
    else
      var before, t := Solo(ts[..|ts| - 1]), ts[|ts| - 1];
      if t.kind.Compute? then (Max(before.0, before.1) + t.duration, before.1)
      else (before.0, Max(before.1, before.0 + t.duration))
  }

  /** Every launch is the next task of its microbatch, in order, for its duration. */
  ghost predicate Traced(tasks: seq<seq<Task>>, s: Sched)
    requires Shape(tasks, s)
  {
    && |s.trace| == s.next[0] + s.next[1]
    && (forall k :: 0 <= k < |s.trace| ==>
          var l := s.trace[k];
          && l.mb < 2 && l.index < s.next[l.mb] && l.task == tasks[l.mb][l.index]
          && l.end == l.start + l.task.duration)
    && (forall j, k :: 0 <= j < k < |s.trace| && s.trace[j].mb == s.trace[k].mb ==> s.trace[j].index < s.trace[k].index)
  }

  /** Launches start in order, none later than anything still to come. */
  ghost predicate InOrder(tasks: seq<seq<Task>>, s: Sched)
    requires Shape(tasks, s)
  {
    && (forall j, k :: 0 <= j < k < |s.trace| ==> s.trace[j].start <= s.trace[k].start)
    && (forall k, mb :: 0 <= k < |s.trace| && 0 <= mb < 2 && Pending(tasks, s, mb) ==>
          s.trace[k].start <= EstOf(tasks, s, mb))
  }

  /** Compute never overlaps compute. */
  ghost predicate Exclusive(s: Sched) {
    && (forall j, k :: 0 <= j < k < |s.trace| && s.trace[j].task.kind.Compute? && s.trace[k].task.kind.Compute? ==>
          s.trace[j].end <= s.trace[k].start)
    && (forall k :: 0 <= k < |s.trace| && s.trace[k].task.kind.Compute? ==> s.trace[k].end <= s.free)
  }

  /** The clocks, bounded below by the compute done and by each microbatch alone, above by all durations so far. */
  ghost predicate Bounded(tasks: seq<seq<Task>>, s: Sched)
    requires Shape(tasks, s) && TasksOk(tasks[0]) && TasksOk(tasks[1])
  {
    var a, b := tasks[0][..s.next[0]], tasks[1][..s.next[1]];
    && s.free == Max(s.ready[0], s.ready[1])
    && ComputeTotal(a) + ComputeTotal(b) <= s.free <= Total(a) + Total(b)
    && s.inflight[0] <= Total(a) + Total(b) && s.inflight[1] <= Total(a) + Total(b)
    && Solo(a).0 <= s.ready[0] && Solo(a).1 <= s.inflight[0]
    && Solo(b).0 <= s.ready[1] && Solo(b).1 <= s.inflight[1]
  }

  ghost predicate Inv(tasks: seq<seq<Task>>, s: Sched) {
    && Shape(tasks, s) && TasksOk(tasks[0]) && TasksOk(tasks[1])
    && Traced(tasks, s) && InOrder(tasks, s) && Exclusive(s) && Bounded(tasks, s)
  }

  lemma StepTraced(tasks: seq<seq<Task>>, s: Sched, mb: nat)
    requires Shape(tasks, s) && mb < 2 && Pending(tasks, s, mb) && Traced(tasks, s)
    ensures Shape(tasks, Step(tasks, s, mb)) && Traced(tasks, Step(tasks, s, mb))
  {
  }

  lemma StepInOrder(tasks: seq<seq<Task>>, s: Sched, mb: nat)
    requires Shape(tasks, s) && Picked(tasks, s, mb) && InOrder(tasks, s)
    requires tasks[mb][s.next[mb]].duration >= 0.0
    ensures Shape(tasks, Step(tasks, s, mb)) && InOrder(tasks, Step(tasks, s, mb))
  {
    var s' := Step(tasks, s, mb);
    var e := EstOf(tasks, s, mb);
    forall other | 0 <= other < 2 && Pending(tasks, s', other)
      ensures e <= EstOf(tasks, s', other)
    {
      if other != mb {
        assert other == 1 - mb && Pending(tasks, s, other);
        assert e <= EstOf(tasks, s, other) <= EstOf(tasks, s', other);
      }
    }
  }

  lemma StepExclusive(tasks: seq<seq<Task>>, s: Sched, mb: nat)
    requires Shape(tasks, s) && mb < 2 && Pending(tasks, s, mb) && Exclusive(s)
    requires tasks[mb][s.next[mb]].duration >= 0.0
    ensures Exclusive(Step(tasks, s, mb))
  {
  }

  lemma TotalStep(ts: seq<Task>, i: nat)
    requires i < |ts| && TasksOk(ts)
    ensures Total(ts[..i + 1]) == Total(ts[..i]) + ts[i].duration
    ensures ComputeTotal(ts[..i + 1]) == ComputeTotal(ts[..i]) + if ts[i].kind.Compute? then ts[i].duration else 0.0
    ensures Solo(ts[..i + 1]) ==
      if ts[i].kind.Compute? then (Max(Solo(ts[..i]).0, Solo(ts[..i]).1) + ts[i].duration, Solo(ts[..i]).1)
      else (Solo(ts[..i]).0, Max(Solo(ts[..i]).1, Solo(ts[..i]).0 + ts[i].duration))
  {
    assert ts[..i + 1][..i] == ts[..i];
  }

  lemma StepBounded(tasks: seq<seq<Task>>, s: Sched, mb: nat)
    requires Shape(tasks, s) && TasksOk(tasks[0]) && TasksOk(tasks[1])
    requires mb < 2 && Pending(tasks, s, mb) && Bounded(tasks, s)
    ensures Shape(tasks, Step(tasks, s, mb)) && Bounded(tasks, Step(tasks, s, mb))
  {
    hide Total, ComputeTotal, Solo;
    TotalStep(tasks[mb], s.next[mb]);
  }

  lemma {:induction false} StepInv(tasks: seq<seq<Task>>, s: Sched, mb: nat)
    requires Inv(tasks, s) && Picked(tasks, s, mb)
    ensures Inv(tasks, Step(tasks, s, mb))
  {
    hide Traced, InOrder, Exclusive, Bounded, Step;
    StepTraced(tasks, s, mb);
    StepInOrder(tasks, s, mb);
    StepExclusive(tasks, s, mb);
    StepBounded(tasks, s, mb);
  }

  // ---------------------------------------------------------------- a schedule

  ghost function Start(): Sched {
    Sched([0, 0], [0.0, 0.0], 0.0, [0.0, 0.0], [])
  }

  ghost predicate Done(tasks: seq<seq<Task>>, s: Sched)
    requires Shape(tasks, s)
  {
    s.next[0] == |tasks[0]| && s.next[1] == |tasks[1]|
  }

  /** The schedule from some state on. */
  ghost function Run(tasks: seq<seq<Task>>, s: Sched): Sched
    requires Shape(tasks, s)
    decreases |tasks| + |tasks[0]| + |tasks[1]| - s.next[0] - s.next[1]
  {
    if Done(tasks, s) then s
    else if Picked(tasks, s, 0) then Run(tasks, Step(tasks, s, 0))
    else if Pending(tasks, s, 1) then Run(tasks, Step(tasks, s, 1))
    else s
  }

  lemma {:induction false} RunInv(tasks: seq<seq<Task>>, s: Sched)
    requires Inv(tasks, s)
    ensures Inv(tasks, Run(tasks, s)) && Done(tasks, Run(tasks, s))
    decreases |tasks| + |tasks[0]| + |tasks[1]| - s.next[0] - s.next[1]
  {
    hide Traced, InOrder, Exclusive, Bounded, EstOf;
    if !Done(tasks, s) {
      var mb := if Picked(tasks, s, 0) then 0 else 1;
      assert Picked(tasks, s, mb);
      StepInv(tasks, s, mb);
      RunInv(tasks, Step(tasks, s, mb));
    }
  }

  lemma StartInv(tasks: seq<seq<Task>>)
    requires |tasks| == 2 && TasksOk(tasks[0]) && TasksOk(tasks[1])
    ensures Inv(tasks, Start())
  {
  }

  /**
   * The schedule of two task lists: tasks start in order of time, compute never overlaps, neither microbatch finishes
   * before it would alone, and the makespan lies between the total compute and the sum of all durations.
   */
  lemma {:induction false} ScheduleBounds(tasks0: seq<Task>, tasks1: seq<Task>)
    requires TasksOk(tasks0) && TasksOk(tasks1)
    ensures Shape([tasks0, tasks1], Start())
    ensures var s := Run([tasks0, tasks1], Start());
      && |s.ready| == 2 && |s.trace| == |tasks0| + |tasks1|
      && (forall j, k :: 0 <= j < k < |s.trace| ==> s.trace[j].start <= s.trace[k].start)
      && (forall j, k :: 0 <= j < k < |s.trace| && s.trace[j].task.kind.Compute? && s.trace[k].task.kind.Compute? ==>
            s.trace[j].end <= s.trace[k].start)
      && Solo(tasks0).0 <= s.ready[0] && Solo(tasks1).0 <= s.ready[1]
      && ComputeTotal(tasks0) + ComputeTotal(tasks1) <= Max(s.ready[0], s.ready[1]) <= Total(tasks0) + Total(tasks1)
  {
    var tasks := [tasks0, tasks1];
    StartInv(tasks);
    RunInv(tasks, Start());
    assert tasks0[..|tasks0|] == tasks0 && tasks1[..|tasks1|] == tasks1;
  }

  // ------------------------------------------------------- starts and ties

  /** When the last compute, or the last transfer, of some microbatches ends. */
  ghost function LatestEnd(trace: seq<Launch>, mbs: set<nat>, compute: bool): real {
    if |trace| == 0 then 0.0
    else
      var before, l := LatestEnd(trace[..|trace| - 1], mbs, compute), trace[|trace| - 1];
      if l.mb in mbs && l.task.kind.Compute? == compute then Max(before, l.end) else before
  }

  /** Nothing waits without need: compute for its own tasks and any other compute, a transfer for its own compute. */
  ghost predicate StartsTight(trace: seq<Launch>) {
    forall k :: 0 <= k < |trace| ==> StartsAsSoonAs(trace[..k], trace[k])
  }

  ghost predicate StartsAsSoonAs(before: seq<Launch>, l: Launch) {
    var own := LatestEnd(before, {l.mb}, true);
    l.start == if l.task.kind.Compute?
               then Max(Max(own, LatestEnd(before, {l.mb}, false)), LatestEnd(before, {0, 1}, true)) else own
  }

  /** No launch of a microbatch comes between two positions of a trace. */
  ghost predicate NoneBetween(trace: seq<Launch>, mb: nat, j: int, k: int)
    requires 0 <= j && k <= |trace|
  {
    forall i :: j < i < k ==> trace[i].mb != mb
  }

  /** Of two launches, one that starts earlier goes first, or a transfer before compute, or the first microbatch. */
  ghost predicate GoesBefore(start: real, kind: Kind, mb: nat, start': real, kind': Kind, mb': nat) {
    start < start' || (start == start' && ((IsComm(kind) && !IsComm(kind')) || (IsComm(kind) == IsComm(kind') && mb < mb')))
  }

  /** Wherever both microbatches had their next task to launch, they were launched in that order. */
  ghost predicate TiesInOrder(trace: seq<Launch>) {
    forall j, k :: 0 <= j < k < |trace| && trace[j].mb != trace[k].mb && NoneBetween(trace, trace[k].mb, j, k) ==>
      GoesBefore(trace[j].start, trace[j].task.kind, trace[j].mb, trace[k].start, trace[k].task.kind, trace[k].mb)
  }

  /** The clocks are the ends of what was launched. */
  ghost predicate Clocked(tasks: seq<seq<Task>>, s: Sched)
    requires Shape(tasks, s)
  {
    && s.free == LatestEnd(s.trace, {0, 1}, true)
    && forall mb: nat :: mb < 2 ==>
         s.ready[mb] == LatestEnd(s.trace, {mb}, true) && s.inflight[mb] == LatestEnd(s.trace, {mb}, false)
  }

  /** A launch went before what the other microbatch has waited with since. */
  ghost predicate Preferred(tasks: seq<seq<Task>>, s: Sched)
    requires Shape(tasks, s)
  {
    forall j, mb: nat :: 0 <= j < |s.trace| && mb < 2 && s.trace[j].mb == 1 - mb && Pending(tasks, s, mb)
                         && NoneBetween(s.trace, mb, j, |s.trace|) ==>
      GoesBefore(s.trace[j].start, s.trace[j].task.kind, s.trace[j].mb, EstOf(tasks, s, mb),
                 tasks[mb][s.next[mb]].kind, mb)
  }

  ghost predicate TraceOk(tasks: seq<seq<Task>>, s: Sched)
    requires Shape(tasks, s)
  {
    && StartsTight(s.trace) && TiesInOrder(s.trace) && Clocked(tasks, s) && Preferred(tasks, s)
    && forall j :: 0 <= j < |s.trace| ==> s.trace[j].mb < 2
  }

  lemma LatestEndNext(trace: seq<Launch>, l: Launch, mbs: set<nat>, compute: bool)
    ensures LatestEnd(trace + [l], mbs, compute)
         == if l.mb in mbs && l.task.kind.Compute? == compute then Max(LatestEnd(trace, mbs, compute), l.end)
            else LatestEnd(trace, mbs, compute)
  {
    assert (trace + [l])[..|trace|] == trace;
  }

  lemma StepClocked(tasks: seq<seq<Task>>, s: Sched, mb: nat)
    requires Shape(tasks, s) && mb < 2 && Pending(tasks, s, mb) && Clocked(tasks, s)
    requires tasks[mb][s.next[mb]].duration >= 0.0 && s.ready[mb] <= s.free
    ensures Shape(tasks, Step(tasks, s, mb)) && Clocked(tasks, Step(tasks, s, mb))
  {
    hide LatestEnd;
    var s' := Step(tasks, s, mb);
    var l := s'.trace[|s.trace|];
    forall mbs, compute
      ensures LatestEnd(s'.trace, mbs, compute)
           == if l.mb in mbs && l.task.kind.Compute? == compute then Max(LatestEnd(s.trace, mbs, compute), l.end)
              else LatestEnd(s.trace, mbs, compute)
    {
      LatestEndNext(s.trace, l, mbs, compute);
    }
  }

  lemma StepTight(tasks: seq<seq<Task>>, s: Sched, mb: nat)
    requires Shape(tasks, s) && mb < 2 && Pending(tasks, s, mb) && Clocked(tasks, s) && StartsTight(s.trace)
    ensures StartsTight(Step(tasks, s, mb).trace)
  {
    hide LatestEnd;
    var s' := Step(tasks, s, mb);
    forall k | 0 <= k < |s'.trace|
      ensures StartsAsSoonAs(s'.trace[..k], s'.trace[k])
    {
      assert s'.trace[..k] == s.trace[..k];
      if k == |s.trace| {
        assert s.trace[..k] == s.trace;
      }
    }
  }

  /** Whatever precedes a start precedes a later one. */
  lemma StepPreferred(tasks: seq<seq<Task>>, s: Sched, mb: nat)
    requires Shape(tasks, s) && Picked(tasks, s, mb) && Preferred(tasks, s)
    requires tasks[mb][s.next[mb]].duration >= 0.0
    ensures Shape(tasks, Step(tasks, s, mb)) && Preferred(tasks, Step(tasks, s, mb))
  {
    var s' := Step(tasks, s, mb);
    var n := |s.trace|;
    forall j, m: nat | 0 <= j < |s'.trace| && m < 2 && s'.trace[j].mb == 1 - m && Pending(tasks, s', m)
                       && NoneBetween(s'.trace, m, j, |s'.trace|)
      ensures GoesBefore(s'.trace[j].start, s'.trace[j].task.kind, s'.trace[j].mb, EstOf(tasks, s', m),
                         tasks[m][s'.next[m]].kind, m)
    {
      assert s'.trace[n].mb == mb;
      assert m == 1 - mb && Pending(tasks, s, m);
      assert EstOf(tasks, s, m) <= EstOf(tasks, s', m);
      if j < n {
        assert NoneBetween(s.trace, m, j, n) by {
          assert forall i :: j < i < n ==> s'.trace[i] == s.trace[i];
        }
      }
    }
  }

  lemma StepTies(tasks: seq<seq<Task>>, s: Sched, mb: nat)
    requires Shape(tasks, s) && mb < 2 && Pending(tasks, s, mb) && Preferred(tasks, s) && TiesInOrder(s.trace)
    requires forall j :: 0 <= j < |s.trace| ==> s.trace[j].mb < 2
    ensures TiesInOrder(Step(tasks, s, mb).trace)
  {
    hide EstOf;
    var s' := Step(tasks, s, mb);
    var n := |s.trace|;
    forall j, k | 0 <= j < k <= n && s'.trace[j].mb != s'.trace[k].mb && NoneBetween(s'.trace, s'.trace[k].mb, j, k)
      ensures GoesBefore(s'.trace[j].start, s'.trace[j].task.kind, s'.trace[j].mb,
                         s'.trace[k].start, s'.trace[k].task.kind, s'.trace[k].mb)
    {
      assert forall i :: j < i < k ==> s'.trace[i] == s.trace[i];
      assert NoneBetween(s.trace, s'.trace[k].mb, j, k);
      if k == n {
        assert s.trace[j].mb == 1 - mb;
      }
    }
  }

  lemma {:induction false} RunTrace(tasks: seq<seq<Task>>, s: Sched)
    requires Inv(tasks, s) && TraceOk(tasks, s)
    ensures Shape(tasks, Run(tasks, s)) && TraceOk(tasks, Run(tasks, s))
    decreases |tasks| + |tasks[0]| + |tasks[1]| - s.next[0] - s.next[1]
  {
    hide Traced, InOrder, Exclusive, EstOf, StartsTight, TiesInOrder, Clocked, Preferred;
    if !Done(tasks, s) {
      var mb := if Picked(tasks, s, 0) then 0 else 1;
      assert Picked(tasks, s, mb);
      StepInv(tasks, s, mb);
      StepClocked(tasks, s, mb);
      StepTight(tasks, s, mb);
      StepPreferred(tasks, s, mb);
      StepTies(tasks, s, mb);
      RunTrace(tasks, Step(tasks, s, mb));
    }
  }

  /**
   * Every task runs once, in order, and starts as soon as what it waits for has ended, ties go to transfers and then to the first microbatch, and
   * a microbatch finishes with the last of its compute.
   */
  lemma {:induction false} ScheduleTrace(tasks0: seq<Task>, tasks1: seq<Task>)
    requires TasksOk(tasks0) && TasksOk(tasks1)
    ensures Shape([tasks0, tasks1], Start())
    ensures var s := Run([tasks0, tasks1], Start());
      && Shape([tasks0, tasks1], s) && Done([tasks0, tasks1], s) && Traced([tasks0, tasks1], s)
      && StartsTight(s.trace) && TiesInOrder(s.trace)
      && s.ready[0] == LatestEnd(s.trace, {0}, true) && s.ready[1] == LatestEnd(s.trace, {1}, true)
  {
    var tasks := [tasks0, tasks1];
    StartInv(tasks);
    RunInv(tasks, Start());
    RunTrace(tasks, Start());
  }

  // ----------------------------------------------------- the chain of a layer

  /** Compute and transfer alternate, as attention, dispatch, expert and combine do in every layer. */
  ghost predicate Alternates(ts: seq<Task>) {
    forall i :: 0 <= i < |ts| ==> if i % 2 == 0 then ts[i].kind.Compute? else IsComm(ts[i].kind)
  }

  /** Alone, alternating tasks form a chain: ready after all but a trailing transfer, done after all. */
  lemma {:induction false} AlternatingChain(ts: seq<Task>)
    requires TasksOk(ts) && Alternates(ts)
    ensures |ts| % 2 == 1 ==> Solo(ts).0 == Total(ts)
    ensures |ts| % 2 == 0 ==> Solo(ts).1 == Total(ts) && (|ts| > 0 ==> Solo(ts).0 == Total(ts[..|ts| - 1]))
    ensures |ts| % 2 == 0 ==> Solo(ts).0 <= Solo(ts).1
    ensures |ts| % 2 == 1 ==> Solo(ts).1 <= Solo(ts).0
  {
    if |ts| > 0 {
      AlternatingChain(ts[..|ts| - 1]);
    }
  }

  /** After a compute task nothing is in flight; after a transfer exactly that transfer is. */
  ghost predicate ChainedAt(ts: seq<Task>, next: nat, ready: real, inflight: real)
    requires next <= |ts|
  {
    if next > 0 && next % 2 == 0 then inflight == ready + ts[next - 1].duration else inflight <= ready
  }

  ghost predicate Chained(tasks: seq<seq<Task>>, s: Sched)
    requires Shape(tasks, s)
  {
    && ChainedAt(tasks[0], s.next[0], s.ready[0], s.inflight[0])
    && ChainedAt(tasks[1], s.next[1], s.ready[1], s.inflight[1])
  }

  /** A compute task starts once the transfer is done, and a transfer starts when the compute before it ends. */
  lemma ChainStep(ts: seq<Task>, next: nat, ready: real, inflight: real, free: real)
    requires next < |ts| && TasksOk(ts) && Alternates(ts) && ChainedAt(ts, next, ready, inflight)
    ensures var end := Est(ts[next], ready, inflight, free) + ts[next].duration;
      if ts[next].kind.Compute? then ChainedAt(ts, next + 1, end, inflight)
      else ChainedAt(ts, next + 1, ready, Max(inflight, end))
  {
    assert (next + 1) % 2 == 1 - next % 2;
  }

  lemma StepChained(tasks: seq<seq<Task>>, s: Sched, mb: nat)
    requires Shape(tasks, s) && mb < 2 && Pending(tasks, s, mb) && Chained(tasks, s)
    requires TasksOk(tasks[mb]) && Alternates(tasks[mb])
    ensures Shape(tasks, Step(tasks, s, mb)) && Chained(tasks, Step(tasks, s, mb))
  {
    hide ChainedAt, TasksOk, Alternates, Est;
    ChainStep(tasks[mb], s.next[mb], s.ready[mb], s.inflight[mb], s.free);
  }

  lemma {:induction false} RunChained(tasks: seq<seq<Task>>, s: Sched)
    requires Shape(tasks, s) && Chained(tasks, s)
    requires TasksOk(tasks[0]) && TasksOk(tasks[1]) && Alternates(tasks[0]) && Alternates(tasks[1])
    ensures Shape(tasks, Run(tasks, s)) && Chained(tasks, Run(tasks, s)) && Done(tasks, Run(tasks, s))
    decreases |tasks| + |tasks[0]| + |tasks[1]| - s.next[0] - s.next[1]
  {
    hide Chained, Alternates, EstOf;
    if !Done(tasks, s) {
      var mb := if Picked(tasks, s, 0) then 0 else 1;
      StepChained(tasks, s, mb);
      RunChained(tasks, Step(tasks, s, mb));
    }
  }

  /** For layers of alternating tasks, a finish time covers all transfers exactly when the last combine takes no time. */
  lemma {:induction false} FinishCoversTransfersIff(tasks0: seq<Task>, tasks1: seq<Task>, mb: nat)
    requires TasksOk(tasks0) && TasksOk(tasks1) && Alternates(tasks0) && Alternates(tasks1)
    requires mb < 2 && |[tasks0, tasks1][mb]| > 0 && |[tasks0, tasks1][mb]| % 2 == 0
    ensures Shape([tasks0, tasks1], Start())
    ensures var s := Run([tasks0, tasks1], Start());
      var ts := [tasks0, tasks1][mb];
      && |s.ready| == |s.inflight| == 2
      && (s.inflight[mb] <= s.ready[mb] <==> ts[|ts| - 1].duration == 0.0)
  {
    RunChained([tasks0, tasks1], Start());
  }

  /** The reported finish time leaves out a transfer still in flight, as after the last layer's combine. */
  lemma {:induction false} LastCombineNotCounted()
    ensures var ts := [Task(Compute, 1.0), Task(Combine, 5.0)];
      Shape([ts, []], Start()) && Run([ts, []], Start()).ready == [1.0, 0.0]
      && Run([ts, []], Start()).inflight == [6.0, 0.0]
  {
    var tasks := [[Task(Compute, 1.0), Task(Combine, 5.0)], []];
    var s1 := Step(tasks, Start(), 0);
    var s2 := Step(tasks, s1, 0);
    assert Picked(tasks, Start(), 0) && Picked(tasks, s1, 0);
    assert Run(tasks, s2) == s2;
    assert Run(tasks, s1) == s2;
  }

  // ----------------------------------------------------------------- the loop

  /** The candidate of microbatch k goes before that of microbatch m. */
  ghost predicate Precedes(tasks: seq<seq<Task>>, s: Sched, k: nat, m: nat)
    requires Shape(tasks, s) && k < 2 && m < 2 && Pending(tasks, s, k) && Pending(tasks, s, m)
  {
    var e, e' := EstOf(tasks, s, k), EstOf(tasks, s, m);
    var p, p' := Priority(tasks[k][s.next[k]].kind), Priority(tasks[m][s.next[m]].kind);
    e < e' || (e == e' && (p < p' || (p == p' && k < m)))
  }

  /** Build the candidates and take the smallest; `known` is false where an unknown kind raises. */
  method PickNext(tasks: seq<seq<Task>>, next: seq<nat>, ready: seq<real>, inflight: seq<real>, free: real, ghost s: Sched)
    returns (known: bool, best: int, est: real)
    requires Shape(tasks, s) && s.next == next && s.ready == ready && s.inflight == inflight && s.free == free
    ensures known <==> forall m :: 0 <= m < 2 && next[m] < |tasks[m]| ==> !tasks[m][next[m]].kind.Other?
    ensures known && best < 0 ==> Done(tasks, s)
    ensures known && best >= 0 ==> Picked(tasks, s, best) && est == EstOf(tasks, s, best)
  {
    var prio := 0;
    best, est := -1, 0.0;
    for mb := 0 to 2
      invariant -1 <= best < mb
      invariant forall m :: 0 <= m < mb && next[m] < |tasks[m]| ==> !tasks[m][next[m]].kind.Other? && best >= 0
      invariant best >= 0 ==> Pending(tasks, s, best) && est == EstOf(tasks, s, best)
      invariant best >= 0 ==> prio == Priority(tasks[best][next[best]].kind)
      invariant forall m :: 0 <= m < mb && m != best && Pending(tasks, s, m) ==> Precedes(tasks, s, best, m)
    {
      if next[mb] < |tasks[mb]| {
        var t := tasks[mb][next[mb]];
        if t.kind.Other? {
          return false, best, est;
        }
        var e, p := Est(t, ready[mb], inflight[mb], free), Priority(t.kind);
        if best < 0 || e < est || (e == est && p < prio) {
          best, est, prio := mb, e, p;
        }
      }
    }
    assert best >= 0 && Pending(tasks, s, 1 - best) ==> Precedes(tasks, s, best, 1 - best);
    known := true;
  }

  ghost predicate AllKnown(ts: seq<Task>) {
    forall i :: 0 <= i < |ts| ==> !ts[i].kind.Other?
  }

  method ScheduleResources(tasks0: seq<Task>, tasks1: seq<Task>) returns (ok: bool, finish0: real, finish1: real)
    ensures ok <==> AllKnown(tasks0) && AllKnown(tasks1)
    ensures Shape([tasks0, tasks1], Start())
    ensures ok ==> Run([tasks0, tasks1], Start()).ready == [finish0, finish1]
  {
    hide Run, Picked, EstOf, Done;
    var tasks := [tasks0, tasks1];
    var next: seq<nat>, ready, inflight := [0, 0], [0.0, 0.0], [0.0, 0.0];
    var free := 0.0;
    ghost var s := Start();
    while true
      invariant Shape(tasks, s) && s.next == next && s.ready == ready && s.inflight == inflight && s.free == free
      invariant Run(tasks, s) == Run(tasks, Start())
      invariant AllKnown(tasks0[..next[0]]) && AllKnown(tasks1[..next[1]])
      decreases |tasks0| + |tasks1| - next[0] - next[1]
    {
      var known, mb, est := PickNext(tasks, next, ready, inflight, free, s);
      if !known {
        return false, 0.0, 0.0;
      }
      if mb < 0 {
        DoneRuns(tasks, s);
        assert tasks0[..next[0]] == tasks0 && tasks1[..next[1]] == tasks1;
        break;
      }
      PickedRuns(tasks, s, mb);
      var t := tasks[mb][next[mb]];
      var end := est + t.duration;
      s := Step(tasks, s, mb);
      if t.kind.Compute? {
        ready := ready[mb := end];
        free := end;
      } else if end > inflight[mb] {
        inflight := inflight[mb := end];
      }
      assert s.inflight == inflight;
      next := next[mb := next[mb] + 1];
    }
    ok, finish0, finish1 := true, ready[0], ready[1];
  }

  lemma DoneRuns(tasks: seq<seq<Task>>, s: Sched)
    requires Shape(tasks, s) && Done(tasks, s)
    ensures Run(tasks, s) == s && s.next == [|tasks[0]|, |tasks[1]|]
  {
  }

  lemma PickedRuns(tasks: seq<seq<Task>>, s: Sched, mb: nat)
    requires Shape(tasks, s) && Picked(tasks, s, mb)
    ensures Pending(tasks, s, mb) && Run(tasks, s) == Run(tasks, Step(tasks, s, mb))
  {
  }

  // ------------------------------------------------------------ microbatches

  ghost function Evens<T>(xs: seq<T>): seq<T> {
    if |xs| == 0 then [] else [xs[0]] + Odds(xs[1..])
  }

  ghost function Odds<T>(xs: seq<T>): seq<T> {
    if |xs| == 0 then [] else Evens(xs[1..])
  }

  /** Take turns: the inverse of dealing. */
  ghost function Interleave<T>(xs: seq<T>, ys: seq<T>): seq<T>
    decreases |xs| + |ys|
  {
    if |xs| == 0 then ys else [xs[0]] + Interleave(ys, xs[1..])
  }

  /** Dealing tokens to two microbatches loses nothing and balances them to within one. */
  lemma {:induction false} DealtBalanced<T>(xs: seq<T>)
    ensures Interleave(Evens(xs), Odds(xs)) == xs
    ensures |Odds(xs)| <= |Evens(xs)| <= |Odds(xs)| + 1 && |Evens(xs)| + |Odds(xs)| == |xs|
  {
    if |xs| > 0 {
      DealtBalanced(xs[1..]);
      assert Evens(xs)[1..] == Odds(xs[1..]);
      assert Odds(xs) == Evens(xs[1..]);
    }
  }

  lemma {:induction false} DealtAppend<T>(xs: seq<T>, x: T)
    ensures |xs| % 2 == 0 ==> Evens(xs + [x]) == Evens(xs) + [x] && Odds(xs + [x]) == Odds(xs)
    ensures |xs| % 2 == 1 ==> Evens(xs + [x]) == Evens(xs) && Odds(xs + [x]) == Odds(xs) + [x]
  {
    if |xs| > 0 {
      assert (xs + [x])[1..] == xs[1..] + [x];
      DealtAppend(xs[1..], x);
    } else {
      assert [x][1..] == [];
    }
  }

  /** A token of this iteration, and the worker its request lives on. */
  datatype Token = Token(tid: nat, request: int, home: nat)

  predicate Before(a: Token, b: Token) {
    a.request < b.request || (a.request == b.request && a.tid < b.tid)
  }

  /** By request, and then by token. */
  ghost predicate Ordered(ts: seq<Token>) {
    forall i, j :: 0 <= i < j < |ts| ==>
      ts[i].request < ts[j].request || (ts[i].request == ts[j].request && ts[i].tid <= ts[j].tid)
  }

  ghost predicate DistinctIds(ts: seq<Token>) {
    forall i, j :: 0 <= i < j < |ts| ==> ts[i].tid != ts[j].tid
  }

  method InsertToken(r: seq<Token>, t: Token) returns (s: seq<Token>)
    requires Ordered(r)
    ensures Ordered(s) && |s| == |r| + 1 && multiset(s) == multiset(r) + multiset{t}
  {
    var k := |r|;
    while k > 0 && Before(t, r[k - 1])
      invariant 0 <= k <= |r|
      invariant forall j :: k <= j < |r| ==> Before(t, r[j])
    {
      k := k - 1;
    }
    InsertedOrdered(r, t, k);
    s := r[..k] + [t] + r[k..];
    assert r == r[..k] + r[k..];
  }

  lemma InsertedOrdered(r: seq<Token>, t: Token, k: nat)
    requires k <= |r| && Ordered(r) && (forall j :: k <= j < |r| ==> Before(t, r[j]))
    requires k > 0 ==> !Before(t, r[k - 1])
    ensures Ordered(r[..k] + [t] + r[k..])
  {
    var s := r[..k] + [t] + r[k..];
    forall i, j | 0 <= i < j < |s|
      ensures !Before(s[j], s[i])
    {
      if j == k {
        assert i == k - 1 || !Before(r[k - 1], r[i]);
      } else if i < k < j {
        assert !Before(r[j - 1], r[i]);
      }
    }
  }

  method SortTokens(ts: seq<Token>) returns (r: seq<Token>)
    ensures Ordered(r) && |r| == |ts| && multiset(r) == multiset(ts)
  {
    r := [];
    for i := 0 to |ts|
      invariant Ordered(r) && |r| == i && multiset(r) == multiset(ts[..i])
    {
      assert ts[..i + 1] == ts[..i] + [ts[i]];
      hide Ordered;
      r := InsertToken(r, ts[i]);
    }
    assert ts[..|ts|] == ts;
  }

  lemma WithoutLast(ts: seq<Token>)
    requires |ts| > 0
    ensures var n := |ts| - 1;
      ts == ts[..n] + [ts[n]] && multiset(ts[..n]) == multiset(ts) - multiset{ts[n]}
  {
    var n := |ts| - 1;
    assert ts == ts[..n] + [ts[n]];
    assert multiset(ts) == multiset(ts[..n]) + multiset{ts[n]};
  }

  lemma SameLength(xs: seq<Token>, ys: seq<Token>)
    requires multiset(xs) == multiset(ys)
    ensures |xs| == |ys|
  {
    assert |multiset(xs)| == |xs| && |multiset(ys)| == |ys|;
  }

  lemma LastIsLast(ts: seq<Token>, i: nat)
    requires Ordered(ts) && i < |ts|
    ensures !Before(ts[|ts| - 1], ts[i])
  {
  }

  lemma SameLast(xs: seq<Token>, ys: seq<Token>)
    requires Ordered(xs) && Ordered(ys) && multiset(xs) == multiset(ys) && DistinctIds(xs)
    requires |xs| == |ys| > 0
    ensures xs[|xs| - 1] == ys[|ys| - 1]
  {
    var n := |xs| - 1;
    assert xs[n] in multiset(xs) && ys[n] in multiset(ys);
    var i :| 0 <= i <= n && xs[i] == ys[n];
    var j :| 0 <= j <= n && ys[j] == xs[n];
    LastIsLast(xs, i);
    LastIsLast(ys, j);
  }

  /** Orderings of the same tokens are the same: dealing does not depend on the order the tokens are given in. */
  lemma {:induction false} OrderedUnique(xs: seq<Token>, ys: seq<Token>)
    requires Ordered(xs) && Ordered(ys) && multiset(xs) == multiset(ys) && DistinctIds(xs)
    ensures xs == ys
  {
    SameLength(xs, ys);
    if |xs| > 0 {
      var n := |xs| - 1;
      SameLast(xs, ys);
      WithoutLast(xs);
      WithoutLast(ys);
      OrderedUnique(xs[..n], ys[..n]);
    }
  }

  /** Sort the tokens by request and deal them alternately, noting who got which. */
  method SplitIntoMicrobatches(tokens: seq<Token>) returns (mb0: seq<Token>, mb1: seq<Token>, tidToMb: map<nat, nat>)
    ensures var dealt := Interleave(mb0, mb1);
      && Ordered(dealt) && multiset(dealt) == multiset(tokens)
      && mb0 == Evens(dealt) && mb1 == Odds(dealt) && |mb1| <= |mb0| <= |mb1| + 1
      && (forall tid :: tid in tidToMb <==> exists i :: 0 <= i < |dealt| && dealt[i].tid == tid)
      && (DistinctIds(dealt) ==> forall i :: 0 <= i < |dealt| ==> tidToMb[dealt[i].tid] == i % 2)
  {
    var ts := SortTokens(tokens);
    mb0, mb1, tidToMb := [], [], map[];
    hide Ordered;
    for i := 0 to |ts|
      invariant mb0 == Evens(ts[..i]) && mb1 == Odds(ts[..i])
      invariant forall tid :: tid in tidToMb <==> exists k :: 0 <= k < i && ts[k].tid == tid
      invariant DistinctIds(ts) ==> forall k :: 0 <= k < i ==> tidToMb[ts[k].tid] == k % 2
    {
      assert ts[..i + 1] == ts[..i] + [ts[i]];
      DealtAppend(ts[..i], ts[i]);
      tidToMb := tidToMb[ts[i].tid := i % 2];
      if i % 2 == 0 {
        mb0 := mb0 + [ts[i]];
      } else {
        mb1 := mb1 + [ts[i]];
      }
    }
    assert ts[..|ts|] == ts;
    DealtBalanced(ts);
  }
}
