/**
 * The barrier-free serving protocol of the event simulator: what each callback does to the state, as functions,
 * and a labelled transition system whose labels are the moments at which a simulated process runs.
 *
 * Delays are not modelled: any enabled label may fire next. A raised exception is an `Err` outcome.
 */
module AsyncModel {
  import opened Prelude
  import opened LayerPolicy

  // ------------------------------------------------------------ entities

  datatype Token = Token(tid: nat, rid: nat, index: nat, home: nat)

  datatype Config = Config(
    numLayers: nat,
    numWorkers: nat,
    queuesPerWorker: nat,
    maxBatch: nat,
    topK: nat,
    policy: Policy,
    tokensPerRequest: nat,
    totalRequests: nat,
    cap: Option<nat>)
  {
    predicate Valid() {
      && numLayers >= 1 && numWorkers >= 1 && queuesPerWorker >= 1
      && maxBatch >= 1 && tokensPerRequest >= 1
      && (cap.Some? ==> cap.value >= 1)
    }

    function ExpertCount(): nat {
      numWorkers * queuesPerWorker
    }
  }

  /** What a raised exception reports. */
  datatype SimError =
    | AlreadyStarted
    | UnknownRequest
    | RequestNotTracked
    | MissingHome
    | BadHome
    | MissingFanout
    | TooManyCompletions
    | IndexOutOfRange

  datatype Outcome<+T> = Ok(value: T) | Err(error: SimError) {
    predicate IsFailure() {
      Err?
    }

    function PropagateFailure<U>(): Outcome<U>
      requires Err?
    {
      Err(error)
    }

    function Extract(): T
      requires Ok?
    {
      value
    }
  }

  /** Where the loop of one GPU is suspended. */
  datatype Phase =
    | LoopTop
    | Asleep
    | Attending(layer: nat, token: Token)
    | Computing(layer: nat, batch: seq<Token>)
    | Forwarding(layer: nat, batch: seq<Token>)

  /** One GPU: expert queues by layer and local expert, its attention queue, its wake-up event, its loop position. */
  datatype Worker = Worker(
    queues: seq<seq<seq<Token>>>,
    total: int,
    attention: seq<Job>,
    triggered: bool,
    phase: Phase)

  /** Request admission and the two completion callbacks' logs. */
  datatype Manager = Manager(
    nextIndex: map<nat, nat>,
    home: map<nat, nat>,
    pending: seq<nat>,
    nextHome: nat,
    nextTid: nat,
    completed: seq<Token>,
    finished: seq<nat>)

  datatype Core = Core(m: Manager, ws: seq<Worker>)

  /** Returned copies of the tokens leaving one layer. The last layer's table keeps counts only. */
  datatype Join = Join(counts: map<nat, nat>, tokens: map<nat, Token>)

  /** A spawned routing process: not yet started, or waiting for its transfers. */
  datatype Proc =
    | Routing(layer: nat, token: Token)
    | Transit(layer: nat, token: Token, experts: seq<nat>)

  /** `fanout[l]` holds, by token id, the entry each token carries for layer l. */
  datatype State = State(
    arrived: nat,
    core: Core,
    joins: seq<Join>,
    fanout: seq<map<nat, nat>>,
    procs: seq<Proc>)

  // ------------------------------------------------------- expert worker

  function SeqLen(q: seq<Token>): nat {
    |q|
  }

  function LayerLen(qs: seq<seq<Token>>): nat {
    NatSum(qs, SeqLen)
  }

  function LayerTotals(queues: seq<seq<seq<Token>>>): seq<nat> {
    seq(|queues|, i requires 0 <= i < |queues| => LayerLen(queues[i]))
  }

  function HasNoWork(w: Worker): bool {
    w.total == 0 && w.attention == []
  }

  function EnqueueExpert(w: Worker, layer: nat, q: nat, t: Token): Worker
    requires layer < |w.queues| && q < |w.queues[layer]|
  {
    w.(queues := w.queues[layer := w.queues[layer][q := w.queues[layer][q] + [t]]],
       total := w.total + 1,
       triggered := w.triggered || HasNoWork(w))
  }

  function EnqueueAttention(w: Worker, layer: nat, t: Token): Worker {
    w.(attention := w.attention + [(layer, t)], triggered := w.triggered || HasNoWork(w))
  }

  datatype Task = AttentionTask | ExpertTask(layer: Option<nat>)

  function SelectTask(c: Config, w: Worker): Task {
    var (best, score) := BestLayer(c.policy, LayerTotals(w.queues));
    if w.attention != [] && (best.None? || |w.attention| as real * c.topK as real > score)
    then AttentionTask
    else ExpertTask(best)
  }

  /** Tokens taken from the queues of one layer, in queue order, up to a batch limit; and what stays queued. */
  function Drain(qs: seq<seq<Token>>, room: nat): (seq<Token>, seq<seq<Token>>) {
    if |qs| == 0 then ([], [])
    else
      var k := if |qs[0]| <= room then |qs[0]| else room;
      var (batch, rest) := Drain(qs[1..], room - k);
      (qs[0][..k] + batch, [qs[0][k..]] + rest)
  }

  /** One choice of the loop body: up to the point where it waits, or back to the top when it found nothing. */
  function TakeTask(c: Config, w: Worker): Worker {
    match SelectTask(c, w)
    case AttentionTask =>
      w.(attention := w.attention[1..], phase := Attending(w.attention[0].0, w.attention[0].1))
    case ExpertTask(best) =>
      if best.None? then w.(phase := LoopTop)
      else
        var (batch, rest) := Drain(w.queues[best.value], c.maxBatch);
        w.(queues := w.queues[best.value := rest],
           total := w.total - |batch|,
           phase := if batch == [] then LoopTop else Computing(best.value, batch))
  }

  /** From the top of the loop: sleep on a fresh event when there is no work, else take a task. */
  function LoopPass(c: Config, w: Worker): Worker {
    if HasNoWork(w) then w.(triggered := false, phase := Asleep) else TakeTask(c, w)
  }

  // ----------------------------------------------------- request manager

  function EnqueueAt(ws: seq<Worker>, layer: nat, t: Token): Outcome<seq<Worker>> {
    if t.home >= |ws| then Err(BadHome)
    else Ok(ws[t.home := EnqueueAttention(ws[t.home], layer, t)])
  }

  function DispatchNext(c: Config, k: Core, rid: nat): (r: Outcome<Core>)
    ensures r.Ok? ==> r.value.m.pending == k.m.pending
  {
    var m := k.m;
    if rid !in m.nextIndex then Err(RequestNotTracked)
    else if m.nextIndex[rid] >= c.tokensPerRequest then Ok(k)
    else if rid !in m.home then Err(MissingHome)
    else
      var t := Token(m.nextTid, rid, m.nextIndex[rid], m.home[rid]);
      var m1 := m.(nextTid := m.nextTid + 1, nextIndex := m.nextIndex[rid := m.nextIndex[rid] + 1]);
      var ws :- EnqueueAt(k.ws, 0, t);
      Ok(Core(m1, ws))
  }

  function HasRoom(c: Config, m: Manager): bool {
    c.cap.None? || |m.nextIndex| < c.cap.value
  }

  function StartRequest(c: Config, k: Core, rid: nat): (r: Outcome<Core>)
    ensures r.Ok? ==> r.value.m.pending == k.m.pending
  {
    if rid in k.m.nextIndex then Err(AlreadyStarted)
    else
      var m1 := k.m.(nextIndex := k.m.nextIndex[rid := 0],
                     home := k.m.home[rid := k.m.nextHome % (if c.numWorkers == 0 then 1 else c.numWorkers)],
                     nextHome := k.m.nextHome + 1);
      DispatchNext(c, k.(m := m1), rid)
  }

  function AdmitRequest(c: Config, k: Core, rid: nat): Outcome<Core> {
    if HasRoom(c, k.m) then StartRequest(c, k, rid)
    else Ok(k.(m := k.m.(pending := k.m.pending + [rid])))
  }

  /** Admit waiting requests, oldest first, while there is room. */
  function AdmitQueued(c: Config, k: Core): Outcome<Core>
    decreases |k.m.pending|
  {
    if k.m.pending == [] || !HasRoom(c, k.m) then Ok(k)
    else
      var k1 :- StartRequest(c, k.(m := k.m.(pending := k.m.pending[1..])), k.m.pending[0]);
      AdmitQueued(c, k1)
  }

  function HandleCompletion(c: Config, k: Core, t: Token): Outcome<Core> {
    var m := k.m.(completed := k.m.completed + [t]);
    if t.rid !in m.nextIndex then Err(UnknownRequest)
    else if t.index + 1 < c.tokensPerRequest then DispatchNext(c, k.(m := m), t.rid)
    else
      var m1 := m.(nextIndex := m.nextIndex - {t.rid}, home := m.home - {t.rid}, finished := m.finished + [t.rid]);
      AdmitQueued(c, k.(m := m1))
  }

  // ------------------------------------------------------- joining copies

  datatype JoinResult = JoinResult(join: Join, released: Option<Token>)

  /** One more copy of t came back, of the `expected` number its fanout entry records. */
  function Tally(j: Join, expected: Option<nat>, t: Token, keepToken: bool): Outcome<JoinResult> {
    if expected.None? || expected.value == 0 then Err(MissingFanout)
    else
      var count := (if t.tid in j.counts then j.counts[t.tid] else 0) + 1;
      if count < expected.value then
        var tokens := if keepToken && t.tid !in j.tokens then j.tokens[t.tid := t] else j.tokens;
        Ok(JoinResult(Join(j.counts[t.tid := count], tokens), None))
      else if count == expected.value then
        var token := if t.tid in j.tokens then j.tokens[t.tid] else t;
        Ok(JoinResult(Join(j.counts - {t.tid}, j.tokens - {t.tid}), Some(token)))
      else Err(TooManyCompletions)
  }

  function FanoutOf(table: map<nat, nat>, tid: nat): Option<nat> {
    if tid in table then Some(table[tid]) else None
  }

  /** A copy of t leaves layer `layer`: to the next layer's join, or to the final one and the request manager. */
  function CompleteCopy(c: Config, s: State, layer: nat, t: Token): Outcome<State> {
    if layer >= |s.joins| || layer >= |s.fanout| then Err(IndexOutOfRange)
    else
      var last := layer + 1 == c.numLayers;
      var r :- Tally(s.joins[layer], FanoutOf(s.fanout[layer], t.tid), t, !last);
      var s1 := s.(joins := s.joins[layer := r.join]);
      if r.released.None? then Ok(s1)
      else if last then
        var core :- HandleCompletion(c, s1.core, r.released.value);
        Ok(s1.(core := core))
      else
        var ws :- EnqueueAt(s1.core.ws, layer + 1, r.released.value);
        Ok(s1.(core := s1.core.(ws := ws)))
  }

  // ------------------------------------------------------------- routing

  /** An attention job: a token at a layer. */
  type Job = (nat, Token)

  /** Put one copy of t on the queue of an expert. */
  function DeliverCopy(c: Config, ws: seq<Worker>, layer: nat, t: Token, expert: nat): Outcome<seq<Worker>> {
    if c.queuesPerWorker == 0 then Err(IndexOutOfRange)
    else
      var w := expert / c.queuesPerWorker;
      var q := expert % c.queuesPerWorker;
      if w >= |ws| || layer >= |ws[w].queues| || q >= |ws[w].queues[layer]| then Err(IndexOutOfRange)
      else Ok(ws[w := EnqueueExpert(ws[w], layer, q, t)])
  }

  /** Put one copy of t on the queue of each chosen expert, in order. */
  function DeliverAll(c: Config, ws: seq<Worker>, layer: nat, t: Token, experts: seq<nat>): Outcome<seq<Worker>>
    decreases |experts|
  {
    if experts == [] then Ok(ws)
    else
      var ws1 :- DeliverCopy(c, ws, layer, t, experts[0]);
      DeliverAll(c, ws1, layer, t, experts[1..])
  }

  // --------------------------------------------------- transition system

  /**
   * Arrive: the next request reaches the manager.  Pass(w): GPU w goes through the top of its loop.
   * Wake(w): its event fires.  AttentionDone(w), ComputeDone(w): it finishes what it was waiting for.
   * Forward(w): it hands on the next token of a finished batch.  Route(k, es): routing process k picks experts es.
   * Deliver(k): the transfers of process k end.
   */
  datatype Label =
    | Arrive
    | Pass(w: nat)
    | Wake(w: nat)
    | AttentionDone(w: nat)
    | ComputeDone(w: nat)
    | Forward(w: nat)
    | Route(k: nat, experts: seq<nat>)
    | Deliver(k: nat)

  function EmptyWorker(c: Config): Worker {
    Worker(seq(c.numLayers, l => seq(c.queuesPerWorker, q => [])), 0, [], false, LoopTop)
  }

  function Init(c: Config): State {
    State(0,
          Core(Manager(map[], map[], [], 0, 0, [], []), seq(c.numWorkers, w => EmptyWorker(c))),
          seq(c.numLayers, l => Join(map[], map[])),
          seq(c.numLayers, l => map[]),
          [])
  }

  /** Experts a router may return: at least one, all of them existing. */
  predicate ValidExperts(c: Config, experts: seq<nat>) {
    experts != [] && forall e :: e in experts ==> e < c.ExpertCount()
  }

  predicate Enabled(c: Config, s: State, l: Label) {
    var ws := s.core.ws;
    match l
    case Arrive => s.arrived < c.totalRequests
    case Pass(w) => w < |ws| && ws[w].phase.LoopTop?
    case Wake(w) => w < |ws| && ws[w].phase.Asleep? && ws[w].triggered
    case AttentionDone(w) => w < |ws| && ws[w].phase.Attending?
    case ComputeDone(w) => w < |ws| && ws[w].phase.Computing?
    case Forward(w) => w < |ws| && ws[w].phase.Forwarding?
    case Route(k, experts) => k < |s.procs| && s.procs[k].Routing? && ValidExperts(c, experts)
    case Deliver(k) => k < |s.procs| && s.procs[k].Transit?
  }

  function SetWorker(s: State, i: nat, w: Worker): State
    requires i < |s.core.ws|
  {
    s.(core := s.core.(ws := s.core.ws[i := w]))
  }

  function Without<T>(xs: seq<T>, k: nat): seq<T>
    requires k < |xs|
  {
    xs[..k] + xs[k + 1..]
  }

  function ForwardedWorker(w: Worker): Worker
    requires w.phase.Forwarding? && w.phase.batch != []
  {
    w.(phase := if |w.phase.batch| == 1 then LoopTop else Forwarding(w.phase.layer, w.phase.batch[1..]))
  }

  function Next(c: Config, s: State, l: Label): Outcome<State>
    requires Enabled(c, s, l)
  {
    var ws := s.core.ws;
    match l
    case Arrive =>
      var core :- AdmitRequest(c, s.core, s.arrived);
      Ok(s.(arrived := s.arrived + 1, core := core))
    case Pass(w) => Ok(SetWorker(s, w, LoopPass(c, ws[w])))
    case Wake(w) => Ok(SetWorker(s, w, TakeTask(c, ws[w])))
    case AttentionDone(w) =>
      var p := ws[w].phase;
      Ok(SetWorker(s, w, ws[w].(phase := LoopTop)).(procs := s.procs + [Routing(p.layer, p.token)]))
    case ComputeDone(w) =>
      var p := ws[w].phase;
      Ok(SetWorker(s, w, ws[w].(phase := Forwarding(p.layer, p.batch))))
    case Forward(w) =>
      var p := ws[w].phase;
      if p.batch == [] then Err(IndexOutOfRange)
      else CompleteCopy(c, SetWorker(s, w, ForwardedWorker(ws[w])), p.layer, p.batch[0])
    case Route(k, experts) =>
      var p := s.procs[k];
      if p.layer >= |s.fanout| then Err(IndexOutOfRange)
      else
        var table: map<nat, nat> := s.fanout[p.layer][p.token.tid := |experts|];
        Ok(s.(fanout := s.fanout[p.layer := table], procs := s.procs[k := Transit(p.layer, p.token, experts)]))
    case Deliver(k) =>
      var p := s.procs[k];
      if p.layer >= |s.fanout| then Err(IndexOutOfRange)
      else
        var ws1 :- DeliverAll(c, ws, p.layer, p.token, p.experts);
        Ok(s.(core := s.core.(ws := ws1), procs := Without(s.procs, k)))
  }

  /** A run: it starts at the initial state and every step is an enabled label that raised nothing. */
  ghost predicate IsRun(c: Config, states: seq<State>, labels: seq<Label>) {
    && |states| == |labels| + 1
    && states[0] == Init(c)
    && forall i :: 0 <= i < |labels| ==> IsStep(c, states[i], labels[i], states[i + 1])
  }

  ghost predicate IsStep(c: Config, s: State, l: Label, s': State) {
    Enabled(c, s, l) && Next(c, s, l) == Ok(s')
  }
}
