/**
 * The receiving pool as a function of the calls made to it: one lane of queues for every layer, attention layers first.
 * Over any sequence of calls, what was routed to a layer leaves it exactly once and in order.
 */
module PoolModel {
  import opened Prelude
  import opened Batches
  import opened BatchMerge
  import opened BatchSplit
  import opened DataPlane
  import opened LayerQueue
  import opened TopKPool

  datatype Config = Config(numAttn: nat, numExpert: nat, topK: nat, numGroups: nat)

  /** The queues of a layer, and the copies its top-k join still holds. */
  datatype Lane = Lane(batches: seq<TokenBatch>, tokens: seq<TopKToken>, held: map<int, TopKToken>)

  datatype Call =
    | Process(b: TokenBatch)
    | Get(layer: nat, limit: int)

  // ----------------------------------------------------------------- routing

  /** Attention layers above the first gather copies when there are several. */
  predicate GathersAt(topK: nat, numAttn: nat, layer: int) {
    topK > 1 && 0 < layer < numAttn
  }

  predicate UsesTokenQueue(c: Config, layer: int) {
    GathersAt(c.topK, c.numAttn, layer)
  }

  /** The layer an arriving batch is queued for: attention feeds the experts, everything else feeds attention. */
  function Target(c: Config, m: Meta): int {
    if m.tag == Attention then c.numAttn + m.layerId else m.layerId
  }

  /** Experts' output for a layer above the first is gathered when there are several copies. */
  predicate Gathers(c: Config, m: Meta) {
    m.tag == Expert && c.topK > 1 && m.layerId > 0
  }

  /** A tokenizer batch for a gathering layer goes to the queue that layer is not drained from. */
  predicate Misrouted(c: Config, m: Meta) {
    m.tag == Tokenizer && c.topK > 1 && m.layerId > 0
  }

  /** Batches for the experts of several groups are not supported. */
  predicate Refused(c: Config, m: Meta) {
    m.tag == Attention && c.numGroups > 1
  }

  function Retagged(b: TokenBatch): TokenBatch {
    if b.meta.tag == Attention then AsExpertBatch(b) else AsAttentionBatch(b)
  }

  /** A batch as its sender makes it: for a layer there is, with lengths, routing vectors and ranks where needed. */
  ghost predicate Arriving(c: Config, b: TokenBatch) {
    && WellFormedBatch(b) && 0 <= b.meta.layerId < (if b.meta.tag == Attention then c.numExpert else c.numAttn)
    && (forall i :: 0 <= i < |b.meta.prefillLens| ==> b.meta.prefillLens[i] >= -1)
    && (b.meta.tag == Attention ==> RoutedBatch(b))
    && (Gathers(c, b.meta) ==> |b.meta.ranks| == b.meta.numTokens)
  }

  ghost predicate CallOk(c: Config, call: Call) {
    match call
    case Process(b) => Arriving(c, b) && !Misrouted(c, b.meta)
    case Get(layer, _) => layer < c.numAttn + c.numExpert
  }

  ghost predicate CallsOk(c: Config, calls: seq<Call>) {
    forall i :: 0 <= i < |calls| ==> CallOk(c, calls[i])
  }

  // ------------------------------------------------------------------- kinds

  ghost predicate AttnKind(b: TokenBatch) {
    AttnBatch(b) && WellFormedBatch(b) && b.meta.tag == Attention
  }

  ghost predicate ExpertKind(b: TokenBatch) {
    RoutedBatch(b) && b.meta.tag == Expert
  }

  /** The layer of the model that lane i serves: attention layers come first, then expert layers. */
  function LayerOf(numAttn: nat, i: nat): nat {
    if i < numAttn then i else i - numAttn
  }

  /** The batches of a lane are of the kind it computes, and for its layer. */
  ghost predicate Typed(numAttn: nat, layer: nat, q: seq<TokenBatch>) {
    forall k :: 0 <= k < |q| ==>
      && q[k].meta.layerId == LayerOf(numAttn, layer)
      && if layer < numAttn then AttnKind(q[k]) else ExpertKind(q[k])
  }

  /** Gathered tokens are complete, and their lengths are lengths. */
  ghost predicate Complete(ts: seq<TopKToken>, topK: nat) {
    forall k :: 0 <= k < |ts| ==> |ts[k].tensors| == topK && ts[k].prefill >= -1
  }

  /** Held tokens wait for some copies, and their lengths are lengths. */
  ghost predicate Waiting(held: map<int, TopKToken>, topK: nat) {
    forall r :: r in held ==> 0 < |held[r].tensors| < topK && held[r].prefill >= -1
  }

  /** A layer keeps its tokens in the queue it is drained from, ready to be merged or packed. */
  ghost predicate LaneOk(c: Config, i: nat, lane: Lane) {
    && WellFormedQueue(lane.batches) && Typed(c.numAttn, i, lane.batches)
    && Complete(lane.tokens, c.topK) && Waiting(lane.held, c.topK)
    && if UsesTokenQueue(c, i) then lane.batches == [] else lane.tokens == [] && lane.held == map[]
  }

  ghost predicate Shaped(c: Config, lanes: seq<Lane>) {
    |lanes| == c.numAttn + c.numExpert && forall i :: 0 <= i < |lanes| ==> LaneOk(c, i, lanes[i])
  }

  /** A batch a lane may work on: of its kind, and for its layer. */
  ghost predicate IsFor(b: TokenBatch, numAttn: nat, layer: nat) {
    b.meta.layerId == LayerOf(numAttn, layer) && b.meta.tag == if layer < numAttn then Attention else Expert
  }

  lemma RetaggedKind(b: TokenBatch)
    requires WellFormedBatch(b) && (b.meta.tag == Attention ==> RoutedBatch(b))
    ensures WellFormedBatch(Retagged(b)) && Items(Retagged(b)) == Items(b) && Retagged(b).meta.layerId == b.meta.layerId
    ensures if b.meta.tag == Attention then ExpertKind(Retagged(b)) else AttnKind(Retagged(b))
    ensures b.meta.tag != Attention ==> Retagged(b).meta.numPrefill.value == |PrefillPositions(b.meta.prefillLens)|
  {
    PrefillsCounted(b.meta.prefillLens);
  }

  /** Cutting a batch leaves two batches of its kind, for its layer. */
  lemma PieceKinds(b: TokenBatch, lo: nat, hi: nat)
    requires WellFormedBatch(b) && lo <= hi <= b.meta.numTokens
    ensures Piece(b, lo, hi).meta.layerId == b.meta.layerId
    ensures AttnKind(b) ==> AttnKind(Piece(b, lo, hi))
    ensures ExpertKind(b) ==> ExpertKind(Piece(b, lo, hi))
  {
    PieceItems(b, lo, hi);
    if AttnKind(b) {
      PieceAttention(b, lo, hi);
    }
    if ExpertKind(b) {
      PieceRouted(b, lo, hi);
    }
  }

  /** What a drain takes and what it leaves are batches of the lane's kind and layer, cut ones included. */
  lemma {:induction false} DrainKeepsKind(numAttn: nat, layer: nat, q: seq<TokenBatch>, t: int)
    requires WellFormedQueue(q) && Typed(numAttn, layer, q)
    ensures Typed(numAttn, layer, Drain(q, t).0) && Typed(numAttn, layer, Drain(q, t).1)
  {
    hide AttnKind, ExpertKind, WellFormedBatch, Piece;
    if |q| > 0 && t > 0 {
      assert WellFormedBatch(q[0]);
      var n := q[0].meta.numTokens;
      if n > t {
        PieceKinds(q[0], 0, t);
        PieceKinds(q[0], t, n);
      } else {
        DrainKeepsKind(numAttn, layer, q[1..], t - n);
      }
    }
  }

  // -------------------------------------------------------------------- joins

  /** What the join of a layer holds and emits for a batch. */
  ghost function Join(c: Config, lane: Lane, b: TokenBatch): Pool
    requires PutOk(b)
  {
    ArriveAll(Pool(lane.held, []), c.topK, Arrivals(b))
  }

  lemma {:induction false} JoinKeepsShape(p: Pool, k: nat, xs: seq<Arrival>)
    requires k > 1 && Waiting(p.held, k) && Complete(p.ready, k)
    requires forall i :: 0 <= i < |xs| ==> xs[i].prefill >= -1
    ensures Waiting(ArriveAll(p, k, xs).held, k) && Complete(ArriveAll(p, k, xs).ready, k)
  {
    if |xs| > 0 {
      JoinKeepsShape(p, k, xs[..|xs| - 1]);
    }
  }

  /** Emissions do not depend on what was emitted before. */
  lemma {:induction false} JoinAppends(p: Pool, k: nat, xs: seq<Arrival>)
    ensures var q := ArriveAll(Pool(p.held, []), k, xs);
      ArriveAll(p, k, xs) == Pool(q.held, p.ready + q.ready)
  {
    if |xs| > 0 {
      JoinAppends(p, k, xs[..|xs| - 1]);
    }
  }

  // -------------------------------------------------------------------- steps

  ghost function Routed(c: Config, lane: Lane, b: TokenBatch): Lane
    requires Gathers(c, b.meta) ==> PutOk(b)
  {
    if Gathers(c, b.meta) then
      var p := Join(c, lane, b);
      lane.(tokens := lane.tokens + p.ready, held := p.held)
    else lane.(batches := lane.batches + [Retagged(b)])
  }

  /** How many gathered tokens a drain takes. */
  function TokenCut(ts: seq<TopKToken>, limit: int): (r: nat)
    ensures r <= |ts|
  {
    if limit <= 0 then 0 else if limit < |ts| then limit else |ts|
  }

  ghost function Drained(c: Config, layer: nat, lane: Lane, limit: int): Lane
    requires WellFormedQueue(lane.batches)
  {
    if UsesTokenQueue(c, layer) then lane.(tokens := lane.tokens[TokenCut(lane.tokens, limit)..])
    else lane.(batches := Drain(lane.batches, limit).1)
  }

  /** Draining either queue is draining both, as the other one is empty. */
  lemma DrainsBoth(c: Config, i: nat, lane: Lane, limit: int)
    requires LaneOk(c, i, lane)
    ensures Drained(c, i, lane, limit)
         == lane.(batches := Drain(lane.batches, limit).1, tokens := lane.tokens[TokenCut(lane.tokens, limit)..])
  {
    hide Typed, Complete, Waiting;
  }

  /** What a call does to the lanes; at most one of them changes. */
  ghost function Step(c: Config, lanes: seq<Lane>, call: Call): (r: seq<Lane>)
    requires Shaped(c, lanes) && CallOk(c, call)
    ensures Shaped(c, r)
  {
    StepShaped(c, lanes, call);
    StepOf(c, lanes, call)
  }

  ghost function StepOf(c: Config, lanes: seq<Lane>, call: Call): seq<Lane>
    requires Shaped(c, lanes)
    requires if call.Process? then Arriving(c, call.b) else call.layer < |lanes|
  {
    match call
    case Process(b) =>
      var t := Target(c, b.meta);
      if Refused(c, b.meta) then lanes else lanes[t := Routed(c, lanes[t], b)]
    case Get(layer, limit) => lanes[layer := Drained(c, layer, lanes[layer], limit)]
  }

  lemma RoutedOk(c: Config, i: nat, lane: Lane, b: TokenBatch)
    requires LaneOk(c, i, lane) && Arriving(c, b) && !Misrouted(c, b.meta) && i == Target(c, b.meta)
    ensures LaneOk(c, i, Routed(c, lane, b))
  {
    RetaggedKind(b);
    hide Retagged, AttnKind, ExpertKind, WellFormedBatch, Join, Arrivals;
    if Gathers(c, b.meta) {
      GatheredOk(c, lane, b);
    }
  }

  lemma GatheredOk(c: Config, lane: Lane, b: TokenBatch)
    requires Waiting(lane.held, c.topK) && Arriving(c, b) && Gathers(c, b.meta)
    ensures Waiting(Join(c, lane, b).held, c.topK) && Complete(Join(c, lane, b).ready, c.topK)
  {
    JoinKeepsShape(Pool(lane.held, []), c.topK, Arrivals(b));
  }

  lemma DrainedOk(c: Config, i: nat, lane: Lane, limit: int)
    requires LaneOk(c, i, lane)
    ensures LaneOk(c, i, Drained(c, i, lane, limit))
  {
    hide AttnKind, ExpertKind, WellFormedBatch, Drain, QueueItems, Waiting;
    if !UsesTokenQueue(c, i) {
      DrainTakesPrefix(lane.batches, limit);
      DrainKeepsKind(c.numAttn, i, lane.batches, limit);
      hide Typed, WellFormedQueue, Complete;
    }
  }

  lemma StepShaped(c: Config, lanes: seq<Lane>, call: Call)
    requires Shaped(c, lanes) && CallOk(c, call)
    ensures Shaped(c, StepOf(c, lanes, call))
  {
    hide LaneOk, Routed, Drained;
    match call
    case Process(b) =>
      var t := Target(c, b.meta);
      assert LaneOk(c, t, lanes[t]);
      RoutedOk(c, t, lanes[t], b);
    case Get(layer, limit) =>
      assert LaneOk(c, layer, lanes[layer]);
      DrainedOk(c, layer, lanes[layer], limit);
  }

  /** Routing keeps every layer's tokens in the queue it is drained from exactly when the batch is not misrouted. */
  lemma RoutedAgreesIff(c: Config, lane: Lane, b: TokenBatch)
    requires Arriving(c, b) && LaneOk(c, Target(c, b.meta), lane)
    ensures LaneOk(c, Target(c, b.meta), Routed(c, lane, b)) <==> !Misrouted(c, b.meta)
  {
    hide LaneOk, Routed;
    if !Misrouted(c, b.meta) {
      RoutedOk(c, Target(c, b.meta), lane, b);
    } else {
      MisroutedStays(c, lane, b);
    }
  }

  lemma MisroutedStays(c: Config, lane: Lane, b: TokenBatch)
    requires Arriving(c, b) && Misrouted(c, b.meta)
    ensures !LaneOk(c, Target(c, b.meta), Routed(c, lane, b))
  {
    assert |Routed(c, lane, b).batches| > 0;
  }

  /** A pool that can be drained stays so exactly when the batch it processes is refused, or not misrouted. */
  lemma ProcessReadyIff(c: Config, lanes: seq<Lane>, b: TokenBatch)
    ensures Shaped(c, lanes) && Arriving(c, b) ==>
      (Shaped(c, StepOf(c, lanes, Process(b))) <==> Refused(c, b.meta) || !Misrouted(c, b.meta))
  {
    hide LaneOk, Routed;
    if Shaped(c, lanes) && Arriving(c, b) && !Refused(c, b.meta) {
      var t := Target(c, b.meta);
      assert LaneOk(c, t, lanes[t]);
      RoutedAgreesIff(c, lanes[t], b);
      assert StepOf(c, lanes, Process(b))[t] == Routed(c, lanes[t], b);
    }
  }

  // --------------------------------------------------------------------- runs

  ghost function EmptyLanes(c: Config): (r: seq<Lane>)
    ensures Shaped(c, r) && forall i :: 0 <= i < |r| ==> r[i] == Lane([], [], map[])
  {
    seq(c.numAttn + c.numExpert, _ => Lane([], [], map[]))
  }

  ghost function Run(c: Config, calls: seq<Call>): (r: seq<Lane>)
    requires CallsOk(c, calls)
    ensures Shaped(c, r)
  {
    if |calls| == 0 then EmptyLanes(c) else Step(c, Run(c, calls[..|calls| - 1]), calls[|calls| - 1])
  }

  /** The tokens a call queues for a layer in whole batches. */
  ghost function Queues(c: Config, call: Call, layer: nat): seq<Item>
    requires CallOk(c, call)
  {
    if call.Process? then
      var m := call.b.meta;
      var toExperts := m.tag == Attention && c.numGroups <= 1 && c.numAttn + m.layerId == layer;
      var toAttention := m.tag != Attention && m.layerId == layer && (m.tag == Tokenizer || c.topK <= 1 || layer == 0);
      if toExperts || toAttention then Items(call.b) else []
    else []
  }

  /** The copies a call brings to the join of a layer. */
  ghost function Brings(c: Config, call: Call, layer: nat): seq<Arrival>
    requires CallOk(c, call)
  {
    if call.Process? && call.b.meta.tag == Expert && c.topK > 1 && call.b.meta.layerId == layer > 0
    then Arrivals(call.b) else []
  }

  ghost function AllQueued(c: Config, calls: seq<Call>, layer: nat): seq<Item>
    requires CallsOk(c, calls)
  {
    if |calls| == 0 then []
    else AllQueued(c, calls[..|calls| - 1], layer) + Queues(c, calls[|calls| - 1], layer)
  }

  ghost function AllCopies(c: Config, calls: seq<Call>, layer: nat): seq<Arrival>
    requires CallsOk(c, calls)
  {
    if |calls| == 0 then []
    else AllCopies(c, calls[..|calls| - 1], layer) + Brings(c, calls[|calls| - 1], layer)
  }

  /** The tokens a call takes from the batches of a layer. */
  ghost function TakesItems(c: Config, lanes: seq<Lane>, call: Call, layer: nat): seq<Item>
    requires Shaped(c, lanes) && layer < |lanes|
  {
    if call.Get? && call.layer == layer && !UsesTokenQueue(c, layer) then
      assert LaneOk(c, layer, lanes[layer]);
      DrainTakesPrefix(lanes[layer].batches, call.limit);
      QueueItems(Drain(lanes[layer].batches, call.limit).0)
    else []
  }

  /** The gathered tokens a call takes from a layer. */
  ghost function TakesTokens(c: Config, lanes: seq<Lane>, call: Call, layer: nat): seq<TopKToken>
    requires Shaped(c, lanes) && layer < |lanes|
  {
    if call.Get? && call.layer == layer && UsesTokenQueue(c, layer)
    then lanes[layer].tokens[..TokenCut(lanes[layer].tokens, call.limit)] else []
  }

  ghost function AllItemsTaken(c: Config, calls: seq<Call>, layer: nat): seq<Item>
    requires CallsOk(c, calls) && layer < c.numAttn + c.numExpert
  {
    if |calls| == 0 then []
    else
      var before := calls[..|calls| - 1];
      AllItemsTaken(c, before, layer) + TakesItems(c, Run(c, before), calls[|calls| - 1], layer)
  }

  ghost function AllTokensTaken(c: Config, calls: seq<Call>, layer: nat): seq<TopKToken>
    requires CallsOk(c, calls) && layer < c.numAttn + c.numExpert
  {
    if |calls| == 0 then []
    else
      var before := calls[..|calls| - 1];
      AllTokensTaken(c, before, layer) + TakesTokens(c, Run(c, before), calls[|calls| - 1], layer)
  }

  /** Whole batches are queued for exactly the layers they are routed to. */
  lemma QueuesWhereRouted(c: Config, b: TokenBatch, layer: nat)
    requires Arriving(c, b) && !Misrouted(c, b.meta) && layer < c.numAttn + c.numExpert
    ensures Queues(c, Process(b), layer)
         == if Target(c, b.meta) == layer && !Refused(c, b.meta) && !Gathers(c, b.meta) then Items(b) else []
  {
    hide Items, WellFormedBatch;
  }

  /** One call: what it takes from a layer's batches, and what is queued after it, is what was queued and what it adds. */
  lemma StepItems(c: Config, lanes: seq<Lane>, call: Call, layer: nat)
    requires Shaped(c, lanes) && CallOk(c, call) && layer < |lanes|
    ensures LaneOk(c, layer, lanes[layer]) && LaneOk(c, layer, Step(c, lanes, call)[layer])
    ensures TakesItems(c, lanes, call, layer) + QueueItems(Step(c, lanes, call)[layer].batches)
         == QueueItems(lanes[layer].batches) + Queues(c, call, layer)
  {
    var lane := lanes[layer];
    assert LaneOk(c, layer, lane) && LaneOk(c, layer, Step(c, lanes, call)[layer]);
    hide Items, WellFormedBatch, Typed, Retagged, Complete, Waiting, Join;
    match call
    case Process(b) =>
      QueuesWhereRouted(c, b, layer);
      hide Queues;
      if Target(c, b.meta) == layer && !Refused(c, b.meta) && !Gathers(c, b.meta) {
        RetaggedKind(b);
        QueueConcat(lane.batches, [Retagged(b)]);
        OneBatchQueue(Retagged(b));
      }
    case Get(l, limit) =>
      if l == layer && !UsesTokenQueue(c, layer) {
        DrainTakesPrefix(lane.batches, limit);
      }
  }

  /** One call: what it takes and leaves of a layer's gathered tokens is what was there and what its copies complete. */
  lemma StepTokens(c: Config, lanes: seq<Lane>, call: Call, layer: nat)
    requires Shaped(c, lanes) && CallOk(c, call) && layer < |lanes| && UsesTokenQueue(c, layer)
    ensures var before, after := lanes[layer], Step(c, lanes, call)[layer];
      var p := ArriveAll(Pool(before.held, []), c.topK, Brings(c, call, layer));
      && TakesTokens(c, lanes, call, layer) + after.tokens == before.tokens + p.ready
      && after.held == p.held
  {
    var lane := lanes[layer];
    hide Arrivals, LaneOk;
    assert ArriveAll(Pool(lane.held, []), c.topK, []) == Pool(lane.held, []);
    match call
    case Process(b) =>
      assert Refused(c, b.meta) ==> !Gathers(c, b.meta);
    case Get(l, limit) =>
  }

  /**
   * Over any sequence of calls: the tokens drained from a layer, followed by those still queued, are all the tokens
   * routed to it, in the order they arrived.
   */
  lemma {:induction false} BatchesBalance(c: Config, calls: seq<Call>, layer: nat)
    requires CallsOk(c, calls) && layer < c.numAttn + c.numExpert
    ensures LaneOk(c, layer, Run(c, calls)[layer])
    ensures AllItemsTaken(c, calls, layer) + QueueItems(Run(c, calls)[layer].batches) == AllQueued(c, calls, layer)
  {
    hide Step, TakesItems, Queues, QueueItems, Typed, Complete, Waiting, WellFormedBatch;
    if |calls| == 0 {
      NothingYet(c, layer);
    } else {
      var n := |calls| - 1;
      var before, call := calls[..n], calls[n];
      assert CallOk(c, calls[n]);
      BatchesBalance(c, before, layer);
      StepItems(c, Run(c, before), call, layer);
      Reassociate(AllItemsTaken(c, before, layer), QueueItems(Run(c, before)[layer].batches), Queues(c, call, layer),
                  TakesItems(c, Run(c, before), call, layer), QueueItems(Run(c, calls)[layer].batches));
    }
  }

  lemma NothingYet(c: Config, layer: nat)
    requires layer < c.numAttn + c.numExpert
    ensures LaneOk(c, layer, EmptyLanes(c)[layer]) && QueueItems([]) == []
  {
  }

  lemma Reassociate<T>(taken: seq<T>, queued: seq<T>, added: seq<T>, takes: seq<T>, left: seq<T>)
    requires takes + left == queued + added
    ensures (taken + takes) + left == (taken + queued) + added
  {
    assert (taken + takes) + left == taken + (takes + left);
    assert (taken + queued) + added == taken + (queued + added);
  }

  /**
   * Over any sequence of calls: the tokens drained from a gathering layer, followed by those still queued, are what the
   * join emits for all copies that arrived, in order; the copies of no complete token are still held.
   */
  lemma {:induction false} TokensBalance(c: Config, calls: seq<Call>, layer: nat)
    requires CallsOk(c, calls) && UsesTokenQueue(c, layer)
    ensures var lane, p := Run(c, calls)[layer], ArriveAll(Pool(map[], []), c.topK, AllCopies(c, calls, layer));
      AllTokensTaken(c, calls, layer) + lane.tokens == p.ready && lane.held == p.held
  {
    hide Step, TakesTokens, Brings;
    if |calls| > 0 {
      var n := |calls| - 1;
      var before, call := calls[..n], calls[n];
      assert CallOk(c, calls[n]);
      TokensBalance(c, before, layer);
      var lanes, more := Run(c, before), Brings(c, call, layer);
      var p := ArriveAll(Pool(map[], []), c.topK, AllCopies(c, before, layer));
      StepTokens(c, lanes, call, layer);
      ArriveAllConcat(Pool(map[], []), c.topK, AllCopies(c, before, layer), more);
      JoinAppends(p, c.topK, more);
      Reassociate(AllTokensTaken(c, before, layer), lanes[layer].tokens,
                  ArriveAll(Pool(p.held, []), c.topK, more).ready,
                  TakesTokens(c, lanes, call, layer), Run(c, calls)[layer].tokens);
    }
  }

  /**
   * So per sequence, each full group of its copies leaves or waits as one token, in order and with exactly its tensors,
   * and the rest are held.
   */
  lemma EveryGroupOnce(c: Config, calls: seq<Call>, layer: nat, r: int)
    requires CallsOk(c, calls) && c.topK > 1 && 0 < layer < c.numAttn
    ensures var lane, mine := Run(c, calls)[layer], ArrivalsFor(AllCopies(c, calls, layer), r);
      && TokensFor(AllTokensTaken(c, calls, layer) + lane.tokens, r) == Groups(mine, c.topK)
      && (r in lane.held <==> Pending(mine, c.topK) != [])
      && (r in lane.held ==> lane.held[r] == Gathered(Pending(mine, c.topK)))
  {
    TokensBalance(c, calls, layer);
    JoinIsExact(c.topK, AllCopies(c, calls, layer), r);
    var p := ArriveAll(Pool(map[], []), c.topK, AllCopies(c, calls, layer));
    assert [] + p.ready == p.ready;
    hide Run, AllTokensTaken, AllCopies;
  }

  /** A tokenizer batch of one token for layer 1 with two experts per token: it stays, whatever is drained. */
  lemma {:induction false} TokenizerBatchLost(c: Config, limit: int) returns (b: TokenBatch)
    requires c == Config(2, 1, 2, 1)
    ensures Arriving(c, b) && Misrouted(c, b.meta)
    ensures var lane := Routed(c, Lane([], [], map[]), b);
      WellFormedQueue(lane.batches) && |QueueItems(lane.batches)| == 1 && Drained(c, 1, lane, limit) == lane
  {
    b := TokenBatch([Row(0)], Meta(Tokenizer, 1, 1, [7], [], [], [], [5], None, None, None));
    OneTokenStays(c, b, limit);
  }

  lemma OneTokenStays(c: Config, b: TokenBatch, limit: int)
    requires Arriving(c, b) && Misrouted(c, b.meta) && b.meta.numTokens == 1
    ensures var lane := Routed(c, Lane([], [], map[]), b);
      WellFormedQueue(lane.batches) && |QueueItems(lane.batches)| == 1 && Drained(c, 1, lane, limit) == lane
  {
    RetaggedKind(b);
    hide WellFormedBatch, Items, Retagged;
    OneBatchQueue(Retagged(b));
    assert Routed(c, Lane([], [], map[]), b).batches == [Retagged(b)];
  }
}
