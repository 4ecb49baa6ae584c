/** Received bytes over time: completed receives become events, and every event's bytes are spread over time bins. */
module BandwidthBins {
  import opened Prelude

  const MIN_DURATION: real := 0.000001

  /** The columns logged for one device; rows beyond the shortest column are not read. */
  datatype Completions = Completions(
    device: nat,
    peers: seq<int>,
    layers: seq<int>,
    tokens: seq<int>,
    bytes: seq<nat>,
    posted: seq<real>,
    completed: seq<real>,
    local: seq<bool>)

  datatype Event = Event(
    device: nat,
    node: nat,
    peer: int,
    layer: int,
    tokens: int,
    bytes: nat,
    start: real,
    end: real,
    isLocal: bool)

  function MinReal(a: real, b: real): real {
    if b < a then b else a
  }

  function MaxReal(a: real, b: real): real {
    if b > a then b else a
  }

  // --------------------------------------------------------------------- events

  function Rows(c: Completions): (n: nat)
    ensures n <= |c.peers| && n <= |c.layers| && n <= |c.tokens| && n <= |c.bytes| && n <= |c.posted|
    ensures n <= |c.completed| && n <= |c.local|
  {
    Min(|c.peers|, Min(|c.layers|, Min(|c.tokens|, Min(|c.bytes|, Min(|c.posted|, Min(|c.completed|, |c.local|))))))
  }

  /** Two devices make a node. The event lasts from the earlier of its two times to the later, or a moment. */
  function EventAt(c: Completions, i: nat): (e: Event)
    requires i < Rows(c)
    ensures e.start < e.end && e.bytes == c.bytes[i] && e.tokens == c.tokens[i]
    ensures e.device == c.device && 2 * e.node <= c.device <= 2 * e.node + 1
    ensures e.peer == c.peers[i] && e.layer == c.layers[i] && e.isLocal == c.local[i]
    ensures e.start == c.posted[i] || e.start == c.completed[i]
    ensures e.start <= c.posted[i] <= e.end && e.start <= c.completed[i] <= e.end
    ensures c.posted[i] != c.completed[i] ==> e.end == c.posted[i] || e.end == c.completed[i]
    ensures c.posted[i] == c.completed[i] ==> e.end == e.start + MIN_DURATION
  {
    var start, end := MinReal(c.posted[i], c.completed[i]), MaxReal(c.posted[i], c.completed[i]);
    Event(c.device, c.device / 2, c.peers[i], c.layers[i], c.tokens[i], c.bytes[i], start,
          if end <= start then start + MIN_DURATION else end, c.local[i])
  }

  /** The events of the first n rows; local receives only if asked for. */
  ghost function EventsUpTo(c: Completions, n: nat, includeLocal: bool): (es: seq<Event>)
    requires n <= Rows(c)
    ensures forall k :: 0 <= k < |es| ==> es[k].start < es[k].end && (includeLocal || !es[k].isLocal)
  {
    if n == 0 then []
    else EventsUpTo(c, n - 1, includeLocal) + if c.local[n - 1] && !includeLocal then [] else [EventAt(c, n - 1)]
  }

  ghost function AllEvents(data: seq<Completions>, includeLocal: bool): (es: seq<Event>)
    ensures forall k :: 0 <= k < |es| ==> es[k].start < es[k].end && (includeLocal || !es[k].isLocal)
  {
    if |data| == 0 then []
    else
      var c := data[|data| - 1];
      AllEvents(data[..|data| - 1], includeLocal) + EventsUpTo(c, Rows(c), includeLocal)
  }

  /** One event for every row of a device that is read. */
  method DeviceEvents(c: Completions, includeLocal: bool) returns (events: seq<Event>)
    ensures events == EventsUpTo(c, Rows(c), includeLocal)
  {
    hide Rows;
    events := [];
    for i := 0 to Rows(c)
      invariant events == EventsUpTo(c, i, includeLocal)
    {
      if !includeLocal && c.local[i] {
        continue;
      }
      events := events + [EventAt(c, i)];
    }
  }

  /** The events of all devices, device after device. */
  method BuildRecvEvents(data: seq<Completions>, includeLocal: bool) returns (events: seq<Event>)
    ensures events == AllEvents(data, includeLocal)
  {
    hide Rows, EventsUpTo;
    events := [];
    for d := 0 to |data|
      invariant events == AllEvents(data[..d], includeLocal)
    {
      assert data[..d + 1][..d] == data[..d];
      var more := DeviceEvents(data[d], includeLocal);
      events := events + more;
    }
    assert data[..|data|] == data;
  }

  // ----------------------------------------------------------------------- bins

  /** The start of bin b. */
  function Edge(t0: real, w: real, b: int): real {
    t0 + b as real * w
  }

  lemma EdgeMonotone(t0: real, w: real, a: int, b: int)
    requires w > 0.0 && a <= b
    ensures Edge(t0, w, a) <= Edge(t0, w, b)
    ensures Edge(t0, w, a + 1) == Edge(t0, w, a) + w
  {
    Product((b - a) as real, w);
    assert b as real * w == a as real * w + (b - a) as real * w;
  }

  /** The time an event spends in bin b. */
  function Overlap(e: Event, t0: real, w: real, b: int): real {
    MaxReal(0.0, MinReal(e.end, Edge(t0, w, b) + w) - MaxReal(e.start, Edge(t0, w, b)))
  }

  function Share(e: Event, t0: real, w: real, b: int): real
    requires e.start < e.end
  {
    e.bytes as real * (Overlap(e, t0, w, b) / (e.end - e.start))
  }

  /** The time of an event before bin b. */
  ghost function Before(e: Event, t0: real, w: real, b: int): real {
    MaxReal(e.start, MinReal(e.end, Edge(t0, w, b))) - e.start
  }

  lemma OverlapIsDifference(e: Event, t0: real, w: real, b: int)
    requires w > 0.0 && e.start < e.end
    ensures Overlap(e, t0, w, b) == Before(e, t0, w, b + 1) - Before(e, t0, w, b)
  {
    EdgeMonotone(t0, w, b, b + 1);
  }

  ghost function OverlapSum(e: Event, t0: real, w: real, n: nat): real {
    if n == 0 then 0.0 else OverlapSum(e, t0, w, n - 1) + Overlap(e, t0, w, n - 1)
  }

  lemma {:induction false} OverlapsTelescope(e: Event, t0: real, w: real, n: nat)
    requires w > 0.0 && e.start < e.end && t0 <= e.start
    ensures OverlapSum(e, t0, w, n) == Before(e, t0, w, n)
  {
    if n == 0 {
      assert Edge(t0, w, 0) == t0;
    } else {
      OverlapsTelescope(e, t0, w, n - 1);
      OverlapIsDifference(e, t0, w, n - 1);
    }
  }

  ghost function ShareSum(e: Event, t0: real, w: real, n: nat): real
    requires e.start < e.end
  {
    if n == 0 then 0.0 else ShareSum(e, t0, w, n - 1) + Share(e, t0, w, n - 1)
  }

  lemma {:induction false} SharesAreOverlaps(e: Event, t0: real, w: real, n: nat)
    requires e.start < e.end
    ensures ShareSum(e, t0, w, n) == e.bytes as real * (OverlapSum(e, t0, w, n) / (e.end - e.start))
  {
    if n > 0 {
      SharesAreOverlaps(e, t0, w, n - 1);
      var d := e.end - e.start;
      var x, y := OverlapSum(e, t0, w, n - 1), Overlap(e, t0, w, n - 1);
      SplitFraction(e.bytes as real, x, y, d);
    }
  }

  lemma SplitFraction(c: real, x: real, y: real, d: real)
    requires d > 0.0
    ensures c * ((x + y) / d) == c * (x / d) + c * (y / d)
  {
    assert (x + y) / d == x / d + y / d;
  }

  /** The shares of an event within the covered time add up to its bytes, also if it ends on the last edge. */
  lemma {:induction false} SharesAreBytes(e: Event, t0: real, w: real, n: nat)
    requires w > 0.0 && e.start < e.end && t0 <= e.start && e.end <= Edge(t0, w, n)
    ensures ShareSum(e, t0, w, n) == e.bytes as real
  {
    OverlapsTelescope(e, t0, w, n);
    SharesAreOverlaps(e, t0, w, n);
    WholeFraction(e.bytes as real, e.end - e.start);
  }

  /** Bytes are counted as time passes: up to any edge, in proportion to the time of the event before it. */
  lemma {:induction false} SharesFollowTime(e: Event, t0: real, w: real, n: nat)
    requires w > 0.0 && e.start < e.end && t0 <= e.start
    ensures var edge := Edge(t0, w, n);
      var before := if edge <= e.start then 0.0 else if edge <= e.end then edge - e.start else e.end - e.start;
      ShareSum(e, t0, w, n) * (e.end - e.start) == e.bytes as real * before
  {
    hide OverlapSum, ShareSum, Edge, Share, Overlap;
    OverlapsTelescope(e, t0, w, n);
    SharesAreOverlaps(e, t0, w, n);
    FractionTimes(e.bytes as real, OverlapSum(e, t0, w, n), e.end - e.start);
  }

  lemma FractionTimes(c: real, x: real, d: real)
    requires d > 0.0
    ensures c * (x / d) * d == c * x
  {
    assert x / d * d == x;
  }

  lemma WholeFraction(c: real, d: real)
    requires d > 0.0
    ensures c * (d / d) == c
  {
    assert d / d == 1.0;
  }

  lemma Product(a: real, b: real)
    requires a >= 0.0 && b >= 0.0
    ensures a * b >= 0.0
  {
  }

  // -------------------------------------------------------------- specification

  /** What bin b of a node should hold. */
  ghost function BinSum(es: seq<Event>, node: nat, t0: real, w: real, b: int): real
    requires forall k :: 0 <= k < |es| ==> es[k].start < es[k].end
  {
    if |es| == 0 then 0.0
    else
      var e := es[|es| - 1];
      BinSum(es[..|es| - 1], node, t0, w, b) + if e.node == node then Share(e, t0, w, b) else 0.0
  }

  lemma BinSumStep(es: seq<Event>, i: nat, node: nat, t0: real, w: real, b: int)
    requires i < |es| && forall k :: 0 <= k < |es| ==> es[k].start < es[k].end
    ensures BinSum(es[..i + 1], node, t0, w, b)
         == BinSum(es[..i], node, t0, w, b) + if es[i].node == node then Share(es[i], t0, w, b) else 0.0
  {
    assert es[..i + 1][..i] == es[..i];
  }

  ghost function NodeSum(es: seq<Event>, node: nat, t0: real, w: real, n: nat): real
    requires forall k :: 0 <= k < |es| ==> es[k].start < es[k].end
  {
    if n == 0 then 0.0 else NodeSum(es, node, t0, w, n - 1) + BinSum(es, node, t0, w, n - 1)
  }

  ghost function NodeBytes(es: seq<Event>, node: nat): nat {
    if |es| == 0 then 0 else NodeBytes(es[..|es| - 1], node) + if es[|es| - 1].node == node then es[|es| - 1].bytes else 0
  }

  /** The bytes a device received from others in its first n rows. */
  ghost function Received(c: Completions, n: nat): nat
    requires n <= Rows(c)
  {
    if n == 0 then 0 else Received(c, n - 1) + if c.local[n - 1] then 0 else c.bytes[n - 1]
  }

  /** The bytes the two devices of a node received from others. */
  ghost function NodeReceived(data: seq<Completions>, node: nat): nat {
    if |data| == 0 then 0
    else
      var c := data[|data| - 1];
      NodeReceived(data[..|data| - 1], node)
      + if c.device == 2 * node || c.device == 2 * node + 1 then Received(c, Rows(c)) else 0
  }

  lemma NoNodeBytes(node: nat)
    ensures NodeBytes([], node) == 0
  {
  }

  lemma NodeBytesAppend(es: seq<Event>, e: Event, node: nat)
    ensures NodeBytes(es + [e], node) == NodeBytes(es, node) + if e.node == node then e.bytes else 0
  {
    assert (es + [e])[..|es|] == es;
  }

  lemma {:induction false} NodeBytesConcat(es: seq<Event>, more: seq<Event>, node: nat)
    ensures NodeBytes(es + more, node) == NodeBytes(es, node) + NodeBytes(more, node)
  {
    if |more| == 0 {
      assert es + more == es;
    } else {
      var n := |more| - 1;
      assert es + more == es + more[..n] + [more[n]];
      NodeBytesAppend(es + more[..n], more[n], node);
      NodeBytesConcat(es, more[..n], node);
    }
  }

  lemma {:induction false} DeviceBytes(c: Completions, n: nat, node: nat)
    requires n <= Rows(c)
    ensures NodeBytes(EventsUpTo(c, n, false), node)
         == if c.device == 2 * node || c.device == 2 * node + 1 then Received(c, n) else 0
  {
    hide Rows, NodeBytes, EventAt;
    NoNodeBytes(node);
    if n > 0 {
      DeviceBytes(c, n - 1, node);
      var es := EventsUpTo(c, n - 1, false);
      if c.local[n - 1] {
        assert es + [] == es;
      } else {
        NodeBytesAppend(es, EventAt(c, n - 1), node);
      }
    }
  }

  /** A node's events carry the bytes its two devices received from others, and no others. */
  lemma {:induction false} NodeBytesAreReceived(data: seq<Completions>, node: nat)
    ensures NodeBytes(AllEvents(data, false), node) == NodeReceived(data, node)
  {
    hide Rows, EventsUpTo, Received;
    if |data| > 0 {
      var c := data[|data| - 1];
      NodeBytesAreReceived(data[..|data| - 1], node);
      DeviceBytes(c, Rows(c), node);
      NodeBytesConcat(AllEvents(data[..|data| - 1], false), EventsUpTo(c, Rows(c), false), node);
    }
  }

  ghost function TotalBytes(es: seq<Event>): nat {
    if |es| == 0 then 0 else TotalBytes(es[..|es| - 1]) + es[|es| - 1].bytes
  }

  lemma {:induction false} NodeSumSplits(es: seq<Event>, node: nat, t0: real, w: real, n: nat)
    requires |es| > 0 && forall k :: 0 <= k < |es| ==> es[k].start < es[k].end
    ensures var e := es[|es| - 1];
      NodeSum(es, node, t0, w, n)
      == NodeSum(es[..|es| - 1], node, t0, w, n) + if e.node == node then ShareSum(e, t0, w, n) else 0.0
  {
    hide Share;
    if n > 0 {
      NodeSumSplits(es, node, t0, w, n - 1);
    }
  }

  /** Per node, the bins add up to the bytes its devices received: none is lost at an edge, none counted twice. */
  lemma {:induction false} NodeConserves(es: seq<Event>, node: nat, t0: real, w: real, n: nat)
    requires w > 0.0 && forall k :: 0 <= k < |es| ==> t0 <= es[k].start < es[k].end <= Edge(t0, w, n)
    ensures NodeSum(es, node, t0, w, n) == NodeBytes(es, node) as real
  {
    if |es| == 0 {
      NoEvents(node, t0, w, n);
    } else {
      var m := |es| - 1;
      NodeConserves(es[..m], node, t0, w, n);
      NodeSumSplits(es, node, t0, w, n);
      SharesAreBytes(es[m], t0, w, n);
    }
  }

  lemma {:induction false} NoEvents(node: nat, t0: real, w: real, n: nat)
    ensures NodeSum([], node, t0, w, n) == 0.0
  {
    if n > 0 {
      NoEvents(node, t0, w, n - 1);
    }
  }

  ghost function BytesBelow(es: seq<Event>, nodes: nat): nat {
    if nodes == 0 then 0 else BytesBelow(es, nodes - 1) + NodeBytes(es, nodes - 1)
  }

  /** All nodes together received all bytes. */
  lemma {:induction false} NodesConserve(es: seq<Event>, nodes: nat)
    requires forall k :: 0 <= k < |es| ==> es[k].node < nodes
    ensures BytesBelow(es, nodes) == TotalBytes(es)
  {
    if |es| == 0 {
      NoBytes(nodes);
    } else {
      NodesConserve(es[..|es| - 1], nodes);
      OneEventMore(es, nodes);
    }
  }

  lemma {:induction false} NoBytes(nodes: nat)
    ensures BytesBelow([], nodes) == 0
  {
    if nodes > 0 {
      NoBytes(nodes - 1);
    }
  }

  lemma {:induction false} OneEventMore(es: seq<Event>, nodes: nat)
    requires |es| > 0
    ensures var e := es[|es| - 1];
      BytesBelow(es, nodes) == BytesBelow(es[..|es| - 1], nodes) + if e.node < nodes then e.bytes else 0
  {
    if nodes > 0 {
      OneEventMore(es, nodes - 1);
    }
  }

  // -------------------------------------------------------------------- series

  function Ceil(x: real): int {
    -((-x).Floor)
  }

  /** The number of bins from t0 to t1. */
  function NumBins(t0: real, t1: real, w: real): (n: nat)
    requires w > 0.0
    ensures n >= 1
  {
    var n := Ceil((t1 - t0) / w);
    if n > 1 then n else 1
  }

  lemma StrictProduct(a: real, b: real)
    requires a > 0.0 && b > 0.0
    ensures a * b > 0.0
  {
  }

  lemma QuotientAbove(x: real, d: real, w: real, k: real)
    requires w > 0.0 && x * w == d && k < x
    ensures k * w < d
  {
    StrictProduct(x - k, w);
    assert (x - k) * w == x * w - k * w;
  }

  lemma QuotientBelow(x: real, d: real, w: real, k: real)
    requires w > 0.0 && x * w == d && x <= k
    ensures d <= k * w
  {
    Product(k - x, w);
    assert (k - x) * w == k * w - x * w;
  }

  lemma TimesQuotient(d: real, w: real)
    requires w > 0.0
    ensures d / w * w == d
  {
  }

  /** There are as many bins as it takes to cover the time, and no more, but at least one. */
  lemma BinsCover(t0: real, t1: real, w: real)
    requires w > 0.0 && t0 <= t1
    ensures t1 <= Edge(t0, w, NumBins(t0, t1, w))
    ensures NumBins(t0, t1, w) > 1 ==> Edge(t0, w, NumBins(t0, t1, w) - 1) < t1
  {
    var x, n := (t1 - t0) / w, NumBins(t0, t1, w);
    TimesQuotient(t1 - t0, w);
    QuotientBelow(x, t1 - t0, w, n as real);
    if n > 1 {
      QuotientAbove(x, t1 - t0, w, (n - 1) as real);
    }
  }

  /** The bins an event is spread over, the last one clamped. */
  function FirstBin(e: Event, t0: real, w: real): int
    requires w > 0.0
  {
    var b := ((e.start - t0) / w).Floor;
    if b > 0 then b else 0
  }

  function LastBin(e: Event, t0: real, w: real, n: nat): int
    requires w > 0.0
  {
    Min(n - 1, ((e.end - t0) / w).Floor)
  }

  /** An event has no time in a bin it is not spread over. */
  lemma {:induction false} NothingOutside(e: Event, t0: real, w: real, n: nat, b: int)
    requires w > 0.0 && t0 <= e.start < e.end && 0 <= b < n
    requires b < FirstBin(e, t0, w) || b > LastBin(e, t0, w, n)
    ensures Overlap(e, t0, w, b) == 0.0 && Share(e, t0, w, b) == 0.0
  {
    if b < FirstBin(e, t0, w) {
      EdgeVersus(t0, w, e.start, b + 1);
      EdgeMonotone(t0, w, b, b + 1);
      hide Edge;
    } else {
      EdgeVersus(t0, w, e.end, b);
      hide Edge;
    }
    assert Overlap(e, t0, w, b) == 0.0;
  }

  /** Where a time lies relative to an edge, from its bin number. */
  lemma EdgeVersus(t0: real, w: real, t: real, k: int)
    requires w > 0.0
    ensures (t - t0) / w >= k as real ==> Edge(t0, w, k) <= t
    ensures (t - t0) / w <= k as real ==> t <= Edge(t0, w, k)
  {
    var x := (t - t0) / w;
    assert x * w == t - t0;
    if x >= k as real {
      Product(x - k as real, w);
      assert x * w == k as real * w + (x - k as real) * w;
    }
    if x <= k as real {
      Product(k as real - x, w);
      assert k as real * w == x * w + (k as real - x) * w;
    }
  }

  function Zeros(n: nat): (r: seq<real>)
    ensures |r| == n && forall i :: 0 <= i < n ==> r[i] == 0.0
  {
    seq(n, _ => 0.0)
  }

  /** The bins of a node; one that received nothing has none. */
  ghost function Row(bins: map<nat, seq<real>>, node: nat, n: nat): seq<real> {
    if node in bins then bins[node] else Zeros(n)
  }

  ghost predicate RowsOk(bins: map<nat, seq<real>>, n: nat) {
    forall node :: node in bins ==> |bins[node]| == n
  }

  method EarliestLatest(es: seq<Event>) returns (t0: real, t1: real)
    requires |es| > 0 && forall k :: 0 <= k < |es| ==> es[k].start < es[k].end
    ensures forall k :: 0 <= k < |es| ==> t0 <= es[k].start && es[k].end <= t1
    ensures (exists k :: 0 <= k < |es| && t0 == es[k].start) && (exists k :: 0 <= k < |es| && t1 == es[k].end)
  {
    t0, t1 := es[0].start, es[0].end;
    for i := 1 to |es|
      invariant forall k :: 0 <= k < i ==> t0 <= es[k].start && es[k].end <= t1
      invariant (exists k :: 0 <= k < |es| && t0 == es[k].start) && (exists k :: 0 <= k < |es| && t1 == es[k].end)
    {
      t0, t1 := MinReal(t0, es[i].start), MaxReal(t1, es[i].end);
    }
  }

  /** Add one event to the bins it overlaps. */
  method SpreadEvent(bins: map<nat, seq<real>>, e: Event, t0: real, w: real, n: nat)
    returns (bins': map<nat, seq<real>>)
    requires w > 0.0 && t0 <= e.start < e.end && RowsOk(bins, n)
    ensures RowsOk(bins', n)
    ensures forall b :: 0 <= b < n ==> Row(bins', e.node, n)[b] == Row(bins, e.node, n)[b] + Share(e, t0, w, b)
    ensures forall node: nat, b :: 0 <= b < n && node != e.node ==> Row(bins', node, n)[b] == Row(bins, node, n)[b]
  {
    hide Share, Overlap, Edge;
    bins' := bins;
    var b0, b1 := FirstBin(e, t0, w), LastBin(e, t0, w, n);
    var b := b0;
    forall c | 0 <= c < n && (c < b0 || c > b1)
      ensures Share(e, t0, w, c) == 0.0
    {
      NothingOutside(e, t0, w, n, c);
    }
    while b <= b1
      invariant b0 <= b && RowsOk(bins', n)
      invariant forall node: nat, c :: 0 <= c < n && node != e.node ==> Row(bins', node, n)[c] == Row(bins, node, n)[c]
      invariant forall c :: 0 <= c < n ==>
        Row(bins', e.node, n)[c] == Row(bins, e.node, n)[c] + if c < b then Share(e, t0, w, c) else 0.0
      decreases b1 - b
    {
      var overlap := Overlap(e, t0, w, b);
      if overlap <= 0.0 {
        NoTimeNoShare(e, t0, w, b);
      } else {
        var row := if e.node in bins' then bins'[e.node] else Zeros(n);
        ShareIs(e, t0, w, b);
        row := row[b := row[b] + e.bytes as real * (overlap / (e.end - e.start))];
        bins' := bins'[e.node := row];
      }
      b := b + 1;
    }
  }

  lemma NoTimeNoShare(e: Event, t0: real, w: real, b: int)
    requires e.start < e.end && Overlap(e, t0, w, b) <= 0.0
    ensures Share(e, t0, w, b) == 0.0
  {
  }

  lemma ShareIs(e: Event, t0: real, w: real, b: int)
    requires e.start < e.end
    ensures Share(e, t0, w, b) == e.bytes as real * (Overlap(e, t0, w, b) / (e.end - e.start))
  {
  }

  ghost function RowSum(xs: seq<real>, n: nat): real
    requires n <= |xs|
  {
    if n == 0 then 0.0 else RowSum(xs, n - 1) + xs[n - 1]
  }

  lemma {:induction false} RowSumIsNodeSum(xs: seq<real>, es: seq<Event>, node: nat, t0: real, w: real, n: nat)
    requires forall k :: 0 <= k < |es| ==> es[k].start < es[k].end
    requires n <= |xs| && forall b :: 0 <= b < n ==> xs[b] == BinSum(es, node, t0, w, b)
    ensures RowSum(xs, n) == NodeSum(es, node, t0, w, n)
  {
    if n > 0 {
      RowSumIsNodeSum(xs, es, node, t0, w, n - 1);
    }
  }

  datatype Series = Series(centers: seq<real>, bins: map<nat, seq<real>>)

  /** Every bin of every node holds what it should. */
  ghost predicate Spread(bins: map<nat, seq<real>>, es: seq<Event>, t0: real, w: real, n: nat)
    requires forall k :: 0 <= k < |es| ==> es[k].start < es[k].end
  {
    && RowsOk(bins, n)
    && forall node: nat, b :: 0 <= b < n ==> Row(bins, node, n)[b] == BinSum(es, node, t0, w, b)
  }

  method SpreadEvents(es: seq<Event>, t0: real, w: real, n: nat) returns (bins: map<nat, seq<real>>)
    requires w > 0.0 && forall k :: 0 <= k < |es| ==> t0 <= es[k].start < es[k].end
    ensures Spread(bins, es, t0, w, n)
  {
    bins := map[];
    assert Spread(bins, es[..0], t0, w, n);
    hide Spread;
    for i := 0 to |es|
      invariant Spread(bins, es[..i], t0, w, n)
    {
      bins := SpreadNext(bins, es, i, t0, w, n);
    }
    assert es[..|es|] == es;
  }

  method SpreadNext(bins: map<nat, seq<real>>, es: seq<Event>, i: nat, t0: real, w: real, n: nat)
    returns (bins': map<nat, seq<real>>)
    requires w > 0.0 && i < |es| && forall k :: 0 <= k < |es| ==> t0 <= es[k].start < es[k].end
    requires Spread(bins, es[..i], t0, w, n)
    ensures Spread(bins', es[..i + 1], t0, w, n)
  {
    hide Share, BinSum;
    bins' := SpreadEvent(bins, es[i], t0, w, n);
    forall node: nat, b | 0 <= b < n
      ensures Row(bins', node, n)[b] == BinSum(es[..i + 1], node, t0, w, b)
    {
      BinSumStep(es, i, node, t0, w, b);
      assert Row(bins, node, n)[b] == BinSum(es[..i], node, t0, w, b);
    }
  }

  /**
   * Spread all remote receives over bins from the earliest start on. Every bin holds its share of every event, and each
   * node's bins add up to the bytes its devices received.
   */
  method BuildNodeBandwidthSeries(data: seq<Completions>, w: real) returns (series: Option<Series>, ghost t0: real)
    requires w > 0.0
    ensures series.None? <==> AllEvents(data, false) == []
    ensures series.Some? ==>
      var es, n := AllEvents(data, false), |series.value.centers|;
      && (forall k :: 0 <= k < |es| ==> t0 <= es[k].start && es[k].end <= Edge(t0, w, n))
      && (exists k :: 0 <= k < |es| && t0 == es[k].start)
      && (n == 1 || (n > 1 && exists k :: 0 <= k < |es| && Edge(t0, w, n - 1) < es[k].end))
      && (forall k :: 0 <= k < n ==> series.value.centers[k] == (k as real + 0.5) * w)
      && Spread(series.value.bins, es, t0, w, n)
      && forall node: nat :: RowSum(Row(series.value.bins, node, n), n) == NodeReceived(data, node) as real
  {
    hide Edge, BinSum, RowSum, NodeBytes, NodeReceived, AllEvents;
    t0 := 0.0;
    var events := BuildRecvEvents(data, false);
    if |events| == 0 {
      return None, t0;
    }
    var start, end := EarliestLatest(events);
    t0 := start;
    var n := NumBins(start, end, w);
    BinsCover(start, end, w);
    hide NumBins;
    var bins := SpreadEvents(events, start, w, n);
    forall node: nat
      ensures RowSum(Row(bins, node, n), n) == NodeReceived(data, node) as real
    {
      NodeBytesAreReceived(data, node);
      RowSumIsNodeSum(Row(bins, node, n), events, node, start, w, n);
      NodeConserves(events, node, start, w, n);
    }
    series := Some(Series(seq(n, k => (k as real + 0.5) * w), bins));
  }
}
