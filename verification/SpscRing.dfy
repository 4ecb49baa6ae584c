/**
 * The single-producer single-consumer ring, as interleaved atomic steps: each side loads its own index, loads the
 * other's index, which may be stale, touches the slot, and stores its own index.
 */
module SpscRing {
  import opened Prelude

  // ------------------------------------------------------------------ masking

  /** Bitwise and. */
  function BitAnd(x: nat, y: nat): nat {
    if x == 0 || y == 0 then 0 else (x % 2) * (y % 2) + 2 * BitAnd(x / 2, y / 2)
  }

  predicate IsPowerOfTwo(n: nat) {
    n == 1 || (n > 0 && n % 2 == 0 && IsPowerOfTwo(n / 2))
  }

  lemma ModDouble(x: nat, c: nat)
    requires c > 0
    ensures x % (2 * c) == x % 2 + 2 * ((x / 2) % c)
  {
    DivMod(x / 2, c);
    DivMod(x, 2 * c);
    var q := x / 2 / c;
    assert x == q * (2 * c) + (x % 2 + 2 * ((x / 2) % c)) by {
      assert q * (2 * c) == 2 * (q * c);
    }
    PairUnique(q, x % 2 + 2 * ((x / 2) % c), x / (2 * c), x % (2 * c), 2 * c);
  }

  lemma {:induction false} MaskIsMod(x: nat, c: nat)
    requires IsPowerOfTwo(c)
    ensures BitAnd(x, c - 1) == x % c
    decreases c
  {
    if c > 1 {
      var h := c / 2;
      ModDouble(x, h);
      MaskIsMod(x / 2, h);
      assert (c - 1) % 2 == 1 && (c - 1) / 2 == h - 1;
      if x == 0 {
        assert 0 % c == 0;
      } else {
        assert BitAnd(x, c - 1) == x % 2 + 2 * BitAnd(x / 2, h - 1);
      }
    }
  }

  lemma {:induction false} AndSelf(x: nat)
    ensures BitAnd(x, x) == x
  {
    if x > 0 {
      AndSelf(x / 2);
    }
  }

  lemma {:induction false} ClearedIsPower(n: nat)
    requires n > 0 && BitAnd(n, n - 1) == 0
    ensures IsPowerOfTwo(n)
  {
    if n > 1 {
      if n % 2 == 0 {
        assert (n - 1) / 2 == n / 2 - 1;
        ClearedIsPower(n / 2);
      } else {
        AndSelf(n / 2);
      }
    }
  }

  /** Masking with capacity - 1 is taking the remainder exactly for powers of two. */
  lemma {:induction false} MaskIsModIff(c: nat)
    requires c > 0
    ensures (forall x: nat :: BitAnd(x, c - 1) == x % c) <==> IsPowerOfTwo(c)
  {
    if IsPowerOfTwo(c) {
      forall x: nat
        ensures BitAnd(x, c - 1) == x % c
      {
        MaskIsMod(x, c);
      }
    } else if forall x: nat :: BitAnd(x, c - 1) == x % c {
      assert BitAnd(c, c - 1) == c % c == 0;
      ClearedIsPower(c);
    }
  }

  // ---------------------------------------------------------------- the state

  datatype Slot = Empty | Full(item: int)

  datatype Producer =
    | Idle
    | Loaded(item: int, head: nat, next: nat)
    | Granted(item: int, head: nat, next: nat)
    | Written(item: int, next: nat)

  datatype Consumer =
    | Resting
    | Seen(tail: nat)
    | Allowed(tail: nat)
    | Took(tail: nat, item: int)

  /**
   * `enqueued` and `dequeued` are the items whose enqueue and dequeue are complete; `tailSeen` and `headSeen` are how
   * many dequeues the producer, and how many enqueues the consumer, last saw.
   */
  datatype Ring = Ring(
    buffer: seq<Slot>,
    head: nat,
    tail: nat,
    producer: Producer,
    consumer: Consumer,
    enqueued: seq<int>,
    dequeued: seq<int>,
    tailSeen: nat,
    headSeen: nat)

  datatype Label =
    | LoadHead(item: int)
    | CheckTail(dequeues: nat)
    | WriteSlot
    | StoreHead
    | LoadTail
    | CheckHead(enqueues: nat)
    | MoveSlot
    | StoreTail

  ghost function Initial(capacity: nat): Ring {
    Ring(seq(capacity, _ => Empty), 0, 0, Idle, Resting, [], [], 0, 0)
  }

  /** A read of the other side's index returns a value that was current at some time since the last read. */
  ghost predicate Enabled(r: Ring, l: Label) {
    match l
    case LoadHead(_) => r.producer.Idle?
    case CheckTail(n) => r.producer.Loaded? && r.tailSeen <= n <= |r.dequeued|
    case WriteSlot => r.producer.Granted?
    case StoreHead => r.producer.Written?
    case LoadTail => r.consumer.Resting?
    case CheckHead(n) => r.consumer.Seen? && r.headSeen <= n <= |r.enqueued|
    case MoveSlot => r.consumer.Allowed?
    case StoreTail => r.consumer.Took?
  }

  ghost predicate IndicesOk(r: Ring) {
    && |r.buffer| > 0 && r.head < |r.buffer| && r.tail < |r.buffer|
    && (r.producer.Granted? ==> r.producer.head < |r.buffer|)
    && (r.consumer.Allowed? ==> r.consumer.tail < |r.buffer| && r.buffer[r.consumer.tail].Full?)
  }

  ghost function Next(r: Ring, l: Label): Ring
    requires Enabled(r, l) && IndicesOk(r)
  {
    var c := |r.buffer|;
    match l
    case LoadHead(item) => r.(producer := Loaded(item, r.head, BitAnd(r.head + 1, c - 1)))
    case CheckTail(n) =>
      var p := r.producer;
      var r' := r.(tailSeen := n);
      if p.next == n % c then r'.(producer := Idle) else r'.(producer := Granted(p.item, p.head, p.next))
    case WriteSlot =>
      var p := r.producer;
      r.(buffer := r.buffer[p.head := Full(p.item)], producer := Written(p.item, p.next))
    case StoreHead =>
      r.(head := r.producer.next, enqueued := r.enqueued + [r.producer.item], producer := Idle)
    case LoadTail => r.(consumer := Seen(r.tail))
    case CheckHead(n) =>
      var r' := r.(headSeen := n);
      if r.consumer.tail == n % c then r'.(consumer := Resting) else r'.(consumer := Allowed(r.consumer.tail))
    case MoveSlot =>
      var t := r.consumer.tail;
      r.(buffer := r.buffer[t := Empty], consumer := Took(t, r.buffer[t].item))
    case StoreTail =>
      r.(tail := BitAnd(r.consumer.tail + 1, c - 1), dequeued := r.dequeued + [r.consumer.item], consumer := Resting)
  }

  // ---------------------------------------------------------------- invariant

  /** The items that are, or are about to be, in the ring's order. */
  ghost function Items(r: Ring): seq<int> {
    if r.producer.Written? then r.enqueued + [r.producer.item] else r.enqueued
  }

  /** The first item still in a slot. */
  ghost function First(r: Ring): nat {
    |r.dequeued| + if r.consumer.Took? then 1 else 0
  }

  ghost predicate Counts(r: Ring) {
    var c, e, d := |r.buffer|, |r.enqueued|, |r.dequeued|;
    && c > 0 && r.head == e % c && r.tail == d % c
    && d <= e && r.dequeued == r.enqueued[..d]
    && r.tailSeen <= d && e - r.tailSeen <= c - 1
    && d <= r.headSeen <= e
  }

  ghost predicate ProducerOk(r: Ring) {
    var c, e := |r.buffer|, |r.enqueued|;
    match r.producer
    case Idle => true
    case Loaded(_, h, n) => c > 0 && h == e % c && n == (e + 1) % c
    case Granted(_, h, n) => c > 0 && h == e % c && n == (e + 1) % c && e + 1 - r.tailSeen <= c - 1
    case Written(_, n) => c > 0 && n == (e + 1) % c && e + 1 - r.tailSeen <= c - 1
  }

  ghost predicate ConsumerOk(r: Ring) {
    var c, d := |r.buffer|, |r.dequeued|;
    match r.consumer
    case Resting => true
    case Seen(t) => c > 0 && t == d % c
    case Allowed(t) => c > 0 && t == d % c && d < r.headSeen
    case Took(t, item) => c > 0 && t == d % c && d < r.headSeen && d < |r.enqueued| && item == r.enqueued[d]
  }

  /** Slots hold exactly the items from the first unread to the last written. */
  ghost predicate SlotsOk(r: Ring) {
    var c, items, first := |r.buffer|, Items(r), First(r);
    && c > 0
    && (forall i: nat :: first <= i < |items| ==> r.buffer[i % c] == Full(items[i]))
    && (forall i: nat :: |items| <= i < first + c ==> r.buffer[i % c] == Empty)
  }

  ghost predicate Inv(r: Ring) {
    IsPowerOfTwo(|r.buffer|) && Counts(r) && ProducerOk(r) && ConsumerOk(r) && SlotsOk(r)
  }

  lemma ModDistinct(i: nat, j: nat, c: nat)
    requires i < j < i + c
    ensures i % c != j % c
  {
    DivMod(i, c);
    DivMod(j, c);
    MulLess(i / c, j / c, c);
    MulLess(j / c, i / c, c);
    assert (i / c + 1) * c == i / c * c + c;
  }

  lemma ModNext(e: nat, c: nat)
    requires IsPowerOfTwo(c)
    ensures BitAnd(e % c + 1, c - 1) == (e + 1) % c
  {
    MaskIsMod(e % c + 1, c);
    DivMod(e, c);
    ModPlus(e % c + 1, e / c, c);
  }

  /** Two counts a ring's length or less apart have equal indices only if equal or a full length apart. */
  lemma SameIndex(low: nat, high: nat, c: nat)
    requires c > 0 && low <= high <= low + c
    ensures low % c == high % c <==> high == low || high == low + c
  {
    if low < high < low + c {
      ModDistinct(low, high, c);
    } else if high == low + c {
      ModPlus(low, 1, c);
    }
  }

  lemma {:induction false} InitInv(capacity: nat)
    requires IsPowerOfTwo(capacity)
    ensures Inv(Initial(capacity))
  {
    assert 0 % capacity == 0;
  }

  lemma ProduceCounts(r: Ring, l: Label)
    requires Inv(r) && Enabled(r, l) && IndicesOk(r)
    requires l.LoadHead? || l.CheckTail? || l.WriteSlot? || l.StoreHead?
    ensures Counts(Next(r, l)) && ProducerOk(Next(r, l)) && ConsumerOk(Next(r, l))
  {
    var c, e := |r.buffer|, |r.enqueued|;
    hide SlotsOk, IsPowerOfTwo;
    ModNext(e, c);
    if l.CheckTail? {
      SameIndex(l.dequeues, e + 1, c);
    }
  }

  lemma ConsumeCounts(r: Ring, l: Label)
    requires Inv(r) && Enabled(r, l) && IndicesOk(r)
    requires l.LoadTail? || l.CheckHead? || l.MoveSlot? || l.StoreTail?
    ensures Counts(Next(r, l)) && ProducerOk(Next(r, l)) && ConsumerOk(Next(r, l))
  {
    var c, d := |r.buffer|, |r.dequeued|;
    ModNext(d, c);
    if l.CheckHead? {
      SameIndex(d, l.enqueues, c);
    }
    if l.MoveSlot? {
      assert r.buffer[d % c] == Full(Items(r)[d]);
    }
    if l.StoreTail? {
      assert r.enqueued[..d + 1] == r.enqueued[..d] + [r.enqueued[d]];
    }
  }

  lemma ProduceSlots(r: Ring, l: Label)
    requires Inv(r) && Enabled(r, l) && IndicesOk(r)
    requires l.LoadHead? || l.CheckTail? || l.WriteSlot? || l.StoreHead?
    ensures SlotsOk(Next(r, l))
  {
    var c, e := |r.buffer|, |r.enqueued|;
    var r' := Next(r, l);
    if l.WriteSlot? {
      forall i: nat | First(r) <= i < First(r) + c
        ensures i != e ==> r'.buffer[i % c] == r.buffer[i % c]
      {
        if i < e {
          ModDistinct(i, e, c);
        } else if i > e {
          ModDistinct(e, i, c);
        }
      }
    }
  }

  lemma ConsumeSlots(r: Ring, l: Label)
    requires Inv(r) && Enabled(r, l) && IndicesOk(r)
    requires l.LoadTail? || l.CheckHead? || l.MoveSlot? || l.StoreTail?
    ensures SlotsOk(Next(r, l))
  {
    var c, d := |r.buffer|, |r.dequeued|;
    var r' := Next(r, l);
    if l.MoveSlot? {
      forall i: nat | d < i < d + c
        ensures r'.buffer[i % c] == r.buffer[i % c]
      {
        ModDistinct(d, i, c);
      }
      ModPlus(d, 1, c);
    }
  }

  /** In any state of the protocol the indices in hand are in range, and the slot about to be read holds an item. */
  lemma {:induction false} InvIndices(r: Ring)
    requires Inv(r)
    ensures IndicesOk(r)
  {
    if r.consumer.Allowed? {
      assert r.buffer[|r.dequeued| % |r.buffer|] == Full(Items(r)[|r.dequeued|]);
    }
  }

  /** Every step of either side keeps the invariant, however stale the index it read. */
  lemma {:induction false} StepInv(r: Ring, l: Label)
    requires Inv(r) && Enabled(r, l)
    ensures IndicesOk(r) && Inv(Next(r, l))
  {
    InvIndices(r);
    if l.LoadHead? || l.CheckTail? || l.WriteSlot? || l.StoreHead? {
      ProduceCounts(r, l);
      ProduceSlots(r, l);
    } else {
      ConsumeCounts(r, l);
      ConsumeSlots(r, l);
    }
  }

  // ------------------------------------------------------------------- runs

  /** A run: states from an empty ring on, each the next of the one before. */
  ghost predicate IsRun(capacity: nat, states: seq<Ring>, labels: seq<Label>) {
    && |states| == |labels| + 1 && states[0] == Initial(capacity)
    && forall i :: 0 <= i < |labels| ==>
      Enabled(states[i], labels[i]) && IndicesOk(states[i]) && states[i + 1] == Next(states[i], labels[i])
  }

  lemma {:induction false} RunInv(capacity: nat, states: seq<Ring>, labels: seq<Label>, i: nat)
    requires IsPowerOfTwo(capacity) && IsRun(capacity, states, labels) && i < |states|
    ensures Inv(states[i]) && |states[i].buffer| == capacity
  {
    if i == 0 {
      InitInv(capacity);
    } else {
      RunInv(capacity, states, labels, i - 1);
      StepInv(states[i - 1], labels[i - 1]);
    }
  }

  /**
   * In every run the dequeued items are a prefix of the enqueued ones, at most capacity - 1 items are held, and no
   * step writes a slot that is not empty or reads one that is.
   */
  lemma {:induction false} RunIsFifo(capacity: nat, states: seq<Ring>, labels: seq<Label>, i: nat)
    requires IsPowerOfTwo(capacity) && IsRun(capacity, states, labels) && i < |states|
    ensures var r := states[i];
      && r.dequeued <= r.enqueued && |r.enqueued| - |r.dequeued| <= capacity - 1
      && IndicesOk(r)
      && (r.producer.Granted? ==> r.buffer[r.producer.head] == Empty)
      && (r.consumer.Allowed? ==>
            |r.dequeued| < |r.enqueued| && r.buffer[r.consumer.tail] == Full(r.enqueued[|r.dequeued|]))
  {
    RunInv(capacity, states, labels, i);
    var r := states[i];
    InvIndices(r);
    if r.producer.Granted? {
      assert r.buffer[|r.enqueued| % capacity] == Empty;
    }
    if r.consumer.Allowed? {
      assert r.buffer[|r.dequeued| % capacity] == Full(Items(r)[|r.dequeued|]);
    }
  }

  // ------------------------------------------------------------------- class

  class SpscRing {
    const buffer: array<Slot>
    const mask: nat
    var head: nat
    var tail: nat
    var producer: Producer
    var consumer: Consumer
    ghost var enqueued: seq<int>
    ghost var dequeued: seq<int>
    ghost var tailSeen: nat
    ghost var headSeen: nat

    constructor (capacity: nat)
      requires IsPowerOfTwo(capacity)
      ensures fresh(buffer) && View() == Initial(capacity) && Valid()
    {
      buffer := new Slot[capacity](_ => Empty);
      mask, head, tail, producer, consumer := capacity - 1, 0, 0, Idle, Resting;
      enqueued, dequeued, tailSeen, headSeen := [], [], 0, 0;
      InitInv(capacity);
      new;
      assert buffer[..] == seq(capacity, _ => Empty);
    }

    ghost function View(): Ring
      reads this, buffer
    {
      Ring(buffer[..], head, tail, producer, consumer, enqueued, dequeued, tailSeen, headSeen)
    }

    ghost predicate Valid()
      reads this, buffer
    {
      Inv(View()) && mask == buffer.Length - 1
    }

    method LoadHead(item: int)
      requires Valid() && producer.Idle?
      modifies this
      ensures Valid() && View() == Next(old(View()), Label.LoadHead(item))
    {
      StepInv(View(), Label.LoadHead(item));
      producer := Loaded(item, head, BitAnd(head + 1, mask));
    }

    /** Compare with a value of the tail index, perhaps an old one; false where the ring looks full. */
    method CheckTail(tailRead: nat, ghost dequeues: nat) returns (ok: bool)
      requires Valid() && producer.Loaded?
      requires tailSeen <= dequeues <= |dequeued| && tailRead == dequeues % buffer.Length
      modifies this
      ensures Valid() && View() == Next(old(View()), Label.CheckTail(dequeues))
      ensures ok <==> producer.Granted?
    {
      StepInv(View(), Label.CheckTail(dequeues));
      tailSeen := dequeues;
      ok := producer.next != tailRead;
      producer := if ok then Granted(producer.item, producer.head, producer.next) else Idle;
    }

    method WriteSlot()
      requires Valid() && producer.Granted?
      modifies this, buffer
      ensures Valid() && IndicesOk(old(View())) && View() == Next(old(View()), Label.WriteSlot)
    {
      StepInv(View(), Label.WriteSlot);
      buffer[producer.head] := Full(producer.item);
      producer := Written(producer.item, producer.next);
    }

    method StoreHead()
      requires Valid() && producer.Written?
      modifies this
      ensures Valid() && View() == Next(old(View()), Label.StoreHead)
    {
      StepInv(View(), Label.StoreHead);
      head := producer.next;
      enqueued := enqueued + [producer.item];
      producer := Idle;
    }

    method LoadTail()
      requires Valid() && consumer.Resting?
      modifies this
      ensures Valid() && View() == Next(old(View()), Label.LoadTail)
    {
      StepInv(View(), Label.LoadTail);
      consumer := Seen(tail);
    }

    /** Compare with a value of the head index, perhaps an old one; false where the ring looks empty. */
    method CheckHead(headRead: nat, ghost enqueues: nat) returns (ok: bool)
      requires Valid() && consumer.Seen?
      requires headSeen <= enqueues <= |enqueued| && headRead == enqueues % buffer.Length
      modifies this
      ensures Valid() && View() == Next(old(View()), Label.CheckHead(enqueues))
      ensures ok <==> consumer.Allowed?
    {
      StepInv(View(), Label.CheckHead(enqueues));
      headSeen := enqueues;
      ok := consumer.tail != headRead;
      consumer := if ok then Allowed(consumer.tail) else Resting;
    }

    method MoveSlot()
      requires Valid() && consumer.Allowed?
      modifies this, buffer
      ensures Valid() && IndicesOk(old(View())) && View() == Next(old(View()), Label.MoveSlot)
    {
      StepInv(View(), Label.MoveSlot);
      var t := consumer.tail;
      consumer := Took(t, buffer[t].item);
      buffer[t] := Empty;
    }

    method StoreTail() returns (item: int)
      requires Valid() && consumer.Took?
      modifies this
      ensures Valid() && View() == Next(old(View()), Label.StoreTail) && item == old(consumer).item
    {
      StepInv(View(), Label.StoreTail);
      item := consumer.item;
      tail := BitAnd(consumer.tail + 1, mask);
      dequeued := dequeued + [item];
      consumer := Resting;
    }

    /** An enqueue with nothing in between: it succeeds exactly when fewer than capacity - 1 items are held. */
    method TryEnqueue(item: int) returns (ok: bool)
      requires Valid() && producer.Idle?
      modifies this, buffer
      ensures Valid() && producer.Idle? && consumer == old(consumer) && dequeued == old(dequeued)
      ensures ok <==> |old(enqueued)| - |dequeued| < buffer.Length - 1
      ensures enqueued == if ok then old(enqueued) + [item] else old(enqueued)
    {
      SameIndex(|dequeued|, |enqueued| + 1, buffer.Length);
      LoadHead(item);
      ok := CheckTail(tail, |dequeued|);
      if ok {
        WriteSlot();
        StoreHead();
      }
    }

    /** A dequeue with nothing in between: it returns the oldest item exactly when there is one. */
    method TryDequeue() returns (ok: bool, item: int)
      requires Valid() && consumer.Resting?
      modifies this, buffer
      ensures Valid() && consumer.Resting? && producer == old(producer) && enqueued == old(enqueued)
      ensures ok <==> |old(dequeued)| < |enqueued|
      ensures ok ==> item == enqueued[|old(dequeued)|] && dequeued == old(dequeued) + [item]
      ensures !ok ==> dequeued == old(dequeued)
    {
      SameIndex(|dequeued|, |enqueued|, buffer.Length);
      hide SlotsOk, IsPowerOfTwo, BitAnd;
      item := 0;
      LoadTail();
      ok := CheckHead(head, |enqueued|);
      if ok {
        item := FinishDequeue();
      }
    }

    method FinishDequeue() returns (item: int)
      requires Valid() && consumer.Allowed?
      modifies this, buffer
      ensures Valid() && consumer.Resting? && producer == old(producer) && enqueued == old(enqueued)
      ensures |old(dequeued)| < |enqueued| && item == enqueued[|old(dequeued)|] && dequeued == old(dequeued) + [item]
    {
      hide SlotsOk, IsPowerOfTwo, BitAnd;
      MoveSlot();
      item := StoreTail();
    }
  }
}
