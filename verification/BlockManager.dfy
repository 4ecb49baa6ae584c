/**
 * The paged KV-cache allocator: a FIFO queue of free blocks and a block table per request. A failed assertion of the
 * allocator throws; the operations below then return false and leave behind whatever had changed before.
 */
module BlockManager {
  import opened Prelude

  // ------------------------------------------------------------- arithmetic

  /** Integer division as C++ does it, towards zero. */
  function TruncDiv(a: int, b: nat): int
    requires b > 0
  {
    if a >= 0 then a / b else -((-a) / b)
  }

  /** The number of blocks the allocator computes for a sequence. */
  function BlocksNeeded(len: int, blockSize: nat): int
    requires blockSize > 0
  {
    TruncDiv(len - 1, blockSize) + 1
  }

  /** k is the least number of blocks that hold len tokens. */
  ghost predicate IsCeil(k: int, len: int, blockSize: nat) {
    (k - 1) * blockSize < len <= k * blockSize
  }

  lemma {:induction false} CeilUnique(k: int, k': int, len: int, b: nat)
    requires IsCeil(k, len, b) && IsCeil(k', len, b)
    ensures k == k'
  {
    MulLess(k, k', b);
    MulLess(k', k, b);
  }

  /** The computed number is the exact one, except that lengths below one are right only at multiples. */
  lemma {:induction false} NeededIsCeilIff(len: int, b: nat)
    requires b > 0
    ensures IsCeil(BlocksNeeded(len, b), len, b) <==> len >= 1 || (1 - len) % b == 0
  {
    var k := BlocksNeeded(len, b);
    if len >= 1 {
      DivMod(len - 1, b);
      assert (k - 1) * b == (len - 1) / b * b;
      assert k * b == (k - 1) * b + b;
    } else {
      var a := 1 - len;
      DivMod(a, b);
      assert k == 1 - a / b;
      assert (k - 1) * b == -(a / b * b);
      assert k * b == (k - 1) * b + b;
    }
  }

  /** An empty sequence is charged a block. */
  lemma {:induction false} EmptySequenceNeedsABlock(b: nat)
    requires b > 1
    ensures BlocksNeeded(0, b) == 1 && !IsCeil(1, 0, b)
  {
  }

  /** Slots left in the last block of a context. */
  function RemainSlots(contextLen: nat, blockSize: nat): nat
    requires blockSize > 0
  {
    var r := blockSize - contextLen % blockSize;
    if r == blockSize then 0 else r
  }

  /** Blocks added when n tokens are appended. */
  function BlocksToAdd(contextLen: nat, n: nat, blockSize: nat): nat
    requires blockSize > 0
  {
    var r := RemainSlots(contextLen, blockSize);
    if n > r then (n - r - 1) / blockSize + 1 else 0
  }

  /** An exactly sized table has as many slots as the context has tokens and free slots remain. */
  lemma {:induction false} SlotsOfContext(k: nat, contextLen: nat, b: nat)
    requires b > 0 && IsCeil(k, contextLen, b)
    ensures k * b == contextLen + RemainSlots(contextLen, b)
  {
    var q := contextLen / b;
    DivMod(contextLen, b);
    assert (q + 1) * b == q * b + b && (q - 1) * b == q * b - b && (q + 1 - 1) * b == q * b;
    CeilUnique(k, if contextLen % b == 0 then q else q + 1, contextLen, b);
  }

  /** Appending n tokens takes an exact number of blocks to an exact number of blocks. */
  lemma {:induction false} AddedIsCeil(k: nat, contextLen: nat, n: nat, b: nat)
    requires b > 0 && IsCeil(k, contextLen, b)
    ensures IsCeil(k + BlocksToAdd(contextLen, n, b), contextLen + n, b)
  {
    var r := RemainSlots(contextLen, b);
    SlotsOfContext(k, contextLen, b);
    assert (k - 1) * b == k * b - b;
    hide RemainSlots;
    if n > r {
      var q := (n - r - 1) / b;
      DivMod(n - r - 1, b);
      assert (k + q + 1) * b == k * b + q * b + b;
      assert (k + q + 1 - 1) * b == k * b + q * b;
    }
  }

  // -------------------------------------------------------------- the state

  datatype Blocks = Blocks(free: seq<nat>, tables: map<int, seq<nat>>)

  datatype Op =
    | Allocate(req: int, len: int)
    | AppendTokens(req: int, contextLen: int, n: int)
    | AppendBlock(req: int)
    | Release(req: int)

  ghost predicate NoRepeats(xs: seq<nat>) {
    forall i, j :: 0 <= i < j < |xs| ==> xs[i] != xs[j]
  }

  /** No block is in two places, and all blocks are below n. */
  ghost predicate Sound(s: Blocks, n: nat) {
    && NoRepeats(s.free)
    && (forall r :: r in s.tables ==> NoRepeats(s.tables[r]))
    && (forall x :: x in s.free ==> x < n)
    && (forall r, x {:trigger x in s.tables[r]} :: r in s.tables && x in s.tables[r] ==> x < n)
    && (forall r, x {:trigger x in s.tables[r]} :: r in s.tables && x in s.tables[r] ==> x !in s.free)
    && (forall r, q, x :: r in s.tables && q in s.tables && r != q && x in s.tables[r] ==> x !in s.tables[q])
  }

  ghost predicate Placed(s: Blocks, x: nat) {
    x in s.free || exists r :: r in s.tables && x in s.tables[r]
  }

  /** The free queue and the block tables partition 0, ..., n - 1. */
  ghost predicate Partition(s: Blocks, n: nat) {
    Sound(s, n) && forall x: nat :: x < n ==> Placed(s, x)
  }

  ghost function TableOf(s: Blocks, r: int): seq<nat> {
    if r in s.tables then s.tables[r] else []
  }

  /** Move the first k free blocks to the end of a request's table. */
  ghost function Grab(s: Blocks, r: int, k: nat): Blocks
    requires k <= |s.free|
  {
    Blocks(s.free[k..], s.tables[r := TableOf(s, r) + s.free[..k]])
  }

  ghost predicate Succeeds(s: Blocks, reserved: nat, b: nat, op: Op)
    requires b > 0
  {
    match op
    case Allocate(r, len) =>
      r !in s.tables && BlocksNeeded(len, b) >= 0 && |s.free| >= BlocksNeeded(len, b) + reserved
    case AppendTokens(r, c, n) =>
      n >= 1 && r in s.tables && c > 0 && (BlocksToAdd(c, n, b) > 0 ==> |s.free| > BlocksToAdd(c, n, b))
    case AppendBlock(r) => |s.free| > 0 && r in s.tables
    case Release(r) => r in s.tables
  }

  /** Appending a block to an unknown request takes the block off the queue before it throws. */
  ghost predicate Leaks(s: Blocks, op: Op) {
    op.AppendBlock? && |s.free| > 0 && op.req !in s.tables
  }

  ghost function Apply(s: Blocks, reserved: nat, b: nat, op: Op): Blocks
    requires b > 0
  {
    if Leaks(s, op) then s.(free := s.free[1..])
    else if !Succeeds(s, reserved, b, op) then s
    else
      match op
      case Allocate(r, len) => Grab(s, r, BlocksNeeded(len, b))
      case AppendTokens(r, c, n) => Grab(s, r, BlocksToAdd(c, n, b))
      case AppendBlock(r) => Grab(s, r, 1)
      case Release(r) => Blocks(s.free + s.tables[r], s.tables - {r})
  }

  ghost function Initial(n: nat): Blocks {
    Blocks(Range(0, n), map[])
  }

  lemma InitialPartition(n: nat)
    ensures Partition(Initial(n), n)
  {
    var s := Initial(n);
    assert |s.free| == n && forall i :: 0 <= i < n ==> s.free[i] == i;
    forall x: nat | x < n
      ensures x in s.free && Placed(s, x)
    {
      assert s.free[x] == x;
    }
  }

  /** The grown table: old blocks and blocks just taken, all different and none of them free any more. */
  lemma GrownTable(s: Blocks, r: int, k: nat, n: nat)
    requires k <= |s.free| && Sound(s, n)
    ensures var table := TableOf(s, r) + s.free[..k];
      && NoRepeats(table)
      && forall x :: x in table ==> x < n && x !in s.free[k..] && (x in s.free || (r in s.tables && x in s.tables[r]))
  {
    var had, taken := TableOf(s, r), s.free[..k];
    var table := had + taken;
    forall x | x in taken
      ensures x in s.free && x !in s.free[k..]
    {
    }
    forall x | x in had
      ensures r in s.tables && x in s.tables[r] && x < n && x !in s.free
    {
    }
    forall i, j | 0 <= i < j < |table|
      ensures table[i] != table[j]
    {
      if i < |had| <= j {
        assert table[i] in had && table[j] in taken;
      }
    }
  }

  lemma SuffixNoRepeats(xs: seq<nat>, k: nat)
    requires NoRepeats(xs) && k <= |xs|
    ensures NoRepeats(xs[k..])
  {
    forall i, j | 0 <= i < j < |xs[k..]|
      ensures xs[k..][i] != xs[k..][j]
    {
      assert xs[k..][i] == xs[k + i] && xs[k..][j] == xs[k + j];
    }
  }

  lemma GrabSound(s: Blocks, r: int, k: nat, n: nat)
    requires k <= |s.free| && Sound(s, n)
    ensures Sound(Grab(s, r, k), n)
  {
    var t := Grab(s, r, k);
    GrownTable(s, r, k, n);
    assert forall x :: x in t.free ==> x in s.free;
    SuffixNoRepeats(s.free, k);
    forall q | q in t.tables
      ensures NoRepeats(t.tables[q]) && forall x :: x in t.tables[q] ==> x < n && x !in t.free
    {
      if q != r {
        assert q in s.tables && t.tables[q] == s.tables[q];
      }
    }
    forall p, q, x | p in t.tables && q in t.tables && p != q && x in t.tables[p]
      ensures x !in t.tables[q]
    {
      if p == r {
        assert q in s.tables && t.tables[q] == s.tables[q];
      } else if q == r {
        assert p in s.tables && t.tables[p] == s.tables[p];
      }
    }
  }

  lemma GrabPlaces(s: Blocks, r: int, k: nat, x: nat)
    requires k <= |s.free| && Placed(s, x)
    ensures Placed(Grab(s, r, k), x)
  {
    var t := Grab(s, r, k);
    if x in s.free {
      assert s.free == s.free[..k] + s.free[k..];
      assert x in s.free[..k] ==> x in t.tables[r];
    } else {
      var q :| q in s.tables && x in s.tables[q];
      assert q in t.tables && x in t.tables[q];
    }
  }

  lemma ReleaseSound(s: Blocks, r: int, n: nat)
    requires r in s.tables && Sound(s, n)
    ensures Sound(Blocks(s.free + s.tables[r], s.tables - {r}), n)
  {
    var t := Blocks(s.free + s.tables[r], s.tables - {r});
    forall i, j | 0 <= i < j < |t.free|
      ensures t.free[i] != t.free[j]
    {
      if i < |s.free| <= j {
        assert t.free[i] in s.free && t.free[j] in s.tables[r];
      }
    }
    forall q, x | q in t.tables && x in t.tables[q]
      ensures x < n && x !in t.free
    {
      assert q in s.tables && q != r && t.tables[q] == s.tables[q] && x in s.tables[q];
      assert x !in s.tables[r] && x !in s.free;
    }
    assert forall q :: q in t.tables ==> t.tables[q] == s.tables[q];
  }

  lemma ReleasePlaces(s: Blocks, r: int, x: nat)
    requires r in s.tables && Placed(s, x)
    ensures Placed(Blocks(s.free + s.tables[r], s.tables - {r}), x)
  {
    var t := Blocks(s.free + s.tables[r], s.tables - {r});
    if x !in s.free {
      var q :| q in s.tables && x in s.tables[q];
      if q != r {
        assert q in t.tables && x in t.tables[q];
      }
    }
  }

  /** No operation, failing or not, ever puts a block in two places. */
  lemma {:induction false} StepSound(s: Blocks, reserved: nat, b: nat, op: Op, n: nat)
    requires b > 0 && Sound(s, n)
    ensures Sound(Apply(s, reserved, b, op), n)
  {
    var t := Apply(s, reserved, b, op);
    if Leaks(s, op) {
      assert forall x :: x in t.free ==> x in s.free;
    } else if Succeeds(s, reserved, b, op) {
      match op
      case Allocate(r, len) => GrabSound(s, r, BlocksNeeded(len, b), n);
      case AppendTokens(r, c, k) => GrabSound(s, r, BlocksToAdd(c, k, b), n);
      case AppendBlock(r) => GrabSound(s, r, 1, n);
      case Release(r) => ReleaseSound(s, r, n);
    }
  }

  lemma {:induction false} StepPlaces(s: Blocks, reserved: nat, b: nat, op: Op, x: nat)
    requires b > 0 && Placed(s, x) && !Leaks(s, op)
    ensures Placed(Apply(s, reserved, b, op), x)
  {
    hide Placed;
    if Succeeds(s, reserved, b, op) {
      match op
      case Allocate(r, len) => GrabPlaces(s, r, BlocksNeeded(len, b), x);
      case AppendTokens(r, c, k) => GrabPlaces(s, r, BlocksToAdd(c, k, b), x);
      case AppendBlock(r) => GrabPlaces(s, r, 1, x);
      case Release(r) => ReleasePlaces(s, r, x);
    }
  }

  lemma LeakLoses(s: Blocks, reserved: nat, b: nat, op: Op, n: nat)
    requires b > 0 && Sound(s, n) && Leaks(s, op)
    ensures s.free[0] < n && !Placed(Apply(s, reserved, b, op), s.free[0])
  {
    var x := s.free[0];
    assert x in s.free;
  }

  /** Every operation keeps the partition, except appending a block to an unknown request, which loses a block. */
  lemma {:induction false} StepPartitionIff(s: Blocks, reserved: nat, b: nat, op: Op, n: nat)
    requires b > 0 && Partition(s, n)
    ensures Partition(Apply(s, reserved, b, op), n) <==> !Leaks(s, op)
  {
    hide Placed, Sound, Apply;
    StepSound(s, reserved, b, op, n);
    if Leaks(s, op) {
      LeakLoses(s, reserved, b, op, n);
    } else {
      forall x: nat | x < n
        ensures Placed(Apply(s, reserved, b, op), x)
      {
        StepPlaces(s, reserved, b, op, x);
      }
    }
  }

  /** The state after a sequence of operations. */
  ghost function Run(s: Blocks, reserved: nat, b: nat, ops: seq<Op>): Blocks
    requires b > 0
  {
    if |ops| == 0 then s else Apply(Run(s, reserved, b, ops[..|ops| - 1]), reserved, b, ops[|ops| - 1])
  }

  /** No operation of the sequence leaks. */
  ghost predicate LeakFree(s: Blocks, reserved: nat, b: nat, ops: seq<Op>)
    requires b > 0
  {
    |ops| == 0 ||
    (LeakFree(s, reserved, b, ops[..|ops| - 1])
     && !Leaks(Run(s, reserved, b, ops[..|ops| - 1]), ops[|ops| - 1]))
  }

  /** A lost block stays lost. */
  lemma {:induction false} StaysLost(s: Blocks, reserved: nat, b: nat, op: Op, x: nat)
    requires b > 0 && !Placed(s, x)
    ensures !Placed(Apply(s, reserved, b, op), x)
  {
    var t := Apply(s, reserved, b, op);
    assert forall y :: y in t.free ==> Placed(s, y);
    forall r | r in t.tables
      ensures x !in t.tables[r]
    {
      if r in s.tables {
        assert x !in s.tables[r];
      }
    }
  }

  /**
   * Over any sequence of operations, failing ones included, no block is ever in two places, and the blocks are
   * partitioned exactly when no block was appended to an unknown request.
   */
  lemma {:induction false} RunPartitionIff(s: Blocks, reserved: nat, b: nat, ops: seq<Op>, n: nat)
    requires b > 0 && Partition(s, n)
    ensures Sound(Run(s, reserved, b, ops), n)
    ensures Partition(Run(s, reserved, b, ops), n) <==> LeakFree(s, reserved, b, ops)
  {
    hide Placed, Sound, Apply, Leaks;
    if |ops| > 0 {
      var before, op := Run(s, reserved, b, ops[..|ops| - 1]), ops[|ops| - 1];
      RunPartitionIff(s, reserved, b, ops[..|ops| - 1], n);
      StepSound(before, reserved, b, op, n);
      if Partition(before, n) {
        StepPartitionIff(before, reserved, b, op, n);
      } else {
        var x: nat :| x < n && !Placed(before, x);
        StaysLost(before, reserved, b, op, x);
      }
    }
  }

  /** So from a new allocator on: all blocks, the reserved ones included, stay partitioned exactly without a leak. */
  lemma FromStartPartitionIff(numBlocks: nat, reserved: nat, b: nat, ops: seq<Op>)
    requires b > 0
    ensures var n := numBlocks + reserved;
      var s := Run(Initial(n), reserved, b, ops);
      && Sound(s, n) && (Partition(s, n) <==> LeakFree(Initial(n), reserved, b, ops))
  {
    InitialPartition(numBlocks + reserved);
    RunPartitionIff(Initial(numBlocks + reserved), reserved, b, ops, numBlocks + reserved);
  }

  // ---------------------------------------------------- slots and queue order

  /** The slots of a request's positions, once given, stay: its table only grows, at its end. */
  ghost predicate KeepsSlots(s: Blocks, s': Blocks, b: nat, r: int)
    requires b > 0
  {
    r in s.tables ==>
      && r in s'.tables && s.tables[r] <= s'.tables[r]
      && forall pos: nat {:trigger pos / b} :: pos < |s.tables[r]| * b ==>
        pos / b < |s.tables[r]| && pos / b < |s'.tables[r]| && Slot(s'.tables[r], pos, b) == Slot(s.tables[r], pos, b)
  }

  lemma PrefixKeepsSlots(s: Blocks, s': Blocks, b: nat, r: int)
    requires b > 0 && r in s.tables && r in s'.tables && s.tables[r] <= s'.tables[r]
    ensures KeepsSlots(s, s', b, r)
  {
    forall pos: nat | pos < |s.tables[r]| * b
      ensures pos / b < |s.tables[r]| && pos / b < |s'.tables[r]| && Slot(s'.tables[r], pos, b) == Slot(s.tables[r], pos, b)
    {
      CapacityIsBlocks(pos, |s.tables[r]|, b);
    }
  }

  /** No operation but its own release moves a position of a request to another slot. */
  lemma StepKeepsSlots(s: Blocks, reserved: nat, b: nat, op: Op, r: int)
    requires b > 0 && op != Release(r)
    ensures KeepsSlots(s, Apply(s, reserved, b, op), b, r)
  {
    if r in s.tables {
      PrefixKeepsSlots(s, Apply(s, reserved, b, op), b, r);
    }
  }

  /** Over any run without its release, every position of a request stays in its slot. */
  lemma {:induction false} RunKeepsSlots(s: Blocks, reserved: nat, b: nat, ops: seq<Op>, r: int)
    requires b > 0 && forall i :: 0 <= i < |ops| ==> ops[i] != Release(r)
    ensures KeepsSlots(s, Run(s, reserved, b, ops), b, r)
  {
    hide Apply;
    if |ops| == 0 {
      if r in s.tables {
        PrefixKeepsSlots(s, s, b, r);
      }
    } else {
      var n := |ops| - 1;
      var mid := Run(s, reserved, b, ops[..n]);
      RunKeepsSlots(s, reserved, b, ops[..n], r);
      StepKeepsSlots(mid, reserved, b, ops[n], r);
      if r in s.tables {
        PrefixKeepsSlots(s, Run(s, reserved, b, ops), b, r);
      }
    }
  }

  /** The blocks an operation hands out: those its request's table gained, or the one that leaked. */
  ghost function HandedOut(s: Blocks, reserved: nat, b: nat, op: Op): seq<nat>
    requires b > 0
  {
    var s' := Apply(s, reserved, b, op);
    if Leaks(s, op) then s.free[..1]
    else if !Succeeds(s, reserved, b, op) || op.Release? || op.req !in s'.tables then []
    else if |s'.tables[op.req]| < |TableOf(s, op.req)| then []
    else s'.tables[op.req][|TableOf(s, op.req)|..]
  }

  /** The blocks an operation gives back. */
  ghost function GivenBack(s: Blocks, reserved: nat, b: nat, op: Op): seq<nat>
    requires b > 0
  {
    if op.Release? && op.req in s.tables then s.tables[op.req] else []
  }

  ghost function AllHandedOut(s: Blocks, reserved: nat, b: nat, ops: seq<Op>): seq<nat>
    requires b > 0
  {
    if |ops| == 0 then []
    else
      var n := |ops| - 1;
      AllHandedOut(s, reserved, b, ops[..n]) + HandedOut(Run(s, reserved, b, ops[..n]), reserved, b, ops[n])
  }

  ghost function AllGivenBack(s: Blocks, reserved: nat, b: nat, ops: seq<Op>): seq<nat>
    requires b > 0
  {
    if |ops| == 0 then []
    else
      var n := |ops| - 1;
      AllGivenBack(s, reserved, b, ops[..n]) + GivenBack(Run(s, reserved, b, ops[..n]), reserved, b, ops[n])
  }

  lemma StepIsFifo(s: Blocks, reserved: nat, b: nat, op: Op)
    requires b > 0
    ensures HandedOut(s, reserved, b, op) + Apply(s, reserved, b, op).free == s.free + GivenBack(s, reserved, b, op)
  {
  }

  /** Blocks leave the queue in the order they entered it: first those free at the start, then those given back. */
  lemma {:induction false} RunIsFifo(s: Blocks, reserved: nat, b: nat, ops: seq<Op>)
    requires b > 0
    ensures AllHandedOut(s, reserved, b, ops) + Run(s, reserved, b, ops).free
         == s.free + AllGivenBack(s, reserved, b, ops)
  {
    hide Apply, HandedOut, GivenBack;
    if |ops| > 0 {
      var n := |ops| - 1;
      var mid, op := Run(s, reserved, b, ops[..n]), ops[n];
      RunIsFifo(s, reserved, b, ops[..n]);
      StepIsFifo(mid, reserved, b, op);
      var out, more := AllHandedOut(s, reserved, b, ops[..n]), HandedOut(mid, reserved, b, op);
      var back, again := AllGivenBack(s, reserved, b, ops[..n]), GivenBack(mid, reserved, b, op);
      calc {
        (out + more) + Apply(mid, reserved, b, op).free;
        out + (more + Apply(mid, reserved, b, op).free);
        out + (mid.free + again);
        (out + mid.free) + again;
        (s.free + back) + again;
        s.free + (back + again);
      }
    }
  }

  /** From a new allocator on: blocks 0, 1, 2, ... come first, and then the ones given back, oldest first. */
  lemma FromStartIsFifo(numBlocks: nat, reserved: nat, b: nat, ops: seq<Op>)
    requires b > 0
    ensures var s := Initial(numBlocks + reserved);
      AllHandedOut(s, reserved, b, ops) + Run(s, reserved, b, ops).free
      == Range(0, numBlocks + reserved) + AllGivenBack(s, reserved, b, ops)
  {
    RunIsFifo(Initial(numBlocks + reserved), reserved, b, ops);
    hide Run, AllHandedOut, AllGivenBack;
  }

  /** A successful allocation leaves the reserved blocks free; growing a table leaves one block free. */
  lemma {:induction false} ReservedStaysFree(s: Blocks, reserved: nat, b: nat, op: Op)
    requires b > 0 && Succeeds(s, reserved, b, op)
    ensures op.Allocate? ==> |Apply(s, reserved, b, op).free| >= reserved
    ensures op.AppendTokens? && BlocksToAdd(op.contextLen, op.n, b) > 0 ==> |Apply(s, reserved, b, op).free| >= 1
  {
  }

  /** A new request gets its blocks exactly when the reserved ones stay free beside the fewest that hold its tokens. */
  lemma {:induction false} AllocateSucceedsIff(s: Blocks, reserved: nat, b: nat, r: int, len: int, k: nat)
    requires b > 0 && len >= 1 && IsCeil(k, len, b)
    ensures Succeeds(s, reserved, b, Allocate(r, len)) <==> r !in s.tables && |s.free| - k >= reserved
  {
    NeededIsCeilIff(len, b);
    CeilUnique(k, BlocksNeeded(len, b), len, b);
  }

  /** Tokens are appended exactly when they fit the blocks of their request, or one block stays free beside k new ones. */
  lemma {:induction false} AppendSucceedsIff(s: Blocks, reserved: nat, b: nat, r: int, c: int, n: int, held: nat, k: nat)
    requires b > 0 && c >= 1 && n >= 1 && IsCeil(held, c, b) && IsCeil(held + k, c + n, b)
    ensures Succeeds(s, reserved, b, AppendTokens(r, c, n)) <==> r in s.tables && (k == 0 || |s.free| - k >= 1)
  {
    AddedIsCeil(held, c, n, b);
    CeilUnique(held + k, held + BlocksToAdd(c, n, b), c + n, b);
  }

  /** An exactly sized table is exactly sized for the longer context after tokens are appended. */
  lemma {:induction false} AppendKeepsCeil(s: Blocks, reserved: nat, b: nat, r: int, c: nat, n: nat)
    requires b > 0 && Succeeds(s, reserved, b, AppendTokens(r, c, n))
    requires IsCeil(|s.tables[r]|, c, b)
    ensures var t := Apply(s, reserved, b, AppendTokens(r, c, n)); r in t.tables && IsCeil(|t.tables[r]|, c + n, b)
  {
    AddedIsCeil(|s.tables[r]|, c, n, b);
  }

  // ------------------------------------------------------------ addressing

  /** The cache slot of a token position. */
  ghost function Slot(table: seq<nat>, pos: nat, b: nat): nat
    requires b > 0 && pos / b < |table|
  {
    table[pos / b] * b + pos % b
  }

  lemma CapacityIsBlocks(pos: nat, k: nat, b: nat)
    requires b > 0
    ensures pos / b < k <==> pos < k * b
  {
    DivMod(pos, b);
    var q := pos / b;
    MulLess(q, k, b);
    MulLess(k, q + 1, b);
    assert (q + 1) * b == q * b + b && (q + 1 - 1) * b == q * b;
  }

  /** Translation is injective: two token positions within capacity never share a slot. */
  lemma {:induction false} SlotsDistinct(s: Blocks, n: nat, b: nat, r: int, pos: nat, q: int, pos': nat)
    requires b > 0 && Sound(s, n) && r in s.tables && q in s.tables
    requires pos < |s.tables[r]| * b && pos' < |s.tables[q]| * b && (r, pos) != (q, pos')
    ensures pos / b < |s.tables[r]| && pos' / b < |s.tables[q]|
    ensures Slot(s.tables[r], pos, b) != Slot(s.tables[q], pos', b)
    ensures Slot(s.tables[r], pos, b) < n * b
  {
    hide Slot, Sound;
    CapacityIsBlocks(pos, |s.tables[r]|, b);
    CapacityIsBlocks(pos', |s.tables[q]|, b);
    SlotBelow(s, r, pos, b, n);
    if Slot(s.tables[r], pos, b) == Slot(s.tables[q], pos', b) {
      SlotsEqual(s.tables[r], pos, s.tables[q], pos', b);
      SameBlock(s, n, r, pos / b, q, pos' / b);
      DivMod(pos, b);
      DivMod(pos', b);
      assert false;
    }
  }

  lemma SlotsEqual(table: seq<nat>, pos: nat, table': seq<nat>, pos': nat, b: nat)
    requires b > 0 && pos / b < |table| && pos' / b < |table'|
    requires Slot(table, pos, b) == Slot(table', pos', b)
    ensures table[pos / b] == table'[pos' / b] && pos % b == pos' % b
  {
    PairUnique(table[pos / b], pos % b, table'[pos' / b], pos' % b, b);
  }

  lemma SlotBelow(s: Blocks, r: int, pos: nat, b: nat, n: nat)
    requires b > 0 && Sound(s, n) && r in s.tables && pos / b < |s.tables[r]|
    ensures Slot(s.tables[r], pos, b) < n * b
  {
    var x := s.tables[r][pos / b];
    assert x in s.tables[r];
    MulLess(x, n, b);
    assert (x + 1) * b == x * b + b;
  }

  lemma SameBlock(s: Blocks, n: nat, r: int, i: nat, q: int, j: nat)
    requires Sound(s, n) && r in s.tables && q in s.tables && i < |s.tables[r]| && j < |s.tables[q]|
    requires s.tables[r][i] == s.tables[q][j]
    ensures r == q && i == j
  {
    assert s.tables[r][i] in s.tables[r] && s.tables[q][j] in s.tables[q];
  }

  // -------------------------------------------------- one scheduling step

  /** The operations of one batch: allocate for its prefill requests, then one more token for everyone. */
  ghost function UpdateOps(reqs: seq<int>, lens: seq<int>, numPrefill: nat, contextLens: seq<int>): (r: seq<Op>)
    requires numPrefill <= |reqs| <= |lens| && |reqs| <= |contextLens|
    ensures |r| == numPrefill + |reqs|
  {
    seq(numPrefill, i requires 0 <= i < numPrefill => Op.Allocate(reqs[i], lens[i])) +
    seq(|reqs|, i requires 0 <= i < |reqs| => Op.AppendTokens(reqs[i], contextLens[i], 1))
  }

  lemma GrabNothing(s: Blocks, r: int)
    requires r in s.tables
    ensures Grab(s, r, 0) == s
  {
    assert s.tables[r] + s.free[..0] == s.tables[r];
  }

  /** The first k operations all succeed. */
  ghost predicate AllSucceed(s: Blocks, reserved: nat, b: nat, ops: seq<Op>, k: nat)
    requires b > 0 && k <= |ops|
  {
    forall i :: 0 <= i < k ==> Succeeds(Run(s, reserved, b, ops[..i]), reserved, b, ops[i])
  }

  lemma RunStep(s: Blocks, reserved: nat, b: nat, ops: seq<Op>, k: nat)
    requires b > 0 && k < |ops|
    ensures Run(s, reserved, b, ops[..k + 1]) == Apply(Run(s, reserved, b, ops[..k]), reserved, b, ops[k])
  {
    assert ops[..k + 1][..k] == ops[..k];
  }

  /** After k operations of the step, the tables are exact for the contexts reached so far. */
  ghost predicate ExactAfter(t: Blocks, b: nat, reqs: seq<int>, numPrefill: nat, contextLens: seq<int>, k: nat)
    requires b > 0 && numPrefill <= |reqs| <= |contextLens|
  {
    forall i :: 0 <= i < |reqs| && (i < k || i >= numPrefill) ==>
      && reqs[i] in t.tables
      && IsCeil(|t.tables[reqs[i]]|, contextLens[i] + (if numPrefill + i < k then 1 else 0), b)
  }

  lemma {:induction false} ExactStep(t: Blocks, reserved: nat, b: nat, reqs: seq<int>, lens: seq<int>, numPrefill: nat,
                                     contextLens: seq<int>, k: nat)
    requires b > 0 && numPrefill <= |reqs| <= |lens| && |reqs| <= |contextLens| && k < numPrefill + |reqs|
    requires forall i, j :: 0 <= i < j < |reqs| ==> reqs[i] != reqs[j]
    requires forall i :: 0 <= i < numPrefill ==> lens[i] == contextLens[i] >= 1
    requires ExactAfter(t, b, reqs, numPrefill, contextLens, k)
    requires Succeeds(t, reserved, b, UpdateOps(reqs, lens, numPrefill, contextLens)[k])
    ensures ExactAfter(Apply(t, reserved, b, UpdateOps(reqs, lens, numPrefill, contextLens)[k]), b, reqs, numPrefill,
                       contextLens, k + 1)
  {
    hide IsCeil;
    var op := UpdateOps(reqs, lens, numPrefill, contextLens)[k];
    var u := Apply(t, reserved, b, op);
    if k < numPrefill {
      NeededIsCeilIff(lens[k], b);
      assert |u.tables[reqs[k]]| == BlocksNeeded(lens[k], b);
    } else {
      var i := k - numPrefill;
      AppendKeepsCeil(t, reserved, b, reqs[i], contextLens[i], 1);
    }
  }

  /**
   * If every request appears once, prefill contexts are the prefill lengths and the other tables were exact, then a
   * step that does not throw leaves every table exact for one token more.
   */
  lemma {:induction false} UpdateKeepsCeil(s: Blocks, reserved: nat, b: nat, reqs: seq<int>, lens: seq<int>,
                                           numPrefill: nat, contextLens: seq<int>, k: nat)
    requires b > 0 && numPrefill <= |reqs| <= |lens| && |reqs| <= |contextLens| && k <= numPrefill + |reqs|
    requires forall i, j :: 0 <= i < j < |reqs| ==> reqs[i] != reqs[j]
    requires forall i :: 0 <= i < numPrefill ==> lens[i] == contextLens[i] >= 1
    requires forall i :: numPrefill <= i < |reqs| ==>
      reqs[i] in s.tables && IsCeil(|s.tables[reqs[i]]|, contextLens[i], b)
    requires AllSucceed(s, reserved, b, UpdateOps(reqs, lens, numPrefill, contextLens), k)
    ensures ExactAfter(Run(s, reserved, b, UpdateOps(reqs, lens, numPrefill, contextLens)[..k]), b, reqs, numPrefill,
                       contextLens, k)
  {
    hide IsCeil, Apply, Succeeds, ExactAfter, UpdateOps;
    var ops := UpdateOps(reqs, lens, numPrefill, contextLens);
    if k == 0 {
      ExactAtStart(s, b, reqs, numPrefill, contextLens);
    } else {
      UpdateKeepsCeil(s, reserved, b, reqs, lens, numPrefill, contextLens, k - 1);
      RunStep(s, reserved, b, ops, k - 1);
      ExactStep(Run(s, reserved, b, ops[..k - 1]), reserved, b, reqs, lens, numPrefill, contextLens, k - 1);
    }
  }

  lemma ExactAtStart(s: Blocks, b: nat, reqs: seq<int>, numPrefill: nat, contextLens: seq<int>)
    requires b > 0 && numPrefill <= |reqs| <= |contextLens|
    requires forall i :: numPrefill <= i < |reqs| ==>
      reqs[i] in s.tables && IsCeil(|s.tables[reqs[i]]|, contextLens[i], b)
    ensures ExactAfter(s, b, reqs, numPrefill, contextLens, 0)
  {
  }

  // ------------------------------------------------------ the flat block table

  function Fill(n: nat): (r: seq<int>)
    ensures |r| == n && forall i :: 0 <= i < n ==> r[i] == -1
  {
    seq(n, _ => -1)
  }

  /** A block table as a row of the given width, padded with -1. */
  ghost function PaddedRow(table: seq<nat>, m: nat): (r: seq<int>)
    requires |table| <= m
    ensures |r| == m && forall j :: 0 <= j < m ==> r[j] == if j < |table| then table[j] else -1
  {
    seq(m, j requires 0 <= j < m => if j < |table| then table[j] as int else -1)
  }

  lemma RowPadded(rows: seq<int>, list: seq<nat>, m: nat, rest: nat)
    requires |list| <= m <= rest
    ensures rows + list + Fill(rest - |list|) == rows + PaddedRow(list, m) + Fill(rest - m)
  {
  }

  /** The widest table. */
  ghost function Stride(tables: map<int, seq<nat>>, reqs: seq<int>): (m: nat)
    requires forall i :: 0 <= i < |reqs| ==> reqs[i] in tables
    ensures forall i :: 0 <= i < |reqs| ==> |tables[reqs[i]]| <= m
    ensures m == 0 || exists i :: 0 <= i < |reqs| && |tables[reqs[i]]| == m
  {
    if |reqs| == 0 then 0
    else
      var n := |reqs| - 1;
      var m := Stride(tables, reqs[..n]);
      assert forall i :: 0 <= i < n ==> reqs[..n][i] == reqs[i];
      if |tables[reqs[n]]| > m then |tables[reqs[n]]| else m
  }

  ghost function FlatRows(tables: map<int, seq<nat>>, reqs: seq<int>, m: nat): (r: seq<int>)
    requires forall i :: 0 <= i < |reqs| ==> reqs[i] in tables && |tables[reqs[i]]| <= m
    ensures |r| == |reqs| * m
  {
    if |reqs| == 0 then []
    else
      var n := |reqs| - 1;
      assert |reqs| * m == n * m + m;
      FlatRows(tables, reqs[..n], m) + PaddedRow(tables[reqs[n]], m)
  }

  lemma RowFits(i: nat, n: nat, m: nat)
    requires i < n
    ensures (i + 1) * m == i * m + m && (i + 1) * m <= n * m
  {
    MulLess(i, n, m);
  }

  lemma NoRows(tables: map<int, seq<nat>>, reqs: seq<int>, m: nat, rest: nat)
    ensures FlatRows(tables, reqs[..0], m) + Fill(rest) == Fill(rest)
  {
  }

  lemma NextRow(tables: map<int, seq<nat>>, reqs: seq<int>, m: nat, i: nat)
    requires forall k :: 0 <= k < |reqs| ==> reqs[k] in tables && |tables[reqs[k]]| <= m
    requires i < |reqs|
    ensures FlatRows(tables, reqs[..i + 1], m) == FlatRows(tables, reqs[..i], m) + PaddedRow(tables[reqs[i]], m)
  {
    assert reqs[..i + 1][..i] == reqs[..i];
  }

  /** Entry j of row i. */
  lemma {:induction false} FlatAt(tables: map<int, seq<nat>>, reqs: seq<int>, m: nat, i: nat, j: nat)
    requires forall k :: 0 <= k < |reqs| ==> reqs[k] in tables && |tables[reqs[k]]| <= m
    requires i < |reqs| && j < m
    ensures i * m + j < |reqs| * m
    ensures FlatRows(tables, reqs, m)[i * m + j] == PaddedRow(tables[reqs[i]], m)[j]
  {
    var n := |reqs| - 1;
    assert |reqs| * m == n * m + m;
    if i < n {
      FlatAt(tables, reqs[..n], m, i, j);
      assert reqs[..n][i] == reqs[i];
    }
  }

  /** Division rounds towards zero. */
  function Quot(x: int, b: nat): int
    requires b > 0
  {
    if x >= 0 then x / b else -(-x / b)
  }

  function Rem(x: int, b: nat): int
    requires b > 0
  {
    x - Quot(x, b) * b
  }

  /** Where the flat table is read for the block of the last of len tokens of request i. */
  function LookupAt(i: nat, len: int, m: nat, b: nat): int
    requires b > 0
  {
    i * m + Quot(len - 1, b)
  }

  /** What the flat table holds at a place, while the slots behind the rows are being filled in. */
  ghost function EntryAt(rows: seq<int>, slots: seq<int>, k: nat): int {
    if k < |rows| then rows[k] else if k - |rows| < |slots| then slots[k - |rows|] else -1
  }

  /** The slots of the first n requests, each computed from what its lookup reads. */
  ghost function MappedSlots(rows: seq<int>, lens: seq<int>, n: nat, m: nat, b: nat): (r: seq<int>)
    requires b > 0 && n <= |lens| && forall i :: 0 <= i < n ==> LookupAt(i, lens[i], m, b) >= 0
    ensures |r| == n
  {
    if n == 0 then []
    else
      var before, i := MappedSlots(rows, lens, n - 1, m, b), n - 1;
      before + [EntryAt(rows, before, LookupAt(i, lens[i], m, b)) * b + Rem(lens[i] - 1, b)]
  }

  lemma {:induction false} MappedSlotAt(rows: seq<int>, lens: seq<int>, n: nat, m: nat, b: nat, i: nat)
    requires b > 0 && i < n <= |lens| && forall k :: 0 <= k < n ==> LookupAt(k, lens[k], m, b) >= 0
    ensures MappedSlots(rows, lens, n, m, b)[i]
         == EntryAt(rows, MappedSlots(rows, lens, i, m, b), LookupAt(i, lens[i], m, b)) * b + Rem(lens[i] - 1, b)
    ensures i + 1 == n ==> MappedSlots(rows, lens, n, m, b)[..i] == MappedSlots(rows, lens, i, m, b)
  {
    hide LookupAt, Rem, EntryAt;
    if i + 1 < n {
      MappedSlotAt(rows, lens, n - 1, m, b, i);
    }
  }

  lemma PositiveFactor(n: nat, m: nat)
    requires n * m > 0
    ensures m > 0
  {
  }

  /** A place within the rows is some column of the row it starts in, or of a later one. */
  lemma RowOfPlace(i: nat, q: nat, m: nat, n: nat) returns (row: nat, column: nat)
    requires i < n && i * m + q < n * m
    ensures i <= row < n && column < m && i * m + q == row * m + column
    ensures if q < m then row == i && column == q else row > i
  {
    var k := i * m + q;
    PositiveFactor(n, m);
    row, column := k / m, k % m;
    DivMod(k, m);
    if q < m {
      PairUnique(row, column, i, q, m);
    } else {
      assert (i + 1) * m == i * m + m;
      CapacityIsBlocks(k, i + 1, m);
    }
    CapacityIsBlocks(k, n, m);
  }

  /** What a lookup within the rows reads: a block of the request of that row, or the filler. */
  lemma ReadsRow(tables: map<int, seq<nat>>, reqs: seq<int>, m: nat, i: nat, q: nat) returns (row: nat, entry: int)
    requires forall k :: 0 <= k < |reqs| ==> reqs[k] in tables && |tables[reqs[k]]| <= m
    requires i < |reqs| && i * m + q < |reqs| * m
    ensures i <= row < |reqs| && FlatRows(tables, reqs, m)[i * m + q] == entry
    ensures entry == -1 || entry in tables[reqs[row]]
    ensures if q < m then row == i && entry == PaddedRow(tables[reqs[i]], m)[q] else row > i
  {
    var column;
    row, column := RowOfPlace(i, q, m, |reqs|);
    FlatAt(tables, reqs, m, row, column);
    entry := PaddedRow(tables[reqs[row]], m)[column];
  }

  /**
   * A mapped slot is a slot of the request's own blocks, and then the slot of its last token, exactly when its tokens
   * fit its own table. Beyond it, the lookup reads the filler or a block of another request.
   */
  lemma {:induction false} SlotIsOwnIff(s: Blocks, n: nat, reqs: seq<int>, lens: seq<int>, m: nat, b: nat, i: nat)
    requires b > 0 && Sound(s, n) && |reqs| <= |lens| && i < |reqs| && lens[i] >= 1
    requires forall j, k :: 0 <= j < k < |reqs| ==> reqs[j] != reqs[k]
    requires forall k :: 0 <= k < |reqs| ==> reqs[k] in s.tables && |s.tables[reqs[k]]| <= m
    requires forall k :: 0 <= k < |reqs| ==> LookupAt(k, lens[k], m, b) >= 0
    requires LookupAt(i, lens[i], m, b) < |reqs| * m
    ensures var table, slot := s.tables[reqs[i]], MappedSlots(FlatRows(s.tables, reqs, m), lens, |reqs|, m, b)[i];
      && (OwnSlot(table, slot, b) <==> lens[i] <= |table| * b)
      && (lens[i] <= |table| * b ==> (lens[i] - 1) / b < |table| && slot == Slot(table, lens[i] - 1, b))
      && ((lens[i] - 1) / b < m ==> (slot >= 0 <==> lens[i] <= |table| * b))
  {
    var table, q, rows := s.tables[reqs[i]], (lens[i] - 1) / b, FlatRows(s.tables, reqs, m);
    MappedSlotAt(rows, lens, |reqs|, m, b, i);
    DivMod(lens[i] - 1, b);
    CapacityIsBlocks(lens[i] - 1, |table|, b);
    var row, entry := ReadsRow(s.tables, reqs, m, i, q);
    hide FlatRows, MappedSlots, Sound;
    SlotOfEntry(s, n, reqs[i], reqs[row], q, entry, (lens[i] - 1) % b, b);
  }

  /** A length of zero is mapped to the slot before the request's first block. */
  lemma {:induction false} ZeroLengthSlot(tables: map<int, seq<nat>>, reqs: seq<int>, lens: seq<int>, m: nat, b: nat, i: nat)
    requires b > 1 && |reqs| <= |lens| && i < |reqs| && lens[i] == 0
    requires forall k :: 0 <= k < |reqs| ==> reqs[k] in tables && |tables[reqs[k]]| <= m
    requires |tables[reqs[i]]| > 0
    requires forall k :: 0 <= k < |reqs| ==> LookupAt(k, lens[k], m, b) >= 0
    ensures MappedSlots(FlatRows(tables, reqs, m), lens, |reqs|, m, b)[i] == tables[reqs[i]][0] * b - 1
  {
    hide FlatRows, MappedSlots, LookupAt, Rem;
    var rows := FlatRows(tables, reqs, m);
    MappedSlotAt(rows, lens, |reqs|, m, b, i);
    FlatAt(tables, reqs, m, i, 0);
    NoneRead(i, m, b);
  }

  /** The last of no tokens is looked up at the start of the row, one slot before it. */
  lemma NoneRead(i: nat, m: nat, b: nat)
    requires b > 1
    ensures LookupAt(i, 0, m, b) == i * m && Rem(-1, b) == -1
  {
    assert Quot(-1, b) == 0;
  }

  /** Some position of the table has this slot. */
  ghost predicate OwnSlot(table: seq<nat>, slot: int, b: nat)
    requires b > 0
  {
    exists pos: nat :: pos / b < |table| && slot == Slot(table, pos, b)
  }

  lemma SlotOfEntry(s: Blocks, n: nat, r: int, q: int, k: nat, entry: int, offset: nat, b: nat)
    requires b > 0 && offset < b && Sound(s, n) && r in s.tables && q in s.tables
    requires entry == -1 || entry in s.tables[q]
    requires k < |s.tables[r]| ==> q == r && entry == s.tables[r][k]
    requires k >= |s.tables[r]| ==> q != r || entry == -1
    ensures OwnSlot(s.tables[r], entry * b + offset, b) <==> k < |s.tables[r]|
    ensures entry * b + offset >= 0 <==> entry >= 0
  {
    hide Sound, Slot, OwnSlot;
    EntrySign(entry, b);
    if k < |s.tables[r]| {
      SlotAt(s.tables[r], k, offset, b);
    } else if OwnSlot(s.tables[r], entry * b + offset, b) {
      OwnRequest(s, n, r, q, entry, offset, b);
    }
  }

  lemma OwnRequest(s: Blocks, n: nat, r: int, q: int, entry: int, offset: nat, b: nat)
    requires b > 0 && offset < b && Sound(s, n) && r in s.tables && q in s.tables
    requires entry == -1 || entry in s.tables[q]
    requires OwnSlot(s.tables[r], entry * b + offset, b)
    ensures entry != -1 && q == r
  {
    hide Sound, Slot;
    var pos: nat :| pos / b < |s.tables[r]| && entry * b + offset == Slot(s.tables[r], pos, b);
    SameRequest(s, n, r, pos, q, entry, offset, b);
  }

  lemma EntrySign(entry: int, b: nat)
    requires b > 0 && entry >= -1
    ensures if entry >= 0 then entry * b >= 0 else entry * b == -(b as int)
  {
  }

  lemma SlotAt(table: seq<nat>, k: nat, offset: nat, b: nat)
    requires b > 0 && offset < b && k < |table|
    ensures (k * b + offset) / b < |table| && Slot(table, k * b + offset, b) == table[k] * b + offset
    ensures OwnSlot(table, table[k] * b + offset, b)
  {
    DivMod(k * b + offset, b);
    PairUnique((k * b + offset) / b, (k * b + offset) % b, k, offset, b);
  }

  /** A slot of one request's table comes from no other request's block. */
  lemma SameRequest(s: Blocks, n: nat, r: int, pos: nat, q: int, entry: int, offset: nat, b: nat)
    requires b > 0 && offset < b && Sound(s, n) && r in s.tables && q in s.tables && pos / b < |s.tables[r]|
    requires (entry == -1 || entry in s.tables[q]) && entry * b + offset == Slot(s.tables[r], pos, b)
    ensures entry != -1 && q == r
  {
    EntrySign(entry, b);
    DivMod(pos, b);
    PairUnique(entry, offset, s.tables[r][pos / b], pos % b, b);
    var j :| 0 <= j < |s.tables[q]| && s.tables[q][j] == entry;
    SameBlock(s, n, r, pos / b, q, j);
  }

  // ---------------------------------------------------------- the allocator

  class BlockManager {
    const blockSize: nat
    const reservedBlocks: nat
    var free: seq<nat>
    var tables: map<int, seq<nat>>

    constructor (blockSize: nat, numBlocks: nat, reservedBlocks: nat)
      requires blockSize > 0
      ensures this.blockSize == blockSize && this.reservedBlocks == reservedBlocks
      ensures View() == Initial(numBlocks + reservedBlocks)
    {
      var queue: seq<nat> := [];
      for i := 0 to numBlocks + reservedBlocks
        invariant queue == Range(0, i)
      {
        queue := queue + [i];
      }
      this.blockSize, this.reservedBlocks := blockSize, reservedBlocks;
      free, tables := queue, map[];
    }

    ghost function View(): Blocks
      reads this
    {
      Blocks(free, tables)
    }

    method GetOneFreeBlock() returns (id: nat)
      requires |free| > 0
      modifies this`free
      ensures id == old(free)[0] && free == old(free)[1..]
    {
      id := free[0];
      free := free[1..];
    }

    method CanAllocate(len: int) returns (ok: bool)
      requires blockSize > 0
      ensures ok <==> |free| >= BlocksNeeded(len, blockSize) + reservedBlocks
      ensures BlocksNeeded(len, blockSize) >= 0 ==>
        forall r :: r !in tables ==> (ok <==> Succeeds(View(), reservedBlocks, blockSize, Op.Allocate(r, len)))
    {
      ok := |free| >= BlocksNeeded(len, blockSize) + reservedBlocks;
    }

    method Allocate(req: int, len: int) returns (ok: bool)
      requires blockSize > 0
      modifies this
      ensures ok == Succeeds(old(View()), reservedBlocks, blockSize, Op.Allocate(req, len))
      ensures View() == Apply(old(View()), reservedBlocks, blockSize, Op.Allocate(req, len))
    {
      if req in tables {
        return false;
      }
      var needed := BlocksNeeded(len, blockSize);
      if |free| < needed + reservedBlocks || needed < 0 {
        return false;
      }
      var list: seq<nat> := [];
      for i := 0 to needed
        invariant tables == old(tables) && list == old(free)[..i] && free == old(free)[i..]
      {
        var id := GetOneFreeBlock();
        list := list + [id];
      }
      tables := tables[req := list];
      assert [] + list == list;
      ok := true;
    }

    method AppendBlock(req: int) returns (ok: bool)
      requires blockSize > 0
      modifies this
      ensures ok == Succeeds(old(View()), reservedBlocks, blockSize, Op.AppendBlock(req))
      ensures View() == Apply(old(View()), reservedBlocks, blockSize, Op.AppendBlock(req))
    {
      if |free| == 0 {
        return false;
      }
      var id := GetOneFreeBlock();
      if req !in tables {
        return false;
      }
      tables := tables[req := tables[req] + [id]];
      assert old(free)[..1] == [id];
      ok := true;
    }

    method AppendTokens(req: int, contextLen: int, n: int) returns (ok: bool)
      requires blockSize > 0
      modifies this
      ensures ok == Succeeds(old(View()), reservedBlocks, blockSize, Op.AppendTokens(req, contextLen, n))
      ensures View() == Apply(old(View()), reservedBlocks, blockSize, Op.AppendTokens(req, contextLen, n))
    {
      if n < 1 || req !in tables || contextLen <= 0 {
        return false;
      }
      var remain := blockSize - contextLen % blockSize;
      if remain == blockSize {
        remain := 0;
      }
      if n > remain {
        var toAdd := (n - remain - 1) / blockSize + 1;
        assert toAdd == BlocksToAdd(contextLen, n, blockSize);
        if |free| <= toAdd {
          return false;
        }
        hide BlocksToAdd;
        GrowTable(req, toAdd);
      } else {
        GrabNothing(View(), req);
      }
      ok := true;
    }

    /** Move free blocks one by one to the end of a table. */
    method GrowTable(req: int, count: nat)
      requires req in tables && count <= |free|
      modifies this
      ensures View() == Grab(old(View()), req, count)
    {
      var toAdd := count;
      ghost var k := 0;
      assert old(tables)[req] + old(free)[..0] == old(tables)[req];
      while toAdd > 0
        invariant 0 <= toAdd && k + toAdd == count
        invariant free == old(free)[k..]
        invariant req in tables && tables == old(tables)[req := old(tables)[req] + old(free)[..k]]
      {
        assert old(free)[..k + 1] == old(free)[..k] + [free[0]];
        assert old(tables)[req] + old(free)[..k] + [free[0]] == old(tables)[req] + old(free)[..k + 1];
        var id := GetOneFreeBlock();
        tables := tables[req := tables[req] + [id]];
        toAdd := toAdd - 1;
        k := k + 1;
      }
    }

    method Release(req: int) returns (ok: bool)
      requires blockSize > 0
      modifies this
      ensures ok == Succeeds(old(View()), reservedBlocks, blockSize, Op.Release(req))
      ensures View() == Apply(old(View()), reservedBlocks, blockSize, Op.Release(req))
    {
      if req !in tables {
        return false;
      }
      var list := tables[req];
      for i := 0 to |list|
        invariant tables == old(tables) && free == old(free) + list[..i]
      {
        free := free + [list[i]];
      }
      tables := tables - {req};
      ok := true;
    }

    /** Release several requests, stopping at the first that throws. */
    method BatchRelease(reqs: seq<int>) returns (ok: bool, ghost done: nat)
      requires blockSize > 0
      modifies this
      ensures done <= |reqs| && (ok <==> done == |reqs|)
      ensures var ops := seq(|reqs|, i requires 0 <= i < |reqs| => Op.Release(reqs[i]));
        && View() == Run(old(View()), reservedBlocks, blockSize, ops[..done])
        && AllSucceed(old(View()), reservedBlocks, blockSize, ops, done)
        && (!ok ==> !Succeeds(View(), reservedBlocks, blockSize, ops[done]))
    {
      ghost var ops := seq(|reqs|, i requires 0 <= i < |reqs| => Op.Release(reqs[i]));
      done := 0;
      for i := 0 to |reqs|
        invariant done == i
        invariant View() == Run(old(View()), reservedBlocks, blockSize, ops[..i])
        invariant AllSucceed(old(View()), reservedBlocks, blockSize, ops, i)
      {
        RunStep(old(View()), reservedBlocks, blockSize, ops, i);
        ok := Release(reqs[i]);
        if !ok {
          return;
        }
        done := i + 1;
      }
      ok := true;
    }

    /** Operation k of the step, on the state all operations before it led to. */
    method AllocateNext(req: int, len: int, ghost s: Blocks, ghost ops: seq<Op>, ghost k: nat) returns (ok: bool)
      requires blockSize > 0 && k < |ops| && ops[k] == Op.Allocate(req, len)
      requires At(s, ops, k)
      modifies this
      ensures if ok then At(s, ops, k + 1) else StoppedAt(s, ops, k)
    {
      RunStep(s, reservedBlocks, blockSize, ops, k);
      if req in tables {
        return false;
      }
      ok := Allocate(req, len);
    }

    method AppendNext(req: int, contextLen: int, ghost s: Blocks, ghost ops: seq<Op>, ghost k: nat) returns (ok: bool)
      requires blockSize > 0 && k < |ops| && ops[k] == Op.AppendTokens(req, contextLen, 1)
      requires At(s, ops, k)
      modifies this
      ensures if ok then At(s, ops, k + 1) else StoppedAt(s, ops, k)
    {
      RunStep(s, reservedBlocks, blockSize, ops, k);
      if req !in tables {
        return false;
      }
      ok := AppendTokens(req, contextLen, 1);
    }

    /** The first k operations have succeeded. */
    ghost predicate At(s: Blocks, ops: seq<Op>, k: nat)
      requires blockSize > 0 && k <= |ops|
      reads this
    {
      View() == Run(s, reservedBlocks, blockSize, ops[..k]) && AllSucceed(s, reservedBlocks, blockSize, ops, k)
    }

    /** The first k operations have succeeded, and the next one throws. */
    ghost predicate StoppedAt(s: Blocks, ops: seq<Op>, k: nat)
      requires blockSize > 0 && k < |ops|
      reads this
    {
      At(s, ops, k) && !Succeeds(View(), reservedBlocks, blockSize, ops[k])
    }

    /** The first loop: allocate for the prefill requests. */
    method AllocateAll(reqs: seq<int>, lens: seq<int>, numPrefill: nat, ghost s: Blocks, ghost ops: seq<Op>)
      returns (ok: bool, ghost done: nat)
      requires blockSize > 0 && numPrefill <= |reqs| <= |lens| && numPrefill <= |ops|
      requires forall i :: 0 <= i < numPrefill ==> ops[i] == Op.Allocate(reqs[i], lens[i])
      requires At(s, ops, 0)
      modifies this
      ensures done <= numPrefill && (ok <==> done == numPrefill)
      ensures if ok then At(s, ops, done) else StoppedAt(s, ops, done)
    {
      hide At, StoppedAt;
      var i := 0;
      while i < numPrefill
        invariant i <= numPrefill && At(s, ops, i)
      {
        ok := AllocateNext(reqs[i], lens[i], s, ops, i);
        if !ok {
          return false, i;
        }
        i := i + 1;
      }
      ok, done := true, i;
    }

    /** The second loop: append one token to everyone. */
    method AppendAll(reqs: seq<int>, contextLens: seq<int>, ghost s: Blocks, ghost ops: seq<Op>, ghost from: nat)
      returns (ok: bool, ghost done: nat)
      requires blockSize > 0 && |reqs| <= |contextLens| && from + |reqs| == |ops|
      requires forall i :: from <= i < |ops| ==> ops[i] == Op.AppendTokens(reqs[i - from], contextLens[i - from], 1)
      requires At(s, ops, from)
      modifies this
      ensures done <= |ops| && (ok <==> done == |ops|)
      ensures if ok then At(s, ops, done) else StoppedAt(s, ops, done)
    {
      hide At, StoppedAt;
      var i := 0;
      while i < |reqs|
        invariant i <= |reqs| && At(s, ops, from + i)
      {
        ok := AppendNext(reqs[i], contextLens[i], s, ops, from + i);
        if !ok {
          return false, from + i;
        }
        i := i + 1;
      }
      ok, done := true, from + i;
    }

    /** Allocate for the prefill requests of a batch, then append one token to everyone, stopping at a throw. */
    method UpdateBlockTable(reqs: seq<int>, lens: seq<int>, numPrefill: nat, contextLens: seq<int>)
      returns (ok: bool, ghost done: nat)
      requires blockSize > 0 && numPrefill <= |reqs| <= |lens| && |reqs| <= |contextLens|
      modifies this
      ensures done <= numPrefill + |reqs| && (ok <==> done == numPrefill + |reqs|)
      ensures var ops := UpdateOps(reqs, lens, numPrefill, contextLens);
        if ok then At(old(View()), ops, done) else StoppedAt(old(View()), ops, done)
    {
      ghost var s, ops := View(), UpdateOps(reqs, lens, numPrefill, contextLens);
      assert At(s, ops, 0);
      hide At, StoppedAt;
      ok, done := AllocateAll(reqs, lens, numPrefill, s, ops);
      if ok {
        ok, done := AppendAll(reqs, contextLens, s, ops, numPrefill);
      }
    }

    /** The widest block list; false where a request has none. */
    method WidestTable(reqs: seq<int>) returns (ok: bool, m: nat)
      ensures ok <==> forall i :: 0 <= i < |reqs| ==> reqs[i] in tables
      ensures ok ==> m == Stride(tables, reqs)
    {
      m := 0;
      for i := 0 to |reqs|
        invariant forall k :: 0 <= k < i ==> reqs[k] in tables
        invariant m == Stride(tables, reqs[..i])
      {
        if reqs[i] !in tables {
          return false, 0;
        }
        assert reqs[..i + 1][..i] == reqs[..i];
        if |tables[reqs[i]]| > m {
          m := |tables[reqs[i]]|;
        }
      }
      assert reqs[..|reqs|] == reqs;
      ok := true;
    }

    /** The flat table of a batch: one padded row per request, then the slot of each request's last token. */
    method PrepareBlockTable(reqs: seq<int>, lens: seq<int>) returns (ok: bool, flat: seq<int>)
      requires blockSize > 0 && |reqs| <= |lens|
      requires (forall i :: 0 <= i < |reqs| ==> reqs[i] in tables) ==>
        forall i :: 0 <= i < |reqs| ==>
          0 <= LookupAt(i, lens[i], Stride(tables, reqs), blockSize) < |reqs| * Stride(tables, reqs) + |reqs|
      ensures ok <==> forall i :: 0 <= i < |reqs| ==> reqs[i] in tables
      ensures ok ==>
        var m := Stride(tables, reqs);
        var rows := FlatRows(tables, reqs, m);
        flat == rows + MappedSlots(rows, lens, |reqs|, m, blockSize)
    {
      hide Stride, FlatRows, MappedSlots, LookupAt;
      var m;
      ok, m := WidestTable(reqs);
      if !ok {
        return false, [];
      }
      var n := |reqs|;
      var table := new int[n * m + n](_ => -1);
      FillRows(table, reqs, m);
      FillSlots(table, reqs, lens, m);
      flat := table[..];
    }

    /** Copy one block list to the start of its row. */
    method FillRow(table: array<int>, at: nat, list: seq<nat>, ghost rows: seq<int>, ghost rest: nat)
      requires |rows| == at && at + |list| <= at + rest == table.Length && table[..] == rows + Fill(rest)
      modifies table
      ensures table[..] == rows + list + Fill(rest - |list|)
    {
      for j := 0 to |list|
        invariant table[..] == rows + list[..j] + Fill(rest - j)
      {
        table[at + j] := list[j];
      }
    }

    method FillRows(table: array<int>, reqs: seq<int>, m: nat)
      requires forall i :: 0 <= i < |reqs| ==> reqs[i] in tables && |tables[reqs[i]]| <= m
      requires table.Length == |reqs| * m + |reqs| && table[..] == Fill(table.Length)
      modifies table
      ensures table[..] == FlatRows(tables, reqs, m) + Fill(|reqs|)
    {
      hide Fill, PaddedRow, FlatRows;
      var n := |reqs|;
      NoRows(tables, reqs, m, table.Length);
      for i := 0 to n
        invariant i * m + n <= table.Length
        invariant table[..] == FlatRows(tables, reqs[..i], m) + Fill(table.Length - i * m)
      {
        var list := tables[reqs[i]];
        NextRow(tables, reqs, m, i);
        RowFits(i, n, m);
        ghost var rows, rest := FlatRows(tables, reqs[..i], m), table.Length - i * m;
        FillRow(table, i * m, list, rows, rest);
        RowPadded(rows, list, m, rest);
      }
      assert reqs[..n] == reqs;
    }

    method FillSlots(table: array<int>, reqs: seq<int>, lens: seq<int>, m: nat)
      requires blockSize > 0 && |reqs| <= |lens|
      requires forall i :: 0 <= i < |reqs| ==> reqs[i] in tables && |tables[reqs[i]]| <= m
      requires forall i :: 0 <= i < |reqs| ==> 0 <= LookupAt(i, lens[i], m, blockSize) < |reqs| * m + |reqs|
      requires table[..] == FlatRows(tables, reqs, m) + Fill(|reqs|)
      modifies table
      ensures var rows := FlatRows(tables, reqs, m);
        table[..] == rows + MappedSlots(rows, lens, |reqs|, m, blockSize)
    {
      var n := |reqs|;
      ghost var rows := FlatRows(tables, reqs, m);
      hide FlatRows, MappedSlots;
      NoSlots(rows, lens, m, blockSize);
      for i := 0 to n
        invariant table[..] == rows + MappedSlots(rows, lens, i, m, blockSize) + Fill(n - i)
      {
        ghost var slots := MappedSlots(rows, lens, i, m, blockSize);
        var lastIdx := lens[i] - 1;
        var block, offset := Quot(lastIdx, blockSize), Rem(lastIdx, blockSize);
        MappedSlotAt(rows, lens, i + 1, m, blockSize, i);
        var at := i * m + block;
        assert at == LookupAt(i, lens[i], m, blockSize);
        assert table[..][at] == EntryAt(rows, slots, at);
        table[n * m + i] := table[at] * blockSize + offset;
        ghost var next := MappedSlots(rows, lens, i + 1, m, blockSize);
        assert next == next[..i] + [next[i]];
      }
    }
  }

  lemma NoSlots(rows: seq<int>, lens: seq<int>, m: nat, b: nat)
    requires b > 0
    ensures MappedSlots(rows, lens, 0, m, b) == []
  {
  }
}
