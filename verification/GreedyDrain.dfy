/**
 * One expert worker's compute time: drain the longest queue first, in batches of at most M tokens.
 */
module GreedyDrain {
  import opened Prelude

  // ------------------------------------------------------------- closed form

  /** The time of one queue alone: full batches, and one of the remainder. */
  ghost function QueueTime(load: nat, m: nat, time: seq<real>): real
    requires 1 <= m < |time|
  {
    (load / m) as real * time[m] + if load % m != 0 then time[load % m] else 0.0
  }

  ghost function QueueBatches(load: nat, m: nat): nat
    requires m >= 1
  {
    load / m + if load % m != 0 then 1 else 0
  }

  ghost function TotalTime(loads: seq<nat>, m: nat, time: seq<real>): real
    requires 1 <= m < |time|
  {
    if |loads| == 0 then 0.0 else QueueTime(loads[0], m, time) + TotalTime(loads[1..], m, time)
  }

  ghost function TotalBatches(loads: seq<nat>, m: nat): nat
    requires m >= 1
  {
    NatSum(loads, load => QueueBatches(load, m))
  }

  ghost function TotalLoad(loads: seq<nat>): nat {
    NatSum<nat>(loads, load => load)
  }

  /** The order of the queues does not matter: swapping two leaves time and batch count alone. */
  lemma {:induction false} OrderIndependent(loads: seq<nat>, i: nat, j: nat, m: nat, time: seq<real>)
    requires 1 <= m < |time| && i < |loads| && j < |loads|
    ensures var swapped := loads[i := loads[j]][j := loads[i]];
      TotalTime(swapped, m, time) == TotalTime(loads, m, time) && TotalBatches(swapped, m) == TotalBatches(loads, m)
  {
    var once := loads[i := loads[j]];
    TimeUpdate(loads, i, loads[j], m, time);
    TimeUpdate(once, j, loads[i], m, time);
    NatSumUpdate<nat>(loads, i, loads[j], load => QueueBatches(load, m));
    NatSumUpdate<nat>(once, j, loads[i], load => QueueBatches(load, m));
  }

  lemma {:induction false} TimeUpdate(loads: seq<nat>, i: nat, load: nat, m: nat, time: seq<real>)
    requires 1 <= m < |time| && i < |loads|
    ensures TotalTime(loads[i := load], m, time) + QueueTime(loads[i], m, time)
         == TotalTime(loads, m, time) + QueueTime(load, m, time)
  {
    hide QueueTime;
    var us := loads[i := load];
    if i == 0 {
      assert us[1..] == loads[1..];
    } else {
      assert us[1..] == loads[1..][i - 1 := load];
      TimeUpdate(loads[1..], i - 1, load, m, time);
    }
  }

  lemma FullBatch(load: nat, m: nat)
    requires m >= 1 && load >= m
    ensures load / m == (load - m) / m + 1 && load % m == (load - m) % m
  {
    DivMod(load, m);
    DivMod(load - m, m);
    assert ((load - m) / m + 1) * m == (load - m) / m * m + m;
    PairUnique(load / m, load % m, (load - m) / m + 1, (load - m) % m, m);
  }

  /** One batch off a queue takes its own time off the closed form. */
  lemma {:induction false} BatchOff(load: nat, m: nat, time: seq<real>)
    requires 1 <= m < |time| && load > 0
    ensures var b := Min(load, m);
      && 1 <= b <= m
      && QueueTime(load, m, time) == time[b] + QueueTime(load - b, m, time)
      && QueueBatches(load, m) == 1 + QueueBatches(load - b, m)
  {
    if load >= m {
      FullBatch(load, m);
      var q := (load - m) / m;
      assert (q + 1) as real * time[m] == q as real * time[m] + time[m];
    } else {
      assert load / m == 0 && load % m == load;
    }
  }

  lemma {:induction false} NothingLoaded(loads: seq<nat>, m: nat, time: seq<real>)
    requires 1 <= m < |time|
    ensures TotalLoad(loads) == 0 ==> TotalTime(loads, m, time) == 0.0 && TotalBatches(loads, m) == 0
  {
    if |loads| > 0 {
      NothingLoaded(loads[1..], m, time);
    }
  }

  lemma SomethingLoaded(loads: seq<nat>)
    ensures TotalLoad(loads) > 0 <==> exists i :: 0 <= i < |loads| && loads[i] > 0
  {
    NatSumZero<nat>(loads, load => load);
  }

  // -------------------------------------------------------------- simulation

  class Worker {
    const maxBatch: nat
    const time: seq<real>
    var totalBatchSize: nat
    var totalBatchCount: nat

    constructor (maxBatch: nat, time: seq<real>)
      ensures this.maxBatch == maxBatch && this.time == time && totalBatchSize == 0 && totalBatchCount == 0
    {
      this.maxBatch, this.time, totalBatchSize, totalBatchCount := maxBatch, time, 0, 0;
    }

    /** The first queue of maximal length. */
    static method Longest(queues: seq<nat>) returns (best: nat)
      requires |queues| > 0
      ensures best < |queues| && forall i :: 0 <= i < |queues| ==> queues[i] <= queues[best]
      ensures forall i :: 0 <= i < best ==> queues[i] < queues[best]
    {
      best := 0;
      for i := 1 to |queues|
        invariant best < i && forall k :: 0 <= k < i ==> queues[k] <= queues[best]
        invariant forall k :: 0 <= k < best ==> queues[k] < queues[best]
      {
        if queues[i] > queues[best] {
          best := i;
        }
      }
    }

    /**
     * Drain the longest queue first. The time, the number of batches and the tokens recorded are those of the closed
     * form, and no batch is larger than one before it.
     */
    method SimulateComputeTime(loads: seq<nat>) returns (elapsed: real, ghost batches: seq<nat>)
      requires 1 <= maxBatch < |time|
      modifies this
      ensures elapsed == TotalTime(loads, maxBatch, time)
      ensures totalBatchSize == old(totalBatchSize) + TotalLoad(loads)
      ensures totalBatchCount == old(totalBatchCount) + TotalBatches(loads, maxBatch) == old(totalBatchCount) + |batches|
      ensures forall i, j :: 0 <= i < j < |batches| ==> maxBatch >= batches[i] >= batches[j] > 0
    {
      var total := SumLoads(loads);
      var queues: seq<nat> := loads;
      elapsed, batches := 0.0, [];
      NothingLoaded(loads, maxBatch, time);
      while total > 0
        invariant |queues| == |loads| && total == TotalLoad(queues)
        invariant elapsed + TotalTime(queues, maxBatch, time) == TotalTime(loads, maxBatch, time)
        invariant totalBatchSize + total == old(totalBatchSize) + TotalLoad(loads)
        invariant totalBatchCount + TotalBatches(queues, maxBatch) == old(totalBatchCount) + TotalBatches(loads, maxBatch)
        invariant totalBatchCount == old(totalBatchCount) + |batches|
        invariant forall i, k :: 0 <= i < |batches| && 0 <= k < |queues| ==> Min(queues[k], maxBatch) <= batches[i]
        invariant forall i, j :: 0 <= i < j < |batches| ==> maxBatch >= batches[i] >= batches[j] > 0
        invariant forall i :: 0 <= i < |batches| ==> maxBatch >= batches[i] > 0
      {
        SomethingLoaded(queues);
        var q := Longest(queues);
        var available := queues[q];
        if available <= 0 {
          break;
        }
        var batch := Min(available, maxBatch);
        BatchOff(available, maxBatch, time);
        TakeBatch(queues, q, batch, maxBatch, time);
        queues := queues[q := available - batch];
        total := total - batch;
        totalBatchSize := totalBatchSize + batch;
        totalBatchCount := totalBatchCount + 1;
        elapsed := elapsed + time[batch];
        batches := batches + [batch];
      }
      NothingLoaded(queues, maxBatch, time);
    }
  }

  lemma TakeBatch(queues: seq<nat>, q: nat, batch: nat, m: nat, time: seq<real>)
    requires 1 <= m < |time| && q < |queues| && batch <= queues[q]
    ensures var left := queues[q := queues[q] - batch];
      && TotalLoad(left) + batch == TotalLoad(queues)
      && TotalTime(left, m, time) + QueueTime(queues[q], m, time)
         == TotalTime(queues, m, time) + QueueTime(queues[q] - batch, m, time)
      && TotalBatches(left, m) + QueueBatches(queues[q], m) == TotalBatches(queues, m) + QueueBatches(queues[q] - batch, m)
  {
    NatSumUpdate<nat>(queues, q, queues[q] - batch, load => load);
    NatSumUpdate<nat>(queues, q, queues[q] - batch, load => QueueBatches(load, m));
    TimeUpdate(queues, q, queues[q] - batch, m, time);
  }

  method SumLoads(loads: seq<nat>) returns (total: nat)
    ensures total == TotalLoad(loads)
  {
    total := 0;
    assert loads[..0] == [];
    for i := 0 to |loads|
      invariant total == TotalLoad(loads[..i])
    {
      assert loads[..i + 1] == loads[..i] + [loads[i]];
      NatSumAppend<nat>(loads[..i], loads[i], load => load);
      total := total + loads[i];
    }
    assert loads[..|loads|] == loads;
  }
}
