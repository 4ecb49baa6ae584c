/** One simulated GPU as the simulator writes it: an object whose queues and cached total are updated in place. */
module AsyncWorker {
  import opened Prelude
  import opened LayerPolicy
  import opened AsyncModel

  class ExpertWorker {
    var queues: seq<seq<seq<Token>>>
    var total: int
    var attentionQueue: seq<Job>
    var hasWork: bool
    var phase: Phase

    ghost function View(): Worker
      reads this
    {
      Worker(queues, total, attentionQueue, hasWork, phase)
    }

    constructor (c: Config)
      ensures View() == EmptyWorker(c)
    {
      queues := seq(c.numLayers, l => seq(c.queuesPerWorker, q => []));
      total := 0;
      attentionQueue := [];
      hasWork := false;
      phase := LoopTop;
    }

    method Enqueue(layer: nat, q: nat, t: Token)
      requires layer < |queues| && q < |queues[layer]|
      modifies this
      ensures View() == EnqueueExpert(old(View()), layer, q, t)
    {
      var wasEmpty := total == 0 && attentionQueue == [];
      queues := queues[layer := queues[layer][q := queues[layer][q] + [t]]];
      total := total + 1;
      if wasEmpty && !hasWork {
        hasWork := true;
      }
    }

    method PutAttention(layer: nat, t: Token)
      modifies this
      ensures View() == EnqueueAttention(old(View()), layer, t)
    {
      var wasEmpty := total == 0 && attentionQueue == [];
      attentionQueue := attentionQueue + [(layer, t)];
      if wasEmpty && !hasWork {
        hasWork := true;
      }
    }

    method CountLayers() returns (totals: seq<nat>)
      ensures totals == LayerTotals(queues)
    {
      totals := [];
      for layer := 0 to |queues|
        invariant totals == LayerTotals(queues)[..layer]
      {
        var sum: nat := 0;
        var qs := queues[layer];
        for j := 0 to |qs|
          invariant sum == NatSum(qs[..j], SeqLen)
        {
          sum := sum + |qs[j]|;
          assert qs[..j + 1] == qs[..j] + [qs[j]];
          NatSumAppend(qs[..j], qs[j], SeqLen);
        }
        assert qs[..|qs|] == qs;
        totals := totals + [sum];
      }
    }

    /** The layer with the most queued tokens. */
    method SelectNextLayerLongestFirst() returns (best: Option<nat>, score: real)
      ensures (best, score) == BestLayer(LongestQueueFirst, LayerTotals(queues))
    {
      best, score := None, 0.0;
      var totals := CountLayers();
      for layer := 0 to |totals|
        invariant (best, score) == BestBelow(LongestQueueFirst, totals, layer)
      {
        if totals[layer] as real > score {
          best, score := Some(layer), totals[layer] as real;
        }
      }
    }

    /** A layer's own load plus the decayed load of the layers after it. */
    method ScoreLayer(totals: seq<nat>, i: nat) returns (s: real)
      requires i < |totals|
      ensures s == LayerScore(DefraggingV0, totals, i)
    {
      if totals[i] == 0 {
        return 0.0;
      }
      var ahead := 0.0;
      var decay := WEIGHT_DECAY;
      hide Lookahead, Ahead;
      for k := 1 to LOOKAHEAD_STEPS
        invariant ahead + Lookahead(totals, i, k, decay) == Lookahead(totals, i, 1, WEIGHT_DECAY)
      {
        LookaheadOne(totals, i, k, decay);
        var load := totals[(i + k) % |totals|];
        ahead := ahead + Ahead(load, decay);
        decay := decay * WEIGHT_DECAY;
      }
      LookaheadDone(totals, i, decay);
      s := totals[i] as real + ahead;
    }

    method SelectNextLayerDefragging() returns (best: Option<nat>, score: real)
      ensures (best, score) == BestLayer(DefraggingV0, LayerTotals(queues))
    {
      hide LayerScore, LayerTotals;
      best, score := None, 0.0;
      var totals := CountLayers();
      for i := 0 to |totals|
        invariant (best, score) == BestBelow(DefraggingV0, totals, i)
      {
        var s := ScoreLayer(totals, i);
        if s > score {
          best, score := Some(i), s;
        }
      }
    }

    method SelectNextTask(c: Config) returns (task: Task)
      ensures task == SelectTask(c, View())
    {
      hide BestLayer, LayerTotals;
      var attentionScore := if attentionQueue != [] then |attentionQueue| as real * c.topK as real else 0.0;
      var best, score;
      if c.policy.DefraggingV0? {
        best, score := SelectNextLayerDefragging();
      } else {
        best, score := SelectNextLayerLongestFirst();
      }
      if attentionQueue != [] && (best.None? || attentionScore > score) {
        task := AttentionTask;
      } else {
        task := ExpertTask(best);
      }
    }

    /** Pop one local queue into a batch until the batch is full or the queue empty. */
    method PopQueue(layer: nat, j: nat, start: seq<Token>, limit: nat) returns (batch: seq<Token>)
      requires layer < |queues| && j < |queues[layer]| && |start| <= limit
      modifies this`queues, this`total
      ensures var q := old(queues[layer][j]);
        var k := Min(|q|, limit - |start|);
        && batch == start + q[..k]
        && queues == old(queues)[layer := old(queues[layer])[j := q[k..]]]
        && total == old(total) - k
    {
      batch := start;
      ghost var q := queues[layer][j];
      ghost var taken := 0;
      while queues[layer][j] != [] && |batch| < limit
        invariant |queues| == |old(queues)| && |queues[layer]| == |old(queues[layer])|
        invariant taken <= Min(|q|, limit - |start|) && batch == start + q[..taken]
        invariant queues[layer] == old(queues[layer])[j := q[taken..]]
        invariant queues == old(queues)[layer := queues[layer]]
        invariant total == old(total) - taken
        decreases |queues[layer][j]|
      {
        var front := queues[layer][j];
        batch := batch + [front[0]];
        queues := queues[layer := queues[layer][j := front[1..]]];
        total := total - 1;
        taken := taken + 1;
      }
    }

    /** Move tokens of one layer into a batch, queue after queue, until the batch is full or the layer empty. */
    method FormBatch(layer: nat, limit: nat) returns (batch: seq<Token>)
      requires layer < |queues|
      modifies this`queues, this`total
      ensures var (b, rest) := Drain(old(queues[layer]), limit);
        batch == b && queues == old(queues)[layer := rest] && total == old(total) - |b|
    {
      hide Drain;
      batch := [];
      ghost var qs := queues[layer];
      ghost var n := |qs|;
      var j := 0;
      assert [] + Drain(qs, limit).0 == Drain(qs, limit).0;
      assert queues[layer][..0] + Drain(qs, limit).1 == Drain(qs, limit).1;
      assert qs[0..] == qs;
      while j < |queues[layer]|
        invariant j <= n && |queues| == |old(queues)| && |queues[layer]| == n && |batch| <= limit
        invariant queues == old(queues)[layer := queues[layer]]
        invariant queues[layer][j..] == qs[j..]
        invariant var (b, rest) := Drain(qs[j..], limit - |batch|);
          Drain(qs, limit) == (batch + b, queues[layer][..j] + rest)
        invariant total == old(total) - |batch|
      {
        assert queues[layer][j] == queues[layer][j..][0] == qs[j..][0];
        ghost var before, done := batch, queues[layer][..j];
        batch := PopQueue(layer, j, batch, limit);
        DrainHead(qs[j..], limit - |before|, |batch| - |before|);
        assert qs[j..][1..] == qs[j + 1..];
        ghost var (b, rest) := Drain(qs[j + 1..], limit - |batch|);
        assert before + (qs[j][..|batch| - |before|] + b) == batch + b;
        assert done + ([queues[layer][j]] + rest) == queues[layer][..j + 1] + rest;
        j := j + 1;
      }
      DrainNothing(limit - |batch|);
      assert qs[n..] == [];
      assert queues[layer][..n] + [] == queues[layer] && batch + [] == batch;
    }

    /** From the top of the loop: sleep on a fresh event, or take a task. */
    method RunLoopTop(c: Config)
      modifies this
      ensures View() == LoopPass(c, old(View()))
    {
      if total == 0 && attentionQueue == [] {
        hasWork := false;
        phase := Asleep;
      } else {
        RunTask(c);
      }
    }

    /** Take the next task, up to the point where the loop waits for it. */
    method RunTask(c: Config)
      modifies this
      ensures View() == TakeTask(c, old(View()))
    {
      var task := SelectNextTask(c);
      match task
      case AttentionTask =>
        var job := attentionQueue[0];
        attentionQueue := attentionQueue[1..];
        phase := Attending(job.0, job.1);
      case ExpertTask(best) =>
        if best.None? {
          phase := LoopTop;
        } else {
          var batch := FormBatch(best.value, c.maxBatch);
          phase := if batch == [] then LoopTop else Computing(best.value, batch);
        }
    }
  }

  /** How much the first queue gives: all it has, or as much as fits. */
  lemma DrainHead(qs: seq<seq<Token>>, room: nat, taken: nat)
    requires |qs| > 0 && taken <= |qs[0]| && taken <= room && (taken == |qs[0]| || taken == room)
    ensures var (b, rest) := Drain(qs[1..], room - taken);
      Drain(qs, room) == (qs[0][..taken] + b, [qs[0][taken..]] + rest)
  {
  }

  lemma DrainNothing(room: nat)
    ensures Drain([], room) == ([], [])
  {
  }
}
