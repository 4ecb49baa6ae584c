/** The token bucket that paces generated traffic: refills by elapsed time, consumption per message, changing rates. */
module TokenBucket {
  import opened Prelude

  const NS: real := 1.0 / 1000000000.0
  const BURST: real := 1048576.0
  const RATE_EPSILON: real := 1.0

  // ---------------------------------------------------------- specification

  datatype Bucket = Bucket(tokens: real, rate: real, last: nat, burst: real)

  datatype Op =
    | SetRate(rate: real)
    | Refill(now: nat)
    | TryConsume(now: nat, bytes: nat)

  function Min(a: real, b: real): real {
    if a > b then b else a
  }

  ghost function Elapsed(from: nat, to: nat): real {
    (to as real - from as real) * NS
  }

  /** The bytes a rate allows over some time. */
  ghost function Earned(from: nat, to: nat, rate: real): real {
    Elapsed(from, to) * rate
  }

  ghost function Refilled(b: Bucket, now: nat): Bucket {
    b.(tokens := Min(b.tokens + Earned(b.last, now, b.rate), b.burst), last := now)
  }

  ghost function Apply(b: Bucket, op: Op): Bucket {
    match op
    case SetRate(rate) => b.(rate := rate)
    case Refill(now) => Refilled(b, now)
    case TryConsume(now, bytes) =>
      var r := Refilled(b, now);
      if r.tokens >= bytes as real then r.(tokens := r.tokens - bytes as real) else r
  }

  /** The bytes an operation consumes. */
  ghost function Used(b: Bucket, op: Op): nat {
    if op.TryConsume? && Refilled(b, op.now).tokens >= op.bytes as real then op.bytes else 0
  }

  /** Clocks do not run backwards and rates are not negative. */
  ghost predicate Allowed(b: Bucket, op: Op) {
    match op
    case SetRate(rate) => rate >= 0.0
    case Refill(now) => now >= b.last
    case TryConsume(now, _) => now >= b.last
  }

  ghost function Run(b: Bucket, ops: seq<Op>): Bucket {
    if |ops| == 0 then b else Apply(Run(b, ops[..|ops| - 1]), ops[|ops| - 1])
  }

  ghost predicate AllAllowed(b: Bucket, ops: seq<Op>) {
    |ops| == 0 || (AllAllowed(b, ops[..|ops| - 1]) && Allowed(Run(b, ops[..|ops| - 1]), ops[|ops| - 1]))
  }

  ghost function TotalUsed(b: Bucket, ops: seq<Op>): nat {
    if |ops| == 0 then 0
    else TotalUsed(b, ops[..|ops| - 1]) + Used(Run(b, ops[..|ops| - 1]), ops[|ops| - 1])
  }

  ghost predicate Valid(b: Bucket) {
    0.0 <= b.tokens <= b.burst && b.rate >= 0.0
  }

  /** No rate in force exceeds top. */
  ghost predicate RatesBelow(b: Bucket, ops: seq<Op>, top: real) {
    b.rate <= top && forall i :: 0 <= i < |ops| && ops[i].SetRate? ==> ops[i].rate <= top
  }

  lemma AppendOp(b: Bucket, ops: seq<Op>, op: Op, top: real)
    ensures Run(b, ops + [op]) == Apply(Run(b, ops), op)
    ensures AllAllowed(b, ops + [op]) == (AllAllowed(b, ops) && Allowed(Run(b, ops), op))
    ensures TotalUsed(b, ops + [op]) == TotalUsed(b, ops) + Used(Run(b, ops), op)
    ensures RatesBelow(b, ops, top) && (op.SetRate? ==> op.rate <= top) ==> RatesBelow(b, ops + [op], top)
  {
    hide Apply, Used;
    assert (ops + [op])[..|ops|] == ops;
  }

  lemma NoOps(b: Bucket)
    ensures Run(b, []) == b && AllAllowed(b, []) && TotalUsed(b, []) == 0
  {
  }

  lemma Product(a: real, b: real)
    requires a >= 0.0 && b >= 0.0
    ensures a * b >= 0.0
  {
  }

  lemma ProductMonotone(a: real, b: real, c: real)
    requires a >= 0.0 && b <= c
    ensures a * b <= a * c
  {
    Product(a, c - b);
    assert a * (c - b) == a * c - a * b;
  }

  lemma StepValid(b: Bucket, op: Op)
    requires Valid(b) && Allowed(b, op)
    ensures Valid(Apply(b, op)) && Apply(b, op).burst == b.burst && Apply(b, op).last >= b.last
  {
    if !op.SetRate? {
      Product(op.now as real - b.last as real, NS);
      Product(Elapsed(b.last, op.now), b.rate);
    }
  }

  /** The bucket never overflows and never goes into debt, whatever is refilled, consumed or re-rated. */
  lemma {:induction false} RunValid(b: Bucket, ops: seq<Op>)
    requires Valid(b) && AllAllowed(b, ops)
    ensures Valid(Run(b, ops)) && Run(b, ops).burst == b.burst && Run(b, ops).last >= b.last
  {
    if |ops| > 0 {
      RunValid(b, ops[..|ops| - 1]);
      StepValid(Run(b, ops[..|ops| - 1]), ops[|ops| - 1]);
    }
  }

  lemma StepBound(b: Bucket, op: Op, top: real)
    requires Valid(b) && Allowed(b, op) && b.rate <= top
    ensures Used(b, op) as real + Apply(b, op).tokens <= b.tokens + top * Elapsed(b.last, Apply(b, op).last)
  {
    if !op.SetRate? {
      Product(op.now as real - b.last as real, NS);
      ProductMonotone(Elapsed(b.last, op.now), b.rate, top);
    } else {
      assert Elapsed(b.last, b.last) == 0.0;
    }
  }

  lemma {:induction false} RunRate(b: Bucket, ops: seq<Op>, top: real)
    requires RatesBelow(b, ops, top)
    ensures Run(b, ops).rate <= top
  {
    if |ops| > 0 {
      RunRate(b, ops[..|ops| - 1], top);
    }
  }

  /** What was consumed, and what is left, is covered by what was there and the largest rate for the time between. */
  lemma {:induction false} RunBound(b: Bucket, ops: seq<Op>, top: real)
    requires Valid(b) && AllAllowed(b, ops) && RatesBelow(b, ops, top)
    ensures TotalUsed(b, ops) as real + Run(b, ops).tokens <= b.tokens + top * Elapsed(b.last, Run(b, ops).last)
  {
    hide Apply, Used, Elapsed, Allowed;
    if |ops| == 0 {
      ElapsedZero(b.last, top);
    } else {
      var n := |ops| - 1;
      var mid := Run(b, ops[..n]);
      RunBound(b, ops[..n], top);
      RunValid(b, ops[..n]);
      RunRate(b, ops[..n], top);
      StepBound(mid, ops[n], top);
      ElapsedAdds(b.last, mid.last, Run(b, ops).last, top);
    }
  }

  lemma ElapsedZero(a: nat, top: real)
    ensures top * Elapsed(a, a) == 0.0
  {
    assert Elapsed(a, a) == 0.0;
  }

  lemma ElapsedAdds(a: nat, b: nat, c: nat, top: real)
    ensures top * Elapsed(a, c) == top * Elapsed(a, b) + top * Elapsed(b, c)
  {
    assert Elapsed(a, c) == Elapsed(a, b) + Elapsed(b, c);
  }

  /** Between any two refills at most the burst plus the largest rate in force times the elapsed time is consumed. */
  lemma {:induction false} ConsumptionBound(b: Bucket, ops: seq<Op>, top: real)
    requires Valid(b) && AllAllowed(b, ops) && RatesBelow(b, ops, top)
    ensures TotalUsed(b, ops) as real <= b.burst + top * Elapsed(b.last, Run(b, ops).last)
  {
    RunBound(b, ops, top);
    RunValid(b, ops);
  }

  // ------------------------------------------------- what rates really pay for

  /** An operation, and when it takes place. */
  datatype Timed = Timed(op: Op, at: nat)

  ghost function Ops(ops: seq<Timed>): (r: seq<Op>)
    ensures |r| == |ops|
  {
    seq(|ops|, i requires 0 <= i < |ops| => ops[i].op)
  }

  /** The state after the first i operations. */
  ghost function After(b: Bucket, ops: seq<Timed>, i: nat): Bucket
    requires i <= |ops|
  {
    Run(b, Ops(ops[..i]))
  }

  ghost function Clock(b: Bucket, ops: seq<Timed>, i: nat): nat
    requires i <= |ops|
  {
    if i == 0 then b.last else ops[i - 1].at
  }

  /** Operations in the order of time; refills and consumes read the clock, and rates are not negative. */
  ghost predicate Stamped(b: Bucket, ops: seq<Timed>) {
    forall i :: 0 <= i < |ops| ==>
      && Clock(b, ops, i) <= ops[i].at
      && match ops[i].op
         case SetRate(rate) => rate >= 0.0
         case Refill(now) => now == ops[i].at
         case TryConsume(now, _) => now == ops[i].at
  }

  /** The tokens a refill at some time would leave. */
  ghost function Credit(b: Bucket, now: nat): real {
    Refilled(b, now).tokens
  }

  /** The bytes the rates in force allow over the first i operations, window by window. */
  ghost function RateIntegral(b: Bucket, ops: seq<Timed>, i: nat): real
    requires i <= |ops|
  {
    if i == 0 then 0.0
    else
      RateIntegral(b, ops, i - 1) + Earned(Clock(b, ops, i - 1), Clock(b, ops, i), After(b, ops, i - 1).rate)
  }

  /** Bytes consumed so far and credit left, less the bytes the rates in force allowed. */
  ghost function Balance(b: Bucket, ops: seq<Timed>, i: nat): real
    requires i <= |ops|
  {
    TotalUsed(b, Ops(ops[..i])) as real + Credit(After(b, ops, i), Clock(b, ops, i)) - RateIntegral(b, ops, i)
  }

  /** What a caller can check before a change: the rate falls, the bucket was just refilled, or it is full by now. */
  ghost predicate SafeChange(b: Bucket, rate: real, at: nat) {
    rate <= b.rate || b.last == at || b.tokens + Earned(b.last, at, b.rate) >= b.burst
  }

  ghost predicate Safe(b: Bucket, op: Timed) {
    op.op.SetRate? ==> SafeChange(b, op.op.rate, op.at)
  }

  /** Over every stretch of the run, what is consumed and left is within the credit before and what the rates allow. */
  ghost predicate WithinRates(b: Bucket, ops: seq<Timed>) {
    forall i, j :: 0 <= i <= j <= |ops| ==> Balance(b, ops, j) <= Balance(b, ops, i)
  }

  lemma TimedStep(b: Bucket, ops: seq<Timed>, i: nat)
    requires i < |ops|
    ensures After(b, ops, i + 1) == Apply(After(b, ops, i), ops[i].op)
    ensures TotalUsed(b, Ops(ops[..i + 1])) == TotalUsed(b, Ops(ops[..i])) + Used(After(b, ops, i), ops[i].op)
  {
    assert Ops(ops[..i + 1]) == Ops(ops[..i]) + [ops[i].op];
    AppendOp(b, Ops(ops[..i]), ops[i].op, 0.0);
  }

  lemma {:induction false} TimedValid(b: Bucket, ops: seq<Timed>, i: nat)
    requires Valid(b) && Stamped(b, ops) && i <= |ops|
    ensures Valid(After(b, ops, i)) && After(b, ops, i).last <= Clock(b, ops, i)
  {
    if i > 0 {
      TimedValid(b, ops, i - 1);
      TimedStep(b, ops, i - 1);
      StepValid(After(b, ops, i - 1), ops[i - 1].op);
    }
  }

  lemma EarnedAdds(a: nat, b: nat, c: nat, rate: real)
    requires a <= b <= c && rate >= 0.0
    ensures Earned(a, c, rate) == Earned(a, b, rate) + Earned(b, c, rate)
    ensures Earned(a, b, rate) >= 0.0 && Earned(b, c, rate) >= 0.0
  {
    ElapsedAdds(a, b, c, rate);
    Product(b as real - a as real, NS);
    Product(c as real - b as real, NS);
    Product(Elapsed(a, b), rate);
    Product(Elapsed(b, c), rate);
  }

  lemma EarnedNow(a: nat, rate: real)
    ensures Earned(a, a, rate) == 0.0
  {
    ElapsedZero(a, rate);
  }

  lemma EarnedMore(a: nat, b: nat, low: real, high: real)
    requires a <= b
    ensures low <= high ==> Earned(a, b, low) <= Earned(a, b, high)
    ensures a < b && low < high ==> Earned(a, b, low) < Earned(a, b, high)
  {
    Product(b as real - a as real, NS);
    var e := Elapsed(a, b);
    if low <= high {
      ProductMonotone(e, low, high);
    }
    if a < b && low < high {
      assert e > 0.0 && e * (high - low) > 0.0;
      assert e * (high - low) == e * high - e * low;
    }
  }

  /** Setting a rate credits no more than the old rate allows exactly when the change is safe. */
  lemma SetRateWithin(b: Bucket, rate: real, clock: nat, at: nat)
    requires Valid(b) && rate >= 0.0 && b.last <= clock <= at
    ensures Used(b, SetRate(rate)) == 0
    ensures (Credit(Apply(b, SetRate(rate)), at) <= Credit(b, clock) + Earned(clock, at, b.rate))
       <==> SafeChange(b, rate, at)
  {
    hide Earned;
    EarnedAdds(b.last, clock, at, b.rate);
    EarnedMore(b.last, at, rate, b.rate);
    EarnedMore(b.last, at, b.rate, rate);
    EarnedNow(at, b.rate);
    EarnedNow(at, rate);
    CappedIff(b.tokens, b.burst, Earned(b.last, clock, b.rate), Earned(clock, at, b.rate), Earned(b.last, at, rate));
  }

  lemma CappedIff(tokens: real, burst: real, before: real, since: real, credited: real)
    requires before >= 0.0 && since >= 0.0
    ensures (Min(tokens + credited, burst) <= Min(tokens + before, burst) + since)
       <==> credited <= before + since || tokens + (before + since) >= burst
  {
  }

  /** Refilling and consuming stays within the rate. */
  lemma UseWithin(b: Bucket, op: Op, clock: nat, at: nat)
    requires Valid(b) && b.last <= clock <= at
    requires (op.Refill? && op.now == at) || (op.TryConsume? && op.now == at)
    ensures Used(b, op) as real + Credit(Apply(b, op), at) <= Credit(b, clock) + Earned(clock, at, b.rate)
  {
    hide Earned;
    EarnedAdds(b.last, clock, at, b.rate);
    EarnedNow(at, b.rate);
    StepValid(b, op);
    assert Apply(b, op).last == at && Apply(b, op).rate == b.rate;
  }

  lemma BalanceChange(b: Bucket, ops: seq<Timed>, i: nat)
    requires i < |ops|
    ensures var before, clock, at := After(b, ops, i), Clock(b, ops, i), ops[i].at;
      Balance(b, ops, i + 1) - Balance(b, ops, i)
      == Used(before, ops[i].op) as real + Credit(Apply(before, ops[i].op), at)
       - Credit(before, clock) - Earned(clock, at, before.rate)
  {
    hide After, TotalUsed, Credit, Earned, Used, Apply;
    TimedStep(b, ops, i);
  }

  lemma BalanceStep(b: Bucket, ops: seq<Timed>, i: nat)
    requires Valid(b) && Stamped(b, ops) && i < |ops|
    ensures Balance(b, ops, i + 1) <= Balance(b, ops, i) <==> Safe(After(b, ops, i), ops[i])
  {
    hide After, Clock, Credit, SafeChange, Earned, Balance, Used, Apply, Valid;
    TimedValid(b, ops, i);
    BalanceChange(b, ops, i);
    var before, clock, at := After(b, ops, i), Clock(b, ops, i), ops[i].at;
    if ops[i].op.SetRate? {
      SetRateWithin(before, ops[i].op.rate, clock, at);
    } else {
      UseWithin(before, ops[i].op, clock, at);
    }
  }

  /**
   * Window by window, the rates in force bound what is consumed, over every stretch of a run, exactly when every change
   * of rate is safe: it lowers the rate, or comes right after a refill, or finds the bucket full.
   */
  lemma {:induction false} WithinRatesIff(b: Bucket, ops: seq<Timed>)
    requires Valid(b) && Stamped(b, ops)
    ensures WithinRates(b, ops) <==> forall i :: 0 <= i < |ops| ==> Safe(After(b, ops, i), ops[i])
  {
    hide Balance, Safe, After, Stamped, Valid;
    forall i | 0 <= i < |ops|
      ensures Balance(b, ops, i + 1) <= Balance(b, ops, i) <==> Safe(After(b, ops, i), ops[i])
    {
      BalanceStep(b, ops, i);
    }
    if WithinRates(b, ops) {
      forall i | 0 <= i < |ops|
        ensures Safe(After(b, ops, i), ops[i])
      {
        assert Balance(b, ops, i + 1) <= Balance(b, ops, i);
      }
    } else if forall i :: 0 <= i < |ops| ==> Safe(After(b, ops, i), ops[i]) {
      forall i, j | 0 <= i <= j <= |ops|
        ensures Balance(b, ops, j) <= Balance(b, ops, i)
      {
        BalanceFalls(b, ops, i, j);
      }
    }
  }

  lemma {:induction false} BalanceFalls(b: Bucket, ops: seq<Timed>, i: nat, j: nat)
    requires i <= j <= |ops|
    requires forall k :: 0 <= k < |ops| ==> Balance(b, ops, k + 1) <= Balance(b, ops, k)
    ensures Balance(b, ops, j) <= Balance(b, ops, i)
  {
    hide Balance;
    if i < j {
      BalanceFalls(b, ops, i, j - 1);
      assert Balance(b, ops, (j - 1) + 1) <= Balance(b, ops, j - 1);
    }
  }

  /** So without an unsafe change, all bytes consumed are within the tokens at the start and what the rates allow. */
  lemma WindowBound(b: Bucket, ops: seq<Timed>)
    requires Valid(b) && Stamped(b, ops)
    requires forall i :: 0 <= i < |ops| ==> Safe(After(b, ops, i), ops[i])
    ensures TotalUsed(b, Ops(ops)) as real <= b.tokens + RateIntegral(b, ops, |ops|)
  {
    hide After, Clock, Credit, RateIntegral, Earned, TotalUsed, Stamped, Safe, Ops, Valid;
    WithinRatesIff(b, ops);
    TimedValid(b, ops, |ops|);
    StartBalance(b, ops);
    CreditNotNegative(After(b, ops, |ops|), Clock(b, ops, |ops|));
    assert ops[..|ops|] == ops;
    assert Balance(b, ops, |ops|) <= Balance(b, ops, 0);
  }

  lemma CreditNotNegative(b: Bucket, now: nat)
    requires Valid(b) && b.last <= now
    ensures Credit(b, now) >= 0.0
  {
    EarnedAdds(b.last, now, now, b.rate);
    hide Earned;
  }

  lemma StartBalance(b: Bucket, ops: seq<Timed>)
    requires Valid(b)
    ensures Balance(b, ops, 0) == b.tokens
  {
    assert Ops(ops[..0]) == [];
    NoOps(b);
    EarnedNow(b.last, b.rate);
    hide Run, TotalUsed, Earned;
  }

  /** A window of a second at 1310720 bytes a second, an idle window, and the first rate again. */
  ghost function IdleRun(): seq<Timed> {
    [Timed(TryConsume(0, 1048576), 0), Timed(TryConsume(800000000, 1048576), 800000000),
     Timed(SetRate(0.0), 1000000000), Timed(SetRate(1310720.0), 2000000000),
     Timed(TryConsume(2000000000, 1048576), 2000000000)]
  }

  /** Time spent idle is credited at the rate that follows, so three bursts leave where the rates allow 2.25. */
  lemma {:induction false} IdleTimeEarnsNextRate(b: Bucket)
    requires b == Bucket(BURST, 1310720.0, 0, BURST)
    ensures Valid(b) && Stamped(b, IdleRun()) && !Safe(After(b, IdleRun(), 3), IdleRun()[3])
    ensures TotalUsed(b, Ops(IdleRun())) == 3145728
    ensures b.tokens + RateIntegral(b, IdleRun(), 5) == 2359296.0
  {
    hide After, RateIntegral, TotalUsed, Ops, Earned;
    IdleStates(b, IdleRun());
    IdleIntegral(b, IdleRun());
    OneSecond();
    assert IdleRun()[..5] == IdleRun();
  }

  lemma IdleIntegral(b: Bucket, ops: seq<Timed>)
    requires b == Bucket(BURST, 1310720.0, 0, BURST) && ops == IdleRun()
    ensures RateIntegral(b, ops, 5) == 1310720.0
  {
    hide After, Earned, RateIntegral;
    IdleStates(b, ops);
    OneSecond();
    IntegralStep(b, ops, 0);
    IntegralStep(b, ops, 1);
    IntegralStep(b, ops, 2);
    IntegralStep(b, ops, 3);
    IntegralStep(b, ops, 4);
    EarnedAdds(0, 800000000, 1000000000, 1310720.0);
  }

  lemma IntegralStep(b: Bucket, ops: seq<Timed>, i: nat)
    requires i < |ops|
    ensures RateIntegral(b, ops, 0) == 0.0
    ensures RateIntegral(b, ops, i + 1)
         == RateIntegral(b, ops, i) + Earned(Clock(b, ops, i), ops[i].at, After(b, ops, i).rate)
  {
    hide Earned, After;
  }

  lemma OneSecond()
    ensures Earned(0, 1000000000, 1310720.0) == 1310720.0 && Earned(1000000000, 2000000000, 0.0) == 0.0
    ensures Earned(0, 0, 1310720.0) == 0.0 && Earned(2000000000, 2000000000, 1310720.0) == 0.0
    ensures Earned(800000000, 2000000000, 1310720.0) == 1572864.0 && Earned(800000000, 2000000000, 0.0) == 0.0
  {
  }

  lemma IdleStates(b: Bucket, ops: seq<Timed>)
    requires b == Bucket(BURST, 1310720.0, 0, BURST) && ops == IdleRun()
    ensures After(b, ops, 0) == b
    ensures After(b, ops, 1) == Bucket(0.0, 1310720.0, 0, BURST)
    ensures After(b, ops, 2) == Bucket(0.0, 1310720.0, 800000000, BURST)
    ensures After(b, ops, 3) == Bucket(0.0, 0.0, 800000000, BURST)
    ensures After(b, ops, 4) == Bucket(0.0, 1310720.0, 800000000, BURST)
    ensures TotalUsed(b, Ops(ops[..5])) == 3145728
  {
    assert Ops(ops[..0]) == [];
    NoOps(b);
    TimedStep(b, ops, 0);
    TimedStep(b, ops, 1);
    TimedStep(b, ops, 2);
    TimedStep(b, ops, 3);
    TimedStep(b, ops, 4);
    hide After, TotalUsed, Ops;
  }

  ghost predicate Sendable(b: Bucket, now: nat, bytes: nat) {
    now >= b.last && Refilled(b, now).tokens >= bytes as real
  }

  /** While the rate is positive, a message can be sent sooner or later exactly when it fits the burst. */
  lemma {:induction false} SendableIff(b: Bucket, bytes: nat)
    requires Valid(b) && b.rate > 0.0
    ensures (exists now: nat :: Sendable(b, now, bytes)) <==> bytes as real <= b.burst
  {
    if bytes as real <= b.burst {
      var step := NS * b.rate;
      Product(NS, b.rate);
      assert step > 0.0;
      var r := b.burst / step;
      var n := r.Floor + 1;
      assert r >= 0.0 && n as real >= r;
      Product(n as real - r, step);
      assert r * step == b.burst;
      assert (n as real - r) * step == n as real * step - r * step;
      var now := b.last + n;
      assert Elapsed(b.last, now) * b.rate == n as real * step;
      assert Sendable(b, now, bytes);
    }
  }

  // -------------------------------------------------------------------- class

  class TokenBucket {
    var tokens: real
    var rate: real
    var last: nat
    var burst: real

    constructor (rate: real, now: nat)
      requires rate >= 0.0
      ensures View() == Bucket(BURST, rate, now, BURST) && Valid(View())
    {
      this.tokens, this.rate, this.last, this.burst := BURST, rate, now, BURST;
    }

    ghost function View(): Bucket
      reads this
    {
      Bucket(tokens, rate, last, burst)
    }

    method DoRefill(now: nat)
      requires Valid(View()) && now >= last
      modifies this
      ensures View() == Apply(old(View()), Refill(now)) && Valid(View())
    {
      StepValid(View(), Refill(now));
      var elapsed := (now as real - last as real) * NS;
      tokens := tokens + elapsed * rate;
      if tokens > burst {
        tokens := burst;
      }
      last := now;
    }

    /** Refill, then take the bytes if they are there. */
    method DoTryConsume(now: nat, bytes: nat) returns (ok: bool)
      requires Valid(View()) && now >= last
      modifies this
      ensures View() == Apply(old(View()), TryConsume(now, bytes)) && Valid(View())
      ensures Used(old(View()), TryConsume(now, bytes)) == if ok then bytes else 0
      ensures last == now
    {
      StepValid(View(), TryConsume(now, bytes));
      DoRefill(now);
      if tokens >= bytes as real {
        tokens := tokens - bytes as real;
        return true;
      }
      ok := false;
    }

    /**
     * Retry until the bytes are there. Every round reads the stop flag, refills at one reading of the clock, and checks
     * the deadline at the next. Gives up only when told to stop or past the deadline.
     */
    method Consume(bytes: nat, deadline: nat, e: Env, from: nat) returns (ok: bool, k: nat, ghost n: nat)
      requires Valid(View()) && Fair(e) && last <= e.clock(from)
      modifies this
      ensures Valid(View()) && from < k && last <= e.clock(k)
      ensures AllAllowed(old(View()), Tries(e, from, n, bytes)) && View() == Run(old(View()), Tries(e, from, n, bytes))
      ensures TotalUsed(old(View()), Tries(e, from, n, bytes)) == if ok then bytes else 0
      ensures Waited(e, from, n, ok, k, deadline)
    {
      hide Apply, Run, AllAllowed, TotalUsed, Used, Valid, Tries, Fair, Waiting, Waited;
      NoOps(View());
      NoTries(e, from, bytes);
      NoRounds(e, from, deadline);
      k, n := from, 0;
      ghost var end := Later(e, deadline);
      while true
        invariant Valid(View()) && k == TryAt(from, n) && last <= e.clock(k)
        invariant AllAllowed(old(View()), Tries(e, from, n, bytes))
        invariant View() == Run(old(View()), Tries(e, from, n, bytes))
        invariant TotalUsed(old(View()), Tries(e, from, n, bytes)) == 0
        invariant Waiting(e, from, n, deadline)
        decreases end - k
      {
        NextReadings(e, k);
        NextRound(e, from, n, deadline);
        if e.stop(k) {
          return false, k + 1, n;
        }
        AppendOp(old(View()), Tries(e, from, n, bytes), TryConsume(e.clock(k), bytes), 0.0);
        NextTry(e, from, n, bytes);
        ok := DoTryConsume(e.clock(k), bytes);
        n := n + 1;
        if ok {
          return true, k + 1, n;
        }
        if e.clock(k + 1) >= deadline {
          return false, k + 2, n;
        }
        assert k + 1 < end;
        k := k + 2;
      }
    }
  }

  /** What the process reads: the clock, the stop flag, and whether posting a send succeeds. */
  datatype Env = Env(clock: nat -> nat, stop: nat -> bool, post: nat -> bool)

  /** The clock does not run backwards and passes every time, and nothing clears the stop flag. */
  ghost predicate Fair(e: Env) {
    && (forall i: nat, j: nat :: i <= j ==> e.clock(i) <= e.clock(j))
    && (forall i: nat, j: nat :: i <= j && e.stop(i) ==> e.stop(j))
    && forall t: nat :: Reaches(e, t)
  }

  ghost predicate Reaches(e: Env, t: nat) {
    exists k: nat :: e.clock(k) >= t
  }

  lemma Later(e: Env, t: nat) returns (end: nat)
    requires Fair(e)
    ensures e.clock(end) >= t && forall k: nat :: e.clock(k) < t ==> k < end
  {
    assert Reaches(e, t);
    end :| e.clock(end) >= t;
  }

  /** The reading at which the try after i others refills; the deadline is checked at the next one. */
  ghost function TryAt(from: nat, i: nat): nat {
    from + 2 * i
  }

  ghost function Tries(e: Env, from: nat, n: nat, bytes: nat): (r: seq<Op>)
    ensures |r| == n
  {
    if n == 0 then [] else Tries(e, from, n - 1, bytes) + [TryConsume(e.clock(TryAt(from, n - 1)), bytes)]
  }

  lemma NoTries(e: Env, from: nat, bytes: nat)
    ensures Tries(e, from, 0, bytes) == []
  {
  }

  lemma NextTry(e: Env, from: nat, n: nat, bytes: nat)
    ensures Tries(e, from, n + 1, bytes)
         == Tries(e, from, n, bytes) + [TryConsume(e.clock(TryAt(from, n)), bytes)]
  {
  }

  lemma NextReadings(e: Env, k: nat)
    requires Fair(e)
    ensures e.clock(k) <= e.clock(k + 1) <= e.clock(k + 2)
  {
  }

  lemma {:induction false} TriesChangeNoRate(e: Env, from: nat, n: nat, bytes: nat)
    ensures forall i :: 0 <= i < n ==> !Tries(e, from, n, bytes)[i].SetRate?
  {
    if n > 0 {
      TriesChangeNoRate(e, from, n - 1, bytes);
    }
  }

  ghost predicate Waiting(e: Env, from: nat, n: nat, deadline: nat) {
    forall i :: 0 <= i < n ==> !e.stop(TryAt(from, i)) && e.clock(TryAt(from, i) + 1) < deadline
  }

  /** How a round can go, after n others. */
  lemma NextRound(e: Env, from: nat, n: nat, deadline: nat)
    requires Waiting(e, from, n, deadline)
    ensures var k := TryAt(from, n);
      && TryAt(from, n + 1) == k + 2
      && (e.stop(k) ==> Waited(e, from, n, false, k + 1, deadline))
      && (!e.stop(k) ==> Waited(e, from, n + 1, true, k + 1, deadline))
      && (!e.stop(k) && e.clock(k + 1) >= deadline ==> Waited(e, from, n + 1, false, k + 2, deadline))
      && (!e.stop(k) && e.clock(k + 1) < deadline ==> Waiting(e, from, n + 1, deadline))
  {
  }

  lemma NoRounds(e: Env, from: nat, deadline: nat)
    ensures Waiting(e, from, 0, deadline)
  {
  }

  /** A consume that makes n tries: none after a stop, none after a late check, and it fails only for one of the two. */
  ghost predicate Waited(e: Env, from: nat, n: nat, ok: bool, k: nat, deadline: nat) {
    && (forall i :: 0 <= i < n ==> !e.stop(TryAt(from, i)))
    && (forall i :: 0 <= i < n - 1 ==> e.clock(TryAt(from, i) + 1) < deadline)
    && if ok then n > 0 && k == TryAt(from, n - 1) + 1
       else (k == TryAt(from, n) + 1 && e.stop(k - 1)) || (n > 0 && k == TryAt(from, n) && e.clock(k - 1) >= deadline)
  }

  // ---------------------------------------------------------------- rate loop

  /** One consume inside a window: the readings at its loop test and after it, its tries, and how it and its post ended. */
  datatype Call = Call(at: nat, tries: nat, ok: bool, posted: bool, end: nat)

  /** One window as played: its rate, the readings on entering it, past its start and after it, and its consumes. */
  datatype Visit = Visit(rate: real, entered: nat, begin: nat, calls: seq<Call>, left: nat)

  ghost function CallOps(e: Env, calls: seq<Call>, msgSize: nat): seq<Op> {
    if |calls| == 0 then []
    else
      var c := calls[|calls| - 1];
      CallOps(e, calls[..|calls| - 1], msgSize) + Tries(e, c.at + 2, c.tries, msgSize)
  }

  /** Messages paid for whose posts succeeded, or failed. */
  ghost function Posts(calls: seq<Call>, posted: bool): nat {
    if |calls| == 0 then 0
    else
      var c := calls[|calls| - 1];
      Posts(calls[..|calls| - 1], posted) + if c.ok && c.posted == posted then 1 else 0
  }

  lemma CallStep(e: Env, calls: seq<Call>, c: Call, msgSize: nat)
    ensures CallOps(e, calls + [c], msgSize) == CallOps(e, calls, msgSize) + Tries(e, c.at + 2, c.tries, msgSize)
    ensures forall posted ::
      Posts(calls + [c], posted) == Posts(calls, posted) + if c.ok && c.posted == posted then 1 else 0
  {
    assert (calls + [c])[..|calls|] == calls;
  }

  /** Each window sets its rate, without a refill, and then makes its tries. */
  ghost function Plan(e: Env, visits: seq<Visit>, msgSize: nat): seq<Op> {
    if |visits| == 0 then []
    else
      var v := visits[|visits| - 1];
      Plan(e, visits[..|visits| - 1], msgSize) + [SetRate(v.rate)] + CallOps(e, v.calls, msgSize)
  }

  ghost function AllPosts(visits: seq<Visit>, posted: bool): nat {
    if |visits| == 0 then 0
    else AllPosts(visits[..|visits| - 1], posted) + Posts(visits[|visits| - 1].calls, posted)
  }

  lemma VisitStep(e: Env, visits: seq<Visit>, v: Visit, msgSize: nat)
    ensures Plan(e, visits + [v], msgSize)
         == Plan(e, visits, msgSize) + [SetRate(v.rate)] + CallOps(e, v.calls, msgSize)
    ensures forall posted :: AllPosts(visits + [v], posted) == AllPosts(visits, posted) + Posts(v.calls, posted)
  {
    assert (visits + [v])[..|visits|] == visits;
  }

  /**
   * Every consume starts inside the window, before any stop, and is the one the readings call for; only its last try
   * can come after the window.
   */
  ghost predicate CallsIn(e: Env, calls: seq<Call>, start: nat, end: nat) {
    && (forall i :: 0 <= i < |calls| ==> CallIn(e, calls[i], start, end))
    && (forall i :: 0 <= i < |calls| - 1 ==> calls[i].ok && calls[i].end <= calls[i + 1].at)
  }

  ghost predicate CallIn(e: Env, c: Call, start: nat, end: nat) {
    && start <= e.clock(c.at) < end && !e.stop(c.at) && !e.stop(c.at + 1)
    && Waited(e, c.at + 2, c.tries, c.ok, c.end, end)
    && (c.ok ==> c.posted == e.post(c.end))
  }

  /** The reading that follows the consumes made from a given reading on. */
  ghost function Next(calls: seq<Call>, from: nat): nat {
    if |calls| == 0 then from else calls[|calls| - 1].end + 1
  }

  /**
   * Consumes follow each other without a gap, the first at once, for as long as the window is open and nothing stops the
   * run: it is left at the reading after the last of them, or by a stop while waiting for room for one more.
   */
  ghost predicate BackToBack(e: Env, calls: seq<Call>, from: nat, k: nat, end: nat) {
    && (|calls| > 0 ==> calls[0].at == from)
    && (forall i :: 0 <= i < |calls| - 1 ==> calls[i + 1].at == calls[i].end + 1)
    && var at := Next(calls, from); k == at || (k == at + 1 && e.clock(at) < end && !e.stop(at) && e.stop(k))
  }

  /** A wait that takes no reading after the first one at or past its target, other than the one it returns. */
  ghost predicate FirstAt(e: Env, from: nat, target: nat, k: nat) {
    from < k && target <= e.clock(k - 1) && forall j :: from <= j < k - 1 ==> e.clock(j) < target
  }

  function WindowStart(start: nat, windowNs: nat, w: nat): nat {
    start + w * windowNs
  }

  /**
   * A window is entered at its start and played at its own rate, without a gap between consumes, or idly if the rate is
   * negligible, and left at its end unless the run stops there.
   */
  ghost predicate Played(e: Env, v: Visit, rate: real, from: nat, to: nat, stops: bool) {
    && v.rate == rate && FirstAt(e, v.entered, from, v.begin)
    && (rate < RATE_EPSILON ==> v.calls == [] && FirstAt(e, v.begin, to, v.left))
    && (rate >= RATE_EPSILON ==> BackToBack(e, v.calls, v.begin, v.left, to))
    && CallsIn(e, v.calls, from, to)
    && (to <= e.clock(v.left) || stops)
  }

  method WaitUntil(target: nat, e: Env, from: nat) returns (k: nat)
    requires Fair(e)
    ensures from < k && target <= e.clock(k) && e.clock(from) <= e.clock(k) && FirstAt(e, from, target, k)
  {
    k := from;
    ghost var end := Later(e, target);
    while e.clock(k) < target
      invariant from <= k && forall j :: from <= j < k ==> e.clock(j) < target
      decreases end - k
    {
      k := k + 1;
    }
    assert e.clock(from) <= e.clock(k) <= e.clock(k + 1);
    k := k + 1;
  }

  /** Wait for room in the pipeline, pay for a message, and post it. Nothing is paid if a stop ends the wait. */
  method Send(tb: TokenBucket, end: nat, msgSize: nat, e: Env, at: nat, ghost b: Bucket, ghost ops: seq<Op>,
              ghost top: real)
    returns (ok: bool, posted: bool, k: nat, ghost call: Option<Call>)
    requires Fair(e) && Paid(tb.View(), b, ops, top) && tb.last <= e.clock(at) < end && !e.stop(at)
    modifies tb
    ensures at < k && tb.last <= e.clock(k) && (ok ==> call.Some?) && (!ok ==> end <= e.clock(k) || e.stop(k))
    ensures call.None? ==> k == at + 1 && e.stop(k) && Paid(tb.View(), b, ops, top)
    ensures call.Some? ==>
      var c := call.value;
      && at == c.at && k == c.end + 1 && ok == c.ok && posted == c.posted && CallIn(e, c, e.clock(at), end)
      && Paid(tb.View(), b, ops + Tries(e, at + 2, c.tries, msgSize), top)
      && TotalUsed(b, ops + Tries(e, at + 2, c.tries, msgSize)) == TotalUsed(b, ops) + if ok then msgSize else 0
  {
    hide Paid, TotalUsed, Tries;
    assert e.clock(at) <= e.clock(at + 1) <= e.clock(at + 2);
    if e.stop(at + 1) {
      return false, false, at + 1, None;
    }
    ghost var n;
    ok, k, n := PaidConsume(tb, msgSize, end, e, at + 2, b, ops, top);
    posted := e.post(k);
    call := Some(Call(at, n, ok, posted, k));
    assert e.clock(k - 1) <= e.clock(k) <= e.clock(k + 1);
    k := k + 1;
  }

  /** The consumes of one window, until its end, a stop, or more than a hundred failed posts in all. */
  method RunWindow(tb: TokenBucket, end: nat, msgSize: nat, errors: nat, e: Env, from: nat,
                   ghost b: Bucket, ghost ops: seq<Op>, ghost top: real)
    returns (sent: nat, failed: nat, k: nat, ghost calls: seq<Call>)
    requires Fair(e) && Paid(tb.View(), b, ops, top) && tb.last <= e.clock(from) && errors <= 100
    modifies tb
    ensures from <= k && tb.last <= e.clock(k)
    ensures Paid(tb.View(), b, ops + CallOps(e, calls, msgSize), top)
    ensures TotalUsed(b, ops + CallOps(e, calls, msgSize)) == TotalUsed(b, ops) + sent * msgSize + failed * msgSize
    ensures sent == Posts(calls, true) && failed == Posts(calls, false)
    ensures CallsIn(e, calls, e.clock(from), end) && CallsDone(calls, k)
    ensures end <= e.clock(k) || e.stop(k) || errors + failed > 100
    ensures BackToBack(e, calls, from, k, end)
    ensures e.clock(from) < end && !e.stop(from) && !e.stop(from + 1) ==> calls != [] && calls[0].at == from
  {
    hide Paid, TotalUsed, Posts, CallOps, Tries, CallsIn, CallIn;
    sent, failed, k, calls := 0, 0, from, [];
    NoCalls(e, msgSize);
    NoCallsIn(e, from, end);
    assert ops + [] == ops;
    ghost var late := Later(e, end);
    while e.clock(k) < end && !e.stop(k)
      invariant from <= k && tb.last <= e.clock(k) && errors + failed <= 100
      invariant Paid(tb.View(), b, ops + CallOps(e, calls, msgSize), top)
      invariant TotalUsed(b, ops + CallOps(e, calls, msgSize)) == TotalUsed(b, ops) + sent * msgSize + failed * msgSize
      invariant sent == Posts(calls, true) && failed == Posts(calls, false)
      invariant CallsIn(e, calls, e.clock(from), end) && CallsDone(calls, k) && AllOk(calls)
      invariant BackToBack(e, calls, from, k, end) && k == Next(calls, from)
      decreases late - k
    {
      ghost var at := k;
      var ok, posted;
      ghost var call;
      ok, posted, k, call := Send(tb, end, msgSize, e, k, b, ops + CallOps(e, calls, msgSize), top);
      if call.Some? {
        ghost var c := call.value;
        NextCall(e, calls, c, from, end, k, msgSize);
        assert ops + CallOps(e, calls, msgSize) + Tries(e, at + 2, c.tries, msgSize)
            == ops + CallOps(e, calls + [c], msgSize);
        NextBackToBack(e, calls, c, from, end);
        calls := calls + [c];
      }
      if !ok {
        return;
      }
      AddMessages(sent, 1, msgSize);
      AddMessages(failed, 1, msgSize);
      if posted {
        sent := sent + 1;
      } else {
        failed := failed + 1;
        if errors + failed > 100 {
          return;
        }
      }
    }
  }

  ghost predicate CallsDone(calls: seq<Call>, k: nat) {
    forall i :: 0 <= i < |calls| ==> calls[i].end < k
  }

  ghost predicate AllOk(calls: seq<Call>) {
    forall i :: 0 <= i < |calls| ==> calls[i].ok
  }

  lemma NextBackToBack(e: Env, calls: seq<Call>, c: Call, from: nat, end: nat)
    requires BackToBack(e, calls, from, c.at, end) && c.at == Next(calls, from)
    ensures BackToBack(e, calls + [c], from, c.end + 1, end) && Next(calls + [c], from) == c.end + 1
  {
  }

  lemma NoCallsIn(e: Env, from: nat, end: nat)
    ensures CallsIn(e, [], e.clock(from), end) && CallsDone([], from)
  {
  }

  lemma NextCall(e: Env, calls: seq<Call>, c: Call, from: nat, end: nat, k: nat, msgSize: nat)
    requires Fair(e) && from <= c.at && CallIn(e, c, e.clock(c.at), end) && c.end < k && c.at < k
    requires CallsIn(e, calls, e.clock(from), end) && CallsDone(calls, c.at) && AllOk(calls)
    ensures CallsIn(e, calls + [c], e.clock(from), end) && CallsDone(calls + [c], k)
    ensures CallOps(e, calls + [c], msgSize) == CallOps(e, calls, msgSize) + Tries(e, c.at + 2, c.tries, msgSize)
    ensures forall posted ::
      Posts(calls + [c], posted) == Posts(calls, posted) + if c.ok && c.posted == posted then 1 else 0
  {
    hide CallIn, CallOps, Posts, Tries, Fair;
    CallStep(e, calls, c, msgSize);
    EarlierStart(e, c, from, end);
  }

  lemma EarlierStart(e: Env, c: Call, from: nat, end: nat)
    requires Fair(e) && from <= c.at && CallIn(e, c, e.clock(c.at), end)
    ensures CallIn(e, c, e.clock(from), end)
  {
    hide Waited;
    assert e.clock(from) <= e.clock(c.at);
  }

  lemma NoCalls(e: Env, msgSize: nat)
    ensures CallOps(e, [], msgSize) == [] && forall posted :: Posts([], posted) == 0
  {
  }

  /**
   * The paced loop. Every message posted, and every failed post, was paid for, and all bytes are within the burst plus
   * the largest rate times the elapsed time. The windows are played in turn; every consume starts inside its window; a
   * window ends early, and windows are left out, only on a stop or after more than a hundred failed posts.
   */
  method RunRateLoop(rates: seq<real>, msgSize: nat, windowNs: nat, totalWindows: nat, e: Env, ghost top: real)
    returns (totalBytes: nat, totalMsgs: nat, errors: nat, k: nat, ghost visits: seq<Visit>)
    requires |rates| > 0 && forall i :: 0 <= i < |rates| ==> 0.0 <= rates[i] <= top
    requires Fair(e)
    ensures totalBytes == totalMsgs * msgSize
    ensures totalMsgs == AllPosts(visits, true) && errors == AllPosts(visits, false)
    ensures var b, ops := Bucket(BURST, rates[0], e.clock(0), BURST), Plan(e, visits, msgSize);
      && totalBytes + errors * msgSize == TotalUsed(b, ops)
      && AllAllowed(b, ops)
      && TotalUsed(b, ops) as real <= BURST + top * Elapsed(b.last, Run(b, ops).last)
    ensures |visits| <= totalWindows && (|visits| < totalWindows ==> e.stop(k) || errors > 100)
    ensures AllPlayed(e, visits, rates, e.clock(1), windowNs, k, e.stop(k) || errors > 100)
  {
    hide Apply, Run, AllAllowed, TotalUsed, Used, RatesBelow, Valid, Paid, Plan, CallOps, Posts, AllPosts, Elapsed;
    hide WindowStart, Played, AllPlayed, Fair;
    var tb := new TokenBucket(rates[0], e.clock(0));
    var start := e.clock(1);
    ghost var b := tb.View();
    StartPaid(b, top);
    totalBytes, totalMsgs, errors, k, visits := 0, 0, 0, 2, [];
    NoVisits(e, msgSize);
    NonePlayed(e, rates, start, windowNs, k, e.stop(k));
    NextReadings(e, 0);
    for w := 0 to totalWindows
      invariant fresh(tb) && |visits| == w && tb.last <= e.clock(k) && errors <= 100
      invariant Paid(tb.View(), b, Plan(e, visits, msgSize), top)
      invariant totalBytes + errors * msgSize == TotalUsed(b, Plan(e, visits, msgSize))
      invariant totalBytes == totalMsgs * msgSize
      invariant totalMsgs == AllPosts(visits, true) && errors == AllPosts(visits, false)
      invariant AllPlayed(e, visits, rates, start, windowNs, k, e.stop(k))
      invariant k == if w == 0 then 2 else visits[w - 1].left
    {
      if e.stop(k) {
        break;
      }
      var sent, failed;
      ghost var v;
      sent, failed, k, v := PlayWindow(tb, rates[w % |rates|], WindowStart(start, windowNs, w), windowNs, msgSize,
                                       errors, e, k, b, Plan(e, visits, msgSize), top);
      VisitStep(e, visits, v, msgSize);
      NextPlayed(e, visits, v, rates, start, windowNs, k, e.stop(k) || errors + failed > 100);
      AddMessages(totalMsgs, sent, msgSize);
      AddMessages(errors, failed, msgSize);
      visits := visits + [v];
      totalBytes := totalBytes + sent * msgSize;
      totalMsgs := totalMsgs + sent;
      errors := errors + failed;
      if errors > 100 {
        break;
      }
    }
    PaidBound(tb.View(), b, Plan(e, visits, msgSize), top);
  }

  /** The windows played, in turn; only the last can stop early. */
  ghost predicate AllPlayed(e: Env, visits: seq<Visit>, rates: seq<real>, start: nat, windowNs: nat, k: nat, stops: bool)
    requires |rates| > 0
  {
    forall w: nat :: w < |visits| ==> visits[w].left <= k && PlayedAt(e, visits, w, rates, start, windowNs, stops)
  }

  ghost predicate PlayedAt(e: Env, visits: seq<Visit>, w: nat, rates: seq<real>, start: nat, windowNs: nat, stops: bool)
    requires |rates| > 0 && w < |visits|
  {
    var from := WindowStart(start, windowNs, w);
    && visits[w].entered == (if w == 0 then 2 else visits[w - 1].left)
    && Played(e, visits[w], rates[w % |rates|], from, from + windowNs, w == |visits| - 1 && stops)
  }

  lemma NextPlayed(e: Env, visits: seq<Visit>, v: Visit, rates: seq<real>, start: nat, windowNs: nat, k: nat, stops: bool)
    requires |rates| > 0 && v.left == k
    requires v.entered == if |visits| == 0 then 2 else visits[|visits| - 1].left
    requires exists before: nat :: before <= k && AllPlayed(e, visits, rates, start, windowNs, before, false)
    requires var from := WindowStart(start, windowNs, |visits|);
      Played(e, v, rates[|visits| % |rates|], from, from + windowNs, stops)
    ensures AllPlayed(e, visits + [v], rates, start, windowNs, k, stops)
  {
    hide Played, WindowStart;
    ghost var all := visits + [v];
    ghost var before: nat :| before <= k && AllPlayed(e, visits, rates, start, windowNs, before, false);
    forall w: nat | w < |all|
      ensures all[w].left <= k && PlayedAt(e, all, w, rates, start, windowNs, stops)
    {
      if w < |visits| {
        assert visits[w].left <= before && PlayedAt(e, visits, w, rates, start, windowNs, false);
      }
    }
  }

  lemma NonePlayed(e: Env, rates: seq<real>, start: nat, windowNs: nat, k: nat, stops: bool)
    requires |rates| > 0
    ensures AllPlayed(e, [], rates, start, windowNs, k, stops)
  {
  }

  lemma NoVisits(e: Env, msgSize: nat)
    ensures Plan(e, [], msgSize) == [] && forall posted :: AllPosts([], posted) == 0
  {
  }

  lemma CallsInFrom(e: Env, calls: seq<Call>, begin: nat, start: nat, end: nat)
    requires CallsIn(e, calls, begin, end) && start <= begin
    ensures CallsIn(e, calls, start, end)
  {
    hide Waited;
  }

  /** One window: wait for its start, set its rate, then idle or send until its end. */
  method PlayWindow(tb: TokenBucket, rate: real, start: nat, windowNs: nat, msgSize: nat, errors: nat, e: Env,
                    from: nat, ghost b: Bucket, ghost ops: seq<Op>, ghost top: real)
    returns (sent: nat, failed: nat, k: nat, ghost v: Visit)
    requires Fair(e) && Paid(tb.View(), b, ops, top) && tb.last <= e.clock(from) && errors <= 100
    requires 0.0 <= rate <= top
    modifies tb
    ensures from <= k && tb.last <= e.clock(k)
    ensures Paid(tb.View(), b, ops + [SetRate(v.rate)] + CallOps(e, v.calls, msgSize), top)
    ensures TotalUsed(b, ops + [SetRate(v.rate)] + CallOps(e, v.calls, msgSize))
         == TotalUsed(b, ops) + sent * msgSize + failed * msgSize
    ensures sent == Posts(v.calls, true) && failed == Posts(v.calls, false)
    ensures v.entered == from && v.left == k && Played(e, v, rate, start, start + windowNs, e.stop(k) || errors + failed > 100)
  {
    hide Paid, TotalUsed, Posts, CallOps, CallsIn, BackToBack, FirstAt, Fair;
    k := WaitUntil(start, e, from);
    Rerate(tb.View(), b, ops, rate, top);
    tb.rate := rate;
    sent, failed := 0, 0;
    if rate < RATE_EPSILON {
      ghost var begin := k;
      k := WaitUntil(start + windowNs, e, k);
      v := Visit(rate, from, begin, [], k);
      NoCalls(e, msgSize);
      NoCallsIn(e, begin, start + windowNs);
      CallsInFrom(e, [], e.clock(begin), start, start + windowNs);
      assert ops + [SetRate(rate)] + [] == ops + [SetRate(rate)];
    } else {
      ghost var calls;
      ghost var at, begin := k, e.clock(k);
      sent, failed, k, calls := RunWindow(tb, start + windowNs, msgSize, errors, e, k, b, ops + [SetRate(rate)], top);
      v := Visit(rate, from, at, calls, k);
      CallsInFrom(e, calls, begin, start, start + windowNs);
    }
  }

  lemma AddMessages(n: nat, k: nat, size: nat)
    ensures (n + k) * size == n * size + k * size
  {
  }

  method PaidConsume(tb: TokenBucket, bytes: nat, deadline: nat, e: Env, from: nat,
                     ghost b: Bucket, ghost ops: seq<Op>, ghost top: real)
    returns (ok: bool, k: nat, ghost n: nat)
    requires Fair(e) && Paid(tb.View(), b, ops, top) && tb.last <= e.clock(from)
    modifies tb
    ensures from < k && tb.last <= e.clock(k)
    ensures Paid(tb.View(), b, ops + Tries(e, from, n, bytes), top)
    ensures TotalUsed(b, ops + Tries(e, from, n, bytes)) == TotalUsed(b, ops) + if ok then bytes else 0
    ensures Waited(e, from, n, ok, k, deadline)
  {
    hide Run, AllAllowed, TotalUsed, RatesBelow, Valid, Tries, Waited;
    ok, k, n := tb.Consume(bytes, deadline, e, from);
    TriesChangeNoRate(e, from, n, bytes);
    AppendOps(b, ops, Tries(e, from, n, bytes), top);
  }

  lemma {:induction false} AppendOps(b: Bucket, ops: seq<Op>, more: seq<Op>, top: real)
    ensures Run(b, ops + more) == Run(Run(b, ops), more)
    ensures AllAllowed(b, ops + more) == (AllAllowed(b, ops) && AllAllowed(Run(b, ops), more))
    ensures TotalUsed(b, ops + more) == TotalUsed(b, ops) + TotalUsed(Run(b, ops), more)
    ensures RatesBelow(b, ops, top) && (forall i :: 0 <= i < |more| ==> !more[i].SetRate?)
            ==> RatesBelow(b, ops + more, top)
  {
    hide Apply, Used, Allowed;
    if |more| == 0 {
      assert ops + more == ops;
    } else {
      var n := |more| - 1;
      AppendOps(b, ops, more[..n], top);
      AppendOp(b, ops + more[..n], more[n], top);
      assert ops + more == ops + more[..n] + [more[n]];
    }
  }

  /** The bucket is where a run of allowed operations leads. */
  ghost predicate Paid(now: Bucket, b: Bucket, ops: seq<Op>, top: real) {
    Valid(b) && Valid(now) && AllAllowed(b, ops) && RatesBelow(b, ops, top) && now == Run(b, ops)
  }

  lemma StartPaid(b: Bucket, top: real)
    requires Valid(b) && b.rate <= top
    ensures Paid(b, b, [], top) && TotalUsed(b, []) == 0
  {
    NoOps(b);
  }

  lemma Rerate(now: Bucket, b: Bucket, ops: seq<Op>, rate: real, top: real)
    requires Paid(now, b, ops, top) && 0.0 <= rate <= top
    ensures Paid(now.(rate := rate), b, ops + [SetRate(rate)], top)
    ensures TotalUsed(b, ops + [SetRate(rate)]) == TotalUsed(b, ops)
  {
    AppendOp(b, ops, SetRate(rate), top);
  }

  lemma PaidBound(now: Bucket, b: Bucket, ops: seq<Op>, top: real)
    requires Paid(now, b, ops, top)
    ensures now.last >= b.last && now == Run(b, ops) && AllAllowed(b, ops)
    ensures TotalUsed(b, ops) as real <= b.burst + top * Elapsed(b.last, now.last)
  {
    hide Run, AllAllowed, TotalUsed, RatesBelow, Valid, Elapsed;
    ConsumptionBound(b, ops, top);
    RunValid(b, ops);
  }
}
