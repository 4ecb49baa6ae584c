/** Option values, and sums over sequences and ranges with the update laws the models need. */
module Prelude {

  datatype Option<+T> = None | Some(value: T)

  function Min(a: int, b: int): int {
    if a <= b then a else b
  }

  /** The integers lo, lo + 1, ..., hi - 1. */
  function Range(lo: nat, hi: nat): (r: seq<nat>)
    requires lo <= hi
  {
    seq(hi - lo, i requires 0 <= i < hi - lo => lo + i)
  }

  // ------------------------------------------------------------- naturals

  /** The sum of f over the elements of xs. */
  function NatSum<A>(xs: seq<A>, f: A -> nat): nat {
    if |xs| == 0 then 0 else f(xs[0]) + NatSum(xs[1..], f)
  }

  lemma {:induction false} NatSumUpdate<A>(xs: seq<A>, i: nat, x: A, f: A -> nat)
    requires i < |xs|
    ensures NatSum(xs[i := x], f) + f(xs[i]) == NatSum(xs, f) + f(x)
  {
    var ys := xs[i := x];
    if i == 0 {
      assert ys[1..] == xs[1..];
    } else {
      assert ys[1..] == xs[1..][i - 1 := x];
      NatSumUpdate(xs[1..], i - 1, x, f);
    }
  }

  lemma {:induction false} NatSumConcat<A>(xs: seq<A>, ys: seq<A>, f: A -> nat)
    ensures NatSum(xs + ys, f) == NatSum(xs, f) + NatSum(ys, f)
  {
    if |xs| == 0 {
      assert xs + ys == ys;
    } else {
      assert (xs + ys)[1..] == xs[1..] + ys;
      NatSumConcat(xs[1..], ys, f);
    }
  }

  lemma NatSumAppend<A>(xs: seq<A>, x: A, f: A -> nat)
    ensures NatSum(xs + [x], f) == NatSum(xs, f) + f(x)
  {
    NatSumConcat(xs, [x], f);
    assert [x][1..] == [];
  }

  lemma NatSumRemove<A>(xs: seq<A>, i: nat, f: A -> nat)
    requires i < |xs|
    ensures NatSum(xs[..i] + xs[i + 1..], f) + f(xs[i]) == NatSum(xs, f)
  {
    NatSumConcat(xs[..i], xs[i + 1..], f);
    assert xs == xs[..i] + xs[i..];
    NatSumConcat(xs[..i], xs[i..], f);
    assert xs[i..][1..] == xs[i + 1..];
  }

  lemma {:induction false} NatSumPart<A>(xs: seq<A>, i: nat, f: A -> nat)
    requires i < |xs|
    ensures f(xs[i]) <= NatSum(xs, f)
  {
    if i > 0 {
      NatSumPart(xs[1..], i - 1, f);
    }
  }

  /** A sum of naturals is zero exactly when every term is. */
  lemma {:induction false} NatSumZero<A>(xs: seq<A>, f: A -> nat)
    ensures NatSum(xs, f) == 0 <==> forall i :: 0 <= i < |xs| ==> f(xs[i]) == 0
  {
    if |xs| > 0 {
      NatSumZero(xs[1..], f);
      assert forall i :: 0 <= i < |xs[1..]| ==> xs[1..][i] == xs[i + 1];
      assert forall i :: 0 < i < |xs| ==> xs[i] == xs[1..][i - 1];
    }
  }

  /** f(0) + ... + f(n - 1). */
  ghost function RangeSum(n: nat, f: nat -> nat): nat {
    if n == 0 then 0 else RangeSum(n - 1, f) + f(n - 1)
  }

  lemma {:induction false} RangeSumEqual(n: nat, f: nat -> nat, g: nat -> nat)
    requires forall i: nat :: i < n ==> f(i) == g(i)
    ensures RangeSum(n, f) == RangeSum(n, g)
  {
    if n > 0 {
      RangeSumEqual(n - 1, f, g);
    }
  }

  /** Changing one term changes the sum by the same amount. */
  lemma {:induction false} RangeSumChange(n: nat, f: nat -> nat, g: nat -> nat, r: nat)
    requires r < n
    requires forall i: nat :: i < n && i != r ==> f(i) == g(i)
    ensures RangeSum(n, f) + g(r) == RangeSum(n, g) + f(r)
  {
    if r == n - 1 {
      RangeSumEqual(n - 1, f, g);
    } else {
      RangeSumChange(n - 1, f, g, r);
    }
  }

  // ------------------------------------------------------------- division

  lemma {:induction false} DivMod(a: nat, b: nat)
    requires b > 0
    ensures a == a / b * b + a % b && 0 <= a % b < b && 0 <= a / b
  {
  }

  lemma {:induction false} MulLess(x: int, y: int, b: nat)
    ensures x < y ==> x * b <= (y - 1) * b && (x + 1) * b <= y * b
  {
    if x < y {
      var d: nat := y - 1 - x;
      assert d * b >= 0;
      assert (x + d) * b == x * b + d * b && x + d == y - 1;
      assert (x + 1) * b == x * b + b && (y - 1 + 1) * b == (y - 1) * b + b;
    }
  }

  lemma {:induction false} PairUnique(x: nat, i: nat, y: nat, j: nat, b: nat)
    requires i < b && j < b && x * b + i == y * b + j
    ensures x == y && i == j
  {
    MulLess(x, y, b);
    MulLess(y, x, b);
    assert (x + 1) * b == x * b + b && (y + 1) * b == y * b + b;
  }

  lemma {:induction false} ModPlus(x: nat, q: nat, n: nat)
    requires n > 0
    ensures (x + q * n) % n == x % n
  {
    var y := x + q * n;
    DivMod(x, n);
    DivMod(y, n);
    assert (x / n + q) * n == x / n * n + q * n;
    PairUnique(x / n + q, x % n, y / n, y % n, n);
  }
}
