/**
 * Amounts of money and the two numeric idioms every part of the receipt code
 * uses on them: `Number(x.toFixed(2))` and summing with `reduce`.
 *
 * Amounts are mathematical reals. `toFixed(2)` picks the multiple of 0.01
 * nearest to its argument and, between two equally near ones, the one of
 * larger magnitude (the digits are computed for |x| and the sign is put in
 * front); binary floating-point representation error is not modelled.
 */
module Money {

  /** `x` is a whole number of cents. */
  predicate IsCents(x: real) {
    (100.0 * x).Floor as real == 100.0 * x
  }

  /** `Number(x.toFixed(2))` */
  function Round2(x: real): real {
    if x >= 0.0 then (100.0 * x + 0.5).Floor as real / 100.0
    else -((-100.0 * x + 0.5).Floor as real / 100.0)
  }

  /** The result is a whole number of cents at most half a cent away from `x`. */
  lemma Round2Spec(x: real)
    ensures IsCents(Round2(x))
    ensures -0.005 <= Round2(x) - x <= 0.005
  {
    var r := Round2(x);
    if x >= 0.0 {
      var n := (100.0 * x + 0.5).Floor;
      assert 100.0 * r == n as real;
    } else {
      var n := (-100.0 * x + 0.5).Floor;
      assert 100.0 * r == -(n as real);
      assert (-(n as real)).Floor == -n;
    }
  }

  /** Rounding is symmetric around zero. */
  lemma Round2Negate(x: real)
    ensures Round2(-x) == -Round2(x)
  {
    if x == 0.0 {
      assert -x == 0.0;
    }
  }

  /** An amount that is already a whole number of cents is left as it is. */
  lemma Round2Cents(x: real)
    requires IsCents(x)
    ensures Round2(x) == x
  {
    var n := (100.0 * x).Floor;
    assert n as real == 100.0 * x;
    if x >= 0.0 {
      assert (100.0 * x + 0.5).Floor == n;
    } else {
      assert -100.0 * x == -(n as real);
      assert (-100.0 * x + 0.5).Floor == -n;
    }
  }

  /** Rounding twice is rounding once. */
  lemma Round2Idempotent(x: real)
    ensures Round2(Round2(x)) == Round2(x)
  {
    Round2Spec(x);
    Round2Cents(Round2(x));
  }

  /** Rounding is monotone. */
  lemma Round2Monotone(x: real, y: real)
    requires x <= y
    ensures Round2(x) <= Round2(y)
  {
    if x >= 0.0 {
      assert (100.0 * x + 0.5).Floor <= (100.0 * y + 0.5).Floor;
    } else if y < 0.0 {
      assert (-100.0 * y + 0.5).Floor <= (-100.0 * x + 0.5).Floor;
    }
  }

  /** `xs.reduce((s, x) => s + f(x), 0)`, accumulated from the left. */
  function SumOf<T>(xs: seq<T>, f: T -> real): real {
    if xs == [] then 0.0 else SumOf(xs[..|xs| - 1], f) + f(xs[|xs| - 1])
  }

  /** The sum of a concatenation is the sum of the sums. */
  lemma {:induction false} SumOfAppend<T>(a: seq<T>, b: seq<T>, f: T -> real)
    ensures SumOf(a + b, f) == SumOf(a, f) + SumOf(b, f)
  {
    if b == [] {
      assert a + b == a;
    } else {
      assert (a + b)[..|a + b| - 1] == a + b[..|b| - 1];
      SumOfAppend(a, b[..|b| - 1], f);
    }
  }

  /** Adding a last term adds its value. */
  lemma SumOfLast<T>(s: seq<T>, x: T, f: T -> real)
    ensures SumOf(s + [x], f) == SumOf(s, f) + f(x)
  {
    assert (s + [x])[..|s|] == s;
  }

  /** Sums of sequences that agree pointwise under `f` and `g` are equal. */
  lemma {:induction false} SumOfPointwise<T, U>(a: seq<T>, f: T -> real, b: seq<U>, g: U -> real)
    requires |a| == |b| && forall k | 0 <= k < |a| :: f(a[k]) == g(b[k])
    ensures SumOf(a, f) == SumOf(b, g)
  {
    if a != [] {
      SumOfPointwise(a[..|a| - 1], f, b[..|b| - 1], g);
    }
  }

  /** Rearranging the terms does not change the sum. */
  lemma {:induction false} SumOfPermutation<T>(a: seq<T>, b: seq<T>, f: T -> real)
    requires multiset(a) == multiset(b)
    ensures SumOf(a, f) == SumOf(b, f)
    decreases |a|
  {
    if a == [] {
      assert |b| == |multiset(b)| == 0;
    } else {
      var init := a[..|a| - 1];
      var x := a[|a| - 1];
      assert a == init + [x];
      assert multiset(init) == multiset(a) - multiset{x};
      assert x in multiset(b);
      var k :| 0 <= k < |b| && b[k] == x;
      RemoveAtMultiset(b, k);
      RemoveAtSum(b, k, f);
      SumOfPermutation(init, b[..k] + b[k + 1..], f);
    }
  }

  /** Taking out the term at `k` takes one copy of it out of the multiset. */
  lemma RemoveAtMultiset<T>(b: seq<T>, k: nat)
    requires k < |b|
    ensures multiset(b[..k] + b[k + 1..]) == multiset(b) - multiset{b[k]}
  {
    assert b == b[..k] + ([b[k]] + b[k + 1..]);
  }

  /** Taking out the term at `k` takes its value out of the sum. */
  lemma RemoveAtSum<T>(b: seq<T>, k: nat, f: T -> real)
    requires k < |b|
    ensures SumOf(b, f) == SumOf(b[..k] + b[k + 1..], f) + f(b[k])
  {
    var front, back := b[..k], b[k + 1..];
    assert b == (front + [b[k]]) + back;
    SumOfAppend(front + [b[k]], back, f);
    SumOfLast(front, b[k], f);
    SumOfAppend(front, back, f);
  }

  /** A sum of non-negative terms is non-negative. */
  lemma {:induction false} SumOfNonNegative<T>(xs: seq<T>, f: T -> real)
    requires forall k | 0 <= k < |xs| :: f(xs[k]) >= 0.0
    ensures SumOf(xs, f) >= 0.0
  {
    if xs != [] {
      SumOfNonNegative(xs[..|xs| - 1], f);
    }
  }

  /** A sum of positive terms is positive exactly when there is a term. */
  lemma {:induction false} SumOfPositive<T>(xs: seq<T>, f: T -> real)
    requires forall k | 0 <= k < |xs| :: f(xs[k]) > 0.0
    ensures SumOf(xs, f) >= 0.0
    ensures SumOf(xs, f) > 0.0 <==> xs != []
  {
    if xs != [] {
      SumOfPositive(xs[..|xs| - 1], f);
    }
  }

  /** Scaling every term scales the sum. */
  lemma {:induction false} SumOfScale<T>(xs: seq<T>, f: T -> real, g: T -> real, c: real)
    requires forall k | 0 <= k < |xs| :: g(xs[k]) == f(xs[k]) * c
    ensures SumOf(xs, g) == SumOf(xs, f) * c
  {
    if xs != [] {
      SumOfScale(xs[..|xs| - 1], f, g, c);
    }
  }

  /** A sum of `n` terms between `lo` and `hi` lies between `n * lo` and `n * hi`. */
  lemma {:induction false} SumOfBounds<T>(xs: seq<T>, f: T -> real, lo: real, hi: real)
    requires forall k | 0 <= k < |xs| :: lo <= f(xs[k]) <= hi
    ensures (|xs| as real) * lo <= SumOf(xs, f) <= (|xs| as real) * hi
  {
    if xs != [] {
      var init := xs[..|xs| - 1];
      SumOfBounds(init, f, lo, hi);
      assert (|xs| as real) * lo == (|init| as real) * lo + lo;
      assert (|xs| as real) * hi == (|init| as real) * hi + hi;
    }
  }

  /** A mean of terms between `lo` and `hi` lies between them. */
  lemma MeanBetween(total: real, n: nat, lo: real, hi: real)
    requires n > 0 && (n as real) * lo <= total <= (n as real) * hi
    ensures lo <= total / (n as real) <= hi
  {
  }

  /** `Math.abs` */
  function Abs(x: real): (r: real)
    ensures r >= 0.0 && (r == x || r == -x)
  {
    if x < 0.0 then -x else x
  }
}
