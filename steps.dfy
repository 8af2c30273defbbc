/** Integer step arithmetic shared by the feature and statistics helpers: sums, extremes,
    and Python's `int(total / n)`, which truncates toward zero. */
module StepMath {

  function Sum(s: seq<int>): int {
    if s == [] then 0 else s[0] + Sum(s[1..])
  }

  /** `min(s)` */
  function MinOf(s: seq<int>): (m: int)
    requires s != []
    ensures m in s && forall x :: x in s ==> m <= x
  {
    if |s| == 1 then s[0]
    else
      var rest := MinOf(s[1..]);
      assert forall x :: x in s ==> x == s[0] || x in s[1..];
      if s[0] <= rest then s[0] else rest
  }

  /** `max(s)` */
  function MaxOf(s: seq<int>): (m: int)
    requires s != []
    ensures m in s && forall x :: x in s ==> x <= m
  {
    if |s| == 1 then s[0]
    else
      var rest := MaxOf(s[1..]);
      assert forall x :: x in s ==> x == s[0] || x in s[1..];
      if s[0] >= rest then s[0] else rest
  }

  /** `int(a / n)` for a positive `n`: the quotient rounded toward zero (Dafny's `/` rounds
      down, which differs for a negative `a`). */
  function TruncDiv(a: int, n: int): int
    requires n > 0
  {
    if a >= 0 then a / n else -((-a) / n)
  }

  /** Multiplying by a positive factor is strictly monotone, so it can be cancelled. */
  lemma MulCancel(n: int, x: int, y: int)
    requires n > 0 && n * x < n * y
    ensures x < y
  {
    assert n * y - n * x == n * (y - x);
  }

  /** A quotient lies between the bounds its dividend lies between, scaled by the divisor. */
  lemma DivBetween(b: int, n: int, lo: int, hi: int)
    requires n > 0 && n * lo <= b <= n * hi
    ensures lo <= b / n <= hi
  {
    var q := b / n;
    assert b == n * q + b % n && 0 <= b % n < n;
    assert n * (q + 1) == n * q + n;
    MulCancel(n, lo, q + 1);
    assert n * (hi + 1) == n * hi + n;
    MulCancel(n, q, hi + 1);
  }

  /** The truncating quotient keeps the same bounds. */
  lemma TruncDivBetween(a: int, n: int, lo: int, hi: int)
    requires n > 0 && n * lo <= a <= n * hi
    ensures lo <= TruncDiv(a, n) <= hi
  {
    if a >= 0 {
      DivBetween(a, n, lo, hi);
    } else {
      assert n * (-hi) == -(n * hi) && n * (-lo) == -(n * lo);
      DivBetween(-a, n, -hi, -lo);
    }
  }

  /** Truncation is symmetric about zero, which flooring is not: `int(-7 / 2)` is -3. */
  lemma TruncDivOdd(a: int, n: int)
    requires n > 0
    ensures TruncDiv(-a, n) == -TruncDiv(a, n)
    ensures a >= 0 ==> TruncDiv(a, n) == a / n
  {
  }

  /** Every element between `lo` and `hi` puts the sum between `|s| * lo` and `|s| * hi`. */
  lemma {:induction false} SumBetween(s: seq<int>, lo: int, hi: int)
    requires forall x :: x in s ==> lo <= x <= hi
    ensures |s| * lo <= Sum(s) <= |s| * hi
  {
    if s != [] {
      assert forall x :: x in s[1..] ==> x in s;
      SumBetween(s[1..], lo, hi);
      var k := |s| - 1;
      assert |s[1..]| == k && s[0] in s;
      assert Sum(s) == s[0] + Sum(s[1..]);
      assert |s| * lo == k * lo + lo;
      assert |s| * hi == k * hi + hi;
    }
  }

  /** The truncated mean of a non-empty list lies between its minimum and its maximum. */
  lemma MeanBetweenExtremes(s: seq<int>)
    requires s != []
    ensures MinOf(s) <= TruncDiv(Sum(s), |s|) <= MaxOf(s)
  {
    SumBetween(s, MinOf(s), MaxOf(s));
    TruncDivBetween(Sum(s), |s|, MinOf(s), MaxOf(s));
  }

  lemma {:induction false} SumAppend(s: seq<int>, t: seq<int>)
    ensures Sum(s + t) == Sum(s) + Sum(t)
  {
    if s != [] {
      assert (s + t)[1..] == s[1..] + t;
      SumAppend(s[1..], t);
    } else {
      assert s + t == t;
    }
  }
}
