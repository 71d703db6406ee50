/** Finite sums of real numbers and the per-sample certainty shares built from them. */
module Sums {

  /** The sum s[0] + ... + s[|s|-1], accumulated left to right like the combiner's loops;
      the empty sum is zero and a single term is its own sum. */
  function Sum(s: seq<real>): (r: real)
    ensures |s| == 0 ==> r == 0.0
    ensures |s| == 1 ==> r == s[0]
    decreases |s|
  {
    if |s| == 0 then 0.0 else Sum(s[..|s| - 1]) + s[|s| - 1]
  }

  /** The sum of the first c elements of s. */
  function PrefixSum(s: seq<real>, c: nat): (r: real)
    requires c <= |s|
    ensures c == 0 ==> r == 0.0
    ensures c == 1 ==> r == s[0]
  {
    Sum(s[..c])
  }

  /** Extending a prefix by one element adds that element to its sum. */
  lemma PrefixSumStep(s: seq<real>, k: nat)
    requires k < |s|
    ensures PrefixSum(s, k + 1) == PrefixSum(s, k) + s[k]
  {
    assert s[..k + 1][..k] == s[..k];
  }

  /** The prefix of full length is the whole sum. */
  lemma PrefixSumWhole(s: seq<real>)
    ensures PrefixSum(s, |s|) == Sum(s)
  {
    assert s[..|s|] == s;
  }

  /** n copies of x. */
  function Repeat(x: real, n: nat): (r: seq<real>)
    ensures |r| == n
    ensures forall k :: 0 <= k < n ==> r[k] == x
  {
    seq(n, _ => x)
  }

  /** Adding x up n times gives n * x. */
  lemma {:induction false} SumRepeat(x: real, n: nat)
    ensures Sum(Repeat(x, n)) == (n as real) * x
  {
    if n > 0 {
      assert Repeat(x, n)[..n - 1] == Repeat(x, n - 1);
      SumRepeat(x, n - 1);
    }
  }

  /** Adding x up n >= 1 times and dividing by n gives x back. */
  lemma RepeatAverage(x: real, n: nat)
    requires n >= 1
    ensures Sum(Repeat(x, n)) / (n as real) == x
  {
    SumRepeat(x, n);
  }

  /** Every element multiplied by x. */
  function Scaled(s: seq<real>, x: real): (r: seq<real>)
    ensures |r| == |s|
    ensures forall k :: 0 <= k < |s| ==> r[k] == s[k] * x
  {
    seq(|s|, k requires 0 <= k < |s| => s[k] * x)
  }

  /** Multiplying every term by x multiplies the sum by x. */
  lemma {:induction false} SumScaled(s: seq<real>, x: real)
    ensures Sum(Scaled(s, x)) == Sum(s) * x
  {
    if |s| > 0 {
      var p := s[..|s| - 1];
      SumScaled(p, x);
      forall k | 0 <= k < |p|
        ensures Scaled(s, x)[k] == Scaled(p, x)[k]
      {
        assert p[k] == s[k];
      }
      assert Scaled(s, x)[..|s| - 1] == Scaled(p, x);
      assert (Sum(p) + s[|s| - 1]) * x == Sum(p) * x + s[|s| - 1] * x;
    }
  }

  /** All n terms of s scaled by x add up to the sum of s times x. */
  lemma ScaledPrefixWhole(s: seq<real>, x: real)
    ensures PrefixSum(Scaled(s, x), |s|) == Sum(s) * x
  {
    PrefixSumWhole(Scaled(s, x));
    SumScaled(s, x);
  }

  /** Every element divided by d. */
  function Divided(s: seq<real>, d: real): (r: seq<real>)
    requires d != 0.0
    ensures |r| == |s|
    ensures forall k :: 0 <= k < |s| ==> r[k] == s[k] / d
  {
    seq(|s|, k requires 0 <= k < |s| => s[k] / d)
  }

  /** Dividing every term by d divides the sum by d. */
  lemma {:induction false} SumDivided(s: seq<real>, d: real)
    requires d != 0.0
    ensures Sum(Divided(s, d)) == Sum(s) / d
  {
    if |s| > 0 {
      var p := s[..|s| - 1];
      SumDivided(p, d);
      assert Divided(s, d)[..|s| - 1] == Divided(p, d);
      assert Divided(s, d)[|s| - 1] == s[|s| - 1] / d;
      calc {
        Sum(Divided(s, d));
        Sum(Divided(p, d)) + s[|s| - 1] / d;
        Sum(p) / d + s[|s| - 1] / d;
        (Sum(p) + s[|s| - 1]) / d;
      }
    }
  }

  /** Each classifier's share of a sample's total certainty mass. */
  function Shares(cert: seq<real>): (w: seq<real>)
    requires Sum(cert) != 0.0
    ensures |w| == |cert|
  {
    Divided(cert, Sum(cert))
  }

  /** Where the certainty mass is non-zero, the shares sum to one. */
  lemma SharesSumToOne(cert: seq<real>)
    requires Sum(cert) != 0.0
    ensures Sum(Shares(cert)) == 1.0
  {
    var total := Sum(cert);
    SumDivided(cert, total);
    assert total / total == 1.0;
  }

  /** A sum of non-negative terms is non-negative and bounds each of its terms. */
  lemma {:induction false} TermAtMostSum(s: seq<real>, k: nat)
    requires forall c :: 0 <= c < |s| ==> 0.0 <= s[c]
    requires k < |s|
    ensures 0.0 <= s[k] <= Sum(s)
  {
    var p := s[..|s| - 1];
    if k < |s| - 1 {
      TermAtMostSum(p, k);
    } else if |p| > 0 {
      TermAtMostSum(p, 0);
    }
  }

  /** A non-negative number at most a positive one divides it to a value in [0, 1]. */
  lemma QuotientInUnit(a: real, b: real)
    requires 0.0 <= a <= b && 0.0 < b
    ensures 0.0 <= a / b <= 1.0
  {
  }

  /** With non-negative certainties (every uncertainty at most 1) the shares form a
      convex combination: each lies in [0, 1] and together they sum to one. */
  lemma SharesConvex(cert: seq<real>)
    requires forall c :: 0 <= c < |cert| ==> 0.0 <= cert[c]
    requires Sum(cert) != 0.0
    ensures forall c :: 0 <= c < |cert| ==> 0.0 <= Shares(cert)[c] <= 1.0
    ensures Sum(Shares(cert)) == 1.0
  {
    forall c | 0 <= c < |cert|
      ensures 0.0 <= Shares(cert)[c] <= 1.0
    {
      TermAtMostSum(cert, c);
      QuotientInUnit(cert[c], Sum(cert));
    }
    SharesSumToOne(cert);
  }
}
