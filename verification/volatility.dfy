/** The variance part of the realized-volatility estimate: the mean of a
    sequence of returns, and the sum of squared deviations from it divided
    by one less than the number of returns (Bessel's correction). How the
    returns are obtained from prices (logarithms of price ratios) and the
    annualising square root are outside this module. */
module Volatility {
  import opened Wrappers
  import opened RealArith

  /** Left-to-right sum, the order in which `reduce` adds from 0. */
  function Sum(s: seq<real>): real
    decreases |s|
  {
    if |s| == 0 then 0.0 else Sum(s[..|s| - 1]) + s[|s| - 1]
  }

  function Mean(s: seq<real>): real
    requires |s| > 0
  {
    Sum(s) / |s| as real
  }

  /** The identity on reals. */
  function Same(x: real): real { x }

  /** x times x. The second factor goes through `Same` so that the solver
      treats the term as a product of two reals rather than a power, which
      it otherwise fails to relate to equal terms. */
  function Square(x: real): real {
    x * Same(x)
  }

  /** A square is never negative, and is zero only for zero. */
  lemma SquareSign(x: real)
    ensures Square(x) >= 0.0
    ensures Square(x) == 0.0 <==> x == 0.0
  {
    if x > 0.0 {
      PositiveProduct(x, Same(x));
    } else if x < 0.0 {
      PositiveProduct(-x, -Same(x));
      assert x * Same(x) == (-x) * (-Same(x));
    }
  }

  /** Each return's squared distance from `m`. */
  function SquaredDeviations(s: seq<real>, m: real): (d: seq<real>)
    ensures |d| == |s|
    ensures forall i :: 0 <= i < |s| ==> d[i] >= 0.0
    ensures forall i :: 0 <= i < |s| ==> (d[i] == 0.0 <==> s[i] == m)
  {
    var d := seq(|s|, i requires 0 <= i < |s| => Square(s[i] - m));
    assert forall i :: 0 <= i < |s| ==> d[i] >= 0.0 && (d[i] == 0.0 <==> s[i] == m) by {
      forall i | 0 <= i < |s| ensures d[i] >= 0.0 && (d[i] == 0.0 <==> s[i] == m) {
        SquareSign(s[i] - m);
      }
    }
    d
  }

  predicate AllEqual(s: seq<real>) {
    forall i, j :: 0 <= i < |s| && 0 <= j < |s| ==> s[i] == s[j]
  }

  /** Sample variance of the returns; undefined with fewer than two returns
      (the divisor `|rets| - 1` would not be positive). */
  function SampleVariance(rets: seq<real>): (v: Option<real>)
    ensures v.Some? <==> |rets| >= 2
    ensures v.Some? ==> v.value >= 0.0
    ensures v.Some? && AllEqual(rets) ==> v.value == 0.0
  {
    if |rets| < 2 then None
    else
      var d := SquaredDeviations(rets, Mean(rets));
      SumNonNegative(d);
      ConstantHasNoDeviation(rets);
      Some(Sum(d) / (|rets| - 1) as real)
  }

  lemma {:induction false} SumNonNegative(s: seq<real>)
    requires forall i :: 0 <= i < |s| ==> s[i] >= 0.0
    ensures Sum(s) >= 0.0
    decreases |s|
  {
    if |s| > 0 {
      SumNonNegative(s[..|s| - 1]);
    }
  }

  lemma {:induction false} SumOfZeros(s: seq<real>)
    requires forall i :: 0 <= i < |s| ==> s[i] == 0.0
    ensures Sum(s) == 0.0
    decreases |s|
  {
    if |s| > 0 {
      SumOfZeros(s[..|s| - 1]);
    }
  }

  /** A sum of non-negative terms is zero only when every term is zero. */
  lemma {:induction false} SumZeroOnlyIfAllZero(s: seq<real>)
    requires forall i :: 0 <= i < |s| ==> s[i] >= 0.0
    requires Sum(s) == 0.0
    ensures forall i :: 0 <= i < |s| ==> s[i] == 0.0
    decreases |s|
  {
    if |s| > 0 {
      var init := s[..|s| - 1];
      SumNonNegative(init);
      SumZeroOnlyIfAllZero(init);
      assert forall i :: 0 <= i < |init| ==> s[i] == init[i];
    }
  }

  lemma {:induction false} SumOfConstant(s: seq<real>, c: real)
    requires forall i :: 0 <= i < |s| ==> s[i] == c
    ensures Sum(s) == |s| as real * c
    decreases |s|
  {
    if |s| > 0 {
      SumOfConstant(s[..|s| - 1], c);
    }
  }

  lemma MeanOfConstant(s: seq<real>)
    requires |s| > 0 && AllEqual(s)
    ensures Mean(s) == s[0]
  {
    SumOfConstant(s, s[0]);
  }

  lemma ConstantHasNoDeviation(s: seq<real>)
    requires |s| > 0
    ensures AllEqual(s) ==> Sum(SquaredDeviations(s, Mean(s))) == 0.0
  {
    if AllEqual(s) {
      MeanOfConstant(s);
      SumOfZeros(SquaredDeviations(s, Mean(s)));
    }
  }

  /** The converse of the constant case: a zero sample variance means every
      return was the same. */
  lemma ZeroVarianceOnlyIfConstant(rets: seq<real>)
    requires SampleVariance(rets) == Some(0.0)
    ensures AllEqual(rets)
  {
    var m := Mean(rets);
    var d := SquaredDeviations(rets, m);
    assert Sum(d) / (|rets| - 1) as real == 0.0;
    SumZeroOnlyIfAllZero(d);
    assert forall i :: 0 <= i < |rets| ==> rets[i] == m;
  }

  /** `reduce((a, b) => a + b, 0)`: adds the elements from the left. */
  method SumOf(s: seq<real>) returns (total: real)
    ensures total == Sum(s)
  {
    total := 0.0;
    var i := 0;
    while i < |s|
      invariant 0 <= i <= |s|
      invariant total == Sum(s[..i])
    {
      assert s[..i + 1][..i] == s[..i];
      total := total + s[i];
      i := i + 1;
    }
    assert s[..|s|] == s;
  }

  /** The estimator as the browser computes it: sum the returns, square each
      deviation from the mean, sum the squares, then divide by the count
      less one. */
  method ComputeSampleVariance(rets: seq<real>) returns (v: Option<real>)
    ensures v == SampleVariance(rets)
  {
    if |rets| < 2 {
      return None;
    }
    var total := SumOf(rets);
    var mean := total / |rets| as real;
    var squares := [];
    var i := 0;
    while i < |rets|
      invariant 0 <= i <= |rets|
      invariant |squares| == i
      invariant forall k :: 0 <= k < i ==> squares[k] == Square(rets[k] - mean)
    {
      squares := squares + [Square(rets[i] - mean)];
      i := i + 1;
    }
    assert squares == SquaredDeviations(rets, mean);
    var sq := SumOf(squares);
    v := Some(sq / (|rets| - 1) as real);
  }
}
