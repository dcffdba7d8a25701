/**
 checkCompatibility of Data.cc: the number of bins in which two data sets
 disagree by more than n combined standard deviations.

 The source compares |y1 - y2| with n * sqrt(e1*e1 + e2*e2). Both sides are
 non-negative and n > 0, so the test is stated here on squares, which needs
 no square root; SquaredTestIsSigmaTest shows the two tests agree.
 */
module Compatibility {
  import opened Histogram

  /** std::fabs on reals. */
  function Abs(x: real): (r: real)
    ensures r >= 0.0 && (r == x || r == -x)
  {
    if x < 0.0 then -x else x
  }

  /** The test of the source as written, for a given combined sigma (the square root). */
  predicate SigmaTest(diff: real, sigma: real, n: int)
    ensures n > 0 && sigma >= 0.0 && SigmaTest(diff, sigma, n) ==> diff > 0.0
    ensures sigma <= 0.0 ==> (SigmaTest(diff, sigma, n) <==> diff > 0.0)
  {
    if sigma <= 0.0 then diff > 0.0 else diff > n as real * sigma
  }

  /**
   One bin disagrees: with no combined uncertainty, any difference; otherwise a
   difference strictly above n combined sigmas, compared on squares.
   */
  predicate Incompatible(y1: real, e1: real, y2: real, e2: real, n: int)
    ensures Incompatible(y1, e1, y2, e2, n) ==> y1 != y2
  {
    var diff := Abs(y1 - y2);
    var variance := e1 * e1 + e2 * e2;
    if variance == 0.0 then diff > 0.0 else diff * diff > (n * n) as real * variance
  }

  /** Bin i of d and of other disagree at threshold n. */
  predicate IncompatibleAt(d: Data, other: Data, n: int, i: int)
    requires Valid(d) && Valid(other) && 0 <= i < Size(d) && Size(d) == Size(other)
  {
    Incompatible(Measurement(d, i), Error(d, i), Measurement(other, i), Error(other, i), n)
  }

  /** The number of disagreeing bins among the first k. */
  function CountUpTo(d: Data, other: Data, n: int, k: nat): (c: nat)
    requires Valid(d) && Valid(other) && Size(d) == Size(other) && k <= Size(d)
    ensures c <= k
  {
    if k == 0 then 0
    else CountUpTo(d, other, n, k - 1) + (if IncompatibleAt(d, other, n, k - 1) then 1 else 0)
  }

  /** checkCompatibility as a value: its two failures, then the count over all bins. */
  function CheckCompatibilitySpec(d: Data, other: Data, n: int): (r: Result<int>)
    requires Valid(d) && Valid(other)
    ensures Size(d) != Size(other) ==> r == Fail(SizeMismatch)
    ensures Size(d) == Size(other) && n <= 0 ==> r == Fail(NonPositiveSigma)
    ensures r.Ok? <==> Size(d) == Size(other) && n > 0
    ensures r.Ok? ==> 0 <= r.value <= Size(d)
  {
    if Size(d) != Size(other) then Fail(SizeMismatch)
    else if n <= 0 then Fail(NonPositiveSigma)
    else Ok(CountUpTo(d, other, n, Size(d)))
  }

  /** d.checkCompatibility(other, n): the size and threshold checks, then the counting loop. */
  method CheckCompatibility(d: Data, other: Data, n: int) returns (r: Result<int>)
    requires Valid(d) && Valid(other)
    ensures r == CheckCompatibilitySpec(d, other, n)
  {
    if Size(d) != Size(other) {
      return Fail(SizeMismatch);
    }
    if n <= 0 {
      return Fail(NonPositiveSigma);
    }
    var nIncompatible := 0;
    var i := 0;
    while i < Size(d)
      invariant 0 <= i <= Size(d)
      invariant nIncompatible == CountUpTo(d, other, n, i)
    {
      var y1 := Measurement(d, i);
      var e1 := Error(d, i);
      var y2 := Measurement(other, i);
      var e2 := Error(other, i);
      var diff := Abs(y1 - y2);
      var variance := e1 * e1 + e2 * e2;
      if variance == 0.0 {
        if diff > 0.0 {
          nIncompatible := nIncompatible + 1;
        }
      } else if diff * diff > (n * n) as real * variance {
        nIncompatible := nIncompatible + 1;
      }
      i := i + 1;
    }
    return Ok(nIncompatible);
  }

  // ---------------------------------------------------------------------------
  // The squared test is the source's square-root test

  lemma {:induction false} SquareLess(x: real, y: real)
    requires 0.0 <= x && 0.0 <= y
    ensures x < y <==> x * x < y * y
  {
    if x < y {
      assert x * (y - x) >= 0.0;
      assert y * (y - x) > 0.0;
    } else {
      assert y * (x - y) >= 0.0;
      assert x * (x - y) >= 0.0;
    }
  }

  /** For any sigma that is the square root of e1*e1 + e2*e2, the two tests agree. */
  lemma SquaredTestIsSigmaTest(y1: real, e1: real, y2: real, e2: real, n: int, sigma: real)
    requires n > 0 && sigma >= 0.0 && sigma * sigma == e1 * e1 + e2 * e2
    ensures Incompatible(y1, e1, y2, e2, n) <==> SigmaTest(Abs(y1 - y2), sigma, n)
  {
    var diff := Abs(y1 - y2);
    var variance := e1 * e1 + e2 * e2;
    if sigma > 0.0 {
      var k := n as real;
      var bound := k * sigma;
      assert variance > 0.0 by {
        assert sigma * sigma > 0.0 * sigma;
      }
      assert bound >= 0.0 by {
        assert k * sigma > 0.0 * sigma;
      }
      assert (n * n) as real == k * k;
      assert bound * bound == (k * k) * (sigma * sigma);
      assert Incompatible(y1, e1, y2, e2, n) == (diff * diff > (k * k) * variance);
      SquareLess(bound, diff);
    } else {
      assert sigma == 0.0;
      assert variance == 0.0;
    }
  }

  /** A bin without combined uncertainty disagrees exactly when its measurements differ, for every n. */
  lemma ExactBin(y1: real, e1: real, y2: real, e2: real, n: int)
    requires e1 * e1 + e2 * e2 == 0.0
    ensures Incompatible(y1, e1, y2, e2, n) <==> y1 != y2
  {
  }

  /** A difference of exactly n sigmas is still compatible: the test is strict. */
  lemma BoundaryIsCompatible(y1: real, e1: real, y2: real, e2: real, n: int, sigma: real)
    requires n > 0 && sigma > 0.0 && sigma * sigma == e1 * e1 + e2 * e2
    requires Abs(y1 - y2) == n as real * sigma
    ensures !Incompatible(y1, e1, y2, e2, n)
  {
    SquaredTestIsSigmaTest(y1, e1, y2, e2, n, sigma);
  }

  // ---------------------------------------------------------------------------
  // The count

  /** The disagreeing bins among the first k, as a set. */
  ghost function IncompatibleBins(d: Data, other: Data, n: int, k: nat): (bins: set<int>)
    requires Valid(d) && Valid(other) && Size(d) == Size(other) && k <= Size(d)
    ensures forall i :: i in bins ==> 0 <= i < k
  {
    set i | 0 <= i < k && IncompatibleAt(d, other, n, i)
  }

  /** The loop's count is the number of bins satisfying the per-bin test. */
  lemma {:induction false} CountIsNumberOfBins(d: Data, other: Data, n: int, k: nat)
    requires Valid(d) && Valid(other) && Size(d) == Size(other) && k <= Size(d)
    ensures CountUpTo(d, other, n, k) == |IncompatibleBins(d, other, n, k)|
  {
    if k > 0 {
      CountIsNumberOfBins(d, other, n, k - 1);
      var prev := IncompatibleBins(d, other, n, k - 1);
      if IncompatibleAt(d, other, n, k - 1) {
        assert IncompatibleBins(d, other, n, k) == prev + {k - 1};
      } else {
        assert IncompatibleBins(d, other, n, k) == prev;
      }
    } else {
      assert IncompatibleBins(d, other, n, k) == {};
    }
  }

  /** checkCompatibility returns the size of the set of disagreeing bins. */
  lemma CheckCompatibilityCountsBins(d: Data, other: Data, n: int)
    requires Valid(d) && Valid(other) && Size(d) == Size(other) && n > 0
    ensures CheckCompatibilitySpec(d, other, n) == Ok(|IncompatibleBins(d, other, n, Size(d))|)
  {
    CountIsNumberOfBins(d, other, n, Size(d));
  }

  /** A data set never disagrees with itself. */
  lemma {:induction false} SelfCountIsZero(d: Data, n: int, k: nat)
    requires Valid(d) && k <= Size(d)
    ensures CountUpTo(d, d, n, k) == 0
  {
    if k > 0 {
      SelfCountIsZero(d, n, k - 1);
    }
  }

  lemma SelfCompatible(d: Data, n: int)
    requires Valid(d) && n > 0
    ensures CheckCompatibilitySpec(d, d, n) == Ok(0)
  {
    SelfCountIsZero(d, n, Size(d));
  }

  /** Swapping the two data sets changes nothing, bin by bin. */
  lemma {:induction false} CountSymmetric(d: Data, other: Data, n: int, k: nat)
    requires Valid(d) && Valid(other) && Size(d) == Size(other) && k <= Size(d)
    ensures CountUpTo(d, other, n, k) == CountUpTo(other, d, n, k)
  {
    if k > 0 {
      CountSymmetric(d, other, n, k - 1);
      var i := k - 1;
      assert Abs(Measurement(d, i) - Measurement(other, i)) == Abs(Measurement(other, i) - Measurement(d, i));
    }
  }

  lemma Symmetric(d: Data, other: Data, n: int)
    requires Valid(d) && Valid(other)
    ensures CheckCompatibilitySpec(d, other, n) == CheckCompatibilitySpec(other, d, n)
  {
    if Size(d) == Size(other) {
      CountSymmetric(d, other, n, Size(d));
    }
  }

  /** A bin that disagrees at the larger threshold m also disagrees at the smaller n. */
  lemma IncompatibleAntitone(y1: real, e1: real, y2: real, e2: real, n: int, m: int)
    requires 0 < n <= m
    requires Incompatible(y1, e1, y2, e2, m)
    ensures Incompatible(y1, e1, y2, e2, n)
  {
    var variance := e1 * e1 + e2 * e2;
    if variance != 0.0 {
      assert variance > 0.0;
      assert n * n <= m * m by {
        assert n * n <= n * m;
        assert n * m <= m * m;
      }
      assert (n * n) as real * variance <= (m * m) as real * variance;
    }
  }

  /** Raising the threshold never raises the count. */
  lemma {:induction false} CountAntitone(d: Data, other: Data, n: int, m: int, k: nat)
    requires Valid(d) && Valid(other) && Size(d) == Size(other) && k <= Size(d)
    requires 0 < n <= m
    ensures CountUpTo(d, other, m, k) <= CountUpTo(d, other, n, k)
  {
    if k > 0 {
      CountAntitone(d, other, n, m, k - 1);
      var i := k - 1;
      if IncompatibleAt(d, other, m, i) {
        IncompatibleAntitone(Measurement(d, i), Error(d, i), Measurement(other, i), Error(other, i), n, m);
      }
    }
  }

  lemma Antitone(d: Data, other: Data, n: int, m: int)
    requires Valid(d) && Valid(other) && Size(d) == Size(other)
    requires 0 < n <= m
    ensures CheckCompatibilitySpec(d, other, m).value <= CheckCompatibilitySpec(d, other, n).value
  {
    CountAntitone(d, other, n, m, Size(d));
  }

  /** One bin holding 10 +- 2 against 16 +- 2: a difference of 6 exceeds 2 sqrt(8), so one bin disagrees. */
  lemma SingleBinDisagreement()
    ensures CheckCompatibilitySpec(Data([0.0, 1.0], [10.0], [2.0]), Data([0.0, 1.0], [16.0], [2.0]), 2) == Ok(1)
    ensures CheckCompatibilitySpec(Data([0.0, 1.0], [10.0], [2.0]), Data([0.0, 1.0], [16.0], [2.0]), 3) == Ok(0)
  {
    var a := Data([0.0, 1.0], [10.0], [2.0]);
    var b := Data([0.0, 1.0], [16.0], [2.0]);
    assert IncompatibleAt(a, b, 2, 0);
    assert !IncompatibleAt(a, b, 3, 0);
  }
}
