/** The integer statistics of calibration: the truncated mean of the samples
    and the sum of their squared deviations from it. */
module Calibration {
  import opened Words

  /** `__TH_CALIBRATE_TIMES` */
  const TIMES: nat := 1_000_000

  /** The exact sum of the samples; no sample exceeds it. */
  function Sum(xs: seq<u64>): (r: nat)
    ensures forall i :: 0 <= i < |xs| ==> xs[i] <= r
  {
    if xs == [] then 0
    else
      var n := |xs| - 1;
      assert forall i :: 0 <= i < n ==> xs[..n][i] == xs[i];
      Sum(xs[..n]) + xs[n]
  }

  /** `total / __TH_CALIBRATE_TIMES` after the first loop: the running
      `uint64_t` total is the sum modulo 2^64, and the quotient is truncated.
      Where the sum fits 64 bits this is the mean rounded down. */
  function Mean(xs: seq<u64>): (m: u64)
    requires 0 < |xs|
    ensures m * |xs| <= Wrap64(Sum(xs)) < (m + 1) * |xs|
    ensures Sum(xs) < TWO64 ==> m * |xs| <= Sum(xs) < (m + 1) * |xs|
  {
    DivBounds(Wrap64(Sum(xs)), |xs|);
    Wrap64(Sum(xs)) / |xs|
  }

  /** `results[i] > overhead ? results[i] - overhead : overhead - results[i]`:
      the distance between a sample and the mean. */
  function Deviation(x: u64, m: u64): (d: u64)
    ensures d == 0 <==> x == m
    ensures x == m + d || m == x + d
  {
    if x > m then x - m else m - x
  }

  /** The squares `diff * diff` added up, each square taken in `uint64_t`;
      no single square exceeds the sum. */
  function SquaredDeviations(xs: seq<u64>, m: u64): (r: nat)
    ensures forall i :: 0 <= i < |xs| ==> Mul64(Deviation(xs[i], m), Deviation(xs[i], m)) <= r
  {
    if xs == [] then 0
    else
      var n := |xs| - 1;
      assert forall i :: 0 <= i < n ==> xs[..n][i] == xs[i];
      var d := Deviation(xs[n], m);
      SquaredDeviations(xs[..n], m) + Mul64(d, d)
  }

  /** Appending a sample adds it to the sum. */
  lemma SumAppend(xs: seq<u64>, x: u64)
    ensures Sum(xs + [x]) == Sum(xs) + x
  {
    assert (xs + [x])[..|xs|] == xs;
  }

  /** Appending a sample adds its wrapped square to the deviations. */
  lemma SquaredDeviationsAppend(xs: seq<u64>, x: u64, m: u64)
    ensures SquaredDeviations(xs + [x], m) == SquaredDeviations(xs, m) + Mul64(Deviation(x, m), Deviation(x, m))
  {
    assert (xs + [x])[..|xs|] == xs;
  }

  /** The sum is zero exactly when every sample is. */
  lemma {:induction false} SumZero(xs: seq<u64>)
    ensures Sum(xs) == 0 <==> forall i :: 0 <= i < |xs| ==> xs[i] == 0
  {
    if xs != [] {
      var n := |xs| - 1;
      var prefix := xs[..n];
      assert forall i :: 0 <= i < n ==> prefix[i] == xs[i];
      SumZero(prefix);
    }
  }

  /** Samples between `lo` and `hi` sum to between `|xs| * lo` and `|xs| * hi`. */
  lemma {:induction false} SumBounds(xs: seq<u64>, lo: int, hi: int)
    requires forall i :: 0 <= i < |xs| ==> lo <= xs[i] <= hi
    ensures |xs| * lo <= Sum(xs) <= |xs| * hi
  {
    if xs != [] {
      var n := |xs| - 1;
      SumBounds(xs[..n], lo, hi);
      assert |xs| * lo == n * lo + lo && |xs| * hi == n * hi + hi;
    }
  }

  /** Samples below 2^64 / TIMES (about 5.1 hours of nanoseconds) never wrap
      the running total of a full calibration. */
  lemma TotalFits(xs: seq<u64>)
    requires |xs| <= TIMES
    requires forall i :: 0 <= i < |xs| ==> xs[i] < TWO64 / TIMES
    ensures Sum(xs) < TWO64
  {
    SumBounds(xs, 0, TWO64 / TIMES - 1);
    MulMonotone(|xs|, TIMES, TWO64 / TIMES - 1);
  }

  /** When the total does not wrap, the calibrated overhead lies between the
      smallest and the largest sample bound. */
  lemma MeanWithinSamples(xs: seq<u64>, lo: int, hi: int)
    requires 0 < |xs| && Sum(xs) < TWO64
    requires forall i :: 0 <= i < |xs| ==> lo <= xs[i] <= hi
    ensures lo <= Mean(xs) <= hi
  {
    SumBounds(xs, lo, hi);
    DivAtLeast(Sum(xs), |xs|, lo);
    DivAtMostBound(Sum(xs), |xs|, hi);
  }


  /** Samples that all equal the overhead have no deviation; conversely, a
      zero sum means every sample equals the overhead, provided no deviation
      reaches 2^32, where its square would wrap to a multiple of 2^64. */
  lemma {:induction false} SquaredDeviationsZero(xs: seq<u64>, m: u64)
    ensures (forall i :: 0 <= i < |xs| ==> xs[i] == m) ==> SquaredDeviations(xs, m) == 0
    ensures (forall i :: 0 <= i < |xs| ==> Deviation(xs[i], m) < TWO32) && SquaredDeviations(xs, m) == 0 ==>
              forall i :: 0 <= i < |xs| ==> xs[i] == m
  {
    if xs != [] {
      var n := |xs| - 1;
      var d := Deviation(xs[n], m);
      SquaredDeviationsZero(xs[..n], m);
      assert forall i :: 0 <= i < n ==> xs[..n][i] == xs[i];
      if d < TWO32 {
        MulMonotone(d, TWO32 - 1, d);
        MulMonotone(d, TWO32 - 1, TWO32 - 1);
        assert d * d < TWO64;
        if d != 0 {
          MulMonotone(1, d, d);
        }
      }
    }
  }
}
