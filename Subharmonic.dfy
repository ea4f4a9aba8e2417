/** Subharmonic summation: the score of a candidate fundamental is the sum
    of the magnitudes of the spectrum bins that lie within 10 Hz of one of
    its first five harmonics, a bin counted once per harmonic it matches. */
module Subharmonic {
  import opened Common

  /** Harmonic h of candFreq lies within 10 Hz of f. */
  predicate Hits(candFreq: real, f: real, h: int)
  {
    Abs(candFreq * (h as real) - f) < 10.0
  }

  /** What a bin of magnitude x at frequency f adds for harmonics 1..m:
      x once per harmonic that hits it. */
  function BinScore(candFreq: real, f: real, x: real, m: int): real
    decreases m
  {
    if m <= 0 then 0.0
    else BinScore(candFreq, f, x, m - 1) + (if Hits(candFreq, f, m) then x else 0.0)
  }

  /** A bin no harmonic hits adds nothing; a non-negative bin adds at
      least 0 and at most m times its magnitude. */
  lemma {:induction false} BinScoreBounds(candFreq: real, f: real, x: real, m: int)
    ensures (forall h :: 1 <= h <= m ==> !Hits(candFreq, f, h)) ==> BinScore(candFreq, f, x, m) == 0.0
    ensures x >= 0.0 ==> 0.0 <= BinScore(candFreq, f, x, m) <= (if m < 0 then 0.0 else m as real) * x
    decreases m
  {
    if m > 0 {
      BinScoreBounds(candFreq, f, x, m - 1);
      if x >= 0.0 {
        assert (m as real) * x == ((m - 1) as real) * x + x;
      }
    }
  }

  /** The score over the first n bins. */
  function ShsSum(spec: seq<real>, candFreq: real, nyquist: real, fftSize: int, n: int): real
    requires fftSize != 0 && n <= |spec|
    decreases n
  {
    if n <= 0 then 0.0
    else
      ShsSum(spec, candFreq, nyquist, fftSize, n - 1)
      + BinScore(candFreq, Freq(nyquist, fftSize, n - 1), spec[n - 1], 5)
  }

  /** The score over the whole spectrum. */
  function ShsPower(spec: seq<real>, candFreq: real, nyquist: real, fftSize: int): real
    requires fftSize != 0
  {
    ShsSum(spec, candFreq, nyquist, fftSize, |spec|)
  }

  /** A magnitude spectrum (no negative bin) scores at least 0. */
  lemma {:induction false} ShsSumNonNegative(spec: seq<real>, candFreq: real, nyquist: real, fftSize: int, n: int)
    requires fftSize != 0 && n <= |spec|
    requires forall i :: 0 <= i < |spec| ==> spec[i] >= 0.0
    ensures ShsSum(spec, candFreq, nyquist, fftSize, n) >= 0.0
    decreases n
  {
    if n > 0 {
      ShsSumNonNegative(spec, candFreq, nyquist, fftSize, n - 1);
      BinScoreBounds(candFreq, Freq(nyquist, fftSize, n - 1), spec[n - 1], 5);
    }
  }

  /** A bin that no harmonic comes near adds nothing: the score of a
      spectrum is unchanged wherever its candidate does not reach. */
  lemma {:induction false} ShsSumIgnoresUnmatchedBins(spec: seq<real>, spec': seq<real>, candFreq: real, nyquist: real, fftSize: int, n: int)
    requires fftSize != 0 && n <= |spec| && |spec'| == |spec|
    requires forall i, h :: 0 <= i < |spec| && 1 <= h <= 5 && Hits(candFreq, Freq(nyquist, fftSize, i), h) ==> spec'[i] == spec[i]
    ensures ShsSum(spec', candFreq, nyquist, fftSize, n) == ShsSum(spec, candFreq, nyquist, fftSize, n)
    decreases n
  {
    if n > 0 {
      ShsSumIgnoresUnmatchedBins(spec, spec', candFreq, nyquist, fftSize, n - 1);
      var f := Freq(nyquist, fftSize, n - 1);
      if spec'[n - 1] != spec[n - 1] {
        BinScoreBounds(candFreq, f, spec[n - 1], 5);
        BinScoreBounds(candFreq, f, spec'[n - 1], 5);
      }
    }
  }

  /** The double loop of `melo_SHS`: for every bin i, for every harmonic
      j = 1..5, add `spec[i]` when `|candFreq * j - freq(i)| < 10`. */
  method AccumulateHarmonics(spec: seq<real>, candFreq: real, nyquist: real, fftSize: int) returns (powerSum: real)
    requires fftSize != 0
    ensures powerSum == ShsPower(spec, candFreq, nyquist, fftSize)
  {
    powerSum := 0.0;
    var i := 0;
    while i < |spec|
      invariant 0 <= i <= |spec|
      invariant powerSum == ShsSum(spec, candFreq, nyquist, fftSize, i)
    {
      var f := Freq(nyquist, fftSize, i);
      var j := 1;
      while j <= 5
        invariant 1 <= j <= 6
        invariant powerSum == ShsSum(spec, candFreq, nyquist, fftSize, i) + BinScore(candFreq, f, spec[i], j - 1)
      {
        if Hits(candFreq, f, j) {
          powerSum := powerSum + spec[i];
        }
        j := j + 1;
      }
      i := i + 1;
    }
  }
}
