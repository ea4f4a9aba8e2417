/** Band sums for chroma: the spectrum bins whose frequency lies in a
    closed band [lo, hi], their summed magnitude and their number. */
module Chroma {
  import opened Common

  predicate InBand(f: real, lo: real, hi: real)
  {
    f >= lo && f <= hi
  }

  /** The summed magnitude of the first n bins inside [lo, hi]. */
  function BandSum(spec: seq<real>, nyquist: real, fftSize: int, lo: real, hi: real, n: int): real
    requires fftSize != 0 && n <= |spec|
    decreases n
  {
    if n <= 0 then 0.0
    else
      BandSum(spec, nyquist, fftSize, lo, hi, n - 1)
      + (if InBand(Freq(nyquist, fftSize, n - 1), lo, hi) then spec[n - 1] else 0.0)
  }

  /** The number of the first n bins inside [lo, hi]. */
  function BandCount(nyquist: real, fftSize: int, lo: real, hi: real, n: int): (r: nat)
    requires fftSize != 0
    ensures r <= if n < 0 then 0 else n
    decreases n
  {
    if n <= 0 then 0
    else BandCount(nyquist, fftSize, lo, hi, n - 1) + (if InBand(Freq(nyquist, fftSize, n - 1), lo, hi) then 1 else 0)
  }

  lemma {:induction false} BandSumNonNegative(spec: seq<real>, nyquist: real, fftSize: int, lo: real, hi: real, n: int)
    requires fftSize != 0 && n <= |spec|
    requires forall i :: 0 <= i < |spec| ==> spec[i] >= 0.0
    ensures BandSum(spec, nyquist, fftSize, lo, hi, n) >= 0.0
    decreases n
  {
    if n > 0 {
      BandSumNonNegative(spec, nyquist, fftSize, lo, hi, n - 1);
    }
  }

  /** A band no bin falls into sums to 0. */
  lemma {:induction false} EmptyBandSumsToZero(spec: seq<real>, nyquist: real, fftSize: int, lo: real, hi: real, n: int)
    requires fftSize != 0 && n <= |spec|
    requires BandCount(nyquist, fftSize, lo, hi, n) == 0
    ensures BandSum(spec, nyquist, fftSize, lo, hi, n) == 0.0
    decreases n
  {
    if n > 0 {
      EmptyBandSumsToZero(spec, nyquist, fftSize, lo, hi, n - 1);
    }
  }
}
