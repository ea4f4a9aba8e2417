/** The loudness plot: per frame, the sum of the squared samples divided by
    the length of the whole waveform (not the frame), then converted to
    decibels by `20 log10(sqrt(v))`, which is the parameter `decibels`. */
module Loudness {
  import opened Common

  /** The sum of the squares (`Math.pow(x, 2.0)`) of the n samples from
      `base`. */
  function SumOfSquares(w: seq<real>, base: nat, n: nat): (e: real)
    requires base + n <= |w|
    decreases n
  {
    if n == 0 then 0.0 else SumOfSquares(w, base, n - 1) + Sq(w[base + n - 1])
  }

  /** A frame's energy before the decibel step. */
  function Energy(w: seq<real>, base: nat, frameSize: nat): real
    requires base + frameSize <= |w| && |w| > 0
  {
    SumOfSquares(w, base, frameSize) / (|w| as real)
  }

  /** The sum is never negative, and is 0 when every sample of the frame
      is 0. */
  lemma {:induction false} SumOfSquaresProperties(w: seq<real>, base: nat, n: nat)
    requires base + n <= |w|
    ensures SumOfSquares(w, base, n) >= 0.0
    ensures (forall j :: base <= j < base + n ==> w[j] == 0.0) ==> SumOfSquares(w, base, n) == 0.0
    decreases n
  {
    if n > 0 {
      SumOfSquaresProperties(w, base, n - 1);
      SquareNonNegative(w[base + n - 1]);
    }
  }

  /** The energy of a frame is non-negative, 0 for an all-zero frame, and
      is taken relative to the waveform length, not the frame length. */
  lemma EnergyProperties(w: seq<real>, base: nat, frameSize: nat)
    requires base + frameSize <= |w| && |w| > 0
    ensures Energy(w, base, frameSize) >= 0.0
    ensures (forall j :: base <= j < base + frameSize ==> w[j] == 0.0) ==> Energy(w, base, frameSize) == 0.0
    ensures Energy(w, base, frameSize) * (|w| as real) == SumOfSquares(w, base, frameSize)
  {
    SumOfSquaresProperties(w, base, frameSize);
  }

  /** `vol[i] += pow(waveform[i * shiftSize + j], 2)` over the frame. */
  method FrameEnergy(w: seq<real>, base: nat, frameSize: nat) returns (vol: real)
    requires base + frameSize <= |w| && |w| > 0
    ensures vol == Energy(w, base, frameSize)
  {
    vol := 0.0;
    for j := 0 to frameSize
      invariant vol == SumOfSquares(w, base, j)
    {
      vol := vol + Sq(w[base + j]);
    }
    vol := vol / (|w| as real);
  }

  /** The volume loop of PlotLoudness's `start`: one value per frame, `(len
      - frameSize) / shiftSize` frames, every read inside the waveform. */
  method Volume(waveform: seq<real>, frameSize: nat, shiftSize: nat, decibels: real -> real) returns (vol: seq<real>)
    requires shiftSize > 0
    requires FrameCount(|waveform|, frameSize, shiftSize) >= 0
    ensures |vol| == FrameCount(|waveform|, frameSize, shiftSize)
    ensures forall i :: 0 <= i < |vol| ==>
      i * shiftSize + frameSize <= |waveform| && |waveform| > 0
      && vol[i] == decibels(Energy(waveform, i * shiftSize, frameSize))
  {
    var n := FrameCount(|waveform|, frameSize, shiftSize);
    var v := new real[n];
    for i := 0 to n
      invariant forall k :: 0 <= k < i ==>
        k * shiftSize + frameSize <= |waveform| && |waveform| > 0
        && v[k] == decibels(Energy(waveform, k * shiftSize, frameSize))
    {
      FrameWithinWaveform(|waveform|, frameSize, shiftSize, i);
      assert |waveform| > 0 by {
        assert |waveform| - frameSize >= shiftSize by {
          assert n >= 1;
        }
      }
      var e := FrameEnergy(waveform, i * shiftSize, frameSize);
      v[i] := decibels(e);
    }
    vol := v[..];
  }
}
