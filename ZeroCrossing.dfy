/** The voiced-lag plot: per frame, the autocorrelation lag search with a
    0.15 amplitude gate stores the winning lag itself (not a frequency),
    then the frame's zero crossings are counted and the lag is cleared when
    the crossing rate exceeds twice the lag. */
module ZeroCrossing {
  import opened Common
  import opened Autocorrelation

  const GateLevel: real := 0.15

  /** The sign changes between neighbouring samples that are counted. */
  predicate Crossing(a: real, b: real)
  {
    (a >= 0.0 && b < 0.0) || (a <= 0.0 && b > 0.0)
  }

  /** The number of j < n with a crossing from sample base + j to base + j + 1. */
  function CrossingCount(w: seq<real>, base: nat, n: int): (c: nat)
    requires n <= 0 || base + n < |w|
    ensures c <= if n < 0 then 0 else n
    decreases n
  {
    if n <= 0 then 0
    else CrossingCount(w, base, n - 1) + (if Crossing(w[base + n - 1], w[base + n]) then 1 else 0)
  }

  /** A frame of all-zero samples has no crossing. */
  lemma {:induction false} SilentFrameHasNoCrossing(w: seq<real>, base: nat, n: int)
    requires n <= 0 || base + n < |w|
    requires forall j :: base <= j < |w| ==> w[j] == 0.0
    ensures CrossingCount(w, base, n) == 0
    decreases n
  {
    if n > 0 {
      SilentFrameHasNoCrossing(w, base, n - 1);
    }
  }

  /** A frame whose samples keep one strict sign has no crossing either. */
  lemma {:induction false} OneSignHasNoCrossing(w: seq<real>, base: nat, n: int)
    requires n <= 0 || base + n < |w|
    requires (forall j :: base <= j < |w| ==> w[j] > 0.0) || (forall j :: base <= j < |w| ==> w[j] < 0.0)
    ensures CrossingCount(w, base, n) == 0
    decreases n
  {
    if n > 0 {
      OneSignHasNoCrossing(w, base, n - 1);
    }
  }

  /** `zero_crossing[i]`: the loop over j < frameSize - 1. */
  method CountCrossings(w: seq<real>, base: nat, frameSize: nat) returns (zc: int)
    requires base + frameSize <= |w|
    ensures zc == CrossingCount(w, base, frameSize - 1)
    ensures 0 <= zc && (frameSize > 0 ==> zc <= frameSize - 1)
  {
    zc := 0;
    var j := 0;
    while j < frameSize - 1
      invariant 0 <= j && (j <= frameSize - 1 || j == 0)
      invariant zc == CrossingCount(w, base, j)
    {
      if (w[base + j] >= 0.0 && w[base + j + 1] < 0.0) || (w[base + j] <= 0.0 && w[base + j + 1] > 0.0) {
        zc := zc + 1;
      }
      j := j + 1;
    }
  }

  /** The veto: a lag is cleared when the crossing rate exceeds twice it. */
  function Vetoed(lag: real, zc: int, frameDuration: real): (r: real)
    requires frameDuration != 0.0
    ensures r == 0.0 || r == lag
    ensures r == 0.0 <== (zc as real) / frameDuration > 2.0 * lag
    ensures (zc as real) / frameDuration <= 2.0 * lag ==> r == lag
  {
    if (zc as real) / frameDuration > 2.0 * lag then 0.0 else lag
  }

  /** The stored lag of frame i before the veto. */
  function FrameLag(waveform: seq<real>, frameSize: nat, shiftSize: nat, i: nat): real
  {
    FirstPeak(waveform, i * shiftSize, frameSize, Below(GateLevel)) as real
  }

  /** The lag loop of PlotZeroCrossing's `start`: `fundFreq[i]`, the lag
      search of every frame. */
  method FrameLags(waveform: seq<real>, frameSize: nat, shiftSize: nat, shiftSum: nat) returns (lags: seq<real>)
    ensures |lags| == shiftSum
    ensures forall i :: 0 <= i < shiftSum ==> lags[i] == FrameLag(waveform, frameSize, shiftSize, i)
  {
    var ff := new real[shiftSum];
    for i := 0 to shiftSum
      invariant forall k :: 0 <= k < i ==> ff[k] == FrameLag(waveform, frameSize, shiftSize, k)
    {
      var lag := FirstPeakLag(waveform, i * shiftSize, frameSize, Below(GateLevel));
      ff[i] := lag as real;
    }
    lags := ff[..];
  }

  /** The zero-crossing loop of `start`: `zero_crossing[i]` for every frame,
      and the veto applied to `fundFreq` in place. */
  method ApplyVeto(waveform: seq<real>, lags: seq<real>, frameSize: nat, shiftSize: nat, frameDuration: real)
    returns (fundFreq: seq<real>, zeroCrossing: seq<int>)
    requires frameDuration != 0.0
    requires forall i :: 0 <= i < |lags| ==> i * shiftSize + frameSize <= |waveform|
    ensures |fundFreq| == |lags| && |zeroCrossing| == |lags|
    ensures forall i :: 0 <= i < |lags| ==>
      zeroCrossing[i] == CrossingCount(waveform, i * shiftSize, frameSize - 1)
      && fundFreq[i] == Vetoed(lags[i], zeroCrossing[i], frameDuration)
  {
    var ff := new real[|lags|]((k: int) requires 0 <= k < |lags| => lags[k]);
    var zcs := new int[|lags|];
    for i := 0 to |lags|
      invariant forall k :: 0 <= k < i ==>
        zcs[k] == CrossingCount(waveform, k * shiftSize, frameSize - 1) && ff[k] == Vetoed(lags[k], zcs[k], frameDuration)
      invariant forall k :: i <= k < |lags| ==> ff[k] == lags[k]
    {
      zcs[i] := CountCrossings(waveform, i * shiftSize, frameSize);
      if (zcs[i] as real) / frameDuration > 2.0 * ff[i] {
        ff[i] := 0.0;
      }
    }
    fundFreq := ff[..];
    zeroCrossing := zcs[..];
  }

  /** Both loops of `start`: the lag of every frame, cleared where the
      frame's zero-crossing rate exceeds twice it. */
  method VoicedLags(waveform: seq<real>, frameSize: nat, shiftSize: nat, frameDuration: real)
    returns (fundFreq: seq<real>, zeroCrossing: seq<int>)
    requires shiftSize > 0 && frameDuration != 0.0
    requires FrameCount(|waveform|, frameSize, shiftSize) >= 0
    ensures |fundFreq| == FrameCount(|waveform|, frameSize, shiftSize) && |zeroCrossing| == |fundFreq|
    ensures forall i :: 0 <= i < |fundFreq| ==>
      i * shiftSize + frameSize <= |waveform|
      && zeroCrossing[i] == CrossingCount(waveform, i * shiftSize, frameSize - 1)
      && fundFreq[i] == Vetoed(FrameLag(waveform, frameSize, shiftSize, i), zeroCrossing[i], frameDuration)
  {
    var shiftSum := FrameCount(|waveform|, frameSize, shiftSize);
    forall k | 0 <= k < shiftSum
      ensures k * shiftSize + frameSize <= |waveform|
    {
      FrameWithinWaveform(|waveform|, frameSize, shiftSize, k);
    }
    var lags := FrameLags(waveform, frameSize, shiftSize, shiftSum);
    fundFreq, zeroCrossing := ApplyVeto(waveform, lags, frameSize, shiftSize, frameDuration);
  }

  /** Every stored value is 0 or a lag in [10, frameSize - 2] with a
      positive, first-maximal gated sum whose frame's crossing rate is at
      most twice it; a frame with no positive gated sum, or whose crossing
      rate exceeds twice its lag, stores 0. */
  lemma StoredValueIsVoicedLag(waveform: seq<real>, base: nat, frameSize: nat, zc: int, frameDuration: real)
    requires frameDuration != 0.0
    ensures var lag := FirstPeak(waveform, base, frameSize, Below(GateLevel));
      var v := Vetoed(lag as real, zc, frameDuration);
      && (v == 0.0 || (10 <= lag < frameSize - 1 && v == lag as real))
      && (v != 0.0 ==>
            && FrameLagSum(waveform, base, frameSize, lag, Below(GateLevel)) > 0.0
            && (zc as real) / frameDuration <= 2.0 * v)
      && ((forall t :: 10 <= t < frameSize - 1 ==> FrameLagSum(waveform, base, frameSize, t, Below(GateLevel)) <= 0.0) ==> v == 0.0)
  {
    FirstPeakIsFirstPositiveMaximum(waveform, base, frameSize, Below(GateLevel));
  }
}
