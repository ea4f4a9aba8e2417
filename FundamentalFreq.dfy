/** The ungated autocorrelation plot. Its `ac_buf` is reset to 0 inside the
    lag loop, so each lag is compared with 0 rather than with the best sum
    so far: the stored value is the LAST lag whose sum is positive. */
module FundamentalFreq {
  import opened Common
  import opened Autocorrelation

  /** The last lag u in [10, t) whose ungated sum is positive, or 0. */
  function LastPositiveLag(w: seq<real>, base: nat, frameSize: nat, t: int): (lag: nat)
    ensures lag == 0 || 10 <= lag < t
    decreases t
  {
    if t <= 10 then 0
    else if FrameLagSum(w, base, frameSize, t - 1, Ungated) > 0.0 then t - 1
    else LastPositiveLag(w, base, frameSize, t - 1)
  }

  /** LastPositiveLag is 0 exactly when no lag below t has a positive sum;
      otherwise its sum is positive and no later lag below t has one. */
  lemma {:induction false} LastPositiveLagIsLast(w: seq<real>, base: nat, frameSize: nat, t: int)
    ensures var lag := LastPositiveLag(w, base, frameSize, t);
      && (lag == 0 <==> forall u :: 10 <= u < t ==> FrameLagSum(w, base, frameSize, u, Ungated) <= 0.0)
      && (lag != 0 ==>
            && FrameLagSum(w, base, frameSize, lag, Ungated) > 0.0
            && forall u :: lag < u < t ==> FrameLagSum(w, base, frameSize, u, Ungated) <= 0.0)
    decreases t
  {
    if t > 10 {
      LastPositiveLagIsLast(w, base, frameSize, t - 1);
    }
  }

  /** The frame's stored value: the last positive lag in [10, frameSize - 1). */
  function FrameValue(w: seq<real>, base: nat, frameSize: nat): (v: nat)
    ensures v == 0 || 10 <= v <= frameSize - 2
  {
    LastPositiveLag(w, base, frameSize, frameSize - 1)
  }

  /** The lag loop of one frame in PlotFundamentalFreq's `start`. */
  method FrameLag(w: seq<real>, base: nat, frameSize: nat) returns (fundFreq: real)
    ensures fundFreq == FrameValue(w, base, frameSize) as real
  {
    fundFreq := 0.0;
    var t := 10;
    while t < frameSize - 1
      invariant 10 <= t && (t <= frameSize - 1 || t == 10)
      invariant fundFreq == LastPositiveLag(w, base, frameSize, t) as real
    {
      var acBuf := 0.0;
      var ac := AccumulateLag(w, base, t, frameSize, Ungated);
      if acBuf < ac {
        acBuf := ac;
        fundFreq := t as real;
      }
      t := t + 1;
    }
  }

  /** The fundamental-frequency loop of `start`: one value per frame, `(len
      - frameSize) / shiftSize` frames. */
  method LagTrack(waveform: seq<real>, frameSize: nat, shiftSize: nat) returns (fundFreq: seq<real>)
    requires shiftSize > 0
    requires FrameCount(|waveform|, frameSize, shiftSize) >= 0
    ensures |fundFreq| == FrameCount(|waveform|, frameSize, shiftSize)
    ensures forall i :: 0 <= i < |fundFreq| ==> fundFreq[i] == FrameValue(waveform, i * shiftSize, frameSize) as real
  {
    var shiftSum := FrameCount(|waveform|, frameSize, shiftSize);
    var ff := new real[shiftSum];
    for i := 0 to shiftSum
      invariant forall k :: 0 <= k < i ==> ff[k] == FrameValue(waveform, k * shiftSize, frameSize) as real
    {
      ff[i] := FrameLag(waveform, i * shiftSize, frameSize);
    }
    fundFreq := ff[..];
  }

  /** A frame of all-zero samples stores 0. */
  lemma {:induction false} SilentFrameStoresZero(w: seq<real>, base: nat, frameSize: nat, t: int)
    requires forall i :: 0 <= i < |w| ==> w[i] == 0.0
    ensures LastPositiveLag(w, base, frameSize, t) == 0
    decreases t
  {
    if t > 10 {
      SilentLagSumIsZero(w, base, t - 1, frameSize - 1);
      SilentFrameStoresZero(w, base, frameSize, t - 1);
    }
  }

  lemma {:induction false} SilentLagSumIsZero(w: seq<real>, base: nat, t: nat, n: int)
    requires forall i :: 0 <= i < |w| ==> w[i] == 0.0
    ensures LagSum(w, base, t, n, Ungated) == 0.0
    decreases n
  {
    if n > 0 {
      SilentLagSumIsZero(w, base, t, n - 1);
    }
  }
}
