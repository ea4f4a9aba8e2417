/** The autocorrelation pitch search used by the waveform tools: for every
    lag t in [10, frameSize - 1) it sums x[j] * x[j + t] over
    j < frameSize - 1 of one frame, optionally zeroing a product when either
    sample is below a gate, and a read past the end of the waveform adds 0. */
module Autocorrelation {
  import opened Common

  /** The amplitude gate: none, or "zero the product when either sample is
      below `level`" (a signed comparison, so negative samples are gated). */
  datatype Gate = Ungated | Below(level: real)

  function GatedProduct(x: real, y: real, g: Gate): real
  {
    match g
    case Ungated => x * y
    case Below(level) => if x < level || y < level then 0.0 else x * y
  }

  /** Term j of the lag-t sum of the frame that starts at `base`. */
  function LagTerm(w: seq<real>, base: nat, j: nat, t: nat, g: Gate): real
  {
    if base + j + t >= |w| then 0.0 else GatedProduct(w[base + j], w[base + j + t], g)
  }

  /** The sum of the first n terms. */
  function LagSum(w: seq<real>, base: nat, t: nat, n: int, g: Gate): real
    decreases n
  {
    if n <= 0 then 0.0 else LagSum(w, base, t, n - 1, g) + LagTerm(w, base, n - 1, t, g)
  }

  /** Under a gate, a waveform whose samples all lie below the level sums
      to 0 at every lag. */
  lemma {:induction false} QuietLagSumIsZero(w: seq<real>, base: nat, t: nat, n: int, level: real)
    requires forall i :: 0 <= i < |w| ==> w[i] < level
    ensures LagSum(w, base, t, n, Below(level)) == 0.0
    decreases n
  {
    if n > 0 {
      QuietLagSumIsZero(w, base, t, n - 1, level);
    }
  }

  /** The lag-t sum of one frame: `j` runs over `0 .. frameSize - 2`. */
  function FrameLagSum(w: seq<real>, base: nat, frameSize: nat, t: nat, g: Gate): real
  {
    LagSum(w, base, t, frameSize - 1, g)
  }

  /** The number of candidate lags 10 .. frameSize - 2. */
  function LagCount(frameSize: nat): nat
  {
    if frameSize >= 11 then frameSize - 11 else 0
  }

  /** The sums of the candidate lags, lag 10 + k at index k. */
  function LagSums(w: seq<real>, base: nat, frameSize: nat, g: Gate): (s: seq<real>)
    ensures |s| == LagCount(frameSize)
  {
    seq(LagCount(frameSize), (k: nat) => FrameLagSum(w, base, frameSize, 10 + k, g))
  }

  /** Reference definition of the lag a running-maximum scan starting from
      0 settles on: the first maximal lag if its sum is positive, else 0. */
  function FirstPeak(w: seq<real>, base: nat, frameSize: nat, g: Gate): nat
  {
    var s := LagSums(w, base, frameSize, g);
    if |s| == 0 then 0
    else
      var k := FirstArgmax(s);
      if s[k] > 0.0 then 10 + k else 0
  }

  /** FirstPeak is 0 exactly when no lag has a positive sum; otherwise it is
      a lag in range whose sum is positive and maximal, and every earlier
      lag's sum is strictly smaller. */
  lemma FirstPeakIsFirstPositiveMaximum(w: seq<real>, base: nat, frameSize: nat, g: Gate)
    ensures var lag := FirstPeak(w, base, frameSize, g);
      && (lag == 0 <==> forall t :: 10 <= t < frameSize - 1 ==> FrameLagSum(w, base, frameSize, t, g) <= 0.0)
      && (lag != 0 ==>
            && 10 <= lag < frameSize - 1
            && FrameLagSum(w, base, frameSize, lag, g) > 0.0
            && (forall t :: 10 <= t < frameSize - 1 ==>
                  FrameLagSum(w, base, frameSize, t, g) <= FrameLagSum(w, base, frameSize, lag, g))
            && (forall t :: 10 <= t < lag ==>
                  FrameLagSum(w, base, frameSize, t, g) < FrameLagSum(w, base, frameSize, lag, g)))
  {
    var s := LagSums(w, base, frameSize, g);
    var lag := FirstPeak(w, base, frameSize, g);
    forall t | 10 <= t < frameSize - 1
      ensures FrameLagSum(w, base, frameSize, t, g) == s[t - 10]
    {
    }
    if |s| > 0 {
      var k := FirstArgmax(s);
      assert s[k] == FrameLagSum(w, base, frameSize, 10 + k, g);
    }
  }

  /** `ac[i] = 0; for (j < frameSize - 1) ac[i] += ...`: one lag's sum. */
  method AccumulateLag(w: seq<real>, base: nat, t: nat, frameSize: nat, g: Gate) returns (ac: real)
    ensures ac == FrameLagSum(w, base, frameSize, t, g)
  {
    ac := 0.0;
    var j := 0;
    while j < frameSize - 1
      invariant 0 <= j && (j <= frameSize - 1 || j == 0)
      invariant ac == LagSum(w, base, t, j, g)
    {
      if base + j + t >= |w| {
        ac := ac + 0.0;
      } else {
        var sig0 := w[base + j];
        var sig1 := w[base + j + t];
        if g.Below? && (sig0 < g.level || sig1 < g.level) {
          sig0 := 0.0;
        }
        ac := ac + sig0 * sig1;
      }
      j := j + 1;
    }
  }

  /** The lag loop with `ac_buf` reset once per frame: `ac_buf` keeps the
      largest positive sum seen and the lag that first reached it. */
  method FirstPeakLag(w: seq<real>, base: nat, frameSize: nat, g: Gate) returns (lag: nat)
    ensures lag == FirstPeak(w, base, frameSize, g)
  {
    var acBuf := 0.0;
    lag := 0;
    var t := 10;
    while t < frameSize - 1
      invariant 10 <= t && (t <= frameSize - 1 || t == 10)
      invariant lag == 0 ==> acBuf == 0.0
      invariant lag != 0 ==> 10 <= lag < t && acBuf > 0.0 && acBuf == FrameLagSum(w, base, frameSize, lag, g)
      invariant forall u :: 10 <= u < t ==> FrameLagSum(w, base, frameSize, u, g) <= acBuf
      invariant forall u :: 10 <= u < lag ==> FrameLagSum(w, base, frameSize, u, g) < acBuf
    {
      var ac := AccumulateLag(w, base, t, frameSize, g);
      if acBuf < ac {
        acBuf := ac;
        lag := t;
      }
      t := t + 1;
    }
    ScanEndsOnFirstPeak(w, base, frameSize, g, lag, acBuf);
  }

  lemma ScanEndsOnFirstPeak(w: seq<real>, base: nat, frameSize: nat, g: Gate, lag: nat, acBuf: real)
    requires lag == 0 ==> acBuf == 0.0
    requires lag != 0 ==> 10 <= lag < frameSize - 1 && acBuf > 0.0 && acBuf == FrameLagSum(w, base, frameSize, lag, g)
    requires forall u :: 10 <= u < frameSize - 1 ==> FrameLagSum(w, base, frameSize, u, g) <= acBuf
    requires forall u :: 10 <= u < lag ==> FrameLagSum(w, base, frameSize, u, g) < acBuf
    ensures lag == FirstPeak(w, base, frameSize, g)
  {
    var s := LagSums(w, base, frameSize, g);
    if |s| > 0 {
      var k := FirstArgmax(s);
      assert s[k] == FrameLagSum(w, base, frameSize, 10 + k, g);
      if lag != 0 {
        assert forall j :: 0 <= j < |s| ==> s[j] == FrameLagSum(w, base, frameSize, 10 + j, g);
        assert IsFirstArgmax(s, lag - 10);
        FirstArgmaxUnique(s, lag - 10);
      }
    }
  }
}
