/** The frame-based vowel recogniser. Training cuts five vowel segments of
    a recording into frames, keeps 13 real cepstral coefficients per frame,
    and fits a diagonal Gaussian per vowel (population mean and variance
    over every frame slot, the empty ones included). Recognition frames a
    test recording, scores each frame against the five Gaussians and picks
    the last vowel of maximal likelihood. The transform from a frame to its
    cepstrum is the parameter `cepstrumOf`, `Math.log10` the parameter
    `log10`. */
module SpeechRecogR {
  import opened Common
  import opened Cepstrum

  const Vowels: nat := 5

  function Zeros(n: nat): (r: seq<real>)
    ensures |r| == n && forall i :: 0 <= i < n ==> r[i] == 0.0
  {
    seq(n, (i: int) => 0.0)
  }

  // ---------------------------------------------------------------------
  // Training frames

  /** The segment's count frames fit in the waveform: its last frame ends
      inside it. */
  predicate SegmentInBounds(len: int, start: int, count: int, shiftSize: nat, frameSize: nat)
  {
    count > 0 ==> 0 <= start && start + (count - 1) * shiftSize + frameSize <= len
  }

  /** `wave_vowel[i][j]` for a segment: frame j holds frameSize samples from
      start + j * shiftSize when j is below the segment's frame count, and
      stays zero otherwise. */
  function TrainingFrame(waveform: seq<real>, start: int, count: int, shiftSize: nat, frameSize: nat, j: nat): (f: seq<real>)
    requires SegmentInBounds(|waveform|, start, count, shiftSize, frameSize)
    ensures |f| == frameSize
  {
    if j < count then
      assert j * shiftSize <= (count - 1) * shiftSize by { MulMonotone(j, count - 1, shiftSize); }
      waveform[start + j * shiftSize .. start + j * shiftSize + frameSize]
    else Zeros(frameSize)
  }

  /** `for (k < frameSize) wave_vowel[i][j][k] = waveform[offset + k]`. */
  method CopyFrame(waveform: seq<real>, offset: int, frameSize: nat) returns (frame: seq<real>)
    requires 0 <= offset && offset + frameSize <= |waveform|
    ensures frame == waveform[offset .. offset + frameSize]
  {
    var buf := new real[frameSize]((k: int) => 0.0);
    for k := 0 to frameSize
      invariant forall m :: 0 <= m < k ==> buf[m] == waveform[offset + m]
    {
      buf[k] := waveform[offset + k];
    }
    frame := buf[..];
  }

  /** The frames of one vowel segment. */
  method SegmentFrames(waveform: seq<real>, start: int, count: int, shift2sec: nat, shiftSize: nat, frameSize: nat)
    returns (frames: seq<seq<real>>)
    requires shiftSize > 0 && count <= shift2sec && SegmentInBounds(|waveform|, start, count, shiftSize, frameSize)
    ensures |frames| == shift2sec
    ensures forall j :: 0 <= j < shift2sec ==> frames[j] == TrainingFrame(waveform, start, count, shiftSize, frameSize, j)
  {
    frames := [];
    var j := 0;
    while j < shift2sec
      invariant 0 <= j <= shift2sec && |frames| == j
      invariant forall m :: 0 <= m < j ==> frames[m] == TrainingFrame(waveform, start, count, shiftSize, frameSize, m)
    {
      var frame;
      if j < count {
        MulMonotone(j, count - 1, shiftSize);
        frame := CopyFrame(waveform, start + j * shiftSize, frameSize);
      } else {
        frame := Zeros(frameSize);
      }
      frames := frames + [frame];
      j := j + 1;
    }
  }

  /** The framing of the training vowels in `start`: `wave_vowel[i][j][k]`,
      every vowel's frames. */
  method VowelFrames(waveform: seq<real>, starts: seq<int>, counts: seq<int>, shift2sec: nat, shiftSize: nat, frameSize: nat)
    returns (waveVowel: seq<seq<seq<real>>>)
    requires shiftSize > 0 && |starts| == Vowels && |counts| == Vowels
    requires forall i :: 0 <= i < Vowels ==> counts[i] <= shift2sec && SegmentInBounds(|waveform|, starts[i], counts[i], shiftSize, frameSize)
    ensures |waveVowel| == Vowels
    ensures forall i :: 0 <= i < Vowels ==> |waveVowel[i]| == shift2sec
    ensures forall i, j :: 0 <= i < Vowels && 0 <= j < shift2sec ==>
      waveVowel[i][j] == TrainingFrame(waveform, starts[i], counts[i], shiftSize, frameSize, j)
  {
    waveVowel := [];
    for i := 0 to Vowels
      invariant |waveVowel| == i
      invariant forall m :: 0 <= m < i ==> |waveVowel[m]| == shift2sec
      invariant forall m, j :: 0 <= m < i && 0 <= j < shift2sec ==>
        waveVowel[m][j] == TrainingFrame(waveform, starts[m], counts[m], shiftSize, frameSize, j)
    {
      var frames := SegmentFrames(waveform, starts[i], counts[i], shift2sec, shiftSize, frameSize);
      waveVowel := waveVowel + [frames];
    }
  }

  /** Sample k of frame j < count is `waveform[start + j * shiftSize + k]`. */
  lemma TrainingFrameSample(waveform: seq<real>, start: int, count: int, shiftSize: nat, frameSize: nat, j: nat, k: nat)
    requires SegmentInBounds(|waveform|, start, count, shiftSize, frameSize)
    requires j < count && k < frameSize
    ensures 0 <= start + j * shiftSize + k < |waveform|
    ensures TrainingFrame(waveform, start, count, shiftSize, frameSize, j)[k] == waveform[start + j * shiftSize + k]
  {
    MulMonotone(j, count - 1, shiftSize);
  }

  // ---------------------------------------------------------------------
  // Features

  /** The 13 real parts a cepstrum contributes: coefficient k for k below
      both 13 and the cepstrum's length, 0 beyond it. */
  function FeatureVector(cep: seq<Complex>): (v: seq<real>)
    ensures |v| == Order
  {
    seq(Order, (k: nat) => if k < |cep| then cep[k].re else 0.0)
  }

  /** The features of frame slot j: those of its cepstrum when the slot
      holds a frame of the segment, all zero when it does not. */
  function SlotFeatures(cep: seq<Complex>, filled: bool): (v: seq<real>)
    ensures |v| == Order
  {
    if filled then FeatureVector(cep) else Zeros(Order)
  }

  /** The body of the feature loop of `start` for one frame: an empty slot's
      cepstrum is filled with ZERO, then coefficients from 13 on are zeroed
      and the lower ones' real parts copied into `cepstrum_re[i][j]`, which
      starts as 13 zeros. */
  method FrameFeatures(cep: seq<Complex>, filled: bool) returns (cepstrumRe: seq<real>)
    ensures cepstrumRe == SlotFeatures(cep, filled)
  {
    var c := new Complex[|cep|]((k: int) requires 0 <= k < |cep| => cep[k]);
    if !filled {
      for k := 0 to c.Length
        invariant forall m :: 0 <= m < k ==> c[m] == Zero
      {
        c[k] := Zero;
      }
    }
    ghost var source := c[..];
    assert !filled ==> forall m :: 0 <= m < c.Length ==> source[m] == Zero;
    assert filled ==> source == cep;
    var re := new real[13]((k: int) => 0.0);
    for k := 0 to c.Length
      invariant forall m :: 0 <= m < 13 ==> re[m] == if m < k && m < |cep| then source[m].re else 0.0
      invariant forall m :: k <= m < c.Length ==> c[m] == source[m]
    {
      if k >= 13 {
        c[k] := Zero;
      } else {
        re[k] := c[k].re;
      }
    }
    cepstrumRe := re[..];
  }

  /** The feature loop of `start`: the features of every frame slot of every
      vowel. */
  method TrainingFeatures(waveVowel: seq<seq<seq<real>>>, counts: seq<int>, cepstrumOf: seq<real> -> seq<Complex>)
    returns (cepstrumRe: seq<seq<seq<real>>>)
    requires |waveVowel| == Vowels && |counts| == Vowels
    ensures |cepstrumRe| == Vowels
    ensures forall i :: 0 <= i < Vowels ==> |cepstrumRe[i]| == |waveVowel[i]|
    ensures forall i, j :: 0 <= i < Vowels && 0 <= j < |waveVowel[i]| ==>
      cepstrumRe[i][j] == SlotFeatures(cepstrumOf(waveVowel[i][j]), j < counts[i])
  {
    cepstrumRe := [];
    for i := 0 to Vowels
      invariant |cepstrumRe| == i
      invariant forall m :: 0 <= m < i ==> |cepstrumRe[m]| == |waveVowel[m]|
      invariant forall m, j :: 0 <= m < i && 0 <= j < |waveVowel[m]| ==>
        cepstrumRe[m][j] == SlotFeatures(cepstrumOf(waveVowel[m][j]), j < counts[m])
    {
      var rows: seq<seq<real>> := [];
      for j := 0 to |waveVowel[i]|
        invariant |rows| == j
        invariant forall m :: 0 <= m < j ==> rows[m] == SlotFeatures(cepstrumOf(waveVowel[i][m]), m < counts[i])
      {
        var v := FrameFeatures(cepstrumOf(waveVowel[i][j]), j < counts[i]);
        rows := rows + [v];
      }
      cepstrumRe := cepstrumRe + [rows];
    }
  }

  /** Only the first 13 coefficients are read, so truncating a cepstrum
      first does not change its features; a slot past the segment has all
      13 features 0. */
  lemma FeaturesIgnoreTruncation(cep: seq<Complex>)
    ensures FeatureVector(Truncated(cep)) == FeatureVector(cep)
    ensures SlotFeatures(cep, false) == Zeros(Order)
  {
  }

  // ---------------------------------------------------------------------
  // Training

  /** Dimension d of every frame slot of one vowel. */
  function Column(rows: seq<seq<real>>, d: nat): (c: seq<real>)
    requires forall n :: 0 <= n < |rows| ==> d < |rows[n]|
    ensures |c| == |rows|
  {
    seq(|rows|, (n: int) requires 0 <= n < |rows| => rows[n][d])
  }

  /** `mu += x / N` over the N values. */
  function Mean(xs: seq<real>): real
  {
    if |xs| == 0 then 0.0 else Sum(Scaled(xs, |xs| as real))
  }

  function SquaredDeviations(xs: seq<real>, mu: real): (r: seq<real>)
    ensures |r| == |xs|
  {
    seq(|xs|, (n: int) requires 0 <= n < |xs| => Sq(xs[n] - mu))
  }

  /** `sigma2 += (x - mu)^2 / N` over the N values: the population variance. */
  function Variance(xs: seq<real>): real
  {
    if |xs| == 0 then 0.0 else Sum(Scaled(SquaredDeviations(xs, Mean(xs)), |xs| as real))
  }

  lemma {:induction false} SumNonNegative(s: seq<real>)
    requires forall i :: 0 <= i < |s| ==> s[i] >= 0.0
    ensures Sum(s) >= 0.0
    decreases |s|
  {
    if |s| > 0 {
      SumNonNegative(s[..|s| - 1]);
    }
  }

  lemma {:induction false} SumOfConstant(s: seq<real>, c: real)
    requires forall i :: 0 <= i < |s| ==> s[i] == c
    ensures Sum(s) == (|s| as real) * c
    decreases |s|
  {
    if |s| > 0 {
      SumOfConstant(s[..|s| - 1], c);
    }
  }

  /** The mean is the sum over the count. */
  lemma MeanIsAverage(xs: seq<real>)
    requires |xs| > 0
    ensures Mean(xs) == Sum(xs) / (|xs| as real)
  {
    SumOfScaled(xs, |xs| as real);
  }

  /** The variance is never negative. */
  lemma VarianceNonNegative(xs: seq<real>)
    ensures Variance(xs) >= 0.0
  {
    if |xs| > 0 {
      var sq := SquaredDeviations(xs, Mean(xs));
      SumOfScaled(sq, |xs| as real);
      forall n | 0 <= n < |sq|
        ensures sq[n] >= 0.0
      {
        SquareNonNegative(xs[n] - Mean(xs));
      }
      SumNonNegative(sq);
    }
  }

  lemma DivideOut(a: real, n: real, c: real)
    requires n != 0.0 && a == n * c
    ensures a / n == c
  {
  }

  /** A column whose values are all c has mean c and variance 0. */
  lemma ConstantColumn(xs: seq<real>, c: real)
    requires |xs| > 0 && forall n :: 0 <= n < |xs| ==> xs[n] == c
    ensures Mean(xs) == c && Variance(xs) == 0.0
  {
    var N := |xs| as real;
    MeanIsAverage(xs);
    SumOfConstant(xs, c);
    DivideOut(Sum(xs), N, c);
    var sq := SquaredDeviations(xs, c);
    assert forall n :: 0 <= n < |sq| ==> sq[n] == Sq(0.0);
    SumOfConstant(sq, 0.0);
    SumOfScaled(sq, N);
  }

  /** The empty frame slots take part in the mean: when only the first
      count slots hold frames, the mean is their sum over all N slots. */
  lemma MeanCountsEmptySlots(xs: seq<real>, count: nat)
    requires count <= |xs| && |xs| > 0
    requires forall n :: count <= n < |xs| ==> xs[n] == 0.0
    ensures Mean(xs) == Sum(xs[..count]) / (|xs| as real)
  {
    assert xs == xs[..count] + Zeros(|xs| - count);
    SumOfAppended(xs[..count], Zeros(|xs| - count));
    SumOfZeros(|xs| - count);
    assert Zeros(|xs| - count) == seq(|xs| - count, (i: int) => 0.0);
    MeanIsAverage(xs);
  }

  /** `for (n < N) acc = acc + f(x[n]) / N` over a column, as a loop. */
  method MeanOf(xs: seq<real>) returns (mu: real)
    ensures mu == Mean(xs)
  {
    mu := 0.0;
    if |xs| == 0 {
      return;
    }
    var N := |xs| as real;
    for n := 0 to |xs|
      invariant mu == Sum(Scaled(xs[..n], N))
    {
      assert Scaled(xs[..n + 1], N)[..n] == Scaled(xs[..n], N);
      mu := mu + xs[n] / N;
    }
    assert xs[..|xs|] == xs;
  }

  method VarianceOf(xs: seq<real>, mu: real) returns (sigma2: real)
    requires mu == Mean(xs)
    ensures sigma2 == Variance(xs)
  {
    sigma2 := 0.0;
    if |xs| == 0 {
      return;
    }
    var N := |xs| as real;
    ghost var sq := SquaredDeviations(xs, mu);
    for n := 0 to |xs|
      invariant sigma2 == Sum(Scaled(sq[..n], N))
    {
      assert Scaled(sq[..n + 1], N)[..n] == Scaled(sq[..n], N);
      sigma2 := sigma2 + Sq(xs[n] - mu) / N;
    }
    assert sq[..|xs|] == sq;
  }

  /** Rows of 13 features for every frame slot of every vowel. */
  ghost predicate FeatureShape(cepstrumRe: seq<seq<seq<real>>>)
  {
    |cepstrumRe| == Vowels
    && forall i, n :: 0 <= i < Vowels && 0 <= n < |cepstrumRe[i]| ==> |cepstrumRe[i][n]| == Order
  }

  /** The training step of `start`: per vowel and dimension, the mean and
      the population variance over the vowel's frame slots. */
  method Train(cepstrumRe: seq<seq<seq<real>>>) returns (mu: seq<seq<real>>, sigma2: seq<seq<real>>)
    requires FeatureShape(cepstrumRe)
    ensures |mu| == Vowels && |sigma2| == Vowels
    ensures forall i :: 0 <= i < Vowels ==> |mu[i]| == Order && |sigma2[i]| == Order
    ensures forall i, d :: 0 <= i < Vowels && 0 <= d < Order ==>
      mu[i][d] == Mean(Column(cepstrumRe[i], d)) && sigma2[i][d] == Variance(Column(cepstrumRe[i], d))
  {
    mu := [];
    sigma2 := [];
    for i := 0 to Vowels
      invariant |mu| == i && |sigma2| == i
      invariant forall m :: 0 <= m < i ==> |mu[m]| == Order && |sigma2[m]| == Order
      invariant forall m, d :: 0 <= m < i && 0 <= d < Order ==>
        mu[m][d] == Mean(Column(cepstrumRe[m], d)) && sigma2[m][d] == Variance(Column(cepstrumRe[m], d))
    {
      var muRow: seq<real> := [];
      var s2Row: seq<real> := [];
      for d := 0 to Order
        invariant |muRow| == d && |s2Row| == d
        invariant forall e :: 0 <= e < d ==>
          muRow[e] == Mean(Column(cepstrumRe[i], e)) && s2Row[e] == Variance(Column(cepstrumRe[i], e))
      {
        var col := Column(cepstrumRe[i], d);
        var m := MeanOf(col);
        var v := VarianceOf(col, m);
        muRow := muRow + [m];
        s2Row := s2Row + [v];
      }
      mu := mu + [muRow];
      sigma2 := sigma2 + [s2Row];
    }
  }

  // ---------------------------------------------------------------------
  // Test frames

  /** Frame i of the test recording starts at i * shiftSum, where shiftSum
      is the frame count of the training recording. */
  predicate TestFramesFit(len2: int, shiftSum: int, frameSize: nat)
  {
    shiftSum <= 0 || (shiftSum - 1) * shiftSum + frameSize <= len2
  }

  /** The framing of the test recording in `start`: `wave2_frame[i][j] =
      waveform2[i * shiftSum + j]`. */
  method TestFrames(waveform2: seq<real>, trainLength: nat, frameSize: nat, shiftSize: nat) returns (frames: seq<seq<real>>)
    requires shiftSize > 0
    requires FrameCount(trainLength, frameSize, shiftSize) >= 0
    requires TestFramesFit(|waveform2|, FrameCount(trainLength, frameSize, shiftSize), frameSize)
    ensures var shiftSum := FrameCount(trainLength, frameSize, shiftSize);
      && |frames| == shiftSum
      && forall i :: 0 <= i < shiftSum ==>
           0 <= i * shiftSum && i * shiftSum + frameSize <= |waveform2| && frames[i] == waveform2[i * shiftSum .. i * shiftSum + frameSize]
  {
    var shiftSum := FrameCount(trainLength, frameSize, shiftSize);
    frames := [];
    for i := 0 to shiftSum
      invariant |frames| == i
      invariant forall m :: 0 <= m < i ==>
        0 <= m * shiftSum && m * shiftSum + frameSize <= |waveform2| && frames[m] == waveform2[m * shiftSum .. m * shiftSum + frameSize]
    {
      MulMonotone(i, shiftSum - 1, shiftSum);
      var f := CopyFrame(waveform2, i * shiftSum, frameSize);
      frames := frames + [f];
    }
  }

  /** The test cepstra of `start`: each test frame's cepstrum, truncated in
      place. */
  method TestCepstra(frames: seq<seq<real>>, cepstrumOf: seq<real> -> seq<Complex>) returns (cepstra: seq<seq<Complex>>)
    ensures |cepstra| == |frames|
    ensures forall n :: 0 <= n < |frames| ==> cepstra[n] == Truncated(cepstrumOf(frames[n]))
  {
    cepstra := [];
    for n := 0 to |frames|
      invariant |cepstra| == n
      invariant forall m :: 0 <= m < n ==> cepstra[m] == Truncated(cepstrumOf(frames[m]))
    {
      var raw := cepstrumOf(frames[n]);
      var c := new Complex[|raw|]((k: int) requires 0 <= k < |raw| => raw[k]);
      assert c[..] == raw;
      TruncateInPlace(c);
      cepstra := cepstra + [c[..]];
    }
  }

  // ---------------------------------------------------------------------
  // Likelihood

  /** The weight Java's `1 / 2` gives the log-variance term: integer 0. */
  const HalfAsWritten: real := JavaDiv(1, 2) as real

  /** One term of the log-likelihood sum. */
  function LikelihoodTerm(x: real, mu: real, s2: real, log10: real -> real): real
    requires s2 != 0.0
  {
    HalfAsWritten * log10(s2) + Sq(x - mu) / (2.0 * s2)
  }

  /** `likelihood[n][i]` after dimensions 0..D-1. */
  function Likelihood(c: seq<Complex>, mu: seq<real>, s2: seq<real>, log10: real -> real, D: int): real
    requires D <= |c| && D <= |mu| && D <= |s2|
    requires forall d :: 0 <= d < |s2| ==> s2[d] != 0.0
    decreases D
  {
    if D <= 0 then 0.0
    else Likelihood(c, mu, s2, log10, D - 1) - LikelihoodTerm(c[D - 1].re, mu[D - 1], s2[D - 1], log10)
  }

  /** The quadratic form that remains: sum of (x_d - mu_d)^2 / (2 s2_d). */
  function Mahalanobis(c: seq<Complex>, mu: seq<real>, s2: seq<real>, D: int): real
    requires D <= |c| && D <= |mu| && D <= |s2|
    requires forall d :: 0 <= d < |s2| ==> s2[d] != 0.0
    decreases D
  {
    if D <= 0 then 0.0
    else Mahalanobis(c, mu, s2, D - 1) + Sq(c[D - 1].re - mu[D - 1]) / (2.0 * s2[D - 1])
  }

  /** Because `1 / 2` is 0, the log-variance term drops out whatever
      log10 is: the likelihood is minus the quadratic form, hence at most 0
      when every variance is positive. */
  lemma {:induction false} LogTermVanishes(c: seq<Complex>, mu: seq<real>, s2: seq<real>, log10: real -> real, D: int)
    requires D <= |c| && D <= |mu| && D <= |s2|
    requires forall d :: 0 <= d < |s2| ==> s2[d] != 0.0
    ensures HalfAsWritten == 0.0
    ensures Likelihood(c, mu, s2, log10, D) == -Mahalanobis(c, mu, s2, D)
    ensures (forall d :: 0 <= d < |s2| ==> s2[d] > 0.0) ==> Likelihood(c, mu, s2, log10, D) <= 0.0
    decreases D
  {
    if D > 0 {
      LogTermVanishes(c, mu, s2, log10, D - 1);
      var x := c[D - 1].re - mu[D - 1];
      if forall d :: 0 <= d < |s2| ==> s2[d] > 0.0 {
        assert Sq(x) >= 0.0;
        assert 2.0 * s2[D - 1] > 0.0;
        assert Sq(x) / (2.0 * s2[D - 1]) >= 0.0;
      }
    }
  }

  /** Only the first D <= 13 coefficients are read, so the truncation of
      the test cepstrum does not change the likelihood. */
  lemma {:induction false} LikelihoodIgnoresTruncation(c: seq<Complex>, mu: seq<real>, s2: seq<real>, log10: real -> real, D: int)
    requires D <= Order && D <= |c| && D <= |mu| && D <= |s2|
    requires forall d :: 0 <= d < |s2| ==> s2[d] != 0.0
    ensures Likelihood(Truncated(c), mu, s2, log10, D) == Likelihood(c, mu, s2, log10, D)
    decreases D
  {
    if D > 0 {
      LikelihoodIgnoresTruncation(c, mu, s2, log10, D - 1);
    }
  }

  /** A trained model: five rows of 13 means and 13 non-zero variances. */
  ghost predicate ModelShape(mu: seq<seq<real>>, sigma2: seq<seq<real>>)
  {
    && |mu| == Vowels && |sigma2| == Vowels
    && (forall i :: 0 <= i < Vowels ==> |mu[i]| == Order && |sigma2[i]| == Order)
    && (forall i, d :: 0 <= i < Vowels && 0 <= d < Order ==> sigma2[i][d] != 0.0)
  }

  /** The five likelihoods of one test cepstrum. */
  function Likelihoods(c: seq<Complex>, mu: seq<seq<real>>, sigma2: seq<seq<real>>, log10: real -> real): (l: seq<real>)
    requires ModelShape(mu, sigma2) && |c| >= Order
    ensures |l| == Vowels
  {
    seq(Vowels, (i: int) requires 0 <= i < Vowels => Likelihood(c, mu[i], sigma2[i], log10, |mu[i]|))
  }

  /** `likelihood[n][i]` accumulated over the 13 dimensions. */
  method VowelLikelihood(c: seq<Complex>, mu: seq<real>, s2: seq<real>, log10: real -> real) returns (l: real)
    requires |c| >= Order && |mu| == Order && |s2| == Order
    requires forall d :: 0 <= d < Order ==> s2[d] != 0.0
    ensures l == Likelihood(c, mu, s2, log10, |mu|)
  {
    l := 0.0;
    for d := 0 to Order
      invariant l == Likelihood(c, mu, s2, log10, d)
    {
      l := l - ((JavaDiv(1, 2) as real) * log10(s2[d]) + Sq(c[d].re - mu[d]) / (2.0 * s2[d]));
    }
  }

  /** `likelihood[n]`: the five vowels' likelihoods of one test frame. */
  method FrameLikelihoods(c: seq<Complex>, mu: seq<seq<real>>, sigma2: seq<seq<real>>, log10: real -> real)
    returns (likelihood: seq<real>)
    requires ModelShape(mu, sigma2) && |c| >= Order
    ensures likelihood == Likelihoods(c, mu, sigma2, log10)
  {
    likelihood := [];
    for i := 0 to Vowels
      invariant |likelihood| == i
      invariant forall m :: 0 <= m < i ==> likelihood[m] == Likelihood(c, mu[m], sigma2[m], log10, |mu[m]|)
    {
      var l := VowelLikelihood(c, mu[i], sigma2[i], log10);
      likelihood := likelihood + [l];
    }
  }

  /** The vowel recognised for one test cepstrum: the last of maximal
      likelihood. */
  function Recognised(c: seq<Complex>, mu: seq<seq<real>>, sigma2: seq<seq<real>>, log10: real -> real): nat
    requires ModelShape(mu, sigma2) && |c| >= Order
  {
    LastArgmax(Likelihoods(c, mu, sigma2, log10))
  }

  /** The recognition loop of `start`: the recognised vowel of every test
      frame. */
  method Classify(cepstra: seq<seq<Complex>>, mu: seq<seq<real>>, sigma2: seq<seq<real>>, log10: real -> real)
    returns (rsltVowel: seq<nat>)
    requires ModelShape(mu, sigma2)
    requires forall n :: 0 <= n < |cepstra| ==> |cepstra[n]| >= Order
    ensures |rsltVowel| == |cepstra|
    ensures forall n :: 0 <= n < |cepstra| ==> rsltVowel[n] == Recognised(cepstra[n], mu, sigma2, log10)
  {
    rsltVowel := [];
    for n := 0 to |cepstra|
      invariant |rsltVowel| == n
      invariant forall m :: 0 <= m < n ==> rsltVowel[m] == Recognised(cepstra[m], mu, sigma2, log10)
    {
      var likelihood := FrameLikelihoods(cepstra[n], mu, sigma2, log10);
      var best := ArgmaxLast(likelihood);
      rsltVowel := rsltVowel + [best];
    }
  }

  /** The recognised vowel is one of the five, its likelihood is maximal,
      every later vowel's is strictly smaller, and it does not depend on
      log10. */
  lemma RecognisedVowelIsLastMostLikely(c: seq<Complex>, mu: seq<seq<real>>, sigma2: seq<seq<real>>, log10: real -> real, log10': real -> real)
    requires ModelShape(mu, sigma2) && |c| >= Order
    ensures var l := Likelihoods(c, mu, sigma2, log10);
      var v := LastArgmax(l);
      && v < Vowels
      && (forall i :: 0 <= i < Vowels ==> l[i] <= l[v])
      && (forall i :: v < i < Vowels ==> l[i] < l[v])
    ensures Recognised(c, mu, sigma2, log10) == Recognised(c, mu, sigma2, log10')
  {
    forall i | 0 <= i < Vowels
      ensures Likelihoods(c, mu, sigma2, log10)[i] == Likelihoods(c, mu, sigma2, log10')[i]
    {
      LogTermVanishes(c, mu[i], sigma2[i], log10, |mu[i]|);
      LogTermVanishes(c, mu[i], sigma2[i], log10', |mu[i]|);
    }
    assert Likelihoods(c, mu, sigma2, log10) == Likelihoods(c, mu, sigma2, log10');
  }
}
