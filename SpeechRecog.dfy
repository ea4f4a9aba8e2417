/** The single-vowel envelope learner: five vowel segments are copied out
    of a recording sample by sample, the fourth is padded, normalised and
    transformed into a cepstrum whose 13 lowest coefficients give its
    spectral envelope, and a "model" is fitted whose means are the samples
    themselves. The transforms are the parameters `rfft` and `logMagnitude`
    (20 log10 |c| per bin). */
module SpeechRecog {
  import opened Common
  import opened Cepstrum
  import opened SpectrumEnv

  const Vowels: nat := 5

  /** `Math.round(x + j)` for an integer j is `Math.round(x) + j`. */
  lemma {:induction false} RoundShift(x: real, j: int)
    ensures JavaRound(x + j as real) == JavaRound(x) + j
  {
    var m := JavaRound(x + j as real);
    var n := JavaRound(x);
    assert x - 0.5 < (m - j) as real <= x + 0.5;
    assert (m - j) as real - (n as real) < 1.0 && (n as real) - (m - j) as real < 1.0;
  }

  /** A segment of count samples starting at `Math.round(startPos)` lies in
      the waveform and fits in the segment buffer of `slots` samples. */
  predicate SegmentFits(len: int, startPos: real, count: int, slots: nat)
  {
    count <= slots && SegmentInBounds(len, startPos, count)
  }

  predicate SegmentInBounds(len: int, startPos: real, count: int)
  {
    count > 0 ==> 0 <= JavaRound(startPos) && JavaRound(startPos) + count <= len
  }

  /** Sample j of a vowel's segment buffer: the recording's sample
      `Math.round(startPos) + j` below the count, 0 after it. */
  function SegmentSample(waveform: seq<real>, startPos: real, count: int, j: nat): real
    requires SegmentInBounds(|waveform|, startPos, count)
  {
    if j < count then waveform[JavaRound(startPos) + j] else 0.0
  }

  /** The segment copy of `start`: `wave_vowel[i][j] = waveform[round(sr *
      sep[i] + j)]` for j below vowel i's sample count; the rest of the row
      keeps 0. */
  method CopySegments(waveform: seq<real>, startPos: seq<real>, counts: seq<int>, slots: nat)
    returns (waveVowel: seq<seq<real>>)
    requires |startPos| == Vowels && |counts| == Vowels
    requires forall i :: 0 <= i < Vowels ==> counts[i] <= slots && SegmentInBounds(|waveform|, startPos[i], counts[i])
    ensures |waveVowel| == Vowels
    ensures forall i :: 0 <= i < Vowels ==> |waveVowel[i]| == slots
    ensures forall i, j :: 0 <= i < Vowels && 0 <= j < slots ==>
      waveVowel[i][j] == SegmentSample(waveform, startPos[i], counts[i], j)
  {
    waveVowel := [];
    for i := 0 to Vowels
      invariant |waveVowel| == i
      invariant forall m :: 0 <= m < i ==> |waveVowel[m]| == slots
      invariant forall m, j :: 0 <= m < i && 0 <= j < slots ==>
        waveVowel[m][j] == SegmentSample(waveform, startPos[m], counts[m], j)
    {
      var row := new real[slots]((j: int) => 0.0);
      var j := 0;
      while j < counts[i]
        invariant 0 <= j && (counts[i] > 0 ==> j <= counts[i])
        invariant forall k :: 0 <= k < slots ==> row[k] == if k < j then SegmentSample(waveform, startPos[i], counts[i], k) else 0.0
        decreases counts[i] - j
      {
        RoundShift(startPos[i], j);
        row[j] := waveform[JavaRound(startPos[i] + j as real)];
        j := j + 1;
      }
      waveVowel := waveVowel + [row[..]];
    }
  }

  /** Each segment buffer holds the recording's samples contiguously from
      the rounded start, then zeros. */
  lemma SegmentIsContiguous(waveform: seq<real>, startPos: real, count: int, slots: nat, row: seq<real>)
    requires SegmentFits(|waveform|, startPos, count, slots) && |row| == slots
    requires forall j :: 0 <= j < slots ==> row[j] == SegmentSample(waveform, startPos, count, j)
    ensures count > 0 ==> row[..count] == waveform[JavaRound(startPos) .. JavaRound(startPos) + count]
    ensures forall j :: count <= j < slots && j >= 0 ==> row[j] == 0.0
  {
    if count > 0 {
      var r := JavaRound(startPos);
      assert forall j :: 0 <= j < count ==> row[..count][j] == waveform[r .. r + count][j];
    }
  }

  /** The spectrum step of `start`: `src` is the fourth vowel's buffer
      padded to `fftSize` and divided by its length; `src2` is the log
      spectrum of `src` padded to `fftSize3`, not scaled (`.map(w -> w)`). */
  method CepstrumInputs(vowel: seq<real>, fftSize: nat, fftSize3: nat,
                        rfft: seq<real> -> seq<Complex>, logMagnitude: seq<Complex> -> seq<real>)
    returns (src: seq<real>, src2: seq<real>)
    requires |vowel| > 0
    ensures src == Scaled(CopyOf(vowel, fftSize), |vowel| as real)
    ensures src2 == CopyOf(logMagnitude(rfft(src)), fftSize3)
    ensures fftSize >= |vowel| ==> Sum(src) == Sum(vowel) / (|vowel| as real)
  {
    src := NormalisedInput(vowel, fftSize);
    assert src == Scaled(CopyOf(vowel, fftSize), |vowel| as real);
    var specLog := logMagnitude(rfft(src));
    var buf := new real[fftSize3];
    for i := 0 to fftSize3
      invariant forall k :: 0 <= k < i ==> buf[k] == if k < |specLog| then specLog[k] else 0.0
    {
      buf[i] := if i < |specLog| then specLog[i] else 0.0;
    }
    src2 := buf[..];
  }

  /** The cepstrum step of `start`: the cepstrum of `src2`, truncated in
      place to its 13 lowest coefficients and copied into `ceps_filled`. */
  method Envelope(src2: seq<real>, fftSize5: nat, rfft: seq<real> -> seq<Complex>) returns (cepsFilled: seq<Complex>)
    ensures cepsFilled == ZeroPadded(Truncated(rfft(src2)), fftSize5 / 2 + 1)
    ensures forall i :: 0 <= i < |cepsFilled| ==>
      cepsFilled[i] == if i < Order && i < |rfft(src2)| then rfft(src2)[i] else Zero
  {
    var raw := rfft(src2);
    var cepstrum := new Complex[|raw|]((k: int) requires 0 <= k < |raw| => raw[k]);
    assert cepstrum[..] == raw;
    cepsFilled := EnvelopeCepstrum(cepstrum, fftSize5);
    EnvelopeKeepsLowQuefrencies(raw, fftSize5);
  }

  /** The mean step of `start`: `mu[i][j] = wave_vowel[i][j]` over the first
      `wave_vowel[i].length` of `muSlots` slots, and `sigma2[i][j] =
      (wave_vowel[i][j] - mu[i][j])^2`. Every variance is exactly 0. */
  method DegenerateModel(waveVowel: seq<seq<real>>, muSlots: nat) returns (mu: seq<seq<real>>, sigma2: seq<seq<real>>)
    requires |waveVowel| == Vowels
    requires forall i :: 0 <= i < Vowels ==> |waveVowel[i]| <= muSlots
    ensures |mu| == Vowels && |sigma2| == Vowels
    ensures forall i :: 0 <= i < Vowels ==> |mu[i]| == muSlots && |sigma2[i]| == muSlots
    ensures forall i, j :: 0 <= i < Vowels && 0 <= j < muSlots ==>
      mu[i][j] == (if j < |waveVowel[i]| then waveVowel[i][j] else 0.0) && sigma2[i][j] == 0.0
  {
    mu := [];
    sigma2 := [];
    for i := 0 to Vowels
      invariant |mu| == i && |sigma2| == i
      invariant forall m :: 0 <= m < i ==> |mu[m]| == muSlots && |sigma2[m]| == muSlots
      invariant forall m, j :: 0 <= m < i && 0 <= j < muSlots ==>
        mu[m][j] == (if j < |waveVowel[m]| then waveVowel[m][j] else 0.0) && sigma2[m][j] == 0.0
    {
      var muRow := new real[muSlots]((j: int) => 0.0);
      var s2Row := new real[muSlots]((j: int) => 0.0);
      for j := 0 to |waveVowel[i]|
        invariant forall k :: 0 <= k < muSlots ==> muRow[k] == (if k < j then waveVowel[i][k] else 0.0)
        invariant forall k :: 0 <= k < muSlots ==> s2Row[k] == 0.0
      {
        muRow[j] := waveVowel[i][j];
        s2Row[j] := Sq(waveVowel[i][j] - muRow[j]);
      }
      mu := mu + [muRow[..]];
      sigma2 := sigma2 + [s2Row[..]];
    }
  }
}
