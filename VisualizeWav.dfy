/** The analyses of the offline visualiser: the autocorrelation pitch track,
    the chroma vector, chord recognition from the chroma vector and the
    subharmonic-summation melody track. Spectra come in as magnitude
    spectrograms (one row per frame); the note-to-frequency map
    `440 * 2^((n - 69) / 12)` is the parameter `nToF`. */
module VisualizeWav {
  import opened Common
  import opened Autocorrelation
  import opened Chroma
  import opened Subharmonic

  // ---------------------------------------------------------------------
  // Fundamental frequency

  /** The frame length and shift: 0.2 s and 0.025 s, rounded to samples. */
  function FrameSizeOf(sampleRate: real): int
  {
    JavaRound(0.2 * sampleRate)
  }

  function ShiftSizeOf(sampleRate: real): int
  {
    JavaRound(0.025 * sampleRate)
  }

  /** The pitch a frame's peak lag stands for, 0 when no lag won. */
  function PitchOfLag(sampleRate: real, lag: nat): real
  {
    if lag == 0 then 0.0 else sampleRate / (lag as real)
  }

  /** `makeFundFreqChart`: one pitch per whole frame, from the first
      positive maximal lag of the autocorrelation gated at 0.1. */
  method FundFreqTrack(waveform: seq<real>, sampleRate: real) returns (fundFreq: seq<real>)
    requires ShiftSizeOf(sampleRate) > 0
    requires FrameCount(|waveform|, FrameSizeOf(sampleRate), ShiftSizeOf(sampleRate)) >= 0
    ensures |fundFreq| == FrameCount(|waveform|, FrameSizeOf(sampleRate), ShiftSizeOf(sampleRate))
    ensures forall i :: 0 <= i < |fundFreq| ==>
      fundFreq[i] == PitchOfLag(sampleRate, FirstPeak(waveform, i * ShiftSizeOf(sampleRate), FrameSizeOf(sampleRate), Below(0.1)))
  {
    var frameSize := FrameSizeOf(sampleRate);
    var shiftSize := ShiftSizeOf(sampleRate);
    var shiftSum := FrameCount(|waveform|, frameSize, shiftSize);
    var ff := new real[shiftSum];
    var i := 0;
    while i < shiftSum
      invariant 0 <= i <= shiftSum
      invariant forall k :: 0 <= k < i ==>
        ff[k] == PitchOfLag(sampleRate, FirstPeak(waveform, k * shiftSize, frameSize, Below(0.1)))
    {
      var lag := FirstPeakLag(waveform, i * shiftSize, if frameSize < 0 then 0 else frameSize, Below(0.1));
      ff[i] := PitchOfLag(sampleRate, lag);
      i := i + 1;
    }
    fundFreq := ff[..];
  }

  /** A non-zero pitch is the sample rate over a lag of 10 or more, so it
      never exceeds a tenth of the sample rate. */
  lemma PitchBound(sampleRate: real, lag: nat)
    requires sampleRate >= 0.0 && (lag == 0 || lag >= 10)
    ensures 0.0 <= PitchOfLag(sampleRate, lag) <= sampleRate / 10.0
  {
    if lag != 0 {
      assert sampleRate / (lag as real) <= sampleRate / 10.0 by {
        assert (lag as real) * (sampleRate / (lag as real)) == sampleRate;
        assert 10.0 * (sampleRate / 10.0) == sampleRate;
      }
    }
  }

  // ---------------------------------------------------------------------
  // Chroma

  /** `toneFreq[tone] = n_to_f(60 + tone)`: the middle-octave frequency of
      pitch class tone. */
  function ToneFreq(nToF: real -> real, tone: int): real
  {
    nToF((60 + tone) as real)
  }

  /** The centre of octave band i of a pitch class whose middle-octave
      frequency is toneFreq: toneFreq * 2^(i - 2), i = 0..4. */
  function OctaveBase(toneFreq: real, i: int): real
  {
    toneFreq * Pow2Int(i - 2)
  }

  /** The edges of octave band i: [base / hh, base * hh]. */
  function BandLo(toneFreq: real, hh: real, i: int): real
    requires hh != 0.0
  {
    OctaveBase(toneFreq, i) / hh
  }

  function BandHi(toneFreq: real, hh: real, i: int): real
  {
    OctaveBase(toneFreq, i) * hh
  }

  /** The summed magnitude of the bins in the first m octave bands. */
  function OctaveSum(spec: seq<real>, toneFreq: real, nyquist: real, fftSize: int, hh: real, m: int): real
    requires fftSize != 0 && hh != 0.0
    decreases m
  {
    if m <= 0 then 0.0
    else
      OctaveSum(spec, toneFreq, nyquist, fftSize, hh, m - 1)
      + BandSum(spec, nyquist, fftSize, BandLo(toneFreq, hh, m - 1), BandHi(toneFreq, hh, m - 1), |spec|)
  }

  /** The number of bins counted by OctaveSum, a bin once per band it is in. */
  function OctaveCount(spec: seq<real>, toneFreq: real, nyquist: real, fftSize: int, hh: real, m: int): (r: nat)
    requires fftSize != 0 && hh != 0.0
    decreases m
  {
    if m <= 0 then 0
    else
      OctaveCount(spec, toneFreq, nyquist, fftSize, hh, m - 1)
      + BandCount(nyquist, fftSize, BandLo(toneFreq, hh, m - 1), BandHi(toneFreq, hh, m - 1), |spec|)
  }

  /** The power of a pitch class over five octaves: the matched magnitude
      divided by one more than the number of matches. */
  function ChromaPowerOf(spec: seq<real>, toneFreq: real, nyquist: real, fftSize: int, hh: real): real
    requires fftSize != 0 && hh != 0.0
  {
    OctaveSum(spec, toneFreq, nyquist, fftSize, hh, 5) / ((1 + OctaveCount(spec, toneFreq, nyquist, fftSize, hh, 5)) as real)
  }

  lemma {:induction false} OctaveSumNonNegative(spec: seq<real>, toneFreq: real, nyquist: real, fftSize: int, hh: real, m: int)
    requires fftSize != 0 && hh != 0.0
    requires forall i :: 0 <= i < |spec| ==> spec[i] >= 0.0
    ensures OctaveSum(spec, toneFreq, nyquist, fftSize, hh, m) >= 0.0
    decreases m
  {
    if m > 0 {
      OctaveSumNonNegative(spec, toneFreq, nyquist, fftSize, hh, m - 1);
      BandSumNonNegative(spec, nyquist, fftSize, BandLo(toneFreq, hh, m - 1), BandHi(toneFreq, hh, m - 1), |spec|);
    }
  }

  lemma {:induction false} OctaveSumWithoutMatches(spec: seq<real>, toneFreq: real, nyquist: real, fftSize: int, hh: real, m: int)
    requires fftSize != 0 && hh != 0.0
    requires OctaveCount(spec, toneFreq, nyquist, fftSize, hh, m) == 0
    ensures OctaveSum(spec, toneFreq, nyquist, fftSize, hh, m) == 0.0
    decreases m
  {
    if m > 0 {
      OctaveSumWithoutMatches(spec, toneFreq, nyquist, fftSize, hh, m - 1);
      EmptyBandSumsToZero(spec, nyquist, fftSize, BandLo(toneFreq, hh, m - 1), BandHi(toneFreq, hh, m - 1), |spec|);
    }
  }

  /** A magnitude spectrum has a non-negative chroma power, and a pitch
      class none of whose bands holds a bin has power exactly 0. */
  lemma ChromaPowerProperties(spec: seq<real>, toneFreq: real, nyquist: real, fftSize: int, hh: real)
    requires fftSize != 0 && hh != 0.0
    ensures (forall i :: 0 <= i < |spec| ==> spec[i] >= 0.0) ==> ChromaPowerOf(spec, toneFreq, nyquist, fftSize, hh) >= 0.0
    ensures OctaveCount(spec, toneFreq, nyquist, fftSize, hh, 5) == 0 ==> ChromaPowerOf(spec, toneFreq, nyquist, fftSize, hh) == 0.0
  {
    if forall i :: 0 <= i < |spec| ==> spec[i] >= 0.0 {
      OctaveSumNonNegative(spec, toneFreq, nyquist, fftSize, hh, 5);
    }
    if OctaveCount(spec, toneFreq, nyquist, fftSize, hh, 5) == 0 {
      OctaveSumWithoutMatches(spec, toneFreq, nyquist, fftSize, hh, 5);
    }
  }

  /** `chromaPower(spec, toneName, nyquist, fftSize)`, with
      `halfhalftone = 2^(1/30)` passed in as `hh`. */
  method ChromaPower(spec: seq<real>, toneName: nat, nyquist: real, fftSize: int, nToF: real -> real, hh: real)
    returns (r: real)
    requires toneName < 12 && fftSize != 0 && hh != 0.0
    ensures r == ChromaPowerOf(spec, ToneFreq(nToF, toneName), nyquist, fftSize, hh)
  {
    var toneFreq := new real[12];
    for i := 0 to 12
      invariant forall k :: 0 <= k < i ==> toneFreq[k] == ToneFreq(nToF, k)
    {
      toneFreq[i] := nToF((60 + i) as real);
    }
    var tf := toneFreq[toneName];
    var powerSum := 0.0;
    var div := 1;
    var i := 0;
    while i <= 4
      invariant 0 <= i <= 5
      invariant powerSum == OctaveSum(spec, tf, nyquist, fftSize, hh, i)
      invariant div == 1 + OctaveCount(spec, tf, nyquist, fftSize, hh, i)
    {
      var lo := BandLo(tf, hh, i);
      var hi := BandHi(tf, hh, i);
      var j := 0;
      while j < |spec|
        invariant 0 <= j <= |spec|
        invariant powerSum == OctaveSum(spec, tf, nyquist, fftSize, hh, i) + BandSum(spec, nyquist, fftSize, lo, hi, j)
        invariant div == 1 + OctaveCount(spec, tf, nyquist, fftSize, hh, i) + BandCount(nyquist, fftSize, lo, hi, j)
      {
        var f := Freq(nyquist, fftSize, j);
        if f >= lo && f <= hi {
          powerSum := powerSum + spec[j];
          div := div + 1;
        }
        j := j + 1;
      }
      i := i + 1;
    }
    r := powerSum / (div as real);
  }

  /** The chroma entry of a pitch class of non-zero power. */
  function ChromaEntry(power: real): real
    requires power != 0.0
  {
    -0.15 / power
  }

  /** `-0.15 / power` is never 0, so the `Integer.MIN_VALUE` replacement
      never fires; for positive powers the entry is negative and grows with
      the power, so a stronger pitch class has the larger entry. */
  lemma ChromaEntryOrder(p: real, q: real)
    requires 0.0 < p < q
    ensures ChromaEntry(p) != 0.0 && ChromaEntry(p) < 0.0
    ensures ChromaEntry(p) < ChromaEntry(q)
  {
    assert 0.15 / q < 0.15 / p by {
      assert p * (0.15 / p) == 0.15;
      assert q * (0.15 / q) == 0.15;
    }
  }

  /** Every pitch class of every frame has non-zero power. */
  ghost predicate PowersNonZero(specLog: seq<seq<real>>, sampleRate: real, fftSize: int, nToF: real -> real, hh: real)
    requires fftSize != 0 && hh != 0.0
  {
    forall i, j :: 0 <= i < |specLog| && 0 <= j < 12 ==>
      ChromaPowerOf(specLog[i], ToneFreq(nToF, j), sampleRate * 0.5, fftSize, hh) != 0.0
  }

  /** `makeChromaVector`: 17 entries per frame, 12 pitch classes then 5
      zeros, the power taken with Nyquist frequency sampleRate / 2. */
  method ChromaVector(specLog: seq<seq<real>>, sampleRate: real, fftSize: int, nToF: real -> real, hh: real)
    returns (chromaVec: seq<seq<real>>)
    requires fftSize != 0 && hh != 0.0
    requires PowersNonZero(specLog, sampleRate, fftSize, nToF, hh)
    ensures |chromaVec| == |specLog|
    ensures forall i :: 0 <= i < |specLog| ==> |chromaVec[i]| == 17
    ensures forall i, j :: 0 <= i < |specLog| && 0 <= j < 12 ==>
      chromaVec[i][j] == ChromaEntry(ChromaPowerOf(specLog[i], ToneFreq(nToF, j), sampleRate * 0.5, fftSize, hh))
    ensures forall i, j :: 0 <= i < |specLog| && 12 <= j < 17 ==> chromaVec[i][j] == 0.0
  {
    chromaVec := [];
    var i := 0;
    while i < |specLog|
      invariant 0 <= i <= |specLog| && |chromaVec| == i
      invariant forall k :: 0 <= k < i ==> |chromaVec[k]| == 17
      invariant forall k, j :: 0 <= k < i && 0 <= j < 12 ==>
        chromaVec[k][j] == ChromaEntry(ChromaPowerOf(specLog[k], ToneFreq(nToF, j), sampleRate * 0.5, fftSize, hh))
      invariant forall k, j :: 0 <= k < i && 12 <= j < 17 ==> chromaVec[k][j] == 0.0
    {
      var row: seq<real> := [];
      var j := 0;
      while j < 17
        invariant 0 <= j <= 17 && |row| == j
        invariant forall m :: 0 <= m < j && m < 12 ==>
          row[m] == ChromaEntry(ChromaPowerOf(specLog[i], ToneFreq(nToF, m), sampleRate * 0.5, fftSize, hh))
        invariant forall m :: 12 <= m < j ==> row[m] == 0.0
      {
        var v;
        if j < 12 {
          var p := ChromaPower(specLog[i], j, sampleRate * 0.5, fftSize, nToF, hh);
          v := -0.15 / p;
          if v == 0.0 {
            v := IntMinValue;
          }
        } else {
          v := 0.0;
        }
        row := row + [v];
        j := j + 1;
      }
      chromaVec := chromaVec + [row];
      i := i + 1;
    }
  }

  // ---------------------------------------------------------------------
  // Chords

  /** Chords 0..11 are C, C#, ..., B major and 12..23 the same roots minor. */
  function Root(chord: nat): nat
  {
    chord % 12
  }

  function Third(chord: nat): nat
  {
    if chord < 12 then (chord + 4) % 12 else (chord + 3) % 12
  }

  function Fifth(chord: nat): nat
  {
    (chord + 7) % 12
  }

  /** The triad of every chord: the third lies 4 semitones above the root
      for a major chord and 3 for a minor one, the fifth 7. */
  lemma TriadIntervals(chord: nat)
    requires chord < 24
    ensures Root(chord) < 12 && Third(chord) < 12 && Fifth(chord) < 12
    ensures (Third(chord) - Root(chord)) % 12 == if chord < 12 then 4 else 3
    ensures (Fifth(chord) - Root(chord)) % 12 == 7
  {
  }

  /** The likeness of a chord: weights 1.0, 0.5 and 0.8 on the root, third
      and fifth entries of the chroma vector. */
  function ChordScore(chroma: seq<real>, chord: nat): real
    requires |chroma| >= 12
  {
    1.0 * chroma[Root(chord)] + 0.5 * chroma[Third(chord)] + 0.8 * chroma[Fifth(chord)]
  }

  function ChordScores(chroma: seq<real>): (s: seq<real>)
    requires |chroma| >= 12
    ensures |s| == 24
  {
    seq(24, (chord: nat) requires chord < 24 => ChordScore(chroma, chord))
  }

  /** The first chord of maximal likeness. */
  function BestChord(chroma: seq<real>): nat
    requires |chroma| >= 12
  {
    FirstArgmax(ChordScores(chroma))
  }

  /** The recognised chord is a chord, at least as likely as every other
      and strictly more likely than every chord before it. */
  lemma BestChordIsFirstMostLikely(chroma: seq<real>)
    requires |chroma| >= 12
    ensures BestChord(chroma) < 24
    ensures forall c :: 0 <= c < 24 ==> ChordScore(chroma, c) <= ChordScore(chroma, BestChord(chroma))
    ensures forall c :: 0 <= c < BestChord(chroma) ==> ChordScore(chroma, c) < ChordScore(chroma, BestChord(chroma))
  {
    var s := ChordScores(chroma);
    var b := BestChord(chroma);
    assert s[b] == ChordScore(chroma, b);
    forall c | 0 <= c < 24
      ensures ChordScore(chroma, c) == s[c]
    {
    }
  }

  /** `makeChordChart` on the chroma vectors of the frames: the 24
      likenesses of each frame and the chord `argmax` picks from them. */
  method RecognizeChords(chromaVec: seq<seq<real>>) returns (likeChord: seq<seq<real>>, likeGraph: seq<nat>)
    requires forall i :: 0 <= i < |chromaVec| ==> |chromaVec[i]| >= 12
    ensures |likeChord| == |chromaVec| && |likeGraph| == |chromaVec|
    ensures forall i :: 0 <= i < |chromaVec| ==> likeChord[i] == ChordScores(chromaVec[i])
    ensures forall i :: 0 <= i < |chromaVec| ==> likeGraph[i] == BestChord(chromaVec[i])
  {
    likeChord := [];
    var i := 0;
    while i < |chromaVec|
      invariant 0 <= i <= |chromaVec| && |likeChord| == i
      invariant forall k :: 0 <= k < i ==> likeChord[k] == ChordScores(chromaVec[k])
    {
      var c := chromaVec[i];
      var row: seq<real> := [];
      var j := 0;
      while j < 24
        invariant 0 <= j <= 24 && |row| == j
        invariant forall m :: 0 <= m < j ==> row[m] == ChordScore(c, m)
      {
        var score;
        if j < 12 {
          score := 1.0 * c[j] + 0.5 * c[(j + 4) % 12] + 0.8 * c[(j + 7) % 12];
        } else {
          score := 1.0 * c[j % 12] + 0.5 * c[(j + 3) % 12] + 0.8 * c[(j + 7) % 12];
        }
        row := row + [score];
        j := j + 1;
      }
      likeChord := likeChord + [row];
      i := i + 1;
    }
    likeGraph := [];
    i := 0;
    while i < |likeChord|
      invariant 0 <= i <= |likeChord| && |likeGraph| == i
      invariant forall k :: 0 <= k < i ==> likeGraph[k] == BestChord(chromaVec[k])
    {
      var best := ArgmaxFirst(likeChord[i]);
      likeGraph := likeGraph + [best];
      i := i + 1;
    }
  }

  /** The chroma vector of one frame: the entries of the 12 pitch classes,
      then 5 zeros. */
  function ChromaRow(spec: seq<real>, sampleRate: real, fftSize: int, nToF: real -> real, hh: real): (row: seq<real>)
    requires fftSize != 0 && hh != 0.0
    requires forall j :: 0 <= j < 12 ==> ChromaPowerOf(spec, ToneFreq(nToF, j), sampleRate * 0.5, fftSize, hh) != 0.0
    ensures |row| == 17
  {
    seq(17, (j: int) requires 0 <= j < 17 =>
      if j < 12 then ChromaEntry(ChromaPowerOf(spec, ToneFreq(nToF, j), sampleRate * 0.5, fftSize, hh)) else 0.0)
  }

  /** `makeChordChart`: the chroma vectors of the frames, then their chords:
      each frame's chart value is the first most likely of the 24 triads
      of its chroma vector. */
  method ChordChart(specLog: seq<seq<real>>, sampleRate: real, fftSize: int, nToF: real -> real, hh: real)
    returns (likeGraph: seq<nat>)
    requires fftSize != 0 && hh != 0.0
    requires PowersNonZero(specLog, sampleRate, fftSize, nToF, hh)
    ensures |likeGraph| == |specLog|
    ensures forall i :: 0 <= i < |specLog| ==>
      likeGraph[i] < 24 && likeGraph[i] == BestChord(ChromaRow(specLog[i], sampleRate, fftSize, nToF, hh))
  {
    var chromaVec := ChromaVector(specLog, sampleRate, fftSize, nToF, hh);
    var likeChord;
    likeChord, likeGraph := RecognizeChords(chromaVec);
    forall i | 0 <= i < |specLog|
      ensures likeGraph[i] < 24 && likeGraph[i] == BestChord(ChromaRow(specLog[i], sampleRate, fftSize, nToF, hh))
    {
      var row := ChromaRow(specLog[i], sampleRate, fftSize, nToF, hh);
      assert chromaVec[i] == row;
      BestChordIsFirstMostLikely(chromaVec[i]);
    }
  }

  // ---------------------------------------------------------------------
  // Melody

  /** Candidate j is note number 60 + j / 10, j = 0..359. */
  function CandidateNote(j: int): real
  {
    60.0 + (j as real) * 0.1
  }

  /** `melo_SHS(spec, toneNum, ...)`: the absolute subharmonic sum of the
      candidate `nToF(toneNum)`. */
  method MeloShs(spec: seq<real>, toneNum: real, nyquist: real, fftSize: int, nToF: real -> real) returns (r: real)
    requires fftSize != 0
    ensures r == Abs(ShsPower(spec, nToF(toneNum), nyquist, fftSize))
    ensures (forall i :: 0 <= i < |spec| ==> spec[i] >= 0.0) ==> r == ShsPower(spec, nToF(toneNum), nyquist, fftSize)
  {
    var candFreq := nToF(toneNum);
    var powerSum := AccumulateHarmonics(spec, candFreq, nyquist, fftSize);
    if forall i :: 0 <= i < |spec| ==> spec[i] >= 0.0 {
      ShsSumNonNegative(spec, candFreq, nyquist, fftSize, |spec|);
    }
    r := Abs(powerSum);
  }

  /** The scores of the 360 candidates for one frame. */
  function MelodyScores(spec: seq<real>, nyquist: real, fftSize: int, nToF: real -> real): (s: seq<real>)
    requires fftSize != 0
    ensures |s| == 360
  {
    seq(360, (j: int) => Abs(ShsPower(spec, nToF(CandidateNote(j)), nyquist, fftSize)))
  }

  /** The note number of the first best-scoring candidate. */
  function MelodyNote(spec: seq<real>, nyquist: real, fftSize: int, nToF: real -> real): real
    requires fftSize != 0
  {
    60.0 + (FirstArgmax(MelodyScores(spec, nyquist, fftSize, nToF)) as real) / 10.0
  }

  /** The melody note is a candidate note in [60, 95.9] whose score is
      maximal and above every earlier candidate's. */
  lemma MelodyNoteIsBestCandidate(spec: seq<real>, nyquist: real, fftSize: int, nToF: real -> real)
    requires fftSize != 0
    ensures var s := MelodyScores(spec, nyquist, fftSize, nToF);
      var k := FirstArgmax(s);
      && MelodyNote(spec, nyquist, fftSize, nToF) == CandidateNote(k)
      && 60.0 <= MelodyNote(spec, nyquist, fftSize, nToF) <= 95.9
      && (forall j :: 0 <= j < 360 ==> s[j] <= s[k])
      && (forall j :: 0 <= j < k ==> s[j] < s[k])
  {
  }

  /** The inner loop of `makeMelodyChart`: `melo_SHS` of every candidate. */
  method FrameMelodyScores(spec: seq<real>, nyquist: real, fftSize: int, nToF: real -> real) returns (scores: seq<real>)
    requires fftSize != 0
    ensures scores == MelodyScores(spec, nyquist, fftSize, nToF)
  {
    scores := [];
    var j := 0;
    while j < 360
      invariant 0 <= j <= 360 && |scores| == j
      invariant forall m :: 0 <= m < j ==> scores[m] == Abs(ShsPower(spec, nToF(CandidateNote(m)), nyquist, fftSize))
    {
      var r := MeloShs(spec, CandidateNote(j), nyquist, fftSize, nToF);
      scores := scores + [r];
      j := j + 1;
    }
  }

  /** `makeMelodyChart` on the magnitude spectrogram: one note per frame. */
  method MelodyTrack(specLog: seq<seq<real>>, nyquist: real, fftSize: int, nToF: real -> real) returns (meloLike: seq<real>)
    requires fftSize != 0
    ensures |meloLike| == |specLog|
    ensures forall i :: 0 <= i < |specLog| ==> meloLike[i] == MelodyNote(specLog[i], nyquist, fftSize, nToF)
  {
    meloLike := [];
    var i := 0;
    while i < |specLog|
      invariant 0 <= i <= |specLog| && |meloLike| == i
      invariant forall k :: 0 <= k < i ==> meloLike[k] == MelodyNote(specLog[k], nyquist, fftSize, nToF)
    {
      var scores := FrameMelodyScores(specLog[i], nyquist, fftSize, nToF);
      var best := ArgmaxFirst(scores);
      meloLike := meloLike + [60.0 + (best as real) / 10.0];
      i := i + 1;
    }
  }
}
