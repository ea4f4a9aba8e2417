/** The karaoke monitor's per-frame analysis of the microphone: an
    autocorrelation pitch (gated at 0.04, with the reading of a silent frame
    suppressed), a subharmonic-summation note grid that marks one winning
    candidate, and the name of the marked note. */
module KaraokeSystem {
  import opened Common
  import opened Autocorrelation
  import opened Subharmonic
  import opened MicDisplay

  // ---------------------------------------------------------------------
  // Autocorrelation pitch

  /** `autocor[tau - 10]`: the gated products of samples tau apart over
      t < |frame| - tau - 1, which never reads past the frame. */
  function AutocorSum(frame: seq<real>, tau: nat): real
  {
    LagSum(frame, 0, tau, |frame| - tau - 1, Below(0.04))
  }

  function AutocorSums(frame: seq<real>): (s: seq<real>)
    requires |frame| >= 11
    ensures |s| == |frame| - 11
  {
    seq(|frame| - 11, (k: nat) => AutocorSum(frame, 10 + k))
  }

  /** The lag of the first maximal sum, which the pitch stands for. */
  function PeakLag(frame: seq<real>): nat
    requires |frame| >= 12
  {
    10 + FirstArgmax(AutocorSums(frame))
  }

  /** The pitch of a frame: the sample rate over its peak lag. */
  function PitchOfFrame(frame: seq<real>, sampleRate: real): real
    requires |frame| >= 12
  {
    sampleRate / (PeakLag(frame) as real)
  }

  /** The peak lag lies in [10, |frame| - 1), its sum is maximal and every
      earlier lag's sum is strictly smaller; a frame whose samples are all
      below the gate has only zero sums and so reads as lag 10. */
  lemma PeakLagIsFirstMaximum(frame: seq<real>)
    requires |frame| >= 12
    ensures 10 <= PeakLag(frame) < |frame| - 1
    ensures forall tau :: 10 <= tau < |frame| - 1 ==> AutocorSum(frame, tau) <= AutocorSum(frame, PeakLag(frame))
    ensures forall tau :: 10 <= tau < PeakLag(frame) ==> AutocorSum(frame, tau) < AutocorSum(frame, PeakLag(frame))
    ensures (forall i :: 0 <= i < |frame| ==> frame[i] < 0.04) ==> PeakLag(frame) == 10
  {
    var s := AutocorSums(frame);
    var k := FirstArgmax(s);
    assert s[k] == AutocorSum(frame, 10 + k);
    forall tau | 10 <= tau < |frame| - 1
      ensures AutocorSum(frame, tau) == s[tau - 10]
    {
    }
    if forall i :: 0 <= i < |frame| ==> frame[i] < 0.04 {
      forall j | 0 <= j < |s|
        ensures s[j] == 0.0
      {
        QuietLagSumIsZero(frame, 0, 10 + j, |frame| - (10 + j) - 1, 0.04);
      }
      assert IsFirstArgmax(s, 0);
      FirstArgmaxUnique(s, 0);
    }
  }

  /** `calcFF(frame, sampleRate)`: the lag loop fills `autocor` in place,
      then the first-wins argmax picks the lag. */
  method CalcFF(frame: seq<real>, sampleRate: real) returns (fundFreq: real)
    requires |frame| >= 12
    ensures fundFreq == PitchOfFrame(frame, sampleRate)
  {
    var autocor := new real[|frame| - 11]((k: int) => 0.0);
    var tau := 10;
    while tau < |frame| - 1
      invariant 10 <= tau <= |frame| - 1
      invariant forall k :: 0 <= k < tau - 10 ==> autocor[k] == AutocorSum(frame, 10 + k)
      invariant forall k :: tau - 10 <= k < autocor.Length ==> autocor[k] == 0.0
    {
      var t := 0;
      while t < |frame| - tau - 1
        invariant 0 <= t <= |frame| - tau - 1
        invariant autocor[tau - 10] == LagSum(frame, 0, tau, t, Below(0.04))
        invariant forall k :: 0 <= k < tau - 10 ==> autocor[k] == AutocorSum(frame, 10 + k)
        invariant forall k :: tau - 10 < k < autocor.Length ==> autocor[k] == 0.0
      {
        var wf0 := frame[t];
        var wf1 := frame[t + tau];
        if frame[t] < 0.04 || frame[t + tau] < 0.04 {
          wf0 := 0.0;
        }
        autocor[tau - 10] := autocor[tau - 10] + wf0 * wf1;
        t := t + 1;
      }
      tau := tau + 1;
    }
    assert autocor[..] == AutocorSums(frame);
    var k := ArgmaxFirst(autocor[..]);
    fundFreq := sampleRate / ((k as real) + 10.0);
  }

  /** `if (Math.abs(ff - 1600) < 0.01) ff = 0`: a reading within 0.01 Hz of
      1600 Hz is cleared, any other reading is kept. */
  function SuppressSpurious(ff: real): (r: real)
    ensures Abs(ff - 1600.0) < 0.01 ==> r == 0.0
    ensures !(Abs(ff - 1600.0) < 0.01) ==> r == ff
  {
    if Abs(ff - 1600.0) < 0.01 then 0.0 else ff
  }

  /** At 16 kHz a frame with no sample at or above the gate reads as lag 10,
      that is exactly 1600 Hz, and the reset clears it; the same reset also
      clears a genuine lag-10 pitch. */
  lemma QuietFrameReadsAsSilence(frame: seq<real>)
    requires |frame| >= 12
    ensures PeakLag(frame) == 10 ==> SuppressSpurious(PitchOfFrame(frame, 16000.0)) == 0.0
    ensures (forall i :: 0 <= i < |frame| ==> frame[i] < 0.04) ==> SuppressSpurious(PitchOfFrame(frame, 16000.0)) == 0.0
  {
    PeakLagIsFirstMaximum(frame);
  }

  // ---------------------------------------------------------------------
  // Note grid

  /** Candidate i is note number 36 + i / 10, i = 0..359. */
  function MicCandidate(i: int): real
  {
    36.0 + (i as real) * 0.1
  }

  const Floor: real := 0.005

  /** `melo_SHS` with its floor: magnitudes below 0.005 become 0. */
  function FlooredScore(powerSum: real): (r: real)
    ensures r >= 0.0
    ensures r == 0.0 <==> Abs(powerSum) < Floor
    ensures r != 0.0 ==> r == Abs(powerSum)
  {
    if Abs(powerSum) < Floor then 0.0 else Abs(powerSum)
  }

  method MeloShs(spec: seq<real>, toneNum: real, nyquist: real, fftSize: int, nToF: real -> real) returns (r: real)
    requires fftSize != 0
    ensures r == FlooredScore(ShsPower(spec, nToF(toneNum), nyquist, fftSize))
  {
    var candFreq := nToF(toneNum);
    var powerSum := AccumulateHarmonics(spec, candFreq, nyquist, fftSize);
    if Abs(powerSum) < 0.005 {
      powerSum := 0.0;
    }
    r := Abs(powerSum);
  }

  /** The floored scores of the 360 candidates. */
  function MicScores(specAbs: seq<real>, nyquist: real, fftSize: int, nToF: real -> real): (s: seq<real>)
    requires fftSize != 0
    ensures |s| == 360
  {
    seq(360, (i: int) => FlooredScore(ShsPower(specAbs, nToF(MicCandidate(i)), nyquist, fftSize)))
  }

  /** The marks: 0.02 on the first best candidate if its score reaches the
      floor, 0 everywhere else. */
  function Marks(scores: seq<real>): (nn: seq<real>)
    requires |scores| > 0
    ensures |nn| == |scores|
  {
    var k := FirstArgmax(scores);
    seq(|scores|, (i: int) => if i == k && Abs(scores[k]) >= Floor then 0.02 else 0.0)
  }

  function MicNoteNumbers(specAbs: seq<real>, nyquist: real, fftSize: int, nToF: real -> real): seq<real>
    requires fftSize != 0
  {
    Marks(MicScores(specAbs, nyquist, fftSize, nToF))
  }

  /** All 360 entries are 0 except possibly the first-argmax slot, which
      is 0.02 exactly when its score reaches the floor. */
  lemma MarksSingleSlot(scores: seq<real>)
    requires |scores| > 0
    ensures var k := FirstArgmax(scores);
      && (forall i :: 0 <= i < |scores| && i != k ==> Marks(scores)[i] == 0.0)
      && (Marks(scores)[k] == 0.02 <==> Abs(scores[k]) >= Floor)
      && (Marks(scores)[k] == 0.0 <==> Abs(scores[k]) < Floor)
  {
  }

  /** The first loop of `calcNoteNumberFromMic`: `melo_SHS` of every candidate. */
  method FrameMicScores(specAbs: seq<real>, nyquist: real, fftSize: int, nToF: real -> real) returns (scores: seq<real>)
    requires fftSize != 0
    ensures scores == MicScores(specAbs, nyquist, fftSize, nToF)
  {
    var fundFreq := new real[360];
    for i := 0 to 360
      invariant forall k :: 0 <= k < i ==> fundFreq[k] == FlooredScore(ShsPower(specAbs, nToF(MicCandidate(k)), nyquist, fftSize))
    {
      fundFreq[i] := MeloShs(specAbs, MicCandidate(i), nyquist, fftSize, nToF);
    }
    scores := fundFreq[..];
  }

  /** `calcNoteNumberFromMic(nyquist, fftSize, specAbs)`. */
  method NoteNumbersFromMic(nyquist: real, fftSize: int, specAbs: seq<real>, nToF: real -> real) returns (nnMic: seq<real>)
    requires fftSize != 0
    ensures nnMic == MicNoteNumbers(specAbs, nyquist, fftSize, nToF)
  {
    var fundFreq := FrameMicScores(specAbs, nyquist, fftSize, nToF);
    var nn := new real[360]((i: int) => 0.0);
    var k := ArgmaxFirst(fundFreq);
    if Abs(fundFreq[k]) >= 0.005 {
      var k' := ArgmaxFirst(fundFreq);
      nn[k'] := 0.02;
    }
    nnMic := nn[..];
    assert forall i :: 0 <= i < 360 ==> nnMic[i] == Marks(fundFreq)[i];
  }

  // ---------------------------------------------------------------------
  // Note names

  const NoteNames: seq<string> := ["C", "C#", "D", "D#", "E", "F", "F#", "G", "G#", "A", "A#", "B"]

  function DigitChar(d: nat): char
    requires d < 10
  {
    (48 + d) as char
  }

  /** `String.valueOf(n)` for a non-negative int. */
  function DecimalString(n: nat): (s: string)
    ensures |s| >= 1
    ensures forall i :: 0 <= i < |s| ==> '0' <= s[i] <= '9'
  {
    if n < 10 then [DigitChar(n)] else DecimalString(n / 10) + [DigitChar(n % 10)]
  }

  /** The value of a string of decimal digits. */
  function DecimalValue(s: string): nat
    requires forall i :: 0 <= i < |s| ==> '0' <= s[i] <= '9'
  {
    if |s| == 0 then 0 else 10 * DecimalValue(s[..|s| - 1]) + (s[|s| - 1] as int - 48)
  }

  lemma {:induction false} DecimalRoundTrip(n: nat)
    ensures DecimalValue(DecimalString(n)) == n
  {
    if n >= 10 {
      DecimalRoundTrip(n / 10);
      var s := DecimalString(n);
      assert s[..|s| - 1] == DecimalString(n / 10);
    }
  }

  /** Grid index a lies in note bin i, `10i - 5 <= a < 10i + 5`, for
      exactly one i, namely (a + 5) / 10. */
  lemma NoteBinUnique(a: nat, i: int)
    ensures i * 10 - 5 <= a < i * 10 + 5 <==> i == (a + 5) / 10
  {
  }

  /** The text `setNoteName` returns for the marks nnMic: blank below
      0.02, otherwise the pitch class and octave of the bin of the first
      maximal entry, and just the octave 0 when no bin up to 36 holds it. */
  function NoteNameOf(nnMic: seq<real>): string
    requires |nnMic| > 0
  {
    var a := FirstArgmax(nnMic);
    if Abs(nnMic[a]) < 0.02 then "  "
    else if (a + 5) / 10 <= 36 then NoteNames[((a + 5) / 10) % 12] + DecimalString((a + 5) / 10 / 12 + 2)
    else "" + DecimalString(0)
  }

  /** `setNoteName(nn_mic)`: the loop over the 37 bins keeps the name of
      the bin holding the argmax. */
  method NoteName(nnMic: seq<real>) returns (name: string)
    requires |nnMic| > 0
    ensures name == NoteNameOf(nnMic)
  {
    var a := ArgmaxFirst(nnMic);
    if Abs(nnMic[a]) < 0.02 {
      return "  ";
    }
    var pitchClass := "";
    var octave: nat := 0;
    var i := 0;
    while i <= 36
      invariant 0 <= i <= 37
      invariant (a + 5) / 10 < i ==> pitchClass == NoteNames[((a + 5) / 10) % 12] && octave == (a + 5) / 10 / 12 + 2
      invariant (a + 5) / 10 >= i ==> pitchClass == "" && octave == 0
    {
      NoteBinUnique(a, i);
      if i * 10 - 5 <= a as int && a < i * 10 + 5 {
        pitchClass := NoteNames[i % 12];
        octave := i / 12 + 2;
      }
      i := i + 1;
    }
    name := pitchClass + DecimalString(octave);
  }

  /** The note number nearest to candidate a (halves rounded up). */
  function NearestNote(a: nat): nat
  {
    36 + (a + 5) / 10
  }

  lemma NearestNoteRounds(a: nat)
    ensures (NearestNote(a) as real) - 0.5 <= MicCandidate(a) < (NearestNote(a) as real) + 0.5
  {
    var i := (a + 5) / 10;
    assert 10 * i <= a + 5 < 10 * i + 10;
  }

  /** The name of a note number n >= 12 with middle C (60) as C4. */
  function MidiName(n: nat): string
    requires n >= 12
  {
    NoteNames[n % 12] + DecimalString(n / 12 - 1)
  }

  /** The first maximum of the marks is the marked slot, or slot 0 when
      nothing is marked. */
  lemma MarksArgmax(scores: seq<real>)
    requires |scores| > 0
    ensures var k := FirstArgmax(scores);
      FirstArgmax(Marks(scores)) == if Abs(scores[k]) >= Floor then k else 0
  {
    var k := FirstArgmax(scores);
    var nn := Marks(scores);
    var marked := Abs(scores[k]) >= Floor;
    assert forall i :: 0 <= i < |nn| ==> nn[i] == if i == k && marked then 0.02 else 0.0;
    if marked {
      assert nn[k] == 0.02;
      assert IsFirstArgmax(nn, k);
      FirstArgmaxUnique(nn, k);
    } else {
      assert forall i :: 0 <= i < |nn| ==> nn[i] == 0.0;
      assert IsFirstArgmax(nn, 0);
      FirstArgmaxUnique(nn, 0);
    }
  }

  /** The name `setNoteName` builds for grid index k < 360 is the name of
      the nearest note. */
  lemma BinNameIsMidiName(k: nat)
    requires k < 360
    ensures (k + 5) / 10 <= 36
    ensures NoteNames[((k + 5) / 10) % 12] + DecimalString((k + 5) / 10 / 12 + 2) == MidiName(NearestNote(k))
  {
    var i := (k + 5) / 10;
    assert (36 + i) % 12 == i % 12;
    assert (36 + i) / 12 - 1 == i / 12 + 2;
  }

  /** End to end: the displayed name is blank exactly when the best score
      is below the floor, and otherwise it is the name, middle C being C4,
      of the note nearest to the first best-scoring candidate. */
  lemma ShownNameIsNearestNote(specAbs: seq<real>, nyquist: real, fftSize: int, nToF: real -> real)
    requires fftSize != 0
    ensures var scores := MicScores(specAbs, nyquist, fftSize, nToF);
      var k := FirstArgmax(scores);
      && (scores[k] < Floor ==> NoteNameOf(MicNoteNumbers(specAbs, nyquist, fftSize, nToF)) == "  ")
      && (scores[k] >= Floor ==> NoteNameOf(MicNoteNumbers(specAbs, nyquist, fftSize, nToF)) == MidiName(NearestNote(k)))
  {
    var scores := MicScores(specAbs, nyquist, fftSize, nToF);
    var k := FirstArgmax(scores);
    var nn := Marks(scores);
    assert scores[k] == FlooredScore(ShsPower(specAbs, nToF(MicCandidate(k)), nyquist, fftSize));
    MarksArgmax(scores);
    if scores[k] >= Floor {
      assert nn[k] == 0.02;
      BinNameIsMidiName(k);
    } else {
      assert nn[0] == 0.0;
    }
  }

  // ---------------------------------------------------------------------
  // The recorder listener

  /** One microphone frame: the suppressed pitch goes onto the display at
      time position / sampleRate, and the text names the marked note. */
  method OnMicFrame(display: PitchDisplay, frame: seq<real>, position: nat, sampleRate: real,
                    nyquist: real, fftSize2: int, specAbs: seq<real>, nToF: real -> real)
    returns (noteText: string)
    requires display.Valid() && |frame| >= 12 && sampleRate != 0.0 && fftSize2 != 0
    modifies display.data
    ensures display.Valid()
    ensures display.data[..] == Recorded(old(display.data[..]), position,
      Point(position as real / sampleRate, SuppressSpurious(PitchOfFrame(frame, sampleRate))))
    ensures noteText == "   Note Name: " + NoteNameOf(MicNoteNumbers(specAbs, nyquist, fftSize2, nToF))
  {
    var posInSec := position as real / sampleRate;
    var ff := CalcFF(frame, sampleRate);
    if Abs(ff - 1600.0) < 0.01 {
      ff := 0.0;
    }
    var nnMic := NoteNumbersFromMic(nyquist, fftSize2, specAbs, nToF);
    display.Record(position, posInSec, ff);
    var name := NoteName(nnMic);
    noteText := "   Note Name: " + name;
  }
}
