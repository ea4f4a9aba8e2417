/** The recording monitor: the pitch of a microphone frame is the
    frequency of its strongest spectrum bin, or 0 when even that bin is
    quieter than 0.005, drawn on the 500-point pitch display. */
module RecordMonitor {
  import opened Common
  import opened MicDisplay

  /** The threshold below which a peak counts as silence. */
  const Threshold: real := 0.005

  /** `(fftSize >> 1) + 1`: the number of bins of a real spectrum, which
      the monitor passes as the divisor of `freq` (the shift halves a
      non-negative size). */
  function HalfSpectrumSize(fftSize: nat): (n: nat)
    ensures n >= 1
  {
    fftSize / 2 + 1
  }

  /** The frequency of the first strongest bin, or 0 when it is below the
      threshold. */
  function PeakFreq(nyquist: real, fftSize: int, specAbs: seq<real>): real
    requires fftSize != 0 && |specAbs| > 0
  {
    var k := FirstArgmax(specAbs);
    if specAbs[k] < Threshold then 0.0 else Freq(nyquist, fftSize, k)
  }

  /** `calcFF(nyquist, fftSize, specAbs)`. */
  method CalcFF(nyquist: real, fftSize: int, specAbs: seq<real>) returns (ff: real)
    requires fftSize != 0 && |specAbs| > 0
    ensures ff == PeakFreq(nyquist, fftSize, specAbs)
  {
    var k := ArgmaxFirst(specAbs);
    if specAbs[k] < Threshold {
      return 0.0;
    } else {
      var k' := ArgmaxFirst(specAbs);
      return Freq(nyquist, fftSize, k');
    }
  }

  /** The monitor reports a silent frame as 0; otherwise it reports the
      frequency of a bin whose magnitude is maximal and above that of every
      earlier bin, and that frequency is below the Nyquist frequency when,
      as in the monitor, the divisor is the number of bins. */
  lemma PeakFreqIsStrongestBin(nyquist: real, fftSize: int, specAbs: seq<real>)
    requires fftSize != 0 && |specAbs| > 0
    ensures (forall i :: 0 <= i < |specAbs| ==> specAbs[i] < Threshold) ==> PeakFreq(nyquist, fftSize, specAbs) == 0.0
    ensures PeakFreq(nyquist, fftSize, specAbs) != 0.0 ==>
      exists k :: 0 <= k < |specAbs| && PeakFreq(nyquist, fftSize, specAbs) == Freq(nyquist, fftSize, k)
        && specAbs[k] >= Threshold
        && (forall j :: 0 <= j < |specAbs| ==> specAbs[j] <= specAbs[k])
        && (forall j :: 0 <= j < k ==> specAbs[j] < specAbs[k])
    ensures nyquist > 0.0 && fftSize == |specAbs| ==> 0.0 <= PeakFreq(nyquist, fftSize, specAbs) < nyquist
  {
    var k := FirstArgmax(specAbs);
    if nyquist > 0.0 && fftSize == |specAbs| {
      FreqMonotone(nyquist, fftSize, 0, k);
      FreqBelowNyquist(nyquist, fftSize, k);
    }
  }

  /** A bin index below the divisor maps below the Nyquist frequency. */
  lemma FreqBelowNyquist(nyquist: real, fftSize: int, k: int)
    requires nyquist > 0.0 && 0 <= k < fftSize
    ensures Freq(nyquist, fftSize, k) < nyquist
  {
    var step := nyquist / (fftSize as real);
    assert step > 0.0;
    assert step * (fftSize as real) == nyquist;
    assert step * (k as real) < step * (fftSize as real);
  }

  /** The recorder listener: the peak pitch of the half spectrum goes onto
      the display at time position / sampleRate. */
  method OnMicFrame(display: PitchDisplay, position: nat, sampleRate: real, nyquist: real, fftSize: nat, specAbs: seq<real>)
    requires display.Valid() && sampleRate != 0.0 && |specAbs| > 0
    modifies display.data
    ensures display.Valid()
    ensures display.data[..] == Recorded(old(display.data[..]), position,
      Point(position as real / sampleRate, PeakFreq(nyquist, HalfSpectrumSize(fftSize), specAbs)))
  {
    var posInSec := position as real / sampleRate;
    var ff := CalcFF(nyquist, HalfSpectrumSize(fftSize), specAbs);
    display.Record(position, posInSec, ff);
  }
}
