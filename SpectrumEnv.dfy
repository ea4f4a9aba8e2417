/** The spectral-envelope plot: the log spectrum is padded and normalised
    before its transform, the cepstrum is cut to its 13 lowest coefficients
    in place and copied into the buffer the inverse transform reads. */
module SpectrumEnv {
  import opened Common
  import opened Cepstrum

  /** A signal padded to `fftSize` samples and divided by its length: the
      plot's `src2` from the log spectrum, and `src` from a waveform. */
  method NormalisedInput(signal: seq<real>, fftSize: nat) returns (src: seq<real>)
    requires |signal| > 0
    ensures |src| == fftSize
    ensures forall i :: 0 <= i < fftSize ==> src[i] == if i < |signal| then signal[i] / (|signal| as real) else 0.0
    ensures fftSize >= |signal| ==> Sum(src) == Sum(signal) / (|signal| as real)
  {
    src := CopyOfScaled(signal, fftSize);
    if fftSize >= |signal| {
      PaddedScaledSumsToMean(signal, fftSize);
    }
  }

  /** The envelope's cepstrum: truncate `cepstrum` in place, then build
      `ceps_filled` of `(fftSize5 >> 1) + 1` coefficients from it. */
  method EnvelopeCepstrum(cepstrum: array<Complex>, fftSize5: nat) returns (cepsFilled: seq<Complex>)
    modifies cepstrum
    ensures cepstrum[..] == Truncated(old(cepstrum[..]))
    ensures cepsFilled == ZeroPadded(Truncated(old(cepstrum[..])), fftSize5 / 2 + 1)
  {
    TruncateInPlace(cepstrum);
    cepsFilled := ZeroPad(cepstrum[..], fftSize5);
  }

  /** What the inverse transform receives: the 13 lowest coefficients of
      the cepstrum where the buffer has room for them, and zero in every
      other slot. */
  lemma EnvelopeKeepsLowQuefrencies(c: seq<Complex>, fftSize5: nat)
    ensures var f := ZeroPadded(Truncated(c), fftSize5 / 2 + 1);
      && |f| == fftSize5 / 2 + 1
      && (forall i :: 0 <= i < |f| && i < |c| && i < Order ==> f[i] == c[i])
      && (forall i :: 0 <= i < |f| && (i >= |c| || i >= Order) ==> f[i] == Zero)
  {
  }
}
