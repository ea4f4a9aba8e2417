# Audio analysis core of le4m, modelled in Dafny

le4m is a set of JavaFX programs for a music-informatics course. They read a
waveform, or record one from a microphone, and plot what they derive from it:
- the fundamental frequency, by autocorrelation, with or without an amplitude
  gate and a zero-crossing voicing veto;
- the loudness of each frame;
- a chroma vector and the most likely of 24 triads;
- a melody by subharmonic summation (SHS) on a grid of 0.1 semitone;
- the spectral envelope from a cepstrum truncated to 13 coefficients;
- the vowel recognised by a diagonal Gaussian classifier.

This project models the discrete analysis logic that runs before and after
the Fourier transforms. That logic covers:
- frame counts and index arithmetic;
- thresholds and amplitude gates;
- band sums, harmonic sums and per-frame energy;
- the two argmax tie-break rules;
- in-place cepstrum truncation and zero padding;
- mean/variance training and the likelihood loop;
- the 500-slot rolling pitch display.

The model works over the mathematical reals and integers. Spectra, cepstra
and the results of the transforms are input sequences. `n_to_f`, `log10`,
the decibel step and the Fourier transform are function-typed parameters.

Modules follow the programs:
- `Common` holds the building blocks all tools share: `Complex`, Java's
  truncating `/`, `Math.round`, the frame count `(len - F) / S`, `freq`, and
  the first-wins and last-wins argmax.
- `Autocorrelation`, `Subharmonic`, `Chroma` and `Cepstrum` hold the loops
  that several programs copy: the gated lag search, the harmonic sum, band
  sums, and truncation with padding.
- One module per program holds that program's own logic: `VisualizeWav`,
  `KaraokeSystem`, `MicDisplay`, `RecordMonitor`, `SpeechRecogR`,
  `SpeechRecog`, `ZeroCrossing`, `FundamentalFreq`, `RecogChord`,
  `SpectrumEnv` and `Loudness`.

Each loop of the source is a `method` with a `while` or `for` loop. Its
`ensures` ties the result to a recursive specification function, and lemmas
prove what the source promises about that function. The rolling display is a
class over a 500-element array, updated in place.

Several quirks of the source are modelled as written and proved:
- `1 / 2` is 0 in the likelihood, so the log-variance term vanishes.
- `Math.pow(2, 1 / 12)` is 1 in RecogChord, so every octave band is
  [base/2, 3 base/2] and neighbouring bands overlap.
- The test frames of the vowel classifier start at `i * shiftSum`, and their
  count comes from the training waveform. A test recording shorter than
  `(shiftSum - 1) * shiftSum + frameSize` samples therefore makes the source
  index past its end; the model requires the test recording to be that long.
- PlotFundamentalFreq resets `ac_buf` inside the lag loop, so it keeps the
  last positive lag.
- PlotZeroCrossing stores the lag itself, not a frequency.
- Loudness divides by the waveform length, not the frame length.

## Model

| member | source | states |
|---|---|---|
| Common.JavaRound | LearnSpeechRecog.java:68-69 | `Math.round(x)` is an integer within half of x, with halves rounded up |
| Common.JavaDiv | Task1_VisualizeWav.java:216 | Java's int `/` truncates toward zero: quotient bounds for each sign of the dividend |
| Common.FrameCountNonNegative | PlotLoudness.java:50 | the frame count `(len - frameSize) / shiftSize` is a legal array size exactly when len > frameSize - shiftSize |
| Common.FrameWithinWaveform | PlotLoudness.java:50-55 | every sample index `i * shiftSize + j`, j < frameSize, of a counted frame lies inside the waveform |
| Common.FreqLinear | RecordMonitorSpectrogramTest.java:424-426 | `freq(n, f, 0) == 0` and `freq` is additive in the bin |
| Common.FreqMonotone | RecordMonitorSpectrogramTest.java:424-426 | `freq` is monotone in the bin for a non-negative Nyquist frequency |
| Common.FirstArgmax | Task1_VisualizeWav.java:538-548 | the index holds a maximal value and every earlier value is strictly smaller |
| Common.FirstArgmaxUnique | Task1_VisualizeWav.java:538-548 | that index is the only one with this property |
| Common.FirstArgmaxOfTie | Task1_VisualizeWav.java:538-548 | `[5, 5, 3]` gives 0 |
| Common.ArgmaxFirst | Task1_VisualizeWav.java:538-548 | the strict-`<` scan returns the first maximal index |
| Common.LastArgmax | LearnSpeechRecog_R.java:263-272 | the index holds a maximal value and every later value is strictly smaller |
| Common.LastArgmaxUnique | LearnSpeechRecog_R.java:263-272 | that index is the only one with this property |
| Common.LastArgmaxOfTie | LearnSpeechRecog_R.java:263-272 | `[5, 5, 3]` gives 1 |
| Common.ArgmaxesAgreeOnUniqueMaximum | LearnSpeechRecog_R.java:263-272 | the `<` and `<=` scans agree exactly when the maximum occurs once |
| Common.ArgmaxLast | LearnSpeechRecog_R.java:263-272 | the `<=` scan returns the last maximal index |
| Autocorrelation.QuietLagSumIsZero | Task1_VisualizeWav.java:225-234 | with a gate, a waveform entirely below the level sums to 0 at every lag |
| Autocorrelation.FirstPeakIsFirstPositiveMaximum | Task1_VisualizeWav.java:220-239 | the stored lag is 0 exactly when no lag in [10, frameSize-1) has a positive sum; otherwise it is in range, positive, maximal, and every earlier lag is strictly smaller |
| Autocorrelation.AccumulateLag | Task1_VisualizeWav.java:223-235 | one lag's sum over j < frameSize - 1; a read past the end adds 0 and a sample below the gate zeroes the product |
| Autocorrelation.FirstPeakLag | Task1_VisualizeWav.java:221-239 | the running-maximum scan with `ac_buf` reset per frame returns the first positive peak |
| Subharmonic.BinScoreBounds | Task1_VisualizeWav.java:583-587 | a bin adds `spec[i]` once per harmonic within 10 Hz: 0 when none hits, at most 5 times its magnitude |
| Subharmonic.ShsSumNonNegative | Task1_VisualizeWav.java:577-591 | a non-negative spectrum scores at least 0 |
| Subharmonic.ShsSumIgnoresUnmatchedBins | Task1_VisualizeWav.java:577-591 | changing a bin that no harmonic reaches does not change the score |
| Subharmonic.AccumulateHarmonics | Task1_VisualizeWav.java:582-588 | the double loop computes the harmonic sum |
| Chroma.BandSumNonNegative | RecogChord.java:157-163 | a non-negative spectrum has a non-negative band sum |
| Chroma.EmptyBandSumsToZero | RecogChord.java:157-163 | a band that holds no bin sums to 0 |
| VisualizeWav.FundFreqTrack | Task1_VisualizeWav.java:212-239 | `(len - frameSize) / shiftSize` pitches, each `sampleRate / t` for the first positive peak lag with gate 0.1, or 0 |
| VisualizeWav.PitchBound | Task1_VisualizeWav.java:237 | a pitch is 0 or at most a tenth of the sample rate |
| VisualizeWav.OctaveSumNonNegative | Task1_VisualizeWav.java:563-571 | the octave sum of a non-negative spectrum is non-negative |
| VisualizeWav.OctaveSumWithoutMatches | Task1_VisualizeWav.java:563-571 | with no matching bin the octave sum is 0 |
| VisualizeWav.ChromaPowerProperties | Task1_VisualizeWav.java:552-574 | `powerSum / div`, with div = 1 + the number of matches, is non-negative for a non-negative spectrum and 0 without matches |
| VisualizeWav.ChromaPower | Task1_VisualizeWav.java:552-574 | the loop over five octaves `base * 2^(i-2)`, bands `base / hh .. base * hh`, computes that power |
| VisualizeWav.ChromaEntryOrder | Task1_VisualizeWav.java:424-425 | `-0.15 / p` is never 0, so the MIN_VALUE branch never fires; entries are negative and increase with the power |
| VisualizeWav.ChromaVector | Task1_VisualizeWav.java:420-430 | 17 columns per frame: `-0.15 / chromaPower` for j < 12, 0 for the rest |
| VisualizeWav.TriadIntervals | Task1_VisualizeWav.java:337-349 | every chroma index read is in 0..11; the third is 4 semitones above the root for a major chord and 3 for a minor one; the fifth is 7 |
| VisualizeWav.BestChordIsFirstMostLikely | Task1_VisualizeWav.java:352-355 | the chord index is below 24, maximal and strictly above every earlier chord |
| VisualizeWav.RecognizeChords | Task1_VisualizeWav.java:335-355 | `like_chord` holds the 24 weighted scores (1.0/0.5/0.8) and `like_graph` the first-wins argmax |
| VisualizeWav.ChordChart | Task1_VisualizeWav.java:329-355 | each frame's chart value lies in [0, 24) and is the first most likely triad of that frame's chroma vector (12 pitch-class entries, then 5 zeros) |
| VisualizeWav.MeloShs | Task1_VisualizeWav.java:577-591 | `Math.abs` of the harmonic sum, equal to the sum for a non-negative spectrum |
| VisualizeWav.MelodyNoteIsBestCandidate | Task1_VisualizeWav.java:480-492 | the melody is `60 + argmax / 10`, in [60, 95.9], for the first maximal candidate |
| VisualizeWav.FrameMelodyScores | Task1_VisualizeWav.java:482-486 | the 360 candidate scores of a frame |
| VisualizeWav.MelodyTrack | Task1_VisualizeWav.java:481-492 | one melody note per frame |
| KaraokeSystem.PeakLagIsFirstMaximum | Task2_KaraokeSystem.java:473-488 | the lag lies in [10, len-1) with `autocor[tau-10]` maximal and first; an all-quiet frame gives lag 10 |
| KaraokeSystem.CalcFF | Task2_KaraokeSystem.java:473-488 | `frame.length - 11` accumulators with gate 0.04; the result is `sampleRate / (argmax + 10)` |
| KaraokeSystem.SuppressSpurious | Task2_KaraokeSystem.java:429 | a reading within 0.01 of 1600 becomes 0; any other is kept |
| KaraokeSystem.QuietFrameReadsAsSilence | Task2_KaraokeSystem.java:428-429 | at 16 kHz an all-quiet frame reads 1600 Hz, which the reset clears |
| KaraokeSystem.FlooredScore | Task2_KaraokeSystem.java:525-529 | the score is non-negative, and is 0 exactly when `|powerSum| < 0.005` |
| KaraokeSystem.MeloShs | Task2_KaraokeSystem.java:511-530 | the floored absolute harmonic sum |
| KaraokeSystem.MarksSingleSlot | Task2_KaraokeSystem.java:496-507 | 360 entries, all 0 except the first-argmax slot, which is 0.02 exactly when its score reaches the floor |
| KaraokeSystem.FrameMicScores | Task2_KaraokeSystem.java:500-503 | the candidate loop computes the 360 scores |
| KaraokeSystem.NoteNumbersFromMic | Task2_KaraokeSystem.java:493-508 | the method builds exactly those marks |
| KaraokeSystem.DecimalRoundTrip | Task2_KaraokeSystem.java:550 | `String.valueOf` of a non-negative int reads back as the same number |
| KaraokeSystem.NoteBinUnique | Task2_KaraokeSystem.java:543-548 | `10i - 5 <= a < 10i + 5` holds for exactly one i, namely `(a + 5) / 10` |
| KaraokeSystem.NoteName | Task2_KaraokeSystem.java:533-552 | the loop over the 37 bins keeps the name of the bin holding the argmax, or blank below 0.02 |
| KaraokeSystem.NearestNoteRounds | Task2_KaraokeSystem.java:543-546 | the bin index is the candidate note rounded to the nearest integer |
| KaraokeSystem.MarksArgmax | Task2_KaraokeSystem.java:537-539 | the argmax of the marks is the marked slot, or 0 when nothing is marked |
| KaraokeSystem.BinNameIsMidiName | Task2_KaraokeSystem.java:543-550 | the name built for index k < 360 is `noteNameArr[i % 12]` followed by `i / 12 + 2`, the name of the nearest note |
| KaraokeSystem.ShownNameIsNearestNote | Task2_KaraokeSystem.java:496-551 | the name is blank exactly when the best score is below the floor; otherwise it names the note nearest the best candidate |
| KaraokeSystem.OnMicFrame | Task2_KaraokeSystem.java:428-450 | one recorder frame: the suppressed pitch is recorded at `position / sampleRate`, and the text names the marked note |
| MicDisplay.InitialPoints | Task2_KaraokeSystem.java:311-314 | 500 points, slot i at time `i / sampleRate` with pitch 0 |
| MicDisplay.Recorded | Task2_KaraokeSystem.java:436-446 | while `position / 320 < 500` only that slot changes; after that every point moves one slot left and slot 499 gets the new point |
| MicDisplay.ScrollingKeepsHistory | Task2_KaraokeSystem.java:439-446 | two scrolling updates drop the two oldest points and keep the rest in order |
| MicDisplay.PitchDisplay.constructor | Task2_KaraokeSystem.java:311-314 | the buffer starts as the initial points |
| MicDisplay.PitchDisplay.Record | Task2_KaraokeSystem.java:436-446 | the in-place update leaves the 500-slot array equal to the recorded display |
| RecordMonitor.HalfSpectrumSize | RecordMonitorSpectrogramTest.java:393 | `(fftSize >> 1) + 1` is at least 1 |
| RecordMonitor.CalcFF | RecordMonitorSpectrogramTest.java:429-437 | 0 when the first-argmax magnitude is below 0.005, else `freq` of that bin |
| RecordMonitor.PeakFreqIsStrongestBin | RecordMonitorSpectrogramTest.java:429-449 | a frame entirely below the threshold reads 0; a non-zero reading is `freq` of the first strongest bin; with the divisor equal to the bin count it lies below the Nyquist frequency |
| RecordMonitor.FreqBelowNyquist | RecordMonitorSpectrogramTest.java:424-426 | a bin below the divisor maps below the Nyquist frequency |
| RecordMonitor.OnMicFrame | RecordMonitorSpectrogramTest.java:389-412 | the peak pitch for divisor `(fftSize >> 1) + 1` is recorded at `position / sampleRate` |
| Cepstrum.CopyOf | LearnSpeechRecog.java:80 | `Arrays.copyOf(s, n)`: n values, matching s below its length and 0 after |
| Cepstrum.Scaled | LearnSpeechRecog.java:81 | every value divided by d |
| Cepstrum.CopyOfScaled | LearnSpeechRecog.java:79-82 | a padded, normalised buffer built element by element |
| Cepstrum.SumOfScaled | LearnSpeechRecog.java:81 | dividing every value by d divides the sum by d |
| Cepstrum.SumOfZeros | LearnSpeechRecog.java:80 | zero padding adds nothing to a sum |
| Cepstrum.SumOfAppended | LearnSpeechRecog.java:80 | the sum of a concatenation is the sum of the parts |
| Cepstrum.PaddedScaledSumsToMean | LearnSpeechRecog.java:79-82 | a signal padded to n >= its length and divided by its length sums to its mean |
| Cepstrum.TruncatedProperties | PlotSpectrumEnv.java:77-79 | coefficients below 13 are kept, those from 13 on become ZERO, and truncating twice gives the same as truncating once |
| Cepstrum.TruncateInPlace | LearnSpeechRecog.java:105-107 | the in-place loop leaves exactly the truncated cepstrum |
| Cepstrum.ZeroPad | LearnSpeechRecog.java:110-117 | `ceps_filled` has `(fftSize5 >> 1) + 1` entries: the cepstrum's coefficient where it has one, ZERO after |
| Cepstrum.PaddingHalfSpectrumIsIdentity | PlotSpectrumEnv.java:82-89 | for the cepstrum of a 2^q-point signal, padding to `(2^q >> 1) + 1` changes nothing |
| SpectrumEnv.NormalisedInput | PlotSpectrumEnv.java:67-70 | `src2` has `fftSize3` entries: `specLog[i] / specLog.length` below its length, 0 after |
| SpectrumEnv.EnvelopeCepstrum | PlotSpectrumEnv.java:77-89 | truncation in place, then zero padding into `ceps_filled` |
| SpectrumEnv.EnvelopeKeepsLowQuefrencies | PlotSpectrumEnv.java:77-89 | the inverse transform receives the 13 lowest coefficients where there is room, and ZERO in every other slot |
| SpeechRecog.RoundShift | LearnSpeechRecog.java:69 | `Math.round(x + j)` for an integer j is `Math.round(x) + j` |
| SpeechRecog.CopySegments | LearnSpeechRecog.java:66-71 | vowel i holds `waveform[round(sr * sep[i] + j)]` for j below its sample count, and 0 in the later slots |
| SpeechRecog.SegmentIsContiguous | LearnSpeechRecog.java:66-71 | each vowel buffer is a contiguous slice of the recording followed by zeros |
| SpeechRecog.CepstrumInputs | LearnSpeechRecog.java:79-98 | `src` is the fourth vowel padded and divided by its length, so it sums to its mean; `src2` is the log spectrum padded and not scaled |
| SpeechRecog.Envelope | LearnSpeechRecog.java:99-117 | `ceps_filled` holds the 13 lowest coefficients of the cepstrum and ZERO elsewhere |
| SpeechRecog.DegenerateModel | LearnSpeechRecog.java:126-134 | `mu[i][j] = wave_vowel[i][j]`, so every `sigma2[i][j]` is exactly 0 |
| SpeechRecogR.CopyFrame | LearnSpeechRecog_R.java:73-76 | the sample loop copies one frame |
| SpeechRecogR.SegmentFrames | LearnSpeechRecog_R.java:71-77 | the frames of one vowel segment |
| SpeechRecogR.VowelFrames | LearnSpeechRecog_R.java:69-78 | `wave_vowel[i][j][k]` is the training frame sample for every vowel |
| SpeechRecogR.TrainingFrameSample | LearnSpeechRecog_R.java:74-75 | sample k of frame j below the count is `waveform[round(sr * sep[i]) + j * shiftSize + k]` |
| SpeechRecogR.FrameFeatures | LearnSpeechRecog_R.java:125-136 | the loop zeroes coefficients from 13 on and copies the real parts below 13 into `cepstrum_re` |
| SpeechRecogR.TrainingFeatures | LearnSpeechRecog_R.java:83-138 | the features of every frame slot of every vowel |
| SpeechRecogR.FeaturesIgnoreTruncation | LearnSpeechRecog_R.java:125-136 | only coefficients below 13 are read, so truncating first changes nothing; empty slots give zeros |
| SpeechRecogR.MeanIsAverage | LearnSpeechRecog_R.java:149-151 | the mean is the column sum over N |
| SpeechRecogR.VarianceNonNegative | LearnSpeechRecog_R.java:152-154 | the population variance is at least 0 |
| SpeechRecogR.ConstantColumn | LearnSpeechRecog_R.java:149-154 | a constant column has that constant as mean and variance 0 |
| SpeechRecogR.MeanCountsEmptySlots | LearnSpeechRecog_R.java:149-151 | zero-filled slots still count in the divisor N = `shift2sec` |
| SpeechRecogR.MeanOf | LearnSpeechRecog_R.java:149-151 | the loop `acc + x[n] / N` computes the mean |
| SpeechRecogR.VarianceOf | LearnSpeechRecog_R.java:152-154 | the loop `acc + (x[n] - mu)^2 / N` computes the population variance |
| SpeechRecogR.Train | LearnSpeechRecog_R.java:143-157 | `mu[i][d]` and `sigma2[i][d]` are the mean and population variance of dimension d over vowel i's slots |
| SpeechRecogR.TestFrames | LearnSpeechRecog_R.java:170-176 | `shiftSum` frames counted from the training waveform; frame i starts at `i * shiftSum` |
| SpeechRecogR.TestCepstra | LearnSpeechRecog_R.java:179-214 | each test cepstrum truncated to 13 coefficients in place |
| SpeechRecogR.LogTermVanishes | LearnSpeechRecog_R.java:219-226 | `1 / 2` is 0, so the likelihood is minus the quadratic form, whatever log10 is; it is at most 0 when every variance is positive |
| SpeechRecogR.LikelihoodIgnoresTruncation | LearnSpeechRecog_R.java:211-224 | the likelihood reads only coefficients below 13, so truncation does not change it |
| SpeechRecogR.Likelihoods | LearnSpeechRecog_R.java:221-226 | the five likelihoods of one frame |
| SpeechRecogR.VowelLikelihood | LearnSpeechRecog_R.java:222-225 | the loop accumulates the likelihood over the 13 dimensions |
| SpeechRecogR.FrameLikelihoods | LearnSpeechRecog_R.java:220-226 | `likelihood[n]` holds the five likelihoods |
| SpeechRecogR.Classify | LearnSpeechRecog_R.java:217-228 | `rslt_vowel[n]` is the last-wins argmax of the frame's likelihoods |
| SpeechRecogR.RecognisedVowelIsLastMostLikely | LearnSpeechRecog_R.java:219-228 | the result is a vowel below 5 whose likelihood is maximal, every later vowel's likelihood is strictly smaller, and it does not depend on log10 |
| ZeroCrossing.CrossingCount | PlotZeroCrossing.java:109-114 | the number of counted sign changes is at most frameSize - 1 |
| ZeroCrossing.SilentFrameHasNoCrossing | PlotZeroCrossing.java:109-114 | an all-zero frame has no crossing |
| ZeroCrossing.OneSignHasNoCrossing | PlotZeroCrossing.java:109-114 | a frame of one strict sign has no crossing |
| ZeroCrossing.CountCrossings | PlotZeroCrossing.java:108-114 | the loop counts exactly those crossings |
| ZeroCrossing.Vetoed | PlotZeroCrossing.java:115-117 | the lag becomes 0 exactly when `zc / frameDuration > 2 * lag`, and is unchanged otherwise |
| ZeroCrossing.FrameLags | PlotZeroCrossing.java:79-103 | `fundFreq[i]` is the first positive peak lag with gate 0.15, itself and not a frequency |
| ZeroCrossing.ApplyVeto | PlotZeroCrossing.java:106-118 | every frame's crossing count, and the veto applied to its lag in place |
| ZeroCrossing.VoicedLags | PlotZeroCrossing.java:79-118 | `(len - frameSize) / shiftSize` frames, each read in bounds, each the vetoed first peak lag |
| ZeroCrossing.StoredValueIsVoicedLag | PlotZeroCrossing.java:83-117 | a stored value is 0 or a lag in [10, frameSize-2] with a positive sum and a crossing rate at most twice it; a frame with no positive sum stores 0 |
| FundamentalFreq.LastPositiveLag | PlotFundamentalFreq.java:55-67 | the value is 0 or a lag in [10, t) |
| FundamentalFreq.LastPositiveLagIsLast | PlotFundamentalFreq.java:54-67 | 0 exactly when no lag has a positive sum; otherwise its sum is positive and no later lag's is |
| FundamentalFreq.FrameValue | PlotFundamentalFreq.java:55-66 | every stored value lies in {0} ∪ [10, frameSize-2] |
| FundamentalFreq.FrameLag | PlotFundamentalFreq.java:55-67 | with `ac_buf` reset for every lag, the loop ends on the last positive lag |
| FundamentalFreq.LagTrack | PlotFundamentalFreq.java:50-69 | `(len - frameSize) / shiftSize` frames, each the last positive ungated lag |
| FundamentalFreq.SilentFrameStoresZero | PlotFundamentalFreq.java:54-67 | an all-zero waveform stores 0 |
| FundamentalFreq.SilentLagSumIsZero | PlotFundamentalFreq.java:57-63 | an all-zero waveform sums to 0 at every lag |
| RecogChord.BandsAsWritten | RecogChord.java:149-160 | halftone is 1, so band i is [base/2, 3 base/2]; the base doubles per octave, and a bin in the overlap is counted in two bands |
| RecogChord.OctaveSumBounds | RecogChord.java:154-165 | a non-negative spectrum gives a non-negative power; a tone with no bin in any band has power 0 |
| RecogChord.BandPower | RecogChord.java:157-163 | the bin loop sums the magnitudes inside [lo, hi] |
| RecogChord.ChromaPower | RecogChord.java:148-166 | the unnormalised sum over the five octave bands of the hard-coded tone table |
| RecogChord.ChromaCell | RecogChord.java:83-84 | a power of 0 gives `Integer.MIN_VALUE`; a non-zero power gives `0.001 * power` |
| RecogChord.ChromaCellCases | RecogChord.java:79-89 | with no bin in any band the cell is the sentinel; for a non-negative spectrum the cell is the sentinel or positive |
| RecogChord.ChromaVector | RecogChord.java:79-89 | 17 columns per frame: the chroma cell for j < 12 and 0 after |
| Loudness.SumOfSquaresProperties | PlotLoudness.java:53-55 | the sum of squares is non-negative, and 0 for an all-zero frame |
| Loudness.EnergyProperties | PlotLoudness.java:53-56 | the energy is non-negative, 0 for an all-zero frame, and the sum of squares divided by the waveform length |
| Loudness.FrameEnergy | PlotLoudness.java:52-56 | the loop computes that energy |
| Loudness.Volume | PlotLoudness.java:50-58 | `(len - frameSize) / shiftSize` values, every read in bounds, each the decibels of the frame energy |

## Left out

- JavaFX charts, axes, stages and image saving: these are user interface only.
- Audio file reading, the player and recorder devices, and the `param.txt` writer of LearnSpeechRecog.java: these are I/O. Recorded frames, spectra and positions are parameters.
- The `ExecutorService` and listener lambdas: concurrency. Only the buffer update inside them is modelled, as a sequential method.
- `Le4MusicUtils.rfft`, `irfft`, `hanning`, `sliding` and `nextPow2`, and `MathArrays.ebeMultiply`: this library is not part of this model. Their results are input sequences, and the Fourier transform is a function parameter.
- `n_to_f`, `Math.log10`, `Math.pow(2, 1/30)`, `Complex.abs` and the decibel conversions are transcendental. They are parameters, or their results are inputs. IEEE effects are not modelled: `-Infinity` from `log10(0)`, NaN from `0 / 0`, and rounding.
- Division by zero is excluded by a precondition wherever the source would divide by zero: `fftSize != 0`, `frameDuration != 0`, a non-empty waveform.
- The conversions `Math.round(duration * sampleRate)` from seconds to samples: frame and shift sizes, segment starts and sample counts are integer or real parameters.
- Command-line option parsing.
- The `System.out.println` lines. They are not only diagnostics: `zero_crossing[100]` in PlotZeroCrossing and `chromaVec[20]`, `chromaVec[100]` and `specLog[100]` in RecogChord throw an index exception for a recording of 100 frames or fewer, before any chart is shown. The model's results for such recordings are the values the source would have computed without those lines.
- VisualizeWav.FundFreqTrack: requires `FrameCount(len, frameSize, shiftSize) >= 0`. For a recording shorter than `frameSize - shiftSize` samples, Task1_VisualizeWav allocates `new double[(len - frameSize) / shiftSize]` with a negative size and throws; the model leaves that failure out.
- ZeroCrossing.VoicedLags: requires `FrameCount(len, frameSize, shiftSize) >= 0`. For a recording shorter than `frameSize - shiftSize` samples, PlotZeroCrossing allocates `new double[(len - frameSize) / shiftSize]` with a negative size and throws; the model leaves that failure out.
- FundamentalFreq.LagTrack: requires `FrameCount(len, frameSize, shiftSize) >= 0`. For a recording shorter than `frameSize - shiftSize` samples, PlotFundamentalFreq allocates `new double[(len - frameSize) / shiftSize]` with a negative size and throws; the model leaves that failure out.
- Loudness.Volume: requires `FrameCount(len, frameSize, shiftSize) >= 0`. For a recording shorter than `frameSize - shiftSize` samples, PlotLoudness allocates `new double[(len - frameSize) / shiftSize]` with a negative size and throws; the model leaves that failure out.
- SpeechRecogR.TestFrames: requires `FrameCount(len, frameSize, shiftSize) >= 0`. For a recording shorter than `frameSize - shiftSize` samples, LearnSpeechRecog_R allocates `new double[(len - frameSize) / shiftSize]` with a negative size and throws; the model leaves that failure out.
- SpeechRecogR.TestFrames: also requires `TestFramesFit`, that is `(shiftSum - 1) * shiftSum + frameSize <= |waveform2|` when `shiftSum > 0`, where `shiftSum` is the training recording's frame count. For a shorter test recording the source throws an index exception at `waveform2[i * shiftSum + j]`; the model leaves that failure out.
- KaraokeSystem.CalcFF: requires `|frame| >= 12`. The source allocates `frame.length - 11` accumulators and takes their argmax, so it throws for a frame of 11 samples or fewer; the frame duration is a command-line option, so such frames are reachable. The model leaves that failure out.
- The three first-wins argmax copies are modelled once, as `Common.ArgmaxFirst`. Likewise, `freq` is modelled once, as `Common.Freq`.
- VisualizeWav.ChromaVector: requires every chroma power to be non-zero. `-0.15 / 0` is an IEEE infinity and is not modelled.
- Loudness.EnergyProperties: states "0 for an all-zero frame" in one direction only. The converse holds over the reals but is not proved.
- RecogChord.ChromaCell: states "0 gives the sentinel, non-zero gives 0.001 times the power". An if-and-only-if is not stated, because `0.001 * p` can equal the sentinel value for a non-zero p.
- Loudness.Volume: the decibel step `20 log10(sqrt(v))` is the parameter `decibels`.
- SpeechRecogR.VowelFrames: requires each vowel's frame count to fit in the `shift2sec` slots and its frames to lie inside the recording. The source throws an index exception otherwise.
- SpeechRecogR.Classify: requires every variance to be non-zero, and every test cepstrum to have at least the 13 coefficients the likelihood reads. With `sigma2 == 0` the source divides by zero. The length is not derivable because the Fourier transform is a parameter; the source's cepstra have it for any frame of 17 samples or more.
- SpeechRecog.CopySegments: requires each vowel's sample count to fit in its buffer and its segment `round(sr * sep[i]) .. round(sr * sep[i]) + count` to lie inside the recording. The first always holds in the source (every hard-coded segment is shorter than its 2-second buffer). The second does not: the recording is any WAV file, and for one shorter than the last segment's end, LearnSpeechRecog.java throws an index exception at `waveform[round(sampleRate * aiueo_sep[i] + j)]`. The model leaves that failure out.
- The per-frame scratch arrays of the test loop of LearnSpeechRecog_R.java (`fftSize`, `fftSize2`, `fftSize3`, `src`, `spectrum`, `specLog` and the like), which are reallocated for every frame: they are not modelled. Only the frame's cepstrum is. The write to `fftSize2[2]` throws when there are 2 test frames or fewer, which cannot happen once training has read its segments, so leaving it out changes no result.
