/** The chroma plot: the power of each pitch class is the summed log
    magnitude of the bins inside five octave bands around a hard-coded tone
    table, scaled by 0.001, with `Integer.MIN_VALUE` standing for a power of
    exactly 0. Because `1 / 12` is integer division, `Math.pow(2, 1 / 12)` is
    1, so every band is [base / 2, 3 base / 2] rather than a semitone wide. */
module RecogChord {
  import opened Common
  import opened Chroma

  /** C4 .. B4 in Hz. */
  const ToneTable: seq<real> := [261.63, 277.18, 293.66, 311.13, 329.63, 349.23,
                                 369.99, 392.00, 415.30, 440.00, 466.16, 493.88]

  /** `Math.pow(2, 1 / 12)` as written. */
  const Halftone: real := Pow2Int(JavaDiv(1, 12))

  /** Octave i's centre: the tone times 2^(i-2). */
  function OctaveBase(tone: nat, i: int): real
    requires tone < 12
  {
    ToneTable[tone] * Pow2Int(i - 2)
  }

  /** `base - base * halftone / 2` and `base + base * halftone / 2`. */
  function BandLo(tone: nat, i: int): real
    requires tone < 12
  {
    OctaveBase(tone, i) - OctaveBase(tone, i) * Halftone / 2.0
  }

  function BandHi(tone: nat, i: int): real
    requires tone < 12
  {
    OctaveBase(tone, i) + OctaveBase(tone, i) * Halftone / 2.0
  }

  /** The halftone is 1, so band i is [base / 2, 3 base / 2]; neighbouring
      bands overlap on [base_i, 3 base_i / 2], where a bin is counted in
      both. */
  lemma BandsAsWritten(tone: nat, i: int, f: real)
    requires tone < 12
    ensures Halftone == 1.0
    ensures BandLo(tone, i) == OctaveBase(tone, i) / 2.0 && BandHi(tone, i) == 3.0 * OctaveBase(tone, i) / 2.0
    ensures OctaveBase(tone, i + 1) == 2.0 * OctaveBase(tone, i)
    ensures OctaveBase(tone, i) <= f <= BandHi(tone, i) ==> InBand(f, BandLo(tone, i), BandHi(tone, i)) && InBand(f, BandLo(tone, i + 1), BandHi(tone, i + 1))
  {
    assert JavaDiv(1, 12) == 0;
    if i - 2 >= 0 {
      assert Pow2Int(i + 1 - 2) == 2.0 * Pow2Int(i - 2);
    } else if i - 2 == -1 {
      assert Pow2Int(i + 1 - 2) == 1.0;
      assert Pow2Int(i - 2) == 0.5;
    } else {
      assert Pow2Nat(-(i - 2)) == 2 * Pow2Nat(-(i + 1 - 2));
      var p := Pow2Nat(-(i + 1 - 2)) as real;
      assert Pow2Int(i - 2) == 1.0 / (2.0 * p);
      assert Pow2Int(i + 1 - 2) == 1.0 / p;
    }
    assert ToneTable[tone] > 0.0;
  }

  /** The summed log magnitude of the bins in the first m octave bands. */
  function OctaveSum(spec: seq<real>, tone: nat, nyquist: real, fftSize: int, m: int): real
    requires tone < 12 && fftSize != 0
    decreases m
  {
    if m <= 0 then 0.0
    else OctaveSum(spec, tone, nyquist, fftSize, m - 1) + BandSum(spec, nyquist, fftSize, BandLo(tone, m - 1), BandHi(tone, m - 1), |spec|)
  }

  /** `chromaPower`: the sum over the five octave bands, unnormalised. */
  function ChromaPowerOf(spec: seq<real>, tone: nat, nyquist: real, fftSize: int): real
    requires tone < 12 && fftSize != 0
  {
    OctaveSum(spec, tone, nyquist, fftSize, 5)
  }

  lemma {:induction false} OctaveSumBounds(spec: seq<real>, tone: nat, nyquist: real, fftSize: int, m: int)
    requires tone < 12 && fftSize != 0
    ensures (forall j :: 0 <= j < |spec| ==> spec[j] >= 0.0) ==> OctaveSum(spec, tone, nyquist, fftSize, m) >= 0.0
    ensures (forall i :: 0 <= i < m ==> BandCount(nyquist, fftSize, BandLo(tone, i), BandHi(tone, i), |spec|) == 0)
      ==> OctaveSum(spec, tone, nyquist, fftSize, m) == 0.0
    decreases m
  {
    if m > 0 {
      OctaveSumBounds(spec, tone, nyquist, fftSize, m - 1);
      if forall j :: 0 <= j < |spec| ==> spec[j] >= 0.0 {
        BandSumNonNegative(spec, nyquist, fftSize, BandLo(tone, m - 1), BandHi(tone, m - 1), |spec|);
      }
      if BandCount(nyquist, fftSize, BandLo(tone, m - 1), BandHi(tone, m - 1), |spec|) == 0 {
        EmptyBandSumsToZero(spec, nyquist, fftSize, BandLo(tone, m - 1), BandHi(tone, m - 1), |spec|);
      }
    }
  }

  /** The bin loop of one octave: the magnitudes of the bins in [lo, hi]. */
  method BandPower(spec: seq<real>, nyquist: real, fftSize: int, lo: real, hi: real) returns (s: real)
    requires fftSize != 0
    ensures s == BandSum(spec, nyquist, fftSize, lo, hi, |spec|)
  {
    s := 0.0;
    for j := 0 to |spec|
      invariant s == BandSum(spec, nyquist, fftSize, lo, hi, j)
    {
      var frameFreq := spec[j];
      if Freq(nyquist, fftSize, j) >= lo && Freq(nyquist, fftSize, j) <= hi {
        s := s + frameFreq;
      }
    }
  }

  /** `chromaPower`: `powerSum` over the octave loop and the bin loop. */
  method ChromaPower(spec: seq<real>, toneName: nat, nyquist: real, fftSize: int) returns (powerSum: real)
    requires toneName < 12 && fftSize != 0
    ensures powerSum == ChromaPowerOf(spec, toneName, nyquist, fftSize)
  {
    var halftone := Pow2Int(JavaDiv(1, 12));
    powerSum := 0.0;
    var baseFreq := new real[5];
    for i := 0 to 5
      invariant powerSum == OctaveSum(spec, toneName, nyquist, fftSize, i)
    {
      baseFreq[i] := ToneTable[toneName] * Pow2Int(i - 2);
      var b := baseFreq[i];
      assert b == OctaveBase(toneName, i);
      var band := BandPower(spec, nyquist, fftSize, b - b * halftone / 2.0, b + b * halftone / 2.0);
      powerSum := powerSum + band;
    }
  }

  /** A chroma cell: `0.001 * power`, or `Integer.MIN_VALUE` when that is 0. */
  function ChromaCell(power: real): (v: real)
    ensures power == 0.0 ==> v == IntMinValue
    ensures power != 0.0 ==> v == 0.001 * power
  {
    if 0.001 * power == 0.0 then IntMinValue else 0.001 * power
  }

  /** With no bin in any of a tone's bands the cell is the sentinel, and
      with a non-negative spectrum every cell is the sentinel or positive. */
  lemma ChromaCellCases(spec: seq<real>, tone: nat, nyquist: real, fftSize: int)
    requires tone < 12 && fftSize != 0
    ensures (forall i :: 0 <= i < 5 ==> BandCount(nyquist, fftSize, BandLo(tone, i), BandHi(tone, i), |spec|) == 0)
      ==> ChromaCell(ChromaPowerOf(spec, tone, nyquist, fftSize)) == IntMinValue
    ensures (forall j :: 0 <= j < |spec| ==> spec[j] >= 0.0) ==>
      var v := ChromaCell(ChromaPowerOf(spec, tone, nyquist, fftSize));
      v == IntMinValue || v > 0.0
  {
    OctaveSumBounds(spec, tone, nyquist, fftSize, 5);
  }

  /** The chroma loop of RecogChord's `start`: 17 columns per frame, the
      twelve pitch classes first and five zero columns after. */
  method ChromaVector(specLog: seq<seq<real>>, sampleRate: real, fftSize2: int) returns (chromaVec: seq<seq<real>>)
    requires fftSize2 != 0
    ensures |chromaVec| == |specLog|
    ensures forall i :: 0 <= i < |specLog| ==> |chromaVec[i]| == 17
    ensures forall i, j :: 0 <= i < |specLog| && 0 <= j < 17 ==>
      chromaVec[i][j] == if j < 12 then ChromaCell(ChromaPowerOf(specLog[i], j, sampleRate * 0.5, fftSize2)) else 0.0
  {
    chromaVec := [];
    for i := 0 to |specLog|
      invariant |chromaVec| == i
      invariant forall m :: 0 <= m < i ==> |chromaVec[m]| == 17
      invariant forall m, j :: 0 <= m < i && 0 <= j < 17 ==>
        chromaVec[m][j] == if j < 12 then ChromaCell(ChromaPowerOf(specLog[m], j, sampleRate * 0.5, fftSize2)) else 0.0
    {
      var row := new real[17];
      for j := 0 to 17
        invariant forall k :: 0 <= k < j ==>
          row[k] == if k < 12 then ChromaCell(ChromaPowerOf(specLog[i], k, sampleRate * 0.5, fftSize2)) else 0.0
      {
        if j < 12 {
          var p := ChromaPower(specLog[i], j, sampleRate * 0.5, fftSize2);
          row[j] := 0.001 * p;
          if row[j] == 0.0 {
            row[j] := IntMinValue;
          }
        } else {
          row[j] := 0.0;
        }
      }
      chromaVec := chromaVec + [row[..]];
    }
  }
}
