/** The cepstrum handling shared by the spectral-envelope plot and the two
    vowel recognisers: `Arrays.copyOf` with an optional scale, keeping the
    first 13 cepstral coefficients, and copying a cepstrum into a longer
    zero-filled buffer. */
module Cepstrum {
  import opened Common

  /** The number of cepstral coefficients kept. */
  const Order: nat := 13

  // ---------------------------------------------------------------------
  // Copy and scale

  /** `Arrays.copyOf(s, n)`: the first n values, padded with zeros. */
  function CopyOf(s: seq<real>, n: nat): (r: seq<real>)
    ensures |r| == n
    ensures forall i :: 0 <= i < n ==> r[i] == if i < |s| then s[i] else 0.0
  {
    seq(n, (i: nat) => if i < |s| then s[i] else 0.0)
  }

  /** `.map(w -> w / d)`. */
  function Scaled(s: seq<real>, d: real): (r: seq<real>)
    requires d != 0.0
    ensures |r| == |s|
    ensures forall i :: 0 <= i < |s| ==> r[i] == s[i] / d
  {
    seq(|s|, (i: int) requires 0 <= i < |s| => s[i] / d)
  }

  /** `Arrays.stream(Arrays.copyOf(s, n)).map(w -> w / s.length)`, built
      element by element. */
  method CopyOfScaled(s: seq<real>, n: nat) returns (r: seq<real>)
    requires |s| > 0
    ensures r == Scaled(CopyOf(s, n), |s| as real)
  {
    var buf := new real[n];
    for i := 0 to n
      invariant forall k :: 0 <= k < i ==> buf[k] == if k < |s| then s[k] / (|s| as real) else 0.0
    {
      if i < |s| {
        buf[i] := s[i] / (|s| as real);
      } else {
        buf[i] := 0.0;
      }
    }
    r := buf[..];
  }

  lemma {:induction false} SumOfScaled(s: seq<real>, d: real)
    requires d != 0.0
    ensures Sum(Scaled(s, d)) == Sum(s) / d
    decreases |s|
  {
    if |s| > 0 {
      var t := s[..|s| - 1];
      assert Scaled(s, d)[..|s| - 1] == Scaled(t, d);
      SumOfScaled(t, d);
      assert Sum(t) / d + s[|s| - 1] / d == (Sum(t) + s[|s| - 1]) / d;
    }
  }

  lemma {:induction false} SumOfZeros(n: nat)
    ensures Sum(seq(n, (i: int) => 0.0)) == 0.0
    decreases n
  {
    if n > 0 {
      assert seq(n, (i: int) => 0.0)[..n - 1] == seq(n - 1, (i: int) => 0.0);
      SumOfZeros(n - 1);
    }
  }

  lemma {:induction false} SumOfAppended(s: seq<real>, t: seq<real>)
    ensures Sum(s + t) == Sum(s) + Sum(t)
    decreases |t|
  {
    if |t| == 0 {
      assert s + t == s;
    } else {
      assert (s + t)[..|s + t| - 1] == s + t[..|t| - 1];
      SumOfAppended(s, t[..|t| - 1]);
    }
  }

  /** Padding a signal to n >= |s| samples and dividing by its length
      makes the samples sum to the signal's mean. */
  lemma PaddedScaledSumsToMean(s: seq<real>, n: nat)
    requires 0 < |s| <= n
    ensures Sum(Scaled(CopyOf(s, n), |s| as real)) == Sum(s) / (|s| as real)
  {
    var c := CopyOf(s, n);
    assert c == s + seq(n - |s|, (i: int) => 0.0);
    SumOfAppended(s, seq(n - |s|, (i: int) => 0.0));
    SumOfZeros(n - |s|);
    SumOfScaled(c, |s| as real);
  }

  // ---------------------------------------------------------------------
  // Truncation

  /** The cepstrum with every coefficient from index 13 on set to zero. */
  function Truncated(c: seq<Complex>): (r: seq<Complex>)
    ensures |r| == |c|
  {
    seq(|c|, (i: int) requires 0 <= i < |c| => if i >= Order then Zero else c[i])
  }

  /** Truncation keeps the first 13 coefficients, clears the rest, and
      truncating twice is truncating once. */
  lemma TruncatedProperties(c: seq<Complex>)
    ensures forall i :: 0 <= i < |c| && i < Order ==> Truncated(c)[i] == c[i]
    ensures forall i :: Order <= i < |c| ==> Truncated(c)[i] == Zero
    ensures Truncated(Truncated(c)) == Truncated(c)
  {
  }

  /** `for (i < cepstrum.length) if (i >= 13) cepstrum[i] = Complex.ZERO`. */
  method TruncateInPlace(cepstrum: array<Complex>)
    modifies cepstrum
    ensures cepstrum[..] == Truncated(old(cepstrum[..]))
  {
    for i := 0 to cepstrum.Length
      invariant forall k :: 0 <= k < i ==> cepstrum[k] == if k >= Order then Zero else old(cepstrum[k])
      invariant forall k :: i <= k < cepstrum.Length ==> cepstrum[k] == old(cepstrum[k])
    {
      if i >= 13 {
        cepstrum[i] := Zero;
      }
    }
  }

  // ---------------------------------------------------------------------
  // Zero padding

  /** A buffer of n coefficients: the cepstrum first, zeros after. */
  function ZeroPadded(c: seq<Complex>, n: nat): (r: seq<Complex>)
    ensures |r| == n
  {
    seq(n, (i: nat) => if i < |c| then c[i] else Zero)
  }

  /** `ceps_filled`: `(fftSize5 >> 1) + 1` coefficients, copied from the
      cepstrum where it has them and ZERO elsewhere. */
  method ZeroPad(cepstrum: seq<Complex>, fftSize5: nat) returns (cepsFilled: seq<Complex>)
    ensures |cepsFilled| == fftSize5 / 2 + 1
    ensures forall i :: 0 <= i < |cepsFilled| && i < |cepstrum| ==> cepsFilled[i] == cepstrum[i]
    ensures forall i :: |cepstrum| <= i < |cepsFilled| ==> cepsFilled[i] == Zero
    ensures cepsFilled == ZeroPadded(cepstrum, fftSize5 / 2 + 1)
  {
    var filled := new Complex[fftSize5 / 2 + 1];
    for i := 0 to filled.Length
      invariant forall k :: 0 <= k < i ==> filled[k] == if k < |cepstrum| then cepstrum[k] else Zero
    {
      if i < |cepstrum| {
        filled[i] := cepstrum[i];
      } else {
        filled[i] := Zero;
      }
    }
    cepsFilled := filled[..];
    assert cepsFilled == ZeroPadded(cepstrum, fftSize5 / 2 + 1);
  }

  /** A cepstrum of a 2^q-point real signal has 2^(q-1) + 1 coefficients.
      With fftSize5 = 2^p the least power of two at or above that length,
      p is q, so `ceps_filled` has exactly the cepstrum's length and the
      padding copies it unchanged. */
  lemma PaddingHalfSpectrumIsIdentity(c: seq<Complex>, q: nat, p: nat)
    requires q >= 1 && |c| == Pow2Nat(q - 1) + 1
    requires Pow2Nat(p) >= |c| && (p == 0 || Pow2Nat(p - 1) < |c|)
    ensures ZeroPadded(c, Pow2Nat(p) / 2 + 1) == c
  {
    if p < q {
      Pow2NatMonotone(p, q - 1);
    } else if p > q {
      Pow2NatMonotone(q, p - 1);
    }
    assert p == q;
  }
}
