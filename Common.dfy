/** Definitions shared by every analysis tool: complex values, sums, Java's
    integer division, frame counts, the bin-to-frequency map and the
    first-maximum-wins argmax that three of the tools copy verbatim. */
module Common {

  /** A complex coefficient of a spectrum or cepstrum. */
  datatype Complex = Complex(re: real, im: real)

  /** `Complex.ZERO`. */
  const Zero: Complex := Complex(0.0, 0.0)

  /** `Integer.MIN_VALUE` as a double, used as a display sentinel. */
  const IntMinValue: real := -2147483648.0

  function Abs(x: real): (r: real)
    ensures r >= 0.0 && (r == x || r == -x)
  {
    if x < 0.0 then -x else x
  }

  /** `Math.pow(x, 2)`. */
  function Sq(x: real): real
  {
    x * x
  }

  /** A square is never negative. */
  lemma SquareNonNegative(x: real)
    ensures Sq(x) >= 0.0
  {
    if x < 0.0 {
      assert Sq(x) == (-x) * (-x);
    }
  }

  /** 2^n, exactly. */
  function Pow2Nat(n: nat): (r: nat)
    ensures r >= 1
  {
    if n == 0 then 1 else 2 * Pow2Nat(n - 1)
  }

  /** `Math.pow(2, e)` for an integer exponent: exact, also in floating point. */
  function Pow2Int(e: int): (r: real)
    ensures r > 0.0
  {
    if e >= 0 then Pow2Nat(e) as real else 1.0 / (Pow2Nat(-e) as real)
  }

  lemma {:induction false} Pow2NatMonotone(p: nat, q: nat)
    requires p <= q
    ensures Pow2Nat(p) <= Pow2Nat(q)
    decreases q
  {
    if p < q {
      Pow2NatMonotone(p, q - 1);
    }
  }

  /** `Math.round(x)`: the nearest integer, halves rounded up. */
  function JavaRound(x: real): (n: int)
    ensures x - 0.5 < n as real <= x + 0.5
  {
    (x + 0.5).Floor
  }

  /** The sum of a sequence, accumulated left to right. */
  function Sum(s: seq<real>): real
  {
    if |s| == 0 then 0.0 else Sum(s[..|s| - 1]) + s[|s| - 1]
  }

  /** Java's `/` on int for a positive divisor: it truncates toward zero,
      where Dafny's `/` rounds toward negative infinity. */
  function JavaDiv(a: int, b: int): (q: int)
    requires b > 0
    ensures a >= 0 ==> q >= 0 && q * b <= a < q * b + b
    ensures a < 0 ==> q <= 0 && q * b - b < a <= q * b
  {
    if a >= 0 then a / b else -((-a) / b)
  }

  /** `(int)Math.round((len - frameSize) / shiftSize)`: the number of whole
      frames every tool allocates (the rounding of an int is the identity). */
  function FrameCount(len: int, frameSize: int, shiftSize: int): int
    requires shiftSize > 0
  {
    JavaDiv(len - frameSize, shiftSize)
  }

  /** The frame count is a legal array size exactly when the waveform is
      less than one shift shorter than a frame. */
  lemma FrameCountNonNegative(len: int, frameSize: int, shiftSize: int)
    requires shiftSize > 0
    ensures FrameCount(len, frameSize, shiftSize) >= 0 <==> len - frameSize > -shiftSize
  {
    var a := len - frameSize;
    if a < 0 && a > -shiftSize {
      assert (-a) / shiftSize == 0;
    }
    if a <= -shiftSize {
      assert (-a) / shiftSize >= 1;
    }
  }

  /** Every counted frame lies inside the waveform. */
  lemma FrameWithinWaveform(len: int, frameSize: int, shiftSize: int, i: int)
    requires shiftSize > 0
    requires 0 <= i < FrameCount(len, frameSize, shiftSize)
    ensures 0 <= i * shiftSize && i * shiftSize + frameSize <= len
  {
    var n := FrameCount(len, frameSize, shiftSize);
    assert len - frameSize >= 0;
    MulMonotone(i, n - 1, shiftSize);
    assert (n - 1) * shiftSize == n * shiftSize - shiftSize;
  }

  lemma MulMonotone(a: int, b: int, c: int)
    requires 0 <= a <= b && 0 <= c
    ensures 0 <= a * c <= b * c
  {
  }

  /** `freq(nyquist, fftSize, arrnum) = nyquist / fftSize * arrnum`. */
  function Freq(nyquist: real, fftSize: int, bin: int): real
    requires fftSize != 0
  {
    nyquist / (fftSize as real) * (bin as real)
  }

  lemma FreqLinear(nyquist: real, fftSize: int, a: int, b: int)
    requires fftSize != 0
    ensures Freq(nyquist, fftSize, 0) == 0.0
    ensures Freq(nyquist, fftSize, a + b) == Freq(nyquist, fftSize, a) + Freq(nyquist, fftSize, b)
  {
  }

  lemma FreqMonotone(nyquist: real, fftSize: int, a: int, b: int)
    requires fftSize > 0 && nyquist >= 0.0 && a <= b
    ensures Freq(nyquist, fftSize, a) <= Freq(nyquist, fftSize, b)
  {
    var step := nyquist / (fftSize as real);
    assert step >= 0.0;
    assert step * (b as real) - step * (a as real) == step * ((b - a) as real);
  }

  /** k holds a maximal value of s and every earlier value is strictly smaller. */
  ghost predicate IsFirstArgmax(s: seq<real>, k: int)
  {
    && 0 <= k < |s|
    && (forall j :: 0 <= j < |s| ==> s[j] <= s[k])
    && (forall j :: 0 <= j < k ==> s[j] < s[k])
  }

  /** The index a strict `<` scan from the left ends on. */
  function FirstArgmax(s: seq<real>): (k: nat)
    requires |s| > 0
    ensures IsFirstArgmax(s, k)
  {
    if |s| == 1 then 0
    else
      var k := FirstArgmax(s[..|s| - 1]);
      if s[k] < s[|s| - 1] then |s| - 1 else k
  }

  /** The first-wins index is the only one of its kind. */
  lemma FirstArgmaxUnique(s: seq<real>, k: int)
    requires |s| > 0 && IsFirstArgmax(s, k)
    ensures k == FirstArgmax(s)
  {
  }

  lemma FirstArgmaxOfTie()
    ensures FirstArgmax([5.0, 5.0, 3.0]) == 0
  {
    FirstArgmaxUnique([5.0, 5.0, 3.0], 0);
  }

  /** `argmax(double[] arr)`: a running maximum replaced only by a strictly
      larger value, so the first maximal index wins. */
  method ArgmaxFirst(arr: seq<real>) returns (k: nat)
    requires |arr| > 0
    ensures k == FirstArgmax(arr)
  {
    var max := arr[0];
    k := 0;
    var i := 0;
    assert arr[..1] == [arr[0]];
    while i < |arr| - 1
      invariant 0 <= i <= |arr| - 1
      invariant k == FirstArgmax(arr[..i + 1]) && max == arr[k]
    {
      assert arr[..i + 2][..i + 1] == arr[..i + 1];
      if max < arr[i + 1] {
        max := arr[i + 1];
        k := i + 1;
      }
      i := i + 1;
    }
    assert arr[..i + 1] == arr;
  }

  /** k holds a maximal value of s and every later value is strictly smaller. */
  ghost predicate IsLastArgmax(s: seq<real>, k: int)
  {
    && 0 <= k < |s|
    && (forall j :: 0 <= j < |s| ==> s[j] <= s[k])
    && (forall j :: k < j < |s| ==> s[j] < s[k])
  }

  /** The index a `<=` scan from the left ends on. */
  function LastArgmax(s: seq<real>): (k: nat)
    requires |s| > 0
    ensures IsLastArgmax(s, k)
  {
    if |s| == 1 then 0
    else
      var k := LastArgmax(s[..|s| - 1]);
      if s[k] <= s[|s| - 1] then |s| - 1 else k
  }

  /** The last-wins index is the only one of its kind. */
  lemma LastArgmaxUnique(s: seq<real>, k: int)
    requires |s| > 0 && IsLastArgmax(s, k)
    ensures k == LastArgmax(s)
  {
  }

  /** The two scans agree exactly when the maximum occurs once. */
  lemma ArgmaxesAgreeOnUniqueMaximum(s: seq<real>)
    requires |s| > 0
    ensures FirstArgmax(s) == LastArgmax(s) <==>
      forall j :: 0 <= j < |s| && s[j] == s[FirstArgmax(s)] ==> j == FirstArgmax(s)
  {
    var f := FirstArgmax(s);
    var l := LastArgmax(s);
    assert s[f] == s[l];
  }

  lemma LastArgmaxOfTie()
    ensures LastArgmax([5.0, 5.0, 3.0]) == 1
  {
    LastArgmaxUnique([5.0, 5.0, 3.0], 1);
  }

  /** `argmax_arr(double[] arr)`: the running maximum is replaced by a value
      that is at least as large, so the last maximal index wins. */
  method ArgmaxLast(arr: seq<real>) returns (k: nat)
    requires |arr| > 0
    ensures k == LastArgmax(arr)
  {
    var max := arr[0];
    k := 0;
    var i := 0;
    assert arr[..1] == [arr[0]];
    while i < |arr| - 1
      invariant 0 <= i <= |arr| - 1
      invariant k == LastArgmax(arr[..i + 1]) && max == arr[k]
    {
      assert arr[..i + 2][..i + 1] == arr[..i + 1];
      if max <= arr[i + 1] {
        max := arr[i + 1];
        k := i + 1;
      }
      i := i + 1;
    }
    assert arr[..i + 1] == arr;
  }
}
