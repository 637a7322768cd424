/** Spectrum preparation of `FFT.calcularMagnitud`: the input is zero-padded
    to a power-of-two length, transformed, and the moduli of the first half of
    the coefficients are returned.  The forward transform of the numeric
    library and the modulus `Complex.abs` are not computed here: they are
    passed in as function parameters. */
module Spectrum {
  import opened JavaNumerics

  datatype Complex = Complex(re: real, im: real)

  /** The largest input length whose padded length still fits in an int:
      beyond it, `potenciaDos *= 2` overflows. */
  const MAX_FFT_LENGTH: int := 0x4000_0000

  predicate IsPowerOfTwo(k: int)
    decreases k
  {
    k == 1 || (k >= 2 && k % 2 == 0 && IsPowerOfTwo(k / 2))
  }

  /** Doubling a power of two gives a power of two. */
  lemma DoublePowerOfTwo(c: int)
    requires IsPowerOfTwo(c)
    ensures IsPowerOfTwo(c + c)
  {
    assert (c + c) / 2 == c;
  }

  /** Distinct powers of two are at least a factor of two apart. */
  lemma {:induction false} PowerOfTwoGap(a: int, b: int)
    requires IsPowerOfTwo(a) && IsPowerOfTwo(b) && a < b
    ensures 2 * a <= b
    decreases a
  {
    if a != 1 {
      PowerOfTwoGap(a / 2, b / 2);
    }
  }

  /** `Integer.highestOneBit(n)` for a nonnegative int: 0 for 0, otherwise the
      largest power of two not above `n`. */
  function HighestOneBit(n: int): (h: int)
    requires n >= 0
    ensures n == 0 ==> h == 0
    ensures n >= 1 ==> IsPowerOfTwo(h) && h <= n < 2 * h
    decreases n
  {
    if n <= 1 then n else 2 * HighestOneBit(n / 2)
  }

  /** `potenciaDos`: the highest one-bit of `n`, doubled (with int
      wrap-around) when it is not `n` itself.  For `1 <= n <= 2^30` this is
      the least power of two at or above `n`, and `n` is left as it is exactly
      when it is already a power of two; 0 stays 0; above 2^30 the doubling
      overflows to `INT_MIN`. */
  function PotenciaDos(n: int): (p: int)
    requires 0 <= n <= INT_MAX
    ensures n == 0 ==> p == 0
    ensures 1 <= n <= MAX_FFT_LENGTH ==> IsPowerOfTwo(p) && n <= p < 2 * n
    ensures 1 <= n <= MAX_FFT_LENGTH ==> (p == n <==> IsPowerOfTwo(n))
    ensures MAX_FFT_LENGTH < n ==> p == INT_MIN
  {
    HighestOneBitCases(n);
    var h := HighestOneBit(n);
    if h != n then
      assert n <= MAX_FFT_LENGTH ==> h * 2 <= INT_MAX;
      assert MAX_FFT_LENGTH < n ==> h * 2 == 0x8000_0000;
      WrapInt32(h * 2)
    else
      h
  }

  /** The highest one-bit of `n` is `n` itself exactly for a power of two, and
      it is 2^30 for every int above 2^30. */
  lemma HighestOneBitCases(n: int)
    requires 0 <= n <= INT_MAX
    ensures n >= 1 ==> (HighestOneBit(n) == n <==> IsPowerOfTwo(n))
    ensures MAX_FFT_LENGTH < n ==> HighestOneBit(n) == MAX_FFT_LENGTH
  {
    var h := HighestOneBit(n);
    if n >= 1 && IsPowerOfTwo(n) && h < n {
      PowerOfTwoGap(h, n);
    }
    if MAX_FFT_LENGTH < n {
      PowerOfTwoThirty();
      if h < MAX_FFT_LENGTH {
        PowerOfTwoGap(h, MAX_FFT_LENGTH);
      } else if h > MAX_FFT_LENGTH {
        PowerOfTwoGap(MAX_FFT_LENGTH, h);
      }
    }
  }

  /** 2^30 is a power of two, by thirty doublings from 1. */
  lemma PowerOfTwoThirty()
    ensures IsPowerOfTwo(MAX_FFT_LENGTH)
  {
    DoublePowerOfTwo(1); DoublePowerOfTwo(2); DoublePowerOfTwo(4); DoublePowerOfTwo(8); DoublePowerOfTwo(16);
    DoublePowerOfTwo(32); DoublePowerOfTwo(64); DoublePowerOfTwo(128); DoublePowerOfTwo(256); DoublePowerOfTwo(512);
    DoublePowerOfTwo(1024); DoublePowerOfTwo(2048); DoublePowerOfTwo(4096); DoublePowerOfTwo(8192); DoublePowerOfTwo(16384);
    DoublePowerOfTwo(32768); DoublePowerOfTwo(0x10000); DoublePowerOfTwo(0x20000); DoublePowerOfTwo(0x40000); DoublePowerOfTwo(0x80000);
    DoublePowerOfTwo(0x100000); DoublePowerOfTwo(0x200000); DoublePowerOfTwo(0x400000); DoublePowerOfTwo(0x800000); DoublePowerOfTwo(0x1000000);
    DoublePowerOfTwo(0x2000000); DoublePowerOfTwo(0x4000000); DoublePowerOfTwo(0x8000000); DoublePowerOfTwo(0x10000000); DoublePowerOfTwo(0x20000000);
  }

  /** No power of two at or above `n` is below `PotenciaDos(n)`. */
  lemma PotenciaDosIsLeast(n: int, k: int)
    requires 1 <= n <= MAX_FFT_LENGTH
    requires IsPowerOfTwo(k) && n <= k
    ensures PotenciaDos(n) <= k
  {
    var p := PotenciaDos(n);
    if k < p {
      PowerOfTwoGap(k, p);
    }
  }

  /** The worked cases: 0 stays 0, 5 pads to 8, 8 is not padded, 100 pads to 128. */
  lemma PotenciaDosExamples()
    ensures PotenciaDos(0) == 0
    ensures PotenciaDos(5) == 8
    ensures PotenciaDos(8) == 8
    ensures PotenciaDos(100) == 128
  {
    assert HighestOneBit(5) == 4;
    assert HighestOneBit(8) == 8;
    assert HighestOneBit(100) == 64;
  }

  function Min(a: int, b: int): (m: int)
    ensures m <= a && m <= b && (m == a || m == b)
  {
    if a < b then a else b
  }

  /** The padded buffer: a fresh zero-filled array of length `p` into which
      the first `min(|s|, p)` samples are copied. */
  function ZeroPadded(s: seq<real>, p: nat): (r: seq<real>)
    ensures |r| == p
    ensures forall i :: 0 <= i < p ==> r[i] == (if i < |s| then s[i] else 0.0)
  {
    s[..Min(|s|, p)] + seq(p - Min(|s|, p), _ => 0.0)
  }

  /** Padding to a length at least `|s|` keeps every sample in place and fills
      the rest with zeros, so cutting the padding off gives back the input. */
  lemma ZeroPaddedContents(s: seq<real>, p: nat)
    requires |s| <= p
    ensures |ZeroPadded(s, p)| == p
    ensures ZeroPadded(s, p)[..|s|] == s
    ensures forall i :: |s| <= i < p ==> ZeroPadded(s, p)[i] == 0.0
  {
    var r := ZeroPadded(s, p);
    assert r[..|s|] == s[..|s|];
  }

  /** The one-sided magnitude spectrum: moduli of the first half of the
      transform of the padded input. */
  function MagnitudeSpectrum(s: seq<real>, transform: seq<real> -> seq<Complex>,
                             abs: Complex -> real): (m: seq<real>)
    requires 1 <= |s| <= MAX_FFT_LENGTH
  {
    var x := transform(ZeroPadded(s, PotenciaDos(|s|)));
    seq(|x| / 2, i requires 0 <= i < |x| / 2 => abs(x[i]))
  }

  /** With a transform that returns one coefficient per input value, the
      spectrum has `potenciaDos / 2` entries, entry `i` is the modulus of
      coefficient `i`, and a single sample gives an empty spectrum.  With a
      nonnegative modulus every entry is nonnegative. */
  lemma MagnitudeSpectrumShape(s: seq<real>, transform: seq<real> -> seq<Complex>,
                               abs: Complex -> real)
    requires 1 <= |s| <= MAX_FFT_LENGTH
    requires |transform(ZeroPadded(s, PotenciaDos(|s|)))| == PotenciaDos(|s|)
    ensures var m := MagnitudeSpectrum(s, transform, abs);
            |m| == PotenciaDos(|s|) / 2 && |s| <= 2 * |m| + 1 && |m| < |s|
    ensures var m := MagnitudeSpectrum(s, transform, abs);
            var x := transform(ZeroPadded(s, PotenciaDos(|s|)));
            forall i :: 0 <= i < |m| ==> m[i] == abs(x[i])
    ensures |s| == 1 ==> MagnitudeSpectrum(s, transform, abs) == []
    ensures (forall c :: abs(c) >= 0.0) ==>
            var m := MagnitudeSpectrum(s, transform, abs);
            forall i :: 0 <= i < |m| ==> m[i] >= 0.0
  {
    var p := PotenciaDos(|s|);
    if p != 1 {
      assert p % 2 == 0;
    }
  }

  /** An all-zero input pads to an all-zero buffer; if the transform maps it to
      zero coefficients of modulus 0, the spectrum is all zeros of length
      `potenciaDos / 2`. */
  lemma ZeroInputSpectrum(s: seq<real>, transform: seq<real> -> seq<Complex>,
                          abs: Complex -> real)
    requires 1 <= |s| <= MAX_FFT_LENGTH
    requires forall i :: 0 <= i < |s| ==> s[i] == 0.0
    requires transform(seq(PotenciaDos(|s|), _ => 0.0))
             == seq(PotenciaDos(|s|), _ => Complex(0.0, 0.0))
    requires abs(Complex(0.0, 0.0)) == 0.0
    ensures MagnitudeSpectrum(s, transform, abs) == seq(PotenciaDos(|s|) / 2, _ => 0.0)
  {
    var p := PotenciaDos(|s|);
    ZeroPaddedContents(s, p);
    assert ZeroPadded(s, p) == seq(p, _ => 0.0);
  }

  /** `System.arraycopy(src, 0, dest, 0, length)`. */
  method ArrayCopy(src: array<real>, dest: array<real>, length: nat)
    requires length <= src.Length && length <= dest.Length
    modifies dest
    ensures dest[..] == old(src[..length]) + old(dest[length..])
  {
    for i := 0 to length
      invariant forall k :: 0 <= k < i ==> dest[k] == old(src[k])
      invariant forall k :: i <= k < dest.Length ==> dest[k] == old(dest[k])
      invariant forall k :: i <= k < src.Length ==> src[k] == old(src[k])
    {
      dest[i] := src[i];
    }
    assert dest[..] == old(src[..length]) + old(dest[length..]);
  }

  /** `calcularMagnitud`, with the library transform and modulus passed in.
      The input array is only read (the method has no `modifies` clause). */
  method CalcularMagnitud(senial: array<real>, transform: seq<real> -> seq<Complex>,
                          abs: Complex -> real) returns (magnitudes: array<real>)
    requires 1 <= senial.Length <= MAX_FFT_LENGTH
    ensures fresh(magnitudes)
    ensures magnitudes[..] == MagnitudeSpectrum(senial[..], transform, abs)
  {
    var n := senial.Length;
    var potenciaDos := PotenciaDos(n);
    var senialPadded := new real[potenciaDos](_ => 0.0);
    ArrayCopy(senial, senialPadded, Min(senial.Length, potenciaDos));
    assert senialPadded[..] == ZeroPadded(senial[..], potenciaDos);
    var transformada := transform(senialPadded[..]);
    magnitudes := new real[|transformada| / 2];
    for i := 0 to magnitudes.Length
      invariant forall k :: 0 <= k < i ==> magnitudes[k] == abs(transformada[k])
    {
      magnitudes[i] := abs(transformada[i]);
    }
  }
}
