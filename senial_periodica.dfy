/** Sampling of the four periodic waveforms of `SenialPeriodica`.

    Each generator takes `(int)(fs * duracion)` samples; sample `i` is taken
    at time `t = i * (1 / fs)`.  The functions below give the whole sample
    sequence of each waveform; the methods of class `SenialPeriodica` fill an
    array in a loop and are proved to produce exactly that sequence.  Doubles
    are read as exact reals.  `Math.sin` is not computed here: the sine
    generator takes it as a function parameter. */
module Signals {
  import opened JavaNumerics

  /** `Math.PI`: the double nearest to pi, written out exactly. */
  const PI: real := 884279719003555.0 / 281474976710656.0

  /** Number of samples, `(int)(fs * duracion)`.  At least one sample is taken
      only when `fs * duracion >= 1`, so then the sample rate is nonzero. */
  function SampleCount(fs: real, duracion: real): (n: int)
    ensures fs * duracion > -1.0 <==> n >= 0
    ensures fs * duracion >= 0.0 ==> n as real <= fs * duracion < n as real + 1.0
    ensures n >= 1 ==> fs * duracion >= 1.0 && fs != 0.0
  {
    Trunc(fs * duracion)
  }

  /** The time of sample `i`, `i * ts` with the sample period `ts = 1 / fs`. */
  function SampleTime(i: nat, fs: real): (t: real)
    requires fs != 0.0
    ensures t * fs == i as real
  {
    i as real * (1.0 / fs)
  }

  /** The frequency and the sample rate do not have opposite signs, so that
      `t * f` is never negative.  Written without a product to keep the
      arithmetic linear. */
  predicate ForwardCycles(f: real, fs: real)
  {
    (fs >= 0.0 && f >= 0.0) || (fs <= 0.0 && f <= 0.0)
  }

  lemma NonNegativeCycleProduct(i: nat, f: real, fs: real)
    requires fs != 0.0 && ForwardCycles(f, fs)
    ensures SampleTime(i, fs) * f >= 0.0
  {
    var ts := 1.0 / fs;
    if fs > 0.0 {
      assert ts > 0.0;
    } else {
      assert ts < 0.0;
    }
    assert ts * f >= 0.0;
    assert SampleTime(i, fs) * f == i as real * (ts * f);
  }

  /** `ciclo = (t * f) % 1.0`: the position of time `t` within its period. */
  function Cycle(t: real, f: real): (c: real)
    ensures -1.0 < c < 1.0
    ensures (t * f - c).Floor as real == t * f - c
    ensures t * f >= 0.0 ==> 0.0 <= c
  {
    RemOne(t * f)
  }

  /** The cycle position of sample `i`.  It lies in [0, 1) when frequency and
      sample rate do not have opposite signs, and it is 0 for sample 0. */
  function CycleAt(i: nat, f: real, fs: real): (c: real)
    requires fs != 0.0
    ensures -1.0 < c < 1.0
    ensures ForwardCycles(f, fs) ==> 0.0 <= c < 1.0
    ensures i == 0 ==> c == 0.0
  {
    var c := Cycle(SampleTime(i, fs), f);
    assert ForwardCycles(f, fs) ==> 0.0 <= c by {
      if ForwardCycles(f, fs) {
        NonNegativeCycleProduct(i, f, fs);
      }
    }
    c
  }

  /** Every sample of the time grid has a nonnegative cycle position.  This
      holds whenever frequency and sample rate do not have opposite signs, and
      also in other cases, such as every `t * f` being a whole number. */
  predicate CyclesNonNegative(frecuencia: real, fs: real, duracion: real)
  {
    forall i :: 0 <= i < SampleCount(fs, duracion) ==> CycleAt(i, frecuencia, fs) >= 0.0
  }

  lemma ForwardCyclesNonNegative(frecuencia: real, fs: real, duracion: real)
    requires ForwardCycles(frecuencia, fs)
    ensures CyclesNonNegative(frecuencia, fs, duracion)
  {
  }

  /** `a * k` lies in [-|a|, |a|] when the factor `k` lies in [-1, 1]. */
  lemma ScaledBound(a: real, k: real)
    requires -1.0 <= k <= 1.0
    ensures -Abs(a) <= a * k <= Abs(a)
  {
    if a >= 0.0 {
      assert a * k <= a * 1.0;
      assert a * (-1.0) <= a * k;
    } else {
      var b := -a;
      assert b * k <= b;
      assert -b <= b * k;
      assert a * k == -(b * k);
    }
  }

  /** `ScaledBound` for a factor that may lie outside [-1, 1]. */
  lemma ScaledBoundIf(a: real, k: real)
    ensures -1.0 <= k <= 1.0 ==> -Abs(a) <= a * k <= Abs(a)
  {
    if -1.0 <= k <= 1.0 {
      ScaledBound(a, k);
    }
  }

  lemma RatioBelowOne(c: real, w: real)
    requires 0.0 <= c < w
    ensures 0.0 <= c / w < 1.0
  {
    assert (c / w) * w == c;
  }

  lemma RatioAtMostOne(c: real, w: real)
    requires 0.0 < c <= w
    ensures 0.0 < c / w <= 1.0
  {
    assert (c / w) * w == c;
  }

  // ---------------------------------------------------------------- sine

  /** One sine sample at time `t`: `A * sin(2 * PI * f * t + fase)`. */
  function SineSample(amplitud: real, frecuencia: real, fase: real, t: real,
                      sin: real -> real): (y: real)
    ensures -1.0 <= sin(2.0 * PI * frecuencia * t + fase) <= 1.0 ==>
            -Abs(amplitud) <= y <= Abs(amplitud)
  {
    ScaledBoundIf(amplitud, sin(2.0 * PI * frecuencia * t + fase));
    amplitud * sin(2.0 * PI * frecuencia * t + fase)
  }

  /** Sine samples. */
  function SineWave(amplitud: real, frecuencia: real, fase: real, fs: real, duracion: real,
                    sin: real -> real): (w: seq<real>)
    requires SampleCount(fs, duracion) >= 0
    ensures |w| == SampleCount(fs, duracion)
  {
    var n := SampleCount(fs, duracion);
    seq(n, i requires 0 <= i < n => SineSample(amplitud, frecuencia, fase, SampleTime(i, fs), sin))
  }

  /** Sample `i` of the sine is the sine at time `i / fs`; sample 0 is `A * sin(fase)`. */
  lemma SineWaveAt(amplitud: real, frecuencia: real, fase: real, fs: real, duracion: real,
                   sin: real -> real, i: nat)
    requires SampleCount(fs, duracion) >= 0
    requires i < SampleCount(fs, duracion)
    ensures SineWave(amplitud, frecuencia, fase, fs, duracion, sin)[i]
            == amplitud * sin(2.0 * PI * frecuencia * (i as real / fs) + fase)
    ensures i == 0 ==> SineWave(amplitud, frecuencia, fase, fs, duracion, sin)[i]
                       == amplitud * sin(fase)
  {
    var w := SineWave(amplitud, frecuencia, fase, fs, duracion, sin);
    assert SampleTime(i, fs) == i as real / fs;
    assert w[i] == SineSample(amplitud, frecuencia, fase, i as real / fs, sin);
    if i == 0 {
      assert 2.0 * PI * frecuencia * 0.0 + fase == fase;
    }
  }

  /** With a sine function bounded by 1, every sample lies in [-|A|, |A|]. */
  lemma SineWaveBounded(amplitud: real, frecuencia: real, fase: real, fs: real, duracion: real,
                        sin: real -> real)
    requires SampleCount(fs, duracion) >= 0
    requires forall x :: -1.0 <= sin(x) <= 1.0
    ensures var w := SineWave(amplitud, frecuencia, fase, fs, duracion, sin);
            forall i :: 0 <= i < |w| ==> -Abs(amplitud) <= w[i] <= Abs(amplitud)
  {
    var w := SineWave(amplitud, frecuencia, fase, fs, duracion, sin);
    forall i | 0 <= i < |w| ensures -Abs(amplitud) <= w[i] <= Abs(amplitud) {
      var x := 2.0 * PI * frecuencia * SampleTime(i, fs) + fase;
      assert w[i] == SineSample(amplitud, frecuencia, fase, SampleTime(i, fs), sin) == amplitud * sin(x);
      ScaledBound(amplitud, sin(x));
    }
  }

  // -------------------------------------------------------------- square

  /** One square sample: `+A` while the cycle position is below the duty fraction. */
  function SquareSample(amplitud: real, ciclo: real, duty: real): (y: real)
    ensures y == amplitud || y == -amplitud
    ensures amplitud != 0.0 ==> (y == amplitud <==> ciclo < duty)
  {
    if ciclo < duty then amplitud else -amplitud
  }

  /** Square samples, with the duty cycle given in percent. */
  function SquareWave(amplitud: real, frecuencia: real, fs: real, duracion: real,
                      dutyCycle: real): (w: seq<real>)
    requires SampleCount(fs, duracion) >= 0
    ensures |w| == SampleCount(fs, duracion)
  {
    var n := SampleCount(fs, duracion);
    var duty := dutyCycle / 100.0;
    seq(n, i requires 0 <= i < n => SquareSample(amplitud, CycleAt(i, frecuencia, fs), duty))
  }

  /** Every square sample is `+A` or `-A`, and (for a nonzero amplitude) it is
      `+A` exactly when the cycle position is below `dutyCycle / 100`. */
  lemma SquareWaveValues(amplitud: real, frecuencia: real, fs: real, duracion: real,
                         dutyCycle: real)
    requires SampleCount(fs, duracion) >= 0
    ensures var w := SquareWave(amplitud, frecuencia, fs, duracion, dutyCycle);
            forall i :: 0 <= i < |w| ==> w[i] == amplitud || w[i] == -amplitud
    ensures var w := SquareWave(amplitud, frecuencia, fs, duracion, dutyCycle);
            amplitud != 0.0 ==>
            forall i :: 0 <= i < |w| ==>
              (w[i] == amplitud <==> CycleAt(i, frecuencia, fs) < dutyCycle / 100.0)
  {
  }

  /** Out-of-range duty cycles are not errors: at 100 % or more every sample is
      `+A`; at 0 % or less (with cycle positions in [0, 1)) every sample is `-A`. */
  lemma SquareWaveDutyEdges(amplitud: real, frecuencia: real, fs: real, duracion: real,
                            dutyCycle: real)
    requires SampleCount(fs, duracion) >= 0
    ensures dutyCycle >= 100.0 ==>
            SquareWave(amplitud, frecuencia, fs, duracion, dutyCycle)
              == seq(SampleCount(fs, duracion), _ => amplitud)
    ensures dutyCycle <= 0.0 && CyclesNonNegative(frecuencia, fs, duracion) ==>
            SquareWave(amplitud, frecuencia, fs, duracion, dutyCycle)
              == seq(SampleCount(fs, duracion), _ => -amplitud)
  {
    var w := SquareWave(amplitud, frecuencia, fs, duracion, dutyCycle);
    var n := SampleCount(fs, duracion);
    if dutyCycle >= 100.0 {
      forall i | 0 <= i < n ensures w[i] == amplitud {
        assert CycleAt(i, frecuencia, fs) < 1.0 <= dutyCycle / 100.0;
      }
    }
    if dutyCycle <= 0.0 && CyclesNonNegative(frecuencia, fs, duracion) {
      forall i | 0 <= i < n ensures w[i] == -amplitud {
        assert dutyCycle / 100.0 <= 0.0 <= CycleAt(i, frecuencia, fs);
      }
    }
  }

  // ------------------------------------------------------------ triangle

  /** One triangle sample: `4 * A * |ciclo - 0.5| - A`. */
  function TriangleSample(amplitud: real, ciclo: real): (y: real)
    ensures 0.0 <= ciclo <= 1.0 ==> -Abs(amplitud) <= y <= Abs(amplitud)
    ensures ciclo == 0.0 ==> y == amplitud
    ensures ciclo == 0.5 ==> y == -amplitud
  {
    var y := 4.0 * amplitud * Abs(ciclo - 0.5) - amplitud;
    assert 0.0 <= ciclo <= 1.0 ==> -Abs(amplitud) <= y <= Abs(amplitud) by {
      if 0.0 <= ciclo <= 1.0 {
        assert y == amplitud * (4.0 * Abs(ciclo - 0.5) - 1.0);
        ScaledBound(amplitud, 4.0 * Abs(ciclo - 0.5) - 1.0);
      }
    }
    y
  }

  /** Triangle samples. */
  function TriangleWave(amplitud: real, frecuencia: real, fs: real, duracion: real): (w: seq<real>)
    requires SampleCount(fs, duracion) >= 0
    ensures |w| == SampleCount(fs, duracion)
  {
    var n := SampleCount(fs, duracion);
    seq(n, i requires 0 <= i < n => TriangleSample(amplitud, CycleAt(i, frecuencia, fs)))
  }

  /** With cycle positions in [0, 1), every triangle sample lies in
      [-|A|, |A|]; sample 0 is `A`, and a sample at half a period is `-A`. */
  lemma TriangleWaveSamples(amplitud: real, frecuencia: real, fs: real, duracion: real)
    requires SampleCount(fs, duracion) >= 0
    ensures var w := TriangleWave(amplitud, frecuencia, fs, duracion);
            CyclesNonNegative(frecuencia, fs, duracion) ==>
            forall i :: 0 <= i < |w| ==> -Abs(amplitud) <= w[i] <= Abs(amplitud)
    ensures var w := TriangleWave(amplitud, frecuencia, fs, duracion);
            |w| > 0 ==> w[0] == amplitud
    ensures var w := TriangleWave(amplitud, frecuencia, fs, duracion);
            forall i :: 0 <= i < |w| && CycleAt(i, frecuencia, fs) == 0.5 ==> w[i] == -amplitud
  {
  }

  /** With frequency and sample rate of opposite signs the cycle position can
      be negative, and the triangle leaves [-|A|, |A|]: at `f = -0.25`,
      `fs = 1`, sample 1 has cycle position -0.25 and the value `2A`. */
  lemma TriangleNegativeCycleOvershoot()
    ensures CycleAt(1, -0.25, 1.0) == -0.25
    ensures TriangleWave(1.0, -0.25, 1.0, 2.0)[1] == 2.0
  {
    assert SampleCount(1.0, 2.0) == 2;
    assert SampleTime(1, 1.0) * -0.25 == -0.25;
    assert Trunc(-0.25) == 0;
  }

  // ------------------------------------------------------------ sawtooth

  /** One sawtooth sample: rising from `-A` to `A` while `ciclo < width`,
      falling back to `-A` for the rest of the period.  Both divisions are
      defined: the rising branch runs only when `ciclo < width`, which for a
      nonnegative `ciclo` makes `width > 0`; the falling branch runs only when
      `width <= ciclo < 1`, which makes `1 - width > 0`.  So no width is
      rejected; only a negative cycle position with width 0 would divide by 0. */
  function SawtoothSample(amplitud: real, ciclo: real, width: real): (y: real)
    requires ciclo < 1.0
    requires width == 0.0 ==> ciclo >= 0.0
    ensures 0.0 <= ciclo ==> -Abs(amplitud) <= y <= Abs(amplitud)
  {
    if ciclo < width then
      var y := 2.0 * amplitud * ciclo / width - amplitud;
      assert 0.0 <= ciclo ==> -Abs(amplitud) <= y <= Abs(amplitud) by {
        if 0.0 <= ciclo {
          RisingBound(amplitud, ciclo, width);
        }
      }
      y
    else
      FallingBound(amplitud, ciclo, width);
      2.0 * amplitud * (1.0 - ciclo) / (1.0 - width) - amplitud
  }

  /** The rising edge stays in [-|a|, |a|]. */
  lemma RisingBound(a: real, c: real, w: real)
    requires 0.0 <= c < w
    ensures -Abs(a) <= 2.0 * a * c / w - a <= Abs(a)
  {
    RatioBelowOne(c, w);
    var q := c / w;
    assert 2.0 * a * c / w - a == a * (2.0 * q - 1.0);
    ScaledBound(a, 2.0 * q - 1.0);
  }

  /** The falling edge stays in [-|a|, |a|]. */
  lemma FallingBound(a: real, c: real, w: real)
    requires w <= c < 1.0
    ensures -Abs(a) <= 2.0 * a * (1.0 - c) / (1.0 - w) - a <= Abs(a)
  {
    RatioAtMostOne(1.0 - c, 1.0 - w);
    var q := (1.0 - c) / (1.0 - w);
    assert 2.0 * a * (1.0 - c) / (1.0 - w) - a == a * (2.0 * q - 1.0);
    ScaledBound(a, 2.0 * q - 1.0);
  }

  /** Sawtooth samples with the given rising width.  Only width 0 needs
      anything of the cycle positions: none may be negative. */
  function SawtoothWave(amplitud: real, frecuencia: real, fs: real, duracion: real,
                        width: real): (w: seq<real>)
    requires SampleCount(fs, duracion) >= 0
    requires width != 0.0 || CyclesNonNegative(frecuencia, fs, duracion)
    ensures |w| == SampleCount(fs, duracion)
  {
    var n := SampleCount(fs, duracion);
    seq(n, i requires 0 <= i < n => SawtoothSample(amplitud, CycleAt(i, frecuencia, fs), width))
  }

  /** With cycle positions in [0, 1), every sawtooth sample lies in [-|A|, |A|]
      whatever the width.  Sample 0 is `-A` for a positive width, `A` for
      width 0, and `2A / (1 - width) - A` for a negative width. */
  lemma SawtoothWaveSamples(amplitud: real, frecuencia: real, fs: real, duracion: real,
                            width: real)
    requires SampleCount(fs, duracion) >= 0
    requires width != 0.0 || CyclesNonNegative(frecuencia, fs, duracion)
    ensures var w := SawtoothWave(amplitud, frecuencia, fs, duracion, width);
            forall i :: 0 <= i < |w| && CycleAt(i, frecuencia, fs) >= 0.0 ==>
              -Abs(amplitud) <= w[i] <= Abs(amplitud)
    ensures var w := SawtoothWave(amplitud, frecuencia, fs, duracion, width);
            ForwardCycles(frecuencia, fs) ==>
            forall i :: 0 <= i < |w| ==> -Abs(amplitud) <= w[i] <= Abs(amplitud)
    ensures var w := SawtoothWave(amplitud, frecuencia, fs, duracion, width);
            |w| > 0 ==>
            w[0] == (if width > 0.0 then -amplitud
                     else if width == 0.0 then amplitud
                     else 2.0 * amplitud / (1.0 - width) - amplitud)
  {
    var w := SawtoothWave(amplitud, frecuencia, fs, duracion, width);
    if |w| > 0 {
      assert CycleAt(0, frecuencia, fs) == 0.0;
      if width > 0.0 {
        assert w[0] == 2.0 * amplitud * 0.0 / width - amplitud;
      } else {
        assert w[0] == 2.0 * amplitud * (1.0 - 0.0) / (1.0 - width) - amplitud;
      }
    }
  }

  /** Width 0 with frequency and sample rate of opposite signs: at `f = -1`,
      `fs = 1` every `t * f` is a whole number, every cycle position is 0, and
      every sample is `A`. */
  lemma SawtoothWholeReversedCycles(amplitud: real, d: nat)
    ensures CyclesNonNegative(-1.0, 1.0, d as real)
    ensures SawtoothWave(amplitud, -1.0, 1.0, d as real, 0.0) == seq(d, _ => amplitud)
  {
    assert SampleCount(1.0, d as real) == d;
    forall i: nat | i < d ensures CycleAt(i, -1.0, 1.0) == 0.0 {
      assert SampleTime(i, 1.0) * -1.0 == -(i as real);
      assert Trunc(-(i as real)) == -(i as int);
    }
    var w := SawtoothWave(amplitud, -1.0, 1.0, d as real, 0.0);
    forall i | 0 <= i < d ensures w[i] == amplitud {
      assert w[i] == 2.0 * amplitud * (1.0 - 0.0) / (1.0 - 0.0) - amplitud;
    }
  }

  /** `SenialPeriodica`: an immutable parameter object with one generator per
      waveform.  The fields are set once, by the constructor. */
  class SenialPeriodica {
    const amplitud: real
    const frecuencia: real
    const fase: real
    const fs: real
    const duracion: real

    constructor (amplitud: real, frecuencia: real, fase: real, fs: real, duracion: real)
      ensures this.amplitud == amplitud && this.frecuencia == frecuencia && this.fase == fase
      ensures this.fs == fs && this.duracion == duracion
    {
      this.amplitud := amplitud;
      this.frecuencia := frecuencia;
      this.fase := fase;
      this.fs := fs;
      this.duracion := duracion;
    }

    /** `generarSenoidal`, with `Math.sin` passed as `sin`. */
    method GenerarSenoidal(sin: real -> real) returns (y: array<real>)
      requires SampleCount(fs, duracion) >= 0
      ensures fresh(y)
      ensures y.Length == SampleCount(fs, duracion)
      ensures y[..] == SineWave(amplitud, frecuencia, fase, fs, duracion, sin)
    {
      var muestras := SampleCount(fs, duracion);
      ghost var w := SineWave(amplitud, frecuencia, fase, fs, duracion, sin);
      y := new real[muestras];
      if muestras > 0 {
        var ts := 1.0 / fs;
        for i := 0 to muestras
          invariant forall k :: 0 <= k < i ==> y[k] == w[k]
        {
          var t := i as real * ts;
          assert t == SampleTime(i, fs);
          y[i] := SineSample(amplitud, frecuencia, fase, t, sin);
        }
      }
      assert y[..] == w;
    }

    /** `generarCuadrada`, with the duty cycle in percent. */
    method GenerarCuadrada(dutyCycle: real) returns (y: array<real>)
      requires SampleCount(fs, duracion) >= 0
      ensures fresh(y)
      ensures y.Length == SampleCount(fs, duracion)
      ensures y[..] == SquareWave(amplitud, frecuencia, fs, duracion, dutyCycle)
    {
      var muestras := SampleCount(fs, duracion);
      ghost var w := SquareWave(amplitud, frecuencia, fs, duracion, dutyCycle);
      y := new real[muestras];
      if muestras > 0 {
        var ts := 1.0 / fs;
        var duty := dutyCycle / 100.0;
        for i := 0 to muestras
          invariant forall k :: 0 <= k < i ==> y[k] == w[k]
        {
          var t := i as real * ts;
          assert t == SampleTime(i, fs);
          var ciclo := Cycle(t, frecuencia);
          y[i] := SquareSample(amplitud, ciclo, duty);
        }
      }
      assert y[..] == w;
    }

    /** `generarTriangular`. */
    method GenerarTriangular() returns (y: array<real>)
      requires SampleCount(fs, duracion) >= 0
      ensures fresh(y)
      ensures y.Length == SampleCount(fs, duracion)
      ensures y[..] == TriangleWave(amplitud, frecuencia, fs, duracion)
    {
      var muestras := SampleCount(fs, duracion);
      ghost var w := TriangleWave(amplitud, frecuencia, fs, duracion);
      y := new real[muestras];
      if muestras > 0 {
        var ts := 1.0 / fs;
        for i := 0 to muestras
          invariant forall k :: 0 <= k < i ==> y[k] == w[k]
        {
          var t := i as real * ts;
          assert t == SampleTime(i, fs);
          var ciclo := Cycle(t, frecuencia);
          y[i] := TriangleSample(amplitud, ciclo);
        }
      }
      assert y[..] == w;
    }

    /** `generarDienteDeSierra`, with the rising width as a fraction of the period. */
    method GenerarDienteDeSierra(width: real) returns (y: array<real>)
      requires SampleCount(fs, duracion) >= 0
      requires width != 0.0 || CyclesNonNegative(frecuencia, fs, duracion)
      ensures fresh(y)
      ensures y.Length == SampleCount(fs, duracion)
      ensures y[..] == SawtoothWave(amplitud, frecuencia, fs, duracion, width)
    {
      var muestras := SampleCount(fs, duracion);
      ghost var w := SawtoothWave(amplitud, frecuencia, fs, duracion, width);
      y := new real[muestras];
      if muestras > 0 {
        var ts := 1.0 / fs;
        for i := 0 to muestras
          invariant forall k :: 0 <= k < i ==> y[k] == w[k]
        {
          var t := i as real * ts;
          assert t == SampleTime(i, fs);
          var ciclo := Cycle(t, frecuencia);
          assert ciclo == CycleAt(i, frecuencia, fs);
          assert width == 0.0 ==> ciclo >= 0.0;
          y[i] := SawtoothSample(amplitud, ciclo, width);
        }
      }
      assert y[..] == w;
    }
  }

  /** The generators keep no state between calls: two calls on the same object
      return distinct arrays with equal contents. */
  method RepeatedSineCallsAgree(s: SenialPeriodica, sin: real -> real)
    returns (y1: array<real>, y2: array<real>)
    requires SampleCount(s.fs, s.duracion) >= 0
    ensures y1 != y2 && y1[..] == y2[..]
  {
    y1 := s.GenerarSenoidal(sin);
    y2 := s.GenerarSenoidal(sin);
  }
}
