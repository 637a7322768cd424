# signals-and-spectra: waveform sampling and spectrum preparation in Dafny

This project models the computational core of a small desktop tool that
plots periodic waveforms and their magnitude spectra.

- `SenialPeriodica` is an immutable parameter object: amplitude, frequency,
  phase, sample rate `fs` and duration. It has four generators: sine, square,
  triangle and sawtooth. Each generator allocates `(int)(fs * duracion)`
  samples and fills them in a loop, taking sample `i` at `t = i * (1 / fs)`.
- `FFT.calcularMagnitud` rounds the input length up to a power of two. It
  zero-pads the input into a fresh buffer, runs the library's forward
  transform, and returns the moduli of the first half of the coefficients.

Files:

- `java_numerics.dfy` (module `JavaNumerics`) holds the Java numeric
  conversions the code relies on: the truncating `(int)` cast, the double
  remainder `x % 1.0`, and 32-bit int wrap-around.
- `senial_periodica.dfy` (module `Signals`) holds the class
  `SenialPeriodica`. Its fields are `const`, set only by the constructor. Its
  four generator methods fill a fresh `array<real>` in a `for` loop. Each is
  proved equal to a specification function (`SineWave`, `SquareWave`,
  `TriangleWave`, `SawtoothWave`). Each per-sample formula is its own
  function. The lemmas state bounds, edge cases and particular samples.
- `fft.dfy` (module `Spectrum`) holds `HighestOneBit` and `PotenciaDos` as
  integer functions, with their lemmas. `ZeroPadded` and `MagnitudeSpectrum`
  are the specification. `ArrayCopy` models `System.arraycopy`.
  `CalcularMagnitud` is the imperative method, proved equal to
  `MagnitudeSpectrum`.
- `scenario.dfy` (module `Scenario`) holds one lemma: a generator's output
  fed to the spectrum, with the resulting lengths.

How the model maps the source:

- Doubles are exact reals and Java ints are mathematical integers.
- Where Java's integer semantics matter, they are written out: the
  truncating cast, and the overflow of `potenciaDos *= 2`.
- `Math.PI` is the exact double value 884279719003555 / 2^48.
- `Math.sin` is a parameter `sin: real -> real` of the sine generator.
- The library transform is a parameter `transform: seq<real> -> seq<Complex>`.
- `Complex.abs` is a parameter `abs: Complex -> real`.

Behaviour of the code worth noting:

- **Sawtooth width 0 or 1.** Neither width divides by zero when the cycle
  position is in [0, 1). Width 1 always takes the rising branch, and width 0
  always takes the falling branch. `SawtoothSample` needs only that a width
  of 0 is not combined with a negative cycle position. The generator needs
  that of every sample of the time grid (`CyclesNonNegative`). This always
  holds when frequency and sample rate do not have opposite signs. It can
  also hold when they do: at `f = -1`, `fs = 1` every cycle position is 0 and
  every sample is `A` (`SawtoothWholeReversedCycles`).
- **Sample count.** The `(int)` cast truncates toward zero; it is not a
  floor. `SampleCount` models the cast.
- **No parameter validation.** No parameter is checked, so the model has no
  error results either. The preconditions are these three. The generators
  require a nonnegative sample count, since Java's allocation throws for a
  negative one. The sawtooth also excludes width 0 with a negative cycle
  position, where Java yields an infinite or NaN sample. `CalcularMagnitud`
  requires `1 <= N <= 2^30`: the library rejects length 0, and above 2^30 the
  padded length overflows and the allocation throws.
- **Negative cycle positions.** Java's `%` keeps the sign of the dividend, so
  when frequency and sample rate have opposite signs a cycle position can be
  negative. The triangle then leaves [-A, A]: at `f = -0.25`, `fs = 1`,
  sample 1 is `2A` (`TriangleNegativeCycleOvershoot`). The bound lemmas carry
  the hypothesis that every cycle position is nonnegative.
- **Bin spacing.** The window plots bins at spacing
  `fs / (2.0 * magnitudes.length)` (src/main/java/dev/InterfazGrafica.java:155-156).
  For at least two samples, and a transform returning one coefficient per
  input value, `magnitudes.length` is `potenciaDos / 2`, so that spacing is
  `fs / potenciaDos`. For a single sample `magnitudes.length` is 0, the
  spacing is infinite, and no bin is plotted. The window is not part of this model.

## Model

| member | source | states |
|---|---|---|
| JavaNumerics.Trunc | src/main/java/dev/SenialPeriodica.java:123 | the `(int)` cast rounds toward zero: for `x >= 0` the result is the integer `r` with `r <= x < r + 1`; for `x < 0` it is the one with `r - 1 < x <= r` |
| JavaNumerics.RemOne | src/main/java/dev/SenialPeriodica.java:152 | `x % 1.0` differs from `x` by an integer and has the sign of the dividend: in [0, 1) for `x >= 0`, in (-1, 0] for `x < 0` |
| JavaNumerics.Abs | src/main/java/dev/SenialPeriodica.java:174 | `Math.abs` of a double: nonnegative, and equal to the argument or its negation |
| JavaNumerics.WrapInt32 | src/main/java/dev/FFT.java:45 | int arithmetic wraps to [-2^31, 2^31 - 1], differs from the exact value by a multiple of 2^32, and is exact within range |
| Signals.SampleCount | src/main/java/dev/SenialPeriodica.java:123-124 | the sample count is nonnegative exactly when `fs * duracion > -1`; it is within 1 below `fs * duracion` for nonnegative products; a positive count implies `fs * duracion >= 1`, so `fs != 0` and `1 / fs` exists |
| Signals.SampleTime | src/main/java/dev/SenialPeriodica.java:125-129 | sample `i` is taken at `i * (1 / fs)`, a time that is exactly `i` sample periods: `t * fs == i` |
| Signals.Cycle | src/main/java/dev/SenialPeriodica.java:152 | the cycle position `(t * f) % 1.0` lies in (-1, 1), differs from `t * f` by a whole number of periods, and is nonnegative when `t * f` is |
| Signals.CycleAt | src/main/java/dev/SenialPeriodica.java:151-152 | the cycle position `(t * f) % 1.0` of sample `i` lies in (-1, 1); it lies in [0, 1) when frequency and sample rate do not have opposite signs; it is 0 for sample 0 |
| Signals.SineSample | src/main/java/dev/SenialPeriodica.java:130 | when the sine of the phase argument lies in [-1, 1], the sample lies in [-abs(A), abs(A)] |
| Signals.SineWave | src/main/java/dev/SenialPeriodica.java:123-133 | the sine sequence has exactly `SampleCount(fs, duracion)` samples; its values are stated by `SineWaveAt` and `SineWaveBounded` |
| Signals.SineWaveAt | src/main/java/dev/SenialPeriodica.java:127-131 | sine sample `i` is `A * sin(2 * PI * f * (i / fs) + fase)`, so the index-to-time mapping is `t = i / fs`; sample 0 is `A * sin(fase)` |
| Signals.SineWaveBounded | src/main/java/dev/SenialPeriodica.java:130 | with a sine bounded by 1, every sine sample lies in [-abs(A), abs(A)] |
| Signals.SquareSample | src/main/java/dev/SenialPeriodica.java:153 | a square sample is `+A` or `-A`; for `A != 0` it is `+A` exactly when the cycle position is below the duty fraction |
| Signals.SquareWave | src/main/java/dev/SenialPeriodica.java:144-156 | the square sequence has exactly `SampleCount(fs, duracion)` samples; its values are stated by `SquareWaveValues` and `SquareWaveDutyEdges` |
| Signals.SquareWaveValues | src/main/java/dev/SenialPeriodica.java:147-153 | every square sample is `+A` or `-A`; for `A != 0` a sample is `+A` exactly when its cycle position is below `dutyCycle / 100` |
| Signals.SquareWaveDutyEdges | src/main/java/dev/SenialPeriodica.java:147-153 | out-of-range duty cycles are not errors: `dutyCycle >= 100` gives all `+A` for any frequency; `dutyCycle <= 0` gives all `-A` when cycle positions are nonnegative |
| Signals.TriangleSample | src/main/java/dev/SenialPeriodica.java:174 | for a cycle position in [0, 1] the triangle value lies in [-abs(A), abs(A)]; position 0 gives `A` and position 0.5 gives `-A` |
| Signals.TriangleWave | src/main/java/dev/SenialPeriodica.java:166-177 | the triangle sequence has exactly `SampleCount(fs, duracion)` samples; its values are stated by `TriangleWaveSamples` |
| Signals.TriangleNegativeCycleOvershoot | src/main/java/dev/SenialPeriodica.java:172-174 | with `f = -0.25`, `fs = 1` the cycle position of sample 1 is -0.25 and the triangle sample is `2A`, outside [-A, A] |
| Signals.TriangleWaveSamples | src/main/java/dev/SenialPeriodica.java:170-175 | with nonnegative cycle positions every triangle sample lies in [-abs(A), abs(A)]; sample 0 is `A`; any sample at cycle position 0.5 is `-A` |
| Signals.SawtoothSample | src/main/java/dev/SenialPeriodica.java:196-198 | both divisions are well defined for every width: the rising branch has `width > 0` and the falling branch has `1 - width > 0` whenever `0 <= ciclo < 1`; for such positions the value lies in [-abs(A), abs(A)] |
| Signals.ForwardCyclesNonNegative | src/main/java/dev/SenialPeriodica.java:194-195 | when frequency and sample rate do not have opposite signs, no sample of the time grid has a negative cycle position |
| Signals.SawtoothWave | src/main/java/dev/SenialPeriodica.java:188-201 | the sawtooth sequence has exactly `SampleCount(fs, duracion)` samples; it is defined for every width except 0 combined with a negative cycle position, the one case that divides by zero; its values are stated by `SawtoothWaveSamples` |
| Signals.SawtoothWaveSamples | src/main/java/dev/SenialPeriodica.java:192-199 | every sawtooth sample with a nonnegative cycle position lies in [-abs(A), abs(A)] whatever the width, so all do when frequency and sample rate do not have opposite signs; sample 0 is `-A` for `width > 0`, `A` for `width == 0`, and `2A / (1 - width) - A` for `width < 0` |
| Signals.SawtoothWholeReversedCycles | src/main/java/dev/SenialPeriodica.java:192-199 | width 0 with `f = -1`, `fs = 1`: every cycle position is 0, so no division by zero arises and every sample is `A` |
| Signals.SenialPeriodica.constructor | src/main/java/dev/SenialPeriodica.java:47-54 | the five parameters are stored unchanged in immutable fields |
| Signals.SenialPeriodica.GenerarSenoidal | src/main/java/dev/SenialPeriodica.java:121-134 | returns a fresh array of exactly `SampleCount(fs, duracion)` samples equal to `SineWave` |
| Signals.SenialPeriodica.GenerarCuadrada | src/main/java/dev/SenialPeriodica.java:142-157 | returns a fresh array of exactly `SampleCount(fs, duracion)` samples equal to `SquareWave` |
| Signals.SenialPeriodica.GenerarTriangular | src/main/java/dev/SenialPeriodica.java:164-178 | returns a fresh array of exactly `SampleCount(fs, duracion)` samples equal to `TriangleWave` |
| Signals.SenialPeriodica.GenerarDienteDeSierra | src/main/java/dev/SenialPeriodica.java:186-202 | returns a fresh array of exactly `SampleCount(fs, duracion)` samples equal to `SawtoothWave`; no width is rejected, the only excluded inputs being width 0 with a negative cycle position somewhere on the time grid |
| Signals.RepeatedSineCallsAgree | src/main/java/dev/SenialPeriodica.java:47-54 | the fields are set only at construction, so two calls of a generator return distinct arrays with equal contents |
| Spectrum.HighestOneBit | src/main/java/dev/FFT.java:42 | `Integer.highestOneBit(n)` is 0 for 0; for `n >= 1` it is a power of two `h` with `h <= n < 2h` |
| Spectrum.HighestOneBitCases | src/main/java/dev/FFT.java:42-43 | the highest one-bit of `n >= 1` equals `n` exactly when `n` is a power of two; above 2^30 it is 2^30 |
| Spectrum.PotenciaDos | src/main/java/dev/FFT.java:42-46 | for `1 <= N <= 2^30` the padded length is a power of two with `N <= p < 2N`, and `p == N` exactly when `N` is a power of two; `N = 0` gives 0; above 2^30 the doubling overflows to `-2^31` |
| Spectrum.PotenciaDosIsLeast | src/main/java/dev/FFT.java:42-46 | no power of two at or above `N` is smaller than the padded length |
| Spectrum.PotenciaDosExamples | src/main/java/dev/FFT.java:42-46 | 0 gives 0, 5 pads to 8, 8 stays 8, 100 pads to 128 |
| Spectrum.Min | src/main/java/dev/FFT.java:49 | `Math.min`: at most either argument, and equal to one of them |
| Spectrum.ZeroPadded | src/main/java/dev/FFT.java:48-49 | the padded buffer has exactly `p` entries; entry `i` is input sample `i` while there is one, and 0 after the last one |
| Spectrum.ZeroPaddedContents | src/main/java/dev/FFT.java:48-49 | the padded buffer has length `p`; its first `N` entries are the input, so cutting the padding off gives the input back; the remaining entries are 0 |
| Spectrum.ArrayCopy | src/main/java/dev/FFT.java:49 | the first `length` entries of the destination become the source's entries and the rest of the destination is unchanged |
| Spectrum.MagnitudeSpectrum | src/main/java/dev/FFT.java:51-57 | the one-sided magnitude spectrum of the padded input; it has no contract of its own, and its facts are stated by `MagnitudeSpectrumShape` and `ZeroInputSpectrum` |
| Spectrum.MagnitudeSpectrumShape | src/main/java/dev/FFT.java:51-57 | with a transform returning one coefficient per input value, the spectrum has `p / 2` entries, with `N <= 2 * len + 1` and `len < N`; entry `i` is the modulus of coefficient `i`; a single sample gives an empty spectrum; a nonnegative modulus gives nonnegative entries |
| Spectrum.ZeroInputSpectrum | src/main/java/dev/FFT.java:48-57 | an all-zero input pads to an all-zero buffer; if the transform of zeros is zeros of modulus 0, the spectrum is `p / 2` zeros |
| Spectrum.CalcularMagnitud | src/main/java/dev/FFT.java:36-60 | returns a fresh array equal to `MagnitudeSpectrum` of the input; the input array is never modified (the method has no `modifies` clause) |
| Scenario.SineSpectrumLengths | src/main/java/dev/InterfazGrafica.java:122-152 | one second of a 10 Hz sine at 100 Hz, with the phase equal to the sample rate because the window reads both from the phase field, gives 100 samples; their spectrum has 64 entries, the input being padded to 128 |

## Left out

- The window, its widget layout, chart rendering and text-field parsing, and the `NumberFormatException` dialog (src/main/java/dev/InterfazGrafica.java, src/main/java/dev/App.java): user-interface glue. The window reads the sample rate from the phase text field (src/main/java/dev/InterfazGrafica.java:126). It also plots bins at spacing `fs / (2.0 * magnitudes.length)`, which equals `fs / potenciaDos`. Neither is modelled.
- `FastFourierTransformer.transform` and `Complex.abs`: calls into a foreign numeric library. They are parameters of the model, not reimplemented. The library rejects a transform of length 0. `CalcularMagnitud` therefore requires at least one sample.
- `Math.sin`: transcendental. It is a parameter, so the sine samples are stated in terms of it. Bounds hold only under the stated assumption that it is bounded by 1.
- IEEE-754 doubles: rounding, NaN and infinities are not modelled. Every double is an exact real. So `i * (1 / fs)` is exactly `i / fs`, and Java's `-0.0` is the same as `0.0`.
- Signals.SawtoothWave, Signals.SawtoothWaveSamples, Signals.SenialPeriodica.GenerarDienteDeSierra: width 0 is excluded when some sample of the time grid has a negative cycle position (then `ciclo < width` holds, and the rising branch divides by `width = 0`, which gives an infinite or NaN Java double). This can only happen when frequency and sample rate have opposite signs; the other widths and grids are all covered.
- Signals.SampleCount: does not model the saturation of the `(int)` cast for products beyond the int range.
- The negative array size (`fs * duracion <= -1`), for which Java's allocation throws: the generators require a nonnegative sample count.
- Spectrum.CalcularMagnitud: requires `1 <= N <= 2^30`. Above 2^30 the padded length overflows to a negative value (stated by `PotenciaDos`), and the allocation would throw.
- The `1.0 / fs` that Java computes before its loop when there are no samples (infinite for `fs == 0`): it is never used, and the model computes it only when at least one sample is taken.
- The location of the spectrum's peak: it depends on the transform's values, which are not modelled.
