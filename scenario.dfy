/** The two components in sequence, as the window's plot action uses them:
    samples from a generator are handed to the spectrum computation. */
module Scenario {
  import Signals
  import Spectrum

  /** One second of a 10 Hz sine sampled at 100 Hz gives 100 samples, which
      pad to 128; with a transform returning one coefficient per input value
      the spectrum has 64 entries.  The window reads the sample rate from the
      phase field, so phase and sample rate are both 100 here. */
  lemma SineSpectrumLengths(sin: real -> real, transform: seq<real> -> seq<Spectrum.Complex>,
                            abs: Spectrum.Complex -> real)
    requires var y := Signals.SineWave(1.0, 10.0, 100.0, 100.0, 1.0, sin);
             |transform(Spectrum.ZeroPadded(y, 128))| == 128
    ensures |Signals.SineWave(1.0, 10.0, 100.0, 100.0, 1.0, sin)| == 100
    ensures |Spectrum.MagnitudeSpectrum(Signals.SineWave(1.0, 10.0, 100.0, 100.0, 1.0, sin),
                                        transform, abs)| == 64
  {
    assert Signals.SampleCount(100.0, 1.0) == 100;
    Spectrum.PotenciaDosExamples();
    var y := Signals.SineWave(1.0, 10.0, 100.0, 100.0, 1.0, sin);
    Spectrum.MagnitudeSpectrumShape(y, transform, abs);
  }
}
