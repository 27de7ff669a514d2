/** The display quantities of the blue-gradient orb that follow from the sampled level. */
module BlueGradientAvatar {
  import opened AudioLevel

  /** `waveIntensity`: the level while speaking, 0 otherwise. */
  function WaveIntensity(isActiveSpeaker: bool, audioLevel: real): (w: real)
    requires 0.0 <= audioLevel <= 1.0
    ensures 0.0 <= w <= audioLevel
    ensures w > 0.0 ==> isActiveSpeaker
  {
    if isActiveSpeaker then audioLevel else 0.0
  }

  /** The main orb's scale factor, `1 + waveIntensity * 0.03`. */
  function OrbScale(waveIntensity: real): (scale: real)
    requires 0.0 <= waveIntensity <= 1.0
    ensures 1.0 <= scale <= 1.03
  {
    1.0 + waveIntensity * 0.03
  }

  /** The outer glow rings' scale factor, `1 + waveIntensity * 0.1`. */
  function RingScale(waveIntensity: real): (scale: real)
    requires 0.0 <= waveIntensity <= 1.0
    ensures 1.0 <= scale <= 1.1
  {
    1.0 + waveIntensity * 0.1
  }

  /**
   * From one sampled spectrum: the wave intensity is 0 or lies in (0.1, 1], it is
   * positive exactly when the spectrum reads as speaking, and the orb grows only then.
   */
  lemma WaveFromSpectrum(bins: Spectrum)
    ensures var level := Level(bins);
            var w := WaveIntensity(IsSpeaking(level), level);
            && (w == 0.0 || SpeakingThreshold < w <= 1.0)
            && (w > 0.0 <==> 10 * Sum(bins) > 128 * BinCount)
            && (OrbScale(w) > 1.0 <==> 10 * Sum(bins) > 128 * BinCount)
  {
    SpeakingIffSumAbove(bins);
  }
}
