/** The display quantities of the animated fluid avatar. */
module AnimatedFluidAvatar {
  import opened AudioLevel

  datatype Size = Sm | Md | Lg | Xl

  /** The position of a size in the order sm, md, lg, xl. */
  function Rank(size: Size): nat
  {
    match size
    case Sm => 0
    case Md => 1
    case Lg => 2
    case Xl => 3
  }

  /** `sizeMap`: the avatar's width and height in pixels. */
  function SizePx(size: Size): (px: nat)
    ensures 80 <= px <= 200 && px % 40 == 0
  {
    match size
    case Sm => 80
    case Md => 120
    case Lg => 160
    case Xl => 200
  }

  /** A larger size always renders a larger avatar, so no two sizes share a pixel size. */
  lemma SizeOrderPreserved(a: Size, b: Size)
    ensures Rank(a) < Rank(b) <==> SizePx(a) < SizePx(b)
    ensures SizePx(a) == SizePx(b) <==> a == b
  {
  }

  /** `waveIntensity`: a hundred times the level while speaking, 0 otherwise. */
  function WaveIntensity(isActiveSpeaker: bool, audioLevel: real): (w: real)
    requires 0.0 <= audioLevel <= 1.0
    ensures 0.0 <= w <= 100.0
    ensures w > 0.0 ==> isActiveSpeaker
  {
    if isActiveSpeaker then audioLevel * 100.0 else 0.0
  }

  /** `scale = 1 + audioLevel * 0.3`, which does not depend on the speaker flag. */
  function Scale(audioLevel: real): (scale: real)
    requires 0.0 <= audioLevel <= 1.0
    ensures 1.0 <= scale <= 1.3
  {
    1.0 + audioLevel * 0.3
  }

  /** The scale of outer ring `ring` (1 to 4), `0.7 + ring * 0.1 + waveIntensity * 0.002`. */
  function RingScale(ring: nat, waveIntensity: real): (scale: real)
    requires 1 <= ring <= 4 && 0.0 <= waveIntensity <= 100.0
    ensures 0.8 <= scale <= 1.3
  {
    0.7 + ring as real * 0.1 + waveIntensity * 0.002
  }

  /**
   * From one sampled spectrum: the wave intensity is 0 or lies in (10, 100], it is
   * positive exactly when the spectrum reads as speaking, and the middle layer's scale
   * reaches 1.3 exactly when the level saturates.
   */
  lemma WaveFromSpectrum(bins: Spectrum)
    ensures var level := Level(bins);
            var w := WaveIntensity(IsSpeaking(level), level);
            && (w == 0.0 || 10.0 < w <= 100.0)
            && (w > 0.0 <==> 10 * Sum(bins) > 128 * BinCount)
            && (Scale(level) == 1.3 <==> Sum(bins) >= 128 * BinCount)
  {
    SpeakingIffSumAbove(bins);
    LevelValue(bins);
  }
}
