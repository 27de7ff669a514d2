/**
 * One sampling tick of the audio-level indicator shared by the meeting screen and
 * both avatars: the mean of the analyser's byte spectrum, divided by 128 and clamped
 * to 1, and the "speaking" flag that holds when that level exceeds 0.1.
 *
 * JavaScript numbers are modelled by Dafny's exact `real`: every value involved is a
 * small rational, so the comparisons and bounds below are exact.
 */
module AudioLevel {

  /** One entry of the `Uint8Array` that `getByteFrequencyData` fills. */
  type Byte = x: int | 0 <= x < 256

  /** The analyser's `fftSize`. */
  const FftSize: nat := 256

  /** `frequencyBinCount` is half the FFT size (Web Audio API, section 1.8, AnalyserNode). */
  const BinCount: nat := FftSize / 2

  /** The level divisor: a mean magnitude of 128 or more reads as full level. */
  const FullScale: real := 128.0

  /** The speaking threshold on the normalised level. */
  const SpeakingThreshold: real := 0.1

  /** The spectrum an analyser with `fftSize = 256` writes: one byte per bin. */
  type Spectrum = s: seq<Byte> | |s| == BinCount witness seq(BinCount, _ => 0)

  /** `dataArray.reduce((sum, value) => sum + value, 0)`. */
  function Sum(bins: seq<Byte>): int
  {
    if bins == [] then 0 else bins[0] + Sum(bins[1..])
  }

  lemma {:induction false} SumBounds(bins: seq<Byte>)
    ensures 0 <= Sum(bins) <= 255 * |bins|
  {
    if bins != [] { SumBounds(bins[1..]); }
  }

  /** `Math.min(average / 128, 1)` with `average = sum / length`. */
  function Level(bins: seq<Byte>): (level: real)
    requires |bins| > 0
    ensures 0.0 <= level <= 1.0
  {
    SumBounds(bins);
    var average := Sum(bins) as real / |bins| as real;
    if average / FullScale < 1.0 then average / FullScale else 1.0
  }

  /** `normalizedLevel > 0.1`. */
  predicate IsSpeaking(level: real)
  {
    level > SpeakingThreshold
  }

  /** The level is exactly the clamped mean, and saturates precisely when the sum reaches 128 per bin. */
  lemma LevelValue(bins: seq<Byte>)
    requires |bins| > 0
    ensures Sum(bins) < 128 * |bins| ==> Level(bins) == Sum(bins) as real / (128 * |bins|) as real
    ensures Level(bins) == 1.0 <==> Sum(bins) >= 128 * |bins|
  {
    var n := |bins| as real;
    var s := Sum(bins) as real;
    DivTwice(s, n, FullScale);
    DivCompare(s, FullScale * n, 1.0);
    assert (128 * |bins|) as real == FullScale * n;
  }

  /** Speaking in integer terms: ten times the sum exceeds 128 per bin (a mean above 12.8). */
  lemma SpeakingIffSumAbove(bins: seq<Byte>)
    requires |bins| > 0
    ensures IsSpeaking(Level(bins)) <==> 10 * Sum(bins) > 128 * |bins|
  {
    LevelValue(bins);
    var d := (128 * |bins|) as real;
    var s := Sum(bins) as real;
    if Sum(bins) < 128 * |bins| {
      DivCompare(s, d, SpeakingThreshold);
      assert SpeakingThreshold * d == (128 * |bins|) as real / 10.0;
    }
  }

  lemma DivTwice(s: real, n: real, k: real)
    requires n > 0.0 && k > 0.0
    ensures (s / n) / k == s / (k * n)
  {
  }

  lemma DivCompare(x: real, d: real, c: real)
    requires d > 0.0
    ensures x / d > c <==> x > c * d
    ensures x / d < c <==> x < c * d
  {
    assert x / d * d == x;
    if x / d > c { assert x / d * d > c * d; }
    if x / d < c { assert x / d * d < c * d; }
    if x > c * d { assert x / d > c * d / d; }
    if x < c * d { assert x / d < c * d / d; }
  }

  /** A silent spectrum reads as level 0, not speaking. */
  lemma {:induction false} SilenceIsNotSpeaking(bins: seq<Byte>)
    requires |bins| > 0
    requires forall i :: 0 <= i < |bins| ==> bins[i] == 0
    ensures Level(bins) == 0.0 && !IsSpeaking(Level(bins))
  {
    SumOfZeros(bins);
  }

  lemma {:induction false} SumOfZeros(bins: seq<Byte>)
    requires forall i :: 0 <= i < |bins| ==> bins[i] == 0
    ensures Sum(bins) == 0
  {
    if bins != [] { SumOfZeros(bins[1..]); }
  }
}
