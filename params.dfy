/**
 The parameter arithmetic of the overlay's setters. Both versions of the
 overlay (`ringlight.py` and `ringlight_original.py`) declare the same limits
 in their `RingLightConfig` and store brightness and thickness with the same
 expressions, so they are stated once here.
 */
module Params {
  import opened Basics

  const MinThickness: int := 1
  /** Declared, but no setter clamps against it: thickness has no upper bound in the store. */
  const MaxThickness: int := 900
  const MinBrightnessPercent: int := 0
  const MaxBrightnessPercent: int := 200
  const MinBrightness: real := 0.0
  const MaxBrightness: real := 2.0

  /** What the overlay keeps true of its parameters between calls. */
  predicate ValidParams(thickness: int, brightness: real, color: Color) {
    MinThickness <= thickness && MinBrightness <= brightness <= MaxBrightness && color.IsValid()
  }

  /**
   The brightness multiplier stored for a percentage `v`:
   `max(MIN_BRIGHTNESS, min(MAX_BRIGHTNESS, v / 100.0))`.
   */
  function BrightnessFromPercent(v: real): (b: real)
    ensures MinBrightness <= b <= MaxBrightness
    ensures MinBrightnessPercent as real <= v <= MaxBrightnessPercent as real ==> b * 100.0 == v
    ensures v < MinBrightnessPercent as real ==> b == MinBrightness
    ensures v > MaxBrightnessPercent as real ==> b == MaxBrightness
  {
    var scaled := v / 100.0;
    if scaled >= MaxBrightness then MaxBrightness
    else if scaled <= MinBrightness then MinBrightness
    else scaled
  }

  /** Clamping is monotone: a larger percentage never gives a dimmer overlay. */
  lemma BrightnessMonotone(v: real, w: real)
    requires v <= w
    ensures BrightnessFromPercent(v) <= BrightnessFromPercent(w)
  {
  }

  /**
   Storing a brightness and reading it back as a percentage, then storing that
   percentage again, changes nothing.
   */
  lemma BrightnessStoreIdempotent(v: real)
    ensures BrightnessFromPercent(BrightnessFromPercent(v) * 100.0) == BrightnessFromPercent(v)
  {
  }

  /**
   The thickness stored for a pixel count `p`: `max(MIN_THICKNESS, int(p))`.
   There is no upper clamp.
   */
  function ThicknessFromPixels(p: real): (t: int)
    ensures MinThickness <= t
    ensures t == MinThickness <==> p < (MinThickness + 1) as real
    ensures p >= MinThickness as real ==> t as real <= p < t as real + 1.0
  {
    Max(MinThickness, Trunc(p))
  }

  /** A whole pixel count of at least one is stored unchanged, however large. */
  lemma ThicknessKeepsWholeCounts(n: int)
    requires n >= MinThickness
    ensures ThicknessFromPixels(n as real) == n
  {
    TruncOfInt(n);
  }

  /** Storing a stored thickness again changes nothing. */
  lemma ThicknessStoreIdempotent(p: real)
    ensures ThicknessFromPixels(ThicknessFromPixels(p) as real) == ThicknessFromPixels(p)
  {
    ThicknessKeepsWholeCounts(ThicknessFromPixels(p));
  }
}
