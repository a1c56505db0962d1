/**
 The revised overlay (`ringlight.py`): a parameter store with validating
 setters, a geometry sync step, and the arithmetic of the rounded-rectangle
 frame that `paintEvent` fills.
 */
module RingLight {
  import opened Basics
  import opened Params

  // ---- RingLightConfig: the values this version reads ----

  const DefaultThickness: int := 220
  const DefaultBrightness: real := 1.0
  const DefaultColor: Color := White
  /** Declared as a safety cap for alpha, but the rounded frame caps alpha at 255, not at this. */
  const MaxAlpha: int := 220
  const GeometryPollIntervalMs: int := 1000
  const ScreenMargin: int := 10
  const OuterCornerRadius: int := 20
  /** (intensity, size multiplier) per layer; declared "for future use" and read nowhere in this version. */
  const BloomLayers: seq<(real, real)> := [(1.00, 1.00), (0.70, 0.75), (0.45, 0.55), (0.25, 0.40)]

  /** The largest alpha a `QColor` holds: the frame is fully opaque at 255. */
  const OpaqueAlpha: int := 255

  /** The argument of `set_color`: `None`, something that is not a `QColor`, or a `QColor`. */
  datatype ColorArg = NoColor | NotAQColor | QColorArg(color: Color)

  /**
   What `paintEvent` fills: nothing, or the region between an outer rounded
   rectangle and an inner one, in `color` at opacity `alpha`.
   */
  datatype Frame =
    | Empty
    | Ring(outer: Rect, outerRadius: int, inner: Rect, innerRadius: int, color: Color, alpha: int)

  // ---- Frame arithmetic ----

  /** `max(MIN_THICKNESS, min(width, height) // 2 - margin)`: the widest border that leaves the cavity open. */
  function MaxSafeThickness(width: int, height: int): (m: int)
    ensures MinThickness <= m
    ensures Min(width, height) / 2 - ScreenMargin <= m
    ensures Min(width, height) >= 2 * (ScreenMargin + MinThickness) ==> 2 * (ScreenMargin + m) <= Min(width, height)
    ensures m > MinThickness ==> m == Min(width, height) / 2 - ScreenMargin
  {
    Max(MinThickness, Min(width, height) / 2 - ScreenMargin)
  }

  /** The configured thickness, capped by the size of the surface. */
  function EffectiveThickness(width: int, height: int, thickness: int): (e: int)
    ensures MinThickness <= thickness ==> MinThickness <= e <= thickness
    ensures Min(width, height) >= 2 * (ScreenMargin + MinThickness) ==> e <= Min(width, height) / 2 - ScreenMargin
    ensures e == thickness <==> thickness <= MaxSafeThickness(width, height)
    ensures e < thickness ==> e == MaxSafeThickness(width, height)
  {
    Min(thickness, MaxSafeThickness(width, height))
  }

  /** `int(255 * brightness)` kept within 0..255. */
  function FillAlpha(brightness: real): (a: int)
    ensures 0 <= a <= OpaqueAlpha
    ensures brightness >= 1.0 ==> a == OpaqueAlpha
    ensures brightness <= 0.0 ==> a == 0
    ensures 0.0 <= brightness <= 1.0 ==> a as real <= 255.0 * brightness < a as real + 1.0
  {
    var raw := Trunc(255.0 * brightness);
    Max(0, Min(OpaqueAlpha, raw))
  }

  /** Brighter never means more transparent. */
  lemma FillAlphaMonotone(b1: real, b2: real)
    requires b1 <= b2
    ensures FillAlpha(b1) <= FillAlpha(b2)
  {
    TruncMonotone(255.0 * b1, 255.0 * b2);
  }

  /** `max(0, radius - effective_thickness)`: the inner corners get sharper as the border grows. */
  function InnerRadius(e: int): (r: int)
    ensures 0 <= r
    ensures 0 <= e ==> r <= OuterCornerRadius
    ensures MinThickness <= e ==> r < OuterCornerRadius
    ensures r == 0 <==> e >= OuterCornerRadius
    ensures e <= OuterCornerRadius ==> r + e == OuterCornerRadius
  {
    Max(0, OuterCornerRadius - e)
  }

  lemma InnerRadiusNonIncreasing(e1: int, e2: int)
    requires e1 <= e2
    ensures InnerRadius(e2) <= InnerRadius(e1)
  {
  }

  /** The frame `paintEvent` fills on a `width` x `height` surface. */
  function ComputeFrame(width: int, height: int, thickness: int, brightness: real, color: Color): (f: Frame)
    ensures f.Empty? <==> width <= 0 || height <= 0
    ensures f.Ring? ==> f.color == color && f.outerRadius == OuterCornerRadius
    ensures f.Ring? ==> f.alpha == FillAlpha(brightness)
    ensures f.Ring? ==> f.innerRadius == InnerRadius(EffectiveThickness(width, height, thickness))
  {
    if width <= 0 || height <= 0 then Empty
    else
      var e := EffectiveThickness(width, height, thickness);
      var inset := ScreenMargin + e;
      Ring(Rect(ScreenMargin, ScreenMargin, width - 2 * ScreenMargin, height - 2 * ScreenMargin),
           OuterCornerRadius,
           Rect(inset, inset, width - 2 * inset, height - 2 * inset),
           InnerRadius(e),
           color,
           FillAlpha(brightness))
  }

  /**
   The outer rectangle is the surface inset by the margin; the inner one is
   inset by the effective thickness on every side, and once the smaller side of
   the surface is at least 22 pixels it is a proper rectangle within the outer one.
   */
  lemma FrameNesting(width: int, height: int, thickness: int, brightness: real, color: Color)
    requires width > 0 && height > 0
    ensures var f := ComputeFrame(width, height, thickness, brightness, color);
      var e := EffectiveThickness(width, height, thickness);
      && f.outer.x == ScreenMargin && f.outer.y == ScreenMargin
      && f.outer.Right() == width - ScreenMargin && f.outer.Bottom() == height - ScreenMargin
      && f.inner.x - f.outer.x == e && f.inner.y - f.outer.y == e
      && f.outer.Right() - f.inner.Right() == e && f.outer.Bottom() - f.inner.Bottom() == e
      && (MinThickness <= thickness && Min(width, height) >= 2 * (ScreenMargin + MinThickness) ==>
            f.inner.Within(f.outer))
  {
    if MinThickness <= thickness {
      InnerOpenIffLargeEnough(width, height, thickness, brightness, color);
    }
  }

  /**
   With a thickness of at least one, the inner rectangle has a non-negative
   size exactly when the smaller side of the surface is at least 22 pixels.
   On a smaller surface the thickness floor of one pixel turns it inside out.
   */
  lemma InnerOpenIffLargeEnough(width: int, height: int, thickness: int, brightness: real, color: Color)
    requires width > 0 && height > 0 && MinThickness <= thickness
    ensures var f := ComputeFrame(width, height, thickness, brightness, color);
      f.inner.width >= 0 && f.inner.height >= 0 <==> Min(width, height) >= 2 * (ScreenMargin + MinThickness)
  {
    var e := EffectiveThickness(width, height, thickness);
    var m := Min(width, height);
    if m >= 2 * (ScreenMargin + MinThickness) {
      assert 2 * (ScreenMargin + e) <= 2 * (m / 2) <= m;
    } else {
      assert e == MinThickness;
    }
  }

  /** 1920x1080 at thickness 220 and 100%: the border is not capped, fully opaque, with square inner corners. */
  lemma FullHdScenario()
    ensures var f := ComputeFrame(1920, 1080, 220, 1.0, White);
      && EffectiveThickness(1920, 1080, 220) == 220
      && f.alpha == 255 && f.innerRadius == 0
      && f.inner == Rect(230, 230, 1460, 620)
  {
  }

  /** 200x200 at thickness 900: the border is capped at 200 / 2 - 10 = 90. */
  lemma SmallSquareScenario()
    ensures EffectiveThickness(200, 200, 900) == 90
  {
  }

  // ---- The overlay's state ----

  class Overlay {
    var thickness: int
    var brightness: real
    var color: Color
    /** The widget's geometry; `width()` and `height()` are its size. */
    var geometry: Rect
    /** Whether `update()` has scheduled a repaint. */
    var updateRequested: bool

    ghost predicate Valid()
      reads this
    {
      ValidParams(thickness, brightness, color)
    }

    /**
     `__init__`: the defaults, then one geometry sync against the primary
     screen (if any). `initial` is the widget's geometry before that sync.
     */
    constructor (initial: Rect, screen: Option<Rect>)
      ensures Valid()
      ensures thickness == DefaultThickness && brightness == DefaultBrightness && color == DefaultColor
      ensures geometry == (if screen.Some? then screen.value else initial)
      ensures updateRequested == (geometry != initial)
    {
      thickness := DefaultThickness;
      brightness := DefaultBrightness;
      color := DefaultColor;
      geometry := initial;
      updateRequested := false;
      new;
      ApplyScreenGeometry(screen);
    }

    /**
     `_apply_screen_geometry`: with no primary screen nothing changes;
     otherwise the overlay takes the screen's geometry, asking for a repaint
     only if that is a change. A second call with the same screen is a no-op.
     */
    method ApplyScreenGeometry(screen: Option<Rect>)
      modifies this
      ensures screen.None? ==> unchanged(this)
      ensures screen.Some? ==> geometry == screen.value
      ensures screen == Some(old(geometry)) ==> unchanged(this)
      ensures thickness == old(thickness) && brightness == old(brightness) && color == old(color)
      ensures updateRequested == (old(updateRequested) || geometry != old(geometry))
      ensures Valid() == old(Valid())
    {
      if screen.None? {
        return;
      }
      var geom := screen.value;
      if geometry != geom {
        geometry := geom;
        updateRequested := true;
      }
    }

    /**
     `set_brightness_percent`: a non-numeric argument raises `ValueError` and
     changes nothing; a number is clamped into 0.0..2.0 after dividing by 100.
     */
    method SetBrightnessPercent(v: Arg) returns (outcome: Outcome)
      requires Valid()
      modifies this
      ensures Valid()
      ensures outcome == ValueError <==> v.NonNumeric?
      ensures v.NonNumeric? ==> unchanged(this)
      ensures v.Num? ==> brightness == BrightnessFromPercent(v.value) && updateRequested
      ensures thickness == old(thickness) && color == old(color) && geometry == old(geometry)
    {
      if v.NonNumeric? {
        return ValueError;
      }
      brightness := BrightnessFromPercent(v.value);
      updateRequested := true;
      outcome := Returned;
    }

    /**
     `set_thickness`: a non-numeric argument raises `ValueError` and changes
     nothing; a number is truncated and floored at one pixel.
     */
    method SetThickness(p: Arg) returns (outcome: Outcome)
      requires Valid()
      modifies this
      ensures Valid()
      ensures outcome == ValueError <==> p.NonNumeric?
      ensures p.NonNumeric? ==> unchanged(this)
      ensures p.Num? ==> thickness == ThicknessFromPixels(p.value) && updateRequested
      ensures brightness == old(brightness) && color == old(color) && geometry == old(geometry)
    {
      if p.NonNumeric? {
        return ValueError;
      }
      thickness := ThicknessFromPixels(p.value);
      updateRequested := true;
      outcome := Returned;
    }

    /**
     `set_color`: `None` and an invalid color are ignored, anything that is
     not a `QColor` raises `ValueError`, and a valid color replaces the
     stored one. Thickness and brightness are never touched.
     */
    method SetColor(c: ColorArg) returns (outcome: Outcome)
      requires Valid()
      modifies this
      ensures Valid()
      ensures outcome == ValueError <==> c.NotAQColor?
      ensures (c.QColorArg? && c.color.IsValid()) ==> color == c.color && updateRequested
      ensures !(c.QColorArg? && c.color.IsValid()) ==> unchanged(this)
      ensures thickness == old(thickness) && brightness == old(brightness) && geometry == old(geometry)
    {
      match c
      case NoColor =>
        return Returned;
      case NotAQColor =>
        return ValueError;
      case QColorArg(newColor) =>
        if !newColor.IsValid() {
          return Returned;
        }
        color := newColor;
        updateRequested := true;
        outcome := Returned;
    }

    /** `paintEvent`: the frame painted for the current parameters and geometry. */
    function PaintEvent(): (f: Frame)
      reads this
      ensures f == ComputeFrame(geometry.width, geometry.height, thickness, brightness, color)
      ensures Valid() && f.Ring? ==> f.color.IsValid() && 0 <= f.alpha <= OpaqueAlpha
      ensures Valid() && Min(geometry.width, geometry.height) >= 2 * (ScreenMargin + MinThickness) ==>
        f.Ring? && f.inner.Within(f.outer)
    {
      var f := ComputeFrame(geometry.width, geometry.height, thickness, brightness, color);
      if f.Ring? then
        FrameNesting(geometry.width, geometry.height, thickness, brightness, color);
        f
      else f
    }
  }
}
