/**
 The original overlay (`ringlight_original.py`): the same parameter store
 with lighter validation, and a `paintEvent` that paints a "bloom" of four
 layers, each made of four gradient bands along the edges of the surface.
 */
module RingLightOriginal {
  import opened Basics
  import opened Params

  // ---- RingLightConfig: the values this version reads ----

  const DefaultThickness: int := 220
  const DefaultBrightness: real := 0.80
  const DefaultColor: Color := White
  /** Declared, but `paintEvent` caps alpha with its own literal (`SafetyAlphaCap`). */
  const MaxAlpha: int := 220
  const GeometryPollIntervalMs: int := 1000

  /** Extra safety cap on every layer's alpha: the bloom is never fully opaque. */
  const SafetyAlphaCap: int := 220

  /** One bloom layer: how strong its light is, and how deep its bands reach relative to the thickness. */
  datatype Layer = Layer(intensity: real, multiplier: real)

  /**
   The layer table `paintEvent` iterates, outermost first (the same values as
   `BLOOM_LAYERS` in the configuration).
   */
  const Layers: seq<Layer> := [Layer(1.00, 1.00), Layer(0.70, 0.75), Layer(0.45, 0.55), Layer(0.25, 0.40)]

  datatype Edge = Top | Bottom | Left | Right

  /** The order in which each layer fills its four bands. */
  const EdgeOrder: seq<Edge> := [Top, Bottom, Left, Right]

  /**
   One `fillRect` with a `QLinearGradient`: the rectangle `rect`, filled with
   `color` fading from opacity `alpha` at `start` to opacity 0 at `stop`.
   */
  datatype Band = Band(edge: Edge, rect: Rect, start: Point, stop: Point, color: Color, alpha: int) {
    /** How far the band reaches into the surface from its edge. */
    function Depth(): int {
      if edge == Top || edge == Bottom then rect.height else rect.width
    }
  }

  // ---- Bloom arithmetic ----

  /** `t = min(thickness, max(1, min(w, h)))`: the thickness capped by the smaller side of the surface. */
  function CappedThickness(w: int, h: int, thickness: int): (t: int)
    ensures MinThickness <= thickness ==> 1 <= t <= thickness
    ensures Min(w, h) >= 1 ==> t <= Min(w, h)
    ensures t == thickness <==> thickness <= Max(1, Min(w, h))
    ensures t < thickness ==> t == Max(1, Min(w, h))
  {
    Min(thickness, Max(1, Min(w, h)))
  }

  /** `size = max(1, int(t * mul))`: how deep a layer's bands reach. */
  function BandSize(t: int, multiplier: real): (size: int)
    ensures 1 <= size
    ensures 1 <= t && 0.0 <= multiplier <= 1.0 ==> size <= t
  {
    Max(1, Trunc(t as real * multiplier))
  }

  /**
   From one pixel of depth on, a band is `t * multiplier` pixels deep with the
   fraction dropped; below two pixels it is held at the one-pixel floor.
   */
  lemma BandSizeTruncates(t: int, multiplier: real)
    requires 0 <= t && 0.0 <= multiplier
    ensures var x := t as real * multiplier;
      var size := BandSize(t, multiplier);
      && (x >= 1.0 ==> size as real <= x < size as real + 1.0)
      && (x < 2.0 ==> size == 1)
  {
    ScaleIntMonotone(t, 0.0, multiplier);
  }

  /** `max(0, min(220, int(255 * brightness * intensity)))`: a layer's opacity. */
  function LayerAlpha(brightness: real, intensity: real): (a: int)
    ensures 0 <= a <= SafetyAlphaCap
  {
    Max(0, Min(SafetyAlphaCap, Trunc(255.0 * brightness * intensity)))
  }

  /**
   Below the cap, a layer's alpha is `255 * brightness * intensity` with its
   fraction dropped; at or above 220 it is the cap.
   */
  lemma LayerAlphaTruncates(brightness: real, intensity: real)
    requires 0.0 <= brightness && 0.0 <= intensity
    ensures var x := 255.0 * brightness * intensity;
      var a := LayerAlpha(brightness, intensity);
      && (x < SafetyAlphaCap as real ==> a as real <= x < a as real + 1.0)
      && (x >= SafetyAlphaCap as real ==> a == SafetyAlphaCap)
  {
    var x := 255.0 * brightness * intensity;
    ScaleMonotone(255.0 * brightness, 0.0, intensity);
    if x >= SafetyAlphaCap as real {
      TruncMonotone(SafetyAlphaCap as real, x);
      TruncOfInt(SafetyAlphaCap);
    }
  }

  /** The band that a layer of depth `size` and opacity `alpha` fills along `edge` of a `w` x `h` surface. */
  function EdgeBand(edge: Edge, w: int, h: int, size: int, color: Color, alpha: int): (b: Band)
    ensures b.edge == edge && b.color == color && b.alpha == alpha && b.Depth() == size
    ensures edge == Top || edge == Bottom ==> b.rect.x == 0 && b.rect.width == w
    ensures edge == Left || edge == Right ==> b.rect.y == 0 && b.rect.height == h
  {
    match edge
    case Top => Band(Top, Rect(0, 0, w, size), Point(0, 0), Point(0, size), color, alpha)
    case Bottom => Band(Bottom, Rect(0, h - size, w, size), Point(0, h), Point(0, h - size), color, alpha)
    case Left => Band(Left, Rect(0, 0, size, h), Point(0, 0), Point(size, 0), color, alpha)
    case Right => Band(Right, Rect(w - size, 0, size, h), Point(w, 0), Point(w - size, 0), color, alpha)
  }

  /** The four bands of one layer, in the order top, bottom, left, right. */
  function LayerBands(w: int, h: int, t: int, brightness: real, color: Color, layer: Layer): (bands: seq<Band>)
    ensures |bands| == |EdgeOrder|
    ensures forall i :: 0 <= i < |bands| ==>
      && bands[i].edge == EdgeOrder[i] && bands[i].color == color
      && bands[i].Depth() == BandSize(t, layer.multiplier)
      && bands[i].alpha == LayerAlpha(brightness, layer.intensity)
  {
    var size := BandSize(t, layer.multiplier);
    var alpha := LayerAlpha(brightness, layer.intensity);
    [EdgeBand(Top, w, h, size, color, alpha), EdgeBand(Bottom, w, h, size, color, alpha),
     EdgeBand(Left, w, h, size, color, alpha), EdgeBand(Right, w, h, size, color, alpha)]
  }

  /** The bands painted for the layers `layers`, taken in order. */
  function BloomBands(layers: seq<Layer>, w: int, h: int, t: int, brightness: real, color: Color): (bands: seq<Band>)
    ensures |bands| == |EdgeOrder| * |layers|
    decreases |layers|
  {
    if layers == [] then []
    else BloomBands(layers[..|layers| - 1], w, h, t, brightness, color)
         + LayerBands(w, h, t, brightness, color, layers[|layers| - 1])
  }

  /** Painting one more layer appends that layer's four bands. */
  lemma BloomBandsExtend(layers: seq<Layer>, i: nat, w: int, h: int, t: int, brightness: real, color: Color)
    requires i < |layers|
    ensures BloomBands(layers[..i + 1], w, h, t, brightness, color)
         == BloomBands(layers[..i], w, h, t, brightness, color) + LayerBands(w, h, t, brightness, color, layers[i])
  {
    assert layers[..i + 1][..i] == layers[..i];
  }

  /** What `paintEvent` paints on a `w` x `h` surface. */
  function ComputeBloom(w: int, h: int, thickness: int, brightness: real, color: Color): (bands: seq<Band>)
    ensures |bands| == |Layers| * |EdgeOrder| == 16
  {
    BloomBands(Layers, w, h, CappedThickness(w, h, thickness), brightness, color)
  }

  /** Band `k` of the bloom belongs to layer `k / 4` and lies along edge `k % 4`. */
  lemma {:induction false} BloomBandsAt(layers: seq<Layer>, w: int, h: int, t: int, brightness: real, color: Color)
    ensures var bands := BloomBands(layers, w, h, t, brightness, color);
      && |bands| == 4 * |layers|
      && forall k :: 0 <= k < |bands| ==>
           bands[k] == EdgeBand(EdgeOrder[k % 4], w, h, BandSize(t, layers[k / 4].multiplier), color,
                                LayerAlpha(brightness, layers[k / 4].intensity))
    decreases |layers|
  {
    if layers != [] {
      var n := |layers| - 1;
      var front := layers[..n];
      BloomBandsAt(front, w, h, t, brightness, color);
      var bands := BloomBands(layers, w, h, t, brightness, color);
      var head := BloomBands(front, w, h, t, brightness, color);
      assert bands == head + LayerBands(w, h, t, brightness, color, layers[n]);
      forall k | 0 <= k < |bands|
        ensures bands[k] == EdgeBand(EdgeOrder[k % 4], w, h, BandSize(t, layers[k / 4].multiplier), color,
                                     LayerAlpha(brightness, layers[k / 4].intensity))
      {
        if k < |head| {
          assert layers[k / 4] == front[k / 4];
        } else {
          assert k / 4 == n;
        }
      }
    }
  }

  /**
   The bloom is exactly 16 fills, layer by layer in table order, each layer
   as top, bottom, left, right; every band carries its layer's depth and opacity.
   */
  lemma BloomOrder(w: int, h: int, thickness: int, brightness: real, color: Color)
    ensures var bands := ComputeBloom(w, h, thickness, brightness, color);
      var t := CappedThickness(w, h, thickness);
      && |bands| == |Layers| * |EdgeOrder| == 16
      && forall k :: 0 <= k < |bands| ==>
           && bands[k].edge == EdgeOrder[k % 4]
           && bands[k].color == color
           && bands[k].Depth() == BandSize(t, Layers[k / 4].multiplier)
           && bands[k].alpha == LayerAlpha(brightness, Layers[k / 4].intensity)
  {
    BloomBandsAt(Layers, w, h, CappedThickness(w, h, thickness), brightness, color);
  }

  /** The layer table shrinks and dims from one layer to the next. */
  lemma LayersDecrease(i: int, j: int)
    requires 0 <= i <= j < |Layers|
    ensures 0.0 <= Layers[j].multiplier <= Layers[i].multiplier <= 1.0
    ensures 0.0 <= Layers[j].intensity <= Layers[i].intensity <= 1.0
  {
  }

  /** The one-pixel floor on a truncated depth keeps the order of the depths. */
  lemma DepthMonotone(x1: real, x2: real)
    requires x1 <= x2
    ensures Max(1, Trunc(x1)) <= Max(1, Trunc(x2))
  {
    TruncMonotone(x1, x2);
  }

  /** A smaller multiplier never gives a deeper band. */
  lemma BandSizeMonotone(t: int, m1: real, m2: real)
    requires 0 <= t && m1 <= m2
    ensures BandSize(t, m1) <= BandSize(t, m2)
  {
    var x1, x2 := t as real * m1, t as real * m2;
    assert x2 - x1 == t as real * (m2 - m1);
    DepthMonotone(x1, x2);
  }

  /** A smaller intensity never gives a more opaque band. */
  lemma LayerAlphaMonotone(brightness: real, i1: real, i2: real)
    requires 0.0 <= brightness && i1 <= i2
    ensures LayerAlpha(brightness, i1) <= LayerAlpha(brightness, i2)
  {
    AlphaScaleMonotone(brightness, i1, i2);
    TruncMonotone(255.0 * brightness * i1, 255.0 * brightness * i2);
    assert LayerAlpha(brightness, i1) == Max(0, Min(SafetyAlphaCap, Trunc(255.0 * brightness * i1)));
    assert LayerAlpha(brightness, i2) == Max(0, Min(SafetyAlphaCap, Trunc(255.0 * brightness * i2)));
  }

  /** Opacity before truncation grows with the intensity. */
  lemma AlphaScaleMonotone(brightness: real, i1: real, i2: real)
    requires 0.0 <= brightness && i1 <= i2
    ensures 255.0 * brightness * i1 <= 255.0 * brightness * i2
  {
    ScaleMonotone(255.0 * brightness, i1, i2);
  }

  /**
   With a non-negative thickness and brightness, the bands never get deeper
   or more opaque from one fill to the next.
   */
  lemma BloomNonIncreasing(w: int, h: int, thickness: int, brightness: real, color: Color, j: int, k: int)
    requires 0 <= thickness && 0.0 <= brightness
    requires 0 <= j <= k < 16
    ensures var bands := ComputeBloom(w, h, thickness, brightness, color);
      |bands| == 16 && bands[k].Depth() <= bands[j].Depth() && bands[k].alpha <= bands[j].alpha
  {
    BloomOrder(w, h, thickness, brightness, color);
    var t := CappedThickness(w, h, thickness);
    var lj, lk := Layers[j / 4], Layers[k / 4];
    LayersDecrease(j / 4, k / 4);
    BandSizeMonotone(t, lk.multiplier, lj.multiplier);
    LayerAlphaMonotone(brightness, lk.intensity, lj.intensity);
  }

  /** With a thickness of at least one, every band lies on the `w` x `h` surface and reaches at least one pixel in. */
  lemma BloomInsideSurface(w: int, h: int, thickness: int, brightness: real, color: Color)
    requires MinThickness <= thickness && 1 <= w && 1 <= h
    ensures var bands := ComputeBloom(w, h, thickness, brightness, color);
      forall k :: 0 <= k < |bands| ==>
        && 1 <= bands[k].Depth() <= CappedThickness(w, h, thickness)
        && bands[k].rect.Within(Rect(0, 0, w, h))
  {
    BloomOrder(w, h, thickness, brightness, color);
    BloomBandsAt(Layers, w, h, CappedThickness(w, h, thickness), brightness, color);
  }

  /** Every band's opacity is in 0..220, so the bloom never covers the screen opaquely. */
  lemma BloomNeverOpaque(w: int, h: int, thickness: int, brightness: real, color: Color)
    ensures var bands := ComputeBloom(w, h, thickness, brightness, color);
      forall k :: 0 <= k < |bands| ==> 0 <= bands[k].alpha <= SafetyAlphaCap < 255
  {
    BloomOrder(w, h, thickness, brightness, color);
  }

  /** At 200% the base layer reaches the safety cap of 220 rather than 255. */
  lemma FullBrightnessScenario()
    ensures LayerAlpha(2.0, Layers[0].intensity) == 220
  {
  }

  /**
   Each gradient starts on the surface edge its band touches and ends `size`
   pixels further in, on the band's inner side, running perpendicular to that
   edge along the surface's first row or column.
   */
  lemma GradientSpansBand(edge: Edge, w: int, h: int, size: int, color: Color, alpha: int)
    ensures var b := EdgeBand(edge, w, h, size, color, alpha);
      match edge
      case Top => b.start.y == 0 == b.rect.y && b.stop.y == b.rect.Bottom() == size && b.start.x == b.stop.x == 0
      case Bottom => b.start.y == h == b.rect.Bottom() && b.stop.y == b.rect.y == h - size && b.start.x == b.stop.x == 0
      case Left => b.start.x == 0 == b.rect.x && b.stop.x == b.rect.Right() == size && b.start.y == b.stop.y == 0
      case Right => b.start.x == w == b.rect.Right() && b.stop.x == b.rect.x == w - size && b.start.y == b.stop.y == 0
  {
  }

  // ---- The overlay's state ----

  class Overlay {
    var thickness: int
    var brightness: real
    var color: Color
    /** The widget's geometry; `width()` and `height()` are its size. */
    var geometry: Rect
    /** Whether `update()` has scheduled a repaint. */
    var updateRequested: bool

    ghost predicate Valid()
      reads this
    {
      ValidParams(thickness, brightness, color)
    }

    /**
     `__init__`: the defaults, then one geometry sync against the primary
     screen (if any). `initial` is the widget's geometry before that sync.
     */
    constructor (initial: Rect, screen: Option<Rect>)
      ensures Valid()
      ensures thickness == DefaultThickness && brightness == DefaultBrightness && color == DefaultColor
      ensures geometry == (if screen.Some? then screen.value else initial)
      ensures updateRequested == (geometry != initial)
    {
      thickness := DefaultThickness;
      brightness := DefaultBrightness;
      color := DefaultColor;
      geometry := initial;
      updateRequested := false;
      new;
      ApplyScreenGeometry(screen);
    }

    /**
     `_apply_screen_geometry`: with no primary screen nothing changes;
     otherwise the overlay takes the screen's geometry, asking for a repaint
     only if that is a change.
     */
    method ApplyScreenGeometry(screen: Option<Rect>)
      modifies this
      ensures screen.None? ==> unchanged(this)
      ensures screen.Some? ==> geometry == screen.value
      ensures screen == Some(old(geometry)) ==> unchanged(this)
      ensures thickness == old(thickness) && brightness == old(brightness) && color == old(color)
      ensures updateRequested == (old(updateRequested) || geometry != old(geometry))
      ensures Valid() == old(Valid())
    {
      if screen.None? {
        return;
      }
      var geom := screen.value;
      if geometry != geom {
        geometry := geom;
        updateRequested := true;
      }
    }

    /** `set_brightness_percent`: the percentage divided by 100 and clamped into 0.0..2.0, without any check. */
    method SetBrightnessPercent(v: real)
      requires Valid()
      modifies this
      ensures Valid()
      ensures brightness == BrightnessFromPercent(v) && updateRequested
      ensures thickness == old(thickness) && color == old(color) && geometry == old(geometry)
    {
      brightness := BrightnessFromPercent(v);
      updateRequested := true;
    }

    /** `set_thickness`: the pixel count truncated and floored at one, without any check. */
    method SetThickness(p: real)
      requires Valid()
      modifies this
      ensures Valid()
      ensures thickness == ThicknessFromPixels(p) && updateRequested
      ensures brightness == old(brightness) && color == old(color) && geometry == old(geometry)
    {
      thickness := ThicknessFromPixels(p);
      updateRequested := true;
    }

    /** `set_color`: the color is replaced only by a given, valid color; otherwise nothing changes. */
    method SetColor(c: Option<Color>)
      requires Valid()
      modifies this
      ensures Valid()
      ensures (c.Some? && c.value.IsValid()) ==> color == c.value && updateRequested
      ensures !(c.Some? && c.value.IsValid()) ==> unchanged(this)
      ensures thickness == old(thickness) && brightness == old(brightness) && geometry == old(geometry)
    {
      if c.Some? && c.value.IsValid() {
        color := c.value;
        updateRequested := true;
      }
    }

    /**
     `paintEvent`: walks the layer table and emits four gradient fills per
     layer; the fills it emits are exactly the bloom of the current state.
     */
    method PaintEvent() returns (bands: seq<Band>)
      ensures bands == ComputeBloom(geometry.width, geometry.height, thickness, brightness, color)
      ensures forall k :: 0 <= k < |bands| ==> 0 <= bands[k].alpha <= SafetyAlphaCap
      ensures Valid() && 1 <= geometry.width && 1 <= geometry.height ==>
        forall k :: 0 <= k < |bands| ==> bands[k].rect.Within(Rect(0, 0, geometry.width, geometry.height))
    {
      var w, h := geometry.width, geometry.height;
      var t := Min(thickness, Max(1, Min(w, h)));
      bands := [];
      for i := 0 to |Layers|
        invariant bands == BloomBands(Layers[..i], w, h, t, brightness, color)
      {
        var layer := Layers[i];
        var size := BandSize(t, layer.multiplier);
        var alpha := LayerAlpha(brightness, layer.intensity);
        var top := Band(Top, Rect(0, 0, w, size), Point(0, 0), Point(0, size), color, alpha);
        var bottom := Band(Bottom, Rect(0, h - size, w, size), Point(0, h), Point(0, h - size), color, alpha);
        var left := Band(Left, Rect(0, 0, size, h), Point(0, 0), Point(size, 0), color, alpha);
        var right := Band(Right, Rect(w - size, 0, size, h), Point(w, 0), Point(w - size, 0), color, alpha);
        assert [top, bottom, left, right] == LayerBands(w, h, t, brightness, color, layer);
        BloomBandsExtend(Layers, i, w, h, t, brightness, color);
        bands := bands + [top, bottom, left, right];
      }
      assert Layers[..|Layers|] == Layers;
      BloomNeverOpaque(w, h, thickness, brightness, color);
      if Valid() && 1 <= w && 1 <= h {
        BloomInsideSurface(w, h, thickness, brightness, color);
      }
    }
  }
}
