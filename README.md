# Ring light overlay: parameter store and border arithmetic

This project models the core of LumaScreen. LumaScreen draws a full-screen,
click-through luminous border (a "ring light") around the primary display. The
repository holds two versions of the overlay widget, and both are modelled:

- `ringlight.py`, the revised version. Its setters validate their arguments.
  They raise `ValueError` on non-numeric values and on objects that are not a
  `QColor`. Its `paintEvent` fills one rounded-rectangle frame: an outer rounded
  rectangle inset by a 10 px margin, minus an inner one inset by the effective
  thickness. The fill uses the colour at an alpha derived from brightness and
  capped at 255.
- `ringlight_original.py`, the original version. Its setters make no type
  checks of their own; `set_color` silently ignores a missing or invalid
  colour. Its `paintEvent` paints a "bloom" of four layers, each of
  four edge bands (top, bottom, left, right). Each band is a linear gradient
  from the layer's alpha down to 0. Band depth never grows and alpha never
  rises from layer to layer, and alpha is capped at 220.

Modules:

- `Basics` (`basics.dfy`): shared values.
  - `Option`.
  - `Arg`: a Python setter argument, either a number or something else.
  - `Outcome`: the call returns, or it raises `ValueError`.
  - `Color`: a `QColor`. It is valid exactly when it holds three channels in 0..255.
  - `Rect` and `Point`.
  - `Trunc`: Python's `int()` on a finite number, which truncates toward zero.
- `Params` (`params.dfy`): the limits and setter arithmetic the two versions
  share. They are written identically in both files.
- `RingLight` (`ringlight.dfy`): the revised version.
  - Its configuration constants.
  - The `Overlay` class. Its fields are `thickness`, `brightness`, `color`, the
    widget `geometry`, and `updateRequested`, which records Qt's `update()`
    repaint request.
  - The rounded-frame arithmetic as pure functions, with lemmas about them.
- `RingLightOriginal` (`ringlight_original.dfy`): the original version.
  - Its configuration constants.
  - Its `Overlay` class, whose `PaintEvent` is the layer loop. That method is
    proved equal to the pure function `ComputeBloom`.
  - The bloom lemmas: 16 fills in layer-by-layer, top/bottom/left/right order;
    bands inside the surface; alpha within 0..220; depth and alpha
    non-increasing.

Numbers:

- Brightness is an exact `real`: `v / 100`.
- Python's `int()` is `Trunc`.
- Python's `//` with the positive divisor 2 agrees with Dafny's `/`.

Where the source's own docstrings promise more than the code does, the model
follows the code:

- `set_brightness_percent` documents `ValueError` for a value outside the valid
  range (ringlight.py:174-175). The code raises only for a non-numeric value
  and clamps an out-of-range number into 0..200 %.
- `set_color` documents `ValueError` for an invalid `QColor`
  (ringlight.py:220-221). The code raises only for an object that is not a
  `QColor`; an invalid one is ignored.
- The module docstring advertises thickness "1-900px" (ringlight.py:10).
  `set_thickness` itself applies only the 1 px floor and has no upper clamp.
  The 900 px limit comes only from the control panel's thickness slider, whose
  range is 1..900 (ringlight.py:479-483); the control panel is not modelled.

Other behaviour of the code worth knowing:

- Alpha is truncated (`int(255 * brightness)`), not rounded.
- The revised frame's cap `min(w, h) // 2 - 10` keeps the inner rectangle
  open only when the smaller side is at least 22 px. Below that, the 1 px
  floor on the effective thickness gives the inner rectangle a negative size.
  `InnerOpenIffLargeEnough` proves both directions.
- The original `set_color` ignores a missing or invalid colour silently.
- The original `paintEvent` has no check for an empty surface. It always emits
  16 bands.

## Model

| member | source | states |
|---|---|---|
| `Basics.Trunc` | ringlight.py:209 | `int(x)` truncates toward zero: for x ≥ 0 the result is the largest integer ≤ x; for x < 0 it is the smallest integer ≥ x |
| `Basics.TruncOfInt` | ringlight.py:209 | `int()` returns a whole number unchanged |
| `Basics.Color.IsValid` | ringlight.py:230 | a colour is valid exactly when it is an RGB colour whose three channels lie in 0..255; the invalid `QColor` is never valid (`QColor.isValid()` as the setters test it; also ringlight_original.py:171) |
| `Basics.TruncMonotone` | ringlight.py:276 | `int()` is monotone: x ≤ y gives int(x) ≤ int(y) |
| `Params.BrightnessFromPercent` | ringlight.py:186-189 | the stored brightness is always within 0.0..2.0; for v in 0..200 it is exactly v/100; below 0 it is 0.0; above 200 it is 2.0 |
| `Params.BrightnessMonotone` | ringlight_original.py:146-149 | a larger percentage never stores a smaller brightness |
| `Params.BrightnessStoreIdempotent` | ringlight_original.py:146-149 | storing the brightness read back as a percentage changes nothing |
| `Params.ThicknessFromPixels` | ringlight.py:209 | the stored thickness is at least 1, with no upper clamp; it is 1 exactly when p < 2; for p ≥ 1 it is the integer part of p |
| `Params.ThicknessKeepsWholeCounts` | ringlight_original.py:160 | a whole pixel count ≥ 1 is stored unchanged, however large |
| `Params.ThicknessStoreIdempotent` | ringlight_original.py:160 | storing a stored thickness again changes nothing |
| `RingLight.MaxSafeThickness` | ringlight.py:267-271 | the thickness cap is at least 1 and at least min(w,h)//2 - 10; once min(w,h) ≥ 22 it leaves the inner rectangle open (2·(10 + cap) ≤ min(w,h)); above the floor it is exactly min(w,h)//2 - 10 |
| `RingLight.EffectiveThickness` | ringlight.py:263-272 | given thickness ≥ 1, the effective thickness is within 1..thickness; it is ≤ min(w,h)//2 - 10 once min(w,h) ≥ 22; it equals the configured thickness exactly when that fits the cap, and otherwise equals the cap |
| `RingLight.FillAlpha` | ringlight.py:275-278 | the fill alpha is within 0..255; it is 255 once brightness ≥ 1.0 and 0 at brightness ≤ 0; in between it is the truncation of 255·brightness |
| `RingLight.FillAlphaMonotone` | ringlight.py:276-277 | a brighter setting never gives a lower alpha |
| `RingLight.InnerRadius` | ringlight.py:300-303 | the inner radius is ≥ 0 and at most 20; it is below 20 for any thickness ≥ 1; it is 0 exactly when the effective thickness is ≥ 20; below that, radius + thickness = 20 |
| `RingLight.InnerRadiusNonIncreasing` | ringlight.py:302 | a thicker border never gives a rounder inner corner |
| `RingLight.ComputeFrame` | ringlight.py:255-308 | nothing is painted exactly when width ≤ 0 or height ≤ 0; otherwise the frame carries the colour, the outer radius 20, the capped alpha and the inner radius of the effective thickness |
| `RingLight.FrameNesting` | ringlight.py:280-294 | the outer rectangle is the surface inset by 10; the inner one is inset by a further effective thickness on every side; with thickness ≥ 1 and min(w,h) ≥ 22 both are proper rectangles and the inner lies within the outer |
| `RingLight.InnerOpenIffLargeEnough` | ringlight.py:266-294 | with thickness ≥ 1, the inner rectangle has a non-negative width and height exactly when min(w,h) ≥ 22 |
| `RingLight.FullHdScenario` | ringlight.py:263-302 | on 1920x1080 at thickness 220 and brightness 1.0: effective thickness 220, alpha 255, inner radius 0, inner rectangle (230,230,1460,620) |
| `RingLight.SmallSquareScenario` | ringlight.py:266-272 | on 200x200 at thickness 900 the effective thickness is capped at 90 |
| `RingLight.Overlay.constructor` | ringlight.py:119-147 | the defaults are thickness 220, brightness 1.0 and white; the geometry is then synced once to the primary screen, if there is one |
| `RingLight.Overlay.ApplyScreenGeometry` | ringlight.py:149-165 | with no screen nothing changes; otherwise the geometry becomes the screen's, and a repaint is requested only on a change; a second call with the same screen is a no-op; the parameters are never touched, so the class invariant holds afterwards exactly when it held before |
| `RingLight.Overlay.SetBrightnessPercent` | ringlight.py:167-191 | a non-numeric value raises `ValueError` and changes nothing; a number stores the clamped brightness and requests a repaint; the other fields are unchanged |
| `RingLight.Overlay.SetThickness` | ringlight.py:193-211 | a non-numeric value raises `ValueError` and changes nothing; a number stores `max(1, int(p))` and requests a repaint; the other fields are unchanged |
| `RingLight.Overlay.SetColor` | ringlight.py:213-239 | a non-`QColor` raises `ValueError`; `None` and an invalid colour change nothing; a valid colour replaces the stored one; thickness and brightness are never touched |
| `RingLight.Overlay.PaintEvent` | ringlight.py:241-314 | the painted frame depends only on the current state; in a valid state a non-empty frame uses a valid colour and has alpha within 0..255, and once min(w,h) ≥ 22 the frame is painted and its inner rectangle is a proper rectangle within the outer one |
| `RingLightOriginal.CappedThickness` | ringlight_original.py:185-186 | given thickness ≥ 1, t is within 1..thickness; t ≤ min(w,h) once min(w,h) ≥ 1; t equals the thickness exactly when the thickness is ≤ max(1, min(w,h)), and otherwise equals max(1, min(w,h)) |
| `RingLightOriginal.BandSize` | ringlight_original.py:199 | a band reaches at least 1 pixel in, and no more than t when the multiplier is within 0..1 |
| `RingLightOriginal.BandSizeTruncates` | ringlight_original.py:199 | for t ≥ 0 and a non-negative multiplier: once t·multiplier ≥ 1 the depth is t·multiplier with its fraction dropped; below 2 it is the 1 px floor |
| `RingLightOriginal.LayerAlpha` | ringlight_original.py:201-203 | a layer's alpha is within 0..220 |
| `RingLightOriginal.LayerAlphaTruncates` | ringlight_original.py:201-203 | for non-negative inputs: below 220 the alpha is 255·brightness·intensity with its fraction dropped; at or above 220 it is 220 |
| `RingLightOriginal.EdgeBand` | ringlight_original.py:211-233 | each band keeps its edge, colour and alpha, and reaches exactly `size` pixels into the surface; a top or bottom band starts at x = 0 and spans the full width w, a left or right band starts at y = 0 and spans the full height h |
| `RingLightOriginal.LayerBands` | ringlight_original.py:198-233 | one layer paints four bands, in the order top, bottom, left, right, each in the overlay colour with the layer's depth and alpha |
| `RingLightOriginal.BloomBands` | ringlight_original.py:198-233 | the loop over n layers paints 4n bands |
| `RingLightOriginal.ComputeBloom` | ringlight_original.py:185-233 | one paint emits 4 layers × 4 edges = 16 bands, whatever the surface size |
| `RingLightOriginal.BloomBandsAt` | ringlight_original.py:198-233 | the loop over n layers emits 4n bands; band k is the edge `k % 4` band of layer `k / 4` |
| `RingLightOriginal.BloomBandsExtend` | ringlight_original.py:198-233 | one more loop pass appends that layer's four bands |
| `RingLightOriginal.BloomOrder` | ringlight_original.py:191-233 | the paint emits exactly 4 × 4 = 16 fills, layer by layer in table order, each layer as top, bottom, left, right, each band with its layer's depth and alpha |
| `RingLightOriginal.LayersDecrease` | ringlight_original.py:191-196 | the layer table's multipliers and intensities are within 0..1 and non-increasing |
| `RingLightOriginal.BandSizeMonotone` | ringlight_original.py:199 | a smaller multiplier never gives a deeper band |
| `RingLightOriginal.LayerAlphaMonotone` | ringlight_original.py:201-203 | a smaller intensity never gives a higher alpha |
| `RingLightOriginal.BloomNonIncreasing` | ringlight_original.py:192-203 | with thickness ≥ 0 and brightness ≥ 0, a later fill is never deeper or more opaque than an earlier one |
| `RingLightOriginal.BloomInsideSurface` | ringlight_original.py:199-233 | with thickness ≥ 1 on a surface of at least 1x1, every band reaches between 1 and t pixels in and lies within the w×h surface |
| `RingLightOriginal.BloomNeverOpaque` | ringlight_original.py:201-203 | every band's alpha is within 0..220, so never fully opaque |
| `RingLightOriginal.FullBrightnessScenario` | ringlight_original.py:201-203 | at brightness 2.0 the base layer's alpha is 220, the safety cap, not 255 |
| `RingLightOriginal.GradientSpansBand` | ringlight_original.py:211-233 | each gradient starts on the surface edge its band touches and ends on the band's inner side, `size` pixels in; top and bottom fades run vertically along x = 0 and left and right fades horizontally along y = 0, so every fade is perpendicular to its edge |
| `RingLightOriginal.Overlay.constructor` | ringlight_original.py:91-119 | the defaults are thickness 220, brightness 0.80 and white; the geometry is then synced once to the primary screen, if there is one |
| `RingLightOriginal.Overlay.ApplyScreenGeometry` | ringlight_original.py:121-137 | with no screen nothing changes; otherwise the geometry becomes the screen's, and a repaint is requested only on a change; repeating the call is a no-op; the class invariant holds afterwards exactly when it held before |
| `RingLightOriginal.Overlay.SetBrightnessPercent` | ringlight_original.py:139-151 | stores the clamped brightness with no type check, and changes nothing else |
| `RingLightOriginal.Overlay.SetThickness` | ringlight_original.py:153-162 | stores `max(1, int(p))` with no type check, and changes nothing else |
| `RingLightOriginal.Overlay.SetColor` | ringlight_original.py:164-177 | replaces the colour only when one is given and it is valid; otherwise all state is unchanged |
| `RingLightOriginal.Overlay.PaintEvent` | ringlight_original.py:179-235 | the loop over the layer table emits exactly the bands of `ComputeBloom` for the current state; every band's alpha is within 0..220; in a valid state on a surface of at least 1x1, every band lies within the surface |

## Left out

- Qt rendering is not modelled. This covers window flags and attributes,
  antialiasing, `QPainterPath.subtracted`, rounded-rectangle outlines, gradient
  interpolation, the `Screen` composition mode, and `fillPath`/`fillRect`. The
  model keeps only the numbers passed to these calls.
- The control panel is left out of both files. It is UI wiring: sliders, spin
  box, colour dialog, presets, the toggle/panic/close buttons, the icon and
  `main()`. In `ringlight_original.py`, the control-panel text from line 238 on
  does not parse. The presets are therefore not modelled.
- The geometry-poll timer and the event loop are not modelled.
  `ApplyScreenGeometry` is one poll step; its parameter is the primary screen's
  geometry, or `None` when there is no primary screen.
- Qt's `update()` is modelled only as the `updateRequested` flag. The repaint it
  schedules is not modelled.
- Logging is not modelled. This includes the out-of-range warnings of the
  revised setters.
- The catch-all `try/except` around the revised `paintEvent` is not modelled.
  Nothing in the modelled arithmetic raises.
- Floats are exact reals in the model, and non-finite values are not modelled.
  - Python's `255 * (v / 100.0)` and `t * 0.55` are binary floats. Near an
    exact integer they can truncate one lower than the exact value used here.
  - NaN and infinities are not modelled. In Python, `int()` of them raises, and
    `min`/`max` with NaN depend on argument order.
- RingLightOriginal.Overlay.SetBrightnessPercent accepts only a number. With
  a string, Python's `/` raises `TypeError` inside the expression itself, not
  in the setter's own logic.
- RingLightOriginal.Overlay.SetThickness accepts only a number. Python's `int()`
  would also parse a numeric string such as `"12"`.
- RingLightOriginal.Overlay.SetColor accepts only a colour or none. A truthy
  argument that is not a `QColor` fails in Python because it has no `isValid`.
- `BLOOM_LAYERS` (ringlight.py) and `MAX_ALPHA` (both files) are declared but
  read by no modelled code. They appear only as constants.
- The control panel's size and spacing constants are not modelled.
