/**
 * The shader parameter record and the arithmetic behind the console setters:
 * `m | 0` (ECMAScript ToInt32) and the colour presets.
 */
module CrtParams {
  import opened Wrappers

  datatype Tint = Tint(r: real, g: real, b: real)

  /** Presets of the console API (`amber`, `green`, `rgb`). */
  const AmberTint := Tint(1.0, 0.73, 0.2)
  const GreenTint := Tint(0.65, 1.0, 0.65)
  const WhiteTint := Tint(1.0, 1.0, 1.0)
  const PresetChroma: real := 0.35
  const FullChroma: real := 1.0

  /** Raster modes as `uRasterMode` reads them: 0 scanline, 1 subpixel, 2 pixel. */
  datatype RasterMode = Scanline | Subpixel | Pixel

  function RasterModeOf(m: int): (r: Option<RasterMode>)
    ensures r.Some? <==> 0 <= m <= 2
    ensures r == Some(Scanline) <==> m == 0
    ensures r == Some(Subpixel) <==> m == 1
    ensures r == Some(Pixel) <==> m == 2
  {
    if m == 0 then Some(Scanline)
    else if m == 1 then Some(Subpixel)
    else if m == 2 then Some(Pixel)
    else None
  }

  /**
   * The parameter record of js/skin.js, loaded from the configuration file.
   * `rasterMode` is kept as an integer, which is what `setRasterMode` stores.
   */
  datatype Params = Params(
    curvature: real, rasterStrength: real, chroma: real, tint: Tint,
    brightness: real, ambient: real, flicker: real, persistence: real,
    rasterMode: int, horizontalSync: real, glowingLine: real,
    staticNoise: real, jitter: real, rgbShift: real)

  const TwoTo31: int := 0x8000_0000
  const TwoTo32: int := 0x1_0000_0000

  /** Truncation toward zero, the first step of ToInt32. */
  function Trunc(x: real): (r: int)
    ensures 0.0 <= x ==> r >= 0 && r as real <= x < r as real + 1.0
    ensures x <= 0.0 ==> r <= 0 && r as real - 1.0 < x <= r as real
  {
    if x >= 0.0 then x.Floor else -((-x).Floor)
  }

  /**
   * `x | 0` for a finite number: truncate toward zero, then wrap into the
   * signed 32-bit range.  The result is the unique int32 congruent to the
   * truncated value modulo 2^32.
   */
  function ToInt32(x: real): (r: int)
    ensures -TwoTo31 <= r < TwoTo31
    ensures (r - Trunc(x)) % TwoTo32 == 0
  {
    var k := Trunc(x) % TwoTo32;
    if k >= TwoTo31 then k - TwoTo32 else k
  }

  /** A value whose truncation is already an int32 keeps that truncation. */
  lemma ToInt32InRange(x: real)
    requires -TwoTo31 <= Trunc(x) < TwoTo31
    ensures ToInt32(x) == Trunc(x)
  {
    var t := Trunc(x);
    var r := ToInt32(x);
    var d := r - t;
    assert d % TwoTo32 == 0;
    assert -TwoTo32 < d < TwoTo32;
    assert d == 0;
  }

  /** `setRasterMode(1.7)` stores 1: non-negative modes are floored. */
  lemma RasterModeFloors(m: real)
    requires 0.0 <= m < TwoTo31 as real
    ensures ToInt32(m) == m.Floor
  {
    ToInt32InRange(m);
  }

  /**
   * The mode the shader sees after `setRasterMode(m)`, for any `m` whose
   * truncation fits in 32 bits: (-1, 1) selects scanline, [1, 2) subpixel,
   * [2, 3) pixel, and nothing else selects a mode.
   */
  lemma RasterModeSelected(m: real)
    requires -TwoTo31 as real < m < TwoTo31 as real
    ensures RasterModeOf(ToInt32(m)) == Some(Scanline) <==> -1.0 < m < 1.0
    ensures RasterModeOf(ToInt32(m)) == Some(Subpixel) <==> 1.0 <= m < 2.0
    ensures RasterModeOf(ToInt32(m)) == Some(Pixel) <==> 2.0 <= m < 3.0
    ensures RasterModeOf(ToInt32(m)).Some? <==> -1.0 < m < 3.0
  {
    ToInt32InRange(m);
  }

  /** `(m | 0) | 0 == m | 0`. */
  lemma ToInt32Idempotent(x: real)
    ensures ToInt32(ToInt32(x) as real) == ToInt32(x)
  {
    var r := ToInt32(x);
    assert Trunc(r as real) == r;
    ToInt32InRange(r as real);
  }
}
