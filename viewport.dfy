/** Output sizing shared by both skins: device pixel ratio and canvas size. */
module Viewport {

  /** `Math.min(2, window.devicePixelRatio || 1)`: a zero ratio falls back to 1. */
  function Dpr(devicePixelRatio: real): (r: real)
    requires devicePixelRatio >= 0.0
    ensures 0.0 < r <= 2.0
    ensures 0.0 < devicePixelRatio <= 2.0 ==> r == devicePixelRatio
    ensures devicePixelRatio >= 2.0 ==> r == 2.0
    ensures devicePixelRatio == 0.0 ==> r == 1.0
  {
    var ratio := if devicePixelRatio == 0.0 then 1.0 else devicePixelRatio;
    if ratio < 2.0 then ratio else 2.0
  }

  /** `Math.floor(Math.floor(css) * dpr)`: the canvas size in device pixels. */
  function CanvasSize(css: real, dpr: real): (n: nat)
    requires css >= 0.0 && dpr > 0.0
    // at ratio 1 the canvas is the floored CSS size; below one CSS pixel it is empty
    ensures dpr == 1.0 ==> n == css.Floor
    ensures css < 1.0 ==> n == 0
  {
    var cssPixels := css.Floor;
    assert css < 1.0 ==> cssPixels == 0;
    ((cssPixels as real) * dpr).Floor
  }

  /** The canvas size is the device-pixel size of the floored CSS size, rounded down. */
  lemma CanvasSizeBounds(css: real, dpr: real)
    requires css >= 0.0 && dpr > 0.0
    ensures CanvasSize(css, dpr) as real <= (css.Floor as real) * dpr < CanvasSize(css, dpr) as real + 1.0
  {
  }

  /**
   * The virtual resolution `size / dpr` recovers the CSS size up to one device
   * pixel: it never exceeds the floored CSS size and falls short of it by less
   * than one device pixel's worth of CSS pixels.
   */
  lemma VirtualResolutionRecoversCss(css: real, dpr: real)
    requires css >= 0.0 && dpr > 0.0
    ensures (CanvasSize(css, dpr) as real) / dpr <= css.Floor as real
    ensures (css.Floor as real) - 1.0 / dpr < (CanvasSize(css, dpr) as real) / dpr
  {
    var w := CanvasSize(css, dpr) as real;
    var c := css.Floor as real;
    CanvasSizeBounds(css, dpr);
    DivideBelow(w, c, dpr);
    DivideAbove(w + 1.0, c, dpr);
    assert (w + 1.0) / dpr == w / dpr + 1.0 / dpr;
  }

  lemma DivideBelow(a: real, b: real, d: real)
    requires d > 0.0 && a <= b * d
    ensures a / d <= b
  {
  }

  lemma DivideAbove(a: real, b: real, d: real)
    requires d > 0.0 && a > b * d
    ensures a / d > b
  {
  }
}
