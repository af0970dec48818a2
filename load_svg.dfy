/**
 * The fitting rule of js/p5_sketches/load_svg.js: an image is scaled to fit
 * a 640 x 400 buffer keeping its aspect ratio, then drawn at 80% of that
 * size, centred.  Despite its name, `getCoverDimensions` computes a
 * contain-fit: the result never exceeds the canvas.
 */
module LoadSvg {
  import opened Wrappers
  import opened Gpu

  /** The buffer's fixed size. */
  const BufferWidth := 640.0
  const BufferHeight := 400.0

  /** Share of the fitted size actually drawn. */
  const DisplayScale := 0.8

  /**
   * `getCoverDimensions`: when the image is relatively wider than the canvas
   * it takes the canvas width, otherwise (equal ratios included) the canvas
   * height.
   */
  function CoverDimensions(imgWidth: real, imgHeight: real, canvasWidth: real, canvasHeight: real): (r: (real, real))
    requires imgWidth > 0.0 && imgHeight > 0.0 && canvasWidth > 0.0 && canvasHeight > 0.0
    // the fitted size touches the canvas on at least one side
    ensures r.0 == canvasWidth || r.1 == canvasHeight
  {
    var imgRatio := imgWidth / imgHeight;
    var canvasRatio := canvasWidth / canvasHeight;
    if imgRatio > canvasRatio then (canvasWidth, canvasWidth / imgRatio)
    else (canvasHeight * imgRatio, canvasHeight)
  }

  /** The branch taken, stated without division: wider images fill the width, others the height. */
  lemma CoverBranches(imgWidth: real, imgHeight: real, canvasWidth: real, canvasHeight: real)
    requires imgWidth > 0.0 && imgHeight > 0.0 && canvasWidth > 0.0 && canvasHeight > 0.0
    ensures imgWidth * canvasHeight > canvasWidth * imgHeight ==>
              CoverDimensions(imgWidth, imgHeight, canvasWidth, canvasHeight).0 == canvasWidth
    ensures imgWidth * canvasHeight <= canvasWidth * imgHeight ==>
              CoverDimensions(imgWidth, imgHeight, canvasWidth, canvasHeight).1 == canvasHeight
  {
    RatioOrder(imgWidth, imgHeight, canvasWidth, canvasHeight);
  }

  /** Comparing two ratios is comparing the cross products. */
  lemma RatioOrder(a: real, b: real, c: real, d: real)
    requires b > 0.0 && d > 0.0
    ensures a / b > c / d <==> a * d > c * b
  {
    var x := a / b;
    var y := c / d;
    assert a == x * b && c == y * d;
    assert a * d == x * (b * d) && c * b == y * (b * d);
    assert b * d > 0.0;
  }

  /** The fitted size keeps the image's aspect ratio. */
  lemma CoverPreservesAspect(imgWidth: real, imgHeight: real, canvasWidth: real, canvasHeight: real)
    requires imgWidth > 0.0 && imgHeight > 0.0 && canvasWidth > 0.0 && canvasHeight > 0.0
    ensures var (w, h) := CoverDimensions(imgWidth, imgHeight, canvasWidth, canvasHeight);
            w * imgHeight == h * imgWidth
  {
    var imgRatio := imgWidth / imgHeight;
    assert imgRatio * imgHeight == imgWidth;
    var canvasRatio := canvasWidth / canvasHeight;
    if imgRatio > canvasRatio {
      var h := canvasWidth / imgRatio;
      assert h * imgRatio == canvasWidth;
      assert h * imgWidth == h * (imgRatio * imgHeight);
    } else {
      assert (canvasHeight * imgRatio) * imgHeight == canvasHeight * (imgRatio * imgHeight);
    }
  }

  /**
   * The fitted size lies inside the canvas and touches it on at least one
   * side: a contain-fit.
   */
  lemma CoverFits(imgWidth: real, imgHeight: real, canvasWidth: real, canvasHeight: real)
    requires imgWidth > 0.0 && imgHeight > 0.0 && canvasWidth > 0.0 && canvasHeight > 0.0
    ensures var (w, h) := CoverDimensions(imgWidth, imgHeight, canvasWidth, canvasHeight);
            0.0 < w <= canvasWidth && 0.0 < h <= canvasHeight && (w == canvasWidth || h == canvasHeight)
  {
    var imgRatio := imgWidth / imgHeight;
    var canvasRatio := canvasWidth / canvasHeight;
    assert imgRatio > 0.0 && canvasRatio > 0.0;
    assert canvasRatio * canvasHeight == canvasWidth;
    if imgRatio > canvasRatio {
      var h := canvasWidth / imgRatio;
      assert h * imgRatio == canvasWidth;
      // h * imgRatio = canvasRatio * canvasHeight < imgRatio * canvasHeight
      assert h * imgRatio < canvasHeight * imgRatio;
      ScaleBelow(h, canvasHeight, imgRatio);
    } else {
      assert canvasHeight * imgRatio <= canvasHeight * canvasRatio;
    }
  }

  lemma ScaleBelow(x: real, y: real, k: real)
    requires k > 0.0 && x * k < y * k
    ensures x < y
  {
    assert (y - x) * k == y * k - x * k;
  }

  /** Where and how large the profile image is drawn. */
  datatype Placement = Placement(centreX: real, centreY: real, width: real, height: real)

  /**
   * The drawing step of `setup`: only when both the buffer and the image
   * exist, at 80% of the fitted size, centred on the buffer.
   */
  function ProfilePlacement(gfx: Option<CanvasId>, image: Option<(real, real)>): (d: Option<Placement>)
    requires image.Some? ==> image.value.0 > 0.0 && image.value.1 > 0.0
    ensures d.Some? <==> gfx.Some? && image.Some?
    ensures d.Some? ==> d.value.centreX == BufferWidth / 2.0 && d.value.centreY == BufferHeight / 2.0
    // the drawn size is 80% of the fitted size
    ensures d.Some? ==>
              var (w, h) := CoverDimensions(image.value.0, image.value.1, BufferWidth, BufferHeight);
              d.value.width == DisplayScale * w && d.value.height == DisplayScale * h
  {
    if gfx.Some? && image.Some? then
      var (w, h) := CoverDimensions(image.value.0, image.value.1, BufferWidth, BufferHeight);
      Some(Placement(BufferWidth / 2.0, BufferHeight / 2.0, w * DisplayScale, h * DisplayScale))
    else None
  }

  /**
   * The drawn image keeps its aspect ratio, leaves a margin inside the
   * buffer, and spans exactly 80% of the buffer on at least one side.
   */
  lemma PlacementInside(gfx: CanvasId, imgWidth: real, imgHeight: real)
    requires imgWidth > 0.0 && imgHeight > 0.0
    ensures var d := ProfilePlacement(Some(gfx), Some((imgWidth, imgHeight))).value;
            && 0.0 < d.width <= DisplayScale * BufferWidth && 0.0 < d.height <= DisplayScale * BufferHeight
            && (d.width == DisplayScale * BufferWidth || d.height == DisplayScale * BufferHeight)
            && d.width * imgHeight == d.height * imgWidth
  {
    CoverFits(imgWidth, imgHeight, BufferWidth, BufferHeight);
    CoverPreservesAspect(imgWidth, imgHeight, BufferWidth, BufferHeight);
    var (w, h) := CoverDimensions(imgWidth, imgHeight, BufferWidth, BufferHeight);
    assert (w * DisplayScale) * imgHeight == DisplayScale * (w * imgHeight);
    assert (h * DisplayScale) * imgWidth == DisplayScale * (h * imgWidth);
  }

  /** `window.getP5Size`: both branches report 640 x 400, so the size never depends on `gfx`. */
  function GetP5Size(gfx: Option<CanvasId>): (size: (real, real))
    ensures size == (BufferWidth, BufferHeight)
  {
    if gfx.Some? then (BufferWidth, BufferHeight) else (640.0, 400.0)
  }
}
