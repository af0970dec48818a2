/**
 * The compositor of the example page (example/js/skin.js): the same
 * ping-pong persistence loop as the main skin, but with no resize guard, no
 * frame-to-frame time step, no noise texture and a nine-field parameter
 * record.  Its `resize` attaches `fbB` to `texB`.
 */
module ExampleSkin {
  import opened Wrappers
  import opened Gpu
  import opened Viewport
  import opened PingPong
  import opened CrtParams

  /** The parameter record of the example page. */
  datatype BasicParams = BasicParams(
    curvature: real, rasterStrength: real, chroma: real, tint: Tint,
    brightness: real, ambient: real, flicker: real, persistence: real,
    rasterMode: int)

  /** The defaults the example page starts from. */
  const Defaults := BasicParams(0.10, 0.45, 1.0, WhiteTint, 1.0, 0.05, 0.01, 0.04, 0)

  /** The uniform values pushed before each draw of the example page. */
  datatype BasicUniforms = BasicUniforms(resolution: (int, int), time: real, dpr: real,
                                         params: BasicParams)
  {
    /** `uVirtRes`: the canvas size divided by the ratio. */
    function VirtRes(): (v: (real, real))
      requires dpr > 0.0
      ensures v.0 * dpr == resolution.0 as real && v.1 * dpr == resolution.1 as real
    {
      (resolution.0 as real / dpr, resolution.1 as real / dpr)
    }
  }

  /**
   * After a resize to a CSS size, the virtual grid is that CSS size, floored,
   * less at most one device pixel's worth of CSS pixels.
   */
  lemma VirtResRecoversCss(u: BasicUniforms, innerWidth: real, innerHeight: real)
    requires innerWidth >= 0.0 && innerHeight >= 0.0 && u.dpr > 0.0
    requires u.resolution == (CanvasSize(innerWidth, u.dpr), CanvasSize(innerHeight, u.dpr))
    ensures u.VirtRes().0 <= innerWidth.Floor as real < u.VirtRes().0 + 1.0 / u.dpr
    ensures u.VirtRes().1 <= innerHeight.Floor as real < u.VirtRes().1 + 1.0 / u.dpr
  {
    VirtualResolutionRecoversCss(innerWidth, u.dpr);
    VirtualResolutionRecoversCss(innerHeight, u.dpr);
  }

  /** Uniforms of one frame: `time` in seconds since the loop started (`now` is in milliseconds). */
  function FrameUniforms(width: int, height: int, dpr: real, now: real, start: real,
                         params: BasicParams): (u: BasicUniforms)
    ensures u.resolution == (width, height) && u.dpr == dpr && u.params == params
    ensures u.time * 1000.0 == now - start
  {
    BasicUniforms((width, height), (now - start) * 0.001, dpr, params)
  }

  class BasicSkin {
    var ping: Ping
    var gl: GlState
    var dpr: real
    var width: nat
    var height: nat
    var start: real
    var params: BasicParams
    /** The canvas last uploaded into the source texture, if any. */
    var srcContent: Option<CanvasId>
    /** The uniform values of the last draw. */
    var uniforms: Option<BasicUniforms>
    var trace: seq<Event>
    /** Number of frames drawn. */
    ghost var rendered: nat
    /** The texture written by the last frame since the last resize. */
    ghost var lastWritten: Option<Handle>

    ghost predicate Valid()
      reads this
    {
      && WellFormed(gl)
      && ping.Sized(gl, width, height)
      && ping.Paired(gl)
      && 0.0 < dpr <= 2.0
      && (ping.flip <==> rendered % 2 == 1)
      && (lastWritten.Some? ==> lastWritten == PrevTexOf(ping.flip, ping.texA, ping.texB))
    }

    /** What `resize` needs: the pair is either still null or fully allocated. */
    ghost predicate ReadyToResize()
      reads this
    {
      && WellFormed(gl)
      && (ping.Unallocated() || ping.Held(gl))
      && (ping.flip <==> rendered % 2 == 1)
    }

    /**
     * Start-up of the page: null ping pair, default parameters, a first
     * `resize`, the clock started after it, and the first frame requested.
     */
    constructor (devicePixelRatio: real, innerWidth: real, innerHeight: real, now: real)
      requires devicePixelRatio >= 0.0 && innerWidth >= 0.0 && innerHeight >= 0.0
      ensures Valid()
      ensures params == Defaults && !ping.flip && rendered == 0 && start == now
      ensures dpr == Dpr(devicePixelRatio)
      ensures width == CanvasSize(innerWidth, dpr) && height == CanvasSize(innerHeight, dpr)
      ensures srcContent == None && uniforms == None && lastWritten == None
      ensures trace == AllocEvents(ping.texA.value, ping.texB.value, width, height,
                                   ping.fbA.value, ping.texA, ping.fbB.value, ping.texB)
                       + [FrameRequested]
    {
      ping := Initial;
      gl := EmptyGl;
      dpr := 1.0;
      width, height := 0, 0;
      start := now;
      params := Defaults;
      srcContent, uniforms := None, None;
      trace := [];
      rendered := 0;
      lastWritten := None;
      new;
      Resize(devicePixelRatio, innerWidth, innerHeight);
      trace := trace + [FrameRequested];
    }

    /**
     * `resize`: the old targets are deleted (only if `texA` exists) before
     * the new ones are created at the new canvas size, `fbA` on `texA` and
     * `fbB` on `texB`.  There is no guard: frames never see a half-built pair
     * because nothing runs between the statements.
     */
    method Resize(devicePixelRatio: real, innerWidth: real, innerHeight: real)
      requires ReadyToResize()
      requires devicePixelRatio >= 0.0 && innerWidth >= 0.0 && innerHeight >= 0.0
      modifies this`dpr, this`width, this`height, this`ping, this`gl, this`lastWritten, this`trace
      ensures Valid()
      ensures dpr == Dpr(devicePixelRatio)
      ensures width == CanvasSize(innerWidth, dpr) && height == CanvasSize(innerHeight, dpr)
      ensures lastWritten == None && ping.flip == old(ping.flip)
      ensures FreshIn(old(gl), ping.texA, ping.texB, ping.fbA, ping.fbB)
      ensures old(ping.texA).Some? ==> Released(gl, old(ping.texA), old(ping.texB), old(ping.fbA), old(ping.fbB))
      ensures trace == old(trace)
                       + ReleaseEvents(old(ping.texA), old(ping.texB), old(ping.fbA), old(ping.fbB))
                       + AllocEvents(ping.texA.value, ping.texB.value, width, height,
                                     ping.fbA.value, ping.texA, ping.fbB.value, ping.texB)
      ensures DeletesPrecedeCreates(trace[|old(trace)|..])
    {
      dpr := Dpr(devicePixelRatio);
      width := CanvasSize(innerWidth, dpr);
      height := CanvasSize(innerHeight, dpr);
      var p, g, evs := Reallocate(ping, gl, width, height);
      ping, gl := p, g;
      lastWritten := None;
      trace := trace + evs;
      assert trace[|old(trace)|..] == evs;
    }

    /**
     * One animation-frame callback: upload the producer's canvas if there is
     * one, read the previous texture and write the other framebuffer, negate
     * `flip`, blit, and re-register.  Every call renders.
     */
    method Frame(now: real, canvas: Option<CanvasId>)
      requires Valid()
      modifies this`srcContent, this`ping, this`uniforms, this`trace, this`rendered, this`lastWritten
      ensures Valid()
      ensures ping == old(ping).(flip := !old(ping.flip)) && rendered == old(rendered) + 1
      ensures srcContent == (if canvas.Some? then canvas else old(srcContent))
      ensures uniforms == Some(FrameUniforms(width, height, dpr, now, start, params))
      ensures trace == old(trace)
                       + (if canvas.Some? then [SourceUploaded(canvas.value)] else [])
                       + [Drawn(CurrFbOf(old(ping.flip), ping.fbA, ping.fbB),
                                PrevTexOf(old(ping.flip), ping.texA, ping.texB)),
                          Blitted(CurrFbOf(old(ping.flip), ping.fbA, ping.fbB)),
                          FrameRequested]
      // the texture read is the one the previous frame wrote
      ensures old(lastWritten).Some? ==> PrevTexOf(old(ping.flip), ping.texA, ping.texB) == old(lastWritten)
      // the texture written is the other one, behind the framebuffer drawn to
      ensures lastWritten.Some? && lastWritten != PrevTexOf(old(ping.flip), ping.texA, ping.texB)
      ensures AttachedTo(gl, CurrFbOf(old(ping.flip), ping.fbA, ping.fbB).value, lastWritten.value)
    {
      var upload: seq<Event> := [];
      if canvas.Some? {
        srcContent := canvas;
        upload := [SourceUploaded(canvas.value)];
      }
      var p, prevTex, currFb := Advance(ping);
      var written := if currFb == p.fbA then p.texA else p.texB;
      ping, rendered, lastWritten := p, rendered + 1, written;
      uniforms := Some(FrameUniforms(width, height, dpr, now, start, params));
      trace := trace + upload + [Drawn(currFb, prevTex), Blitted(currFb), FrameRequested];
    }

    /** `CRTParams.setRasterMode(m)`: stores `m | 0`. */
    method SetRasterMode(m: real)
      modifies this`params
      ensures old(Valid()) ==> Valid()
      ensures params == old(params).(rasterMode := ToInt32(m))
    {
      params := params.(rasterMode := ToInt32(m));
    }

    /** `CRTParams.setTint(r, g, b)`: replaces the whole tint. */
    method SetTint(r: real, g: real, b: real)
      modifies this`params
      ensures old(Valid()) ==> Valid()
      ensures params == old(params).(tint := Tint(r, g, b))
    {
      params := params.(tint := Tint(r, g, b));
    }

    /** `CRTParams.amber()`: only tint and chroma change. */
    method Amber()
      modifies this`params
      ensures old(Valid()) ==> Valid()
      ensures params == old(params).(tint := AmberTint, chroma := PresetChroma)
    {
      params := params.(tint := AmberTint, chroma := PresetChroma);
    }

    /** `CRTParams.green()`: only tint and chroma change. */
    method Green()
      modifies this`params
      ensures old(Valid()) ==> Valid()
      ensures params == old(params).(tint := GreenTint, chroma := PresetChroma)
    {
      params := params.(tint := GreenTint, chroma := PresetChroma);
    }

    /** `CRTParams.rgb()`: only tint and chroma change. */
    method Rgb()
      modifies this`params
      ensures old(Valid()) ==> Valid()
      ensures params == old(params).(tint := WhiteTint, chroma := FullChroma)
    {
      params := params.(tint := WhiteTint, chroma := FullChroma);
    }
  }
}
