/**
 * The compositor of js/skin.js: resize with its reentrancy guard, the
 * per-frame ingest / ping-pong selection / draw / blit, and the console API.
 * Shader compilation, uniform locations and the draw itself are GL calls and
 * appear only as events in `trace`.
 */
module Skin {
  import opened Wrappers
  import opened Gpu
  import opened Viewport
  import opened PingPong
  import opened CrtParams

  /** The noise texture is 512 x 512 pixels. */
  const NoiseSize: real := 512.0

  /**
   * The frame-derived uniform values pushed before each draw.  The noise
   * scale and the virtual resolution are derived from the resolution and the
   * ratio, so they are member functions rather than stored values.
   */
  datatype Uniforms = Uniforms(resolution: (int, int), time: real, deltaTime: real, dpr: real,
                               params: Params)
  {
    /** `uNoiseScale`: three quarters of the canvas, in noise-texture tiles. */
    function NoiseScale(): (s: (real, real))
      ensures s.0 * NoiseSize == 0.75 * resolution.0 as real && s.1 * NoiseSize == 0.75 * resolution.1 as real
      ensures resolution.0 >= 0 && resolution.1 >= 0 ==> s.0 >= 0.0 && s.1 >= 0.0
    {
      (resolution.0 as real * 0.75 / NoiseSize, resolution.1 as real * 0.75 / NoiseSize)
    }

    /** `uVirtRes`: the canvas size divided by the ratio. */
    function VirtRes(): (v: (real, real))
      requires dpr > 0.0
      ensures v.0 * dpr == resolution.0 as real && v.1 * dpr == resolution.1 as real
    {
      (resolution.0 as real / dpr, resolution.1 as real / dpr)
    }
  }

  /**
   * Uniforms of one rendered frame.  Times are in milliseconds and the
   * uniforms in seconds; `time` counts from the start of the loop and
   * `deltaTime` from the previous rendered frame, neither of them clamped.
   */
  function FrameUniforms(width: int, height: int, dpr: real, now: real, start: real,
                         lastTime: real, params: Params): (u: Uniforms)
    ensures u.resolution == (width, height) && u.dpr == dpr && u.params == params
    ensures u.time * 1000.0 == now - start && u.deltaTime * 1000.0 == now - lastTime
  {
    Uniforms((width, height), (now - start) * 0.001, (now - lastTime) * 0.001, dpr, params)
  }

  /**
   * After a resize to a CSS size, a frame's virtual resolution is that CSS
   * size, floored, less at most one device pixel's worth of CSS pixels.
   */
  lemma VirtResRecoversCss(u: Uniforms, innerWidth: real, innerHeight: real)
    requires innerWidth >= 0.0 && innerHeight >= 0.0 && u.dpr > 0.0
    requires u.resolution == (CanvasSize(innerWidth, u.dpr), CanvasSize(innerHeight, u.dpr))
    ensures u.VirtRes().0 <= innerWidth.Floor as real < u.VirtRes().0 + 1.0 / u.dpr
    ensures u.VirtRes().1 <= innerHeight.Floor as real < u.VirtRes().1 + 1.0 / u.dpr
  {
    VirtualResolutionRecoversCss(innerWidth, u.dpr);
    VirtualResolutionRecoversCss(innerHeight, u.dpr);
  }

  /** The upload of step 1 happens only when the producer returned a canvas. */
  function UploadEvents(canvas: Option<CanvasId>): seq<Event> {
    if canvas.Some? then [SourceUploaded(canvas.value)] else []
  }

  /** The events of a `resize`: guard set first, cleared last. */
  function Guarded(evs: seq<Event>): seq<Event> {
    [GuardSet] + evs + [GuardCleared]
  }

  lemma GuardedRelease(evs: seq<Event>)
    requires DeletesPrecedeCreates(evs)
    ensures DeletesPrecedeCreates(Guarded(evs))
  {
    var t := Guarded(evs);
    forall i, j | 0 <= i < j < |t| && t[i].IsCreate()
      ensures !t[j].IsDelete()
    {
      assert t[i] == evs[i - 1];
      if j <= |evs| {
        assert t[j] == evs[j - 1];
      }
    }
  }

  /**
   * Within one guarded resize no deletion follows a creation, whatever the
   * old and new handles: the old targets are gone before the new ones exist.
   */
  lemma ResizeDeletesBeforeCreating(texA: Option<Handle>, texB: Option<Handle>,
                                    fbA: Option<Handle>, fbB: Option<Handle>,
                                    texA': Handle, texB': Handle, fbA': Handle, fbB': Handle,
                                    width: int, height: int, attachA: Option<Handle>, attachB: Option<Handle>)
    ensures DeletesPrecedeCreates(Guarded(ReleaseEvents(texA, texB, fbA, fbB)
                                          + AllocEvents(texA', texB', width, height, fbA', attachA, fbB', attachB)))
  {
    var rel := ReleaseEvents(texA, texB, fbA, fbB);
    var alloc := AllocEvents(texA', texB', width, height, fbA', attachA, fbB', attachB);
    ReleaseThenAllocOrdered(rel, alloc);
    GuardedRelease(rel + alloc);
  }

  class CrtSkin {
    var ping: Ping
    var gl: GlState
    var dpr: real
    var isResizing: bool
    var width: nat
    var height: nat
    var start: real
    var lastTime: real
    var params: Params
    /** The canvas last uploaded into the source texture, if any. */
    var srcContent: Option<CanvasId>
    /** The uniform values of the last draw. */
    var uniforms: Option<Uniforms>
    var trace: seq<Event>
    /** Number of frames that rendered (passed the guard). */
    ghost var rendered: nat
    /** The texture written by the last rendered frame since the last resize. */
    ghost var lastWritten: Option<Handle>

    ghost predicate Valid()
      reads this`gl, this`ping, this`width, this`height, this`dpr, this`rendered, this`lastWritten
    {
      && WellFormed(gl)
      && ping.Sized(gl, width, height)
      && ping.Paired(gl)
      && 0.0 < dpr <= 2.0
      && (ping.flip <==> rendered % 2 == 1)
      && (lastWritten.Some? ==> lastWritten == PrevTexOf(ping.flip, ping.texA, ping.texB))
    }

    /** What `resize` needs: the pair is either still null or fully allocated. */
    ghost predicate ReadyToResize()
      reads this`gl, this`ping, this`rendered
    {
      && WellFormed(gl)
      && (ping.Unallocated() || ping.Held(gl))
      && (ping.flip <==> rendered % 2 == 1)
    }

    /**
     * Start-up of `main` once shaders, noise texture and configuration are
     * loaded: null ping pair, a first `resize`, the clock started, and the
     * first frame requested.
     */
    constructor (config: Params, devicePixelRatio: real, innerWidth: real, innerHeight: real, now: real)
      requires devicePixelRatio >= 0.0 && innerWidth >= 0.0 && innerHeight >= 0.0
      ensures Valid()
      ensures params == config && !isResizing && !ping.flip && rendered == 0
      ensures start == now && lastTime == now
      ensures dpr == Dpr(devicePixelRatio)
      ensures width == CanvasSize(innerWidth, dpr) && height == CanvasSize(innerHeight, dpr)
      ensures srcContent == None && uniforms == None && lastWritten == None
      ensures trace == Guarded(AllocEvents(ping.texA.value, ping.texB.value, width, height,
                                           ping.fbA.value, ping.texA, ping.fbB.value, ping.texB))
                       + [FrameRequested]
    {
      ping := Initial;
      gl := EmptyGl;
      dpr := 1.0;
      isResizing := false;
      width, height := 0, 0;
      start, lastTime := now, now;
      params := config;
      srcContent, uniforms := None, None;
      trace := [];
      rendered := 0;
      lastWritten := None;
      new;
      Resize(devicePixelRatio, innerWidth, innerHeight);
      trace := trace + [FrameRequested];
    }

    /** `isResizing = on`, recorded in the trace as the guard being set or cleared. */
    method SetGuard(on: bool)
      modifies this`isResizing, this`trace
      ensures isResizing == on && trace == old(trace) + [if on then GuardSet else GuardCleared]
    {
      isResizing := on;
      trace := trace + [if on then GuardSet else GuardCleared];
    }

    /**
     * `resize` with `fbB` attached to `texB`: the guard is set first and
     * cleared last; the old targets are deleted (only if `texA` exists)
     * before the new ones are created at the new canvas size.
     */
    method Resize(devicePixelRatio: real, innerWidth: real, innerHeight: real)
      requires ReadyToResize()
      requires devicePixelRatio >= 0.0 && innerWidth >= 0.0 && innerHeight >= 0.0
      modifies this`isResizing, this`dpr, this`width, this`height, this`ping, this`gl,
               this`lastWritten, this`trace
      ensures Valid() && !isResizing
      ensures dpr == Dpr(devicePixelRatio)
      ensures width == CanvasSize(innerWidth, dpr) && height == CanvasSize(innerHeight, dpr)
      ensures lastWritten == None
      ensures ping.flip == old(ping.flip)
      ensures FreshIn(old(gl), ping.texA, ping.texB, ping.fbA, ping.fbB)
      ensures old(ping.texA).Some? ==> Released(gl, old(ping.texA), old(ping.texB), old(ping.fbA), old(ping.fbB))
      ensures trace == old(trace) + Guarded(
                         ReleaseEvents(old(ping.texA), old(ping.texB), old(ping.fbA), old(ping.fbB))
                         + AllocEvents(ping.texA.value, ping.texB.value, width, height,
                                       ping.fbA.value, ping.texA, ping.fbB.value, ping.texB))
    {
      SetGuard(true);
      dpr := Dpr(devicePixelRatio);
      width := CanvasSize(innerWidth, dpr);
      height := CanvasSize(innerHeight, dpr);
      var p, g, evs := Reallocate(ping, gl, width, height);
      ping, gl, trace := p, g, trace + evs;
      lastWritten := None;
      SetGuard(false);
    }

    /**
     * `resize` as js/skin.js writes it, with `fbB` created from the old
     * `ping.fbB`.  On the first call (old `fbB` null) it completes, but `fbB`
     * is attached to nothing.  On every later call `framebufferTexture2D`
     * throws: the resize stops with the guard still set, `ping.fbB` still the
     * deleted framebuffer and a stray framebuffer created, and the skin is
     * left ready for the next resize to throw in the same way.
     */
    method ResizeAsWritten(devicePixelRatio: real, innerWidth: real, innerHeight: real)
      requires ReadyToResize()
      requires devicePixelRatio >= 0.0 && innerWidth >= 0.0 && innerHeight >= 0.0
      modifies this`isResizing, this`dpr, this`width, this`height, this`ping, this`gl,
               this`lastWritten, this`trace
      ensures ReadyToResize() && ping.Held(gl) && ping.flip == old(ping.flip)
      ensures dpr == Dpr(devicePixelRatio)
      ensures width == CanvasSize(innerWidth, dpr) && height == CanvasSize(innerHeight, dpr)
      ensures IsLiveTexture(gl, ping.texA.value, width, height) && IsLiveTexture(gl, ping.texB.value, width, height)
      ensures AttachedTo(gl, ping.fbA.value, ping.texA.value)
      // the guard stays set exactly when the call threw
      ensures isResizing <==> old(ping.fbB).Some?
      ensures !isResizing ==>
                && ping.Sized(gl, width, height) && gl.objects[ping.fbB.value].attachment == None
                && !ping.Paired(gl)
                && trace == old(trace) + Guarded(
                              AllocEvents(ping.texA.value, ping.texB.value, width, height,
                                          ping.fbA.value, ping.texA, ping.fbB.value, None))
      ensures isResizing ==>
                && ping.fbB == old(ping.fbB) && !IsLive(gl, ping.fbB.value)
                && trace == old(trace) + [GuardSet]
                            + ReleaseEvents(old(ping.texA), old(ping.texB), old(ping.fbA), old(ping.fbB))
                            + AllocEvents(ping.texA.value, ping.texB.value, width, height,
                                          ping.fbA.value, ping.texA, gl.next - 1, None)
    {
      SetGuard(true);
      dpr := Dpr(devicePixelRatio);
      width := CanvasSize(innerWidth, dpr);
      height := CanvasSize(innerHeight, dpr);
      var p, g, evs, threw := ReallocateAsWritten(ping, gl, width, height);
      ping, gl, trace := p, g, trace + evs;
      if threw {
        // the TypeError leaves `resize` here: `isResizing = false` never runs
        return;
      }
      lastWritten := None;
      SetGuard(false);
    }

    /**
     * One animation-frame callback.  Under the resize guard it only
     * re-registers.  Otherwise it updates the clock, uploads the producer's
     * canvas if there is one, reads the previous texture and writes the other
     * framebuffer, negates `flip`, blits, and re-registers.
     */
    method Frame(now: real, canvas: Option<CanvasId>)
      requires isResizing || Valid()
      modifies this`lastTime, this`srcContent, this`ping, this`uniforms, this`trace,
               this`rendered, this`lastWritten
      ensures old(Valid()) ==> Valid()
      // under the guard the frame only re-registers, and the guard stays as it was
      ensures old(isResizing) ==>
                && ping == old(ping) && rendered == old(rendered)
                && lastTime == old(lastTime) && srcContent == old(srcContent)
                && uniforms == old(uniforms) && lastWritten == old(lastWritten)
                && trace == old(trace) + [FrameRequested]
      ensures !old(isResizing) ==>
                && Valid()
                && ping == old(ping).(flip := !old(ping.flip)) && rendered == old(rendered) + 1
                && lastTime == now
                && srcContent == (if canvas.Some? then canvas else old(srcContent))
                && uniforms == Some(FrameUniforms(width, height, dpr, now, start, old(lastTime), params))
                && trace == old(trace) + UploadEvents(canvas)
                            + [Drawn(CurrFbOf(old(ping.flip), ping.fbA, ping.fbB),
                                     PrevTexOf(old(ping.flip), ping.texA, ping.texB)),
                               Blitted(CurrFbOf(old(ping.flip), ping.fbA, ping.fbB)),
                               FrameRequested]
                // the texture read is the one the previous rendered frame wrote
                && (old(lastWritten).Some? ==> PrevTexOf(old(ping.flip), ping.texA, ping.texB) == old(lastWritten))
                // the texture written is the other one, behind the framebuffer drawn to
                && lastWritten.Some? && lastWritten != PrevTexOf(old(ping.flip), ping.texA, ping.texB)
                && AttachedTo(gl, CurrFbOf(old(ping.flip), ping.fbA, ping.fbB).value, lastWritten.value)
    {
      if isResizing {
        trace := trace + [FrameRequested];
        return;
      }
      ghost var before := trace;
      Render(now, canvas);
      ghost var drawn := trace;
      trace := trace + [FrameRequested];
      assert trace == before + UploadEvents(canvas) + (drawn[|before| + |UploadEvents(canvas)|..] + [FrameRequested]);
    }

    /**
     * The rendering steps of a frame outside the guard: clock, upload,
     * ping-pong selection with `flip` negated once, draw and blit.
     */
    method Render(now: real, canvas: Option<CanvasId>)
      requires Valid()
      modifies this`lastTime, this`srcContent, this`ping, this`uniforms, this`trace,
               this`rendered, this`lastWritten
      ensures Valid()
      ensures ping == old(ping).(flip := !old(ping.flip)) && rendered == old(rendered) + 1
      ensures lastTime == now && srcContent == (if canvas.Some? then canvas else old(srcContent))
      ensures uniforms == Some(FrameUniforms(width, height, dpr, now, start, old(lastTime), params))
      ensures trace == old(trace) + UploadEvents(canvas)
                       + [Drawn(CurrFbOf(old(ping.flip), ping.fbA, ping.fbB),
                                PrevTexOf(old(ping.flip), ping.texA, ping.texB)),
                          Blitted(CurrFbOf(old(ping.flip), ping.fbA, ping.fbB))]
      ensures old(lastWritten).Some? ==> PrevTexOf(old(ping.flip), ping.texA, ping.texB) == old(lastWritten)
      ensures lastWritten.Some? && lastWritten != PrevTexOf(old(ping.flip), ping.texA, ping.texB)
      ensures AttachedTo(gl, CurrFbOf(old(ping.flip), ping.fbA, ping.fbB).value, lastWritten.value)
    {
      var previous := lastTime;
      var upload := UploadEvents(canvas);
      var content := if canvas.Some? then canvas else srcContent;
      FlipKeepsTargets(ping, gl, width, height);
      var p, prevTex, currFb := Advance(ping);
      var written := if currFb == p.fbA then p.texA else p.texB;
      assert prevTex == PrevTexOf(ping.flip, ping.texA, ping.texB);
      assert currFb == CurrFbOf(ping.flip, ping.fbA, ping.fbB);
      assert AttachedTo(gl, currFb.value, written.value) && written != prevTex;
      lastTime, srcContent, ping, rendered, lastWritten := now, content, p, rendered + 1, written;
      assert Valid();
      uniforms := Some(FrameUniforms(width, height, dpr, now, start, previous, params));
      trace := trace + upload + [Drawn(currFb, prevTex), Blitted(currFb)];
    }

    /** `CRTParams.setRgbShift(s)`. */
    method SetRgbShift(s: real)
      modifies this`params
      ensures old(Valid()) ==> Valid()
      ensures params == old(params).(rgbShift := s)
    {
      params := params.(rgbShift := s);
    }

    /** `CRTParams.setRasterMode(m)`: stores `m | 0`. */
    method SetRasterMode(m: real)
      modifies this`params
      ensures old(Valid()) ==> Valid()
      ensures params == old(params).(rasterMode := ToInt32(m))
    {
      params := params.(rasterMode := ToInt32(m));
    }

    /** `CRTParams.setTint(r, g, b)`: replaces the whole tint. */
    method SetTint(r: real, g: real, b: real)
      modifies this`params
      ensures old(Valid()) ==> Valid()
      ensures params == old(params).(tint := Tint(r, g, b))
    {
      params := params.(tint := Tint(r, g, b));
    }

    /** `CRTParams.amber()`: only tint and chroma change. */
    method Amber()
      modifies this`params
      ensures old(Valid()) ==> Valid()
      ensures params == old(params).(tint := AmberTint, chroma := PresetChroma)
    {
      params := params.(tint := AmberTint, chroma := PresetChroma);
    }

    /** `CRTParams.green()`: only tint and chroma change. */
    method Green()
      modifies this`params
      ensures old(Valid()) ==> Valid()
      ensures params == old(params).(tint := GreenTint, chroma := PresetChroma)
    {
      params := params.(tint := GreenTint, chroma := PresetChroma);
    }

    /** `CRTParams.rgb()`: only tint and chroma change. */
    method Rgb()
      modifies this`params
      ensures old(Valid()) ==> Valid()
      ensures params == old(params).(tint := WhiteTint, chroma := FullChroma)
    {
      params := params.(tint := WhiteTint, chroma := FullChroma);
    }
  }
}
