/**
 * The persistence buffer shared by both skins: two render targets (texture +
 * framebuffer) and a `flip` flag choosing which one the next frame reads and
 * which it writes.
 */
module PingPong {
  import opened Wrappers
  import opened Gpu

  /** The "previous" texture a frame reads for the given flag. */
  function PrevTexOf(flip: bool, texA: Option<Handle>, texB: Option<Handle>): (r: Option<Handle>)
    ensures r == texA || r == texB
    ensures texA != texB ==> (r == texB <==> flip)
  {
    if flip then texB else texA
  }

  /** The framebuffer a frame writes for the given flag. */
  function CurrFbOf(flip: bool, fbA: Option<Handle>, fbB: Option<Handle>): (r: Option<Handle>)
    ensures r == fbA || r == fbB
    ensures fbA != fbB ==> (r == fbA <==> flip)
  {
    if flip then fbA else fbB
  }

  /** What a resize deletes: all four old targets, and only if `texA` exists. */
  function ReleaseEvents(texA: Option<Handle>, texB: Option<Handle>, fbA: Option<Handle>, fbB: Option<Handle>): seq<Event> {
    if texA.Some? then
      [TextureDeleted(texA), TextureDeleted(texB), FramebufferDeleted(fbA), FramebufferDeleted(fbB)]
    else
      []
  }

  /** The four old targets are deleted (all non-null ones). */
  ghost predicate Released(g: GlState, texA: Option<Handle>, texB: Option<Handle>,
                           fbA: Option<Handle>, fbB: Option<Handle>)
  {
    && (texA.Some? ==> !IsLive(g, texA.value))
    && (texB.Some? ==> !IsLive(g, texB.value))
    && (fbA.Some? ==> !IsLive(g, fbA.value))
    && (fbB.Some? ==> !IsLive(g, fbB.value))
  }

  /** None of the four handles was in use in `g`. */
  ghost predicate FreshIn(g: GlState, texA: Option<Handle>, texB: Option<Handle>,
                          fbA: Option<Handle>, fbB: Option<Handle>)
  {
    && texA.Some? && texA.value !in g.objects
    && texB.Some? && texB.value !in g.objects
    && fbA.Some? && fbA.value !in g.objects
    && fbB.Some? && fbB.value !in g.objects
  }

  /** What a resize creates, in source order. */
  function AllocEvents(texA: Handle, texB: Handle, width: int, height: int,
                       fbA: Handle, attachA: Option<Handle>, fbB: Handle, attachB: Option<Handle>): seq<Event> {
    [TextureCreated(texA, width, height), TextureCreated(texB, width, height),
     FramebufferCreated(fbA, attachA), FramebufferCreated(fbB, attachB)]
  }

  lemma ReleaseThenAllocOrdered(rel: seq<Event>, alloc: seq<Event>)
    requires forall i :: 0 <= i < |rel| ==> rel[i].IsDelete()
    requires forall i :: 0 <= i < |alloc| ==> !alloc[i].IsDelete()
    ensures DeletesPrecedeCreates(rel + alloc)
  {
  }

  /** A resize's record, appended call by call: the deletions, then four creations. */
  lemma ReleaseThenFourOrdered(texA: Option<Handle>, texB: Option<Handle>, fbA: Option<Handle>, fbB: Option<Handle>,
                               a: Event, b: Event, c: Event, d: Event)
    requires !a.IsDelete() && !b.IsDelete() && !c.IsDelete() && !d.IsDelete()
    ensures ReleaseEvents(texA, texB, fbA, fbB) + [a] + [b] + [c] + [d] == ReleaseEvents(texA, texB, fbA, fbB) + [a, b, c, d]
    ensures DeletesPrecedeCreates(ReleaseEvents(texA, texB, fbA, fbB) + [a, b, c, d])
  {
    var rel := ReleaseEvents(texA, texB, fbA, fbB);
    assert rel + [a] + [b] + [c] + [d] == rel + [a, b, c, d];
    ReleaseThenAllocOrdered(rel, [a, b, c, d]);
  }

  /**
   * With `fbA` drawing into `texA` and `fbB` into `texB`, the texture a frame
   * writes is the one the next frame (with the flag negated) reads, the two
   * frames write different framebuffers, and no frame reads the texture it
   * writes.
   */
  lemma FeedbackAlternates(g: GlState, texA: Handle, texB: Handle, fbA: Handle, fbB: Handle, flip: bool)
    requires AttachedTo(g, fbA, texA) && AttachedTo(g, fbB, texB)
    requires texA != texB && fbA != fbB
    ensures AttachedTo(g, CurrFbOf(flip, Some(fbA), Some(fbB)).value, PrevTexOf(!flip, Some(texA), Some(texB)).value)
    ensures CurrFbOf(flip, Some(fbA), Some(fbB)) != CurrFbOf(!flip, Some(fbA), Some(fbB))
    ensures !AttachedTo(g, CurrFbOf(flip, Some(fbA), Some(fbB)).value, PrevTexOf(flip, Some(texA), Some(texB)).value)
  {
  }

  /**
   * If `fbB` is not attached to `texB`, a frame with the flag clear writes
   * `fbB`, yet the next frame reads `texB`: the written image is never fed back.
   */
  lemma MisattachedFbBBreaksFeedback(g: GlState, texA: Handle, texB: Handle, fbA: Handle, fbB: Handle)
    requires fbB in g.objects && g.objects[fbB].Framebuffer? && g.objects[fbB].attachment != Some(texB)
    ensures CurrFbOf(false, Some(fbA), Some(fbB)) == Some(fbB)
    ensures PrevTexOf(true, Some(texA), Some(texB)) == Some(texB)
    ensures !AttachedTo(g, fbB, texB)
  {
  }

  /**
   * The `ping` record: two render targets (null until the first resize) and
   * the flag choosing which one the next frame reads.
   */
  datatype Ping = Ping(texA: Option<Handle>, texB: Option<Handle>,
                       fbA: Option<Handle>, fbB: Option<Handle>, flip: bool)
  {
    predicate Unallocated() {
      texA.None? && texB.None? && fbA.None? && fbB.None?
    }

    /** All four targets exist in `g`: two distinct textures, two distinct framebuffers. */
    predicate Held(g: GlState) {
      && texA.Some? && texB.Some? && fbA.Some? && fbB.Some?
      && texA.value in g.objects && g.objects[texA.value].Texture?
      && texB.value in g.objects && g.objects[texB.value].Texture?
      && fbA.value in g.objects && g.objects[fbA.value].Framebuffer?
      && fbB.value in g.objects && g.objects[fbB.value].Framebuffer?
      && texA.value != texB.value && fbA.value != fbB.value
    }

    /** All four targets are live and both textures are `width` x `height`. */
    predicate Sized(g: GlState, width: int, height: int) {
      && Held(g)
      && IsLiveTexture(g, texA.value, width, height)
      && IsLiveTexture(g, texB.value, width, height)
      && IsLiveFramebuffer(g, fbA.value)
      && IsLiveFramebuffer(g, fbB.value)
    }

    /** `fbA` renders into `texA` and `fbB` into `texB`. */
    predicate Paired(g: GlState) {
      Held(g) && AttachedTo(g, fbA.value, texA.value) && AttachedTo(g, fbB.value, texB.value)
    }
  }

  /** Negating `flip` leaves the targets, their sizes and their pairing alone. */
  lemma FlipKeepsTargets(p: Ping, g: GlState, width: int, height: int)
    requires p.Sized(g, width, height) && p.Paired(g)
    ensures p.(flip := !p.flip).Sized(g, width, height) && p.(flip := !p.flip).Paired(g)
  {
  }

  /** `{ texA: null, texB: null, fbA: null, fbB: null, flip: false }` */
  const Initial := Ping(None, None, None, None, false)

  /**
   * Frame selection: read the previous texture, pick the framebuffer to
   * write, then negate `flip` exactly once; the targets stay as they are.
   */
  method Advance(p: Ping) returns (p': Ping, prevTex: Option<Handle>, currFb: Option<Handle>)
    ensures p' == p.(flip := !p.flip)
    ensures !p.flip ==> prevTex == p.texA && currFb == p.fbB
    ensures p.flip ==> prevTex == p.texB && currFb == p.fbA
  {
    prevTex := if p.flip then p.texB else p.texA;
    currFb := if p.flip then p.fbA else p.fbB;
    p' := p.(flip := !p.flip);
  }

  /** The four deletions of a resize, run only when `texA` is non-null. */
  method Release(p: Ping, g: GlState) returns (g': GlState, evs: seq<Event>)
    requires WellFormed(g) && (p.Unallocated() || p.Held(g))
    ensures WellFormed(g') && g'.next == g.next && g'.objects.Keys == g.objects.Keys
    ensures p.texA.Some? ==> Released(g', p.texA, p.texB, p.fbA, p.fbB)
    ensures p.texA.None? ==> g' == g
    ensures forall x :: x in g.objects && Some(x) !in [p.texA, p.texB, p.fbA, p.fbB] ==> g'.objects[x] == g.objects[x]
    ensures forall x :: x in g.objects ==> g'.objects[x].Texture? == g.objects[x].Texture?
    ensures evs == ReleaseEvents(p.texA, p.texB, p.fbA, p.fbB)
  {
    g', evs := g, [];
    if p.texA.Some? {
      var d := DeleteTexture(g', p.texA);
      g', evs := d.gl, evs + [d.event];
      d := DeleteTexture(g', p.texB);
      g', evs := d.gl, evs + [d.event];
      d := DeleteFramebuffer(g', p.fbA);
      g', evs := d.gl, evs + [d.event];
      d := DeleteFramebuffer(g', p.fbB);
      g', evs := d.gl, evs + [d.event];
    }
  }

  /**
   * Recreate the pair at a new size, deleting the old targets first (only
   * when `texA` exists), with `fbA` attached to `texA` and `fbB` to `texB`.
   * Objects other than the four old targets are left as they were.  The
   * events are those the GL calls return, in the order the calls are made.
   */
  method Reallocate(p: Ping, g: GlState, width: int, height: int) returns (p': Ping, g': GlState, evs: seq<Event>)
    requires WellFormed(g) && (p.Unallocated() || p.Held(g))
    ensures WellFormed(g') && p'.Sized(g', width, height) && p'.Paired(g') && p'.flip == p.flip
    ensures FreshIn(g, p'.texA, p'.texB, p'.fbA, p'.fbB)
    ensures p.texA.Some? ==> Released(g', p.texA, p.texB, p.fbA, p.fbB)
    ensures forall x :: x in g.objects && Some(x) !in [p.texA, p.texB, p.fbA, p.fbB] ==>
              x in g'.objects && g'.objects[x] == g.objects[x]
    ensures evs == ReleaseEvents(p.texA, p.texB, p.fbA, p.fbB)
                   + AllocEvents(p'.texA.value, p'.texB.value, width, height, p'.fbA.value, p'.texA, p'.fbB.value, p'.texB)
    ensures DeletesPrecedeCreates(evs)
  {
    var g1, rel := Release(p, g);
    evs := rel;
    var tA := CreateRenderTexture(g1, width, height);
    evs := evs + [tA.event];
    var tB := CreateRenderTexture(tA.gl, width, height);
    evs := evs + [tB.event];
    var fA := CreateFramebuffer(tB.gl, Some(tA.handle));
    evs := evs + [fA.event];
    var fB := CreateFramebuffer(fA.gl, Some(tB.handle));
    evs := evs + [fB.event];
    p' := Ping(Some(tA.handle), Some(tB.handle), Some(fA.handle), Some(fB.handle), p.flip);
    g' := fB.gl;
    ReleaseThenFourOrdered(p.texA, p.texB, p.fbA, p.fbB, tA.event, tB.event, fA.event, fB.event);
  }

  /**
   * The resize of js/skin.js as written: `fbB` is created from the old `fbB`
   * instead of from `texB`, and `ping` is updated field by field as each
   * call returns.  On the first call the old `fbB` is null: the new `fbB` is
   * attached to nothing, so the pair is never paired.  On every later call
   * the old `fbB` is a (deleted) framebuffer: `framebufferTexture2D` throws
   * after a stray framebuffer has been created, `ping.fbB` keeps the deleted
   * framebuffer, and the pair stays held, so the next call throws again.
   */
  method ReallocateAsWritten(p: Ping, g: GlState, width: int, height: int)
      returns (p': Ping, g': GlState, evs: seq<Event>, threw: bool)
    requires WellFormed(g) && (p.Unallocated() || p.Held(g))
    ensures WellFormed(g') && p'.Held(g') && p'.flip == p.flip
    ensures threw <==> p.fbB.Some?
    ensures IsLiveTexture(g', p'.texA.value, width, height) && IsLiveTexture(g', p'.texB.value, width, height)
    ensures IsLiveFramebuffer(g', p'.fbA.value) && AttachedTo(g', p'.fbA.value, p'.texA.value)
    ensures FreshIn(g, p'.texA, p'.texB, p'.fbA, Some(g'.next - 1))
    // the last object created is a live framebuffer with no attachment
    ensures g'.next - 1 in g'.objects && g'.objects[g'.next - 1] == Framebuffer(None, true)
    ensures !threw ==> p'.fbB == Some(g'.next - 1) && p'.Sized(g', width, height) && !p'.Paired(g')
    ensures threw ==> p'.fbB == p.fbB && Released(g', p.texA, p.texB, p.fbA, p.fbB)
    ensures evs == ReleaseEvents(p.texA, p.texB, p.fbA, p.fbB)
                   + AllocEvents(p'.texA.value, p'.texB.value, width, height, p'.fbA.value, p'.texA, g'.next - 1, None)
    ensures DeletesPrecedeCreates(evs)
  {
    var g1, rel := Release(p, g);
    evs := rel;
    p' := p;
    var tA := CreateRenderTexture(g1, width, height);
    p', evs := p'.(texA := Some(tA.handle)), evs + [tA.event];
    var tB := CreateRenderTexture(tA.gl, width, height);
    p', evs := p'.(texB := Some(tB.handle)), evs + [tB.event];
    var fA := CreateFramebuffer(tB.gl, p'.texA);
    p', evs := p'.(fbA := Some(fA.handle)), evs + [fA.event];
    var fB := CreateFramebuffer(fA.gl, p'.fbB);
    g', evs, threw := fB.gl, evs + [fB.event], fB.threw;
    if !threw {
      p' := p'.(fbB := Some(fB.handle));
    }
    ReleaseThenFourOrdered(p.texA, p.texB, p.fbA, p.fbB, tA.event, tB.event, fA.event, fB.event);
  }
}
