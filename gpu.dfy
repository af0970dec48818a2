/**
 * WebGL objects as abstract handles.  A texture carries its pixel size and a
 * live bit; a framebuffer carries the handle it was given as its colour
 * attachment and a live bit.  The GL context itself is foreign code, so its
 * object table is modelled as a value and each GL call as a function on it.
 */
module Gpu {
  import opened Wrappers

  type Handle = nat
  type CanvasId = nat

  datatype GlObject =
    | Texture(width: int, height: int, live: bool)
    | Framebuffer(attachment: Option<Handle>, live: bool)

  /** Every object ever created, live or deleted, and the next fresh handle. */
  datatype GlState = GlState(objects: map<Handle, GlObject>, next: Handle)

  /** Observable effects, in the order a skin performs them. */
  datatype Event =
    | GuardSet
    | GuardCleared
    | TextureDeleted(texture: Option<Handle>)
    | FramebufferDeleted(framebuffer: Option<Handle>)
    | TextureCreated(created: Handle, width: int, height: int)
    | FramebufferCreated(created: Handle, attached: Option<Handle>)
    | SourceUploaded(canvas: CanvasId)
    | Drawn(target: Option<Handle>, previous: Option<Handle>)
    | Blitted(source: Option<Handle>)
    | FrameRequested
  {
    predicate IsDelete() { TextureDeleted? || FramebufferDeleted? }
    predicate IsCreate() { TextureCreated? || FramebufferCreated? }
  }

  const EmptyGl := GlState(map[], 1)

  /** Handles are never reused: all of them lie below `next`. */
  ghost predicate WellFormed(g: GlState) {
    forall h :: h in g.objects ==> h < g.next
  }

  predicate IsLiveTexture(g: GlState, h: Handle, width: int, height: int) {
    h in g.objects && g.objects[h] == Texture(width, height, true)
  }

  predicate IsLiveFramebuffer(g: GlState, h: Handle) {
    h in g.objects && g.objects[h].Framebuffer? && g.objects[h].live
  }

  predicate IsLive(g: GlState, h: Handle) {
    h in g.objects && g.objects[h].live
  }

  /** `fb` is a framebuffer whose colour attachment is the texture `tex`. */
  predicate AttachedTo(g: GlState, fb: Handle, tex: Handle) {
    fb in g.objects && g.objects[fb].Framebuffer? && g.objects[fb].attachment == Some(tex)
  }

  /**
   * What a GL helper that creates an object leaves behind: the new object
   * table, the handle it created, the event it records, and whether it threw
   * after creating the object.
   */
  datatype Created = Created(gl: GlState, handle: Handle, event: Event, threw: bool)

  /** What a delete call leaves behind: the new object table and the event it records. */
  datatype Deleted = Deleted(gl: GlState, event: Event)

  /** createRenderTexture: a fresh texture of the given size. */
  function CreateRenderTexture(g: GlState, width: int, height: int): (r: Created)
    requires WellFormed(g)
    ensures WellFormed(r.gl) && r.handle !in g.objects && !r.threw
    ensures IsLiveTexture(r.gl, r.handle, width, height)
    ensures forall h :: h in g.objects ==> h in r.gl.objects && r.gl.objects[h] == g.objects[h]
    ensures r.gl.objects.Keys == g.objects.Keys + {r.handle} && r.gl.next == r.handle + 1
    ensures r.event == TextureCreated(r.handle, width, height)
  {
    Created(GlState(g.objects[g.next := Texture(width, height, true)], g.next + 1), g.next,
            TextureCreated(g.next, width, height), false)
  }

  /**
   * `tex` names a framebuffer.  `framebufferTexture2D` takes a `WebGLTexture?`,
   * and the Web IDL conversion of its argument rejects a framebuffer with a
   * TypeError.
   */
  predicate NotATexture(g: GlState, tex: Option<Handle>) {
    tex.Some? && tex.value in g.objects && g.objects[tex.value].Framebuffer?
  }

  /**
   * createFramebuffer: `createFramebuffer` always makes a fresh framebuffer;
   * `framebufferTexture2D` then attaches whatever texture handle (or null) the
   * caller passed, or throws when the handle is a framebuffer, leaving the
   * new framebuffer with no attachment.
   */
  function CreateFramebuffer(g: GlState, tex: Option<Handle>): (r: Created)
    requires WellFormed(g)
    ensures WellFormed(r.gl) && r.handle !in g.objects
    ensures r.threw <==> NotATexture(g, tex)
    ensures r.handle in r.gl.objects && r.gl.objects[r.handle] == Framebuffer(if r.threw then None else tex, true)
    ensures forall h :: h in g.objects ==> h in r.gl.objects && r.gl.objects[h] == g.objects[h]
    ensures r.gl.objects.Keys == g.objects.Keys + {r.handle} && r.gl.next == r.handle + 1
    ensures r.event == FramebufferCreated(r.handle, r.gl.objects[r.handle].attachment)
  {
    var threw := NotATexture(g, tex);
    var attached := if threw then None else tex;
    Created(GlState(g.objects[g.next := Framebuffer(attached, true)], g.next + 1), g.next,
            FramebufferCreated(g.next, attached), threw)
  }

  /** deleteTexture: marks a texture dead; null or a non-texture is ignored. */
  function DeleteTexture(g: GlState, h: Option<Handle>): (r: Deleted)
    requires WellFormed(g)
    ensures WellFormed(r.gl) && r.gl.next == g.next && r.gl.objects.Keys == g.objects.Keys
    ensures h.Some? && h.value in g.objects && g.objects[h.value].Texture? ==> !IsLive(r.gl, h.value)
    ensures forall x :: x in g.objects && Some(x) != h ==> r.gl.objects[x] == g.objects[x]
    ensures forall x :: x in g.objects && g.objects[x].Texture? ==> r.gl.objects[x].Texture? && r.gl.objects[x].width == g.objects[x].width && r.gl.objects[x].height == g.objects[x].height
    ensures forall x :: x in g.objects && !g.objects[x].Texture? ==> r.gl.objects[x] == g.objects[x]
    ensures r.event == TextureDeleted(h)
  {
    if h.Some? && h.value in g.objects && g.objects[h.value].Texture? then
      var t := g.objects[h.value];
      Deleted(GlState(g.objects[h.value := Texture(t.width, t.height, false)], g.next), TextureDeleted(h))
    else
      Deleted(g, TextureDeleted(h))
  }

  /** deleteFramebuffer: marks a framebuffer dead; null or a non-framebuffer is ignored. */
  function DeleteFramebuffer(g: GlState, h: Option<Handle>): (r: Deleted)
    requires WellFormed(g)
    ensures WellFormed(r.gl) && r.gl.next == g.next && r.gl.objects.Keys == g.objects.Keys
    ensures h.Some? && h.value in g.objects && g.objects[h.value].Framebuffer? ==> !IsLive(r.gl, h.value)
    ensures forall x :: x in g.objects && Some(x) != h ==> r.gl.objects[x] == g.objects[x]
    ensures forall x :: x in g.objects && g.objects[x].Framebuffer? ==> r.gl.objects[x].Framebuffer? && r.gl.objects[x].attachment == g.objects[x].attachment
    ensures forall x :: x in g.objects && !g.objects[x].Framebuffer? ==> r.gl.objects[x] == g.objects[x]
    ensures r.event == FramebufferDeleted(h)
  {
    if h.Some? && h.value in g.objects && g.objects[h.value].Framebuffer? then
      Deleted(GlState(g.objects[h.value := Framebuffer(g.objects[h.value].attachment, false)], g.next), FramebufferDeleted(h))
    else
      Deleted(g, FramebufferDeleted(h))
  }

  /** No deletion comes after a creation: old targets go before new ones appear. */
  predicate DeletesPrecedeCreates(evs: seq<Event>) {
    forall i, j :: 0 <= i < j < |evs| && evs[i].IsCreate() ==> !evs[j].IsDelete()
  }
}
