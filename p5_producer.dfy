/**
 * The p5 frame producer (js/producers/p5_producer.js): a p5 graphics buffer
 * on which a stack of 80 "Unknown Pleasures" blocks is drawn each frame.
 * The drawing calls and the noise-driven peaks are opaque; what is modelled
 * is the lifecycle (`running`, the pending animation-frame registration, the
 * buffer created by p5's `setup`), the fixed size and the block layout.
 *
 * `requestAnimationFrame` is modelled as in the three.js producer: a set of
 * pending registrations owned by the producer.
 */
module P5 {
  import opened Wrappers
  import opened Gpu

  /** The fixed logical size of the buffer. */
  const Width := 640
  const Height := 400

  const LineCount := 80
  const PointsPerLine := 80
  const BottomGap := 100
  const LineGap := 4

  /** One line of the stack: its vertical offset on the buffer and its point count. */
  datatype Block = Block(yOffset: int, points: nat)

  /** The block pushed at step `i` of `setup`'s loop. */
  function BlockAt(i: int): Block {
    Block(Height - BottomGap - i * LineGap, PointsPerLine)
  }

  /**
   * The stack `setup` builds, bottom line first: 80 lines of 80 points, the
   * first at y = 300, each 4 pixels above the previous one, the last at
   * y = -16.
   */
  function Stack(): (s: seq<Block>)
    ensures |s| == LineCount
    ensures s[0].yOffset == 300 && s[LineCount - 1].yOffset == -16
    ensures forall i :: 0 <= i < LineCount ==> s[i].points == PointsPerLine
    ensures forall i :: 0 < i < LineCount ==> s[i].yOffset == s[i - 1].yOffset - LineGap
    ensures forall i, j :: 0 <= i < j < LineCount ==> s[j].yOffset < s[i].yOffset
  {
    seq(LineCount, i => BlockAt(i))
  }

  /** The producer returned by `createP5Producer`. */
  class P5Producer {
    /** The graphics buffer's canvas, once p5 has run `setup`. */
    var gfx: Option<CanvasId>
    var running: bool
    /** The id of the last animation frame requested, kept after it fires. */
    var raf: Option<nat>
    /** The producer's animation-frame registrations that have not fired or been cancelled. */
    var pending: set<nat>
    /** The id the next request gets. */
    var nextId: nat
    var group: seq<Block>
    /** Number of frames drawn onto the buffer. */
    var draws: nat

    /** Registrations carry ids already handed out. */
    ghost predicate Shaped()
      reads this
    {
      0 < nextId && forall id :: id in pending ==> 0 < id < nextId
    }

    /** Between callbacks: at most one registration, and exactly one while running. */
    ghost predicate Valid()
      reads this
    {
      && Shaped()
      && (running ==> raf.Some? && pending == {raf.value})
      && (!running ==> pending == {})
    }

    /**
     * `createP5Producer`: not running, nothing pending.  Whether `new p5(...)`
     * runs `setup` before it returns is up to p5 and the page's load state:
     * `setupNow` is the buffer that `setup` creates when it runs during the
     * call, and `None` when it runs later.
     */
    constructor (setupNow: Option<CanvasId>)
      ensures Valid() && !running && draws == 0
      ensures gfx == setupNow
      ensures group == (if setupNow.Some? then Stack() else [])
    {
      gfx := None;
      running := false;
      raf := None;
      pending := {};
      nextId := 1;
      group := [];
      draws := 0;
      new;
      if setupNow.Some? {
        Setup(setupNow.value);
        assert [] + Stack() == Stack();
      }
    }

    /** p5's `setup`: create the buffer and push the stack of blocks. */
    method Setup(buffer: CanvasId)
      modifies this`gfx, this`group
      ensures gfx == Some(buffer)
      ensures group == old(group) + Stack()
    {
      gfx := Some(buffer);
      for i := 0 to LineCount
        modifies this`group
        invariant group == old(group) + Stack()[..i]
      {
        assert Stack()[..i + 1] == Stack()[..i] + [BlockAt(i)];
        group := group + [BlockAt(i)];
      }
      assert Stack()[..LineCount] == Stack();
    }

    /** `getCanvas`: null until `setup` has created the buffer. */
    function GetCanvas(): (c: Option<CanvasId>)
      reads this
      ensures c == gfx
    {
      gfx
    }

    /** `getSize`: always 640 x 400, since `resize` changes nothing. */
    function GetSize(): (size: (int, int))
      ensures size == (Width, Height)
    {
      (Width, Height)
    }

    /** `resize`: deliberately a no-op; the logical size stays fixed. */
    method Resize(cssW: real, cssH: real, dpr: real)
      ensures unchanged(this)
    {
    }

    /** `start`: request the loop only when not already running. */
    method Start()
      requires Valid()
      modifies this`running, this`raf, this`pending, this`nextId
      ensures Valid() && running && |pending| == 1
      ensures old(running) ==> raf == old(raf) && pending == old(pending) && nextId == old(nextId)
      ensures !old(running) ==> raf == Some(old(nextId)) && pending == {old(nextId)}
                                && nextId == old(nextId) + 1
    {
      if !running {
        running := true;
        raf := Some(nextId);
        pending := pending + {nextId};
        nextId := nextId + 1;
      }
    }

    /** `stop`: clear `running` and cancel the pending frame, so no loop call follows. */
    method Stop()
      requires Valid()
      modifies this`running, this`pending
      ensures Valid() && !running && pending == {}
      ensures raf.Some? ==> pending == old(pending) - {raf.value}
      ensures raf.None? ==> pending == old(pending)
    {
      running := false;
      if raf.Some? {
        pending := pending - {raf.value};
      }
    }

    /**
     * `loop`: always requests the next frame; draws (background, then every
     * block updated and displayed) only while running and once the buffer
     * exists.
     */
    method Loop()
      requires Shaped()
      modifies this`raf, this`pending, this`nextId, this`draws
      ensures Shaped()
      ensures raf == Some(old(nextId)) && pending == old(pending) + {old(nextId)} && nextId == old(nextId) + 1
      ensures draws == old(draws) + (if running && gfx.Some? then 1 else 0)
    {
      if !running || gfx.None? {
        raf := Some(nextId);
        pending := pending + {nextId};
        nextId := nextId + 1;
        return;
      }
      draws := draws + 1;
      raf := Some(nextId);
      pending := pending + {nextId};
      nextId := nextId + 1;
    }

    /** The host fires the registration `id`: it is consumed, then `loop` runs. */
    method Fire(id: nat)
      requires Valid() && id in pending
      modifies this`raf, this`pending, this`nextId, this`draws
      ensures Valid() && running && pending == {old(nextId)}
      ensures draws == old(draws) + (if gfx.Some? then 1 else 0)
    {
      pending := pending - {id};
      Loop();
    }
  }
}
