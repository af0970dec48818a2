/**
 * The three.js frame producer (js/producers/three_producer.js): an offscreen
 * renderer drawing 80 horizontal lines whose points are jittered downwards
 * each tick.  The renderer and camera are opaque; what is modelled is the
 * lifecycle (`running`, the pending animation-frame registration), the render
 * size and the in-place update of the line vertex arrays.
 *
 * `requestAnimationFrame` is modelled as a set of pending registrations owned
 * by the producer: a request adds a fresh positive id, a cancel removes one,
 * and the host firing a registration removes it and runs `Tick`.
 */
module Three {
  import opened Wrappers
  import opened Gpu

  const NumLines := 80
  const SegmentCount := 128
  /** Three coordinates (x, y, z) per point. */
  const VertexArrayLength := 3 * SegmentCount

  /** Initial logical size of the producer. */
  const InitialWidth := 640
  const InitialHeight := 400

  /** Smallest sizes `resize` allows. */
  const MinWidth := 320
  const MinHeight := 200

  /** x of point `j` on every line: evenly spaced over [-1.25, 1.25]. */
  function PointX(j: int): real {
    -1.25 + (j as real / (SegmentCount - 1) as real) * 2.5
  }

  /** `originalY` of line `i`: evenly spaced over [-1.5, 1.5). */
  function LineY(i: int): (y: real)
    ensures 0 <= i < NumLines ==> -1.5 <= y < 1.5
  {
    -1.5 + (i as real / NumLines as real) * 3.0
  }

  /** A value `Math.random()` can return. */
  predicate IsRandom(r: real) {
    0.0 <= r < 1.0
  }

  /**
   * How far a point is pushed down: with the first draw above 0.9, the second
   * draw times the line's envelope times 0.5, otherwise nothing.
   */
  function Displacement(draw: (real, real), envelope: real): (d: real)
    requires IsRandom(draw.0) && IsRandom(draw.1) && 0.0 <= envelope <= 1.0
    ensures 0.0 <= d < 0.5
    ensures draw.0 <= 0.9 ==> d == 0.0
  {
    if draw.0 > 0.9 then
      assert draw.1 * (1.0 - envelope) >= 0.0;
      draw.1 * envelope * 0.5
    else 0.0
  }

  /** The random pairs drawn for one line's points are all values of `Math.random()`. */
  predicate ValidDraws(draws: seq<(real, real)>) {
    |draws| == SegmentCount && forall j :: 0 <= j < |draws| ==> IsRandom(draws[j].0) && IsRandom(draws[j].1)
  }

  /**
   * `after` is `before` with only the y coordinate of each point rewritten to
   * `originalY` minus that point's displacement.
   */
  ghost predicate DisplacedFrom(before: seq<real>, after: seq<real>, originalY: real, envelope: real,
                                draws: seq<(real, real)>)
    requires ValidDraws(draws) && 0.0 <= envelope <= 1.0
  {
    && |before| == |after| == VertexArrayLength
    && (forall k :: 0 <= k < |after| && k % 3 != 1 ==> after[k] == before[k])
    && (forall j :: 0 <= j < SegmentCount ==> after[3 * j + 1] == originalY - Displacement(draws[j], envelope))
  }

  /** Every y coordinate of a displaced line lies in (originalY - 0.5, originalY]. */
  lemma DisplacedWithinBand(before: seq<real>, after: seq<real>, originalY: real, envelope: real,
                            draws: seq<(real, real)>, j: int)
    requires ValidDraws(draws) && 0.0 <= envelope <= 1.0
    requires DisplacedFrom(before, after, originalY, envelope, draws)
    requires 0 <= j < SegmentCount
    ensures originalY - 0.5 < after[3 * j + 1] <= originalY
    ensures after[3 * j] == before[3 * j] && after[3 * j + 2] == before[3 * j + 2]
  {
    assert (3 * j) % 3 == 0 && (3 * j + 2) % 3 == 2;
    assert after[3 * j + 1] == originalY - Displacement(draws[j], envelope);
  }

  /** One line of the scene: its rest height and its vertex array, updated in place. */
  class Line {
    const originalY: real
    const positions: array<real>

    /** A flat line at height `y`: x spread over the line length, y at `y`, z at 0. */
    constructor (y: real)
      ensures originalY == y && fresh(positions) && positions.Length == VertexArrayLength
      ensures forall j :: 0 <= j < SegmentCount ==>
                positions[3 * j] == PointX(j) && positions[3 * j + 1] == y && positions[3 * j + 2] == 0.0
    {
      originalY := y;
      positions := new real[VertexArrayLength](k => if k % 3 == 0 then PointX(k / 3) else if k % 3 == 1 then y else 0.0);
      new;
      forall j | 0 <= j < SegmentCount
        ensures positions[3 * j] == PointX(j) && positions[3 * j + 1] == y && positions[3 * j + 2] == 0.0
      {
        assert (3 * j) % 3 == 0 && (3 * j) / 3 == j;
        assert (3 * j + 1) % 3 == 1 && (3 * j + 2) % 3 == 2;
      }
    }

    /** The inner loop of `tick`: rewrite the y coordinate of each point. */
    method Displace(envelope: real, draws: seq<(real, real)>)
      requires positions.Length == VertexArrayLength
      requires ValidDraws(draws) && 0.0 <= envelope <= 1.0
      modifies positions
      ensures DisplacedFrom(old(positions[..]), positions[..], originalY, envelope, draws)
    {
      for j := 0 to SegmentCount
        invariant forall k :: 0 <= k < positions.Length && (k % 3 != 1 || k >= 3 * j) ==>
                    positions[k] == old(positions[k])
        invariant forall m :: 0 <= m < j ==> positions[3 * m + 1] == originalY - Displacement(draws[m], envelope)
      {
        positions[j * 3 + 1] := originalY - Displacement(draws[j], envelope);
      }
    }
  }

  /** The producer returned by `createThreeProducer`. */
  class ThreeProducer {
    /** The renderer's canvas. */
    const dom: CanvasId
    const lines: seq<Line>
    var running: bool
    /** The id of the last animation frame requested, kept after it fires. */
    var animId: Option<nat>
    /** The producer's animation-frame registrations that have not fired or been cancelled. */
    var pending: set<nat>
    /** The id the next request gets. */
    var nextId: nat
    var w: int
    var h: int
    /** The camera's aspect ratio. */
    var aspect: real
    /** Number of `renderer.render` calls. */
    var renders: nat

    /** The scene's shape, and registrations carry ids already handed out. */
    ghost predicate Shaped()
      reads this
    {
      && |lines| == NumLines
      && (forall i :: 0 <= i < |lines| ==> lines[i].positions.Length == VertexArrayLength)
      && (forall a, b :: 0 <= a < b < |lines| ==> lines[a].positions != lines[b].positions)
      && 0 < nextId
      && (forall id :: id in pending ==> 0 < id < nextId)
    }

    /** Between callbacks: at most one registration, and exactly one while running. */
    ghost predicate Valid()
      reads this
    {
      && Shaped()
      && (running ==> animId.Some? && pending == {animId.value})
      && (!running ==> pending == {})
    }

    /** `createThreeProducer`: 80 flat lines, size 640 x 400, not running. */
    constructor (canvas: CanvasId)
      ensures Valid() && !running && pending == {} && renders == 0
      ensures w == InitialWidth && h == InitialHeight && aspect == 1.6
      ensures dom == canvas
      ensures forall i :: 0 <= i < NumLines ==> lines[i].originalY == LineY(i) && fresh(lines[i].positions)
    {
      var ls: seq<Line> := [];
      for i := 0 to NumLines
        invariant |ls| == i
        invariant forall k :: 0 <= k < i ==>
                    ls[k].originalY == LineY(k) && fresh(ls[k].positions)
                    && ls[k].positions.Length == VertexArrayLength
        invariant forall a, b :: 0 <= a < b < i ==> ls[a].positions != ls[b].positions
      {
        var line := new Line(LineY(i));
        ls := ls + [line];
      }
      dom := canvas;
      lines := ls;
      running := false;
      animId := None;
      pending := {};
      nextId := 1;
      w, h := InitialWidth, InitialHeight;
      aspect := InitialWidth as real / InitialHeight as real;
      renders := 0;
    }

    /** `getCanvas`. */
    function GetCanvas(): (c: CanvasId)
      ensures c == dom
    {
      dom
    }

    /** `getSize`: the current logical size, 640 x 400 until a resize. */
    function GetSize(): (size: (int, int))
      reads this
      ensures size == (w, h)
    {
      (w, h)
    }

    /** `start`: a no-op while running; otherwise set `running` and request exactly one frame. */
    method Start()
      requires Valid()
      modifies this`running, this`animId, this`pending, this`nextId
      ensures Valid() && running && |pending| == 1
      ensures old(running) ==> running == old(running) && animId == old(animId)
                               && pending == old(pending) && nextId == old(nextId)
      ensures !old(running) ==> animId == Some(old(nextId)) && pending == {old(nextId)}
                                && nextId == old(nextId) + 1
    {
      if running {
        return;
      }
      running := true;
      animId := Some(nextId);
      pending := pending + {nextId};
      nextId := nextId + 1;
    }

    /** `stop`: clear `running` and cancel the pending frame, so no tick follows. */
    method Stop()
      requires Valid()
      modifies this`running, this`pending
      ensures Valid() && !running && pending == {}
      ensures animId.Some? ==> pending == old(pending) - {animId.value}
      ensures animId.None? ==> pending == old(pending)
    {
      running := false;
      if animId.Some? {
        pending := pending - {animId.value};
      }
    }

    /** `resize`: half the CSS size, clamped below; `dpr` is ignored. */
    method Resize(cssW: real, cssH: real, dpr: real)
      modifies this`w, this`h, this`aspect
      ensures w == RenderSize(cssW, MinWidth) && h == RenderSize(cssH, MinHeight)
      ensures aspect * h as real == w as real
    {
      w := RenderSize(cssW, MinWidth);
      h := RenderSize(cssH, MinHeight);
      aspect := w as real / h as real;
    }

    /**
     * `tick`: returns at once when not running; otherwise jitter every line,
     * render, and request the next frame.
     */
    method Tick(t: real, envelopes: seq<real>, draws: seq<seq<(real, real)>>)
      requires Shaped() && pending == {}
      requires |envelopes| == NumLines && forall i :: 0 <= i < |envelopes| ==> 0.0 <= envelopes[i] <= 1.0
      requires |draws| == NumLines && forall i :: 0 <= i < |draws| ==> ValidDraws(draws[i])
      modifies this`animId, this`pending, this`nextId, this`renders,
               set i | 0 <= i < |lines| :: lines[i].positions
      ensures Shaped()
      ensures !old(running) ==> pending == {} && animId == old(animId) && nextId == old(nextId)
                                && renders == old(renders)
      ensures !old(running) ==> forall i :: 0 <= i < |lines| ==>
                                  lines[i].positions[..] == old(lines[i].positions[..])
      ensures old(running) ==> Valid() && animId == Some(old(nextId)) && pending == {old(nextId)}
                               && nextId == old(nextId) + 1 && renders == old(renders) + 1
      ensures old(running) ==> forall i :: 0 <= i < |lines| ==>
                                 DisplacedFrom(old(lines[i].positions[..]), lines[i].positions[..],
                                               lines[i].originalY, envelopes[i], draws[i])
    {
      if !running {
        return;
      }
      for i := 0 to |lines|
        modifies set k | 0 <= k < |lines| :: lines[k].positions
        invariant forall k :: 0 <= k < i ==>
                    DisplacedFrom(old(lines[k].positions[..]), lines[k].positions[..],
                                  lines[k].originalY, envelopes[k], draws[k])
        invariant forall k :: i <= k < |lines| ==> lines[k].positions[..] == old(lines[k].positions[..])
      {
        lines[i].Displace(envelopes[i], draws[i]);
      }
      renders := renders + 1;
      animId := Some(nextId);
      pending := pending + {nextId};
      nextId := nextId + 1;
    }

    /** The host fires the registration `id`: it is consumed, then `tick` runs. */
    method Fire(id: nat, t: real, envelopes: seq<real>, draws: seq<seq<(real, real)>>)
      requires Valid() && id in pending
      requires |envelopes| == NumLines && forall i :: 0 <= i < |envelopes| ==> 0.0 <= envelopes[i] <= 1.0
      requires |draws| == NumLines && forall i :: 0 <= i < |draws| ==> ValidDraws(draws[i])
      modifies this`animId, this`pending, this`nextId, this`renders,
               set i | 0 <= i < |lines| :: lines[i].positions
      ensures Valid() && running && pending == {old(nextId)} && renders == old(renders) + 1
    {
      pending := pending - {id};
      Tick(t, envelopes, draws);
    }
  }

  /** `max(min, floor(css / 2))`. */
  function RenderSize(css: real, min: int): (n: int)
    ensures n >= min
    ensures css >= 2.0 * min as real ==> 2.0 * n as real <= css < 2.0 * n as real + 2.0
    ensures css < 2.0 * min as real ==> n == min
  {
    var half := (css / 2.0).Floor;
    if half > min then half else min
  }
}
