/**
 * The producer swap of future/js/skin_adapter_example.js: the skin reads its
 * source canvas through a getter over one captured `producer` variable, and
 * `setProducer` replaces that producer by a new one of the requested kind.
 * Every producer created here is kept (as ghost state) so that "exactly one
 * of them is running" can be stated and kept.
 */
module SkinAdapter {
  import opened Wrappers
  import opened Gpu
  import opened P5
  import opened Three

  /** A frame producer of either kind. */
  datatype Producer = P5Kind(p5: P5Producer) | ThreeKind(three: ThreeProducer)
  {
    function Obj(): object {
      if P5Kind? then p5 else three
    }

    ghost predicate Valid()
      reads Obj()
    {
      if P5Kind? then p5.Valid() else three.Valid()
    }

    predicate Running()
      reads Obj()
    {
      if P5Kind? then p5.running else three.running
    }

    /** Stopped for good: not running and no frame callback pending. */
    ghost predicate Stopped()
      reads Obj()
    {
      if P5Kind? then !p5.running && p5.pending == {} else !three.running && three.pending == {}
    }

    /** `getCanvas` of the producer. */
    function Canvas(): (c: Option<CanvasId>)
      reads Obj()
      ensures P5Kind? ==> c == p5.gfx
      ensures ThreeKind? ==> c == Some(three.dom)
    {
      if P5Kind? then p5.GetCanvas() else Some(three.GetCanvas())
    }
  }

  /** The externally visible steps of the adapter, in order. */
  datatype Action = CreatedP5 | CreatedThree | Started | StoppedCurrent | Resynced

  /** The closure state of `attachProducersToSkin`. */
  class Adapter {
    var producer: Producer
    /** The producers replaced so far, oldest first. */
    ghost var retired: seq<Producer>
    var log: seq<Action>

    ghost function Objs(): set<object>
      reads this
    {
      {producer.Obj()} + set r | r in retired :: r.Obj()
    }

    ghost predicate Valid()
      reads this, Objs()
    {
      && producer.Valid() && producer.Running()
      && (forall r :: r in retired ==> r.Obj() != producer.Obj())
      && (forall r :: r in retired ==> r.Stopped())
    }

    /** Every producer this adapter has created, the current one last. */
    ghost function Created(): seq<Producer>
      reads this
    {
      retired + [producer]
    }

    /**
     * `attachProducersToSkin`: create a p5 producer and start it.  `setupNow`
     * is the buffer p5's `setup` creates if it runs during `new p5(...)`.
     */
    constructor (setupNow: Option<CanvasId>)
      ensures Valid() && producer.P5Kind? && fresh(producer.Obj()) && retired == []
      ensures log == [CreatedP5, Started]
      ensures Canvas() == setupNow
    {
      var next, acts := StartNew("p5", 0, setupNow);
      producer := next;
      retired := [];
      log := acts;
    }

    /** The getter handed to the skin: reads `producer` when called, not when registered. */
    function Canvas(): (c: Option<CanvasId>)
      reads this, producer.Obj()
      ensures c == producer.Canvas()
    {
      producer.Canvas()
    }

    /** `producer.stop()`, recorded in the log as it happens. */
    method StopCurrent()
      requires Valid()
      modifies this`log, producer.Obj()
      ensures producer.Stopped() && log == old(log) + [StoppedCurrent]
    {
      match producer {
        case P5Kind(p) => p.Stop();
        case ThreeKind(t) => t.Stop();
      }
      log := log + [StoppedCurrent];
    }

    /**
     * `setProducer(kind)`: stop the current producer, create a three.js
     * producer for `"three"` and a p5 producer for anything else, start it,
     * then resync the skin's size.  `canvas` is the canvas element a new
     * three.js renderer gets; `setupNow` is the buffer p5's `setup` creates
     * if it runs during `new p5(...)`.  Each step is logged by the call that
     * performs it, so the log order is the call order.
     */
    method SetProducer(kind: string, canvas: CanvasId, setupNow: Option<CanvasId>)
      requires Valid()
      modifies this, producer.Obj()
      ensures Valid()
      ensures retired == old(retired) + [old(producer)] && fresh(producer.Obj())
      ensures producer.ThreeKind? <==> kind == "three"
      ensures log == old(log) + [StoppedCurrent, if kind == "three" then CreatedThree else CreatedP5,
                                 Started, Resynced]
      // right after a swap the getter sees the new producer
      ensures Canvas() == (if kind == "three" then Some(canvas) else setupNow)
    {
      StopCurrent();
      var next, acts := StartNew(kind, canvas, setupNow);
      log := log + acts;
      retired := retired + [producer];
      producer := next;
      // `setup.onResize()`
      log := log + [Resynced];
    }

    /** `PFIIIVE.useP5`: no three.js renderer is created, so no canvas is handed over. */
    method UseP5(setupNow: Option<CanvasId>)
      requires Valid()
      modifies this, producer.Obj()
      ensures Valid() && producer.P5Kind? && retired == old(retired) + [old(producer)]
      ensures Canvas() == setupNow
    {
      SetProducer("p5", 0, setupNow);
    }

    /** `PFIIIVE.useThree`. */
    method UseThree(canvas: CanvasId)
      requires Valid()
      modifies this, producer.Obj()
      ensures Valid() && producer.ThreeKind? && retired == old(retired) + [old(producer)]
      ensures Canvas() == Some(canvas)
    {
      SetProducer("three", canvas, None);
    }
  }

  /**
   * `(kind === 'three') ? createThreeProducer() : createP5Producer()`, then
   * `start`; `acts` logs the two calls in the order they are made.
   */
  method StartNew(kind: string, canvas: CanvasId, setupNow: Option<CanvasId>) returns (next: Producer, acts: seq<Action>)
    ensures fresh(next.Obj()) && next.Valid() && next.Running()
    ensures next.ThreeKind? <==> kind == "three"
    ensures next.Canvas() == (if kind == "three" then Some(canvas) else setupNow)
    ensures acts == [if kind == "three" then CreatedThree else CreatedP5, Started]
  {
    if kind == "three" {
      var t := new ThreeProducer(canvas);
      acts := [CreatedThree];
      t.Start();
      next := ThreeKind(t);
    } else {
      var p := new P5Producer(setupNow);
      acts := [CreatedP5];
      p.Start();
      next := P5Kind(p);
    }
    acts := acts + [Started];
  }

  /** Of all the producers an adapter has created, exactly one is running: the current one. */
  lemma ExactlyOneRunning(a: Adapter)
    requires a.Valid()
    ensures (set i | 0 <= i < |a.Created()| && a.Created()[i].Running() :: a.Created()[i]) == {a.producer}
  {
    var created := a.Created();
    assert created[|created| - 1] == a.producer;
    forall k | 0 <= k < |a.retired|
      ensures !created[k].Running()
    {
      assert created[k] == a.retired[k] && a.retired[k] in a.retired;
    }
  }
}
