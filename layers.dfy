/** The Layer and MovLayer records of the program (snake/pong.c) and the two
    singly linked lists they form: the z-ordered layer list, linked by
    `Layer.next`, and the moving-layer list, linked by `MovLayer.next`.
    The core never relinks either list or changes a layer's shape, so those
    links are constants; a ghost "spine" sequence names the nodes of a list
    in order. */
module Layers {
  import opened Geometry
  import opened Peripherals

  class Layer {
    const abShape: AbShape
    var pos: Vec2
    var posLast: Vec2
    var posNext: Vec2
    var color: Color
    const next: Layer?

    /** A static initialiser `{shape, pos, {0,0}, {0,0}, color, next}`. */
    constructor (abShape: AbShape, pos: Vec2, color: Color, next: Layer?)
      ensures this.abShape == abShape && this.pos == pos && this.color == color && this.next == next
      ensures posLast == Vec2(0, 0) && posNext == Vec2(0, 0)
    {
      this.abShape := abShape;
      this.pos := pos;
      this.posLast := Vec2(0, 0);
      this.posNext := Vec2(0, 0);
      this.color := color;
      this.next := next;
    }
  }

  class MovLayer {
    const layer: Layer
    var velocity: Vec2
    const next: MovLayer?

    constructor (layer: Layer, velocity: Vec2, next: MovLayer?)
      ensures this.layer == layer && this.velocity == velocity && this.next == next
    {
      this.layer := layer;
      this.velocity := velocity;
      this.next := next;
    }
  }

  /** The field values of one layer. */
  datatype LayerState = LayerState(abShape: AbShape, pos: Vec2, posLast: Vec2, posNext: Vec2, color: Color)

  function State(l: Layer): LayerState
    reads l
  {
    LayerState(l.abShape, l.pos, l.posLast, l.posNext, l.color)
  }

  function States(zs: seq<Layer>): (r: seq<LayerState>)
    reads set l | l in zs
    ensures |r| == |zs|
    ensures forall i {:trigger r[i]} :: 0 <= i < |zs| ==> r[i] == State(zs[i])
  {
    if zs == [] then [] else [State(zs[0])] + States(zs[1..])
  }

  /** From the `i`-th layer of `zs` on, `zs` lists in order the layers
      reached from `head` along `next`, and the last one ends the list. */
  predicate LayerListFrom(head: Layer?, zs: seq<Layer>, i: nat)
    decreases |zs| - i
  {
    if i >= |zs| then head == null else head == zs[i] && LayerListFrom(zs[i].next, zs, i + 1)
  }

  /** `zs` lists, in order, the layers reached from `head` along `next`. */
  predicate LayerList(head: Layer?, zs: seq<Layer>) {
    LayerListFrom(head, zs, 0)
  }

  /** The layers the moving layers in `ms` refer to, in list order. */
  function LayersOf(ms: seq<MovLayer>): (r: seq<Layer>)
    ensures |r| == |ms|
    ensures forall k {:trigger r[k]} :: 0 <= k < |ms| ==> r[k] == ms[k].layer
  {
    if ms == [] then [] else [ms[0].layer] + LayersOf(ms[1..])
  }

  /** The moving layers of `ms`, as a frame. */
  function MovSet(ms: seq<MovLayer>): set<MovLayer> {
    if ms == [] then {} else {ms[0]} + MovSet(ms[1..])
  }

  /** The layers the moving layers of `ms` refer to, as a frame. */
  function LayerSet(ms: seq<MovLayer>): set<Layer> {
    if ms == [] then {} else {ms[0].layer} + LayerSet(ms[1..])
  }

  /** The frames of a one-element moving list. */
  lemma SingleFrames(m: MovLayer)
    ensures MovSet([m]) == {m} && LayerSet([m]) == {m.layer}
  {
    assert [m][1..] == [];
  }

  lemma {:induction false} FrameAt(ms: seq<MovLayer>, k: nat)
    requires k < |ms|
    ensures ms[k] in MovSet(ms) && ms[k].layer in LayerSet(ms)
  {
    if k > 0 {
      FrameAt(ms[1..], k - 1);
    }
  }

  /** From the `k`-th moving layer of `ms` on, `ms` lists in order the
      moving layers reached from `head` along `next`. */
  predicate MovChainFrom(head: MovLayer?, ms: seq<MovLayer>, k: nat)
    decreases |ms| - k
  {
    if k >= |ms| then head == null else head == ms[k] && MovChainFrom(ms[k].next, ms, k + 1)
  }

  /** `ms` lists, in order, the moving layers reached from `head` along `next`. */
  predicate MovChain(head: MovLayer?, ms: seq<MovLayer>) {
    MovChainFrom(head, ms, 0)
  }

  /** A moving list whose members each move a layer of their own. */
  predicate MovList(head: MovLayer?, ms: seq<MovLayer>) {
    MovChain(head, ms) && Distinct(LayersOf(ms))
  }

  /** No layer occurs twice in `ls`. */
  predicate Distinct(ls: seq<Layer>) {
    ls == [] || (ls[0] !in ls[1..] && Distinct(ls[1..]))
  }

  lemma {:induction false} DistinctAt(ls: seq<Layer>, i: nat, j: nat)
    requires Distinct(ls) && i < j < |ls|
    ensures ls[i] != ls[j]
  {
    if i > 0 {
      DistinctAt(ls[1..], i - 1, j - 1);
    } else {
      assert ls[j] == ls[1..][j - 1];
    }
  }
}
