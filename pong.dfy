/** The globals of snake/pong.c and the two places that drive the engine:
    the watchdog interrupt handler, which divides the interrupt rate by 15
    and runs mlAdvance, and the main loop, which repaints when the redraw
    flag is set. The interrupt is an explicit call; preemption, the CPU
    sleep and the green status LED are not modelled. */
module Pong {
  import opened Geometry
  import opened Peripherals
  import opened Layers
  import opened Compositor
  import opened Physics

  /** wdt_c_handler runs the physics on every 15th interrupt. */
  const TicksPerStep := 15

  /** The handler's static count after one interrupt. */
  function NextCount(c: int): (r: int)
    ensures 0 <= c < TicksPerStep ==> 0 <= r < TicksPerStep
    ensures 0 <= c < TicksPerStep ==> (r == 0 <==> Fires(c))
    ensures 0 <= c < TicksPerStep && !Fires(c) ==> r == c + 1
  {
    if c + 1 == TicksPerStep then 0 else c + 1
  }

  /** The interrupt that finds the count at `c` runs mlAdvance. */
  predicate Fires(c: int) {
    c + 1 == TicksPerStep
  }

  /** The count after `n` interrupts. */
  function CountAfter(c: int, n: nat): int {
    if n == 0 then c else NextCount(CountAfter(c, n - 1))
  }

  /** How many of `n` interrupts run mlAdvance. */
  function StepsIn(c: int, n: nat): nat {
    if n == 0 then 0 else StepsIn(c, n - 1) + (if Fires(CountAfter(c, n - 1)) then 1 else 0)
  }

  /** From a count in 0..14 the count stays in 0..14, and after `n`
      interrupts it is (c + n) mod 15 with (c + n) div 15 physics steps run. */
  lemma {:induction false} Divider(c: int, n: nat)
    requires 0 <= c < TicksPerStep
    ensures 0 <= CountAfter(c, n) < TicksPerStep
    ensures CountAfter(c, n) == (c + n) % TicksPerStep
    ensures StepsIn(c, n) == (c + n) / TicksPerStep
  {
    if n > 0 {
      Divider(c, n - 1);
    }
  }

  /** The count before interrupt `m + 1` is 14 exactly when 15 divides `m + 1`. */
  lemma ModSucc(m: nat)
    ensures m % TicksPerStep + 1 == TicksPerStep <==> (m + 1) % TicksPerStep == 0
  {
    var q, r := m / TicksPerStep, m % TicksPerStep;
    assert m + 1 == TicksPerStep * q + (r + 1);
    if r + 1 == TicksPerStep {
      assert m + 1 == TicksPerStep * (q + 1);
    }
  }

  /** From the initial count 0, the `n`-th interrupt (counting from 1) runs
      mlAdvance exactly when `n` is a multiple of 15. */
  lemma EveryFifteenth(n: nat)
    requires n >= 1
    ensures Fires(CountAfter(0, n - 1)) <==> n % TicksPerStep == 0
  {
    Divider(0, n - 1);
    ModSucc(n - 1);
  }

  /** A layer's fields after the layer library's initialisation `layerInit`;
      the shape is a constant of the layer and is kept. */
  function Initialised(layerInit: LayerState -> LayerState, s: LayerState): LayerState {
    layerInit(s).(abShape := s.abShape)
  }

  /** One layer's share of layerInit. */
  method InitLayer(l: Layer, layerInit: LayerState -> LayerState)
    modifies l
    ensures State(l) == Initialised(layerInit, old(State(l)))
  {
    var s := layerInit(State(l));
    l.pos := s.pos;
    l.posLast := s.posLast;
    l.posNext := s.posNext;
    l.color := s.color;
  }

  /** The program's globals. The shapes come from the shape library, which
      is not part of this model, and so does layerGetBounds. */
  class Game {
    const layer0: Layer      // the ball
    const layer1: Layer      // the top paddle
    const layer2: Layer      // the bottom paddle
    const layer3: Layer      // the middle line
    const fieldLayer: Layer  // the field outline
    const ml0: MovLayer
    const ml1: MovLayer
    const ml2: MovLayer
    const screenWidth: nat
    const screenHeight: nat
    const layerGetBounds: LayerState -> Region
    const bgColor: Color     // never written
    var score1: char
    var score2: char
    var redrawScreen: int
    var count: int           // wdt_c_handler's static count
    var fieldFence: Region

    /** The z-ordered layer list from layer0. */
    function Zs(): seq<Layer> {
      [layer0, layer1, layer2, layer3, fieldLayer]
    }

    ghost predicate Valid()
      reads this
    {
      && LayerList(layer0, Zs())
      && MovList(ml0, [ml0])
      && ml0.layer == layer0 && ml1.layer == layer1 && ml2.layer == layer2
      && layer0 != layer1 && layer0 != layer2 && layer0 != layer3 && layer0 != fieldLayer
      && layer1 != layer2 && layer1 != layer3 && layer1 != fieldLayer
      && layer2 != layer3 && layer2 != fieldLayer && layer3 != fieldLayer
      && 0 <= count < TicksPerStep
      && score1 == '0' && score2 == '0'
    }

    /** The values mlAdvance(&ml0, &ml1, &ml2, &fieldFence) fixes at its start. */
    function Env0(): Env
      reads this, layer0, layer1, layer2
    {
      Env(layer0.posNext.y, layer0.posNext.x, layer1.posNext.x, layer2.posNext.x, fieldFence,
          Vec2(screenWidth / 2, screenHeight / 2))
    }

    /** The static initialisers of snake/pong.c. */
    constructor (circle14: AbShape, paddle: AbShape, middle: AbShape, fieldOutline: AbShape,
                 screenWidth: nat, screenHeight: nat, layerGetBounds: LayerState -> Region)
      ensures Valid()
      ensures this.screenWidth == screenWidth && this.screenHeight == screenHeight
      ensures this.layerGetBounds == layerGetBounds && bgColor == Blue
      ensures redrawScreen == 1 && count == 0
      ensures State(layer0) == LayerState(circle14, Vec2(screenWidth / 2, screenHeight / 2), Vec2(0, 0), Vec2(0, 0), Orange)
      ensures State(layer1) == LayerState(paddle, Vec2(screenWidth / 2, 6), Vec2(0, 0), Vec2(0, 0), White)
      ensures State(layer2) == LayerState(paddle, Vec2(screenWidth / 2, screenHeight - 6), Vec2(0, 0), Vec2(0, 0), Red)
      ensures State(layer3) == LayerState(middle, Vec2(screenWidth / 2, screenHeight / 2), Vec2(0, 0), Vec2(0, 0), Red)
      ensures State(fieldLayer) == LayerState(fieldOutline, Vec2(screenWidth / 2, screenHeight / 2), Vec2(0, 0), Vec2(0, 0), Black)
      ensures ml0.velocity == Vec2(5, 5) && ml1.velocity == Vec2(5, 5) && ml2.velocity == Vec2(5, 10)
      ensures ml1.next == null && ml2.next == null
      ensures fieldFence == Region(Vec2(0, 0), Vec2(0, 0))
      ensures fresh(layer0) && fresh(layer1) && fresh(layer2) && fresh(layer3) && fresh(fieldLayer)
      ensures fresh(ml0) && fresh(ml1) && fresh(ml2)
    {
      var f := new Layer(fieldOutline, Vec2(screenWidth / 2, screenHeight / 2), Black, null);
      var l3 := new Layer(middle, Vec2(screenWidth / 2, screenHeight / 2), Red, f);
      var l2 := new Layer(paddle, Vec2(screenWidth / 2, screenHeight - 6), Red, l3);
      var l1 := new Layer(paddle, Vec2(screenWidth / 2, 6), White, l2);
      var l0 := new Layer(circle14, Vec2(screenWidth / 2, screenHeight / 2), Orange, l1);
      fieldLayer := f;
      layer3 := l3;
      layer2 := l2;
      layer1 := l1;
      layer0 := l0;
      ml2 := new MovLayer(l2, Vec2(5, 10), null);
      ml1 := new MovLayer(l1, Vec2(5, 5), null);
      var m0 := new MovLayer(l0, Vec2(5, 5), null);
      ghost var zs := [l0, l1, l2, l3, f];
      assert LayerListFrom(null, zs, 5);
      assert LayerListFrom(f, zs, 4);
      assert LayerListFrom(l3, zs, 3);
      assert LayerListFrom(l2, zs, 2);
      assert LayerListFrom(l1, zs, 1);
      assert LayerListFrom(l0, zs, 0);
      ml0 := m0;
      this.screenWidth := screenWidth;
      this.screenHeight := screenHeight;
      this.layerGetBounds := layerGetBounds;
      bgColor := Blue;
      score1 := '0';
      score2 := '0';
      redrawScreen := 1;
      count := 0;
      fieldFence := Region(Vec2(0, 0), Vec2(0, 0));
      new;
      assert MovChainFrom(ml0.next, [ml0], 1);
      assert Distinct(LayersOf([ml0])) by {
        assert LayersOf([ml0]) == [layer0] && [layer0][1..] == [];
      }
    }

    /** The part of main before its loop that the core sees. layerInit(&layer0)
        belongs to the layer library, which is not part of this model: its effect
        on each layer of the list is the parameter `layerInit`, applied to the
        layer's fields (the shape and the link cannot change). Then the field's
        bounds, after that initialisation, become the fence. */
    method Boot(layerInit: LayerState -> LayerState)
      requires Valid()
      modifies this, layer0, layer1, layer2, layer3, fieldLayer
      ensures Valid()
      ensures State(layer0) == Initialised(layerInit, old(State(layer0)))
      ensures State(layer1) == Initialised(layerInit, old(State(layer1)))
      ensures State(layer2) == Initialised(layerInit, old(State(layer2)))
      ensures State(layer3) == Initialised(layerInit, old(State(layer3)))
      ensures State(fieldLayer) == Initialised(layerInit, old(State(fieldLayer)))
      ensures fieldFence == layerGetBounds(State(fieldLayer))
      ensures redrawScreen == old(redrawScreen) && count == old(count)
      ensures score1 == old(score1) && score2 == old(score2)
    {
      InitLayer(layer0, layerInit);
      InitLayer(layer1, layerInit);
      InitLayer(layer2, layerInit);
      InitLayer(layer3, layerInit);
      InitLayer(fieldLayer, layerInit);
      fieldFence := layerGetBounds(State(fieldLayer));
    }

    /** wdt_c_handler, with `p2sw` the value p2sw_read() returns. */
    method WdtHandler(p2sw: int) returns (out: seq<Output>)
      requires Valid()
      modifies this, ml0, layer0, layer1, layer2
      ensures Valid()
      ensures count == NextCount(old(count))
      ensures redrawScreen == (if Fires(old(count)) && p2sw != 0 then 1 else old(redrawScreen))
      ensures Fires(old(count)) ==> var e := old(Env0());
        var r := Step(old(BallOf(ml0)), layer0.abShape, e);
        && BallOf(ml0) == r.ToBall()
        && out == Tones(Labels(screenWidth, screenHeight), [r], 1)
        && layer1.color == PaddleColor(old(layer1.color), BottomGoal(e))
        && layer2.color == PaddleColor(old(layer2.color), TopGoal(e))
      ensures !Fires(old(count)) ==>
        && out == [] && BallOf(ml0) == old(BallOf(ml0))
        && layer1.color == old(layer1.color) && layer2.color == old(layer2.color)
      ensures layer0.pos == old(layer0.pos) && layer0.posLast == old(layer0.posLast)
      ensures State(layer1) == old(State(layer1)).(color := layer1.color)
      ensures State(layer2) == old(State(layer2)).(color := layer2.color)
      ensures fieldFence == old(fieldFence)
    {
      count := count + 1;
      out := [];
      if count == TicksPerStep {
        ghost var e := Env0();
        ghost var b := BallOf(ml0);
        BallsAt([ml0], 0);
        assert Balls([ml0]) == [b];
        assert LayersOf([ml0]) == [layer0];
        SingleFrames(ml0);
        out := MlAdvance(ml0, [ml0], ml1, ml2, fieldFence, screenWidth, screenHeight);
        assert Shapes([ml0])[0] == layer0.abShape;
        assert Results(Shapes([ml0]), [b], e) == [Step(b, layer0.abShape, e)];
        if p2sw != 0 {
          redrawScreen := 1;
        }
        count := 0;
      }
    }

    /** One pass of main's loop. With the flag clear the CPU sleeps and
        nothing happens until an interrupt; with it set the flag is cleared
        and movLayerDraw(&ml0, &layer0) commits and repaints the ball. */
    method MainStep() returns (ops: seq<Output>)
      requires Valid()
      modifies this, layer0
      ensures Valid()
      ensures old(redrawScreen) == 0 ==> ops == [] && redrawScreen == 0 && State(layer0) == old(State(layer0))
      ensures old(redrawScreen) != 0 ==>
        && redrawScreen == 0
        && State(layer0) == Committed(old(State(layer0)))
        && ops == RepaintOps(States(Zs()), bgColor, [layerGetBounds(State(layer0))])
      ensures count == old(count) && fieldFence == old(fieldFence)
    {
      ops := [];
      if redrawScreen != 0 {
        redrawScreen := 0;
        assert [ml0][1..] == [] && LayerSet([ml0]) == {layer0};
        ops := MovLayerDraw(ml0, [ml0], layer0, Zs(), bgColor, layerGetBounds);
        assert LayersOf([ml0]) == [layer0];
        assert States([layer0]) == [State(layer0)];
        assert Bounds(layerGetBounds, [State(layer0)]) == [layerGetBounds(State(layer0))];
      }
    }
  }
}
