/** mlAdvance of snake/pong.c: move every moving layer by its velocity,
    bounce it off the fence, and apply the paddle and goal rules. The paddle
    and goal tests look at the row and column of the first moving layer's
    next position, read once before the loop, so they give the same answer
    on both axes and for every moving layer. */
module Physics {
  import opened Geometry
  import opened Peripherals
  import opened Layers

  /** The values of one mlAdvance call that stay fixed while it runs. */
  datatype Env = Env(
    rowH: int,     // row of the first moving layer's next position
    colH: int,     // its column
    p1x: int,      // column of the top paddle (ml1) next position
    p2x: int,      // column of the bottom paddle (ml2) next position
    fence: Region,
    center: Vec2)  // (screenWidth/2, screenHeight/2)

  const BottomPaddleRow := 135
  const TopPaddleRow := 21
  const PaddleReach := 15
  const TopGoalRow := 20
  const BottomGoalRow := 136
  const ServeVx := 5

  predicate HitsBottomPaddle(e: Env) {
    e.rowH >= BottomPaddleRow && e.colH <= e.p2x + PaddleReach && e.colH >= e.p2x - PaddleReach
  }

  predicate HitsTopPaddle(e: Env) {
    e.rowH <= TopPaddleRow && e.colH <= e.p1x + PaddleReach && e.colH >= e.p1x - PaddleReach
  }

  /** The upper goal branch fires: no paddle branch did, and the row is exactly 20. */
  predicate TopGoal(e: Env) {
    !HitsBottomPaddle(e) && !HitsTopPaddle(e) && e.rowH == TopGoalRow
  }

  /** The lower goal branch fires: no paddle branch did, and the row is exactly 136. */
  predicate BottomGoal(e: Env) {
    !HitsBottomPaddle(e) && !HitsTopPaddle(e) && e.rowH == BottomGoalRow
  }

  /** No paddle or goal branch fires. */
  predicate Quiet(e: Env) {
    !HitsBottomPaddle(e) && !HitsTopPaddle(e) && e.rowH != TopGoalRow && e.rowH != BottomGoalRow
  }

  /** The bounds `b` leave the fence on axis `a`, on either side. */
  predicate OutsideFence(b: Region, fence: Region, a: Axis) {
    b.topLeft.Get(a) < fence.topLeft.Get(a) || b.botRight.Get(a) > fence.botRight.Get(a)
  }

  /** What mlAdvance reads and writes of one moving layer. */
  datatype Ball = Ball(posNext: Vec2, velocity: Vec2, color: Color)

  /** The state of one iteration: the candidate position `newPos`, the
      velocity and colour fields, and how many fence bounces (each a
      buzzer_set_period(0) call) happened so far. */
  datatype Motion = Motion(newPos: Vec2, velocity: Vec2, color: Color, bounces: nat) {
    function ToBall(): Ball {
      Ball(newPos, velocity, color)
    }
  }

  /** One pass of the axis loop body: the fence test on axis `a`, then the
      paddle and goal chain, which looks only at the captured row and column. */
  function AxisStep(m: Motion, a: Axis, b: Region, e: Env): (r: Motion)
    ensures r.bounces == m.bounces + Indicator(OutsideFence(b, e.fence, a))
    ensures HitsBottomPaddle(e) ==> r.color == Black
    ensures !HitsBottomPaddle(e) && HitsTopPaddle(e) ==> r.color == Red
    // on the y pass the bottom paddle undoes a fence reversal, the top paddle never reverses
    ensures a == 1 && HitsBottomPaddle(e) ==>
      r.velocity.y == (if OutsideFence(b, e.fence, 1) then m.velocity.y else -m.velocity.y)
    ensures a == 1 && !HitsBottomPaddle(e) && HitsTopPaddle(e) ==>
      r.velocity.y == (if OutsideFence(b, e.fence, 1) then -m.velocity.y else m.velocity.y)
    ensures TopGoal(e) || BottomGoal(e) ==> r.newPos == e.center && r.velocity.x == ServeVx && r.color == m.color
    // away from the paddles and off the goal rows only the fence rule acts, on axis `a` alone
    ensures Quiet(e) ==>
      && r.color == m.color
      && r.velocity.Get(1 - a) == m.velocity.Get(1 - a) && r.newPos.Get(1 - a) == m.newPos.Get(1 - a)
      && r.velocity.Get(a) == (if OutsideFence(b, e.fence, a) then -m.velocity.Get(a) else m.velocity.Get(a))
      && r.newPos.Get(a) == m.newPos.Get(a) - (if OutsideFence(b, e.fence, a) then 2 * m.velocity.Get(a) else 0)
  {
    var m1 :=
      if OutsideFence(b, e.fence, a) then
        var v := -m.velocity.Get(a);
        Motion(m.newPos.Set(a, m.newPos.Get(a) + 2 * v), m.velocity.Set(a, v), m.color, m.bounces + 1)
      else m;
    if HitsBottomPaddle(e) then
      var v := -m1.velocity.Get(a);
      var vel := m1.velocity.Set(a, v);
      Motion(m1.newPos.Set(a, m1.newPos.Get(a) + 2 * v), vel.Set(0, vel.x + 1), Black, m1.bounces)
    else if HitsTopPaddle(e) then
      // as written, the velocity component is assigned to itself: no reversal
      var v := m1.velocity.Get(a);
      var vel := m1.velocity.Set(a, v);
      Motion(m1.newPos.Set(a, m1.newPos.Get(a) + 2 * v), vel.Set(0, vel.x + 1), Red, m1.bounces)
    else if e.rowH == TopGoalRow || e.rowH == BottomGoalRow then
      Motion(e.center, m1.velocity.Set(0, ServeVx), m1.color, m1.bounces)
    else m1
  }

  /** The first `n` passes of the axis loop. */
  function Axes(m: Motion, n: nat, b: Region, e: Env): (r: Motion)
    requires n <= 2
    ensures r.bounces == m.bounces + (if n >= 1 then Indicator(OutsideFence(b, e.fence, 0)) else 0)
                                   + (if n == 2 then Indicator(OutsideFence(b, e.fence, 1)) else 0)
    ensures n >= 1 && (TopGoal(e) || BottomGoal(e)) ==> r.newPos == e.center && r.velocity.x == ServeVx
    ensures !HitsBottomPaddle(e) && !HitsTopPaddle(e) ==> r.color == m.color
  {
    if n == 0 then m else AxisStep(Axes(m, n - 1, b, e), n - 1, b, e)
  }

  /** One moving layer's update: candidate = posNext + velocity, bounds of the
      shape at the candidate, then both axes. */
  function Step(ball: Ball, shape: AbShape, e: Env): (r: Motion)
    ensures r.bounces == Indicator(Leaves(ball, shape, e, 0)) + Indicator(Leaves(ball, shape, e, 1))
    ensures TopGoal(e) || BottomGoal(e) ==> r.newPos == e.center && r.velocity.x == ServeVx
    ensures !HitsBottomPaddle(e) && !HitsTopPaddle(e) ==> r.color == ball.color
  {
    var cand := ball.posNext.Add(ball.velocity);
    Axes(Motion(cand, ball.velocity, ball.color, 0), 2, shape.getBounds(cand), e)
  }

  /** Step is the x pass followed by the y pass. */
  lemma StepUnfold(ball: Ball, shape: AbShape, e: Env)
    ensures var cand := ball.posNext.Add(ball.velocity);
      var b := shape.getBounds(cand);
      Step(ball, shape, e) == AxisStep(AxisStep(Motion(cand, ball.velocity, ball.color, 0), 0, b, e), 1, b, e)
  {
    var cand := ball.posNext.Add(ball.velocity);
    var m0 := Motion(cand, ball.velocity, ball.color, 0);
    var b := shape.getBounds(cand);
    assert Axes(m0, 1, b, e) == AxisStep(m0, 0, b, e);
  }

  /** Does the candidate of `ball` leave the fence on axis `a`? */
  predicate Leaves(ball: Ball, shape: AbShape, e: Env, a: Axis) {
    OutsideFence(shape.getBounds(ball.posNext.Add(ball.velocity)), e.fence, a)
  }

  function Indicator(b: bool): nat {
    if b then 1 else 0
  }

  /** Fence rule, axis by axis, when no paddle or goal branch fires: an axis
      whose candidate bounds leave the fence has its velocity negated and its
      candidate coordinate moved by twice the new velocity (so it ends at
      posNext - velocity); an axis that stays inside advances by its velocity.
      Each axis depends only on its own fence test, and each bounce is one
      buzzer call. */
  lemma StepQuiet(ball: Ball, shape: AbShape, e: Env, a: Axis)
    requires Quiet(e)
    ensures var r := Step(ball, shape, e);
      var p, v := ball.posNext.Get(a), ball.velocity.Get(a);
      && r.velocity.Get(a) == (if Leaves(ball, shape, e, a) then -v else v)
      && r.newPos.Get(a) == (if Leaves(ball, shape, e, a) then p - v else p + v)
      && r.color == ball.color
      && r.bounces == Indicator(Leaves(ball, shape, e, 0)) + Indicator(Leaves(ball, shape, e, 1))
  {
    StepUnfold(ball, shape, e);
  }

  /** With no fence, paddle or goal event, posNext advances by exactly the velocity. */
  lemma StepNoEvent(ball: Ball, shape: AbShape, e: Env)
    requires Quiet(e) && !Leaves(ball, shape, e, 0) && !Leaves(ball, shape, e, 1)
    ensures Step(ball, shape, e).ToBall() == Ball(ball.posNext.Add(ball.velocity), ball.velocity, ball.color)
    ensures Step(ball, shape, e).bounces == 0
  {
    StepQuiet(ball, shape, e, 0);
    StepQuiet(ball, shape, e, 1);
  }

  /** Two ticks without any event move the ball by twice its velocity. */
  lemma TwoQuietTicks(ball: Ball, shape: AbShape, e1: Env, e2: Env)
    requires Quiet(e1) && !Leaves(ball, shape, e1, 0) && !Leaves(ball, shape, e1, 1)
    requires var b1 := Step(ball, shape, e1).ToBall();
      Quiet(e2) && !Leaves(b1, shape, e2, 0) && !Leaves(b1, shape, e2, 1)
    ensures var b2 := Step(Step(ball, shape, e1).ToBall(), shape, e2).ToBall();
      b2.posNext == Vec2(ball.posNext.x + 2 * ball.velocity.x, ball.posNext.y + 2 * ball.velocity.y)
      && b2.velocity == ball.velocity
  {
    StepNoEvent(ball, shape, e1);
    StepNoEvent(Step(ball, shape, e1).ToBall(), shape, e2);
  }

  /** Bottom paddle without a fence bounce: the test fires on both axes, so
      both components are negated and x also gains 1 per axis. */
  lemma StepBottomPaddle(ball: Ball, shape: AbShape, e: Env)
    requires HitsBottomPaddle(e) && !Leaves(ball, shape, e, 0) && !Leaves(ball, shape, e, 1)
    ensures var r := Step(ball, shape, e); var p, v := ball.posNext, ball.velocity;
      && r.velocity == Vec2(-v.x + 2, -v.y)
      && r.newPos == Vec2(p.x - v.x, p.y - v.y)
      && r.color == Black
      && r.bounces == 0
  {
    StepUnfold(ball, shape, e);
  }

  /** Top paddle without a fence bounce: no component is negated, x gains 2,
      and the candidate moves by three times the velocity. */
  lemma StepTopPaddle(ball: Ball, shape: AbShape, e: Env)
    requires HitsTopPaddle(e) && !HitsBottomPaddle(e)
    requires !Leaves(ball, shape, e, 0) && !Leaves(ball, shape, e, 1)
    ensures var r := Step(ball, shape, e); var p, v := ball.posNext, ball.velocity;
      && r.velocity == Vec2(v.x + 2, v.y)
      && r.newPos == Vec2(p.x + 3 * v.x, p.y + 3 * v.y)
      && r.color == Red
      && r.bounces == 0
  {
    StepUnfold(ball, shape, e);
  }

  /** A goal re-centres the ball and sets vx to 5 whatever the fence did; the
      ball colour is kept, and vy is only touched by a y fence bounce. */
  lemma StepGoal(ball: Ball, shape: AbShape, e: Env)
    requires TopGoal(e) || BottomGoal(e)
    ensures var r := Step(ball, shape, e);
      && r.newPos == e.center
      && r.velocity.x == ServeVx
      && r.velocity.y == (if Leaves(ball, shape, e, 1) then -ball.velocity.y else ball.velocity.y)
      && r.color == ball.color
  {
    StepUnfold(ball, shape, e);
  }

  /** A square shape of half-size 7 centred on its position (for the examples). */
  function Square7(): AbShape {
    AbShape((c: Vec2) => Region(Vec2(c.x - 7, c.y - 7), Vec2(c.x + 7, c.y + 7)), (c: Vec2, p: Vec2) => false)
  }

  /** Ball at (64, 67) moving (5, 5) in the field (0,0)-(127,127), paddles at column 64. */
  lemma ExampleFreeFlight()
    ensures var e := Env(67, 64, 64, 64, Region(Vec2(0, 0), Vec2(127, 127)), Vec2(64, 80));
      Step(Ball(Vec2(64, 67), Vec2(5, 5), Orange), Square7(), e).ToBall() == Ball(Vec2(69, 72), Vec2(5, 5), Orange)
  {
    StepUnfold(Ball(Vec2(64, 67), Vec2(5, 5), Orange), Square7(), Env(67, 64, 64, 64, Region(Vec2(0, 0), Vec2(127, 127)), Vec2(64, 80)));
  }

  /** Ball at (5, 70) moving (-5, 5): the candidate bounds cross the left edge,
      so vx flips to 5 and x ends at 5 - 5 + 2 * 5 = 10. */
  lemma ExampleLeftBounce()
    ensures var e := Env(70, 5, 64, 64, Region(Vec2(0, 0), Vec2(127, 127)), Vec2(64, 80));
      var r := Step(Ball(Vec2(5, 70), Vec2(-5, 5), Orange), Square7(), e);
      r.ToBall() == Ball(Vec2(10, 75), Vec2(5, 5), Orange) && r.bounces == 1
  {
    StepUnfold(Ball(Vec2(5, 70), Vec2(-5, 5), Orange), Square7(), Env(70, 5, 64, 64, Region(Vec2(0, 0), Vec2(127, 127)), Vec2(64, 80)));
  }

  function BallOf(m: MovLayer): Ball
    reads m, m.layer
  {
    Ball(m.layer.posNext, m.velocity, m.layer.color)
  }

  function Balls(ms: seq<MovLayer>): (r: seq<Ball>)
    reads MovSet(ms), LayerSet(ms)
    ensures |r| == |ms|
  {
    if ms == [] then [] else [BallOf(ms[0])] + Balls(ms[1..])
  }

  /** The `k`-th ball is the `k`-th moving layer's. */
  lemma {:induction false} BallsAt(ms: seq<MovLayer>, k: nat)
    requires k < |ms|
    ensures Balls(ms)[k] == BallOf(ms[k])
  {
    if k > 0 {
      BallsAt(ms[1..], k - 1);
    }
  }

  lemma BallsAll(ms: seq<MovLayer>)
    ensures forall k {:trigger BallOf(ms[k])} :: 0 <= k < |ms| ==> Balls(ms)[k] == BallOf(ms[k])
  {
    forall k | 0 <= k < |ms|
      ensures Balls(ms)[k] == BallOf(ms[k])
    {
      BallsAt(ms, k);
    }
  }

  function Shapes(ms: seq<MovLayer>): (r: seq<AbShape>)
    ensures |r| == |ms|
    ensures forall k {:trigger r[k]} :: 0 <= k < |ms| ==> r[k] == ms[k].layer.abShape
  {
    if ms == [] then [] else [ms[0].layer.abShape] + Shapes(ms[1..])
  }

  /** Each moving layer's Step result, in list order. */
  function Results(shapes: seq<AbShape>, bs: seq<Ball>, e: Env): (r: seq<Motion>)
    requires |bs| == |shapes|
    ensures |r| == |bs|
    ensures forall k {:trigger Step(bs[k], shapes[k], e)} :: 0 <= k < |bs| ==> r[k] == Step(bs[k], shapes[k], e)
  {
    if bs == [] then [] else [Step(bs[0], shapes[0], e)] + Results(shapes[1..], bs[1..], e)
  }

  /** The `k`-th result is the `k`-th moving layer's Step. */
  lemma ResultsOf(ms: seq<MovLayer>, bs: seq<Ball>, e: Env)
    requires |bs| == |ms|
    ensures forall k {:trigger Step(bs[k], ms[k].layer.abShape, e)} :: 0 <= k < |ms| ==>
      Results(Shapes(ms), bs, e)[k] == Step(bs[k], ms[k].layer.abShape, e)
  {
    forall k | 0 <= k < |ms|
      ensures Results(Shapes(ms), bs, e)[k] == Step(bs[k], ms[k].layer.abShape, e)
    {
      assert Shapes(ms)[k] == ms[k].layer.abShape;
    }
  }

  /** The output `log` followed by the buzzer calls of the first `n`
      results, in order: one buzzer_set_period(0) per fence bounce. */
  function Tones(log: seq<Output>, rs: seq<Motion>, n: nat): seq<Output>
    requires n <= |rs|
  {
    if n == 0 then log else Tones(log, rs, n - 1) + Silences(rs[n - 1].bounces)
  }

  /** One more result appends its buzzer calls. */
  lemma TonesNext(log: seq<Output>, rs: seq<Motion>, k: nat)
    requires k < |rs|
    ensures Tones(log, rs, k + 1) == Tones(log, rs, k) + Silences(rs[k].bounces)
  {
  }

  const Player1Text: string := "Player1"
  const Player2Text: string := "Player2"

  /** The two labels drawn at the start of every mlAdvance call. */
  function Labels(screenWidth: nat, screenHeight: nat): seq<Output> {
    [DrawString((screenWidth / 2) / 2, (screenHeight / 2) / 2, Player2Text, White, Black),
     DrawString((screenWidth / 2) / 2, screenHeight - 75, Player1Text, White, Black)]
  }

  /** A paddle colour after the goal rules: red once its goal branch fired. */
  function PaddleColor(c: Color, goal: bool): Color {
    if goal then Red else c
  }

  /** One pass of the axis loop body of mlAdvance, for moving layer `ml`:
      the candidate position is passed in and returned, the velocity and the
      layer colours are updated in place. `bounced` tells whether the fence
      branch ran (and so called the buzzer). */
  method AxisPass(ml: MovLayer, axis: Axis, newPos: Vec2, shapeBoundary: Region, ghost bounces: nat,
                  rowH: int, colH: int, ml1: MovLayer, ml2: MovLayer, fence: Region, center: Vec2)
    returns (pos: Vec2, bounced: bool)
    requires ml.layer != ml1.layer && ml.layer != ml2.layer
    modifies ml`velocity, ml.layer`color, ml.layer`posNext, ml1.layer`color, ml2.layer`color
    ensures var e := Env(rowH, colH, ml1.layer.posNext.x, ml2.layer.posNext.x, fence, center);
      && Motion(pos, ml.velocity, ml.layer.color, bounces + Indicator(bounced))
         == AxisStep(Motion(newPos, old(ml.velocity), old(ml.layer.color), bounces), axis, shapeBoundary, e)
      && ml1.layer.color == PaddleColor(old(ml1.layer.color), BottomGoal(e) || (ml1.layer == ml2.layer && TopGoal(e)))
      && ml2.layer.color == PaddleColor(old(ml2.layer.color), TopGoal(e) || (ml1.layer == ml2.layer && BottomGoal(e)))
    ensures bounced == OutsideFence(shapeBoundary, fence, axis)
    ensures var e := Env(rowH, colH, ml1.layer.posNext.x, ml2.layer.posNext.x, fence, center);
      ml.layer.posNext == (if TopGoal(e) || BottomGoal(e) then pos else old(ml.layer.posNext))
  {
    pos := newPos;
    bounced := false;
    if shapeBoundary.topLeft.Get(axis) < fence.topLeft.Get(axis) || shapeBoundary.botRight.Get(axis) > fence.botRight.Get(axis) {
      var velocity := -ml.velocity.Get(axis);
      ml.velocity := ml.velocity.Set(axis, velocity);
      pos := pos.Set(axis, pos.Get(axis) + 2 * velocity);
      bounced := true;
    }
    if rowH >= 135 && colH <= ml2.layer.posNext.x + 15 && colH >= ml2.layer.posNext.x - 15 {
      ml.layer.color := Black;
      var velocity := -ml.velocity.Get(axis);
      ml.velocity := ml.velocity.Set(axis, velocity);
      ml.velocity := ml.velocity.Set(0, ml.velocity.x + 1);
      pos := pos.Set(axis, pos.Get(axis) + 2 * velocity);
    } else if rowH <= 21 && colH <= ml1.layer.posNext.x + 15 && colH >= ml1.layer.posNext.x - 15 {
      ml.layer.color := Red;
      var velocity := ml.velocity.Get(axis);
      ml.velocity := ml.velocity.Set(axis, velocity);
      ml.velocity := ml.velocity.Set(0, ml.velocity.x + 1);
      pos := pos.Set(axis, pos.Get(axis) + 2 * velocity);
    } else if rowH == 20 {
      ml2.layer.color := Red;
      pos := pos.Set(0, center.x);
      pos := pos.Set(1, center.y);
      ml.velocity := ml.velocity.Set(0, 5);
      ml.layer.posNext := pos;
    } else if rowH == 136 {
      ml1.layer.color := Red;
      pos := pos.Set(0, center.x);
      pos := pos.Set(1, center.y);
      ml.velocity := ml.velocity.Set(0, 5);
      ml.layer.posNext := pos;
    }
  }

  /** One iteration of mlAdvance's loop, for moving layer `ml`. */
  method AdvanceOne(ml: MovLayer, rowH: int, colH: int, ml1: MovLayer, ml2: MovLayer, fence: Region, center: Vec2)
    returns (tones: seq<Output>)
    requires ml.layer != ml1.layer && ml.layer != ml2.layer
    modifies ml`velocity, ml.layer`color, ml.layer`posNext, ml1.layer`color, ml2.layer`color
    ensures var e := Env(rowH, colH, old(ml1.layer.posNext.x), old(ml2.layer.posNext.x), fence, center);
      var r := Step(old(BallOf(ml)), ml.layer.abShape, e);
      && BallOf(ml) == r.ToBall()
      && tones == Silences(r.bounces)
      && ml1.layer.color == PaddleColor(old(ml1.layer.color), BottomGoal(e) || (ml1.layer == ml2.layer && TopGoal(e)))
      && ml2.layer.color == PaddleColor(old(ml2.layer.color), TopGoal(e) || (ml1.layer == ml2.layer && BottomGoal(e)))
  {
    ghost var e := Env(rowH, colH, ml1.layer.posNext.x, ml2.layer.posNext.x, fence, center);
    var newPos := ml.layer.posNext.Add(ml.velocity);
    var shapeBoundary := ml.layer.abShape.getBounds(newPos);
    ghost var m0 := Motion(newPos, ml.velocity, ml.layer.color, 0);
    ghost var g1 := BottomGoal(e) || (ml1.layer == ml2.layer && TopGoal(e));
    ghost var g2 := TopGoal(e) || (ml1.layer == ml2.layer && BottomGoal(e));
    tones := [];
    for axis := 0 to 2
      invariant Motion(newPos, ml.velocity, ml.layer.color, |tones|) == Axes(m0, axis, shapeBoundary, e)
      invariant tones == Silences(|tones|)
      invariant ml1.layer.color == PaddleColor(old(ml1.layer.color), axis > 0 && g1)
      invariant ml2.layer.color == PaddleColor(old(ml2.layer.color), axis > 0 && g2)
    {
      var bounced;
      newPos, bounced := AxisPass(ml, axis, newPos, shapeBoundary, |tones|, rowH, colH, ml1, ml2, fence, center);
      if bounced {
        tones := tones + [SetPeriod(0)];
      }
    }
    ml.layer.posNext := newPos;
  }

  /** AdvanceOne on the `k`-th moving layer of the list `ms`, stated against
      the whole list: that ball becomes its Step result and no other ball
      changes. */
  method AdvanceAt(m: MovLayer, ghost ms: seq<MovLayer>, ghost k: nat, ml1: MovLayer, ml2: MovLayer,
                   rowH: int, colH: int, fence: Region, center: Vec2, ghost e: Env) returns (tones: seq<Output>)
    requires e == Env(rowH, colH, ml1.layer.posNext.x, ml2.layer.posNext.x, fence, center)
    requires k < |ms| && m == ms[k]
    requires Distinct(LayersOf(ms))
    requires ml1.layer !in LayersOf(ms) && ml2.layer !in LayersOf(ms)
    modifies m`velocity, m.layer`color, m.layer`posNext, ml1.layer`color, ml2.layer`color
    ensures BallOf(m) == Step(old(BallOf(m)), m.layer.abShape, e).ToBall()
    ensures tones == Silences(Step(old(BallOf(m)), m.layer.abShape, e).bounces)
    ensures forall j {:trigger BallOf(ms[j])} :: 0 <= j < |ms| && j != k ==> BallOf(ms[j]) == old(BallOf(ms[j]))
    ensures ml1.layer.posNext == old(ml1.layer.posNext) && ml2.layer.posNext == old(ml2.layer.posNext)
    ensures ml1.layer.color == PaddleColor(old(ml1.layer.color), BottomGoal(e) || (ml1.layer == ml2.layer && TopGoal(e)))
    ensures ml2.layer.color == PaddleColor(old(ml2.layer.color), TopGoal(e) || (ml1.layer == ml2.layer && BottomGoal(e)))
  {
    assert LayersOf(ms)[k] == m.layer;
    tones := AdvanceOne(m, rowH, colH, ml1, ml2, fence, center);
    forall j | 0 <= j < |ms| && j != k
      ensures ms[j].layer != m.layer && ms[j] != m
    {
      if j < k { DistinctAt(LayersOf(ms), j, k); } else { DistinctAt(LayersOf(ms), k, j); }
    }
    forall j | 0 <= j < |ms|
      ensures ms[j].layer != ml1.layer && ms[j].layer != ml2.layer
    {
      assert LayersOf(ms)[j] == ms[j].layer;
    }
  }

  /** One iteration of mlAdvance's loop, on the `k`-th moving layer of the
      list `ms`: if the balls before `k` are advanced and the others are as
      they were at the start (`bs`), then afterwards the balls up to `k` are
      advanced, the buzzer calls of the `k`-th are logged, and the paddle
      colours have taken the goal rules into account. */
  method AdvanceNext(m: MovLayer, ghost ms: seq<MovLayer>, ghost k: nat, ml1: MovLayer, ml2: MovLayer,
                     rowH: int, colH: int, fence: Region, center: Vec2,
                     ghost e: Env, ghost bs: seq<Ball>, ghost rs: seq<Motion>, ghost c1: Color, ghost c2: Color,
                     out: seq<Output>, ghost log: seq<Output>) returns (out': seq<Output>)
    requires e == Env(rowH, colH, ml1.layer.posNext.x, ml2.layer.posNext.x, fence, center)
    requires k < |ms| == |bs| && m == ms[k]
    requires rs == Results(Shapes(ms), bs, e)
    requires Distinct(LayersOf(ms))
    requires ml1.layer !in LayersOf(ms) && ml2.layer !in LayersOf(ms)
    requires forall j {:trigger BallOf(ms[j])} :: 0 <= j < k ==> BallOf(ms[j]) == rs[j].ToBall()
    requires forall j {:trigger BallOf(ms[j])} :: k <= j < |ms| ==> BallOf(ms[j]) == bs[j]
    requires ml1.layer.color == PaddleColor(c1, k > 0 && (BottomGoal(e) || (ml1.layer == ml2.layer && TopGoal(e))))
    requires ml2.layer.color == PaddleColor(c2, k > 0 && (TopGoal(e) || (ml1.layer == ml2.layer && BottomGoal(e))))
    requires out == Tones(log, rs, k)
    modifies m`velocity, m.layer`color, m.layer`posNext, ml1.layer`color, ml2.layer`color
    ensures forall j {:trigger BallOf(ms[j])} :: 0 <= j < k + 1 ==> BallOf(ms[j]) == rs[j].ToBall()
    ensures forall j {:trigger BallOf(ms[j])} :: k + 1 <= j < |ms| ==> BallOf(ms[j]) == bs[j]
    ensures ml1.layer.posNext == old(ml1.layer.posNext) && ml2.layer.posNext == old(ml2.layer.posNext)
    ensures ml1.layer.color == PaddleColor(c1, BottomGoal(e) || (ml1.layer == ml2.layer && TopGoal(e)))
    ensures ml2.layer.color == PaddleColor(c2, TopGoal(e) || (ml1.layer == ml2.layer && BottomGoal(e)))
    ensures out' == Tones(log, rs, k + 1)
  {
    assert Shapes(ms)[k] == m.layer.abShape;
    assert rs[k] == Step(bs[k], m.layer.abShape, e);
    var tones := AdvanceAt(m, ms, k, ml1, ml2, rowH, colH, fence, center, e);
    TonesNext(log, rs, k);
    out' := out + tones;
  }

  /** mlAdvance(ml, ml1, ml2, fence): `ml` heads the moving list, `ml1` is the
      top paddle and `ml2` the bottom one. Every moving layer's ball is
      advanced by Step, in list order, from the values fixed at the start. */
  method MlAdvance(ml: MovLayer, ghost ms: seq<MovLayer>, ml1: MovLayer, ml2: MovLayer, fence: Region,
                   screenWidth: nat, screenHeight: nat) returns (out: seq<Output>)
    requires MovList(ml, ms)
    requires ml1.layer !in LayersOf(ms) && ml2.layer !in LayersOf(ms)
    modifies MovSet(ms)`velocity, LayerSet(ms)`color, LayerSet(ms)`posNext, ml1.layer`color, ml2.layer`color
    ensures var e := Env(old(ml.layer.posNext.y), old(ml.layer.posNext.x), old(ml1.layer.posNext.x),
                         old(ml2.layer.posNext.x), fence, Vec2(screenWidth / 2, screenHeight / 2));
      && (forall j :: 0 <= j < |ms| ==> BallOf(ms[j]) == Step(old(BallOf(ms[j])), ms[j].layer.abShape, e).ToBall())
      && out == Tones(Labels(screenWidth, screenHeight), Results(Shapes(ms), old(Balls(ms)), e), |ms|)
      && ml1.layer.color == PaddleColor(old(ml1.layer.color), BottomGoal(e) || (ml1.layer == ml2.layer && TopGoal(e)))
      && ml2.layer.color == PaddleColor(old(ml2.layer.color), TopGoal(e) || (ml1.layer == ml2.layer && BottomGoal(e)))
  {
    out := Labels(screenWidth, screenHeight);
    ghost var log := out;
    var rowH := ml.layer.posNext.y;
    var colH := ml.layer.posNext.x;
    var center := Vec2(screenWidth / 2, screenHeight / 2);
    ghost var e := Env(rowH, colH, ml1.layer.posNext.x, ml2.layer.posNext.x, fence, center);
    ghost var bs := Balls(ms);
    BallsAll(ms);
    ghost var g1 := BottomGoal(e) || (ml1.layer == ml2.layer && TopGoal(e));
    ghost var g2 := TopGoal(e) || (ml1.layer == ml2.layer && BottomGoal(e));
    ghost var rs := Results(Shapes(ms), bs, e);
    ghost var c1, c2 := ml1.layer.color, ml2.layer.color;
    var m: MovLayer? := ml;
    ghost var k := 0;
    while m != null
      invariant 0 <= k <= |ms|
      invariant MovChainFrom(m, ms, k)
      invariant forall j {:trigger BallOf(ms[j])} :: 0 <= j < k ==> BallOf(ms[j]) == rs[j].ToBall()
      invariant forall j {:trigger BallOf(ms[j])} :: k <= j < |ms| ==> BallOf(ms[j]) == bs[j]
      invariant ml1.layer.posNext == old(ml1.layer.posNext) && ml2.layer.posNext == old(ml2.layer.posNext)
      invariant ml1.layer.color == PaddleColor(c1, k > 0 && g1)
      invariant ml2.layer.color == PaddleColor(c2, k > 0 && g2)
      invariant out == Tones(log, rs, k)
      decreases |ms| - k
    {
      FrameAt(ms, k);
      assert LayersOf(ms)[k] == m.layer;
      out := AdvanceNext(m, ms, k, ml1, ml2, rowH, colH, fence, center, e, bs, rs, c1, c2, out, log);
      m := m.next;
      k := k + 1;
    }
    ResultsOf(ms, bs, e);
  }
}
