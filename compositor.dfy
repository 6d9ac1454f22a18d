/** movLayerDraw of snake/pong.c: commit every moving layer's next position,
    then repaint each moving layer's bounding box pixel by pixel, colouring
    each pixel by probing the layer list front to back. */
module Compositor {
  import opened Geometry
  import opened Peripherals
  import opened Layers

  /** Does the shape of layer `z`, centred at its committed position, contain `pixel`? */
  predicate Hit(z: LayerState, pixel: Vec2) {
    z.abShape.check(z.pos, pixel)
  }

  /** The colour of `pixel`: that of the first layer whose shape contains it,
      or the background colour when none does. */
  function Probe(zs: seq<LayerState>, pixel: Vec2, bg: Color): (r: Color)
    ensures r == bg || exists j :: 0 <= j < |zs| && Hit(zs[j], pixel) && r == zs[j].color
  {
    if zs == [] then bg
    else if Hit(zs[0], pixel) then zs[0].color
    else Probe(zs[1..], pixel, bg)
  }

  /** Z-order precedence: the first layer that contains the pixel decides its
      colour, and the layers after it are never consulted. */
  lemma {:induction false} ProbeFirstMatch(zs: seq<LayerState>, pixel: Vec2, bg: Color, k: nat, rest: seq<LayerState>)
    requires k < |zs| && Hit(zs[k], pixel)
    requires forall j :: 0 <= j < k ==> !Hit(zs[j], pixel)
    ensures Probe(zs, pixel, bg) == zs[k].color
    ensures Probe(zs[..k + 1] + rest, pixel, bg) == zs[k].color
  {
    if k > 0 {
      ProbeFirstMatch(zs[1..], pixel, bg, k - 1, rest);
      assert (zs[..k + 1] + rest)[1..] == zs[1..][..k] + rest;
    }
  }

  /** A pixel no layer contains gets the background colour. */
  lemma {:induction false} ProbeNoMatch(zs: seq<LayerState>, pixel: Vec2, bg: Color)
    requires forall j :: 0 <= j < |zs| ==> !Hit(zs[j], pixel)
    ensures Probe(zs, pixel, bg) == bg
  {
    if zs != [] {
      ProbeNoMatch(zs[1..], pixel, bg);
    }
  }

  /** Number of columns of an inclusive region (0 when it is empty). */
  function Width(r: Region): nat {
    if r.botRight.x < r.topLeft.x then 0 else r.botRight.x - r.topLeft.x + 1
  }

  /** Number of rows of an inclusive region (0 when it is empty). */
  function Height(r: Region): nat {
    if r.botRight.y < r.topLeft.y then 0 else r.botRight.y - r.topLeft.y + 1
  }

  /** The pixel in row `i`, column `j` of `r`, counted from its top-left corner. */
  function PixelAt(r: Region, i: int, j: int): Vec2 {
    Vec2(r.topLeft.x + j, r.topLeft.y + i)
  }

  lemma {:induction false} MulMonotone(a: nat, b: nat, c: nat)
    requires a <= b
    ensures a * c <= b * c
  {
    if c > 0 {
      MulMonotone(a, b, c - 1);
      assert a * c == a * (c - 1) + a;
      assert b * c == b * (c - 1) + b;
    }
  }

  /** Position of row `i`, column `j` in a row-major stream whose rows hold `w` pixels. */
  function Offset(w: nat, n: nat, i: nat, j: nat): (k: nat)
    requires i < n && j < w
    ensures k < n * w
  {
    MulMonotone(i + 1, n, w);
    i * w + j
  }

  /** The writes for pixels (x0, y) .. (x - 1, y), left to right. */
  function RowOps(zs: seq<LayerState>, bg: Color, y: int, x0: int, x: int): seq<Output>
    decreases x - x0
  {
    if x <= x0 then [] else RowOps(zs, bg, y, x0, x - 1) + [WriteColor(Probe(zs, Vec2(x - 1, y), bg))]
  }

  /** The writes for the rows of `r` above row `y`, top to bottom. */
  function AreaOps(zs: seq<LayerState>, bg: Color, r: Region, y: int): seq<Output>
    decreases y - r.topLeft.y
  {
    if y <= r.topLeft.y then []
    else AreaOps(zs, bg, r, y - 1) + RowOps(zs, bg, y - 1, r.topLeft.x, r.botRight.x + 1)
  }

  /** The colour writes that repaint region `r`. */
  function AreaWrites(zs: seq<LayerState>, bg: Color, r: Region): seq<Output> {
    AreaOps(zs, bg, r, r.botRight.y + 1)
  }

  /** Address the region, then stream its colours. */
  function PaintOps(zs: seq<LayerState>, bg: Color, r: Region): seq<Output> {
    [SetArea(r)] + AreaWrites(zs, bg, r)
  }

  /** The display traffic of repainting the regions `rs` in order. */
  function RepaintOps(zs: seq<LayerState>, bg: Color, rs: seq<Region>): seq<Output> {
    if rs == [] then [] else RepaintOps(zs, bg, rs[..|rs| - 1]) + PaintOps(zs, bg, rs[|rs| - 1])
  }

  lemma Assoc(a: seq<Output>, b: seq<Output>, c: seq<Output>)
    ensures (a + b) + c == a + (b + c)
  {
  }

  /** One more pixel of a row appends its colour. */
  lemma RowOpsNext(zs: seq<LayerState>, bg: Color, y: int, x0: int, x: int)
    requires x0 <= x
    ensures RowOps(zs, bg, y, x0, x + 1) == RowOps(zs, bg, y, x0, x) + [WriteColor(Probe(zs, Vec2(x, y), bg))]
  {
  }

  /** One more row of a region appends that row's colours. */
  lemma AreaOpsNext(zs: seq<LayerState>, bg: Color, r: Region, y: int)
    requires r.topLeft.y <= y
    ensures AreaOps(zs, bg, r, y + 1) == AreaOps(zs, bg, r, y) + RowOps(zs, bg, y, r.topLeft.x, r.botRight.x + 1)
  {
  }

  /** Repainting one more region appends that region's traffic. */
  lemma RepaintOpsNext(zs: seq<LayerState>, bg: Color, rs: seq<Region>, k: nat)
    requires k < |rs|
    ensures RepaintOps(zs, bg, rs[..k + 1]) == RepaintOps(zs, bg, rs[..k]) + PaintOps(zs, bg, rs[k])
  {
    assert rs[..k + 1][..k] == rs[..k];
  }

  lemma {:induction false} RowOpsLayout(zs: seq<LayerState>, bg: Color, y: int, x0: int, x: int)
    ensures |RowOps(zs, bg, y, x0, x)| == if x <= x0 then 0 else x - x0
    ensures forall j :: 0 <= j < |RowOps(zs, bg, y, x0, x)| ==>
      RowOps(zs, bg, y, x0, x)[j] == WriteColor(Probe(zs, Vec2(x0 + j, y), bg))
    decreases x - x0
  {
    if x > x0 {
      RowOpsLayout(zs, bg, y, x0, x - 1);
    }
  }

  /** Number of rows of `r` above row `y`. */
  function RowsAbove(r: Region, y: int): nat {
    if y <= r.topLeft.y then 0 else y - r.topLeft.y
  }

  lemma MulStep(n: nat, w: nat)
    requires n >= 1
    ensures (n - 1) * w + w == n * w
  {
  }

  /** Appending a row of `w` writes to `n - 1` rows: the cell (i, j) of
      the `n` rows is the old cell for i < n - 1 and the row's j-th write
      for the last row. */
  lemma RowAppended(a: seq<Output>, row: seq<Output>, w: nat, n: nat, i: nat, j: nat)
    requires |a| == (n - 1) * w && |row| == w && i < n && j < w
    ensures i < n - 1 ==> (a + row)[Offset(w, n, i, j)] == a[Offset(w, n - 1, i, j)]
    ensures i == n - 1 ==> (a + row)[Offset(w, n, i, j)] == row[j]
  {
    if i < n - 1 {
      assert Offset(w, n, i, j) == Offset(w, n - 1, i, j);
    } else {
      assert Offset(w, n, i, j) == |a| + j;
    }
  }

  lemma {:induction false} AreaOpsLayout(zs: seq<LayerState>, bg: Color, r: Region, y: int)
    ensures |AreaOps(zs, bg, r, y)| == RowsAbove(r, y) * Width(r)
    ensures forall i: nat, j: nat :: i < RowsAbove(r, y) && j < Width(r) ==>
      AreaOps(zs, bg, r, y)[Offset(Width(r), RowsAbove(r, y), i, j)]
        == WriteColor(Probe(zs, PixelAt(r, i, j), bg))
    decreases y - r.topLeft.y
  {
    var w := Width(r);
    if y > r.topLeft.y {
      var n := y - r.topLeft.y;
      AreaOpsLayout(zs, bg, r, y - 1);
      RowOpsLayout(zs, bg, y - 1, r.topLeft.x, r.botRight.x + 1);
      var a := AreaOps(zs, bg, r, y - 1);
      var row := RowOps(zs, bg, y - 1, r.topLeft.x, r.botRight.x + 1);
      assert RowsAbove(r, y - 1) == n - 1 && RowsAbove(r, y) == n;
      assert |a| == (n - 1) * w && |row| == w;
      MulStep(n, w);
      assert AreaOps(zs, bg, r, y) == a + row;
      forall i: nat, j: nat | i < n && j < w
        ensures AreaOps(zs, bg, r, y)[Offset(w, n, i, j)] == WriteColor(Probe(zs, PixelAt(r, i, j), bg))
      {
        RowAppended(a, row, w, n, i, j);
        if i == n - 1 {
          assert PixelAt(r, i, j) == Vec2(r.topLeft.x + j, y - 1);
        }
      }
    }
  }

  /** Repainting a region streams exactly Width * Height colours after the
      address command, in row-major order, each the z-order probe of its pixel. */
  lemma PaintLayout(zs: seq<LayerState>, bg: Color, r: Region)
    ensures |AreaWrites(zs, bg, r)| == Width(r) * Height(r)
    ensures PaintOps(zs, bg, r) == [SetArea(r)] + AreaWrites(zs, bg, r)
    ensures forall i: nat, j: nat :: i < Height(r) && j < Width(r) ==>
      AreaWrites(zs, bg, r)[Offset(Width(r), Height(r), i, j)] == WriteColor(Probe(zs, PixelAt(r, i, j), bg))
  {
    AreaOpsLayout(zs, bg, r, r.botRight.y + 1);
  }

  /** The bounds of each layer, computed by the layer library. */
  function Bounds(layerGetBounds: LayerState -> Region, ls: seq<LayerState>): (rs: seq<Region>)
    ensures |rs| == |ls|
    ensures forall k {:trigger layerGetBounds(ls[k])} :: 0 <= k < |ls| ==> rs[k] == layerGetBounds(ls[k])
  {
    if ls == [] then [] else [layerGetBounds(ls[0])] + Bounds(layerGetBounds, ls[1..])
  }

  /** The committed state of a layer: the current position becomes the last
      one and the next position becomes the current one. */
  function Committed(s: LayerState): (r: LayerState)
    ensures r.posLast == s.pos && r.pos == s.posNext
    ensures r.abShape == s.abShape && r.posNext == s.posNext && r.color == s.color
  {
    s.(posLast := s.pos, pos := s.posNext)
  }

  /** The commit step of movLayerDraw (run with interrupts masked). */
  method Commit(movLayers: MovLayer?, ghost ms: seq<MovLayer>)
    requires MovList(movLayers, ms)
    modifies LayerSet(ms)
    ensures forall k :: 0 <= k < |ms| ==> State(ms[k].layer) == Committed(old(State(ms[k].layer)))
  {
    var movLayer := movLayers;
    ghost var k := 0;
    while movLayer != null
      invariant 0 <= k <= |ms|
      invariant MovChainFrom(movLayer, ms, k)
      invariant forall j :: 0 <= j < k ==> State(ms[j].layer) == Committed(old(State(ms[j].layer)))
      invariant forall j :: k <= j < |ms| ==> State(ms[j].layer) == old(State(ms[j].layer))
      decreases |ms| - k
    {
      forall j | 0 <= j < |ms| && j != k
        ensures ms[j].layer != ms[k].layer
      {
        if j < k { DistinctAt(LayersOf(ms), j, k); } else { DistinctAt(LayersOf(ms), k, j); }
      }
      FrameAt(ms, k);
      var l := movLayer.layer;
      l.posLast := l.pos;
      l.pos := l.posNext;
      movLayer := movLayer.next;
      k := k + 1;
    }
  }

  /** The innermost loop of movLayerDraw: probe the layers in list order. */
  method ProbeColor(layers: Layer?, ghost zs: seq<Layer>, pixel: Vec2, bg: Color) returns (color: Color)
    requires LayerList(layers, zs)
    ensures color == Probe(States(zs), pixel, bg)
  {
    ghost var ss := States(zs);
    color := bg;
    var probeLayer := layers;
    ghost var i := 0;
    while probeLayer != null
      invariant 0 <= i <= |zs|
      invariant LayerListFrom(probeLayer, zs, i)
      invariant Probe(ss, pixel, bg) == Probe(ss[i..], pixel, bg)
      decreases |zs| - i
    {
      if probeLayer.abShape.check(probeLayer.pos, pixel) {
        color := probeLayer.color;
        break;
      }
      assert ss[i..][1..] == ss[i + 1..];
      probeLayer := probeLayer.next;
      i := i + 1;
    }
  }

  /** Repaint one region: address it, then one colour per pixel, row by row. */
  method PaintArea(bounds: Region, layers: Layer?, ghost zs: seq<Layer>, bg: Color) returns (ops: seq<Output>)
    requires LayerList(layers, zs)
    ensures ops == PaintOps(States(zs), bg, bounds)
  {
    ghost var ss := States(zs);
    ops := [SetArea(bounds)];
    var row := bounds.topLeft.y;
    while row <= bounds.botRight.y
      invariant row == bounds.topLeft.y || bounds.topLeft.y < row <= bounds.botRight.y + 1
      invariant ops == [SetArea(bounds)] + AreaOps(ss, bg, bounds, row)
    {
      ghost var head := ops;
      var col := bounds.topLeft.x;
      while col <= bounds.botRight.x
        invariant col == bounds.topLeft.x || bounds.topLeft.x < col <= bounds.botRight.x + 1
        invariant ops == head + RowOps(ss, bg, row, bounds.topLeft.x, col)
      {
        var color := ProbeColor(layers, zs, Vec2(col, row), bg);
        RowOpsNext(ss, bg, row, bounds.topLeft.x, col);
        Assoc(head, RowOps(ss, bg, row, bounds.topLeft.x, col), [WriteColor(color)]);
        ops := ops + [WriteColor(color)];
        col := col + 1;
      }
      assert RowOps(ss, bg, row, bounds.topLeft.x, col) == RowOps(ss, bg, row, bounds.topLeft.x, bounds.botRight.x + 1);
      AreaOpsNext(ss, bg, bounds, row);
      Assoc([SetArea(bounds)], AreaOps(ss, bg, bounds, row), RowOps(ss, bg, row, bounds.topLeft.x, bounds.botRight.x + 1));
      row := row + 1;
    }
  }

  /** The repaint step of movLayerDraw: repaint the bounds of every moving
      layer, in list order. Nothing is modified. */
  method Repaint(movLayers: MovLayer?, ghost ms: seq<MovLayer>, layers: Layer?, ghost zs: seq<Layer>,
                 bg: Color, layerGetBounds: LayerState -> Region) returns (ops: seq<Output>)
    requires MovChain(movLayers, ms) && LayerList(layers, zs)
    ensures ops == RepaintOps(States(zs), bg, Bounds(layerGetBounds, States(LayersOf(ms))))
  {
    ghost var ss := States(zs);
    ghost var ls := States(LayersOf(ms));
    ghost var rs := Bounds(layerGetBounds, ls);
    ops := [];
    var movLayer := movLayers;
    ghost var k := 0;
    while movLayer != null
      invariant 0 <= k <= |ms|
      invariant MovChainFrom(movLayer, ms, k)
      invariant ops == RepaintOps(ss, bg, rs[..k])
      decreases |ms| - k
    {
      var bounds := layerGetBounds(State(movLayer.layer));
      assert bounds == rs[k] by {
        assert LayersOf(ms)[k] == movLayer.layer;
        assert ls[k] == State(movLayer.layer);
      }
      var area := PaintArea(bounds, layers, zs, bg);
      RepaintOpsNext(ss, bg, rs, k);
      ops := ops + area;
      movLayer := movLayer.next;
      k := k + 1;
    }
    assert rs[..k] == rs;
  }

  /** movLayerDraw: commit, then repaint from the committed positions. */
  method MovLayerDraw(movLayers: MovLayer?, ghost ms: seq<MovLayer>, layers: Layer?, ghost zs: seq<Layer>,
                      bg: Color, layerGetBounds: LayerState -> Region) returns (ops: seq<Output>)
    requires MovList(movLayers, ms) && LayerList(layers, zs)
    modifies LayerSet(ms)
    ensures forall k :: 0 <= k < |ms| ==> State(ms[k].layer) == Committed(old(State(ms[k].layer)))
    ensures ops == RepaintOps(States(zs), bg, Bounds(layerGetBounds, States(LayersOf(ms))))
  {
    Commit(movLayers, ms);
    ops := Repaint(movLayers, ms, layers, zs, bg, layerGetBounds);
  }
}
