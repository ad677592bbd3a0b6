/** The drawing surface of src/utils/pixelArt.ts, one cell per logical pixel.

    Every canvas call the renderer makes fills whole logical pixels (all
    coordinates are integers scaled by the same pixel size), so a cell is
    modelled by the colour laid down first (the background gradient) and the
    list of fill styles painted over it, oldest first.  How translucent fills
    blend is left to the canvas; the model keeps the order of the strokes. */
module Canvas {
  /** Logical pixels per side of the pet canvas (`GRID_SIZE`). */
  const GridSize: nat := 32

  datatype Colour =
    | Css(css: string)
    /** The colour of row `row` of a vertical gradient from `top` to `bottom`. */
    | Gradient(top: string, bottom: string, row: int)

  datatype Cell = Cell(base: Colour, strokes: seq<string>) {
    /** The colour of the last fill, or the base when nothing was painted. */
    function Top(): Colour {
      if |strokes| == 0 then base else Css(strokes[|strokes| - 1])
    }
  }

  /** Rows of cells: `g[y][x]`. */
  type Grid = seq<seq<Cell>>

  predicate InGrid(g: Grid, x: int, y: int) {
    0 <= y < |g| && 0 <= x < |g[y]|
  }

  /** Same number of rows and same row lengths. */
  predicate SameShape(a: Grid, b: Grid) {
    |a| == |b| && forall y :: 0 <= y < |a| ==> |a[y]| == |b[y]|
  }

  datatype Shape =
    | Pixel(x: int, y: int)
    | Rect(x: int, y: int, w: int, h: int)
    | Circle(cx: int, cy: int, r: int)
    | Ellipse(cx: int, cy: int, rx: int, ry: int)
    /** The faint background pattern: every other cell of every other row,
        where the coordinate sum is a multiple of four. */
    | Dots

  /** One fill: a shape and the fill style it is painted with. */
  datatype Op = Op(shape: Shape, colour: string)

  /** `p` lies in the span a canvas rectangle of origin `a` and signed extent
      `len` covers; a negative extent reaches back from the origin. */
  predicate InSpan(a: int, len: int, p: int) {
    if len >= 0 then a <= p < a + len else a + len <= p < a
  }

  /** The test `fillCircle` applies to an offset from the centre. */
  predicate InCircle(dx: int, dy: int, r: int) {
    dx * dx + dy * dy <= r * r
  }

  /** The test `fillEllipse` applies to an offset, multiplied through by
      rx²·ry²; a zero radius makes the source's quotient NaN, which is never
      `<= 1`. */
  predicate InEllipse(dx: int, dy: int, rx: int, ry: int) {
    rx != 0 && ry != 0 && dx * dx * (ry * ry) + dy * dy * (rx * rx) <= rx * rx * (ry * ry)
  }

  predicate InDots(x: int, y: int) {
    0 <= x < GridSize && 0 <= y < GridSize && x % 2 == 0 && y % 2 == 0 && (x + y) % 4 == 0
  }

  /** The cells a shape's canvas calls fill: the loop ranges and tests of the
      source's primitives, in closed form. */
  predicate Covers(s: Shape, x: int, y: int) {
    match s
    case Pixel(px, py) => x == px && y == py
    case Rect(rx, ry, w, h) => InSpan(rx, w, x) && InSpan(ry, h, y)
    case Circle(cx, cy, r) =>
      -r <= x - cx <= r && -r <= y - cy <= r && InCircle(x - cx, y - cy, r)
    case Ellipse(cx, cy, rx, ry) =>
      -rx <= x - cx <= rx && -ry <= y - cy <= ry && InEllipse(x - cx, y - cy, rx, ry)
    case Dots => InDots(x, y)
  }

  // ----- the source's four primitives, as fills -----

  /** `drawPixel(ctx, x, y, colour)`. */
  function DrawPixel(x: int, y: int, colour: string): Op {
    Op(Pixel(x, y), colour)
  }

  /** `fillRect(ctx, x, y, w, h, colour)`. */
  function FillRect(x: int, y: int, w: int, h: int, colour: string): Op {
    Op(Rect(x, y, w, h), colour)
  }

  /** `fillCircle(ctx, cx, cy, r, colour)`. */
  function FillCircle(cx: int, cy: int, r: int, colour: string): Op {
    Op(Circle(cx, cy, r), colour)
  }

  /** `fillEllipse(ctx, cx, cy, rx, ry, colour)`. */
  function FillEllipse(cx: int, cy: int, rx: int, ry: int, colour: string): Op {
    Op(Ellipse(cx, cy, rx, ry), colour)
  }

  function Stroke(c: Cell, colour: string): Cell {
    Cell(c.base, c.strokes + [colour])
  }

  /** One fill applied to every cell of the grid. */
  function Paint(g: Grid, op: Op): (r: Grid)
    ensures SameShape(r, g)
  {
    seq(|g|, y requires 0 <= y < |g| =>
      seq(|g[y]|, x requires 0 <= x < |g[y]| =>
        if Covers(op.shape, x, y) then Stroke(g[y][x], op.colour) else g[y][x]))
  }

  /** Fills applied in order, the first one lowest. */
  function Apply(g: Grid, ops: seq<Op>): (r: Grid)
    ensures SameShape(r, g)
  {
    if |ops| == 0 then g else Paint(Apply(g, ops[..|ops| - 1]), ops[|ops| - 1])
  }

  /** The fill styles of the fills in `ops` that cover cell (x, y), oldest
      first. */
  function StrokesAt(ops: seq<Op>, x: int, y: int): seq<string> {
    if |ops| == 0 then []
    else
      var last := ops[|ops| - 1];
      StrokesAt(ops[..|ops| - 1], x, y) + (if Covers(last.shape, x, y) then [last.colour] else [])
  }

  // ----- cell-wise reading of a sequence of fills -----

  /** After a sequence of fills, a cell holds its earlier strokes followed by
      the fill styles of exactly the fills that cover it, in drawing order. */
  lemma {:induction false} ApplyCell(g: Grid, ops: seq<Op>, x: int, y: int)
    requires InGrid(g, x, y)
    ensures InGrid(Apply(g, ops), x, y)
    ensures Apply(g, ops)[y][x] == Cell(g[y][x].base, g[y][x].strokes + StrokesAt(ops, x, y))
  {
    if |ops| > 0 {
      ApplyCell(g, ops[..|ops| - 1], x, y);
    }
  }

  lemma {:induction false} StrokesAppend(a: seq<Op>, b: seq<Op>, x: int, y: int)
    ensures StrokesAt(a + b, x, y) == StrokesAt(a, x, y) + StrokesAt(b, x, y)
  {
    if |b| > 0 {
      var b' := b[..|b| - 1];
      assert (a + b)[..|a + b| - 1] == a + b';
      StrokesAppend(a, b', x, y);
    } else {
      assert a + b == a;
    }
  }

  /** No fill of `ops` covers (x, y). */
  predicate Misses(ops: seq<Op>, x: int, y: int) {
    forall i :: 0 <= i < |ops| ==> !Covers(ops[i].shape, x, y)
  }

  /** No stroke lands on a cell exactly when no fill covers it. */
  lemma {:induction false} StrokesEmpty(ops: seq<Op>, x: int, y: int)
    ensures StrokesAt(ops, x, y) == [] <==> Misses(ops, x, y)
  {
    if |ops| > 0 {
      var init := ops[..|ops| - 1];
      StrokesEmpty(init, x, y);
      if StrokesAt(ops, x, y) == [] {
        forall i | 0 <= i < |ops|
          ensures !Covers(ops[i].shape, x, y)
        {
          if i < |ops| - 1 {
            assert ops[i] == init[i];
          }
        }
      }
    }
  }

  /** Painting keeps a full-size canvas full-size. */
  lemma ApplyFullSize(g: Grid, ops: seq<Op>)
    requires |g| == GridSize && forall y :: 0 <= y < |g| ==> |g[y]| == GridSize
    ensures |Apply(g, ops)| == GridSize && forall y :: 0 <= y < GridSize ==> |Apply(g, ops)[y]| == GridSize
  {
    var r := Apply(g, ops);
    assert SameShape(r, g);
  }

  /** A cell no fill covers keeps exactly what it held. */
  lemma ApplyUntouched(g: Grid, ops: seq<Op>, x: int, y: int)
    requires InGrid(g, x, y) && Misses(ops, x, y)
    ensures InGrid(Apply(g, ops), x, y) && Apply(g, ops)[y][x] == g[y][x]
  {
    ApplyCell(g, ops, x, y);
    StrokesEmpty(ops, x, y);
  }

  lemma MissesAppend(a: seq<Op>, b: seq<Op>, x: int, y: int)
    requires Misses(a, x, y) && Misses(b, x, y)
    ensures Misses(a + b, x, y)
  {
    forall i | 0 <= i < |a + b| ensures !Covers((a + b)[i].shape, x, y) {
      if i < |a| {
        assert (a + b)[i] == a[i];
      } else {
        assert (a + b)[i] == b[i - |a|];
      }
    }
  }

  /** A cell painted by `front`'s last fill and by nothing in `back` shows that
      fill's colour after `front + back`. */
  lemma ApplyTopSplit(g: Grid, front: seq<Op>, back: seq<Op>, x: int, y: int)
    requires InGrid(g, x, y)
    requires |front| > 0 && Covers(front[|front| - 1].shape, x, y)
    requires Misses(back, x, y)
    ensures InGrid(Apply(g, front + back), x, y)
    ensures Apply(g, front + back)[y][x].Top() == Css(front[|front| - 1].colour)
  {
    var ops := front + back;
    forall j | |front| - 1 < j < |ops| ensures !Covers(ops[j].shape, x, y) {
      assert ops[j] == back[j - |front|];
    }
    ApplyTop(g, ops, |front| - 1, x, y);
  }

  /** The visible colour of a cell is the fill style of the last fill that
      covers it. */
  lemma ApplyTop(g: Grid, ops: seq<Op>, i: int, x: int, y: int)
    requires InGrid(g, x, y)
    requires 0 <= i < |ops| && Covers(ops[i].shape, x, y)
    requires forall j :: i < j < |ops| ==> !Covers(ops[j].shape, x, y)
    ensures InGrid(Apply(g, ops), x, y) && Apply(g, ops)[y][x].Top() == Css(ops[i].colour)
  {
    ApplyCell(g, ops, x, y);
    var front, back := ops[..i + 1], ops[i + 1..];
    assert ops == front + back;
    StrokesAppend(front, back, x, y);
    StrokesEmpty(back, x, y) by {
      forall j | 0 <= j < |back| ensures !Covers(back[j].shape, x, y) {
        assert back[j] == ops[i + 1 + j];
      }
    }
    assert front[..|front| - 1] == ops[..i];
  }

  /** Drawing `a` then `b` is drawing `a + b`. */
  lemma {:induction false} ApplyAppend(g: Grid, a: seq<Op>, b: seq<Op>)
    ensures Apply(g, a + b) == Apply(Apply(g, a), b)
  {
    if |b| == 0 {
      assert a + b == a;
    } else {
      var b' := b[..|b| - 1];
      assert (a + b)[..|a + b| - 1] == a + b';
      ApplyAppend(g, a, b');
    }
  }

  /** `drawPixel` fills exactly its one cell, if that cell is on the grid,
      and is the same as a one-by-one `fillRect`. */
  lemma PaintPixel(g: Grid, x: int, y: int, colour: string)
    ensures Paint(g, DrawPixel(x, y, colour)) == PaintCell(g, x, y, colour)
    ensures Paint(g, DrawPixel(x, y, colour)) == Paint(g, FillRect(x, y, 1, 1, colour))
  {
    GridExt(Paint(g, DrawPixel(x, y, colour)), PaintCell(g, x, y, colour));
    GridExt(Paint(g, DrawPixel(x, y, colour)), Paint(g, FillRect(x, y, 1, 1, colour)));
  }

  /** A rectangle with a negative extent covers the same cells as the
      rectangle reflected onto its other side, as a canvas normalises it. */
  lemma RectNormalised(x: int, y: int, w: int, h: int, px: int, py: int)
    requires w < 0
    ensures Covers(Rect(x, y, w, h), px, py) <==> Covers(Rect(x + w, y, -w, h), px, py)
  {
  }

  lemma MulMonotone(a: int, b: int, c: int)
    requires c > 0
    ensures a * c <= b * c <==> a <= b
  {
    if a <= b {
      assert b * c - a * c == (b - a) * c;
    } else {
      assert a * c - b * c == (a - b) * c;
    }
  }

  /** A circle of positive radius covers the cells of the ellipse with both
      radii equal to it; at radius zero the circle still fills its centre
      while the ellipse fills nothing. */
  lemma CircleAsEllipse(cx: int, cy: int, r: int, x: int, y: int)
    requires r >= 0
    ensures r > 0 ==> (Covers(Circle(cx, cy, r), x, y) <==> Covers(Ellipse(cx, cy, r, r), x, y))
    ensures r == 0 ==> (Covers(Circle(cx, cy, r), x, y) <==> x == cx && y == cy)
    ensures r == 0 ==> !Covers(Ellipse(cx, cy, r, r), x, y)
  {
    var dx, dy := x - cx, y - cy;
    if r > 0 {
      assert dx * dx * (r * r) + dy * dy * (r * r) == (dx * dx + dy * dy) * (r * r);
      MulMonotone(dx * dx + dy * dy, r * r, r * r);
    } else {
      if Covers(Circle(cx, cy, r), x, y) {
        assert dx == 0 && dy == 0;
      }
    }
  }

  // ----- the loops of the source's primitives -----

  /** Cells strictly before (col, row) in the row-major order the loops visit. */
  predicate Before(x: int, y: int, row: int, col: int) {
    y < row || (y == row && x < col)
  }

  /** The grid part-way through a scan: covered cells before (col, row) painted. */
  function Partial(g: Grid, op: Op, row: int, col: int): Grid {
    seq(|g|, y requires 0 <= y < |g| =>
      seq(|g[y]|, x requires 0 <= x < |g[y]| =>
        if Covers(op.shape, x, y) && Before(x, y, row, col) then Stroke(g[y][x], op.colour) else g[y][x]))
  }

  /** A single cell painted, when it lies on the grid (the canvas clips). */
  function PaintCell(g: Grid, x: int, y: int, colour: string): Grid {
    if InGrid(g, x, y) then g[y := g[y][x := Stroke(g[y][x], colour)]] else g
  }

  lemma GridExt(a: Grid, b: Grid)
    requires SameShape(a, b)
    requires forall y, x :: 0 <= y < |a| && 0 <= x < |a[y]| ==> a[y][x] == b[y][x]
    ensures a == b
  {
    forall y | 0 <= y < |a| ensures a[y] == b[y] {
    }
  }

  /** Every cell the shape covers lies in the box [x0, x1] × [y0, y1]. */
  ghost predicate Within(s: Shape, x0: int, x1: int, y0: int, y1: int) {
    forall x, y :: Covers(s, x, y) ==> x0 <= x <= x1 && y0 <= y <= y1
  }

  /** Two scan positions with no covered cell between them give the same grid. */
  lemma PartialSame(g: Grid, op: Op, r1: int, c1: int, r2: int, c2: int)
    requires forall y, x :: 0 <= y < |g| && 0 <= x < |g[y]| && Covers(op.shape, x, y) ==>
               (Before(x, y, r1, c1) <==> Before(x, y, r2, c2))
    ensures Partial(g, op, r1, c1) == Partial(g, op, r2, c2)
  {
    GridExt(Partial(g, op, r1, c1), Partial(g, op, r2, c2));
  }

  /** Visiting a cell paints it when it is covered and moves the scan on. */
  lemma PartialStep(g: Grid, op: Op, row: int, col: int)
    ensures Covers(op.shape, col, row) ==>
      PaintCell(Partial(g, op, row, col), col, row, op.colour) == Partial(g, op, row, col + 1)
    ensures !Covers(op.shape, col, row) ==> Partial(g, op, row, col) == Partial(g, op, row, col + 1)
  {
    var p := Partial(g, op, row, col);
    if Covers(op.shape, col, row) && InGrid(g, col, row) {
      GridExt(PaintCell(p, col, row, op.colour), Partial(g, op, row, col + 1));
    } else {
      PartialSame(g, op, row, col, row, col + 1);
    }
  }

  /** Past the box's right edge, the scan continues at the box's left edge
      of the next row. */
  lemma PartialWrap(g: Grid, op: Op, row: int, col: int, x0: int, y0: int, y1: int)
    requires Within(op.shape, x0, col - 1, y0, y1)
    ensures Partial(g, op, row, col) == Partial(g, op, row + 1, x0)
  {
    PartialSame(g, op, row, col, row + 1, x0);
  }

  /** A row without covered cells is passed over. */
  lemma PartialEmptyRow(g: Grid, op: Op, row: int, x0: int, x1: int, y0: int, y1: int)
    requires Within(op.shape, x0, x1, y0, y1)
    requires forall x :: !Covers(op.shape, x, row)
    ensures Partial(g, op, row, x0) == Partial(g, op, row + 1, x0)
  {
    PartialSame(g, op, row, x0, row + 1, x0);
  }

  lemma PartialStart(g: Grid, op: Op, x0: int, x1: int, y0: int, y1: int)
    requires Within(op.shape, x0, x1, y0, y1)
    ensures Partial(g, op, y0, x0) == g
  {
    GridExt(Partial(g, op, y0, x0), g);
  }

  lemma PartialEnd(g: Grid, op: Op, x0: int, x1: int, y0: int, y1: int, row: int)
    requires Within(op.shape, x0, x1, y0, y1) && row > y1
    ensures Partial(g, op, row, x0) == Paint(g, op)
  {
    GridExt(Partial(g, op, row, x0), Paint(g, op));
  }

  function CentreX(s: Shape): int requires s.Circle? || s.Ellipse? {
    s.cx
  }

  function CentreY(s: Shape): int requires s.Circle? || s.Ellipse? {
    s.cy
  }

  function RadiusX(s: Shape): int requires s.Circle? || s.Ellipse? {
    if s.Circle? then s.r else s.rx
  }

  function RadiusY(s: Shape): int requires s.Circle? || s.Ellipse? {
    if s.Circle? then s.r else s.ry
  }

  /** The test inside the loops of `fillCircle` and `fillEllipse`. */
  predicate RoundTest(s: Shape, dx: int, dy: int) requires s.Circle? || s.Ellipse? {
    if s.Circle? then InCircle(dx, dy, s.r) else InEllipse(dx, dy, s.rx, s.ry)
  }

  lemma RoundCovers(s: Shape, x: int, y: int)
    requires s.Circle? || s.Ellipse?
    ensures Covers(s, x, y) <==>
      -RadiusX(s) <= x - CentreX(s) <= RadiusX(s) && -RadiusY(s) <= y - CentreY(s) <= RadiusY(s)
      && RoundTest(s, x - CentreX(s), y - CentreY(s))
  {
  }

  /** `fillCircle` and `fillEllipse`: the source's two nested loops over the
      offsets from the centre, painting each offset that passes the shape's
      test.  The result is the declarative fill of the shape. */
  method FillRound(g: Grid, op: Op) returns (r: Grid)
    requires op.shape.Circle? || op.shape.Ellipse?
    ensures r == Paint(g, op)
  {
    var s := op.shape;
    var cy, ry := CentreY(s), RadiusY(s);
    RoundScanStart(g, op);
    r := g;
    var dy := -ry;
    while dy <= ry
      invariant dy >= -ry
      invariant r == Partial(g, op, cy + dy, CentreX(s) - RadiusX(s))
    {
      r := FillRoundRow(g, op, r, dy);
      RoundScanWrap(g, op, dy);
      dy := dy + 1;
    }
    RoundScanEnd(g, op, dy);
  }

  lemma RoundScanStart(g: Grid, op: Op)
    requires op.shape.Circle? || op.shape.Ellipse?
    ensures Partial(g, op, CentreY(op.shape) - RadiusY(op.shape), CentreX(op.shape) - RadiusX(op.shape)) == g
  {
    var s := op.shape;
    RoundWithin(s);
    PartialStart(g, op, CentreX(s) - RadiusX(s), CentreX(s) + RadiusX(s), CentreY(s) - RadiusY(s), CentreY(s) + RadiusY(s));
  }

  lemma RoundScanWrap(g: Grid, op: Op, dy: int)
    requires op.shape.Circle? || op.shape.Ellipse?
    ensures Partial(g, op, CentreY(op.shape) + dy, CentreX(op.shape) + RadiusX(op.shape) + 1)
         == Partial(g, op, CentreY(op.shape) + dy + 1, CentreX(op.shape) - RadiusX(op.shape))
  {
    var s := op.shape;
    RoundWithin(s);
    PartialWrap(g, op, CentreY(s) + dy, CentreX(s) + RadiusX(s) + 1, CentreX(s) - RadiusX(s), CentreY(s) - RadiusY(s), CentreY(s) + RadiusY(s));
  }

  lemma RoundScanEnd(g: Grid, op: Op, dy: int)
    requires op.shape.Circle? || op.shape.Ellipse?
    requires dy > RadiusY(op.shape)
    ensures Partial(g, op, CentreY(op.shape) + dy, CentreX(op.shape) - RadiusX(op.shape)) == Paint(g, op)
  {
    var s := op.shape;
    RoundWithin(s);
    PartialEnd(g, op, CentreX(s) - RadiusX(s), CentreX(s) + RadiusX(s), CentreY(s) - RadiusY(s), CentreY(s) + RadiusY(s), CentreY(s) + dy);
  }

  /** The inner loop of `fillCircle` and `fillEllipse`: one row of offsets. */
  method FillRoundRow(g: Grid, op: Op, r0: Grid, dy: int) returns (r: Grid)
    requires op.shape.Circle? || op.shape.Ellipse?
    requires -RadiusY(op.shape) <= dy <= RadiusY(op.shape)
    requires r0 == Partial(g, op, CentreY(op.shape) + dy, CentreX(op.shape) - RadiusX(op.shape))
    ensures r == Partial(g, op, CentreY(op.shape) + dy, CentreX(op.shape) + RadiusX(op.shape) + 1)
  {
    var s := op.shape;
    var cx, cy, rx := CentreX(s), CentreY(s), RadiusX(s);
    r := r0;
    var dx := -rx;
    while dx <= rx
      invariant dx == -rx || dx <= rx + 1
      invariant r == Partial(g, op, cy + dy, cx + dx)
    {
      RoundRowStep(g, op, dx, dy);
      if RoundTest(s, dx, dy) {
        r := PaintCell(r, cx + dx, cy + dy, op.colour);
      }
      dx := dx + 1;
    }
    if rx < 0 {
      RoundRowSkip(g, op, dy);
    }
  }

  /** With a negative horizontal radius the shape is empty and the row scan
      paints nothing. */
  lemma RoundRowSkip(g: Grid, op: Op, dy: int)
    requires op.shape.Circle? || op.shape.Ellipse?
    requires RadiusX(op.shape) < 0
    ensures Partial(g, op, CentreY(op.shape) + dy, CentreX(op.shape) - RadiusX(op.shape))
         == Partial(g, op, CentreY(op.shape) + dy, CentreX(op.shape) + RadiusX(op.shape) + 1)
  {
    var s := op.shape;
    RoundEmpty(s);
    PartialSame(g, op, CentreY(s) + dy, CentreX(s) - RadiusX(s), CentreY(s) + dy, CentreX(s) + RadiusX(s) + 1);
  }

  /** A circle or ellipse lies inside its bounding box. */
  lemma RoundWithin(s: Shape)
    requires s.Circle? || s.Ellipse?
    ensures Within(s, CentreX(s) - RadiusX(s), CentreX(s) + RadiusX(s), CentreY(s) - RadiusY(s), CentreY(s) + RadiusY(s))
  {
    forall x, y | Covers(s, x, y)
      ensures CentreX(s) - RadiusX(s) <= x <= CentreX(s) + RadiusX(s)
      ensures CentreY(s) - RadiusY(s) <= y <= CentreY(s) + RadiusY(s)
    {
      RoundCovers(s, x, y);
    }
  }

  /** One offset of the inner loop: the test decides whether the scan paints
      the cell, exactly as the shape covers it. */
  lemma RoundRowStep(g: Grid, op: Op, dx: int, dy: int)
    requires op.shape.Circle? || op.shape.Ellipse?
    requires -RadiusX(op.shape) <= dx <= RadiusX(op.shape) && -RadiusY(op.shape) <= dy <= RadiusY(op.shape)
    ensures var x, y := CentreX(op.shape) + dx, CentreY(op.shape) + dy;
      (RoundTest(op.shape, dx, dy) ==> PaintCell(Partial(g, op, y, x), x, y, op.colour) == Partial(g, op, y, x + 1))
      && (!RoundTest(op.shape, dx, dy) ==> Partial(g, op, y, x) == Partial(g, op, y, x + 1))
  {
    RoundStep(op.shape, dx, dy);
    PartialStep(g, op, CentreY(op.shape) + dy, CentreX(op.shape) + dx);
  }

  lemma RoundStep(s: Shape, dx: int, dy: int)
    requires s.Circle? || s.Ellipse?
    requires -RadiusX(s) <= dx <= RadiusX(s) && -RadiusY(s) <= dy <= RadiusY(s)
    ensures RoundTest(s, dx, dy) <==> Covers(s, CentreX(s) + dx, CentreY(s) + dy)
  {
  }

  lemma RoundEmpty(s: Shape)
    requires s.Circle? || s.Ellipse?
    requires RadiusX(s) < 0
    ensures forall x, y :: !Covers(s, x, y)
  {
  }

  /** The background pattern loop of `drawPet`: rows and columns 0, 2, 4, …
      below the grid size, painting where the coordinate sum is a multiple of
      four.  The result is the fill of `Dots`. */
  method PaintDots(g: Grid, colour: string) returns (r: Grid)
    ensures r == Paint(g, Op(Dots, colour))
  {
    var op := Op(Dots, colour);
    assert Within(Dots, 0, GridSize - 1, 0, GridSize - 1);
    PartialStart(g, op, 0, GridSize - 1, 0, GridSize - 1);
    r := g;
    var y := 0;
    while y < GridSize
      invariant y % 2 == 0 && 0 <= y <= GridSize
      invariant r == Partial(g, op, y, 0)
    {
      r := PaintDotsRow(g, colour, r, y);
      PartialWrap(g, op, y, GridSize, 0, 0, GridSize - 1);
      PartialEmptyRow(g, op, y + 1, 0, GridSize - 1, 0, GridSize - 1);
      y := y + 2;
    }
    PartialEnd(g, op, 0, GridSize - 1, 0, GridSize - 1, y);
  }

  /** The inner loop of the pattern: one even row. */
  method PaintDotsRow(g: Grid, colour: string, r0: Grid, y: int) returns (r: Grid)
    requires 0 <= y < GridSize && y % 2 == 0
    requires r0 == Partial(g, Op(Dots, colour), y, 0)
    ensures r == Partial(g, Op(Dots, colour), y, GridSize)
  {
    var op := Op(Dots, colour);
    r := r0;
    var x := 0;
    while x < GridSize
      invariant x % 2 == 0 && 0 <= x <= GridSize
      invariant r == Partial(g, op, y, x)
    {
      DotsStep(g, colour, x, y);
      if (x + y) % 4 == 0 {
        r := PaintCell(r, x, y, colour);
      }
      x := x + 2;
    }
  }

  /** One iteration of the pattern's inner loop: the even cell is painted
      exactly when the coordinate sum is a multiple of four, and the odd cell
      after it never is. */
  lemma DotsStep(g: Grid, colour: string, x: int, y: int)
    requires 0 <= x < GridSize && x % 2 == 0 && 0 <= y < GridSize && y % 2 == 0
    ensures (x + y) % 4 == 0 ==>
      PaintCell(Partial(g, Op(Dots, colour), y, x), x, y, colour) == Partial(g, Op(Dots, colour), y, x + 2)
    ensures (x + y) % 4 != 0 ==> Partial(g, Op(Dots, colour), y, x) == Partial(g, Op(Dots, colour), y, x + 2)
  {
    var op := Op(Dots, colour);
    PartialStep(g, op, y, x);
    PartialStep(g, op, y, x + 1);
  }

  /** A drawing routine's canvas calls, one after another. */
  method Draw(g: Grid, ops: seq<Op>) returns (r: Grid)
    ensures r == Apply(g, ops)
  {
    r := g;
    for i := 0 to |ops|
      invariant r == Apply(g, ops[..i])
    {
      var op := ops[i];
      if op.shape.Circle? || op.shape.Ellipse? {
        r := FillRound(r, op);
      } else if op.shape.Dots? {
        r := PaintDots(r, op.colour);
      } else {
        r := Paint(r, op);
      }
      assert ops[..i + 1][..i] == ops[..i];
    }
    assert ops[..|ops|] == ops;
  }
}
