/** `drawTemperamentIcon` of src/utils/pixelArt.ts: a 48-pixel canvas drawn
    in 3-pixel cells, so a 16x16 grid of cells, holding a small emoji for
    each of the four temperaments. */
module Icons {
  import opened Canvas
  import opened Optional

  /** `ICON_SIZE`. */
  const IconSize: nat := 48
  /** The cell size `p`. */
  const CellSize: nat := 3
  /** Cells per side: `IconSize` over `CellSize`. */
  const IconCells: nat := 16

  const IconBackground := "#faf9f7"
  const Face := "#ffcc4d"
  const Ink := "#664"
  const Blush := "#ffb6c1"

  /** The icon canvas after `clearRect` and the background fill. */
  function BlankIcon(): (g: Grid)
    ensures |g| == IconCells && forall y :: 0 <= y < |g| ==> |g[y]| == IconCells
  {
    seq(IconCells, y requires 0 <= y < IconCells =>
      seq(IconCells, x requires 0 <= x < IconCells => Cell(Css(IconBackground), [])))
  }

  /** `n` cells of row `y` from column `x0` (one `[...].forEach(drawPx)`). */
  function Span(x0: int, n: nat, y: int, colour: string): seq<Op> {
    seq(n, i => DrawPixel(x0 + i, y, colour))
  }

  /** The face test with doubled coordinates: the source compares
      (x - 7.5)^2 + (y - c)^2 with 25, which is (2x - 15)^2 + (2y - c2)^2 <= 100
      for c2 = 2c. */
  predicate OnFace(x: int, y: int, c2: int) {
    (2 * x - 15) * (2 * x - 15) + (2 * y - c2) * (2 * y - c2) <= 100
  }

  /** The inner face loop: columns x..12 of row y. */
  function FaceRow(x: int, y: int, c2: int, colour: string): seq<Op>
    decreases 13 - x
  {
    if x > 12 then []
    else (if OnFace(x, y, c2) then [DrawPixel(x, y, colour)] else []) + FaceRow(x + 1, y, c2, colour)
  }

  /** The outer face loop: rows y..y1, columns 3..12. */
  function FaceRows(y: int, y1: int, c2: int, colour: string): seq<Op>
    decreases y1 + 1 - y
  {
    if y > y1 then []
    else FaceRow(3, y, c2, colour) + FaceRows(y + 1, y1, c2, colour)
  }

  /** 💛: a yellow heart in rows 4..12 with a highlight. */
  function FriendlyOps(): seq<Op> {
    var heart := "#ffd700";
    Span(3, 3, 4, heart) + Span(9, 3, 4, heart)
    + Span(2, 5, 5, heart) + Span(8, 5, 5, heart)
    + Span(2, 11, 6, heart) + Span(2, 11, 7, heart)
    + Span(3, 9, 8, heart) + Span(4, 7, 9, heart)
    + Span(5, 5, 10, heart) + Span(6, 3, 11, heart) + Span(7, 1, 12, heart)
    + [DrawPixel(4, 5, "#fff8dc"), DrawPixel(4, 6, "#fff8dc")]
  }

  /** The face disc of the three face drawings: rows top..top+9 around the
      centre (7.5, top + 4.5). */
  function FaceDisc(top: int): seq<Op> {
    FaceRows(top, top + 9, 2 * top + 9, Face)
  }

  /** 🥺's sparkly eyes, worried brows, wobbly mouth and blush, over the disc
      centred on (7.5, 7.5). */
  function ShyFeatures(): seq<Op> {
    var dark := "#e8a33c";
    [ DrawPixel(5, 6, "#fff"), DrawPixel(6, 6, "#fff"), DrawPixel(5, 7, "#fff"), DrawPixel(6, 7, Ink),
      DrawPixel(10, 6, "#fff"), DrawPixel(9, 6, "#fff"), DrawPixel(10, 7, "#fff"), DrawPixel(9, 7, Ink),
      DrawPixel(4, 5, Ink), DrawPixel(5, 4, Ink), DrawPixel(11, 5, Ink), DrawPixel(10, 4, Ink),
      DrawPixel(6, 10, dark), DrawPixel(7, 11, dark), DrawPixel(8, 11, dark), DrawPixel(9, 10, dark),
      DrawPixel(4, 8, Blush), DrawPixel(4, 9, Blush), DrawPixel(11, 8, Blush), DrawPixel(11, 9, Blush) ]
  }

  /** 😾's ears, angry eyes and brows, nose and frown, over the disc centred
      on (7.5, 8.5). */
  function AggressiveFeatures(): seq<Op> {
    var dark := "#c77800";
    [ DrawPixel(3, 3, Face), DrawPixel(4, 2, Face), DrawPixel(4, 3, Face), DrawPixel(5, 3, Face),
      DrawPixel(12, 3, Face), DrawPixel(11, 2, Face), DrawPixel(11, 3, Face), DrawPixel(10, 3, Face),
      DrawPixel(4, 3, Blush), DrawPixel(11, 3, Blush),
      DrawPixel(5, 7, Ink), DrawPixel(6, 7, Ink), DrawPixel(9, 7, Ink), DrawPixel(10, 7, Ink),
      DrawPixel(4, 5, Ink), DrawPixel(5, 6, Ink), DrawPixel(11, 5, Ink), DrawPixel(10, 6, Ink),
      DrawPixel(7, 9, "#ff9999"), DrawPixel(8, 9, "#ff9999"),
      DrawPixel(5, 11, dark), DrawPixel(6, 10, dark), DrawPixel(7, 10, dark),
      DrawPixel(8, 10, dark), DrawPixel(9, 10, dark), DrawPixel(10, 11, dark) ]
  }

  /** 😌's closed eyes, smile and blush, over the disc of 🥺. */
  function CalmFeatures(): seq<Op> {
    var dark := "#e8a33c";
    [ DrawPixel(4, 6, Ink), DrawPixel(5, 7, Ink), DrawPixel(6, 7, Ink), DrawPixel(7, 6, Ink),
      DrawPixel(8, 6, Ink), DrawPixel(9, 7, Ink), DrawPixel(10, 7, Ink), DrawPixel(11, 6, Ink),
      DrawPixel(5, 10, dark), DrawPixel(6, 11, dark), DrawPixel(7, 11, dark),
      DrawPixel(8, 11, dark), DrawPixel(9, 11, dark), DrawPixel(10, 10, dark),
      DrawPixel(4, 8, Blush), DrawPixel(11, 8, Blush) ]
  }

  const Temperaments: set<string> := {"friendly", "shy", "aggressive", "calm"}

  /** The four drawings the routine knows. */
  datatype Emoji = Heart | Pleading | Angry | Relieved

  /** The `switch`, which has no default branch: the drawing a temperament
      selects, if any. */
  function EmojiOf(temperament: string): Option<Emoji> {
    match temperament
    case "friendly" => Some(Heart)
    case "shy" => Some(Pleading)
    case "aggressive" => Some(Angry)
    case "calm" => Some(Relieved)
    case _ => None
  }

  /** The top row of a face drawing's disc. */
  function FaceTop(e: Emoji): int {
    if e == Angry then 4 else 3
  }

  /** The face disc a drawing starts from; the heart has none. */
  function FaceOf(e: Emoji): seq<Op> {
    if e == Heart then [] else FaceDisc(FaceTop(e))
  }

  /** The fixed strokes of a drawing, after its disc. */
  function Strokes(e: Emoji): seq<Op> {
    match e
    case Heart => FriendlyOps()
    case Pleading => ShyFeatures()
    case Angry => AggressiveFeatures()
    case Relieved => CalmFeatures()
  }

  /** The body of one `case`. */
  function EmojiOps(e: Emoji): seq<Op> {
    FaceOf(e) + Strokes(e)
  }

  function IconOps(temperament: string): seq<Op> {
    match EmojiOf(temperament)
    case Some(e) => EmojiOps(e)
    case None => []
  }

  function Icon(temperament: string): Grid {
    Apply(BlankIcon(), IconOps(temperament))
  }

  // ----- properties -----

  /** A single-cell fill inside the icon grid. */
  predicate InIcon(o: Op) {
    o.shape.Pixel? && 0 <= o.shape.x < IconCells && 0 <= o.shape.y < IconCells
  }

  predicate AllInIcon(ops: seq<Op>) {
    forall i :: 0 <= i < |ops| ==> InIcon(ops[i])
  }

  /** The face row paints exactly the disc's cells of row y from column x on. */
  lemma {:induction false} FaceRowCells(x: int, y: int, c2: int, colour: string, px: int, py: int)
    ensures DrawPixel(px, py, colour) in FaceRow(x, y, c2, colour) <==>
      x <= px <= 12 && py == y && OnFace(px, py, c2)
    decreases 13 - x
  {
    if x <= 12 {
      FaceRowCells(x + 1, y, c2, colour, px, py);
    }
  }

  /** The face row only fills cells of row y in columns x..12. */
  lemma {:induction false} FaceRowBounds(x: int, y: int, c2: int, colour: string)
    ensures forall o :: o in FaceRow(x, y, c2, colour) ==> o.shape.Pixel? && x <= o.shape.x <= 12 && o.shape.y == y
    decreases 13 - x
  {
    if x <= 12 {
      FaceRowBounds(x + 1, y, c2, colour);
    }
  }

  /** The face loops paint exactly the disc's cells in rows y..y1 and columns
      3..12. */
  lemma {:induction false} FaceRowsCells(y: int, y1: int, c2: int, colour: string, px: int, py: int)
    ensures DrawPixel(px, py, colour) in FaceRows(y, y1, c2, colour) <==>
      3 <= px <= 12 && y <= py <= y1 && OnFace(px, py, c2)
    decreases y1 + 1 - y
  {
    if y <= y1 {
      FaceRowCells(3, y, c2, colour, px, py);
      FaceRowsCells(y + 1, y1, c2, colour, px, py);
    }
  }

  /** The face loops only fill cells in rows y..y1 and columns 3..12. */
  lemma {:induction false} FaceRowsBounds(y: int, y1: int, c2: int, colour: string)
    ensures forall o :: o in FaceRows(y, y1, c2, colour) ==> o.shape.Pixel? && 3 <= o.shape.x <= 12 && y <= o.shape.y <= y1
    decreases y1 + 1 - y
  {
    if y <= y1 {
      FaceRowBounds(3, y, c2, colour);
      FaceRowsBounds(y + 1, y1, c2, colour);
    }
  }

  lemma SquareAtMostHundred(a: int)
    requires a * a <= 100
    ensures -10 <= a <= 10
  {
  }

  /** Every cell of the disc centred on (7.5, top + 4.5) lies in columns
      3..12 and rows top..top+9. */
  lemma DiscBounds(px: int, py: int, top: int)
    requires OnFace(px, py, 2 * top + 9)
    ensures 3 <= px <= 12 && top <= py <= top + 9
  {
    var a, b := 2 * px - 15, 2 * py - (2 * top + 9);
    assert a * a >= 0 && b * b >= 0;
    SquareAtMostHundred(a);
    SquareAtMostHundred(b);
  }

  /** Face loops whose square holds the whole disc fill exactly the disc. */
  lemma FaceRowsWhole(y: int, y1: int, c2: int, colour: string, px: int, py: int)
    requires OnFace(px, py, c2) ==> 3 <= px <= 12 && y <= py <= y1
    ensures DrawPixel(px, py, colour) in FaceRows(y, y1, c2, colour) <==> OnFace(px, py, c2)
  {
    FaceRowsCells(y, y1, c2, colour, px, py);
  }

  /** The loop of a disc scans a square that holds the whole disc, so it
      fills exactly the disc's cells. */
  lemma FaceDiscCells(top: int, px: int, py: int)
    ensures DrawPixel(px, py, Face) in FaceDisc(top) <==> OnFace(px, py, 2 * top + 9)
  {
    if OnFace(px, py, 2 * top + 9) {
      DiscBounds(px, py, top);
    }
    FaceRowsWhole(top, top + 9, 2 * top + 9, Face, px, py);
  }

  /** A face drawing fills exactly the cells of its disc: centred on
      (7.5, 8.5) for 😾 and on (7.5, 7.5) for the others; the heart has no
      disc. */
  lemma FaceOfCells(e: Emoji, px: int, py: int)
    ensures e == Heart ==> FaceOf(e) == []
    ensures e != Heart ==>
      (DrawPixel(px, py, Face) in FaceOf(e) <==> OnFace(px, py, if e == Angry then 17 else 15))
  {
    if e != Heart {
      FaceDiscCells(FaceTop(e), px, py);
      assert 2 * FaceTop(e) + 9 == if e == Angry then 17 else 15;
    }
  }

  lemma SpanInIcon(x0: int, n: nat, y: int, colour: string)
    requires 0 <= x0 && x0 + n <= IconCells && 0 <= y < IconCells
    ensures AllInIcon(Span(x0, n, y, colour))
  {
    forall o | o in Span(x0, n, y, colour) ensures InIcon(o) {
      var i :| 0 <= i < n && Span(x0, n, y, colour)[i] == o;
      assert o == DrawPixel(x0 + i, y, colour);
    }
  }

  lemma FriendlyInside()
    ensures AllInIcon(FriendlyOps())
  {
    var heart := "#ffd700";
    SpanInIcon(3, 3, 4, heart); SpanInIcon(9, 3, 4, heart);
    SpanInIcon(2, 5, 5, heart); SpanInIcon(8, 5, 5, heart);
    SpanInIcon(2, 11, 6, heart); SpanInIcon(2, 11, 7, heart);
    SpanInIcon(3, 9, 8, heart); SpanInIcon(4, 7, 9, heart);
    SpanInIcon(5, 5, 10, heart); SpanInIcon(6, 3, 11, heart); SpanInIcon(7, 1, 12, heart);
  }

  /** The face loops stay inside the grid when their rows do. */
  lemma FaceRowsInside(y: int, y1: int, c2: int, colour: string)
    requires 0 <= y && y1 < IconCells
    ensures AllInIcon(FaceRows(y, y1, c2, colour))
  {
    FaceRowsBounds(y, y1, c2, colour);
  }

  lemma AllInIconAppend(a: seq<Op>, b: seq<Op>)
    requires AllInIcon(a) && AllInIcon(b)
    ensures AllInIcon(a + b)
  {
  }

  lemma FeaturesInsideShy()
    ensures AllInIcon(ShyFeatures())
  {
  }

  lemma FeaturesInsideAggressive()
    ensures AllInIcon(AggressiveFeatures())
  {
  }

  lemma FeaturesInsideCalm()
    ensures AllInIcon(CalmFeatures())
  {
  }

  lemma StrokesInside(e: Emoji)
    ensures AllInIcon(Strokes(e))
  {
    match e
    case Heart => FriendlyInside();
    case Pleading => FeaturesInsideShy();
    case Angry => FeaturesInsideAggressive();
    case Relieved => FeaturesInsideCalm();
  }

  lemma FaceOfInside(e: Emoji)
    ensures AllInIcon(FaceOf(e))
  {
    if e != Heart {
      var top := FaceTop(e);
      FaceRowsInside(top, top + 9, 2 * top + 9, Face);
    }
  }

  lemma EmojiInside(e: Emoji)
    ensures AllInIcon(EmojiOps(e))
  {
    FaceOfInside(e);
    StrokesInside(e);
    AllInIconAppend(FaceOf(e), Strokes(e));
  }

  /** Every fill of every icon is one cell inside the 16x16 grid, so nothing
      the routine draws is clipped. */
  lemma IconInside(temperament: string)
    ensures AllInIcon(IconOps(temperament))
  {
    if EmojiOf(temperament).Some? {
      EmojiInside(EmojiOf(temperament).value);
    }
  }

  lemma EmojiOfKnown(temperament: string)
    ensures EmojiOf(temperament).Some? <==> temperament in Temperaments
  {
  }

  lemma EmojiPaints(e: Emoji)
    ensures |EmojiOps(e)| > 0
  {
    match e
    case Heart =>
    case Pleading => assert |ShyFeatures()| > 0;
    case Angry => assert |AggressiveFeatures()| > 0;
    case Relieved => assert |CalmFeatures()| > 0;
  }

  /** An icon paints something over the background exactly for the four
      temperaments; any other string leaves the plain background. */
  lemma IconBlankUnlessKnown(temperament: string)
    ensures IconOps(temperament) == [] <==> temperament !in Temperaments
    ensures temperament !in Temperaments ==> Icon(temperament) == BlankIcon()
  {
    EmojiOfKnown(temperament);
    if EmojiOf(temperament).Some? {
      EmojiPaints(EmojiOf(temperament).value);
    } else {
      assert Apply(BlankIcon(), []) == BlankIcon();
    }
  }
}
