/** The accessory, glasses and hat routines of src/utils/pixelArt.ts and the
    per-stage dispatch of `drawPet`. */
module Overlays {
  import opened Optional
  import opened Canvas
  import opened PetTypes

  const Gold := "#ffd700"
  const Goldenrod := "#daa520"
  const CollarRed := "#d32f2f"
  const CollarBlue := "#1976d2"
  const BowPink := "#ff69b4"
  const Lens := "rgba(135, 206, 250, 0.4)"
  const Frame := "#333"
  const Shade := "#1a1a1a"
  const Shine := "#444"
  const HatBand := "#8b0000"
  const JewelRed := "#ff0000"
  const JewelBlue := "#0000ff"
  const JewelGreen := "#00ff00"
  const BeretGrey := "#2f4f4f"
  const WizardIndigo := "#4b0082"
  const Silver := "#c0c0c0"

  /** JavaScript truthiness of an optional string: present and non-empty. */
  predicate Truthy(s: Option<string>) {
    s.Some? && s.value != ""
  }

  /** The chain links alternate gold and goldenrod, starting with gold. */
  function ChainColour(i: int): string {
    if i % 2 == 0 then Gold else Goldenrod
  }

  // ----- accessories -----

  /** Where a bespoke accessory routine puts its parts, relative to its neck
      point (x, y): the band (collar, bell strap and chain) starts at
      `x + bandLeft` and is `bandWidth` cells wide; the tag or bell hangs at
      `x + tagDx`; the bow's knot starts at `x + bowLeft`, `bowWidth` wide,
      with its two loops at `x + bowLeftDx` and `x + bowRightDx`. */
  datatype NeckLayout = NeckLayout(
    x: int, y: int,
    bandLeft: int, bandWidth: nat, tagDx: int,
    bowLeft: int, bowWidth: int, bowLeftDx: int, bowRightDx: int)

  /** `drawAccessoryForFish`: neck point (12, 16). */
  const FishNeck := NeckLayout(12, 16, -2, 6, 1, 0, 3, -1, 3)
  /** `drawAccessoryForTurtle`: neck point (10, 15). */
  const TurtleNeck := NeckLayout(10, 15, -1, 4, 1, 0, 2, -1, 2)
  /** `drawAccessoryForRat`: neck point (13, 16). */
  const RatNeck := NeckLayout(13, 16, -2, 5, 0, -1, 3, -2, 2)
  /** `drawAccessoryForParrot`: neck point (16, 13). */
  const ParrotNeck := NeckLayout(16, 13, -3, 6, 0, -1, 3, -2, 2)
  /** `drawAccessoryForRabbit`: the parrot's routine with neck point (16, 17). */
  const RabbitNeck := NeckLayout(16, 17, -3, 6, 0, -1, 3, -2, 2)

  /** The body shared by the five bespoke accessory routines. */
  function NeckAccessory(n: NeckLayout, accessory: string): seq<Op> {
    if accessory == "collar-red" || accessory == "collar-blue" then
      var colour := if accessory == "collar-red" then CollarRed else CollarBlue;
      [ FillRect(n.x + n.bandLeft, n.y - 1, n.bandWidth, 2, colour),
        FillCircle(n.x + n.tagDx, n.y, 1, Gold) ]
    else if accessory == "bow-pink" then
      [ FillRect(n.x + n.bowLeft, n.y - 1, n.bowWidth, 2, BowPink),
        FillCircle(n.x + n.bowLeftDx, n.y, 1, BowPink),
        FillCircle(n.x + n.bowRightDx, n.y, 1, BowPink) ]
    else if accessory == "chain-gold" then
      seq(n.bandWidth, i => DrawPixel(n.x + n.bandLeft + i, n.y, ChainColour(i)))
    else if accessory == "bell" then
      [ FillRect(n.x + n.bandLeft, n.y - 1, n.bandWidth, 2, CollarRed),
        FillCircle(n.x + n.tagDx, n.y + 1, 1, Gold) ]
    else []
  }

  /** `drawCollar`. */
  function Collar(colour: string, off: int): seq<Op> {
    [FillRect(11, 15 + off, 10, 2, colour), FillCircle(16, 17 + off, 1, Gold)]
  }

  /** `drawBow`. */
  function Bow(colour: string, off: int): seq<Op> {
    [FillRect(14, 15 + off, 4, 2, colour), FillCircle(12, 16 + off, 2, colour), FillCircle(20, 16 + off, 2, colour)]
  }

  /** `drawChain`. */
  function Chain(off: int): seq<Op> {
    seq(10, i => DrawPixel(11 + i, 15 + off, ChainColour(i)))
  }

  /** `drawBellAccessory`. */
  function BellAccessory(off: int): seq<Op> {
    [FillRect(11, 15 + off, 10, 2, CollarRed), FillCircle(16, 18 + off, 2, Gold)]
  }

  /** The `switch` on the accessory for dog, cat and hamster. */
  function StandardAccessory(accessory: string, off: int): seq<Op> {
    match accessory
    case "collar-red" => Collar(CollarRed, off)
    case "collar-blue" => Collar(CollarBlue, off)
    case "bow-pink" => Bow(BowPink, off)
    case "chain-gold" => Chain(off)
    case "bell" => BellAccessory(off)
    case _ => []
  }

  // ----- glasses -----

  /** `drawGlassesForFish`: one eye at (9, 15). */
  function FishGlasses(kind: string): seq<Op> {
    var ex, ey := 9, 15;
    if kind == "round" then
      [ FillCircle(ex, ey, 3, Lens),
        DrawPixel(ex - 3, ey, Frame), DrawPixel(ex + 3, ey, Frame),
        DrawPixel(ex, ey - 3, Frame), DrawPixel(ex, ey + 3, Frame) ]
    else if kind == "square" then
      [ FillRect(ex - 3, ey - 2, 6, 5, Lens),
        FillRect(ex - 3, ey - 2, 6, 1, Frame), FillRect(ex - 3, ey + 2, 6, 1, Frame),
        FillRect(ex - 3, ey - 2, 1, 5, Frame), FillRect(ex + 2, ey - 2, 1, 5, Frame) ]
    else if kind == "sunglasses" then
      [ FillRect(ex - 3, ey - 2, 7, 5, Shade), DrawPixel(ex - 2, ey - 1, Shine) ]
    else if kind == "heart" then
      [ FillCircle(ex - 1, ey - 1, 2, BowPink), FillCircle(ex + 1, ey - 1, 2, BowPink),
        FillRect(ex - 1, ey, 3, 3, BowPink), DrawPixel(ex, ey + 3, BowPink) ]
    else []
  }

  /** `drawGlassesForTurtle`, `drawGlassesForRat` and `drawGlassesForParrot`,
      which differ only in the eye position (ex, ey). */
  function OneEyeGlasses(ex: int, ey: int, kind: string): seq<Op> {
    if kind == "round" then
      [ FillCircle(ex, ey, 2, Lens),
        DrawPixel(ex - 2, ey, Frame), DrawPixel(ex + 2, ey, Frame),
        DrawPixel(ex, ey - 2, Frame), DrawPixel(ex, ey + 2, Frame) ]
    else if kind == "square" then
      [ FillRect(ex - 2, ey - 2, 5, 4, Lens),
        FillRect(ex - 2, ey - 2, 5, 1, Frame), FillRect(ex - 2, ey + 1, 5, 1, Frame),
        FillRect(ex - 2, ey - 2, 1, 4, Frame), FillRect(ex + 2, ey - 2, 1, 4, Frame) ]
    else if kind == "sunglasses" then
      [ FillRect(ex - 2, ey - 2, 6, 4, Shade), DrawPixel(ex - 1, ey - 1, Shine) ]
    else if kind == "heart" then
      [ FillCircle(ex - 1, ey - 1, 1, BowPink), FillCircle(ex + 1, ey - 1, 1, BowPink),
        FillRect(ex - 1, ey, 3, 2, BowPink) ]
    else []
  }

  /** `drawGlassesForRabbit`: eyes at x 13 and 19, row 11. */
  function RabbitGlasses(kind: string): seq<Op> {
    var lx, rx, ey := 13, 19, 11;
    if kind == "round" then
      [ FillCircle(lx, ey, 2, Lens), DrawPixel(lx - 2, ey, Frame), DrawPixel(lx + 2, ey, Frame),
        FillCircle(rx, ey, 2, Lens), DrawPixel(rx - 2, ey, Frame), DrawPixel(rx + 2, ey, Frame),
        FillRect(15, ey, 2, 1, Frame) ]
    else if kind == "square" then
      [ FillRect(lx - 2, ey - 2, 5, 4, Lens),
        FillRect(lx - 2, ey - 2, 5, 1, Frame), FillRect(lx - 2, ey + 1, 5, 1, Frame),
        FillRect(lx - 2, ey - 2, 1, 4, Frame), FillRect(lx + 2, ey - 2, 1, 4, Frame),
        FillRect(rx - 2, ey - 2, 5, 4, Lens),
        FillRect(rx - 2, ey - 2, 5, 1, Frame), FillRect(rx - 2, ey + 1, 5, 1, Frame),
        FillRect(rx - 2, ey - 2, 1, 4, Frame), FillRect(rx + 2, ey - 2, 1, 4, Frame),
        FillRect(15, ey, 2, 1, Frame) ]
    else if kind == "sunglasses" then
      [ FillRect(lx - 3, ey - 2, 6, 4, Shade), FillRect(rx - 3, ey - 2, 6, 4, Shade),
        FillRect(15, ey, 2, 1, Frame),
        DrawPixel(lx - 2, ey - 1, Shine), DrawPixel(rx - 2, ey - 1, Shine) ]
    else if kind == "heart" then
      [ FillCircle(lx - 1, ey - 1, 1, BowPink), FillCircle(lx + 1, ey - 1, 1, BowPink),
        FillRect(lx - 1, ey, 3, 2, BowPink),
        FillCircle(rx - 1, ey - 1, 1, BowPink), FillCircle(rx + 1, ey - 1, 1, BowPink),
        FillRect(rx - 1, ey, 3, 2, BowPink),
        FillRect(15, ey, 2, 1, BowPink) ]
    else []
  }

  /** `drawRoundGlasses`. */
  function RoundGlasses(off: int): seq<Op> {
    [ FillCircle(12, 9 + off, 3, Lens),
      DrawPixel(9, 9 + off, Frame), DrawPixel(15, 9 + off, Frame),
      DrawPixel(12, 6 + off, Frame), DrawPixel(12, 12 + off, Frame),
      FillCircle(20, 9 + off, 3, Lens),
      DrawPixel(17, 9 + off, Frame), DrawPixel(23, 9 + off, Frame),
      DrawPixel(20, 6 + off, Frame), DrawPixel(20, 12 + off, Frame),
      FillRect(15, 9 + off, 2, 1, Frame) ]
  }

  /** `drawSquareGlasses`. */
  function SquareGlasses(off: int): seq<Op> {
    [ FillRect(9, 7 + off, 6, 5, Lens),
      FillRect(9, 7 + off, 6, 1, Frame), FillRect(9, 11 + off, 6, 1, Frame),
      FillRect(9, 7 + off, 1, 5, Frame), FillRect(14, 7 + off, 1, 5, Frame),
      FillRect(17, 7 + off, 6, 5, Lens),
      FillRect(17, 7 + off, 6, 1, Frame), FillRect(17, 11 + off, 6, 1, Frame),
      FillRect(17, 7 + off, 1, 5, Frame), FillRect(22, 7 + off, 1, 5, Frame),
      FillRect(15, 9 + off, 2, 1, Frame) ]
  }

  /** `drawSunglasses`. */
  function Sunglasses(off: int): seq<Op> {
    [ FillRect(8, 7 + off, 7, 5, Shade), FillRect(17, 7 + off, 7, 5, Shade),
      FillRect(15, 9 + off, 2, 1, Frame),
      DrawPixel(9, 8 + off, Shine), DrawPixel(18, 8 + off, Shine) ]
  }

  /** `drawHeartGlasses`. */
  function HeartGlasses(off: int): seq<Op> {
    [ FillCircle(10, 8 + off, 2, BowPink), FillCircle(14, 8 + off, 2, BowPink),
      FillRect(10, 9 + off, 5, 3, BowPink), DrawPixel(12, 12 + off, BowPink),
      FillCircle(18, 8 + off, 2, BowPink), FillCircle(22, 8 + off, 2, BowPink),
      FillRect(18, 9 + off, 5, 3, BowPink), DrawPixel(20, 12 + off, BowPink),
      FillRect(15, 9 + off, 2, 1, BowPink) ]
  }

  /** The `switch` on the glasses for dog, cat and hamster. */
  function StandardGlasses(kind: string, off: int): seq<Op> {
    match kind
    case "round" => RoundGlasses(off)
    case "square" => SquareGlasses(off)
    case "sunglasses" => Sunglasses(off)
    case "heart" => HeartGlasses(off)
    case _ => []
  }

  // ----- hats -----

  /** A stepped cone: `n` one-cell-high rows, row `i` starting at `x0 + i` on
      line `y0 - i`, `w0 - shrink * i` cells wide (the wizard-hat loops). */
  function Cone(n: nat, x0: int, y0: int, w0: int, shrink: int, colour: string): seq<Op> {
    seq(n, i => FillRect(x0 + i, y0 - i, w0 - shrink * i, 1, colour))
  }

  /** `drawHatForFish`: centre x 14, top row 6. */
  function FishHat(hat: string): seq<Op> {
    var hx, ty := 14, 6;
    if hat == "tophat" then
      [ FillRect(hx - 2, ty + 3, 6, 1, Shade), FillRect(hx - 1, ty, 4, 4, Shade),
        FillRect(hx - 1, ty + 2, 4, 1, HatBand) ]
    else if hat == "crown" then
      [ FillRect(hx - 2, ty + 3, 6, 2, Gold), FillRect(hx - 2, ty + 1, 2, 2, Gold),
        FillRect(hx + 2, ty + 1, 2, 2, Gold),
        FillCircle(hx - 1, ty + 2, 1, JewelRed), FillCircle(hx + 3, ty + 2, 1, JewelBlue) ]
    else if hat == "bow" then
      [ FillRect(hx - 1, ty + 2, 3, 3, BowPink), FillCircle(hx - 2, ty + 3, 1, BowPink),
        FillCircle(hx + 2, ty + 3, 1, BowPink) ]
    else if hat == "beret" then
      [ FillEllipse(hx, ty + 3, 4, 2, BeretGrey), FillCircle(hx, ty + 1, 1, BeretGrey) ]
    else if hat == "wizard" then
      [FillRect(hx - 3, ty + 3, 8, 1, WizardIndigo)]
      + Cone(5, hx - 3, ty + 3, 7, 1, WizardIndigo)
      + [DrawPixel(hx, ty - 1, Gold)]
    else []
  }

  /** `drawHatForTurtle`: centre x 6, top row 9. */
  function TurtleHat(hat: string): seq<Op> {
    var hx, ty := 6, 9;
    if hat == "tophat" then
      [ FillRect(hx - 2, ty + 1, 4, 1, Shade), FillRect(hx - 1, ty - 2, 2, 4, Shade),
        FillRect(hx - 1, ty, 2, 1, HatBand) ]
    else if hat == "crown" then
      [ FillRect(hx - 2, ty + 1, 4, 2, Gold), FillRect(hx - 2, ty - 1, 1, 2, Gold),
        FillRect(hx + 1, ty - 1, 1, 2, Gold),
        FillCircle(hx - 1, ty, 1, JewelRed), FillCircle(hx + 1, ty, 1, JewelBlue) ]
    else if hat == "bow" then
      [ FillRect(hx - 1, ty, 2, 2, BowPink), FillCircle(hx - 2, ty + 1, 1, BowPink),
        FillCircle(hx + 1, ty + 1, 1, BowPink) ]
    else if hat == "beret" then
      [ FillEllipse(hx, ty + 1, 3, 2, BeretGrey), FillCircle(hx, ty - 1, 1, BeretGrey) ]
    else if hat == "wizard" then
      [FillRect(hx - 2, ty + 1, 5, 1, WizardIndigo)]
      + Cone(4, hx - 1, ty + 1, 4, 1, WizardIndigo)
      + [DrawPixel(hx, ty - 2, Gold)]
    else []
  }

  /** `drawHatForRat`: centre x 10, top row 6. */
  function RatHat(hat: string): seq<Op> {
    var hx, ty := 10, 6;
    if hat == "tophat" then
      [ FillRect(hx - 4, ty + 4, 10, 1, Shade), FillRect(hx - 3, ty, 8, 5, Shade),
        FillRect(hx - 3, ty + 3, 8, 1, HatBand) ]
    else if hat == "crown" then
      [ FillRect(hx - 4, ty + 4, 10, 2, Gold), FillRect(hx - 4, ty + 2, 2, 2, Gold),
        FillRect(hx + 3, ty + 2, 2, 2, Gold),
        FillCircle(hx - 3, ty + 3, 1, JewelRed), FillCircle(hx + 4, ty + 3, 1, JewelBlue) ]
    else if hat == "bow" then
      [ FillRect(hx - 1, ty + 3, 3, 3, BowPink), FillCircle(hx - 4, ty + 4, 2, BowPink),
        FillCircle(hx + 3, ty + 4, 2, BowPink) ]
    else if hat == "beret" then
      [ FillEllipse(hx, ty + 4, 6, 3, BeretGrey), FillCircle(hx, ty + 2, 1, BeretGrey) ]
    else if hat == "wizard" then
      [FillRect(hx - 4, ty + 4, 10, 1, WizardIndigo)]
      + Cone(5, hx - 4, ty + 4, 9, 1, WizardIndigo)
      + [DrawPixel(hx, ty - 1, Gold)]
    else []
  }

  /** `drawHatForRabbit`.  The wizard cone's last row has width -2, which the
      canvas draws as the two cells left of its origin, and its first star
      lies on row -1, off the canvas. */
  function RabbitHat(hat: string): seq<Op> {
    if hat == "tophat" then
      [ FillRect(10, 9, 12, 1, Shade), FillRect(12, 0, 8, 10, Shade), FillRect(12, 7, 8, 1, HatBand) ]
    else if hat == "crown" then
      [ FillRect(10, 9, 12, 2, Gold),
        FillRect(10, 6, 3, 3, Gold), FillRect(14, 5, 4, 4, Gold), FillRect(19, 6, 3, 3, Gold),
        FillCircle(11, 8, 1, JewelRed), FillCircle(16, 7, 1, JewelBlue), FillCircle(21, 8, 1, JewelGreen) ]
    else if hat == "bow" then
      [ FillRect(13, 8, 6, 3, BowPink), FillCircle(10, 9, 2, BowPink), FillCircle(22, 9, 2, BowPink) ]
    else if hat == "beret" then
      [ FillEllipse(16, 9, 9, 3, BeretGrey), FillCircle(16, 7, 1, BeretGrey) ]
    else if hat == "wizard" then
      [FillRect(8, 9, 16, 1, WizardIndigo)]
      + Cone(10, 8, 9, 16, 2, WizardIndigo)
      + [DrawPixel(15, -1, Gold), DrawPixel(18, 1, Gold)]
    else []
  }

  /** `drawHatForParrot`: centre x 16, top row 0. */
  function ParrotHat(hat: string): seq<Op> {
    var hx, ty := 16, 0;
    if hat == "tophat" then
      [ FillRect(hx - 4, 5, 8, 1, Shade), FillRect(hx - 3, ty, 6, 6, Shade), FillRect(hx - 3, 4, 6, 1, HatBand) ]
    else if hat == "crown" then
      [ FillRect(hx - 4, 5, 8, 2, Gold), FillRect(hx - 4, 3, 2, 2, Gold), FillRect(hx + 2, 3, 2, 2, Gold),
        FillCircle(hx - 3, 4, 1, JewelRed), FillCircle(hx + 3, 4, 1, JewelBlue) ]
    else if hat == "bow" then
      [ FillRect(hx - 1, 4, 3, 3, BowPink), FillCircle(hx - 3, 5, 2, BowPink), FillCircle(hx + 2, 5, 2, BowPink) ]
    else if hat == "beret" then
      [ FillEllipse(hx, 5, 6, 3, BeretGrey), FillCircle(hx, 3, 1, BeretGrey) ]
    else if hat == "wizard" then
      [FillRect(hx - 5, 5, 10, 1, WizardIndigo)]
      + Cone(6, hx - 4, 5, 9, 1, WizardIndigo)
      + [DrawPixel(hx, -1, Gold)]
    else []
  }

  /** `drawTopHat`. */
  function TopHat(off: int): seq<Op> {
    [ FillRect(8, 5 + off, 16, 2, Shade), FillRect(10, 0 + off, 12, 5, Shade), FillRect(10, 3 + off, 12, 2, HatBand) ]
  }

  /** `drawCrown`. */
  function Crown(off: int): seq<Op> {
    [ FillRect(9, 4 + off, 14, 3, Gold),
      FillRect(9, 1 + off, 3, 3, Gold), FillRect(14, 0 + off, 4, 4, Gold), FillRect(20, 1 + off, 3, 3, Gold),
      FillCircle(10, 3 + off, 1, JewelRed), FillCircle(16, 2 + off, 1, JewelBlue), FillCircle(22, 3 + off, 1, JewelGreen) ]
  }

  /** `drawBowHat`. */
  function BowHat(off: int): seq<Op> {
    [ FillRect(13, 2 + off, 6, 4, BowPink), FillCircle(10, 4 + off, 3, BowPink), FillCircle(22, 4 + off, 3, BowPink) ]
  }

  /** `drawBeret`. */
  function Beret(off: int): seq<Op> {
    [ FillEllipse(16, 4 + off, 8, 4, BeretGrey), FillCircle(16, 1 + off, 1, BeretGrey) ]
  }

  /** `drawWizardHat`. */
  function WizardHat(off: int): seq<Op> {
    [FillRect(6, 6 + off, 20, 2, WizardIndigo)]
    + Cone(7, 9, 6 + off, 14, 2, WizardIndigo)
    + [DrawPixel(12, 2 + off, Gold), DrawPixel(18, 4 + off, Gold), DrawPixel(10, 5 + off, Silver)]
  }

  /** The `switch` on the hat for dog, cat and hamster. */
  function StandardHat(hat: string, off: int): seq<Op> {
    match hat
    case "tophat" => TopHat(off)
    case "crown" => Crown(off)
    case "bow" => BowHat(off)
    case "beret" => Beret(off)
    case "wizard" => WizardHat(off)
    case _ => []
  }

  // ----- the offset tables and the three overlay stages -----

  /** `accessoryOffsets`. */
  const AccessoryOffsets: map<Species, int> :=
    map[Dog := 0, Cat := 0, Hamster := 2, Parrot := 4, Fish := -99, Rabbit := 2, Turtle := 1, Rat := 2]

  /** `glassesOffsets`. */
  const GlassesOffsets: map<Species, int> :=
    map[Dog := 0, Cat := 0, Hamster := 2, Parrot := -2, Fish := 6, Rabbit := 2, Turtle := 4, Rat := 4]

  /** `hatOffsets`. */
  const HatOffsets: map<Species, int> :=
    map[Dog := 0, Cat := 0, Hamster := 3, Parrot := -2, Fish := -99, Rabbit := -3, Turtle := -99, Rat := 4]

  /** The marker the tables use for "hide this overlay". */
  const Hidden: int := -99

  /** `table[species] ?? 0`. */
  function Offset(table: map<Species, int>, species: Species): int {
    if species in table then table[species] else 0
  }

  predicate IsBespoke(species: Species) {
    species == Fish || species == Turtle || species == Rat || species == Parrot || species == Rabbit
  }

  /** The accessory stage: nothing for a falsy accessory, the bespoke routine
      for five species, and otherwise the shared routines at the table's
      offset unless that offset is the hide marker. */
  function AccessoryStage(species: Species, accessory: Option<string>, table: map<Species, int>): seq<Op> {
    if !Truthy(accessory) then []
    else
      var a := accessory.value;
      match species
      case Fish => NeckAccessory(FishNeck, a)
      case Turtle => NeckAccessory(TurtleNeck, a)
      case Rat => NeckAccessory(RatNeck, a)
      case Parrot => NeckAccessory(ParrotNeck, a)
      case Rabbit => NeckAccessory(RabbitNeck, a)
      case _ =>
        var off := Offset(table, species);
        if off != Hidden then StandardAccessory(a, off) else []
  }

  /** The glasses stage, dispatched like the accessory stage. */
  function GlassesStage(species: Species, glasses: Option<string>, table: map<Species, int>): seq<Op> {
    if !Truthy(glasses) then []
    else
      var k := glasses.value;
      match species
      case Fish => FishGlasses(k)
      case Turtle => OneEyeGlasses(4, 13, k)
      case Rat => OneEyeGlasses(7, 13, k)
      case Parrot => OneEyeGlasses(17, 7, k)
      case Rabbit => RabbitGlasses(k)
      case _ =>
        var off := Offset(table, species);
        if off != Hidden then StandardGlasses(k, off) else []
  }

  /** The hat stage, dispatched like the accessory stage. */
  function HatStage(species: Species, hat: Option<string>, table: map<Species, int>): seq<Op> {
    if !Truthy(hat) then []
    else
      var h := hat.value;
      match species
      case Fish => FishHat(h)
      case Turtle => TurtleHat(h)
      case Rat => RatHat(h)
      case Rabbit => RabbitHat(h)
      case Parrot => ParrotHat(h)
      case _ =>
        var off := Offset(table, species);
        if off != Hidden then StandardHat(h, off) else []
  }

  // ----- properties of the dispatch -----

  /** The accessory names some branch recognises. */
  const AccessoryNames: set<string> := {"collar-red", "collar-blue", "bow-pink", "chain-gold", "bell"}
  /** The glasses names some branch recognises. */
  const GlassesNames: set<string> := {"round", "square", "sunglasses", "heart"}
  /** The hat names some branch recognises. */
  const HatNames: set<string> := {"tophat", "crown", "bow", "beret", "wizard"}

  lemma NeckAccessoryEmpty(n: NeckLayout, a: string)
    requires n.bandWidth > 0
    ensures NeckAccessory(n, a) == [] <==> a !in AccessoryNames
  {
    if a == "chain-gold" {
      assert |NeckAccessory(n, a)| == n.bandWidth;
    }
  }

  /** The accessory stage paints something exactly when the accessory is a
      non-empty recognised name and either the species has its own routine or
      its table entry is not the hide marker. */
  lemma {:induction false} AccessoryStageEmpty(species: Species, accessory: Option<string>, table: map<Species, int>)
    ensures AccessoryStage(species, accessory, table) == [] <==>
      !Truthy(accessory) || accessory.value !in AccessoryNames
      || (!IsBespoke(species) && Offset(table, species) == Hidden)
  {
    if Truthy(accessory) {
      var a := accessory.value;
      match species
      case Fish => NeckAccessoryEmpty(FishNeck, a);
      case Turtle => NeckAccessoryEmpty(TurtleNeck, a);
      case Rat => NeckAccessoryEmpty(RatNeck, a);
      case Parrot => NeckAccessoryEmpty(ParrotNeck, a);
      case Rabbit => NeckAccessoryEmpty(RabbitNeck, a);
      case _ =>
    }
  }

  /** The glasses stage paints something exactly when the glasses are a
      non-empty recognised name and either the species has its own routine or
      its table entry is not the hide marker. */
  lemma GlassesStageEmpty(species: Species, glasses: Option<string>, table: map<Species, int>)
    ensures GlassesStage(species, glasses, table) == [] <==>
      !Truthy(glasses) || glasses.value !in GlassesNames
      || (!IsBespoke(species) && Offset(table, species) == Hidden)
  {
  }

  /** The hat stage paints something exactly when the hat is a non-empty
      recognised name and either the species has its own routine or its table
      entry is not the hide marker. */
  lemma HatStageEmpty(species: Species, hat: Option<string>, table: map<Species, int>)
    ensures HatStage(species, hat, table) == [] <==>
      !Truthy(hat) || hat.value !in HatNames
      || (!IsBespoke(species) && Offset(table, species) == Hidden)
  {
  }

  /** Only dog, cat and hamster read the tables: two tables that agree on
      those three give the same overlays for every species. */
  lemma OnlyStandardSpeciesReadTables(species: Species, a: Option<string>, g: Option<string>, h: Option<string>,
                                      t1: map<Species, int>, t2: map<Species, int>)
    requires forall s :: !IsBespoke(s) ==> Offset(t1, s) == Offset(t2, s)
    ensures AccessoryStage(species, a, t1) == AccessoryStage(species, a, t2)
    ensures GlassesStage(species, g, t1) == GlassesStage(species, g, t2)
    ensures HatStage(species, h, t1) == HatStage(species, h, t2)
  {
  }

  /** Every hide marker of `table` belongs to a species with its own routine. */
  predicate HidesOnlyBespoke(table: map<Species, int>) {
    forall s :: Offset(table, s) == Hidden ==> IsBespoke(s)
  }

  lemma AccessoryHidesOnlyBespoke()
    ensures HidesOnlyBespoke(AccessoryOffsets)
  {
    forall s | Offset(AccessoryOffsets, s) == Hidden ensures IsBespoke(s) {
      assert s in AccessoryOffsets;
    }
  }

  lemma GlassesHidesOnlyBespoke()
    ensures HidesOnlyBespoke(GlassesOffsets)
  {
    forall s | Offset(GlassesOffsets, s) == Hidden ensures IsBespoke(s) {
      assert s in GlassesOffsets;
    }
  }

  lemma HatHidesOnlyBespoke()
    ensures HidesOnlyBespoke(HatOffsets)
  {
    forall s | Offset(HatOffsets, s) == Hidden ensures IsBespoke(s) {
      assert s in HatOffsets;
    }
  }

  /** Every hide marker in the three tables belongs to a species with its own
      routine, which runs before the marker is looked at, so none of them is
      ever consulted. */
  lemma HideMarkersUnused()
    ensures HidesOnlyBespoke(AccessoryOffsets)
    ensures HidesOnlyBespoke(GlassesOffsets)
    ensures HidesOnlyBespoke(HatOffsets)
  {
    AccessoryHidesOnlyBespoke();
    GlassesHidesOnlyBespoke();
    HatHidesOnlyBespoke();
  }

  /** With these tables every recognised name paints something, for every
      species. */
  lemma RecognisedOverlaysPaint(species: Species, a: Option<string>, g: Option<string>, h: Option<string>)
    ensures Truthy(a) && a.value in AccessoryNames ==> AccessoryStage(species, a, AccessoryOffsets) != []
    ensures Truthy(g) && g.value in GlassesNames ==> GlassesStage(species, g, GlassesOffsets) != []
    ensures Truthy(h) && h.value in HatNames ==> HatStage(species, h, HatOffsets) != []
  {
    HideMarkersUnused();
    AccessoryStageEmpty(species, a, AccessoryOffsets);
    GlassesStageEmpty(species, g, GlassesOffsets);
    HatStageEmpty(species, h, HatOffsets);
  }

  /** The offsets dog, cat and hamster actually use. */
  lemma StandardOffsets()
    ensures Offset(AccessoryOffsets, Dog) == 0 && Offset(AccessoryOffsets, Cat) == 0 && Offset(AccessoryOffsets, Hamster) == 2
    ensures Offset(GlassesOffsets, Dog) == 0 && Offset(GlassesOffsets, Cat) == 0 && Offset(GlassesOffsets, Hamster) == 2
    ensures Offset(HatOffsets, Dog) == 0 && Offset(HatOffsets, Cat) == 0 && Offset(HatOffsets, Hamster) == 3
  {
  }
}
