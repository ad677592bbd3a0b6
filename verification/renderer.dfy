/** `drawPet` of src/utils/pixelArt.ts: the background, the body and the
    three overlays, painted in that order onto a fresh 32x32 canvas. */
module Renderer {
  import opened Optional
  import opened Canvas
  import opened PetTypes
  import opened Sprites
  import opened Overlays
  import opened ColourMath

  /** A background's gradient: `main` at the top, `secondary` at the bottom. */
  datatype Palette = Palette(main: string, secondary: string)

  /** `BACKGROUND_COLORS`. */
  const BackgroundColours: map<string, Palette> := map[
    "none" := Palette("#faf9f7", "#f0efed"),
    "sky" := Palette("#87CEEB", "#B0E0E6"),
    "sunset" := Palette("#FFB366", "#FF8C42"),
    "forest" := Palette("#90EE90", "#98FB98"),
    "ocean" := Palette("#4FC3F7", "#29B6F6"),
    "night" := Palette("#2C3E50", "#1A252F"),
    "pink" := Palette("#FFB6C1", "#FFC0CB"),
    "lavender" := Palette("#E6E6FA", "#D8BFD8"),
    "mint" := Palette("#B2F2BB", "#8CE99A"),
    "peach" := Palette("#FFDAB9", "#FFE4C4")]

  const NonePalette := Palette("#faf9f7", "#f0efed")

  /** The palette lookup with its fallback to `'none'`. */
  function BackgroundPalette(name: string): Palette {
    if name in BackgroundColours then BackgroundColours[name] else BackgroundColours["none"]
  }

  /** The canvas after `clearRect` and the full-canvas gradient fill. */
  function BlankCanvas(p: Palette): (g: Grid)
    ensures |g| == GridSize && forall y :: 0 <= y < |g| ==> |g[y]| == GridSize
  {
    seq(GridSize, y requires 0 <= y < GridSize =>
      seq(GridSize, x requires 0 <= x < GridSize => Cell(Gradient(p.main, p.secondary, y), [])))
  }

  /** The dot pattern is lighter on the dark `'night'` background. */
  function DotColour(name: string): string {
    if name == "night" then "rgba(255, 255, 255, 0.05)" else "rgba(0, 0, 0, 0.02)"
  }

  /** The forest loop: for x = 0, 3, ..., 30 a dark blade at x and a light
      one at x + 1. */
  function Grass(): seq<Op> {
    seq(22, k => if k % 2 == 0 then FillRect(3 * (k / 2), 29, 1, 3, "#228B22")
                 else FillRect(3 * (k / 2) + 1, 30, 1, 2, "#32CD32"))
  }

  /** The ocean loop: for x = 0, 4, ..., 28 a crest at x and a trough at x + 2. */
  function Waves(): seq<Op> {
    seq(16, k => if k % 2 == 0 then FillRect(4 * (k / 2), 28, 2, 1, "rgba(255, 255, 255, 0.3)")
                 else FillRect(4 * (k / 2) + 2, 29, 2, 1, "rgba(255, 255, 255, 0.2)"))
  }

  /** The names with extra scenery. */
  const DecoratedBackgrounds: set<string> := {"sky", "night", "forest", "ocean", "sunset"}

  /** The per-background scenery: clouds, stars and moon, grass, waves, sun. */
  function Decorations(name: string): seq<Op> {
    if name == "sky" then
      [ FillRect(2, 3, 4, 2, "rgba(255, 255, 255, 0.6)"), FillRect(3, 2, 2, 1, "rgba(255, 255, 255, 0.6)"),
        FillRect(26, 5, 4, 2, "rgba(255, 255, 255, 0.5)"), FillRect(27, 4, 2, 1, "rgba(255, 255, 255, 0.5)") ]
    else if name == "night" then
      [ DrawPixel(4, 4, "#FFF"), DrawPixel(28, 6, "#FFF"),
        DrawPixel(8, 8, "rgba(255,255,255,0.7)"), DrawPixel(24, 3, "rgba(255,255,255,0.8)"),
        DrawPixel(6, 2, "rgba(255,255,255,0.6)"), DrawPixel(20, 5, "#FFF"),
        FillCircle(27, 4, 2, "#FFFACD") ]
    else if name == "forest" then Grass()
    else if name == "ocean" then Waves()
    else if name == "sunset" then
      [ FillCircle(26, 6, 3, "#FFD700"), FillCircle(26, 6, 2, "#FFA500") ]
    else []
  }

  /** The fills of the background stage after the gradient. */
  function BackgroundOps(name: string): seq<Op> {
    [Op(Dots, DotColour(name))] + Decorations(name)
  }

  /** The canvas when the background stage is done; it depends on the
      background name alone. */
  function Backdrop(name: string): (g: Grid)
    ensures |g| == GridSize && forall y :: 0 <= y < |g| ==> |g[y]| == GridSize
  {
    Apply(BlankCanvas(BackgroundPalette(name)), BackgroundOps(name))
  }

  /** The body stage: the hat flag is `!!appearance.hat`. */
  function BodyStage(a: Appearance): seq<Op> {
    BodyOps(a.species, a.bodyColour, a.eyeColour, Truthy(a.hat))
  }

  function AccessoryLayer(a: Appearance): seq<Op> { AccessoryStage(a.species, a.accessory, AccessoryOffsets) }
  function GlassesLayer(a: Appearance): seq<Op> { GlassesStage(a.species, a.glasses, GlassesOffsets) }
  function HatLayer(a: Appearance): seq<Op> { HatStage(a.species, a.hat, HatOffsets) }

  /** Every fill `drawPet` makes after the gradient, in order. */
  function Layers(a: Appearance): seq<Op> {
    BackgroundOps(a.background) + BodyStage(a) + AccessoryLayer(a) + GlassesLayer(a) + HatLayer(a)
  }

  /** The finished canvas. */
  function Render(a: Appearance): (g: Grid)
    ensures |g| == GridSize && forall y :: 0 <= y < |g| ==> |g[y]| == GridSize
  {
    var blank, ops := BlankCanvas(BackgroundPalette(a.background)), Layers(a);
    ApplyFullSize(blank, ops);
    Apply(blank, ops)
  }

  /** `drawPet`, stage by stage, with the looping primitives. */
  method DrawPet(a: Appearance) returns (r: Grid)
    ensures r == Render(a)
  {
    var p := BackgroundPalette(a.background);
    r := BlankCanvas(p);
    ghost var g0 := r;
    r := PaintDots(r, DotColour(a.background));
    assert r == Apply(g0, [Op(Dots, DotColour(a.background))]) by {
      assert [Op(Dots, DotColour(a.background))][..0] == [];
    }
    r := Draw(r, Decorations(a.background));
    ApplyAppend(g0, [Op(Dots, DotColour(a.background))], Decorations(a.background));
    assert r == Backdrop(a.background);
    r := Draw(r, BodyStage(a));
    r := Draw(r, AccessoryLayer(a));
    r := Draw(r, GlassesLayer(a));
    r := Draw(r, HatLayer(a));
    RenderStages(a);
  }

  // ----- properties -----

  /** The render is the backdrop with the body, accessory, glasses and hat
      stages applied over it in that order. */
  lemma RenderStages(a: Appearance)
    ensures Render(a) ==
      Apply(Apply(Apply(Apply(Backdrop(a.background), BodyStage(a)), AccessoryLayer(a)), GlassesLayer(a)), HatLayer(a))
  {
    var g := BlankCanvas(BackgroundPalette(a.background));
    var bg, body, acc, gl, hat := BackgroundOps(a.background), BodyStage(a), AccessoryLayer(a), GlassesLayer(a), HatLayer(a);
    ApplyAppend(g, bg + body + acc + gl, hat);
    ApplyAppend(g, bg + body + acc, gl);
    ApplyAppend(g, bg + body, acc);
    ApplyAppend(g, bg, body);
  }

  /** With no accessory, glasses or hat the render is the backdrop with the
      species body alone, ears and crest included. */
  lemma NoOverlays(a: Appearance)
    requires !Truthy(a.accessory) && !Truthy(a.glasses) && !Truthy(a.hat)
    ensures Render(a) == Apply(Backdrop(a.background), BodyOps(a.species, a.bodyColour, a.eyeColour, false))
  {
    RenderStages(a);
  }

  /** The palette falls back to the `'none'` pair exactly for names outside
      the table (and for `'none'` itself). */
  lemma BackgroundFallback(name: string)
    ensures BackgroundPalette(name) == NonePalette <==> name == "none" || name !in BackgroundColours
  {
  }

  /** Only sky, night, forest, ocean and sunset add scenery. */
  lemma DecorationsOnlyForFive(name: string)
    ensures Decorations(name) != [] <==> name in DecoratedBackgrounds
  {
    if name == "forest" { assert |Grass()| == 22; }
    if name == "ocean" { assert |Waves()| == 16; }
  }

  /** The scenery stays clear of the columns 9..19 above row 28, where the
      ears and crest are. */
  lemma DecorationsClearOfHead(name: string, x: int, y: int)
    requires 9 <= x <= 19 && 0 <= y < 28
    ensures Misses(Decorations(name), x, y)
  {
    if name == "forest" {
      forall k | 0 <= k < |Grass()| ensures !Covers(Grass()[k].shape, x, y) {
      }
    } else if name == "ocean" {
      forall k | 0 <= k < |Waves()| ensures !Covers(Waves()[k].shape, x, y) {
      }
    }
  }

  /** Each backdrop cell holds its gradient row, the dot colour exactly where
      the dot pattern is, and then the scenery that covers it. */
  lemma BackdropCell(name: string, x: int, y: int)
    requires 0 <= x < GridSize && 0 <= y < GridSize
    ensures Backdrop(name)[y][x] ==
      Cell(Gradient(BackgroundPalette(name).main, BackgroundPalette(name).secondary, y),
           (if x % 2 == 0 && y % 2 == 0 && (x + y) % 4 == 0 then [DotColour(name)] else [])
           + StrokesAt(Decorations(name), x, y))
  {
    var g := BlankCanvas(BackgroundPalette(name));
    ApplyCell(g, BackgroundOps(name), x, y);
    StrokesAppend([Op(Dots, DotColour(name))], Decorations(name), x, y);
    assert StrokesAt([Op(Dots, DotColour(name))], x, y) ==
      (if InDots(x, y) then [DotColour(name)] else []) by {
      assert [Op(Dots, DotColour(name))][..0] == [];
    }
  }

  /** Every cell of the render keeps its gradient row as the colour beneath
      all fills, whatever the species and overlays. */
  lemma RenderBase(a: Appearance, x: int, y: int)
    requires 0 <= x < GridSize && 0 <= y < GridSize
    ensures Render(a)[y][x].base ==
      Gradient(BackgroundPalette(a.background).main, BackgroundPalette(a.background).secondary, y)
  {
    ApplyCell(BlankCanvas(BackgroundPalette(a.background)), Layers(a), x, y);
  }

  /** Hamster and rat bodies never read the eye colour and no overlay does,
      so their render does not depend on it. */
  lemma EyeColourUnused(a: Appearance, eye: string)
    requires a.species == Hamster || a.species == Rat
    ensures Render(a) == Render(a.(eyeColour := eye))
  {
    assert BodyStage(a) == BodyStage(a.(eyeColour := eye));
  }

  // ----- the hat flag at the level of the render -----

  /** The species whose body routine takes the hat flag. */
  predicate HasHatFeature(s: Species) {
    s == Rat || s == Rabbit || s == Parrot
  }

  /** A cell of the rat's ears, the rabbit's ears or the parrot's crest:
      its column … */
  function FeatureX(s: Species): int
    requires HasHatFeature(s)
  {
    match s
    case Rat => 10
    case Rabbit => 11
    case Parrot => 16
  }

  /** … and its row. */
  function FeatureY(s: Species): int
    requires HasHatFeature(s)
  {
    match s
    case Rat => 9
    case Rabbit => 0
    case Parrot => 1
  }

  function FeatureColour(s: Species): string
    requires HasHatFeature(s)
  {
    if s == Parrot then "#ffd700" else Pink
  }

  /** The feature cell of `g` shows the feature's colour on top. */
  predicate FeatureShown(g: Grid, s: Species)
    requires HasHatFeature(s)
  {
    var x, y := FeatureX(s), FeatureY(s);
    InGrid(g, x, y) && g[y][x].Top() == Css(FeatureColour(s))
  }

  /** `h` holds the same feature cell as `g`. */
  predicate FeatureCellKept(g: Grid, h: Grid, s: Species)
    requires HasHatFeature(s)
  {
    var x, y := FeatureX(s), FeatureY(s);
    InGrid(g, x, y) && InGrid(h, x, y) && h[y][x] == g[y][x]
  }

  /** The feature cell of `g` is a bare cell under a gradient. */
  predicate FeatureCellBare(g: Grid, s: Species)
    requires HasHatFeature(s)
  {
    var x, y := FeatureX(s), FeatureY(s);
    InGrid(g, x, y) && g[y][x].strokes == [] && !g[y][x].base.Css?
  }

  /** The feature cell is a bare gradient cell of the backdrop. */
  lemma BackdropFeatureCell(name: string, s: Species)
    requires HasHatFeature(s)
    ensures FeatureCellBare(Backdrop(name), s)
  {
    var x, y := FeatureX(s), FeatureY(s);
    BackdropCell(name, x, y);
    DecorationsClearOfHead(name, x, y);
    assert StrokesAt(Decorations(name), x, y) == [] by {
      StrokesEmpty(Decorations(name), x, y);
    }
  }

  /** The body routine for a species with a hat feature, on any canvas whose
      feature cell is bare: the feature shows exactly when the hat flag is
      off, and with the flag on the cell is left alone. */
  lemma FeatureFollowsFlag(g: Grid, s: Species, body: string, eye: string, hasHat: bool)
    requires HasHatFeature(s) && FeatureCellBare(g, s)
    ensures FeatureShown(Apply(g, BodyOps(s, body, eye, hasHat)), s) <==> !hasHat
    ensures hasHat ==> FeatureCellKept(g, Apply(g, BodyOps(s, body, eye, hasHat)), s)
  {
    match s
    case Rat => RatFeature(g, body, eye, hasHat);
    case Rabbit => RabbitFeature(g, body, eye, hasHat);
    case Parrot => ParrotFeature(g, body, eye, hasHat);
  }

  /** The three facts the cell lemmas of the bodies give, read as the
      feature predicates. */
  lemma FeatureFromCell(g: Grid, h: Grid, s: Species, hasHat: bool)
    requires HasHatFeature(s) && FeatureCellBare(g, s)
    requires InGrid(h, FeatureX(s), FeatureY(s))
    requires !hasHat ==> h[FeatureY(s)][FeatureX(s)].Top() == Css(FeatureColour(s))
    requires hasHat ==> h[FeatureY(s)][FeatureX(s)] == g[FeatureY(s)][FeatureX(s)]
    ensures FeatureShown(h, s) <==> !hasHat
    ensures hasHat ==> FeatureCellKept(g, h, s)
  {
  }

  lemma RatFeature(g: Grid, body: string, eye: string, hasHat: bool)
    requires FeatureCellBare(g, Rat)
    ensures FeatureShown(Apply(g, BodyOps(Rat, body, eye, hasHat)), Rat) <==> !hasHat
    ensures hasHat ==> FeatureCellKept(g, Apply(g, BodyOps(Rat, body, eye, hasHat)), Rat)
  {
    RatBodyEar(g, body, eye, hasHat);
    FeatureFromCell(g, Apply(g, BodyOps(Rat, body, eye, hasHat)), Rat, hasHat);
  }

  lemma RabbitFeature(g: Grid, body: string, eye: string, hasHat: bool)
    requires FeatureCellBare(g, Rabbit)
    ensures FeatureShown(Apply(g, BodyOps(Rabbit, body, eye, hasHat)), Rabbit) <==> !hasHat
    ensures hasHat ==> FeatureCellKept(g, Apply(g, BodyOps(Rabbit, body, eye, hasHat)), Rabbit)
  {
    RabbitBodyEar(g, body, eye, hasHat);
    FeatureFromCell(g, Apply(g, BodyOps(Rabbit, body, eye, hasHat)), Rabbit, hasHat);
  }

  lemma ParrotFeature(g: Grid, body: string, eye: string, hasHat: bool)
    requires FeatureCellBare(g, Parrot)
    ensures FeatureShown(Apply(g, BodyOps(Parrot, body, eye, hasHat)), Parrot) <==> !hasHat
    ensures hasHat ==> FeatureCellKept(g, Apply(g, BodyOps(Parrot, body, eye, hasHat)), Parrot)
  {
    ParrotBodyCrest(g, body, eye, hasHat);
    FeatureFromCell(g, Apply(g, BodyOps(Parrot, body, eye, hasHat)), Parrot, hasHat);
  }

  /** After the body stage the rat's ears, the rabbit's ears and the parrot's
      crest show exactly when `appearance.hat` is falsy; otherwise the cell is
      still the backdrop's. */
  lemma FeatureFollowsHat(a: Appearance)
    requires HasHatFeature(a.species)
    ensures FeatureShown(Apply(Backdrop(a.background), BodyStage(a)), a.species) <==> !Truthy(a.hat)
    ensures Truthy(a.hat) ==> FeatureCellKept(Backdrop(a.background), Apply(Backdrop(a.background), BodyStage(a)), a.species)
  {
    BackdropFeatureCell(a.background, a.species);
    FeatureFollowsFlag(Backdrop(a.background), a.species, a.bodyColour, a.eyeColour, Truthy(a.hat));
  }

  /** A non-empty hat name no branch recognises paints no hat yet still
      hides the ears or crest: with no other overlay the feature cell stays the
      backdrop's, while the same pet without a hat shows it. */
  lemma UnrecognisedHatHidesFeature(a: Appearance)
    requires HasHatFeature(a.species)
    requires Truthy(a.hat) && a.hat.value !in HatNames
    requires !Truthy(a.accessory) && !Truthy(a.glasses)
    ensures HatLayer(a) == []
    ensures FeatureCellKept(Backdrop(a.background), Render(a), a.species)
    ensures FeatureShown(Render(a.(hat := None)), a.species)
  {
    HatStageEmpty(a.species, a.hat, HatOffsets);
    RenderStages(a);
    FeatureFollowsHat(a);
    var b := a.(hat := None);
    NoOverlays(b);
    FeatureFollowsHat(b);
  }
}
