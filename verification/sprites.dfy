/** The eight species body routines of src/utils/pixelArt.ts (`drawDog` …
    `drawRat`), each as the list of fills it makes, in drawing order. */
module Sprites {
  import opened Canvas
  import opened ColourMath
  import opened PetTypes

  const Pink := "#ffb6c1"
  const White := "#fff"

  /** `drawDog`. */
  function DogOps(body: string, eye: string, dark: string, light: string): seq<Op> {
    [ FillEllipse(16, 20, 7, 5, body),            // body
      FillCircle(16, 11, 6, body),                // head
      FillEllipse(9, 8, 2, 4, dark),              // ears
      FillEllipse(23, 8, 2, 4, dark),
      FillEllipse(16, 13, 3, 2, light),           // snout
      FillRect(15, 13, 2, 2, "#333"),             // nose
      FillCircle(13, 9, 2, White),                // eyes
      FillCircle(19, 9, 2, White),
      DrawPixel(13, 9, eye),
      DrawPixel(19, 9, eye),
      DrawPixel(14, 8, White),
      DrawPixel(20, 8, White),
      DrawPixel(15, 15, dark),                    // mouth
      DrawPixel(16, 15, dark),
      DrawPixel(17, 15, dark),
      FillRect(10, 24, 3, 4, body),               // legs
      FillRect(19, 24, 3, 4, body),
      FillRect(10, 27, 3, 1, dark),               // paws
      FillRect(19, 27, 3, 1, dark),
      FillEllipse(24, 19, 2, 2, body) ]           // tail
  }

  /** `drawCat`. */
  function CatOps(body: string, eye: string, dark: string, light: string): seq<Op> {
    [ FillEllipse(16, 20, 6, 5, body),            // body
      FillCircle(16, 11, 6, body),                // head
      FillRect(9, 4, 3, 1, body),                 // left ear
      FillRect(10, 5, 2, 1, body),
      FillRect(10, 6, 2, 1, body),
      FillRect(11, 7, 1, 1, body),
      DrawPixel(10, 5, Pink),
      FillRect(20, 4, 3, 1, body),                // right ear
      FillRect(20, 5, 2, 1, body),
      FillRect(20, 6, 2, 1, body),
      FillRect(20, 7, 1, 1, body),
      DrawPixel(21, 5, Pink),
      FillEllipse(16, 13, 2, 1, light),           // face markings
      DrawPixel(16, 12, Pink),                    // nose
      FillCircle(13, 10, 2, eye),                 // eyes
      FillCircle(19, 10, 2, eye),
      FillRect(13, 9, 1, 3, "#000"),
      FillRect(19, 9, 1, 3, "#000"),
      DrawPixel(12, 9, White),
      DrawPixel(18, 9, White),
      FillRect(6, 11, 4, 1, dark),                // whiskers
      FillRect(7, 13, 3, 1, dark),
      FillRect(22, 11, 4, 1, dark),
      FillRect(22, 13, 3, 1, dark),
      DrawPixel(15, 13, dark),                    // mouth
      DrawPixel(17, 13, dark),
      FillRect(11, 24, 2, 4, body),               // legs
      FillRect(19, 24, 2, 4, body),
      FillRect(22, 19, 1, 3, body),               // tail
      FillRect(23, 17, 1, 3, body),
      FillRect(24, 15, 1, 3, body),
      FillRect(25, 14, 1, 2, body) ]
  }

  /** `drawHamster`; its eye-colour parameter is never read. */
  function HamsterOps(body: string, eye: string, light: string): seq<Op> {
    [ FillCircle(16, 18, 7, body),                // body
      FillCircle(16, 11, 6, body),                // head
      FillCircle(10, 13, 4, light),               // cheeks
      FillCircle(22, 13, 4, light),
      FillCircle(10, 5, 2, body),                 // ears
      FillCircle(22, 5, 2, body),
      DrawPixel(10, 5, Pink),
      DrawPixel(22, 5, Pink),
      FillRect(15, 12, 2, 2, Pink),               // nose
      FillCircle(13, 9, 2, "#000"),               // eyes
      FillCircle(19, 9, 2, "#000"),
      DrawPixel(12, 8, White),
      DrawPixel(18, 8, White),
      FillRect(10, 24, 3, 2, light),              // paws
      FillRect(19, 24, 3, 2, light),
      FillEllipse(16, 20, 4, 3, light) ]          // belly
  }

  /** `drawParrot` up to the crest. */
  function ParrotHead(body: string, dark: string): seq<Op> {
    [ FillEllipse(16, 18, 5, 7, body),            // body
      FillEllipse(19, 18, 4, 6, dark),            // wing
      FillCircle(16, 8, 5, body),                 // head
      FillRect(20, 7, 4, 2, "#ffa500"),           // beak
      FillRect(21, 9, 3, 1, "#ff8c00"),
      FillRect(20, 10, 2, 1, "#ff8c00") ]
  }

  /** The parrot's crest, drawn only without a hat. */
  const ParrotCrest: seq<Op> :=
    [ FillRect(13, 2, 2, 4, "#ff6347"),
      FillRect(15, 1, 2, 4, "#ffd700"),
      FillRect(17, 2, 2, 3, "#32cd32") ]

  /** `drawParrot` after the crest. */
  function ParrotRest(body: string, eye: string): seq<Op> {
    [ FillCircle(17, 7, 2, White),                // eye
      DrawPixel(17, 7, eye),
      DrawPixel(15, 7, White),                    // eye ring
      DrawPixel(19, 7, White),
      FillRect(13, 24, 2, 5, "#ff6347"),          // tail feathers
      FillRect(15, 25, 2, 5, body),
      FillRect(17, 24, 2, 5, "#4169e1"),
      FillRect(13, 25, 3, 1, "#666"),             // feet
      FillRect(17, 25, 3, 1, "#666") ]
  }

  /** `drawParrot`. */
  function ParrotOps(body: string, eye: string, dark: string, hasHat: bool): seq<Op> {
    ParrotHead(body, dark) + (if hasHat then [] else ParrotCrest) + ParrotRest(body, eye)
  }

  /** `drawFish`; the two loops become sequence comprehensions. */
  function FishOps(body: string, eye: string, dark: string, light: string): seq<Op> {
    [FillEllipse(16, 16, 9, 6, body)]                                  // body
    + seq(4, i => FillEllipse(11 + i * 3, 16, 1, 2, light))            // scales
    + seq(5, i => FillRect(25 + i, 12 - i, 1, 8 + i * 2, dark))        // tail fin
    + [ FillRect(12, 9, 2, 3, dark),                                   // dorsal fin
        FillRect(14, 8, 2, 4, dark),
        FillRect(16, 9, 2, 3, dark),
        FillEllipse(13, 19, 3, 2, dark),                               // pectoral fin
        FillCircle(9, 15, 3, White),                                   // eye
        FillCircle(9, 15, 2, eye),
        DrawPixel(8, 14, White),
        FillRect(5, 16, 2, 2, dark),                                   // mouth
        FillCircle(4, 11, 1, "#87ceeb"),                               // bubbles
        FillCircle(3, 8, 1, "#87ceeb"),
        FillCircle(6, 6, 1, "#87ceeb") ]
  }

  /** `drawRabbit` up to the ears. */
  function RabbitHead(body: string): seq<Op> {
    [ FillEllipse(16, 20, 6, 5, body),            // body
      FillCircle(16, 13, 6, body) ]               // head
  }

  /** The rabbit's long ears, drawn only without a hat. */
  function RabbitEars(body: string): seq<Op> {
    [ FillEllipse(11, 3, 2, 7, body),
      FillEllipse(21, 3, 2, 7, body),
      FillEllipse(11, 3, 1, 6, Pink),
      FillEllipse(21, 3, 1, 6, Pink) ]
  }

  /** `drawRabbit` after the ears. */
  function RabbitRest(body: string, eye: string, dark: string, light: string): seq<Op> {
    [ FillCircle(11, 15, 3, light),               // cheeks
      FillCircle(21, 15, 3, light),
      FillEllipse(16, 14, 2, 1, Pink),            // nose
      FillCircle(13, 11, 2, eye),                 // eyes
      FillCircle(19, 11, 2, eye),
      DrawPixel(12, 10, White),
      DrawPixel(18, 10, White),
      FillRect(6, 14, 4, 1, dark),                // whiskers
      FillRect(22, 14, 4, 1, dark),
      FillRect(15, 16, 1, 2, White),              // buck teeth
      FillRect(16, 16, 1, 2, White),
      FillEllipse(10, 26, 4, 2, body),            // feet
      FillEllipse(22, 26, 4, 2, body),
      FillCircle(23, 21, 3, White) ]              // tail
  }

  /** `drawRabbit`. */
  function RabbitOps(body: string, eye: string, dark: string, light: string, hasHat: bool): seq<Op> {
    RabbitHead(body) + (if hasHat then [] else RabbitEars(body)) + RabbitRest(body, eye, dark, light)
  }

  const ShellColour := "#228b22"

  /** `drawTurtle`. */
  function TurtleOps(body: string, eye: string, dark: string): seq<Op> {
    var shellDark := Darken(ShellColour);
    [ FillEllipse(16, 16, 9, 7, ShellColour),     // shell
      FillCircle(16, 15, 4, shellDark),           // shell pattern
      FillCircle(11, 17, 2, shellDark),
      FillCircle(21, 17, 2, shellDark),
      FillCircle(13, 12, 2, shellDark),
      FillCircle(19, 12, 2, shellDark),
      DrawPixel(14, 13, Lighten(ShellColour)),    // shell highlights
      DrawPixel(18, 13, Lighten(ShellColour)),
      FillCircle(6, 14, 4, body),                 // head
      FillCircle(4, 13, 1, White),                // eye
      DrawPixel(4, 13, eye),
      DrawPixel(3, 15, dark),                     // mouth
      FillEllipse(9, 21, 3, 2, body),             // legs
      FillEllipse(23, 21, 3, 2, body),
      FillEllipse(9, 11, 3, 2, body),
      FillEllipse(23, 11, 3, 2, body),
      FillRect(25, 16, 3, 2, body) ]              // tail
  }

  /** `drawRat` up to the ears. */
  function RatHead(body: string, light: string): seq<Op> {
    [ FillEllipse(17, 18, 7, 5, body),            // body
      FillEllipse(9, 14, 5, 4, body),             // head
      FillEllipse(4, 14, 3, 2, light),            // snout
      FillRect(2, 14, 2, 2, Pink) ]               // nose
  }

  /** The rat's round ears, drawn only without a hat. */
  function RatEars(body: string): seq<Op> {
    [ FillCircle(10, 9, 3, body),
      FillCircle(16, 9, 3, body),
      FillCircle(10, 9, 2, Pink),
      FillCircle(16, 9, 2, Pink) ]
  }

  /** `drawRat` after the ears. */
  function RatRest(body: string, dark: string): seq<Op> {
    [ FillCircle(7, 13, 2, "#000"),               // eye
      DrawPixel(6, 12, White),
      FillRect(0, 12, 3, 1, dark),                // whiskers
      FillRect(0, 14, 2, 1, dark),
      FillRect(0, 16, 3, 1, dark),
      FillRect(12, 22, 3, 3, body),               // legs
      FillRect(19, 22, 3, 3, body),
      FillRect(24, 18, 4, 1, Pink),               // tail
      FillRect(27, 17, 3, 1, Pink),
      FillRect(29, 15, 2, 2, Pink) ]
  }

  /** `drawRat`; its eye-colour parameter is never read. */
  function RatOps(body: string, eye: string, dark: string, light: string, hasHat: bool): seq<Op> {
    RatHead(body, light) + (if hasHat then [] else RatEars(body)) + RatRest(body, dark)
  }

  /** The body stage of `drawPet`: the routine for the species, with the
      darker and lighter shades of the body colour every routine derives. */
  function BodyOps(species: Species, body: string, eye: string, hasHat: bool): seq<Op> {
    Body(species, body, eye, Darken(body), Lighten(body), hasHat)
  }

  /** The routine for the species, given the two shades. */
  function Body(species: Species, body: string, eye: string, dark: string, light: string, hasHat: bool): seq<Op> {
    match species
    case Rat => RatOps(body, eye, dark, light, hasHat)
    case Rabbit => RabbitOps(body, eye, dark, light, hasHat)
    case Parrot => ParrotOps(body, eye, dark, hasHat)
    case Dog => DogOps(body, eye, dark, light)
    case Cat => CatOps(body, eye, dark, light)
    case Hamster => HamsterOps(body, eye, light)
    case Fish => FishOps(body, eye, dark, light)
    case Turtle => TurtleOps(body, eye, dark)
  }

  /** The body stage passes the two shades of the body colour. */
  lemma BodyShades(species: Species, body: string, eye: string, hasHat: bool)
    ensures BodyOps(species, body, eye, hasHat) == Body(species, body, eye, Darken(body), Lighten(body), hasHat)
  {
  }

  lemma RatPick(body: string, eye: string, dark: string, light: string, hasHat: bool)
    ensures Body(Rat, body, eye, dark, light, hasHat) == RatOps(body, eye, dark, light, hasHat)
  {
  }

  lemma RabbitPick(body: string, eye: string, dark: string, light: string, hasHat: bool)
    ensures Body(Rabbit, body, eye, dark, light, hasHat) == RabbitOps(body, eye, dark, light, hasHat)
  {
  }

  lemma ParrotPick(body: string, eye: string, dark: string, light: string, hasHat: bool)
    ensures Body(Parrot, body, eye, dark, light, hasHat) == ParrotOps(body, eye, dark, hasHat)
  {
  }

  /** The three routines that read the hat flag, picked out of `BodyOps`. */
  lemma RatPicked(body: string, eye: string, hasHat: bool)
    ensures BodyOps(Rat, body, eye, hasHat) == RatOps(body, eye, Darken(body), Lighten(body), hasHat)
  {
    BodyShades(Rat, body, eye, hasHat);
    RatPick(body, eye, Darken(body), Lighten(body), hasHat);
  }

  lemma RabbitPicked(body: string, eye: string, hasHat: bool)
    ensures BodyOps(Rabbit, body, eye, hasHat) == RabbitOps(body, eye, Darken(body), Lighten(body), hasHat)
  {
    BodyShades(Rabbit, body, eye, hasHat);
    RabbitPick(body, eye, Darken(body), Lighten(body), hasHat);
  }

  lemma ParrotPicked(body: string, eye: string, hasHat: bool)
    ensures BodyOps(Parrot, body, eye, hasHat) == ParrotOps(body, eye, Darken(body), hasHat)
  {
    BodyShades(Parrot, body, eye, hasHat);
    ParrotPick(body, eye, Darken(body), Lighten(body), hasHat);
  }

  // ----- what the hat flag does to the bodies -----

  /** Only the rat, rabbit and parrot routines look at the hat flag. */
  lemma BodyHatIndependent(species: Species, body: string, eye: string)
    requires species != Rat && species != Rabbit && species != Parrot
    ensures BodyOps(species, body, eye, true) == BodyOps(species, body, eye, false)
  {
  }

  lemma RatRestMissesEar(body: string, dark: string)
    ensures Misses(RatRest(body, dark), 10, 9)
  {
  }

  lemma RatHeadMissesEar(body: string, light: string)
    ensures Misses(RatHead(body, light), 10, 9)
  {
  }

  /** The rat's ear cell (10, 9) shows pink exactly when there is no hat; with
      a hat nothing of the rat touches it. */
  lemma RatEarCell(g: Grid, body: string, eye: string, dark: string, light: string, hasHat: bool)
    requires InGrid(g, 10, 9)
    ensures InGrid(Apply(g, RatOps(body, eye, dark, light, hasHat)), 10, 9)
    ensures !hasHat ==> Apply(g, RatOps(body, eye, dark, light, hasHat))[9][10].Top() == Css(Pink)
    ensures hasHat ==> Apply(g, RatOps(body, eye, dark, light, hasHat))[9][10] == g[9][10]
  {
    var head, ears, rest := RatHead(body, light), RatEars(body), RatRest(body, dark);
    RatRestMissesEar(body, dark);
    if hasHat {
      RatHeadMissesEar(body, light);
      MissesAppend(head, rest, 10, 9);
      assert RatOps(body, eye, dark, light, hasHat) == head + rest;
      ApplyUntouched(g, head + rest, 10, 9);
    } else {
      var front, back := head + ears[..3], [ears[3]] + rest;
      assert RatOps(body, eye, dark, light, hasHat) == front + back;
      assert Misses([ears[3]], 10, 9);
      MissesAppend([ears[3]], rest, 10, 9);
      ApplyTopSplit(g, front, back, 10, 9);
    }
  }

  lemma RabbitRestMissesEar(body: string, eye: string, dark: string, light: string)
    ensures Misses(RabbitRest(body, eye, dark, light), 11, 0)
  {
  }

  lemma RabbitHeadMissesEar(body: string)
    ensures Misses(RabbitHead(body), 11, 0)
  {
  }

  lemma RabbitEarShown(g: Grid, body: string, eye: string, dark: string, light: string)
    requires InGrid(g, 11, 0)
    ensures InGrid(Apply(g, RabbitOps(body, eye, dark, light, false)), 11, 0)
    ensures Apply(g, RabbitOps(body, eye, dark, light, false))[0][11].Top() == Css(Pink)
  {
    var ears, rest := RabbitEars(body), RabbitRest(body, eye, dark, light);
    RabbitRestMissesEar(body, eye, dark, light);
    var front, back := RabbitHead(body) + ears[..3], [ears[3]] + rest;
    assert RabbitOps(body, eye, dark, light, false) == front + back;
    assert Misses([ears[3]], 11, 0);
    MissesAppend([ears[3]], rest, 11, 0);
    ApplyTopSplit(g, front, back, 11, 0);
  }

  lemma RabbitEarHidden(g: Grid, body: string, eye: string, dark: string, light: string)
    requires InGrid(g, 11, 0)
    ensures InGrid(Apply(g, RabbitOps(body, eye, dark, light, true)), 11, 0)
    ensures Apply(g, RabbitOps(body, eye, dark, light, true))[0][11] == g[0][11]
  {
    var head, rest := RabbitHead(body), RabbitRest(body, eye, dark, light);
    RabbitRestMissesEar(body, eye, dark, light);
    RabbitHeadMissesEar(body);
    MissesAppend(head, rest, 11, 0);
    assert RabbitOps(body, eye, dark, light, true) == head + rest;
    ApplyUntouched(g, head + rest, 11, 0);
  }

  /** The tip of the rabbit's left ear, cell (11, 0), shows pink exactly when
      there is no hat; with a hat nothing of the rabbit touches it. */
  lemma RabbitEarCell(g: Grid, body: string, eye: string, dark: string, light: string, hasHat: bool)
    requires InGrid(g, 11, 0)
    ensures InGrid(Apply(g, RabbitOps(body, eye, dark, light, hasHat)), 11, 0)
    ensures !hasHat ==> Apply(g, RabbitOps(body, eye, dark, light, hasHat))[0][11].Top() == Css(Pink)
    ensures hasHat ==> Apply(g, RabbitOps(body, eye, dark, light, hasHat))[0][11] == g[0][11]
  {
    if hasHat {
      RabbitEarHidden(g, body, eye, dark, light);
    } else {
      RabbitEarShown(g, body, eye, dark, light);
    }
  }

  lemma ParrotRestMissesCrest(body: string, eye: string)
    ensures Misses(ParrotRest(body, eye), 16, 1)
  {
  }

  lemma ParrotHeadMissesCrest(body: string, dark: string)
    ensures Misses(ParrotHead(body, dark), 16, 1)
  {
  }

  /** The middle feather of the parrot's crest, cell (16, 1), shows gold
      exactly when there is no hat; with a hat nothing of the parrot touches
      it. */
  lemma ParrotCrestCell(g: Grid, body: string, eye: string, dark: string, hasHat: bool)
    requires InGrid(g, 16, 1)
    ensures InGrid(Apply(g, ParrotOps(body, eye, dark, hasHat)), 16, 1)
    ensures !hasHat ==> Apply(g, ParrotOps(body, eye, dark, hasHat))[1][16].Top() == Css("#ffd700")
    ensures hasHat ==> Apply(g, ParrotOps(body, eye, dark, hasHat))[1][16] == g[1][16]
  {
    var head, crest, rest := ParrotHead(body, dark), ParrotCrest, ParrotRest(body, eye);
    ParrotRestMissesCrest(body, eye);
    if hasHat {
      ParrotHeadMissesCrest(body, dark);
      MissesAppend(head, rest, 16, 1);
      assert ParrotOps(body, eye, dark, hasHat) == head + rest;
      ApplyUntouched(g, head + rest, 16, 1);
    } else {
      var front, back := head + crest[..2], [crest[2]] + rest;
      assert ParrotOps(body, eye, dark, hasHat) == front + back;
      assert Misses([crest[2]], 16, 1);
      MissesAppend([crest[2]], rest, 16, 1);
      ApplyTopSplit(g, front, back, 16, 1);
    }
  }

  /** The cell lemmas above, read on the body stage itself. */
  lemma RatBodyEar(g: Grid, body: string, eye: string, hasHat: bool)
    requires InGrid(g, 10, 9)
    ensures InGrid(Apply(g, BodyOps(Rat, body, eye, hasHat)), 10, 9)
    ensures !hasHat ==> Apply(g, BodyOps(Rat, body, eye, hasHat))[9][10].Top() == Css(Pink)
    ensures hasHat ==> Apply(g, BodyOps(Rat, body, eye, hasHat))[9][10] == g[9][10]
  {
    RatPicked(body, eye, hasHat);
    RatEarCell(g, body, eye, Darken(body), Lighten(body), hasHat);
  }

  lemma RabbitBodyEar(g: Grid, body: string, eye: string, hasHat: bool)
    requires InGrid(g, 11, 0)
    ensures InGrid(Apply(g, BodyOps(Rabbit, body, eye, hasHat)), 11, 0)
    ensures !hasHat ==> Apply(g, BodyOps(Rabbit, body, eye, hasHat))[0][11].Top() == Css(Pink)
    ensures hasHat ==> Apply(g, BodyOps(Rabbit, body, eye, hasHat))[0][11] == g[0][11]
  {
    RabbitPicked(body, eye, hasHat);
    RabbitEarCell(g, body, eye, Darken(body), Lighten(body), hasHat);
  }

  lemma ParrotBodyCrest(g: Grid, body: string, eye: string, hasHat: bool)
    requires InGrid(g, 16, 1)
    ensures InGrid(Apply(g, BodyOps(Parrot, body, eye, hasHat)), 16, 1)
    ensures !hasHat ==> Apply(g, BodyOps(Parrot, body, eye, hasHat))[1][16].Top() == Css("#ffd700")
    ensures hasHat ==> Apply(g, BodyOps(Parrot, body, eye, hasHat))[1][16] == g[1][16]
  {
    ParrotPicked(body, eye, hasHat);
    ParrotCrestCell(g, body, eye, Darken(body), hasHat);
  }
}
