# Pixel pet renderer and its companions, in Dafny

This project models the pure core of a virtual-pet web application.

- **Renderer (`drawPet`).** It paints a 32×32 pixel-art pet in stages:
  1. a background gradient, a dot pattern and decorations chosen by the background name;
  2. one of eight species bodies;
  3. an accessory, glasses and a hat.
  Each overlay stage has bespoke routines for fish, turtle, rat, parrot and rabbit, and offset tables for dog, cat and hamster.
- **Temperament icon (`drawTemperamentIcon`).** A 16×16-cell emoji drawn for four temperaments.
- **Smaller pure pieces:**
  - the colour arithmetic behind `darken` and `lighten`;
  - the display helpers and random-draw helpers of the pet record;
  - the token symbol, description and metadata checks used when a pet is minted;
  - the personality prompt selections, the offline mock chat reply and the chat request layout;
  - the gallery's add, get and update;
  - the personality editor's quirk toggle;
  - the creation wizard's steps;
  - the pet page's defaults, stat drift and "other pets" list.

## How the renderer is modelled

**Canvas.** The canvas is a grid `g[y][x]` of `Cell(base, strokes)`.
- `base` is the gradient colour of the row.
- `strokes` lists, in painting order, the CSS colours of every fill that covered the cell.
- `Top()` is the colour a viewer sees: the last stroke, or else the base.

Keeping the whole stroke list, and not only the top colour, lets the lemmas state that a stage leaves a cell untouched.

**Shapes.** `drawPixel`, `fillRect`, `fillCircle` and `fillEllipse` become shapes, and `Covers` says which cells each shape fills.
- The circle and ellipse tests are the source's `x*x/(rx*rx) + y*y/(ry*ry) <= 1` over a bounding box.
- They are rewritten over the integers by multiplying out the denominators.

**Drawing.** A drawing routine is a sequence of `Op(shape, colour)`, and `Apply` paints them in order. Three loop methods are proved equal to painting the shapes one after another:
- `FillRound` is the scan of `fillCircle` and `fillEllipse`;
- `PaintDots` is the background dot loop;
- `Draw` paints a whole list.

**Icons.** The icon `switch` is split in two. `EmojiOf` maps a temperament to one of four drawings, and `EmojiOps` gives a drawing's fills: the face disc loop (none for the heart), then the case's fixed strokes. The three face cases differ only in the disc's top row and their strokes.

**Colours.** The renderer treats colours as opaque strings. `darken` and `lighten` are modelled in `ColourMath`, including `parseInt(…, 16)` and 32-bit shifts; the parse is exact for every colour of at most 13 hex digits, which covers every `#rrggbb` colour. The sprites take the darker and lighter shade as arguments, so the body proofs never unfold the arithmetic.

## Model

| member | source | states |
|---|---|---|
| ColourMath.AdjustColor | src/utils/pixelArt.ts:9-15 | the result is `#` plus six lower-case hex digits, and each channel is the input channel moved by `amount` and clamped to 0..255 |
| ColourMath.Darken | src/utils/pixelArt.ts:17-19 | each channel drops by 40, clamped at 0, and the result is canonical |
| ColourMath.Lighten | src/utils/pixelArt.ts:21-23 | each channel rises by 40, clamped at 255, and the result is canonical |
| ColourMath.FormatRoundTrip | src/utils/pixelArt.ts:9-15 | formatting byte channels and reading them back with `parseInt` and the shifts gives the same channels |
| ColourMath.CanonicalRoundTrip | src/utils/pixelArt.ts:9-15 | reading the channels of a canonical colour and formatting them gives back the same string |
| ColourMath.AdjustByZeroIsIdentity | src/utils/pixelArt.ts:9-15 | adjusting a canonical colour by 0 returns it unchanged |
| ColourMath.LightenUndoesDarken | src/utils/pixelArt.ts:17-23 | when no channel is below 40, lightening a darkened colour restores it exactly |
| Canvas.PaintPixel | src/utils/pixelArt.ts:26-41 | a pixel paints exactly its own cell and equals a 1×1 rectangle |
| Canvas.RectNormalised | src/utils/pixelArt.ts:32-41 | a rectangle with negative width covers the same cells as the mirrored rectangle with positive width |
| Canvas.CircleAsEllipse | src/utils/pixelArt.ts:43-75 | a circle of positive radius covers the same cells as the ellipse with equal radii; radius 0 gives one cell for the circle and none for the ellipse |
| Canvas.FillRound | src/utils/pixelArt.ts:43-75 | the row-by-row scan over the bounding box paints exactly the cells the shape covers, as one fill |
| Canvas.PaintDots | src/utils/pixelArt.ts:1109-1118 | the nested dot loop paints exactly the cells of the dot pattern |
| Canvas.Draw | src/utils/pixelArt.ts:1092-1324 | painting a list op by op equals applying the whole list |
| Canvas.ApplyCell | src/utils/pixelArt.ts:26-75 | after a list of fills, a cell keeps its base and gains the colours of exactly the fills that cover it, in order |
| Canvas.ApplyAppend | src/utils/pixelArt.ts:1092-1324 | painting `a + b` equals painting `a` and then `b`, so the stages compose |
| Sprites.BodyHatIndependent | src/utils/pixelArt.ts:77-427 | dog, cat, hamster, fish and turtle bodies do not depend on whether a hat is worn |
| Sprites.RatEarCell | src/utils/pixelArt.ts:385-427 | without a hat, the rat's inner ear at (10,9) is pink on top; with a hat, the body leaves that cell untouched |
| Sprites.RabbitEarCell | src/utils/pixelArt.ts:299-345 | without a hat, the rabbit's inner ear at (11,0) is pink on top; with a hat, the body leaves that cell untouched |
| Sprites.ParrotCrestCell | src/utils/pixelArt.ts:218-259 | without a hat, the parrot's crest at (16,1) is gold on top; with a hat, the body leaves that cell untouched |
| Overlays.NeckAccessoryEmpty | src/utils/pixelArt.ts:429-555 | a bespoke neck accessory paints nothing exactly when its name is not one of the four known accessories |
| Overlays.AccessoryStageEmpty | src/utils/pixelArt.ts:1224-1256 | the accessory stage paints nothing exactly when the accessory is unset or empty, unknown, or hidden by the offset table for a standard species |
| Overlays.GlassesStageEmpty | src/utils/pixelArt.ts:1259-1288 | the glasses stage paints nothing exactly when the glasses are unset or empty, unknown, or hidden for a standard species |
| Overlays.HatStageEmpty | src/utils/pixelArt.ts:1291-1323 | the hat stage paints nothing exactly when the hat is unset or empty, unknown, or hidden for a standard species |
| Overlays.OnlyStandardSpeciesReadTables | src/utils/pixelArt.ts:1184-1221 | the offset tables matter only for dog, cat and hamster; changing the bespoke species' entries changes no stage |
| Overlays.HideMarkersUnused | src/utils/pixelArt.ts:1184-1221 | every -99 entry of the three offset tables belongs to a species whose own routine runs first, so the entry is never read |
| Overlays.RecognisedOverlaysPaint | src/utils/pixelArt.ts:1184-1323 | with the source's tables, every recognised accessory, glasses or hat name paints something on every species |
| Overlays.StandardOffsets | src/utils/pixelArt.ts:1184-1221 | dog and cat use offset 0, and hamster uses 2 for accessory and glasses and 3 for the hat |
| Renderer.DrawPet | src/utils/pixelArt.ts:1092-1324 | the imperative drawing, stage by stage with the loop methods, produces exactly the staged model `Render` |
| Renderer.RenderStages | src/utils/pixelArt.ts:1092-1324 | the picture is the backdrop, then the body, accessory, glasses and hat, in that order |
| Renderer.NoOverlays | src/utils/pixelArt.ts:1160-1180 | with no accessory, glasses or hat, the picture is the backdrop plus the hatless body |
| Renderer.BackgroundFallback | src/utils/pixelArt.ts:1079-1107 | a background gets the "none" palette exactly when it is "none" or not a known name |
| Renderer.DecorationsOnlyForFive | src/utils/pixelArt.ts:1120-1157 | decorations are drawn exactly for forest, ocean, night, sunset and sky |
| Renderer.DecorationsClearOfHead | src/utils/pixelArt.ts:1120-1157 | no decoration touches columns 9..19 above row 28 |
| Renderer.BackdropCell | src/utils/pixelArt.ts:1100-1157 | each backdrop cell has the row's gradient base, the dot colour exactly on the dot pattern, then the decoration strokes covering it |
| Renderer.RenderBase | src/utils/pixelArt.ts:1100-1107 | every cell of the picture keeps its row's gradient as base, whatever is drawn on it |
| Renderer.EyeColourUnused | src/utils/pixelArt.ts:182-427 | hamster and rat pictures do not depend on the chosen eye colour |
| Renderer.FeatureFollowsHat | src/utils/pixelArt.ts:1160-1180 | for rat, rabbit and parrot, the ear or crest shows in its colour exactly when no hat is set; with a hat, the body leaves that cell as the backdrop |
| Renderer.UnrecognisedHatHidesFeature | src/utils/pixelArt.ts:1160-1323 | an unknown hat name paints no hat but still hides the rat's ear, the rabbit's ear or the parrot's crest |
| Icons.FaceRowsCells | src/utils/pixelArt.ts:1373-1381 | the face loop paints a cell exactly when it lies in the scanned rows and columns and inside the doubled-coordinate disc |
| Icons.FaceDiscCells | src/utils/pixelArt.ts:1373-1381 | the scanned 10×10 square holds the whole radius-5 disc, so the face loop fills exactly the disc's cells |
| Icons.FaceOfCells | src/utils/pixelArt.ts:1368-1489 | the shy and calm faces fill exactly the disc centred on (7.5, 7.5), the aggressive face the disc centred on (7.5, 8.5), and the heart has no disc |
| Icons.EmojiInside | src/utils/pixelArt.ts:1347-1489 | each of the four drawings, disc and strokes, stays inside the 16×16 cell grid |
| Icons.IconInside | src/utils/pixelArt.ts:1330-1491 | for every temperament string, every pixel the icon paints lies inside the 16×16 cell grid, so nothing is clipped |
| Icons.IconBlankUnlessKnown | src/utils/pixelArt.ts:1330-1491 | an icon paints something exactly for friendly, shy, aggressive and calm; any other temperament leaves the blank icon |
| PetTypes.SpeciesNameInjective | src/types/pet.ts:1-9 | distinct species have distinct type names |
| PetTypes.GetActivityText | src/types/pet.ts:185-190 | each of the four labels is returned exactly on its level band |
| PetTypes.ActivityTextMonotone | src/types/pet.ts:185-190 | a higher level never gets a lower label |
| PetTypes.GetNoiseText | src/types/pet.ts:193-198 | each of the four labels is returned exactly on its level band |
| PetTypes.NoiseMatchesActivity | src/types/pet.ts:185-198 | the noise label and the activity label always come from the same band |
| PetTypes.GetStatusText | src/types/pet.ts:173-182 | the five statuses get their labels, and "Unknown" is returned exactly for anything else |
| PetTypes.StatusTextInjective | src/types/pet.ts:173-182 | distinct statuses are shown with distinct labels |
| PetTypes.GenerateRandomStats | src/types/pet.ts:64-71 | the new stats lie in 70..100, 70..100, 60..100 and 30..80 |
| PetTypes.GenerateRandomStatsOnto | src/types/pet.ts:64-71 | every stats record in those ranges comes from some draws |
| PetTypes.GetRandomLocation | src/types/pet.ts:201-203 | the result is one of the eight locations |
| PetTypes.GetRandomLocationOnto | src/types/pet.ts:201-203 | every location can be drawn |
| TokenMeta.GenerateSymbol | src/services/pumpfun.ts:84-89 | the symbol is 1 to 6 characters, each an upper-case letter or a digit |
| TokenMeta.SymbolFallback | src/services/pumpfun.ts:84-89 | the filtered name is empty exactly when the name has no ASCII letter or digit, and then the symbol is "PET" |
| TokenMeta.SymbolIdempotent | src/services/pumpfun.ts:84-89 | generating a symbol from a symbol returns it unchanged |
| TokenMeta.GenerateDescription | src/services/pumpfun.ts:94-113 | the description is a prefix of the full text, at most 200 characters, and the whole text when that fits |
| TokenMeta.DescriptionOpening | src/services/pumpfun.ts:94-97 | the description opens with "Meet <name>, a <temperament> <type>", cut at 200 if that alone is longer |
| TokenMeta.DescriptionWithBio | src/services/pumpfun.ts:99-100 | with a bio, the full text is the opening, ". " and the bio |
| TokenMeta.ChosenTraits | src/services/pumpfun.ts:101-109 | at most two traits are joined, and the activity word is among them exactly when the pet is not both human-loving and playful |
| TokenMeta.DescriptionWithoutBio | src/services/pumpfun.ts:101-110 | without a bio, the full text is the opening, "who" and the trait phrase, then the favourite food |
| TokenMeta.ActivityWordIsLabel | src/services/pumpfun.ts:105 | the description's activity word is the pet page's activity label in lower case |
| TokenMeta.ValidateMetadata | src/services/pumpfun.ts:193-204 | metadata is accepted exactly when name and symbol have non-whitespace and are at most 32 and 10 characters; otherwise the message is that of the first failing check in source order: blank name, blank symbol, long name, long symbol |
| TokenMeta.GeneratedSymbolPasses | src/services/pumpfun.ts:84-89 | a generated symbol never fails the symbol checks, so minting fails only on the name |
| Chat.CalmFallback | src/services/ai.ts:42-66 | any temperament besides friendly, shy and aggressive gets the calm gloss and the calm feeling, and only those |
| Chat.EnergyFollowsActivity | src/services/ai.ts:44 | two levels get the same energy line exactly when they get the same activity label |
| Chat.QuirksLine | src/services/ai.ts:47 | the quirks line is empty exactly when there are no quirks |
| Chat.QuirksListed | src/services/ai.ts:47 | every quirk appears in the quirks line |
| Chat.ClassifyPriority | src/services/ai.ts:91-190 | a message gets a topic exactly when that topic's check succeeds and no earlier check does |
| Chat.PlayReplyOnlyReadsPlayful | src/services/ai.ts:106-112 | the reply to a play message depends only on the action and the playful flag |
| Chat.ShyComplimentHidesFace | src/services/ai.ts:115-120 | a shy pet answers a compliment starting with "*hides face*" |
| Chat.UnknownTemperamentReplies | src/services/ai.ts:135-190 | an unknown temperament chats with the friendly default lines but greets and answers "how are you" differently from a friendly pet |
| Chat.RequestContents | src/services/ai.ts:220-251 | the request is the prompt, the last ten messages with pet turns as model turns, then the new message |
| Chat.BuildContents | src/services/ai.ts:220-251 | the loop builds exactly that request |
| Gallery.AddPet | src/context/PetsContext.tsx:38-49 | the new pet goes first and the rest follow unchanged, whether saving succeeded or not |
| Gallery.GetPet | src/context/PetsContext.tsx:51-53 | the lookup fails exactly when no pet has the id, and otherwise returns a pet with that id |
| Gallery.GetPetFindsFirst | src/context/PetsContext.tsx:51-53 | the lookup returns the first pet with the id |
| Gallery.GetAfterAdd | src/context/PetsContext.tsx:38-53 | after adding a pet, looking up its id finds it |
| Gallery.Merge | src/context/PetsContext.tsx:57 | each of the ten fields the update supplies takes its value, and every field it leaves out keeps the old one |
| Gallery.VisitChangesOnlyTimestamp | src/pages/PetPage.tsx:27 | the visit update changes the last-interaction time and nothing else |
| Gallery.DriftChangesOnlyStats | src/pages/PetPage.tsx:123 | the stat-drift update changes the stats and nothing else |
| Gallery.UpdatePet | src/context/PetsContext.tsx:55-59 | every pet with the id is merged with the update, and every other pet is unchanged |
| Gallery.UpdateAbsent | src/context/PetsContext.tsx:55-59 | updating an absent id changes nothing |
| Gallery.GetAfterUpdate | src/context/PetsContext.tsx:51-59 | looking up the id after an update gives the merged pet, or nothing when the id was absent |
| PersonalityEditor.UpdatePersonality | src/components/PersonalityEditor.tsx:44-46 | each of the nine fields the update sets takes its value, and every field it leaves out keeps the old one |
| PersonalityEditor.QuirksUpdateChangesOnlyQuirks | src/components/PersonalityEditor.tsx:48-53 | the toggle's update changes only the quirks |
| PersonalityEditor.ToggleQuirk | src/components/PersonalityEditor.tsx:48-53 | a selected quirk is removed; an unselected one is appended at the end |
| PersonalityEditor.ToggleSelected | src/components/PersonalityEditor.tsx:48-53 | removing a quirk drops every copy of it and keeps every other quirk with its count |
| PersonalityEditor.ToggleTwice | src/components/PersonalityEditor.tsx:48-53 | toggling an unselected quirk twice restores the list |
| PersonalityEditor.EnabledToggleKeepsLimit | src/components/PersonalityEditor.tsx:199 | with the button guard, toggling never takes the list above three quirks |
| CreateWizard.StepsMoveByOne | src/pages/Create.tsx:74-90 | next and back move at most one step |
| CreateWizard.NextMoves | src/pages/Create.tsx:49-82 | next moves exactly from the appearance step, or from the personality step when the name has non-whitespace |
| CreateWizard.BackUndoesNext | src/pages/Create.tsx:74-90 | back undoes every next that moved |
| CreateWizard.BackMoves | src/pages/Create.tsx:84-90 | back stays put only on the first step |
| CreateWizard.LaunchNamePasses | src/pages/Create.tsx:49 | a name that reaches the launch step never fails "name is required", and it mints exactly when it has at most 32 characters |
| CreateWizard.DisplayedSymbol | src/pages/Create.tsx:288 | the symbol shown on the launch step has at most six characters, with no whitespace and no lower-case letter |
| CreateWizard.DisplayedSymbolMismatch | src/pages/Create.tsx:288 | for "Mr. Bean" the launch step shows "MR.BEA", but the minted symbol is "MRBEAN" |
| CreateWizard.ShownSymbol | src/pages/Create.tsx:288 | the corrected display is the minted symbol: 1 to 6 characters, no whitespace, no lower case |
| CreateWizard.DisplayedSymbolAgreesOnPlainNames | src/pages/Create.tsx:288 | for names of letters, digits and whitespace with at least one letter or digit, the displayed and minted symbols agree |
| PetPage.DefaultsOnlyWhenMissing | src/pages/PetPage.tsx:96-98 | missing stats get the defaults; the status shows "online" and the location "Living Room" exactly when stored empty or already that value |
| PetPage.ChangeStats | src/pages/PetPage.tsx:113-127 | after a drift every stat stays within 0..100 |
| PetPage.ChangeStatsStep | src/pages/PetPage.tsx:116-119 | a drift moves the first three stats by -3..+5 and bond by -2..+6 |
| PetPage.ChangeStatsOnto | src/pages/PetPage.tsx:116-119 | away from the bounds, every step in those ranges is reachable |
| PetPage.OtherPets | src/pages/PetPage.tsx:100 | the list is the first five of the gallery's pets without the current id (all of them when there are fewer), so none has the current id |
| PetPage.OtherPetsOrder | src/pages/PetPage.tsx:100 | they keep gallery order, and with at most five candidates they are all of them |

## Left out

- Alpha blending, the `createLinearGradient` interpolation and `PIXEL_SIZE` scaling are not modelled. A cell records its gradient endpoints and the CSS colours painted on it, not the pixels a browser would compute.
- ColourMath.ParseIntHex: the parse returns the exact integer, while JavaScript's `parseInt` returns a double. The two agree up to 13 hex digits; from 14 digits on the double drops low bits, and past 2^1024 it is `Infinity`, which `ToInt32` turns into 0. Every colour the app passes has six digits.
- Floating point in the circle, ellipse and icon face tests is replaced by exact integer tests. The doubled-coordinate form `(2x-15)² + (2y-c)² <= 100` equals `(x-7.5)² + (y-c/2)² <= 25` because these values are exact in binary floating point.
- A zero-radius ellipse makes the source compute `0/0`, which is NaN and fails the test, so it paints nothing. The model gives the same result, and a zero-radius circle paints its centre as in the source.
- `canvasToDataURL` and `canvasToBlob` (PNG export) are I/O and are left out.
- The network is left out: IPFS upload, Solana transaction signing, the wallet, the Gemini `fetch` and the Supabase gallery calls. Where an outcome matters, it is a parameter (`saved` in `Gallery.AddPet`).
- `Math.random` draws and timers are parameters, already floored: the stat draws, the location, the chat action and reply, and the pet-page drift.
- Chat prompt selections (`generateSystemPrompt`): only the selections the prompt makes are modelled, not its fixed template text. These are the species line, the temperament gloss, the energy line, the human and playfulness lines, the quirks and the feeling word.
- The unreachable fallbacks `speciesInfo[type] || …` and `actions[type] || …` are omitted, because every species has an entry.
- Chat.RequestContents: the source skips messages whose role is neither `pet` nor `user`. The model's message role has only those two values, so nothing is skipped.
- React state, rendering, routing, the chat message `id` and `timestamp` fields, and the `createdAt` and `lastInteraction` fields are carried but not used.
- Strings are ASCII: `toUpperCase`, `toLowerCase`, `trim` and `\s` are modelled on ASCII characters only.
- Lookups by a JavaScript inherited property name (a temperament or background called `constructor`) are not modelled. Each table is a plain map.
- The overlays follow the source code's order: the bespoke routines for fish, turtle, rat, parrot and rabbit run before the -99 "hidden" check. So fish get collars, and fish and turtles get hats. The -99 entries are never read (`Overlays.HideMarkersUnused`).
- TokenMeta.SymbolFallback: "PET" is also the symbol of a name like "pet", so "the symbol is PET" does not imply "no letter or digit". The lemma states the direction that holds and characterises when the fallback branch is taken.
- PetPage.ChangeStatsStep: the step bounds hold for stats already in 0..100. Near 0 and 100 the clamp shortens the step, so the lemma gives bounds rather than an exact step.
- PetPage.DefaultsOnlyWhenMissing: stats that are present but equal to the defaults also show the defaults, so the stats clause is one-directional.

## Findings

| source | as written | input that shows it | evidently intended | confidence | as-written member | corrected member |
|---|---|---|---|---|---|---|
| src/pages/Create.tsx:288 | the launch step shows `name.toUpperCase().replace(/\s/g, '').slice(0, 6)`, which removes only whitespace and has no "PET" fallback | the name "Mr. Bean" shows "MR.BEA", while `generateSymbol` mints "MRBEAN"; a name of only punctuation shows that punctuation, while "PET" is minted | show the symbol that will actually be minted | medium; not executed | CreateWizard.DisplayedSymbolMismatch | CreateWizard.ShownSymbol |
