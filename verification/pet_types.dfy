/** The records of src/types/pet.ts and its small display helpers. */
module PetTypes {
  import opened Optional

  datatype Species = Dog | Cat | Hamster | Parrot | Fish | Rabbit | Turtle | Rat

  /** The `PetType` string of a species, as it appears in prompts and
      descriptions. */
  function SpeciesName(s: Species): (r: string)
    ensures |r| > 0
  {
    match s
    case Dog => "dog"
    case Cat => "cat"
    case Hamster => "hamster"
    case Parrot => "parrot"
    case Fish => "fish"
    case Rabbit => "rabbit"
    case Turtle => "turtle"
    case Rat => "rat"
  }

  /** Distinct species have distinct names. */
  lemma SpeciesNameInjective(s: Species, t: Species)
    ensures SpeciesName(s) == SpeciesName(t) <==> s == t
  {
  }

  /** `PetAppearance`; a `null` accessory, glasses or hat is `None`. */
  datatype Appearance = Appearance(
    species: Species,
    bodyColour: string,
    eyeColour: string,
    accessory: Option<string>,
    glasses: Option<string>,
    hat: Option<string>,
    background: string)

  /** `PetPersonality`.  The temperament is kept as the string the record
      holds, because several consumers fall back on unrecognised values. */
  datatype Personality = Personality(
    name: string,
    temperament: string,
    lovesHumans: bool,
    activityLevel: int,
    favouriteFood: string,
    playful: bool,
    noiseLevel: int,
    quirks: seq<string>,
    bio: string)

  datatype Stats = Stats(hunger: int, happiness: int, energy: int, bond: int)

  /** `Pet`.  Records saved before stats existed have none; status and
      location may be empty strings in stored records. */
  datatype Pet = Pet(
    id: string,
    appearance: Appearance,
    personality: Personality,
    stats: Option<Stats>,
    status: string,
    location: string,
    imageData: string,
    tokenAddress: Option<string>,
    createdAt: int,
    lastInteraction: int)

  /** The shared 25/50/75 split of a 0-100 level into four buckets. */
  function Bucket(level: int): (b: nat)
    ensures b < 4
    ensures b == 0 <==> level <= 25
    ensures b == 1 <==> 25 < level <= 50
    ensures b == 2 <==> 50 < level <= 75
    ensures b == 3 <==> 75 < level
  {
    if level <= 25 then 0 else if level <= 50 then 1 else if level <= 75 then 2 else 3
  }

  lemma BucketMonotone(a: int, b: int)
    requires a <= b
    ensures Bucket(a) <= Bucket(b)
  {
  }

  const ActivityLabels: seq<string> := ["Lazy", "Chill", "Active", "Energetic"]
  const NoiseLabels: seq<string> := ["Quiet", "Moderate", "Chatty", "Loud"]

  /** `getActivityText`. */
  function GetActivityText(level: int): (r: string)
    ensures r == "Lazy" <==> level <= 25
    ensures r == "Chill" <==> 25 < level <= 50
    ensures r == "Active" <==> 50 < level <= 75
    ensures r == "Energetic" <==> 75 < level
  {
    ActivityLabels[Bucket(level)]
  }

  /** The activity label never moves back down the scale as the level rises. */
  lemma ActivityTextMonotone(a: int, b: int)
    requires a <= b
    ensures exists i, j :: 0 <= i <= j < 4 && ActivityLabels[i] == GetActivityText(a)
                        && ActivityLabels[j] == GetActivityText(b)
  {
    BucketMonotone(a, b);
    assert ActivityLabels[Bucket(a)] == GetActivityText(a);
    assert ActivityLabels[Bucket(b)] == GetActivityText(b);
  }

  /** `getNoiseText`. */
  function GetNoiseText(level: int): (r: string)
    ensures r == "Quiet" <==> level <= 25
    ensures r == "Moderate" <==> 25 < level <= 50
    ensures r == "Chatty" <==> 50 < level <= 75
    ensures r == "Loud" <==> 75 < level
  {
    NoiseLabels[Bucket(level)]
  }

  /** Activity and noise texts are the same bucket under different names. */
  lemma NoiseMatchesActivity(level: int)
    ensures exists i :: 0 <= i < 4 && GetActivityText(level) == ActivityLabels[i]
                     && GetNoiseText(level) == NoiseLabels[i]
  {
    assert GetActivityText(level) == ActivityLabels[Bucket(level)];
  }

  const StatusNames: seq<string> := ["online", "sleeping", "playing", "eating", "idle"]
  const StatusLabels: seq<string> := ["Active", "Sleeping", "Playing", "Eating", "Resting"]

  /** `getStatusText`: the five statuses get their labels, anything else
      "Unknown". */
  function GetStatusText(status: string): (r: string)
    ensures r == "Unknown" <==> status !in StatusNames
    ensures forall i :: 0 <= i < |StatusNames| && status == StatusNames[i] ==> r == StatusLabels[i]
  {
    match status
    case "online" => "Active"
    case "sleeping" => "Sleeping"
    case "playing" => "Playing"
    case "eating" => "Eating"
    case "idle" => "Resting"
    case _ => "Unknown"
  }

  /** Distinct statuses get distinct labels. */
  lemma StatusTextInjective(s: string, t: string)
    requires s in StatusNames && t in StatusNames && s != t
    ensures GetStatusText(s) != GetStatusText(t)
  {
  }

  /** `generateRandomStats`.  Each argument is the already-floored draw
      `Math.floor(Math.random() * n)` of the matching field. */
  function GenerateRandomStats(hungerDraw: int, happinessDraw: int, energyDraw: int, bondDraw: int): (s: Stats)
    requires 0 <= hungerDraw < 31 && 0 <= happinessDraw < 31
    requires 0 <= energyDraw < 41 && 0 <= bondDraw < 51
    ensures InitialRange(s)
  {
    Stats(hungerDraw + 70, happinessDraw + 70, energyDraw + 60, bondDraw + 30)
  }

  predicate InitialRange(s: Stats) {
    70 <= s.hunger <= 100 && 70 <= s.happiness <= 100 && 60 <= s.energy <= 100 && 30 <= s.bond <= 80
  }

  /** Every stats record in the promised ranges is produced by some draws. */
  lemma GenerateRandomStatsOnto(s: Stats)
    requires InitialRange(s)
    ensures exists h, p, e, b ::
      0 <= h < 31 && 0 <= p < 31 && 0 <= e < 41 && 0 <= b < 51 &&
      GenerateRandomStats(h, p, e, b) == s
  {
    var h, p, e, b := s.hunger - 70, s.happiness - 70, s.energy - 60, s.bond - 30;
    assert GenerateRandomStats(h, p, e, b) == s;
  }

  const PetLocations: seq<string> :=
    ["Living Room", "Bedroom", "Kitchen", "Garden", "Balcony", "Pet Bed", "Couch", "Window Sill"]

  /** `getRandomLocation`, with the floored draw as its argument. */
  function GetRandomLocation(draw: int): (r: string)
    requires 0 <= draw < |PetLocations|
    ensures r in PetLocations
  {
    PetLocations[draw]
  }

  /** Every location can be drawn. */
  lemma GetRandomLocationOnto(loc: string)
    requires loc in PetLocations
    ensures exists k :: 0 <= k < |PetLocations| && GetRandomLocation(k) == loc
  {
    var k :| 0 <= k < |PetLocations| && PetLocations[k] == loc;
    assert GetRandomLocation(k) == loc;
  }
}
