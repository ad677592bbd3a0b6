/** The pure parts of src/pages/PetPage.tsx: the defaults for records
    without stats, status or location, the random stat drift, and the list
    of other pets. */
module PetPage {
  import opened Optional
  import opened Text
  import opened PetTypes

  const DefaultStats := Stats(80, 90, 70, 50)

  /** `pet.stats || {...}`. */
  function StatsOrDefault(p: Pet): Stats {
    p.stats.GetOr(DefaultStats)
  }

  /** `pet.status || 'online'`: the empty string is falsy too. */
  function StatusOrDefault(p: Pet): (r: string)
    ensures r != ""
    ensures p.status != "" ==> r == p.status
  {
    if p.status == "" then "online" else p.status
  }

  /** `pet.location || 'Living Room'`. */
  function LocationOrDefault(p: Pet): (r: string)
    ensures r != ""
    ensures p.location != "" ==> r == p.location
  {
    if p.location == "" then "Living Room" else p.location
  }

  /** The defaults apply exactly to what is missing. */
  lemma DefaultsOnlyWhenMissing(p: Pet)
    ensures StatsOrDefault(p) == DefaultStats <== p.stats.None?
    ensures StatusOrDefault(p) == "online" <==> p.status == "" || p.status == "online"
    ensures LocationOrDefault(p) == "Living Room" <==> p.location == "" || p.location == "Living Room"
  {
  }

  /** `Math.max(0, Math.min(100, v))`. */
  function ClampStat(v: int): (r: int)
    ensures 0 <= r <= 100
    ensures 0 <= v <= 100 ==> r == v
    ensures v < 0 ==> r == 0
    ensures v > 100 ==> r == 100
  {
    if v < 0 then 0 else if v > 100 then 100 else v
  }

  predicate StatsInRange(s: Stats) {
    0 <= s.hunger <= 100 && 0 <= s.happiness <= 100 && 0 <= s.energy <= 100 && 0 <= s.bond <= 100
  }

  /** `changeStats`: each draw is `Math.floor(Math.random() * 9)`; hunger,
      happiness and energy move by draw - 3 and bond by draw - 2 before the
      clamp. */
  function ChangeStats(s: Stats, hungerDraw: int, happinessDraw: int, energyDraw: int, bondDraw: int): (r: Stats)
    requires 0 <= hungerDraw < 9 && 0 <= happinessDraw < 9 && 0 <= energyDraw < 9 && 0 <= bondDraw < 9
    ensures StatsInRange(r)
  {
    Stats(ClampStat(s.hunger + hungerDraw - 3), ClampStat(s.happiness + happinessDraw - 3),
          ClampStat(s.energy + energyDraw - 3), ClampStat(s.bond + bondDraw - 2))
  }

  /** From stats in range, one change moves hunger, happiness and energy by
      -3..+5 and bond by -2..+6, and the clamp only ever shortens a step. */
  lemma ChangeStatsStep(s: Stats, hungerDraw: int, happinessDraw: int, energyDraw: int, bondDraw: int)
    requires 0 <= hungerDraw < 9 && 0 <= happinessDraw < 9 && 0 <= energyDraw < 9 && 0 <= bondDraw < 9
    requires StatsInRange(s)
    ensures var r := ChangeStats(s, hungerDraw, happinessDraw, energyDraw, bondDraw);
      -3 <= r.hunger - s.hunger <= 5 && -3 <= r.happiness - s.happiness <= 5
      && -3 <= r.energy - s.energy <= 5 && -2 <= r.bond - s.bond <= 6
  {
  }

  /** Every combination of steps allowed at an interior point is reached by
      some draws. */
  lemma ChangeStatsOnto(s: Stats, dh: int, dp: int, de: int, db: int)
    requires 3 <= s.hunger <= 95 && 3 <= s.happiness <= 95 && 3 <= s.energy <= 95 && 2 <= s.bond <= 94
    requires -3 <= dh <= 5 && -3 <= dp <= 5 && -3 <= de <= 5 && -2 <= db <= 6
    ensures ChangeStats(s, dh + 3, dp + 3, de + 3, db + 2) ==
      Stats(s.hunger + dh, s.happiness + dp, s.energy + de, s.bond + db)
  {
  }

  // ----- the other pets -----

  /** `pets.filter(p => p.id !== id)`. */
  function ExcludeId(pets: seq<Pet>, id: string): (r: seq<Pet>)
    ensures |r| <= |pets|
    ensures forall p :: p in r <==> p in pets && p.id != id
  {
    if |pets| == 0 then []
    else (if pets[0].id != id then [pets[0]] else []) + ExcludeId(pets[1..], id)
  }

  /** `a` is `b` with some elements dropped, the rest in the same order. */
  predicate SubsequenceOf<T(==)>(a: seq<T>, b: seq<T>)
    decreases |b|
  {
    |a| == 0 || (|b| > 0 && ((a[0] == b[0] && SubsequenceOf(a[1..], b[1..])) || SubsequenceOf(a, b[1..])))
  }

  lemma {:induction false} ExcludeIdKeepsOrder(pets: seq<Pet>, id: string)
    ensures SubsequenceOf(ExcludeId(pets, id), pets)
  {
    if |pets| > 0 {
      ExcludeIdKeepsOrder(pets[1..], id);
      var rest := ExcludeId(pets[1..], id);
      if pets[0].id != id {
        assert ExcludeId(pets, id) == [pets[0]] + rest;
        assert ([pets[0]] + rest)[1..] == rest;
      } else {
        assert ExcludeId(pets, id) == rest;
      }
    }
  }

  /** A prefix of a subsequence is a subsequence. */
  lemma {:induction false} PrefixOfSubsequence<T>(a: seq<T>, b: seq<T>, n: nat)
    requires SubsequenceOf(a, b) && n <= |a|
    ensures SubsequenceOf(a[..n], b)
    decreases |b|
  {
    if n > 0 {
      if a[0] == b[0] && SubsequenceOf(a[1..], b[1..]) {
        PrefixOfSubsequence(a[1..], b[1..], n - 1);
        assert a[..n][1..] == a[1..][..n - 1];
      } else {
        PrefixOfSubsequence(a, b[1..], n);
      }
    }
  }

  /** `otherPets`: at most five pets other than the current one. */
  function OtherPets(pets: seq<Pet>, current: Pet): (r: seq<Pet>)
    ensures |r| <= 5
    ensures forall p :: p in r ==> p in pets && p.id != current.id
    ensures |r| == if |ExcludeId(pets, current.id)| <= 5 then |ExcludeId(pets, current.id)| else 5
    ensures r == ExcludeId(pets, current.id)[..|r|]
  {
    Take(ExcludeId(pets, current.id), 5)
  }

  /** The other pets keep gallery order, and they are all the other pets
      when there are at most five. */
  lemma OtherPetsOrder(pets: seq<Pet>, current: Pet)
    ensures SubsequenceOf(OtherPets(pets, current), pets)
    ensures |ExcludeId(pets, current.id)| <= 5 ==>
      forall p :: p in OtherPets(pets, current) <==> p in pets && p.id != current.id
  {
    var e := ExcludeId(pets, current.id);
    ExcludeIdKeepsOrder(pets, current.id);
    PrefixOfSubsequence(e, pets, |OtherPets(pets, current)|);
  }
}
