/** The state updates of src/components/PersonalityEditor.tsx. */
module PersonalityEditor {
  import opened Optional
  import opened PetTypes

  /** `Partial<PetPersonality>`: `None` for a field the update leaves out. */
  datatype PersonalityUpdate = PersonalityUpdate(
    name: Option<string>,
    temperament: Option<string>,
    lovesHumans: Option<bool>,
    activityLevel: Option<int>,
    favouriteFood: Option<string>,
    playful: Option<bool>,
    noiseLevel: Option<int>,
    quirks: Option<seq<string>>,
    bio: Option<string>)

  /** `updatePersonality`: `{ ...personality, ...updates }`. */
  function UpdatePersonality(p: Personality, u: PersonalityUpdate): (r: Personality)
    ensures u.name.None? ==> r.name == p.name
    ensures u.name.Some? ==> r.name == u.name.value
    ensures u.temperament.None? ==> r.temperament == p.temperament
    ensures u.temperament.Some? ==> r.temperament == u.temperament.value
    ensures u.lovesHumans.None? ==> r.lovesHumans == p.lovesHumans
    ensures u.lovesHumans.Some? ==> r.lovesHumans == u.lovesHumans.value
    ensures u.activityLevel.None? ==> r.activityLevel == p.activityLevel
    ensures u.activityLevel.Some? ==> r.activityLevel == u.activityLevel.value
    ensures u.favouriteFood.None? ==> r.favouriteFood == p.favouriteFood
    ensures u.favouriteFood.Some? ==> r.favouriteFood == u.favouriteFood.value
    ensures u.playful.None? ==> r.playful == p.playful
    ensures u.playful.Some? ==> r.playful == u.playful.value
    ensures u.noiseLevel.None? ==> r.noiseLevel == p.noiseLevel
    ensures u.noiseLevel.Some? ==> r.noiseLevel == u.noiseLevel.value
    ensures u.quirks.None? ==> r.quirks == p.quirks
    ensures u.quirks.Some? ==> r.quirks == u.quirks.value
    ensures u.bio.None? ==> r.bio == p.bio
    ensures u.bio.Some? ==> r.bio == u.bio.value
  {
    Personality(u.name.GetOr(p.name), u.temperament.GetOr(p.temperament), u.lovesHumans.GetOr(p.lovesHumans),
                u.activityLevel.GetOr(p.activityLevel), u.favouriteFood.GetOr(p.favouriteFood),
                u.playful.GetOr(p.playful), u.noiseLevel.GetOr(p.noiseLevel), u.quirks.GetOr(p.quirks),
                u.bio.GetOr(p.bio))
  }

  /** An update that only sets the quirks. */
  function QuirksOnly(quirks: seq<string>): PersonalityUpdate {
    PersonalityUpdate(None, None, None, None, None, None, None, Some(quirks), None)
  }

  /** Setting only the quirks changes nothing else. */
  lemma QuirksUpdateChangesOnlyQuirks(p: Personality, quirks: seq<string>)
    ensures UpdatePersonality(p, QuirksOnly(quirks)) == p.(quirks := quirks)
  {
  }

  /** `filter(q => q !== quirk)`. */
  function Without(xs: seq<string>, q: string): (r: seq<string>)
    ensures |r| <= |xs|
    ensures q !in r
    ensures q in xs ==> |r| < |xs|
    ensures forall x :: x in r <==> x in xs && x != q
  {
    if |xs| == 0 then []
    else (if xs[0] == q then [] else [xs[0]]) + Without(xs[1..], q)
  }

  /** Every other string keeps its number of occurrences. */
  lemma {:induction false} WithoutCounts(xs: seq<string>, q: string)
    ensures multiset(Without(xs, q)) == multiset(xs)[q := 0]
  {
    if |xs| > 0 {
      var head := if xs[0] == q then [] else [xs[0]];
      var tail := Without(xs[1..], q);
      WithoutCounts(xs[1..], q);
      assert Without(xs, q) == head + tail;
      assert xs == [xs[0]] + xs[1..];
      var m, n := multiset(Without(xs, q)), multiset(xs)[q := 0];
      assert m == multiset(head) + multiset(tail);
      forall x
        ensures m[x] == n[x]
      {
        assert multiset(xs)[x] == multiset([xs[0]])[x] + multiset(xs[1..])[x];
      }
    }
  }

  /** Removing a string a list does not hold gives the list back. */
  lemma {:induction false} WithoutAbsent(xs: seq<string>, q: string)
    requires q !in xs
    ensures Without(xs, q) == xs
  {
    if |xs| > 0 {
      assert q !in xs[1..];
      WithoutAbsent(xs[1..], q);
      assert xs == [xs[0]] + xs[1..];
    }
  }

  /** `toggleQuirk`: a selected quirk is removed everywhere it occurs, an
      unselected one is appended. */
  function ToggleQuirk(quirks: seq<string>, q: string): (r: seq<string>)
    ensures q in quirks ==> q !in r && |r| < |quirks|
    ensures q !in quirks ==> r == quirks + [q]
  {
    if q in quirks then Without(quirks, q) else quirks + [q]
  }

  /** Toggling a selected quirk drops all its occurrences and keeps the
      count of every other quirk. */
  lemma ToggleSelected(quirks: seq<string>, q: string)
    requires q in quirks
    ensures multiset(ToggleQuirk(quirks, q)) == multiset(quirks)[q := 0]
  {
    WithoutCounts(quirks, q);
  }

  /** Toggling an unselected quirk twice restores the list. */
  lemma ToggleTwice(quirks: seq<string>, q: string)
    requires q !in quirks
    ensures ToggleQuirk(ToggleQuirk(quirks, q), q) == quirks
  {
    var once := quirks + [q];
    assert Without(once, q) == Without(quirks, q) + Without([q], q) by {
      WithoutAppend(quirks, [q], q);
    }
    WithoutAbsent(quirks, q);
  }

  lemma {:induction false} WithoutAppend(a: seq<string>, b: seq<string>, q: string)
    ensures Without(a + b, q) == Without(a, q) + Without(b, q)
  {
    if |a| > 0 {
      assert (a + b)[1..] == a[1..] + b;
      WithoutAppend(a[1..], b, q);
    } else {
      assert a + b == b;
    }
  }

  /** The quirk limit of the editor. */
  const MaxQuirks: nat := 3

  /** A quirk button is enabled when it is selected or fewer than three are. */
  predicate QuirkEnabled(quirks: seq<string>, q: string) {
    q in quirks || |quirks| < MaxQuirks
  }

  /** Pressing an enabled button never takes the selection past three. */
  lemma EnabledToggleKeepsLimit(quirks: seq<string>, q: string)
    requires |quirks| <= MaxQuirks
    requires QuirkEnabled(quirks, q)
    ensures |ToggleQuirk(quirks, q)| <= MaxQuirks
  {
  }
}
