/** The pet list of src/context/PetsContext.tsx as pure sequence
    operations. */
module Gallery {
  import opened Optional
  import opened PetTypes

  /** `addPet`: the new pet goes to the head of the list whether or not the
      remote save succeeded (`saved` is that outcome, which the result does
      not depend on). */
  function AddPet(pets: seq<Pet>, p: Pet, saved: bool): (r: seq<Pet>)
    ensures |r| == |pets| + 1 && r[0] == p && r[1..] == pets
  {
    [p] + pets
  }

  /** `getPet`: the first pet with the id, if any. */
  function GetPet(pets: seq<Pet>, id: string): (r: Option<Pet>)
    ensures r.None? <==> forall i :: 0 <= i < |pets| ==> pets[i].id != id
    ensures r.Some? ==> r.value in pets && r.value.id == id
  {
    if |pets| == 0 then None
    else if pets[0].id == id then Some(pets[0])
    else
      assert forall j :: 1 <= j < |pets| ==> pets[j] == pets[1..][j - 1];
      GetPet(pets[1..], id)
  }

  /** The pet found is the one at the first index with the id. */
  lemma {:induction false} GetPetFindsFirst(pets: seq<Pet>, id: string, i: int)
    requires 0 <= i < |pets| && pets[i].id == id
    requires forall j :: 0 <= j < i ==> pets[j].id != id
    ensures GetPet(pets, id) == Some(pets[i])
  {
    if i > 0 {
      assert forall j :: 0 <= j < i - 1 ==> pets[1..][j] == pets[j + 1];
      GetPetFindsFirst(pets[1..], id, i - 1);
    }
  }

  /** The first index holding the id. */
  function FirstIndex(pets: seq<Pet>, id: string): (i: nat)
    requires exists k :: 0 <= k < |pets| && pets[k].id == id
    ensures i < |pets| && pets[i].id == id && forall j :: 0 <= j < i ==> pets[j].id != id
  {
    if pets[0].id == id then 0
    else
      assert exists k :: 0 <= k < |pets[1..]| && pets[1..][k].id == id by {
        var k :| 0 <= k < |pets| && pets[k].id == id;
        assert pets[1..][k - 1] == pets[k];
      }
      1 + FirstIndex(pets[1..], id)
  }

  /** A freshly added pet is the one found under its id. */
  lemma GetAfterAdd(pets: seq<Pet>, p: Pet, saved: bool)
    ensures GetPet(AddPet(pets, p, saved), p.id) == Some(p)
  {
  }

  /** `Partial<Pet>`: `None` for a field the update leaves out. */
  datatype PetUpdate = PetUpdate(
    id: Option<string>,
    appearance: Option<Appearance>,
    personality: Option<Personality>,
    stats: Option<Option<Stats>>,
    status: Option<string>,
    location: Option<string>,
    imageData: Option<string>,
    tokenAddress: Option<Option<string>>,
    createdAt: Option<int>,
    lastInteraction: Option<int>)

  /** `{ ...p, ...updates }`. */
  function Merge(p: Pet, u: PetUpdate): (r: Pet)
    ensures u.id.None? ==> r.id == p.id
    ensures u.id.Some? ==> r.id == u.id.value
    ensures u.appearance.None? ==> r.appearance == p.appearance
    ensures u.appearance.Some? ==> r.appearance == u.appearance.value
    ensures u.personality.None? ==> r.personality == p.personality
    ensures u.personality.Some? ==> r.personality == u.personality.value
    ensures u.stats.None? ==> r.stats == p.stats
    ensures u.stats.Some? ==> r.stats == u.stats.value
    ensures u.status.None? ==> r.status == p.status
    ensures u.status.Some? ==> r.status == u.status.value
    ensures u.location.None? ==> r.location == p.location
    ensures u.location.Some? ==> r.location == u.location.value
    ensures u.imageData.None? ==> r.imageData == p.imageData
    ensures u.imageData.Some? ==> r.imageData == u.imageData.value
    ensures u.tokenAddress.None? ==> r.tokenAddress == p.tokenAddress
    ensures u.tokenAddress.Some? ==> r.tokenAddress == u.tokenAddress.value
    ensures u.createdAt.None? ==> r.createdAt == p.createdAt
    ensures u.createdAt.Some? ==> r.createdAt == u.createdAt.value
    ensures u.lastInteraction.None? ==> r.lastInteraction == p.lastInteraction
    ensures u.lastInteraction.Some? ==> r.lastInteraction == u.lastInteraction.value
  {
    Pet(u.id.GetOr(p.id), u.appearance.GetOr(p.appearance), u.personality.GetOr(p.personality),
        u.stats.GetOr(p.stats), u.status.GetOr(p.status), u.location.GetOr(p.location),
        u.imageData.GetOr(p.imageData), u.tokenAddress.GetOr(p.tokenAddress),
        u.createdAt.GetOr(p.createdAt), u.lastInteraction.GetOr(p.lastInteraction))
  }

  /** An update that supplies no field. */
  const NoChange := PetUpdate(None, None, None, None, None, None, None, None, None, None)

  /** Merging nothing leaves the pet as it was. */
  lemma MergeNothing(p: Pet)
    ensures Merge(p, NoChange) == p
  {
  }

  /** The pet page's visit update, `{ lastInteraction: Date.now() }` with the
      clock reading as `now`, changes only the timestamp. */
  lemma VisitChangesOnlyTimestamp(p: Pet, now: int)
    ensures Merge(p, NoChange.(lastInteraction := Some(now))) == p.(lastInteraction := now)
  {
  }

  /** The pet page's drift update, `{ stats: newStats }`, changes only the
      stats. */
  lemma DriftChangesOnlyStats(p: Pet, stats: Stats)
    ensures Merge(p, NoChange.(stats := Some(Some(stats)))) == p.(stats := Some(stats))
  {
  }

  /** `updatePet`: every pet with the id gets the update merged in. */
  function UpdatePet(pets: seq<Pet>, id: string, u: PetUpdate): (r: seq<Pet>)
    ensures |r| == |pets|
    ensures forall i :: 0 <= i < |pets| ==> r[i] == if pets[i].id == id then Merge(pets[i], u) else pets[i]
  {
    seq(|pets|, i requires 0 <= i < |pets| => if pets[i].id == id then Merge(pets[i], u) else pets[i])
  }

  /** Updating an id no pet has changes nothing. */
  lemma UpdateAbsent(pets: seq<Pet>, id: string, u: PetUpdate)
    requires GetPet(pets, id).None?
    ensures UpdatePet(pets, id, u) == pets
  {
  }

  /** After an update that does not touch the id, the pet found under the id
      is the first match with the update merged in. */
  lemma GetAfterUpdate(pets: seq<Pet>, id: string, u: PetUpdate)
    requires u.id.None?
    ensures GetPet(UpdatePet(pets, id, u), id) ==
      if GetPet(pets, id).Some? then Some(Merge(GetPet(pets, id).value, u)) else None
  {
    var r := UpdatePet(pets, id, u);
    assert forall i :: 0 <= i < |pets| ==> (r[i].id == id <==> pets[i].id == id);
    if GetPet(pets, id).Some? {
      var i := FirstIndex(pets, id);
      GetPetFindsFirst(pets, id, i);
      GetPetFindsFirst(r, id, i);
    }
  }
}
