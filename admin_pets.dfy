/** The admin "Manage Pets" page: a stored pet list with delete, edit and
    add, driven by a dialog that is either adding (`editing` empty) or
    editing one pet. */
module AdminPets {
  import opened Common
  import opened Catalog

  /** The values of the dialog's inputs when Save is pressed; the number
      inputs are given already converted by `parseInt`. */
  datatype PetForm = PetForm(
    name: string,
    breed: string,
    species: string,
    ageWeeks: int,
    gender: string,
    priceMin: int,
    priceMax: int,
    status: string,
    imageUrl: string,
    description: string)

  /** No two pets of the list share an id. */
  predicate UniqueIds(items: seq<Pet>)
  {
    forall i, j :: 0 <= i < j < |items| ==> items[i].id != items[j].id
  }

  /** Every id is a positive number, as the seed list's are. */
  predicate PositiveIds(items: seq<Pet>)
  {
    forall p :: p in items ==> p.id >= 1
  }

  /** The list after deleting `id`: `items.filter(x => x.id !== id)`. */
  function WithoutId(items: seq<Pet>, id: int): (r: seq<Pet>)
    ensures SubsequenceOf(r, items)
    ensures forall p :: p in r <==> p in items && p.id != id
  {
    Filter(items, (x: Pet) => x.id != id)
  }

  /** Deleting an id no pet has leaves the list as it was. */
  lemma DeleteMissingIdChangesNothing(items: seq<Pet>, id: int)
    requires forall p :: p in items ==> p.id != id
    ensures WithoutId(items, id) == items
  {
    FilterKeepsAll(items, (x: Pet) => x.id != id);
  }

  /** One step of the filter: the first pet is kept unless it has `id`. */
  lemma WithoutIdStep(items: seq<Pet>, id: int)
    requires items != []
    ensures WithoutId(items, id) ==
      if items[0].id != id then [items[0]] + WithoutId(items[1..], id) else WithoutId(items[1..], id)
  {
  }

  /** Where a pet kept by the delete stood in the list. */
  lemma KeptPetPosition(items: seq<Pet>, id: int, k: nat) returns (j: nat)
    requires k < |WithoutId(items, id)|
    ensures j < |items| && items[j] == WithoutId(items, id)[k]
  {
    var r := WithoutId(items, id);
    assert r[k] in r;
    j :| 0 <= j < |items| && items[j] == r[k];
  }

  /** Deleting keeps the ids unique. */
  lemma {:induction false} DeleteKeepsIdsUnique(items: seq<Pet>, id: int)
    requires UniqueIds(items)
    ensures UniqueIds(WithoutId(items, id))
  {
    if items != [] {
      var tail := items[1..];
      assert UniqueIds(tail) by {
        forall i, j | 0 <= i < j < |tail| ensures tail[i].id != tail[j].id {
          assert tail[i] == items[i + 1] && tail[j] == items[j + 1];
        }
      }
      DeleteKeepsIdsUnique(tail, id);
      var rest := WithoutId(tail, id);
      WithoutIdStep(items, id);
      if items[0].id != id {
        forall k | 0 <= k < |rest| ensures rest[k].id != items[0].id {
          var j := KeptPetPosition(tail, id, k);
          assert items[j + 1] == rest[k];
        }
      }
    }
  }

  /** The list after editing: `items.map(x => x.id === p.id ? p : x)`. */
  function Replaced(items: seq<Pet>, p: Pet): (r: seq<Pet>)
    ensures |r| == |items|
    ensures forall i :: 0 <= i < |items| && items[i].id == p.id ==> r[i] == p
    ensures forall i :: 0 <= i < |items| && items[i].id != p.id ==> r[i] == items[i]
  {
    if items == [] then []
    else [if items[0].id == p.id then p else items[0]] + Replaced(items[1..], p)
  }

  /** Editing leaves every position's id as it was, so it keeps the ids
      unique and positive. */
  lemma ReplaceKeepsIds(items: seq<Pet>, p: Pet)
    ensures PetIds(Replaced(items, p)) == PetIds(items)
    ensures UniqueIds(items) ==> UniqueIds(Replaced(items, p))
    ensures PositiveIds(items) ==> PositiveIds(Replaced(items, p))
  {
    var r := Replaced(items, p);
    assert forall i :: 0 <= i < |r| ==> r[i].id == items[i].id;
    assert PetIds(r) == PetIds(items);
  }

  /** The list after adding: `[...items, { ...p, id: nextId }]`. */
  function Appended(items: seq<Pet>, p: Pet): (r: seq<Pet>)
    ensures |r| == |items| + 1
    ensures r[..|items|] == items
    ensures r[|items|] == p.(id := r[|items|].id)
    ensures forall q :: q in items ==> q.id < r[|items|].id
    ensures items == [] ==> r[|items|].id == 1
    ensures items != [] ==> exists q :: q in items && q.id == r[|items|].id - 1
  {
    items + [p.(id := NextId(PetIds(items)))]
  }

  /** Adding keeps the ids unique and positive. */
  lemma AppendKeepsIds(items: seq<Pet>, p: Pet)
    ensures UniqueIds(items) ==> UniqueIds(Appended(items, p))
    ensures PositiveIds(items) ==> PositiveIds(Appended(items, p))
  {
    var r := Appended(items, p);
    var n := |items|;
    assert forall i :: 0 <= i < n ==> r[i] == items[i] by {
      forall i | 0 <= i < n ensures r[i] == items[i] {
        assert r[..n][i] == r[i];
      }
    }
    if UniqueIds(items) {
      AppendKeepsUniqueIds(items, r);
    }
    if PositiveIds(items) {
      AppendKeepsPositiveIds(items, r);
    }
  }

  /** A list extended by one pet whose id exceeds every listed id keeps its
      ids unique. */
  lemma AppendKeepsUniqueIds(items: seq<Pet>, r: seq<Pet>)
    requires |r| == |items| + 1
    requires forall i :: 0 <= i < |items| ==> r[i] == items[i]
    requires forall q :: q in items ==> q.id < r[|items|].id
    requires UniqueIds(items)
    ensures UniqueIds(r)
  {
    forall i, j | 0 <= i < j < |r| ensures r[i].id != r[j].id {
      assert items[i] in items;
    }
  }

  /** A list extended by one pet numbered past the largest listed id, or 1
      for an empty list, keeps its ids positive. */
  lemma AppendKeepsPositiveIds(items: seq<Pet>, r: seq<Pet>)
    requires |r| == |items| + 1
    requires forall i :: 0 <= i < |items| ==> r[i] == items[i]
    requires items == [] ==> r[|items|].id == 1
    requires items != [] ==> exists q :: q in items && q.id == r[|items|].id - 1
    requires PositiveIds(items)
    ensures PositiveIds(r)
  {
    forall q | q in r ensures q.id >= 1 {
      var k :| 0 <= k < |r| && r[k] == q;
      if k < |items| {
        assert items[k] in items;
      }
    }
  }

  /** The list after the dialog's pet is stored: replaced by id when
      editing, appended with a fresh id when adding. */
  function Upserted(items: seq<Pet>, p: Pet, editing: bool): seq<Pet>
  {
    if editing then Replaced(items, p) else Appended(items, p)
  }

  /** Storing the dialog's pet either way keeps the ids unique and positive. */
  lemma UpsertKeepsIds(items: seq<Pet>, p: Pet, editing: bool)
    ensures UniqueIds(items) ==> UniqueIds(Upserted(items, p, editing))
    ensures PositiveIds(items) ==> PositiveIds(Upserted(items, p, editing))
  {
    if editing {
      ReplaceKeepsIds(items, p);
    } else {
      AppendKeepsIds(items, p);
    }
  }

  /** The pet the Save button builds: `id: editing?.id || -1` (so an edited
      pet whose id is 0 is saved under -1), the form's fields, and never
      featured. */
  function SavedPet(form: PetForm, editing: Option<Pet>): (p: Pet)
    ensures !p.featured
    ensures editing.None? ==> p.id == -1
    ensures editing.Some? ==> p.id == (if editing.value.id != 0 then editing.value.id else -1)
    ensures p.name == form.name && p.breed == form.breed && p.species == form.species
    ensures p.priceMin == form.priceMin && p.priceMax == form.priceMax && p.status == form.status
    ensures p.ageWeeks == form.ageWeeks && p.gender == form.gender
    ensures p.imageUrl == form.imageUrl && p.description == form.description
  {
    var id := if editing.Some? && editing.value.id != 0 then editing.value.id else -1;
    Pet(id, form.name, form.breed, form.species, form.ageWeeks, form.gender,
        form.priceMin, form.priceMax, form.status, form.imageUrl, false, form.description)
  }

  /** A pet added through the dialog never keeps the placeholder id -1 when
      the list's ids are positive; it gets a fresh one. */
  lemma AddedPetGetsFreshId(items: seq<Pet>, form: PetForm)
    requires PositiveIds(items)
    ensures var r := Appended(items, SavedPet(form, None));
      r[|items|].id >= 1 && forall q :: q in items ==> q.id != r[|items|].id
  {
    var ids := PetIds(items);
    assert forall x :: x in ids ==> x >= 0;
  }

  /** The seed list satisfies both id invariants. */
  lemma SeedIdsAreValid()
    ensures UniqueIds(SeedPets) && PositiveIds(SeedPets)
  {
  }

  /** The page's state: the stored list, whether the dialog is open, and the
      pet being edited (none while adding). */
  class PetAdmin {
    var items: seq<Pet>
    var isOpen: bool
    var editing: Option<Pet>

    constructor (stored: seq<Pet>)
      ensures items == stored && !isOpen && editing == None
    {
      items := stored;
      isOpen := false;
      editing := None;
    }

    /** "Add New Pet". */
    method OpenAdd()
      modifies this`isOpen, this`editing
      ensures isOpen && editing == None
    {
      editing := None;
      isOpen := true;
    }

    /** The pencil button of a row. */
    method OpenEdit(p: Pet)
      modifies this`isOpen, this`editing
      ensures isOpen && editing == Some(p)
    {
      editing := Some(p);
      isOpen := true;
    }

    /** "Cancel", or closing the dialog. */
    method Close()
      modifies this`isOpen
      ensures !isOpen
    {
      isOpen := false;
    }

    /** The trash button: `confirmed` is the answer to "Delete pet?". */
    method HandleDelete(id: int, confirmed: bool)
      modifies this`items
      ensures items == if confirmed then WithoutId(old(items), id) else old(items)
      ensures UniqueIds(old(items)) ==> UniqueIds(items)
      ensures PositiveIds(old(items)) ==> PositiveIds(items)
    {
      if !confirmed {
        return;
      }
      if UniqueIds(items) {
        DeleteKeepsIdsUnique(items, id);
      }
      items := WithoutId(items, id);
    }

    /** Store the dialog's pet: replace it by id when editing, append it with
      a fresh id when adding; then close the dialog. */
    method Upsert(p: Pet)
      modifies this`items, this`isOpen
      ensures items == Upserted(old(items), p, editing.Some?)
      ensures !isOpen
      ensures UniqueIds(old(items)) ==> UniqueIds(items)
      ensures PositiveIds(old(items)) ==> PositiveIds(items)
    {
      UpsertKeepsIds(items, p, editing.Some?);
      items := Upserted(items, p, editing.Some?);
      isOpen := false;
    }

    /** The Save button: an empty name is refused (with an alert) and nothing
      changes; otherwise the form's pet is upserted. */
    method Save(form: PetForm)
      modifies this`items, this`isOpen
      ensures form.name == "" ==> items == old(items) && isOpen == old(isOpen)
      ensures form.name != "" ==> !isOpen
      ensures form.name != "" ==>
        items == if editing.Some? then Replaced(old(items), SavedPet(form, editing))
                 else Appended(old(items), SavedPet(form, editing))
      ensures UniqueIds(old(items)) ==> UniqueIds(items)
      ensures PositiveIds(old(items)) ==> PositiveIds(items)
    {
      if form.name == "" {
        return;
      }
      Upsert(SavedPet(form, editing));
    }
  }
}
