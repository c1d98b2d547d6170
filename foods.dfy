/** The menu item record of the dashboard and the list operations its handlers
    perform on the local list of items: building and appending a new item,
    replacing the item being edited (a `map`), and removing an item by id
    (a `findIndex` followed by a one-element `splice`). */
module Foods {

  datatype Option<T> = None | Some(value: T)

  /** A menu item as the dashboard keeps it. Ids are JavaScript numbers that the
      dashboard only ever creates as small positive integers. */
  datatype FoodPlate = FoodPlate(
    id: int,
    name: string,
    image: string,
    price: string,
    description: string,
    available: bool)

  /** What the add and edit forms hand to the dashboard: a menu item without
      its id and its availability flag. */
  datatype FoodFields = FoodFields(
    name: string,
    image: string,
    price: string,
    description: string)

  /** The entered fields are carried over unchanged into `p`. */
  predicate CopiesFields(p: FoodPlate, fields: FoodFields) {
    && p.name == fields.name
    && p.image == fields.image
    && p.price == fields.price
    && p.description == fields.description
  }

  /** The ids of a list, in list order. */
  function Ids(foods: seq<FoodPlate>): (r: seq<int>)
    ensures |r| == |foods|
    ensures forall i :: 0 <= i < |foods| ==> r[i] == foods[i].id
  {
    if foods == [] then [] else [foods[0].id] + Ids(foods[1..])
  }

  // ---------------------------------------------------------------- add

  /** The record the add handler builds from the form: the next id is the
      current length plus one, and a new item is always available. */
  function NewFood(count: nat, fields: FoodFields): FoodPlate {
    FoodPlate(count + 1, fields.name, fields.image, fields.price, fields.description, true)
  }

  /** The list after a successful add: the old list with the new record at the end. */
  function AddFood(foods: seq<FoodPlate>, fields: FoodFields): (r: seq<FoodPlate>)
    ensures |r| == |foods| + 1
    ensures r[..|foods|] == foods
    ensures r[|foods|].id == |foods| + 1
    ensures r[|foods|].available
    ensures CopiesFields(r[|foods|], fields)
  {
    foods + [NewFood(|foods|, fields)]
  }

  lemma AddFoodIds(foods: seq<FoodPlate>, fields: FoodFields)
    ensures Ids(AddFood(foods, fields)) == Ids(foods) + [|foods| + 1]
  {
    var r := AddFood(foods, fields);
    var got, want := Ids(r), Ids(foods) + [|foods| + 1];
    assert |got| == |want|;
    forall i | 0 <= i < |got| ensures got[i] == want[i] {
      if i < |foods| {
        assert r[i] == r[..|foods|][i];
      }
    }
  }

  // ------------------------------------------------------------- update

  /** Whether `p` is the item being edited. With nothing selected (the initial
      empty editing record, whose id is undefined) no item matches. */
  predicate IsEditing(p: FoodPlate, editing: Option<FoodPlate>) {
    editing.Some? && p.id == editing.value.id
  }

  /** The record that replaces the edited item: the form's fields, with id and
      availability taken from the editing record. */
  function Edited(editing: FoodPlate, fields: FoodFields): FoodPlate {
    FoodPlate(editing.id, fields.name, fields.image, fields.price, fields.description, editing.available)
  }

  /** The list after an update: every item whose id is the editing record's id is
      replaced, every other item is kept, in the same positions. */
  function UpdateFoods(foods: seq<FoodPlate>, editing: Option<FoodPlate>, fields: FoodFields): (r: seq<FoodPlate>)
    ensures |r| == |foods|
    ensures forall i :: 0 <= i < |foods| && !IsEditing(foods[i], editing) ==> r[i] == foods[i]
    ensures forall i :: 0 <= i < |foods| && IsEditing(foods[i], editing) ==>
      && r[i].id == editing.value.id
      && r[i].available == editing.value.available
      && CopiesFields(r[i], fields)
  {
    if foods == [] then []
    else
      var head := if IsEditing(foods[0], editing) then Edited(editing.value, fields) else foods[0];
      [head] + UpdateFoods(foods[1..], editing, fields)
  }

  lemma {:induction false} UpdateKeepsIds(foods: seq<FoodPlate>, editing: Option<FoodPlate>, fields: FoodFields)
    ensures Ids(UpdateFoods(foods, editing, fields)) == Ids(foods)
  {
    if foods != [] {
      UpdateKeepsIds(foods[1..], editing, fields);
    }
  }

  lemma UpdateWithoutMatchIsIdentity(foods: seq<FoodPlate>, editing: Option<FoodPlate>, fields: FoodFields)
    requires forall i :: 0 <= i < |foods| ==> !IsEditing(foods[i], editing)
    ensures UpdateFoods(foods, editing, fields) == foods
  {
  }

  lemma UpdateWithoutSelectionIsIdentity(foods: seq<FoodPlate>, fields: FoodFields)
    ensures UpdateFoods(foods, None, fields) == foods
  {
    UpdateWithoutMatchIsIdentity(foods, None, fields);
  }

  lemma {:induction false} UpdateIdempotent(foods: seq<FoodPlate>, editing: Option<FoodPlate>, fields: FoodFields)
    ensures UpdateFoods(UpdateFoods(foods, editing, fields), editing, fields) == UpdateFoods(foods, editing, fields)
  {
    if foods != [] {
      UpdateIdempotent(foods[1..], editing, fields);
    }
  }

  // ------------------------------------------------------------- delete

  /** `Array.prototype.findIndex` for a matching id: the first position holding
      `id`, or -1 when there is none. */
  function FirstIndex(foods: seq<FoodPlate>, id: int): (r: int)
    ensures -1 <= r < |foods|
    ensures 0 <= r ==> foods[r].id == id && forall j :: 0 <= j < r ==> foods[j].id != id
    ensures r == -1 ==> forall j :: 0 <= j < |foods| ==> foods[j].id != id
  {
    if foods == [] then -1
    else if foods[0].id == id then 0
    else
      var k := FirstIndex(foods[1..], id);
      if k == -1 then -1 else k + 1
  }

  /** The linear search `findIndex` performs. */
  method FindIndex(foods: seq<FoodPlate>, id: int) returns (i: int)
    ensures i == FirstIndex(foods, id)
  {
    i := 0;
    while i < |foods|
      invariant 0 <= i <= |foods|
      invariant forall j :: 0 <= j < i ==> foods[j].id != id
    {
      if foods[i].id == id {
        return;
      }
      i := i + 1;
    }
    i := -1;
  }

  /** The position at which `Array.prototype.splice` starts for a list of length
      `len`: a negative start counts from the end (and stops at 0), a start past
      the end is the end. */
  function SpliceStart(len: nat, start: int): (k: nat)
    ensures k <= len
    ensures 0 <= start <= len ==> k == start
    ensures start < 0 && 0 <= len + start ==> k == len + start
  {
    if start < 0 then (if len + start < 0 then 0 else len + start)
    else if start > len then len
    else start
  }

  /** `s.splice(start, 1)` as it leaves `s`: the element at the start position is
      removed when there is one, and nothing changes otherwise. */
  function SpliceOne<T>(s: seq<T>, start: int): (r: seq<T>)
    ensures SpliceStart(|s|, start) < |s| ==> |r| == |s| - 1
    ensures SpliceStart(|s|, start) == |s| ==> r == s
    ensures forall j :: 0 <= j < SpliceStart(|s|, start) && j < |r| ==> r[j] == s[j]
    ensures forall j :: SpliceStart(|s|, start) <= j < |r| ==> r[j] == s[j + 1]
  {
    var k := SpliceStart(|s|, start);
    if k < |s| then s[..k] + s[k + 1..] else s
  }

  /** The list after the delete handler: `splice(findIndex(id), 1)`. */
  function RemoveFood(foods: seq<FoodPlate>, id: int): seq<FoodPlate> {
    SpliceOne(foods, FirstIndex(foods, id))
  }

  /** Deleting an id that is in the list removes exactly its first occurrence and
      keeps every other item in its relative order. */
  lemma RemovePresent(foods: seq<FoodPlate>, id: int)
    requires exists j :: 0 <= j < |foods| && foods[j].id == id
    ensures var k := FirstIndex(foods, id);
      && 0 <= k < |foods|
      && foods[k].id == id
      && (forall j :: 0 <= j < k ==> foods[j].id != id)
      && RemoveFood(foods, id) == foods[..k] + foods[k + 1..]
    ensures |RemoveFood(foods, id)| == |foods| - 1
  {
    var k := FirstIndex(foods, id);
    var r := RemoveFood(foods, id);
    assert 0 <= k;
    assert r == foods[..k] + foods[k + 1..] by {
      assert |r| == |foods[..k] + foods[k + 1..]|;
      forall j | 0 <= j < |r| ensures r[j] == (foods[..k] + foods[k + 1..])[j] {
        if j < k {
        } else {
          assert r[j] == foods[j + 1];
        }
      }
    }
  }

  /** Cutting position `k` out of a sequence removes one copy of `s[k]` from its multiset. */
  lemma MultisetCut<T>(s: seq<T>, k: nat)
    requires k < |s|
    ensures multiset(s[..k] + s[k + 1..]) + multiset{s[k]} == multiset(s)
  {
    assert s == s[..k] + [s[k]] + s[k + 1..];
  }

  /** What is removed is one copy of the matching item: the multiset of items
      loses exactly that one. */
  lemma RemovePresentMultiset(foods: seq<FoodPlate>, id: int)
    requires exists j :: 0 <= j < |foods| && foods[j].id == id
    ensures var k := FirstIndex(foods, id);
      0 <= k < |foods| && multiset(RemoveFood(foods, id)) + multiset{foods[k]} == multiset(foods)
  {
    RemovePresent(foods, id);
    MultisetCut(foods, FirstIndex(foods, id));
  }

  /** Deleting an id that is not in the list still removes something: findIndex
      gives -1 and `splice(-1, 1)` drops the last item; only an empty list is left
      alone. */
  lemma RemoveAbsent(foods: seq<FoodPlate>, id: int)
    requires forall j :: 0 <= j < |foods| ==> foods[j].id != id
    ensures foods == [] ==> RemoveFood(foods, id) == []
    ensures foods != [] ==> RemoveFood(foods, id) == foods[..|foods| - 1]
  {
    assert FirstIndex(foods, id) == -1;
    if foods != [] {
      assert SpliceStart(|foods|, -1) == |foods| - 1;
    }
  }

  /** The next id is the length plus one, so ids are not unique once an item has
      been deleted: with items 1 and 2, deleting 1 and adding gives two items with id 2. */
  lemma AddAfterRemoveRepeatsId(a: FoodPlate, b: FoodPlate, fields: FoodFields)
    requires a.id == 1 && b.id == 2
    ensures var after := AddFood(RemoveFood([a, b], 1), fields);
      |after| == 2 && after[0] == b && after[1].id == b.id
  {
    RemovePresent([a, b], 1);
  }
}
