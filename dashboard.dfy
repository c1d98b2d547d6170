/** The dashboard component's local state and its handlers. Each handler is one
    sequential step on the state; the HTTP client is replaced by the outcome of
    its request, which the caller supplies. The value-level transitions below
    say what each step does to the whole state; the class `Dashboard` holds the
    same four pieces of state as fields and its methods are the handlers. */
module Dashboard {
  import opened Foods

  /** How a POST, PUT or DELETE request ended. */
  datatype Outcome = Succeeded | Failed

  /** How the GET of the menu ended: the items the server returned, or an error. */
  datatype Fetch = Fetched(data: seq<FoodPlate>) | FetchFailed

  /** The component's state: the local menu, the item selected for editing
      (None while it is still the initial empty record) and the two modal flags. */
  datatype State = State(
    foods: seq<FoodPlate>,
    editingFood: Option<FoodPlate>,
    modalOpen: bool,
    editModalOpen: bool)

  function Initial(): State {
    State([], None, false, false)
  }

  /** loadFoods: the fetched items replace the list; a failed GET is only logged. */
  function Loaded(s: State, response: Fetch): State {
    match response
    case Fetched(data) => s.(foods := data)
    case FetchFailed => s
  }

  /** handleAddFood: the list grows only once the POST has succeeded. */
  function Added(s: State, fields: FoodFields, post: Outcome): State {
    if post.Succeeded? then s.(foods := AddFood(s.foods, fields)) else s
  }

  /** handleUpdateFood: the list is replaced before the PUT is sent, and a failed
      PUT is only logged, so `put` has no effect on the state. */
  function Updated(s: State, fields: FoodFields, put: Outcome): State {
    s.(foods := UpdateFoods(s.foods, s.editingFood, fields))
  }

  /** handleDeleteFood: the list is spliced before the DELETE is sent, whose
      failure nothing catches, so `del` has no effect on the state. */
  function Deleted(s: State, id: int, del: Outcome): State {
    s.(foods := RemoveFood(s.foods, id))
  }

  function ModalToggled(s: State): State {
    s.(modalOpen := !s.modalOpen)
  }

  function EditModalToggled(s: State): State {
    s.(editModalOpen := !s.editModalOpen)
  }

  /** handleEditFood: select the item, then toggle the edit modal. */
  function EditSelected(s: State, food: FoodPlate): State {
    EditModalToggled(s.(editingFood := Some(food)))
  }

  // ------------------------------------------------- properties of the steps

  lemma LoadEffect(s: State, response: Fetch)
    ensures response.Fetched? ==> Loaded(s, response) == s.(foods := response.data)
    ensures response.FetchFailed? ==> Loaded(s, response) == s
  {
  }

  /** A successful add appends one record, numbered one past the old length,
      available, with the form's fields; nothing else in the state changes. */
  lemma AddSucceeded(s: State, fields: FoodFields)
    ensures var t := Added(s, fields, Succeeded);
      && |t.foods| == |s.foods| + 1
      && t.foods[..|s.foods|] == s.foods
      && t.foods[|s.foods|].id == |s.foods| + 1
      && t.foods[|s.foods|].available
      && CopiesFields(t.foods[|s.foods|], fields)
      && t.(foods := s.foods) == s
  {
  }

  lemma AddFailedChangesNothing(s: State, fields: FoodFields)
    ensures Added(s, fields, Failed) == s
  {
  }

  /** An update keeps length, order and ids, leaves the items that are not being
      edited alone, rewrites the edited ones from the form, and does so whatever
      the PUT's outcome. */
  lemma UpdateEffect(s: State, fields: FoodFields, put: Outcome)
    ensures var t := Updated(s, fields, put);
      && t == Updated(s, fields, if put.Succeeded? then Failed else Succeeded)
      && |t.foods| == |s.foods|
      && Ids(t.foods) == Ids(s.foods)
      && (forall i :: 0 <= i < |s.foods| && !IsEditing(s.foods[i], s.editingFood) ==> t.foods[i] == s.foods[i])
      && (forall i :: 0 <= i < |s.foods| && IsEditing(s.foods[i], s.editingFood) ==>
            t.foods[i] == Edited(s.editingFood.value, fields))
      && t.(foods := s.foods) == s
  {
    UpdateKeepsIds(s.foods, s.editingFood, fields);
  }

  /** Before any item has been selected for editing an update changes nothing. */
  lemma UpdateBeforeSelectionChangesNothing(fields: FoodFields, put: Outcome, s: State)
    requires s.editingFood.None?
    ensures Updated(s, fields, put) == s
  {
    UpdateWithoutSelectionIsIdentity(s.foods, fields);
  }

  /** A delete takes out at most one item and leaves everything but the list
      alone, whatever the DELETE's outcome. */
  lemma DeleteEffect(s: State, id: int, del: Outcome)
    ensures var t := Deleted(s, id, del);
      && t == Deleted(s, id, if del.Succeeded? then Failed else Succeeded)
      && |t.foods| == (if s.foods == [] then 0 else |s.foods| - 1)
      && t.(foods := s.foods) == s
  {
    if exists j :: 0 <= j < |s.foods| && s.foods[j].id == id {
      RemovePresent(s.foods, id);
    } else {
      RemoveAbsent(s.foods, id);
    }
  }

  lemma ToggleModalTwice(s: State)
    ensures ModalToggled(s).(modalOpen := s.modalOpen) == s
    ensures ModalToggled(s).modalOpen != s.modalOpen
    ensures ModalToggled(ModalToggled(s)) == s
  {
  }

  lemma ToggleEditModalTwice(s: State)
    ensures EditModalToggled(s).(editModalOpen := s.editModalOpen) == s
    ensures EditModalToggled(s).editModalOpen != s.editModalOpen
    ensures EditModalToggled(EditModalToggled(s)) == s
  {
  }

  /** Selecting an item for editing sets the editing record and flips only the
      edit modal's flag. */
  lemma EditSelectedEffect(s: State, food: FoodPlate)
    ensures var t := EditSelected(s, food);
      && t.editingFood == Some(food)
      && t.editModalOpen == !s.editModalOpen
      && t.foods == s.foods
      && t.modalOpen == s.modalOpen
  {
  }

  // ----------------------------------------------------------- the component

  class Dashboard {
    var foods: seq<FoodPlate>
    var editingFood: Option<FoodPlate>
    var modalOpen: bool
    var editModalOpen: bool

    /** The current state as a value. */
    function Snapshot(): State
      reads this
    {
      State(foods, editingFood, modalOpen, editModalOpen)
    }

    /** The initial state: an empty menu, nothing selected, both modals closed. */
    constructor ()
      ensures Snapshot() == Initial()
    {
      foods := [];
      editingFood := None;
      modalOpen := false;
      editModalOpen := false;
    }

    method LoadFoods(response: Fetch)
      modifies this
      ensures Snapshot() == Loaded(old(Snapshot()), response)
    {
      if response.Fetched? {
        foods := response.data;
      }
    }

    method HandleAddFood(fields: FoodFields, post: Outcome)
      modifies this
      ensures Snapshot() == Added(old(Snapshot()), fields, post)
    {
      var objFood := NewFood(|foods|, fields);
      if post.Succeeded? {
        foods := foods + [objFood];
      }
    }

    method HandleUpdateFood(fields: FoodFields, put: Outcome)
      modifies this
      ensures Snapshot() == Updated(old(Snapshot()), fields, put)
    {
      foods := UpdateFoods(foods, editingFood, fields);
    }

    method HandleDeleteFood(id: int, del: Outcome)
      modifies this
      ensures Snapshot() == Deleted(old(Snapshot()), id, del)
    {
      var selectedFood := FindIndex(foods, id);
      foods := SpliceOne(foods, selectedFood);
    }

    method ToggleModal()
      modifies this
      ensures Snapshot() == ModalToggled(old(Snapshot()))
    {
      modalOpen := !modalOpen;
    }

    method ToggleEditModal()
      modifies this
      ensures Snapshot() == EditModalToggled(old(Snapshot()))
    {
      editModalOpen := !editModalOpen;
    }

    method HandleEditFood(food: FoodPlate)
      modifies this
      ensures Snapshot() == EditSelected(old(Snapshot()), food)
    {
      editingFood := Some(food);
      ToggleEditModal();
    }
  }
}
