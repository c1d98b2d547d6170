# Food-menu dashboard: local list state machine

This project models the `Dashboard` page of a food-menu management app. The
page keeps a local list of menu items (`IFoodPlate`: id, name, image, price,
description, available), the item selected for editing and two modal flags.
Its handlers load, add, update and delete items and sync each change with a
REST collection through an HTTP client. The model gives:

- `foods.dfy` (module `Foods`): the menu item record and the list operations
  the handlers run. These are appending a freshly numbered item, the `map` that
  rewrites the edited item, and `findIndex` followed by `splice(index, 1)`.
  The JavaScript start-index rules of `splice` are written out.
- `dashboard.dfy` (module `Dashboard`): the component state as a value, one
  transition function per handler, and lemmas about them. The class
  `Dashboard.Dashboard` has the four state fields. Its methods are the handlers,
  and each method is proved to perform its transition.

The HTTP client is not modelled. Each request is replaced by its outcome
(`Outcome` for POST/PUT/DELETE, `Fetch` for the GET), which the caller supplies.
The model records whether the local change waits for that outcome:

- add waits for the POST;
- update and delete change the list first and ignore the outcome;
- load keeps the old list when the GET fails.

The initial `editingFood` is an empty object whose `id` is undefined, so it
never equals a numeric id. The model represents it as `None`, and an update
made before any item is selected changes nothing.

## Model

| member | source | states |
|---|---|---|
| `Foods.Ids` | src/pages/Dashboard/index.tsx:13-20 | the id sequence of a list has the list's length and, at every position, that item's id |
| `Foods.AddFood` | src/pages/Dashboard/index.tsx:45-57 | the new list is the old one with one record appended; its id is the old length plus one, it is available, and name, description, price and image come from the form |
| `Foods.AddFoodIds` | src/pages/Dashboard/index.tsx:46-57 | after an add the ids are the old ids followed by the old length plus one |
| `Foods.AddAfterRemoveRepeatsId` | src/pages/Dashboard/index.tsx:46 | ids are not unique: with items 1 and 2, deleting 1 and then adding leaves two items with id 2 |
| `Foods.UpdateFoods` | src/pages/Dashboard/index.tsx:67-76 | same length and positions; an item whose id differs from the editing record's is returned unchanged, and an item whose id matches takes the form's fields plus the editing record's id and availability |
| `Foods.UpdateKeepsIds` | src/pages/Dashboard/index.tsx:67-76 | an update leaves the sequence of ids unchanged |
| `Foods.UpdateWithoutMatchIsIdentity` | src/pages/Dashboard/index.tsx:67-70 | when no item has the editing record's id, the list is unchanged |
| `Foods.UpdateWithoutSelectionIsIdentity` | src/pages/Dashboard/index.tsx:24 | with the initial empty editing record, an update leaves the list unchanged |
| `Foods.UpdateIdempotent` | src/pages/Dashboard/index.tsx:67-76 | applying the same update twice gives the same list as applying it once |
| `Foods.FirstIndex` | src/pages/Dashboard/index.tsx:89 | `findIndex`: the first position holding the id, or -1 exactly when no item has it |
| `Foods.FindIndex` | src/pages/Dashboard/index.tsx:89 | the linear search returns the first matching position, or -1 |
| `Foods.SpliceStart` | src/pages/Dashboard/index.tsx:90 | the splice start is inside `0..len`; a start in range is kept, and a negative start counts back from the end |
| `Foods.SpliceOne` | src/pages/Dashboard/index.tsx:90 | `splice(start, 1)` removes the element at the start position when there is one, keeps the elements before it and shifts the ones after it down by one; at the end of the list it changes nothing |
| `Foods.RemovePresent` | src/pages/Dashboard/index.tsx:89-91 | deleting a present id removes exactly its first occurrence: the result is the list with that one position cut out, one shorter, other items in their relative order |
| `Foods.RemovePresentMultiset` | src/pages/Dashboard/index.tsx:89-91 | deleting a present id removes one copy of the matched item and keeps all other items |
| `Foods.RemoveAbsent` | src/pages/Dashboard/index.tsx:89-90 | deleting an absent id drops the last item (`splice(-1, 1)`); an empty list stays empty |
| `Dashboard.LoadEffect` | src/pages/Dashboard/index.tsx:29-36 | a successful GET replaces the list with the fetched items, and a failed one leaves the state unchanged |
| `Dashboard.AddSucceeded` | src/pages/Dashboard/index.tsx:44-57 | a successful add appends one record (old length plus one, available, form fields) and changes nothing else |
| `Dashboard.AddFailedChangesNothing` | src/pages/Dashboard/index.tsx:55-60 | when the POST fails the state is unchanged |
| `Dashboard.UpdateEffect` | src/pages/Dashboard/index.tsx:66-85 | the update result is the same whatever the PUT's outcome; it keeps length and ids, leaves non-edited items alone, rewrites edited ones and touches nothing but the list |
| `Dashboard.UpdateBeforeSelectionChangesNothing` | src/pages/Dashboard/index.tsx:24 | an update before any item is selected leaves the state unchanged |
| `Dashboard.DeleteEffect` | src/pages/Dashboard/index.tsx:88-93 | a delete gives the same result whatever the DELETE's outcome; it shortens a non-empty list by exactly one and touches nothing but the list |
| `Dashboard.ToggleModalTwice` | src/pages/Dashboard/index.tsx:95-97 | the add-modal toggle negates only its flag, and applying it twice restores the state |
| `Dashboard.ToggleEditModalTwice` | src/pages/Dashboard/index.tsx:99-101 | the edit-modal toggle negates only its flag, and applying it twice restores the state |
| `Dashboard.EditSelectedEffect` | src/pages/Dashboard/index.tsx:103-106 | selecting an item stores it as the editing record, flips the edit modal's flag and keeps the list and the add-modal flag |
| `Dashboard.Dashboard.constructor` | src/pages/Dashboard/index.tsx:23-26 | initial state: empty list, nothing selected, both modals closed |
| `Dashboard.Dashboard.LoadFoods` | src/pages/Dashboard/index.tsx:29-36 | the new state is the load transition of the old state |
| `Dashboard.Dashboard.HandleAddFood` | src/pages/Dashboard/index.tsx:41-61 | the new state is the add transition of the old state: the record is appended only if the POST succeeded |
| `Dashboard.Dashboard.HandleUpdateFood` | src/pages/Dashboard/index.tsx:63-86 | the new state is the update transition of the old state, whatever the PUT outcome |
| `Dashboard.Dashboard.HandleDeleteFood` | src/pages/Dashboard/index.tsx:88-93 | `findIndex` and then `splice` produce the delete transition of the old state |
| `Dashboard.Dashboard.ToggleModal` | src/pages/Dashboard/index.tsx:95-97 | negates `modalOpen` and nothing else |
| `Dashboard.Dashboard.ToggleEditModal` | src/pages/Dashboard/index.tsx:99-101 | negates `editModalOpen` and nothing else |
| `Dashboard.Dashboard.HandleEditFood` | src/pages/Dashboard/index.tsx:103-106 | sets the editing record and flips `editModalOpen` through the toggle |

## Left out

- Rendering and the child components (`Header`, `Food`, `ModalAddFood`, `ModalEditFood`, `FoodsContainer`) are presentation only. Their files are not part of this model.
- The HTTP client (`api.get`, `post`, `put`, `delete`) is a network call. Each call is replaced by its outcome as a parameter. The request bodies and URLs are not modelled.
- `console.log` error reporting has no effect on state.
- React's state scheduling, the mount-time `useEffect` and the interleaving of async handlers are not modelled. Each handler is one sequential step on the current state.
- `handleDeleteFood` splices the state array in place and then stores a copy of it. The model replaces the list value, so the in-place mutation of the array React still holds, and any aliasing of it, is not captured.
- Ids are JavaScript numbers. They are modelled as unbounded integers, so NaN, fractions and precision limits are excluded. Equality is integer equality.
- Servers may return records of any shape. Fetched data is assumed to be well-formed `FoodPlate` records.
- No invariant of unique ids is claimed, because the code does not keep one (see `Foods.AddAfterRemoveRepeatsId`).
