/** The cuisine dropdown of the filter bar: the fetched cuisine list, the draft
    selection toggled by the checkboxes, and the title and summary derived from
    the committed selection. */
module CuisineFilter {
  import opened Wrappers
  import opened Text
  import opened Sequences
  import opened IdToggle
  import opened Dropdown

  type CuisineId = string

  datatype Cuisine = Cuisine(id: CuisineId, name: string)

  /** The names of a cuisine list, in order. */
  function Names(cuisines: seq<Cuisine>): (r: seq<string>)
    ensures |r| == |cuisines|
  {
    if cuisines == [] then [] else [cuisines[0].name] + Names(cuisines[1..])
  }

  /** `cuisines.filter(c => selected.includes(c.id))`: every fetched cuisine
      whose id is selected, as often as it was fetched and in the fetched
      order, and no other. */
  function SelectedCuisines(cuisines: seq<Cuisine>, selected: seq<CuisineId>): (r: seq<Cuisine>)
    ensures IsSubsequence(r, cuisines)
    ensures forall c :: multiset(r)[c] == if c.id in selected then multiset(cuisines)[c] else 0
  {
    if cuisines == [] then []
    else
      var rest := SelectedCuisines(cuisines[1..], selected);
      assert cuisines == [cuisines[0]] + cuisines[1..];
      if cuisines[0].id in selected then
        assert ([cuisines[0]] + rest)[1..] == rest;
        [cuisines[0]] + rest
      else rest
  }

  /** `getSelectedCuisineNames`: the names of the fetched cuisines whose id is
      selected, in the order of the fetched list. */
  function SelectedCuisineNames(cuisines: seq<Cuisine>, selected: seq<CuisineId>): (names: seq<string>)
    ensures |names| <= |cuisines|
    ensures IsSubsequence(names, Names(cuisines))
    ensures forall c :: c in cuisines && c.id in selected ==> c.name in names
    ensures forall n :: n in names ==> exists c :: c in cuisines && c.id in selected && c.name == n
  {
    if cuisines == [] then []
    else
      var rest := SelectedCuisineNames(cuisines[1..], selected);
      assert Names(cuisines)[1..] == Names(cuisines[1..]);
      assert forall c :: c in cuisines <==> c == cuisines[0] || c in cuisines[1..];
      if cuisines[0].id in selected then
        assert ([cuisines[0].name] + rest)[1..] == rest;
        [cuisines[0].name] + rest
      else rest
  }

  /** The names shown are the names of the selected cuisines, one per
      selected cuisine and in the fetched order: duplicates in the catalogue
      are kept, nothing is reordered. */
  lemma {:induction false} SelectedNamesFollowSelection(cuisines: seq<Cuisine>, selected: seq<CuisineId>)
    ensures SelectedCuisineNames(cuisines, selected) == Names(SelectedCuisines(cuisines, selected))
  {
    if cuisines != [] {
      SelectedNamesFollowSelection(cuisines[1..], selected);
      var rest := SelectedCuisines(cuisines[1..], selected);
      if cuisines[0].id in selected {
        assert ([cuisines[0]] + rest)[1..] == rest;
      }
    }
  }

  /** The title: "Cuisines " followed by the count in parentheses once
      something is selected. */
  function Title(selectedCuisines: seq<CuisineId>): string
  {
    "Cuisines " + if |selectedCuisines| > 0 then "(" + NatToString(|selectedCuisines|) + ")" else ""
  }

  /** The title carries a count exactly when a cuisine is selected, and the
      count it carries is the number of selected cuisines. */
  lemma TitleShowsCount(selectedCuisines: seq<CuisineId>)
    ensures '(' in Title(selectedCuisines) <==> |selectedCuisines| > 0
    ensures |selectedCuisines| > 0 ==> Title(selectedCuisines)[10..|Title(selectedCuisines)| - 1] == NatToString(|selectedCuisines|)
  {
    if |selectedCuisines| > 0 {
      assert Title(selectedCuisines)[9] == '(';
    }
  }

  /** The `hasActiveFilters` flag handed to the dropdown. */
  predicate IsActive(selectedCuisines: seq<CuisineId>)
  {
    |selectedCuisines| > 0
  }

  /** The component's state: the fetched cuisines, the loading flag and the
      draft over the committed selection it receives as a prop. */
  class CuisineFilterPanel {
    var cuisines: seq<Cuisine>
    var loading: bool
    const draft: Draft<seq<CuisineId>>

    constructor (selectedCuisines: seq<CuisineId>)
      ensures cuisines == [] && !loading
      ensures fresh(draft) && draft.selected == selectedCuisines && draft.tempSelected == selectedCuisines
    {
      cuisines := [];
      loading := false;
      draft := new Draft(selectedCuisines);
    }

    /** `fetchCuisines` with the service's outcome: success replaces the list,
        failure is only logged; loading is off afterwards either way. */
    method FetchCuisines(outcome: Outcome<seq<Cuisine>>)
      modifies this
      ensures !loading
      ensures cuisines == if outcome.Ok? then outcome.value else old(cuisines)
    {
      loading := true;
      if outcome.Ok? {
        cuisines := outcome.value;
      }
      loading := false;
    }

    /** `handleCuisineToggle(id)`: the draft gains the id when it lacks it and
        loses it otherwise; no other id changes and no duplicate appears. */
    method HandleCuisineToggle(id: CuisineId)
      modifies draft
      ensures draft.tempSelected == Toggled(old(draft.tempSelected), id)
      ensures draft.selected == old(draft.selected)
      ensures id in draft.tempSelected <==> id !in old(draft.tempSelected)
      ensures forall other :: other != id ==> (other in draft.tempSelected <==> other in old(draft.tempSelected))
      ensures Distinct(old(draft.tempSelected)) ==> Distinct(draft.tempSelected)
    {
      var before := draft.tempSelected;
      forall other ensures other != id ==> (other in Toggled(before, id) <==> other in before) {
        ToggleFlipsOne(before, id, other);
      }
      if Distinct(before) {
        ToggleKeepsDistinct(before, id);
      }
      draft.Select(Toggled(before, id));
    }

    /** `handleApply`: hands the draft to the parent and asks it to close. */
    method HandleApply() returns (emitted: Emitted<seq<CuisineId>>)
      ensures emitted == Emitted(Some(draft.tempSelected), Some(false))
    {
      emitted := draft.Apply();
    }

    /** `handleClear`: empties the draft only; the parent hears nothing until Apply. */
    method HandleClear()
      modifies draft
      ensures draft.tempSelected == [] && draft.selected == old(draft.selected)
    {
      draft.Select([]);
    }

    /** `handleCancel`: the draft returns to the committed selection and the
        parent is asked to close. */
    method HandleCancel() returns (emitted: Emitted<seq<CuisineId>>)
      modifies draft
      ensures draft.tempSelected == draft.selected == old(draft.selected)
      ensures emitted == Emitted(None, Some(false))
    {
      emitted := draft.Cancel();
    }
  }
}
