/** The standalone cuisine dropdown: a button showing the draft count, a panel
    listing the fetched cuisines, and Clear/Apply actions that report the
    selection to the parent and close the panel. */
module CuisineDropdown {
  import opened Wrappers
  import opened Text
  import opened IdToggle
  import opened CuisineFilter

  /** What the panel body shows. */
  datatype PanelBody =
    | Spinner
    | ErrorText(message: string)
    | CuisineList(entries: seq<(Cuisine, bool)>)
    | NoCuisines

  /** The body of the open panel: the spinner while loading, then a non-empty
      error message, then the cuisines each marked with whether the draft holds
      its id, and a notice when there are none. */
  function Body(loading: bool, error: Option<string>, available: seq<Cuisine>, temp: seq<CuisineId>): (b: PanelBody)
    ensures b.CuisineList? <==> !loading && (error.None? || error.value == "") && |available| > 0
    ensures b.CuisineList? ==> |b.entries| == |available|
    ensures b.CuisineList? ==> forall i :: 0 <= i < |available| ==>
      b.entries[i].0 == available[i] && (b.entries[i].1 <==> available[i].id in temp)
  {
    if loading then Spinner
    else if error.Some? && error.value != "" then ErrorText(error.value)
    else if |available| > 0 then CuisineList(seq(|available|, i requires 0 <= i < |available| => (available[i], available[i].id in temp)))
    else NoCuisines
  }

  /** The button text for a draft of `count` cuisines. */
  function ButtonLabel(count: nat): string
  {
    if count > 0 then NatToString(count) + " Cuisine" + (if count > 1 then "s" else "")
    else "Filter by Cuisine"
  }

  /** The button reads "Filter by Cuisine" exactly when the draft is empty,
      otherwise the count, with the plural from two on. */
  lemma ButtonLabels(count: nat)
    ensures ButtonLabel(count) == "Filter by Cuisine" <==> count == 0
    ensures count == 1 ==> ButtonLabel(count) == "1 Cuisine"
    ensures count > 1 ==> ButtonLabel(count) == NatToString(count) + " Cuisines"
  {
    if count > 0 {
      assert ButtonLabel(count)[0] == NatToString(count)[0] != 'F';
    }
  }

  class CuisineDropdownState {
    var isOpen: bool
    var availableCuisines: seq<Cuisine>
    var tempSelectedCuisines: seq<CuisineId>
    /** The `selectedCuisines` prop last received. */
    var selectedCuisines: seq<CuisineId>
    var loading: bool
    var error: Option<string>

    constructor (selectedCuisines: seq<CuisineId>)
      ensures !isOpen && availableCuisines == [] && !loading && error == None
      ensures this.selectedCuisines == selectedCuisines && tempSelectedCuisines == selectedCuisines
    {
      isOpen, availableCuisines, loading, error := false, [], false, None;
      this.selectedCuisines, tempSelectedCuisines := selectedCuisines, selectedCuisines;
    }

    /** The fetch on mount with the service's outcome: success replaces the
        list, failure records the error's message; loading is off afterwards. */
    method FetchCuisines(outcome: Outcome<seq<Cuisine>>)
      modifies this
      ensures !loading
      ensures outcome.Ok? ==> availableCuisines == outcome.value && error == None
      ensures outcome.Failed? ==> availableCuisines == old(availableCuisines) && error == Some(outcome.message)
      ensures isOpen == old(isOpen) && tempSelectedCuisines == old(tempSelectedCuisines)
      ensures selectedCuisines == old(selectedCuisines)
    {
      loading := true;
      error := None;
      match outcome {
        case Ok(cuisines) => availableCuisines := cuisines;
        case Failed(message) => error := Some(message);
      }
      loading := false;
    }

    /** A re-render with prop `prop`: the draft resyncs when the prop changed. */
    method ReceiveProp(prop: seq<CuisineId>)
      modifies this
      ensures selectedCuisines == prop
      ensures tempSelectedCuisines == if prop != old(selectedCuisines) then prop else old(tempSelectedCuisines)
      ensures isOpen == old(isOpen) && availableCuisines == old(availableCuisines)
      ensures loading == old(loading) && error == old(error)
    {
      if prop != selectedCuisines {
        tempSelectedCuisines := prop;
      }
      selectedCuisines := prop;
    }

    /** `toggleCuisine(id)`: flips the id's membership in the draft only. */
    method ToggleCuisine(id: CuisineId)
      modifies this
      ensures tempSelectedCuisines == Toggled(old(tempSelectedCuisines), id)
      ensures id in tempSelectedCuisines <==> id !in old(tempSelectedCuisines)
      ensures Distinct(old(tempSelectedCuisines)) ==> Distinct(tempSelectedCuisines)
      ensures isOpen == old(isOpen) && selectedCuisines == old(selectedCuisines)
      ensures availableCuisines == old(availableCuisines) && loading == old(loading) && error == old(error)
    {
      ToggleFlipsOne(tempSelectedCuisines, id, id);
      if Distinct(tempSelectedCuisines) {
        ToggleKeepsDistinct(tempSelectedCuisines, id);
      }
      tempSelectedCuisines := Toggled(tempSelectedCuisines, id);
    }

    /** `handleApplyFilter`: reports the draft to the parent and closes. */
    method HandleApplyFilter() returns (change: seq<CuisineId>)
      modifies this
      ensures change == tempSelectedCuisines == old(tempSelectedCuisines)
      ensures !isOpen
      ensures selectedCuisines == old(selectedCuisines) && availableCuisines == old(availableCuisines)
      ensures loading == old(loading) && error == old(error)
    {
      change := tempSelectedCuisines;
      isOpen := false;
    }

    /** `handleClearFilter`: empties the draft, reports the empty selection to
        the parent at once and closes. */
    method HandleClearFilter() returns (change: seq<CuisineId>)
      modifies this
      ensures change == [] && tempSelectedCuisines == []
      ensures !isOpen
      ensures selectedCuisines == old(selectedCuisines) && availableCuisines == old(availableCuisines)
      ensures loading == old(loading) && error == old(error)
    {
      tempSelectedCuisines := [];
      change := [];
      isOpen := false;
    }

    /** A click on the button flips the panel open or closed. */
    method ToggleOpen()
      modifies this
      ensures isOpen == !old(isOpen)
      ensures tempSelectedCuisines == old(tempSelectedCuisines) && selectedCuisines == old(selectedCuisines)
      ensures availableCuisines == old(availableCuisines) && loading == old(loading) && error == old(error)
    {
      isOpen := !isOpen;
    }

    /** The close button in the panel header: the panel closes and the draft
        stays, so reopening shows the same unapplied choice. */
    method Close()
      modifies this
      ensures !isOpen
      ensures tempSelectedCuisines == old(tempSelectedCuisines) && selectedCuisines == old(selectedCuisines)
      ensures availableCuisines == old(availableCuisines) && loading == old(loading) && error == old(error)
    {
      isOpen := false;
    }

    /** A mouse press anywhere: one outside the component closes the panel,
        one inside leaves it as it is; the draft is kept either way. */
    method MouseDown(inside: bool)
      modifies this
      ensures isOpen == (old(isOpen) && inside)
      ensures tempSelectedCuisines == old(tempSelectedCuisines) && selectedCuisines == old(selectedCuisines)
      ensures availableCuisines == old(availableCuisines) && loading == old(loading) && error == old(error)
    {
      if !inside {
        isOpen := false;
      }
    }

    /** `selectedCount`: the button shows the draft, not the committed selection. */
    function SelectedCount(): nat
      reads this
    {
      |tempSelectedCuisines|
    }
  }

  /** Clear followed by the parent adopting the reported selection leaves
      both the committed selection and the draft empty and the panel closed. */
  method ClearAndAdopt(d: CuisineDropdownState) returns (change: seq<CuisineId>)
    modifies d
    ensures change == [] && d.selectedCuisines == [] && d.tempSelectedCuisines == [] && !d.isOpen
    ensures d.SelectedCount() == 0
  {
    change := d.HandleClearFilter();
    d.ReceiveProp(change);
  }
}
