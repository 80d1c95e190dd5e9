/** The filter bar above the restaurant list: the one-field updates of the
    filter object it hands to its parent, the active-filter count, the
    results line and which of its four dropdowns is open. */
module FilterBar {
  import opened Wrappers
  import CuisineFilter
  import RatingFilter
  import AvailabilityFilter

  /** The parent's `filters` object; `null` is `None`. */
  datatype Filters = Filters(
    cuisines: seq<CuisineFilter.CuisineId>,
    minRating: Option<RatingFilter.HalfStars>,
    isOpen: Option<bool>)

  /** `handleCuisineChange`: the filters handed to `onFiltersChange`. */
  function HandleCuisineChange(filters: Filters, cuisines: seq<CuisineFilter.CuisineId>): Filters
  {
    filters.(cuisines := cuisines)
  }

  /** `handleRatingChange` */
  function HandleRatingChange(filters: Filters, rating: Option<RatingFilter.HalfStars>): Filters
  {
    filters.(minRating := rating)
  }

  /** `handleAvailabilityChange` */
  function HandleAvailabilityChange(filters: Filters, availability: Option<bool>): Filters
  {
    filters.(isOpen := availability)
  }

  /** Each handler replaces its own field and keeps the other two; a second
      change of the same field overrides the first; changes of different
      fields commute. */
  lemma ChangeHandlersReplaceOneField(f: Filters, c: seq<CuisineFilter.CuisineId>, c2: seq<CuisineFilter.CuisineId>,
                                      r: Option<RatingFilter.HalfStars>, a: Option<bool>)
    ensures HandleCuisineChange(f, c) == Filters(c, f.minRating, f.isOpen)
    ensures HandleRatingChange(f, r) == Filters(f.cuisines, r, f.isOpen)
    ensures HandleAvailabilityChange(f, a) == Filters(f.cuisines, f.minRating, a)
    ensures HandleCuisineChange(HandleCuisineChange(f, c), c2) == HandleCuisineChange(f, c2)
    ensures HandleRatingChange(HandleCuisineChange(f, c), r) == HandleCuisineChange(HandleRatingChange(f, r), c)
    ensures HandleAvailabilityChange(HandleRatingChange(f, r), a) == HandleRatingChange(HandleAvailabilityChange(f, a), r)
    ensures HandleCuisineChange(HandleAvailabilityChange(f, a), c) == HandleAvailabilityChange(HandleCuisineChange(f, c), a)
  {
  }

  /** `hasActiveFilters` */
  predicate HasActiveFilters(filters: Filters)
  {
    |filters.cuisines| > 0 || filters.minRating.Some? || filters.isOpen.Some?
  }

  /** The bar has active filters exactly when one of its three filter
      dropdowns marks itself active. */
  lemma ActiveIffSomeDropdownActive(filters: Filters)
    ensures HasActiveFilters(filters) <==>
      CuisineFilter.IsActive(filters.cuisines) || RatingFilter.IsActive(filters.minRating)
      || AvailabilityFilter.IsActive(filters.isOpen)
  {
  }

  /** The three kinds of filter. */
  datatype FilterKind = CuisineKind | RatingKind | AvailabilityKind

  /** The kinds of filter that are set. */
  function ActiveKinds(filters: Filters): set<FilterKind>
  {
    (if |filters.cuisines| > 0 then {CuisineKind} else {})
    + (if filters.minRating.Some? then {RatingKind} else {})
    + (if filters.isOpen.Some? then {AvailabilityKind} else {})
  }

  /** Each kind of filter that is set adds exactly one to the number of kinds. */
  lemma {:induction false} ActiveKindsCount(filters: Filters)
    ensures |ActiveKinds(filters)| ==
      (if |filters.cuisines| > 0 then 1 else 0) + (if filters.minRating.Some? then 1 else 0)
      + (if filters.isOpen.Some? then 1 else 0)
  {
    var c: set<FilterKind> := if |filters.cuisines| > 0 then {CuisineKind} else {};
    var r: set<FilterKind> := if filters.minRating.Some? then {RatingKind} else {};
    var a: set<FilterKind> := if filters.isOpen.Some? then {AvailabilityKind} else {};
    assert c * r == {};
    assert |c + r| == |c| + |r|;
    assert (c + r) * a == {};
    assert |c + r + a| == |c + r| + |a|;
  }

  /** `getActiveFiltersCount`: counts the kinds of filter that are set, so at
      most 3, and more than 0 exactly when the bar has active filters. */
  method GetActiveFiltersCount(filters: Filters) returns (count: nat)
    ensures count == |ActiveKinds(filters)|
    ensures count <= 3
    ensures count > 0 <==> HasActiveFilters(filters)
  {
    count := 0;
    if |filters.cuisines| > 0 {
      count := count + 1;
    }
    if filters.minRating.Some? {
      count := count + 1;
    }
    if filters.isOpen.Some? {
      count := count + 1;
    }
    ActiveKindsCount(filters);
  }

  /** The results line: "Found n restaurants matching your filters" or
      "Showing n restaurants". */
  datatype Summary = Found(count: int) | Showing(count: int)

  /** The results line, absent when the parent passes no `totalResults`. */
  function ResultsSummary(filters: Filters, totalResults: Option<int>): Option<Summary>
  {
    if totalResults.None? then None
    else if HasActiveFilters(filters) then Some(Found(totalResults.value))
    else Some(Showing(totalResults.value))
  }

  /** The results line appears exactly when a total is given, carries that
      total, and says "Found" exactly when a filter is active. */
  lemma SummaryWording(filters: Filters, totalResults: Option<int>)
    ensures ResultsSummary(filters, totalResults).Some? <==> totalResults.Some?
    ensures totalResults.Some? ==>
      ResultsSummary(filters, totalResults).value.count == totalResults.value
      && (ResultsSummary(filters, totalResults).value.Found? <==> HasActiveFilters(filters))
  {
  }

  /** The four dropdowns of the bar. */
  datatype DropdownName = CuisineMenu | RatingMenu | AvailabilityMenu | SortMenu

  /** The bar's state: the name of the open dropdown, if any. */
  class FilterBarState {
    var openDropdown: Option<DropdownName>

    constructor ()
      ensures openDropdown == None
    {
      openDropdown := None;
    }

    /** The `isOpen` prop the bar gives the named dropdown. */
    predicate IsDropdownOpen(name: DropdownName)
      reads this
    {
      openDropdown == Some(name)
    }

    /** `handleDropdownToggle(name, isOpen)`: opening a dropdown closes every
        other one, and a close request from any dropdown closes whichever one
        is open. */
    method HandleDropdownToggle(name: DropdownName, isOpen: bool)
      modifies this
      ensures forall n :: IsDropdownOpen(n) <==> isOpen && n == name
    {
      openDropdown := if isOpen then Some(name) else None;
    }
  }
}
