/** The sort dropdown of the filter bar: its fixed options, the label of the
    committed choice and when it counts as active. */
module SortDropdown {
  import opened Dropdown

  /** `sortOptions`, as (value, label) pairs. */
  const SortOptions: seq<(string, string)> := [
    ("name-asc", "Name (A-Z)"),
    ("name-desc", "Name (Z-A)"),
    ("rating-desc", "Highest Rated"),
    ("rating-asc", "Lowest Rated")
  ]

  /** The order the dropdown treats as the default. */
  const DefaultSort: string := "name-asc"

  /** `getSelectedLabel`: the label of the committed order, or "Name (A-Z)"
      when no option carries it. */
  function SelectedSortLabel(selectedSort: string): string
  {
    LabelOf(SortOptions, selectedSort, "Name (A-Z)")
  }

  /** The `hasActiveFilters` flag handed to the dropdown. */
  predicate IsActive(selectedSort: string)
  {
    selectedSort != DefaultSort
  }

  /** Every option's value shows its own label; any other value shows the
      default order's label. */
  lemma SortLabels(v: string)
    ensures SelectedSortLabel("name-asc") == "Name (A-Z)"
    ensures SelectedSortLabel("name-desc") == "Name (Z-A)"
    ensures SelectedSortLabel("rating-desc") == "Highest Rated"
    ensures SelectedSortLabel("rating-asc") == "Lowest Rated"
    ensures v !in {"name-asc", "name-desc", "rating-desc", "rating-asc"} ==> SelectedSortLabel(v) == "Name (A-Z)"
  {
  }

  /** Only the default order is inactive, yet an unknown order value is shown
      with the default's label while the dropdown marks it active. */
  lemma UnknownSortLooksDefaultButActive()
    ensures !IsActive(DefaultSort)
    ensures SelectedSortLabel("price-asc") == SelectedSortLabel(DefaultSort) && IsActive("price-asc")
  {
    SortLabels("price-asc");
  }
}
