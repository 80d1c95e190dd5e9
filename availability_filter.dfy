/** The open/closed status dropdown of the filter bar. */
module AvailabilityFilter {
  import opened Wrappers
  import opened Dropdown

  /** `availabilityOptions`, as (value, label) pairs; `null` is `None`. */
  const AvailabilityOptions: seq<(Option<bool>, string)> := [
    (None, "All Restaurants"),
    (Some(true), "Open Now"),
    (Some(false), "Closed")
  ]

  /** `getSelectedLabel`: the label of the committed status. */
  function SelectedAvailabilityLabel(selectedAvailability: Option<bool>): string
  {
    LabelOf(AvailabilityOptions, selectedAvailability, "All Restaurants")
  }

  /** Each of the three statuses shows its own label. */
  lemma AvailabilityLabels()
    ensures SelectedAvailabilityLabel(None) == "All Restaurants"
    ensures SelectedAvailabilityLabel(Some(true)) == "Open Now"
    ensures SelectedAvailabilityLabel(Some(false)) == "Closed"
  {
  }

  /** `getStatusIcon`: a shop for "all", a green dot for open, a red dot for closed. */
  function StatusIcon(isOpen: Option<bool>): string
  {
    if isOpen.None? then "\U{1F3EA}"
    else if isOpen.value then "\U{1F7E2}" else "\U{1F534}"
  }

  /** The three statuses have three different icons. */
  lemma StatusIconsDistinct(a: Option<bool>, b: Option<bool>)
    ensures StatusIcon(a) == StatusIcon(b) <==> a == b
  {
  }

  /** The `hasActiveFilters` flag handed to the dropdown: a status is chosen. */
  predicate IsActive(selectedAvailability: Option<bool>)
  {
    selectedAvailability.Some?
  }
}
