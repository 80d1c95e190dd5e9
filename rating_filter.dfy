/** The minimum-rating dropdown of the filter bar: its fixed options, the
    label of the committed choice and the star icons drawn beside an option. */
module RatingFilter {
  import opened Wrappers
  import opened Dropdown

  /** A rating in half stars, so that 4.5 is 9 and 3.0 is 6. */
  type HalfStars = nat

  /** `ratingOptions`, as (value, label) pairs; `null` is `None`. */
  const RatingOptions: seq<(Option<HalfStars>, string)> := [
    (None, "Any Rating"),
    (Some(9), "4.5+ Stars"),
    (Some(8), "4.0+ Stars"),
    (Some(7), "3.5+ Stars"),
    (Some(6), "3.0+ Stars")
  ]

  /** `getSelectedRatingLabel`: the label of the committed rating, or
      "Any Rating" when no option carries it. */
  function SelectedRatingLabel(selectedRating: Option<HalfStars>): string
  {
    LabelOf(RatingOptions, selectedRating, "Any Rating")
  }

  /** Every option's value shows its own label, and any other rating shows
      "Any Rating". */
  lemma RatingLabels(v: HalfStars)
    ensures SelectedRatingLabel(None) == "Any Rating"
    ensures SelectedRatingLabel(Some(9)) == "4.5+ Stars"
    ensures SelectedRatingLabel(Some(8)) == "4.0+ Stars"
    ensures SelectedRatingLabel(Some(7)) == "3.5+ Stars"
    ensures SelectedRatingLabel(Some(6)) == "3.0+ Stars"
    ensures !(6 <= v <= 9) ==> SelectedRatingLabel(Some(v)) == "Any Rating"
  {
  }

  /** The `hasActiveFilters` flag handed to the dropdown: a rating is chosen. */
  predicate IsActive(selectedRating: Option<HalfStars>)
  {
    selectedRating.Some?
  }

  /** One icon of `renderStars`. */
  datatype StarIcon = Full | HalfFull | Empty

  /** The half stars a row of icons shows: 2 per full star, 1 per half star. */
  function ShownHalves(stars: seq<StarIcon>): nat
  {
    if stars == [] then 0
    else
      var last := match stars[|stars| - 1] { case Full => 2 case HalfFull => 1 case Empty => 0 };
      ShownHalves(stars[..|stars| - 1]) + last
  }

  function Min(a: int, b: int): int
  {
    if a <= b then a else b
  }

  /** `renderStars(rating)`: five icons, full below the whole part of the
      rating, a half star at the whole part when the rating has a half, empty
      after; together they show the rating, capped at five stars. */
  method RenderStars(rating: HalfStars) returns (stars: seq<StarIcon>)
    ensures |stars| == 5
    ensures forall i :: 0 <= i < 5 ==> (stars[i] == Full <==> i < rating / 2)
    ensures forall i :: 0 <= i < 5 ==> (stars[i] == HalfFull <==> i == rating / 2 && rating % 2 == 1)
    ensures ShownHalves(stars) == Min(rating, 10)
  {
    stars := [];
    var fullStars := rating / 2;
    var hasHalfStar := rating % 2 != 0;
    for i := 0 to 5
      invariant |stars| == i
      invariant forall j :: 0 <= j < i ==> (stars[j] == Full <==> j < rating / 2)
      invariant forall j :: 0 <= j < i ==> (stars[j] == HalfFull <==> j == rating / 2 && rating % 2 == 1)
      invariant ShownHalves(stars) == Min(rating, 2 * i)
    {
      var icon;
      if i < fullStars {
        icon := Full;
      } else if i == fullStars && hasHalfStar {
        icon := HalfFull;
      } else {
        icon := Empty;
      }
      assert (stars + [icon])[..i] == stars;
      stars := stars + [icon];
    }
  }
}
