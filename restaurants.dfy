/** The restaurant listing state: the fetched list, the case-insensitive name
    search over it and the loading/error flags of the fetches. */
module RestaurantSearch {
  import opened Wrappers
  import opened Text
  import opened Sequences

  datatype Restaurant = Restaurant(id: string, name: string)

  /** `ERROR_FETCH_RESTAURANTS` */
  const FetchRestaurantsError: string := "Failed to fetch restaurants"
  /** `ERROR_FETCH_DETAILS` */
  const FetchDetailsError: string := "Failed to fetch restaurant details and menu"

  /** The restaurant's lower-cased name contains the (already lower-cased) term. */
  predicate NameMatches(r: Restaurant, lowerTerm: string)
  {
    Includes(Lower(r.name), lowerTerm)
  }

  /** `restaurants.filter(r => r.name.toLowerCase().includes(lowerTerm))`. */
  function FilterByName(rs: seq<Restaurant>, lowerTerm: string): (r: seq<Restaurant>)
    ensures IsSubsequence(r, rs)
    ensures forall x :: x in r <==> x in rs && NameMatches(x, lowerTerm)
    ensures |r| <= |rs|
  {
    if rs == [] then []
    else
      var rest := FilterByName(rs[1..], lowerTerm);
      assert forall x :: x in rs <==> x == rs[0] || x in rs[1..];
      if NameMatches(rs[0], lowerTerm) then
        assert ([rs[0]] + rest)[1..] == rest;
        [rs[0]] + rest
      else rest
  }

  /** The filter keeps every matching restaurant as often as it was fetched
      and drops every other one; with the subsequence property this pins the
      result to `filter` down to order and duplicates. */
  lemma {:induction false} FilterByNameCounts(rs: seq<Restaurant>, lowerTerm: string)
    ensures forall x ::
      multiset(FilterByName(rs, lowerTerm))[x] == if NameMatches(x, lowerTerm) then multiset(rs)[x] else 0
  {
    if rs != [] {
      FilterByNameCounts(rs[1..], lowerTerm);
      assert rs == [rs[0]] + rs[1..];
    }
  }

  /** The search filter effect: the full list for an empty term, otherwise the
      restaurants whose name contains the term, ignoring letter case. */
  function SearchResults(rs: seq<Restaurant>, searchTerm: string): seq<Restaurant>
  {
    if searchTerm == "" then rs else FilterByName(rs, Lower(searchTerm))
  }

  /** An empty term keeps the whole list. */
  lemma EmptyTermKeepsAll(rs: seq<Restaurant>)
    ensures SearchResults(rs, "") == rs
  {
  }

  /** A non-empty term keeps exactly the restaurants whose lower-cased name
      contains the lower-cased term, each as often as it was fetched and in
      the fetched order, and drops every other one. */
  lemma {:induction false} SearchKeepsMatches(rs: seq<Restaurant>, searchTerm: string)
    requires searchTerm != ""
    ensures IsSubsequence(SearchResults(rs, searchTerm), rs)
    ensures forall x :: x in SearchResults(rs, searchTerm) <==> x in rs && Includes(Lower(x.name), Lower(searchTerm))
    ensures forall x ::
      multiset(SearchResults(rs, searchTerm))[x] == if Includes(Lower(x.name), Lower(searchTerm)) then multiset(rs)[x] else 0
  {
    FilterByNameCounts(rs, Lower(searchTerm));
  }

  /** The filtered list is always a subsequence of the fetched one. */
  lemma {:induction false} SearchIsSubsequence(rs: seq<Restaurant>, searchTerm: string)
    ensures IsSubsequence(SearchResults(rs, searchTerm), rs)
  {
    if searchTerm == "" {
      SubsequenceOfItself(rs);
    }
  }

  /** Terms that differ only in letter case give the same results. */
  lemma {:induction false} SearchIgnoresCase(rs: seq<Restaurant>, t1: string, t2: string)
    requires Lower(t1) == Lower(t2)
    ensures SearchResults(rs, t1) == SearchResults(rs, t2)
  {
    assert |t1| == |Lower(t1)| == |Lower(t2)| == |t2|;
  }

  /** The term is not trimmed: a single space is a real search term, which
      drops a restaurant whose name has no space in it. */
  lemma WhitespaceTermIsNotEmpty()
    ensures SearchResults([Restaurant("r1", "Pizza")], "") == [Restaurant("r1", "Pizza")]
    ensures SearchResults([Restaurant("r1", "Pizza")], " ") == []
  {
    var name := Lower("Pizza");
    forall i | 0 <= i <= |name| ensures !OccursAt(name, " ", i) {
      if i < |name| {
        assert name[i..i + 1][0] == name[i] != ' ';
      }
    }
    assert Lower(" ") == " " by {
      assert Lower(" ")[0] == LowerChar(' ') == ' ';
    }
    assert !NameMatches(Restaurant("r1", "Pizza"), Lower(" "));
  }

  /** The restaurant provider's state. */
  class RestaurantStore {
    var restaurants: seq<Restaurant>
    var filteredRestaurants: seq<Restaurant>
    var selectedRestaurant: Option<Restaurant>
    var searchTerm: string
    var loading: bool
    var error: Option<string>

    /** Once the filter effect has run, the filtered list is the search over the fetched one. */
    ghost predicate Valid()
      reads this`restaurants, this`filteredRestaurants, this`searchTerm
    {
      filteredRestaurants == SearchResults(restaurants, searchTerm)
    }

    constructor ()
      ensures Valid()
      ensures restaurants == [] && filteredRestaurants == [] && selectedRestaurant == None
      ensures searchTerm == "" && !loading && error == None
    {
      restaurants, filteredRestaurants, selectedRestaurant := [], [], None;
      searchTerm, loading, error := "", false, None;
    }

    /** The filter effect, run whenever the term or the fetched list changes. */
    method ApplySearch()
      modifies this
      ensures filteredRestaurants == SearchResults(restaurants, searchTerm)
      ensures restaurants == old(restaurants) && searchTerm == old(searchTerm)
      ensures selectedRestaurant == old(selectedRestaurant) && loading == old(loading) && error == old(error)
    {
      if searchTerm == "" {
        filteredRestaurants := restaurants;
      } else {
        var lowercasedTerm := Lower(searchTerm);
        filteredRestaurants := FilterByName(restaurants, lowercasedTerm);
      }
    }

    /** `fetchRestaurants` with the service's outcome: success sets both lists to
        the data (the filter effect then re-applies the term), failure records
        the error; loading is off afterwards either way. */
    method FetchRestaurants(outcome: Outcome<seq<Restaurant>>)
      requires Valid()
      modifies this
      ensures Valid()
      ensures !loading
      ensures outcome.Ok? ==> restaurants == outcome.value && error == None
      ensures outcome.Failed? ==>
        && restaurants == old(restaurants) && filteredRestaurants == old(filteredRestaurants)
        && error == Some(MessageOr(outcome.message, FetchRestaurantsError))
      ensures searchTerm == old(searchTerm) && selectedRestaurant == old(selectedRestaurant)
    {
      loading := true;
      error := None;
      match outcome {
        case Ok(data) =>
          restaurants := data;
          filteredRestaurants := data;
          ApplySearch();
        case Failed(message) =>
          error := Some(MessageOr(message, FetchRestaurantsError));
      }
      loading := false;
    }

    /** `getRestaurantById` with the service's outcome. */
    method GetRestaurantById(outcome: Outcome<Restaurant>)
      requires Valid()
      modifies this
      ensures Valid()
      ensures !loading
      ensures outcome.Ok? ==> selectedRestaurant == Some(outcome.value) && error == None
      ensures outcome.Failed? ==>
        selectedRestaurant == old(selectedRestaurant) && error == Some(MessageOr(outcome.message, FetchDetailsError))
      ensures restaurants == old(restaurants) && filteredRestaurants == old(filteredRestaurants)
      ensures searchTerm == old(searchTerm)
    {
      loading := true;
      error := None;
      match outcome {
        case Ok(data) =>
          selectedRestaurant := Some(data);
        case Failed(message) =>
          error := Some(MessageOr(message, FetchDetailsError));
      }
      loading := false;
    }

    /** `setSearchTerm(term)`, followed by the filter effect. */
    method SetSearchTerm(term: string)
      requires Valid()
      modifies this
      ensures Valid()
      ensures searchTerm == term && filteredRestaurants == SearchResults(restaurants, term)
      ensures restaurants == old(restaurants) && selectedRestaurant == old(selectedRestaurant)
      ensures loading == old(loading) && error == old(error)
    {
      searchTerm := term;
      ApplySearch();
    }
  }
}
