# Restaurant ordering client — state logic in Dafny

This project models the state logic of a React client for ordering from
restaurants:

- **Cart** (`Cart`). The cart is scoped to one restaurant. It has three operations: add, remove and clear. The item and price totals are derived from its lines.
- **Pagination** (`Pagination`). The page-number window with `...` gaps, the "Showing a to b of n" range, and the Previous/Next rules.
- **Restaurant listing** (`RestaurantSearch`). The case-insensitive name search and the fetch state.
- **Filter bar and its dropdowns**:
  - the filter bar (`FilterBar`);
  - the two cuisine filters (`CuisineFilter`, `CuisineDropdown`);
  - the rating, sort and availability dropdowns (`RatingFilter`, `SortDropdown`, `AvailabilityFilter`).
  - They share the draft/apply/cancel selection (`Dropdown.Draft`) and the id toggle (`IdToggle`).
- **Rating card** (`RatingCard`). The guarded rating and comment entry on a delivered order.
- **Providers**:
  - orders (`Orders`);
  - alerts (`Alerts`);
  - authentication (`Auth`), including the choice of a JSON Web Token's payload segment and the base64url-to-base64 remapping of sections 5 and 4 of RFC 4648.
- **Order-id formatter** (`Formatters`).

How the source is represented:

- Component and provider state is a `class`. Its fields are the `useState` fields, and each handler is a method that states the whole new state. An effect that a handler triggers (the cart totals, the search filter, a dropdown's resync) is folded into that handler.
- Service calls are not made. Their result is a parameter of type `Outcome<T>`, either `Ok(value)` or `Failed(message)`, where `message == ""` stands for an error without a message.
- Calls a component makes to its parent are return values: the `Emitted` record, or the list handed to `onFilterChange`.
- Prices are integer cents. Filter ratings are counted in half stars, so 4.5 is 9. The rating card counts whole stars, and 0 means none.
- JavaScript's falsy ids and strings are the empty string, and `null` is `None`.

Three behaviours of the source that a reader may not expect; the model keeps them:

- The signup failure falls back to the message "Login failed".
- The search term is not trimmed.
- An unknown sort value counts as an active sort.

## Model

| member | source | states |
|---|---|---|
| Cart.FindIndex | src/context/CartContext.jsx:44 | the index of the first line carrying the id, or -1 exactly when no line carries it |
| Cart.FindItemIndex | src/context/CartContext.jsx:61 | the front-to-back scan returns the first matching line or -1 |
| Cart.AddWithoutRestaurant | src/context/CartContext.jsx:31-35 | an item without a restaurant id leaves the cart unchanged and raises the missing-restaurant alert |
| Cart.AddFromOtherRestaurant | src/context/CartContext.jsx:39-42 | an item from another restaurant than the first line's replaces the whole cart by that item at quantity 1 and raises the cart-replaced alert |
| Cart.AddExisting | src/context/CartContext.jsx:44-52 | an item that has a line raises only that line's quantity by 1; length, order and every other line are kept |
| Cart.AddNew | src/context/CartContext.jsx:53-55 | a new item from the cart's restaurant is appended at the end with quantity 1 |
| Cart.RemoveAbsent | src/context/CartContext.jsx:61-62 | removing an id without a line changes nothing |
| Cart.RemovePresent | src/context/CartContext.jsx:64-73 | a line of quantity above 1 is decremented in place; a line of quantity 1 is deleted and the other lines keep their order |
| Cart.AddKeepsInvariant | src/context/CartContext.jsx:37-56 | adding keeps one non-empty restaurant id for all lines, unique item ids and every quantity at least 1 |
| Cart.RemoveKeepsInvariant | src/context/CartContext.jsx:59-75 | removing keeps the same three invariants |
| Cart.AddThenRemove | src/context/CartContext.jsx:37-75 | on an empty or same-restaurant cart, adding an item and removing its id restores the cart |
| Cart.AddCounts | src/context/CartContext.jsx:37-56 | on an empty or same-restaurant cart, adding an item with a restaurant id, seen as a map from id to quantity, raises the added id by 1 and keeps every other id |
| Cart.RemoveCounts | src/context/CartContext.jsx:59-75 | removing lowers the removed id by 1 (not below 0) and keeps every other id |
| Cart.SpliceCounts | src/context/CartContext.jsx:71 | deleting a line removes its id from the cart and keeps every other id's quantity |
| Cart.AddTotals | src/context/CartContext.jsx:16-56 | on an empty or same-restaurant cart, after adding an item with a restaurant id the item total grows by 1 and the price total by one unit price, taken from the existing line when there is one |
| Cart.RemoveTotals | src/context/CartContext.jsx:16-75 | after removing a present id both totals drop by one item and one unit price; an absent id changes neither |
| Cart.ComputeTotals | src/context/CartContext.jsx:16-28 | the `forEach` accumulation yields the sum of quantities and the sum of quantity × price |
| Cart.CartStore.constructor | src/context/CartContext.jsx:10-14 | an empty cart with zero totals, closed |
| Cart.CartStore.AddItemToCart | src/context/CartContext.jsx:30-57 | the lines become the add result with the alert raised; invariants and totals stay consistent; the panel flag is kept |
| Cart.CartStore.RemoveItemFromCart | src/context/CartContext.jsx:59-75 | the lines become the remove result; invariants and totals stay consistent |
| Cart.CartStore.ClearCart | src/context/CartContext.jsx:77-79 | the cart is empty and both totals are 0 |
| Cart.CartStore.RefreshTotals | src/context/CartContext.jsx:16-28 | the totals effect sets both totals from the lines and changes nothing else |
| Cart.CartStore.SetIsCartOpen | src/context/CartContext.jsx:14 | only the panel flag changes |
| Pagination.PageRange | src/components/ui/Pagination.jsx:18-20 | the pages lo..hi in order, each entry a number |
| Pagination.GetPageNumbers | src/components/ui/Pagination.jsx:13-36 | the counting loop and the fixed windows produce the page list |
| Pagination.SmallListsShowEveryPage | src/components/ui/Pagination.jsx:17-20 | up to five pages the list has no gap and shows page p exactly when 1 ≤ p ≤ totalPages |
| Pagination.LargeListsShape | src/components/ui/Pagination.jsx:22-32 | beyond five pages the list has 6 or 7 entries, from page 1 to the last page |
| Pagination.PageNumbersWellFormed | src/components/ui/Pagination.jsx:23-31 | the numbers strictly increase within 1..totalPages and every gap sits between numbers at least 2 apart |
| Pagination.WindowWellFormed | src/components/ui/Pagination.jsx:25-31 | a window from page 1 to the last page is ordered and its gaps hide pages once its neighbours are well placed |
| Pagination.NoAdjacentGaps | src/components/ui/Pagination.jsx:25-31 | no two gaps are adjacent |
| Pagination.CurrentPageShown | src/components/ui/Pagination.jsx:23-31 | a current page within 1..totalPages always has its own button |
| Pagination.EndItem | src/components/ui/Pagination.jsx:11 | the last item shown is the smaller of the page end and the total |
| Pagination.ItemRangeOnPage | src/components/ui/Pagination.jsx:10-11 | on a page holding items, 1 ≤ start ≤ end ≤ total and the range spans at most one page |
| Pagination.RenderedBar | src/components/ui/Pagination.jsx:40-90 | the bar renders exactly when there are 2 pages or more; Previous is disabled exactly on page 1 and Next exactly on the last page, so an enabled button stays in range; the info line appears exactly when requested |
| RestaurantSearch.FilterByName | src/context/RestaurantContext.jsx:72-74 | the restaurants whose lower-cased name contains the term, as an order-preserving subsequence |
| RestaurantSearch.FilterByNameCounts | src/context/RestaurantContext.jsx:72-74 | every matching restaurant is kept as often as it was fetched and every other one is dropped, which with the subsequence property pins the result to the `filter` |
| RestaurantSearch.EmptyTermKeepsAll | src/context/RestaurantContext.jsx:68-69 | an empty term keeps the whole list |
| RestaurantSearch.SearchKeepsMatches | src/context/RestaurantContext.jsx:70-75 | a non-empty term keeps exactly the restaurants whose lower-cased name contains the lower-cased term, each as often as fetched and in the fetched order, and drops the rest |
| RestaurantSearch.SearchIsSubsequence | src/context/RestaurantContext.jsx:72 | the filtered list is always a subsequence of the fetched one |
| RestaurantSearch.SearchIgnoresCase | src/context/RestaurantContext.jsx:71-73 | terms equal up to letter case give the same results |
| RestaurantSearch.WhitespaceTermIsNotEmpty | src/context/RestaurantContext.jsx:68 | a one-space term is not treated as empty: it drops a name without a space |
| RestaurantSearch.RestaurantStore.constructor | src/context/RestaurantContext.jsx:29-34 | empty lists, no selection, empty term, not loading, no error |
| RestaurantSearch.RestaurantStore.ApplySearch | src/context/RestaurantContext.jsx:67-77 | the filter effect sets the filtered list to the search over the fetched list and changes nothing else |
| RestaurantSearch.RestaurantStore.FetchRestaurants | src/context/RestaurantContext.jsx:37-50 | success sets the list and clears the error; failure keeps both lists and records the message or 'Failed to fetch restaurants'; loading is off either way |
| RestaurantSearch.RestaurantStore.GetRestaurantById | src/context/RestaurantContext.jsx:52-64 | success selects the restaurant; failure keeps the selection and records the message or the details error; loading is off either way |
| RestaurantSearch.RestaurantStore.SetSearchTerm | src/context/RestaurantContext.jsx:67-77 | a new term re-applies the search over the fetched list |
| FilterBar.ChangeHandlersReplaceOneField | src/components/filters/FilterBar.jsx:22-32 | each handler replaces its own field and keeps the other two; a later change of a field overrides an earlier one; changes of different fields commute |
| FilterBar.ActiveIffSomeDropdownActive | src/components/filters/FilterBar.jsx:34-38 | the bar has active filters exactly when one of its three filter dropdowns is marked active |
| FilterBar.ActiveKindsCount | src/components/filters/FilterBar.jsx:40-46 | each kind of filter that is set adds exactly one kind to the active set |
| FilterBar.GetActiveFiltersCount | src/components/filters/FilterBar.jsx:40-46 | the counter equals the number of kinds set, is at most 3, and is above 0 exactly when filters are active |
| FilterBar.SummaryWording | src/components/filters/FilterBar.jsx:104-116 | the summary appears exactly when a total is given, carries it, and reads "Found" exactly when filters are active |
| FilterBar.FilterBarState.constructor | src/components/filters/FilterBar.jsx:16 | no dropdown is open |
| FilterBar.FilterBarState.HandleDropdownToggle | src/components/filters/FilterBar.jsx:18-20 | after a toggle a dropdown is open exactly when it was the one opened, so opening one closes the others and any close request closes all |
| Dropdown.Draft.constructor | src/components/filters/RatingFilter.jsx:6 | the draft starts at the committed value |
| Dropdown.Draft.Select | src/components/filters/RatingFilter.jsx:20-22 | selecting changes only the draft (the same handler is SortDropdown.jsx:39-41 and AvailabilityFilter.jsx:17-19) |
| Dropdown.Draft.Apply | src/components/filters/RatingFilter.jsx:24-27 | the draft goes to the change callback and a close request to the toggle callback (likewise SortDropdown.jsx:43-46 and AvailabilityFilter.jsx:21-24) |
| Dropdown.Draft.Cancel | src/components/filters/RatingFilter.jsx:29-32 | the draft returns to the committed value, which is untouched; only a close request is emitted (likewise SortDropdown.jsx:48-51 and AvailabilityFilter.jsx:26-29) |
| Dropdown.Draft.ReceiveProp | src/components/filters/RatingFilter.jsx:16-18 | a changed prop resets the draft to it; an unchanged one keeps the draft (likewise SortDropdown.jsx:35-37 and AvailabilityFilter.jsx:13-15) |
| Dropdown.SelectAndApply | src/components/filters/RatingFilter.jsx:20-27 | select then apply, answered by the parent, commits the chosen value to both the committed value and the draft |
| Dropdown.SelectAndCancel | src/components/filters/AvailabilityFilter.jsx:17-29 | any selections followed by cancel leave the committed value as it was and the draft equal to it |
| Dropdown.LabelOf | src/components/filters/RatingFilter.jsx:62-65 | the fallback when no option matches; the first option's label when it matches |
| Dropdown.LabelOfOption | src/components/filters/SortDropdown.jsx:53-56 | with distinct option values, an option's own value shows that option's label |
| IdToggle.Without | src/components/filters/CuisineFilter.jsx:34 | every occurrence of the removed id goes; every other id stays as often as it was there, in the same order |
| IdToggle.ToggleFlipsOne | src/components/filters/CuisineFilter.jsx:31-37 | toggling flips the membership of the toggled id and of no other id |
| IdToggle.ToggleTwiceRestores | src/components/filters/CuisineFilter.jsx:32-36 | toggling an absent id appends it at the end, and toggling it again restores the list |
| IdToggle.ToggleKeepsDistinct | src/components/filters/CuisineFilter.jsx:32-36 | toggling keeps a duplicate-free list duplicate-free |
| CuisineFilter.SelectedCuisines | src/components/filters/CuisineFilter.jsx:54-55 | every fetched cuisine whose id is selected, as often as fetched and in the fetched order, and no other |
| CuisineFilter.SelectedCuisineNames | src/components/filters/CuisineFilter.jsx:53-57 | only names of fetched cuisines whose id is selected, every such name present, as a subsequence of the catalogue's names |
| CuisineFilter.SelectedNamesFollowSelection | src/components/filters/CuisineFilter.jsx:53-57 | the names are those of the selected cuisines one for one, so catalogue order and duplicates are kept |
| CuisineFilter.TitleShowsCount | src/components/filters/CuisineFilter.jsx:61 | the title has a parenthesised count exactly when something is selected, and that count is the number selected |
| CuisineFilter.CuisineFilterPanel.constructor | src/components/filters/CuisineFilter.jsx:7-9 | no cuisines, not loading, the draft at the committed selection |
| CuisineFilter.CuisineFilterPanel.FetchCuisines | src/components/filters/CuisineFilter.jsx:19-29 | success replaces the list, failure keeps it; loading is off afterwards |
| CuisineFilter.CuisineFilterPanel.HandleCuisineToggle | src/components/filters/CuisineFilter.jsx:31-37 | the draft becomes the toggle: the id's membership flips, the others stay, no duplicate appears; the committed selection is kept |
| CuisineFilter.CuisineFilterPanel.HandleApply | src/components/filters/CuisineFilter.jsx:39-42 | the draft goes to `onCuisineChange` and a close request to `onToggle` |
| CuisineFilter.CuisineFilterPanel.HandleClear | src/components/filters/CuisineFilter.jsx:44-46 | the draft empties; the committed selection is kept and the parent is not told |
| CuisineFilter.CuisineFilterPanel.HandleCancel | src/components/filters/CuisineFilter.jsx:48-51 | the draft returns to the committed selection, which is untouched; only a close request is emitted |
| CuisineDropdown.Body | src/components/ui/CuisineFilter.jsx:107-146 | the list shows only when not loading, without an error message and with cuisines, each entry marked exactly when the draft holds its id |
| CuisineDropdown.ButtonLabels | src/components/ui/CuisineFilter.jsx:69-84 | 'Filter by Cuisine' exactly for an empty draft, '1 Cuisine' for one, 'n Cuisines' from two |
| CuisineDropdown.CuisineDropdownState.constructor | src/components/ui/CuisineFilter.jsx:7-11 | closed, no cuisines, not loading, no error, the draft at the prop |
| CuisineDropdown.CuisineDropdownState.FetchCuisines | src/components/ui/CuisineFilter.jsx:15-31 | success replaces the list and clears the error; failure records the message; loading is off afterwards |
| CuisineDropdown.CuisineDropdownState.ReceiveProp | src/components/ui/CuisineFilter.jsx:46-48 | a changed prop resets the draft to it; an unchanged one keeps the draft |
| CuisineDropdown.CuisineDropdownState.ToggleCuisine | src/components/ui/CuisineFilter.jsx:50-56 | the draft becomes the toggle: the id's membership flips and no duplicate appears; nothing else changes |
| CuisineDropdown.CuisineDropdownState.HandleApplyFilter | src/components/ui/CuisineFilter.jsx:58-61 | the draft is reported to the parent and the panel closes |
| CuisineDropdown.CuisineDropdownState.HandleClearFilter | src/components/ui/CuisineFilter.jsx:63-67 | the draft empties, the empty list is reported at once and the panel closes |
| CuisineDropdown.CuisineDropdownState.ToggleOpen | src/components/ui/CuisineFilter.jsx:75 | the button flips the panel open or closed |
| CuisineDropdown.CuisineDropdownState.Close | src/components/ui/CuisineFilter.jsx:96-101 | the header button closes the panel and keeps the unapplied draft |
| CuisineDropdown.CuisineDropdownState.MouseDown | src/components/ui/CuisineFilter.jsx:34-43 | a press outside closes the panel, one inside keeps it |
| CuisineDropdown.ClearAndAdopt | src/components/ui/CuisineFilter.jsx:46-67 | clear answered by the parent leaves both selections empty, the count 0 and the panel closed |
| RatingFilter.RatingLabels | src/components/filters/RatingFilter.jsx:8-14 | each option value shows its label; any other rating shows 'Any Rating' |
| RatingFilter.RenderStars | src/components/filters/RatingFilter.jsx:34-60 | five icons: full below the whole part, half at the whole part exactly for a half rating, empty after; together they show the rating capped at five stars |
| SortDropdown.SortLabels | src/components/filters/SortDropdown.jsx:8-33 | each order shows its label; any other value shows 'Name (A-Z)' |
| SortDropdown.UnknownSortLooksDefaultButActive | src/components/filters/SortDropdown.jsx:68 | only 'name-asc' is inactive, yet an unknown value shows the default's label while marked active |
| AvailabilityFilter.AvailabilityLabels | src/components/filters/AvailabilityFilter.jsx:7-11 | 'All Restaurants', 'Open Now' and 'Closed' for no choice, open and closed |
| AvailabilityFilter.StatusIconsDistinct | src/components/filters/AvailabilityFilter.jsx:36-39 | the three statuses have three different icons |
| RatingCard.StarRowShape | src/components/ui/RatingCard.jsx:61-67 | the five-star row is `rating` filled stars followed by empty ones, and all filled from 5 up |
| RatingCard.RatingCardState.constructor | src/components/ui/RatingCard.jsx:6-18 | rating and comment come from the props, and the card counts as submitted exactly when either is set |
| RatingCard.RatingCardState.SyncFromProps | src/components/ui/RatingCard.jsx:10-18 | the same on new props |
| RatingCard.RatingCardState.HandleStarClick | src/components/ui/RatingCard.jsx:20-24 | the rating changes only while neither submitted nor submitting |
| RatingCard.RatingCardState.HandleCommentChange | src/components/ui/RatingCard.jsx:88-89 | comment edits are ignored while submitted or submitting |
| RatingCard.RatingCardState.HandleSubmit | src/components/ui/RatingCard.jsx:26-34 | the callback is called, with the card's values, exactly when there is a star or a comment not all white space, the card is not submitted and nothing is submitting; no field changes |
| RatingCard.SubmitGuardMatchesButton | src/components/ui/RatingCard.jsx:96 | the button is enabled exactly when the submit guard, minus the submitted flag, holds |
| RatingCard.ViewMatchesHandlers | src/components/ui/RatingCard.jsx:37-118 | the spinner shows exactly while submitting; otherwise the star row is drawn, stars and comment take input exactly when their handlers accept it, the submit button shows exactly until submitted (the thank-you line replaces it, below the still-drawn stars and comment) and is enabled exactly when `handleSubmit` would call the parent |
| Orders.MergeRatingTargetsOneOrder | src/context/OrderContext.jsx:65-74 | only a selected order with the rated id changes, and only its rating and comment; merging is idempotent and the later rating wins |
| Orders.OrderStore.constructor | src/context/OrderContext.jsx:22-25 | no orders, no selection, nothing loading |
| Orders.OrderStore.FetchOrders | src/context/OrderContext.jsx:29-42 | without a user id nothing changes, the alert provider included; otherwise success stores the list and leaves the alert provider as it was, and failure empties the list and shows the message or 'Failed to fetch orders.' as an error alert, with the show count and pending timer as `ShowAlert` leaves them; loading is off |
| Orders.OrderStore.FetchOrderDetails | src/context/OrderContext.jsx:44-56 | success selects and returns the order and leaves the alert provider as it was; failure clears the selection and shows an error alert, with the show count and pending timer as `ShowAlert` leaves them; detail loading is off |
| Orders.OrderStore.ClearSelectedOrder | src/context/OrderContext.jsx:58-60 | the selection is cleared and nothing else changes |
| Orders.OrderStore.SubmitOrderRating | src/context/OrderContext.jsx:62-80 | success merges the rating into the selection and leaves the alert provider as it was; failure shows an error alert, with the show count and pending timer as `ShowAlert` leaves them, hands back the failure and keeps the selection |
| Alerts.ShowReplacesRecord | src/context/AlertContext.jsx:19-27 | a shown alert is visible with the message and defaults 'info', '' and 5000 |
| Alerts.HideKeepsRestAndIsIdempotent | src/context/AlertContext.jsx:29-31 | hiding clears the message and visibility, keeps description, type and duration, and is idempotent |
| Alerts.FreshShowSchedulesTimer | src/context/AlertContext.jsx:34-58 | an alert whose visibility or duration differs from the one on screen renders with duration 0 and gets a new timer of its full duration when that is positive, else none |
| Alerts.SameDurationReshowKeepsTimer | src/context/AlertContext.jsx:34-41 | an alert shown while one of the same duration is visible does not re-run the effect: the earlier alert's timer stays pending |
| Alerts.BackToBackAlertsShareOneTimer | src/context/AlertContext.jsx:19-41 | two default-duration alerts in a row: the second is on screen under the first one's 5000 ms timer, so it is hidden early |
| Alerts.HideCancelsTimer | src/context/AlertContext.jsx:29-41 | hiding a visible alert renders nothing and leaves no timer; the initial record renders nothing |
| Alerts.AlertProvider.constructor | src/context/AlertContext.jsx:11-17 | invisible, message '', type 'info', duration 5000, no timer pending |
| Alerts.AlertProvider.ShowAlert | src/context/AlertContext.jsx:19-41 | the record becomes the shown alert; the pending timer is replaced only when visibility or duration changed; a timer is pending exactly while a visible alert has a positive duration |
| Alerts.AlertProvider.HideAlert | src/context/AlertContext.jsx:29-41 | the record becomes the hidden one; nothing renders and no timer is pending |
| Auth.Split | src/context/AuthContext.jsx:18 | at least one part and no part contains the separator |
| Auth.JoinSplit | src/context/AuthContext.jsx:18 | joining the parts with the separator gives the token back |
| Auth.PayloadSegment | src/context/AuthContext.jsx:18 | the whole token, or a non-empty part without a dot |
| Auth.PayloadOfCompactToken | src/context/AuthContext.jsx:18 | in header.payload.signature the payload is selected; a dot-free token is taken whole |
| Auth.Base64UrlToBase64 | src/context/AuthContext.jsx:19 | same length, '-' becomes '+', '_' becomes '/', all else kept |
| Auth.UrlAlphabetToStandard | src/context/AuthContext.jsx:19 | base64url text becomes base64 text with no '-' or '_', and mapping back restores it |
| Auth.AuthSession.constructor | src/context/AuthContext.jsx:31-34 | no user, not authenticated, loading, no error |
| Auth.AuthSession.CheckStoredToken | src/context/AuthContext.jsx:36-50 | a stored token decoding to a user with name and email signs in; any other token is removed and the session signed out; no token changes nothing; loading ends in every case |
| Auth.AuthSession.HandleLogin | src/context/AuthContext.jsx:52-79 | login, and signup alike: success stores the token and signs the user in; failure records the message or 'Login failed', hands back the failure and keeps the session |
| Auth.AuthSession.HandleLogout | src/context/AuthContext.jsx:81-85 | the token is removed, the user cleared and the session unauthenticated |
| Auth.AuthSession.ClearError | src/context/AuthContext.jsx:95 | only the error is cleared |
| Auth.LogoutThenRestart | src/context/AuthContext.jsx:36-101 | after logout the startup check keeps the session signed out and lets the children render |
| Formatters.FormatOrderId | src/utils/formatters.js:2-5 | '' for a missing id; otherwise "ORD-" and the upper-cased first min(8, length) characters |
| Formatters.FormattedIdBounds | src/utils/formatters.js:4 | at most 12 characters and no lower-case letter |
| Formatters.SameDisplayForSamePrefix | src/utils/formatters.js:4 | ids agreeing on eight characters up to case format the same |
| Formatters.NotInjective | src/utils/formatters.js:4 | two different ids show the same |
| Formatters.FormattingTwiceDoublesPrefix | src/utils/formatters.js:4 | formatting twice gives "ORD-ORD-…", which differs from the first result unless the id starts with an O |
| Formatters.PrefixedIdIsFixedPoint | src/utils/formatters.js:4 | "ORD-ORD-ORD-" formats to itself |

## Left out

- Services (`fetch`, axios) and `localStorage`. Their results are `Outcome` parameters, and the stored token is a field.
- `console.error` logging. The browser `alert` calls of the cart appear only as the returned `AddNotice`.
- Timers. There is no clock: a pending auto-hide timer is recorded by its delay and the `showAlert` call after which it was scheduled (`Alerts.Timer`). Its firing is `HideAlert`, and how much of its delay has run is not modelled.
- `atob`, `decodeURIComponent` and `JSON.parse` in `decodeJwt`. They are the `decode` parameter, and `None` stands for its `null`.
- Click-outside listeners:
  - `src/components/filters/FilterDropdown.jsx` is not part of this model. Its close request is just `HandleDropdownToggle(name, false)`.
  - The ui cuisine dropdown's listener is `MouseDown(inside)`.
- React effects compare their dependencies by reference. The resync methods (`ReceiveProp`) compare by value. The default `selectedCuisines = []` of the ui cuisine dropdown (src/components/ui/CuisineFilter.jsx:6) is a fresh array on every render. When the parent passes no selection, the resync effect (:46-48) therefore runs after every render and resets the draft to `[]`, so a toggled cuisine is lost at the next render. The model resyncs only when the prop's value changes, so there a toggle survives.
- Floating point:
  - Prices are integer cents, so `parseFloat` is not modelled.
  - Filter ratings are half-star counts, so a rating such as 4.2 cannot be expressed.
- `formatCurrency` and `formatDate`, which depend on `Intl` and `Date`.
- The three `use…` context-misuse guards, JSX layout, icons and CSS classes. The exception is the facts stated above: labels, disabled flags and the rendered-or-not rules.
- `setSelectedRestaurant`, exposed raw by the restaurant provider. It is a plain field write.
- Text handling:
  - `Text.Lower`/`Text.Upper` map ASCII letters only. JavaScript maps all of Unicode, where some letters change length.
  - `Text.Trim` strips the white space and line terminators of ECMAScript.
  - Formatters.FormatOrderId: counts characters, where `substring(0, 8)` counts UTF-16 code units. The two differ for ids holding characters outside the Basic Multilingual Plane.
- Numeric `0` as a falsy id is not modelled. Ids are strings, and only "" is falsy.
- Order fields the provider never touches are reduced to `status` and `totalCents`.
- Pagination.GetPageNumbers: the entries are typed `Page(n) | Gap`, where the source mixes numbers and the string '...'.
- The star icons drawn beside each rating option are not modelled apart from `RatingFilter.RenderStars` itself.
- Cart.RemoveTotals: requires every quantity to be at least 1. Every cart the store can reach satisfies this, by the invariant.
- Formatters.FormattingTwiceDoublesPrefix: proves a second formatting changes the id only for ids not starting with an O. An id that already reads "ORD-ORD-…" is a fixed point, as Formatters.PrefixedIdIsFixedPoint shows.
