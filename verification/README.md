# dealer-locator, modelled in Dafny

The dealer locator is a React widget that shows a search box, a list of
dealers, a Google map and a details panel for the selected dealer. This
project models the logic behind it and proves properties of that logic:

- `createMapBounds` builds the box, centred on the map centre, that has a
  given point on one of its corners (module `Geometry`).
- The dealer list splits dealers into those inside the current viewport and
  the rest. It sorts both groups by distance from the map centre and
  renders one card per dealer (module `DealerListing`).
- The orchestrating `DealerLocator` component holds the state, handles
  selections and bounds changes, and tells the map where to go (module
  `Locator`). Calls on the map object are recorded in an effect log:
  `SetZoom`, `PanTo`, `FitBounds` and `PanToBounds`.
- The details panel builds a Google Maps directions link and formats the
  address and phone lines (module `DealerDetails`).

Supporting modules:

- `JsValues` gives the JavaScript values a dealer record holds. It also
  gives their truthiness and their text in a template literal or in JSX.
- `Lodash` covers `_.filter`, the stable `_.sortBy`, `_.clamp` and
  `toNumber`.
- `Dealers` gives the dealer record and the planar distance.
- `UriEncoding` gives `encodeURI` as ECMA-262 defines it, with a decoder
  that inverts it.

Notes on the model:

- `isLocationWithinBoundary` (src/dealer-list.js:19-32) has no antimeridian
  case: a viewport whose east edge is at or west of its west edge contains
  nothing (`NoWraparound`).
- Distances are compared squared, because exact reals have no square root.
  Square root is strictly increasing, so the sort order and the 0.02
  threshold (0.0004 when squared) decide the same way.
- Before the first bounds change the stored zoom is `null`. `_.get`
  returns that `null` rather than its default of 14, and lodash's `clamp`
  converts it to 0, so selecting a dealer then zooms to 10.
- `goToMapLocation` without a zoom and with no dealers reads a property of
  `undefined` and throws. This is the `Threw` outcome, and no map call is
  made.
- The `isDealerFilterSelected` flag is kept and toggled. `DealerList` does
  not read the `filterOnlineDealers` prop it is passed, so the flag never
  changes the list.
- `DealerList` also ignores the `dealerCardComponent` prop, so the default
  card is always rendered.
- `encodeURI` leaves `&`, `#`, `=` and `+` unescaped
  (`EncodeURIKeepsUnescaped`). A field holding `&`, such as a dealer named
  "Smith & Sons", therefore puts a raw `&` inside `destination=…`, and a
  query parser ends the destination there. The model keeps this behaviour.
- With no dealer selected, `dealersWithSelectedFlag` compares each id with
  `undefined`. Dealers without an id are then flagged as selected
  (`NoSelectionFlagsDealersWithoutId`).
- When the nearest dealer shares the location's latitude or longitude and is
  at least 0.02 away, `createMapBounds` returns `{}`. That empty object is
  what `fitBounds` and `panToBounds` receive (`FittedBounds`).

## Model

| member | source | states |
|---|---|---|
| JsValues.TemplateText | src/dealer-details.js:46-48 | `${v}` gives a string as it is and a non-empty word ("undefined", "null", "true", "false") for any other value |
| JsValues.JsxText | src/dealer-list.js:36-42 | JSX renders text only for strings (never for `true`, unlike `${v}`); for non-boolean values it renders something exactly when the value is truthy |
| JsValues.Truthy | src/dealer-details.js:18 | the falsy values are exactly `undefined`, `null`, `""` and `false` |
| JsValues.OrEmptyText | src/dealer-details.js:18 | a field joined into the query contributes the empty string exactly when it is falsy, and `String(v)` otherwise |
| Geometry.SymmetricBox | src/utils.js:1-44 | reference box: it exists exactly when the point differs from the centre on both axes; it is centred on the centre, has positive extent, and has the point on a corner |
| Geometry.CreateMapBounds | src/utils.js:1-44 | the four sequential quadrant branches yield exactly the reference box's four edges, or `{}` |
| Geometry.AllOrNothing | src/utils.js:7-43 | the result is `{}` exactly when the point ties the centre on an axis; otherwise all four edges are set |
| Geometry.QuadrantCorners | src/utils.js:8-42 | for each quadrant, the corner the point is pinned to and the reflected opposite edges |
| Geometry.ReflectionInvariant | src/utils.js:1-44 | the point and its reflection through the centre give the same bounds |
| Geometry.ContainsCloserPoints | src/utils.js:1-44 | a point lies strictly inside the box exactly when it is strictly closer to the centre than the given point on both axes |
| Geometry.NoWrapping | src/utils.js:22-23 | longitudes are not wrapped: centre 170 with a south-west point at 100 gives east edge 240 |
| Lodash.Filter | src/dealer-list.js:55-62 | `_.filter` returns no more elements than it is given, and each one satisfies the predicate |
| Lodash.FilterMembers | src/dealer-list.js:55-62 | an element is in the filtered list exactly when it is in the input and satisfies the predicate |
| Lodash.FilterPartition | src/dealer-list.js:55-62 | filtering on a predicate and on its negation splits the input multiset exactly |
| Lodash.FilterNone | src/dealer-list.js:55-57 | a predicate that holds of nothing keeps nothing |
| Lodash.FilterAll | src/dealer-list.js:59-62 | a predicate that holds of everything keeps the whole input |
| Lodash.SortBy | src/dealer-list.js:71 | `_.sortBy` returns a permutation of its input |
| Lodash.SortByIsSorted | src/dealer-list.js:71-75 | the result is in ascending key order |
| Lodash.SortByIsStable | src/dealer-list.js:71-75 | elements with equal keys keep their input order |
| Lodash.SortByFilterKeeps | src/dealer-list.js:55-75 | sorting a filtered list keeps only elements the filter accepts |
| Lodash.FirstMinIndex | src/index.js:107-116 | reference for the head of a sort: the first index, in input order, holding the least key |
| Lodash.SortByHead | src/index.js:107-116 | the head of `_.sortBy` is the input element at that first least index |
| Lodash.Clamp | src/index.js:71-75 | the result lies in [lower, upper], equals the number when it is already in range, and is the nearer bound otherwise |
| Lodash.ToNumber | src/index.js:72 | `null` converts to 0 and a number to itself |
| Dealers.Prop | src/dealer-details.js:18 | a property the record lacks reads as `undefined` |
| Dealers.DistanceSquared | src/dealer-list.js:8-17 | the distance is never negative and is zero exactly at the same point |
| Dealers.DistanceTo | src/dealer-list.js:8-17 | the curried sort key is never negative, is zero exactly for a dealer at the centre, and depends only on the dealer's location |
| DealerListing.IsLocationWithinBoundary | src/dealer-list.js:19-32 | no boundary contains nothing; otherwise the location is contained exactly when it lies strictly inside the box on both axes |
| DealerListing.NoWraparound | src/dealer-list.js:23-31 | a viewport whose east edge is not east of its west edge, or whose north edge is not north of its south edge, contains no location |
| DealerListing.WithinMonotone | src/dealer-list.js:23-31 | enlarging the viewport keeps every contained location |
| DealerListing.BoundsCornerNotContained | src/dealer-list.js:23-31 | the box from `createMapBounds` contains its centre but not the point it was built around |
| DealerListing.OnMap | src/dealer-list.js:55-57 | the viewport test depends only on the dealer's location, and no dealer passes it before a boundary is known |
| DealerListing.OffMap | src/dealer-list.js:59-62 | the second filter accepts exactly the dealers the first rejects |
| DealerListing.AddressSeparator | src/dealer-list.js:39-41 | the separator is ", " or " "; for string or absent fields it is ", " exactly when both address halves render text |
| DealerListing.DealerCard | src/dealer-list.js:34-45 | the card carries the dealer and the key it was given |
| DealerListing.CardAddressComma | src/dealer-list.js:37-43 | with comma-free string fields, the address line holds a comma exactly when both halves show text |
| DealerListing.Cards | src/dealer-list.js:66-67 | one card per dealer, in order, keyed by its position |
| DealerListing.CardDealers | src/dealer-list.js:35 | the dealers behind the cards, in order |
| DealerListing.CardsRoundTrip | src/dealer-list.js:66-75 | the cards' dealers are exactly the dealers the cards were built from |
| DealerListing.SortedOnMap | src/dealer-list.js:71 | the emphasized dealers are a reordering of the dealers inside the viewport, in ascending distance from the map centre |
| DealerListing.SortedOffMap | src/dealer-list.js:75 | the plain dealers are a reordering of the dealers outside the viewport, in ascending distance from the map centre |
| DealerListing.DealerList | src/dealer-list.js:47-79 | the border shows exactly when the emphasized list is non-empty; keys are positions; emphasized dealers are inside the viewport and plain ones are not |
| DealerListing.DealerListPartition | src/dealer-list.js:55-75 | every dealer appears in exactly one of the two lists, as often as in the input |
| DealerListing.DealerListSorted | src/dealer-list.js:64-75 | both lists are in ascending distance from the map centre |
| DealerListing.DealerListStable | src/dealer-list.js:64-75 | dealers at equal distance keep their input order within each list |
| DealerListing.NullBoundaryListsEverythingPlainly | src/dealer-list.js:19-22 | with no viewport yet, nothing is emphasized, no border shows, and all dealers are listed plainly, sorted |
| UriEncoding.PercentBytes | src/dealer-details.js:17-19 | three characters per byte, all drawn from the encoded alphabet |
| UriEncoding.EncodeURI | src/dealer-details.js:17-19 | the output is at least as long as the input and uses only unescaped characters and '%' |
| UriEncoding.EncodeURIAppend | src/dealer-details.js:17-19 | encoding works character by character: it distributes over concatenation |
| UriEncoding.EncodeURIKeepsUnescaped | src/dealer-details.js:17-19 | a string of unescaped characters is left unchanged |
| UriEncoding.EncodeSpace | src/dealer-details.js:17-19 | a space is encoded as "%20" |
| UriEncoding.DecodeEncodeChar | src/dealer-details.js:17-19 | decoding one encoded character gives it back and continues with the rest |
| UriEncoding.DecodeEncodeURI | src/dealer-details.js:17-19 | decoding inverts `encodeURI` |
| UriEncoding.EncodeURIInjective | src/dealer-details.js:17-19 | different strings have different encodings |
| DealerDetails.QueryPart | src/dealer-details.js:18 | each field contributes the empty string exactly when it is falsy, and its string otherwise |
| DealerDetails.Join | src/dealer-details.js:18 | `.join(sep)` of no parts is empty; otherwise the result starts with the first part and ends with the last |
| DealerDetails.DirectionsQuery | src/dealer-details.js:9-18 | the query is the five parts, for addr, name, city, state and country, joined by single spaces |
| DealerDetails.CreateDealerDirectionsURL | src/dealer-details.js:8-21 | the link starts with the fixed Google Maps prefix, and the rest decodes back to the query |
| DealerDetails.DirectionsQuerySpaces | src/dealer-details.js:17-19 | the query holds exactly four separator spaces plus those inside the field values |
| DealerDetails.EmptyDealerDirections | src/dealer-details.js:17-20 | a dealer with no truthy query field gets four spaces, encoded as "%20%20%20%20" after the prefix |
| DealerDetails.DirectionsURLDeterminesQuery | src/dealer-details.js:17-20 | two dealers get the same link exactly when their queries agree |
| DealerDetails.DirectionsIgnoreAddr1 | src/dealer-details.js:9-15 | the query reads `addr`, so changing the `addr1` street shown in the panel never changes the link |
| DealerDetails.CityLine | src/dealer-details.js:46-48 | the city/state line begins with the city's text and a space, and ends with a space and the country's text |
| DealerDetails.CityLineComma | src/dealer-details.js:46-48 | with comma-free field texts, the city/state line holds a comma exactly when the city is truthy |
| DealerDetails.CityLineWithoutCity | src/dealer-details.js:46 | a record without a city shows "undefined  " at the start of the line |
| DealerDetails.PhoneLinkOf | src/dealer-details.js:53-60 | the phone link is present exactly when the phone is truthy; its href is "tel:" followed by the number, and its text after the icon is a space followed by the number |
| DealerDetails.DealerDetailsView | src/dealer-details.js:31-84 | no dealer renders an empty element; otherwise phone and website appear exactly when truthy, and the directions link is the dealer's |
| Locator.CalculateDistanceSquared | src/index.js:155-157 | the orchestrator's distance is the list's distance between the two points |
| Locator.CalculateDistanceSymmetric | src/index.js:155-157 | swapping the two latitudes, or the two longitudes, leaves the distance unchanged |
| Locator.CalculateDistanceZero | src/index.js:155-157 | the distance is never negative and is zero exactly when both coordinates agree |
| Locator.ZoomIsTruthy | src/index.js:100 | `if (zoom)` fails exactly for an absent zoom and for zoom 0 |
| Locator.Nearest | src/index.js:107-116 | the nearest dealer is one of the dealers |
| Locator.NearestIsFirstClosest | src/index.js:107-116 | the nearest dealer is the first in input order at the least distance; no dealer is closer and every earlier one is strictly farther |
| Locator.Navigation | src/index.js:94-138 | it throws exactly when there is neither a zoom nor a dealer; otherwise it makes exactly two map calls |
| Locator.NavigationShape | src/index.js:100-137 | a successful call makes a truthy zoom then a pan to the location, or a fit then a pan to the same bounds |
| Locator.NavigationWithZoom | src/index.js:100-104 | with a zoom, the map zooms to it and pans to the location |
| Locator.NavigationWithoutZoom | src/index.js:106-137 | without a zoom, the map zooms to 14 exactly when some dealer is within 0.02 degrees, and otherwise fits `createMapBounds` around the nearest dealer |
| Locator.FittedBounds | src/index.js:132-137 | fitted bounds are `{}` exactly when the nearest dealer ties an axis; otherwise they contain the location and have the nearest dealer on a corner |
| Locator.NavigationThrowsWithoutDealers | src/index.js:107-123 | without a zoom or dealers, the call throws before any map call |
| Locator.SelectionZoom | src/index.js:71-75 | the selection zoom lies in [10, 20] and is truthy; a null zoom gives 10 and an in-range zoom is kept |
| Locator.SelectedId | src/index.js:87 | `undefined` without a selection, else the selected dealer's id |
| Locator.Flagged | src/index.js:85-88 | the copy keeps the location and every property except `selected`, which says whether the id equals the selected id |
| Locator.WithSelectedFlag | src/index.js:84-89 | same length and order, same locations and other properties; `selected` is true exactly when the id equals the selected id |
| Locator.SelectedFlagUnique | src/index.js:84-89 | with distinct ids, selecting a listed dealer flags exactly that dealer |
| Locator.NoSelectionFlagsDealersWithoutId | src/index.js:84-89 | with nothing selected, exactly the dealers without an id are flagged |
| Locator.FlagKeepsViewportMembership | src/index.js:193-198 | the viewport list of the flagged dealers is the flagged viewport list: the same dealers, in the same order |
| Locator.DealerLocator.constructor | src/index.js:21-33 | starts at the default location with no boundary, no zoom, no selection, the filter off and no map |
| Locator.DealerLocator.OnMapReady | src/index.js:35-38 | the map becomes available; nothing else changes |
| Locator.DealerLocator.OnBoundsChanged | src/index.js:40-62 | overwrites exactly the boundary, centre and zoom with what the map reports |
| Locator.DealerLocator.GoToMapLocation | src/index.js:94-138 | with no map, no effect and a not-ready outcome; otherwise it appends exactly `Navigation`'s calls, or throws having made none |
| Locator.DealerLocator.OnDealerSelected | src/index.js:64-82 | selects the dealer; on a ready map it appends a zoom to the clamped current zoom and a pan to the dealer |
| Locator.DealerLocator.ClearSelectedDealer | src/index.js:159-161 | clears the selection; nothing else changes |
| Locator.DealerLocator.OnlineFilterIsSelected | src/index.js:163-167 | negates the filter flag; nothing else changes |
| Locator.DealerLocator.DealersWithSelectedFlag | src/index.js:84-89 | one flagged dealer per dealer in the props |
| Locator.DealerLocator.Render | src/index.js:169-226 | the details panel is visible, and non-empty, exactly when a dealer is selected; the border follows the emphasized list |
| Locator.ToggleOnlineFilterTwice | src/index.js:163-167 | toggling the filter twice restores the whole state |
| Locator.SelectOnReadyMap | src/index.js:71-76 | selecting on a ready map appends a zoom in [10, 20] and a pan to the dealer, never a fit |

## Left out

- React rendering, styled-components styling, the theme, the grid layout
  and the Font Awesome icons are not modelled. The list and the panel are modelled as values that
  carry the text they show.
- `dealerDetailsComponent` is a host-supplied replacement for the details
  panel. Only the default panel is modelled.
- The Google Maps and Places SDK are not modelled. The map's readings
  (corners, centre, zoom) are parameters of `OnBoundsChanged`. Map calls
  are entries in the effect log, and `onMapReady` only marks the map as
  available. The Places service it creates is not modelled.
- `goToSearchLocation` (src/index.js:140-153) is left out. It runs in the
  asynchronous callback of a Places query.
- ReactGA analytics events are left out (src/index.js:77-81,
  src/dealer-details.js:23-29). This includes the event that the website
  button's `onClick` fires while rendering (src/dealer-details.js:76).
- The DOM scroll reset `dealerListAreaRef.current.scrollTop = 0`
  (src/index.js:69) is left out.
- The `console.error` message is left out. Only the `MapNotReady` outcome
  is kept.
- `setState` batching is not modelled. Updates apply at once, which is
  safe here because no handler reads back a field it has just set.
- Floating point is not modelled: coordinates and zooms are exact reals.
  `Math.sqrt`, rounding and NaN are out of scope, and distances are compared
  squared.
- Dealer fields that hold numbers (a numeric zip or phone, say) are not
  modelled. Property values are strings, booleans, `null` or `undefined`.
- Changes to the `dealers` prop after construction are not modelled.
- JavaScript strings are UTF-16 code units, while Dafny characters are
  Unicode scalar values. So `encodeURI`'s `URIError` for a lone surrogate
  cannot arise in the model.
- src/dealer-map.js, src/dealer-search.js, src/autocomplete.js, src/theme.js
  and the build configuration are not part of this model.
