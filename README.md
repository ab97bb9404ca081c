# MapView: a verified model of the map widget's state and search

The widget shows eight fixed points of interest on a pannable, zoomable map,
with a search box over them and a detail card for the selected one. This
project models its logic in Dafny:

- `places.dfy` (module `Places`): the dataset and the two category tables
  (icon and colour gradient), with the proof that every category the dataset
  uses has an entry in both tables and that the tables list no other category.
- `search.dfy` (module `Search`): lower-casing, JavaScript's `includes` as a
  recursive predicate proved equal to "occurs at some index", the
  case-insensitive filter on name or category, and when the results panel is
  shown.
- `search_examples.dfy` (module `SearchExamples`): the filter on the real
  dataset for the queries "Парк", "food" and "zzz".
- `viewport.dfy` (module `Viewport`): the view state as a value. `Step` gives
  the effect of one event handler and `Run` the effect of a sequence of
  events. The lemmas cover the zoom clamp, the drag state machine
  (idle → dragging → idle), selection and re-centring, and which events can
  change which part of the state.
- `map_view.dfy` (module `MapViewComponent`): class `MapView`. It has one field
  per state variable of the component and one method per event handler. Each
  method is specified by `Step`. Each keeps the zoom in [3, 18] and keeps the
  selection a location of the dataset, which is where every list the widget
  renders takes its locations from. A client method shows what follows from
  those specifications alone.

Pointer and offset coordinates are integers. A coordinate pair (`LatLng`) is
only ever copied, so it is a pair of reals that nothing computes on. React
re-renders between two events, so every handler sees the state left by the
one before it. This is why `Run` applies events strictly in order.

An empty query does not filter everything out. The filter keeps every
location on an empty query (`Search.EmptyQueryKeepsAll`). The results panel
is still hidden, because its guard also tests the query
(`Search.EmptyQueryHidesPanel`).

## Model

| member | source | states |
|---|---|---|
| Places.Locations | src/components/MapView.tsx:16-25 | the fixed dataset has eight locations, in display order |
| Places.IdsDistinct | src/components/MapView.tsx:16-25 | the ids that key the rendered lists are pairwise distinct, so no location occurs twice in the dataset |
| Places.CategoryIcons | src/components/MapView.tsx:27-35 | the icon table has an entry for exactly the seven categories |
| Places.CategoryColors | src/components/MapView.tsx:37-45 | the colour table has an entry for exactly the seven categories |
| Places.UsedCategoriesListed | src/components/MapView.tsx:16-45 | every category a location uses is one the tables list |
| Places.ListedCategoriesUsed | src/components/MapView.tsx:16-45 | every category the tables list is used by some location |
| Places.CategoryTablesCoverDataset | src/components/MapView.tsx:16-45 | the categories used by the dataset, the icon table's keys and the colour table's keys are the same set |
| Places.IconOf | src/components/MapView.tsx:129 | an icon lookup of a category string finds an entry exactly when the category is one of the seven table keys, and then yields that key's icon |
| Places.ColorOf | src/components/MapView.tsx:128 | a colour lookup of a category string finds an entry exactly when the category is one of the seven table keys, and then yields that key's gradient |
| Places.DatasetLookupsNeverMiss | src/components/MapView.tsx:199-200 | neither lookup misses for a location of the dataset, as at the markers (lines 199-200) and the search results (lines 128-129) |
| Places.NoZInNames | src/components/MapView.tsx:16-25 | none of the eight name strings contains "z" or "Z" |
| Places.NamesHaveNoZ | src/components/MapView.tsx:16-25 | no location's name contains "z" or "Z" |
| Places.CategoriesHaveNoZ | src/components/MapView.tsx:16-25 | no location's category contains "z" or "Z" |
| Search.LowerChar | src/components/MapView.tsx:58-59 | Latin and Cyrillic capitals map to their small letters, other characters are unchanged |
| Search.LowerCharIdempotent | src/components/MapView.tsx:58-59 | lower-casing a lower-cased character changes nothing |
| Search.ToLower | src/components/MapView.tsx:58-59 | lower-casing keeps the length and lowers each character in place |
| Search.ToLowerIdempotent | src/components/MapView.tsx:58-59 | lower-casing twice equals lower-casing once |
| Search.Includes | src/components/MapView.tsx:58-59 | `includes` as a recursive test on suffixes; a string includes only queries no longer than itself |
| Search.OccursAtIncludes | src/components/MapView.tsx:58-59 | an occurrence of the query at any index makes `includes` true |
| Search.IncludesIffOccurs | src/components/MapView.tsx:58-59 | `includes` holds if and only if the query occurs at some index |
| Search.IncludesEmpty | src/components/MapView.tsx:58-59 | every string includes the empty string |
| Search.NotIncludedWithoutFirstChar | src/components/MapView.tsx:58-59 | a query whose first character is absent from the text is not included |
| Search.Matches | src/components/MapView.tsx:57-60 | the filter callback: the lower-cased name or category includes the lower-cased query; the empty query matches every location; a match is never longer than the field it matches in |
| Search.MatchesIgnoresQueryCase | src/components/MapView.tsx:57-60 | a query matches exactly when its lower-cased form does |
| Search.Filter | src/components/MapView.tsx:57-60 | the result is an order-preserving subsequence of the input; a location is in it if and only if it is in the input and its lower-cased name or category contains the lower-cased query; it keeps everything exactly when everything matches |
| Search.FilterCounts | src/components/MapView.tsx:57-60 | the filter keeps each matching location exactly as often as the input holds it and no other location: its multiset is the input's multiset restricted to the matches |
| Search.EmptyQueryKeepsAll | src/components/MapView.tsx:57-60 | the empty query keeps every location |
| Search.ResultsPanelShown | src/components/MapView.tsx:117 | the panel guard `searchQuery && filteredLocations.length > 0`; when it holds the query is non-empty and some dataset location matches it |
| Search.ResultsPanelShownIff | src/components/MapView.tsx:117 | the results panel is shown if and only if the query is non-empty and some location of the dataset matches it |
| Search.EmptyQueryHidesPanel | src/components/MapView.tsx:117 | with the empty query the panel is hidden even though the filter keeps every location |
| Search.NoMatchFindsNothing | src/components/MapView.tsx:57-60 | a query no location matches yields the empty result |
| SearchExamples.CityParkMatchesPark | src/components/MapView.tsx:57-60 | the lower-cased name "городской парк" includes "парк", so "парк" matches the city park by its name |
| SearchExamples.ParkSpellings | src/components/MapView.tsx:58-59 | "Парк" and "ПАРК" both lower-case to "парк" |
| SearchExamples.ParkQueryFindsCityPark | src/components/MapView.tsx:57-60 | every query that lower-cases to "парк", whatever its case, finds the city park and shows the results panel |
| SearchExamples.FoodQueryFindsCafe | src/components/MapView.tsx:57-60 | "food" finds the cafe by its category |
| SearchExamples.NoZNoZzz | src/components/MapView.tsx:57-60 | a text without "z" or "Z" does not include "zzz" once lower-cased |
| SearchExamples.NoLocationMatchesZzz | src/components/MapView.tsx:57-60 | no location matches "zzz" in either field |
| SearchExamples.ZzzQueryFindsNothing | src/components/MapView.tsx:57-60 | "zzz" finds nothing and the results panel stays hidden |
| Viewport.Initial | src/components/MapView.tsx:48-54 | the widget starts at zoom 13, centred on the first location, with an empty query, nothing selected, no offset and no drag |
| Viewport.ZoomedIn | src/components/MapView.tsx:62 | the new zoom is the smaller of zoom + 1 and 18 |
| Viewport.ZoomedOut | src/components/MapView.tsx:63 | the new zoom is the larger of zoom − 1 and 3 |
| Viewport.LocationClicked | src/components/MapView.tsx:65-68 | the location is selected and becomes the center; nothing else changes |
| Viewport.Step | src/components/MapView.tsx:62-125 | one event: only the zoom buttons change the zoom and they keep it in [3, 18]; only a move changes the offset; only a search-result choice moves the center; either release ends the drag; a selection from the dataset stays in the dataset |
| Viewport.Run | src/components/MapView.tsx:62-125 | after any sequence of events the zoom is still in [3, 18], and if every chosen location comes from the dataset the selection is still a dataset location |
| Viewport.ZoomClamp | src/components/MapView.tsx:62-63 | both zoom buttons keep the zoom in [3, 18]; zoom-in is a no-op exactly at 18 and zoom-out exactly at 3; elsewhere each undoes the other |
| Viewport.MouseMoveEffect | src/components/MapView.tsx:84-91 | a move while idle changes nothing; while dragging it changes only the offset, to pointer minus the press anchor |
| Viewport.PressThenMove | src/components/MapView.tsx:79-89 | press at p0 then move to p1 moves the offset by p1 − p0; moving to p0 leaves it unchanged |
| Viewport.MouseUpEndsDrag | src/components/MapView.tsx:93-99 | a release on the map or anywhere in the window only ends the drag |
| Viewport.SelectionEffect | src/components/MapView.tsx:122-125 | a search-result choice selects, centres on the location and clears the query; a marker click only selects; neither changes zoom or offset |
| Viewport.RepeatedZoomIn | src/components/MapView.tsx:62 | n zoom-ins from a zoom z ≤ 18 give min(z + n, 18) |
| Viewport.TwentyZoomInsStopAtMax | src/components/MapView.tsx:48-62 | twenty zoom-ins from the start give zoom 18 |
| Viewport.IdleMovesChangeNothing | src/components/MapView.tsx:84-91 | any number of moves without a press change nothing |
| Viewport.DraggingMovesFollowPointer | src/components/MapView.tsx:84-91 | during a drag, after a run of moves only the offset has changed, to the last pointer minus the anchor |
| Viewport.DragSession | src/components/MapView.tsx:79-95 | press at p0, moves, release: the offset grows by last pointer − p0, the drag has ended, nothing else but the anchor changed |
| Viewport.DragAlwaysEnds | src/components/MapView.tsx:93-101 | whatever happened before, a release on the map or in the window leaves the widget idle |
| Viewport.SelectedLookupsNeverMiss | src/components/MapView.tsx:221-224 | when the selection is a dataset location, the detail card's icon and colour lookups both find an entry |
| Viewport.OnlyZoomButtonsZoom | src/components/MapView.tsx:62-63 | events other than the zoom buttons never change the zoom |
| Viewport.OnlyMovesPan | src/components/MapView.tsx:84-91 | only a mouse move changes the offset, so zooming and selecting never reset a pan |
| Viewport.OnlySearchResultsRecenter | src/components/MapView.tsx:65-68 | only choosing a search result moves the center |
| MapViewComponent.MapView.constructor | src/components/MapView.tsx:48-54 | the new widget is in the initial view, with a valid zoom and no selection |
| MapViewComponent.MapView.HandleZoomIn | src/components/MapView.tsx:62 | the zoom becomes min(zoom + 1, 18) and stays valid; nothing else changes |
| MapViewComponent.MapView.HandleZoomOut | src/components/MapView.tsx:63 | the zoom becomes max(zoom − 1, 3) and stays valid; nothing else changes |
| MapViewComponent.MapView.HandleMouseDown | src/components/MapView.tsx:79-82 | dragging starts and the anchor plus the offset equals the pointer |
| MapViewComponent.MapView.HandleMouseMove | src/components/MapView.tsx:84-91 | while dragging the offset plus the anchor equals the pointer; while idle nothing changes |
| MapViewComponent.MapView.HandleMouseUp | src/components/MapView.tsx:93-95 | the drag ends; nothing else changes |
| MapViewComponent.MapView.HandleGlobalMouseUp | src/components/MapView.tsx:97-101 | a release anywhere in the window ends the drag; nothing else changes |
| MapViewComponent.MapView.HandleSearchInput | src/components/MapView.tsx:113 | the query becomes the typed text; nothing else changes |
| MapViewComponent.MapView.HandleLocationClick | src/components/MapView.tsx:65-68 | a dataset location is selected and becomes the center; the selection stays in the dataset |
| MapViewComponent.MapView.HandleSearchResultClick | src/components/MapView.tsx:119-125 | for a result from the dataset: selects and centres on it, clears the query and so hides the panel |
| MapViewComponent.MapView.HandleMarkerClick | src/components/MapView.tsx:181-192 | for a marker's dataset location: only the selection changes |
| MapViewComponent.MapView.HandleCloseDetails | src/components/MapView.tsx:217 | the selection is cleared; nothing else changes |
| MapViewComponent.MapView.SelectionLookupsNeverMiss | src/components/MapView.tsx:221-224 | in every valid state the detail card's icon and colour lookups for the selection find an entry |
| MapViewComponent.DragThenZoom | src/components/MapView.tsx:62-101 | after a drag from p0 to p1, a release anywhere in the window and a zoom-in, the offset is p1 − p0, the drag has ended, the zoom is 14 and center and selection are unchanged |

## Left out

- `latLngToPixels` and the marker screen positions: these are floating-point Mercator arithmetic (`Math.pow`, `Math.log`, `Math.tan`, `Math.cos`) plus DOM sizes read from the rendered element. The model has no projection, so `center` is a coordinate that is only copied.
- Search.LowerChar: JavaScript's `toLowerCase` covers all of Unicode. The model lowers only Latin A–Z and the Cyrillic capitals U+0400–U+042F, which are all the dataset and the example queries use. Other characters, and mappings that change a string's length, are left unchanged. The general filter lemmas hold for any idempotent `LowerChar`; the examples on the dataset use this one.
- Places.IconOf and Places.ColorOf: a JavaScript object lookup also finds inherited properties such as `constructor` or `toString`, where the model returns `None`. The widget only looks up categories of dataset locations, which are all own keys of both tables.
- React plumbing: `useState`/`useRef`, and registering and removing the window `mouseup` listener. Only the listener's effect is modelled (`HandleGlobalMouseUp`, the `WindowMouseUp` event), as if it were installed for the widget's whole lifetime.
- Event propagation: a click on a marker also presses and releases the mouse over the map underneath. The model treats those as separate `MouseDown`/`MouseUp` events, and `stopPropagation` only affects the click.
- JSX rendering, CSS classes, the background pattern and the imported `Icon`, `Button`, `Input` and `Card` components: these are presentation or foreign code. The icon and colour strings are modelled only as table values.
- The "Navigation", "Маршрут" and "Поделиться" buttons have no handlers, so there is nothing to model.
- Pointer coordinates are unbounded integers. The browser's `clientX`/`clientY` are finite numbers whose range does not matter to any property here.
