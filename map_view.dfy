/**
 * The map widget's state as it lives between renders: one field per state
 * variable of the component and one method per event handler. Each handler is
 * specified by the pure `Viewport.Step` of the same event.
 */
module MapViewComponent {
  import opened Places
  import opened Search
  import opened Viewport

  class MapView {
    var zoom: int
    var center: LatLng
    var searchQuery: string
    var selectedLocation: Option<Location>
    var mapOffset: Point
    var isDragging: bool
    var dragStart: Point

    /** The current state as a value. */
    function Snapshot(): View
      reads this
    {
      View(zoom, center, searchQuery, selectedLocation, mapOffset, isDragging, dragStart)
    }

    /** The zoom level never leaves [3, 18], and a selected location is one of the dataset's. */
    ghost predicate Valid()
      reads this
    {
      ZoomInRange(zoom) && SelectionInDataset(Snapshot())
    }

    /** The search results panel is shown. */
    predicate ResultsPanelVisible()
      reads this
    {
      ResultsPanelShown(searchQuery)
    }

    constructor ()
      ensures Valid() && Snapshot() == Initial()
    {
      zoom := InitialZoom;
      center := Initial().center;
      searchQuery := "";
      selectedLocation := None;
      mapOffset := Point(0, 0);
      isDragging := false;
      dragStart := Point(0, 0);
    }

    /** The "+" button. */
    method HandleZoomIn()
      requires Valid()
      modifies this
      ensures Valid()
      ensures Snapshot() == Step(old(Snapshot()), ZoomIn)
    {
      zoom := if zoom + 1 < MaxZoom then zoom + 1 else MaxZoom;
    }

    /** The "-" button. */
    method HandleZoomOut()
      requires Valid()
      modifies this
      ensures Valid()
      ensures Snapshot() == Step(old(Snapshot()), ZoomOut)
    {
      zoom := if zoom - 1 > MinZoom then zoom - 1 else MinZoom;
    }

    /** A press on the map starts a drag anchored at the pointer relative to the current offset. */
    method HandleMouseDown(pointer: Point)
      requires Valid()
      modifies this
      ensures Valid()
      ensures isDragging && Add(dragStart, mapOffset) == pointer
      ensures Snapshot() == Step(old(Snapshot()), MouseDown(pointer))
    {
      isDragging := true;
      dragStart := Point(pointer.x - mapOffset.x, pointer.y - mapOffset.y);
    }

    /** A move over the map pans it while a drag is in progress and does nothing otherwise. */
    method HandleMouseMove(pointer: Point)
      requires Valid()
      modifies this
      ensures Valid()
      ensures old(isDragging) ==> Add(mapOffset, dragStart) == pointer
      ensures !old(isDragging) ==> Snapshot() == old(Snapshot())
      ensures Snapshot() == Step(old(Snapshot()), MouseMove(pointer))
    {
      if isDragging {
        mapOffset := Point(pointer.x - dragStart.x, pointer.y - dragStart.y);
      }
    }

    /** A release over the map ends the drag. */
    method HandleMouseUp()
      requires Valid()
      modifies this
      ensures Valid() && !isDragging
      ensures Snapshot() == Step(old(Snapshot()), MouseUp)
    {
      isDragging := false;
    }

    /** A release anywhere in the window ends the drag too, so it cannot get stuck. */
    method HandleGlobalMouseUp()
      requires Valid()
      modifies this
      ensures Valid() && !isDragging
      ensures Snapshot() == Step(old(Snapshot()), WindowMouseUp)
    {
      isDragging := false;
    }

    /** Typing in the search box replaces the query. */
    method HandleSearchInput(text: string)
      requires Valid()
      modifies this
      ensures Valid() && searchQuery == text
      ensures Snapshot() == Step(old(Snapshot()), SearchInput(text))
    {
      searchQuery := text;
    }

    /** Selects a location and centres the map on it. */
    method HandleLocationClick(loc: Location)
      requires Valid() && loc in Locations()
      modifies this
      ensures Valid()
      ensures selectedLocation == Some(loc) && center == LatLng(loc.lat, loc.lng)
      ensures Snapshot() == LocationClicked(old(Snapshot()), loc)
    {
      selectedLocation := Some(loc);
      center := LatLng(loc.lat, loc.lng);
    }

    /** Choosing a search result: select it, centre on it, clear the query. */
    method HandleSearchResultClick(loc: Location)
      requires Valid() && loc in Locations()
      modifies this
      ensures Valid() && searchQuery == "" && !ResultsPanelVisible()
      ensures Snapshot() == Step(old(Snapshot()), SearchResultClick(loc))
    {
      HandleLocationClick(loc);
      searchQuery := "";
    }

    /** Clicking a marker selects its location without moving the map. */
    method HandleMarkerClick(loc: Location)
      requires Valid() && loc in Locations()
      modifies this
      ensures Valid() && selectedLocation == Some(loc)
      ensures Snapshot() == Step(old(Snapshot()), MarkerClick(loc))
    {
      selectedLocation := Some(loc);
    }

    /** The close button of the detail card clears the selection. */
    method HandleCloseDetails()
      requires Valid()
      modifies this
      ensures Valid() && selectedLocation == None
      ensures Snapshot() == Step(old(Snapshot()), CloseDetails)
    {
      selectedLocation := None;
    }

    /** The detail card's icon and colour lookups for the selection never miss. */
    lemma SelectionLookupsNeverMiss()
      requires Valid()
      ensures selectedLocation.Some? ==>
        IconOf(selectedLocation.value.category).Some? && ColorOf(selectedLocation.value.category).Some?
    {
      SelectedLookupsNeverMiss(Snapshot());
    }
  }

  /**
   * What a caller can conclude from the handlers' specifications alone: a
   * drag moves the map by the pointer's travel, ends on a release anywhere in
   * the window, and a zoom afterwards keeps that pan.
   */
  method DragThenZoom(p0: Point, p1: Point) returns (view: View)
    ensures view.mapOffset == Sub(p1, p0) && !view.isDragging
    ensures view.zoom == InitialZoom + 1
    ensures view.center == Initial().center && view.selected == None
  {
    var m := new MapView();
    m.HandleMouseDown(p0);
    m.HandleMouseMove(p1);
    m.HandleGlobalMouseUp();
    m.HandleZoomIn();
    view := m.Snapshot();
  }
}
