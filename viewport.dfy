/**
 * The widget's view state and the effect of each user event on it, as pure
 * functions: `Step` applies one event handler, `Run` a sequence of them, each
 * event seeing the state the previous one left (the component re-renders
 * between two events).
 */
module Viewport {
  import opened Places

  const MinZoom: int := 3
  const MaxZoom: int := 18
  const InitialZoom: int := 13

  /** A pixel position or displacement on screen. */
  datatype Point = Point(x: int, y: int)

  function Add(a: Point, b: Point): Point
  {
    Point(a.x + b.x, a.y + b.y)
  }

  function Sub(a: Point, b: Point): Point
  {
    Point(a.x - b.x, a.y - b.y)
  }

  /** A geographic coordinate; the view only ever copies it. */
  datatype LatLng = LatLng(lat: real, lng: real)

  /** Everything the widget keeps between renders. */
  datatype View = View(
    zoom: int,
    center: LatLng,
    searchQuery: string,
    selected: Option<Location>,
    mapOffset: Point,
    isDragging: bool,
    dragStart: Point)

  /** The user events the widget reacts to. */
  datatype Event =
    | ZoomIn
    | ZoomOut
    | MouseDown(pointer: Point)
    | MouseMove(pointer: Point)
    | MouseUp
    | WindowMouseUp
    | SearchInput(text: string)
    | SearchResultClick(loc: Location)
    | MarkerClick(loc: Location)
    | CloseDetails

  predicate ZoomInRange(z: int)
  {
    MinZoom <= z <= MaxZoom
  }

  /**
   * The state the widget starts in: zoom 13, centred on the first location of
   * the dataset, with an empty query, nothing selected, no pan and no drag.
   */
  function Initial(): (v: View)
    ensures ZoomInRange(v.zoom) && v.zoom == InitialZoom
    ensures v.center == LatLng(Locations()[0].lat, Locations()[0].lng)
    ensures v.selected == None && v.searchQuery == ""
    ensures !v.isDragging && v.mapOffset == Point(0, 0)
  {
    View(InitialZoom, LatLng(55.755826, 37.617300), "", None, Point(0, 0), false, Point(0, 0))
  }

  /** One zoom level closer, but never past the maximum: the smaller of z + 1 and 18. */
  function ZoomedIn(z: int): (r: int)
    ensures r <= z + 1 && r <= MaxZoom
    ensures r == z + 1 || r == MaxZoom
  {
    if z + 1 < MaxZoom then z + 1 else MaxZoom
  }

  /** One zoom level farther, but never past the minimum: the larger of z - 1 and 3. */
  function ZoomedOut(z: int): (r: int)
    ensures r >= z - 1 && r >= MinZoom
    ensures r == z - 1 || r == MinZoom
  {
    if z - 1 > MinZoom then z - 1 else MinZoom
  }

  /** The anchor a press records: the pointer relative to the current offset. */
  function PressAnchor(pointer: Point, offset: Point): Point
  {
    Sub(pointer, offset)
  }

  /** The offset a move while dragging sets: the pointer relative to the anchor. */
  function DraggedOffset(pointer: Point, anchor: Point): Point
  {
    Sub(pointer, anchor)
  }

  /** The view after selecting `loc`: it is selected and becomes the center. */
  function LocationClicked(v: View, loc: Location): (r: View)
    ensures r.selected == Some(loc) && r.center == LatLng(loc.lat, loc.lng)
    ensures r.(selected := v.selected, center := v.center) == v
  {
    v.(selected := Some(loc), center := LatLng(loc.lat, loc.lng))
  }

  /** The selected location, if any, is one of the dataset's. */
  predicate SelectionInDataset(v: View)
  {
    v.selected.None? || v.selected.value in Locations()
  }

  /** An event that names a location names one of the dataset's, as every list the widget renders does. */
  predicate FromDataset(e: Event)
  {
    (e.SearchResultClick? || e.MarkerClick?) ==> e.loc in Locations()
  }

  /**
   * The effect of one event handler. Only the zoom buttons change the zoom,
   * and they keep it in range; only a move pans; only choosing a search
   * result recentres; either release ends a drag; a selection stays in the
   * dataset.
   */
  function Step(v: View, e: Event): (r: View)
    ensures ZoomInRange(v.zoom) ==> ZoomInRange(r.zoom)
    ensures e != ZoomIn && e != ZoomOut ==> r.zoom == v.zoom
    ensures !e.MouseMove? ==> r.mapOffset == v.mapOffset
    ensures !e.SearchResultClick? ==> r.center == v.center
    ensures e == MouseUp || e == WindowMouseUp ==> !r.isDragging
    ensures SelectionInDataset(v) && FromDataset(e) ==> SelectionInDataset(r)
  {
    match e
    case ZoomIn => v.(zoom := ZoomedIn(v.zoom))
    case ZoomOut => v.(zoom := ZoomedOut(v.zoom))
    case MouseDown(p) => v.(isDragging := true, dragStart := PressAnchor(p, v.mapOffset))
    case MouseMove(p) => if v.isDragging then v.(mapOffset := DraggedOffset(p, v.dragStart)) else v
    case MouseUp => v.(isDragging := false)
    case WindowMouseUp => v.(isDragging := false)
    case SearchInput(text) => v.(searchQuery := text)
    case SearchResultClick(loc) => LocationClicked(v, loc).(searchQuery := "")
    case MarkerClick(loc) => v.(selected := Some(loc))
    case CloseDetails => v.(selected := None)
  }

  /**
   * The effect of a sequence of events, in order. Whatever the user does, the
   * zoom stays within [3, 18], and a selection made from the dataset's lists
   * stays a location of the dataset.
   */
  function Run(v: View, es: seq<Event>): (r: View)
    ensures ZoomInRange(v.zoom) ==> ZoomInRange(r.zoom)
    ensures SelectionInDataset(v) && (forall i :: 0 <= i < |es| ==> FromDataset(es[i])) ==>
      SelectionInDataset(r)
    decreases |es|
  {
    if es == [] then v else Run(Step(v, es[0]), es[1..])
  }

  /** `n` presses of the same button. */
  function Repeat(e: Event, n: nat): (es: seq<Event>)
    ensures |es| == n && forall i :: 0 <= i < n ==> es[i] == e
  {
    if n == 0 then [] else [e] + Repeat(e, n - 1)
  }

  /** Mouse moves through the pointer positions `ps`, in order. */
  function Moves(ps: seq<Point>): (es: seq<Event>)
    ensures |es| == |ps| && forall i :: 0 <= i < |ps| ==> es[i] == MouseMove(ps[i])
  {
    seq(|ps|, i requires 0 <= i < |ps| => MouseMove(ps[i]))
  }

  /** A one-event run is that event's step. */
  lemma RunOne(v: View, e: Event)
    ensures Run(v, [e]) == Step(v, e)
  {
    assert [e][1..] == [];
  }

  /** A two-event run is the two steps in order. */
  lemma RunTwo(v: View, e1: Event, e2: Event)
    ensures Run(v, [e1, e2]) == Step(Step(v, e1), e2)
  {
    assert [e1, e2][1..] == [e2];
    RunOne(Step(v, e1), e2);
  }

  // ----- Single events ------------------------------------------------------

  /**
   * Zoom stays within [3, 18]; zooming in at 18 and out at 3 change nothing;
   * anywhere else, zooming out undoes zooming in and the other way round.
   */
  lemma ZoomClamp(z: int)
    requires ZoomInRange(z)
    ensures ZoomInRange(ZoomedIn(z)) && ZoomInRange(ZoomedOut(z))
    ensures ZoomedIn(z) == z <==> z == MaxZoom
    ensures ZoomedOut(z) == z <==> z == MinZoom
    ensures z < MaxZoom ==> ZoomedOut(ZoomedIn(z)) == z
    ensures z > MinZoom ==> ZoomedIn(ZoomedOut(z)) == z
  {
  }

  /**
   * A move while idle changes nothing; while dragging it changes only the
   * offset, to the pointer minus the anchor of the press.
   */
  lemma MouseMoveEffect(v: View, p: Point)
    ensures !v.isDragging ==> Step(v, MouseMove(p)) == v
    ensures v.isDragging ==> Step(v, MouseMove(p)) == v.(mapOffset := Sub(p, v.dragStart))
  {
  }

  /** Pressing and moving to `p1`: the map moves by exactly how far the pointer moved. */
  lemma PressThenMove(v: View, p0: Point, p1: Point)
    ensures Run(v, [MouseDown(p0), MouseMove(p1)]).mapOffset == Add(v.mapOffset, Sub(p1, p0))
    ensures Run(v, [MouseDown(p0), MouseMove(p0)]).mapOffset == v.mapOffset
  {
    RunTwo(v, MouseDown(p0), MouseMove(p1));
    RunTwo(v, MouseDown(p0), MouseMove(p0));
  }

  /** Either mouse-up ends a drag and touches nothing else. */
  lemma MouseUpEndsDrag(v: View)
    ensures Step(v, MouseUp) == Step(v, WindowMouseUp) == v.(isDragging := false)
  {
  }

  /**
   * Choosing a search result selects it, centres the map on it and clears
   * the query; clicking a marker only selects. Neither touches zoom or offset.
   */
  lemma SelectionEffect(v: View, loc: Location)
    ensures Step(v, SearchResultClick(loc)) ==
      v.(selected := Some(loc), center := LatLng(loc.lat, loc.lng), searchQuery := "")
    ensures Step(v, MarkerClick(loc)) == v.(selected := Some(loc))
  {
  }

  // ----- Sequences of events ------------------------------------------------

  /** Running two sequences one after the other is running their concatenation. */
  lemma {:induction false} RunAppend(v: View, a: seq<Event>, b: seq<Event>)
    ensures Run(v, a + b) == Run(Run(v, a), b)
    decreases |a|
  {
    if a == [] {
      assert a + b == b;
    } else {
      assert (a + b)[0] == a[0];
      assert (a + b)[1..] == a[1..] + b;
      RunAppend(Step(v, a[0]), a[1..], b);
    }
  }

  /** `n` zoom-ins from a zoom of at most 18 reach min(zoom + n, 18). */
  lemma {:induction false} RepeatedZoomIn(v: View, n: nat)
    requires v.zoom <= MaxZoom
    ensures Run(v, Repeat(ZoomIn, n)).zoom == if v.zoom + n < MaxZoom then v.zoom + n else MaxZoom
    decreases n
  {
    if n > 0 {
      var es := Repeat(ZoomIn, n);
      assert es[0] == ZoomIn && es[1..] == Repeat(ZoomIn, n - 1);
      RepeatedZoomIn(Step(v, ZoomIn), n - 1);
    }
  }

  /** Twenty zoom-ins from the initial view stop at 18. */
  lemma TwentyZoomInsStopAtMax()
    ensures Run(Initial(), Repeat(ZoomIn, 20)).zoom == MaxZoom
  {
    RepeatedZoomIn(Initial(), 20);
  }

  /** Moving the mouse without a press changes nothing, however far it moves. */
  lemma {:induction false} IdleMovesChangeNothing(v: View, ps: seq<Point>)
    requires !v.isDragging
    ensures Run(v, Moves(ps)) == v
    decreases |ps|
  {
    if ps != [] {
      assert Moves(ps)[1..] == Moves(ps[1..]);
      IdleMovesChangeNothing(v, ps[1..]);
    }
  }

  /** While dragging, after a run of moves the offset follows the last pointer position. */
  lemma {:induction false} DraggingMovesFollowPointer(v: View, ps: seq<Point>)
    requires v.isDragging && ps != []
    ensures Run(v, Moves(ps)) == v.(mapOffset := Sub(ps[|ps| - 1], v.dragStart))
    decreases |ps|
  {
    assert Moves(ps)[1..] == Moves(ps[1..]);
    var w := Step(v, MouseMove(ps[0]));
    if |ps| > 1 {
      DraggingMovesFollowPointer(w, ps[1..]);
    }
  }

  /**
   * A whole drag: press at `p0`, move through `ps`, release. The map ends up
   * moved by the distance from `p0` to the last pointer position, the drag
   * has ended and nothing else has changed.
   */
  lemma DragSession(v: View, p0: Point, ps: seq<Point>)
    requires ps != []
    ensures Run(v, [MouseDown(p0)] + Moves(ps) + [MouseUp]) ==
      v.(mapOffset := Add(v.mapOffset, Sub(ps[|ps| - 1], p0)), dragStart := Sub(p0, v.mapOffset),
         isDragging := false)
  {
    var pressed := Step(v, MouseDown(p0));
    RunOne(v, MouseDown(p0));
    RunAppend(v, [MouseDown(p0)], Moves(ps));
    DraggingMovesFollowPointer(pressed, ps);
    var moved := Run(pressed, Moves(ps));
    RunAppend(v, [MouseDown(p0)] + Moves(ps), [MouseUp]);
    RunOne(moved, MouseUp);
  }

  /** A mouse-up, on the map or anywhere in the window, always leaves the widget idle. */
  lemma DragAlwaysEnds(v: View, es: seq<Event>, up: Event)
    requires up == MouseUp || up == WindowMouseUp
    ensures !Run(v, es + [up]).isDragging
  {
    RunAppend(v, es, [up]);
    RunOne(Run(v, es), up);
  }

  /** Only the zoom buttons change the zoom. */
  lemma {:induction false} OnlyZoomButtonsZoom(v: View, es: seq<Event>)
    requires forall i :: 0 <= i < |es| ==> es[i] != ZoomIn && es[i] != ZoomOut
    ensures Run(v, es).zoom == v.zoom
    decreases |es|
  {
    if es != [] {
      OnlyZoomButtonsZoom(Step(v, es[0]), es[1..]);
    }
  }

  /** The detail card's icon and colour lookups never miss. */
  lemma SelectedLookupsNeverMiss(v: View)
    requires SelectionInDataset(v)
    ensures v.selected.Some? ==>
      IconOf(v.selected.value.category).Some? && ColorOf(v.selected.value.category).Some?
  {
    if v.selected.Some? {
      DatasetLookupsNeverMiss(v.selected.value);
    }
  }

  /** Only a mouse move changes the offset: zooming and selecting never reset a pan. */
  lemma {:induction false} OnlyMovesPan(v: View, es: seq<Event>)
    requires forall i :: 0 <= i < |es| ==> !es[i].MouseMove?
    ensures Run(v, es).mapOffset == v.mapOffset
    decreases |es|
  {
    if es != [] {
      OnlyMovesPan(Step(v, es[0]), es[1..]);
    }
  }

  /** Only choosing a search result moves the center. */
  lemma {:induction false} OnlySearchResultsRecenter(v: View, es: seq<Event>)
    requires forall i :: 0 <= i < |es| ==> !es[i].SearchResultClick?
    ensures Run(v, es).center == v.center
    decreases |es|
  {
    if es != [] {
      OnlySearchResultsRecenter(Step(v, es[0]), es[1..]);
    }
  }
}
