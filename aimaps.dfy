/**
  The route-planning page: two place names are geocoded, three simulated
  routes are built between the two points, and the routes are listed as
  cards and drawn on the map, the selected one emphasised.
 */
module AIMaps {
  import opened Wrappers

  /** A point as the map library takes it: [latitude, longitude]. */
  datatype Coord = Coord(lat: real, lng: real)

  /** The points of one polyline, in drawing order. */
  type Path = seq<Coord>

  /** How far the midpoint moves, in both coordinates, per unit of curve offset. */
  const CurveScale: real := 0.1

  /** The curve offsets of the three routes, in catalogue order. */
  const RouteOffsets: seq<real> := [0.2, -0.2, 0.5]

  /** The one error message the page shows. */
  const NotFoundMessage: string := "Could not find one of the locations. Please try valid city names."

  // ---------------------------------------------------------------------------
  // Route geometry
  // ---------------------------------------------------------------------------

  /** Undoes the curve shift of a waypoint built with `curveOffset`. */
  function Unshift(p: Coord, curveOffset: real): Coord {
    Coord(p.lat - curveOffset * CurveScale, p.lng - curveOffset * CurveScale)
  }

  /** The simulated route from `start` to `end`: the two endpoints with one
      waypoint between them, the midpoint moved by `curveOffset × 0.1` in both
      coordinates. Once the shift is undone, the waypoint is equally far from
      both endpoints in each coordinate. */
  function CurvedRoute(start: Coord, end: Coord, curveOffset: real := 0.0): (path: Path)
    ensures |path| == 3 && path[0] == start && path[2] == end
    ensures Unshift(path[1], curveOffset).lat - start.lat == end.lat - Unshift(path[1], curveOffset).lat
    ensures Unshift(path[1], curveOffset).lng - start.lng == end.lng - Unshift(path[1], curveOffset).lng
  {
    var midLat := (start.lat + end.lat) / 2.0;
    var midLng := (start.lng + end.lng) / 2.0;
    var curveLat := midLat + curveOffset * CurveScale;
    var curveLng := midLng + curveOffset * CurveScale;
    [start, Coord(curveLat, curveLng), end]
  }

  /** With the default offset the waypoint is the exact midpoint, so it lies
      between the two endpoints in both coordinates. */
  lemma DefaultRouteBendsNowhere(start: Coord, end: Coord)
    ensures CurvedRoute(start, end)[1] == Coord((start.lat + end.lat) / 2.0, (start.lng + end.lng) / 2.0)
    ensures start.lat <= end.lat ==> start.lat <= CurvedRoute(start, end)[1].lat <= end.lat
    ensures end.lat <= start.lat ==> end.lat <= CurvedRoute(start, end)[1].lat <= start.lat
    ensures start.lng <= end.lng ==> start.lng <= CurvedRoute(start, end)[1].lng <= end.lng
    ensures end.lng <= start.lng ==> end.lng <= CurvedRoute(start, end)[1].lng <= start.lng
  {
  }

  /** Identical endpoints are not an error: the route starts and ends at the
      point and its waypoint is the point itself, shifted. */
  lemma SamePlaceRoute(p: Coord, curveOffset: real)
    ensures CurvedRoute(p, p, curveOffset)
         == [p, Coord(p.lat + curveOffset / 10.0, p.lng + curveOffset / 10.0), p]
  {
  }

  /** The three routes the page builds between two resolved points, one per
      catalogue entry: all run from `source` to `dest`, route `i` bends by
      `RouteOffsets[i]`, and no two of them share a waypoint. */
  function RoutesBetween(source: Coord, dest: Coord): (paths: seq<Path>)
    ensures |paths| == |RouteOffsets|
    ensures forall i :: 0 <= i < |paths| ==> paths[i] == CurvedRoute(source, dest, RouteOffsets[i])
    ensures forall i, j :: 0 <= i < j < |paths| ==>
      |paths[i]| == |paths[j]| == 3 && paths[i][1] != paths[j][1]
  {
    var route1 := CurvedRoute(source, dest, 0.2);
    var route2 := CurvedRoute(source, dest, -0.2);
    var route3 := CurvedRoute(source, dest, 0.5);
    [route1, route2, route3]
  }

  /** An example with the page's placeholder cities, Mumbai (19.076, 72.877) to Pune (18.520, 73.856);
      the first route's waypoint is the midpoint (18.798, 73.3665) moved by
      0.02 in each coordinate. */
  lemma MumbaiToPune()
    ensures RoutesBetween(Coord(19.076, 72.877), Coord(18.520, 73.856))[0]
         == [Coord(19.076, 72.877), Coord(18.818, 73.3865), Coord(18.520, 73.856)]
  {
  }

  // ---------------------------------------------------------------------------
  // Route catalogue and drawing
  // ---------------------------------------------------------------------------

  /** The static description of one route card. */
  datatype RouteInfo = RouteInfo(
    id: int, kind: string, time: string, traffic: string, cost: string,
    color: string, borderColor: string)

  const Catalogue: seq<RouteInfo> := [
    RouteInfo(0, "Smartest", "4h 15m", "Low", "₹450", "#10b981", "border-emerald-500"),
    RouteInfo(1, "Fastest", "3h 50m", "Mod", "₹650", "#3b82f6", "border-blue-500"),
    RouteInfo(2, "Scenic", "5h 30m", "Low", "₹300", "#a855f7", "border-purple-500")
  ]

  /** Every card's id is its position, so it indexes the built routes. */
  lemma CatalogueIdsArePositions()
    ensures |Catalogue| == |RouteOffsets| == 3
    ensures forall i :: 0 <= i < |Catalogue| ==> Catalogue[i].id == i
  {
  }

  /** The polyline options of the map library. `dashArray` is `null` or a dash pattern. */
  datatype PathStyle = PathStyle(color: string, weight: int, opacity: real, dashArray: Option<string>)

  datatype Polyline = Polyline(positions: Path, style: PathStyle)

  datatype Marker = Marker(position: Coord, popup: string)

  /** What the map draws over its tiles. */
  datatype Overlay = Overlay(markers: seq<Marker>, lines: seq<Polyline>)

  predicate Emphasised(s: PathStyle) {
    s.weight == 6 && s.opacity == 1.0 && s.dashArray == None
  }

  predicate Faded(s: PathStyle) {
    s.weight == 3 && s.opacity == 0.4 && s.dashArray == Some("10, 10")
  }

  /** The route built for card `id`, or no points when there is none. */
  function PathFor(routePaths: seq<Path>, id: int): Path {
    if 0 <= id < |routePaths| then routePaths[id] else []
  }

  function StyleFor(route: RouteInfo, selectedRoute: int): PathStyle {
    PathStyle(
      route.color,
      if selectedRoute == route.id then 6 else 3,
      if selectedRoute == route.id then 1.0 else 0.4,
      if selectedRoute == route.id then None else Some("10, 10"))
  }

  /** One polyline per catalogue entry, in catalogue order: its points are the
      route built for that card (none if no route was built), its colour is
      the card's, and it is emphasised exactly when its card is the selected
      one and faded otherwise. */
  function Polylines(routePaths: seq<Path>, selectedRoute: int): (lines: seq<Polyline>)
    ensures |lines| == |Catalogue|
    ensures forall i :: 0 <= i < |lines| ==>
      && lines[i].style.color == Catalogue[i].color
      && (i < |routePaths| ==> lines[i].positions == routePaths[i])
      && (|routePaths| <= i ==> lines[i].positions == [])
      && (Emphasised(lines[i].style) <==> i == selectedRoute)
      && (Faded(lines[i].style) <==> i != selectedRoute)
  {
    seq(|Catalogue|, i requires 0 <= i < |Catalogue| =>
      Polyline(PathFor(routePaths, Catalogue[i].id), StyleFor(Catalogue[i], selectedRoute)))
  }

  /** For a selection within the catalogue exactly one polyline stands out. */
  lemma ExactlyOneEmphasised(routePaths: seq<Path>, selectedRoute: int)
    requires 0 <= selectedRoute < |Catalogue|
    ensures exists i :: 0 <= i < |Catalogue| && Emphasised(Polylines(routePaths, selectedRoute)[i].style)
    ensures forall i, j ::
      (0 <= i < |Catalogue| && 0 <= j < |Catalogue|
       && Emphasised(Polylines(routePaths, selectedRoute)[i].style)
       && Emphasised(Polylines(routePaths, selectedRoute)[j].style)) ==> i == j
  {
    assert Emphasised(Polylines(routePaths, selectedRoute)[selectedRoute].style);
  }

  // ---------------------------------------------------------------------------
  // The planning session
  // ---------------------------------------------------------------------------

  /** The page's state. `geocode` stands for the lookup service: it gives the
      first match's coordinate for a place name, or nothing when the service
      finds nothing or the call fails. */
  class RoutePlanner {
    var selectedRoute: int
    var isAnalyzing: bool
    var showRoutes: bool
    var error: string
    var source: string
    var destination: string
    var sourceCoords: Option<Coord>
    var destCoords: Option<Coord>
    var routePaths: seq<Path>

    /** Routes exist exactly when both points were resolved, and they are the
        routes between those points; routes and the error are never shown
        together; the selection always names a catalogue entry. */
    ghost predicate Valid()
      reads this
    {
      && 0 <= selectedRoute < |Catalogue|
      && (sourceCoords.Some? <==> destCoords.Some?)
      && (if sourceCoords.Some?
          then routePaths == RoutesBetween(sourceCoords.value, destCoords.value)
          else routePaths == [])
      && (showRoutes ==> sourceCoords.Some? && error == "")
      && (isAnalyzing ==> !showRoutes && error == "")
    }

    constructor ()
      ensures Valid()
      ensures selectedRoute == 0 && !isAnalyzing && !showRoutes && error == ""
      ensures source == "" && destination == ""
      ensures sourceCoords == None && destCoords == None && routePaths == []
    {
      selectedRoute := 0;
      isAnalyzing := false;
      showRoutes := false;
      error := "";
      source := "";
      destination := "";
      sourceCoords := None;
      destCoords := None;
      routePaths := [];
    }

    /** Typing in the start field. */
    method SetSource(text: string)
      requires Valid()
      modifies this`source
      ensures Valid()
      ensures source == text
    {
      source := text;
    }

    /** Typing in the destination field. */
    method SetDestination(text: string)
      requires Valid()
      modifies this`destination
      ensures Valid()
      ensures destination == text
    {
      destination := text;
    }

    /** The analyse button is enabled when no analysis is running and both
        names are non-empty (they are not trimmed). A click on the enabled
        button never stops at the handler's empty-name guard. */
    predicate AnalyzeEnabled(): (enabled: bool)
      reads this
      ensures enabled ==> !isAnalyzing && !(source == "" || destination == "")
    {
      !isAnalyzing && source != "" && destination != ""
    }

    /** The part of the click handler that runs before the lookups: an empty
        name stops it with nothing changed; otherwise the page enters its
        analysing state, with the error cleared and the routes hidden. */
    method BeginAnalyze() returns (started: bool)
      requires Valid()
      modifies this`isAnalyzing, this`error, this`showRoutes
      ensures Valid()
      ensures started <==> source != "" && destination != ""
      ensures old(AnalyzeEnabled()) ==> started
      ensures started ==> isAnalyzing && error == "" && !showRoutes
      ensures !started ==> isAnalyzing == old(isAnalyzing) && error == old(error) && showRoutes == old(showRoutes)
    {
      if source == "" || destination == "" {
        return false;
      }
      isAnalyzing := true;
      error := "";
      showRoutes := false;
      started := true;
    }

    /** The part after both lookups have answered. A missing point sets the
        error and leaves the previous points and routes in place; otherwise the
        points are stored, the three routes are built between them and shown. */
    method FinishAnalyze(searchStart: Option<Coord>, searchEnd: Option<Coord>)
      requires Valid() && isAnalyzing
      modifies this`isAnalyzing, this`error, this`showRoutes,
               this`sourceCoords, this`destCoords, this`routePaths
      ensures Valid()
      ensures !isAnalyzing
      ensures searchStart.None? || searchEnd.None? ==>
        && error == NotFoundMessage && !showRoutes
        && sourceCoords == old(sourceCoords) && destCoords == old(destCoords)
        && routePaths == old(routePaths)
      ensures searchStart.Some? && searchEnd.Some? ==>
        && sourceCoords == searchStart && destCoords == searchEnd
        && routePaths == RoutesBetween(searchStart.value, searchEnd.value)
        && error == "" && showRoutes
    {
      if searchStart.None? || searchEnd.None? {
        error := NotFoundMessage;
        isAnalyzing := false;
        return;
      }
      sourceCoords := searchStart;
      destCoords := searchEnd;
      routePaths := RoutesBetween(searchStart.value, searchEnd.value);
      isAnalyzing := false;
      showRoutes := true;
    }

    /** A click on the analyse button: the two names are looked up one after
        the other and the outcome is settled. The selection is left as it was. */
    method Analyze(geocode: string -> Option<Coord>)
      requires Valid() && !isAnalyzing
      modifies this`isAnalyzing, this`error, this`showRoutes,
               this`sourceCoords, this`destCoords, this`routePaths
      ensures Valid() && !isAnalyzing
      ensures source == "" || destination == "" ==>
        && error == old(error) && showRoutes == old(showRoutes)
        && sourceCoords == old(sourceCoords) && destCoords == old(destCoords)
        && routePaths == old(routePaths)
      ensures (source != "" && destination != ""
               && (geocode(source).None? || geocode(destination).None?)) ==>
        && error == NotFoundMessage && !showRoutes
        && sourceCoords == old(sourceCoords) && destCoords == old(destCoords)
        && routePaths == old(routePaths)
      ensures (source != "" && destination != ""
               && geocode(source).Some? && geocode(destination).Some?) ==>
        && sourceCoords == geocode(source) && destCoords == geocode(destination)
        && routePaths == RoutesBetween(geocode(source).value, geocode(destination).value)
        && error == "" && showRoutes
    {
      var started := BeginAnalyze();
      if started {
        var searchStart := geocode(source);
        var searchEnd := geocode(destination);
        FinishAnalyze(searchStart, searchEnd);
      }
    }

    /** A click on a route card; the cards are listed only while routes are
        shown, and each passes its own catalogue id. */
    method SelectRoute(id: int)
      requires Valid() && showRoutes
      requires exists r :: r in Catalogue && r.id == id
      modifies this`selectedRoute
      ensures Valid()
      ensures selectedRoute == id
    {
      selectedRoute := id;
    }

    /** The markers and polylines drawn on the map: present only while routes
        are shown and both points are known. */
    function MapOverlay(): (o: Option<Overlay>)
      reads this
      ensures o.Some? <==> showRoutes && sourceCoords.Some? && destCoords.Some?
      ensures o.Some? ==>
        o.value.markers == [Marker(sourceCoords.value, source), Marker(destCoords.value, destination)]
      ensures o.Some? ==> o.value.lines == Polylines(routePaths, selectedRoute)
    {
      if showRoutes && sourceCoords.Some? && destCoords.Some? then
        Some(Overlay(
          [Marker(sourceCoords.value, source), Marker(destCoords.value, destination)],
          Polylines(routePaths, selectedRoute)))
      else
        None
    }

    /** In a consistent state, whenever routes are shown the map draws the
        three routes between the two stored points, exactly one of them
        (the selected card's) emphasised. */
    lemma ShownRoutesAreDrawn()
      requires Valid() && showRoutes
      ensures MapOverlay().Some?
      ensures var lines := MapOverlay().value.lines;
        && |lines| == 3
        && (forall i :: 0 <= i < 3 ==>
             lines[i].positions == CurvedRoute(sourceCoords.value, destCoords.value, RouteOffsets[i]))
        && (forall i :: 0 <= i < 3 ==> (Emphasised(lines[i].style) <==> i == selectedRoute))
    {
    }
  }
}
