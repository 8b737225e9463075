/** The orchestrating `DealerLocator` component (src/index.js): the state it
    keeps, the handlers that change it, and the map instructions it issues
    when a location is chosen. Calls on the Google map object are recorded
    as a log of effects. */
module Locator {
  import opened JsValues
  import opened Geometry
  import opened Lodash
  import opened Dealers
  import opened DealerListing
  import opened DealerDetails

  /** Where the map starts (Santa Cruz, California). */
  const DefaultStartingLocation: Coord := Coord(36.9596054, -122.0564889)

  const MinZoom: real := 10.0
  const MaxZoom: real := 20.0
  const DefaultZoom: real := 14.0

  /** Below this planar distance, in degrees, the map zooms to `DefaultZoom`
      instead of fitting a box around the nearest dealer. */
  const MinimumDealerDistance: real := 0.02

  /** One call on the Google map object. */
  datatype MapEffect =
    | SetZoom(zoom: real)
    | PanTo(coord: Coord)
    | FitBounds(bounds: LatLngBounds)
    | PanToBounds(bounds: LatLngBounds)

  /** How `goToMapLocation` ended: it moved the map, found no map and only
      logged an error, or threw because there was no dealer to measure. */
  datatype Outcome = Moved | MapNotReady | Threw

  /** `calculateDistance(x1, x2, y1, y2)` squared: the source returns the
      square root, so `d < 0.02` there is `d * d < 0.02 * 0.02` here. */
  function CalculateDistanceSquared(x1: real, x2: real, y1: real, y2: real): (r: real)
    ensures r == DistanceSquared(Coord(x1, y1), Coord(x2, y2))
  {
    Square(x1 - x2) + Square(y1 - y2)
  }

  /** The distance does not depend on the order within either pair: swapping
      the two latitudes, or the two longitudes, leaves it unchanged. */
  lemma CalculateDistanceSymmetric(x1: real, x2: real, y1: real, y2: real)
    ensures CalculateDistanceSquared(x1, x2, y1, y2) == CalculateDistanceSquared(x2, x1, y1, y2)
    ensures CalculateDistanceSquared(x1, x2, y1, y2) == CalculateDistanceSquared(x1, x2, y2, y1)
  {
  }

  /** The distance is zero exactly when both coordinates agree, and never negative. */
  lemma CalculateDistanceZero(x1: real, x2: real, y1: real, y2: real)
    ensures CalculateDistanceSquared(x1, x2, y1, y2) >= 0.0
    ensures CalculateDistanceSquared(x1, x2, y1, y2) == 0.0 <==> (x1 == x2 && y1 == y2)
  {
  }

  /** `if (zoom)`: an absent zoom and zoom 0 are falsy. */
  function ZoomIsTruthy(zoom: Option<real>): (b: bool)
    ensures !b <==> zoom in [None, Some(0.0)]
  {
    zoom.Some? && zoom.value != 0.0
  }

  /** `_.first(_.sortBy(dealers, distance to coord))`. */
  function Nearest(dealers: seq<Dealer>, coord: Coord): (n: Dealer)
    requires |dealers| > 0
    ensures n in dealers
  {
    var sorted := SortBy(dealers, DistanceTo(coord));
    assert sorted[0] in multiset(sorted);
    sorted[0]
  }

  /** The nearest dealer is the first one, in input order, at the least
      distance from `coord`: no dealer is closer, and every dealer before it
      is strictly farther away. */
  lemma NearestIsFirstClosest(dealers: seq<Dealer>, coord: Coord)
    requires |dealers| > 0
    ensures var i := FirstMinIndex(dealers, DistanceTo(coord));
            Nearest(dealers, coord) == dealers[i]
            && (forall j :: 0 <= j < |dealers| ==>
                  DistanceSquared(dealers[i].location, coord) <= DistanceSquared(dealers[j].location, coord))
            && (forall j :: 0 <= j < i ==>
                  DistanceSquared(dealers[i].location, coord) < DistanceSquared(dealers[j].location, coord))
  {
  }

  /** The map calls `goToMapLocation(coord, zoom)` makes once the map is
      ready; `None` when it throws before making any. */
  function Navigation(dealers: seq<Dealer>, coord: Coord, zoom: Option<real>): (r: Option<seq<MapEffect>>)
    decreases if ZoomIsTruthy(zoom) then 0 else 1
    ensures r.None? <==> (!ZoomIsTruthy(zoom) && dealers == [])
    ensures r.Some? ==> |r.value| == 2
  {
    if ZoomIsTruthy(zoom) then Some([SetZoom(zoom.value), PanTo(coord)])
    else if dealers == [] then None
    else
      var nearestDealer := Nearest(dealers, coord);
      var distance := CalculateDistanceSquared(nearestDealer.location.lat, coord.lat,
                                               nearestDealer.location.lng, coord.lng);
      if distance < MinimumDealerDistance * MinimumDealerDistance then
        Navigation(dealers, coord, Some(DefaultZoom))
      else
        var bounds := CreateMapBounds(coord, nearestDealer.location);
        Some([FitBounds(bounds), PanToBounds(bounds)])
  }

  /** Every successful call makes two map calls: a truthy zoom then a pan to
      the location, or a fit then a pan to the same bounds. */
  lemma NavigationShape(dealers: seq<Dealer>, coord: Coord, zoom: Option<real>)
    requires Navigation(dealers, coord, zoom).Some?
    ensures var e := Navigation(dealers, coord, zoom).value;
            (e[0].SetZoom? && e[0].zoom != 0.0 && e == [SetZoom(e[0].zoom), PanTo(coord)])
            || (e[0].FitBounds? && e == [FitBounds(e[0].bounds), PanToBounds(e[0].bounds)])
  {
  }

  /** With a zoom, the map zooms to it and pans to the location; nothing else. */
  lemma NavigationWithZoom(dealers: seq<Dealer>, coord: Coord, zoom: real)
    requires zoom != 0.0
    ensures Navigation(dealers, coord, Some(zoom)) == Some([SetZoom(zoom), PanTo(coord)])
  {
  }

  /** Without a zoom, the map zooms to 14 exactly when some dealer lies within
      0.02 degrees of the location; otherwise it fits the box of
      `createMapBounds` around the location and the nearest dealer. */
  lemma NavigationWithoutZoom(dealers: seq<Dealer>, coord: Coord, zoom: Option<real>)
    requires !ZoomIsTruthy(zoom) && |dealers| > 0
    ensures var near := (exists j :: 0 <= j < |dealers|
                           && DistanceSquared(dealers[j].location, coord) < MinimumDealerDistance * MinimumDealerDistance);
            var bounds := CreateMapBounds(coord, Nearest(dealers, coord).location);
            (near ==> Navigation(dealers, coord, zoom) == Some([SetZoom(DefaultZoom), PanTo(coord)]))
            && (!near ==> Navigation(dealers, coord, zoom) == Some([FitBounds(bounds), PanToBounds(bounds)]))
  {
    NearestIsFirstClosest(dealers, coord);
    var n := Nearest(dealers, coord);
    assert CalculateDistanceSquared(n.location.lat, coord.lat, n.location.lng, coord.lng)
           == DistanceSquared(n.location, coord);
  }

  /** When the box is fitted, it is centred on the location and has the
      nearest dealer on a corner, unless that dealer shares the location's
      latitude or longitude: then `createMapBounds` returns `{}` and that
      empty object is what `fitBounds` and `panToBounds` receive. */
  lemma FittedBounds(dealers: seq<Dealer>, coord: Coord, zoom: Option<real>)
    requires !ZoomIsTruthy(zoom) && |dealers| > 0
    requires Navigation(dealers, coord, zoom).value[0].FitBounds?
    ensures var n := Nearest(dealers, coord);
            var bounds := Navigation(dealers, coord, zoom).value[0].bounds;
            (bounds == EmptyBounds <==> (n.location.lat == coord.lat || n.location.lng == coord.lng))
            && (bounds != EmptyBounds ==>
                  var box := SymmetricBox(coord, n.location).value;
                  bounds == AsBounds(Some(box))
                  && IsLocationWithinBoundary(coord, Some(CornersOf(box)))
                  && !IsLocationWithinBoundary(n.location, Some(CornersOf(box))))
  {
  }

  /** Without a zoom and without dealers, the property read on the missing
      nearest dealer throws before any map call. */
  lemma NavigationThrowsWithoutDealers(coord: Coord, zoom: Option<real>)
    requires !ZoomIsTruthy(zoom)
    ensures Navigation([], coord, zoom).None?
  {
  }

  /** The zoom `onDealerSelected` asks for: the current map zoom clamped to
      [10, 20]. Before the first bounds change the stored zoom is `null`,
      which lodash converts to 0 and so clamps to 10. */
  function SelectionZoom(mapZoom: Option<real>): (z: real)
    ensures MinZoom <= z <= MaxZoom
    ensures ZoomIsTruthy(Some(z))
    ensures mapZoom.None? ==> z == MinZoom
    ensures mapZoom.Some? && MinZoom <= mapZoom.value <= MaxZoom ==> z == mapZoom.value
  {
    Clamp(ToNumber(mapZoom), MinZoom, MaxZoom)
  }

  /** `_.get(this.state, "selectedDealer.id")`: undefined when no dealer is selected. */
  function SelectedId(selected: Option<Dealer>): (id: JsValue)
    ensures selected.None? ==> id == Undefined
    ensures selected.Some? ==> id == Prop(selected.value, "id")
  {
    match selected
    case None => Undefined
    case Some(d) => Prop(d, "id")
  }

  /** `{...dealer, selected: dealer.id === selectedId}`. */
  function Flagged(d: Dealer, selectedId: JsValue): (r: Dealer)
    ensures r.location == d.location
    ensures forall k :: k != "selected" ==> Prop(r, k) == Prop(d, k)
    ensures Prop(r, "selected") == Bool(Prop(d, "id") == selectedId)
  {
    Dealer(d.location, d.props["selected" := Bool(Prop(d, "id") == selectedId)])
  }

  /** `dealersWithSelectedFlag()`: the same dealers in the same order, each
      with every property kept except `selected`, which says whether its id
      equals the selected dealer's id. */
  function WithSelectedFlag(dealers: seq<Dealer>, selected: Option<Dealer>): (r: seq<Dealer>)
    ensures |r| == |dealers|
    ensures forall i :: 0 <= i < |r| ==> r[i].location == dealers[i].location
    ensures forall i, k :: 0 <= i < |r| && k != "selected" ==> Prop(r[i], k) == Prop(dealers[i], k)
    ensures forall i :: 0 <= i < |r| ==>
      (Prop(r[i], "selected") == Bool(true) <==> Prop(dealers[i], "id") == SelectedId(selected))
    ensures forall i :: 0 <= i < |r| ==> Prop(r[i], "selected").Bool?
  {
    seq(|dealers|, i requires 0 <= i < |dealers| => Flagged(dealers[i], SelectedId(selected)))
  }

  /** When ids are distinct and the selected dealer is one of the list, it is
      the only dealer flagged. */
  lemma SelectedFlagUnique(dealers: seq<Dealer>, j: nat)
    requires j < |dealers|
    requires forall a, b :: 0 <= a < b < |dealers| ==> Prop(dealers[a], "id") != Prop(dealers[b], "id")
    ensures forall i :: 0 <= i < |dealers| ==>
      (Prop(WithSelectedFlag(dealers, Some(dealers[j]))[i], "selected") == Bool(true) <==> i == j)
  {
  }

  /** With no dealer selected, `undefined === undefined` flags every dealer
      that has no id. */
  lemma NoSelectionFlagsDealersWithoutId(dealers: seq<Dealer>)
    ensures forall i :: 0 <= i < |dealers| ==>
      (Prop(WithSelectedFlag(dealers, None)[i], "selected") == Bool(true) <==> Prop(dealers[i], "id") == Undefined)
  {
  }

  /** Flagging a list one dealer longer: the new dealer's flagged copy comes
      first, followed by the flagged rest. */
  lemma WithSelectedFlagCons(d: Dealer, rest: seq<Dealer>, selected: Option<Dealer>)
    ensures WithSelectedFlag([d] + rest, selected)
            == [Flagged(d, SelectedId(selected))] + WithSelectedFlag(rest, selected)
  {
    assert ([d] + rest)[0] == d;
    assert forall i :: 1 <= i < |rest| + 1 ==> ([d] + rest)[i] == rest[i - 1];
  }

  /** The flag moves no dealer between the two lists: the viewport list of the
      flagged dealers is the flagged viewport list, the same dealers in the
      same order. */
  lemma {:induction false} FlagKeepsViewportMembership(dealers: seq<Dealer>, selected: Option<Dealer>, b: Option<Boundary>)
    ensures Filter(WithSelectedFlag(dealers, selected), OnMap(b))
            == WithSelectedFlag(Filter(dealers, OnMap(b)), selected)
  {
    if dealers != [] {
      var d, rest := dealers[0], dealers[1..];
      var fd := Flagged(d, SelectedId(selected));
      assert dealers == [d] + rest;
      WithSelectedFlagCons(d, rest, selected);
      FilterCons(fd, WithSelectedFlag(rest, selected), OnMap(b));
      FilterCons(d, rest, OnMap(b));
      FlagKeepsViewportMembership(rest, selected, b);
      if OnMap(b)(d) {
        WithSelectedFlagCons(d, Filter(rest, OnMap(b)), selected);
      }
    }
  }

  /** Every piece of state the component holds, in one value. */
  datatype LocatorState = LocatorState(
    dealers: seq<Dealer>,
    mapCenter: Coord,
    mapBoundary: Option<Boundary>,
    mapZoom: Option<real>,
    selectedDealer: Option<Dealer>,
    isDealerFilterSelected: bool,
    mapReady: bool,
    effects: seq<MapEffect>)

  /** What `render` shows: the dealer list over the flagged dealers and the
      details panel, slid into view when a dealer is selected. */
  datatype LocatorView = LocatorView(list: ListView, details: DetailsView, detailsVisible: bool)

  class DealerLocator {
    /** `this.props.dealers`, fixed for the component's life. */
    const dealers: seq<Dealer>
    var mapCenter: Coord
    var mapBoundary: Option<Boundary>
    var mapZoom: Option<real>
    var selectedDealer: Option<Dealer>
    var isDealerFilterSelected: bool
    /** Whether `this.map` has been set by `onMapReady`. */
    var mapReady: bool
    /** Calls made on the map so far, oldest first. */
    var effects: seq<MapEffect>

    function State(): LocatorState
      reads this
    {
      LocatorState(dealers, mapCenter, mapBoundary, mapZoom, selectedDealer,
                   isDealerFilterSelected, mapReady, effects)
    }

    /** The initial state: the default location, nothing known about the
        viewport, nothing selected, the filter off and no map yet. */
    constructor(dealers: seq<Dealer>)
      ensures State() == LocatorState(dealers, DefaultStartingLocation, None, None, None, false, false, [])
    {
      this.dealers := dealers;
      mapCenter := DefaultStartingLocation;
      mapBoundary := None;
      mapZoom := None;
      selectedDealer := None;
      isDealerFilterSelected := false;
      mapReady := false;
      effects := [];
    }

    /** `onMapReady`: the map object becomes available. */
    method OnMapReady()
      modifies this
      ensures State() == old(State()).(mapReady := true)
    {
      mapReady := true;
    }

    /** `onBoundsChanged`: records the viewport corners, centre and zoom the
        map reports, and nothing else. */
    method OnBoundsChanged(northEast: Coord, southWest: Coord, center: Coord, zoom: real)
      modifies this
      ensures State() == old(State()).(mapBoundary := Some(Boundary(northEast, southWest)),
                                       mapCenter := center, mapZoom := Some(zoom))
    {
      mapBoundary := Some(Boundary(northEast, southWest));
      mapCenter := center;
      mapZoom := Some(zoom);
    }

    /** `goToMapLocation(coord, zoom)`. */
    method GoToMapLocation(coord: Coord, zoom: Option<real>) returns (outcome: Outcome)
      modifies this
      decreases if ZoomIsTruthy(zoom) then 0 else 1
      ensures !old(mapReady) ==> outcome == MapNotReady && State() == old(State())
      ensures old(mapReady) && Navigation(dealers, coord, zoom).None? ==>
                outcome == Threw && State() == old(State())
      ensures old(mapReady) && Navigation(dealers, coord, zoom).Some? ==>
                outcome == Moved
                && State() == old(State()).(effects := old(effects) + Navigation(dealers, coord, zoom).value)
    {
      if !mapReady {
        return MapNotReady;
      }
      if ZoomIsTruthy(zoom) {
        effects := effects + [SetZoom(zoom.value), PanTo(coord)];
        return Moved;
      }
      if dealers == [] {
        return Threw;
      }
      var nearestDealer := Nearest(dealers, coord);
      var distance := CalculateDistanceSquared(nearestDealer.location.lat, coord.lat,
                                               nearestDealer.location.lng, coord.lng);
      if distance < MinimumDealerDistance * MinimumDealerDistance {
        assert Navigation(dealers, coord, zoom) == Navigation(dealers, coord, Some(DefaultZoom))
                                                  == Some([SetZoom(DefaultZoom), PanTo(coord)]);
        outcome := GoToMapLocation(coord, Some(DefaultZoom));
        return;
      }
      var bounds := CreateMapBounds(coord, nearestDealer.location);
      assert Navigation(dealers, coord, zoom) == Some([FitBounds(bounds), PanToBounds(bounds)]);
      effects := effects + [FitBounds(bounds), PanToBounds(bounds)];
      outcome := Moved;
    }

    /** `onDealerSelected(dealer)`: selects the dealer and, when the map is
        ready, zooms to the clamped current zoom and pans to the dealer. The
        zoom is always truthy, so no box is ever fitted here. */
    method OnDealerSelected(dealer: Dealer) returns (outcome: Outcome)
      modifies this
      ensures outcome == (if old(mapReady) then Moved else MapNotReady)
      ensures State() == old(State()).(selectedDealer := Some(dealer),
                effects := old(effects) +
                  (if old(mapReady) then [SetZoom(SelectionZoom(old(mapZoom))), PanTo(dealer.location)] else []))
    {
      selectedDealer := Some(dealer);
      var zoom := SelectionZoom(mapZoom);
      outcome := GoToMapLocation(dealer.location, Some(zoom));
    }

    /** `clearSelectedDealer`: deselects, changing nothing else. */
    method ClearSelectedDealer()
      modifies this
      ensures State() == old(State()).(selectedDealer := None)
    {
      selectedDealer := None;
    }

    /** `onlineFilterIsSelected`: flips the filter flag, changing nothing else. */
    method OnlineFilterIsSelected()
      modifies this
      ensures State() == old(State()).(isDealerFilterSelected := !old(isDealerFilterSelected))
    {
      isDealerFilterSelected := !isDealerFilterSelected;
    }

    /** `dealersWithSelectedFlag()` on the current state. */
    function DealersWithSelectedFlag(): (r: seq<Dealer>)
      reads this
      ensures |r| == |dealers|
    {
      WithSelectedFlag(dealers, selectedDealer)
    }

    /** `render()`: the list and the details panel built from the state. */
    function Render(): (v: LocatorView)
      reads this
      ensures v.detailsVisible <==> selectedDealer.Some?
      ensures v.details.EmptyDiv? <==> selectedDealer.None?
      ensures v.list.border <==> v.list.emphasized != []
    {
      LocatorView(DealerList(DealersWithSelectedFlag(), mapCenter, mapBoundary),
                  DealerDetailsView(selectedDealer), selectedDealer.Some?)
    }
  }

  /** Flipping the online filter twice restores the whole state. */
  method ToggleOnlineFilterTwice(l: DealerLocator)
    modifies l
    ensures l.State() == old(l.State())
  {
    l.OnlineFilterIsSelected();
    l.OnlineFilterIsSelected();
  }

  /** Selecting a dealer on a ready map never fits bounds: the log grows by
      a zoom in [10, 20] followed by a pan to the dealer. */
  method SelectOnReadyMap(l: DealerLocator, dealer: Dealer)
    modifies l
    requires l.mapReady
    ensures |l.effects| == |old(l.effects)| + 2
    ensures l.effects[..|old(l.effects)|] == old(l.effects)
    ensures var z := l.effects[|old(l.effects)|];
            z.SetZoom? && MinZoom <= z.zoom <= MaxZoom
    ensures l.effects[|old(l.effects)| + 1] == PanTo(dealer.location)
    ensures l.selectedDealer == Some(dealer)
  {
    var outcome := l.OnDealerSelected(dealer);
    assert outcome == Moved;
  }
}
