/** The dealer list (src/dealer-list.js): which dealers lie inside the current
    map viewport, the two distance-sorted lists the component renders, and
    the address line of each card. */
module DealerListing {
  import opened JsValues
  import opened Geometry
  import opened Lodash
  import opened Dealers

  /** The viewport as the orchestrator records it: two opposite corners. */
  datatype Boundary = Boundary(northEastCorner: Coord, southWestCorner: Coord)

  /** The same rectangle in edge form. */
  function EdgesOf(b: Boundary): Box {
    Box(b.northEastCorner.lat, b.southWestCorner.lat, b.northEastCorner.lng, b.southWestCorner.lng)
  }

  /** The corner form of an edge-form box. */
  function CornersOf(b: Box): Boundary {
    Boundary(Coord(b.north, b.east), Coord(b.south, b.west))
  }

  /** `isLocationWithinBoundary(location, boundary)`: no boundary contains
      nothing; otherwise the point must lie strictly below the north-east
      corner and strictly above the south-west corner on both axes. There is
      no special case for a viewport that crosses the antimeridian. */
  function IsLocationWithinBoundary(location: Coord, boundary: Option<Boundary>): (r: bool)
    ensures boundary.None? ==> !r
    ensures boundary.Some? ==> (r <==> StrictlyInside(EdgesOf(boundary.value), location))
  {
    match boundary
    case None => false
    case Some(b) =>
      var belowNorthEastCorner :=
        location.lng < b.northEastCorner.lng && location.lat < b.northEastCorner.lat;
      var aboveSouthWestCorner :=
        location.lng > b.southWestCorner.lng && location.lat > b.southWestCorner.lat;
      belowNorthEastCorner && aboveSouthWestCorner
  }

  /** A viewport whose east edge is not east of its west edge (as Google Maps
      reports one that crosses longitude 180), or whose north edge is not north
      of its south edge, contains no location at all. */
  lemma NoWraparound(location: Coord, b: Boundary)
    requires b.northEastCorner.lng <= b.southWestCorner.lng
          || b.northEastCorner.lat <= b.southWestCorner.lat
    ensures !IsLocationWithinBoundary(location, Some(b))
  {
  }

  /** Containment is monotone: enlarging the viewport keeps every contained point. */
  lemma WithinMonotone(location: Coord, small: Boundary, large: Boundary)
    requires large.northEastCorner.lat >= small.northEastCorner.lat
    requires large.northEastCorner.lng >= small.northEastCorner.lng
    requires large.southWestCorner.lat <= small.southWestCorner.lat
    requires large.southWestCorner.lng <= small.southWestCorner.lng
    requires IsLocationWithinBoundary(location, Some(small))
    ensures IsLocationWithinBoundary(location, Some(large))
  {
  }

  /** For the box `createMapBounds` builds, the point it was built for sits on
      a corner and is therefore not contained, while the centre is. */
  lemma BoundsCornerNotContained(c: Coord, p: Coord)
    requires SymmetricBox(c, p).Some?
    ensures !IsLocationWithinBoundary(p, Some(CornersOf(SymmetricBox(c, p).value)))
    ensures IsLocationWithinBoundary(c, Some(CornersOf(SymmetricBox(c, p).value)))
  {
  }

  /** `!isLocationWithinBoundary(dealer.location, mapBoundary)` and its negation
      as the two filter predicates. */
  function OnMap(boundary: Option<Boundary>): (f: Dealer -> bool)
    ensures forall d: Dealer, e: Dealer :: d.location == e.location ==> (f(d) <==> f(e))
    ensures boundary.None? ==> forall d :: !f(d)
  {
    (d: Dealer) => IsLocationWithinBoundary(d.location, boundary)
  }

  function OffMap(boundary: Option<Boundary>): (f: Dealer -> bool)
    ensures forall d :: f(d) <==> !OnMap(boundary)(d)
  {
    (d: Dealer) => !IsLocationWithinBoundary(d.location, boundary)
  }

  /** The separator `DealerCard` puts between the street/city half and the
      state/zip half of the address line: ", " when both halves have a truthy
      field, a single space otherwise. For records whose fields are strings or
      absent, that is exactly when both halves render some text. */
  function AddressSeparator(d: Dealer): (sep: string)
    ensures sep == ", " || sep == " "
    ensures (!Prop(d, "addr1").Bool? && !Prop(d, "city").Bool?
             && !Prop(d, "state").Bool? && !Prop(d, "zip").Bool?) ==>
      (sep == ", " <==> (JsxText(Prop(d, "addr1")) + JsxText(Prop(d, "city")) != ""
                         && JsxText(Prop(d, "state")) + JsxText(Prop(d, "zip")) != ""))
  {
    if (Truthy(Prop(d, "addr1")) || Truthy(Prop(d, "city")))
       && (Truthy(Prop(d, "state")) || Truthy(Prop(d, "zip")))
    then ", " else " "
  }

  /** A rendered `DealerCard`: its React key, the dealer its click handler
      reports, the name heading and the address line. */
  datatype Card = Card(key: nat, dealer: Dealer, name: string, location: string)

  function DealerCard(d: Dealer, key: nat): (c: Card)
    ensures c.dealer == d && c.key == key
  {
    Card(key, d, JsxText(Prop(d, "name")),
         JsxText(Prop(d, "addr1")) + " " + JsxText(Prop(d, "city"))
         + AddressSeparator(d)
         + JsxText(Prop(d, "state")) + " " + JsxText(Prop(d, "zip")))
  }

  /** For a record whose address fields are strings without commas (or are
      absent), the card's address line holds a comma exactly when both its
      street/city half and its state/zip half show some text. */
  lemma CardAddressComma(d: Dealer, key: nat)
    requires forall k :: k in ["addr1", "city", "state", "zip"] ==> !Prop(d, k).Bool? && ',' !in JsxText(Prop(d, k))
    ensures var a1, ci, st, zi := JsxText(Prop(d, "addr1")), JsxText(Prop(d, "city")),
                                  JsxText(Prop(d, "state")), JsxText(Prop(d, "zip"));
            ',' in DealerCard(d, key).location <==> (a1 + ci != "" && st + zi != "")
  {
    var a1, ci, st, zi := JsxText(Prop(d, "addr1")), JsxText(Prop(d, "city")),
                          JsxText(Prop(d, "state")), JsxText(Prop(d, "zip"));
    assert "addr1" in ["addr1", "city", "state", "zip"] && "city" in ["addr1", "city", "state", "zip"];
    assert "state" in ["addr1", "city", "state", "zip"] && "zip" in ["addr1", "city", "state", "zip"];
    var sep := AddressSeparator(d);
    assert Occurrences(" ", ',') == 0 && Occurrences(", ", ',') == 1;
    OccurrencesAppend(a1, " ", ',');
    OccurrencesAppend(a1 + " ", ci, ',');
    OccurrencesAppend(a1 + " " + ci, sep, ',');
    OccurrencesAppend(a1 + " " + ci + sep, st, ',');
    OccurrencesAppend(a1 + " " + ci + sep + st, " ", ',');
    OccurrencesAppend(a1 + " " + ci + sep + st + " ", zi, ',');
  }

  /** `.map(dealerCardCreator)`: one card per dealer, keyed by its position. */
  function Cards(ds: seq<Dealer>): (r: seq<Card>)
    ensures |r| == |ds|
    ensures forall i :: 0 <= i < |ds| ==> r[i] == DealerCard(ds[i], i)
  {
    seq(|ds|, i requires 0 <= i < |ds| => DealerCard(ds[i], i))
  }

  /** The dealers behind a list of cards, in order. */
  function CardDealers(cards: seq<Card>): (r: seq<Dealer>)
    ensures |r| == |cards|
    ensures forall i :: 0 <= i < |cards| ==> r[i] == cards[i].dealer
  {
    seq(|cards|, i requires 0 <= i < |cards| => cards[i].dealer)
  }

  /** What `DealerList` renders: the emphasized list of dealers inside the
      viewport, the border element (present or not), and the plain list of
      the others. */
  datatype ListView = ListView(emphasized: seq<Card>, border: bool, plain: seq<Card>)

  /** `_.sortBy(dealersOnMap, sorter)`. */
  function SortedOnMap(dealers: seq<Dealer>, mapCenter: Coord, mapBoundary: Option<Boundary>): (r: seq<Dealer>)
    ensures multiset(r) == multiset(Filter(dealers, OnMap(mapBoundary)))
    ensures forall i :: 0 <= i < |r| ==> IsLocationWithinBoundary(r[i].location, mapBoundary)
    ensures SortedBy(r, DistanceTo(mapCenter))
  {
    SortByFilterKeeps(dealers, OnMap(mapBoundary), DistanceTo(mapCenter));
    SortByIsSorted(Filter(dealers, OnMap(mapBoundary)), DistanceTo(mapCenter));
    SortBy(Filter(dealers, OnMap(mapBoundary)), DistanceTo(mapCenter))
  }

  /** `_.sortBy(dealersOffMap, sorter)`. */
  function SortedOffMap(dealers: seq<Dealer>, mapCenter: Coord, mapBoundary: Option<Boundary>): (r: seq<Dealer>)
    ensures multiset(r) == multiset(Filter(dealers, OffMap(mapBoundary)))
    ensures forall i :: 0 <= i < |r| ==> !IsLocationWithinBoundary(r[i].location, mapBoundary)
    ensures SortedBy(r, DistanceTo(mapCenter))
  {
    SortByFilterKeeps(dealers, OffMap(mapBoundary), DistanceTo(mapCenter));
    SortByIsSorted(Filter(dealers, OffMap(mapBoundary)), DistanceTo(mapCenter));
    SortBy(Filter(dealers, OffMap(mapBoundary)), DistanceTo(mapCenter))
  }

  /** `DealerList({dealers, mapCenter, mapBoundary, border})`. */
  function DealerList(dealers: seq<Dealer>, mapCenter: Coord, mapBoundary: Option<Boundary>): (v: ListView)
    ensures v.border <==> v.emphasized != []
    ensures forall i :: 0 <= i < |v.emphasized| ==>
      v.emphasized[i].key == i && IsLocationWithinBoundary(v.emphasized[i].dealer.location, mapBoundary)
    ensures forall i :: 0 <= i < |v.plain| ==>
      v.plain[i].key == i && !IsLocationWithinBoundary(v.plain[i].dealer.location, mapBoundary)
  {
    var onMap := SortedOnMap(dealers, mapCenter, mapBoundary);
    var offMap := SortedOffMap(dealers, mapCenter, mapBoundary);
    SortByFilterKeeps(dealers, OnMap(mapBoundary), DistanceTo(mapCenter));
    SortByFilterKeeps(dealers, OffMap(mapBoundary), DistanceTo(mapCenter));
    ListView(Cards(onMap), onMap != [], Cards(offMap))
  }

  /** Every dealer appears in exactly one of the two lists, as often as in the input. */
  lemma DealerListPartition(dealers: seq<Dealer>, mapCenter: Coord, mapBoundary: Option<Boundary>)
    ensures var v := DealerList(dealers, mapCenter, mapBoundary);
            multiset(CardDealers(v.emphasized)) + multiset(CardDealers(v.plain)) == multiset(dealers)
  {
    var v := DealerList(dealers, mapCenter, mapBoundary);
    CardsRoundTrip(SortedOnMap(dealers, mapCenter, mapBoundary));
    CardsRoundTrip(SortedOffMap(dealers, mapCenter, mapBoundary));
    FilterPartition(dealers, OnMap(mapBoundary), OffMap(mapBoundary));
  }

  lemma CardsRoundTrip(ds: seq<Dealer>)
    ensures CardDealers(Cards(ds)) == ds
  {
  }

  /** Each list is in ascending order of distance to the map centre. */
  lemma DealerListSorted(dealers: seq<Dealer>, mapCenter: Coord, mapBoundary: Option<Boundary>)
    ensures var v := DealerList(dealers, mapCenter, mapBoundary);
            SortedBy(CardDealers(v.emphasized), DistanceTo(mapCenter))
            && SortedBy(CardDealers(v.plain), DistanceTo(mapCenter))
  {
    CardsRoundTrip(SortedOnMap(dealers, mapCenter, mapBoundary));
    CardsRoundTrip(SortedOffMap(dealers, mapCenter, mapBoundary));
    SortByIsSorted(Filter(dealers, OnMap(mapBoundary)), DistanceTo(mapCenter));
    SortByIsSorted(Filter(dealers, OffMap(mapBoundary)), DistanceTo(mapCenter));
  }

  /** The sort is stable: dealers at the same distance keep their input order
      within each list. */
  lemma DealerListStable(dealers: seq<Dealer>, mapCenter: Coord, mapBoundary: Option<Boundary>, k: real)
    ensures var v := DealerList(dealers, mapCenter, mapBoundary);
            var atK := KeyIs(DistanceTo(mapCenter), k);
            Filter(CardDealers(v.emphasized), atK) == Filter(Filter(dealers, OnMap(mapBoundary)), atK)
            && Filter(CardDealers(v.plain), atK) == Filter(Filter(dealers, OffMap(mapBoundary)), atK)
  {
    CardsRoundTrip(SortedOnMap(dealers, mapCenter, mapBoundary));
    CardsRoundTrip(SortedOffMap(dealers, mapCenter, mapBoundary));
    SortByIsStable(Filter(dealers, OnMap(mapBoundary)), DistanceTo(mapCenter), k);
    SortByIsStable(Filter(dealers, OffMap(mapBoundary)), DistanceTo(mapCenter), k);
  }

  /** Before the first viewport is known every dealer is listed plainly, sorted
      by distance, and no border is shown. */
  lemma NullBoundaryListsEverythingPlainly(dealers: seq<Dealer>, mapCenter: Coord)
    ensures var v := DealerList(dealers, mapCenter, None);
            v.emphasized == [] && !v.border
            && CardDealers(v.plain) == SortBy(dealers, DistanceTo(mapCenter))
  {
    FilterNone(dealers, OnMap(None));
    FilterAll(dealers, OffMap(None));
    CardsRoundTrip(SortedOffMap(dealers, mapCenter, None));
  }
}
