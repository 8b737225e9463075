/** Map coordinates and `createMapBounds` (src/utils.js): the box, centred on
    the map centre, that has a given point on one of its corners. */
module Geometry {
  import opened JsValues

  /** A latitude/longitude pair in decimal degrees. No range is enforced. */
  datatype Coord = Coord(lat: real, lng: real)

  /** The object literal `createMapBounds` fills in; a property it never
      assigns is `None`. */
  datatype LatLngBounds = LatLngBounds(north: Option<real>, south: Option<real>,
                                       east: Option<real>, west: Option<real>)

  /** A box given by its four edges. */
  datatype Box = Box(north: real, south: real, east: real, west: real)

  /** `{}`: the object with no properties. */
  const EmptyBounds := LatLngBounds(None, None, None, None)

  /** The object literal holding exactly the four edges of a box, or `{}`. */
  function AsBounds(b: Option<Box>): LatLngBounds {
    match b
    case None => EmptyBounds
    case Some(x) => LatLngBounds(Some(x.north), Some(x.south), Some(x.east), Some(x.west))
  }

  /** The mirror image of `x` through `c` on one axis. */
  function Reflect(c: real, x: real): real {
    2.0 * c - x
  }

  /** The mirror image of `p` through `c`. */
  function ReflectPoint(c: Coord, p: Coord): Coord {
    Coord(Reflect(c.lat, p.lat), Reflect(c.lng, p.lng))
  }

  function Max(a: real, b: real): real { if a < b then b else a }
  function Min(a: real, b: real): real { if a < b then a else b }

  /** True when `q` lies strictly inside `b` on both axes. */
  predicate StrictlyInside(b: Box, q: Coord) {
    b.south < q.lat < b.north && b.west < q.lng < b.east
  }

  /** Reference definition, independent of the quadrant branches: the box
      spanned by `p` and its reflection through `c`, which exists only when
      `p` differs from `c` on both axes. */
  function SymmetricBox(c: Coord, p: Coord): (r: Option<Box>)
    ensures r.Some? <==> p.lat != c.lat && p.lng != c.lng
    ensures r.Some? ==> (r.value.north + r.value.south == 2.0 * c.lat
                         && r.value.east + r.value.west == 2.0 * c.lng)
    ensures r.Some? ==> r.value.north > r.value.south && r.value.east > r.value.west
    ensures r.Some? ==> ((p.lat == r.value.north || p.lat == r.value.south)
                         && (p.lng == r.value.east || p.lng == r.value.west))
  {
    if p.lat == c.lat || p.lng == c.lng then None
    else
      var q := ReflectPoint(c, p);
      Some(Box(Max(p.lat, q.lat), Min(p.lat, q.lat), Max(p.lng, q.lng), Min(p.lng, q.lng)))
  }

  /** `createMapBounds(center, pointToInclude)`: four strict comparisons, then
      four `if` statements in source order, each filling the literal when its
      two flags hold. The result is either `{}` or the symmetric box. */
  function CreateMapBounds(center: Coord, pointToInclude: Coord): (r: LatLngBounds)
    ensures r == AsBounds(SymmetricBox(center, pointToInclude))
  {
    var c, p := center, pointToInclude;
    var isEast := p.lng > c.lng;
    var isWest := p.lng < c.lng;
    var isNorth := p.lat > c.lat;
    var isSouth := p.lat < c.lat;
    var b0 := EmptyBounds;
    // north-east corner pinned to the point
    var b1 :=
      if isEast && isNorth then
        var b := b0.(north := Some(p.lat), east := Some(p.lng));
        b.(south := Some(c.lat - (p.lat - c.lat)), west := Some(c.lng - (p.lng - c.lng)))
      else b0;
    // south-west corner pinned to the point
    var b2 :=
      if isWest && isSouth then
        var b := b1.(west := Some(p.lng), south := Some(p.lat));
        b.(north := Some(c.lat + (c.lat - p.lat)), east := Some(c.lng + (c.lng - p.lng)))
      else b1;
    // north-west corner pinned to the point
    var b3 :=
      if isWest && isNorth then
        var b := b2.(west := Some(p.lng), north := Some(p.lat));
        b.(south := Some(c.lat - (p.lat - c.lat)), east := Some(c.lng - (p.lng - c.lng)))
      else b2;
    // south-east corner pinned to the point
    var b4 :=
      if isSouth && isEast then
        var b := b3.(east := Some(p.lng), south := Some(p.lat));
        b.(west := Some(c.lng - (p.lng - c.lng)), north := Some(c.lat - (p.lat - c.lat)))
      else b3;
    b4
  }

  /** The returned object is all or nothing: either no property is set, or all
      four are; and it is `{}` exactly when the point ties the centre on an axis. */
  lemma AllOrNothing(c: Coord, p: Coord)
    ensures var r := CreateMapBounds(c, p);
            (r == EmptyBounds <==> (p.lat == c.lat || p.lng == c.lng))
            && (r != EmptyBounds ==> r.north.Some? && r.south.Some? && r.east.Some? && r.west.Some?)
  {
  }

  /** Which corner the point is pinned to, one case per branch. */
  lemma QuadrantCorners(c: Coord, p: Coord)
    ensures p.lng > c.lng && p.lat > c.lat ==>
      CreateMapBounds(c, p) == LatLngBounds(Some(p.lat), Some(2.0 * c.lat - p.lat),
                                            Some(p.lng), Some(2.0 * c.lng - p.lng))
    ensures p.lng < c.lng && p.lat < c.lat ==>
      CreateMapBounds(c, p) == LatLngBounds(Some(2.0 * c.lat - p.lat), Some(p.lat),
                                            Some(2.0 * c.lng - p.lng), Some(p.lng))
    ensures p.lng < c.lng && p.lat > c.lat ==>
      CreateMapBounds(c, p) == LatLngBounds(Some(p.lat), Some(2.0 * c.lat - p.lat),
                                            Some(2.0 * c.lng - p.lng), Some(p.lng))
    ensures p.lng > c.lng && p.lat < c.lat ==>
      CreateMapBounds(c, p) == LatLngBounds(Some(2.0 * c.lat - p.lat), Some(p.lat),
                                            Some(p.lng), Some(2.0 * c.lng - p.lng))
  {
  }

  /** Replacing the point by its reflection through the centre gives the same box. */
  lemma ReflectionInvariant(c: Coord, p: Coord)
    ensures CreateMapBounds(c, ReflectPoint(c, p)) == CreateMapBounds(c, p)
  {
  }

  /** The box is the one centred on `c` whose half-extents are the point's
      offsets: every point strictly closer to `c` on both axes lies strictly
      inside, while `p` itself and the centre's far side do not escape it. */
  lemma ContainsCloserPoints(c: Coord, p: Coord, q: Coord)
    requires SymmetricBox(c, p).Some?
    ensures var b := SymmetricBox(c, p).value;
            (Square(q.lat - c.lat) < Square(p.lat - c.lat)
             && Square(q.lng - c.lng) < Square(p.lng - c.lng)
            <==> StrictlyInside(b, q))
  {
    var b := SymmetricBox(c, p).value;
    SquareLess(q.lat - c.lat, p.lat - c.lat);
    SquareLess(q.lng - c.lng, p.lng - c.lng);
  }

  function Square(x: real): real { x * x }

  /** x^2 < y^2 exactly when -|y| < x < |y|. */
  lemma SquareLess(x: real, y: real)
    ensures Square(x) < Square(y) <==> (if y < 0.0 then y < x < -y else -y < x < y)
  {
    var a := if y < 0.0 then -y else y;
    SquareOfNegation(y);
    assert Square(y) == Square(a);
    if -a < x < a {
      SquareBelow(x, a);
    } else {
      SquareNotBelow(x, a);
    }
  }

  lemma SquareOfNegation(y: real)
    ensures Square(-y) == Square(y)
  {
  }

  lemma SquareBelow(x: real, a: real)
    requires -a < x < a
    ensures Square(x) < Square(a)
  {
    PositiveProduct(a - x, a + x);
    assert Square(a) - Square(x) == (a - x) * (a + x);
  }

  lemma SquareNotBelow(x: real, a: real)
    requires a >= 0.0 && (x <= -a || a <= x)
    ensures Square(a) <= Square(x)
  {
    if x <= -a {
      NonNegativeProduct(-x - a, a - x);
      assert Square(x) - Square(a) == (-x - a) * (a - x);
    } else {
      NonNegativeProduct(x - a, x + a);
      assert Square(x) - Square(a) == (x - a) * (x + a);
    }
  }

  /** A square is zero at zero and positive elsewhere. */
  lemma SquareSign(x: real)
    ensures x == 0.0 ==> Square(x) == 0.0
    ensures x != 0.0 ==> Square(x) > 0.0
  {
    if x < 0.0 {
      calc { Square(x); == (-x) * (-x); > { PositiveProduct(-x, -x); } 0.0; }
    } else if x > 0.0 {
      calc { Square(x); == x * x; > { PositiveProduct(x, x); } 0.0; }
    } else {
      calc { Square(x); == 0.0 * 0.0; == 0.0; }
    }
  }

  lemma PositiveProduct(u: real, v: real)
    requires u > 0.0 && v > 0.0
    ensures u * v > 0.0
  {
  }

  lemma NonNegativeProduct(u: real, v: real)
    requires u >= 0.0 && v >= 0.0
    ensures u * v >= 0.0
  {
  }

  /** No clamping or wrapping: centre at longitude 170 and a point to its
      south-west at longitude 100 give an east edge at 240. */
  lemma NoWrapping(c: Coord, p: Coord)
    requires c.lng == 170.0 && p.lng == 100.0 && p.lat < c.lat
    ensures CreateMapBounds(c, p).east == Some(240.0)
  {
  }
}
