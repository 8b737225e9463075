/** A dealer record as the host application supplies it: a location and a
    bag of named properties (`id`, `name`, `addr`, `addr1`, `city`, `state`,
    `zip`, `country`, `phone`, `website`, ...). */
module Dealers {
  import opened JsValues
  import opened Geometry

  datatype Dealer = Dealer(location: Coord, props: map<string, JsValue>)

  /** `dealer[key]`: `undefined` for a property the record does not have. */
  function Prop(d: Dealer, key: string): (v: JsValue)
    ensures key !in d.props ==> v == Undefined
  {
    if key in d.props then d.props[key] else Undefined
  }

  /** Squared planar distance in degrees between two points. The source takes
      the square root; `sqrt` is strictly increasing on non-negative numbers,
      so comparing squares orders points the same way. */
  function DistanceSquared(a: Coord, b: Coord): (r: real)
    ensures r >= 0.0
    ensures r == 0.0 <==> a == b
  {
    var dLat, dLng := a.lat - b.lat, a.lng - b.lng;
    SquareSign(dLat);
    SquareSign(dLng);
    Square(dLat) + Square(dLng)
  }

  /** The sort key the list and the orchestrator use: distance to `center`. */
  function DistanceTo(center: Coord): (f: Dealer -> real)
    ensures forall d :: f(d) >= 0.0 && (f(d) == 0.0 <==> d.location == center)
    ensures forall d: Dealer, e: Dealer :: d.location == e.location ==> f(d) == f(e)
  {
    (d: Dealer) => DistanceSquared(d.location, center)
  }
}
