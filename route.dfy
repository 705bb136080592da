/** The route planner panel: a three-point route from a clicked origin to the
    hospital, or a fixed four-point route with a simulated distance, and the ETA
    and risk label derived from the distance.
 */
module Route {
  import opened JsNumbers

  datatype Option<T> = None | Some(value: T)

  datatype LatLng = LatLng(lat: real, lng: real)

  datatype RouteRisk = Normal | Elevated

  datatype RoutePlan = RoutePlan(coords: seq<LatLng>, distanceKm: real, etaMin: int,
                                 risk: RouteRisk, blockedSegments: int)

  /** The fixed safe route used when no origin has been clicked. */
  function SafeRouteCoords(): seq<LatLng>
  {
    [LatLng(37.78, -122.45), LatLng(37.79, -122.43), LatLng(37.77, -122.42), LatLng(37.76, -122.41)]
  }

  /** The middle waypoint: the mean of both ends, nudged 0.01 degrees north. */
  function Midpoint(a: LatLng, b: LatLng): LatLng
  {
    LatLng((a.lat + b.lat) / 2.0 + 0.01, (a.lng + b.lng) / 2.0)
  }

  /** Travel time in whole minutes at 0.6 km per minute. */
  function EtaMinutes(distanceKm: real): (eta: int)
    ensures distanceKm / 0.6 - 0.5 < eta as real <= distanceKm / 0.6 + 0.5
  {
    Round(distanceKm / 0.6)
  }

  /** Routes of more than 14 minutes are flagged; 14 minutes or less are normal. */
  function RiskOf(etaMin: int): (risk: RouteRisk)
    ensures risk == Normal <==> etaMin <= 14
  {
    if etaMin > 14 then Elevated else Normal
  }

  /** The placeholder distance of the fixed route, drawn from [7, 9). */
  function DefaultDistance(r: Draw): (d: real)
    ensures 7.0 <= d < 9.0
  {
    7.0 + r * 2.0
  }

  /** Plans a route. With both an origin and the hospital marker present the
      route has three points and `originDistanceKm`, the great-circle distance
      between them, is used; otherwise the fixed route and a drawn distance are. */
  function UpdateRoutePlan(start: Option<LatLng>, hospital: Option<LatLng>, originDistanceKm: real,
                           r: Draw, blockedSegments: int): (plan: RoutePlan)
    ensures plan.etaMin == EtaMinutes(plan.distanceKm)
    ensures plan.risk == Elevated <==> plan.etaMin > 14
    ensures plan.blockedSegments == blockedSegments
    ensures start.Some? && hospital.Some? ==>
              |plan.coords| == 3 && plan.coords[0] == start.value && plan.coords[2] == hospital.value
              && plan.coords[1] == Midpoint(start.value, hospital.value)
              && plan.distanceKm == originDistanceKm
    ensures !(start.Some? && hospital.Some?) ==>
              plan.coords == SafeRouteCoords() && 7.0 <= plan.distanceKm < 9.0
  {
    var (coords, distanceKm) :=
      if start.Some? && hospital.Some? then
        ([start.value, Midpoint(start.value, hospital.value), hospital.value], originDistanceKm)
      else
        (SafeRouteCoords(), DefaultDistance(r));
    var etaMin := EtaMinutes(distanceKm);
    RoutePlan(coords, distanceKm, etaMin, RiskOf(etaMin), blockedSegments)
  }

  /** A route is labelled Elevated exactly when it is at least 8.7 km long. */
  lemma ElevatedExactlyFrom87(distanceKm: real)
    ensures RiskOf(EtaMinutes(distanceKm)) == Elevated <==> distanceKm >= 8.7
  {
    var x := distanceKm / 0.6;
    assert distanceKm >= 8.7 <==> x >= 14.5;
    if x >= 14.5 {
      RoundMonotone(14.5, x);
      assert Round(14.5) == 15;
    } else {
      assert x + 0.5 < 15.0;
    }
  }

  /** A longer route never has a shorter ETA. */
  lemma EtaMonotone(d1: real, d2: real)
    requires d1 <= d2
    ensures EtaMinutes(d1) <= EtaMinutes(d2)
  {
    RoundMonotone(d1 / 0.6, d2 / 0.6);
  }

  /** The fixed route always takes 12 to 15 minutes, and is Elevated exactly
      when the draw is at least 0.85. */
  lemma DefaultRouteEta(r: Draw)
    ensures 12 <= EtaMinutes(DefaultDistance(r)) <= 15
    ensures RiskOf(EtaMinutes(DefaultDistance(r))) == Elevated <==> r >= 0.85
  {
    var d := DefaultDistance(r);
    EtaMonotone(7.0, d);
    assert Round(7.0 / 0.6) == 12;
    assert Round(d / 0.6) <= 15 by {
      assert d / 0.6 + 0.5 < 15.5;
    }
    ElevatedExactlyFrom87(d);
  }
}
