/**
 * The transforms between geographic positions and map locations for the
 * four projection kinds, and the dispatch on the stored kind.
 *
 * The transcendental functions and the Snyder series are not computed
 * here: they are fields of a `Numerics` record and stay uninterpreted.
 * What is stated and proved is the dispatch, the derived UTM constants,
 * the altitude pass-through, the longitude normalisation and the control
 * of the Lambert latitude iteration.
 */
module GeoProjectionTransforms {
  import opened GeoProjectionsParams
  import opened GeoLocation
  import opened GeoProjection

  /** A map location in metres. */
  datatype Location = Location(x: real, y: real, z: real)

  /** Math::Pi<double>(). */
  const PI: real := 3.141592653589793

  function DegreesToRadians(degrees: real): real { degrees * PI / 180.0 }

  function RadiansToDegrees(radians: real): real { radians * 180.0 / PI }

  /** Over the reals the two conversions are inverse to each other. */
  lemma DegreesRadiansRoundTrip(d: real)
    ensures RadiansToDegrees(DegreesToRadians(d)) == d
    ensures DegreesToRadians(RadiansToDegrees(d)) == d
  {
  }

  /**
   * The numerical primitives. `div` is the machine division (its value at
   * a zero divisor is left open); the remaining fields after `div` are the
   * series of the projections, each a function of the ellipsoid:
   *   arc(e, phi)            meridional arc M from the equator to phi,
   *   tmEasting(e, lat, dl)  N (A + ... A^5 ...) of the TM forward easting,
   *   tmNorthing(e, lat, dl) N tan(lat) (A^2/2 + ...) of the TM forward northing,
   *   footpoint(e, M)        footpoint latitude phi1 of the TM inverse,
   *   tmLatitude(e, phi1, x) latitude of the TM inverse,
   *   tmLongitude(e, phi1, x) longitude offset (D - ...)/cos(phi1) of the TM inverse,
   *   lccCone(e, lat1, lat2)  cone constant n of the Lambert projection,
   *   lccScale(e, lat1, lat2) the constant F of the Lambert projection,
   *   lccT(e, phi)            the isometric term t(phi) of the Lambert projection,
   *   lccRatio(e, phi)        ((1 - e sin phi) / (1 + e sin phi))^(e/2).
   */
  datatype Numerics = Numerics(
    sin: real -> real,
    cos: real -> real,
    tan: real -> real,
    atan: real -> real,
    atan2: (real, real) -> real,
    exp: real -> real,
    log: real -> real,
    pow: (real, real) -> real,
    hypot: (real, real) -> real,
    div: (real, real) -> real,
    arc: (Ellipsoid, real) -> real,
    tmEasting: (Ellipsoid, real, real) -> real,
    tmNorthing: (Ellipsoid, real, real) -> real,
    footpoint: (Ellipsoid, real) -> real,
    tmLatitude: (Ellipsoid, real, real) -> real,
    tmLongitude: (Ellipsoid, real, real) -> real,
    lccCone: (Ellipsoid, real, real) -> real,
    lccScale: (Ellipsoid, real, real) -> real,
    lccT: (Ellipsoid, real) -> real,
    lccRatio: (Ellipsoid, real) -> real)

  /** The machine division agrees with real division for a non-zero divisor. */
  ghost predicate ExactDivision(m: Numerics) {
    forall x: real, y: real :: y != 0.0 ==> m.div(x, y) == x / y
  }

  /** atan2(sin x, cos x) lies in (-pi, pi], as the C library promises. */
  ghost predicate NormalisesAngles(m: Numerics) {
    forall x: real :: -PI < m.atan2(m.sin(x), m.cos(x)) <= PI
  }

  /** The meridional arc from the equator to the equator is zero. */
  ghost predicate ArcStartsAtEquator(m: Numerics) {
    forall e: Ellipsoid :: m.arc(e, 0.0) == 0.0
  }

  /** The angle `angle` brought into (-pi, pi] as atan2(sin, cos). */
  function Normalise(m: Numerics, angle: real): real {
    m.atan2(m.sin(angle), m.cos(angle))
  }

  // ---------------------------------------------------------------- forward

  function TransverseMercatorForward(m: Numerics, g: GeoLocation, p: TransverseMercatorParams): Location {
    var lat := DegreesToRadians(g.latitude);
    var lon := DegreesToRadians(g.longitude);
    var lat0 := DegreesToRadians(p.lat0);
    var lon0 := DegreesToRadians(p.lon0);
    var dlon := Normalise(m, lon - lon0);
    Location(
      p.x0 + p.k * m.tmEasting(p.ellps, lat, dlon),
      p.y0 + p.k * ((m.arc(p.ellps, lat) - m.arc(p.ellps, lat0)) + m.tmNorthing(p.ellps, lat, dlon)),
      g.altitude)
  }

  /** Central meridian of a UTM zone, in degrees. */
  function CentralMeridian(zone: int): real { (6 * zone - 183) as real }

  /** UTM scale factor, false easting and false northing. */
  const UtmScale: real := 0.9996
  const UtmFalseEasting: real := 500000.0
  function UtmFalseNorthing(north: bool): real { if north then 0.0 else 10000000.0 }

  function UniversalTransverseMercatorForward(m: Numerics, g: GeoLocation, p: UniversalTransverseMercatorParams): Location {
    var lat := DegreesToRadians(g.latitude);
    var lon := DegreesToRadians(g.longitude);
    var lon0 := DegreesToRadians(CentralMeridian(p.zone));
    var k := UtmScale;
    var x0 := UtmFalseEasting;
    var y0 := UtmFalseNorthing(p.north);
    var dlon := Normalise(m, lon - lon0);
    Location(
      x0 + k * m.tmEasting(p.ellps, lat, dlon),
      y0 + k * (m.arc(p.ellps, lat) + m.tmNorthing(p.ellps, lat, dlon)),
      g.altitude)
  }

  function WebMercatorForward(m: Numerics, g: GeoLocation, p: WebMercatorParams): Location {
    var lat := DegreesToRadians(g.latitude);
    var lon := DegreesToRadians(g.longitude);
    Location(p.ellps.a * lon, p.ellps.a * m.log(m.tan(PI / 4.0 + lat / 2.0)), g.altitude)
  }

  function LambertConformalConicForward(m: Numerics, g: GeoLocation, p: LambertConformalConicParams): Location {
    var lat := DegreesToRadians(g.latitude);
    var lon := DegreesToRadians(g.longitude);
    var lon0 := DegreesToRadians(p.lon0);
    var lat0 := DegreesToRadians(p.lat0);
    var lat1 := DegreesToRadians(p.lat1);
    var lat2 := DegreesToRadians(p.lat2);
    var n := m.lccCone(p.ellps, lat1, lat2);
    var f := m.lccScale(p.ellps, lat1, lat2);
    var rho := p.ellps.a * f * m.pow(m.lccT(p.ellps, lat), n);
    var rho0 := p.ellps.a * f * m.pow(m.lccT(p.ellps, lat0), n);
    var theta := n * Normalise(m, lon - lon0);
    Location(p.x0 + rho * m.sin(theta), p.y0 + rho0 - rho * m.cos(theta), g.altitude)
  }

  /** `GeoLocationToTransform`: the forward routine of the stored kind. */
  function GeoLocationToTransform(m: Numerics, proj: Projection, g: GeoLocation): (r: Location)
    ensures r.z == g.altitude
  {
    match GetType(proj)
    case TransverseMercator => TransverseMercatorForward(m, g, proj.params.tm)
    case UniversalTransverseMercator => UniversalTransverseMercatorForward(m, g, proj.params.utm)
    case WebMercator => WebMercatorForward(m, g, proj.params.web)
    case LambertConformalConic => LambertConformalConicForward(m, g, proj.params.lcc)
  }

  // ---------------------------------------------------------------- inverse

  function TransverseMercatorInverse(m: Numerics, loc: Location, p: TransverseMercatorParams): GeoLocation {
    var lat0 := DegreesToRadians(p.lat0);
    var lon0 := DegreesToRadians(p.lon0);
    var x := m.div(loc.x - p.x0, p.k);
    var y := m.div(loc.y - p.y0, p.k);
    var phi1 := m.footpoint(p.ellps, m.arc(p.ellps, lat0) + y);
    var lat := m.tmLatitude(p.ellps, phi1, x);
    var lon := Normalise(m, lon0 + m.tmLongitude(p.ellps, phi1, x));
    GeoLocation(RadiansToDegrees(lat), RadiansToDegrees(lon), loc.z)
  }

  function UniversalTransverseMercatorInverse(m: Numerics, loc: Location, p: UniversalTransverseMercatorParams): GeoLocation {
    var lon0 := DegreesToRadians(CentralMeridian(p.zone));
    var k := UtmScale;
    var x0 := UtmFalseEasting;
    var y0 := UtmFalseNorthing(p.north);
    var x := m.div(loc.x - x0, k);
    var y := m.div(loc.y - y0, k);
    var phi1 := m.footpoint(p.ellps, y);
    var lat := m.tmLatitude(p.ellps, phi1, x);
    var lon := Normalise(m, lon0 + m.tmLongitude(p.ellps, phi1, x));
    GeoLocation(RadiansToDegrees(lat), RadiansToDegrees(lon), loc.z)
  }

  function WebMercatorInverse(m: Numerics, loc: Location, p: WebMercatorParams): GeoLocation {
    var lon := m.div(loc.x, p.ellps.a);
    var lat := 2.0 * m.atan(m.exp(m.div(loc.y, p.ellps.a))) - PI / 2.0;
    GeoLocation(RadiansToDegrees(lat), RadiansToDegrees(lon), loc.z)
  }

  /** The sign used for both rho and theta of the Lambert inverse. */
  function ConeSign(n: real): (s: real)
    ensures s == 1.0 || s == -1.0
    ensures s * n >= 0.0
  {
    if n >= 0.0 then 1.0 else -1.0
  }

  /** The isometric term t recovered from a Lambert map location. */
  function LambertInverseT(m: Numerics, loc: Location, p: LambertConformalConicParams): real {
    var lat0 := DegreesToRadians(p.lat0);
    var lat1 := DegreesToRadians(p.lat1);
    var lat2 := DegreesToRadians(p.lat2);
    var n := m.lccCone(p.ellps, lat1, lat2);
    var f := m.lccScale(p.ellps, lat1, lat2);
    var rho0 := p.ellps.a * f * m.pow(m.lccT(p.ellps, lat0), n);
    var x := loc.x - p.x0;
    var y := loc.y - p.y0;
    var rho := ConeSign(n) * m.hypot(x, rho0 - y);
    m.pow(m.div(rho, p.ellps.a * f), m.div(1.0, n))
  }

  /** The normalised longitude, in radians, recovered from a Lambert map location. */
  function LambertInverseLongitude(m: Numerics, loc: Location, p: LambertConformalConicParams): real {
    var lon0 := DegreesToRadians(p.lon0);
    var lat0 := DegreesToRadians(p.lat0);
    var lat1 := DegreesToRadians(p.lat1);
    var lat2 := DegreesToRadians(p.lat2);
    var n := m.lccCone(p.ellps, lat1, lat2);
    var f := m.lccScale(p.ellps, lat1, lat2);
    var rho0 := p.ellps.a * f * m.pow(m.lccT(p.ellps, lat0), n);
    var x := loc.x - p.x0;
    var y := loc.y - p.y0;
    var theta := m.atan2(ConeSign(n) * x, ConeSign(n) * (rho0 - y));
    Normalise(m, lon0 + m.div(theta, n))
  }

  /** The spherical first guess of the latitude. */
  function InitialLatitude(m: Numerics, t: real): real { PI * 0.5 - 2.0 * m.atan(t) }

  /** One fixed-point step of the latitude. */
  function LatitudeStep(m: Numerics, e: Ellipsoid, t: real, lat: real): real {
    PI * 0.5 - 2.0 * m.atan(t * m.lccRatio(e, lat))
  }

  /** Successive estimates closer than 1e-12 end the iteration. */
  predicate Converged(previous: real, next: real) {
    (if next >= previous then next - previous else previous - next) < 1.0 / 1000000000000.0
  }

  /** `k` steps of the iteration, with no stopping test. */
  function Iterate(m: Numerics, e: Ellipsoid, t: real, lat: real, k: nat): real
    decreases k
  {
    if k == 0 then lat else Iterate(m, e, t, LatitudeStep(m, e, t, lat), k - 1)
  }

  /** The iteration with its stopping test, for at most `fuel` steps. */
  function Refine(m: Numerics, e: Ellipsoid, t: real, lat: real, fuel: nat): real
    decreases fuel
  {
    if fuel == 0 then lat
    else
      var next := LatitudeStep(m, e, t, lat);
      if Converged(lat, next) then next else Refine(m, e, t, next, fuel - 1)
  }

  /** The number of steps `Refine` takes. */
  function StepsTaken(m: Numerics, e: Ellipsoid, t: real, lat: real, fuel: nat): nat
    decreases fuel
  {
    if fuel == 0 then 0
    else
      var next := LatitudeStep(m, e, t, lat);
      if Converged(lat, next) then 1 else 1 + StepsTaken(m, e, t, next, fuel - 1)
  }

  lemma {:induction false} IterateLast(m: Numerics, e: Ellipsoid, t: real, lat: real, k: nat)
    ensures Iterate(m, e, t, lat, k + 1) == LatitudeStep(m, e, t, Iterate(m, e, t, lat, k))
    decreases k
  {
    if k > 0 {
      IterateLast(m, e, t, LatitudeStep(m, e, t, lat), k - 1);
    }
  }

  /**
   * The iteration takes at most `fuel` steps and its result is the estimate
   * after that many steps. It stops early only right after a step that
   * moved the estimate by less than 1e-12 (the new estimate is kept), and
   * no earlier step did.
   */
  lemma {:induction false} RefineStops(m: Numerics, e: Ellipsoid, t: real, lat: real, fuel: nat)
    ensures StepsTaken(m, e, t, lat, fuel) <= fuel
    ensures Refine(m, e, t, lat, fuel) == Iterate(m, e, t, lat, StepsTaken(m, e, t, lat, fuel))
    ensures StepsTaken(m, e, t, lat, fuel) < fuel ==>
      Converged(Iterate(m, e, t, lat, StepsTaken(m, e, t, lat, fuel) - 1),
                Iterate(m, e, t, lat, StepsTaken(m, e, t, lat, fuel)))
    ensures forall j :: 1 <= j < StepsTaken(m, e, t, lat, fuel) ==>
      !Converged(Iterate(m, e, t, lat, j - 1), Iterate(m, e, t, lat, j))
    decreases fuel
  {
    if fuel > 0 {
      var next := LatitudeStep(m, e, t, lat);
      if !Converged(lat, next) {
        RefineStops(m, e, t, next, fuel - 1);
        var k := StepsTaken(m, e, t, next, fuel - 1);
        assert StepsTaken(m, e, t, lat, fuel) == k + 1;
        forall j | 1 <= j < k + 1
          ensures !Converged(Iterate(m, e, t, lat, j - 1), Iterate(m, e, t, lat, j))
        {
          if j >= 2 {
            assert Iterate(m, e, t, lat, j - 1) == Iterate(m, e, t, next, j - 2);
            assert Iterate(m, e, t, lat, j) == Iterate(m, e, t, next, j - 1);
          }
        }
        if k + 1 < fuel {
          assert Iterate(m, e, t, lat, k) == Iterate(m, e, t, next, k - 1);
          assert Iterate(m, e, t, lat, k + 1) == Iterate(m, e, t, next, k);
        }
      }
    }
  }

  /** The Lambert inverse as a value: the specification of the method below. */
  function LambertConformalConicInverse(m: Numerics, loc: Location, p: LambertConformalConicParams): GeoLocation {
    var t := LambertInverseT(m, loc, p);
    var lat := Refine(m, p.ellps, t, InitialLatitude(m, t), 10);
    GeoLocation(RadiansToDegrees(lat), RadiansToDegrees(LambertInverseLongitude(m, loc, p)), loc.z)
  }

  /** The Lambert inverse with its bounded fixed-point loop on the latitude. */
  method LambertConformalConicInverseLoop(m: Numerics, loc: Location, p: LambertConformalConicParams)
    returns (g: GeoLocation)
    ensures g == LambertConformalConicInverse(m, loc, p)
    ensures g.altitude == loc.z
  {
    var t := LambertInverseT(m, loc, p);
    var lat := RefineLatitude(m, p.ellps, t, InitialLatitude(m, t));
    var lon := LambertInverseLongitude(m, loc, p);
    g := GeoLocation(RadiansToDegrees(lat), RadiansToDegrees(lon), loc.z);
  }

  /** The latitude loop: at most ten steps, leaving as soon as a step moves less than 1e-12. */
  method RefineLatitude(m: Numerics, e: Ellipsoid, t: real, start: real) returns (lat: real)
    ensures lat == Refine(m, e, t, start, 10)
  {
    lat := start;
    var i := 0;
    while i < 10
      invariant 0 <= i <= 10
      invariant Refine(m, e, t, lat, 10 - i) == Refine(m, e, t, start, 10)
    {
      var latNext := LatitudeStep(m, e, t, lat);
      var delta := latNext - lat;
      if (if delta >= 0.0 then delta else -delta) < 1.0 / 1000000000000.0 {
        assert Converged(lat, latNext);
        return latNext;
      }
      lat := latNext;
      i := i + 1;
    }
  }

  /** `TransformToGeoLocation`: the inverse routine of the stored kind. */
  function TransformToGeoLocation(m: Numerics, proj: Projection, loc: Location): (r: GeoLocation)
    ensures r.altitude == loc.z
  {
    match GetType(proj)
    case TransverseMercator => TransverseMercatorInverse(m, loc, proj.params.tm)
    case UniversalTransverseMercator => UniversalTransverseMercatorInverse(m, loc, proj.params.utm)
    case WebMercator => WebMercatorInverse(m, loc, proj.params.web)
    case LambertConformalConic => LambertConformalConicInverse(m, loc, proj.params.lcc)
  }

  // ---------------------------------------------------------------- properties

  /** Both directions run the routine of the kind whose parameters are stored. */
  lemma DispatchFollowsKind(m: Numerics, proj: Projection, g: GeoLocation, loc: Location)
    ensures proj.params.TM? ==>
      GeoLocationToTransform(m, proj, g) == TransverseMercatorForward(m, g, proj.params.tm)
      && TransformToGeoLocation(m, proj, loc) == TransverseMercatorInverse(m, loc, proj.params.tm)
    ensures proj.params.UTM? ==>
      GeoLocationToTransform(m, proj, g) == UniversalTransverseMercatorForward(m, g, proj.params.utm)
      && TransformToGeoLocation(m, proj, loc) == UniversalTransverseMercatorInverse(m, loc, proj.params.utm)
    ensures proj.params.WebMerc? ==>
      GeoLocationToTransform(m, proj, g) == WebMercatorForward(m, g, proj.params.web)
      && TransformToGeoLocation(m, proj, loc) == WebMercatorInverse(m, loc, proj.params.web)
    ensures proj.params.LCC? ==>
      GeoLocationToTransform(m, proj, g) == LambertConformalConicForward(m, g, proj.params.lcc)
      && TransformToGeoLocation(m, proj, loc) == LambertConformalConicInverse(m, loc, proj.params.lcc)
  {
  }

  /** The TM parameters that UTM fixes for a zone and hemisphere. */
  function UtmAsTransverseMercator(p: UniversalTransverseMercatorParams): TransverseMercatorParams {
    TransverseMercatorParams(0.0, CentralMeridian(p.zone), UtmScale, UtmFalseEasting, UtmFalseNorthing(p.north), p.ellps)
  }

  /**
   * UTM is TM with latitude of origin 0, central meridian 6 zone - 183,
   * scale 0.9996, false easting 500000 and false northing 0 (north) or
   * 10000000 (south), in both directions.
   */
  lemma UtmIsTransverseMercator(m: Numerics, p: UniversalTransverseMercatorParams, g: GeoLocation, loc: Location)
    requires ArcStartsAtEquator(m)
    ensures UniversalTransverseMercatorForward(m, g, p) == TransverseMercatorForward(m, g, UtmAsTransverseMercator(p))
    ensures UniversalTransverseMercatorInverse(m, loc, p) == TransverseMercatorInverse(m, loc, UtmAsTransverseMercator(p))
  {
    assert m.arc(p.ellps, 0.0) == 0.0;
    assert DegreesToRadians(0.0) == 0.0;
  }

  /** The Web Mercator inverse recovers the longitude of the forward transform. */
  lemma WebMercatorLongitudeRoundTrip(m: Numerics, g: GeoLocation, p: WebMercatorParams)
    requires ExactDivision(m) && p.ellps.a != 0.0
    ensures WebMercatorInverse(m, WebMercatorForward(m, g, p), p).longitude == g.longitude
    ensures WebMercatorInverse(m, WebMercatorForward(m, g, p), p).altitude == g.altitude
  {
    var lon := DegreesToRadians(g.longitude);
    assert m.div(p.ellps.a * lon, p.ellps.a) == lon;
    DegreesRadiansRoundTrip(g.longitude);
  }

  /** The TM, UTM and Lambert inverses report longitudes in (-180, 180]. */
  lemma InverseLongitudeNormalised(m: Numerics, loc: Location, proj: Projection)
    requires NormalisesAngles(m) && !proj.params.WebMerc?
    ensures -180.0 < TransformToGeoLocation(m, proj, loc).longitude <= 180.0
  {
    var r := TransformToGeoLocation(m, proj, loc);
    var lonRad := r.longitude * PI / 180.0;
    assert r.longitude == lonRad * 180.0 / PI;
    assert -PI < lonRad <= PI;
  }

  /** The Web Mercator inverse does not normalise: one turn east reads as 360 degrees. */
  lemma WebMercatorLongitudeNotNormalised(m: Numerics, p: WebMercatorParams)
    requires ExactDivision(m) && p.ellps.a != 0.0
    ensures WebMercatorInverse(m, Location(p.ellps.a * 2.0 * PI, 0.0, 0.0), p).longitude == 360.0
  {
    assert m.div(p.ellps.a * 2.0 * PI, p.ellps.a) == 2.0 * PI;
  }
}
