/**
 * Parameter records of the geo projections: the reference ellipsoid, the
 * table of named ellipsoids, and one record per supported projection, each
 * with its default values and its field-by-field equality.
 *
 * Doubles are modelled as reals. The inverse flattening is the one field
 * whose double values outside the reals matter (a sphere stores +infinity,
 * and `fromb` can produce NaN), so it has its own datatype.
 */
module GeoProjectionsParams {
  import opened Wrappers

  /** The double `f_inv`: a finite value, +infinity, or NaN. */
  datatype InvFlattening = Finite(r: real) | Infinite | NaN

  datatype Ellipsoid = Ellipsoid(a: real, fInv: InvFlattening)

  /** A default-constructed Ellipsoid: the WGS84 semi-major axis with no flattening. */
  const DefaultEllipsoid: Ellipsoid := Ellipsoid(6378137.0, Infinite)

  /** The named ellipsoids (name, semi-major axis, inverse flattening). */
  const CustomEllipsoids: seq<(string, Ellipsoid)> := [
    ("wgs84", Ellipsoid(6378137.0, Finite(298.257223563))),
    ("grs80", Ellipsoid(6378137.0, Finite(298.257222101))),
    ("intl", Ellipsoid(6378388.0, Finite(297.0))),
    ("bessel", Ellipsoid(6377397.155, Finite(299.1528128))),
    ("clrk66", Ellipsoid(6378206.4, Finite(294.9786982138))),
    ("airy", Ellipsoid(6377563.396, Finite(299.3249646))),
    ("wgs72", Ellipsoid(6378135.0, Finite(298.26))),
    ("wgs66", Ellipsoid(6378145.0, Finite(298.25))),
    ("sphere", Ellipsoid(6370997.0, Infinite))
  ]

  predicate IsUpper(c: char) { 'A' <= c <= 'Z' }

  /** No upper-case ASCII letter occurs in `s`. */
  predicate IsLowerCase(s: string) { forall i :: 0 <= i < |s| ==> !IsUpper(s[i]) }

  /** The entry of `table` whose name is `name`, searched from the front. */
  function FindIn(table: seq<(string, Ellipsoid)>, name: string): (r: Option<Ellipsoid>)
    ensures r.Some? <==> exists i :: 0 <= i < |table| && table[i].0 == name
    ensures r.Some? ==> (name, r.value) in table
  {
    if table == [] then None
    else if table[0].0 == name then Some(table[0].1)
    else
      var rest := FindIn(table[1..], name);
      assert forall i :: 1 <= i < |table| ==> table[i] == table[1..][i - 1];
      rest
  }

  /** `custom_ellipsoids.find(name)`. */
  function FindEllipsoid(name: string): (r: Option<Ellipsoid>)
    ensures r.Some? <==> exists i :: 0 <= i < |CustomEllipsoids| && CustomEllipsoids[i].0 == name
    ensures r.Some? ==> (name, r.value) in CustomEllipsoids
  {
    FindIn(CustomEllipsoids, name)
  }

  /**
   * The table has nine distinct lower-case names, so a case-folded lookup
   * can reach every entry, and the sphere is the only entry without
   * flattening.
   */
  lemma EllipsoidTable()
    ensures |CustomEllipsoids| == 9
    ensures forall i :: 0 <= i < |CustomEllipsoids| ==> IsLowerCase(CustomEllipsoids[i].0)
    ensures forall i, j :: 0 <= i < j < |CustomEllipsoids| ==> CustomEllipsoids[i].0 != CustomEllipsoids[j].0
    ensures forall i :: 0 <= i < |CustomEllipsoids| ==>
      (CustomEllipsoids[i].1.fInv == Infinite <==> CustomEllipsoids[i].0 == "sphere")
    ensures forall i :: 0 <= i < |CustomEllipsoids| ==>
      (CustomEllipsoids[i].1.fInv.Finite? || CustomEllipsoids[i].1.fInv == Infinite)
  {
  }

  /** The double `1.0 / f_inv` is a real number: f_inv is neither NaN nor zero. */
  predicate HasFlattening(e: Ellipsoid) { e.fInv != NaN && e.fInv != Finite(0.0) }

  /** Flattening f = 1 / f_inv; zero for a sphere. */
  function F(e: Ellipsoid): (f: real)
    requires HasFlattening(e)
    ensures e.fInv == Infinite ==> f == 0.0
    ensures e.fInv.Finite? ==> f * e.fInv.r == 1.0
  {
    match e.fInv
    case Infinite => 0.0
    case Finite(r) => 1.0 / r
  }

  /** Semi-minor axis b = a (1 - f). */
  function B(e: Ellipsoid): real
    requires HasFlattening(e)
  {
    e.a * (1.0 - F(e))
  }

  /** First eccentricity squared, e2 = f (2 - f). */
  function E2(e: Ellipsoid): (e2: real)
    requires HasFlattening(e)
    ensures e2 * e.a * e.a == e.a * e.a - B(e) * B(e)
  {
    F(e) * (2.0 - F(e))
  }

  /** Second eccentricity squared, ep2 = e2 / (1 - e2). */
  function Ep2(e: Ellipsoid): (ep2: real)
    requires HasFlattening(e) && E2(e) != 1.0
    ensures ep2 * B(e) * B(e) == e.a * e.a - B(e) * B(e)
  {
    E2(e) / (1.0 - E2(e))
  }

  /**
   * `fromb(b)`: f_inv := 1 / (1 - b / a). Division by zero follows IEEE
   * doubles: b == a gives +infinity; a == 0 gives a zero f_inv, or NaN
   * when b is zero too.
   */
  function FromB(e: Ellipsoid, b: real): (r: Ellipsoid)
    ensures r.a == e.a
  {
    var fInv :=
      if e.a == 0.0 then (if b == 0.0 then NaN else Finite(0.0))
      else if b == e.a then Infinite
      else Finite(1.0 / (1.0 - b / e.a));
    e.(fInv := fInv)
  }

  /** `fromf(f)`: f_inv := 1 / f, +infinity when f is zero. */
  function FromF(e: Ellipsoid, f: real): (r: Ellipsoid)
    ensures r.a == e.a
  {
    e.(fInv := if f == 0.0 then Infinite else Finite(1.0 / f))
  }

  /** Setting the semi-minor axis and reading it back gives the same value. */
  lemma FromBRoundTrip(e: Ellipsoid, b: real)
    requires e.a != 0.0
    ensures HasFlattening(FromB(e, b))
    ensures B(FromB(e, b)) == b
  {
    var r := FromB(e, b);
    if b != e.a {
      var q := 1.0 - b / e.a;
      assert q != 0.0;
      assert F(r) * (1.0 / q) == 1.0;
      assert F(r) == q;
      assert e.a * (b / e.a) == b;
    }
  }

  /** Setting the flattening and reading it back gives the same value. */
  lemma FromFRoundTrip(e: Ellipsoid, f: real)
    ensures HasFlattening(FromF(e, f))
    ensures F(FromF(e, f)) == f
  {
    if f != 0.0 {
      assert F(FromF(e, f)) * (1.0 / f) == 1.0;
    }
  }

  /** The default ellipsoid is a sphere: no flattening, no eccentricity. */
  lemma DefaultIsSphere()
    ensures HasFlattening(DefaultEllipsoid)
    ensures F(DefaultEllipsoid) == 0.0 && E2(DefaultEllipsoid) == 0.0
    ensures B(DefaultEllipsoid) == DefaultEllipsoid.a
  {
  }

  /** Double comparison `x == y` of two inverse flattenings: NaN equals nothing. */
  predicate InvFlatteningEq(x: InvFlattening, y: InvFlattening) { x != NaN && x == y }

  /** Ellipsoid::operator==. */
  predicate EllipsoidEq(x: Ellipsoid, y: Ellipsoid)
    ensures EllipsoidEq(x, y) <==> x == y && x.fInv != NaN
  {
    x.a == y.a && InvFlatteningEq(x.fInv, y.fInv)
  }

  /** Ellipsoid::operator!=, written as a disjunction of field comparisons. */
  predicate EllipsoidNe(x: Ellipsoid, y: Ellipsoid) {
    x.a != y.a || !InvFlatteningEq(x.fInv, y.fInv)
  }

  datatype TransverseMercatorParams = TransverseMercatorParams(
    lat0: real, lon0: real, k: real, x0: real, y0: real, ellps: Ellipsoid)

  const DefaultTransverseMercator: TransverseMercatorParams :=
    TransverseMercatorParams(0.0, 0.0, 1.0, 0.0, 0.0, DefaultEllipsoid)

  predicate TransverseMercatorEq(x: TransverseMercatorParams, y: TransverseMercatorParams)
    ensures TransverseMercatorEq(x, y) <==> x == y && x.ellps.fInv != NaN
  {
    x.lat0 == y.lat0 && x.lon0 == y.lon0 && x.k == y.k
    && x.x0 == y.x0 && x.y0 == y.y0 && EllipsoidEq(x.ellps, y.ellps)
  }

  predicate TransverseMercatorNe(x: TransverseMercatorParams, y: TransverseMercatorParams) {
    x.lat0 != y.lat0 || x.lon0 != y.lon0 || x.k != y.k
    || x.x0 != y.x0 || x.y0 != y.y0 || EllipsoidNe(x.ellps, y.ellps)
  }

  datatype UniversalTransverseMercatorParams = UniversalTransverseMercatorParams(
    zone: int, north: bool, ellps: Ellipsoid)

  const DefaultUniversalTransverseMercator: UniversalTransverseMercatorParams :=
    UniversalTransverseMercatorParams(31, true, DefaultEllipsoid)

  predicate UniversalTransverseMercatorEq(x: UniversalTransverseMercatorParams, y: UniversalTransverseMercatorParams)
    ensures UniversalTransverseMercatorEq(x, y) <==> x == y && x.ellps.fInv != NaN
  {
    x.zone == y.zone && x.north == y.north && EllipsoidEq(x.ellps, y.ellps)
  }

  predicate UniversalTransverseMercatorNe(x: UniversalTransverseMercatorParams, y: UniversalTransverseMercatorParams) {
    x.zone != y.zone || x.north != y.north || EllipsoidNe(x.ellps, y.ellps)
  }

  datatype WebMercatorParams = WebMercatorParams(ellps: Ellipsoid)

  const DefaultWebMercator: WebMercatorParams := WebMercatorParams(DefaultEllipsoid)

  predicate WebMercatorEq(x: WebMercatorParams, y: WebMercatorParams)
    ensures WebMercatorEq(x, y) <==> x == y && x.ellps.fInv != NaN
  {
    EllipsoidEq(x.ellps, y.ellps)
  }

  predicate WebMercatorNe(x: WebMercatorParams, y: WebMercatorParams) {
    EllipsoidNe(x.ellps, y.ellps)
  }

  datatype LambertConformalConicParams = LambertConformalConicParams(
    lat0: real, lat1: real, lat2: real, lon0: real, x0: real, y0: real, ellps: Ellipsoid)

  const DefaultLambertConformalConic: LambertConformalConicParams :=
    LambertConformalConicParams(0.0, -5.0, 5.0, 0.0, 0.0, 0.0, DefaultEllipsoid)

  predicate LambertConformalConicEq(x: LambertConformalConicParams, y: LambertConformalConicParams)
    ensures LambertConformalConicEq(x, y) <==> x == y && x.ellps.fInv != NaN
  {
    x.lat0 == y.lat0 && x.lat1 == y.lat1 && x.lat2 == y.lat2 && x.lon0 == y.lon0
    && x.x0 == y.x0 && x.y0 == y.y0 && EllipsoidEq(x.ellps, y.ellps)
  }

  predicate LambertConformalConicNe(x: LambertConformalConicParams, y: LambertConformalConicParams) {
    x.lat0 != y.lat0 || x.lat1 != y.lat1 || x.lat2 != y.lat2 || x.lon0 != y.lon0
    || x.x0 != y.x0 || x.y0 != y.y0 || EllipsoidNe(x.ellps, y.ellps)
  }

  /** Every `operator!=` is the negation of the matching `operator==`. */
  lemma NotEqualNegatesEqual(
    e1: Ellipsoid, e2: Ellipsoid,
    t1: TransverseMercatorParams, t2: TransverseMercatorParams,
    u1: UniversalTransverseMercatorParams, u2: UniversalTransverseMercatorParams,
    w1: WebMercatorParams, w2: WebMercatorParams,
    l1: LambertConformalConicParams, l2: LambertConformalConicParams)
    ensures EllipsoidNe(e1, e2) == !EllipsoidEq(e1, e2)
    ensures TransverseMercatorNe(t1, t2) == !TransverseMercatorEq(t1, t2)
    ensures UniversalTransverseMercatorNe(u1, u2) == !UniversalTransverseMercatorEq(u1, u2)
    ensures WebMercatorNe(w1, w2) == !WebMercatorEq(w1, w2)
    ensures LambertConformalConicNe(l1, l2) == !LambertConformalConicEq(l1, l2)
  {
  }
}
