/**
 * A geo projection: the kind of projection with its parameter record, and
 * the PROJ string it was built from.
 */
module GeoProjection {
  import opened GeoProjectionsParams

  /** The supported projection kinds, in enumeration order. */
  datatype ProjectionType =
    | TransverseMercator
    | UniversalTransverseMercator
    | WebMercator
    | LambertConformalConic

  /** The parameter variant; its alternatives are listed in the order of ProjectionType. */
  datatype ProjectionParams =
    | TM(tm: TransverseMercatorParams)
    | UTM(utm: UniversalTransverseMercatorParams)
    | WebMerc(web: WebMercatorParams)
    | LCC(lcc: LambertConformalConicParams)

  datatype Projection = Projection(params: ProjectionParams, projString: string)

  /** The numeric value of an enumerator. */
  function Ordinal(t: ProjectionType): nat {
    match t
    case TransverseMercator => 0
    case UniversalTransverseMercator => 1
    case WebMercator => 2
    case LambertConformalConic => 3
  }

  /** `variant::index()`: the position of the stored alternative. */
  function AlternativeIndex(p: ProjectionParams): nat {
    match p
    case TM(_) => 0
    case UTM(_) => 1
    case WebMerc(_) => 2
    case LCC(_) => 3
  }

  /** `static_cast<ProjectionType>(i)` for the four valid indices. */
  function TypeOfIndex(i: nat): (t: ProjectionType)
    requires i < 4
    ensures Ordinal(t) == i
  {
    if i == 0 then TransverseMercator
    else if i == 1 then UniversalTransverseMercator
    else if i == 2 then WebMercator
    else LambertConformalConic
  }

  /** A value-initialised projection: default TM parameters, empty PROJ string. */
  const DefaultProjection: Projection := Projection(TM(DefaultTransverseMercator), "")

  /** `GeoProjection::Make(p)`: a value-initialised projection whose params are then set. */
  function Make(p: ProjectionParams): (g: Projection)
    ensures g.params == p && g.projString == ""
  {
    DefaultProjection.(params := p)
  }

  /** `getType()`: the kind named by the index of the stored alternative. */
  function GetType(g: Projection): (t: ProjectionType)
    ensures t == TransverseMercator <==> g.params.TM?
    ensures t == UniversalTransverseMercator <==> g.params.UTM?
    ensures t == WebMercator <==> g.params.WebMerc?
    ensures t == LambertConformalConic <==> g.params.LCC?
  {
    TypeOfIndex(AlternativeIndex(g.params))
  }

  function GetParams(g: Projection): ProjectionParams { g.params }

  /** `setPROJString(s)`: replaces the PROJ string only. */
  function SetPROJString(g: Projection, s: string): (r: Projection)
    ensures r.params == g.params && r.projString == s
  {
    g.(projString := s)
  }

  function GetPROJString(g: Projection): string { g.projString }

  /** Setting the PROJ string and reading it back returns it; the parameters are kept. */
  lemma SetThenGetPROJString(g: Projection, s: string)
    ensures GetPROJString(SetPROJString(g, s)) == s
    ensures GetParams(SetPROJString(g, s)) == GetParams(g)
    ensures GetType(SetPROJString(g, s)) == GetType(g)
  {
  }
}
