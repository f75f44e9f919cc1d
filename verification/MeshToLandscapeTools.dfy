/**
 * The CarlaTools mesh-to-landscape utility: a variance filter over static
 * mesh components, and a conversion that bounds all mesh vertices and then
 * writes each vertex's height into the heightmap cell it maps to.
 *
 * A component is its list of LOD-0 vertices (cm). The per-component Z
 * variance is computed in floating point and is a parameter (`None` stands
 * for a NaN variance, which no comparison accepts).
 */
module MeshToLandscapeTools {
  import opened Wrappers
  import opened CosmosCommon
  import MeshToLandscape

  // ---------------------------------------------------------------------
  // Variance filter
  // ---------------------------------------------------------------------

  /** The variance is a number at least the maximum (a NaN variance never is). */
  predicate Exceeds(variance: Option<real>, maxZVariance: real)
  {
    variance.Some? && variance.value >= maxZVariance
  }

  /**
   * `FilterLandscapeLikeStaticMeshComponentsByVariance`: a negative maximum
   * leaves the list as it is; otherwise exactly the components whose variance
   * reaches the maximum are swap-removed.
   */
  method FilterByVariance<T(==)>(components: seq<T>, maxZVariance: real, variance: T -> Option<real>)
    returns (r: seq<T>)
    ensures maxZVariance < 0.0 ==> r == components
    ensures multiset(r) <= multiset(components)
    ensures maxZVariance >= 0.0 ==>
              forall x :: x in components ==> (x in r <==> !Exceeds(variance(x), maxZVariance))
    ensures forall x :: !Exceeds(variance(x), maxZVariance) ==> multiset(r)[x] == multiset(components)[x]
  {
    if maxZVariance < 0.0 {
      return components;
    }
    r := MeshToLandscape.RemoveAtSwapWhere(components, c => !Exceeds(variance(c), maxZVariance));
    forall x | x in components && !Exceeds(variance(x), maxZVariance)
      ensures x in r
    {
      assert multiset(r)[x] == multiset(components)[x] > 0;
    }
  }

  // ---------------------------------------------------------------------
  // Bounds
  // ---------------------------------------------------------------------

  /** The starting magnitude of the bounds (1e32). */
  const Limit: real := 100000000000000000000000000000000.0

  function Axis(v: Vec3, a: nat): real
    requires a < 3
  {
    if a == 0 then v.x else if a == 1 then v.y else v.z
  }

  function VMax(a: Vec3, b: Vec3): Vec3
  {
    Vec3(MeshToLandscape.RMax(a.x, b.x), MeshToLandscape.RMax(a.y, b.y), MeshToLandscape.RMax(a.z, b.z))
  }

  function VMin(a: Vec3, b: Vec3): Vec3
  {
    Vec3(MeshToLandscape.RMin(a.x, b.x), MeshToLandscape.RMin(a.y, b.y), MeshToLandscape.RMin(a.z, b.z))
  }

  /** The vertices of all components, component after component. */
  function Flatten(components: seq<seq<Vec3>>): seq<Vec3>
  {
    if components == [] then []
    else Flatten(components[..|components| - 1]) + components[|components| - 1]
  }

  lemma {:induction false} FlattenAppend(a: seq<seq<Vec3>>, b: seq<seq<Vec3>>)
    ensures Flatten(a + b) == Flatten(a) + Flatten(b)
    decreases |b|
  {
    if b == [] {
      assert a + b == a;
    } else {
      var front := b[..|b| - 1];
      assert (a + b)[..|a + b| - 1] == a + front;
      assert (a + b)[|a + b| - 1] == b[|b| - 1];
      FlattenAppend(a, front);
    }
  }

  /** The componentwise maximum, starting from -1e32 on every axis. */
  function MaxCorner(vs: seq<Vec3>): Vec3
  {
    if vs == [] then Vec3(-Limit, -Limit, -Limit) else VMax(MaxCorner(vs[..|vs| - 1]), vs[|vs| - 1])
  }

  /** The componentwise minimum, starting from 1e32 on every axis. */
  function MinCorner(vs: seq<Vec3>): Vec3
  {
    if vs == [] then Vec3(Limit, Limit, Limit) else VMin(MinCorner(vs[..|vs| - 1]), vs[|vs| - 1])
  }

  predicate WithinLimit(vs: seq<Vec3>)
  {
    forall k, a :: 0 <= k < |vs| && 0 <= a < 3 ==> -Limit <= Axis(vs[k], a) <= Limit
  }

  /**
   * On every axis the minimum and maximum enclose every vertex; when there is
   * a vertex and all lie within 1e32, each is the coordinate of some vertex.
   */
  lemma {:induction false} CornersBoundVertices(vs: seq<Vec3>)
    ensures forall k, a :: 0 <= k < |vs| && 0 <= a < 3 ==>
              Axis(MinCorner(vs), a) <= Axis(vs[k], a) <= Axis(MaxCorner(vs), a)
  {
    if vs != [] {
      var front := vs[..|vs| - 1];
      CornersBoundVertices(front);
      CornersStep(vs);
      assert forall k :: 0 <= k < |front| ==> vs[k] == front[k];
    }
  }

  /** The corners of a list are those of its front widened by its last vertex. */
  lemma CornersStep(vs: seq<Vec3>)
    requires vs != []
    ensures forall a | 0 <= a < 3 ::
      Axis(MaxCorner(vs), a) == MeshToLandscape.RMax(Axis(MaxCorner(vs[..|vs| - 1]), a), Axis(vs[|vs| - 1], a))
      && Axis(MinCorner(vs), a) == MeshToLandscape.RMin(Axis(MinCorner(vs[..|vs| - 1]), a), Axis(vs[|vs| - 1], a))
  {
  }

  /** Within the limit, each corner coordinate is the coordinate of some vertex. */
  lemma {:induction false} CornersAttained(vs: seq<Vec3>)
    requires vs != [] && WithinLimit(vs)
    ensures forall a :: 0 <= a < 3 ==>
              (exists k :: 0 <= k < |vs| && Axis(vs[k], a) == Axis(MaxCorner(vs), a))
              && (exists k :: 0 <= k < |vs| && Axis(vs[k], a) == Axis(MinCorner(vs), a))
  {
    var front := vs[..|vs| - 1];
    var last := vs[|vs| - 1];
    CornersStep(vs);
    if front != [] {
      assert WithinLimit(front);
      CornersAttained(front);
    }
    forall a | 0 <= a < 3
      ensures exists k :: 0 <= k < |vs| && Axis(vs[k], a) == Axis(MaxCorner(vs), a)
      ensures exists k :: 0 <= k < |vs| && Axis(vs[k], a) == Axis(MinCorner(vs), a)
    {
      assert -Limit <= Axis(vs[|vs| - 1], a) <= Limit;
      if Axis(MaxCorner(vs), a) == Axis(last, a) {
        assert Axis(vs[|vs| - 1], a) == Axis(MaxCorner(vs), a);
      } else {
        var k :| 0 <= k < |front| && Axis(front[k], a) == Axis(MaxCorner(front), a);
        assert Axis(vs[k], a) == Axis(MaxCorner(vs), a);
      }
      if Axis(MinCorner(vs), a) == Axis(last, a) {
        assert Axis(vs[|vs| - 1], a) == Axis(MinCorner(vs), a);
      } else {
        var k :| 0 <= k < |front| && Axis(front[k], a) == Axis(MinCorner(front), a);
        assert Axis(vs[k], a) == Axis(MinCorner(vs), a);
      }
    }
  }


  lemma CornersSnoc(p: seq<Vec3>, v: Vec3)
    ensures MaxCorner(p + [v]) == VMax(MaxCorner(p), v) && MinCorner(p + [v]) == VMin(MinCorner(p), v)
  {
    assert (p + [v])[..|p|] == p;
  }

  /** The bounds loop over the components and their vertices. */
  method AccumulateBounds(components: seq<seq<Vec3>>) returns (max: Vec3, min: Vec3)
    ensures max == MaxCorner(Flatten(components)) && min == MinCorner(Flatten(components))
  {
    max := Vec3(-Limit, -Limit, -Limit);
    min := Vec3(Limit, Limit, Limit);
    for c := 0 to |components|
      invariant max == MaxCorner(Flatten(components[..c])) && min == MinCorner(Flatten(components[..c]))
    {
      assert components[..c + 1][..c] == components[..c];
      max, min := AccumulateComponent(max, min, components[c], Flatten(components[..c]));
    }
    assert components[..|components|] == components;
  }

  /** The inner loop of the bounds: one component's vertices folded into the bounds so far. */
  method AccumulateComponent(max0: Vec3, min0: Vec3, comp: seq<Vec3>, ghost done: seq<Vec3>) returns (max: Vec3, min: Vec3)
    requires max0 == MaxCorner(done) && min0 == MinCorner(done)
    ensures max == MaxCorner(done + comp) && min == MinCorner(done + comp)
  {
    max, min := max0, min0;
    assert done + comp[..0] == done;
    for i := 0 to |comp|
      invariant max == MaxCorner(done + comp[..i]) && min == MinCorner(done + comp[..i])
    {
      CornersSnoc(done + comp[..i], comp[i]);
      assert done + comp[..i + 1] == (done + comp[..i]) + [comp[i]];
      max := VMax(max, comp[i]);
      min := VMin(min, comp[i]);
    }
    assert comp[..|comp|] == comp;
  }

  // ---------------------------------------------------------------------
  // Mapping vertices to cells and writing them
  // ---------------------------------------------------------------------

  /** A heightmap cell and the height value computed for it. */
  datatype Cell = Cell(x: int, y: int, z: int)

  /**
   * What stops the conversion: a zero range (a division by zero), a failed
   * non-negativity check, or a write outside the heightmap.
   */
  datatype LandscapeError = ZeroRange | NegativeCoordinate | IndexOutOfRange(index: int)

  function VMinus(a: Vec3, b: Vec3): Vec3 { Vec3(a.x - b.x, a.y - b.y, a.z - b.z) }

  /**
   * `MapPosition` as written: the raw vertex is divided by the range,
   * checked to be non-negative, and scaled by the width, the height and
   * 65535; X and Y are rounded, Z truncated.
   */
  function MapPosition(v: Vec3, range: Vec3, width: int, height: int): (r: Result<Cell, LandscapeError>)
    requires width >= 0 && height >= 0
    ensures r.Success? ==> r.value.x >= 0 && r.value.y >= 0 && r.value.z >= 0
  {
    if range.x == 0.0 || range.y == 0.0 || range.z == 0.0 then Failure(ZeroRange)
    else
      var n := Vec3(v.x / range.x, v.y / range.y, v.z / range.z);
      if n.x < 0.0 || n.y < 0.0 || n.z < 0.0 then Failure(NegativeCoordinate)
      else
        Success(Cell(MeshToLandscape.RoundHalfUp(n.x * width as real),
                     MeshToLandscape.RoundHalfUp(n.y * height as real),
                     (n.z * 65535.0).Floor))
  }

  /**
   * `MapPosition` as evidently intended: the vertex is measured from the
   * minimum corner before it is divided by the range, and X and Y are scaled
   * to the last column and row.
   */
  function MapPositionCorrected(v: Vec3, min: Vec3, range: Vec3, width: int, height: int): (r: Result<Cell, LandscapeError>)
    requires width >= 1 && height >= 1
    ensures r.Success? ==> r.value.x >= 0 && r.value.y >= 0 && r.value.z >= 0
  {
    if range.x == 0.0 || range.y == 0.0 || range.z == 0.0 then Failure(ZeroRange)
    else
      var n := Vec3((v.x - min.x) / range.x, (v.y - min.y) / range.y, (v.z - min.z) / range.z);
      if n.x < 0.0 || n.y < 0.0 || n.z < 0.0 then Failure(NegativeCoordinate)
      else
        Success(Cell(MeshToLandscape.RoundHalfUp(n.x * (width - 1) as real),
                     MeshToLandscape.RoundHalfUp(n.y * (height - 1) as real),
                     (n.z * 65535.0).Floor))
  }

  lemma ScaledUnit(n: real, k: int)
    requires 0.0 <= n <= 1.0 && k >= 0
    ensures 0.0 <= n * k as real <= k as real
  {
  }

  /**
   * Every vertex inside the bounds maps, under the corrected mapping, to a
   * cell of the heightmap, with a height in [0, 65535].
   */
  lemma MapPositionCorrectedInRange(v: Vec3, min: Vec3, range: Vec3, width: int, height: int)
    requires width >= 1 && height >= 1
    requires range.x > 0.0 && range.y > 0.0 && range.z > 0.0
    requires min.x <= v.x <= min.x + range.x && min.y <= v.y <= min.y + range.y && min.z <= v.z <= min.z + range.z
    ensures var r := MapPositionCorrected(v, min, range, width, height);
            r.Success? && 0 <= r.value.x < width && 0 <= r.value.y < height && 0 <= r.value.z <= 65535
  {
    UnitCoordinate(v.x, min.x, range.x);
    UnitCoordinate(v.y, min.y, range.y);
    UnitCoordinate(v.z, min.z, range.z);
    RoundedWithin((v.x - min.x) / range.x, width - 1);
    RoundedWithin((v.y - min.y) / range.y, height - 1);
    ScaledUnit((v.z - min.z) / range.z, 65535);
  }

  lemma UnitCoordinate(v: real, min: real, range: real)
    requires range > 0.0 && min <= v <= min + range
    ensures 0.0 <= (v - min) / range <= 1.0
  {
    var n := (v - min) / range;
    assert n * range == v - min;
    assert n > 1.0 ==> n * range > range;
  }

  lemma RoundedWithin(n: real, k: int)
    requires 0.0 <= n <= 1.0 && k >= 0
    ensures 0 <= MeshToLandscape.RoundHalfUp(n * k as real) <= k
  {
    ScaledUnit(n, k);
  }

  function Zeroes(n: nat): (r: seq<int>)
    ensures |r| == n && forall i :: 0 <= i < n ==> r[i] == 0
  {
    seq(n, _ => 0)
  }

  /**
   * The heightmap after writing the vertices in order into a zeroed
   * width * height map, each at the cell `place` maps it to, with its height
   * narrowed to 16 bits; the first failure stops the conversion.
   */
  function Paint(vs: seq<Vec3>, place: Vec3 -> Result<Cell, LandscapeError>, width: int, height: int)
    : (r: Result<seq<int>, LandscapeError>)
    requires width >= 0 && height >= 0
    ensures r.Success? ==> |r.value| == width * height
  {
    if vs == [] then Success(Zeroes(width * height))
    else
      var before :- Paint(vs[..|vs| - 1], place, width, height);
      var c :- place(vs[|vs| - 1]);
      var i := MeshToLandscape.CellIndex(width, c.x, c.y);
      if 0 <= i < |before| then Success(before[i := c.z % 65536]) else Failure(IndexOutOfRange(i))
  }

  /** Once a prefix of the vertices fails, so does the whole list, with the same error. */
  lemma {:induction false} FailureIsFinal(p: seq<Vec3>, q: seq<Vec3>, place: Vec3 -> Result<Cell, LandscapeError>,
                                          width: int, height: int)
    requires width >= 0 && height >= 0
    requires Paint(p, place, width, height).Failure?
    ensures Paint(p + q, place, width, height) == Paint(p, place, width, height)
    decreases |q|
  {
    if q == [] {
      assert p + q == p;
    } else {
      var front := q[..|q| - 1];
      assert (p + q)[..|p + q| - 1] == p + front;
      FailureIsFinal(p, front, place, width, height);
    }
  }

  /** Vertex k is placed at cell index i. */
  predicate WritesTo(vs: seq<Vec3>, place: Vec3 -> Result<Cell, LandscapeError>, width: int, k: int, i: int)
  {
    0 <= k < |vs| && place(vs[k]).Success?
    && MeshToLandscape.CellIndex(width, place(vs[k]).value.x, place(vs[k]).value.y) == i
  }

  /** The last vertex placed at cell index i, if any. */
  function LastWriter(vs: seq<Vec3>, place: Vec3 -> Result<Cell, LandscapeError>, width: int, i: int): (r: Option<nat>)
    ensures r.Some? ==> WritesTo(vs, place, width, r.value, i)
                        && forall j :: r.value < j < |vs| ==> !WritesTo(vs, place, width, j, i)
    ensures r.None? ==> forall j :: 0 <= j < |vs| ==> !WritesTo(vs, place, width, j, i)
  {
    if vs == [] then None
    else if WritesTo(vs, place, width, |vs| - 1, i) then Some(|vs| - 1)
    else
      var front := vs[..|vs| - 1];
      assert forall j :: 0 <= j < |front| ==> (WritesTo(vs, place, width, j, i) <==> WritesTo(front, place, width, j, i));
      LastWriter(front, place, width, i)
  }

  /**
   * When the conversion succeeds every vertex was placed, and each cell holds
   * the 16-bit height of the last vertex placed there, or zero when none was.
   */
  lemma {:induction false} LastWriteWins(vs: seq<Vec3>, place: Vec3 -> Result<Cell, LandscapeError>, width: int, height: int)
    requires width >= 0 && height >= 0
    requires Paint(vs, place, width, height).Success?
    ensures forall k :: 0 <= k < |vs| ==> place(vs[k]).Success?
    ensures forall i :: 0 <= i < width * height ==>
              Paint(vs, place, width, height).value[i] ==
                (var w := LastWriter(vs, place, width, i);
                 if w.Some? then place(vs[w.value]).value.z % 65536 else 0)
  {
    if vs != [] {
      var front := vs[..|vs| - 1];
      LastWriteWins(front, place, width, height);
      assert forall k :: 0 <= k < |front| ==> vs[k] == front[k];
      forall i | 0 <= i < width * height
        ensures Paint(vs, place, width, height).value[i] ==
                  (var w := LastWriter(vs, place, width, i);
                   if w.Some? then place(vs[w.value]).value.z % 65536 else 0)
      {
        if !WritesTo(vs, place, width, |vs| - 1, i) {
          assert forall j :: 0 <= j < |front| ==> (WritesTo(vs, place, width, j, i) <==> WritesTo(front, place, width, j, i));
        }
      }
    }
  }

  /** The result of the conversion: no landscape, a conversion stopped by an error, or the heightmap imported. */
  datatype Outcome = NoLandscape | Stopped(error: LandscapeError) | Imported(heights: seq<int>)

  function OutcomeOf(r: Result<seq<int>, LandscapeError>): Outcome
  {
    if r.Success? then Imported(r.value) else Stopped(r.error)
  }

  /** The range of the bounds as the conversion computes it. */
  function RangeOf(vs: seq<Vec3>): Vec3
  {
    VMinus(MaxCorner(vs), MinCorner(vs))
  }

  /**
   * `ConvertMeshesToLandscape` up to the engine import: nothing for an empty
   * component list; otherwise the bounds of all vertices, then every vertex
   * written, in order, at the cell `MapPosition` gives it.
   */
  method ConvertMeshesToLandscape(components: seq<seq<Vec3>>, width: int, height: int) returns (r: Outcome)
    requires width >= 0 && height >= 0
    ensures components == [] ==> r == NoLandscape
    ensures components != [] ==>
              var vs := Flatten(components);
              r == OutcomeOf(Paint(vs, AsWritten(RangeOf(vs), width, height), width, height))
  {
    if |components| == 0 {
      return NoLandscape;
    }
    var max, min := AccumulateBounds(components);
    var range := VMinus(max, min);
    ghost var place := AsWritten(range, width, height);
    var data := new int[width * height](_ => 0);
    assert components[..0] == [];
    assert data[..] == Zeroes(width * height);
    for c := 0 to |components|
      invariant Paint(Flatten(components[..c]), place, width, height) == Success(data[..])
    {
      FlattenStep(components, c);
      var error := PaintComponent(data, components[c], range, width, height, Flatten(components[..c]));
      if error.Some? {
        StoppedEarly(components, c, place, width, height);
        return Stopped(error.value);
      }
    }
    assert components[..|components|] == components;
    return Imported(data[..]);
  }

  lemma FlattenStep(components: seq<seq<Vec3>>, c: nat)
    requires c < |components|
    ensures Flatten(components[..c + 1]) == Flatten(components[..c]) + components[c]
  {
    assert components[..c + 1][..c] == components[..c];
  }

  /** A failure while writing one component is the outcome of the whole conversion. */
  lemma StoppedEarly(components: seq<seq<Vec3>>, c: nat, place: Vec3 -> Result<Cell, LandscapeError>,
                     width: int, height: int)
    requires c < |components| && width >= 0 && height >= 0
    requires Paint(Flatten(components[..c + 1]), place, width, height).Failure?
    ensures Paint(Flatten(components), place, width, height) == Paint(Flatten(components[..c + 1]), place, width, height)
  {
    FlattenAppend(components[..c + 1], components[c + 1..]);
    assert components[..c + 1] + components[c + 1..] == components;
    FailureIsFinal(Flatten(components[..c + 1]), Flatten(components[c + 1..]), place, width, height);
  }

  /** The placement the conversion uses: `MapPosition` against the range of the bounds. */
  function AsWritten(range: Vec3, width: int, height: int): Vec3 -> Result<Cell, LandscapeError>
    requires width >= 0 && height >= 0
  {
    v => MapPosition(v, range, width, height)
  }

  /** A component whose painting fails at vertex i fails as a whole, with that error. */
  lemma StopsAt(done: seq<Vec3>, comp: seq<Vec3>, i: nat, place: Vec3 -> Result<Cell, LandscapeError>,
                width: int, height: int)
    requires width >= 0 && height >= 0 && i < |comp|
    requires Paint(done + comp[..i + 1], place, width, height).Failure?
    ensures Paint(done + comp, place, width, height) == Paint(done + comp[..i + 1], place, width, height)
  {
    assert done + comp == (done + comp[..i + 1]) + comp[i + 1..] by {
      assert comp == comp[..i + 1] + comp[i + 1..];
    }
    FailureIsFinal(done + comp[..i + 1], comp[i + 1..], place, width, height);
  }

  /**
   * The inner loop of the conversion: one component's vertices written in
   * order, stopping at the first that cannot be mapped or falls outside the
   * heightmap.
   */
  method PaintComponent(data: array<int>, comp: seq<Vec3>, range: Vec3, width: int, height: int, ghost done: seq<Vec3>)
    returns (error: Option<LandscapeError>)
    modifies data
    requires width >= 0 && height >= 0 && data.Length == width * height
    requires Paint(done, AsWritten(range, width, height), width, height) == Success(data[..])
    ensures error.None? ==> Paint(done + comp, AsWritten(range, width, height), width, height) == Success(data[..])
    ensures error.Some? ==> Paint(done + comp, AsWritten(range, width, height), width, height) == Failure(error.value)
  {
    ghost var place := AsWritten(range, width, height);
    assert done + comp[..0] == done;
    for i := 0 to |comp|
      invariant Paint(done + comp[..i], place, width, height) == Success(data[..])
    {
      ghost var upto := done + comp[..i + 1];
      assert upto[..|upto| - 1] == done + comp[..i] && upto[|upto| - 1] == comp[i];
      var cell := MapPosition(comp[i], range, width, height);
      if cell.Failure? {
        error := Some(cell.error);
      } else {
        var index := MeshToLandscape.CellIndex(width, cell.value.x, cell.value.y);
        if 0 <= index < data.Length {
          data[index] := cell.value.z % 65536;
          continue;
        }
        error := Some(IndexOutOfRange(index));
      }
      assert Paint(upto, place, width, height) == Failure(error.value);
      StopsAt(done, comp, i, place, width, height);
      return;
    }
    assert comp[..|comp|] == comp;
    error := None;
  }

  /** The conversion with the corrected mapping, as a value. */
  function CorrectedHeightmap(components: seq<seq<Vec3>>, width: int, height: int): Result<seq<int>, LandscapeError>
    requires width >= 1 && height >= 1
  {
    var vs := Flatten(components);
    Paint(vs, v => MapPositionCorrected(v, MinCorner(vs), RangeOf(vs), width, height), width, height)
  }

  /**
   * With the corrected mapping, a mesh set of non-zero extent on every axis
   * (and within 1e32) always converts: no write leaves the heightmap and every
   * height is in [0, 65535].
   */
  lemma CorrectedHeightmapSucceeds(components: seq<seq<Vec3>>, width: int, height: int)
    requires width >= 1 && height >= 1
    requires WithinLimit(Flatten(components))
    requires var range := RangeOf(Flatten(components)); range.x > 0.0 && range.y > 0.0 && range.z > 0.0
    ensures CorrectedHeightmap(components, width, height).Success?
    ensures forall i :: 0 <= i < |CorrectedHeightmap(components, width, height).value| ==>
              0 <= CorrectedHeightmap(components, width, height).value[i] <= 65535
  {
    var vs := Flatten(components);
    var place := v => MapPositionCorrected(v, MinCorner(vs), RangeOf(vs), width, height);
    CornersBoundVertices(vs);
    forall k | 0 <= k < |vs|
      ensures place(vs[k]).Success? && 0 <= place(vs[k]).value.x < width && 0 <= place(vs[k]).value.y < height
              && 0 <= place(vs[k]).value.z <= 65535
    {
      assert forall a :: 0 <= a < 3 ==> Axis(MinCorner(vs), a) <= Axis(vs[k], a) <= Axis(MaxCorner(vs), a);
      assert Axis(MinCorner(vs), 0) <= Axis(vs[k], 0) <= Axis(MaxCorner(vs), 0);
      assert Axis(MinCorner(vs), 1) <= Axis(vs[k], 1) <= Axis(MaxCorner(vs), 1);
      assert Axis(MinCorner(vs), 2) <= Axis(vs[k], 2) <= Axis(MaxCorner(vs), 2);
      MapPositionCorrectedInRange(vs[k], MinCorner(vs), RangeOf(vs), width, height);
    }
    PaintInRange(vs, place, width, height);
  }

  /** A placement that keeps every vertex inside the map with a 16-bit height paints without error and within 16 bits. */
  lemma {:induction false} PaintInRange(vs: seq<Vec3>, place: Vec3 -> Result<Cell, LandscapeError>, width: int, height: int)
    requires width >= 1 && height >= 1
    requires forall k :: 0 <= k < |vs| ==>
               place(vs[k]).Success? && 0 <= place(vs[k]).value.x < width && 0 <= place(vs[k]).value.y < height
               && 0 <= place(vs[k]).value.z <= 65535
    ensures Paint(vs, place, width, height).Success?
    ensures forall i :: 0 <= i < |Paint(vs, place, width, height).value| ==> 0 <= Paint(vs, place, width, height).value[i] <= 65535
  {
    if vs != [] {
      var front := vs[..|vs| - 1];
      assert forall k :: 0 <= k < |front| ==> vs[k] == front[k];
      PaintInRange(front, place, width, height);
      var c := place(vs[|vs| - 1]).value;
      MeshToLandscape.IndexOfCell(width, height, c.x, c.y);
    }
  }

  /**
   * The as-written mapping overruns the heightmap: on a 2 x 2 map, the
   * vertices (0, 0, 0) and (1, 1, 1) give a range of 1 on every axis, and the
   * second vertex maps to column 2, row 2, index 6 of a 4-entry map.
   */
  lemma MapPositionOverrunsHeightmap(origin: Vec3, corner: Vec3)
    requires origin == Vec3(0.0, 0.0, 0.0) && corner == Vec3(1.0, 1.0, 1.0)
    ensures var vs := Flatten([[origin, corner]]);
            Paint(vs, AsWritten(RangeOf(vs), 2, 2), 2, 2) == Failure(IndexOutOfRange(6))
  {
    var vs := TwoVertexBounds(origin, corner);
    var place := AsWritten(RangeOf(vs), 2, 2);
    assert place(origin) == Success(Cell(0, 0, 0));
    assert place(corner) == Success(Cell(2, 2, 65535));
    assert vs[..1] == [origin] && vs[..1][..0] == [];
    assert Paint(vs[..1], place, 2, 2) == Success(Zeroes(4)[0 := 0]);
    assert MeshToLandscape.CellIndex(2, 2, 2) == 6;
  }

  /** The corrected mapping puts the same two vertices at the first and last cells. */
  lemma CorrectedMappingFitsHeightmap(origin: Vec3, corner: Vec3)
    requires origin == Vec3(0.0, 0.0, 0.0) && corner == Vec3(1.0, 1.0, 1.0)
    ensures CorrectedHeightmap([[origin, corner]], 2, 2) == Success([0, 0, 0, 65535])
  {
    var vs := TwoVertexBounds(origin, corner);
    var place := v => MapPositionCorrected(v, MinCorner(vs), RangeOf(vs), 2, 2);
    assert place(origin) == Success(Cell(0, 0, 0));
    assert place(corner) == Success(Cell(1, 1, 65535));
    assert vs[..1] == [origin] && vs[..1][..0] == [];
    assert Paint(vs[..1], place, 2, 2) == Success(Zeroes(4)[0 := 0]);
    assert MeshToLandscape.CellIndex(2, 1, 1) == 3;
    assert Zeroes(4)[0 := 0][3 := 65535] == [0, 0, 0, 65535];
  }

  /** The two-vertex mesh of the example: its vertices, minimum (0, 0, 0) and range (1, 1, 1). */
  lemma TwoVertexBounds(origin: Vec3, corner: Vec3) returns (vs: seq<Vec3>)
    requires origin == Vec3(0.0, 0.0, 0.0) && corner == Vec3(1.0, 1.0, 1.0)
    ensures vs == Flatten([[origin, corner]]) && vs == [origin, corner]
    ensures MinCorner(vs) == origin && RangeOf(vs) == corner
  {
    var comps := [[origin, corner]];
    assert comps[..|comps| - 1] == [];
    assert Flatten(comps) == Flatten(comps[..|comps| - 1]) + comps[|comps| - 1];
    vs := Flatten(comps);
    assert vs == [origin, corner];
    assert vs[..1] == [origin] && vs[..1][..0] == [];
    assert MaxCorner(vs[..1]) == origin && MinCorner(vs[..1]) == origin;
    assert MaxCorner(vs) == corner && MinCorner(vs) == origin;
  }
}
