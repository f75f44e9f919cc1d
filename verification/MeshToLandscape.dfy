/**
 * The Carla plugin's mesh-to-landscape utility: three filters that prune a
 * component list in place by swap-removal, and the conversion of the kept
 * components into a landscape heightmap (its size, the cell each entry
 * stands for and the 16-bit height written there).
 *
 * Engine queries are parameters: `isA` (class membership), `kind` (what a
 * component is and what its static mesh holds), `name`/`owner` (display
 * names), `matches` (wildcard matching) and `trace` (the outcome of the sweep
 * and line traces for one cell).
 */
module MeshToLandscape {
  import opened Wrappers
  import opened CosmosCommon

  // ---------------------------------------------------------------------
  // In-place filters
  // ---------------------------------------------------------------------

  /** `RemoveAtSwap(i)`: the last element moves into slot i and the array loses one slot. */
  function RemoveAtSwap<T>(s: seq<T>, i: nat): (r: seq<T>)
    requires i < |s|
    ensures |r| == |s| - 1
    ensures r[..i] == s[..i]
    ensures i < |r| ==> r[i] == s[|s| - 1] && r[i + 1..] == s[i + 1..|s| - 1]
  {
    if i == |s| - 1 then s[..i]
    else s[..i] + [s[|s| - 1]] + s[i + 1..|s| - 1]
  }

  /** Swap-removal takes out exactly one occurrence of the removed element. */
  lemma RemoveAtSwapMultiset<T>(s: seq<T>, i: nat)
    requires i < |s|
    ensures multiset(RemoveAtSwap(s, i)) + multiset{s[i]} == multiset(s)
  {
    var front, x := s[..i], s[i];
    if i == |s| - 1 {
      assert s == front + [x];
    } else {
      var middle, y := s[i + 1..|s| - 1], s[|s| - 1];
      assert s == front + [x] + middle + [y];
      assert RemoveAtSwap(s, i) == front + [y] + middle;
    }
  }

  /**
   * The scan shared by the three filters: a component that `keep` accepts
   * stays and the scan moves on; any other is swap-removed and its slot is
   * examined again. Each step advances the index or shrinks the list, so the
   * scan ends; what is left is exactly the accepted components, each as often
   * as in the input, in some order.
   */
  method RemoveAtSwapWhere<T(==)>(components: seq<T>, keep: T -> bool) returns (r: seq<T>)
    ensures forall x :: x in r ==> keep(x)
    ensures multiset(r) <= multiset(components)
    ensures forall x :: keep(x) ==> multiset(r)[x] == multiset(components)[x]
  {
    r := components;
    var i := 0;
    while i != |r|
      invariant i <= |r|
      invariant forall j :: 0 <= j < i ==> keep(r[j])
      invariant multiset(r) <= multiset(components)
      invariant forall x :: keep(x) ==> multiset(r)[x] == multiset(components)[x]
      decreases |r| - i
    {
      if keep(r[i]) {
        i := i + 1;
      } else {
        RemoveAtSwapMultiset(r, i);
        r := RemoveAtSwap(r, i);
      }
    }
  }

  /** Some class of the list is one `c` is an instance of (the inner search loops with `break`). */
  predicate IsAnyOf<T, K>(c: T, classes: seq<K>, isA: (T, K) -> bool)
  {
    exists i :: 0 <= i < |classes| && isA(c, classes[i])
  }

  /**
   * `FilterByClassList`: whitelisted components always stay; any other is
   * removed exactly when it is an instance of some blacklisted class.
   */
  method FilterByClassList<T(==), K>(components: seq<T>, blacklist: seq<K>, whitelist: seq<K>, isA: (T, K) -> bool)
    returns (r: seq<T>)
    ensures multiset(r) <= multiset(components)
    ensures forall x :: IsAnyOf(x, whitelist, isA) ==> multiset(r)[x] == multiset(components)[x]
    ensures forall x :: x in components && !IsAnyOf(x, whitelist, isA) ==>
              (x in r <==> !IsAnyOf(x, blacklist, isA))
  {
    r := RemoveAtSwapWhere(components, c => IsAnyOf(c, whitelist, isA) || !IsAnyOf(c, blacklist, isA));
    forall x | x in components && !IsAnyOf(x, whitelist, isA)
      ensures x in r <==> !IsAnyOf(x, blacklist, isA)
    {
      if !IsAnyOf(x, blacklist, isA) {
        assert multiset(r)[x] == multiset(components)[x] > 0;
      }
    }
  }

  /** What a static mesh asset reports about itself. */
  datatype StaticMesh = StaticMesh(validRenderData: bool, naniteEnabled: bool, validNaniteData: bool)

  /** A component as the validity filter sees it: not a static-mesh component, or one with its mesh (possibly null). */
  datatype ComponentKind = OtherComponent | StaticMeshComponent(mesh: Option<StaticMesh>)

  /** A mesh is usable when its render data is valid and, with Nanite enabled, its Nanite data too (editor build). */
  predicate MeshUsable(m: StaticMesh)
  {
    m.validRenderData && (!m.naniteEnabled || m.validNaniteData)
  }

  predicate KindUsable(k: ComponentKind)
  {
    k.OtherComponent? || (k.mesh.Some? && MeshUsable(k.mesh.value))
  }

  /**
   * `FilterInvalidStaticMeshComponents`: components that are not static-mesh
   * components stay, as do static-mesh components whose mesh is usable; those
   * with a null mesh or unusable data are removed.
   */
  method FilterInvalidStaticMeshComponents<T(==)>(components: seq<T>, kind: T -> ComponentKind) returns (r: seq<T>)
    ensures multiset(r) <= multiset(components)
    ensures forall x :: kind(x).OtherComponent? ==> multiset(r)[x] == multiset(components)[x]
    ensures forall x :: kind(x).StaticMeshComponent? && kind(x).mesh.Some? && MeshUsable(kind(x).mesh.value) ==>
              multiset(r)[x] == multiset(components)[x]
    ensures forall x :: kind(x).StaticMeshComponent? && kind(x).mesh.None? ==> x !in r
    ensures forall x :: kind(x).StaticMeshComponent? && kind(x).mesh.Some? && !MeshUsable(kind(x).mesh.value) ==> x !in r
  {
    r := RemoveAtSwapWhere(components, c => KindUsable(kind(c)));
  }

  /** Some pattern of the list matches the name. */
  predicate MatchesAny(name: string, patterns: seq<string>, matches: (string, string) -> bool)
  {
    exists p :: p in patterns && matches(name, p)
  }

  /** A blacklist match on the component's or owner's name removes; otherwise a whitelist match on either keeps. */
  predicate PatternKeep<T>(c: T, whitelist: seq<string>, blacklist: seq<string>,
                           name: T -> string, owner: T -> string, matches: (string, string) -> bool)
  {
    !MatchesAny(name(c), blacklist, matches) && !MatchesAny(owner(c), blacklist, matches)
    && (MatchesAny(name(c), whitelist, matches) || MatchesAny(owner(c), whitelist, matches))
  }

  /**
   * `FilterComponentsByPatterns`: nothing happens when both lists are empty.
   * Otherwise a component stays exactly when neither its name nor its owner's
   * name matches the blacklist and one of them matches the whitelist, so an
   * empty whitelist with a non-empty blacklist removes everything.
   */
  method FilterComponentsByPatterns<T(==)>(components: seq<T>, whitelist: seq<string>, blacklist: seq<string>,
                                          name: T -> string, owner: T -> string, matches: (string, string) -> bool)
    returns (r: seq<T>)
    ensures whitelist == [] && blacklist == [] ==> r == components
    ensures multiset(r) <= multiset(components)
    ensures whitelist != [] || blacklist != [] ==>
              forall x :: x in components ==>
                (x in r <==> PatternKeep(x, whitelist, blacklist, name, owner, matches))
    ensures whitelist != [] || blacklist != [] ==>
              forall x :: PatternKeep(x, whitelist, blacklist, name, owner, matches) ==>
                multiset(r)[x] == multiset(components)[x]
    ensures whitelist == [] && blacklist != [] ==> r == []
  {
    if whitelist == [] && blacklist == [] {
      return components;
    }
    r := RemoveAtSwapWhere(components, c => PatternKeep(c, whitelist, blacklist, name, owner, matches));
    forall x | x in components && PatternKeep(x, whitelist, blacklist, name, owner, matches)
      ensures x in r
    {
      assert multiset(r)[x] == multiset(components)[x] > 0;
    }
    if whitelist == [] {
      assert forall x :: !PatternKeep(x, whitelist, blacklist, name, owner, matches);
      assert forall x :: x !in multiset(r);
    }
  }

  // ---------------------------------------------------------------------
  // Heightmap sizing
  // ---------------------------------------------------------------------

  /** An axis-aligned box, minimum and maximum corners (cm). */
  datatype Box = Box(min: Vec3, max: Vec3)

  function RMin(a: real, b: real): real { if a <= b then a else b }

  function RMax(a: real, b: real): real { if a >= b then a else b }

  /** `FBox += FBox`: an invalid (unset) box becomes the other; otherwise the componentwise hull. */
  function AddBox(acc: Option<Box>, b: Box): Box
  {
    if acc.None? then b
    else Box(Vec3(RMin(acc.value.min.x, b.min.x), RMin(acc.value.min.y, b.min.y), RMin(acc.value.min.z, b.min.z)),
             Vec3(RMax(acc.value.max.x, b.max.x), RMax(acc.value.max.y, b.max.y), RMax(acc.value.max.z, b.max.z)))
  }

  /** The bounds accumulated over the components' boxes; `None` for components that are not primitive. */
  function BoundsOf(boxes: seq<Option<Box>>): Option<Box>
  {
    if boxes == [] then None
    else
      var acc := BoundsOf(boxes[..|boxes| - 1]);
      var last := boxes[|boxes| - 1];
      if last.Some? then Some(AddBox(acc, last.value)) else acc
  }

  predicate Inside(b: Box, bounds: Box)
  {
    bounds.min.x <= b.min.x && bounds.min.y <= b.min.y && bounds.min.z <= b.min.z
    && b.max.x <= bounds.max.x && b.max.y <= bounds.max.y && b.max.z <= bounds.max.z
  }

  /**
   * The accumulated bounds exist iff some component is primitive, hold every
   * primitive component's box, and every face lies on the face of some box.
   */
  lemma {:induction false} BoundsAreTheHull(boxes: seq<Option<Box>>)
    ensures BoundsOf(boxes).Some? <==> exists k :: 0 <= k < |boxes| && boxes[k].Some?
    ensures BoundsOf(boxes).Some? ==>
              forall k :: 0 <= k < |boxes| && boxes[k].Some? ==> Inside(boxes[k].value, BoundsOf(boxes).value)
    ensures BoundsOf(boxes).Some? ==>
              var b := BoundsOf(boxes).value;
              (exists k :: 0 <= k < |boxes| && boxes[k].Some? && boxes[k].value.min.x == b.min.x)
              && (exists k :: 0 <= k < |boxes| && boxes[k].Some? && boxes[k].value.min.y == b.min.y)
              && (exists k :: 0 <= k < |boxes| && boxes[k].Some? && boxes[k].value.min.z == b.min.z)
              && (exists k :: 0 <= k < |boxes| && boxes[k].Some? && boxes[k].value.max.x == b.max.x)
              && (exists k :: 0 <= k < |boxes| && boxes[k].Some? && boxes[k].value.max.y == b.max.y)
              && (exists k :: 0 <= k < |boxes| && boxes[k].Some? && boxes[k].value.max.z == b.max.z)
  {
    if boxes != [] {
      var front := boxes[..|boxes| - 1];
      BoundsAreTheHull(front);
      assert forall k :: 0 <= k < |front| ==> boxes[k] == front[k];
    }
  }

  /** The accumulation loop over the components, as the conversion runs it. */
  method AccumulateBounds(boxes: seq<Option<Box>>) returns (bounds: Option<Box>)
    ensures bounds == BoundsOf(boxes)
  {
    bounds := None;
    for i := 0 to |boxes|
      invariant bounds == BoundsOf(boxes[..i])
    {
      assert boxes[..i + 1][..i] == boxes[..i];
      if boxes[i].Some? {
        bounds := Some(AddBox(bounds, boxes[i].value));
      }
    }
    assert boxes[..|boxes|] == boxes;
  }

  /** `FMath::CeilToInt`: the least integer not below x. */
  function CeilToInt(x: real): (r: int)
    ensures x <= r as real < x + 1.0
  {
    -((-x).Floor)
  }

  function IMax(a: int, b: int): int { if a >= b then a else b }

  /** Vertices wanted along an axis: the range in metres times the sample frequency, rounded up, plus one; at least one. */
  function DesiredVertexCount(rangeCm: real, sampleFrequency: int): (r: int)
    ensures r >= 1
    ensures rangeCm >= 0.0 && sampleFrequency >= 0 ==>
              (r - 1) as real >= rangeCm * 0.01 * sampleFrequency as real
              && (r - 2) as real < rangeCm * 0.01 * sampleFrequency as real
  {
    IMax(1, CeilToInt(rangeCm * 0.01 * sampleFrequency as real) + 1)
  }

  /**
   * Quads along an axis: the desired quad count (one less than the vertex
   * count, at least one) rounded up to a multiple of the component size.
   */
  function RequiredQuadCount(desiredVertices: int, componentSizeQuads: int): (r: int)
    requires componentSizeQuads > 0
  {
    var q := IMax(desiredVertices - 1, 1);
    ((q + componentSizeQuads - 1) / componentSizeQuads) * componentSizeQuads
  }

  /** The required quad count is the least multiple of the component size that is at least the desired quad count. */
  lemma RequiredQuadCountIsLeastMultiple(desiredVertices: int, componentSizeQuads: int)
    requires componentSizeQuads > 0
    ensures var r := RequiredQuadCount(desiredVertices, componentSizeQuads);
            var q := IMax(desiredVertices - 1, 1);
            r % componentSizeQuads == 0 && q <= r < q + componentSizeQuads
  {
    var c := componentSizeQuads;
    var q := IMax(desiredVertices - 1, 1);
    var n := q + c - 1;
    var d := n / c;
    assert n == d * c + n % c;
    MultipleHasNoRemainder(d, c);
  }

  lemma MultipleHasNoRemainder(d: int, c: int)
    requires c > 0
    ensures (d * c) % c == 0
  {
    var m := d * c;
    var e := m / c;
    assert m == e * c + m % c;
    assert (d - e) * c == m % c;
    assert d - e >= 1 ==> (d - e) * c >= c;
    assert d - e <= -1 ==> (d - e) * c <= -c;
  }

  /** Heightmap vertices along an axis: the required quad count plus one. */
  function HeightmapExtent(rangeCm: real, sampleFrequency: int, componentSizeQuads: int): (r: int)
    requires componentSizeQuads > 0
    ensures r >= componentSizeQuads + 1
    ensures (r - 1) % componentSizeQuads == 0
  {
    RequiredQuadCountIsLeastMultiple(DesiredVertexCount(rangeCm, sampleFrequency), componentSizeQuads);
    RequiredQuadCount(DesiredVertexCount(rangeCm, sampleFrequency), componentSizeQuads) + 1
  }

  // ---------------------------------------------------------------------
  // Cells and heights
  // ---------------------------------------------------------------------

  /** Cell `index` of a row-major heightmap `width` wide lies in column index % width and row index / width. */
  lemma CellOfIndex(width: int, height: int, index: int)
    requires width > 0 && height >= 0 && 0 <= index < width * height
    ensures 0 <= index % width < width && 0 <= index / width < height
    ensures (index / width) * width + index % width == index
  {
    var y := index / width;
    assert index == y * width + index % width;
    assert y >= height ==> y * width >= height * width;
  }

  /** The row-major index of column x, row y. */
  function CellIndex(width: int, x: int, y: int): int
  {
    y * width + x
  }

  /** Column x of row y lies inside the heightmap, and its index maps back to (x, y). */
  lemma IndexOfCell(width: int, height: int, x: int, y: int)
    requires 0 <= x < width && 0 <= y < height
    ensures 0 <= CellIndex(width, x, y) < width * height
    ensures CellIndex(width, x, y) % width == x && CellIndex(width, x, y) / width == y
  {
    var i := y * width + x;
    assert y * width <= (height - 1) * width;
    var q := i / width;
    assert i == q * width + i % width;
    assert (q - y) * width == x - i % width;
    assert q - y >= 1 ==> (q - y) * width >= width;
    assert q - y <= -1 ==> (q - y) * width <= -width;
  }

  /** A displacement entry: a wildcard pattern and the height (cm) added to hits on matching components. */
  datatype DisplacementEntry = DisplacementEntry(pattern: string, displacement: real)

  function RAbs(x: real): real { if x < 0.0 then -x else x }

  /** The entry's pattern matches the hit component's name or its owner's name. */
  predicate EntryHits(e: DisplacementEntry, componentName: string, ownerName: string, matches: (string, string) -> bool)
  {
    matches(componentName, e.pattern) || matches(ownerName, e.pattern)
  }

  /**
   * The displacement after scanning the entries in order: an entry whose
   * magnitude does not exceed the current one is skipped; otherwise, if it
   * matches, it replaces the current one.
   */
  function Displacement(entries: seq<DisplacementEntry>, componentName: string, ownerName: string,
                        matches: (string, string) -> bool): real
  {
    if entries == [] then 0.0
    else
      var d := Displacement(entries[..|entries| - 1], componentName, ownerName, matches);
      var e := entries[|entries| - 1];
      if RAbs(e.displacement) <= RAbs(d) then d
      else if EntryHits(e, componentName, ownerName, matches) then e.displacement
      else d
  }

  /** Entry k matches and has the displacement d, and every matching entry before it is strictly smaller. */
  predicate FirstLargestAt(entries: seq<DisplacementEntry>, k: int, d: real, componentName: string, ownerName: string,
                           matches: (string, string) -> bool)
  {
    0 <= k < |entries| && EntryHits(entries[k], componentName, ownerName, matches) && entries[k].displacement == d
    && forall j :: 0 <= j < k && EntryHits(entries[j], componentName, ownerName, matches) ==>
         RAbs(entries[j].displacement) < RAbs(d)
  }

  /**
   * The displacement applied is that of the first matching entry of largest
   * magnitude, or zero when no matching entry is non-zero.
   */
  lemma {:induction false} DisplacementIsFirstLargest(entries: seq<DisplacementEntry>, componentName: string,
                                                      ownerName: string, matches: (string, string) -> bool)
    ensures var d := Displacement(entries, componentName, ownerName, matches);
            forall j :: 0 <= j < |entries| && EntryHits(entries[j], componentName, ownerName, matches) ==>
              RAbs(entries[j].displacement) <= RAbs(d)
    ensures var d := Displacement(entries, componentName, ownerName, matches);
            d == 0.0 || exists k :: FirstLargestAt(entries, k, d, componentName, ownerName, matches)
  {
    if entries != [] {
      var front := entries[..|entries| - 1];
      DisplacementIsFirstLargest(front, componentName, ownerName, matches);
      assert forall j :: 0 <= j < |front| ==> entries[j] == front[j];
      var d0 := Displacement(front, componentName, ownerName, matches);
      var d := Displacement(entries, componentName, ownerName, matches);
      var e := entries[|entries| - 1];
      if d != d0 {
        assert FirstLargestAt(entries, |entries| - 1, d, componentName, ownerName, matches);
      } else if d0 != 0.0 {
        var k :| FirstLargestAt(front, k, d0, componentName, ownerName, matches);
        assert FirstLargestAt(entries, k, d, componentName, ownerName, matches);
      }
    }
  }

  /** The displacement loop of a hit cell. */
  method ComputeDisplacement(entries: seq<DisplacementEntry>, componentName: string, ownerName: string,
                             matches: (string, string) -> bool) returns (d: real)
    ensures d == Displacement(entries, componentName, ownerName, matches)
  {
    d := 0.0;
    for i := 0 to |entries|
      invariant d == Displacement(entries[..i], componentName, ownerName, matches)
    {
      assert entries[..i + 1][..i] == entries[..i];
      var e := entries[i];
      if RAbs(e.displacement) <= RAbs(d) {
        continue;
      }
      if matches(componentName, e.pattern) {
        d := e.displacement;
        continue;
      }
      if matches(ownerName, e.pattern) {
        d := e.displacement;
        continue;
      }
    }
    assert entries[..|entries|] == entries;
  }

  function Clamp01(h: real): (r: real)
    ensures 0.0 <= r <= 1.0
  {
    if h < 0.0 then 0.0 else if h > 1.0 then 1.0 else h
  }

  /** `std::lround` on a non-negative value: halves round up. */
  function RoundHalfUp(x: real): (r: int)
    requires x >= 0.0
    ensures r as real - 0.5 <= x < r as real + 0.5
  {
    (x + 0.5).Floor
  }

  /**
   * A hit height (cm) as a 16-bit heightmap value: displaced, measured from
   * the bottom of the bounds, in metres, offset by 256 m, scaled to 512 m,
   * clamped to [0, 1] and rounded to [0, 65535].
   */
  function EncodeHeight(hitZ: real, displacement: real, minZ: real): (r: int)
    ensures 0 <= r <= 65535
  {
    var h := ((hitZ + displacement - minZ) * 0.01 + 256.0) / 512.0;
    RoundHalfUp(Clamp01(h) * 65535.0)
  }

  /** The height in cm above the bottom of the bounds that a heightmap value stands for. */
  function DecodeHeight(v: int): real
  {
    ((v as real / 65535.0) * 512.0 - 256.0) * 100.0
  }

  /**
   * Within the encodable band (256 m either side of the bottom of the bounds),
   * decoding gives the displaced height back to within half a step.
   */
  lemma EncodeHeightRoundTrip(hitZ: real, displacement: real, minZ: real)
    requires -25600.0 <= hitZ + displacement - minZ <= 25600.0
    ensures var err := DecodeHeight(EncodeHeight(hitZ, displacement, minZ)) - (hitZ + displacement - minZ);
            -25600.0 / 65535.0 <= err <= 25600.0 / 65535.0
  {
    var h := ((hitZ + displacement - minZ) * 0.01 + 256.0) / 512.0;
    assert 0.0 <= h <= 1.0;
    var v := EncodeHeight(hitZ, displacement, minZ);
    assert v as real - 0.5 <= h * 65535.0 < v as real + 0.5;
  }

  /** Higher hits never encode lower. */
  lemma EncodeHeightMonotone(z1: real, z2: real, displacement: real, minZ: real)
    requires z1 <= z2
    ensures EncodeHeight(z1, displacement, minZ) <= EncodeHeight(z2, displacement, minZ)
  {
    var h1 := Clamp01(((z1 + displacement - minZ) * 0.01 + 256.0) / 512.0) * 65535.0;
    var h2 := Clamp01(((z2 + displacement - minZ) * 0.01 + 256.0) / 512.0) * 65535.0;
    assert h1 <= h2;
    assert (h1 + 0.5).Floor <= (h2 + 0.5).Floor;
  }

  /** The outcome of the traces for one cell: the sweep missed, every retry failed, or a hit on a listed component. */
  datatype Sample = Miss | Failed | Hit(z: real, componentName: string, ownerName: string)

  /** The value written for one cell; misses and failures write zero. */
  function CellHeight(s: Sample, minZ: real, entries: seq<DisplacementEntry>, matches: (string, string) -> bool): (r: int)
    ensures 0 <= r <= 65535
    ensures !s.Hit? ==> r == 0
  {
    if s.Hit? then EncodeHeight(s.z, Displacement(entries, s.componentName, s.ownerName, matches), minZ) else 0
  }

  /**
   * The per-cell pass of the conversion: a zeroed heightmap of width * height
   * entries in which entry `index` receives the value sampled at column
   * index % width, row index / width; so column x of row y lands at
   * y * width + x.
   */
  method FillHeightmap(width: int, height: int, trace: (int, int) -> Sample, minZ: real,
                       entries: seq<DisplacementEntry>, matches: (string, string) -> bool)
    returns (heights: seq<int>)
    requires width > 0 && height > 0
    ensures |heights| == width * height
    ensures forall x, y :: 0 <= x < width && 0 <= y < height ==>
              CellIndex(width, x, y) < |heights| && heights[CellIndex(width, x, y)] == CellHeight(trace(x, y), minZ, entries, matches)
  {
    var data := new int[width * height](_ => 0);
    for index := 0 to data.Length
      invariant forall j :: 0 <= j < index ==> data[j] == CellHeight(trace(j % width, j / width), minZ, entries, matches)
    {
      var y := index / width;
      var x := index % width;
      var s := trace(x, y);
      if s.Hit? {
        var d := ComputeDisplacement(entries, s.componentName, s.ownerName, matches);
        data[index] := EncodeHeight(s.z, d, minZ);
      } else {
        data[index] := 0;
      }
    }
    heights := data[..];
    RowMajorCells(heights, width, height, (x, y) => CellHeight(trace(x, y), minZ, entries, matches));
  }

  /** A row-major array filled by index holds, at y * width + x, the value of cell (x, y). */
  lemma RowMajorCells(heights: seq<int>, width: int, height: int, cell: (int, int) -> int)
    requires width > 0 && height > 0 && |heights| == width * height
    requires forall j :: 0 <= j < |heights| ==> heights[j] == cell(j % width, j / width)
    ensures forall x, y :: 0 <= x < width && 0 <= y < height ==>
              CellIndex(width, x, y) < |heights| && heights[CellIndex(width, x, y)] == cell(x, y)
  {
    forall x, y | 0 <= x < width && 0 <= y < height
      ensures CellIndex(width, x, y) < |heights| && heights[CellIndex(width, x, y)] == cell(x, y)
    {
      IndexOfCell(width, height, x, y);
      var j := CellIndex(width, x, y);
      assert heights[j] == cell(j % width, j / width);
    }
  }

  /** The landscape the conversion imports: its component size, heightmap extent and heights in row-major order. */
  datatype Landscape = Landscape(componentSizeQuads: int, extentX: int, extentY: int, heights: seq<int>)

  /** The bounds as the conversion reads them: an unset box is all zeros. */
  function MinCorner(b: Option<Box>): Vec3 { if b.Some? then b.value.min else Vec3(0.0, 0.0, 0.0) }

  function MaxCorner(b: Option<Box>): Vec3 { if b.Some? then b.value.max else Vec3(0.0, 0.0, 0.0) }

  /**
   * `ConvertMeshesToLandscape` up to the engine import: no landscape for an
   * empty component list or a zero component size; otherwise a heightmap
   * whose extent per axis is the required quad count plus one, with one
   * entry per cell, and the entry of column x, row y being the height
   * sampled at (x, y).
   */
  method ConvertMeshesToLandscape(boxes: seq<Option<Box>>, subsectionSizeQuads: int, numSubsections: int,
                                  sampleFrequency: int, trace: (int, int) -> Sample,
                                  entries: seq<DisplacementEntry>, matches: (string, string) -> bool)
    returns (r: Option<Landscape>)
    requires subsectionSizeQuads >= 0 && numSubsections >= 0
    ensures r.None? <==> boxes == [] || subsectionSizeQuads * numSubsections == 0
    ensures r.Some? ==>
              var c := subsectionSizeQuads * numSubsections;
              var b := BoundsOf(boxes);
              c > 0 && r.value.componentSizeQuads == c
              && r.value.extentX == HeightmapExtent(MaxCorner(b).x - MinCorner(b).x, sampleFrequency, c)
              && r.value.extentY == HeightmapExtent(MaxCorner(b).y - MinCorner(b).y, sampleFrequency, c)
              && |r.value.heights| == r.value.extentX * r.value.extentY
              && forall x, y :: 0 <= x < r.value.extentX && 0 <= y < r.value.extentY ==>
                   CellIndex(r.value.extentX, x, y) < |r.value.heights|
                   && r.value.heights[CellIndex(r.value.extentX, x, y)] == CellHeight(trace(x, y), MinCorner(b).z, entries, matches)
  {
    if |boxes| == 0 {
      return None;
    }
    var componentSizeQuads := subsectionSizeQuads * numSubsections;
    if componentSizeQuads == 0 {
      return None;
    }
    var bounds := AccumulateBounds(boxes);
    var minC := MinCorner(bounds);
    var maxC := MaxCorner(bounds);
    var extentX := HeightmapExtent(maxC.x - minC.x, sampleFrequency, componentSizeQuads);
    var extentY := HeightmapExtent(maxC.y - minC.y, sampleFrequency, componentSizeQuads);
    var heights := FillHeightmap(extentX, extentY, trace, minC.z, entries, matches);
    return Some(Landscape(componentSizeQuads, extentX, extentY, heights));
  }
}
