/**
 * The traffic-sign exporter: tagged static-mesh components of the world become
 * pole polylines (two vertices) and sign or light cuboids (eight vertices),
 * collected in three lists and written as three files. The engine's objects
 * are inputs: the component records below hold what the exporter reads from
 * them, and applying a component transform is a function parameter.
 */
module TrafficSignsExporter {
  import opened Wrappers
  import opened CosmosCommon
  import opened UnrealStrings

  /** The city-object tag of a component; only the three exported tags are told apart. */
  datatype Tag = NoTag | TrafficSigns | TrafficLight | Poles | OtherTag

  /** A component transform; applying it (rotation, scale, translation) is an engine call. */
  datatype Transform = Transform(rotation: (real, real, real, real), translation: Vec3, scale: Vec3)

  /** What the exporter reads from a mesh component. */
  datatype MeshComponent = MeshComponent(
    visible: bool,
    hasOwner: bool,
    location: Vec3,           // component location (cm)
    isStaticMesh: bool,       // the cast to a static-mesh component succeeds
    tag: Tag,
    worldExtent: Vec3,        // box extent of the bounds in world space
    meshName: Option<string>, // name of the static mesh asset; None when it is null
    localOrigin: Vec3,        // local bounds: centre ...
    localExtent: Vec3,        // ... and half size
    transform: Transform)

  /** The four filters in front of the tag switch; a failed mesh cast is a `None` object. */
  predicate Kept(c: MeshComponent)
  {
    c.visible && c.hasOwner && c.location.z <= 10000.0 && c.isStaticMesh
  }

  // ---------------------------------------------------------------- poles

  /** The bounds are wider than tall. */
  predicate IsHorizontal(e: Vec3)
  {
    (if e.x >= e.y then e.x else e.y) > e.z
  }

  /** A horizontal pole is dropped unless its mesh is named as a pole. */
  predicate PoleSkipped(c: MeshComponent)
  {
    IsHorizontal(c.worldExtent) && !(c.meshName.Some? && ContainsIgnoringCase(c.meshName.value, "pole"))
  }

  /**
   * `BuildPolePolylineMeters`: the top of the pole is the component location
   * raised by the half height; the base is on the ground (z = 0) when the
   * component sits at most 250 cm up, and at the component location otherwise.
   */
  function PolePolyline(loc: Vec3, halfHeight: real): (r: seq<Vec3>)
    ensures |r| == 2
    ensures r[0].x * 100.0 == loc.x && r[0].y * 100.0 == loc.y && r[0].z * 100.0 == loc.z + halfHeight
    ensures r[1].x == r[0].x && r[1].y == r[0].y
    ensures loc.z <= 250.0 ==> r[1].z == 0.0
    ensures loc.z > 250.0 ==> r[1].z * 100.0 == loc.z
  {
    var top := Vec3(loc.x, loc.y, loc.z + halfHeight);
    var adjustment := if loc.z > 250.0 then 0.0 else loc.z;
    var base := Vec3(top.x, top.y, top.z - (halfHeight + adjustment));
    [ToMeters(top), ToMeters(base)]
  }

  // ---------------------------------------------------------------- cuboids

  /** The sign of a corner along x, y and z: the top face (+z) first, then the bottom face. */
  const CornerSigns: seq<(real, real, real)> :=
    [(1.0, 1.0, 1.0), (-1.0, 1.0, 1.0), (-1.0, -1.0, 1.0), (1.0, -1.0, 1.0),
     (1.0, 1.0, -1.0), (-1.0, 1.0, -1.0), (-1.0, -1.0, -1.0), (1.0, -1.0, -1.0)]

  /** The 8 local corners of the bounds, in the exporter's order. */
  function LocalCorners(o: Vec3, e: Vec3): (r: seq<Vec3>)
    ensures |r| == 8
  {
    seq(8, i requires 0 <= i < 8 =>
      Vec3(o.x + CornerSigns[i].0 * e.x, o.y + CornerSigns[i].1 * e.y, o.z + CornerSigns[i].2 * e.z))
  }

  /**
   * The corner order: corners 0-3 are the top face and 4-7 the bottom face,
   * corner i + 4 lies straight under corner i, and consecutive corners of a
   * face share an edge (they differ in exactly one of x and y).
   */
  lemma CuboidLayout(o: Vec3, e: Vec3, i: nat)
    requires i < 4
    requires e.x > 0.0 && e.y > 0.0
    ensures LocalCorners(o, e)[i].z == o.z + e.z && LocalCorners(o, e)[i + 4].z == o.z - e.z
    ensures LocalCorners(o, e)[i + 4].x == LocalCorners(o, e)[i].x
    ensures LocalCorners(o, e)[i + 4].y == LocalCorners(o, e)[i].y
    ensures var a, b := LocalCorners(o, e)[i], LocalCorners(o, e)[(i + 1) % 4];
            (a.x == b.x) != (a.y == b.y)
  {
  }

  /** Every corner is the centre moved by plus or minus the half size on each axis. */
  lemma CornersOnTheBox(o: Vec3, e: Vec3, i: nat)
    requires i < 8
    ensures var c := LocalCorners(o, e)[i];
            (c.x == o.x + e.x || c.x == o.x - e.x) &&
            (c.y == o.y + e.y || c.y == o.y - e.y) &&
            (c.z == o.z + e.z || c.z == o.z - e.z)
  {
  }

  /** The world corners of a component's bounds, in metres. */
  function CuboidMeters(c: MeshComponent, apply: (Transform, Vec3) -> Vec3): (r: seq<Vec3>)
    ensures |r| == 8
  {
    var corners := LocalCorners(c.localOrigin, c.localExtent);
    seq(8, i requires 0 <= i < 8 => ToMeters(apply(c.transform, corners[i])))
  }

  /** `BuildComponentCuboidMeters`: the corner loop. */
  method BuildComponentCuboidMeters(c: MeshComponent, apply: (Transform, Vec3) -> Vec3) returns (verts: seq<Vec3>)
    ensures verts == CuboidMeters(c, apply)
  {
    var corners := LocalCorners(c.localOrigin, c.localExtent);
    verts := [];
    for i := 0 to 8
      invariant |verts| == i
      invariant forall j :: 0 <= j < i ==> verts[j] == ToMeters(apply(c.transform, corners[j]))
    {
      verts := verts + [ToMeters(apply(c.transform, corners[i]))];
    }
  }

  // ---------------------------------------------------------------- labels

  /** The three label lists. */
  datatype Kind = PoleKind | SignKind | LightKind

  /** The label an object adds to the list of `kind`, if any. */
  function LabelFor(o: Option<MeshComponent>, apply: (Transform, Vec3) -> Vec3, ts: string, kind: Kind): Option<Label>
  {
    if o.None? || !Kept(o.value) then None
    else
      var c := o.value;
      match kind
      case SignKind => if c.tag == TrafficSigns then Some(Label(ts, CuboidMeters(c, apply))) else None
      case LightKind => if c.tag == TrafficLight then Some(Label(ts, CuboidMeters(c, apply))) else None
      case PoleKind =>
        if c.tag == Poles && !PoleSkipped(c) then Some(Label(ts, PolePolyline(c.location, c.worldExtent.z))) else None
  }

  /** The tag decides the list: a component lands in at most one of them. */
  lemma AtMostOneList(o: Option<MeshComponent>, apply: (Transform, Vec3) -> Vec3, ts: string, k1: Kind, k2: Kind)
    requires LabelFor(o, apply, ts, k1).Some? && LabelFor(o, apply, ts, k2).Some?
    ensures k1 == k2
  {
  }

  /** The labels of one kind, in object order. */
  function Collect(objs: seq<Option<MeshComponent>>, apply: (Transform, Vec3) -> Vec3, ts: string, kind: Kind): seq<Label>
  {
    if objs == [] then []
    else
      var front := Collect(objs[..|objs| - 1], apply, ts, kind);
      match LabelFor(objs[|objs| - 1], apply, ts, kind)
      case Some(l) => front + [l]
      case None => front
  }

  /**
   * Every label of a list comes from a kept component with that list's tag:
   * a cuboid of 8 corners for signs and lights, a 2-point polyline of a
   * pole that is not skipped for poles; all carry the session's timestamp.
   */
  lemma {:induction false} CollectSound(objs: seq<Option<MeshComponent>>, apply: (Transform, Vec3) -> Vec3, ts: string,
                                        kind: Kind, l: Label)
    requires l in Collect(objs, apply, ts, kind)
    ensures l.timestamp == ts
    ensures exists i :: 0 <= i < |objs| && objs[i].Some? && Kept(objs[i].value) &&
              match kind
              case SignKind => objs[i].value.tag == TrafficSigns && l.vertices == CuboidMeters(objs[i].value, apply)
              case LightKind => objs[i].value.tag == TrafficLight && l.vertices == CuboidMeters(objs[i].value, apply)
              case PoleKind => objs[i].value.tag == Poles && !PoleSkipped(objs[i].value)
                               && l.vertices == PolePolyline(objs[i].value.location, objs[i].value.worldExtent.z)
  {
    var n := |objs| - 1;
    var front := objs[..n];
    if l in Collect(front, apply, ts, kind) {
      CollectSound(front, apply, ts, kind, l);
      var i :| 0 <= i < |front| && front[i].Some? && Kept(front[i].value) &&
              match kind
              case SignKind => front[i].value.tag == TrafficSigns && l.vertices == CuboidMeters(front[i].value, apply)
              case LightKind => front[i].value.tag == TrafficLight && l.vertices == CuboidMeters(front[i].value, apply)
              case PoleKind => front[i].value.tag == Poles && !PoleSkipped(front[i].value)
                               && l.vertices == PolePolyline(front[i].value.location, front[i].value.worldExtent.z);
      assert objs[i] == front[i];
    } else {
      assert LabelFor(objs[n], apply, ts, kind) == Some(l);
    }
  }

  /** Every kept component with a list's tag (a pole only when it is not skipped) has its label there. */
  lemma {:induction false} CollectComplete(objs: seq<Option<MeshComponent>>, apply: (Transform, Vec3) -> Vec3, ts: string,
                                           kind: Kind, i: nat)
    requires i < |objs| && LabelFor(objs[i], apply, ts, kind).Some?
    ensures LabelFor(objs[i], apply, ts, kind).value in Collect(objs, apply, ts, kind)
  {
    var n := |objs| - 1;
    if i < n {
      assert objs[..n][i] == objs[i];
      CollectComplete(objs[..n], apply, ts, kind, i);
    }
  }

  /** The three lists after the component loop. */
  datatype SignLabels = SignLabels(poles: seq<Label>, signs: seq<Label>, lights: seq<Label>)

  /** The component loop of `ExportCosmosTrafficSigns`. */
  method ScanComponents(objs: seq<Option<MeshComponent>>, apply: (Transform, Vec3) -> Vec3, ts: string)
    returns (r: SignLabels)
    ensures r.poles == Collect(objs, apply, ts, PoleKind)
    ensures r.signs == Collect(objs, apply, ts, SignKind)
    ensures r.lights == Collect(objs, apply, ts, LightKind)
  {
    var poles, signs, lights := [], [], [];
    var i := 0;
    while i < |objs|
      invariant 0 <= i <= |objs|
      invariant poles == Collect(objs[..i], apply, ts, PoleKind)
      invariant signs == Collect(objs[..i], apply, ts, SignKind)
      invariant lights == Collect(objs[..i], apply, ts, LightKind)
    {
      assert objs[..i + 1][..i] == objs[..i];
      var o := objs[i];
      i := i + 1;
      if o.None? { continue; }
      var c := o.value;
      if !c.visible { continue; }
      if !c.hasOwner { continue; }
      if c.location.z > 10000.0 { continue; }
      if !c.isStaticMesh { continue; }
      if c.tag == TrafficSigns {
        var verts := BuildComponentCuboidMeters(c, apply);
        if |verts| == 8 {
          signs := signs + [Label(ts, verts)];
        }
      } else if c.tag == TrafficLight {
        var verts := BuildComponentCuboidMeters(c, apply);
        if |verts| == 8 {
          lights := lights + [Label(ts, verts)];
        }
      } else if c.tag == Poles {
        if PoleSkipped(c) { continue; }
        poles := poles + [Label(ts, PolePolyline(c.location, c.worldExtent.z))];
      }
    }
    assert objs[..i] == objs;
    return SignLabels(poles, signs, lights);
  }

  // ---------------------------------------------------------------- files

  /** One output file: its sub-directory, file-name suffix and labels. */
  datatype ExportFile = ExportFile(subDir: string, fileName: string, labels: seq<Label>)

  /** The three files, in writing order: poles, signs, lights, each in its own sub-directory. */
  function ExportFiles(r: SignLabels): (files: seq<ExportFile>)
    ensures |files| == 3
    ensures files[0].labels == r.poles && files[1].labels == r.signs && files[2].labels == r.lights
    ensures forall j, k :: 0 <= j < k < 3 ==> files[j].subDir != files[k].subDir
  {
    [ExportFile("3d_poles/", ".poles.json", r.poles),
     ExportFile("3d_traffic_signs/", ".traffic_signs.json", r.signs),
     ExportFile("3d_traffic_lights/", ".traffic_lights.json", r.lights)]
  }

  function FullPath(outFilePath: string, sessionId: string, f: ExportFile): string
  {
    outFilePath + f.subDir + sessionId + f.fileName
  }

  /** The file serialises and is saved. */
  predicate FileOk(outFilePath: string, sessionId: string, f: ExportFile,
                   serializeOk: ExportFile -> bool, saveOk: string -> bool)
  {
    serializeOk(f) && saveOk(FullPath(outFilePath, sessionId, f))
  }

  /** The error reported for a file that fails. */
  function FileError(outFilePath: string, sessionId: string, f: ExportFile, serializeOk: ExportFile -> bool): string
  {
    if !serializeOk(f) then "JSON serialization failed for " + f.subDir
    else "Failed to write: " + FullPath(outFilePath, sessionId, f)
  }

  /**
   * The outcome of writing `files` in order and stopping at the first failure:
   * success iff every file is written, with the paths in order; otherwise the
   * error of the first file that fails, every file before it written.
   */
  ghost predicate WriteOutcome(r: Result<seq<string>, string>, outFilePath: string, sessionId: string,
                               files: seq<ExportFile>, serializeOk: ExportFile -> bool, saveOk: string -> bool)
  {
    (r.Success? <==> forall k :: 0 <= k < |files| ==> FileOk(outFilePath, sessionId, files[k], serializeOk, saveOk)) &&
    (r.Success? ==> r.value == seq(|files|, k requires 0 <= k < |files| => FullPath(outFilePath, sessionId, files[k]))) &&
    (r.Failure? ==> exists k :: 0 <= k < |files| &&
                       (forall j :: 0 <= j < k ==> FileOk(outFilePath, sessionId, files[j], serializeOk, saveOk)) &&
                       !FileOk(outFilePath, sessionId, files[k], serializeOk, saveOk) &&
                       r.error == FileError(outFilePath, sessionId, files[k], serializeOk))
  }

  /** The writing loop; serialisation and the file save are engine calls, given as outcomes. */
  method WriteExports(outFilePath: string, sessionId: string, files: seq<ExportFile>,
                      serializeOk: ExportFile -> bool, saveOk: string -> bool)
    returns (r: Result<seq<string>, string>)
    ensures WriteOutcome(r, outFilePath, sessionId, files, serializeOk, saveOk)
  {
    var written := [];
    for i := 0 to |files|
      invariant written == seq(i, k requires 0 <= k < i => FullPath(outFilePath, sessionId, files[k]))
      invariant forall j :: 0 <= j < i ==> FileOk(outFilePath, sessionId, files[j], serializeOk, saveOk)
    {
      var f := files[i];
      if !serializeOk(f) {
        return Failure("JSON serialization failed for " + f.subDir);
      }
      var path := outFilePath + f.subDir + sessionId + f.fileName;
      if !saveOk(path) {
        return Failure("Failed to write: " + path);
      }
      written := written + [path];
    }
    return Success(written);
  }

  /**
   * `ExportCosmosTrafficSigns`: a malformed session id is an error and nothing
   * is written; otherwise the three label lists, stamped with the session's
   * start time, are written as poles, signs, lights, stopping at the first
   * failure.
   */
  method ExportCosmosTrafficSigns(sessionId: string, outFilePath: string, objs: seq<Option<MeshComponent>>,
                                  apply: (Transform, Vec3) -> Vec3,
                                  serializeOk: ExportFile -> bool, saveOk: string -> bool)
    returns (r: Result<seq<string>, string>)
    ensures ParseSessionIdParts(sessionId).None? ==> r == Failure(SessionIdError(sessionId))
    ensures ParseSessionIdParts(sessionId).Some? ==>
              var ts := ParseSessionIdParts(sessionId).value.start;
              WriteOutcome(r, outFilePath, sessionId,
                           ExportFiles(SignLabels(Collect(objs, apply, ts, PoleKind), Collect(objs, apply, ts, SignKind),
                                                  Collect(objs, apply, ts, LightKind))),
                           serializeOk, saveOk)
  {
    var parts := ParseSessionIdParts(sessionId);
    if parts.None? {
      return Failure(SessionIdError(sessionId));
    }
    var lists := ScanComponents(objs, apply, parts.value.start);
    r := WriteExports(outFilePath, sessionId, ExportFiles(lists), serializeOk, saveOk);
  }
}
