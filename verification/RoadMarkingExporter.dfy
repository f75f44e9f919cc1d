/**
 * The road-marking exporter: every stencil of the map becomes a four-corner
 * surface label, the stencil's rectangle rotated and moved by its transform.
 * Rotating a vector by the stencil's quaternion is an engine call and is a
 * function parameter. JSON serialisation and the file write are not part of
 * this model.
 */
module RoadMarkingExporter {
  import opened Wrappers
  import opened CosmosCommon

  /** A unit quaternion; rotating a vector by it is left to the caller. */
  datatype Quat = Quat(x: real, y: real, z: real, w: real)

  /** A road stencil: its transform, and its width and length in metres. */
  datatype Stencil = Stencil(location: Vec3, rotation: Quat, width: real, length: real)

  /** The rectangle's corners around the stencil's centre, in cm and before rotation. */
  function RectangleCorners(s: Stencil): (r: seq<Vec3>)
    ensures |r| == 4
  {
    var l := s.length * 100.0;
    var w := s.width * 100.0;
    [Vec3(-l / 2.0, -w / 2.0, 0.0), Vec3(l / 2.0, -w / 2.0, 0.0), Vec3(l / 2.0, w / 2.0, 0.0), Vec3(-l / 2.0, w / 2.0, 0.0)]
  }

  /**
   * The corner order goes once around the rectangle: the first edge runs
   * along the length, the second along the width, the third back along the
   * length and the fourth back along the width; every corner lies in the
   * stencil's plane, half the length and half the width (in cm) from its centre.
   */
  lemma RectangleLayout(s: Stencil)
    ensures var c := RectangleCorners(s);
            c[1].x - c[0].x == s.length * 100.0 && c[1].y == c[0].y &&
            c[2].y - c[1].y == s.width * 100.0 && c[2].x == c[1].x &&
            c[3].x - c[2].x == -s.length * 100.0 && c[3].y == c[2].y &&
            c[0].y - c[3].y == -s.width * 100.0 && c[0].x == c[3].x
    ensures forall i :: 0 <= i < 4 ==>
              var c := RectangleCorners(s)[i];
              c.z == 0.0 && (c.x == s.length * 50.0 || c.x == -s.length * 50.0)
              && (c.y == s.width * 50.0 || c.y == -s.width * 50.0)
  {
  }

  /** The surface of a stencil in metres: each corner rotated, moved to the stencil and scaled down. */
  function SurfaceMeters(s: Stencil, rotate: (Quat, Vec3) -> Vec3): (r: seq<Vec3>)
    ensures |r| == 4
  {
    var c := RectangleCorners(s);
    seq(4, i requires 0 <= i < 4 =>
      var v := rotate(s.rotation, c[i]);
      ToMeters(Vec3(s.location.x + v.x, s.location.y + v.y, s.location.z + v.z)))
  }

  /** The stencils that are set, in map order. */
  function Present(stencils: seq<Option<Stencil>>): seq<Stencil>
  {
    if stencils == [] then []
    else
      var last := stencils[|stencils| - 1];
      Present(stencils[..|stencils| - 1]) + (if last.Some? then [last.value] else [])
  }

  /** The labels of the stencil loop. */
  function MarkingLabels(stencils: seq<Option<Stencil>>, rotate: (Quat, Vec3) -> Vec3, ts: string): seq<Label>
  {
    if stencils == [] then []
    else
      var last := stencils[|stencils| - 1];
      MarkingLabels(stencils[..|stencils| - 1], rotate, ts)
        + (if last.Some? then [Label(ts, SurfaceMeters(last.value, rotate))] else [])
  }

  /** One label per stencil that is set, in map order, each its four corners. */
  lemma {:induction false} OneLabelPerStencil(stencils: seq<Option<Stencil>>, rotate: (Quat, Vec3) -> Vec3, ts: string)
    ensures |MarkingLabels(stencils, rotate, ts)| == |Present(stencils)|
    ensures forall i :: 0 <= i < |Present(stencils)| ==>
              MarkingLabels(stencils, rotate, ts)[i] == Label(ts, SurfaceMeters(Present(stencils)[i], rotate))
    ensures forall s :: s in Present(stencils) ==> Some(s) in stencils
  {
    if stencils != [] {
      OneLabelPerStencil(stencils[..|stencils| - 1], rotate, ts);
    }
  }

  /** The engine state the exporter reads: the stencils of the map of the game mode, in map order. */
  datatype GameMode = GameMode(stencils: seq<Option<Stencil>>)

  /**
   * `ExportCosmosRoadMarkings` up to the JSON writer: the session id and then
   * the game mode are checked, each with its own error; otherwise one label
   * per stencil, stamped with the session's start time.
   */
  method ExportCosmosRoadMarkings(sessionId: string, gameMode: Option<GameMode>, rotate: (Quat, Vec3) -> Vec3)
    returns (r: Result<seq<Label>, string>)
    ensures ParseSessionIdParts(sessionId).None? ==> r == Failure(SessionIdError(sessionId))
    ensures ParseSessionIdParts(sessionId).Some? && gameMode.None? ==> r == Failure("Could not get CarlaGameModeBase")
    ensures ParseSessionIdParts(sessionId).Some? && gameMode.Some? ==>
              r == Success(MarkingLabels(gameMode.value.stencils, rotate, ParseSessionIdParts(sessionId).value.start))
  {
    var parts := ParseSessionIdParts(sessionId);
    if parts.None? {
      return Failure(SessionIdError(sessionId));
    }
    if gameMode.None? {
      return Failure("Could not get CarlaGameModeBase");
    }
    var ts := parts.value.start;
    var stencils := gameMode.value.stencils;
    var labels := [];
    for i := 0 to |stencils|
      invariant labels == MarkingLabels(stencils[..i], rotate, ts)
    {
      assert stencils[..i + 1][..i] == stencils[..i];
      if stencils[i].None? { continue; }
      var s := stencils[i].value;
      var corners := RectangleCorners(s);
      var verts := [];
      for k := 0 to 4
        invariant |verts| == k
        invariant forall j :: 0 <= j < k ==> verts[j] == SurfaceMeters(s, rotate)[j]
      {
        var v := rotate(s.rotation, corners[k]);
        verts := verts + [ToMeters(Vec3(s.location.x + v.x, s.location.y + v.y, s.location.z + v.z))];
      }
      assert verts == SurfaceMeters(s, rotate);
      labels := labels + [Label(ts, verts)];
    }
    assert stencils[..|stencils|] == stencils;
    return Success(labels);
  }
}
