/**
 * The wait-line exporter: every traffic light with a stop box gets a
 * two-point line on the ground across the box, set back 710 cm against the
 * box's right vector. JSON serialisation and the file write are not part of
 * this model.
 */
module WaitLinesExporter {
  import opened Wrappers
  import opened CosmosCommon

  /** What the exporter reads from a traffic light's box component (world space, cm). */
  datatype StopBox = StopBox(location: Vec3, forward: Vec3, right: Vec3, extent: Vec3)

  function Plus(a: Vec3, b: Vec3): Vec3 { Vec3(a.x + b.x, a.y + b.y, a.z + b.z) }

  function Minus(a: Vec3, b: Vec3): Vec3 { Vec3(a.x - b.x, a.y - b.y, a.z - b.z) }

  function Times(k: real, v: Vec3): Vec3 { Vec3(k * v.x, k * v.y, k * v.z) }

  /** The box location dropped to the ground. */
  function GroundPoint(b: StopBox): (g: Vec3)
    ensures g.x == b.location.x && g.y == b.location.y && g.z == 0.0
  {
    Vec3(b.location.x, b.location.y, 0.0)
  }

  /** Start and end of the wait line, in metres. */
  function WaitLine(b: StopBox): (r: seq<Vec3>)
    ensures |r| == 2
  {
    var g := GroundPoint(b);
    var start := Minus(Plus(g, Times(-b.extent.x, b.forward)), Times(710.0, b.right));
    var end := Minus(Plus(g, Times(b.extent.x, b.forward)), Times(710.0, b.right));
    [ToMeters(start), ToMeters(end)]
  }

  /**
   * The line runs along the box's forward vector over twice its X half size,
   * and its midpoint is the ground point moved 710 cm against the right vector.
   */
  lemma WaitLineGeometry(b: StopBox)
    ensures var r := WaitLine(b);
            Times(100.0, Minus(r[1], r[0])) == Times(2.0 * b.extent.x, b.forward)
    ensures var r := WaitLine(b);
            Times(100.0, Times(0.5, Plus(r[0], r[1]))) == Minus(GroundPoint(b), Times(710.0, b.right))
  {
  }

  /** The lights that have a box, in actor order. */
  function Boxed(lights: seq<Option<StopBox>>): seq<StopBox>
  {
    if lights == [] then []
    else
      var last := lights[|lights| - 1];
      Boxed(lights[..|lights| - 1]) + (if last.Some? then [last.value] else [])
  }

  /** The labels of the export loop. */
  function WaitLineLabels(lights: seq<Option<StopBox>>, ts: string): seq<Label>
  {
    if lights == [] then []
    else
      var last := lights[|lights| - 1];
      WaitLineLabels(lights[..|lights| - 1], ts) + (if last.Some? then [Label(ts, WaitLine(last.value))] else [])
  }

  /** One label per light with a box, in actor order, each the two points of its wait line. */
  lemma {:induction false} OneLabelPerBox(lights: seq<Option<StopBox>>, ts: string)
    ensures |WaitLineLabels(lights, ts)| == |Boxed(lights)|
    ensures forall i :: 0 <= i < |Boxed(lights)| ==>
              WaitLineLabels(lights, ts)[i] == Label(ts, WaitLine(Boxed(lights)[i]))
    ensures forall b :: b in Boxed(lights) ==> Some(b) in lights
  {
    if lights != [] {
      OneLabelPerBox(lights[..|lights| - 1], ts);
    }
  }

  /**
   * `ExportCosmosWaitLines` up to the JSON writer: a malformed session id is an
   * error and yields no labels; otherwise one label per light with a box,
   * stamped with the session's start time.
   */
  method ExportCosmosWaitLines(sessionId: string, lights: seq<Option<StopBox>>) returns (r: Result<seq<Label>, string>)
    ensures ParseSessionIdParts(sessionId).None? ==> r == Failure(SessionIdError(sessionId))
    ensures ParseSessionIdParts(sessionId).Some? ==>
              r == Success(WaitLineLabels(lights, ParseSessionIdParts(sessionId).value.start))
  {
    var parts := ParseSessionIdParts(sessionId);
    if parts.None? {
      return Failure(SessionIdError(sessionId));
    }
    var ts := parts.value.start;
    var labels := [];
    for i := 0 to |lights|
      invariant labels == WaitLineLabels(lights[..i], ts)
    {
      assert lights[..i + 1][..i] == lights[..i];
      var box := lights[i];
      if box.None? { continue; }
      var b := box.value;
      var g := Vec3(b.location.x, b.location.y, 0.0);
      var start := Minus(Plus(g, Times(-b.extent.x, b.forward)), Times(710.0, b.right));
      var end := Minus(Plus(g, Times(b.extent.x, b.forward)), Times(710.0, b.right));
      labels := labels + [Label(ts, [ToMeters(start), ToMeters(end)])];
    }
    assert lights[..|lights|] == lights;
    return Success(labels);
  }
}
