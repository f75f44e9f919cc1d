/**
 * The road-boundary exporter: shoulder, sidewalk and median splines are kept
 * or dropped by a decision table over the splines of the adjacent lane, and the
 * kept ones become polyline labels. JSON serialisation and the file write are
 * not part of this model.
 */
module RoadBoundaryExporter {
  import opened Wrappers
  import opened CosmosCommon
  import opened RoadSplines

  /** The boundary types the exporter looks at. */
  predicate IsBoundary(s: RoadSpline)
  {
    s.boundary == Shoulder || s.boundary == Sidewalk || s.boundary == Median
  }

  /** An adjacent spline that lets a boundary be drawn next to it. */
  predicate IsRoadside(t: RoadSpline)
  {
    t.boundary == Driving || t.boundary == Shoulder
  }

  /** The value one adjacent spline `t` gives `should_render`, from the value before it. */
  function BoundaryStep(s: RoadSpline, t: RoadSpline, before: bool): bool
  {
    if !IsRoadside(t) then false
    else
      match s.boundary
      case Shoulder => false
      case Sidewalk =>
        if s.isJunction then true
        else if s.orientation == Left then s.laneId > 0 && s.laneId * t.laneId > 0
        else s.laneId < 0
      case Median => true
      case _ => before
  }

  /** What `should_render` holds after the loop over the adjacent splines. */
  function BoundaryDecision(s: RoadSpline, found: seq<RoadSpline>): bool
  {
    if found == [] then false
    else BoundaryStep(s, found[|found| - 1], BoundaryDecision(s, found[..|found| - 1]))
  }

  /** The junction, left and right `should_render` loops. */
  method ShouldRenderBoundary(s: RoadSpline, found: seq<RoadSpline>) returns (render: bool)
    ensures render == BoundaryDecision(s, found)
  {
    render := false;
    var i := 0;
    if s.isJunction {
      while i < |found|
        invariant 0 <= i <= |found|
        invariant render == BoundaryDecision(s, found[..i])
      {
        assert found[..i + 1][..i] == found[..i];
        var target := found[i];
        if target.boundary == Driving || target.boundary == Shoulder {
          if s.boundary == Shoulder { render := false; }
          else if s.boundary == Sidewalk { render := true; }
          else if s.boundary == Median { render := true; }
        } else {
          render := false;
        }
        i := i + 1;
      }
    } else if s.orientation == Left {
      while i < |found|
        invariant 0 <= i <= |found|
        invariant render == BoundaryDecision(s, found[..i])
      {
        assert found[..i + 1][..i] == found[..i];
        var target := found[i];
        if target.boundary == Driving || target.boundary == Shoulder {
          if s.boundary == Shoulder { render := false; }
          else if s.boundary == Sidewalk { render := s.laneId > 0 && s.laneId * target.laneId > 0; }
          else if s.boundary == Median { render := true; }
        } else {
          render := false;
        }
        i := i + 1;
      }
    } else {
      while i < |found|
        invariant 0 <= i <= |found|
        invariant render == BoundaryDecision(s, found[..i])
      {
        assert found[..i + 1][..i] == found[..i];
        var target := found[i];
        if target.boundary == Driving || target.boundary == Shoulder {
          if s.boundary == Shoulder { render := false; }
          else if s.boundary == Sidewalk { render := s.laneId < 0; }
          else if s.boundary == Median { render := true; }
        } else {
          render := false;
        }
        i := i + 1;
      }
    }
    assert found[..i] == found;
  }

  /**
   * The decision table for a boundary spline over splines of its adjacent
   * lane: only the last adjacent spline matters, and it must be a driving lane
   * or a shoulder. Then a shoulder is never drawn, a median always is, and a
   * sidewalk is drawn at a junction, on the left from lane 2 outward, and on
   * the right on negative lanes.
   */
  lemma BoundaryRule(s: RoadSpline, found: seq<RoadSpline>)
    requires IsBoundary(s)
    requires forall t :: t in found ==> t.laneId == AdjacentLane(s)
    ensures BoundaryDecision(s, found) <==>
              found != [] && IsRoadside(found[|found| - 1]) &&
              match s.boundary
              case Shoulder => false
              case Median => true
              case _ => s.isJunction || (if s.orientation == Left then s.laneId > 1 else s.laneId < 0)
  {
    if found != [] && s.boundary == Sidewalk && !s.isJunction && s.orientation == Left {
      var t := found[|found| - 1];
      assert t in found;
      if s.laneId == 1 {
        assert t.laneId == -1;
      } else if s.laneId > 1 {
        assert t.laneId == s.laneId - 1 >= 1;
        assert s.laneId * t.laneId > 0;
      }
    }
  }

  /** The full filter of the inner loop: a boundary spline whose decision holds. */
  function BoundaryRenders(group: seq<RoadSpline>, s: RoadSpline): bool
  {
    IsBoundary(s) && BoundaryDecision(s, AdjacentSplines(group, s))
  }

  /** The loop over one road's splines. */
  method AppendRoadBoundaries(labels: seq<Label>, group: seq<RoadSpline>, ts: string) returns (out: seq<Label>)
    ensures out == labels + SplineLabels(group, group, BoundaryRenders, ts)
  {
    out := labels;
    var i := 0;
    while i < |group|
      invariant 0 <= i <= |group|
      invariant out == labels + SplineLabels(group, group[..i], BoundaryRenders, ts)
    {
      SplineLabelsStep(group, group, i, BoundaryRenders, ts, labels);
      var spline := group[i];
      if spline.points.Some? && IsBoundary(spline) {
        var found := AdjacentSplines(group, spline);
        var render := ShouldRenderBoundary(spline, found);
        if render {
          var poly := PolylineMeters(spline.points.value);
          assert poly == Polyline(spline.points.value);
          if |poly| > 0 {
            out := out + [Label(ts, poly)];
          }
        }
      }
      i := i + 1;
    }
    assert group[..i] == group;
  }

  /**
   * `ExportCosmosRoadBoundaries` up to the JSON writer: a malformed session id is
   * an error and yields no labels; otherwise the labels of every road, road by
   * road, stamped with the session's start time.
   */
  method ExportCosmosRoadBoundaries(sessionId: string, actors: seq<Option<RoadSpline>>) returns (r: Result<seq<Label>, string>)
    ensures ParseSessionIdParts(sessionId).None? ==> r == Failure(SessionIdError(sessionId))
    ensures ParseSessionIdParts(sessionId).Some? ==>
              r == Success(ExportedLabels(actors, BoundaryRenders, ParseSessionIdParts(sessionId).value.start))
  {
    var parts := ParseSessionIdParts(sessionId);
    if parts.None? {
      return Failure(SessionIdError(sessionId));
    }
    var ts := parts.value.start;
    var ids, groups := GroupByRoad(actors);
    var labels := [];
    var k := 0;
    while k < |ids|
      invariant 0 <= k <= |ids|
      invariant labels == RoadLabels(actors, ids[..k], BoundaryRenders, ts)
    {
      RoadLabelsStep(actors, ids, k, BoundaryRenders, ts);
      var id := ids[k];
      assert id in groups;
      labels := AppendRoadBoundaries(labels, groups[id], ts);
      k := k + 1;
    }
    assert ids[..k] == ids;
    return Success(labels);
  }

  /** Every exported boundary is the polyline of a sidewalk or a median spline; shoulders never appear. */
  lemma BoundariesAreSidewalksOrMedians(actors: seq<Option<RoadSpline>>, ts: string, l: Label)
    requires l in ExportedLabels(actors, BoundaryRenders, ts)
    ensures l.timestamp == ts && |l.vertices| > 0
    ensures exists s :: Some(s) in actors && s.points.Some? && l.vertices == Polyline(s.points.value)
                        && (s.boundary == Sidewalk || s.boundary == Median)
  {
    RoadLabelsWellFormed(actors, RoadIds(actors), BoundaryRenders, ts);
    RoadLabelsSound(actors, RoadIds(actors), BoundaryRenders, ts);
    var id :| id in RoadIds(actors) && FromRenderedSpline(l, SplinesOfRoad(actors, id), BoundaryRenders);
    var group := SplinesOfRoad(actors, id);
    var s :| s in group && s.points.Some? && BoundaryRenders(group, s) && l.vertices == Polyline(s.points.value);
    SplinesOfRoadExact(actors, id);
    BoundaryRule(s, AdjacentSplines(group, s));
  }
}
