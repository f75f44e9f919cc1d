/**
 * The lane-line exporter: every driving-lane spline whose adjacent lane is a
 * driving lane on the same side of the road becomes a polyline label. JSON
 * serialisation and the file write are not part of this model.
 */
module LaneLineExporter {
  import opened Wrappers
  import opened CosmosCommon
  import opened RoadSplines

  /**
   * What `should_render` holds after the loop over the adjacent splines: a
   * junction spline is never rendered, and otherwise the last adjacent Driving
   * spline sets it.
   */
  function LaneLineDecision(s: RoadSpline, found: seq<RoadSpline>): bool
  {
    if s.isJunction || found == [] then false
    else
      var t := found[|found| - 1];
      if t.boundary == Driving then
        if s.orientation == Left then s.laneId > 0 && s.laneId * t.laneId > 0 else s.laneId < 0
      else LaneLineDecision(s, found[..|found| - 1])
  }

  /** The `should_render` loops. */
  method ShouldRenderLaneLine(s: RoadSpline, found: seq<RoadSpline>) returns (render: bool)
    ensures render == LaneLineDecision(s, found)
  {
    render := false;
    if s.isJunction {
      render := false;
    } else if s.orientation == Left {
      var i := 0;
      while i < |found|
        invariant 0 <= i <= |found|
        invariant render == LaneLineDecision(s, found[..i])
      {
        assert found[..i + 1][..i] == found[..i];
        if found[i].boundary == Driving {
          render := s.laneId > 0 && s.laneId * found[i].laneId > 0;
        }
        i := i + 1;
      }
      assert found[..i] == found;
    } else {
      var i := 0;
      while i < |found|
        invariant 0 <= i <= |found|
        invariant render == LaneLineDecision(s, found[..i])
      {
        assert found[..i + 1][..i] == found[..i];
        if found[i].boundary == Driving {
          render := s.laneId < 0;
        }
        i := i + 1;
      }
      assert found[..i] == found;
    }
  }

  /** Some spline of `found` is a driving lane. */
  predicate HasDriving(found: seq<RoadSpline>)
  {
    exists t :: t in found && t.boundary == Driving
  }

  /**
   * Closed form of the decision over the adjacent lane: a non-junction Left
   * spline is rendered iff its lane is 2 or more and a Driving spline lies in
   * the adjacent lane; a Right spline iff its lane is negative and such a
   * spline exists. Lane 1 on the left never is: its neighbour is lane -1.
   */
  lemma {:induction false} LaneLineRule(s: RoadSpline, found: seq<RoadSpline>)
    requires forall t :: t in found ==> t.laneId == AdjacentLane(s)
    ensures LaneLineDecision(s, found) <==>
              !s.isJunction && HasDriving(found) && (if s.orientation == Left then s.laneId > 1 else s.laneId < 0)
  {
    if !s.isJunction && found != [] {
      var front := found[..|found| - 1];
      var t := found[|found| - 1];
      LaneLineRule(s, front);
      assert found == front + [t];
      if t.boundary != Driving {
        assert HasDriving(found) == HasDriving(front);
      } else if s.orientation == Left {
        if s.laneId == 1 {
          assert t.laneId == -1;
        } else if s.laneId > 1 {
          assert t.laneId == s.laneId - 1 >= 1;
          assert s.laneId * t.laneId > 0;
        }
      }
    }
  }

  /** The full filter of the inner loop: a driving lane whose decision holds. */
  function LaneLineRenders(group: seq<RoadSpline>, s: RoadSpline): bool
  {
    s.boundary == Driving && LaneLineDecision(s, AdjacentSplines(group, s))
  }

  /** Which splines of a road become lane lines, in terms of the road's lanes. */
  lemma LaneLineRendersRule(group: seq<RoadSpline>, s: RoadSpline)
    ensures LaneLineRenders(group, s) <==>
              s.boundary == Driving && !s.isJunction
              && (exists t :: t in group && t.laneId == AdjacentLane(s) && t.boundary == Driving)
              && (if s.orientation == Left then s.laneId > 1 else s.laneId < 0)
  {
    var found := AdjacentSplines(group, s);
    LaneLineRule(s, found);
    if HasDriving(found) {
      var t :| t in found && t.boundary == Driving;
      assert t in group && t.laneId == AdjacentLane(s);
    }
    if exists t :: t in group && t.laneId == AdjacentLane(s) && t.boundary == Driving {
      var t :| t in group && t.laneId == AdjacentLane(s) && t.boundary == Driving;
      assert t in found;
    }
  }

  /** The loop over one road's splines. */
  method AppendRoadLaneLines(labels: seq<Label>, group: seq<RoadSpline>, ts: string) returns (out: seq<Label>)
    ensures out == labels + SplineLabels(group, group, LaneLineRenders, ts)
  {
    out := labels;
    var i := 0;
    while i < |group|
      invariant 0 <= i <= |group|
      invariant out == labels + SplineLabels(group, group[..i], LaneLineRenders, ts)
    {
      SplineLabelsStep(group, group, i, LaneLineRenders, ts, labels);
      var spline := group[i];
      if spline.points.Some? && spline.boundary == Driving {
        var found := AdjacentSplines(group, spline);
        var render := ShouldRenderLaneLine(spline, found);
        if render {
          var poly := PolylineMeters(spline.points.value);
          assert poly == Polyline(spline.points.value);
          if |poly| > 0 {
            out := out + [Label(ts, poly)];
          }
        }
      }
      i := i + 1;
    }
    assert group[..i] == group;
  }

  /**
   * `ExportCosmosLaneLines` up to the JSON writer: a malformed session id is an
   * error and yields no labels; otherwise the labels of every road, road by road,
   * stamped with the session's start time.
   */
  method ExportCosmosLaneLines(sessionId: string, actors: seq<Option<RoadSpline>>) returns (r: Result<seq<Label>, string>)
    ensures ParseSessionIdParts(sessionId).None? ==> r == Failure(SessionIdError(sessionId))
    ensures ParseSessionIdParts(sessionId).Some? ==>
              r == Success(ExportedLabels(actors, LaneLineRenders, ParseSessionIdParts(sessionId).value.start))
  {
    var parts := ParseSessionIdParts(sessionId);
    if parts.None? {
      return Failure(SessionIdError(sessionId));
    }
    var ts := parts.value.start;
    var ids, groups := GroupByRoad(actors);
    var labels := [];
    var k := 0;
    while k < |ids|
      invariant 0 <= k <= |ids|
      invariant labels == RoadLabels(actors, ids[..k], LaneLineRenders, ts)
    {
      RoadLabelsStep(actors, ids, k, LaneLineRenders, ts);
      var id := ids[k];
      assert id in groups;
      labels := AppendRoadLaneLines(labels, groups[id], ts);
      k := k + 1;
    }
    assert ids[..k] == ids;
    return Success(labels);
  }

  /**
   * Every exported lane line is the polyline of a non-junction driving spline
   * whose adjacent lane on the same road holds a driving spline.
   */
  lemma LaneLinesAreDrivingLines(actors: seq<Option<RoadSpline>>, ts: string, l: Label)
    requires l in ExportedLabels(actors, LaneLineRenders, ts)
    ensures l.timestamp == ts && |l.vertices| > 0
    ensures exists s :: Some(s) in actors && s.points.Some? && l.vertices == Polyline(s.points.value)
                        && s.boundary == Driving && !s.isJunction
                        && (if s.orientation == Left then s.laneId > 1 else s.laneId < 0)
  {
    RoadLabelsWellFormed(actors, RoadIds(actors), LaneLineRenders, ts);
    RoadLabelsSound(actors, RoadIds(actors), LaneLineRenders, ts);
    var id :| id in RoadIds(actors) && FromRenderedSpline(l, SplinesOfRoad(actors, id), LaneLineRenders);
    var group := SplinesOfRoad(actors, id);
    var s :| s in group && s.points.Some? && LaneLineRenders(group, s) && l.vertices == Polyline(s.points.value);
    SplinesOfRoadExact(actors, id);
    LaneLineRendersRule(group, s);
  }
}
