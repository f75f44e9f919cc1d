/**
 * The road splines shared by the lane-line and road-boundary exporters: the
 * grouping of splines by road, the adjacent-lane formula, the cm -> m polyline
 * and the labels both exporters emit. Each exporter carries its own copy of this
 * code; the model keeps one.
 */
module RoadSplines {
  import opened Wrappers
  import opened CosmosCommon

  datatype Orientation = Left | Right

  datatype BoundaryType = Driving | Shoulder | Sidewalk | Median | OtherBoundary

  /**
   * A road-spline actor. `points` is its spline component's points in world
   * space, or None when the actor has no spline component.
   */
  datatype RoadSpline = RoadSpline(roadId: int, laneId: int, orientation: Orientation,
                                   boundary: BoundaryType, isJunction: bool,
                                   points: Option<seq<Vec3>>)

  // ---------------------------------------------------------------- grouping

  /**
   * The road ids in the order they are first met (the key order of the
   * insertion-ordered map the exporters fill). None is an actor that is not a
   * road spline.
   */
  function RoadIds(actors: seq<Option<RoadSpline>>): seq<int>
  {
    if actors == [] then []
    else
      var front := RoadIds(actors[..|actors| - 1]);
      var last := actors[|actors| - 1];
      if last.Some? && last.value.roadId !in front then front + [last.value.roadId] else front
  }

  /** The splines of road `id`, in actor order. */
  function SplinesOfRoad(actors: seq<Option<RoadSpline>>, id: int): seq<RoadSpline>
  {
    if actors == [] then []
    else
      var front := SplinesOfRoad(actors[..|actors| - 1], id);
      var last := actors[|actors| - 1];
      if last.Some? && last.value.roadId == id then front + [last.value] else front
  }

  predicate Distinct(ids: seq<int>)
  {
    forall i, j :: 0 <= i < j < |ids| ==> ids[i] != ids[j]
  }

  /** Every road id is listed once, and exactly the ids of the splines are listed. */
  lemma {:induction false} RoadIdsExact(actors: seq<Option<RoadSpline>>)
    ensures Distinct(RoadIds(actors))
    ensures forall id :: id in RoadIds(actors) <==> exists k :: 0 <= k < |actors| && actors[k].Some? && actors[k].value.roadId == id
  {
    if actors != [] {
      var front := actors[..|actors| - 1];
      RoadIdsExact(front);
      assert forall k :: 0 <= k < |front| ==> front[k] == actors[k];
    }
  }

  /** A group holds exactly the splines of its road, in actor order. */
  lemma {:induction false} SplinesOfRoadExact(actors: seq<Option<RoadSpline>>, id: int)
    ensures forall s :: s in SplinesOfRoad(actors, id) ==> s.roadId == id && Some(s) in actors
    ensures forall k :: 0 <= k < |actors| && actors[k].Some? && actors[k].value.roadId == id ==> actors[k].value in SplinesOfRoad(actors, id)
  {
    if actors != [] {
      var front := actors[..|actors| - 1];
      SplinesOfRoadExact(front, id);
      assert forall k :: 0 <= k < |front| ==> front[k] == actors[k];
    }
  }

  /** A road is listed iff its group is non-empty. */
  lemma {:induction false} ListedIffGrouped(actors: seq<Option<RoadSpline>>, id: int)
    ensures id in RoadIds(actors) <==> SplinesOfRoad(actors, id) != []
  {
    if actors != [] {
      ListedIffGrouped(actors[..|actors| - 1], id);
    }
  }

  /**
   * The grouping loop: `ids` are the map's keys in insertion order and
   * `groups[id]` the splines added under `id`.
   */
  method GroupByRoad(actors: seq<Option<RoadSpline>>) returns (ids: seq<int>, groups: map<int, seq<RoadSpline>>)
    ensures ids == RoadIds(actors)
    ensures forall id :: id in groups <==> id in ids
    ensures forall id :: id in groups ==> groups[id] == SplinesOfRoad(actors, id)
  {
    ids := [];
    groups := map[];
    var i := 0;
    while i < |actors|
      invariant 0 <= i <= |actors|
      invariant ids == RoadIds(actors[..i])
      invariant forall id :: id in groups <==> id in ids
      invariant forall id :: id in groups ==> groups[id] == SplinesOfRoad(actors[..i], id)
    {
      assert actors[..i + 1][..i] == actors[..i];
      if actors[i].Some? {
        var spline := actors[i].value;
        if spline.roadId !in groups {
          ListedIffGrouped(actors[..i], spline.roadId);
          ids := ids + [spline.roadId];
          groups := groups[spline.roadId := []];
        }
        groups := groups[spline.roadId := groups[spline.roadId] + [spline]];
      }
      forall id | id !in groups
        ensures SplinesOfRoad(actors[..i + 1], id) == []
      {
        ListedIffGrouped(actors[..i + 1], id);
      }
      i := i + 1;
    }
    assert actors[..i] == actors;
  }

  // ---------------------------------------------------------------- adjacency

  /** The lane next to a spline: one step toward the centre for Left, away for Right, skipping lane 0. */
  function AdjacentLane(s: RoadSpline): int
  {
    s.laneId + (if s.orientation == Left then (if s.laneId == 1 then -2 else -1)
                else (if s.laneId == -1 then 2 else 1))
  }

  /** Lane 0 (the reference line) is never the adjacent lane. */
  lemma AdjacentNeverZero(s: RoadSpline)
    ensures AdjacentLane(s) != 0
  {
  }

  /** `FilterByPredicate`: the splines of the group in the adjacent lane, in group order. */
  function AdjacentSplines(group: seq<RoadSpline>, s: RoadSpline): (found: seq<RoadSpline>)
    ensures forall t :: t in found ==> t in group && t.laneId == AdjacentLane(s)
    ensures forall t :: t in group && t.laneId == AdjacentLane(s) ==> t in found
  {
    if group == [] then []
    else
      var front := AdjacentSplines(group[..|group| - 1], s);
      var last := group[|group| - 1];
      assert group == group[..|group| - 1] + [last];
      if last.laneId == AdjacentLane(s) then front + [last] else front
  }

  // ---------------------------------------------------------------- labels

  /** The point loop: every spline point converted to metres, in spline order. */
  method PolylineMeters(points: seq<Vec3>) returns (poly: seq<Vec3>)
    ensures |poly| == |points|
    ensures forall i :: 0 <= i < |points| ==> poly[i] == ToMeters(points[i])
  {
    poly := [];
    var i := 0;
    while i < |points|
      invariant 0 <= i <= |points|
      invariant |poly| == i
      invariant forall k :: 0 <= k < i ==> poly[k] == ToMeters(points[k])
    {
      poly := poly + [ToMeters(points[i])];
      i := i + 1;
    }
  }

  function Polyline(points: seq<Vec3>): (poly: seq<Vec3>)
    ensures |poly| == |points|
    ensures forall i :: 0 <= i < |points| ==> poly[i] == ToMeters(points[i])
  {
    seq(|points|, i requires 0 <= i < |points| => ToMeters(points[i]))
  }

  /**
   * The labels the inner loop emits for `splines`, a prefix of `group`: a
   * spline with a component that `renders` accepts and with at least one point
   * gives one label.
   */
  function SplineLabels(group: seq<RoadSpline>, splines: seq<RoadSpline>,
                        renders: (seq<RoadSpline>, RoadSpline) -> bool, ts: string): seq<Label>
  {
    if splines == [] then []
    else
      var s := splines[|splines| - 1];
      SplineLabels(group, splines[..|splines| - 1], renders, ts)
        + (if s.points.Some? && renders(group, s) && |s.points.value| > 0
           then [Label(ts, Polyline(s.points.value))] else [])
  }

  /** One more spline seen by a road loop: its label, if it renders, follows the labels before it. */
  lemma SplineLabelsStep(group: seq<RoadSpline>, splines: seq<RoadSpline>, i: nat,
                         renders: (seq<RoadSpline>, RoadSpline) -> bool, ts: string, labels: seq<Label>)
    requires i < |splines|
    ensures var s := splines[i];
      labels + SplineLabels(group, splines[..i + 1], renders, ts)
      == if s.points.Some? && renders(group, s) && |s.points.value| > 0
         then (labels + SplineLabels(group, splines[..i], renders, ts)) + [Label(ts, Polyline(s.points.value))]
         else labels + SplineLabels(group, splines[..i], renders, ts)
  {
    assert splines[..i + 1][..i] == splines[..i];
  }

  /** The labels of the roads `ids`, road by road. */
  function RoadLabels(actors: seq<Option<RoadSpline>>, ids: seq<int>,
                      renders: (seq<RoadSpline>, RoadSpline) -> bool, ts: string): seq<Label>
  {
    if ids == [] then []
    else
      var group := SplinesOfRoad(actors, ids[|ids| - 1]);
      RoadLabels(actors, ids[..|ids| - 1], renders, ts) + SplineLabels(group, group, renders, ts)
  }

  /** One more road done by an export loop: its labels follow those of the roads before it. */
  lemma RoadLabelsStep(actors: seq<Option<RoadSpline>>, ids: seq<int>, k: nat,
                       renders: (seq<RoadSpline>, RoadSpline) -> bool, ts: string)
    requires k < |ids|
    ensures var group := SplinesOfRoad(actors, ids[k]);
      RoadLabels(actors, ids[..k + 1], renders, ts) == RoadLabels(actors, ids[..k], renders, ts) + SplineLabels(group, group, renders, ts)
  {
    assert ids[..k + 1][..k] == ids[..k];
  }

  /** The labels of a whole export. */
  function ExportedLabels(actors: seq<Option<RoadSpline>>, renders: (seq<RoadSpline>, RoadSpline) -> bool, ts: string): seq<Label>
  {
    RoadLabels(actors, RoadIds(actors), renders, ts)
  }

  /** A label comes from exactly one rendered spline with points; its vertices are that spline's points in metres. */
  lemma {:induction false} SplineLabelsSound(group: seq<RoadSpline>, splines: seq<RoadSpline>,
                                             renders: (seq<RoadSpline>, RoadSpline) -> bool, ts: string)
    ensures forall l :: l in SplineLabels(group, splines, renders, ts) ==>
              l.timestamp == ts && |l.vertices| > 0 &&
              exists s :: s in splines && s.points.Some? && renders(group, s) && l.vertices == Polyline(s.points.value)
  {
    if splines != [] {
      SplineLabelsSound(group, splines[..|splines| - 1], renders, ts);
      var s := splines[|splines| - 1];
      forall l | l in SplineLabels(group, splines[..|splines| - 1], renders, ts)
        ensures exists s :: s in splines && s.points.Some? && renders(group, s) && l.vertices == Polyline(s.points.value)
      {
        var s' :| s' in splines[..|splines| - 1] && s'.points.Some? && renders(group, s') && l.vertices == Polyline(s'.points.value);
        assert s' in splines;
      }
    }
  }

  /** Every rendered spline with at least one point gives its label. */
  lemma {:induction false} SplineLabelsComplete(group: seq<RoadSpline>, splines: seq<RoadSpline>,
                                                renders: (seq<RoadSpline>, RoadSpline) -> bool, ts: string)
    ensures forall s :: s in splines && s.points.Some? && renders(group, s) && |s.points.value| > 0 ==>
              Label(ts, Polyline(s.points.value)) in SplineLabels(group, splines, renders, ts)
  {
    if splines != [] {
      var front := splines[..|splines| - 1];
      SplineLabelsComplete(group, front, renders, ts);
      assert splines == front + [splines[|splines| - 1]];
    }
  }

  /** Every label of an export has the session's start time and at least one vertex. */
  lemma {:induction false} RoadLabelsWellFormed(actors: seq<Option<RoadSpline>>, ids: seq<int>,
                                                renders: (seq<RoadSpline>, RoadSpline) -> bool, ts: string)
    ensures forall l :: l in RoadLabels(actors, ids, renders, ts) ==> l.timestamp == ts && |l.vertices| > 0
  {
    if ids != [] {
      RoadLabelsWellFormed(actors, ids[..|ids| - 1], renders, ts);
      var group := SplinesOfRoad(actors, ids[|ids| - 1]);
      SplineLabelsSound(group, group, renders, ts);
    }
  }

  /** Every label of an export comes from a spline of a listed road that its exporter renders. */
  lemma {:induction false} RoadLabelsSound(actors: seq<Option<RoadSpline>>, ids: seq<int>,
                                           renders: (seq<RoadSpline>, RoadSpline) -> bool, ts: string)
    ensures forall l :: l in RoadLabels(actors, ids, renders, ts) ==>
              exists id :: id in ids && FromRenderedSpline(l, SplinesOfRoad(actors, id), renders)
  {
    if ids != [] {
      var front := ids[..|ids| - 1];
      var id := ids[|ids| - 1];
      var group := SplinesOfRoad(actors, id);
      RoadLabelsSound(actors, front, renders, ts);
      SplineLabelsSound(group, group, renders, ts);
      forall l | l in RoadLabels(actors, ids, renders, ts)
        ensures exists id :: id in ids && FromRenderedSpline(l, SplinesOfRoad(actors, id), renders)
      {
        if l in RoadLabels(actors, front, renders, ts) {
          var id' :| id' in front && FromRenderedSpline(l, SplinesOfRoad(actors, id'), renders);
          assert id' in ids;
        } else {
          assert l in SplineLabels(group, group, renders, ts);
          assert FromRenderedSpline(l, group, renders);
        }
      }
    }
  }

  /** `l` is the label of a spline of `group` that is rendered. */
  ghost predicate FromRenderedSpline(l: Label, group: seq<RoadSpline>, renders: (seq<RoadSpline>, RoadSpline) -> bool)
  {
    exists s :: s in group && s.points.Some? && renders(group, s) && l.vertices == Polyline(s.points.value)
  }
}
