/**
 * The map-logic parser: `map_logic.json`, next to an OpenDRIVE file, gives
 * per-traffic-light timing and lane modules. Fields missing from the file keep
 * their defaults, malformed entries are skipped, and the timings are applied
 * to the traffic-light controllers named by group id. A second pass matches
 * each entry's OpenDRIVE signal to the closest actor of the world.
 *
 * Reading the file and parsing its text are not modelled: the parsed document
 * is an input (`None` when the file is missing, unreadable or not JSON). How
 * the JSON library converts a value to a number, an integer or a string is an
 * engine detail and is a parameter.
 */
module MapLogicParser {
  import opened Wrappers

  // ---------------------------------------------------------------- keys

  /** The field names the file uses. */
  const ActorNameKey: string := "ActorName"
  const AmberBlinkIntervalKey: string := "AmberBlinkInterval"
  const AmberDurationKey: string := "AmberDuration"
  const GreenDurationKey: string := "GreenDuration"
  const JunctionIDKey: string := "JunctionID"
  const LaneIdsKey: string := "LaneIds"
  const ModulesKey: string := "Modules"
  const RedDurationKey: string := "RedDuration"
  const SignalIDKey: string := "SignalID"
  const TimingKey: string := "Timing"
  const TrafficLightGroupIDKey: string := "TrafficLightGroupID"
  const TrafficLightsKey: string := "TrafficLights"

  // ---------------------------------------------------------------- JSON

  /** A parsed JSON value; an object maps each key to its value. */
  datatype Json =
    | JNull
    | JBool(b: bool)
    | JNumber(n: real)
    | JString(s: string)
    | JArray(items: seq<Json>)
    | JObject(fields: map<string, Json>)

  /** The JSON library's value conversions (`TryGetNumber`, `TryGetString`); `None` when it refuses. */
  datatype Conversions = Conversions(number: Json -> Option<real>, integer: Json -> Option<int>, text: Json -> Option<string>)

  /** `TryGetNumberField`. */
  function NumberField(o: map<string, Json>, key: string, conv: Conversions): Option<real>
  {
    if key in o then conv.number(o[key]) else None
  }

  /** `TryGetStringField`. */
  function TextField(o: map<string, Json>, key: string, conv: Conversions): Option<string>
  {
    if key in o then conv.text(o[key]) else None
  }

  /** `TryGetArrayField`. */
  function ArrayField(o: map<string, Json>, key: string): Option<seq<Json>>
  {
    if key in o && o[key].JArray? then Some(o[key].items) else None
  }

  /** `TryGetObjectField`. */
  function ObjectField(o: map<string, Json>, key: string): Option<map<string, Json>>
  {
    if key in o && o[key].JObject? then Some(o[key].fields) else None
  }

  /** An optional field over a default. */
  function OrElse<T>(v: Option<T>, default: T): T
  {
    if v.Some? then v.value else default
  }

  // ---------------------------------------------------------------- records

  /** `FTrafficLightTiming`, durations in seconds. */
  datatype Timing = Timing(red: real, green: real, amber: real, amberBlink: real)

  /** The default timing of the record's declaration. */
  const DefaultTiming := Timing(2.0, 10.0, 3.0, 0.25)

  /** `FTrafficLightModule`. */
  datatype Module = Module(laneIds: seq<int>)

  /** `FTrafficLightLogicData`. */
  datatype LogicData = LogicData(actorName: string, signalId: string, junctionId: int, groupId: string,
                                 timing: Timing, modules: seq<Module>)

  /** The default record: empty names, junction -1, default timing, no modules. */
  const DefaultLogic := LogicData("", "", -1, "", DefaultTiming, [])

  // ---------------------------------------------------------------- timing

  /** `ParseTimingFromJSON`; a null object gives the defaults. */
  function ParseTiming(o: Option<map<string, Json>>, conv: Conversions): Timing
  {
    if o.None? then DefaultTiming
    else
      Timing(OrElse(NumberField(o.value, RedDurationKey, conv), DefaultTiming.red),
             OrElse(NumberField(o.value, GreenDurationKey, conv), DefaultTiming.green),
             OrElse(NumberField(o.value, AmberDurationKey, conv), DefaultTiming.amber),
             OrElse(NumberField(o.value, AmberBlinkIntervalKey, conv), DefaultTiming.amberBlink))
  }

  /**
   * Defaults with override: each duration is the number of its own field when
   * the field is present and numeric, and the default (red 2, green 10, amber
   * 3, blink 0.25) otherwise.
   */
  lemma TimingOverride(o: map<string, Json>, conv: Conversions)
    ensures var t := ParseTiming(Some(o), conv);
            (if RedDurationKey in o && conv.number(o[RedDurationKey]).Some?
             then t.red == conv.number(o[RedDurationKey]).value else t.red == 2.0) &&
            (if GreenDurationKey in o && conv.number(o[GreenDurationKey]).Some?
             then t.green == conv.number(o[GreenDurationKey]).value else t.green == 10.0) &&
            (if AmberDurationKey in o && conv.number(o[AmberDurationKey]).Some?
             then t.amber == conv.number(o[AmberDurationKey]).value else t.amber == 3.0) &&
            (if AmberBlinkIntervalKey in o && conv.number(o[AmberBlinkIntervalKey]).Some?
             then t.amberBlink == conv.number(o[AmberBlinkIntervalKey]).value else t.amberBlink == 0.25)
  {
  }

  /** Keys other than the four duration names do not change the timing. */
  lemma TimingIgnoresOtherKeys(o: map<string, Json>, key: string, v: Json, conv: Conversions)
    requires key !in {RedDurationKey, GreenDurationKey, AmberDurationKey, AmberBlinkIntervalKey}
    ensures ParseTiming(Some(o[key := v]), conv) == ParseTiming(Some(o), conv)
  {
    assert NumberField(o[key := v], RedDurationKey, conv) == NumberField(o, RedDurationKey, conv);
    assert NumberField(o[key := v], GreenDurationKey, conv) == NumberField(o, GreenDurationKey, conv);
    assert NumberField(o[key := v], AmberDurationKey, conv) == NumberField(o, AmberDurationKey, conv);
    assert NumberField(o[key := v], AmberBlinkIntervalKey, conv) == NumberField(o, AmberBlinkIntervalKey, conv);
  }

  // ---------------------------------------------------------------- modules

  /** The lane ids of a `LaneIds` array: the entries that convert to integers, in order. */
  function LaneIdsOf(items: seq<Json>, conv: Conversions): seq<int>
  {
    if items == [] then []
    else
      var n := conv.integer(items[|items| - 1]);
      LaneIdsOf(items[..|items| - 1], conv) + (if n.Some? then [n.value] else [])
  }

  /** The `LaneIds` loop. */
  method ParseLaneIds(items: seq<Json>, conv: Conversions) returns (ids: seq<int>)
    ensures ids == LaneIdsOf(items, conv)
  {
    ids := [];
    for i := 0 to |items|
      invariant ids == LaneIdsOf(items[..i], conv)
    {
      assert items[..i + 1][..i] == items[..i];
      var n := conv.integer(items[i]);
      if n.Some? {
        ids := ids + [n.value];
      }
    }
    assert items[..|items|] == items;
  }

  /** The module an object entry of `Modules` gives: its lane ids, none without a `LaneIds` array. */
  function ModuleOf(o: map<string, Json>, conv: Conversions): Module
  {
    match ArrayField(o, LaneIdsKey)
    case Some(items) => Module(LaneIdsOf(items, conv))
    case None => Module([])
  }

  /** The modules of a `Modules` array: one per object entry, in order. */
  function ModulesOf(items: seq<Json>, conv: Conversions): seq<Module>
  {
    if items == [] then []
    else
      var last := items[|items| - 1];
      ModulesOf(items[..|items| - 1], conv) + (if last.JObject? then [ModuleOf(last.fields, conv)] else [])
  }

  /** The `Modules` loop. */
  method ParseModules(items: seq<Json>, conv: Conversions) returns (modules: seq<Module>)
    ensures modules == ModulesOf(items, conv)
  {
    modules := [];
    for i := 0 to |items|
      invariant modules == ModulesOf(items[..i], conv)
    {
      assert items[..i + 1][..i] == items[..i];
      var item := items[i];
      if item.JObject? {
        var m := Module([]);
        var lanes := ArrayField(item.fields, LaneIdsKey);
        if lanes.Some? {
          var ids := ParseLaneIds(lanes.value, conv);
          m := Module(ids);
        }
        modules := modules + [m];
      }
    }
    assert items[..|items|] == items;
  }

  /** The number of entries of `items` that `keep` accepts. */
  function CountWhere(items: seq<Json>, keep: Json -> bool): nat
  {
    if items == [] then 0 else (if keep(items[0]) then 1 else 0) + CountWhere(items[1..], keep)
  }

  lemma {:induction false} CountWhereSnoc(items: seq<Json>, x: Json, keep: Json -> bool)
    ensures CountWhere(items + [x], keep) == CountWhere(items, keep) + (if keep(x) then 1 else 0)
  {
    if items != [] {
      assert (items + [x])[1..] == items[1..] + [x];
      CountWhereSnoc(items[1..], x, keep);
    }
  }

  predicate IsObject(j: Json) { j.JObject? }

  /** One module per object entry: non-object entries are skipped. */
  lemma {:induction false} OneModulePerObject(items: seq<Json>, conv: Conversions)
    ensures |ModulesOf(items, conv)| == CountWhere(items, IsObject)
  {
    if items != [] {
      var front := items[..|items| - 1];
      OneModulePerObject(front, conv);
      assert items == front + [items[|items| - 1]];
      CountWhereSnoc(front, items[|items| - 1], IsObject);
    }
  }

  /** Every lane id comes from an entry of the array, and every integer entry is kept. */
  lemma {:induction false} LaneIdsAreTheIntegers(items: seq<Json>, conv: Conversions)
    ensures |LaneIdsOf(items, conv)| == CountWhere(items, j => conv.integer(j).Some?)
    ensures forall x :: x in LaneIdsOf(items, conv) ==> exists i :: 0 <= i < |items| && conv.integer(items[i]) == Some(x)
  {
    if items != [] {
      var front := items[..|items| - 1];
      var last := items[|items| - 1];
      LaneIdsAreTheIntegers(front, conv);
      assert items == front + [last];
      CountWhereSnoc(front, last, j => conv.integer(j).Some?);
      forall x | x in LaneIdsOf(items, conv)
        ensures exists i :: 0 <= i < |items| && conv.integer(items[i]) == Some(x)
      {
        if x in LaneIdsOf(front, conv) {
          var i :| 0 <= i < |front| && conv.integer(front[i]) == Some(x);
          assert items[i] == front[i];
        } else {
          assert conv.integer(items[|items| - 1]) == Some(x);
        }
      }
    }
  }

  // ---------------------------------------------------------------- entries

  /** The record an entry gives; a null object gives the default record. */
  function TrafficLightOf(o: Option<map<string, Json>>, conv: Conversions): LogicData
  {
    if o.None? then DefaultLogic
    else
      var f := o.value;
      LogicData(OrElse(TextField(f, ActorNameKey, conv), DefaultLogic.actorName),
                OrElse(TextField(f, SignalIDKey, conv), DefaultLogic.signalId),
                OrElse(if JunctionIDKey in f then conv.integer(f[JunctionIDKey]) else None, DefaultLogic.junctionId),
                OrElse(TextField(f, TrafficLightGroupIDKey, conv), DefaultLogic.groupId),
                match ObjectField(f, TimingKey) case Some(t) => ParseTiming(Some(t), conv) case None => DefaultTiming,
                match ArrayField(f, ModulesKey) case Some(items) => ModulesOf(items, conv) case None => [])
  }

  /**
   * `ParseTrafficLightFromJSON`: a null object gives the default record; a
   * missing `Timing` object keeps the default timing, and a missing `Modules`
   * array leaves no modules.
   */
  method ParseTrafficLightFromJson(o: Option<map<string, Json>>, conv: Conversions) returns (d: LogicData)
    ensures d == TrafficLightOf(o, conv)
    ensures o.None? ==> d == DefaultLogic
    ensures o.Some? && ObjectField(o.value, TimingKey).None? ==> d.timing == DefaultTiming
    ensures o.Some? && ArrayField(o.value, ModulesKey).None? ==> d.modules == []
  {
    d := DefaultLogic;
    if o.None? {
      return;
    }
    var f := o.value;
    ghost var expected := TrafficLightOf(o, conv);
    var actorName := TextField(f, ActorNameKey, conv);
    if actorName.Some? { d := d.(actorName := actorName.value); }
    assert d == DefaultLogic.(actorName := expected.actorName);
    var signalId := TextField(f, SignalIDKey, conv);
    if signalId.Some? { d := d.(signalId := signalId.value); }
    assert d == DefaultLogic.(actorName := expected.actorName, signalId := expected.signalId);
    if JunctionIDKey in f {
      var junction := conv.integer(f[JunctionIDKey]);
      if junction.Some? { d := d.(junctionId := junction.value); }
    }
    assert d.junctionId == expected.junctionId;
    var groupId := TextField(f, TrafficLightGroupIDKey, conv);
    if groupId.Some? { d := d.(groupId := groupId.value); }
    assert d == expected.(timing := DefaultTiming, modules := []);
    var timing := ObjectField(f, TimingKey);
    if timing.Some? { d := d.(timing := ParseTiming(timing, conv)); }
    assert d == expected.(modules := []);
    var modules := ArrayField(f, ModulesKey);
    if modules.Some? {
      var ms := ParseModules(modules.value, conv);
      d := d.(modules := ms);
    }
  }

  /** The records of the `TrafficLights` array: one per object entry, in array order. */
  function LogicOf(items: seq<Json>, conv: Conversions): seq<LogicData>
  {
    if items == [] then []
    else
      var last := items[|items| - 1];
      LogicOf(items[..|items| - 1], conv) + (if last.JObject? then [TrafficLightOf(Some(last.fields), conv)] else [])
  }

  /** What `LoadMapLogicFromJSON` returns for a parsed document. */
  function MapLogic(doc: Option<map<string, Json>>, conv: Conversions): seq<LogicData>
  {
    if doc.None? then []
    else
      match ArrayField(doc.value, TrafficLightsKey)
      case Some(items) => LogicOf(items, conv)
      case None => []
  }

  /** `LoadMapLogicFromJSON` from the parsed document on: the `TrafficLights` loop. */
  method LoadMapLogic(doc: Option<map<string, Json>>, conv: Conversions) returns (result: seq<LogicData>)
    ensures result == MapLogic(doc, conv)
    ensures doc.None? ==> result == []
  {
    result := [];
    if doc.None? {
      return;
    }
    var lights := ArrayField(doc.value, TrafficLightsKey);
    if lights.None? {
      return;
    }
    var items := lights.value;
    for i := 0 to |items|
      invariant result == LogicOf(items[..i], conv)
    {
      assert items[..i + 1][..i] == items[..i];
      var item := items[i];
      if item.JObject? {
        var data := ParseTrafficLightFromJson(Some(item.fields), conv);
        result := result + [data];
      }
    }
    assert items[..|items|] == items;
  }

  /** One record per object entry of `TrafficLights`: other entries are skipped. */
  lemma {:induction false} OneRecordPerObject(items: seq<Json>, conv: Conversions)
    ensures |LogicOf(items, conv)| == CountWhere(items, IsObject)
  {
    if items != [] {
      var front := items[..|items| - 1];
      OneRecordPerObject(front, conv);
      assert items == front + [items[|items| - 1]];
      CountWhereSnoc(front, items[|items| - 1], IsObject);
    }
  }

  // ---------------------------------------------------------------- applying timings

  /** The three times of a traffic-light controller. */
  datatype ControllerTimes = ControllerTimes(red: real, green: real, yellow: real)

  /** The timing of the last record naming controller `id`, if any. */
  function LastTimingFor(data: seq<LogicData>, id: string): Option<Timing>
  {
    if data == [] then None
    else if data[|data| - 1].groupId == id then Some(data[|data| - 1].timing)
    else LastTimingFor(data[..|data| - 1], id)
  }

  /** The number of records whose controller exists. */
  function Found(data: seq<LogicData>, controllers: map<string, ControllerTimes>): nat
  {
    if data == [] then 0
    else Found(data[..|data| - 1], controllers) + (if data[|data| - 1].groupId in controllers then 1 else 0)
  }

  /**
   * `ApplyTrafficLightLogic`: every record whose controller exists sets its
   * red, green and yellow times from the red, green and amber durations; the
   * others are counted as failures. A controller named by several records
   * keeps the last one's times; unnamed controllers are unchanged.
   */
  method ApplyTrafficLightLogic(data: seq<LogicData>, controllers: map<string, ControllerTimes>)
    returns (updated: map<string, ControllerTimes>, success: nat, failed: nat)
    ensures success + failed == |data|
    ensures success == Found(data, controllers)
    ensures updated.Keys == controllers.Keys
    ensures forall id :: id in controllers ==>
              updated[id] == match LastTimingFor(data, id)
                             case Some(t) => ControllerTimes(t.red, t.green, t.amber)
                             case None => controllers[id]
  {
    updated := controllers;
    success, failed := 0, 0;
    for i := 0 to |data|
      invariant success + failed == i
      invariant success == Found(data[..i], controllers)
      invariant updated.Keys == controllers.Keys
      invariant forall id :: id in controllers ==>
                  updated[id] == match LastTimingFor(data[..i], id)
                                 case Some(t) => ControllerTimes(t.red, t.green, t.amber)
                                 case None => controllers[id]
    {
      assert data[..i + 1][..i] == data[..i];
      var d := data[i];
      if d.groupId in updated {
        updated := updated[d.groupId := ControllerTimes(d.timing.red, d.timing.green, d.timing.amber)];
        success := success + 1;
      } else {
        failed := failed + 1;
      }
    }
    assert data[..|data|] == data;
  }

  /**
   * `ParseAndApplyMapLogic`: false, with nothing applied, for a missing
   * manager, an empty path or a document that yields no records; otherwise
   * the records are applied and the result is true.
   */
  method ParseAndApplyMapLogic(path: string, controllers: Option<map<string, ControllerTimes>>,
                               doc: Option<map<string, Json>>, conv: Conversions)
    returns (ok: bool, updated: Option<map<string, ControllerTimes>>)
    ensures ok <==> controllers.Some? && path != [] && MapLogic(doc, conv) != []
    ensures !ok ==> updated == controllers
    ensures ok ==> updated.Some? && updated.value.Keys == controllers.value.Keys
    ensures ok ==> forall id :: id in controllers.value ==>
              updated.value[id] == match LastTimingFor(MapLogic(doc, conv), id)
                                   case Some(t) => ControllerTimes(t.red, t.green, t.amber)
                                   case None => controllers.value[id]
  {
    if controllers.None? {
      return false, controllers;
    }
    if path == [] {
      return false, controllers;
    }
    var data := LoadMapLogic(doc, conv);
    if |data| == 0 {
      return false, controllers;
    }
    var m, success, failed := ApplyTrafficLightLogic(data, controllers.value);
    return true, Some(m);
  }

  // ---------------------------------------------------------------- closest actor

  /** Squared distance. */
  function DistSquared(a: (real, real, real), b: (real, real, real)): real
  {
    (a.0 - b.0) * (a.0 - b.0) + (a.1 - b.1) * (a.1 - b.1) + (a.2 - b.2) * (a.2 - b.2)
  }

  /** Actors farther than 50 cm (squared distance 2500) never match a signal. */
  const MaxDistanceMatchSqr: real := 2500.0

  /** The match the actor loop holds after `actors`: the first strictly closest within range. */
  function Closest(actors: seq<Option<(real, real, real)>>, signal: (real, real, real)): Option<nat>
    ensures var r := Closest(actors, signal); r.Some? ==> r.value < |actors| && actors[r.value].Some?
  {
    if actors == [] then None
    else
      var front := Closest(actors[..|actors| - 1], signal);
      var best := if front.Some? then DistSquared(actors[front.value].value, signal) else MaxDistanceMatchSqr;
      var last := actors[|actors| - 1];
      if last.Some? && DistSquared(last.value, signal) < best then Some(|actors| - 1) else front
  }

  /**
   * The closest-actor rule: a match lies within range, no actor is closer,
   * every actor before it is strictly farther, and there is no match only
   * when no actor lies within range.
   */
  lemma {:induction false} ClosestIsFirstNearest(actors: seq<Option<(real, real, real)>>, signal: (real, real, real))
    ensures var r := Closest(actors, signal);
            r.Some? ==> DistSquared(actors[r.value].value, signal) < MaxDistanceMatchSqr
                        && (forall j :: 0 <= j < |actors| && actors[j].Some? ==>
                              DistSquared(actors[r.value].value, signal) <= DistSquared(actors[j].value, signal))
                        && (forall j :: 0 <= j < r.value && actors[j].Some? ==>
                              DistSquared(actors[r.value].value, signal) < DistSquared(actors[j].value, signal))
    ensures Closest(actors, signal).None? ==>
              forall j :: 0 <= j < |actors| && actors[j].Some? ==> DistSquared(actors[j].value, signal) >= MaxDistanceMatchSqr
  {
    if actors != [] {
      var n := |actors| - 1;
      var front := actors[..n];
      ClosestIsFirstNearest(front, signal);
      assert forall j :: 0 <= j < n ==> actors[j] == front[j];
    }
  }

  /** The actor loop of `ApplyLaneIdsFromMapLogic`; `None` entries are null actors. */
  method FindClosestActor(actors: seq<Option<(real, real, real)>>, signal: (real, real, real)) returns (closest: Option<nat>)
    ensures closest == Closest(actors, signal)
  {
    closest := None;
    var minDistance := MaxDistanceMatchSqr;
    for i := 0 to |actors|
      invariant closest == Closest(actors[..i], signal)
      invariant minDistance == if closest.Some? then DistSquared(actors[closest.value].value, signal) else MaxDistanceMatchSqr
    {
      assert actors[..i + 1][..i] == actors[..i];
      var actor := actors[i];
      if actor.None? { continue; }
      var dist := DistSquared(actor.value, signal);
      if dist < minDistance {
        minDistance := dist;
        closest := Some(i);
      }
    }
    assert actors[..|actors|] == actors;
  }

  /** The actor an entry is matched to: none for an empty or unknown signal id or with no actor in range. */
  function EntryMatch(d: LogicData, signals: map<string, (real, real, real)>, actors: seq<Option<(real, real, real)>>): Option<nat>
  {
    if d.signalId == [] || d.signalId !in signals then None
    else Closest(actors, signals[d.signalId])
  }

  /**
   * The entry loop of `ApplyLaneIdsFromMapLogic` up to the actor found: the
   * entries that reach the sign update, each with its actor, in order.
   */
  method MatchSignals(data: seq<LogicData>, signals: map<string, (real, real, real)>, actors: seq<Option<(real, real, real)>>)
    returns (matches: seq<(nat, nat)>)
    ensures forall k :: 0 <= k < |matches| ==>
              matches[k].0 < |data| && EntryMatch(data[matches[k].0], signals, actors) == Some(matches[k].1)
    ensures forall i :: 0 <= i < |data| && EntryMatch(data[i], signals, actors).Some? ==>
              exists k :: 0 <= k < |matches| && matches[k].0 == i
    ensures forall k, l :: 0 <= k < l < |matches| ==> matches[k].0 < matches[l].0
  {
    matches := [];
    for i := 0 to |data|
      invariant forall k :: 0 <= k < |matches| ==>
                  matches[k].0 < i && EntryMatch(data[matches[k].0], signals, actors) == Some(matches[k].1)
      invariant forall j :: 0 <= j < i && EntryMatch(data[j], signals, actors).Some? ==>
                  exists k :: 0 <= k < |matches| && matches[k].0 == j
      invariant forall k, l :: 0 <= k < l < |matches| ==> matches[k].0 < matches[l].0
    {
      var d := data[i];
      if d.signalId == [] { continue; }
      if d.signalId !in signals { continue; }
      var closest := FindClosestActor(actors, signals[d.signalId]);
      if closest.None? { continue; }
      var before := matches;
      matches := matches + [(i, closest.value)];
      assert forall k :: 0 <= k < |before| ==> matches[k] == before[k];
      assert matches[|before|].0 == i;
    }
  }
}
