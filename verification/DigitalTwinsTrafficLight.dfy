/**
 * The digital-twins traffic light: the first time its materials are updated
 * it classifies the emissive traffic-light materials of its meshes into green
 * (brightest green channel), red (dimmest green channel) and yellow (the first
 * other one); every update then switches on the material of the current state
 * and switches off the others.
 *
 * Materials are engine objects: a material is its identity (`nat`), and
 * making a slot's material dynamic (cast or create) is done by the engine,
 * whose outcome is an input.
 */
module DigitalTwinsTrafficLight {
  import opened Wrappers
  import opened UnrealStrings

  /** The states of a traffic light. */
  datatype LightState = Red | Yellow | Green | Off | Unknown

  /** The dynamic material of a slot: its identity and, if it has the "Emissive Color" parameter, that colour's green channel. */
  datatype DynMaterial = DynMaterial(id: nat, emissiveGreen: Option<real>)

  /** A material slot of a mesh: the material's name (`None`: no material) and the dynamic material the engine gives for it. */
  datatype Slot = Slot(name: Option<string>, dynamic: Option<DynMaterial>)

  /** A classification candidate: a dynamic material and its emissive green channel. */
  datatype Candidate = Candidate(material: nat, green: real)

  // ---------------------------------------------------------------- candidates

  /** The candidate a slot gives: a traffic-light material with an emissive colour. */
  function SlotCandidate(s: Slot): Option<Candidate>
  {
    if s.name.None? || !ContainsIgnoringCase(s.name.value, "TrafficLight") then None
    else if s.dynamic.None? || s.dynamic.value.emissiveGreen.None? then None
    else Some(Candidate(s.dynamic.value.id, s.dynamic.value.emissiveGreen.value))
  }

  /** The candidates of a list of slots, in slot order. */
  function SlotCandidates(slots: seq<Slot>): seq<Candidate>
  {
    if slots == [] then []
    else
      var c := SlotCandidate(slots[|slots| - 1]);
      SlotCandidates(slots[..|slots| - 1]) + (if c.Some? then [c.value] else [])
  }

  /** The candidates of all meshes (`None`: a null component), in component then slot order. */
  function Candidates(meshes: seq<Option<seq<Slot>>>): seq<Candidate>
  {
    if meshes == [] then []
    else
      var m := meshes[|meshes| - 1];
      Candidates(meshes[..|meshes| - 1]) + (if m.Some? then SlotCandidates(m.value) else [])
  }

  /** The component and slot loops. */
  method CollectCandidates(meshes: seq<Option<seq<Slot>>>) returns (lights: seq<Candidate>)
    ensures lights == Candidates(meshes)
  {
    lights := [];
    for i := 0 to |meshes|
      invariant lights == Candidates(meshes[..i])
    {
      assert meshes[..i + 1][..i] == meshes[..i];
      if meshes[i].None? { continue; }
      var slots := meshes[i].value;
      var before := lights;
      for k := 0 to |slots|
        invariant lights == before + SlotCandidates(slots[..k])
      {
        assert slots[..k + 1][..k] == slots[..k];
        var c := SlotCandidate(slots[k]);
        if c.Some? {
          lights := lights + [c.value];
        }
      }
      assert slots[..|slots|] == slots;
    }
    assert meshes[..|meshes|] == meshes;
  }

  // ---------------------------------------------------------------- classification

  /** The index the green loop ends with: it moves only on a strictly larger green channel. */
  function Brightest(c: seq<Candidate>): (k: nat)
    requires |c| > 0
    ensures k < |c|
  {
    if |c| == 1 then 0
    else
      var k := Brightest(c[..|c| - 1]);
      if c[|c| - 1].green > c[k].green then |c| - 1 else k
  }

  /** The index the red loop ends with: it moves only on a strictly smaller green channel. */
  function Dimmest(c: seq<Candidate>): (k: nat)
    requires |c| > 0
    ensures k < |c|
  {
    if |c| == 1 then 0
    else
      var k := Dimmest(c[..|c| - 1]);
      if c[|c| - 1].green < c[k].green then |c| - 1 else k
  }

  /** Green is the first candidate with the largest green channel. */
  lemma {:induction false} BrightestIsFirstMaximum(c: seq<Candidate>)
    requires |c| > 0
    ensures forall j :: 0 <= j < |c| ==> c[j].green <= c[Brightest(c)].green
    ensures forall j :: 0 <= j < Brightest(c) ==> c[j].green < c[Brightest(c)].green
  {
    if |c| > 1 {
      var front := c[..|c| - 1];
      BrightestIsFirstMaximum(front);
      assert forall j :: 0 <= j < |front| ==> c[j] == front[j];
    }
  }

  /** Red is the first candidate with the smallest green channel. */
  lemma {:induction false} DimmestIsFirstMinimum(c: seq<Candidate>)
    requires |c| > 0
    ensures forall j :: 0 <= j < |c| ==> c[Dimmest(c)].green <= c[j].green
    ensures forall j :: 0 <= j < Dimmest(c) ==> c[Dimmest(c)].green < c[j].green
  {
    if |c| > 1 {
      var front := c[..|c| - 1];
      DimmestIsFirstMinimum(front);
      assert forall j :: 0 <= j < |front| ==> c[j] == front[j];
    }
  }

  /** `j` is the green or the red index. */
  predicate Taken(j: nat, a: nat, b: nat)
  {
    j == a || j == b
  }

  /** The first index below `n` that is neither `a` nor `b`, if any. */
  function FirstOther(n: nat, a: nat, b: nat): (y: Option<nat>)
    ensures y.Some? ==> y.value < n && !Taken(y.value, a, b)
    ensures y.Some? ==> forall j: nat :: j < y.value ==> Taken(j, a, b)
    ensures y.None? ==> forall j: nat :: j < n ==> Taken(j, a, b)
  {
    if n == 0 then None
    else
      var front := FirstOther(n - 1, a, b);
      if front.Some? then front else if n - 1 != a && n - 1 != b then Some(n - 1) else None
  }

  /** With three candidates or more a yellow index always exists, and it is 0, 1 or 2. */
  lemma YellowExists(n: nat, a: nat, b: nat)
    requires n >= 3
    ensures FirstOther(n, a, b).Some? && FirstOther(n, a, b).value <= 2
  {
    var free: nat := if !Taken(0, a, b) then 0 else if !Taken(1, a, b) then 1 else 2;
    assert !Taken(free, a, b) && free <= 2;
  }

  /** Once the scan has found an index, scanning further finds the same one. */
  lemma {:induction false} FirstOtherStable(m: nat, n: nat, a: nat, b: nat)
    requires m <= n && FirstOther(m, a, b).Some?
    ensures FirstOther(n, a, b) == FirstOther(m, a, b)
  {
    if m < n {
      FirstOtherStable(m, n - 1, a, b);
    }
  }

  /** The material-to-state map the classification builds (insertion order green, yellow, red; a later key overwrites). */
  function Classification(c: seq<Candidate>): map<nat, LightState>
  {
    if |c| < 3 then map[]
    else
      var g, r := Brightest(c), Dimmest(c);
      match FirstOther(|c|, g, r)
      case Some(y) => map[c[g].material := Green][c[y].material := Yellow][c[r].material := Red]
      case None => map[]
  }

  /** The green, red and yellow loops. */
  method ClassifyLights(c: seq<Candidate>) returns (green: nat, red: nat, yellow: int)
    requires |c| > 0
    ensures green == Brightest(c) && red == Dimmest(c)
    ensures yellow == match FirstOther(|c|, green, red) case Some(y) => y case None => -1
  {
    green := 0;
    for i := 1 to |c|
      invariant green == Brightest(c[..i])
    {
      BrightestStep(c, i);
      if c[i].green > c[green].green {
        green := i;
      }
    }
    assert c[..|c|] == c;
    red := 0;
    for i := 1 to |c|
      invariant red == Dimmest(c[..i])
    {
      DimmestStep(c, i);
      if c[i].green < c[red].green {
        red := i;
      }
    }
    assert c[..|c|] == c;
    yellow := -1;
    for i := 0 to |c|
      invariant FirstOther(i, green, red).None?
    {
      if i != green && i != red {
        yellow := i;
        assert FirstOther(i + 1, green, red) == Some(i);
        FirstOtherStable(i + 1, |c|, green, red);
        return;
      }
    }
  }

  lemma BrightestStep(c: seq<Candidate>, i: nat)
    requires 0 < i < |c|
    ensures var k := Brightest(c[..i]);
      Brightest(c[..i + 1]) == if c[i].green > c[k].green then i else k
  {
    assert c[..i + 1][..i] == c[..i];
  }

  lemma DimmestStep(c: seq<Candidate>, i: nat)
    requires 0 < i < |c|
    ensures var k := Dimmest(c[..i]);
      Dimmest(c[..i + 1]) == if c[i].green < c[k].green then i else k
  {
    assert c[..i + 1][..i] == c[..i];
  }

  /** The classification pass of `UpdateDigitalTwinsMaterials`: the three loops over at least three candidates. */
  method ClassifyMaterials(meshes: seq<Option<seq<Slot>>>) returns (classes: map<nat, LightState>)
    ensures classes == Classification(Candidates(meshes))
  {
    classes := map[];
    var lights := CollectCandidates(meshes);
    if |lights| >= 3 {
      var green, red, yellow := ClassifyLights(lights);
      if yellow >= 0 {
        classes := classes[lights[green].material := Green];
        classes := classes[lights[yellow].material := Yellow];
        classes := classes[lights[red].material := Red];
      }
    }
  }

  /**
   * With three candidates or more, the red one maps to Red, and the green and
   * yellow ones keep their state unless a later insertion of the same
   * material overwrote it; with fewer than three nothing is mapped.
   */
  lemma ClassificationRule(c: seq<Candidate>)
    ensures |c| < 3 ==> Classification(c) == map[]
    ensures |c| >= 3 ==> FirstOther(|c|, Brightest(c), Dimmest(c)).Some?
    ensures |c| >= 3 && FirstOther(|c|, Brightest(c), Dimmest(c)).Some? ==>
              var g, r := Brightest(c), Dimmest(c);
              var y := FirstOther(|c|, g, r).value;
              Classification(c).Keys == {c[g].material, c[y].material, c[r].material} &&
              Classification(c)[c[r].material] == Red &&
              (c[y].material != c[r].material ==> Classification(c)[c[y].material] == Yellow) &&
              (c[g].material != c[y].material && c[g].material != c[r].material ==> Classification(c)[c[g].material] == Green)
  {
    if |c| >= 3 {
      YellowExists(|c|, Brightest(c), Dimmest(c));
    }
  }

  /** When every candidate has the same green channel, green and red are both the first, which maps to Red. */
  lemma {:induction false} EqualGreensMapToRed(c: seq<Candidate>)
    requires |c| >= 3
    requires forall j :: 0 <= j < |c| ==> c[j].green == c[0].green
    ensures Brightest(c) == 0 && Dimmest(c) == 0
    ensures Classification(c)[c[0].material] == Red
  {
    BrightestIsFirstMaximum(c);
    DimmestIsFirstMinimum(c);
    ClassificationRule(c);
  }

  // ---------------------------------------------------------------- the actor

  /** Emissive intensity of the material of the current state. */
  const OnIntensity: real := 50000.0

  /** The emissive intensity of a mapped material for `state`. */
  function IntensityFor(kind: LightState, state: LightState): real
  {
    if kind == state then OnIntensity else 0.0
  }

  class TrafficLight {
    /** `MaterialToLightType`. */
    var materialToLightType: map<nat, LightState>
    /** The last "Emissive Intensity" set on each material. */
    var intensity: map<nat, real>

    constructor()
      ensures materialToLightType == map[] && intensity == map[]
    {
      materialToLightType := map[];
      intensity := map[];
    }

    /**
     * `UpdateDigitalTwinsMaterials`: the map is built only while it is empty;
     * then every mapped material is on (50000) iff its state is the current
     * one and off (0) otherwise. Unmapped materials are not touched.
     */
    method UpdateDigitalTwinsMaterials(state: LightState, meshes: seq<Option<seq<Slot>>>)
      modifies this
      ensures old(materialToLightType) != map[] ==> materialToLightType == old(materialToLightType)
      ensures old(materialToLightType) == map[] ==> materialToLightType == Classification(Candidates(meshes))
      ensures intensity.Keys == old(intensity).Keys + materialToLightType.Keys
      ensures forall m :: m in materialToLightType ==> intensity[m] == IntensityFor(materialToLightType[m], state)
      ensures forall m :: m in old(intensity) && m !in materialToLightType ==> intensity[m] == old(intensity)[m]
    {
      if materialToLightType == map[] {
        materialToLightType := ClassifyMaterials(meshes);
      }
      var pending := materialToLightType.Keys;
      var before := intensity;
      ghost var mapped := materialToLightType;
      while pending != {}
        invariant materialToLightType == mapped
        invariant pending <= materialToLightType.Keys
        invariant intensity.Keys == before.Keys + (materialToLightType.Keys - pending)
        invariant forall m :: m in materialToLightType && m !in pending ==>
                    intensity[m] == IntensityFor(materialToLightType[m], state)
        invariant forall m :: m in before && (m !in materialToLightType || m in pending) ==> intensity[m] == before[m]
        decreases pending
      {
        var m :| m in pending;
        intensity := intensity[m := IntensityFor(materialToLightType[m], state)];
        pending := pending - {m};
      }
    }
  }

  /** An emissive colour (r, g, b, a). */
  datatype Color = Color(r: real, g: real, b: real, a: real)

  /** `GetColorForState`: the fixed colours of red, yellow and green, and grey for any other state. */
  function ColorForState(state: LightState): (c: Color)
    ensures c.a == 1.0
  {
    match state
    case Red => Color(1.0, 0.052, 0.061, 1.0)
    case Yellow => Color(1.0, 0.5, 0.0, 1.0)
    case Green => Color(0.1, 1.0, 0.297, 1.0)
    case _ => Color(0.05, 0.05, 0.05, 1.0)
  }

  /**
   * The colours read as their names: red is dominated by its red channel,
   * green by its green channel, yellow mixes red and green without blue, and
   * every other state is a dark grey.
   */
  lemma ColorsMatchStates(state: LightState)
    ensures var c := ColorForState(state);
            match state
            case Red => c.r > c.g && c.r > c.b
            case Green => c.g > c.r && c.g > c.b
            case Yellow => c.r > 0.0 && c.g > 0.0 && c.b == 0.0
            case _ => c.r == c.g == c.b < 0.1
  {
  }
}
