/**
 * The wide-angle lens sensor: six cube faces are captured and distorted
 * into one image.  The sensor keeps its image size, camera model, fields of
 * view and focal length, and caches in `cubemapRenderMask` which of the
 * six faces the current fields of view need.
 *
 * Floats are reals; `PI` is the engine's constant and `Sqrt2` is √2 over the
 * reals, to seventeen significant digits.
 */
module WideAngleLens {
  import opened Wrappers
  import CM = CameraModelUtil

  const Pi: real := 3.14159265358979323846
  const HalfPi: real := Pi / 2.0
  const Sqrt2: real := 1.4142135623730951
  const DegToRad: real := Pi / 180.0
  const RadToDeg: real := 180.0 / Pi

  // ---------------------------------------------------------------------------
  // Cube faces and the render mask
  // ---------------------------------------------------------------------------

  /** Cube face indices, in the engine's ECubeFace order. */
  const PosX: nat := 0
  const NegX: nat := 1
  const PosY: nat := 2
  const NegY: nat := 3
  const PosZ: nat := 4
  const NegZ: nat := 5
  const FaceCount: nat := 6

  function FaceBit(face: nat): bv8
    requires face < 8
  {
    (1 as bv8) << face
  }

  function HasFace(mask: bv8, face: nat): bool
    requires face < 8
  {
    mask & FaceBit(face) != 0
  }

  /** The field of view the mask is decided on: widened by sqrt 2 unless the FOV mask crops the image. */
  function EffectiveFOV(fov: real, fovMaskEnable: bool): real
  {
    fov * (if fovMaskEnable then 1.0 else Sqrt2)
  }

  /** The faces the current fields of view reach. */
  function CubemapRenderMask(xFOV: real, yFOV: real, fovMaskEnable: bool): (mask: bv8)
    ensures HasFace(mask, PosX)
    ensures HasFace(mask, PosZ) <==> EffectiveFOV(yFOV, fovMaskEnable) > HalfPi
    ensures HasFace(mask, NegZ) <==> EffectiveFOV(yFOV, fovMaskEnable) > HalfPi
    ensures HasFace(mask, PosY) <==> EffectiveFOV(xFOV, fovMaskEnable) > HalfPi
    ensures HasFace(mask, NegY) <==> EffectiveFOV(xFOV, fovMaskEnable) > HalfPi
    ensures HasFace(mask, NegX) <==>
      EffectiveFOV(xFOV, fovMaskEnable) > Pi || EffectiveFOV(yFOV, fovMaskEnable) > Pi
    ensures !HasFace(mask, 6) && !HasFace(mask, 7)
  {
    var x := EffectiveFOV(xFOV, fovMaskEnable);
    var y := EffectiveFOV(yFOV, fovMaskEnable);
    var front := FaceBit(PosX);
    var withZ := if y > HalfPi then front | FaceBit(PosZ) | FaceBit(NegZ) else front;
    var withY := if x > HalfPi then withZ | FaceBit(PosY) | FaceBit(NegY) else withZ;
    if x > Pi || y > Pi then withY | FaceBit(NegX) else withY
  }

  lemma EffectiveFOVMonotone(a: real, b: real, fovMaskEnable: bool)
    requires a <= b
    ensures EffectiveFOV(a, fovMaskEnable) <= EffectiveFOV(b, fovMaskEnable)
  {
    if !fovMaskEnable {
      assert (b - a) * Sqrt2 >= 0.0;
    }
  }

  /** Widening either field of view only ever adds faces. */
  lemma WiderFOVRendersMoreFaces(x1: real, y1: real, x2: real, y2: real, fovMaskEnable: bool)
    requires x1 <= x2 && y1 <= y2
    ensures forall face :: 0 <= face < FaceCount && HasFace(CubemapRenderMask(x1, y1, fovMaskEnable), face) ==>
      HasFace(CubemapRenderMask(x2, y2, fovMaskEnable), face)
  {
    EffectiveFOVMonotone(x1, x2, fovMaskEnable);
    EffectiveFOVMonotone(y1, y2, fovMaskEnable);
  }

  /** For non-negative fields of view, cropping with the FOV mask never needs more faces. */
  lemma FOVMaskNeverAddsFaces(xFOV: real, yFOV: real)
    requires xFOV >= 0.0 && yFOV >= 0.0
    ensures forall face :: 0 <= face < FaceCount && HasFace(CubemapRenderMask(xFOV, yFOV, true), face) ==>
      HasFace(CubemapRenderMask(xFOV, yFOV, false), face)
  {
    assert EffectiveFOV(xFOV, true) <= EffectiveFOV(xFOV, false) by {
      assert xFOV * (Sqrt2 - 1.0) >= 0.0;
    }
    assert EffectiveFOV(yFOV, true) <= EffectiveFOV(yFOV, false) by {
      assert yFOV * (Sqrt2 - 1.0) >= 0.0;
    }
  }

  /** The back face is only needed together with a pair of side faces. */
  lemma BackFaceComesWithSides(xFOV: real, yFOV: real, fovMaskEnable: bool)
    ensures var mask := CubemapRenderMask(xFOV, yFOV, fovMaskEnable);
      HasFace(mask, NegX) ==> HasFace(mask, PosY) || HasFace(mask, PosZ)
  {
  }

  /** The faces `CaptureSceneExtended` captures, in index order. */
  method CapturedFaces(mask: bv8) returns (captured: seq<nat>)
    ensures forall face: nat :: face in captured <==> face < FaceCount && HasFace(mask, face)
    ensures forall i, j :: 0 <= i < j < |captured| ==> captured[i] < captured[j]
  {
    captured := [];
    for i := 0 to FaceCount
      invariant forall face: nat :: face in captured <==> face < i && HasFace(mask, face)
      invariant forall k, j :: 0 <= k < j < |captured| ==> captured[k] < captured[j]
      invariant forall k :: 0 <= k < |captured| ==> captured[k] < i
    {
      if mask & FaceBit(i) != 0 {
        captured := captured + [i];
      }
    }
  }

  // ---------------------------------------------------------------------------
  // Face of a viewing direction
  // ---------------------------------------------------------------------------

  datatype Direction = Direction(x: real, y: real, z: real)

  function Abs(v: real): real { if v < 0.0 then -v else v }

  /** The forward vector of each face: +X, -X, +Y, -Y, +Z, -Z. */
  function Forward(face: nat): Direction
    requires face < FaceCount
  {
    match face
    case 0 => Direction(1.0, 0.0, 0.0)
    case 1 => Direction(-1.0, 0.0, 0.0)
    case 2 => Direction(0.0, 1.0, 0.0)
    case 3 => Direction(0.0, -1.0, 0.0)
    case 4 => Direction(0.0, 0.0, 1.0)
    case _ => Direction(0.0, 0.0, -1.0)
  }

  function Dot(a: Direction, b: Direction): real
  {
    a.x * b.x + a.y * b.y + a.z * b.z
  }

  /**
   * The face a viewing direction falls on: the one whose forward vector is
   * best aligned with it, the lowest index among equally aligned ones.
   */
  function FindFaceIndex(d: Direction): (face: nat)
    ensures face < FaceCount
    ensures forall j :: 0 <= j < FaceCount ==> Dot(d, Forward(j)) <= Dot(d, Forward(face))
    ensures forall j :: 0 <= j < face ==> Dot(d, Forward(j)) < Dot(d, Forward(face))
  {
    if Abs(d.x) >= Abs(d.y) && Abs(d.x) >= Abs(d.z) then
      (if d.x < 0.0 then NegX else PosX)
    else if Abs(d.y) >= Abs(d.x) && Abs(d.y) >= Abs(d.z) then
      (if d.y < 0.0 then NegY else PosY)
    else
      (if d.z < 0.0 then NegZ else PosZ)
  }

  // ---------------------------------------------------------------------------
  // The sensor
  // ---------------------------------------------------------------------------

  const DefaultCoefficients: seq<real> :=
    [0.08309221636708493, 0.01112126630599195, 0.008587261043925865, 0.0008542188930970716]

  const UInt32Range: int := 0x1_0000_0000

  /** Everything the lens setters read or write, as one value. */
  datatype LensState = LensState(
    imageWidth: nat,
    imageHeight: nat,
    cameraModel: CM.CameraModel,
    coefficients: seq<real>,
    yFOVAngle: real,
    xFOVAngle: real,
    yFocalLength: Option<real>,
    longitudeOffset: real,
    fovFadeSize: real,
    targetGamma: real,
    cubemapRenderMask: bv8,
    renderPerspective: bool,
    renderEquirectangular: bool,
    fovMaskEnable: bool)

  /** The cached mask is the one the current fields of view call for. */
  predicate MaskInSync(s: LensState)
  {
    s.cubemapRenderMask == CubemapRenderMask(s.xFOVAngle, s.yFOVAngle, s.fovMaskEnable)
  }

  /** `int32` -> `uint32`: the two's-complement reinterpretation. */
  function ToUInt32(v: int): (r: nat)
    requires -0x8000_0000 <= v < 0x8000_0000
    ensures r < UInt32Range
    ensures v >= 0 ==> r == v
    ensures v < 0 ==> r == v + UInt32Range
  {
    v % UInt32Range
  }

  /** The comparison loop of `SetCameraCoefficients`: the lengths differ or some element differs. */
  method CoefficientsDiffer(current: seq<real>, incoming: seq<real>) returns (differ: bool)
    ensures differ <==> current != incoming
  {
    differ := |current| != |incoming|;
    var i := 0;
    while i != |incoming| && !differ
      invariant 0 <= i <= |incoming|
      invariant !differ ==> |current| == |incoming| && current[..i] == incoming[..i]
      invariant differ ==> current != incoming
      decreases |incoming| - i
    {
      differ := differ || current[i] != incoming[i];
      assert !differ ==> current[..i + 1] == incoming[..i + 1];
      i := i + 1;
    }
    assert !differ ==> current[..i] == current && incoming[..i] == incoming;
  }

  class WideAngleLensSensor {
    /** The C library's trigonometry, used for the focal length. */
    const trig: CM.Trig

    var imageWidth: nat
    var imageHeight: nat
    var cameraModel: CM.CameraModel
    var coefficients: seq<real>
    var yFOVAngle: real
    var xFOVAngle: real
    var yFocalLength: Option<real>
    var longitudeOffset: real
    var fovFadeSize: real
    var targetGamma: real
    var cubemapRenderMask: bv8
    var renderPerspective: bool
    var renderEquirectangular: bool
    var fovMaskEnable: bool

    function State(): LensState
      reads this
    {
      LensState(imageWidth, imageHeight, cameraModel, coefficients, yFOVAngle, xFOVAngle,
        yFocalLength, longitudeOffset, fovFadeSize, targetGamma, cubemapRenderMask,
        renderPerspective, renderEquirectangular, fovMaskEnable)
    }

    /** A 1280 x 1280 perspective sensor with a 90-degree field of view. */
    constructor(trig: CM.Trig)
      ensures this.trig == trig
      ensures State() == LensState(
        1280, 1280, CM.Perspective, DefaultCoefficients, Pi * 0.5, Pi * 0.5,
        CM.ComputeDistance(CM.Perspective, Pi * 0.5, 1280, DefaultCoefficients, trig),
        0.0, 0.0, 0.0, State().cubemapRenderMask, false, false, false)
      ensures MaskInSync(State())
      ensures cubemapRenderMask == FaceBit(PosX) | FaceBit(PosY) | FaceBit(NegY) | FaceBit(PosZ) | FaceBit(NegZ)
    {
      this.trig := trig;
      targetGamma := 0.0;
      imageWidth := 1280;
      imageHeight := 1280;
      cameraModel := CM.DefaultCameraModel;
      coefficients := DefaultCoefficients;
      yFOVAngle := Pi * 0.5;
      xFOVAngle := Pi * 0.5 * 1280.0 / 1280.0;
      yFocalLength := CM.ComputeDistance(CM.DefaultCameraModel, Pi * 0.5, 1280, DefaultCoefficients, trig);
      longitudeOffset := 0.0;
      fovFadeSize := 0.0;
      cubemapRenderMask := CubemapRenderMask(Pi * 0.5, Pi * 0.5, false);
      renderPerspective := false;
      renderEquirectangular := false;
      fovMaskEnable := false;
    }

    /** The horizontal field of view matching a vertical one at the current aspect ratio. */
    function VerticalToHorizontal(value: real): (r: real)
      reads this
      requires imageHeight != 0
      ensures r * imageHeight as real == value * imageWidth as real
    {
      value * imageWidth as real / imageHeight as real
    }

    /** The mask the current fields of view call for. */
    function ComputeCubemapRenderMask(): bv8
      reads this
    {
      CubemapRenderMask(xFOVAngle, yFOVAngle, fovMaskEnable)
    }

    method SetImageSize(width: nat, height: nat)
      requires width < UInt32Range && height < UInt32Range
      modifies this
      ensures State() == old(State()).(imageWidth := width, imageHeight := height,
        cubemapRenderMask :=
          if width != old(imageWidth) || height != old(imageHeight) then ComputeCubemapRenderMask()
          else old(cubemapRenderMask))
      ensures old(MaskInSync(State())) ==> MaskInSync(State())
    {
      var update := width != imageWidth || height != imageHeight;
      imageWidth := width;
      imageHeight := height;
      if update {
        cubemapRenderMask := ComputeCubemapRenderMask();
      }
    }

    /** The `int32` overload reinterprets both sizes as `uint32`. */
    method SetImageSizeSigned(width: int, height: int)
      requires -0x8000_0000 <= width < 0x8000_0000 && -0x8000_0000 <= height < 0x8000_0000
      modifies this
      ensures imageWidth == ToUInt32(width) && imageHeight == ToUInt32(height)
      ensures State() == old(State()).(imageWidth := ToUInt32(width), imageHeight := ToUInt32(height),
        cubemapRenderMask :=
          if ToUInt32(width) != old(imageWidth) || ToUInt32(height) != old(imageHeight)
          then ComputeCubemapRenderMask()
          else old(cubemapRenderMask))
    {
      SetImageSize(ToUInt32(width), ToUInt32(height));
    }

    method SetCameraModel(model: CM.CameraModel)
      modifies this
      ensures State() == old(State()).(cameraModel := model,
        cubemapRenderMask := if model != old(cameraModel) then ComputeCubemapRenderMask() else old(cubemapRenderMask))
      ensures old(MaskInSync(State())) ==> MaskInSync(State())
    {
      var update := model != cameraModel;
      cameraModel := model;
      if update {
        cubemapRenderMask := ComputeCubemapRenderMask();
      }
    }

    /**
     * Sets the vertical field of view from degrees, derives the horizontal
     * one and the focal length, and recomputes the mask only when the
     * vertical angle changed.
     */
    method SetFOVAngle(degrees: real)
      requires imageHeight != 0
      modifies this
      ensures yFOVAngle == degrees * DegToRad
      ensures State() == old(State()).(
        yFOVAngle := degrees * DegToRad,
        xFOVAngle := old(VerticalToHorizontal(degrees * DegToRad)),
        yFocalLength := CM.ComputeDistance(cameraModel, degrees * DegToRad, imageHeight, coefficients, trig),
        cubemapRenderMask :=
          if degrees * DegToRad != old(yFOVAngle) then ComputeCubemapRenderMask() else old(cubemapRenderMask))
      ensures old(MaskInSync(State())) && (yFOVAngle != old(yFOVAngle) || xFOVAngle == old(xFOVAngle)) ==>
        MaskInSync(State())
    {
      var newFOV := degrees * DegToRad;
      var newXFOV := VerticalToHorizontal(newFOV);
      var update := newFOV != yFOVAngle;
      yFOVAngle := newFOV;
      xFOVAngle := newXFOV;
      yFocalLength := CM.ComputeDistance(cameraModel, newFOV, imageHeight, coefficients, trig);
      if update {
        cubemapRenderMask := ComputeCubemapRenderMask();
      }
    }

    /** `SetFOVAngle` recomputing the mask whenever either field of view changed. */
    method SetFOVAngleCorrected(degrees: real)
      requires imageHeight != 0
      modifies this
      ensures State() == old(State()).(
        yFOVAngle := degrees * DegToRad,
        xFOVAngle := old(VerticalToHorizontal(degrees * DegToRad)),
        yFocalLength := CM.ComputeDistance(cameraModel, degrees * DegToRad, imageHeight, coefficients, trig),
        cubemapRenderMask :=
          if degrees * DegToRad != old(yFOVAngle) || xFOVAngle != old(xFOVAngle) then ComputeCubemapRenderMask()
          else old(cubemapRenderMask))
      ensures old(MaskInSync(State())) ==> MaskInSync(State())
    {
      var newFOV := degrees * DegToRad;
      var newXFOV := VerticalToHorizontal(newFOV);
      var update := newFOV != yFOVAngle || newXFOV != xFOVAngle;
      yFOVAngle := newFOV;
      xFOVAngle := newXFOV;
      yFocalLength := CM.ComputeDistance(cameraModel, newFOV, imageHeight, coefficients, trig);
      if update {
        cubemapRenderMask := ComputeCubemapRenderMask();
      }
    }

    method SetTargetGamma(gamma: real)
      modifies this
      ensures State() == old(State()).(targetGamma := gamma)
    {
      targetGamma := gamma;
    }

    method SetFocalLength(focalLength: real)
      modifies this
      ensures State() == old(State()).(yFocalLength := Some(focalLength),
        cubemapRenderMask :=
          if Some(focalLength) != old(yFocalLength) then ComputeCubemapRenderMask() else old(cubemapRenderMask))
      ensures old(MaskInSync(State())) ==> MaskInSync(State())
    {
      var update := Some(focalLength) != yFocalLength;
      yFocalLength := Some(focalLength);
      if update {
        cubemapRenderMask := ComputeCubemapRenderMask();
      }
    }

    /** Always replaces the coefficients; recomputes the mask iff they differ from the current ones. */
    method SetCameraCoefficients(incoming: seq<real>)
      modifies this
      ensures State() == old(State()).(coefficients := incoming,
        cubemapRenderMask :=
          if incoming != old(coefficients) then ComputeCubemapRenderMask() else old(cubemapRenderMask))
      ensures old(MaskInSync(State())) ==> MaskInSync(State())
    {
      var update := CoefficientsDiffer(coefficients, incoming);
      coefficients := incoming;
      if update {
        cubemapRenderMask := ComputeCubemapRenderMask();
      }
    }

    method SetRenderPerspective(enable: bool)
      modifies this
      ensures State() == old(State()).(renderPerspective := enable,
        cubemapRenderMask :=
          if enable != old(renderPerspective) then ComputeCubemapRenderMask() else old(cubemapRenderMask))
      ensures old(MaskInSync(State())) ==> MaskInSync(State())
    {
      var update := renderPerspective != enable;
      renderPerspective := enable;
      if update {
        cubemapRenderMask := ComputeCubemapRenderMask();
      }
    }

    method SetRenderEquirectangular(enable: bool)
      modifies this
      ensures State() == old(State()).(renderEquirectangular := enable,
        cubemapRenderMask :=
          if enable != old(renderEquirectangular) then ComputeCubemapRenderMask() else old(cubemapRenderMask))
      ensures old(MaskInSync(State())) ==> MaskInSync(State())
    {
      var update := renderEquirectangular != enable;
      renderEquirectangular := enable;
      if update {
        cubemapRenderMask := ComputeCubemapRenderMask();
      }
    }

    method SetFOVMaskEnable(enable: bool)
      modifies this
      ensures State() == old(State()).(fovMaskEnable := enable,
        cubemapRenderMask :=
          if enable != old(fovMaskEnable) then ComputeCubemapRenderMask() else old(cubemapRenderMask))
      ensures old(MaskInSync(State())) ==> MaskInSync(State())
    {
      var update := fovMaskEnable != enable;
      fovMaskEnable := enable;
      if update {
        cubemapRenderMask := ComputeCubemapRenderMask();
      }
    }

    method SetFOVFadeSize(size: real)
      modifies this
      ensures State() == old(State()).(fovFadeSize := size)
    {
      fovFadeSize := size;
    }

    /** The equirectangular longitude offset, in degrees. */
    function LongitudeOffsetDegrees(): real
      reads this
    {
      longitudeOffset * RadToDeg
    }

    /** Stores the offset in radians; reading it back gives the degrees that were set. */
    method SetLongitudeOffsetDegrees(degrees: real)
      modifies this
      ensures State() == old(State()).(longitudeOffset := degrees * DegToRad)
      ensures LongitudeOffsetDegrees() == degrees
    {
      longitudeOffset := degrees * DegToRad;
    }
  }

  /**
   * A default sensor resized to 2560 x 1280 and then given its default
   * 90-degree field of view again: the horizontal field of view doubles to
   * pi, so the back face is now needed, but the vertical angle did not
   * change and the cached mask is left without it.
   */
  method StaleMaskAfterResize(trig: CM.Trig) returns (sensor: WideAngleLensSensor)
    ensures sensor.xFOVAngle == Pi && sensor.yFOVAngle == Pi * 0.5
    ensures !HasFace(sensor.cubemapRenderMask, NegX)
    ensures HasFace(sensor.ComputeCubemapRenderMask(), NegX)
    ensures !MaskInSync(sensor.State())
  {
    sensor := new WideAngleLensSensor(trig);
    sensor.SetImageSize(2560, 1280);
    sensor.SetFOVAngle(90.0);
  }

  /** The same calls with the corrected setter keep the mask in step. */
  method CorrectedSetterKeepsMaskAfterResize(trig: CM.Trig) returns (sensor: WideAngleLensSensor)
    ensures sensor.xFOVAngle == Pi && sensor.yFOVAngle == Pi * 0.5
    ensures HasFace(sensor.cubemapRenderMask, NegX)
    ensures MaskInSync(sensor.State())
  {
    sensor := new WideAngleLensSensor(trig);
    sensor.SetImageSize(2560, 1280);
    sensor.SetFOVAngleCorrected(90.0);
  }
}
