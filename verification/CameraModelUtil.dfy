/**
 * Camera models of the wide-angle lens sensor: the Kannala-Brandt
 * polynomial and its derivative, the Newton solver that inverts it, the
 * focal distance that makes the image edge see half the vertical field of
 * view, and the flags and passes of the cubemap distortion.
 *
 * Single-precision floats are modelled as reals.  A division whose divisor
 * is zero (an infinity or a NaN on the GPU side) is `None`.  `tan`, `sin`,
 * `atan` and `asin` belong to the C library and are parameters.
 */
module CameraModelUtil {
  import opened Wrappers

  /** The projection a wide-angle camera uses (the `MaxEnum` sentinel is not a model). */
  datatype CameraModel =
    | Perspective
    | Stereographic
    | Equidistant
    | Equisolid
    | Orthographic
    | KannalaBrandt

  /** The default model of a freshly built sensor. */
  const DefaultCameraModel: CameraModel := Perspective

  /** The trigonometric functions the projections use, supplied by the C library. */
  datatype Trig = Trig(atan: real -> real, asin: real -> real, tan: real -> real, sin: real -> real)

  /** Number of Newton updates the Kannala-Brandt angle solver performs. */
  const KannalaBrandtSolverIterations: nat := 32

  // ---------------------------------------------------------------------------
  // Arithmetic helpers
  // ---------------------------------------------------------------------------

  function Pow(x: real, n: nat): real
  {
    if n == 0 then 1.0 else Pow(x, n - 1) * x
  }

  /** Division that reports a zero divisor as a non-finite result. */
  function Div(n: real, d: real): (r: Option<real>)
    ensures r.Some? <==> d != 0.0
    ensures r.Some? ==> r.value * d == n
  {
    if d == 0.0 then None else Some(n / d)
  }

  lemma {:induction false} PowOfSquare(x: real, n: nat)
    ensures Pow(x * x, n) == Pow(x, 2 * n)
  {
    if n > 0 {
      PowOfSquare(x, n - 1);
      calc {
        Pow(x * x, n);
        Pow(x * x, n - 1) * (x * x);
        Pow(x, 2 * n - 2) * (x * x);
        (Pow(x, 2 * n - 2) * x) * x;
        Pow(x, 2 * n - 1) * x;
        Pow(x, 2 * n);
      }
    }
  }

  lemma {:induction false} PowOfSquareNonNegative(x: real, n: nat)
    ensures Pow(x * x, n) >= 0.0
  {
    if n > 0 {
      PowOfSquareNonNegative(x, n - 1);
      assert x * x >= 0.0;
      assert Pow(x * x, n) == Pow(x * x, n - 1) * (x * x);
    }
  }

  // ---------------------------------------------------------------------------
  // Kannala-Brandt polynomial and its derivative
  // ---------------------------------------------------------------------------

  /** Sum over i of ks[i] * t2^(i+1). */
  function PolySum(t2: real, ks: seq<real>): real
  {
    if |ks| == 0 then 0.0
    else PolySum(t2, ks[..|ks| - 1]) + ks[|ks| - 1] * Pow(t2, |ks|)
  }

  /** Sum over i of (2i+3) * ks[i] * t2^(i+1). */
  function DerivSum(t2: real, ks: seq<real>): real
  {
    if |ks| == 0 then 0.0
    else DerivSum(t2, ks[..|ks| - 1]) + (2 * |ks| + 1) as real * ks[|ks| - 1] * Pow(t2, |ks|)
  }

  /** The camera polynomial theta * (1 + sum of ks[i] * theta^(2(i+1))). */
  function Polynomial(theta: real, ks: seq<real>): real
  {
    (1.0 + PolySum(theta * theta, ks)) * theta
  }

  /** The derivative 1 + sum of (2i+3) * ks[i] * theta^(2(i+1)). */
  function Derivative(theta: real, ks: seq<real>): real
  {
    1.0 + DerivSum(theta * theta, ks)
  }

  /** The camera polynomial, accumulated power by power. */
  method ComputeCameraPolynomial(theta: real, coefficients: seq<real>) returns (r: real)
    ensures r == Polynomial(theta, coefficients)
  {
    var result := 1.0;
    var theta2 := theta * theta;
    var thetaN := 1.0;
    for i := 0 to |coefficients|
      invariant thetaN == Pow(theta2, i)
      invariant result == 1.0 + PolySum(theta2, coefficients[..i])
    {
      thetaN := thetaN * theta2;
      result := result + coefficients[i] * thetaN;
      assert coefficients[..i + 1][..i] == coefficients[..i];
    }
    assert coefficients[..|coefficients|] == coefficients;
    r := result * theta;
  }

  /** The derivative of the camera polynomial, with the odd exponent A stepping by two. */
  method ComputeCameraPolynomialDerivative(theta: real, coefficients: seq<real>) returns (r: real)
    ensures r == Derivative(theta, coefficients)
  {
    var result := 1.0;
    var theta2 := theta * theta;
    var thetaN := theta2;
    var a := 3.0;
    for i := 0 to |coefficients|
      invariant thetaN == Pow(theta2, i + 1)
      invariant a == (2 * i + 3) as real
      invariant result == 1.0 + DerivSum(theta2, coefficients[..i])
    {
      result := result + a * coefficients[i] * thetaN;
      a := a + 2.0;
      thetaN := thetaN * theta2;
      assert coefficients[..i + 1][..i] == coefficients[..i];
    }
    assert coefficients[..|coefficients|] == coefficients;
    r := result;
  }

  // ---------------------------------------------------------------------------
  // Reference: polynomials as lists of monomials and their formal derivative
  // ---------------------------------------------------------------------------

  /** The monomial coefficient * theta^exponent. */
  datatype Term = Term(coefficient: real, exponent: nat)

  /** theta + ks[0] theta^3 + ks[1] theta^5 + ... as a list of monomials. */
  function OddSeries(ks: seq<real>): (ts: seq<Term>)
    ensures |ts| == |ks| + 1
  {
    if |ks| == 0 then [Term(1.0, 1)]
    else OddSeries(ks[..|ks| - 1]) + [Term(ks[|ks| - 1], 2 * |ks| + 1)]
  }

  function Eval(ts: seq<Term>, theta: real): real
  {
    if |ts| == 0 then 0.0
    else Eval(ts[..|ts| - 1], theta) + ts[|ts| - 1].coefficient * Pow(theta, ts[|ts| - 1].exponent)
  }

  /** The derivative of one monomial: c x^e becomes c e x^(e-1). */
  function DifferentiateTerm(t: Term): Term
  {
    if t.exponent == 0 then Term(0.0, 0)
    else Term(t.coefficient * t.exponent as real, t.exponent - 1)
  }

  /** The term-wise derivative of a list of monomials. */
  function Differentiate(ts: seq<Term>): (ds: seq<Term>)
    ensures |ds| == |ts|
  {
    if |ts| == 0 then []
    else Differentiate(ts[..|ts| - 1]) + [DifferentiateTerm(ts[|ts| - 1])]
  }

  /** The loop's polynomial is the odd power series theta + sum of ks[i] theta^(2i+3). */
  lemma {:induction false} PolynomialIsOddSeries(theta: real, ks: seq<real>)
    ensures Polynomial(theta, ks) == Eval(OddSeries(ks), theta)
  {
    if |ks| == 0 {
      assert Eval([Term(1.0, 1)], theta) == Eval([], theta) + 1.0 * Pow(theta, 1);
    } else {
      PolynomialIsOddSeries(theta, ks[..|ks| - 1]);
      PolynomialSnoc(theta, ks);
      OddSeriesSnoc(theta, ks);
    }
  }

  /** Appending a coefficient adds k theta^(2n+1) to the loop's polynomial. */
  lemma PolynomialSnoc(theta: real, ks: seq<real>)
    requires |ks| > 0
    ensures var n := |ks|;
      Polynomial(theta, ks) == Polynomial(theta, ks[..n - 1]) + ks[n - 1] * Pow(theta, 2 * n + 1)
  {
    var n := |ks|;
    var k := ks[n - 1];
    PowOfSquare(theta, n);
    var p := Pow(theta * theta, n);
    var sum := PolySum(theta * theta, ks[..n - 1]);
    assert PolySum(theta * theta, ks) == sum + k * p;
    assert Pow(theta, 2 * n + 1) == p * theta;
    Distribute(1.0 + sum, k * p, theta);
    assert (k * p) * theta == k * (p * theta);
  }

  lemma Distribute(a: real, b: real, c: real)
    ensures (a + b) * c == a * c + b * c
  {
  }

  /** Appending a coefficient appends the monomial k theta^(2n+1) to the series. */
  lemma OddSeriesSnoc(theta: real, ks: seq<real>)
    requires |ks| > 0
    ensures var n := |ks|;
      Eval(OddSeries(ks), theta) == Eval(OddSeries(ks[..n - 1]), theta) + ks[n - 1] * Pow(theta, 2 * n + 1)
  {
    var n := |ks|;
    var t := Term(ks[n - 1], 2 * n + 1);
    assert OddSeries(ks) == OddSeries(ks[..n - 1]) + [t];
    EvalSnoc(OddSeries(ks[..n - 1]), t, theta);
  }

  lemma EvalSnoc(ts: seq<Term>, t: Term, theta: real)
    ensures Eval(ts + [t], theta) == Eval(ts, theta) + t.coefficient * Pow(theta, t.exponent)
  {
    assert (ts + [t])[..|ts|] == ts;
  }

  lemma DifferentiateSnoc(ts: seq<Term>, t: Term)
    ensures Differentiate(ts + [t]) == Differentiate(ts) + [DifferentiateTerm(t)]
  {
    assert (ts + [t])[..|ts|] == ts;
  }

  /** Appending a coefficient adds (2n+1) k theta^(2n) to the loop's derivative. */
  lemma DerivativeSnoc(theta: real, ks: seq<real>)
    requires |ks| > 0
    ensures var n := |ks|;
      Derivative(theta, ks) ==
        Derivative(theta, ks[..n - 1]) + (2 * n + 1) as real * ks[n - 1] * Pow(theta, 2 * n)
  {
    PowOfSquare(theta, |ks|);
  }

  /** Appending a coefficient adds the derivative of the monomial k theta^(2n+1). */
  lemma TermwiseSnoc(theta: real, ks: seq<real>)
    requires |ks| > 0
    ensures var n := |ks|;
      Eval(Differentiate(OddSeries(ks)), theta) ==
        Eval(Differentiate(OddSeries(ks[..n - 1])), theta) + (2 * n + 1) as real * ks[n - 1] * Pow(theta, 2 * n)
  {
    DifferentiatedSeriesSnoc(ks);
    EvalDifferentiatedOddTerm(Differentiate(OddSeries(ks[..|ks| - 1])), ks[|ks| - 1], |ks|, theta);
  }

  /** Evaluating the derivative of k theta^(2n+1) after a list of monomials adds (2n+1) k theta^(2n). */
  lemma EvalDifferentiatedOddTerm(before: seq<Term>, k: real, n: nat, theta: real)
    ensures Eval(before + [DifferentiateTerm(Term(k, 2 * n + 1))], theta) ==
              Eval(before, theta) + (2 * n + 1) as real * k * Pow(theta, 2 * n)
  {
    var w := (2 * n + 1) as real;
    var p := Pow(theta, 2 * n);
    DifferentiateOddTerm(k, n, w);
    EvalSnoc(before, Term(k * w, 2 * n), theta);
    Reorder(Eval(before + [Term(k * w, 2 * n)], theta), Eval(before, theta), k, w, p);
  }

  /** The derivative of the series gains the derivative of its new monomial. */
  lemma DifferentiatedSeriesSnoc(ks: seq<real>)
    requires |ks| > 0
    ensures Differentiate(OddSeries(ks)) ==
              Differentiate(OddSeries(ks[..|ks| - 1])) + [DifferentiateTerm(Term(ks[|ks| - 1], 2 * |ks| + 1))]
  {
    OddSeriesUnfold(ks);
    DifferentiateSnoc(OddSeries(ks[..|ks| - 1]), Term(ks[|ks| - 1], 2 * |ks| + 1));
  }

  lemma DifferentiateOddTerm(k: real, n: nat, w: real)
    requires w == (2 * n + 1) as real
    ensures DifferentiateTerm(Term(k, 2 * n + 1)) == Term(k * w, 2 * n)
  {
    var t := Term(k, 2 * n + 1);
    assert t.exponent as real == w;
  }

  lemma OddSeriesUnfold(ks: seq<real>)
    requires |ks| > 0
    ensures OddSeries(ks) == OddSeries(ks[..|ks| - 1]) + [Term(ks[|ks| - 1], 2 * |ks| + 1)]
  {
  }

  lemma Reorder(a: real, b: real, k: real, w: real, p: real)
    requires a == b + (k * w) * p
    ensures a == b + w * k * p
  {
  }

  /** The loop's derivative is the term-wise derivative of the odd power series. */
  lemma {:induction false} DerivativeIsTermwise(theta: real, ks: seq<real>)
    ensures Derivative(theta, ks) == Eval(Differentiate(OddSeries(ks)), theta)
  {
    if |ks| == 0 {
      assert Differentiate([Term(1.0, 1)]) == Differentiate([]) + [Term(1.0, 0)];
      EvalSnoc([], Term(1.0, 0), theta);
    } else {
      DerivativeIsTermwise(theta, ks[..|ks| - 1]);
      DerivativeSnoc(theta, ks);
      TermwiseSnoc(theta, ks);
    }
  }

  /** With non-negative coefficients the derivative never drops below one. */
  lemma {:induction false} DerivativeAtLeastOne(theta: real, ks: seq<real>)
    requires forall i :: 0 <= i < |ks| ==> ks[i] >= 0.0
    ensures Derivative(theta, ks) >= 1.0
  {
    if |ks| > 0 {
      var n := |ks|;
      DerivativeAtLeastOne(theta, ks[..n - 1]);
      PowOfSquareNonNegative(theta, n);
      var w := (2 * n + 1) as real * ks[n - 1];
      assert w >= 0.0;
      assert w * Pow(theta * theta, n) >= 0.0;
    }
  }

  // ---------------------------------------------------------------------------
  // Newton solver for the Kannala-Brandt angle
  // ---------------------------------------------------------------------------

  /** One update theta -= N / D with N = distance - P(theta) and D = -P'(theta). */
  function NewtonStep(distance: real, ks: seq<real>, theta: Option<real>): Option<real>
  {
    match theta
    case None => None
    case Some(t) =>
      match Div(distance - Polynomial(t, ks), -Derivative(t, ks))
      case None => None
      case Some(q) => Some(t - q)
  }

  /** `count` Newton updates from `start`, with no early exit. */
  function NewtonIterate(distance: real, ks: seq<real>, start: Option<real>, count: nat): Option<real>
  {
    if count == 0 then start
    else NewtonStep(distance, ks, NewtonIterate(distance, ks, start, count - 1))
  }

  /** The Kannala-Brandt angle: exactly 32 Newton updates starting at theta = distance. */
  method SolveKannalaBrandt(distance: real, coefficients: seq<real>) returns (theta: Option<real>)
    ensures theta == NewtonIterate(distance, coefficients, Some(distance), KannalaBrandtSolverIterations)
  {
    theta := Some(distance);
    var i: nat := 0;
    while i != KannalaBrandtSolverIterations
      invariant i <= KannalaBrandtSolverIterations
      invariant theta == NewtonIterate(distance, coefficients, Some(distance), i)
    {
      if theta.Some? {
        var p := ComputeCameraPolynomial(theta.value, coefficients);
        var dp := ComputeCameraPolynomialDerivative(theta.value, coefficients);
        var n := distance - p;
        var d := -dp;
        if d == 0.0 {
          theta := None;
        } else {
          theta := Some(theta.value - n / d);
        }
      }
      i := i + 1;
    }
  }

  /** A root of P(theta) = distance with a non-zero slope stays put through every update. */
  lemma {:induction false} NewtonKeepsRoot(distance: real, ks: seq<real>, theta: real, count: nat)
    requires Polynomial(theta, ks) == distance
    requires Derivative(theta, ks) != 0.0
    ensures NewtonIterate(distance, ks, Some(theta), count) == Some(theta)
  {
    if count > 0 {
      NewtonKeepsRoot(distance, ks, theta, count - 1);
      assert Div(0.0, -Derivative(theta, ks)) == Some(0.0);
    }
  }

  /** With non-negative coefficients (the sensor's defaults are) no update divides by zero. */
  lemma {:induction false} NewtonStaysFinite(distance: real, ks: seq<real>, start: real, count: nat)
    requires forall i :: 0 <= i < |ks| ==> ks[i] >= 0.0
    ensures NewtonIterate(distance, ks, Some(start), count).Some?
  {
    if count > 0 {
      NewtonStaysFinite(distance, ks, start, count - 1);
      var t := NewtonIterate(distance, ks, Some(start), count - 1).value;
      DerivativeAtLeastOne(t, ks);
    }
  }

  /** Without coefficients the polynomial is the identity and one update reaches the distance. */
  lemma NewtonSolvesIdentityInOneStep(distance: real, theta: real)
    ensures NewtonStep(distance, [], Some(theta)) == Some(distance)
  {
    assert Polynomial(theta, []) == theta;
    assert Derivative(theta, []) == 1.0;
    assert Div(distance - theta, -1.0) == Some(theta - distance);
  }

  // ---------------------------------------------------------------------------
  // Angle and distance of every camera model
  // ---------------------------------------------------------------------------

  /** The incidence angle of an image point at normalised distance `distance`. */
  function Angle(model: CameraModel, distance: real, ks: seq<real>, trig: Trig): Option<real>
  {
    match model
    case Perspective => Some(trig.atan(distance))
    case Stereographic => Some(trig.atan(distance * 0.5) * 2.0)
    case Equidistant => Some(distance)
    case Equisolid => Some(trig.asin(distance * 0.5) * 2.0)
    case Orthographic => Some(trig.asin(distance))
    case KannalaBrandt => NewtonIterate(distance, ks, Some(distance), KannalaBrandtSolverIterations)
  }

  method ComputeAngle(model: CameraModel, distance: real, coefficients: seq<real>, trig: Trig)
    returns (angle: Option<real>)
    ensures angle == Angle(model, distance, coefficients, trig)
  {
    match model {
      case Perspective => angle := Some(trig.atan(distance));
      case Stereographic => angle := Some(trig.atan(distance * 0.5) * 2.0);
      case Equidistant => angle := Some(distance);
      case Equisolid => angle := Some(trig.asin(distance * 0.5) * 2.0);
      case Orthographic => angle := Some(trig.asin(distance));
      case KannalaBrandt => angle := SolveKannalaBrandt(distance, coefficients);
    }
  }

  /**
   * The focal distance F that puts half the angle `angle` at the image's
   * half height R = H / 2; `None` when the model's divisor is zero.
   */
  function ComputeDistance(model: CameraModel, angle: real, imageHeight: int, ks: seq<real>, trig: Trig)
    : (f: Option<real>)
    ensures model == Equidistant ==>
      (f.Some? <==> angle != 0.0) && (f.Some? ==> f.value * angle == imageHeight as real)
    ensures model == KannalaBrandt ==>
      (f.Some? <==> Polynomial(angle / 2.0, ks) != 0.0) &&
      (f.Some? ==> f.value * Polynomial(angle / 2.0, ks) == imageHeight as real / 2.0)
  {
    var r := imageHeight as real * 0.5;
    var half := angle * 0.5;
    match model
    case Perspective => Div(r, trig.tan(half))
    case Stereographic => Div(r, trig.tan(half * 0.5) * 2.0)
    case Equidistant => Div(r, half)
    case Equisolid => Div(r, trig.sin(half * 0.5) * 2.0)
    case Orthographic => Div(r, trig.sin(half))
    case KannalaBrandt => Div(r, Polynomial(half, ks))
  }

  /** Kannala-Brandt without coefficients focuses exactly like the equidistant model. */
  lemma KannalaBrandtWithoutCoefficientsIsEquidistant(angle: real, imageHeight: int, ks: seq<real>, trig: Trig)
    ensures ComputeDistance(KannalaBrandt, angle, imageHeight, [], trig)
         == ComputeDistance(Equidistant, angle, imageHeight, ks, trig)
  {
    assert Polynomial(angle * 0.5, []) == angle * 0.5;
  }

  /** Equidistant: the image edge R / F is seen at exactly half the field of view. */
  lemma EquidistantEdgeSeesHalfFOV(angle: real, imageHeight: int, ks: seq<real>, trig: Trig)
    requires angle != 0.0 && imageHeight != 0
    ensures ComputeDistance(Equidistant, angle, imageHeight, ks, trig).Some?
    ensures var f := ComputeDistance(Equidistant, angle, imageHeight, ks, trig).value;
      f != 0.0 && Angle(Equidistant, (imageHeight as real / 2.0) / f, ks, trig) == Some(angle / 2.0)
  {
    var h := imageHeight as real;
    var f := ComputeDistance(Equidistant, angle, imageHeight, ks, trig).value;
    assert f * angle == h;
    assert f != 0.0;
    assert (h / 2.0) / f == angle / 2.0 by {
      assert (angle / 2.0) * f == h / 2.0;
    }
  }

  /**
   * Kannala-Brandt: half the field of view is a root of the solver's equation
   * for the image edge R / F, so the angle solver keeps it once it reaches it.
   */
  lemma KannalaBrandtEdgeIsSolverRoot(angle: real, imageHeight: int, ks: seq<real>, trig: Trig, count: nat)
    requires imageHeight != 0
    requires ComputeDistance(KannalaBrandt, angle, imageHeight, ks, trig).Some?
    requires Derivative(angle / 2.0, ks) != 0.0
    ensures var f := ComputeDistance(KannalaBrandt, angle, imageHeight, ks, trig).value;
      f != 0.0 &&
      NewtonIterate((imageHeight as real / 2.0) / f, ks, Some(angle / 2.0), count) == Some(angle / 2.0)
  {
    var h := imageHeight as real;
    var f := ComputeDistance(KannalaBrandt, angle, imageHeight, ks, trig).value;
    var p := Polynomial(angle / 2.0, ks);
    assert f * p == h / 2.0;
    assert f != 0.0;
    assert (h / 2.0) / f == p;
    NewtonKeepsRoot((h / 2.0) / f, ks, angle / 2.0, count);
  }

  // ---------------------------------------------------------------------------
  // Distortion pass: shader flags and the optional perspective re-projection
  // ---------------------------------------------------------------------------

  const EquirectangularFlag: bv32 := 1
  const FovMaskFlag: bv32 := 2

  /** Shader flags: bit 0 for equirectangular output, bit 1 for the FOV mask, nothing else. */
  function ShaderFlags(renderEquirectangular: bool, fovMaskEnable: bool): (flags: bv32)
    ensures (flags & EquirectangularFlag != 0) <==> renderEquirectangular
    ensures (flags & FovMaskFlag != 0) <==> fovMaskEnable
    ensures flags & !(EquirectangularFlag | FovMaskFlag) == 0
  {
    var withEquirectangular: bv32 := if renderEquirectangular then EquirectangularFlag else 0;
    if fovMaskEnable then withEquirectangular | FovMaskFlag else withEquirectangular
  }

  /** What `DistortCubemapToImage` is told to do. */
  datatype DistortOptions = DistortOptions(
    coefficients: seq<real>,
    yFOVAngle: real,
    yFocalLength: real,
    longitudeOffset: real,
    fovFadeSize: real,
    cameraModel: CameraModel,
    renderEquirectangular: bool,
    fovMaskEnable: bool,
    renderPerspective: bool)

  /** The parameters handed to the distortion shader. */
  datatype DistortionParameters = DistortionParameters(
    cameraModel: CameraModel,
    focalX: real,
    focalY: real,
    centerX: int,
    centerY: int,
    yFOVAngle: real,
    longitudeOffset: real,
    fovFadeSize: real,
    flags: bv32)

  /** The pass that produces the final image from the distorted one. */
  datatype OutputPass =
    | CopyDistorted
    | ReprojectToPerspective(model: CameraModel, perspectiveFocalLength: Option<real>)

  datatype DistortionPlan = DistortionPlan(distortion: DistortionParameters, output: OutputPass)

  /** The render passes `DistortCubemapToImage` schedules for an image of sizeX by sizeY pixels. */
  function DistortCubemapToImage(options: DistortOptions, sizeX: nat, sizeY: nat, trig: Trig)
    : (plan: DistortionPlan)
    ensures plan.distortion.cameraModel == options.cameraModel
    ensures plan.distortion.focalX == plan.distortion.focalY == options.yFocalLength
    ensures plan.distortion.centerX * 2 <= sizeX < plan.distortion.centerX * 2 + 2
    ensures plan.distortion.centerY * 2 <= sizeY < plan.distortion.centerY * 2 + 2
    ensures (plan.distortion.flags & EquirectangularFlag != 0) <==> options.renderEquirectangular
    ensures (plan.distortion.flags & FovMaskFlag != 0) <==> options.fovMaskEnable
    ensures plan.output.ReprojectToPerspective? <==>
      options.renderPerspective && !options.renderEquirectangular
    ensures plan.output.ReprojectToPerspective? ==>
      plan.output.model == options.cameraModel &&
      plan.output.perspectiveFocalLength ==
        ComputeDistance(Perspective, options.yFOVAngle, sizeY, options.coefficients, trig)
  {
    var parameters := DistortionParameters(
      options.cameraModel,
      options.yFocalLength, options.yFocalLength,
      sizeX / 2, sizeY / 2,
      options.yFOVAngle, options.longitudeOffset, options.fovFadeSize,
      ShaderFlags(options.renderEquirectangular, options.fovMaskEnable));
    var output :=
      if options.renderPerspective && !options.renderEquirectangular then
        ReprojectToPerspective(
          options.cameraModel,
          ComputeDistance(Perspective, options.yFOVAngle, sizeY, options.coefficients, trig))
      else CopyDistorted;
    DistortionPlan(parameters, output)
  }
}
