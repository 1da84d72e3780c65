/**
 * The equidistant (fisheye) distortion model of okvis::cameras: four radial coefficients
 * k1..k4, the forward map with its point and parameter Jacobians, and the Gauss-Newton
 * inversion of that map.
 *
 * All double arithmetic is modelled over the reals. The C library's sqrt and atan, and
 * Eigen's 2x2 matrix inverse, are not computable in Dafny; they are passed in as the
 * `Libm` record, of which only the facts IEEE sqrt certainly has are assumed.
 */
module Cameras {
  import opened Wrappers
  import opened Geometry

  /** The floating-point primitives the distortion code calls but does not define. */
  datatype Primitives = Primitives(sqrt: real -> real, atan: real -> real, inverse: Mat2 -> Mat2)

  /**
   * Primitives whose square root is zero at zero and positive on positive arguments,
   * which is what makes every division of the distortion code well defined.
   */
  type Libm = p: Primitives | p.sqrt(0.0) == 0.0 && (forall x: real :: x > 0.0 ==> p.sqrt(x) > 0.0)
    witness Primitives(x => x, x => x, m => m)

  /** NumDistortionIntrinsics: the number of distortion parameters. */
  const NumDistortionIntrinsics: nat := 4

  /** Radii at or below this are treated as the origin (the limit case of the code). */
  const LimitRadius: real := 0.00000001

  /** The four coefficients k1..k4 of the distortion polynomial. */
  datatype Coefficients = Coefficients(k1: real, k2: real, k3: real, k4: real)

  /** The coefficients as a parameter vector, in the order the code stores them. */
  function AsVector(k: Coefficients): seq<real> { [k.k1, k.k2, k.k3, k.k4] }

  /** The first four entries of a parameter vector, read as coefficients. */
  function FromVector(v: seq<real>): Coefficients
    requires |v| >= NumDistortionIntrinsics
  {
    Coefficients(v[0], v[1], v[2], v[3])
  }

  /** k with the coefficient at index j increased by delta. */
  function Perturbed(k: Coefficients, j: nat, delta: real): Coefficients
    requires j < NumDistortionIntrinsics
  {
    match j
    case 0 => k.(k1 := k.k1 + delta)
    case 1 => k.(k2 := k.k2 + delta)
    case 2 => k.(k3 := k.k3 + delta)
    case _ => k.(k4 := k.k4 + delta)
  }

  function Pow(x: real, n: nat): real {
    if n == 0 then 1.0 else x * Pow(x, n - 1)
  }

  function SquaredNorm(u: Vec2): real { u.x * u.x + u.y * u.y }

  /** r: the distance of the normalised image point from the optical axis. */
  function Radius(p: Libm, u: Vec2): real { p.sqrt(u.x * u.x + u.y * u.y) }

  /** theta = atan(r): the angle of the incoming ray. */
  function Theta(p: Libm, u: Vec2): real { p.atan(Radius(p, u)) }

  /** thetad = theta (1 + k1 theta^2 + k2 theta^4 + k3 theta^6 + k4 theta^8). */
  function DistortedAngle(k: Coefficients, theta: real): real {
    var theta2 := theta * theta;
    var theta4 := theta2 * theta2;
    var theta6 := theta4 * theta2;
    var theta8 := theta4 * theta4;
    theta * (1.0 + k.k1 * theta2 + k.k2 * theta4 + k.k3 * theta6 + k.k4 * theta8)
  }

  /** The radial scaling: thetad / r away from the origin, exactly 1 in the limit case. */
  function Scaling(p: Libm, k: Coefficients, u: Vec2): real {
    var r := Radius(p, u);
    if r > LimitRadius then DistortedAngle(k, p.atan(r)) / r else 1.0
  }

  /** The distorted normalised point (implementation lines 85-98). */
  function DistortPoint(p: Libm, k: Coefficients, u: Vec2): Vec2 {
    Scale(Scaling(p, k, u), u)
  }

  /**
   * The point Jacobian of the distortion as the generated code of `distort` computes it and
   * lays it out (implementation lines 139-165). Only meaningful away from the origin.
   */
  function MatlabPointJacobian(p: Libm, k: Coefficients, u: Vec2): Mat2
    requires Radius(p, u) > LimitRadius
  {
    var t2 := u.x * u.x;
    var t3 := u.y * u.y;
    var t4 := t2 + t3;
    MatlabDenominators(p, u);
    var t6 := p.atan(p.sqrt(t4));
    var t7 := t6 * t6;
    var t8 := 1.0 / p.sqrt(t4);
    var t9 := t7 * t7;
    var t11 := 1.0 / ((t2 + t3) + 1.0);
    var t17 := (((k.k1 * t7 + k.k2 * t9) + k.k3 * t7 * t9) + k.k4 * (t9 * t9)) + 1.0;
    var t18 := 1.0 / t4;
    var t19 := 1.0 / p.sqrt(t4 * t4 * t4);
    var t20 := t6 * t8 * t17;
    var t25 := ((k.k2 * t6 * t7 * t8 * t11 * u.y * 4.0
                 + k.k3 * t6 * t8 * t9 * t11 * u.y * 6.0)
                + k.k4 * t6 * t7 * t8 * t9 * t11 * u.y * 8.0)
               + k.k1 * t6 * t8 * t11 * u.y * 2.0;
    var t4' := ((k.k2 * t6 * t7 * t8 * t11 * u.x * 4.0
                 + k.k3 * t6 * t8 * t9 * t11 * u.x * 6.0)
                + k.k4 * t6 * t7 * t8 * t9 * t11 * u.x * 8.0)
               + k.k1 * t6 * t8 * t11 * u.x * 2.0;
    var t7' := t11 * t17 * t18 * u.x * u.y;
    Mat2(((t20 - t2 * t6 * t17 * t19) + t2 * t11 * t17 * t18) + t6 * t8 * t4' * u.x,
         (t7' + t6 * t8 * t25 * u.x) - t6 * t17 * t19 * u.x * u.y,
         (t7' + t6 * t8 * t4' * u.y) - t6 * t17 * t19 * u.x * u.y,
         ((t20 - t3 * t6 * t17 * t19) + t3 * t11 * t17 * t18) + t6 * t8 * t25 * u.y)
  }

  /** The point Jacobian `distort` reports: the generated one, or the identity in the limit case. */
  function PointJacobian(p: Libm, k: Coefficients, u: Vec2): Mat2 {
    if Radius(p, u) > LimitRadius then MatlabPointJacobian(p, k, u) else Identity2
  }

  /**
   * The parameter Jacobian as the generated code computes it (implementation lines 177-190),
   * one column per coefficient.
   */
  function MatlabParameterJacobian(p: Libm, u: Vec2): seq<Vec2>
    requires Radius(p, u) > LimitRadius
  {
    var t6 := u.x * u.x + u.y * u.y;
    MatlabDenominators(p, u);
    MatlabParameterColumns(p.atan(p.sqrt(t6)), 1.0 / p.sqrt(t6), u)
  }

  /** The generated column expressions, given theta (t2) and 1 / r (t6'). */
  function MatlabParameterColumns(t2: real, t6': real, u: Vec2): seq<Vec2> {
    var t3 := t2 * t2;
    var t8 := t3 * t3;
    var t10 := t8 * t8;
    [Vec2(t2 * t3 * t6' * u.x, t2 * t3 * t6' * u.y),
     Vec2(t2 * t8 * t6' * u.x, t2 * t8 * t6' * u.y),
     Vec2(t2 * t3 * t8 * t6' * u.x, t2 * t3 * t8 * t6' * u.y),
     Vec2(t2 * t6' * t10 * u.x, t2 * t6' * t10 * u.y)]
  }

  /** The generated parameter Jacobian, in terms of theta and r. */
  lemma MatlabParameterJacobianUnfolded(p: Libm, u: Vec2)
    requires Radius(p, u) > LimitRadius
    ensures MatlabParameterJacobian(p, u) == MatlabParameterColumns(Theta(p, u), 1.0 / Radius(p, u), u)
  {
  }

  /** The parameter Jacobian `distort` writes when one is requested. */
  function ParameterJacobian(p: Libm, u: Vec2): seq<Vec2> {
    if Radius(p, u) > LimitRadius then MatlabParameterJacobian(p, u)
    else ZeroColumns(NumDistortionIntrinsics)
  }

  /** Away from the origin, every divisor of the generated code is non-zero. */
  lemma MatlabDenominators(p: Libm, u: Vec2)
    requires Radius(p, u) > LimitRadius
    ensures p.sqrt(u.x * u.x + u.y * u.y) != 0.0
    ensures u.x * u.x + u.y * u.y != 0.0
    ensures (u.x * u.x + u.y * u.y) + 1.0 != 0.0
    ensures p.sqrt((u.x * u.x + u.y * u.y) * (u.x * u.x + u.y * u.y) * (u.x * u.x + u.y * u.y)) != 0.0
  {
    RadiusUnfolded(p, u);
    SquaresNonNegative(u.x, u.y);
    NonZeroDivisors(p, u.x * u.x + u.y * u.y);
  }

  lemma RadiusUnfolded(p: Libm, u: Vec2)
    requires Radius(p, u) > LimitRadius
    ensures p.sqrt(u.x * u.x + u.y * u.y) > LimitRadius
  {
    var t := u.x * u.x + u.y * u.y;
    assert Radius(p, u) == p.sqrt(t);
  }

  lemma SquaresNonNegative(a: real, b: real)
    ensures a * a + b * b >= 0.0
  {
  }

  /** The divisors of the generated code, for a squared radius t away from the origin. */
  lemma NonZeroDivisors(p: Libm, t: real)
    requires t >= 0.0 && p.sqrt(t) > LimitRadius
    ensures p.sqrt(t) != 0.0 && t != 0.0 && t + 1.0 != 0.0 && p.sqrt(t * t * t) != 0.0
  {
    SqrtArgumentPositive(p, t);
    PositiveCube(t);
  }

  /** A non-negative argument whose square root exceeds LimitRadius is positive. */
  lemma SqrtArgumentPositive(p: Libm, t: real)
    requires t >= 0.0 && p.sqrt(t) > LimitRadius
    ensures t > 0.0
  {
    if t == 0.0 {
      assert false;
    }
  }

  lemma PositiveCube(t: real)
    requires t > 0.0
    ensures t * t * t > 0.0
  {
    assert t * t > 0.0;
  }

  /** The output of the two-argument `distort`. */
  datatype Distorted = Distorted(ok: bool, point: Vec2)

  /**
   * The output of a `distort` that also writes Jacobians; parameterJacobian is None when the
   * caller passed no parameter-Jacobian pointer.
   */
  datatype DistortedWithJacobians =
    DistortedWithJacobians(ok: bool, point: Vec2, pointJacobian: Mat2, parameterJacobian: Option<seq<Vec2>>)

  // ----- The Gauss-Newton inversion, as functions of the coefficients -----

  const MaxIterations: nat := 5
  const SuccessChi2: real := 0.01
  const ConvergedChi2: real := 0.000000000000001

  /**
   * One Gauss-Newton iteration of undistortion, as functions of the current iterate: the
   * distortion Jacobian E there, the increment (E^T E)^-1 E^T e added to it, and chi2 = e . e,
   * where e is the residual of the distorted iterate.
   */
  datatype Problem = Problem(jacobian: Vec2 -> Mat2, step: Vec2 -> Vec2, chi2: Vec2 -> real)

  /** The residual e = target - distort(x). */
  function Residual(p: Libm, k: Coefficients, target: Vec2, x: Vec2): Vec2 {
    Sub(target, DistortPoint(p, k, x))
  }

  /** The Gauss-Newton increment (E^T E)^-1 E^T e (implementation lines 327-330). */
  function GaussNewtonIncrement(p: Libm, E: Mat2, e: Vec2): Vec2 {
    MatVec(MatMul(p.inverse(MatMul(Transpose(E), E)), Transpose(E)), e)
  }

  /** The increment undistortion adds at x: Gauss-Newton with the distortion Jacobian there. */
  function UndistortStep(p: Libm, k: Coefficients, target: Vec2, x: Vec2): Vec2 {
    GaussNewtonIncrement(p, PointJacobian(p, k, x), Residual(p, k, target, x))
  }

  /** chi2 = e . e at x (implementation line 334). */
  function Chi2(p: Libm, k: Coefficients, target: Vec2, x: Vec2): real {
    var e := Residual(p, k, target, x);
    Dot(e, e)
  }

  /** The iteration of undistorting target under coefficients k. */
  function UndistortProblem(p: Libm, k: Coefficients, target: Vec2): Problem {
    Problem(x => PointJacobian(p, k, x), x => UndistortStep(p, k, target, x), x => Chi2(p, k, target, x))
  }

  /** The i-th iterate, starting from x0. */
  function Iterate(pr: Problem, x0: Vec2, i: nat): Vec2 {
    if i == 0 then x0
    else
      var x := Iterate(pr, x0, i - 1);
      Add(x, pr.step(x))
  }

  /**
   * The number of iterations the loop runs once it reaches iteration i: it stops after the
   * first iteration whose chi2 is below ConvergedChi2, and after MaxIterations at the latest.
   */
  function IterationsFrom(pr: Problem, x0: Vec2, i: nat): (n: nat)
    requires i < MaxIterations
    decreases MaxIterations - i
    ensures i < n <= MaxIterations
    ensures forall j :: i <= j < n - 1 ==> pr.chi2(Iterate(pr, x0, j)) >= ConvergedChi2
    ensures n < MaxIterations ==> pr.chi2(Iterate(pr, x0, n - 1)) < ConvergedChi2
  {
    if i == MaxIterations - 1 || pr.chi2(Iterate(pr, x0, i)) < ConvergedChi2 then i + 1
    else IterationsFrom(pr, x0, i + 1)
  }

  /**
   * The number of iterations undistortion performs: at least one, at most MaxIterations,
   * fewer only when an iteration reached ConvergedChi2, and then the first such.
   */
  function Iterations(pr: Problem, x0: Vec2): (n: nat)
    ensures 1 <= n <= MaxIterations
    ensures forall j :: 0 <= j < n - 1 ==> pr.chi2(Iterate(pr, x0, j)) >= ConvergedChi2
    ensures n < MaxIterations ==> pr.chi2(Iterate(pr, x0, n - 1)) < ConvergedChi2
  {
    IterationsFrom(pr, x0, 0)
  }

  /** Some iteration among the first n saw chi2 below SuccessChi2. */
  ghost predicate SucceededWithin(pr: Problem, x0: Vec2, n: nat) {
    exists j :: 0 <= j < n && pr.chi2(Iterate(pr, x0, j)) < SuccessChi2
  }

  /**
   * The loop shared by both undistort overloads (implementation lines 318-345): at most
   * MaxIterations iterations from x0, leaving early after one whose chi2 is below
   * ConvergedChi2; success is set by any iteration whose chi2 is below SuccessChi2 and never
   * cleared; the last iterate is returned whether or not it succeeded, with the Jacobian of
   * the last iteration.
   */
  method GaussNewton(pr: Problem, x0: Vec2) returns (success: bool, x: Vec2, E: Mat2)
    ensures x == Iterate(pr, x0, Iterations(pr, x0))
    ensures success <==> SucceededWithin(pr, x0, Iterations(pr, x0))
    ensures E == pr.jacobian(Iterate(pr, x0, Iterations(pr, x0) - 1))
  {
    x := x0;
    E := Identity2;  // uninitialised in the code; every run assigns it at least once
    success := false;
    var i := 0;
    while i < MaxIterations
      invariant 0 <= i <= MaxIterations
      invariant x == Iterate(pr, x0, i)
      invariant Iterations(pr, x0) == if i < MaxIterations then IterationsFrom(pr, x0, i) else i
      invariant success <==> SucceededWithin(pr, x0, i)
      invariant i > 0 ==> E == pr.jacobian(Iterate(pr, x0, i - 1))
    {
      E := pr.jacobian(x);
      var chi2 := pr.chi2(x);
      x := Add(x, pr.step(x));
      if chi2 < SuccessChi2 {
        success := true;
      }
      if chi2 < ConvergedChi2 {
        success := true;
        break;
      }
      i := i + 1;
    }
  }

  /** okvis::cameras::EquidistantDistortion. */
  class EquidistantDistortion {
    /** parameters_: all distortion parameters, as a 4-vector. */
    var parameters: seq<real>
    /** k1_..k4_: the same coefficients, as scalars. */
    var k1: real
    var k2: real
    var k3: real
    var k4: real

    /** The object's state: the parameter vector and the four scalars agree. */
    ghost predicate Valid()
      reads this
    {
      parameters == [k1, k2, k3, k4]
    }

    function Coeffs(): Coefficients
      reads this
    {
      Coefficients(k1, k2, k3, k4)
    }

    /** The default constructor: all coefficients zero. */
    constructor ()
      ensures Valid()
      ensures k1 == 0.0 && k2 == 0.0 && k3 == 0.0 && k4 == 0.0
      ensures parameters == [0.0, 0.0, 0.0, 0.0]
    {
      k1, k2, k3, k4 := 0.0, 0.0, 0.0, 0.0;
      parameters := [0.0, 0.0, 0.0, 0.0];
    }

    /** The constructor initialising k1..k4. */
    constructor WithCoefficients(k1: real, k2: real, k3: real, k4: real)
      ensures Valid()
      ensures parameters[0] == k1 && parameters[1] == k2 && parameters[2] == k3 && parameters[3] == k4
      ensures this.k1 == k1 && this.k2 == k2 && this.k3 == k3 && this.k4 == k4
    {
      parameters := [k1, k2, k3, k4];
      this.k1, this.k2, this.k3, this.k4 := k1, k2, k3, k4;
    }

    /**
     * setParameters as written: it compares the column count of the argument with
     * NumDistortionIntrinsics, but the argument is a column vector, which has one column.
     */
    method SetParameters(v: seq<real>) returns (ok: bool)
      requires Valid()
      modifies this
      ensures Valid()
      ensures ok == AcceptedAsWritten(v)
      ensures !ok
      ensures parameters == old(parameters) && Coeffs() == old(Coeffs())
    {
      if ColumnCount(v) != NumDistortionIntrinsics {
        return false;
      }
      // The copy of the code follows here, but is unreachable: a column vector has one
      // column, never NumDistortionIntrinsics.
      assert false;
    }

    /**
     * setParameters as evidently intended: a vector of NumDistortionIntrinsics entries is
     * copied into both representations; any other length is refused and changes nothing.
     */
    method SetParametersChecked(v: seq<real>) returns (ok: bool)
      requires Valid()
      modifies this
      ensures Valid()
      ensures ok == AcceptedAsIntended(v)
      ensures ok ==> parameters == v && Coeffs() == FromVector(v)
      ensures !ok ==> parameters == old(parameters) && Coeffs() == old(Coeffs())
    {
      if |v| != NumDistortionIntrinsics {
        return false;
      }
      parameters := v;
      k1, k2, k3, k4 := v[0], v[1], v[2], v[3];
      ok := true;
    }

    /** getParameters: always succeeds and yields the stored vector. */
    function GetParameters(): (r: (bool, seq<real>))
      reads this
      ensures r.0
      ensures r.1 == parameters
      ensures Valid() ==> |r.1| == NumDistortionIntrinsics && r.1 == AsVector(Coeffs())
    {
      (true, parameters)
    }

    /** type(): the class name. */
    function Type(): (s: string)
      ensures s == "EquidistantDistortion"
    {
      "EquidistantDistortion"
    }

    /** numDistortionIntrinsics(): the length of the parameter vector. */
    function NumIntrinsics(): (n: nat)
      reads this
      ensures n == NumDistortionIntrinsics
      ensures Valid() ==> n == |parameters|
    {
      NumDistortionIntrinsics
    }

    /** testObject(): the reference distortion used by the unit tests. */
    static method TestObject() returns (d: EquidistantDistortion)
      ensures fresh(d) && d.Valid()
      ensures d.Coeffs() == Coefficients(-0.21, 0.14, 0.0006, 0.0003)
    {
      d := new EquidistantDistortion.WithCoefficients(-0.21, 0.14, 0.0006, 0.0003);
    }

    /** createTestObject(): the same reference distortion, as a shared object. */
    static method CreateTestObject() returns (d: EquidistantDistortion)
      ensures fresh(d) && d.Valid()
      ensures d.Coeffs() == Coefficients(-0.21, 0.14, 0.0006, 0.0003)
    {
      d := new EquidistantDistortion.WithCoefficients(-0.21, 0.14, 0.0006, 0.0003);
    }

    /** distort(pointUndistorted, pointDistorted): distortion only. */
    function Distort(p: Libm, u: Vec2): (r: Distorted)
      reads this
      ensures r.ok
      ensures Radius(p, u) > LimitRadius ==>
                r.point == Scale(DistortedAngle(Coeffs(), Theta(p, u)) / Radius(p, u), u)
      ensures Radius(p, u) <= LimitRadius ==> r.point == u
    {
      Distorted(true, DistortPoint(p, Coeffs(), u))
    }

    /** distort with the point Jacobian and, if requested, the parameter Jacobian. */
    function DistortWithJacobians(p: Libm, u: Vec2, wantParameterJacobian: bool): (r: DistortedWithJacobians)
      reads this
      ensures r.ok
      ensures r.point == Distort(p, u).point
      ensures Radius(p, u) <= LimitRadius ==>
                r.pointJacobian == Identity2
                && r.parameterJacobian == (if wantParameterJacobian then Some(ZeroColumns(NumDistortionIntrinsics)) else None)
      ensures Radius(p, u) > LimitRadius ==> r.pointJacobian == MatlabPointJacobian(p, Coeffs(), u)
      ensures !wantParameterJacobian ==> r.parameterJacobian == None
      ensures Radius(p, u) > LimitRadius && wantParameterJacobian ==>
                r.parameterJacobian.Some? && |r.parameterJacobian.value| == NumDistortionIntrinsics
                && forall j :: 0 <= j < NumDistortionIntrinsics ==>
                     r.parameterJacobian.value[j] == Scale(Pow(Theta(p, u), 2 * j + 3) / Radius(p, u), u)
    {
      var r := DistortedWithJacobians(true, DistortPoint(p, Coeffs(), u), PointJacobian(p, Coeffs(), u),
                                      if wantParameterJacobian then Some(ParameterJacobian(p, u)) else None);
      if Radius(p, u) > LimitRadius then ParameterJacobianColumns(p, u); r else r
    }

    /**
     * distortWithExternalParameters as written: the coefficients come from the argument
     * vector, and the generated point-Jacobian entries are stored with its two columns
     * exchanged relative to `distort` (implementation lines 270-275).
     */
    function DistortWithExternalParameters(p: Libm, u: Vec2, v: seq<real>, wantParameterJacobian: bool)
      : (r: DistortedWithJacobians)
      requires |v| >= NumDistortionIntrinsics
      ensures r.ok
      ensures r.point == DistortPoint(p, FromVector(v), u)
      ensures r.pointJacobian ==
                if Radius(p, u) > LimitRadius then SwapColumns(PointJacobian(p, FromVector(v), u)) else Identity2
      ensures r.parameterJacobian == if wantParameterJacobian then Some(ParameterJacobian(p, u)) else None
    {
      var k := FromVector(v);
      var J := if Radius(p, u) > LimitRadius then SwapColumns(MatlabPointJacobian(p, k, u)) else Identity2;
      DistortedWithJacobians(true, DistortPoint(p, k, u), J,
                             if wantParameterJacobian then Some(ParameterJacobian(p, u)) else None)
    }

    /**
     * distortWithExternalParameters with its point Jacobian laid out as in `distort`,
     * which is what the shared generated code computes.
     */
    function DistortWithExternalParametersCorrected(p: Libm, u: Vec2, v: seq<real>, wantParameterJacobian: bool)
      : (r: DistortedWithJacobians)
      requires |v| >= NumDistortionIntrinsics
      ensures r.ok
      ensures r.point == DistortPoint(p, FromVector(v), u)
      ensures r.pointJacobian == PointJacobian(p, FromVector(v), u)
      ensures r.parameterJacobian == if wantParameterJacobian then Some(ParameterJacobian(p, u)) else None
    {
      var k := FromVector(v);
      DistortedWithJacobians(true, DistortPoint(p, k, u), PointJacobian(p, k, u),
                             if wantParameterJacobian then Some(ParameterJacobian(p, u)) else None)
    }

    /**
     * undistort(pointDistorted, pointUndistorted): the Gauss-Newton loop started at the
     * distorted point.
     */
    method Undistort(p: Libm, pointDistorted: Vec2) returns (success: bool, pointUndistorted: Vec2)
      ensures var pr := UndistortProblem(p, Coeffs(), pointDistorted);
              && pointUndistorted == Iterate(pr, pointDistorted, Iterations(pr, pointDistorted))
              && (success <==> SucceededWithin(pr, pointDistorted, Iterations(pr, pointDistorted)))
    {
      var lastJacobian;
      success, pointUndistorted, lastJacobian := GaussNewton(UndistortProblem(p, Coeffs(), pointDistorted), pointDistorted);
    }

    /**
     * undistort with the Jacobian of the inverse map, which is the inverse of the last
     * distortion Jacobian the iteration computed.
     */
    method UndistortWithJacobian(p: Libm, pointDistorted: Vec2)
      returns (success: bool, pointUndistorted: Vec2, pointJacobian: Mat2)
      ensures var pr := UndistortProblem(p, Coeffs(), pointDistorted);
              var n := Iterations(pr, pointDistorted);
              && pointUndistorted == Iterate(pr, pointDistorted, n)
              && (success <==> SucceededWithin(pr, pointDistorted, n))
              && pointJacobian == p.inverse(PointJacobian(p, Coeffs(), Iterate(pr, pointDistorted, n - 1)))
    {
      var E;
      success, pointUndistorted, E := GaussNewton(UndistortProblem(p, Coeffs(), pointDistorted), pointDistorted);
      pointJacobian := p.inverse(E);
    }
  }

  /** Eigen::VectorXd has a single column whatever its length. */
  function ColumnCount(v: seq<real>): nat { 1 }

  /** The guard of setParameters as written. */
  predicate AcceptedAsWritten(v: seq<real>) { ColumnCount(v) == NumDistortionIntrinsics }

  /** The guard the documentation asks for: the vector has NumDistortionIntrinsics entries. */
  predicate AcceptedAsIntended(v: seq<real>) { |v| == NumDistortionIntrinsics }

  // ----- Properties of the model -----

  /** Column j of the parameter Jacobian is theta^(2j+3) / r times the point. */
  lemma ParameterJacobianColumns(p: Libm, u: Vec2)
    requires Radius(p, u) > LimitRadius
    ensures |MatlabParameterJacobian(p, u)| == NumDistortionIntrinsics
    ensures forall j :: 0 <= j < NumDistortionIntrinsics ==>
              MatlabParameterJacobian(p, u)[j] == Scale(Pow(Theta(p, u), 2 * j + 3) / Radius(p, u), u)
  {
    MatlabDenominators(p, u);
    ParameterJacobianColumn0(p, u);
    ParameterJacobianColumn1(p, u);
    ParameterJacobianColumn2(p, u);
    ParameterJacobianColumn3(p, u);
    CollectColumns(Theta(p, u), Radius(p, u), u, MatlabParameterJacobian(p, u));
  }

  /** Column 0 of the generated parameter Jacobian is theta^3 / r times the point. */
  lemma ParameterJacobianColumn0(p: Libm, u: Vec2)
    requires Radius(p, u) > LimitRadius
    ensures |MatlabParameterJacobian(p, u)| == NumDistortionIntrinsics
    ensures MatlabParameterJacobian(p, u)[0] == Scale(Pow(Theta(p, u), 3) / Radius(p, u), u)
  {
    MatlabParameterJacobianUnfolded(p, u);
    Column3(Theta(p, u), Radius(p, u), u, MatlabParameterJacobian(p, u)[0]);
  }

  /** Column 1 of the generated parameter Jacobian is theta^5 / r times the point. */
  lemma ParameterJacobianColumn1(p: Libm, u: Vec2)
    requires Radius(p, u) > LimitRadius
    ensures |MatlabParameterJacobian(p, u)| == NumDistortionIntrinsics
    ensures MatlabParameterJacobian(p, u)[1] == Scale(Pow(Theta(p, u), 5) / Radius(p, u), u)
  {
    MatlabParameterJacobianUnfolded(p, u);
    Column5(Theta(p, u), Radius(p, u), u, MatlabParameterJacobian(p, u)[1]);
  }

  /** Column 2 of the generated parameter Jacobian is theta^7 / r times the point. */
  lemma ParameterJacobianColumn2(p: Libm, u: Vec2)
    requires Radius(p, u) > LimitRadius
    ensures |MatlabParameterJacobian(p, u)| == NumDistortionIntrinsics
    ensures MatlabParameterJacobian(p, u)[2] == Scale(Pow(Theta(p, u), 7) / Radius(p, u), u)
  {
    MatlabParameterJacobianUnfolded(p, u);
    Column7(Theta(p, u), Radius(p, u), u, MatlabParameterJacobian(p, u)[2]);
  }

  /** Column 3 of the generated parameter Jacobian is theta^9 / r times the point. */
  lemma ParameterJacobianColumn3(p: Libm, u: Vec2)
    requires Radius(p, u) > LimitRadius
    ensures |MatlabParameterJacobian(p, u)| == NumDistortionIntrinsics
    ensures MatlabParameterJacobian(p, u)[3] == Scale(Pow(Theta(p, u), 9) / Radius(p, u), u)
  {
    MatlabParameterJacobianUnfolded(p, u);
    Column9(Theta(p, u), Radius(p, u), u, MatlabParameterJacobian(p, u)[3]);
  }

  lemma Column3(t: real, r: real, u: Vec2, col: Vec2)
    requires r != 0.0
    requires col == MatlabParameterColumns(t, 1.0 / r, u)[0]
    ensures col == Scale(Pow(t, 3) / r, u)
  {
    PowUnfold3(t);
    GeneratedColumn(t, 1.0 / r, u, 0, Pow(t, 3));
    DivideIsMultiplyByInverse(Pow(t, 3), r);
  }

  lemma Column5(t: real, r: real, u: Vec2, col: Vec2)
    requires r != 0.0
    requires col == MatlabParameterColumns(t, 1.0 / r, u)[1]
    ensures col == Scale(Pow(t, 5) / r, u)
  {
    PowUnfold5(t);
    GeneratedColumn(t, 1.0 / r, u, 1, Pow(t, 5));
    DivideIsMultiplyByInverse(Pow(t, 5), r);
  }

  lemma Column7(t: real, r: real, u: Vec2, col: Vec2)
    requires r != 0.0
    requires col == MatlabParameterColumns(t, 1.0 / r, u)[2]
    ensures col == Scale(Pow(t, 7) / r, u)
  {
    PowUnfold7(t);
    GeneratedColumn(t, 1.0 / r, u, 2, Pow(t, 7));
    DivideIsMultiplyByInverse(Pow(t, 7), r);
  }

  lemma Column9(t: real, r: real, u: Vec2, col: Vec2)
    requires r != 0.0
    requires col == MatlabParameterColumns(t, 1.0 / r, u)[3]
    ensures col == Scale(Pow(t, 9) / r, u)
  {
    PowUnfold9(t);
    GeneratedColumn(t, 1.0 / r, u, 3, Pow(t, 9));
    DivideIsMultiplyByInverse(Pow(t, 9), r);
  }

  lemma CollectColumns(t: real, r: real, u: Vec2, cols: seq<Vec2>)
    requires r != 0.0
    requires |cols| == NumDistortionIntrinsics
    requires cols[0] == Scale(Pow(t, 3) / r, u)
    requires cols[1] == Scale(Pow(t, 5) / r, u)
    requires cols[2] == Scale(Pow(t, 7) / r, u)
    requires cols[3] == Scale(Pow(t, 9) / r, u)
    ensures forall j :: 0 <= j < NumDistortionIntrinsics ==> cols[j] == Scale(Pow(t, 2 * j + 3) / r, u)
  {
    forall j | 0 <= j < NumDistortionIntrinsics
      ensures cols[j] == Scale(Pow(t, 2 * j + 3) / r, u)
    {
      if j == 0 {
        assert 2 * j + 3 == 3;
      } else if j == 1 {
        assert 2 * j + 3 == 5;
      } else if j == 2 {
        assert 2 * j + 3 == 7;
      } else {
        assert 2 * j + 3 == 9;
      }
    }
  }

  /** Generated column k is q times 1 / r times u, for q the product of theta temporaries it multiplies. */
  lemma GeneratedColumn(t: real, c: real, u: Vec2, k: nat, q: real)
    requires k < NumDistortionIntrinsics
    requires k == 0 ==> q == t * (t * t)
    requires k == 1 ==> q == t * ((t * t) * (t * t))
    requires k == 2 ==> q == t * (t * t) * ((t * t) * (t * t))
    requires k == 3 ==> q == t * (((t * t) * (t * t)) * ((t * t) * (t * t)))
    ensures MatlabParameterColumns(t, c, u)[k] == Scale(q * c, u)
  {
    var t3 := t * t;
    var t8 := t3 * t3;
    var t10 := t8 * t8;
    if k == 3 {
      assert t * c * t10 == (t * t10) * c;
    }
  }

  lemma DivideIsMultiplyByInverse(q: real, r: real)
    requires r != 0.0
    ensures q / r == q * (1.0 / r)
  {
  }

  lemma PowUnfold3(t: real) ensures Pow(t, 3) == t * (t * t) {
    assert Pow(t, 1) == t;
  }

  lemma PowUnfold5(t: real) ensures Pow(t, 5) == t * ((t * t) * (t * t)) {
    PowUnfold3(t);
  }

  lemma PowUnfold7(t: real) ensures Pow(t, 7) == t * (t * t) * ((t * t) * (t * t)) {
    PowUnfold5(t);
  }

  lemma PowUnfold9(t: real) ensures Pow(t, 9) == t * (((t * t) * (t * t)) * ((t * t) * (t * t))) {
    PowUnfold7(t);
  }

  /**
   * The distortion is affine in each coefficient, so the parameter Jacobian is exact: moving
   * coefficient j by delta moves the distorted point by delta times column j.
   */
  lemma ParameterJacobianIsExact(p: Libm, k: Coefficients, u: Vec2, j: nat, delta: real)
    requires j < NumDistortionIntrinsics
    ensures DistortPoint(p, Perturbed(k, j, delta), u)
            == Add(DistortPoint(p, k, u), Scale(delta, ParameterJacobian(p, u)[j]))
  {
    if Radius(p, u) > LimitRadius {
      ParameterJacobianColumn(p, u, j);
      PerturbedDistortion(p, k, u, j, delta, ParameterJacobian(p, u)[j]);
    }
  }

  /** Column j of the reported parameter Jacobian, away from the origin. */
  lemma ParameterJacobianColumn(p: Libm, u: Vec2, j: nat)
    requires Radius(p, u) > LimitRadius && j < NumDistortionIntrinsics
    ensures |ParameterJacobian(p, u)| == NumDistortionIntrinsics
    ensures ParameterJacobian(p, u)[j] == Scale(Pow(Theta(p, u), 2 * j + 3) / Radius(p, u), u)
  {
    ParameterJacobianColumns(p, u);
  }

  /** Away from the origin, moving coefficient j by delta moves the point by delta theta^(2j+3) / r times u. */
  lemma PerturbedDistortion(p: Libm, k: Coefficients, u: Vec2, j: nat, delta: real, column: Vec2)
    requires j < NumDistortionIntrinsics && Radius(p, u) > LimitRadius
    requires column == Scale(Pow(Theta(p, u), 2 * j + 3) / Radius(p, u), u)
    ensures DistortPoint(p, Perturbed(k, j, delta), u) == Add(DistortPoint(p, k, u), Scale(delta, column))
  {
    ScalingPerturbation(p, k, u, j, delta);
    ScaleShift(Scaling(p, k, u), Scaling(p, Perturbed(k, j, delta), u), Pow(Theta(p, u), 2 * j + 3) / Radius(p, u), delta, u);
  }

  /** Away from the origin, the scaling is affine in coefficient j with slope theta^(2j+3) / r. */
  lemma ScalingPerturbation(p: Libm, k: Coefficients, u: Vec2, j: nat, delta: real)
    requires j < NumDistortionIntrinsics && Radius(p, u) > LimitRadius
    ensures Scaling(p, Perturbed(k, j, delta), u) == Scaling(p, k, u) + delta * (Pow(Theta(p, u), 2 * j + 3) / Radius(p, u))
  {
    ScaledAnglePerturbation(k, j, delta, Theta(p, u), Radius(p, u));
  }

  lemma ScaledAnglePerturbation(k: Coefficients, j: nat, delta: real, t: real, r: real)
    requires j < NumDistortionIntrinsics && r != 0.0
    ensures DistortedAngle(Perturbed(k, j, delta), t) / r == DistortedAngle(k, t) / r + delta * (Pow(t, 2 * j + 3) / r)
  {
    ScaledAngleShift(k, Perturbed(k, j, delta), t, j, delta, r, Pow(t, 2 * j + 3));
  }

  lemma ScaledAngleShift(k: Coefficients, k': Coefficients, t: real, j: nat, delta: real, r: real, q: real)
    requires j < NumDistortionIntrinsics && r != 0.0 && k' == Perturbed(k, j, delta) && q == Pow(t, 2 * j + 3)
    ensures DistortedAngle(k', t) / r == DistortedAngle(k, t) / r + delta * (q / r)
  {
    AnglePerturbation(k, t, j, delta);
    AngleToScaling(DistortedAngle(k, t), DistortedAngle(k', t), q, delta, r);
  }

  lemma AngleToScaling(a: real, a': real, q: real, delta: real, r: real)
    requires r != 0.0 && a' == a + delta * q
    ensures a' / r == a / r + delta * (q / r)
  {
    DivideSum(a, delta * q, r);
    DivideProduct(delta, q, r);
  }

  lemma ScaleShift(s: real, s': real, c: real, delta: real, u: Vec2)
    requires s' == s + delta * c
    ensures Scale(s', u) == Add(Scale(s, u), Scale(delta, Scale(c, u)))
  {
    ScaleSum(s, delta * c, u);
    ScaleTwice(delta, c, u);
  }

  lemma DivideSum(a: real, b: real, r: real)
    requires r != 0.0
    ensures (a + b) / r == a / r + b / r
  {
  }

  lemma DivideProduct(a: real, b: real, r: real)
    requires r != 0.0
    ensures a * b / r == a * (b / r)
  {
  }

  lemma ScaleSum(a: real, b: real, u: Vec2)
    ensures Scale(a + b, u) == Add(Scale(a, u), Scale(b, u))
  {
  }

  /** thetad is affine in each coefficient: coefficient j multiplies theta^(2j+3). */
  lemma AnglePerturbation(k: Coefficients, t: real, j: nat, delta: real)
    requires j < NumDistortionIntrinsics
    ensures DistortedAngle(Perturbed(k, j, delta), t) == DistortedAngle(k, t) + delta * Pow(t, 2 * j + 3)
  {
    if j == 0 {
      AnglePerturbation0(k, t, j, delta);
    } else if j == 1 {
      AnglePerturbation1(k, t, j, delta);
    } else if j == 2 {
      AnglePerturbation2(k, t, j, delta);
    } else {
      AnglePerturbation3(k, t, j, delta);
    }
  }

  lemma AnglePerturbation0(k: Coefficients, t: real, j: nat, delta: real)
    requires j == 0
    ensures DistortedAngle(Perturbed(k, j, delta), t) == DistortedAngle(k, t) + delta * Pow(t, 2 * j + 3)
  {
    assert DistortedAngle(Perturbed(k, 0, delta), t) == DistortedAngle(k, t) + delta * (t * (t * t));
    PowUnfold3(t);
  }

  lemma AnglePerturbation1(k: Coefficients, t: real, j: nat, delta: real)
    requires j == 1
    ensures DistortedAngle(Perturbed(k, j, delta), t) == DistortedAngle(k, t) + delta * Pow(t, 2 * j + 3)
  {
    assert DistortedAngle(Perturbed(k, 1, delta), t) == DistortedAngle(k, t) + delta * (t * ((t * t) * (t * t)));
    PowUnfold5(t);
  }

  lemma AnglePerturbation2(k: Coefficients, t: real, j: nat, delta: real)
    requires j == 2
    ensures DistortedAngle(Perturbed(k, j, delta), t) == DistortedAngle(k, t) + delta * Pow(t, 2 * j + 3)
  {
    assert DistortedAngle(Perturbed(k, 2, delta), t) == DistortedAngle(k, t) + delta * (t * (((t * t) * (t * t)) * (t * t)));
    PowUnfold7(t);
  }

  lemma AnglePerturbation3(k: Coefficients, t: real, j: nat, delta: real)
    requires j == 3
    ensures DistortedAngle(Perturbed(k, j, delta), t) == DistortedAngle(k, t) + delta * Pow(t, 2 * j + 3)
  {
    assert DistortedAngle(Perturbed(k, 3, delta), t) == DistortedAngle(k, t) + delta * (t * (((t * t) * (t * t)) * ((t * t) * (t * t))));
    PowUnfold9(t);
  }

  lemma ScaleTwice(a: real, b: real, u: Vec2)
    ensures Scale(a, Scale(b, u)) == Scale(a * b, u)
  {
  }

  /** In the limit case the distorted point does not depend on the coefficients at all. */
  lemma LimitCaseIgnoresCoefficients(p: Libm, k: Coefficients, k': Coefficients, u: Vec2)
    requires Radius(p, u) <= LimitRadius
    ensures DistortPoint(p, k, u) == DistortPoint(p, k', u) == u
  {
  }

  /** The optical centre is a fixed point of the distortion. */
  lemma OriginIsFixed(p: Libm, k: Coefficients)
    ensures DistortPoint(p, k, Zero2) == Zero2
  {
    assert Radius(p, Zero2) == p.sqrt(0.0);
  }

  /**
   * The equidistant model: where sqrt is exact at |u|^2, the distorted point lies at
   * distance |thetad| from the centre, in the direction of u.
   */
  lemma DistortedRadiusIsDistortedAngle(p: Libm, k: Coefficients, u: Vec2)
    requires Radius(p, u) > LimitRadius
    requires Radius(p, u) * Radius(p, u) == SquaredNorm(u)
    ensures SquaredNorm(DistortPoint(p, k, u)) == DistortedAngle(k, Theta(p, u)) * DistortedAngle(k, Theta(p, u))
  {
    var r, d := Radius(p, u), DistortedAngle(k, Theta(p, u));
    var s := d / r;
    assert DistortPoint(p, k, u) == Scale(s, u);
    calc {
      SquaredNorm(Scale(s, u));
      (s * u.x) * (s * u.x) + (s * u.y) * (s * u.y);
      s * s * SquaredNorm(u);
      s * s * (r * r);
      (s * r) * (s * r);
      { assert s * r == d; }
      d * d;
    }
  }

  /**
   * The external-parameter variant, given the object's own coefficients, distorts to the same
   * point and writes the same parameter Jacobian as `distort`.
   */
  lemma ExternalParametersAgreeWithDistort(d: EquidistantDistortion, p: Libm, u: Vec2, want: bool)
    requires d.Valid()
    ensures d.DistortWithExternalParameters(p, u, d.parameters, want).point == d.Distort(p, u).point
    ensures d.DistortWithExternalParameters(p, u, d.parameters, want).parameterJacobian
            == d.DistortWithJacobians(p, u, want).parameterJacobian
  {
  }

  /**
   * The corrected external-parameter variant, given the object's own coefficients, produces
   * exactly what `distort` with Jacobians produces.
   */
  lemma CorrectedExternalAgreesWithDistort(d: EquidistantDistortion, p: Libm, u: Vec2, want: bool)
    requires d.Valid()
    ensures d.DistortWithExternalParametersCorrected(p, u, d.parameters, want) == d.DistortWithJacobians(p, u, want)
  {
  }

  /**
   * At u = (1, 0) with zero coefficients, `distort` reports d(distorted x)/du0 = 1/2, the
   * derivative of atan at 1, while the external-parameter variant as written reports 0 there.
   */
  lemma ExternalPointJacobianDisagrees(d: EquidistantDistortion, p: Libm)
    requires d.Valid() && d.Coeffs() == Coefficients(0.0, 0.0, 0.0, 0.0)
    requires p.sqrt(1.0) == 1.0
    ensures d.DistortWithJacobians(p, Vec2(1.0, 0.0), false).pointJacobian.m00 == 0.5
    ensures d.DistortWithExternalParameters(p, Vec2(1.0, 0.0), d.parameters, false).pointJacobian.m00 == 0.0
  {
    var u := Vec2(1.0, 0.0);
    assert u.x * u.x + u.y * u.y == 1.0;
    assert 1.0 * 1.0 * 1.0 == 1.0;
    assert Radius(p, u) == 1.0;
  }

  /** Leaving the loop early always reports success: convergence is below the success bound. */
  lemma EarlyExitSucceeds(pr: Problem, x0: Vec2)
    ensures Iterations(pr, x0) < MaxIterations ==> SucceededWithin(pr, x0, Iterations(pr, x0))
  {
    var n := Iterations(pr, x0);
    if n < MaxIterations {
      assert pr.chi2(Iterate(pr, x0, n - 1)) < SuccessChi2;
    }
  }

  /** A start that already fits to ConvergedChi2 takes exactly one step and succeeds. */
  lemma ConvergedStartTakesOneStep(pr: Problem, x0: Vec2)
    requires pr.chi2(x0) < ConvergedChi2
    ensures Iterations(pr, x0) == 1
    ensures SucceededWithin(pr, x0, 1)
  {
    assert Iterate(pr, x0, 0) == x0;
  }

  /** Failure means every iteration the loop performed left chi2 at or above SuccessChi2. */
  lemma FailureMeansNoIterationFit(pr: Problem, x0: Vec2)
    requires !SucceededWithin(pr, x0, Iterations(pr, x0))
    ensures Iterations(pr, x0) == MaxIterations
    ensures forall j :: 0 <= j < MaxIterations ==> pr.chi2(Iterate(pr, x0, j)) >= SuccessChi2
  {
    EarlyExitSucceeds(pr, x0);
  }

  /** A zero residual gives a zero increment, whatever the Jacobian. */
  lemma ZeroResidualZeroIncrement(p: Libm, E: Mat2)
    ensures GaussNewtonIncrement(p, E, Zero2) == Zero2
  {
    MatVecZero(MatMul(p.inverse(MatMul(Transpose(E), E)), Transpose(E)));
  }

  /** An iteration that starts where chi2 vanishes and the step is zero stays put. */
  lemma StationaryStart(pr: Problem, x0: Vec2)
    requires pr.chi2(x0) == 0.0 && pr.step(x0) == Zero2
    ensures Iterations(pr, x0) == 1
    ensures Iterate(pr, x0, Iterations(pr, x0)) == x0
    ensures SucceededWithin(pr, x0, Iterations(pr, x0))
  {
    ConvergedStartTakesOneStep(pr, x0);
    assert Iterate(pr, x0, 1) == Add(x0, Zero2);
  }

  /**
   * Undistorting a point the distortion leaves in place (the optical centre is one) returns
   * that point after a single iteration, with success.
   */
  lemma UndistortKeepsFixedPoint(p: Libm, k: Coefficients, x: Vec2)
    requires DistortPoint(p, k, x) == x
    ensures var pr := UndistortProblem(p, k, x);
            && Iterations(pr, x) == 1
            && Iterate(pr, x, Iterations(pr, x)) == x
            && SucceededWithin(pr, x, Iterations(pr, x))
  {
    FixedPointIsStationary(p, k, x);
    StationaryStart(UndistortProblem(p, k, x), x);
  }

  /** At a fixed point of the distortion, chi2 vanishes and the undistortion step is zero. */
  lemma FixedPointIsStationary(p: Libm, k: Coefficients, x: Vec2)
    requires DistortPoint(p, k, x) == x
    ensures UndistortProblem(p, k, x).chi2(x) == 0.0
    ensures UndistortProblem(p, k, x).step(x) == Zero2
  {
    var pr := UndistortProblem(p, k, x);
    Cancel(x, DistortPoint(p, k, x));
    assert pr.chi2(x) == Dot(Residual(p, k, x, x), Residual(p, k, x, x));
    assert pr.step(x) == GaussNewtonIncrement(p, PointJacobian(p, k, x), Residual(p, k, x, x));
    ZeroResidualZeroIncrement(p, PointJacobian(p, k, x));
  }

  /** A point minus itself is the zero vector. */
  lemma Cancel(a: Vec2, b: Vec2)
    requires a == b
    ensures Sub(a, b) == Zero2
  {
  }

  /** In particular for the optical centre. */
  lemma UndistortFixesOrigin(p: Libm, k: Coefficients)
    ensures var pr := UndistortProblem(p, k, Zero2);
            && Iterations(pr, Zero2) == 1
            && Iterate(pr, Zero2, 1) == Zero2
            && SucceededWithin(pr, Zero2, 1)
  {
    OriginIsFixed(p, k);
    UndistortKeepsFixedPoint(p, k, Zero2);
  }

  /** setParameters as written refuses even a correctly sized vector. */
  lemma SetParametersRefusesEveryVector(v: seq<real>)
    ensures !AcceptedAsWritten(v)
    ensures |v| == NumDistortionIntrinsics ==> AcceptedAsIntended(v)
  {
  }
}
