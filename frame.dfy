/** The camera frame: the Euler triple (theta, phi, gamma) held in a three-slot
    array, the transposed rotation matrix recomputed from it after every change,
    and the five control points (center, left, right, bottom, top) from which the
    frame's extent is read. */
module Frame {
  import opened Wrappers

  /** Numeric constants of the program (numpy's double value of pi). */
  const PI: real := 3.141592653589793
  const RADIANS: real := 1.0
  const DEGREES: real := PI / 180.0

  datatype Point = Point(x: real, y: real, z: real)

  /** A 3x3 matrix by rows. */
  datatype Matrix3 = Matrix3(r0: Point, r1: Point, r2: Point)

  /** `clip(a, min_a, max_a)`. */
  function Clip(a: real, lo: real, hi: real): (r: real)
    ensures lo <= hi ==> lo <= r <= hi
    ensures lo <= a <= hi ==> r == a
    ensures r == a || r == lo || r == hi
    ensures a < lo ==> r == lo
    ensures lo <= a && hi < a ==> r == hi
  {
    if a < lo then lo else if a > hi then hi else a
  }

  /** phi after a run of `increment_phi` calls. */
  function PhiAfterIncrements(phi: real, deltas: seq<real>): real
    decreases |deltas|
  {
    if deltas == [] then phi else PhiAfterIncrements(Clip(phi + deltas[0], 0.0, PI), deltas[1..])
  }

  /** Whatever the deltas, incrementing leaves phi in [0, pi]. */
  lemma {:induction false} IncrementedPhiInRange(phi: real, deltas: seq<real>)
    requires deltas != [] || 0.0 <= phi <= PI
    ensures 0.0 <= PhiAfterIncrements(phi, deltas) <= PI
    decreases |deltas|
  {
    if deltas != [] {
      IncrementedPhiInRange(Clip(phi + deltas[0], 0.0, PI), deltas[1..]);
    }
  }

  /** The clamp saturates: pushing past pi keeps phi pinned at pi. */
  lemma {:induction false} PhiSaturatesAtPi(deltas: seq<real>)
    requires forall i :: 0 <= i < |deltas| ==> deltas[i] >= 0.0
    ensures PhiAfterIncrements(PI, deltas) == PI
  {
    if deltas != [] {
      PhiSaturatesAtPi(deltas[1..]);
    }
  }

  /** ... and pushing below 0 keeps it pinned at 0. */
  lemma {:induction false} PhiSaturatesAtZero(deltas: seq<real>)
    requires forall i :: 0 <= i < |deltas| ==> deltas[i] <= 0.0
    ensures PhiAfterIncrements(0.0, deltas) == 0.0
  {
    if deltas != [] {
      PhiSaturatesAtZero(deltas[1..]);
    }
  }

  // Frame geometry, read from the control points.

  /** `get_center`: the first control point is the center. */
  function Center(points: seq<Point>): Point
    requires |points| >= 5
  {
    points[0]
  }

  /** `get_width`: how far the right point lies to the right of the left one. */
  function Width(points: seq<Point>): real
    requires |points| >= 5
  {
    points[2].x - points[1].x
  }

  /** `get_height`: how far the top point lies above the bottom one. */
  function Height(points: seq<Point>): real
    requires |points| >= 5
  {
    points[4].y - points[3].y
  }

  /** `get_shape`: width, then height. */
  function Shape(points: seq<Point>): (real, real)
    requires |points| >= 5
  {
    (Width(points), Height(points))
  }

  /** `get_focal_distance`: the configured ratio, measured in frame heights. */
  function FocalDistance(focalDistanceRatio: real, points: seq<Point>): (d: real)
    requires |points| >= 5
    ensures Height(points) != 0.0 ==> d / Height(points) == focalDistanceRatio
  {
    focalDistanceRatio * Height(points)
  }

  /** The control points `init_points` leaves: the unit cross stretched to the
      configured shape and moved to the configured center. */
  function InitialPoints(center: Point, width: real, height: real): (points: seq<Point>)
    ensures |points| == 5
    ensures Center(points) == center
    ensures Width(points) == width && Height(points) == height
  {
    [center,
     Point(center.x - width / 2.0, center.y, center.z),
     Point(center.x + width / 2.0, center.y, center.z),
     Point(center.x, center.y - height / 2.0, center.z),
     Point(center.x, center.y + height / 2.0, center.z)]
  }

  function Shift(points: seq<Point>, v: Point): (r: seq<Point>)
    ensures |r| == |points|
  {
    seq(|points|, i requires 0 <= i < |points| => Point(points[i].x + v.x, points[i].y + v.y, points[i].z + v.z))
  }

  function StretchX(points: seq<Point>, factor: real, aboutX: real): (r: seq<Point>)
    ensures |r| == |points|
  {
    seq(|points|, i requires 0 <= i < |points| => points[i].(x := aboutX + factor * (points[i].x - aboutX)))
  }

  function StretchY(points: seq<Point>, factor: real, aboutY: real): (r: seq<Point>)
    ensures |r| == |points|
  {
    seq(|points|, i requires 0 <= i < |points| => points[i].(y := aboutY + factor * (points[i].y - aboutY)))
  }

  /** Width and height are differences of points: moving the frame keeps them. */
  lemma ShapeUnderShift(points: seq<Point>, v: Point)
    requires |points| >= 5
    ensures Shape(Shift(points, v)) == Shape(points)
    ensures Center(Shift(points, v)) == Point(points[0].x + v.x, points[0].y + v.y, points[0].z + v.z)
  {
  }

  /** A horizontal stretch scales the width by its factor and keeps the height. */
  lemma ShapeUnderStretchX(points: seq<Point>, factor: real, aboutX: real)
    requires |points| >= 5
    ensures Width(StretchX(points, factor, aboutX)) == factor * Width(points)
    ensures Height(StretchX(points, factor, aboutX)) == Height(points)
  {
    var r := StretchX(points, factor, aboutX);
    calc {
      Width(r);
      (aboutX + factor * (points[2].x - aboutX)) - (aboutX + factor * (points[1].x - aboutX));
      factor * (points[2].x - points[1].x);
    }
  }

  /** A vertical stretch scales the height by its factor and keeps the width. */
  lemma ShapeUnderStretchY(points: seq<Point>, factor: real, aboutY: real)
    requires |points| >= 5
    ensures Height(StretchY(points, factor, aboutY)) == factor * Height(points)
    ensures Width(StretchY(points, factor, aboutY)) == Width(points)
  {
    var r := StretchY(points, factor, aboutY);
    calc {
      Height(r);
      (aboutY + factor * (points[4].y - aboutY)) - (aboutY + factor * (points[3].y - aboutY));
      factor * (points[4].y - points[3].y);
    }
  }

  /** The focal distance is measured in frame heights, so it follows a vertical
      stretch and ignores a horizontal one. */
  lemma FocalDistanceUnderStretch(focalDistanceRatio: real, points: seq<Point>, factor: real, about: real)
    requires |points| >= 5
    ensures FocalDistance(focalDistanceRatio, StretchY(points, factor, about)) == factor * FocalDistance(focalDistanceRatio, points)
    ensures FocalDistance(focalDistanceRatio, StretchX(points, factor, about)) == FocalDistance(focalDistanceRatio, points)
  {
    ShapeUnderStretchY(points, factor, about);
    ShapeUnderStretchX(points, factor, about);
  }

  class CameraFrame {
    /** The quaternion construction of the transposed rotation matrix from
        (theta, phi, gamma); its trigonometry is outside the model. */
    const rotationTranspose: (real, real, real) -> Matrix3
    /** The configured focal distance, as a multiple of the frame height. */
    const focalDistance: real
    var eulerAngles: array<real>
    var inverseCameraRotationMatrix: Matrix3
    var points: seq<Point>

    /** The matrix always belongs to the stored triple; the frame has its five
        points and a height other than zero (the anti-alias width divides by it). */
    ghost predicate Valid()
      reads this, eulerAngles
    {
      && eulerAngles.Length == 3
      && |points| == 5
      && Height(points) != 0.0
      && inverseCameraRotationMatrix == rotationTranspose(eulerAngles[0], eulerAngles[1], eulerAngles[2])
    }

    function EulerAngles(): (real, real, real)
      reads this, eulerAngles
      requires eulerAngles.Length == 3
    {
      (eulerAngles[0], eulerAngles[1], eulerAngles[2])
    }

    constructor (rotationTranspose: (real, real, real) -> Matrix3, frameShape: (real, real),
                 centerPoint: Point, eulerAngles: (real, real, real), focalDistance: real)
      requires frameShape.1 != 0.0
      ensures Valid() && fresh(this.eulerAngles)
      ensures EulerAngles() == eulerAngles
      ensures points == InitialPoints(centerPoint, frameShape.0, frameShape.1)
      ensures this.rotationTranspose == rotationTranspose && this.focalDistance == focalDistance
    {
      this.rotationTranspose := rotationTranspose;
      this.focalDistance := focalDistance;
      var angles := new real[3];
      angles[0], angles[1], angles[2] := eulerAngles.0, eulerAngles.1, eulerAngles.2;
      this.eulerAngles := angles;
      inverseCameraRotationMatrix := rotationTranspose(eulerAngles.0, eulerAngles.1, eulerAngles.2);
      points := InitialPoints(centerPoint, frameShape.0, frameShape.1);
    }

    method RefreshRotationMatrix()
      requires eulerAngles.Length == 3
      modifies this
      ensures eulerAngles == old(eulerAngles) && points == old(points)
      ensures inverseCameraRotationMatrix == rotationTranspose(eulerAngles[0], eulerAngles[1], eulerAngles[2])
    {
      inverseCameraRotationMatrix := rotationTranspose(eulerAngles[0], eulerAngles[1], eulerAngles[2]);
    }

    /** Sets each supplied angle to `value * units` and leaves the others alone. */
    method SetEulerAngles(theta: Option<real>, phi: Option<real>, gamma: Option<real>, units: real)
      requires Valid()
      modifies this, eulerAngles
      ensures Valid() && eulerAngles == old(eulerAngles) && points == old(points)
      ensures eulerAngles[0] == if theta.Some? then theta.value * units else old(eulerAngles[0])
      ensures eulerAngles[1] == if phi.Some? then phi.value * units else old(eulerAngles[1])
      ensures eulerAngles[2] == if gamma.Some? then gamma.value * units else old(eulerAngles[2])
    {
      if theta.Some? {
        eulerAngles[0] := theta.value * units;
      }
      if phi.Some? {
        eulerAngles[1] := phi.value * units;
      }
      if gamma.Some? {
        eulerAngles[2] := gamma.value * units;
      }
      RefreshRotationMatrix();
    }

    /** `set_euler_angles` with the angles given in degrees. */
    method Reorient(thetaDegrees: Option<real>, phiDegrees: Option<real>, gammaDegrees: Option<real>)
      requires Valid()
      modifies this, eulerAngles
      ensures Valid() && eulerAngles == old(eulerAngles) && points == old(points)
      ensures eulerAngles[0] == if thetaDegrees.Some? then thetaDegrees.value * DEGREES else old(eulerAngles[0])
      ensures eulerAngles[1] == if phiDegrees.Some? then phiDegrees.value * DEGREES else old(eulerAngles[1])
      ensures eulerAngles[2] == if gammaDegrees.Some? then gammaDegrees.value * DEGREES else old(eulerAngles[2])
    {
      SetEulerAngles(thetaDegrees, phiDegrees, gammaDegrees, DEGREES);
    }

    method SetTheta(theta: real)
      requires Valid()
      modifies this, eulerAngles
      ensures Valid() && eulerAngles == old(eulerAngles) && points == old(points)
      ensures EulerAngles() == (theta, old(eulerAngles[1]), old(eulerAngles[2]))
    {
      SetEulerAngles(Some(theta), None, None, RADIANS);
    }

    method SetPhi(phi: real)
      requires Valid()
      modifies this, eulerAngles
      ensures Valid() && eulerAngles == old(eulerAngles) && points == old(points)
      ensures EulerAngles() == (old(eulerAngles[0]), phi, old(eulerAngles[2]))
    {
      SetEulerAngles(None, Some(phi), None, RADIANS);
    }

    method SetGamma(gamma: real)
      requires Valid()
      modifies this, eulerAngles
      ensures Valid() && eulerAngles == old(eulerAngles) && points == old(points)
      ensures EulerAngles() == (old(eulerAngles[0]), old(eulerAngles[1]), gamma)
    {
      SetEulerAngles(None, None, Some(gamma), RADIANS);
    }

    /** theta grows by exactly `dtheta`, without bound or wrap-around. */
    method IncrementTheta(dtheta: real)
      requires Valid()
      modifies this, eulerAngles
      ensures Valid() && eulerAngles == old(eulerAngles) && points == old(points)
      ensures EulerAngles() == (old(eulerAngles[0]) + dtheta, old(eulerAngles[1]), old(eulerAngles[2]))
    {
      eulerAngles[0] := eulerAngles[0] + dtheta;
      RefreshRotationMatrix();
    }

    /** phi grows by `dphi` and is clamped into [0, pi]. */
    method IncrementPhi(dphi: real)
      requires Valid()
      modifies this, eulerAngles
      ensures Valid() && eulerAngles == old(eulerAngles) && points == old(points)
      ensures EulerAngles() == (old(eulerAngles[0]), PhiAfterIncrements(old(eulerAngles[1]), [dphi]), old(eulerAngles[2]))
      ensures 0.0 <= eulerAngles[1] <= PI
    {
      var phi := eulerAngles[1];
      var newPhi := Clip(phi + dphi, 0.0, PI);
      eulerAngles[1] := newPhi;
      RefreshRotationMatrix();
    }

    /** gamma grows by exactly `dgamma`, without bound or wrap-around. */
    method IncrementGamma(dgamma: real)
      requires Valid()
      modifies this, eulerAngles
      ensures Valid() && eulerAngles == old(eulerAngles) && points == old(points)
      ensures EulerAngles() == (old(eulerAngles[0]), old(eulerAngles[1]), old(eulerAngles[2]) + dgamma)
    {
      eulerAngles[2] := eulerAngles[2] + dgamma;
      RefreshRotationMatrix();
    }

    /** Back to the default pose. `defaultPoints` is the point array the inherited
        `center`, `set_height` and `set_width` calls leave; those shape operations
        are not part of this model. */
    method ToDefaultState(defaultPoints: seq<Point>)
      requires Valid()
      requires |defaultPoints| == 5 && Height(defaultPoints) != 0.0
      modifies this, eulerAngles
      ensures Valid() && eulerAngles == old(eulerAngles)
      ensures points == defaultPoints
      ensures EulerAngles() == (0.0, 0.0, 0.0)
    {
      points := defaultPoints;
      SetEulerAngles(Some(0.0), Some(0.0), Some(0.0), RADIANS);
    }
  }
}
