/**
 * Workspace geometry of the drawing application: points in millimetres,
 * the end-of-path proximity test and the conversion of a workspace point
 * to a Cartesian pose of the robot (metres, X axis inverted).
 */
module Geometry {

  /** A point of the drawing plane, (x, y) in millimetres. */
  type Point = (real, real)

  /** A Cartesian pose [x, y, z, rx, ry, rz] as sent with a linear move. */
  type Pose = seq<real>

  /** Distance in millimetres within which a click ends the path. */
  const EndToleranceMm: real := 2.0

  /** The square of a real number. */
  function Square(a: real): (sq: real)
  {
    a * a
  }

  /** Square of the Euclidean distance between two points. */
  function SquaredDistance(p: Point, q: Point): (d: real)
  {
    Square(p.0 - q.0) + Square(p.1 - q.1)
  }

  /** Transitivity of < through a product that has been reordered. */
  lemma ProductChain(x: real, y: real, z: real)
    requires x * y < x * z
    requires y * y <= y * x
    ensures y * y < x * z
  {
    assert y * x == x * y;
  }

  /** Multiplying by a positive factor keeps a strict order. */
  lemma ScaleStrict(k: real, b: real, c: real)
    requires k > 0.0 && b < c
    ensures k * b < k * c
  {
    assert k * c - k * b == k * (c - b);
  }

  /** Multiplying by a non-negative factor keeps a weak order. */
  lemma ScaleWeak(k: real, b: real, c: real)
    requires k >= 0.0 && b <= c
    ensures k * b <= k * c
  {
    if k > 0.0 && b < c {
      ScaleStrict(k, b, c);
    }
  }

  /**
   * The proximity test of the click handler, stated on squared distances:
   * the Euclidean distance from p to q is at most tol.
   */
  predicate WithinTolerance(p: Point, q: Point, tol: real)
  {
    SquaredDistance(p, q) <= Square(tol)
  }

  /**
   * Comparing squares is the same as comparing the non-negative values
   * themselves, so the square-root-free test loses nothing.
   */
  lemma SquaresPreserveOrder(r: real, tol: real)
    requires r >= 0.0 && tol >= 0.0
    ensures r <= tol <==> Square(r) <= Square(tol)
  {
    if r <= tol {
      ScaleWeak(r, r, tol);
      ScaleWeak(tol, r, tol);
      assert r * tol == tol * r;
    } else {
      ScaleWeak(tol, tol, r);
      ScaleStrict(r, tol, r);
      ProductChain(r, tol, r);
    }
  }

  /**
   * For any non-negative tolerance, the source's test "sqrt of the squared
   * distance is at most tol" agrees with WithinTolerance: if d is the
   * Euclidean distance (d >= 0 and d * d is the squared distance), then
   * d <= tol exactly when WithinTolerance holds.
   */
  lemma EuclideanTestAgrees(p: Point, q: Point, tol: real, d: real)
    requires tol >= 0.0 && d >= 0.0
    requires Square(d) == SquaredDistance(p, q)
    ensures d <= tol <==> WithinTolerance(p, q, tol)
  {
    SquaresPreserveOrder(d, tol);
  }

  /**
   * The linear pose of a workspace point at height z: millimetres become
   * metres, X changes sign, the z entry is -z, orientation is zero.
   * Reading the pose back with PosePoint gives the point again.
   */
  function LinearPose(p: Point, z: real): (pose: Pose)
    ensures |pose| == 6
    ensures PosePoint(pose) == p
    ensures -pose[2] == z
    ensures pose[3..] == [0.0, 0.0, 0.0]
  {
    [-(p.0 / 1000.0), p.1 / 1000.0, -z, 0.0, 0.0, 0.0]
  }

  /** The workspace point a linear pose was made from (inverse of LinearPose). */
  function PosePoint(pose: Pose): (p: Point)
    requires |pose| >= 2
  {
    (-pose[0] * 1000.0, pose[1] * 1000.0)
  }

  /** Two points give the same pose at the same height only if they are equal. */
  lemma LinearPoseInjective(p: Point, q: Point, z: real, w: real)
    requires LinearPose(p, z) == LinearPose(q, w)
    ensures p == q && z == w
  {
  }
}
