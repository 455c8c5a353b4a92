/**
 * Trajectory synthesis of the drawing application: the finished path becomes
 * the ordered motion program sent to the robot (home, approach, settle, dwell,
 * traversal with blending, last point, dwell, retract, home).
 */
module Trajectory {
  import opened Wrappers
  import opened Geometry

  /** One entry of the motion program: a joint move, a linear move or a pause. */
  datatype Command =
    | Joint(pose: seq<real>, speed: real, accel: real)
    | Linear(pose: Pose, speed: real, accel: real, blend: real)
    | Sleep(secs: real)

  /** Why no program is produced. */
  datatype SynthesisError = EmptyPath

  const LinearSpeedMs: real := 0.15
  const LinearAccelMs: real := 0.5
  const JointSpeedRads: real := 1.6
  const JointAccelRadss: real := 1.6
  /** Height of the tool above the plane while drawing, in metres. */
  const HoverHeightM: real := 0.010
  /** Extra height of the approach and retract moves, in metres. */
  const ClearanceM: real := 0.1
  /** Blend radius of the moves through intermediate points, in metres. */
  const MidBlendM: real := 0.005
  /** Length of each dwell, in seconds. */
  const DwellS: real := 1.0

  /** The joint move to the home pose, first and last in every program. */
  function HomeMove(home: seq<real>): (c: Command)
  {
    Joint(home, JointSpeedRads, JointAccelRadss)
  }

  /**
   * The move to or from the clearance height above p, at half the nominal
   * acceleration and without blending. The retract pose is written
   * -hover - 0.1 in the source, which equals -(hover + 0.1).
   */
  function ClearanceMove(p: Point): (c: Command)
  {
    Linear(LinearPose(p, HoverHeightM + ClearanceM), LinearSpeedMs, 0.5 * LinearAccelMs, 0.0)
  }

  /** A move to p at drawing height with the given blend radius. */
  function DrawMove(p: Point, blend: real): (c: Command)
  {
    Linear(LinearPose(p, HoverHeightM), LinearSpeedMs, LinearAccelMs, blend)
  }

  /** The blended moves through the given points, in order. */
  function Traversal(ps: seq<Point>): (cmds: seq<Command>)
  {
    seq(|ps|, k requires 0 <= k < |ps| => DrawMove(ps[k], MidBlendM))
  }

  /** The motion program for a non-empty path. */
  function Program(points: seq<Point>, home: seq<real>): (prog: seq<Command>)
    requires |points| >= 1
    ensures |prog| == |points| + 7
    ensures prog[0] == HomeMove(home) && prog[|prog| - 1] == HomeMove(home)
  {
    var first := points[0];
    var last := points[|points| - 1];
    [HomeMove(home), ClearanceMove(first), DrawMove(first, 0.0), Sleep(DwellS)]
    + Traversal(points[..|points| - 1])
    + [DrawMove(last, 0.0), Sleep(DwellS), ClearanceMove(last), HomeMove(home)]
  }

  /** Synthesis as a value: an empty path is an error, otherwise the program. */
  function Synthesis(points: seq<Point>, home: seq<real>): (r: Result<seq<Command>, SynthesisError>)
  {
    if |points| == 0 then Err(EmptyPath) else Ok(Program(points, home))
  }

  /**
   * Builds the motion program one command at a time, as the robot script is
   * filled. An empty path yields an error and no program.
   */
  method SendToRobot(points: seq<Point>, home: seq<real>) returns (r: Result<seq<Command>, SynthesisError>)
    ensures r == Synthesis(points, home)
  {
    if |points| == 0 {
      return Err(EmptyPath);
    }
    var cmds := [HomeMove(home)];
    var first := points[0];
    cmds := cmds + [ClearanceMove(first)];
    cmds := cmds + [DrawMove(first, 0.0)];
    cmds := cmds + [Sleep(DwellS)];
    var i := 0;
    while i < |points| - 1
      invariant 0 <= i <= |points| - 1
      invariant |cmds| == 4 + i
      invariant cmds[..4] == [HomeMove(home), ClearanceMove(first), DrawMove(first, 0.0), Sleep(DwellS)]
      invariant forall k :: 0 <= k < i ==> cmds[4 + k] == DrawMove(points[k], MidBlendM)
    {
      cmds := cmds + [DrawMove(points[i], MidBlendM)];
      i := i + 1;
    }
    var last := points[|points| - 1];
    cmds := cmds + [DrawMove(last, 0.0)];
    cmds := cmds + [Sleep(DwellS)];
    cmds := cmds + [ClearanceMove(last)];
    cmds := cmds + [HomeMove(home)];
    assert cmds == Program(points, home);
    return Ok(cmds);
  }

  /** The three kinds of program entry. */
  datatype Kind = JointKind | LinearKind | SleepKind

  function KindOf(c: Command): (k: Kind)
  {
    match c
    case Joint(_, _, _) => JointKind
    case Linear(_, _, _, _) => LinearKind
    case Sleep(_) => SleepKind
  }

  /** The number of entries of the given kind. */
  function Count(cmds: seq<Command>, kind: Kind): (n: nat)
    decreases |cmds|
  {
    if cmds == [] then 0
    else Tally(cmds[0], kind) + Count(cmds[1..], kind)
  }

  /** Counting distributes over concatenation. */
  lemma {:induction false} CountConcat(a: seq<Command>, b: seq<Command>, kind: Kind)
    ensures Count(a + b, kind) == Count(a, kind) + Count(b, kind)
    decreases |a|
  {
    if a == [] {
      assert a + b == b;
    } else {
      assert (a + b)[1..] == a[1..] + b;
      CountConcat(a[1..], b, kind);
    }
  }

  /** 1 when c is of the given kind, else 0. */
  function Tally(c: Command, kind: Kind): (n: nat)
  {
    if KindOf(c) == kind then 1 else 0
  }

  /** Counting over a four-entry sequence, entry by entry. */
  lemma CountFour(cs: seq<Command>, kind: Kind)
    requires |cs| == 4
    ensures Count(cs, kind) == Tally(cs[0], kind) + Tally(cs[1], kind) + Tally(cs[2], kind) + Tally(cs[3], kind)
  {
    assert Count(cs, kind) == Tally(cs[0], kind) + Count(cs[1..], kind);
    assert Count(cs[1..], kind) == Tally(cs[1], kind) + Count(cs[2..], kind) by {
      assert cs[1..][1..] == cs[2..];
    }
    assert Count(cs[2..], kind) == Tally(cs[2], kind) + Count(cs[3..], kind) by {
      assert cs[2..][1..] == cs[3..];
    }
    assert Count(cs[3..], kind) == Tally(cs[3], kind) by {
      assert cs[3..][1..] == [];
    }
  }

  /** A traversal consists of linear moves only, one per point. */
  lemma {:induction false} CountTraversal(ps: seq<Point>, kind: Kind)
    ensures Count(Traversal(ps), kind) == if kind == LinearKind then |ps| else 0
    decreases |ps|
  {
    if ps != [] {
      assert Traversal(ps)[1..] == Traversal(ps[1..]);
      CountTraversal(ps[1..], kind);
    }
  }

  /**
   * A path of n points gives n + 7 entries: two joint moves, n + 3 linear
   * moves (approach, settle, n - 1 blended moves, last point, retract) and
   * two dwells.
   */
  lemma ProgramCounts(points: seq<Point>, home: seq<real>)
    requires |points| >= 1
    ensures |Program(points, home)| == |points| + 7
    ensures Count(Program(points, home), JointKind) == 2
    ensures Count(Program(points, home), LinearKind) == |points| + 3
    ensures Count(Program(points, home), SleepKind) == 2
  {
    var first := points[0];
    var last := points[|points| - 1];
    var head := [HomeMove(home), ClearanceMove(first), DrawMove(first, 0.0), Sleep(DwellS)];
    var mid := Traversal(points[..|points| - 1]);
    var tail := [DrawMove(last, 0.0), Sleep(DwellS), ClearanceMove(last), HomeMove(home)];
    assert Program(points, home) == head + mid + tail;
    forall kind: Kind
      ensures Count(Program(points, home), kind)
              == (if kind == LinearKind then |points| + 3 else 2)
    {
      CountConcat(head + mid, tail, kind);
      CountConcat(head, mid, kind);
      CountTraversal(points[..|points| - 1], kind);
      CountFour(head, kind);
      CountFour(tail, kind);
    }
  }

  /**
   * The program entry by entry: home, approach and settle over the first
   * point, a dwell, the blended moves through every point but the last in
   * path order, the last point without blending, a dwell, the retract over
   * the last point, home.
   */
  lemma ProgramLayout(points: seq<Point>, home: seq<real>)
    requires |points| >= 1
    ensures var P, n := Program(points, home), |points|;
      |P| == n + 7
      && P[0] == HomeMove(home) && P[n + 6] == HomeMove(home)
      && P[1] == ClearanceMove(points[0])
      && P[2] == DrawMove(points[0], 0.0)
      && P[3] == Sleep(DwellS)
      && (forall k :: 0 <= k < n - 1 ==> P[4 + k] == DrawMove(points[k], MidBlendM))
      && P[n + 3] == DrawMove(points[n - 1], 0.0)
      && P[n + 4] == Sleep(DwellS)
      && P[n + 5] == ClearanceMove(points[n - 1])
  {
  }

  /**
   * Blend policy: a linear move blends exactly when it is one of the moves
   * through the points before the last, and then with the mid-path radius;
   * every other linear move stops at its target.
   */
  lemma BlendPolicy(points: seq<Point>, home: seq<real>)
    requires |points| >= 1
    ensures var P, n := Program(points, home), |points|;
      forall k :: 0 <= k < |P| && P[k].Linear? ==>
        (P[k].blend > 0.0 <==> 4 <= k < n + 3)
        && (P[k].blend == MidBlendM || P[k].blend == 0.0)
  {
  }

  /**
   * Every linear move travels at the nominal linear speed to a pose made from
   * a point of the path with fixed zero orientation, either at drawing height
   * with nominal acceleration, or at clearance height with half of it and
   * without blending.
   */
  lemma LinearMovesWellFormed(points: seq<Point>, home: seq<real>)
    requires |points| >= 1
    ensures var P := Program(points, home);
      forall k :: 0 <= k < |P| && P[k].Linear? ==>
        P[k].speed == LinearSpeedMs
        && |P[k].pose| == 6
        && P[k].pose[3..] == [0.0, 0.0, 0.0]
        && PosePoint(P[k].pose) in points
        && ((P[k].pose[2] == -HoverHeightM && P[k].accel == LinearAccelMs)
            || (P[k].pose[2] == -(HoverHeightM + ClearanceM) && P[k].accel == 0.5 * LinearAccelMs
                && P[k].blend == 0.0))
  {
  }

  /**
   * The moves at drawing height after the first dwell, read back as workspace
   * points, are exactly the path, in order: the tool traces every point once.
   */
  lemma DrawingVisitsPathInOrder(points: seq<Point>, home: seq<real>)
    requires |points| >= 1
    ensures var P, n := Program(points, home), |points|;
      (forall k :: 4 <= k < n + 4 ==> P[k].Linear? && |P[k].pose| == 6 && P[k].pose[2] == -HoverHeightM)
      && seq(n, k requires 0 <= k < n => PosePoint(Program(points, home)[4 + k].pose)) == points
  {
  }

  /** Joint moves and dwells appear exactly at the ends and after the settle and last moves. */
  lemma JointAndSleepPositions(points: seq<Point>, home: seq<real>)
    requires |points| >= 1
    ensures var P, n := Program(points, home), |points|;
      (forall k :: 0 <= k < |P| ==> (P[k].Joint? <==> k == 0 || k == n + 6))
      && (forall k :: 0 <= k < |P| ==> (P[k].Sleep? <==> k == 3 || k == n + 4))
      && (forall k :: 0 <= k < |P| && P[k].Joint? ==> P[k] == Joint(home, JointSpeedRads, JointAccelRadss))
      && (forall k :: 0 <= k < |P| && P[k].Sleep? ==> P[k].secs == DwellS)
  {
  }

  /**
   * The settle move and the first blended move target the same pose, so with
   * two or more points the tool is sent to the first point twice.
   */
  lemma FirstPointRepeated(points: seq<Point>, home: seq<real>)
    requires |points| >= 2
    ensures Program(points, home)[2].pose == Program(points, home)[4].pose
  {
  }

  /** A workspace point (150, 75) at drawing height becomes the pose (-0.150, 0.075, -0.010, 0, 0, 0). */
  lemma PoseExample()
    ensures LinearPose((150.0, 75.0), HoverHeightM) == [-0.150, 0.075, -0.010, 0.0, 0.0, 0.0]
  {
  }
}
