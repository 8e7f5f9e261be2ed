/** AlignDrivebaseToNearestGrid: when the camera sees fiducial targets, picks
    a scoring position from a fixed table of grid poses, steps one position
    left or right if asked, and, when that position lies close enough to the
    field origin, commands the drivebase towards it. */
module Align {
  import opened Geometry
  import opened Drivebase

  /** The grid-pose table holds two runs of nine adjacent positions. */
  const GridCount := 18
  const RunLength := 9

  /** The alignment heading: 180 degrees when the C remainder of the heading
      by 360 lies in (90, 270], otherwise 0 degrees. */
  function AlignAngle(heading: real): (r: real)
    ensures r == 0.0 || r == 180.0
    ensures r == 180.0 <==> 90.0 < Fmod360(heading) <= 270.0
  {
    var angle := Fmod360(heading);
    if 90.0 < angle && angle <= 270.0 then 180.0 else 0.0
  }

  /** A heading of zero or below always aligns to 0 degrees: the remainder of
      a negative heading is never positive, so a heading of -135 degrees,
      which faces backwards, still aligns forwards. */
  lemma AlignAngleNonPositive(heading: real)
    requires heading <= 0.0
    ensures AlignAngle(heading) == 0.0
  {
  }

  /** Within the first turn, 180 degrees is chosen exactly on (90, 270]. */
  lemma AlignAngleFirstTurn(heading: real)
    requires 0.0 <= heading < 360.0
    ensures AlignAngle(heading) == 180.0 <==> 90.0 < heading <= 270.0
  {
    Fmod360FirstTurn(heading);
  }

  /** For non-negative headings the choice repeats every whole turn; so 450
      degrees aligns like 90 degrees, to 0. */
  lemma {:induction false} AlignAngleWholeTurns(heading: real, turns: nat)
    requires heading >= 0.0
    ensures AlignAngle(heading + 360.0 * turns as real) == AlignAngle(heading)
    decreases turns
  {
    if turns > 0 {
      var h := heading + 360.0 * (turns - 1) as real;
      AlignAngleWholeTurns(heading, turns - 1);
      Fmod360AddTurn(h);
      assert h + 360.0 == heading + 360.0 * turns as real;
    }
  }

  /** The index the grid scan holds after examining the first `n` candidates.
      A candidate replaces the current best when its squared distance from
      the robot is strictly below the current best's squared distance from
      the field origin (not from the robot). */
  function ScanIndex(table: seq<Pose>, current: Pose, n: nat): (r: nat)
    requires 0 < |table| && n <= |table|
    ensures r < |table|
    ensures n > 0 ==> r < n
    decreases n
  {
    if n == 0 then 0
    else
      var best := ScanIndex(table, current, n - 1);
      if SqDist(current, table[n - 1]) < SqNorm(table[best]) then n - 1 else best
  }

  /** The grid scan over the whole table, as a loop over the candidates. */
  method NearestGrid(table: seq<Pose>, current: Pose) returns (nearestGrid: Pose, poseIndex: nat)
    requires 0 < |table|
    ensures poseIndex == ScanIndex(table, current, |table|)
    ensures poseIndex < |table| && nearestGrid == table[poseIndex]
  {
    nearestGrid := table[0];
    poseIndex := 0;
    var iterationNum := 0;
    while iterationNum < |table|
      invariant 0 <= iterationNum <= |table|
      invariant poseIndex == ScanIndex(table, current, iterationNum)
      invariant nearestGrid == table[poseIndex]
    {
      var pose := table[iterationNum];
      var distance := SqDist(current, pose);
      if distance < SqNorm(nearestGrid) {
        nearestGrid := pose;
        poseIndex := iterationNum;
      }
      iterationNum := iterationNum + 1;
    }
  }

  /** No candidate examined after the final index came within the final
      best's distance from the origin. */
  lemma {:induction false} ScanLaterNotCloser(table: seq<Pose>, current: Pose, n: nat)
    requires 0 < |table| && n <= |table|
    ensures forall j :: ScanIndex(table, current, n) < j < n ==>
      SqNorm(table[ScanIndex(table, current, n)]) <= SqDist(current, table[j])
    decreases n
  {
    if n > 0 {
      ScanLaterNotCloser(table, current, n - 1);
    }
  }

  /** The scan keeps index 0 exactly when no later candidate is strictly
      closer to the robot than the first table entry is to the origin (the
      first candidate is compared with itself and never moves the index). */
  lemma {:induction false} ScanStaysAtFirst(table: seq<Pose>, current: Pose, n: nat)
    requires 0 < n <= |table|
    ensures ScanIndex(table, current, n) == 0 <==>
      forall j :: 1 <= j < n ==> SqNorm(table[0]) <= SqDist(current, table[j])
    decreases n
  {
    if n > 1 {
      ScanStaysAtFirst(table, current, n - 1);
    }
  }

  /** `i` is the first of the nearest among the first `n` candidates. */
  ghost predicate FirstNearest(table: seq<Pose>, current: Pose, i: nat, n: nat)
    requires n <= |table|
  {
    i < n &&
    (forall j :: 0 <= j < n ==> SqDist(current, table[i]) <= SqDist(current, table[j])) &&
    (forall j :: 0 <= j < i ==> SqDist(current, table[i]) < SqDist(current, table[j]))
  }

  /** With the robot at the field origin the two distances coincide, and the
      scan is a true nearest-pose search that breaks ties by lowest index. */
  lemma {:induction false} ScanFromOriginIsNearest(table: seq<Pose>, current: Pose, n: nat)
    requires 0 < n <= |table|
    requires current.x == 0.0 && current.y == 0.0
    ensures FirstNearest(table, current, ScanIndex(table, current, n), n)
    decreases n
  {
    SqDistFromOrigin(current, table[n - 1]);
    if n > 1 {
      ScanFromOriginIsNearest(table, current, n - 1);
      SqDistFromOrigin(current, table[ScanIndex(table, current, n - 1)]);
    }
  }

  /** Away from the origin the scan is not a nearest-pose search: when the
      first table entry lies at the field origin the scan keeps index 0
      wherever the robot stands, so it misses any candidate nearer to the
      robot (with the robot at (1, 0) and candidates (0, 0), (5, 0), (1, 0),
      it keeps index 0 although candidate 2 is where the robot stands). */
  lemma ScanIsNotNearest(table: seq<Pose>, current: Pose)
    requires 0 < |table| && table[0].x == 0.0 && table[0].y == 0.0
    ensures ScanIndex(table, current, |table|) == 0
    ensures (exists j :: 0 <= j < |table| && SqDist(current, table[j]) < SqDist(current, table[0])) ==>
      !FirstNearest(table, current, ScanIndex(table, current, |table|), |table|)
  {
    assert SqNorm(table[0]) == 0.0;
    ScanStaysAtFirst(table, current, |table|);
  }

  /** The left/right step from the scanned index. A step is suppressed at the
      first (left) or last (right) position of a run, so it never leaves the
      run of nine it started in. */
  function OffsetIndex(alignType: int, i: nat): (r: nat)
    requires i < GridCount
    ensures r < GridCount && r / RunLength == i / RunLength
    ensures alignType == -1 ==> r == if i % RunLength == 0 then i else i - 1
    ensures alignType == 1 ==> r == if i % RunLength == RunLength - 1 then i else i + 1
    ensures alignType != -1 && alignType != 1 ==> r == i
  {
    if alignType == -1 && i != 0 && i != 9 then i - 1
    else if alignType == 1 && i != 8 && i != 17 then i + 1
    else i
  }

  /** Every command one alignment tick sends. `estimated` is the vision pose
      estimate, `odometry` the drivebase's own pose. */
  function AlignCommands(table: seq<Pose>, alignType: int, alignmentAllowDistance: real,
                         hasTargets: bool, estimated: Pose, odometry: Pose): seq<Command>
    requires |table| == GridCount
  {
    if !hasTargets then []
    else
      var target := table[OffsetIndex(alignType, ScanIndex(table, estimated, |table|))];
      if SqNorm(target) < alignmentAllowDistance then
        [PoseTarget(Pose(odometry.x, target.y, AlignAngle(estimated.heading)))]
      else []
  }

  /** An alignment tick commands at most one pose, and none without vision
      targets. The pose keeps the odometry X, takes its Y from the offset
      target, which lies in the same run as the scanned index and within the
      allowed distance of the origin, and faces the alignment heading of the
      vision estimate, 0 or 180 degrees. */
  lemma AlignTick(table: seq<Pose>, alignType: int, alignmentAllowDistance: real,
                  hasTargets: bool, estimated: Pose, odometry: Pose)
    requires |table| == GridCount
    ensures var cmds := AlignCommands(table, alignType, alignmentAllowDistance, hasTargets, estimated, odometry);
      var scanned := ScanIndex(table, estimated, |table|);
      |cmds| <= 1 &&
      (!hasTargets ==> cmds == []) &&
      (|cmds| == 1 <==> hasTargets && SqNorm(table[OffsetIndex(alignType, scanned)]) < alignmentAllowDistance) &&
      (|cmds| == 1 ==>
        cmds[0] == PoseTarget(Pose(odometry.x, table[OffsetIndex(alignType, scanned)].y,
                                   AlignAngle(estimated.heading))) &&
        cmds[0].PoseTarget? && cmds[0].target.x == odometry.x &&
        (cmds[0].target.heading == 0.0 || cmds[0].target.heading == 180.0) &&
        exists j :: 0 <= j < GridCount && j / RunLength == scanned / RunLength &&
          cmds[0].target.y == table[j].y && SqNorm(table[j]) < alignmentAllowDistance)
  {
    var cmds := AlignCommands(table, alignType, alignmentAllowDistance, hasTargets, estimated, odometry);
    var scanned := ScanIndex(table, estimated, |table|);
    if |cmds| == 1 {
      var j := OffsetIndex(alignType, scanned);
      assert cmds[0].target.y == table[j].y;
    }
  }

  class AlignDrivebaseToNearestGrid {
    const drivebase: SwerveDrive
    const gridPoses: seq<Pose>
    const alignType: int
    const alignmentAllowDistance: real
    var done: bool

    /** `alignType` is -1 for left, 0 for straight ahead, 1 for right. */
    constructor (drivebase: SwerveDrive, gridPoses: seq<Pose>, alignType: int, alignmentAllowDistance: real)
      requires |gridPoses| == GridCount
      ensures this.drivebase == drivebase && this.gridPoses == gridPoses
      ensures this.alignType == alignType && this.alignmentAllowDistance == alignmentAllowDistance
      ensures !done
    {
      this.drivebase := drivebase;
      this.gridPoses := gridPoses;
      this.alignType := alignType;
      this.alignmentAllowDistance := alignmentAllowDistance;
      done := false;
    }

    /** `hasTargets` is whether this tick's camera frame holds fiducial
        targets; `estimated` is the vision pose estimate, read only then. */
    method OnTick(hasTargets: bool, estimated: Pose)
      requires |gridPoses| == GridCount
      modifies drivebase
      ensures drivebase.log == old(drivebase.log) +
        AlignCommands(gridPoses, alignType, alignmentAllowDistance, hasTargets, estimated, old(drivebase.pose))
      ensures drivebase.pose == old(drivebase.pose) && drivebase.atSetPose == old(drivebase.atSetPose)
      ensures done == old(done)
    {
      var currentPose: Pose;
      if !hasTargets {
        currentPose := drivebase.pose;
      } else {
        currentPose := estimated;

        var alignAngle := 0.0;
        var angle := Fmod360(currentPose.heading);
        if 90.0 < angle && angle <= 270.0 {
          alignAngle := 180.0;
        }

        var nearestGrid, poseIndex := NearestGrid(gridPoses, currentPose);

        var targetGridPose := nearestGrid;
        if alignType == -1 {
          if poseIndex != 0 && poseIndex != 9 {
            targetGridPose := gridPoses[poseIndex - 1];
          }
        }
        if alignType == 1 {
          if poseIndex != 8 && poseIndex != 17 {
            targetGridPose := gridPoses[poseIndex + 1];
          }
        }

        if SqNorm(targetGridPose) < alignmentAllowDistance {
          drivebase.SetPose(Pose(drivebase.pose.x, targetGridPose.y, alignAngle));
        }
      }
    }
  }
}
