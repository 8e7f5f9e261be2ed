/** DrivebasePoseBehaviour: drives to a fixed target pose, recommanding it
    every tick, and finishes on arrival unless told to hold. */
module PoseSeek {
  import opened Geometry
  import opened Drivebase

  /** The heading to command: the current heading's whole turns, plus the
      target heading. The robot does not unwind turns it has already made. */
  function AdjustedHeading(current: real, target: real): (r: real)
    ensures (r - target) / 360.0 == Trunc(current / 360.0) as real
    ensures current >= 0.0 ==> current - 360.0 < r - target <= current
    ensures current < 0.0 ==> current <= r - target < current + 360.0
  {
    current - Fmod360(current) + target
  }

  /** The commands of one tick: the voltage limit, then the target pose with
      its heading adjusted to the current turn. */
  function PoseSeekCommands(target: Pose, voltageLimit: real, currentHeading: real): seq<Command> {
    [VoltageLimit(voltageLimit),
     PoseTarget(Pose(target.x, target.y, AdjustedHeading(currentHeading, target.heading)))]
  }

  /** The termination rule of one tick: once done, done for good; otherwise
      done when the drivebase reports arrival and the behaviour does not hold. */
  function DoneStep(done: bool, atSetPose: bool, hold: bool): bool {
    done || (atSetPose && !hold)
  }

  /** Whether the behaviour is done after ticks whose arrival reports are `arrivals`. */
  function DoneAfter(done: bool, hold: bool, arrivals: seq<bool>): bool
    decreases |arrivals|
  {
    if |arrivals| == 0 then done
    else DoneAfter(DoneStep(done, arrivals[0], hold), hold, arrivals[1..])
  }

  /** Over any run of ticks, the behaviour finishes exactly when it does not
      hold and the drivebase reported arrival on some tick; with `hold` it
      never finishes by itself. */
  lemma {:induction false} DoneAfterRun(done: bool, hold: bool, arrivals: seq<bool>)
    ensures DoneAfter(done, hold, arrivals) <==>
      done || (!hold && exists i :: 0 <= i < |arrivals| && arrivals[i])
    decreases |arrivals|
  {
    if |arrivals| > 0 {
      DoneAfterRun(DoneStep(done, arrivals[0], hold), hold, arrivals[1..]);
      if exists i :: 0 <= i < |arrivals| && arrivals[i] {
        var i :| 0 <= i < |arrivals| && arrivals[i];
        if i > 0 { assert arrivals[1..][i - 1]; }
      }
      if exists i :: 0 <= i < |arrivals[1..]| && arrivals[1..][i] {
        var i :| 0 <= i < |arrivals[1..]| && arrivals[1..][i];
        assert arrivals[i + 1];
      }
    }
  }

  /** Every tick commands the voltage limit and a pose with the target's
      position, whose heading differs from the target's by whole turns. */
  lemma PoseSeekTick(target: Pose, voltageLimit: real, currentHeading: real)
    ensures var cmds := PoseSeekCommands(target, voltageLimit, currentHeading);
      |cmds| == 2 && cmds[0] == VoltageLimit(voltageLimit) && cmds[1].PoseTarget? &&
      cmds[1].target.x == target.x && cmds[1].target.y == target.y &&
      ((cmds[1].target.heading - target.heading) / 360.0).Floor as real ==
        (cmds[1].target.heading - target.heading) / 360.0
  {
  }

  class DrivebasePoseBehaviour {
    const drivebase: SwerveDrive
    const pose: Pose
    const voltageLimit: real
    const hold: bool
    var done: bool

    constructor (drivebase: SwerveDrive, pose: Pose, voltageLimit: real, hold: bool)
      ensures this.drivebase == drivebase && this.pose == pose
      ensures this.voltageLimit == voltageLimit && this.hold == hold
      ensures !done
    {
      this.drivebase := drivebase;
      this.pose := pose;
      this.voltageLimit := voltageLimit;
      this.hold := hold;
      done := false;
    }

    method OnTick()
      modifies this, drivebase
      ensures drivebase.log == old(drivebase.log) + PoseSeekCommands(pose, voltageLimit, old(drivebase.pose.heading))
      ensures drivebase.pose == old(drivebase.pose) && drivebase.atSetPose == old(drivebase.atSetPose)
      ensures done == DoneStep(old(done), drivebase.atSetPose, hold)
    {
      var currentAngle := drivebase.pose.heading;
      var adjustedAngle := currentAngle - Fmod360(currentAngle) + pose.heading;
      drivebase.SetVoltageLimit(voltageLimit);
      drivebase.SetPose(Pose(pose.x, pose.y, adjustedAngle));

      if drivebase.atSetPose && !hold {
        done := true;
      }
    }
  }
}
