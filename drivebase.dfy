/** The swerve drivebase as the behaviours see it: a collaborator that
    reports its odometry pose and whether it has reached its pose setpoint,
    and that accepts commands. The model records every command it is given,
    in order, so that a behaviour's tick can be specified by exactly the
    commands it issues. */
module Drivebase {
  import opened Geometry

  datatype Option<T> = None | Some(value: T)

  /** Velocity in the field's fixed frame (m/s, m/s, rotation rate). */
  datatype FieldSpeeds = FieldSpeeds(vx: real, vy: real, omega: real)

  /** Velocity in the robot's own frame (m/s, m/s, rotation rate). */
  datatype ChassisSpeeds = ChassisSpeeds(vx: real, vy: real, omega: real)

  /** One call into the drivebase. */
  datatype Command =
    | FieldVelocity(field: FieldSpeeds)       // SetFieldRelativeVelocity
    | ChassisVelocity(chassis: ChassisSpeeds) // SetVelocity
    | PoseTarget(target: Pose)                // SetPose
    | XWheelStance                            // SetXWheelState
    | Idle                                    // SetIdle
    | AccelerationLimit(accel: real)          // SetAccelerationLimit (m/s^2)
    | VoltageLimit(volts: real)               // SetVoltageLimit (V)
    | PoseReset(reset: Pose)                  // ResetPose

  function AccelerationOf(c: Command): Option<real> {
    if c.AccelerationLimit? then Some(c.accel) else None
  }

  function VoltageOf(c: Command): Option<real> {
    if c.VoltageLimit? then Some(c.volts) else None
  }

  /** The value of the most recent command that `field` recognises: the limit
      in force after the commands of `log`, if any was ever set. */
  function Latest(log: seq<Command>, field: Command -> Option<real>): (r: Option<real>)
    ensures r.Some? <==> exists i :: 0 <= i < |log| && field(log[i]).Some?
    ensures r.Some? ==> exists i :: 0 <= i < |log| && field(log[i]) == r
  {
    if |log| == 0 then None
    else if field(log[|log| - 1]).Some? then field(log[|log| - 1])
    else
      var r := Latest(log[..|log| - 1], field);
      assert forall i :: 0 <= i < |log| - 1 ==> log[..|log| - 1][i] == log[i];
      r
  }

  /** What is set last wins: a later batch of commands overrides an earlier one
      exactly when it sets the limit at all. */
  lemma {:induction false} LatestAppend(a: seq<Command>, b: seq<Command>, field: Command -> Option<real>)
    ensures Latest(a + b, field) == if Latest(b, field).Some? then Latest(b, field) else Latest(a, field)
    decreases |b|
  {
    if |b| == 0 {
      assert a + b == a;
    } else {
      assert (a + b)[..|a + b| - 1] == a + b[..|b| - 1];
      LatestAppend(a, b[..|b| - 1], field);
    }
  }

  /** The number of field-relative velocity commands in a log. */
  function VelocityCount(log: seq<Command>): (n: nat)
    ensures n <= |log|
    ensures n == 0 <==> forall i :: 0 <= i < |log| ==> !log[i].FieldVelocity?
  {
    if |log| == 0 then 0
    else
      var n := VelocityCount(log[..|log| - 1]);
      assert forall i :: 0 <= i < |log| - 1 ==> log[..|log| - 1][i] == log[i];
      n + if log[|log| - 1].FieldVelocity? then 1 else 0
  }

  lemma {:induction false} VelocityCountAppend(a: seq<Command>, b: seq<Command>)
    ensures VelocityCount(a + b) == VelocityCount(a) + VelocityCount(b)
    decreases |b|
  {
    if |b| == 0 {
      assert a + b == a;
    } else {
      assert (a + b)[..|a + b| - 1] == a + b[..|b| - 1];
      VelocityCountAppend(a, b[..|b| - 1]);
    }
  }

  /** The swerve drivebase collaborator. `pose` is what `GetPose()` returns,
      `atSetPose` what `IsAtSetPose()` returns; both are driven by hardware
      the model does not see. `log` holds every command received. */
  class SwerveDrive {
    var pose: Pose
    var atSetPose: bool
    var log: seq<Command>

    constructor (initialPose: Pose, initiallyAtSetPose: bool)
      ensures pose == initialPose && atSetPose == initiallyAtSetPose && log == []
    {
      pose := initialPose;
      atSetPose := initiallyAtSetPose;
      log := [];
    }

    method SetFieldRelativeVelocity(speeds: FieldSpeeds)
      modifies this
      ensures log == old(log) + [FieldVelocity(speeds)]
      ensures pose == old(pose) && atSetPose == old(atSetPose)
    {
      log := log + [FieldVelocity(speeds)];
    }

    method SetVelocity(speeds: ChassisSpeeds)
      modifies this
      ensures log == old(log) + [ChassisVelocity(speeds)]
      ensures pose == old(pose) && atSetPose == old(atSetPose)
    {
      log := log + [ChassisVelocity(speeds)];
    }

    method SetPose(target: Pose)
      modifies this
      ensures log == old(log) + [PoseTarget(target)]
      ensures pose == old(pose) && atSetPose == old(atSetPose)
    {
      log := log + [PoseTarget(target)];
    }

    method SetXWheelState()
      modifies this
      ensures log == old(log) + [XWheelStance]
      ensures pose == old(pose) && atSetPose == old(atSetPose)
    {
      log := log + [XWheelStance];
    }

    method SetIdle()
      modifies this
      ensures log == old(log) + [Idle]
      ensures pose == old(pose) && atSetPose == old(atSetPose)
    {
      log := log + [Idle];
    }

    method SetAccelerationLimit(accel: real)
      modifies this
      ensures log == old(log) + [AccelerationLimit(accel)]
      ensures pose == old(pose) && atSetPose == old(atSetPose)
    {
      log := log + [AccelerationLimit(accel)];
    }

    method SetVoltageLimit(volts: real)
      modifies this
      ensures log == old(log) + [VoltageLimit(volts)]
      ensures pose == old(pose) && atSetPose == old(atSetPose)
    {
      log := log + [VoltageLimit(volts)];
    }

    /** Odometry is re-based: from now on `GetPose()` reports `newPose`. */
    method ResetPose(newPose: Pose)
      modifies this
      ensures log == old(log) + [PoseReset(newPose)]
      ensures pose == newPose && atSetPose == old(atSetPose)
    {
      log := log + [PoseReset(newPose)];
      pose := newPose;
    }
  }
}
