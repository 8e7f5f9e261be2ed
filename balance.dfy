/** DrivebaseBalance and XDrivebase: two behaviours that command the
    drivebase on every tick and never finish by themselves. */
module Balance {
  import opened Drivebase

  /** Levels the robot on the charge station with one PID loop per tilt axis. */
  class DrivebaseBalance {
    const drivebase: SwerveDrive
    var done: bool

    constructor (drivebase: SwerveDrive)
      ensures this.drivebase == drivebase && !done
    {
      this.drivebase := drivebase;
      done := false;
    }

    /** `pitch` and `roll` are this tick's gyro readings; `lateralPid` and
        `sidewaysPid` are the two PID controllers' responses this tick (their
        internal state is not part of this model). The roll loop is fed the
        negated roll, both outputs are negated before they are sent, and no
        rotation is commanded. */
    method OnTick(pitch: real, roll: real, lateralPid: real -> real, sidewaysPid: real -> real)
      modifies drivebase
      ensures drivebase.log == old(drivebase.log) +
        [ChassisVelocity(ChassisSpeeds(-lateralPid(pitch), -sidewaysPid(-roll), 0.0))]
      ensures drivebase.pose == old(drivebase.pose) && drivebase.atSetPose == old(drivebase.atSetPose)
      ensures done == old(done)
    {
      var lateralMotorSpeed := lateralPid(pitch);
      var sidewaysMotorSpeed := sidewaysPid(-roll);
      drivebase.SetVelocity(ChassisSpeeds(-lateralMotorSpeed, -sidewaysMotorSpeed, 0.0));
    }
  }

  /** Holds the wheels in the X stance. */
  class XDrivebase {
    const drivebase: SwerveDrive
    var done: bool

    constructor (drivebase: SwerveDrive)
      ensures this.drivebase == drivebase && !done
    {
      this.drivebase := drivebase;
      done := false;
    }

    method OnTick()
      modifies drivebase
      ensures drivebase.log == old(drivebase.log) + [XWheelStance]
      ensures drivebase.pose == old(drivebase.pose) && drivebase.atSetPose == old(drivebase.atSetPose)
      ensures done == old(done)
    {
      drivebase.SetXWheelState();
    }
  }
}
