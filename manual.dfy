/** ManualDrivebase: the teleoperated drive behaviour. Each tick it reads the
    driver's controller, moves between sensitivity tiers on bumper edges,
    sends exactly one field-relative velocity command, and handles the pose
    reset (Y) and wheel-lock (X) buttons. */
module Manual {
  import opened Geometry
  import opened Drivebase

  /** One tick's sample of the driver's Xbox controller: the four axes in
      [-1, 1], what is held now, and the edges since the previous tick. */
  datatype Controller = Controller(
    leftX: real, leftY: real, rightX: real, rightY: real,
    yButton: bool,
    xButton: bool, xButtonReleased: bool,
    leftBumper: bool, leftBumperPressed: bool, leftBumperReleased: bool,
    rightBumper: bool, rightBumperPressed: bool, rightBumperReleased: bool)

  /** The behaviour's constants, and the shaping helpers it calls whose
      definitions are not part of this model: `deadzone(value, band)`,
      `spow2(value)` and `atan2Degrees(y, x)` (atan2, in degrees). */
  datatype ManualConfig = ManualConfig(
    defaultDriveSpeed: real, defaultRotateSpeed: real,
    highSensitivityDriveSpeed: real, highSensitivityRotateSpeed: real,
    driverDeadzone: real, turningDeadzone: real,
    deadzone: (real, real) -> real,
    spow2: real -> real,
    atan2Degrees: (real, real) -> real)

  // Acceleration (m/s^2) and voltage (V) limits of the three tiers.
  const LowAcceleration := 3.0
  const LowVoltage := 5.0
  const DefaultAcceleration := 6.0
  const DefaultVoltage := 10.0
  const HighAcceleration := 12.0
  const HighVoltage := 14.0

  /** The speed magnitudes after one bumper block, and the limit commands it sent. */
  datatype Tier = Tier(movement: real, rotation: real, commands: seq<Command>)

  /** The right-bumper block. Its press lowers the limits only: the
      magnitude assignments of the low tier are disabled in the source. */
  function RightBumperBlock(k: ManualConfig, c: Controller, movement: real, rotation: real): Tier {
    if c.rightBumperPressed then
      Tier(movement, rotation, [AccelerationLimit(LowAcceleration), VoltageLimit(LowVoltage)])
    else if c.rightBumperReleased && !c.leftBumper then
      Tier(k.defaultDriveSpeed, k.defaultRotateSpeed,
           [AccelerationLimit(DefaultAcceleration), VoltageLimit(DefaultVoltage)])
    else
      Tier(movement, rotation, [])
  }

  /** The left-bumper block, which runs after the right one. */
  function LeftBumperBlock(k: ManualConfig, c: Controller, movement: real, rotation: real): Tier {
    if c.leftBumperPressed then
      Tier(k.highSensitivityDriveSpeed, k.highSensitivityRotateSpeed,
           [AccelerationLimit(HighAcceleration), VoltageLimit(HighVoltage)])
    else if c.leftBumperReleased && !c.rightBumper then
      Tier(k.defaultDriveSpeed, k.defaultRotateSpeed,
           [AccelerationLimit(DefaultAcceleration), VoltageLimit(DefaultVoltage)])
    else
      Tier(movement, rotation, [])
  }

  /** The sensitivity-tier step of one tick: the right block, then the left. */
  function TierUpdate(k: ManualConfig, c: Controller, movement: real, rotation: real): Tier {
    var right := RightBumperBlock(k, c, movement, rotation);
    var left := LeftBumperBlock(k, c, right.movement, right.rotation);
    Tier(left.movement, left.rotation, right.commands + left.commands)
  }

  predicate RightFires(c: Controller) {
    c.rightBumperPressed || (c.rightBumperReleased && !c.leftBumper)
  }

  predicate LeftFires(c: Controller) {
    c.leftBumperPressed || (c.leftBumperReleased && !c.rightBumper)
  }

  /** The magnitudes of the default or the high-sensitivity tier. */
  predicate InTier(k: ManualConfig, movement: real, rotation: real) {
    (movement == k.defaultDriveSpeed && rotation == k.defaultRotateSpeed) ||
    (movement == k.highSensitivityDriveSpeed && rotation == k.highSensitivityRotateSpeed)
  }

  /** An (acceleration, voltage) pair that one of the three tiers sets. */
  predicate LimitPair(accel: real, volts: real) {
    (accel == LowAcceleration && volts == LowVoltage) ||
    (accel == DefaultAcceleration && volts == DefaultVoltage) ||
    (accel == HighAcceleration && volts == HighVoltage)
  }

  /** Limit commands that come as acceleration-then-voltage pairs of one tier. */
  predicate PairedLimits(cmds: seq<Command>)
    decreases |cmds|
  {
    cmds == [] ||
    (|cmds| >= 2 && cmds[0].AccelerationLimit? && cmds[1].VoltageLimit? &&
     LimitPair(cmds[0].accel, cmds[1].volts) && PairedLimits(cmds[2..]))
  }

  /** Pressing the left bumper selects the high tier, whatever else happened. */
  lemma TierLeftPress(k: ManualConfig, c: Controller, movement: real, rotation: real)
    requires c.leftBumperPressed
    ensures var t := TierUpdate(k, c, movement, rotation);
      t.movement == k.highSensitivityDriveSpeed && t.rotation == k.highSensitivityRotateSpeed &&
      Latest(t.commands, AccelerationOf) == Some(HighAcceleration) &&
      Latest(t.commands, VoltageOf) == Some(HighVoltage)
  {
    var right := RightBumperBlock(k, c, movement, rotation);
    LatestAppend(right.commands, [AccelerationLimit(HighAcceleration), VoltageLimit(HighVoltage)], AccelerationOf);
    LatestAppend(right.commands, [AccelerationLimit(HighAcceleration), VoltageLimit(HighVoltage)], VoltageOf);
  }

  /** Pressing the right bumper lowers the limits and keeps the magnitudes. */
  lemma TierRightPress(k: ManualConfig, c: Controller, movement: real, rotation: real)
    requires c.rightBumperPressed && !LeftFires(c)
    ensures TierUpdate(k, c, movement, rotation) ==
      Tier(movement, rotation, [AccelerationLimit(LowAcceleration), VoltageLimit(LowVoltage)])
  {
    assert [AccelerationLimit(LowAcceleration), VoltageLimit(LowVoltage)] + [] ==
      [AccelerationLimit(LowAcceleration), VoltageLimit(LowVoltage)];
  }

  /** Releasing one bumper restores the default tier when the other bumper is
      not held, and changes nothing while it is held. The left block runs
      second, so a left release with the right bumper up ends the tick in the
      default tier whatever the right block did. */
  lemma TierRelease(k: ManualConfig, c: Controller, movement: real, rotation: real)
    ensures var t := TierUpdate(k, c, movement, rotation);
      (c.rightBumperReleased && !c.rightBumperPressed && !LeftFires(c) ==>
        t == if c.leftBumper then Tier(movement, rotation, [])
             else Tier(k.defaultDriveSpeed, k.defaultRotateSpeed,
                       [AccelerationLimit(DefaultAcceleration), VoltageLimit(DefaultVoltage)])) &&
      (c.leftBumperReleased && !c.leftBumperPressed && !RightFires(c) ==>
        t == if c.rightBumper then Tier(movement, rotation, [])
             else Tier(k.defaultDriveSpeed, k.defaultRotateSpeed,
                       [AccelerationLimit(DefaultAcceleration), VoltageLimit(DefaultVoltage)])) &&
      (c.leftBumperReleased && !c.leftBumperPressed && !c.rightBumper ==>
        t.movement == k.defaultDriveSpeed && t.rotation == k.defaultRotateSpeed &&
        Latest(t.commands, AccelerationOf) == Some(DefaultAcceleration) &&
        Latest(t.commands, VoltageOf) == Some(DefaultVoltage))
  {
    var d := [AccelerationLimit(DefaultAcceleration), VoltageLimit(DefaultVoltage)];
    assert d + [] == d && [] + d == d;
    var right := RightBumperBlock(k, c, movement, rotation);
    LatestAppend(right.commands, d, AccelerationOf);
    LatestAppend(right.commands, d, VoltageOf);
  }

  /** Without a bumper edge that fires, nothing about the tier changes. */
  lemma TierQuiet(k: ManualConfig, c: Controller, movement: real, rotation: real)
    requires !RightFires(c) && !LeftFires(c)
    ensures TierUpdate(k, c, movement, rotation) == Tier(movement, rotation, [])
  {
  }

  /** The magnitudes only ever take the default or the high tier's values. */
  lemma TierKeepsTier(k: ManualConfig, c: Controller, movement: real, rotation: real)
    requires InTier(k, movement, rotation)
    ensures var t := TierUpdate(k, c, movement, rotation); InTier(k, t.movement, t.rotation)
  {
  }

  lemma {:induction false} PairedLimitsAppend(a: seq<Command>, b: seq<Command>)
    requires PairedLimits(a) && PairedLimits(b)
    ensures PairedLimits(a + b)
    decreases |a|
  {
    if a != [] {
      assert (a + b)[2..] == a[2..] + b;
      PairedLimitsAppend(a[2..], b);
    } else {
      assert a + b == b;
    }
  }

  /** The acceleration and voltage limits are always commanded together, as
      the pair of one tier. */
  lemma TierLimitsPaired(k: ManualConfig, c: Controller, movement: real, rotation: real)
    ensures PairedLimits(TierUpdate(k, c, movement, rotation).commands)
  {
    var right := RightBumperBlock(k, c, movement, rotation);
    var left := LeftBumperBlock(k, c, right.movement, right.rotation);
    assert PairedLimits(right.commands) by {
      if right.commands != [] { assert right.commands[2..] == []; }
    }
    assert PairedLimits(left.commands) by {
      if left.commands != [] { assert left.commands[2..] == []; }
    }
    PairedLimitsAppend(right.commands, left.commands);
  }

  /** After any sequence of paired limit commands, the acceleration and voltage
      limits in force belong to the same tier. */
  lemma {:induction false} PairedLimitsAgree(log: seq<Command>, cmds: seq<Command>)
    requires PairedLimits(cmds) && cmds != []
    ensures Latest(log + cmds, AccelerationOf).Some? && Latest(log + cmds, VoltageOf).Some?
    ensures LimitPair(Latest(log + cmds, AccelerationOf).value, Latest(log + cmds, VoltageOf).value)
    decreases |cmds|
  {
    var rest := cmds[2..];
    assert log + cmds == (log + cmds[..2]) + rest;
    if rest == [] {
      assert log + cmds == log + [cmds[0], cmds[1]];
      LatestAppend(log, [cmds[0], cmds[1]], AccelerationOf);
      LatestAppend(log, [cmds[0], cmds[1]], VoltageOf);
    } else {
      PairedLimitsAgree(log + cmds[..2], rest);
    }
  }

  /** Pressing the low tier, then the high tier, then releasing the low tier
      while the high one is held leaves the high tier in force. */
  lemma TierScenario(k: ManualConfig, c1: Controller, c2: Controller, c3: Controller, movement: real, rotation: real)
    requires c1.rightBumperPressed && !LeftFires(c1)
    requires c2.leftBumperPressed && c2.rightBumper && !c2.rightBumperPressed && !c2.rightBumperReleased
    requires c3.rightBumperReleased && c3.leftBumper && !c3.rightBumperPressed &&
             !c3.leftBumperPressed && !c3.leftBumperReleased
    ensures var t1 := TierUpdate(k, c1, movement, rotation);
      var t2 := TierUpdate(k, c2, t1.movement, t1.rotation);
      var t3 := TierUpdate(k, c3, t2.movement, t2.rotation);
      var log := t1.commands + t2.commands + t3.commands;
      t3.movement == k.highSensitivityDriveSpeed && t3.rotation == k.highSensitivityRotateSpeed &&
      Latest(log, AccelerationOf) == Some(HighAcceleration) &&
      Latest(log, VoltageOf) == Some(HighVoltage)
  {
    var t1 := TierUpdate(k, c1, movement, rotation);
    var t2 := TierUpdate(k, c2, t1.movement, t1.rotation);
    TierLeftPress(k, c2, t1.movement, t1.rotation);
    TierRelease(k, c3, t2.movement, t2.rotation);
    var t3 := TierUpdate(k, c3, t2.movement, t2.rotation);
    assert t3.commands == [];
    assert t1.commands + t2.commands + t3.commands == t1.commands + t2.commands;
    LatestAppend(t1.commands, t2.commands, AccelerationOf);
    LatestAppend(t1.commands, t2.commands, VoltageOf);
  }

  /** `sqrt(x*x + y*y) < band`, without the square root. */
  predicate InTurnDeadzone(band: real, x: real, y: real) {
    0.0 < band && x * x + y * y < band * band
  }

  /** CalculateRequestedAngle: the stick direction as a heading, or the
      current heading when the (possibly zeroed) stick is at rest. */
  function StickAngle(k: ManualConfig, joystickX: real, joystickY: real, heading: real): real {
    if joystickX == 0.0 && joystickY == 0.0 then heading
    else k.atan2Degrees(joystickY, -joystickX) + 90.0
  }

  /** The requested heading of a tick: a right stick inside the turning
      deadzone is zeroed first. */
  function RequestedAngle(k: ManualConfig, rightX: real, rightY: real, heading: real): (r: real)
    ensures InTurnDeadzone(k.turningDeadzone, rightX, rightY) ==> r == heading
    ensures rightX == 0.0 && rightY == 0.0 ==> r == heading
    ensures !InTurnDeadzone(k.turningDeadzone, rightX, rightY) && (rightX != 0.0 || rightY != 0.0) ==>
      r == k.atan2Degrees(rightY, -rightX) + 90.0
  {
    if InTurnDeadzone(k.turningDeadzone, rightX, rightY) then StickAngle(k, 0.0, 0.0, heading)
    else StickAngle(k, rightX, rightY, heading)
  }

  /** The shaped stick inputs scaled by the tier's magnitudes. */
  function DriveVelocity(k: ManualConfig, c: Controller, movement: real, rotation: real): FieldSpeeds {
    FieldSpeeds(
      k.spow2(-k.deadzone(c.leftY, k.driverDeadzone)) * movement,
      k.spow2(-k.deadzone(c.leftX, k.driverDeadzone)) * movement,
      k.spow2(-k.deadzone(c.rightX, k.turningDeadzone)) * rotation)
  }

  function ResetCommands(c: Controller): seq<Command> {
    if c.yButton then [PoseReset(Origin)] else []
  }

  function StanceCommands(c: Controller): seq<Command> {
    if c.xButton then [XWheelStance] else if c.xButtonReleased then [Idle] else []
  }

  /** Every command one manual tick sends, in order, given the tick's tier step `t`. */
  function ManualCommands(k: ManualConfig, c: Controller, t: Tier): seq<Command> {
    ResetCommands(c) + t.commands + [FieldVelocity(DriveVelocity(k, c, t.movement, t.rotation))] + StanceCommands(c)
  }

  /** A manual tick sends exactly one field-relative velocity command, even a
      zero one, scaled by the magnitudes of the tier that the tick ends in. */
  lemma ManualOneVelocity(k: ManualConfig, c: Controller, movement: real, rotation: real)
    ensures VelocityCount(ManualCommands(k, c, TierUpdate(k, c, movement, rotation))) == 1
    ensures var t := TierUpdate(k, c, movement, rotation);
      FieldVelocity(DriveVelocity(k, c, t.movement, t.rotation)) in ManualCommands(k, c, TierUpdate(k, c, movement, rotation))
  {
    var t := TierUpdate(k, c, movement, rotation);
    var v := [FieldVelocity(DriveVelocity(k, c, t.movement, t.rotation))];
    TierLimitsPaired(k, c, movement, rotation);
    NoVelocityInLimits(t.commands);
    VelocityCountAppend(ResetCommands(c), t.commands);
    VelocityCountAppend(ResetCommands(c) + t.commands, v);
    VelocityCountAppend(ResetCommands(c) + t.commands + v, StanceCommands(c));
    var cmds := ResetCommands(c) + t.commands + v + StanceCommands(c);
    assert cmds[|ResetCommands(c) + t.commands|] == v[0];
  }

  lemma {:induction false} NoVelocityInLimits(cmds: seq<Command>)
    requires PairedLimits(cmds)
    ensures VelocityCount(cmds) == 0
    decreases |cmds|
  {
    if cmds != [] {
      NoVelocityInLimits(cmds[2..]);
      assert cmds == cmds[..2] + cmds[2..];
      VelocityCountAppend(cmds[..2], cmds[2..]);
    }
  }

  /** Holding X ends the tick with the X-wheel stance; releasing X ends it
      with idle; otherwise the velocity command is the last one. */
  lemma ManualStance(k: ManualConfig, c: Controller, movement: real, rotation: real)
    ensures var cmds := ManualCommands(k, c, TierUpdate(k, c, movement, rotation));
      var t := TierUpdate(k, c, movement, rotation);
      cmds[|cmds| - 1] ==
        if c.xButton then XWheelStance
        else if c.xButtonReleased then Idle
        else FieldVelocity(DriveVelocity(k, c, t.movement, t.rotation))
  {
  }

  /** The pose is reset to the origin on exactly the ticks Y is held, before
      anything else is commanded. */
  lemma ManualReset(k: ManualConfig, c: Controller, movement: real, rotation: real)
    ensures var cmds := ManualCommands(k, c, TierUpdate(k, c, movement, rotation));
      (PoseReset(Origin) in cmds <==> c.yButton) && (c.yButton ==> cmds[0] == PoseReset(Origin))
  {
    var t := TierUpdate(k, c, movement, rotation);
    var cmds := ManualCommands(k, c, TierUpdate(k, c, movement, rotation));
    TierLimitsPaired(k, c, movement, rotation);
    NoResetInLimits(t.commands);
    if !c.yButton {
      assert cmds == t.commands + [FieldVelocity(DriveVelocity(k, c, t.movement, t.rotation))] + StanceCommands(c);
    }
  }

  lemma {:induction false} NoResetInLimits(cmds: seq<Command>)
    requires PairedLimits(cmds)
    ensures forall i :: 0 <= i < |cmds| ==> !cmds[i].PoseReset?
    decreases |cmds|
  {
    if cmds != [] {
      NoResetInLimits(cmds[2..]);
      assert forall i :: 2 <= i < |cmds| ==> cmds[i] == cmds[2..][i - 2];
    }
  }

  /** The limits a manual tick leaves in force are those its tier step set. */
  lemma ManualLimits(k: ManualConfig, c: Controller, movement: real, rotation: real, log: seq<Command>)
    ensures var t := TierUpdate(k, c, movement, rotation);
      var after := log + ManualCommands(k, c, TierUpdate(k, c, movement, rotation));
      Latest(after, AccelerationOf) == Latest(log + t.commands, AccelerationOf) &&
      Latest(after, VoltageOf) == Latest(log + t.commands, VoltageOf)
  {
    var t := TierUpdate(k, c, movement, rotation);
    ManualLimitsFor(k, c, t, log, AccelerationOf);
    ManualLimitsFor(k, c, t, log, VoltageOf);
  }

  /** `field` reads only limit commands. */
  ghost predicate ReadsLimitsOnly(field: Command -> Option<real>) {
    forall x :: field(x).Some? ==> x.AccelerationLimit? || x.VoltageLimit?
  }

  lemma LatestOfNoLimits(cmds: seq<Command>, field: Command -> Option<real>)
    requires ReadsLimitsOnly(field)
    requires forall i :: 0 <= i < |cmds| ==> !cmds[i].AccelerationLimit? && !cmds[i].VoltageLimit?
    ensures Latest(cmds, field) == None
  {
  }

  lemma ManualLimitsFor(k: ManualConfig, c: Controller, t: Tier, log: seq<Command>,
                        field: Command -> Option<real>)
    requires ReadsLimitsOnly(field)
    ensures Latest(log + ManualCommands(k, c, t), field) == Latest(log + t.commands, field)
  {
    var tail := [FieldVelocity(DriveVelocity(k, c, t.movement, t.rotation))] + StanceCommands(c);
    LatestOfNoLimits(tail, field);
    LatestOfNoLimits(ResetCommands(c), field);
    ManualCommandsSplit(k, c, t, log);
    LatestSkips(log, ResetCommands(c), t.commands, tail, field);
  }

  /** The commands of a tick: reset, tier limits, and the velocity and stance tail. */
  lemma ManualCommandsSplit(k: ManualConfig, c: Controller, t: Tier, log: seq<Command>)
    ensures log + ManualCommands(k, c, t) ==
      log + ResetCommands(c) + t.commands + ([FieldVelocity(DriveVelocity(k, c, t.movement, t.rotation))] + StanceCommands(c))
  {
  }

  /** Commands that set no limit, before or after a batch, do not change
      which limit is in force. */
  lemma LatestSkips(log: seq<Command>, before: seq<Command>, batch: seq<Command>, after: seq<Command>,
                    field: Command -> Option<real>)
    requires Latest(before, field) == None && Latest(after, field) == None
    ensures Latest(log + before + batch + after, field) == Latest(log + batch, field)
  {
    LatestAppend(log + before + batch, after, field);
    LatestAppend(log + before, batch, field);
    LatestAppend(log, before, field);
    LatestAppend(log, batch, field);
  }

  class ManualDrivebase {
    const drivebase: SwerveDrive
    const config: ManualConfig
    var maxMovementMagnitude: real
    var maxRotationMagnitude: real
    var requestedAngle: real
    var done: bool

    constructor (drivebase: SwerveDrive, config: ManualConfig, maxMovementMagnitude: real, maxRotationMagnitude: real)
      ensures this.drivebase == drivebase && this.config == config
      ensures this.maxMovementMagnitude == maxMovementMagnitude
      ensures this.maxRotationMagnitude == maxRotationMagnitude
      ensures !done
    {
      this.drivebase := drivebase;
      this.config := config;
      this.maxMovementMagnitude := maxMovementMagnitude;
      this.maxRotationMagnitude := maxRotationMagnitude;
      requestedAngle := 0.0;
      done := false;
    }

    method OnTick(c: Controller)
      modifies this, drivebase
      ensures drivebase.log == old(drivebase.log) +
        ManualCommands(config, c, TierUpdate(config, c, old(maxMovementMagnitude), old(maxRotationMagnitude)))
      ensures var t := TierUpdate(config, c, old(maxMovementMagnitude), old(maxRotationMagnitude));
        maxMovementMagnitude == t.movement && maxRotationMagnitude == t.rotation
      ensures drivebase.pose == if c.yButton then Origin else old(drivebase.pose)
      ensures drivebase.atSetPose == old(drivebase.atSetPose)
      ensures requestedAngle == RequestedAngle(config, c.rightX, c.rightY, drivebase.pose.heading)
      ensures done == old(done)
    {
      ghost var before := drivebase.log;
      if c.yButton {
        drivebase.ResetPose(Origin);
      }
      ghost var afterReset := drivebase.log;
      UpdateSensitivity(c);
      ghost var t := TierUpdate(config, c, old(maxMovementMagnitude), old(maxRotationMagnitude));
      ghost var afterTier := drivebase.log;
      UpdateRequestedAngle(c.rightX, c.rightY);
      DriveFieldRelative(c);
      ghost var afterVelocity := drivebase.log;
      UpdateStance(c);
      ManualCommandsSplit(config, c, t, before);
      assert afterReset == before + ResetCommands(c);
      assert afterTier == afterReset + t.commands;
      assert afterVelocity == afterTier + [FieldVelocity(DriveVelocity(config, c, t.movement, t.rotation))];
    }

    /** Shapes the sticks and sends the field-relative velocity, scaled by the
        current magnitudes. */
    method DriveFieldRelative(c: Controller)
      modifies drivebase
      ensures drivebase.log == old(drivebase.log) +
        [FieldVelocity(DriveVelocity(config, c, maxMovementMagnitude, maxRotationMagnitude))]
      ensures drivebase.pose == old(drivebase.pose) && drivebase.atSetPose == old(drivebase.atSetPose)
    {
      var xVelocity := config.spow2(-config.deadzone(c.leftY, config.driverDeadzone));
      var yVelocity := config.spow2(-config.deadzone(c.leftX, config.driverDeadzone));
      var rX := config.spow2(-config.deadzone(c.rightX, config.turningDeadzone));
      assert FieldSpeeds(xVelocity * maxMovementMagnitude, yVelocity * maxMovementMagnitude, rX * maxRotationMagnitude)
        == DriveVelocity(config, c, maxMovementMagnitude, maxRotationMagnitude);
      drivebase.SetFieldRelativeVelocity(FieldSpeeds(
        xVelocity * maxMovementMagnitude,
        yVelocity * maxMovementMagnitude,
        rX * maxRotationMagnitude));
    }

    /** The two bumper blocks of a tick: the sensitivity-tier step. */
    method UpdateSensitivity(c: Controller)
      modifies this`maxMovementMagnitude, this`maxRotationMagnitude, drivebase
      ensures var t := TierUpdate(config, c, old(maxMovementMagnitude), old(maxRotationMagnitude));
        maxMovementMagnitude == t.movement && maxRotationMagnitude == t.rotation &&
        drivebase.log == old(drivebase.log) + t.commands
      ensures drivebase.pose == old(drivebase.pose) && drivebase.atSetPose == old(drivebase.atSetPose)
    {
      if c.rightBumperPressed {
        drivebase.SetAccelerationLimit(LowAcceleration);
        drivebase.SetVoltageLimit(LowVoltage);
      } else if c.rightBumperReleased && !c.leftBumper {
        maxMovementMagnitude := config.defaultDriveSpeed;
        maxRotationMagnitude := config.defaultRotateSpeed;
        drivebase.SetAccelerationLimit(DefaultAcceleration);
        drivebase.SetVoltageLimit(DefaultVoltage);
      }

      if c.leftBumperPressed {
        maxMovementMagnitude := config.highSensitivityDriveSpeed;
        maxRotationMagnitude := config.highSensitivityRotateSpeed;
        drivebase.SetAccelerationLimit(HighAcceleration);
        drivebase.SetVoltageLimit(HighVoltage);
      } else if c.leftBumperReleased && !c.rightBumper {
        maxMovementMagnitude := config.defaultDriveSpeed;
        maxRotationMagnitude := config.defaultRotateSpeed;
        drivebase.SetAccelerationLimit(DefaultAcceleration);
        drivebase.SetVoltageLimit(DefaultVoltage);
      }
    }

    /** Zeroes a right stick inside the turning deadzone, then computes the
        requested heading from it. */
    method UpdateRequestedAngle(rightX: real, rightY: real)
      modifies this`requestedAngle
      ensures requestedAngle == RequestedAngle(config, rightX, rightY, drivebase.pose.heading)
    {
      var turnX, turnY := rightX, rightY;
      if InTurnDeadzone(config.turningDeadzone, turnX, turnY) {
        turnX, turnY := 0.0, 0.0;
      }
      var currentAngle := drivebase.pose.heading;
      CalculateRequestedAngle(turnX, turnY, currentAngle);
    }

    /** X held locks the wheels; X released returns them to idle. */
    method UpdateStance(c: Controller)
      modifies drivebase
      ensures drivebase.log == old(drivebase.log) + StanceCommands(c)
      ensures drivebase.pose == old(drivebase.pose) && drivebase.atSetPose == old(drivebase.atSetPose)
    {
      if c.xButton {
        LockWheels();
      } else if c.xButtonReleased {
        drivebase.SetIdle();
      }
    }

    /** Turns every wheel to the X stance. */
    method LockWheels()
      modifies drivebase
      ensures drivebase.log == old(drivebase.log) + [XWheelStance]
      ensures drivebase.pose == old(drivebase.pose) && drivebase.atSetPose == old(drivebase.atSetPose)
    {
      drivebase.SetXWheelState();
    }

    /** Sets the requested heading from the stick; `defaultAngle` is accepted
        but not used: the current heading is read from the drivebase again. */
    method CalculateRequestedAngle(joystickX: real, joystickY: real, defaultAngle: real)
      modifies this`requestedAngle
      ensures requestedAngle == StickAngle(config, joystickX, joystickY, drivebase.pose.heading)
    {
      requestedAngle := config.atan2Degrees(joystickY, -joystickX) + 90.0;
      if joystickX == 0.0 && joystickY == 0.0 {
        requestedAngle := drivebase.pose.heading;
      }
    }
  }
}
