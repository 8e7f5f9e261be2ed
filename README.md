# Swerve drivebase behaviours

A Dafny model of the drivebase behaviours of a 2023 FRC robot
(`SwervebaseBehaviour.cpp`). Each behaviour is an object that the scheduler
ticks repeatedly. On each tick it reads its inputs (driver controller, odometry
pose, gyro, vision result) and issues commands to the swerve-drive
collaborator.

- `geometry.dfy` (module `Geometry`): field poses, squared distances, and C's
  `fmod(x, 360)` written as `x - 360 * trunc(x / 360)`.
- `drivebase.dfy` (module `Drivebase`): the swerve drivebase as the
  behaviours see it. It is a class holding the odometry pose, the "at set
  pose" report and a log of every command received, in order. Each
  behaviour's tick is specified by the exact commands it appends to that log.
  `Latest` reads back the acceleration or voltage limit in force.
- `manual.dfy` (module `Manual`): `ManualDrivebase`. It covers the bumper
  sensitivity tiers, the pose reset on Y, the turning deadzone and requested
  heading, the single field-relative velocity command, and the X-button wheel
  lock and idle.
- `pose_seek.dfy` (module `PoseSeek`): `DrivebasePoseBehaviour`. It keeps the
  current whole turns of the heading, commands the target pose, and finishes
  on arrival unless it holds.
- `balance.dfy` (module `Balance`): `DrivebaseBalance` (two PID loops on pitch
  and roll) and `XDrivebase` (X-wheel stance).
- `align.dfy` (module `Align`): `AlignDrivebaseToNearestGrid`. It scans an
  18-entry grid table, steps one position left or right within a run of
  nine, picks a 0 or 180 degree heading, and commands a pose only within the
  allowed distance of the origin.

The grid scan is modelled as written at `SwervebaseBehaviour.cpp:194`. A
candidate's squared distance from the robot is compared with the current
best's squared distance from the field origin, not from the robot. With the
robot at the origin, this is a true nearest search that breaks ties by lowest
index (`ScanFromOriginIsNearest`). Away from the origin it is not: a first
table entry at the origin pins the result to index 0 wherever the robot is
(`ScanIsNotNearest`). The rest of the model keeps this as-written scan,
because the alignment command depends on it.

Two places where the code decides the behaviour:
- The alignment heading uses C's `fmod`, whose remainder takes the sign of the
  heading. So any heading of zero or below aligns to 0 degrees, even one that
  faces backwards (`AlignAngleNonPositive`).
- The pose reset is checked with `GetYButton()`, so it happens on every tick Y
  is held, not only when Y is first pressed.

Helpers whose definitions are not part of this model are parameters with no
assumed properties: `wom::deadzone`, `wom::spow2`, `atan2` (in degrees) and
the PID controllers' `Calculate`. `Pose2d::RelativeTo` enters only through its
squared norm. Rotating a vector does not change its length, so that norm is
the squared planar distance (`SqDist`). The scan is a `while` loop whose
invariants tie it to the recursive specification `ScanIndex`.

Each tick's commands are also given as a pure function of its inputs, and the
tick methods append exactly those. The lemmas in the table are stated about
these functions:
- `Manual.TierUpdate` is the two bumper blocks (lines 37-59).
- `Manual.ManualCommands` is a whole manual tick (lines 25-96).
- `PoseSeek.PoseSeekCommands` covers lines 119-122.
- `PoseSeek.DoneStep` is the termination test at line 124.
- `Align.AlignCommands` covers the alignment tick (lines 173-229).

## Model

| member | source | states |
|---|---|---|
| Geometry.Fmod360 | src/main/cpp/behaviour/SwervebaseBehaviour.cpp:187 | the remainder of the heading by 360 lies in (-360, 360), takes the heading's sign, and differs from it by a whole number of turns (the truncated quotient) |
| Geometry.Fmod360AddTurn | src/main/cpp/behaviour/SwervebaseBehaviour.cpp:187 | for a non-negative heading, adding one turn leaves the remainder unchanged |
| Geometry.SqDistFromOrigin | src/main/cpp/behaviour/SwervebaseBehaviour.cpp:192-194 | seen from the field origin, a pose's distance from the robot and its distance from the origin coincide |
| Manual.TierLeftPress | src/main/cpp/behaviour/SwervebaseBehaviour.cpp:37-59 | a left-bumper press always ends the tick in the high tier: high magnitudes, acceleration limit 12 and voltage limit 14 in force, whatever the right bumper did |
| Manual.TierRightPress | src/main/cpp/behaviour/SwervebaseBehaviour.cpp:37-41 | a right-bumper press (left block quiet) sends acceleration 3 then voltage 5 and leaves both magnitudes unchanged |
| Manual.TierRelease | src/main/cpp/behaviour/SwervebaseBehaviour.cpp:42-58 | releasing either bumper restores the default magnitudes with acceleration 6 and voltage 10 when the other bumper is not held, and changes nothing while it is held; a left release with the right bumper up ends the tick in the default tier with 6/10 in force whatever the right block did |
| Manual.TierQuiet | src/main/cpp/behaviour/SwervebaseBehaviour.cpp:37-59 | without a firing bumper edge, the magnitudes stay as they were and no limit is sent |
| Manual.TierKeepsTier | src/main/cpp/behaviour/SwervebaseBehaviour.cpp:43-56 | magnitudes that start in the default or high tier stay in one of those two tiers |
| Manual.TierLimitsPaired | src/main/cpp/behaviour/SwervebaseBehaviour.cpp:40-58 | limit commands always come as acceleration-then-voltage pairs of one tier (3/5, 6/10 or 12/14) |
| Manual.PairedLimitsAgree | src/main/cpp/behaviour/SwervebaseBehaviour.cpp:40-58 | after any non-empty run of such pairs, the acceleration and voltage limits in force belong to the same tier |
| Manual.TierScenario | src/main/cpp/behaviour/SwervebaseBehaviour.cpp:37-59 | press right, then press left while holding right, then release right while holding left: the high tier stays in force |
| Manual.RequestedAngle | src/main/cpp/behaviour/SwervebaseBehaviour.cpp:67-76 | a right stick inside the turning deadzone, or at rest, requests the current heading; otherwise the stick's atan2 angle plus 90 degrees |
| Manual.ManualOneVelocity | src/main/cpp/behaviour/SwervebaseBehaviour.cpp:85-89 | every manual tick sends exactly one field-relative velocity, the shaped sticks scaled by the tier the tick ends in |
| Manual.ManualStance | src/main/cpp/behaviour/SwervebaseBehaviour.cpp:91-95 | the last command of a tick is the X stance while X is held, idle when X is released, otherwise the velocity |
| Manual.ManualReset | src/main/cpp/behaviour/SwervebaseBehaviour.cpp:27-30 | a tick resets the pose to the origin exactly when Y is held, and does so before any other command |
| Manual.ManualLimits | src/main/cpp/behaviour/SwervebaseBehaviour.cpp:25-96 | the acceleration and voltage limits a manual tick leaves in force are those set by its bumper blocks |
| Manual.ManualDrivebase.OnTick | src/main/cpp/behaviour/SwervebaseBehaviour.cpp:25-96 | a tick appends reset, tier limits, one velocity and stance commands in source order, moves the magnitudes by the tier step, resets the pose on Y, and sets the requested heading from the post-reset pose |
| Manual.ManualDrivebase.UpdateSensitivity | src/main/cpp/behaviour/SwervebaseBehaviour.cpp:37-59 | the two bumper blocks update the magnitudes and send the limits of the tier step |
| Manual.ManualDrivebase.DriveFieldRelative | src/main/cpp/behaviour/SwervebaseBehaviour.cpp:62-64 | sends the deadzoned, sign-flipped, spow2-shaped sticks scaled by the current magnitudes |
| Manual.ManualDrivebase.UpdateRequestedAngle | src/main/cpp/behaviour/SwervebaseBehaviour.cpp:67-76 | zeroes a right stick inside the deadzone, then requests the heading `RequestedAngle` gives |
| Manual.ManualDrivebase.UpdateStance | src/main/cpp/behaviour/SwervebaseBehaviour.cpp:91-95 | X held locks the wheels; X released (not held) sets idle; otherwise nothing is sent |
| Manual.ManualDrivebase.LockWheels | src/main/cpp/behaviour/SwervebaseBehaviour.cpp:98-101 | sends the X-wheel stance and nothing else |
| Manual.ManualDrivebase.CalculateRequestedAngle | src/main/cpp/behaviour/SwervebaseBehaviour.cpp:103-108 | a stick at rest requests the drivebase's current heading, any other stick its atan2 angle plus 90 degrees; the default-angle argument is ignored |
| PoseSeek.AdjustedHeading | src/main/cpp/behaviour/SwervebaseBehaviour.cpp:119-120 | the commanded heading minus the target heading is the current heading's whole turns, and lies within one turn of the current heading |
| PoseSeek.PoseSeekTick | src/main/cpp/behaviour/SwervebaseBehaviour.cpp:119-122 | every tick sends the voltage limit, then a pose with the target's X and Y whose heading differs from the target's by whole turns |
| PoseSeek.DoneAfterRun | src/main/cpp/behaviour/SwervebaseBehaviour.cpp:124 | over any run of ticks the behaviour finishes exactly when it does not hold and arrival was reported on some tick; with hold it never finishes |
| PoseSeek.DrivebasePoseBehaviour.OnTick | src/main/cpp/behaviour/SwervebaseBehaviour.cpp:118-125 | appends the voltage limit and the adjusted pose target, and sets done exactly when at the set pose without hold |
| Balance.DrivebaseBalance.OnTick | src/main/cpp/behaviour/SwervebaseBehaviour.cpp:136-149 | sends one chassis velocity: negated pitch-PID output, negated output of the roll PID fed the negated roll, zero rotation; never sets done |
| Balance.XDrivebase.OnTick | src/main/cpp/behaviour/SwervebaseBehaviour.cpp:156-158 | sends the X-wheel stance every tick and never sets done |
| Align.AlignAngle | src/main/cpp/behaviour/SwervebaseBehaviour.cpp:186-188 | the alignment heading is 0 or 180, and 180 exactly when the C remainder of the heading by 360 lies in (90, 270] |
| Align.AlignAngleNonPositive | src/main/cpp/behaviour/SwervebaseBehaviour.cpp:187-188 | a heading of zero or below always aligns to 0 |
| Align.AlignAngleFirstTurn | src/main/cpp/behaviour/SwervebaseBehaviour.cpp:187-188 | on [0, 360) the heading aligns to 180 exactly on (90, 270] |
| Align.AlignAngleWholeTurns | src/main/cpp/behaviour/SwervebaseBehaviour.cpp:187-188 | for non-negative headings, adding whole turns does not change the alignment heading |
| Align.ScanIndex | src/main/cpp/behaviour/SwervebaseBehaviour.cpp:190-199 | the scanned index is always a valid table index, and after examining n candidates it is below n |
| Align.NearestGrid | src/main/cpp/behaviour/SwervebaseBehaviour.cpp:184-199 | the scan loop returns the index `ScanIndex` specifies and the table entry at that index |
| Align.ScanLaterNotCloser | src/main/cpp/behaviour/SwervebaseBehaviour.cpp:190-199 | no candidate after the final index is closer to the robot than the final best is to the origin |
| Align.ScanStaysAtFirst | src/main/cpp/behaviour/SwervebaseBehaviour.cpp:184-199 | the index stays 0 exactly when no candidate after the first is strictly closer to the robot than the first entry is to the origin |
| Align.ScanFromOriginIsNearest | src/main/cpp/behaviour/SwervebaseBehaviour.cpp:190-199 | with the robot at the origin, the scan returns the first of the nearest candidates |
| Align.ScanIsNotNearest | src/main/cpp/behaviour/SwervebaseBehaviour.cpp:194 | when the first table entry lies at the origin, the scan returns index 0 wherever the robot is, so it misses any candidate nearer the robot |
| Align.OffsetIndex | src/main/cpp/behaviour/SwervebaseBehaviour.cpp:205-217 | left steps down and right steps up one index except at the first or last position of a run of nine; any other align type stays; the result stays in the same run |
| Align.AlignTick | src/main/cpp/behaviour/SwervebaseBehaviour.cpp:173-229 | at most one pose is commanded and none without targets; one is commanded exactly when the offset target is within the allowed distance, and it is (odometry X, the offset target's Y, the alignment heading of the vision estimate), the target lying in the scanned index's run and the heading being 0 or 180 |
| Align.AlignDrivebaseToNearestGrid.OnTick | src/main/cpp/behaviour/SwervebaseBehaviour.cpp:168-238 | appends exactly the commands `AlignCommands` gives for this tick's vision result and odometry, and never sets done |

## Left out

- `ManualDrivebase::OnStart` (the drivebase's own start-up and an acceleration limit of 6) and `AlignDrivebaseToNearestGrid::OnStart` (which only logs): start-up belongs to the behaviour scheduler, which is not part of this model.
- The scheduler, `Controls(...)` ownership and the `SetDone` machinery: only the `done` flag each behaviour keeps is modelled.
- Telemetry writes to network tables and console logging: they have no effect on the drivebase.
- The internals of vision pose estimation (`Vision.h`, photonlib): the camera result is an input, a `hasTargets` flag and the estimated pose.
- `wom::deadzone`, `wom::spow2`, `atan2` and the PID controllers: their definitions are not part of this model, so they are parameters with no assumed properties.
- Balance.DrivebaseBalance.OnTick: the PID controllers' internal state and the tick period are not modelled; each PID is this tick's response function.
- Manual.ManualDrivebase.OnTick: the controller is one sample per tick. WPILib's latching of button edges that are not queried is not modelled. The unused right-stick Y value `r_y` (line 65) is not computed.
- `Pose2d::RelativeTo` is modelled only through the squared length of the result, which equals the squared planar distance. Its rotated components are not modelled.
- Floating-point rounding: all quantities are unbounded reals, and units types are plain reals.
- The header `SwerveBaseBehaviour.h` is not part of this model. The speed constants, deadzones, `alignmentAllowDistance` and the grid table are constructor parameters. The table is required to hold 18 entries, as the run boundaries 0/9 and 8/17 imply.
- The single-argument `AlignDrivebaseToNearestGrid` constructor leaves vision and the align type unset; only the constructor with vision and align type is modelled.
