# Chassis subsystem of the FRC team 4453 2017 robot

This project models the drivetrain subsystem `Chassis`. The drivetrain has four CAN motor
controllers: L1 and L2 on the left, R1 and R2 on the right. L2 and R2 are set up once, at
construction, to follow L1 and R1. Everything else drives the two leaders:

- `slaveMotors` makes R1 follow L1 and puts L1 in a given control mode.
- `unslaveMotors` puts both leaders in one mode and copies L1's value onto R1.
- `arcadeDrive` unslaves into PercentVbus and hands (move·speed, rotate) to the library's
  arcade drive, which writes its outputs into L1 and R1. `forward`, `reverse`, `rotate` and
  `stop` call it with fixed arguments.
- `driveDistance` slaves into Position mode, zeroes both leader encoders and sets L1 to
  distance / (π·8) revolutions.
- `getDistanceSetpoint`, `getDistance` and `isDistanceOnTarget` convert revolutions back to
  length and compare the two with a strict tolerance.
- Heading hold is a PID controller. The subsystem turns it on and off
  (`enableChassisPID`, `disableChassisPID`). It keeps a forward bias `vel` and maps each
  controller output o to `arcadeDrive(vel, -o/1.5)`.

The project has three modules:

- `Talons` (talons.dfy) is the CANTalon controller as a record: device ID, control mode, last
  set value (the follow target in Follower mode), encoder position and reversed flag. Each
  library call the subsystem makes is a function that changes the one attribute it names.
- `ChassisModel` (chassis_model.dfy) is the subsystem as a pure state machine. `ChassisState`
  holds every field the operations touch. There is one `After…` function per operation, giving
  the state that operation leaves; its postcondition states what the source promises. The
  module also holds the distance conversions and `Op`/`Step`/`Run`, which model any sequence of
  calls after construction. Lemmas over those sequences show that the followers are never
  touched, that the invariant is kept, and that the heading-hold bias persists.
- `ChassisSubsystem` (chassis.dfy) is the class `Chassis`. Its fields stand for the state the
  Java class reaches, its own or through a library object:
  - `l1`, `l2`, `r1`, `r2`: the static CANTalon fields `driveL1Talon` … `driveR2Talon`;
  - `speed`, `vel`, `autoTurn`: the fields of the same names (`autoTurn` is static);
  - `pidEnabled`, `pidSetpoint`: the enabled flag and setpoint of the library PID controller
    reached through `getPIDController()`;
  - `lastDrive`: the static `RobotDrive` field `drive`, as the arguments of its last
    `arcadeDrive` call; the outputs it writes are in `l1` and `r1`.

  The fields `arcadeDrive` and `halfSpeed` have no counterpart (see "Left out"). Each method has the same body shape as the source: the calls in the same order, with
  `stop` → `arcadeDrive` → `unslaveMotors` as calls. Each method is proved to leave
  `State() == ChassisModel.After…(old(State()), …)` and to keep `Valid()`.

`Valid()` is the object invariant, stated by `ChassisModel.Inv`:
- the four device IDs are distinct;
- L2 follows L1's device ID and R2 follows R1's, neither reversed;
- `speed` is 1.0.

The Java distance constant is `Math.PI * 8.0`. Here it is `3.141592653589793 * 8.0` over the
reals.

Notes on the code as modelled:
- `driveDistance` makes R1 a Follower of L1, so the two sides are not driven independently.
- The subsystem does not clamp arcade commands; whatever limiting happens is inside the drive.
- Heading error, wrap-around and on-target tolerance are configured on the library controller
  (continuous, input range 0–360, tolerance 0.25); the subsystem computes none of them itself.
- Mode changes are issued every time, even when a leader is already in the requested mode.
- There is no mode variable; which kind of command is active shows only in the leaders' modes
  and the controller's enabled flag.
- Every drive command overwrites the leaders' values with the drive's outputs, so after
  `stop()` (and after `disableChassisPID()`) `getDistanceSetpoint()` reports the drive's left
  output times π·8, no longer the distance passed to `driveDistance`.
- `getEncPosition` returns an integer count and `getDistance` multiplies it by π·8, so the
  measured distance moves in steps of about 25.1. After `driveDistance(100)` no encoder count
  is on target within 0.1 (`ChassisModel.HundredNeverWithinTenth`). Whether the count and the
  Position-mode value share a unit depends on the controller's configuration, which is not
  part of this model.

## Model

| member | source | states |
|---|---|---|
| ChassisSubsystem.Chassis.constructor | src/org/usfirst/frc/team4453/robot/subsystems/Chassis.java:39-76 | the new chassis is `Valid()` and equals `Initial`: L2 and R2 follow L1 and R1 with output not reversed, the heading setpoint is the compass reading, `vel` is 0.75 |
| ChassisModel.Initial | src/org/usfirst/frc/team4453/robot/subsystems/Chassis.java:20-66 | the state after construction satisfies the invariant (distinct devices, followers configured, speed 1.0); the controller is disabled with setpoint = compass heading, `vel` = 0.75, `autoTurn` false, no drive command yet |
| ChassisModel.AfterSlave | src/org/usfirst/frc/team4453/robot/subsystems/Chassis.java:104-108 | L1 is in the requested mode with its value kept; R1 is in Follower mode targeting L1's device ID; nothing but the leaders changes |
| ChassisSubsystem.Chassis.SlaveMotors | src/org/usfirst/frc/team4453/robot/subsystems/Chassis.java:104-108 | the three library calls leave exactly `AfterSlave` of the old state and keep the invariant |
| ChassisModel.AfterUnslave | src/org/usfirst/frc/team4453/robot/subsystems/Chassis.java:110-114 | both leaders are in mode m and R1's value equals L1's value, which is unchanged; nothing but the leaders changes |
| ChassisSubsystem.Chassis.UnslaveMotors | src/org/usfirst/frc/team4453/robot/subsystems/Chassis.java:110-114 | the three library calls leave exactly `AfterUnslave` of the old state and keep the invariant |
| ChassisModel.UnslaveIdempotent | src/org/usfirst/frc/team4453/robot/subsystems/Chassis.java:110-114 | unslaving twice into the same mode leaves the same state as once |
| ChassisModel.AfterArcadeDrive | src/org/usfirst/frc/team4453/robot/subsystems/Chassis.java:116-119 | both leaders end in PercentVbus (the unslave always comes first) holding the outputs the drive wrote, with nothing else about them changed; the drive command is (move·speed, rotate) with squared inputs, and under the invariant (speed 1.0) the move passes through unchanged; the distance setpoint is now the drive's left output times π·8 |
| ChassisSubsystem.Chassis.ArcadeDrive | src/org/usfirst/frc/team4453/robot/subsystems/Chassis.java:116-119 | unslave into PercentVbus, record the drive command, and let the drive write the leaders: exactly `AfterArcadeDrive` of the old state with the outputs the leaders now hold |
| ChassisModel.AfterForward | src/org/usfirst/frc/team4453/robot/subsystems/Chassis.java:167-169 | `forward(v)` issues (v, -0.2) with both leaders in PercentVbus |
| ChassisSubsystem.Chassis.Forward | src/org/usfirst/frc/team4453/robot/subsystems/Chassis.java:167-169 | leaves exactly `AfterForward` of the old state |
| ChassisModel.AfterReverse | src/org/usfirst/frc/team4453/robot/subsystems/Chassis.java:171-173 | `reverse(v)` issues (-v, 0) with both leaders in PercentVbus |
| ChassisSubsystem.Chassis.Reverse | src/org/usfirst/frc/team4453/robot/subsystems/Chassis.java:171-173 | leaves exactly `AfterReverse` of the old state |
| ChassisModel.AfterRotate | src/org/usfirst/frc/team4453/robot/subsystems/Chassis.java:175-177 | `rotate(v)` issues (v, 1.0) with both leaders in PercentVbus |
| ChassisSubsystem.Chassis.Rotate | src/org/usfirst/frc/team4453/robot/subsystems/Chassis.java:175-177 | leaves exactly `AfterRotate` of the old state |
| ChassisModel.AfterStop | src/org/usfirst/frc/team4453/robot/subsystems/Chassis.java:179-181 | `stop()` issues (0, 0) with both leaders in PercentVbus holding the drive's outputs |
| ChassisSubsystem.Chassis.Stop | src/org/usfirst/frc/team4453/robot/subsystems/Chassis.java:179-181 | leaves exactly `AfterStop` of the old state |
| ChassisModel.StopIdempotent | src/org/usfirst/frc/team4453/robot/subsystems/Chassis.java:179-181 | stopping twice leaves the same state as stopping once, given the drive writes the same outputs for the same zero command |
| ChassisModel.DistanceSetpoint | src/org/usfirst/frc/team4453/robot/subsystems/Chassis.java:128-130 | the distance setpoint divided by π·8 gives back L1's set value in revolutions |
| ChassisSubsystem.Chassis.GetDistanceSetpoint | src/org/usfirst/frc/team4453/robot/subsystems/Chassis.java:128-130 | `L1.get()·π·8` is the model's `DistanceSetpoint` of the current state |
| ChassisModel.Distance | src/org/usfirst/frc/team4453/robot/subsystems/Chassis.java:132-134 | the measured distance divided by π·8 gives back L1's encoder position |
| ChassisSubsystem.Chassis.GetDistance | src/org/usfirst/frc/team4453/robot/subsystems/Chassis.java:132-134 | `L1.getEncPosition()·π·8` is the model's `Distance` of the current state |
| ChassisModel.DistanceOnTarget | src/org/usfirst/frc/team4453/robot/subsystems/Chassis.java:136-138 | on target exactly when \|encPos − setpoint\|·π·8 < tol, with a strict inequality |
| ChassisSubsystem.Chassis.IsDistanceOnTarget | src/org/usfirst/frc/team4453/robot/subsystems/Chassis.java:136-138 | `Math.abs(getDistance() − getDistanceSetpoint()) < tol` agrees with the model's `DistanceOnTarget` |
| ChassisModel.AfterDriveDistance | src/org/usfirst/frc/team4453/robot/subsystems/Chassis.java:121-126 | L1 is in Position mode and R1 is a Follower of L1's device ID; both encoders are 0 and L1's value is d/(π·8); afterwards `getDistanceSetpoint` returns d, `getDistance` returns 0, and for every tol the chassis is on target iff \|d\| < tol |
| ChassisSubsystem.Chassis.DriveDistance | src/org/usfirst/frc/team4453/robot/subsystems/Chassis.java:121-126 | slave into Position mode, zero both encoders, set L1: exactly `AfterDriveDistance` of the old state |
| ChassisModel.HundredNeverWithinTenth | src/org/usfirst/frc/team4453/robot/subsystems/Chassis.java:121-138 | after `driveDistance(100)`, `isDistanceOnTarget(0.1)` is false for every integer encoder count, since the measured distance moves in steps of π·8 |
| ChassisModel.DriveHundred | src/org/usfirst/frc/team4453/robot/subsystems/Chassis.java:121-126 | `driveDistance(100)` sets L1 between 3.978 and 3.980 revolutions |
| ChassisModel.AfterSetPidVel | src/org/usfirst/frc/team4453/robot/subsystems/Chassis.java:140-142 | only the bias `vel` changes, to the given value |
| ChassisSubsystem.Chassis.SetPidVel | src/org/usfirst/frc/team4453/robot/subsystems/Chassis.java:140-142 | leaves exactly `AfterSetPidVel` of the old state |
| ChassisModel.AfterEnable | src/org/usfirst/frc/team4453/robot/subsystems/Chassis.java:144-147 | the controller is enabled and `vel` = v; nothing else changes |
| ChassisSubsystem.Chassis.EnableChassisPid | src/org/usfirst/frc/team4453/robot/subsystems/Chassis.java:144-147 | leaves exactly `AfterEnable` of the old state |
| ChassisModel.AfterDisable | src/org/usfirst/frc/team4453/robot/subsystems/Chassis.java:149-153 | the controller is disabled, `vel` = 0, both leaders are in PercentVbus holding the drive's outputs, and the last drive command is (0, 0); nothing else changes |
| ChassisSubsystem.Chassis.DisableChassisPid | src/org/usfirst/frc/team4453/robot/subsystems/Chassis.java:149-153 | leaves exactly `AfterDisable` of the old state |
| ChassisModel.DisableIdempotent | src/org/usfirst/frc/team4453/robot/subsystems/Chassis.java:149-153 | disabling twice leaves the same state as disabling once |
| ChassisModel.AfterUsePidOutput | src/org/usfirst/frc/team4453/robot/subsystems/Chassis.java:96-102 | a controller output o issues drive command (vel, −o/1.5) under the invariant |
| ChassisSubsystem.Chassis.UsePidOutput | src/org/usfirst/frc/team4453/robot/subsystems/Chassis.java:96-102 | leaves exactly `AfterUsePidOutput` of the old state |
| ChassisModel.HeadingHoldIssuesBias | src/org/usfirst/frc/team4453/robot/subsystems/Chassis.java:96-102 | after `enableChassisPID(v)` and any calls that do not set or clear the bias, `usePIDOutput(o)` issues (v, −o/1.5) with the controller still enabled |
| ChassisModel.RunKeepsHeadingHold | src/org/usfirst/frc/team4453/robot/subsystems/Chassis.java:140-153 | only `setPidVel`, `enableChassisPID` and `disableChassisPID` change the bias or the enabled flag, over any sequence of calls |
| ChassisModel.AfterSetSetpoint | src/org/usfirst/frc/team4453/robot/subsystems/Chassis.java:155-157 | only the heading setpoint changes, to the given heading |
| ChassisSubsystem.Chassis.ChassisSetSetpoint | src/org/usfirst/frc/team4453/robot/subsystems/Chassis.java:155-157 | leaves exactly `AfterSetSetpoint` of the old state, after which `chassisGetSetPoint()` returns the heading |
| ChassisSubsystem.Chassis.ChassisGetSetPoint | src/org/usfirst/frc/team4453/robot/subsystems/Chassis.java:163-165 | returns the controller's setpoint |
| ChassisModel.AfterSetAutoTurn | src/org/usfirst/frc/team4453/robot/subsystems/Chassis.java:187-189 | only the `autoTurn` flag changes, to the given value |
| ChassisSubsystem.Chassis.SetAutoTurn | src/org/usfirst/frc/team4453/robot/subsystems/Chassis.java:187-189 | leaves exactly `AfterSetAutoTurn` of the old state, after which `getAutoTurn()` returns b |
| ChassisSubsystem.Chassis.GetAutoTurn | src/org/usfirst/frc/team4453/robot/subsystems/Chassis.java:183-185 | returns the `autoTurn` flag |
| ChassisModel.StepKeepsFollowers | src/org/usfirst/frc/team4453/robot/subsystems/Chassis.java:96-189 | no single public operation touches L2, R2, the leaders' device IDs or `speed` |
| ChassisModel.RunKeepsFollowers | src/org/usfirst/frc/team4453/robot/subsystems/Chassis.java:96-189 | no sequence of public operations touches L2, R2, the leaders' device IDs or `speed` |
| ChassisModel.RunPreservesInv | src/org/usfirst/frc/team4453/robot/subsystems/Chassis.java:20-189 | the invariant (distinct devices, followers configured, speed 1.0) holds after any sequence of public operations |
| ChassisModel.FollowersStayConfigured | src/org/usfirst/frc/team4453/robot/subsystems/Chassis.java:56-66 | from construction on, after any calls, L2 is a non-reversed Follower of L1's device and R2 of R1's |

## Left out

- PID controller internals: the continuous 0–360 input range, the gains, the integral and
  derivative terms, the 0.25° on-target tolerance, and the periodic thread that calls
  `returnPIDInput` and `usePIDOutput`. Only the enabled flag and the setpoint are modelled;
  `usePIDOutput` takes the controller output as a parameter.
- ChassisSubsystem.Chassis.ChassisSetSetpoint: stores the heading as given. The library
  controller's treatment of a setpoint outside its configured input range is not part of this
  model.
- `RobotDrive.arcadeDrive` mixing and squaring: the library call is recorded as its arguments
  (`lastDrive`), and the outputs it writes into L1 and R1 are arbitrary values in the class and
  parameters (`DriveOutputs`) of the model functions; how they follow from the arguments is
  not modelled.
- CANTalon semantics: `get()` is taken to return the last value passed to `set()`, and
  `changeControlMode` to change only the mode. The library's own mode-dependent `get()`
  reading is not part of this model.
- Encoder counting by the hardware: a fresh controller starts at 0, and in the model
  `encPosition` changes only through `setEncPosition`. The on-target results are stated for any
  encoder position.
- Sensor reads: `returnPIDInput` and `chassisGetHeading` return `Robot.ahrs.getYaw()`, and the
  constructor reads `getCompassHeading()`. The heading for the constructor is a parameter. The
  two yaw getters are pure sensor reads and are not modelled.
- Device IDs come from `RobotMap`, which is not part of this model. They are constructor
  parameters, required to be distinct.
- `initDefaultCommand` and the command scheduler, `LiveWindow`, `SmartDashboard` and
  `System.out`: framework plumbing and telemetry.
- The public flags `arcadeDrive` and `halfSpeed`: nothing in this class reads or writes them
  after initialisation.
- IEEE double rounding: distances are reals and π is the decimal 3.141592653589793.
- `autoTurn`, the four CANTalon fields and `drive` are static in the source, shared by every
  `Chassis` object. The model has a single chassis instance, so they are ordinary fields.
