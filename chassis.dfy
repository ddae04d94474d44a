/** The Chassis subsystem: four drive motor controllers (L1, L2 on the left,
    R1, R2 on the right), the heading-hold controller's enabled flag and
    setpoint, the forward bias used while it runs, and the last command
    handed to the arcade drive. Every operation updates these fields in
    place; its postcondition ties the new state to the function of the old
    state that ChassisModel gives for it. */
module ChassisSubsystem {
  import opened Talons
  import M = ChassisModel

  class Chassis {
    var l1: Talon
    var l2: Talon
    var r1: Talon
    var r2: Talon
    var speed: real
    var vel: real
    var pidEnabled: bool
    var pidSetpoint: real
    var autoTurn: bool
    var lastDrive: M.Option<M.DriveCommand>

    ghost function State(): M.ChassisState
      reads this
    {
      M.ChassisState(l1, l2, r1, r2, speed, vel, pidEnabled, pidSetpoint, autoTurn, lastDrive)
    }

    ghost predicate Valid()
      reads this
    {
      M.Inv(State())
    }

    /** The device IDs come from the robot map and the initial setpoint from
        the compass, both passed in. */
    constructor (l1Id: int, l2Id: int, r1Id: int, r2Id: int, compassHeading: real)
      requires M.DistinctIds(l1Id, l2Id, r1Id, r2Id)
      ensures Valid()
      ensures State() == M.Initial(l1Id, l2Id, r1Id, r2Id, compassHeading)
    {
      speed := M.Speed;
      vel := M.InitialVel;
      autoTurn := false;
      pidEnabled := false;
      pidSetpoint := compassHeading;
      lastDrive := M.None;

      var left1 := NewTalon(l1Id);
      var left2 := NewTalon(l2Id);
      left2 := left2.ChangeControlMode(Follower);
      left2 := left2.Set(left1.GetDeviceId() as real);
      left2 := left2.ReverseOutput(false);

      var right1 := NewTalon(r1Id);
      var right2 := NewTalon(r2Id);
      right2 := right2.ChangeControlMode(Follower);
      right2 := right2.Set(right1.GetDeviceId() as real);
      right2 := right2.ReverseOutput(false);

      l1, l2, r1, r2 := left1, left2, right1, right2;
    }

    method UsePidOutput(output: real)
      requires Valid()
      modifies this
      ensures Valid()
      ensures State() == M.AfterUsePidOutput(old(State()), output, M.DriveOutputs(l1.value, r1.value))
    {
      ArcadeDrive(vel, -output / M.PidOutputDivisor);
    }

    method SlaveMotors(mode: ControlMode)
      requires Valid()
      modifies this
      ensures Valid()
      ensures State() == M.AfterSlave(old(State()), mode)
    {
      l1 := l1.ChangeControlMode(mode);
      r1 := r1.ChangeControlMode(Follower);
      r1 := r1.Set(l1.GetDeviceId() as real);
    }

    method UnslaveMotors(mode: ControlMode)
      requires Valid()
      modifies this
      ensures Valid()
      ensures State() == M.AfterUnslave(old(State()), mode)
    {
      l1 := l1.ChangeControlMode(mode);
      r1 := r1.ChangeControlMode(mode);
      r1 := r1.Set(l1.Get());
    }

    /** The drive built over L1 and R1 writes its outputs into them; how it
        computes them is not modelled, so they are arbitrary values here. */
    method ArcadeDrive(moveCmd: real, rotateCmd: real)
      requires Valid()
      modifies this
      ensures Valid()
      ensures State() == M.AfterArcadeDrive(old(State()), moveCmd, rotateCmd, M.DriveOutputs(l1.value, r1.value))
    {
      UnslaveMotors(PercentVbus);
      lastDrive := M.Some(M.DriveCommand(moveCmd * speed, rotateCmd, true));
      var left: real := *;
      var right: real := *;
      l1 := l1.Set(left);
      r1 := r1.Set(right);
    }

    method DriveDistance(distance: real)
      requires Valid()
      modifies this
      ensures Valid()
      ensures State() == M.AfterDriveDistance(old(State()), distance)
    {
      SlaveMotors(Position);
      l1 := l1.SetEncPosition(0);
      r1 := r1.SetEncPosition(0);
      l1 := l1.Set(distance / M.DistancePerRevolution);
    }

    function GetDistanceSetpoint(): (d: real)
      reads this
      ensures d == M.DistanceSetpoint(State())
    {
      l1.Get() * M.DistancePerRevolution
    }

    function GetDistance(): (d: real)
      reads this
      ensures d == M.Distance(State())
    {
      l1.GetEncPosition() as real * M.DistancePerRevolution
    }

    predicate IsDistanceOnTarget(tol: real)
      reads this
      ensures IsDistanceOnTarget(tol) <==> M.DistanceOnTarget(State(), tol)
    {
      M.Abs(GetDistance() - GetDistanceSetpoint()) < tol
    }

    method SetPidVel(vel: real)
      requires Valid()
      modifies this
      ensures Valid()
      ensures State() == M.AfterSetPidVel(old(State()), vel)
    {
      this.vel := vel;
    }

    method EnableChassisPid(vel: real)
      requires Valid()
      modifies this
      ensures Valid()
      ensures State() == M.AfterEnable(old(State()), vel)
    {
      pidEnabled := true;
      SetPidVel(vel);
    }

    method DisableChassisPid()
      requires Valid()
      modifies this
      ensures Valid()
      ensures State() == M.AfterDisable(old(State()), M.DriveOutputs(l1.value, r1.value))
    {
      pidEnabled := false;
      vel := 0.0;
      Stop();
    }

    method ChassisSetSetpoint(heading: real)
      requires Valid()
      modifies this
      ensures Valid()
      ensures State() == M.AfterSetSetpoint(old(State()), heading)
      ensures ChassisGetSetPoint() == heading
    {
      pidSetpoint := heading;
    }

    function ChassisGetSetPoint(): (heading: real)
      reads this
      ensures heading == State().pidSetpoint
    {
      pidSetpoint
    }

    method Forward(vel: real)
      requires Valid()
      modifies this
      ensures Valid()
      ensures State() == M.AfterForward(old(State()), vel, M.DriveOutputs(l1.value, r1.value))
    {
      ArcadeDrive(vel, -0.2);
    }

    method Reverse(vel: real)
      requires Valid()
      modifies this
      ensures Valid()
      ensures State() == M.AfterReverse(old(State()), vel, M.DriveOutputs(l1.value, r1.value))
    {
      ArcadeDrive(-vel, 0.0);
    }

    method Rotate(vel: real)
      requires Valid()
      modifies this
      ensures Valid()
      ensures State() == M.AfterRotate(old(State()), vel, M.DriveOutputs(l1.value, r1.value))
    {
      ArcadeDrive(vel, 1.0);
    }

    method Stop()
      requires Valid()
      modifies this
      ensures Valid()
      ensures State() == M.AfterStop(old(State()), M.DriveOutputs(l1.value, r1.value))
    {
      ArcadeDrive(0.0, 0.0);
    }

    function GetAutoTurn(): (b: bool)
      reads this
      ensures b == State().autoTurn
    {
      autoTurn
    }

    method SetAutoTurn(b: bool)
      requires Valid()
      modifies this
      ensures Valid()
      ensures State() == M.AfterSetAutoTurn(old(State()), b)
      ensures GetAutoTurn() == b
    {
      autoTurn := b;
    }
  }
}
