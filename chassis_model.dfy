/** The chassis subsystem as a pure state machine: one state record, one
    function per public operation giving the state it leaves behind, and
    sequences of operations (traces) to state what holds after construction
    whatever the callers do. */
module ChassisModel {
  import opened Talons

  /** Math.PI, taken as a real. */
  const Pi: real := 3.141592653589793
  /** Travel per wheel revolution: 8" diameter wheels. */
  const DistancePerRevolution: real := Pi * 8.0
  /** Initial forward bias for heading hold (field `vel`). */
  const InitialVel: real := 0.75
  /** Scale applied to the move command (field `speed`, never reassigned). */
  const Speed: real := 1.0
  /** usePIDOutput divides the controller output by this before rotating. */
  const PidOutputDivisor: real := 1.5

  datatype Option<T> = None | Some(value: T)

  /** The arguments of the last RobotDrive.arcadeDrive call. */
  datatype DriveCommand = DriveCommand(move: real, rotate: real, squaredInputs: bool)

  /** The outputs RobotDrive.arcadeDrive writes into L1 and R1. How the drive
      mixes and squares its arguments is the library's business, so every
      operation that drives takes them as given. */
  datatype DriveOutputs = DriveOutputs(left: real, right: real)

  /** Everything the subsystem's operations read or write. */
  datatype ChassisState = ChassisState(
    l1: Talon,
    l2: Talon,
    r1: Talon,
    r2: Talon,
    speed: real,
    vel: real,
    pidEnabled: bool,
    pidSetpoint: real,
    autoTurn: bool,
    lastDrive: Option<DriveCommand>)

  /** Math.abs on reals. */
  function Abs(x: real): (r: real)
    ensures r >= 0.0 && (r == x || r == -x)
  {
    if x < 0.0 then -x else x
  }

  predicate DistinctIds(l1Id: int, l2Id: int, r1Id: int, r2Id: int) {
    l1Id != l2Id && l1Id != r1Id && l1Id != r2Id &&
    l2Id != r1Id && l2Id != r2Id && r1Id != r2Id
  }

  /** What holds from construction on: the four controllers are distinct
      devices, the second controller of each side follows the first with its
      output not reversed, and the move scale is still 1.0. */
  ghost predicate Inv(s: ChassisState) {
    && DistinctIds(s.l1.deviceId, s.l2.deviceId, s.r1.deviceId, s.r2.deviceId)
    && s.l2.Follows(s.l1.deviceId) && !s.l2.reversed
    && s.r2.Follows(s.r1.deviceId) && !s.r2.reversed
    && s.speed == Speed
  }

  /** Only the two leader controllers and the last drive command may differ. */
  ghost predicate SameExceptLeaders(s: ChassisState, r: ChassisState) {
    r.(l1 := s.l1, r1 := s.r1, lastDrive := s.lastDrive) == s
  }

  /** A leader whose device ID, encoder position and reversed flag are those
      it had before: only its mode and its value may differ. */
  ghost predicate OnlyModeAndValue(before: Talon, after: Talon) {
    after.(mode := before.mode, value := before.value) == before
  }

  // ---------------------------------------------------------------------------
  // Construction

  /** The state the constructor leaves: the followers set up, the heading
      setpoint at the compass reading, the controller disabled. */
  function Initial(l1Id: int, l2Id: int, r1Id: int, r2Id: int, compassHeading: real): (s: ChassisState)
    requires DistinctIds(l1Id, l2Id, r1Id, r2Id)
    ensures Inv(s)
    ensures s.l1 == NewTalon(l1Id) && s.r1 == NewTalon(r1Id)
    ensures s.l2.deviceId == l2Id && s.r2.deviceId == r2Id
    ensures !s.pidEnabled && s.pidSetpoint == compassHeading
    ensures s.vel == InitialVel && !s.autoTurn && s.lastDrive == None
  {
    ChassisState(
      NewTalon(l1Id),
      Talon(l2Id, Follower, l1Id as real, 0, false),
      NewTalon(r1Id),
      Talon(r2Id, Follower, r1Id as real, 0, false),
      Speed, InitialVel, false, compassHeading, false, None)
  }

  // ---------------------------------------------------------------------------
  // Leader configuration

  /** slaveMotors: the left leader goes to `mode`, the right leader follows it. */
  function AfterSlave(s: ChassisState, mode: ControlMode): (r: ChassisState)
    ensures r.l1.mode == mode && r.r1.Follows(s.l1.deviceId)
    ensures r.l1.value == s.l1.value
    ensures OnlyModeAndValue(s.l1, r.l1) && OnlyModeAndValue(s.r1, r.r1)
    ensures SameExceptLeaders(s, r) && r.lastDrive == s.lastDrive
  {
    s.(l1 := s.l1.(mode := mode),
       r1 := s.r1.(mode := Follower, value := s.l1.deviceId as real))
  }

  /** unslaveMotors: both leaders go to `mode`, the right one taking over the
      left one's value. */
  function AfterUnslave(s: ChassisState, mode: ControlMode): (r: ChassisState)
    ensures r.l1.mode == mode && r.r1.mode == mode
    ensures r.r1.value == r.l1.value == s.l1.value
    ensures OnlyModeAndValue(s.l1, r.l1) && OnlyModeAndValue(s.r1, r.r1)
    ensures SameExceptLeaders(s, r) && r.lastDrive == s.lastDrive
  {
    s.(l1 := s.l1.(mode := mode),
       r1 := s.r1.(mode := mode, value := s.l1.value))
  }

  // ---------------------------------------------------------------------------
  // Arcade drive and the helpers built on it

  /** arcadeDrive: unslave into PercentVbus, then hand (move·speed, rotate)
      to the drive, with squared inputs; the drive writes `out` into the two
      leaders, overwriting the value the unslave copied. */
  function AfterArcadeDrive(s: ChassisState, moveCmd: real, rotateCmd: real, out: DriveOutputs): (r: ChassisState)
    ensures r.l1.mode == PercentVbus && r.r1.mode == PercentVbus
    ensures r.l1.value == out.left && r.r1.value == out.right
    ensures OnlyModeAndValue(s.l1, r.l1) && OnlyModeAndValue(s.r1, r.r1)
    ensures r.lastDrive == Some(DriveCommand(moveCmd * s.speed, rotateCmd, true))
    ensures Inv(s) ==> r.lastDrive.value.move == moveCmd
    ensures DistanceSetpoint(r) == out.left * DistancePerRevolution
    ensures SameExceptLeaders(s, r)
  {
    var u := AfterUnslave(s, PercentVbus);
    u.(l1 := u.l1.(value := out.left),
       r1 := u.r1.(value := out.right),
       lastDrive := Some(DriveCommand(moveCmd * s.speed, rotateCmd, true)))
  }

  /** forward: drive at `vel` with a fixed -0.2 rotation. */
  function AfterForward(s: ChassisState, vel: real, out: DriveOutputs): (r: ChassisState)
    ensures Inv(s) ==> r.lastDrive == Some(DriveCommand(vel, -0.2, true))
    ensures r.l1.mode == PercentVbus && r.r1.mode == PercentVbus && SameExceptLeaders(s, r)
  {
    AfterArcadeDrive(s, vel, -0.2, out)
  }

  /** reverse: drive at `-vel` without rotation. */
  function AfterReverse(s: ChassisState, vel: real, out: DriveOutputs): (r: ChassisState)
    ensures Inv(s) ==> r.lastDrive == Some(DriveCommand(-vel, 0.0, true))
    ensures r.l1.mode == PercentVbus && r.r1.mode == PercentVbus && SameExceptLeaders(s, r)
  {
    AfterArcadeDrive(s, -vel, 0.0, out)
  }

  /** rotate: drive at `vel` with full rotation 1.0. */
  function AfterRotate(s: ChassisState, vel: real, out: DriveOutputs): (r: ChassisState)
    ensures Inv(s) ==> r.lastDrive == Some(DriveCommand(vel, 1.0, true))
    ensures r.l1.mode == PercentVbus && r.r1.mode == PercentVbus && SameExceptLeaders(s, r)
  {
    AfterArcadeDrive(s, vel, 1.0, out)
  }

  /** stop: a zero arcade command. */
  function AfterStop(s: ChassisState, out: DriveOutputs): (r: ChassisState)
    ensures r.lastDrive == Some(DriveCommand(0.0, 0.0, true))
    ensures r.l1.mode == PercentVbus && r.r1.mode == PercentVbus
    ensures r.l1.value == out.left && r.r1.value == out.right
    ensures SameExceptLeaders(s, r)
  {
    AfterArcadeDrive(s, 0.0, 0.0, out)
  }

  // ---------------------------------------------------------------------------
  // Distance drive
  //
  // driveDistance divides by π·8 before set(), so the source takes the
  // Position-mode value to be in revolutions; getEncPosition returns an
  // integer count, which getDistance also multiplies by π·8. Both are kept
  // here exactly as the controller reports them.

  /** getDistanceSetpoint: the left leader's set value, in length units. */
  function DistanceSetpoint(s: ChassisState): (d: real)
    ensures d / DistancePerRevolution == s.l1.value
  {
    s.l1.value * DistancePerRevolution
  }

  /** getDistance: the left leader's encoder count, in length units. */
  function Distance(s: ChassisState): (d: real)
    ensures d / DistancePerRevolution == s.l1.encPosition as real
  {
    s.l1.encPosition as real * DistancePerRevolution
  }

  /** isDistanceOnTarget: the measured distance is STRICTLY within `tol` of
      the setpoint (|a·c − b·c| = |a − b|·c with c = π·8 gives the second form). */
  predicate DistanceOnTarget(s: ChassisState, tol: real)
    ensures DistanceOnTarget(s, tol) <==>
              Abs(s.l1.encPosition as real - s.l1.value) * DistancePerRevolution < tol
  {
    Abs(Distance(s) - DistanceSetpoint(s)) < tol
  }

  /** driveDistance: slave the right leader to the left one in Position mode,
      zero both encoders and set the left leader to `distance` / (π·8). */
  function AfterDriveDistance(s: ChassisState, distance: real): (r: ChassisState)
    ensures r.l1.mode == Position && r.r1.Follows(s.l1.deviceId)
    ensures r.l1.encPosition == 0 && r.r1.encPosition == 0
    ensures r.l1.value == distance / DistancePerRevolution
    ensures DistanceSetpoint(r) == distance && Distance(r) == 0.0
    ensures forall tol :: DistanceOnTarget(r, tol) <==> Abs(distance) < tol
    ensures r.l1.deviceId == s.l1.deviceId && r.r1.deviceId == s.r1.deviceId
    ensures r.l1.reversed == s.l1.reversed && r.r1.reversed == s.r1.reversed
    ensures SameExceptLeaders(s, r) && r.lastDrive == s.lastDrive
  {
    var t := AfterSlave(s, Position);
    t.(l1 := t.l1.(encPosition := 0, value := distance / DistancePerRevolution),
       r1 := t.r1.(encPosition := 0))
  }

  /** The measured distance moves in whole steps of π·8 (about 25.1), one per
      encoder count: after driveDistance(100) no encoder count whatever is on
      target within 0.1. */
  lemma HundredNeverWithinTenth(s: ChassisState, p: int)
    ensures var r := AfterDriveDistance(s, 100.0);
            !DistanceOnTarget(r.(l1 := r.l1.(encPosition := p)), 0.1)
  {
  }

  // ---------------------------------------------------------------------------
  // Heading hold

  /** setPidVel: only the forward bias changes. */
  function AfterSetPidVel(s: ChassisState, vel: real): (r: ChassisState)
    ensures r.vel == vel && r.(vel := s.vel) == s
  {
    s.(vel := vel)
  }

  /** enableChassisPID: the controller runs and the forward bias is `vel`. */
  function AfterEnable(s: ChassisState, vel: real): (r: ChassisState)
    ensures r.pidEnabled && r.vel == vel
    ensures r.(pidEnabled := s.pidEnabled, vel := s.vel) == s
  {
    AfterSetPidVel(s.(pidEnabled := true), vel)
  }

  /** disableChassisPID: the controller stops, the bias is zeroed and the
      chassis is stopped. */
  function AfterDisable(s: ChassisState, out: DriveOutputs): (r: ChassisState)
    ensures !r.pidEnabled && r.vel == 0.0
    ensures r.l1.mode == PercentVbus && r.r1.mode == PercentVbus
    ensures r.l1.value == out.left && r.r1.value == out.right
    ensures r.lastDrive == Some(DriveCommand(0.0, 0.0, true))
    ensures r.(pidEnabled := s.pidEnabled, vel := s.vel, l1 := s.l1, r1 := s.r1,
               lastDrive := s.lastDrive) == s
  {
    AfterStop(s.(pidEnabled := false, vel := 0.0), out)
  }

  /** usePIDOutput: drive forward at the bias, rotating against the
      controller output scaled down by 1.5. */
  function AfterUsePidOutput(s: ChassisState, output: real, out: DriveOutputs): (r: ChassisState)
    ensures Inv(s) ==> r.lastDrive == Some(DriveCommand(s.vel, -output / PidOutputDivisor, true))
    ensures r.l1.mode == PercentVbus && r.r1.mode == PercentVbus && SameExceptLeaders(s, r)
  {
    AfterArcadeDrive(s, s.vel, -output / PidOutputDivisor, out)
  }

  /** chassisSetSetpoint: only the heading setpoint changes. */
  function AfterSetSetpoint(s: ChassisState, heading: real): (r: ChassisState)
    ensures r.pidSetpoint == heading && r.(pidSetpoint := s.pidSetpoint) == s
  {
    s.(pidSetpoint := heading)
  }

  /** setAutoTurn: only the flag changes. */
  function AfterSetAutoTurn(s: ChassisState, b: bool): (r: ChassisState)
    ensures r.autoTurn == b && r.(autoTurn := s.autoTurn) == s
  {
    s.(autoTurn := b)
  }

  // ---------------------------------------------------------------------------
  // Traces of operations after construction

  /** The public operations that change state (usePIDOutput is the one the
      heading controller calls). Those that drive carry the outputs the
      drive writes. */
  datatype Op =
    | SlaveMotors(mode: ControlMode)
    | UnslaveMotors(mode: ControlMode)
    | ArcadeDrive(moveCmd: real, rotateCmd: real, out: DriveOutputs)
    | DriveDistance(distance: real)
    | SetPidVel(vel: real)
    | EnableChassisPid(vel: real)
    | DisableChassisPid(out: DriveOutputs)
    | UsePidOutput(output: real, out: DriveOutputs)
    | ChassisSetSetpoint(heading: real)
    | Forward(vel: real, out: DriveOutputs)
    | Reverse(vel: real, out: DriveOutputs)
    | Rotate(vel: real, out: DriveOutputs)
    | Stop(out: DriveOutputs)
    | SetAutoTurn(b: bool)

  function Step(s: ChassisState, op: Op): ChassisState {
    match op
    case SlaveMotors(m) => AfterSlave(s, m)
    case UnslaveMotors(m) => AfterUnslave(s, m)
    case ArcadeDrive(mv, rot, out) => AfterArcadeDrive(s, mv, rot, out)
    case DriveDistance(d) => AfterDriveDistance(s, d)
    case SetPidVel(v) => AfterSetPidVel(s, v)
    case EnableChassisPid(v) => AfterEnable(s, v)
    case DisableChassisPid(out) => AfterDisable(s, out)
    case UsePidOutput(o, out) => AfterUsePidOutput(s, o, out)
    case ChassisSetSetpoint(h) => AfterSetSetpoint(s, h)
    case Forward(v, out) => AfterForward(s, v, out)
    case Reverse(v, out) => AfterReverse(s, v, out)
    case Rotate(v, out) => AfterRotate(s, v, out)
    case Stop(out) => AfterStop(s, out)
    case SetAutoTurn(b) => AfterSetAutoTurn(s, b)
  }
  function Run(s: ChassisState, ops: seq<Op>): ChassisState
    decreases |ops|
  {
    if ops == [] then s else Run(Step(s, ops[0]), ops[1..])
  }

  /** One operation never touches the followers, the device IDs or the scale. */
  lemma StepKeepsFollowers(s: ChassisState, op: Op)
    ensures Step(s, op).l2 == s.l2 && Step(s, op).r2 == s.r2
    ensures Step(s, op).l1.deviceId == s.l1.deviceId && Step(s, op).r1.deviceId == s.r1.deviceId
    ensures Step(s, op).speed == s.speed
  {
  }

  /** No sequence of operations after construction changes L2 or R2, the
      leaders' device IDs or the move scale. */
  lemma {:induction false} RunKeepsFollowers(s: ChassisState, ops: seq<Op>)
    ensures Run(s, ops).l2 == s.l2 && Run(s, ops).r2 == s.r2
    ensures Run(s, ops).l1.deviceId == s.l1.deviceId && Run(s, ops).r1.deviceId == s.r1.deviceId
    ensures Run(s, ops).speed == s.speed
    decreases |ops|
  {
    if ops != [] {
      StepKeepsFollowers(s, ops[0]);
      RunKeepsFollowers(Step(s, ops[0]), ops[1..]);
    }
  }

  /** Hence the invariant holds after any sequence of operations. */
  lemma RunPreservesInv(s: ChassisState, ops: seq<Op>)
    requires Inv(s)
    ensures Inv(Run(s, ops))
  {
    RunKeepsFollowers(s, ops);
  }

  /** From construction on, whatever the callers do, L2 follows L1 and R2
      follows R1, neither reversed. */
  lemma FollowersStayConfigured(l1Id: int, l2Id: int, r1Id: int, r2Id: int, heading: real, ops: seq<Op>)
    requires DistinctIds(l1Id, l2Id, r1Id, r2Id)
    ensures var r := Run(Initial(l1Id, l2Id, r1Id, r2Id, heading), ops);
            r.l2.Follows(l1Id) && !r.l2.reversed && r.l2.deviceId == l2Id &&
            r.r2.Follows(r1Id) && !r.r2.reversed && r.r2.deviceId == r2Id
  {
    RunKeepsFollowers(Initial(l1Id, l2Id, r1Id, r2Id, heading), ops);
  }

  /** The operations that leave the heading-hold state (enabled flag and bias) alone. */
  predicate KeepsHeadingHold(op: Op) {
    !op.SetPidVel? && !op.EnableChassisPid? && !op.DisableChassisPid?
  }

  lemma {:induction false} RunKeepsHeadingHold(s: ChassisState, ops: seq<Op>)
    requires forall i :: 0 <= i < |ops| ==> KeepsHeadingHold(ops[i])
    ensures Run(s, ops).vel == s.vel && Run(s, ops).pidEnabled == s.pidEnabled
    decreases |ops|
  {
    if ops != [] {
      RunKeepsHeadingHold(Step(s, ops[0]), ops[1..]);
    }
  }

  /** After enableChassisPID(v), however many other commands intervene, every
      usePIDOutput(o) issues the drive command (v, -o/1.5) with the
      controller still enabled. */
  lemma HeadingHoldIssuesBias(s: ChassisState, v: real, ops: seq<Op>, output: real, out: DriveOutputs)
    requires Inv(s)
    requires forall i :: 0 <= i < |ops| ==> KeepsHeadingHold(ops[i])
    ensures var r := Step(Run(Step(s, EnableChassisPid(v)), ops), UsePidOutput(output, out));
            r.pidEnabled && r.vel == v &&
            r.lastDrive == Some(DriveCommand(v, -output / 1.5, true))
  {
    var e := Step(s, EnableChassisPid(v));
    RunKeepsHeadingHold(e, ops);
    RunKeepsFollowers(e, ops);
  }

  /** stop twice leaves the same state as stop once, the drive writing the
      same outputs for the same zero command. */
  lemma StopIdempotent(s: ChassisState, out: DriveOutputs)
    ensures AfterStop(AfterStop(s, out), out) == AfterStop(s, out)
  {
  }

  /** disableChassisPID twice leaves the same state as once. */
  lemma DisableIdempotent(s: ChassisState, out: DriveOutputs)
    ensures AfterDisable(AfterDisable(s, out), out) == AfterDisable(s, out)
  {
  }

  /** Unslaving twice into the same mode is the same as once. */
  lemma UnslaveIdempotent(s: ChassisState, mode: ControlMode)
    ensures AfterUnslave(AfterUnslave(s, mode), mode) == AfterUnslave(s, mode)
  {
  }

  /** driveDistance(100) sets the left leader to about 3.979 revolutions. */
  lemma DriveHundred(s: ChassisState)
    ensures 3.978 < AfterDriveDistance(s, 100.0).l1.value < 3.980
  {
  }
}
