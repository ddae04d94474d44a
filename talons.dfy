/** The CTRE CANTalon motor controller, seen only through the calls the chassis
    subsystem makes on it: changeControlMode, set, get, getDeviceID,
    setEncPosition, getEncPosition and reverseOutput. The library itself is not
    part of this model; each call is taken to touch exactly the one attribute
    its name says. */
module Talons {

  /** CANTalon.TalonControlMode */
  datatype ControlMode =
    | PercentVbus
    | Position
    | Speed
    | Current
    | Voltage
    | Follower
    | MotionProfile
    | MotionMagic
    | Disabled

  /** One motor controller as an abstract record.
      `value` is the last value written with set(): an output fraction in
      PercentVbus mode, a position target in the controller's position units
      in Position mode, and the device ID of the leader in Follower mode.
      `encPosition` is the integer count that getEncPosition reports, in the
      encoder's own units. The model does not relate the two units. */
  datatype Talon = Talon(
    deviceId: int,
    mode: ControlMode,
    value: real,
    encPosition: int,
    reversed: bool)
  {
    function ChangeControlMode(m: ControlMode): Talon { this.(mode := m) }

    function Set(v: real): Talon { this.(value := v) }

    function Get(): real { value }

    function GetDeviceId(): int { deviceId }

    function SetEncPosition(p: int): Talon { this.(encPosition := p) }

    function GetEncPosition(): int { encPosition }

    function ReverseOutput(b: bool): Talon { this.(reversed := b) }

    /** This controller mirrors the device `leaderId`. */
    predicate Follows(leaderId: int) {
      mode == Follower && value == leaderId as real
    }
  }

  /** A controller just constructed for device `id`: open loop, zero output,
      output not reversed. */
  function NewTalon(id: int): Talon {
    Talon(id, PercentVbus, 0.0, 0, false)
  }
}
