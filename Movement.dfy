/** Command-to-packet generators (pi/Movement/Movement.py): the wheel and
    dome controllers turn a movement command into a list of packets.

    As written, the sign rules produce negative speeds, which MotorSpeed
    cannot encode, and every turn ends in a zero-length sleep, which
    CoreSleep rejects: only `start_moving` forwards (or backwards at zero
    speed) and `stop_moving` produce packets. */
module Movement {
  import opened Py
  import opened Limits
  import opened Consts
  import opened SerialPackets

  /** An element of a turn's result list: a packet, or `stop_moving`'s
      whole list nested as a single element. */
  datatype Element = Single(p: Packet) | Nested(ps: seq<Packet>)

  /** `_stop_motor(motor_id)`: a zero-speed MotorSpeed packet. */
  function StopMotor(motorId: int): (r: Result<Packet>)
    ensures IsByte(motorId) ==> r.Ok? && r.value.bytes == [Motors, Speed, motorId, 0]
    ensures !IsByte(motorId) ==> r == Err(ValueError)
  {
    MotorSpeed(motorId, 0)
  }

  /** The wheel speed `start_moving` sends: negated for BACKWARD. */
  function SignedSpeed(direction: MovementDirection, speed: int): (s: int)
    ensures direction == Forward ==> s == speed
    ensures direction == Backward ==> s + speed == 0
  {
    if direction == Backward then -speed else speed
  }

  /** `MovementController.start_moving(direction, speed)`: checks
      SIGNED_PERCENTAGE, then one packet per wheel, both at the signed speed.
      Only non-negative signed speeds encode, so moving backwards fails for
      every speed but 0. */
  function StartMoving(direction: MovementDirection, speed: int): (r: Result<seq<Packet>>)
    ensures !(-100 < speed < 100) ==> r == Err(AssertionError)
    ensures r.Ok? <==> (direction == Forward && 0 <= speed < 100) || (direction == Backward && -100 < speed <= 0)
    ensures -100 < speed < 100 && r.Err? ==> r.error == ValueError
    ensures r.Ok? ==>
      |r.value| == 2 &&
      r.value[0].bytes == [Motors, Speed, WheelLeft, SignedSpeed(direction, speed)] &&
      r.value[1].bytes == [Motors, Speed, WheelRight, SignedSpeed(direction, speed)]
  {
    match AssertValue(SignedPercentage, speed as real, false)
    case Err(e) => Err(e)
    case Ok(_) =>
      var targetSpeed := SignedSpeed(direction, speed);
      match MotorSpeed(WheelLeft, targetSpeed)
      case Err(e) => Err(e)
      case Ok(left) =>
        match MotorSpeed(WheelRight, targetSpeed)
        case Err(e) => Err(e)
        case Ok(right) => Ok([left, right])
  }

  /** `MovementController.stop_moving()`: zero speed for the left wheel, then
      the right. */
  function StopMoving(): (r: Result<seq<Packet>>)
    ensures r.Ok? && |r.value| == 2
    ensures r.value[0].bytes == [Motors, Speed, WheelLeft, 0] && r.value[1].bytes == [Motors, Speed, WheelRight, 0]
  {
    match StopMotor(WheelLeft)
    case Err(e) => Err(e)
    case Ok(left) =>
      match StopMotor(WheelRight)
      case Err(e) => Err(e)
      case Ok(right) => Ok([left, right])
  }

  /** As its documentation says, `stop_moving` is `start_moving` at zero speed. */
  lemma StopIsStartAtZero(direction: MovementDirection)
    ensures StopMoving() == StartMoving(direction, 0)
  {
  }

  /** The signed angle `turn` works with: only a negative angle relative to
      the LEFT is flipped, so the angle is negative only for a negative angle
      relative to the RIGHT. */
  function TargetAngle(angle: int, direction: RotationDirection): (t: int)
    ensures t < 0 <==> angle < 0 && direction == Right
    ensures t == angle || t == -angle
  {
    match direction
    case Left => if angle < 0 then -angle else angle
    case Right => angle
  }

  /** The signed angle the documentation describes: positive is to the
      right, and LEFT flips the sign ("LEFT and 90 degrees will cause the
      droid to turn left"). */
  function DocTargetAngle(angle: int, direction: RotationDirection): int
  {
    if direction == Left then -angle else angle
  }

  /** Code and documentation agree for RIGHT and for non-positive angles;
      LEFT with a positive angle turns right in the code. */
  lemma TargetAngleVersusDoc(angle: int, direction: RotationDirection)
    ensures TargetAngle(angle, direction) == DocTargetAngle(angle, direction) <==> direction == Right || angle <= 0
    ensures direction == Left && angle > 0 ==> TargetAngle(angle, direction) > 0 > DocTargetAngle(angle, direction)
  {
  }

  /** The wheel speeds of a turn, left then right: the left wheel runs at the
      speed, negated when the target angle is negative, and the right wheel
      at the opposite speed. */
  function TurnWheelSpeeds(angle: int, direction: RotationDirection, speed: int): (r: (int, int))
    ensures r.1 == -r.0
    ensures TargetAngle(angle, direction) < 0 ==> r.0 == -speed
    ensures TargetAngle(angle, direction) >= 0 ==> r.0 == speed
  {
    var targetSpeed := if TargetAngle(angle, direction) < 0 then -speed else speed;
    (targetSpeed, -targetSpeed)
  }

  /** `seconds_to_milliseconds(TURNING_RATE * percentage_to_float(speed) * angle)`:
      with a turning rate of 0 the sleep is always 0 ms. */
  function TurnSleepMs(speed: int, angle: int): (ms: int)
    ensures ms == 0
  {
    Trunc(TurningRate * (speed as real / 100.0) * angle as real * 1000.0)
  }

  /** `MovementController.turn(angle, direction, speed)`: checks TURN_ANGLE,
      then UNSIGNED_PERCENTAGE, then builds [left, right, sleep, stop list].
      One of the two wheel speeds is always negative, so every call that
      passes the checks fails with ValueError. */
  function Turn(angle: int, direction: RotationDirection, speed: int): (r: Result<seq<Element>>)
    ensures !(-180 < angle < 180) ==> r == Err(AssertionError)
    ensures -180 < angle < 180 && !(0 < speed < 100) ==> r == Err(AssertionError)
    ensures -180 < angle < 180 && 0 < speed < 100 ==> r == Err(ValueError)
  {
    match AssertValue(TurnAngle, angle as real, false)
    case Err(e) => Err(e)
    case Ok(_) =>
      match AssertValue(UnsignedPercentage, speed as real, false)
      case Err(e) => Err(e)
      case Ok(_) =>
        var speeds := TurnWheelSpeeds(angle, direction, speed);
        match MotorSpeed(WheelLeft, speeds.0)
        case Err(e) => Err(e)
        case Ok(left) =>
          match MotorSpeed(WheelRight, speeds.1)
          case Err(e) => Err(e)
          case Ok(right) =>
            match CoreSleep(TurnSleepMs(speed, angle))
            case Err(e) => Err(e)
            case Ok(sleep) =>
              match StopMoving()
              case Err(e) => Err(e)
              case Ok(stop) => Ok([Single(left), Single(right), Single(sleep), Nested(stop)])
  }

  /** The dome's speed: negated when the target angle is negative. */
  function DomeSpeed(angle: int, direction: RotationDirection, speed: int): (s: int)
    ensures s == (if angle < 0 && direction == Right then -speed else speed)
  {
    if TargetAngle(angle, direction) < 0 then -speed else speed
  }

  /** `DomeController.turn(angle, direction, speed)`: the same checks and sign
      rule, then [dome speed, sleep, dome stop]. A negative dome speed fails
      with ValueError; otherwise the 0 ms sleep fails with AssertionError. */
  function DomeTurn(angle: int, direction: RotationDirection, speed: int): (r: Result<seq<Packet>>)
    ensures !(-180 < angle < 180) ==> r == Err(AssertionError)
    ensures -180 < angle < 180 && !(0 < speed < 100) ==> r == Err(AssertionError)
    ensures -180 < angle < 180 && 0 < speed < 100 ==>
      r == Err(if angle < 0 && direction == Right then ValueError else AssertionError)
  {
    match AssertValue(TurnAngle, angle as real, false)
    case Err(e) => Err(e)
    case Ok(_) =>
      match AssertValue(UnsignedPercentage, speed as real, false)
      case Err(e) => Err(e)
      case Ok(_) =>
        match MotorSpeed(Dome, DomeSpeed(angle, direction, speed))
        case Err(e) => Err(e)
        case Ok(domeSpeed) =>
          match CoreSleep(Trunc(TurningRate * angle as real * 1000.0))
          case Err(e) => Err(e)
          case Ok(sleep) =>
            match StopMotor(Dome)
            case Err(e) => Err(e)
            case Ok(stop) => Ok([domeSpeed, sleep, stop])
  }

  /** The default speed of 100 that `start_moving` and both `turn` methods
      declare is outside the open ranges they check, so a call that relies on
      the default always fails, although `start_moving`'s docstring calls
      0 to 100 valid. */
  lemma DefaultSpeedFails(angle: int)
    ensures StartMoving(Forward, 100) == Err(AssertionError)
    ensures Turn(angle, Right, 100) == Err(AssertionError)
    ensures DomeTurn(angle, Right, 100) == Err(AssertionError)
  {
  }
}
