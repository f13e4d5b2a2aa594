/** The second copy of the movement controllers
    (pi/Movement/MotionControllers.py). `_stop_motor`, `start_moving`,
    `stop_moving` and `DomeController.turn` are the same code as in
    pi/Movement/Movement.py and delegate to that model; `drive` is a stub and
    `turn` has no direction parameter. */
module MotionControllers {
  import opened Py
  import opened Consts
  import opened SerialPackets
  import Limits
  import Movement

  /** `_stop_motor(motor_id)`: a zero-speed MotorSpeed packet. */
  function StopMotor(motorId: int): (r: Result<Packet>)
    ensures IsByte(motorId) ==> r.Ok? && r.value.bytes == [Motors, Speed, motorId, 0]
    ensures !IsByte(motorId) ==> r == Err(ValueError)
  {
    Movement.StopMotor(motorId)
  }

  /** `MovementController.start_moving(direction, speed)`: both wheels at the
      same signed speed, negated for BACKWARD. */
  function StartMoving(direction: MovementDirection, speed: int): (r: Result<seq<Packet>>)
    ensures !(-100 < speed < 100) ==> r == Err(AssertionError)
    ensures r.Ok? <==> (direction == Forward && 0 <= speed < 100) || (direction == Backward && -100 < speed <= 0)
    ensures r.Ok? ==>
      |r.value| == 2 &&
      r.value[0].bytes == [Motors, Speed, WheelLeft, Movement.SignedSpeed(direction, speed)] &&
      r.value[1].bytes == [Motors, Speed, WheelRight, Movement.SignedSpeed(direction, speed)]
  {
    Movement.StartMoving(direction, speed)
  }

  /** `MovementController.stop_moving()`: zero speed for the left wheel, then
      the right. */
  function StopMoving(): (r: Result<seq<Packet>>)
    ensures r.Ok? && |r.value| == 2
    ensures r.value[0].bytes == [Motors, Speed, WheelLeft, 0] && r.value[1].bytes == [Motors, Speed, WheelRight, 0]
  {
    Movement.StopMoving()
  }

  /** `MovementController.drive(direction, distance, speed)`: the source
      method has no body besides its docstring, so it builds nothing and
      returns None. This member records that and states nothing further. */
  function Drive(direction: MovementDirection, distance: int, speed: int): (r: Option<seq<Packet>>)
    ensures r == None
  {
    None
  }

  /** The wheel speeds of this `turn`: the left wheel's speed is negated
      exactly when the angle is negative, and the right wheel runs opposite. */
  function TurnWheelSpeeds(angle: int, speed: int): (r: (int, int))
    ensures r.1 == -r.0
    ensures r.0 == (if angle < 0 then -speed else speed)
  {
    var targetSpeed := if angle < 0 then -speed else speed;
    (targetSpeed, -targetSpeed)
  }

  /** `MovementController.turn(angle, speed)`: the checks of the other copy,
      then [left, right, sleep, stop list]. As in the other copy, one wheel
      speed is always negative, so every call that passes the checks fails
      with ValueError. */
  function Turn(angle: int, speed: int): (r: Result<seq<Movement.Element>>)
    ensures !(-180 < angle < 180) ==> r == Err(AssertionError)
    ensures -180 < angle < 180 && !(0 < speed < 100) ==> r == Err(AssertionError)
    ensures -180 < angle < 180 && 0 < speed < 100 ==> r == Err(ValueError)
  {
    match Limits.AssertValue(Limits.TurnAngle, angle as real, false)
    case Err(e) => Err(e)
    case Ok(_) =>
      match Limits.AssertValue(Limits.UnsignedPercentage, speed as real, false)
      case Err(e) => Err(e)
      case Ok(_) =>
        var speeds := TurnWheelSpeeds(angle, speed);
        match MotorSpeed(WheelLeft, speeds.0)
        case Err(e) => Err(e)
        case Ok(left) =>
          match MotorSpeed(WheelRight, speeds.1)
          case Err(e) => Err(e)
          case Ok(right) =>
            match CoreSleep(Movement.TurnSleepMs(speed, angle))
            case Err(e) => Err(e)
            case Ok(sleep) =>
              match StopMoving()
              case Err(e) => Err(e)
              case Ok(stop) =>
                Ok([Movement.Single(left), Movement.Single(right), Movement.Single(sleep), Movement.Nested(stop)])
  }

  /** Without a direction, this `turn` computes the wheel speeds the other
      copy computes for an angle relative to the RIGHT. */
  lemma TurnIsRightRelative(angle: int, speed: int)
    ensures TurnWheelSpeeds(angle, speed) == Movement.TurnWheelSpeeds(angle, Right, speed)
    ensures Turn(angle, speed) == Movement.Turn(angle, Right, speed)
  {
  }

  /** `DomeController.turn(angle, direction, speed)`: a negative LEFT angle is
      flipped to positive; a negative dome speed fails with ValueError, and
      otherwise the 0 ms sleep fails with AssertionError. */
  function DomeTurn(angle: int, direction: RotationDirection, speed: int): (r: Result<seq<Packet>>)
    ensures !(-180 < angle < 180) ==> r == Err(AssertionError)
    ensures -180 < angle < 180 && !(0 < speed < 100) ==> r == Err(AssertionError)
    ensures -180 < angle < 180 && 0 < speed < 100 ==>
      r == Err(if angle < 0 && direction == Right then ValueError else AssertionError)
  {
    Movement.DomeTurn(angle, direction, speed)
  }
}
