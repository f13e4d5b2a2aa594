/** Serial packets (pi/Serial/SerialPackets.py): the basic packet, the four
    packet classes' constructors (encoders) and their `from_bytes` decoders.

    The model follows the code as written. Only MotorSpeed can be built:
    CoreSleep's POSITIVE_INT check rejects every value, Drive names a limit
    the `Limits` class does not have, and Turn feeds `remap`'s float results
    to `bytes()`. Every decoder unpacks into one name more than its format
    yields. The layouts the documentation describes are stated separately,
    with lemmas showing where the code departs from them. */
module SerialPackets {
  import opened Py
  import opened Struct
  import opened Limits
  import opened Consts

  /** A constructed packet: its type, its `_data`, and the `_bytes` computed
      from them once, at construction. */
  datatype Packet = Packet(packetType: int, data: seq<int>, bytes: seq<int>)

  /** The `data` argument of the base constructor and of `set`: a `bytes`
      object or anything else. */
  datatype PyData = PyBytes(b: seq<int>) | NotBytes

  /** `BasicSerialPacket(packet_type, data)`, for the packet types `declared`
      by the packet-type enumeration in force. */
  function NewBasicPacket(declared: set<int>, t: int, data: PyData): (r: Result<Packet>)
    ensures r.Ok? <==> t in declared && IsByte(t) && data.PyBytes?
    ensures t !in declared ==> r == Err(ValueError)
    ensures t in declared && IsByte(t) && !data.PyBytes? ==> r == Err(TypeError)
    ensures r.Ok? ==> r.value.packetType == t && r.value.data == data.b && r.value.bytes == [t] + data.b
  {
    if t !in declared then Err(ValueError)
    else if !data.PyBytes? then Err(TypeError)
    else
      var typeByte := BytesOf([Int(t)]);
      if typeByte.Err? then Err(typeByte.error)
      else Ok(Packet(t, data.b, typeByte.value + data.b))
  }

  /** A live packet object. Only `set` changes it, and only its `_data`. */
  class PacketObject {
    var state: Packet

    constructor (p: Packet)
      ensures state == p
    {
      state := p;
    }

    /** The `bytes` property: the bytes cached at construction. */
    function Bytes(): seq<int>
      reads this
    {
      state.bytes
    }

    /** `set(data)`: replaces `_data`, or raises TypeError for non-bytes;
        the cached bytes are not refreshed. */
    method Set(data: PyData) returns (r: Result<()>)
      modifies this
      ensures r.Ok? <==> data.PyBytes?
      ensures r.Err? ==> r.error == TypeError && state == old(state)
      ensures r.Ok? ==> state == old(state).(data := data.b)
      ensures Bytes() == old(Bytes()) && state.packetType == old(state.packetType)
    {
      if !data.PyBytes? {
        return Err(TypeError);
      }
      state := state.(data := data.b);
      r := Ok(());
    }
  }

  // ---------------------------------------------------------------- CoreSleep

  /** `CoreSleepSerialPacket(sleep_period)`: checks POSITIVE_INT, then emits
      the sleep period as a single byte after the SLEEP sub-type. */
  function CoreSleep(sleepPeriod: int): (r: Result<Packet>)
    ensures r == Err(if sleepPeriod <= 0 then AssertionError else TypeError)
  {
    match AssertValue(PositiveInt, sleepPeriod as real, false)
    case Err(e) => Err(e)
    case Ok(_) =>
      match BytesOf([Int(Sleep), Int(sleepPeriod)])
      case Err(e) => Err(e)
      case Ok(data) => NewBasicPacket(SerialPacketTypes, Core, PyBytes(data))
  }

  /** The bytes the CoreSleep documentation describes: CORE, SLEEP, then the
      period's most and least significant bytes. */
  function CoreSleepDocBytes(sleepPeriod: int): seq<int>
  {
    [Core, Sleep, (sleepPeriod / 256) % 256, sleepPeriod % 256]
  }

  /** The documented layout is the one `from_bytes` reads (">H" on the two
      payload bytes), while the code's field list, were its check passed,
      would give a one-byte payload that ">H" refuses. A period of 300 is
      [0x00, 0x01, 0x01, 0x2C] by the documentation, and the code rejects
      it. */
  lemma CoreSleepLayoutDiffers(sleepPeriod: int)
    requires IsUShort(sleepPeriod)
    ensures Unpack(UShortBE, CoreSleepDocBytes(sleepPeriod)[2..]) == Ok([UInt(sleepPeriod)])
    ensures Unpack(UShortBE, [sleepPeriod]).Err?
    ensures CoreSleepDocBytes(300) == [0x00, 0x01, 0x01, 0x2C] && CoreSleep(300) == Err(TypeError)
  {
    SplitJoin16(sleepPeriod);
    assert CoreSleepDocBytes(sleepPeriod)[2..] == [sleepPeriod / 256, sleepPeriod % 256];
  }

  // --------------------------------------------------------------- MotorSpeed

  /** `MotorSpeedSerialPacket(motor_id, speed)`: checks SIGNED_PERCENTAGE, then
      `bytes([SPEED, motor_id, speed])`. */
  function MotorSpeed(motorId: int, speed: int): (r: Result<Packet>)
    ensures r.Ok? <==> IsByte(motorId) && 0 <= speed < 100
    ensures (speed <= -100 || speed >= 100) ==> r == Err(AssertionError)
    ensures -100 < speed < 100 && r.Err? ==> r.error == ValueError
    ensures r.Ok? ==> r.value == Packet(Motors, [Speed, motorId, speed], [Motors, Speed, motorId, speed])
  {
    var _ :- AssertValue(SignedPercentage, speed as real, false);
    var fields := [Int(Speed), Int(motorId), Int(speed)];
    assert fields[1] == Int(motorId) && fields[2] == Int(speed);
    var data :- BytesOf(fields);
    NewBasicPacket(SerialPacketTypes, Motors, PyBytes(data))
  }

  /** The unit test's case: motor 5 at 95% is [0x01, 0x01, 0x05, 0x5F]; a
      negative ("reverse") speed that passes the limit fails in `bytes()`. */
  lemma MotorSpeedCases(speed: int)
    requires -100 < speed < 0
    ensures MotorSpeed(5, 95).Ok? && MotorSpeed(5, 95).value.bytes == [0x01, 0x01, 0x05, 0x5F]
    ensures MotorSpeed(5, speed) == Err(ValueError)
  {
  }

  // -------------------------------------------------------------------- Drive

  /** The `direction` argument: a MovementDirection member, or a plain integer
      (what `from_bytes` passes). `direction in MovementDirection` raises
      TypeError for a plain integer (Python 3.8 to 3.11). */
  datatype DirectionArg = Member(d: MovementDirection) | Plain(v: int)

  /** `(distance >> 8) & 0xFF` and `distance & 0xFF` on Python integers. */
  function Msb(distance: int): int { (distance / 256) % 256 }
  function Lsb(distance: int): int { distance % 256 }

  /** `DriveSerialPacket(direction, distance, speed)`. Its first statement
      looks up `Limits.TWO_BYTE_UINT`, which does not exist (the class defines
      TWO_BYTE_UNSIGNED_INT), so it raises AttributeError for every input. */
  function Drive(direction: DirectionArg, distance: int, speed: real): (r: Result<Packet>)
    ensures r == Err(AttributeError)
  {
    match LimitsAttr("TWO_BYTE_UINT")
    case Err(e) => Err(e)
    case Ok(distanceLimit) =>
      match AssertValue(distanceLimit, distance as real, false)
      case Err(e) => Err(e)
      case Ok(_) =>
        match AssertValue(SignedPercentage, speed, false)
        case Err(e) => Err(e)
        case Ok(_) =>
          match direction
          case Plain(_) => Err(TypeError)
          case Member(d) =>
            match Remap(speed, 100.0, 0.0, PwmMaxValue as real, PwmMinValue as real)
            case Err(e) => Err(e)
            case Ok(adjustedSpeed) =>
              match BytesOf([Int(DriveCode), Int(d.Value()), Int(Msb(distance)), Int(Lsb(distance)),
                             Float(adjustedSpeed)])
              case Err(e) => Err(e)
              case Ok(data) => NewBasicPacket(SerialPacketTypes, Motors, PyBytes(data))
  }

  /** The documented Drive layout: MOTORS, DRIVE, direction, distance MSB,
      distance LSB, speed byte. */
  function DriveDocBytes(direction: MovementDirection, distance: int, speedByte: int): seq<int>
  {
    [Motors, DriveCode, direction.Value(), Msb(distance), Lsb(distance), speedByte]
  }

  /** For a two-byte distance the MSB/LSB split is a pair of bytes that
      recombines to the distance, and the documented payload is exactly what
      `from_bytes`'s ">BHB" reads back. */
  lemma DriveLayoutRoundTrip(direction: MovementDirection, distance: int, speedByte: int)
    requires IsUShort(distance) && IsByte(speedByte)
    ensures IsByte(Msb(distance)) && IsByte(Lsb(distance))
    ensures Msb(distance) * 256 + Lsb(distance) == distance
    ensures Unpack(ByteUShortByteBE, DriveDocBytes(direction, distance, speedByte)[2..])
         == Ok([UInt(direction.Value()), UInt(distance), UInt(speedByte)])
  {
    SplitJoin16(distance);
    assert DriveDocBytes(direction, distance, speedByte)[2..]
        == [direction.Value(), distance / 256, distance % 256, speedByte];
  }

  /** Drive's speed is encoded from [0, 100] but decoded to [-100, 100], so
      decoding an encoded speed s yields 2s - 100, which is s only at 100. */
  lemma DriveSpeedDoesNotRoundTrip(s: real)
    requires 0.0 <= s <= 100.0
    ensures Remap(Remap(s, 100.0, 0.0, 255.0, 0.0).value, 255.0, 0.0, 100.0, -100.0) == Ok(2.0 * s - 100.0)
    ensures 2.0 * s - 100.0 == s <==> s == 100.0
  {
    var e := Remap(s, 100.0, 0.0, 255.0, 0.0).value;
    assert e == s / 100.0 * 255.0;
    assert e / 255.0 == s / 100.0;
  }

  // --------------------------------------------------------------------- Turn

  /** `TurnSerialPacket(angle, speed)`: no limit is checked; the angle is
      remapped from SIGNED_PERCENTAGE's range and the speed from
      UNSIGNED_PERCENTAGE's onto the PWM range, and the two floats make
      `bytes()` raise TypeError for every input. */
  function Turn(angle: real, speed: real): (r: Result<Packet>)
    ensures r == Err(TypeError)
  {
    match Remap(angle, 100.0, -100.0, PwmMaxValue as real, PwmMinValue as real)
    case Err(e) => Err(e)
    case Ok(adjustedAngle) =>
      match Remap(speed, 100.0, 0.0, PwmMaxValue as real, PwmMinValue as real)
      case Err(e) => Err(e)
      case Ok(adjustedSpeed) =>
        var fields := [Int(TurnCode), Float(adjustedAngle), Float(adjustedSpeed)];
        assert fields[0] == Int(TurnCode) && fields[1].Float?;
        match BytesOf(fields)
        case Err(e) => Err(e)
        case Ok(data) => NewBasicPacket(SerialPacketTypes, Motors, PyBytes(data))
  }

  /** Turn's angle is encoded from [-100, 100] but decoded to [-180, 180]:
      decoding an encoded angle a yields 1.8a, which is a only at 0. */
  lemma TurnAngleDoesNotRoundTrip(a: real)
    requires -100.0 <= a <= 100.0
    ensures Remap(Remap(a, 100.0, -100.0, 255.0, 0.0).value, 255.0, 0.0, 180.0, -180.0) == Ok(1.8 * a)
    ensures 1.8 * a == a <==> a == 0.0
  {
    var t := (a + 100.0) / 200.0;
    assert t * 200.0 == a + 100.0;
    DivBounds(a + 100.0, 200.0);
    var e := Remap(a, 100.0, -100.0, 255.0, 0.0).value;
    assert e == t * 255.0;
    assert ClampInput(e, 255.0, 0.0) == e;
    assert e / 255.0 == t;
    assert t * 360.0 == 1.8 * (a + 100.0);
  }

  /** Turn's speed is encoded from and decoded to [0, 100], and round-trips. */
  lemma TurnSpeedRoundTrips(s: real)
    requires 0.0 <= s <= 100.0
    ensures Remap(Remap(s, 100.0, 0.0, 255.0, 0.0).value, 255.0, 0.0, 100.0, 0.0) == Ok(s)
  {
    RemapInverse(s, 100.0, 0.0, 255.0, 0.0);
  }

  // --------------------------------------------------------------- from_bytes

  /** Positional unpacking of a tuple into `names` names: Python raises
      ValueError unless the counts agree. */
  function Destructure(vals: seq<Value>, names: nat): (r: Result<seq<Value>>)
    ensures r.Ok? <==> |vals| == names
    ensures r.Err? ==> r.error == ValueError
    ensures r.Ok? ==> r.value == vals
  {
    if |vals| == names then Ok(vals) else Err(ValueError)
  }

  /** The integer bound to the i-th name of an unpacked tuple. */
  function IntAt(vals: seq<Value>, i: int): int
  {
    if 0 <= i < |vals| && vals[i].UInt? then vals[i].n else 0
  }

  /** `CoreSleepSerialPacket.from_bytes`: `sleep_period, _ = unpack(">H", b)`. */
  function CoreSleepFromBytes(b: seq<int>): (r: Result<Packet>)
    ensures r == Err(if |b| == CalcSize(UShortBE) then ValueError else StructError)
  {
    match Unpack(UShortBE, b)
    case Err(e) => Err(e)
    case Ok(vals) =>
      match Destructure(vals, 2)
      case Err(e) => Err(e)
      case Ok(names) => CoreSleep(IntAt(names, 0))
  }

  /** `MotorSpeedSerialPacket.from_bytes`: `motor_id, motor_speed, _ = unpack(">BB", b)`. */
  function MotorSpeedFromBytes(b: seq<int>): (r: Result<Packet>)
    ensures r == Err(if |b| == CalcSize(TwoUBytesBE) then ValueError else StructError)
  {
    match Unpack(TwoUBytesBE, b)
    case Err(e) => Err(e)
    case Ok(vals) =>
      match Destructure(vals, 3)
      case Err(e) => Err(e)
      case Ok(names) => MotorSpeed(IntAt(names, 0), IntAt(names, 1))
  }

  /** `DriveSerialPacket.from_bytes`: `direction, distance, speed, _ = unpack(">BHB", b)`. */
  function DriveFromBytes(b: seq<int>): (r: Result<Packet>)
    ensures r == Err(if |b| == CalcSize(ByteUShortByteBE) then ValueError else StructError)
  {
    match Unpack(ByteUShortByteBE, b)
    case Err(e) => Err(e)
    case Ok(vals) =>
      match Destructure(vals, 4)
      case Err(e) => Err(e)
      case Ok(names) =>
        match Remap(IntAt(names, 2) as real, PwmMaxValue as real, PwmMinValue as real, 100.0, -100.0)
        case Err(e) => Err(e)
        case Ok(speed) => Drive(Plain(IntAt(names, 0)), IntAt(names, 1), speed)
  }

  /** `TurnSerialPacket.from_bytes`: `angle, speed, _ = unpack(">BB", b)`. */
  function TurnFromBytes(b: seq<int>): (r: Result<Packet>)
    ensures r == Err(if |b| == CalcSize(TwoUBytesBE) then ValueError else StructError)
  {
    match Unpack(TwoUBytesBE, b)
    case Err(e) => Err(e)
    case Ok(vals) =>
      match Destructure(vals, 3)
      case Err(e) => Err(e)
      case Ok(names) =>
        match Remap(IntAt(names, 0) as real, PwmMaxValue as real, PwmMinValue as real, 180.0, -180.0)
        case Err(e) => Err(e)
        case Ok(angle) =>
          match Remap(IntAt(names, 1) as real, PwmMaxValue as real, PwmMinValue as real, 100.0, 0.0)
          case Err(e) => Err(e)
          case Ok(speed) => Turn(angle, speed)
  }

  // ------------------------------------------------------------ the classes

  /** The four packet classes. */
  datatype PacketClass = CoreSleepPacket | MotorSpeedPacket | DrivePacket | TurnPacket

  /** The packet type each class passes to the base constructor. */
  function ClassPacketType(c: PacketClass): int
  {
    match c
    case CoreSleepPacket => Core
    case _ => Motors
  }

  /** The sub-type each class puts first in its field list. */
  function ClassSubType(c: PacketClass): int
  {
    match c
    case CoreSleepPacket => Sleep
    case MotorSpeedPacket => Speed
    case DrivePacket => DriveCode
    case TurnPacket => TurnCode
  }

  /** The table agrees with the bytes the classes produce: a MotorSpeed
      packet and the documented CoreSleep and Drive layouts start with their
      class's packet type and sub-type. Turn never builds a packet; its entry
      is the packet type it passes to the base constructor and the sub-type
      at the head of its field list. */
  lemma ClassTableMatchesLayouts(motorId: int, speed: int, period: int, direction: MovementDirection,
                                 distance: int, speedByte: int)
    ensures MotorSpeed(motorId, speed).Ok? ==>
      MotorSpeed(motorId, speed).value.bytes[..2] == [ClassPacketType(MotorSpeedPacket), ClassSubType(MotorSpeedPacket)]
    ensures CoreSleepDocBytes(period)[..2] == [ClassPacketType(CoreSleepPacket), ClassSubType(CoreSleepPacket)]
    ensures DriveDocBytes(direction, distance, speedByte)[..2] == [ClassPacketType(DrivePacket), ClassSubType(DrivePacket)]
    ensures ClassPacketType(TurnPacket) == Motors && ClassSubType(TurnPacket) == TurnCode
  {
  }

  /** The number of arguments each class's constructor requires. */
  function Arity(c: PacketClass): nat
  {
    match c
    case CoreSleepPacket => 1
    case MotorSpeedPacket => 2
    case DrivePacket => 3
    case TurnPacket => 2
  }

  /** Calling a class with the single raw data byte string, as `receive`
      does. MotorSpeed, Drive and Turn require more arguments, which raises
      TypeError. CoreSleep takes the byte string as its period and runs
      POSITIVE_INT's check on it: the minimum 0 is falsy and the maximum is
      None, so the one-sided branches are skipped and the first comparison
      made is `value <= 0`; whichever bound it used, comparing a byte string
      with it raises TypeError. */
  function ConstructWithRawData(c: PacketClass, raw: seq<int>): (r: Result<Packet>)
    ensures r == Err(TypeError)
  {
    match CallArity(1, Arity(c))
    case Err(e) => Err(e)
    case Ok(_) =>
      // the bound of the first comparison `assert_value` makes
      var bound :=
        if Truthy(PositiveInt.min) && PositiveInt.max.None? then PositiveInt.min
        else if Truthy(PositiveInt.max) && PositiveInt.min.None? then PositiveInt.max
        else PositiveInt.min;
      match LessEq(ByteString(raw), bound)
      case Err(e) => Err(e)
      case Ok(_) => assert false; Err(TypeError)
  }
}
