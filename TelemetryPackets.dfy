/** The older packet module (pi/Telemetry/SerialPackets.py). Its import line
    names `LimitNames`, which pi/Limits.py does not define, so loading the
    module raises ImportError and nothing in it can run. The model states
    that, and models its packets on the assumption that the module loaded:
    its own packet-type set (no CORE), the shared base-packet rule, and the
    MotorSpeed layout. */
module TelemetryPackets {
  import opened Py
  import opened Consts
  import opened Limits
  import opened SerialPackets

  /** The top-level names pi/Limits.py defines (or imports). */
  const LimitsModuleNames: set<string> := {"Union", "BaseLimit", "NumericLimit", "ListLimit", "Limits"}

  /** `from Limits import n1, n2, ...`: ImportError unless every name exists. */
  function ImportFromLimits(names: seq<string>): (r: Result<()>)
    ensures r.Ok? <==> forall i :: 0 <= i < |names| ==> names[i] in LimitsModuleNames
    ensures r.Err? ==> r.error == ImportError
  {
    if forall i :: 0 <= i < |names| ==> names[i] in LimitsModuleNames then Ok(()) else Err(ImportError)
  }

  /** Loading the module fails at its import of `Limits, LimitNames`. */
  lemma ModuleDoesNotLoad()
    ensures ImportFromLimits(["Limits", "LimitNames"]) == Err(ImportError)
  {
    var names := ["Limits", "LimitNames"];
    assert names[1] == "LimitNames";
    assert "LimitNames" !in LimitsModuleNames;
  }

  // SerialPacketType of this module: no CORE.
  const LegacyPacketTypes: set<int> := {Motors, Sensors, Cont, Last}

  /** This module's `BasicSerialPacket(packet_type, data)`: the shared rule
      over its own packet types, so a CORE packet is refused. */
  lemma LegacyBasicPacket(t: int, data: PyData)
    ensures NewBasicPacket(LegacyPacketTypes, Core, data) == Err(ValueError)
    ensures t in LegacyPacketTypes && data.PyBytes? ==>
      NewBasicPacket(LegacyPacketTypes, t, data) == Ok(Packet(t, data.b, [t] + data.b))
    ensures t !in LegacyPacketTypes ==> NewBasicPacket(LegacyPacketTypes, t, data) == Err(ValueError)
    ensures t in LegacyPacketTypes && !data.PyBytes? ==> NewBasicPacket(LegacyPacketTypes, t, data) == Err(TypeError)
  {
  }

  /** This module's `MotorSpeedSerialPacket(motor_id, speed)`: its first
      statement calls `Limits.assert_limit`, which the Limits class does not
      have, so it raises AttributeError. */
  function MotorSpeed(motorId: int, speed: int): (r: Result<Packet>)
    ensures r == Err(AttributeError)
  {
    match LimitsAttr("assert_limit")
    case Err(e) => Err(e)
    case Ok(_) => MotorSpeedBody(motorId, speed)
  }

  /** The rest of that constructor: `bytes([SPEED, motor_id, int(speed)])`
      under the MOTORS type, which gives [0x01, 0x01, motor_id, speed]. */
  function MotorSpeedBody(motorId: int, speed: int): (r: Result<Packet>)
    ensures r.Ok? <==> IsByte(motorId) && IsByte(speed)
    ensures r.Err? ==> r.error == ValueError
    ensures r.Ok? ==> r.value.bytes == [Motors, Speed, motorId, speed]
  {
    var fields := [Int(Speed), Int(motorId), Int(speed)];
    assert fields[1] == Int(motorId) && fields[2] == Int(speed);
    var data :- BytesOf(fields);
    NewBasicPacket(LegacyPacketTypes, Motors, PyBytes(data))
  }
}
