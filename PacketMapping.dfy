/** The dispatch table from (packet type, sub-type) to packet class
    (pi/Serial/PacketMapping.py). */
module PacketMapping {
  import opened Py
  import opened Consts
  import opened SerialPackets

  /** `PACKET_MAPPING`. */
  const PacketMap: map<(int, int), PacketClass> := map[
    (Core, Sleep) := CoreSleepPacket,
    (Motors, Speed) := MotorSpeedPacket,
    (Motors, DriveCode) := DrivePacket,
    (Motors, TurnCode) := TurnPacket
  ]

  /** `PACKET_MAPPING[(packetType, subType)]`: KeyError for an unregistered
      pair; a registered pair gives the class whose constructor writes that
      type and sub-type. */
  function Lookup(packetType: int, subType: int): (r: Result<PacketClass>)
    ensures r.Ok? <==> (packetType, subType) in PacketMap
    ensures r.Err? ==> r.error == KeyError
    ensures r.Ok? ==> ClassPacketType(r.value) == packetType && ClassSubType(r.value) == subType
  {
    if (packetType, subType) in PacketMap then Ok(PacketMap[(packetType, subType)]) else Err(KeyError)
  }

  /** The table has exactly the four entries, one per class, and no two
      keys share a class. */
  lemma MapEntries()
    ensures PacketMap.Keys == {(0, 1), (1, 1), (1, 2), (1, 3)}
    ensures |PacketMap.Keys| == 4
    ensures forall c: PacketClass :: (ClassPacketType(c), ClassSubType(c)) in PacketMap
    ensures forall k1, k2 :: k1 in PacketMap && k2 in PacketMap && PacketMap[k1] == PacketMap[k2] ==> k1 == k2
  {
    assert PacketMap.Keys == {(0, 1), (1, 1), (1, 2), (1, 3)};
    assert |{(0, 1), (1, 1), (1, 2), (1, 3)}| == 4;
  }

  /** Nothing is registered for SENSORS, CONT or LAST (nor for any type that
      is not CORE or MOTORS), and since SLEEP and SPEED share the code 1, the
      sub-type alone does not determine the class. */
  lemma LookupFailures(t: int, s: int)
    requires t != Core && t != Motors
    ensures Lookup(t, s) == Err(KeyError)
    ensures Lookup(Sensors, s).Err? && Lookup(Cont, s).Err? && Lookup(Last, s).Err?
    ensures Sleep == Speed && Lookup(Core, 1) == Ok(CoreSleepPacket) && Lookup(Motors, 1) == Ok(MotorSpeedPacket)
  {
  }
}
