/** Framing and parsing on the serial bus (pi/Serial/Serial.py). The pyserial
    port is abstract state: an open flag, the bytes written so far and the
    lines still waiting to be read. */
module Serial {
  import opened Py
  import opened Struct
  import opened Consts
  import opened SerialPackets
  import opened PacketMapping

  /** `PACKET_TERMINATOR`, b"\n". */
  const Terminator := 0x0A

  /** `line.rstrip(b"\n")`: removes every trailing terminator. */
  function RStrip(line: seq<int>): (r: seq<int>)
    ensures r <= line
    ensures r == [] || r[|r| - 1] != Terminator
    ensures forall i :: |r| <= i < |line| ==> line[i] == Terminator
  {
    if line != [] && line[|line| - 1] == Terminator then RStrip(line[..|line| - 1]) else line
  }

  /** Framing round-trip: stripping a sent line gives back the packet bytes
      exactly when they do not end in the terminator. */
  lemma {:induction false} FramingRoundTrip(b: seq<int>)
    ensures RStrip(b + [Terminator]) == b <==> (b == [] || b[|b| - 1] != Terminator)
  {
    var line := b + [Terminator];
    assert line[..|line| - 1] == b;
    assert RStrip(line) == RStrip(b);
  }

  /** Since every trailing terminator is stripped, a packet whose last byte
      is 0x0A arrives shorter than it was sent. */
  lemma TrailingTerminatorTruncates(b: seq<int>)
    requires b != [] && b[|b| - 1] == Terminator
    ensures |RStrip(b + [Terminator])| < |b|
  {
    var line := b + [Terminator];
    assert line[..|line| - 1] == b;
    assert RStrip(line) == RStrip(b) == RStrip(b[..|b| - 1]);
  }

  /** The parsing half of `receive`: strip the terminators, unpack "BBs",
      check the packet type against SerialPacketType, then look up the class.
      The result is the class and the one-byte data string. */
  function ParseLine(line: seq<int>): (r: Result<(PacketClass, seq<int>)>)
    ensures var s := RStrip(line);
      (|s| != 3 ==> r == Err(StructError)) &&
      (|s| == 3 && s[0] !in SerialPacketTypes ==> r == Err(SerialException)) &&
      (|s| == 3 && s[0] in SerialPacketTypes && (s[0], s[1]) !in PacketMap ==> r == Err(KeyError)) &&
      (r.Ok? <==> |s| == 3 && s[0] in SerialPacketTypes && (s[0], s[1]) in PacketMap) &&
      (r.Ok? ==> r.value == (PacketMap[(s[0], s[1])], s[2..3]))
  {
    var raw := RStrip(line);
    var items :- Unpack(TypeSubTypeChar, raw);
    var packetType, subType, data := items[0].n, items[1].n, items[2].b;
    if packetType !in SerialPacketTypes then Err(SerialException)
    else
      var cls :- Lookup(packetType, subType);
      Ok((cls, data))
  }

  /** `receive` on one line read from an open port: the mapped class is
      called with the raw data byte string, which raises TypeError for every
      class, so no line yields a packet. */
  function ReceiveLine(line: seq<int>): (r: Result<Packet>)
    ensures r.Err?
    ensures ParseLine(line).Err? ==> r == Err(ParseLine(line).error)
    ensures ParseLine(line).Ok? ==> r == Err(TypeError)
  {
    var parsed :- ParseLine(line);
    ConstructWithRawData(parsed.0, parsed.1)
  }

  /** A MotorSpeed packet, the one packet that can be built, cannot be read
      back. Its four bytes do not fit "BBs" unless its speed byte is the
      terminator. Then the stripped line is MOTORS, SPEED, motor id, and the
      class call fails; if the motor id is the terminator too, the line
      strips to two bytes and fails "BBs" again. The whole frame is taken as
      one line; when the motor id is the terminator, `readline` would return
      the first three bytes instead, and that line fails "BBs" as well. */
  lemma MotorSpeedLineRejected(motorId: int, speed: int)
    requires MotorSpeed(motorId, speed).Ok?
    ensures speed != Terminator ==> ReceiveLine(MotorSpeed(motorId, speed).value.bytes + [Terminator]) == Err(StructError)
    ensures speed == Terminator && motorId != Terminator ==>
      ReceiveLine(MotorSpeed(motorId, speed).value.bytes + [Terminator]) == Err(TypeError)
    ensures speed == Terminator && motorId == Terminator ==>
      ReceiveLine(MotorSpeed(motorId, speed).value.bytes + [Terminator]) == Err(StructError)
    ensures motorId == Terminator ==> ReceiveLine(MotorSpeed(motorId, speed).value.bytes[..3]) == Err(StructError)
  {
    var b := MotorSpeed(motorId, speed).value.bytes;
    var line := b + [Terminator];
    if motorId == Terminator {
      assert b[..3] == [Motors, Speed, Terminator];
      assert b[..3][..2] == [Motors, Speed];
      assert RStrip(b[..3]) == RStrip([Motors, Speed]) == [Motors, Speed];
    }
    if speed != Terminator {
      FramingRoundTrip(b);
    } else {
      assert line[..|line| - 1] == b;
      assert b[..|b| - 1] == [Motors, Speed, motorId];
      assert RStrip(line) == RStrip(b) == RStrip([Motors, Speed, motorId]);
      if motorId != Terminator {
        assert RStrip(line) == [Motors, Speed, motorId];
      } else {
        assert [Motors, Speed, motorId][..2] == [Motors, Speed];
        assert RStrip(line) == [Motors, Speed];
      }
    }
  }

  /** `SerialCommunicator.__init__`'s argument checks, in order: the baud
      rate, then the device name. */
  function CheckConfig(device: Option<string>, baudRate: int): (r: Result<()>)
    ensures r.Ok? <==> baudRate > 0 && device.Some? && |device.value| > 0
    ensures r.Err? ==> r.error == ValueError
  {
    if baudRate <= 0 then Err(ValueError)
    else if device.None? || |device.value| == 0 then Err(ValueError)
    else Ok(())
  }

  class SerialCommunicator {
    const device: string
    const baudRate: int
    var isOpen: bool
    var written: seq<int>
    var pending: seq<seq<int>>

    constructor Init(device: string, baudRate: int, incoming: seq<seq<int>>)
      ensures this.device == device && this.baudRate == baudRate
      ensures isOpen && written == [] && pending == incoming
    {
      this.device := device;
      this.baudRate := baudRate;
      isOpen := true;
      written := [];
      pending := incoming;
    }

    /** `SerialCommunicator(serial_device, baud_rate)`. Whether pyserial can
        open the device is the parameter `portOpens`; `incoming` is what the
        port will deliver, line by line. */
    static method Open(device: Option<string>, baudRate: int, portOpens: bool, incoming: seq<seq<int>>)
      returns (r: Result<SerialCommunicator>)
      ensures CheckConfig(device, baudRate).Err? ==> r == Err(ValueError)
      ensures CheckConfig(device, baudRate).Ok? && !portOpens ==> r == Err(SerialException)
      ensures r.Ok? <==> CheckConfig(device, baudRate).Ok? && portOpens
      ensures r.Ok? ==>
        fresh(r.value) && r.value.device == device.value && r.value.baudRate == baudRate &&
        r.value.isOpen && r.value.written == [] && r.value.pending == incoming
    {
      var check := CheckConfig(device, baudRate);
      if check.Err? {
        return Err(check.error);
      }
      if !portOpens {
        return Err(SerialException);
      }
      var c := new SerialCommunicator.Init(device.value, baudRate, incoming);
      r := Ok(c);
    }

    /** `__del__`: closes the port. */
    method Close()
      modifies this
      ensures !isOpen && written == old(written) && pending == old(pending)
    {
      isOpen := false;
    }

    /** `send(packet)`: on an open port, writes the packet's cached bytes and
        one terminator; on a closed port raises SerialException and writes
        nothing. */
    method Send(packet: PacketObject) returns (r: Result<()>)
      modifies this
      ensures old(isOpen) ==> r == Ok(()) && written == old(written) + packet.Bytes() + [Terminator]
      ensures !old(isOpen) ==> r == Err(SerialException) && written == old(written)
      ensures isOpen == old(isOpen) && pending == old(pending)
    {
      if !isOpen {
        return Err(SerialException);
      }
      written := written + packet.Bytes() + [Terminator];
      r := Ok(());
    }

    /** `receive()`: on an open port, consumes the next line (a read that
        times out yields no bytes) and parses it; on a closed port raises
        SerialException and reads nothing. */
    method Receive() returns (r: Result<Packet>)
      modifies this
      ensures old(isOpen) && old(pending) != [] ==>
        r == ReceiveLine(old(pending)[0]) && pending == old(pending)[1..]
      ensures old(isOpen) && old(pending) == [] ==> r == ReceiveLine([]) && pending == []
      ensures !old(isOpen) ==> r == Err(SerialException) && pending == old(pending)
      ensures r.Err? && isOpen == old(isOpen) && written == old(written)
    {
      if !isOpen {
        return Err(SerialException);
      }
      var line: seq<int> := [];
      if pending != [] {
        line := pending[0];
        pending := pending[1..];
      }
      r := ReceiveLine(line);
    }
  }
}
