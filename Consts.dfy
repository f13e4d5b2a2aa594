/** Application constants (pi/Consts.py): component ranges, movement enums,
    the serial packet type and sub-type codes, and `remap`. */
module Consts {
  import opened Py

  // ComponentConstants
  const AnalogInputBits := 10
  const AnalogMaxValue := 1023           // 2 ** 10 - 1
  const PwmBits := 8
  const PwmMinValue := 0
  const PwmMaxValue := 255               // 2 ** 8 - 1
  const PwmMiddleValue := 127            // math.floor(255 / 2)

  // MovementConstants
  /** Turning rate in degrees per second; zero in the source. */
  const TurningRate: real := 0.0

  // MovementConstants.MotorId (an IntEnum, so its members are plain integers)
  const WheelLeft := 0
  const WheelRight := 1
  const Dome := 2
  const DomeGizmos := 3
  const FrontGizmos := 4
  const Sensor := 5

  /** MovementConstants.MovementDirection. */
  datatype MovementDirection = Forward | Backward {
    function Value(): int { match this case Forward => 0 case Backward => 1 }
  }

  /** MovementConstants.RotationDirection. */
  datatype RotationDirection = Left | Right {
    function Value(): int { match this case Left => 0 case Right => 1 }
  }

  // SerialConstants.SerialPacketType
  const Core := 0x0
  const Motors := 0x1
  const Sensors := 0x2
  const Cont := 0xFE
  const Last := 0xFF
  /** The values of SerialPacketType: what `in SerialPacketType.__dict__.values()` accepts. */
  const SerialPacketTypes: set<int> := {Core, Motors, Sensors, Cont, Last}

  // SerialConstants.CoreSerialPacketType
  const Sleep := 0x1
  // SerialConstants.MotorSerialPacketType
  const Speed := 0x1
  const DriveCode := 0x2
  const TurnCode := 0x3

  /** Every packet type and sub-type code is a byte, and the five packet
      types are pairwise distinct. */
  lemma CodesAreDistinctBytes()
    ensures forall t :: t in SerialPacketTypes ==> IsByte(t)
    ensures |SerialPacketTypes| == 5
    ensures IsByte(Sleep) && IsByte(Speed) && IsByte(DriveCode) && IsByte(TurnCode)
    ensures Speed != DriveCode && DriveCode != TurnCode && Speed != TurnCode
  {
    assert SerialPacketTypes == {0, 1, 2, 254, 255};
  }

  /** The two clamping reassignments of `remap`, in the source's order. */
  function ClampInput(value: real, maxInput: real, minInput: real): real
  {
    var v := if value > maxInput then maxInput else value;
    if v < minInput then minInput else v
  }

  /** `remap(value, max_input, min_input, max_output, min_output)`: clamp the
      value into the input range, then rescale linearly onto the output range.
      The result is a Python float, modelled exactly as a real. Equal input
      bounds divide by zero. */
  function Remap(value: real, maxInput: real, minInput: real, maxOutput: real, minOutput: real): (r: Result<real>)
    ensures r.Err? <==> maxInput == minInput
    ensures r.Err? ==> r.error == ZeroDivisionError
    // the input endpoints go to the output endpoints
    ensures r.Ok? && value <= minInput <= maxInput ==> r.value == minOutput
    ensures r.Ok? && minInput <= maxInput <= value ==> r.value == maxOutput
    // on a proper input range the result stays within the output range
    ensures r.Ok? && minInput < maxInput && minOutput <= maxOutput ==> minOutput <= r.value <= maxOutput
  {
    var v := ClampInput(value, maxInput, minInput);
    var inputSpan := maxInput - minInput;
    var outputSpan := maxOutput - minOutput;
    if inputSpan == 0.0 then Err(ZeroDivisionError)
    else
      var scaled := (v - minInput) / inputSpan;
      ScaledWithin(v, maxInput, minInput, maxOutput, minOutput);
      Ok(minOutput + scaled * outputSpan)
  }

  /** The arithmetic behind Remap's range clause. */
  lemma ScaledWithin(v: real, maxInput: real, minInput: real, maxOutput: real, minOutput: real)
    requires maxInput != minInput
    ensures minInput < maxInput && minOutput <= maxOutput && minInput <= v <= maxInput ==>
      minOutput <= minOutput + (v - minInput) / (maxInput - minInput) * (maxOutput - minOutput) <= maxOutput
  {
    if minInput < maxInput && minOutput <= maxOutput && minInput <= v <= maxInput {
      var t := (v - minInput) / (maxInput - minInput);
      DivBounds(v - minInput, maxInput - minInput);
      MulBounds(t, maxOutput - minOutput);
    }
  }

  lemma DivBounds(x: real, s: real)
    requires 0.0 <= x <= s && 0.0 < s
    ensures 0.0 <= x / s <= 1.0
  {
    var t := x / s;
    assert t * s == x;
    if t < 0.0 { MulMonotone(t, 0.0, s); }
    if t > 1.0 { MulMonotone(1.0, t, s); }
  }

  lemma MulBounds(t: real, d: real)
    requires 0.0 <= t <= 1.0 && 0.0 <= d
    ensures 0.0 <= t * d <= d
  {
    assert t * d <= 1.0 * d;
  }

  /** `remap` first clamps: out-of-range values are treated as the nearer
      input bound. */
  lemma RemapClamps(value: real, maxInput: real, minInput: real, maxOutput: real, minOutput: real)
    requires minInput < maxInput
    ensures Remap(value, maxInput, minInput, maxOutput, minOutput)
         == Remap(ClampInput(value, maxInput, minInput), maxInput, minInput, maxOutput, minOutput)
    ensures minInput <= ClampInput(value, maxInput, minInput) <= maxInput
    ensures minInput <= value <= maxInput ==> ClampInput(value, maxInput, minInput) == value
  {
  }

  /** On a proper input range and a non-inverted output range, `remap` is
      monotone non-decreasing. */
  lemma RemapMonotone(a: real, b: real, maxInput: real, minInput: real, maxOutput: real, minOutput: real)
    requires minInput < maxInput && minOutput <= maxOutput && a <= b
    ensures Remap(a, maxInput, minInput, maxOutput, minOutput).value
         <= Remap(b, maxInput, minInput, maxOutput, minOutput).value
  {
    var ca, cb := ClampInput(a, maxInput, minInput), ClampInput(b, maxInput, minInput);
    assert ca <= cb;
    var span := maxInput - minInput;
    var ta, tb := (ca - minInput) / span, (cb - minInput) / span;
    assert ta * span == ca - minInput && tb * span == cb - minInput;
    assert ta <= tb;
    MulMonotone(ta, tb, maxOutput - minOutput);
  }

  lemma MulMonotone(x: real, y: real, d: real)
    requires x <= y && 0.0 <= d
    ensures x * d <= y * d
  {
  }

  /** Remap unfolded on a non-empty input range. */
  lemma RemapValue(value: real, maxInput: real, minInput: real, maxOutput: real, minOutput: real)
    requires maxInput != minInput
    ensures Remap(value, maxInput, minInput, maxOutput, minOutput)
         == Ok(minOutput + (ClampInput(value, maxInput, minInput) - minInput) / (maxInput - minInput) * (maxOutput - minOutput))
  {
  }

  lemma DivCancels(t: real, s: real)
    requires s != 0.0
    ensures (t * s) / s == t
  {
  }

  /** "Maintaining the ratio": remapping the result back with the input and
      output ranges swapped recovers the clamped input. */
  lemma RemapInverse(value: real, maxInput: real, minInput: real, maxOutput: real, minOutput: real)
    requires minInput < maxInput && minOutput < maxOutput
    ensures Remap(Remap(value, maxInput, minInput, maxOutput, minOutput).value, maxOutput, minOutput, maxInput, minInput)
         == Ok(ClampInput(value, maxInput, minInput))
  {
    var c := ClampInput(value, maxInput, minInput);
    var inSpan, outSpan := maxInput - minInput, maxOutput - minOutput;
    var t := (c - minInput) / inSpan;
    var y := minOutput + t * outSpan;
    RemapValue(value, maxInput, minInput, maxOutput, minOutput);
    DivBounds(c - minInput, inSpan);
    MulBounds(t, outSpan);
    assert ClampInput(y, maxOutput, minOutput) == y;
    RemapValue(y, maxOutput, minOutput, maxInput, minInput);
    DivCancels(t, outSpan);
    assert (y - minOutput) / outSpan == t;
    assert t * inSpan == c - minInput;
  }
}
