# R2D2 droid serial protocol, modelled in Dafny

This project models the control core of an R2D2 droid's Raspberry Pi software. It covers:

- the range checks (`NumericLimit`, `ListLimit`, the shared `Limits`);
- the saturating percentage type;
- the unit remapping and protocol constants;
- the serial packets, with their encoders, decoders and dispatch table;
- framing and parsing on the serial bus;
- the movement and dome command generators (both copies);
- the older telemetry packet module;
- the speech library's emotion filter.

The model follows the code as written. Python exceptions are explicit `Err` results, tagged by exception class. Doc comments sometimes promise more than the code does. There, the documented behaviour is a separate function, and a lemma shows where the two part ways.

Several things never succeed as written:

- CoreSleep packets (the POSITIVE_INT check passes nothing);
- Drive packets (an attribute that does not exist);
- Turn packets (floats passed to `bytes()`);
- every `from_bytes` decoder (one name too many in the unpacking);
- every `receive` call;
- every wheel or dome turn.

The model proves each of those outcomes for all inputs. It also proves the positive properties the code relies on:

- the byte layouts and the MSB/LSB split;
- remap's clamp, endpoints, monotonicity and inverse;
- the framing round-trip;
- the saturating arithmetic;
- the three emotion filters.

Modules: `Py` (exceptions, `None`, `bytes(list)`, `int(float)`), `Struct` (the four `struct` formats used), `Limits`, `Consts`, `CustomTypes`, `SerialPackets`, `PacketMapping`, `Serial`, `Movement`, `MotionControllers`, `TelemetryPackets`, `Library`.

Stateful parts are classes:

- a packet object whose `set` changes its data;
- `LimitedSignedPercentage`, whose `+=`, `-=` and `*` update it in place;
- the serial communicator, whose port is an open flag, the bytes written and the queue of lines still to be read;
- the shared word bank and the speech library, whose `get_words` loop rewrites every word's path and sets the matched words' interface in place.

`os.path.join` is a function parameter. Whether pyserial can open the port is a boolean parameter. Audio interfaces are opaque handles.

Several doc comments disagree with the code. The model follows the code; among them:

- The `NumericLimit` docstrings (pi/Limits.py:34-50 and 56-57) and those of the shared limits (pi/Limits.py:150-173) call the bounds inclusive and show `assert_value(0)` passing on [0, 100]. The code rejects the bounds themselves (`Limits.BoundsRejectedContraryToDoc`). POSITIVE_INT is documented as accepting every integer above 0, but it accepts nothing (`Limits.PositiveIntAcceptsNothing`).
- The `assert_value` docstring (pi/Limits.py:73-75) promises the closest valid value in silent mode. For a value equal to the minimum of a two-sided limit, the code returns the maximum (pi/Limits.py:95; `Limits.AssertValue`).
- The MotorSpeed constructor's docstring (pi/Serial/SerialPackets.py:134-135) says negative speeds mean reverse rotation. `bytes()` rejects every negative speed with ValueError (`SerialPackets.MotorSpeedCases`).
- The `start_moving` docstrings (pi/Movement/Movement.py:33-34, pi/Movement/MotionControllers.py:33-34) call speeds 0 to 100 valid. The default of 100 fails the check, and BACKWARD succeeds only for speeds at or below 0 (`Movement.StartMoving`). The default speed of 100 of `MovementController.turn` and `DomeController.turn` (pi/Movement/Movement.py:63, 113) also always fails (`Movement.DefaultSpeedFails`).
- The CoreSleep constructor's docstring (pi/Serial/SerialPackets.py:88-93) lists CORE, SLEEP, then the period's MSB and LSB. The code emits the period as one byte, after a check that rejects every value (`SerialPackets.CoreSleepLayoutDiffers`).
- The `Movement.turn` docstring says LEFT with a positive angle turns left. The code sends the same wheel speeds as for RIGHT (`Movement.TargetAngleVersusDoc`).

## Model

| member | source | states |
|---|---|---|
| Py.BytesOf | pi/Serial/SerialPackets.py:102 | `bytes(list)` succeeds exactly when every element is an int in 0..255, and then returns those values; the first element that is not such an int decides the exception: TypeError for a float, ValueError for an int out of range |
| Py.BytesOfInts | pi/Serial/SerialPackets.py:143 | `bytes` of a list of ints that are all bytes returns exactly that list |
| Py.LessEq | pi/Limits.py:93 | `value <= bound` succeeds exactly for a number and an int bound, with the numeric comparison's result; a byte string or a None bound raises TypeError |
| Py.CallArity | pi/Serial/Serial.py:78 | a call succeeds exactly when the number of positional arguments is the number required; otherwise TypeError |
| Py.Trunc | pi/Consts.py:210 | `int()` of a float truncates toward zero: the result is within one of the argument, on the side of zero |
| Struct.Unpack | pi/Serial/Serial.py:72 | `struct.unpack` raises `struct.error` unless the input has exactly the format's size, and otherwise yields the format's item count; the three integer formats yield only integers |
| Struct.SplitJoin16 | pi/Serial/SerialPackets.py:190-191 | splitting a two-byte value into its high and low byte gives two bytes that recombine big-endian to the value |
| Struct.JoinSplit16 | pi/Serial/SerialPackets.py:206 | joining two bytes big-endian gives a 16-bit value whose high and low bytes are those two bytes |
| Struct.UnpackPack | pi/Serial/SerialPackets.py:110 | unpacking packed items gives the items back; a one-byte string survives exactly when it is one byte long |
| Struct.PackUnpack | pi/Serial/SerialPackets.py:147 | packing the items unpacked from a byte string gives the byte string back |
| Limits.NewNumericLimit | pi/Limits.py:52-66 | construction fails with ValueError exactly when both bounds are None; otherwise the bounds are stored as given |
| Limits.AssertValue | pi/Limits.py:68-98 | loud mode returns None or raises AssertionError or TypeError; silent mode never raises AssertionError; a two-sided limit passes exactly the values strictly between its bounds, and loud mode raises AssertionError for the rest; silent mode returns min below min, and max at min or at or above max; a one-sided limit raises for every value in loud mode; in silent mode it returns the bound for a value at or beyond it (None at a minimum of 0) and raises TypeError for any other value |
| Limits.BoundsRejectedContraryToDoc | pi/Limits.py:38-41 | for every value within a two-sided range, the documented behaviour accepts it, while the code accepts it exactly when it is not one of the bounds |
| Limits.LimitsAttr | pi/Limits.py:145-173 | attribute lookup on `Limits` succeeds for its five limit names only; any other name raises AttributeError |
| Limits.PositiveIntAcceptsNothing | pi/Limits.py:79-93 | POSITIVE_INT raises AssertionError for values up to 0 and TypeError above 0 in loud mode; in silent mode it returns 0 below 0, None at 0 and raises TypeError above 0 |
| Limits.LimitTestCases | pi/UnitTests/Limits.py:9-42 | on [0, 100], 50.0 passes, -1 and 101 raise in loud mode, and silent mode returns 0 for -1 and 100 for 101 |
| Limits.NewListLimit | pi/Limits.py:127-139 | construction succeeds exactly for a list or a set, which is stored; anything else raises TypeError |
| Limits.ListAssertValue | pi/Limits.py:141-142 | passes exactly the members of the collection, whatever the silent flag; other values raise AssertionError |
| Consts.CodesAreDistinctBytes | pi/Consts.py:140-173 | all packet types and sub-types are bytes, the five packet types are pairwise distinct, and the three motor sub-types are distinct |
| Consts.Remap | pi/Consts.py:223-238 | ZeroDivisionError exactly when the input bounds are equal; a value at or beyond an input bound maps to the matching output bound; on a proper input range the result lies within the output range |
| Consts.RemapClamps | pi/Consts.py:230-231 | remapping a value equals remapping its clamp into the input range, and the clamp leaves in-range values alone |
| Consts.RemapMonotone | pi/Consts.py:230-238 | on a proper input range with min output at most max output, remap is monotone non-decreasing |
| Consts.RemapInverse | pi/Consts.py:225-238 | remapping the result back with the two ranges swapped recovers the clamped input |
| SerialPackets.NewBasicPacket | pi/Serial/SerialPackets.py:16-34 | construction succeeds exactly for a declared byte type with bytes data; an undeclared type raises ValueError and non-bytes data raises TypeError; the packet's bytes are the type byte followed by the data |
| SerialPackets.PacketObject.Set | pi/Serial/SerialPackets.py:45-65 | `set` replaces the data exactly when it is bytes, and raises TypeError with nothing changed otherwise; the `bytes` property returns the construction-time bytes either way |
| SerialPackets.CoreSleep | pi/Serial/SerialPackets.py:87-102 | every sleep period fails: AssertionError for values up to 0, TypeError above 0 (the POSITIVE_INT check) |
| SerialPackets.CoreSleepLayoutDiffers | pi/Serial/SerialPackets.py:89-111 | the documented four-byte layout is what `from_bytes`'s ">H" reads back; the one-byte payload the code would build is refused by ">H"; 300 would be [0x00, 0x01, 0x01, 0x2C] by the documentation, while the code rejects it |
| SerialPackets.MotorSpeed | pi/Serial/SerialPackets.py:124-143 | encoding succeeds exactly for a byte motor id and a speed in 0..99; a speed outside (-100, 100) raises AssertionError, otherwise a failure is ValueError; the bytes are [MOTORS, SPEED, motor id, speed] |
| SerialPackets.ClassTableMatchesLayouts | pi/Serial/SerialPackets.py:88-202 | the packet type and sub-type the class table gives each class are the first two bytes of a MotorSpeed packet and of the documented CoreSleep and Drive layouts; Turn's entry is MOTORS and TURN, as its constructor passes them |
| SerialPackets.MotorSpeedCases | pi/UnitTests/Serial.py:10-25 | motor 5 at 95 encodes as [0x01, 0x01, 0x05, 0x5F]; a negative speed that passes the limit raises ValueError |
| SerialPackets.Drive | pi/Serial/SerialPackets.py:164-202 | every call raises AttributeError, because `Limits.TWO_BYTE_UINT` does not exist |
| SerialPackets.DriveLayoutRoundTrip | pi/Serial/SerialPackets.py:168-206 | for a two-byte distance, MSB and LSB are bytes that recombine as msb*256+lsb to the distance, and ">BHB" reads the documented payload back as (direction, distance, speed) |
| SerialPackets.DriveSpeedDoesNotRoundTrip | pi/Serial/SerialPackets.py:197-210 | decoding an encoded speed s in [0, 100] yields 2s - 100, which equals s only at 100 |
| SerialPackets.Turn | pi/Serial/SerialPackets.py:232-256 | every call raises TypeError, because the remapped angle is a float passed to `bytes()` |
| SerialPackets.TurnAngleDoesNotRoundTrip | pi/Serial/SerialPackets.py:245-266 | decoding an encoded angle a in [-100, 100] yields 1.8a, which equals a only at 0 |
| SerialPackets.TurnSpeedRoundTrips | pi/Serial/SerialPackets.py:252-268 | decoding an encoded speed in [0, 100] gives it back |
| SerialPackets.Destructure | pi/Serial/SerialPackets.py:110 | tuple unpacking succeeds exactly when the counts agree, binding the values unchanged; otherwise ValueError |
| SerialPackets.CoreSleepFromBytes | pi/Serial/SerialPackets.py:108-111 | every input fails: StructError unless it is 2 bytes long, and ValueError (too few values to unpack) when it is |
| SerialPackets.MotorSpeedFromBytes | pi/Serial/SerialPackets.py:145-148 | every input fails: StructError unless it is 2 bytes long, otherwise ValueError |
| SerialPackets.DriveFromBytes | pi/Serial/SerialPackets.py:204-212 | every input fails: StructError unless it is 4 bytes long, otherwise ValueError |
| SerialPackets.TurnFromBytes | pi/Serial/SerialPackets.py:258-270 | every input fails: StructError unless it is 2 bytes long, otherwise ValueError |
| SerialPackets.ConstructWithRawData | pi/Serial/Serial.py:77-78 | calling any packet class with the single raw data string raises TypeError: MotorSpeed, Drive and Turn for missing arguments, CoreSleep because POSITIVE_INT's check compares the byte string with an int |
| CustomTypes.AssertValid | pi/CustomTypes.py:85-90 | passes exactly the integers in [-100, 100], bounds included; otherwise ValueError |
| CustomTypes.SafeAdd | pi/CustomTypes.py:75-78 | the result is min(100, a+b): never above 100 or above the sum, equal to the sum whenever the sum is at most 100, and not bounded below |
| CustomTypes.SafeSub | pi/CustomTypes.py:80-83 | the result is max(-100, a-b): never below -100 or below the difference, equal to the difference whenever it is at least -100, and not bounded above |
| CustomTypes.LimitedSignedPercentage.New | pi/CustomTypes.py:14-17 | construction succeeds exactly for values in [-100, 100], giving a fresh object holding the value; otherwise ValueError |
| CustomTypes.LimitedSignedPercentage.Add | pi/CustomTypes.py:19-23 | with an int operand, returns the capped sum as a plain int; with a percentage operand, returns a fresh object holding the capped sum, or ValueError when that sum is below -100; neither operand changes |
| CustomTypes.LimitedSignedPercentage.IAdd | pi/CustomTypes.py:25-31 | `+=` overwrites the value with the capped sum, without re-checking its range, and returns the same object |
| CustomTypes.LimitedSignedPercentage.Sub | pi/CustomTypes.py:33-37 | with an int operand, returns the floored difference as a plain int; with a percentage operand, returns a fresh object holding it, or ValueError when it is above 100 |
| CustomTypes.LimitedSignedPercentage.ISub | pi/CustomTypes.py:39-43 | `-=` overwrites the value with the floored difference and returns None |
| CustomTypes.LimitedSignedPercentage.Mul | pi/CustomTypes.py:45-58 | a product above 100 or below -100 gives a fresh object at that bound and leaves the object alone; otherwise the object takes the product and is returned |
| CustomTypes.LimitedSignedPercentage.Str | pi/CustomTypes.py:69-70 | `str()` ends in "%", and what precedes it parses back to the value |
| CustomTypes.IntStringRoundTrip | pi/CustomTypes.py:69-70 | parsing the decimal rendering of any integer gives the integer back |
| PacketMapping.Lookup | pi/Serial/PacketMapping.py:6-11 | the lookup succeeds exactly for a registered key, otherwise KeyError; the class found writes that key's packet type and sub-type |
| PacketMapping.MapEntries | pi/Serial/PacketMapping.py:6-11 | the keys are exactly (0,1), (1,1), (1,2) and (1,3); every class is registered; distinct keys map to distinct classes |
| PacketMapping.LookupFailures | pi/Serial/PacketMapping.py:7-8 | types other than CORE and MOTORS (SENSORS, CONT and LAST among them) are not registered; SLEEP and SPEED share the code 1, so the sub-type alone does not fix the class |
| Serial.RStrip | pi/Serial/Serial.py:71 | stripping gives a prefix of the line that is empty or does not end in 0x0A, and everything removed is 0x0A |
| Serial.FramingRoundTrip | pi/Serial/Serial.py:57-71 | stripping a sent line gives back the packet bytes exactly when they are empty or do not end in 0x0A |
| Serial.TrailingTerminatorTruncates | pi/Serial/Serial.py:71 | a packet ending in 0x0A arrives shorter than it was sent |
| Serial.ParseLine | pi/Serial/Serial.py:71-77 | a stripped line not 3 bytes long raises StructError, an undeclared type raises SerialException, an unregistered (type, sub-type) raises KeyError, and otherwise the result is the mapped class and the one data byte |
| Serial.ReceiveLine | pi/Serial/Serial.py:71-78 | no line yields a packet: a parse failure propagates unchanged, and a parsed line fails with TypeError when the class is called |
| Serial.MotorSpeedLineRejected | pi/Serial/Serial.py:57-78 | a sent MotorSpeed packet never reads back: a speed byte other than 0x0A gives StructError; a speed byte of 0x0A gives TypeError from the class call, or StructError when the motor id is 0x0A too; with a motor id of 0x0A, the first line `readline` returns (three bytes) also gives StructError |
| Serial.CheckConfig | pi/Serial/Serial.py:31-35 | the configuration passes exactly for a positive baud rate and a non-empty device; otherwise ValueError, with the baud rate checked first |
| Serial.SerialCommunicator.Open | pi/Serial/Serial.py:23-43 | a bad configuration raises ValueError; a port that does not open raises SerialException; otherwise the result is a fresh open communicator with the given device and baud rate, nothing written and the incoming lines pending |
| Serial.SerialCommunicator.Close | pi/Serial/Serial.py:45-46 | closing clears the open flag and changes nothing else |
| Serial.SerialCommunicator.Send | pi/Serial/Serial.py:48-59 | on an open port, appends exactly the packet's bytes and one 0x0A; on a closed port, raises SerialException and writes nothing |
| Serial.SerialCommunicator.Receive | pi/Serial/Serial.py:61-78 | on a closed port, raises SerialException and reads nothing; on an open port, consumes the next line (or reads none when none is pending) and fails exactly as that line's parse does; nothing is written |
| Movement.StopMotor | pi/Movement/Movement.py:10-18 | a byte motor id gives the bytes [0x01, 0x01, id, 0x00]; any other id raises ValueError |
| Movement.SignedSpeed | pi/Movement/Movement.py:40-44 | the speed is kept for FORWARD and negated for BACKWARD |
| Movement.StartMoving | pi/Movement/Movement.py:27-47 | a speed outside (-100, 100) raises AssertionError; the call succeeds exactly when FORWARD with speed 0..99 or BACKWARD with speed -99..0, and otherwise raises ValueError; on success, left then right packets carry the same signed speed |
| Movement.StopMoving | pi/Movement/Movement.py:50-58 | returns zero-speed packets for the left wheel, then the right |
| Movement.StopIsStartAtZero | pi/Movement/Movement.py:52 | `stop_moving` equals `start_moving` at speed 0 in either direction |
| Movement.TargetAngle | pi/Movement/Movement.py:86-89 | the target angle is the angle or its negation, and is negative exactly when the angle is negative and relative to the RIGHT |
| Movement.TargetAngleVersusDoc | pi/Movement/Movement.py:66-89 | code and documentation agree exactly for RIGHT or angles up to 0; LEFT with a positive angle gives a positive target, where the documentation implies a negative one |
| Movement.TurnWheelSpeeds | pi/Movement/Movement.py:91-102 | the right wheel gets the negation of the left wheel's speed, and the left wheel's speed is negated exactly when the target angle is negative |
| Movement.TurnSleepMs | pi/Movement/Movement.py:99 | the computed sleep is 0 ms, because TURNING_RATE is 0 |
| Movement.Turn | pi/Movement/Movement.py:61-104 | an angle outside (-180, 180), or then a speed outside (0, 100), raises AssertionError; every call that passes both checks raises ValueError, because one wheel speed is negative |
| Movement.DomeSpeed | pi/Movement/Movement.py:124-132 | the dome speed is negated exactly when the angle is negative and relative to the RIGHT |
| Movement.DefaultSpeedFails | pi/Movement/Movement.py:28-122 | `start_moving` with its default speed of 100 raises AssertionError, and so do the movement and dome `turn` with their default speed of 100, for every angle |
| Movement.DomeTurn | pi/Movement/Movement.py:113-137 | the same two checks raise AssertionError; past them, a negative dome speed raises ValueError, and otherwise the 0 ms sleep raises AssertionError |
| MotionControllers.StopMotor | pi/Movement/MotionControllers.py:10-18 | a byte motor id gives the bytes [0x01, 0x01, id, 0x00]; any other id raises ValueError |
| MotionControllers.StartMoving | pi/Movement/MotionControllers.py:27-47 | a speed outside (-100, 100) raises AssertionError; success exactly when FORWARD with speed 0..99 or BACKWARD with speed -99..0; both wheels get the signed speed |
| MotionControllers.StopMoving | pi/Movement/MotionControllers.py:50-58 | returns zero-speed packets for the left wheel, then the right |
| MotionControllers.Drive | pi/Movement/MotionControllers.py:61-71 | `drive` has no body besides its docstring: it returns None and builds no packet |
| MotionControllers.TurnWheelSpeeds | pi/Movement/MotionControllers.py:89-94 | the left wheel's speed is negated exactly when the angle is negative, and the right wheel runs opposite |
| MotionControllers.Turn | pi/Movement/MotionControllers.py:74-102 | the limit checks raise AssertionError; every call past them raises ValueError |
| MotionControllers.TurnIsRightRelative | pi/Movement/MotionControllers.py:74-102 | this `turn` and its wheel speeds equal the other copy's for an angle relative to the RIGHT |
| MotionControllers.DomeTurn | pi/Movement/MotionControllers.py:111-135 | the limit checks raise AssertionError; past them, ValueError when the angle is negative and relative to the RIGHT, otherwise AssertionError from the 0 ms sleep |
| TelemetryPackets.ImportFromLimits | pi/Telemetry/SerialPackets.py:5 | a `from Limits import` succeeds exactly when every name is defined by the Limits module; otherwise ImportError |
| TelemetryPackets.ModuleDoesNotLoad | pi/Telemetry/SerialPackets.py:5 | the module's import of `LimitNames` raises ImportError |
| TelemetryPackets.LegacyBasicPacket | pi/Telemetry/SerialPackets.py:8-63 | this module's packet types lack CORE, so a CORE packet raises ValueError, as does any undeclared type; a declared type with bytes data gives the bytes [type] + data; non-bytes data raises TypeError |
| TelemetryPackets.MotorSpeed | pi/Telemetry/SerialPackets.py:103-118 | every call raises AttributeError, because `Limits.assert_limit` does not exist |
| TelemetryPackets.MotorSpeedBody | pi/Telemetry/SerialPackets.py:117-118 | the field list encodes exactly when the motor id and speed are bytes, as [0x01, 0x01, id, speed]; otherwise ValueError |
| Library.Word.New | pi/Audio/Library.py:47-63 | a word is built exactly when the emotions are a list, otherwise TypeError; the interface attribute is set only when an interface is given |
| Library.WordBank.constructor | pi/Audio/Library.py:87-137 | the bank holds one fresh, distinct word per `WORDS` entry, in order, with the path joined under the audio directory, the entry's emotions and no interface |
| Library.BankIsPopulated | pi/Audio/Library.py:87-137 | the bank has 49 entries, so an empty query returns a non-empty list; "34.wav" occurs twice |
| Library.ToRequest | pi/Audio/Library.py:164-168 | a set stays a set; a list, or any other iterable, becomes a list of its emotions in the same order and with the same multiplicity; the request holds exactly the emotions of the argument |
| Library.Selected | pi/Audio/Library.py:179-197 | the selection holds exactly the words of the bank that match the filter, and no more words than the bank |
| Library.SelectedKeepsOrder | pi/Audio/Library.py:179-197 | the selection is a subsequence of the bank: bank order is kept |
| Library.SelectedIsDistinct | pi/Audio/Library.py:179-197 | from a bank of distinct words, the selection holds each word at most once |
| Library.FilterRelations | pi/Audio/Library.py:182-195 | for a non-empty request, every word INCLUDING selects is also selected by AT_LEAST_ONE; EXCLUSIVE selects nothing for a set request |
| Library.ExclusiveIsOrderSensitive | pi/Audio/Library.py:187-190 | "08.wav" ([HAPPY, CONFUSED]) matches EXCLUSIVE with [HAPPY, CONFUSED] but not with [CONFUSED, HAPPY], which INCLUDING does match |
| Library.Annotate | pi/Audio/Library.py:179-195 | the loop returns exactly the selection for the request; every word's path is joined under the parent path, matched words get the interface, and the rest keep theirs |
| Library.SpeechLibrary.constructor | pi/Audio/Library.py:142-150 | the library keeps the parent path and shares the bank |
| Library.SpeechLibrary.GetWords | pi/Audio/Library.py:152-197 | a non-iterable raises TypeError; an empty request returns the shared bank itself; an element that is not an Emotions member raises TypeError; these three change nothing; otherwise the result is the selection, every word's path is joined under the parent path (cumulatively across calls), and matched words get the interface |

## Left out

- Serial.SerialCommunicator.Open: pyserial opening, the 2-second read timeout and the blocking `readline` are left out. Whether the port opens is a parameter; a timed-out read is an empty pending line.
- Serial.SerialCommunicator.Send: a write failure (pyserial raising during `write`, re-raised as SerialException) is not modelled; an open port always accepts the write.
- Concurrency and timing are not modelled: everything here is sequential.
- `__str__` of packets and `__float__`, `__repr__` and `__divmod__` of `LimitedSignedPercentage` are left out: they are text and float conversions, or a stub. `__int__` is `LimitedSignedPercentage.AsInt`, which returns the stored value and has no further contract.
- CustomTypes: float operands and float `_value`s of `LimitedSignedPercentage` are not modelled; operands are integers or percentage objects.
- The property getters (`sleep_period`, `motor_id`, `speed`, `direction`, `distance`, `angle`, `device_name`, `baud_rate`, `min`, `max`) are left out: each returns a stored argument.
- SerialPackets: the `from_bytes` continuations past the failing unpacking are written out but never run, so no contract states them.
- Movement.Turn, Movement.DomeTurn, MotionControllers.Turn and MotionControllers.DomeTurn: the result list shapes ([left, right, sleep, stop list] and [dome speed, sleep, dome stop]) are written in the bodies only, because no input reaches them.
- `seconds_to_milliseconds` and `percentage_to_float` are modelled only as far as the turn sleep uses them; floating-point rounding is not modelled, and `remap` is exact over the reals.
- CONT and LAST have no semantics in the code beyond their values, so none is modelled.
- The legacy module's `set` and `bytes` are the same code as `SerialPackets.PacketObject`, which models them; its packet types are `TelemetryPackets.LegacyPacketTypes`.
- `direction in MovementDirection` is modelled by the `DirectionArg` type: a member, or the plain integer `from_bytes` passes. A plain integer raises TypeError, as in Python 3.8–3.11; Python 3.12's acceptance of an enum's raw values is not modelled. No input reaches this test, because Drive fails earlier.
- Enum membership through `__dict__.values()` is the set of the enum's values.
- Library: an unknown filtering method cannot be expressed, because the filter is an enumeration.
- Library: `Word.play` and `get_absolute_path`, the audio interface and playback are left out; `os.path.join` is an uninterpreted function parameter, and an audio interface is an opaque handle.
- Library.Word.New: an interface object that is falsy or not an `AudioInterface` is treated as not given.
- Exception messages are not modelled; only the exception class is.
- The configuration, logging, SCM and draft TLM modules are not part of this model.
