/**
 * The command codec of the GrovePi host driver.  Every operation sends at
 * most one 4-byte frame `[opcode, a, b, c]` (unused slots 0) to the
 * microcontroller at ADDRESS through the retrying write helper, which
 * attempts it 1 to RETRIES times; pinMode sends none for a mode other than
 * "OUTPUT" or "INPUT".  The read operations then read the reply through the
 * retrying read helpers and decode it.
 */
module GrovePi {
  import opened Wrappers
  import opened Transport
  import opened PyFormat

  /** I2C address of the microcontroller. */
  const ADDRESS: Byte := 0x04

  /** Filler for the argument slots a command does not use. */
  const UNUSED: Byte := 0

  // Command opcodes, the first byte of every frame.
  const DIGITAL_READ_CMD: Byte := 1
  const DIGITAL_WRITE_CMD: Byte := 2
  const ANALOG_READ_CMD: Byte := 3
  const ANALOG_WRITE_CMD: Byte := 4
  const PIN_MODE_CMD: Byte := 5
  const VERSION_CMD: Byte := 8

  // Mode bytes of the pin-mode command.
  const OUTPUT_MODE: Byte := 1
  const INPUT_MODE: Byte := 0

  /** The logical operations of the codec, with their arguments. */
  datatype Command =
    | DigitalReadCmd(pin: Byte)
    | DigitalWriteCmd(pin: Byte, value: Byte)
    | PinModeCmd(pin: Byte, output: bool)
    | AnalogReadCmd(pin: Byte)
    | AnalogWriteCmd(pin: Byte, value: Byte)
    | VersionCmd

  /** Python exceptions the read operations can raise while decoding. */
  datatype Fault =
    | TypeError   // the block read degraded to the int -1, which cannot be indexed
    | IndexError  // the block read returned too few bytes

  /** A Python call that either returns a value or raises. */
  datatype PyResult<T> = Return(value: T) | Raise(fault: Fault)

  function Opcode(c: Command): Byte
  {
    match c
    case DigitalReadCmd(_) => DIGITAL_READ_CMD
    case DigitalWriteCmd(_, _) => DIGITAL_WRITE_CMD
    case PinModeCmd(_, _) => PIN_MODE_CMD
    case AnalogReadCmd(_) => ANALOG_READ_CMD
    case AnalogWriteCmd(_, _) => ANALOG_WRITE_CMD
    case VersionCmd => VERSION_CMD
  }

  /** The frame a command is sent as. */
  function Encode(c: Command): (frame: seq<Byte>)
    ensures |frame| == 4
    ensures frame[0] == Opcode(c)
    ensures frame[3] == UNUSED
    ensures !c.VersionCmd? ==> frame[1] == c.pin
    ensures c.VersionCmd? ==> frame[1] == UNUSED
    ensures c.DigitalReadCmd? || c.AnalogReadCmd? || c.VersionCmd? ==> frame[2] == UNUSED
    ensures c.DigitalWriteCmd? || c.AnalogWriteCmd? ==> frame[2] == c.value
    ensures c.PinModeCmd? ==> frame[2] == (if c.output then OUTPUT_MODE else INPUT_MODE)
  {
    match c
    case DigitalReadCmd(pin) => [DIGITAL_READ_CMD] + [pin, UNUSED, UNUSED]
    case DigitalWriteCmd(pin, value) => [DIGITAL_WRITE_CMD] + [pin, value, UNUSED]
    case PinModeCmd(pin, output) =>
      [PIN_MODE_CMD] + [pin, if output then OUTPUT_MODE else INPUT_MODE, UNUSED]
    case AnalogReadCmd(pin) => [ANALOG_READ_CMD] + [pin, UNUSED, UNUSED]
    case AnalogWriteCmd(pin, value) => [ANALOG_WRITE_CMD] + [pin, value, UNUSED]
    case VersionCmd => [VERSION_CMD] + [UNUSED, UNUSED, UNUSED]
  }

  /** The inverse of `Encode`: the command a frame stands for, if any. */
  function Decode(frame: seq<Byte>): Option<Command>
  {
    if |frame| != 4 || frame[3] != UNUSED then None
    else
      var op, a, b := frame[0], frame[1], frame[2];
      if op == DIGITAL_READ_CMD && b == UNUSED then Some(DigitalReadCmd(a))
      else if op == DIGITAL_WRITE_CMD then Some(DigitalWriteCmd(a, b))
      else if op == PIN_MODE_CMD && (b == OUTPUT_MODE || b == INPUT_MODE) then Some(PinModeCmd(a, b == OUTPUT_MODE))
      else if op == ANALOG_READ_CMD && b == UNUSED then Some(AnalogReadCmd(a))
      else if op == ANALOG_WRITE_CMD then Some(AnalogWriteCmd(a, b))
      else if op == VERSION_CMD && a == UNUSED && b == UNUSED then Some(VersionCmd)
      else None
  }

  /** Every frame determines the command it was built from. */
  lemma DecodeEncode(c: Command)
    ensures Decode(Encode(c)) == Some(c)
  {
  }

  /** A frame that decodes is exactly the encoding of its command, so unused slots are 0. */
  lemma EncodeDecode(frame: seq<Byte>)
    ensures Decode(frame).Some? ==> Encode(Decode(frame).value) == frame
  {
  }

  /** The command `pinMode(pin, mode)` sends: OUTPUT and INPUT select a mode byte, any other string sends nothing. */
  function PinModeCommand(pin: Byte, mode: string): (c: Option<Command>)
    ensures c.Some? <==> mode == "OUTPUT" || mode == "INPUT"
    ensures mode == "OUTPUT" ==> c.Some? && Encode(c.value) == [5, pin, 1, 0]
    ensures mode == "INPUT" ==> c.Some? && Encode(c.value) == [5, pin, 0, 0]
  {
    if mode == "OUTPUT" then Some(PinModeCmd(pin, true))
    else if mode == "INPUT" then Some(PinModeCmd(pin, false))
    else None
  }

  /** `number[1] * 256 + number[2]` applied to what the block read returned. */
  function DecodeAnalog(number: Reply<seq<Byte>>): (r: PyResult<int>)
    ensures r == Raise(TypeError) <==> number.MinusOne?
    ensures r == Raise(IndexError) <==> number.Returned? && |number.value| < 3
    ensures r.Return? ==> 0 <= r.value < 65536
  {
    match number
    case MinusOne => Raise(TypeError)
    case Returned(block) =>
      if |block| < 3 then Raise(IndexError)
      else
        Return((block[1] as int) * 256 + block[2])
  }

  /** Any 16-bit value sent high byte first in slots 1 and 2 decodes back to itself. */
  lemma AnalogRoundTrip(lead: Byte, v: int, rest: seq<Byte>)
    requires 0 <= v < 65536
    ensures DecodeAnalog(Returned([lead, v / 256, v % 256] + rest)) == Return(v)
  {
  }

  /** Two blocks that decode to the same reading agree on the high and the low byte. */
  lemma AnalogInjective(b: seq<Byte>, c: seq<Byte>)
    requires DecodeAnalog(Returned(b)).Return? && DecodeAnalog(Returned(c)).Return?
    requires DecodeAnalog(Returned(b)) == DecodeAnalog(Returned(c))
    ensures b[1] == c[1] && b[2] == c[2]
  {
  }

  /** `"%s.%s.%s" % (number[1], number[2], number[3])` applied to what the block read returned. */
  function FormatVersion(number: Reply<seq<Byte>>): (r: PyResult<string>)
    ensures r == Raise(TypeError) <==> number.MinusOne?
    ensures r == Raise(IndexError) <==> number.Returned? && |number.value| < 4
    ensures r.Return? ==>
      ParseDottedTriple(r.value) == Some((number.value[1], number.value[2], number.value[3]))
  {
    match number
    case MinusOne => Raise(TypeError)
    case Returned(block) =>
      if |block| < 4 then Raise(IndexError)
      else
        DottedTripleRoundTrip(block[1], block[2], block[3]);
        Return(DottedTriple(block[1], block[2], block[3]))
  }

  /** A reply block `[_, 1, 2, 3]` formats as "1.2.3". */
  lemma VersionExample(lead: Byte)
    ensures FormatVersion(Returned([lead, 1, 2, 3])) == Return("1.2.3")
  {
    assert Decimal(1) == "1";
    assert Decimal(2) == "2";
    assert Decimal(3) == "3";
    assert DottedTriple(1, 2, 3) == "1.2.3";
  }

  // The operations.  Each leaves every script as its helpers left it and
  // appends to the trace the attempts its helpers made, in order.

  /** digitalRead(pin): write the command, return the single-byte read unchanged (-1 included). */
  method DigitalRead(bus: Bus, pin: Byte) returns (n: int)
    modifies bus
    ensures n == ByteOrMinusOne(Retry(old(bus.byteScript), RETRIES).reply)
    ensures bus.writeScript == Remaining(old(bus.writeScript))
    ensures bus.byteScript == Remaining(old(bus.byteScript))
    ensures bus.blockScript == old(bus.blockScript)
    ensures bus.trace == old(bus.trace)
      + WriteTrace(ADDRESS, Encode(DigitalReadCmd(pin)), old(bus.writeScript))
      + ByteTrace(ADDRESS, old(bus.byteScript))
  {
    var _ := WriteI2cBlock(bus, ADDRESS, Encode(DigitalReadCmd(pin)));
    n := ReadI2cByte(bus, ADDRESS);
  }

  /** digitalWrite(pin, value): one write of the command; returns 1 whatever the bus did. */
  method DigitalWrite(bus: Bus, pin: Byte, value: Byte) returns (r: int)
    modifies bus
    ensures r == 1
    ensures bus.writeScript == Remaining(old(bus.writeScript))
    ensures bus.byteScript == old(bus.byteScript) && bus.blockScript == old(bus.blockScript)
    ensures bus.trace == old(bus.trace)
      + WriteTrace(ADDRESS, Encode(DigitalWriteCmd(pin, value)), old(bus.writeScript))
  {
    var _ := WriteI2cBlock(bus, ADDRESS, Encode(DigitalWriteCmd(pin, value)));
    return 1;
  }

  /** pinMode(pin, mode): one write for "OUTPUT" or "INPUT", nothing otherwise; returns 1 either way. */
  method PinMode(bus: Bus, pin: Byte, mode: string) returns (r: int)
    modifies bus
    ensures r == 1
    ensures bus.byteScript == old(bus.byteScript) && bus.blockScript == old(bus.blockScript)
    ensures PinModeCommand(pin, mode).Some? ==>
      bus.writeScript == Remaining(old(bus.writeScript)) &&
      bus.trace == old(bus.trace)
        + WriteTrace(ADDRESS, Encode(PinModeCommand(pin, mode).value), old(bus.writeScript))
    ensures PinModeCommand(pin, mode).None? ==>
      bus.writeScript == old(bus.writeScript) && bus.trace == old(bus.trace)
  {
    if mode == "OUTPUT" {
      var _ := WriteI2cBlock(bus, ADDRESS, Encode(PinModeCmd(pin, true)));
    } else if mode == "INPUT" {
      var _ := WriteI2cBlock(bus, ADDRESS, Encode(PinModeCmd(pin, false)));
    }
    return 1;
  }

  /** analogRead(pin): write, discard one byte read, decode the block read. */
  method AnalogRead(bus: Bus, pin: Byte) returns (r: PyResult<int>)
    modifies bus
    ensures r == DecodeAnalog(Retry(old(bus.blockScript), RETRIES).reply)
    ensures bus.writeScript == Remaining(old(bus.writeScript))
    ensures bus.byteScript == Remaining(old(bus.byteScript))
    ensures bus.blockScript == Remaining(old(bus.blockScript))
    ensures bus.trace == old(bus.trace)
      + WriteTrace(ADDRESS, Encode(AnalogReadCmd(pin)), old(bus.writeScript))
      + ByteTrace(ADDRESS, old(bus.byteScript))
      + BlockTrace(ADDRESS, old(bus.blockScript))
  {
    var _ := WriteI2cBlock(bus, ADDRESS, Encode(AnalogReadCmd(pin)));
    var _ := ReadI2cByte(bus, ADDRESS);
    var number := ReadI2cBlock(bus, ADDRESS);
    r := DecodeAnalog(number);
  }

  /** analogWrite(pin, value): one write of the PWM command; returns 1 whatever the bus did. */
  method AnalogWrite(bus: Bus, pin: Byte, value: Byte) returns (r: int)
    modifies bus
    ensures r == 1
    ensures bus.writeScript == Remaining(old(bus.writeScript))
    ensures bus.byteScript == old(bus.byteScript) && bus.blockScript == old(bus.blockScript)
    ensures bus.trace == old(bus.trace)
      + WriteTrace(ADDRESS, Encode(AnalogWriteCmd(pin, value)), old(bus.writeScript))
  {
    var _ := WriteI2cBlock(bus, ADDRESS, Encode(AnalogWriteCmd(pin, value)));
    return 1;
  }

  /** version(): write [8, 0, 0, 0], discard one byte read, format bytes 1..3 of the block read. */
  method Version(bus: Bus) returns (r: PyResult<string>)
    modifies bus
    ensures r == FormatVersion(Retry(old(bus.blockScript), RETRIES).reply)
    ensures bus.writeScript == Remaining(old(bus.writeScript))
    ensures bus.byteScript == Remaining(old(bus.byteScript))
    ensures bus.blockScript == Remaining(old(bus.blockScript))
    ensures bus.trace == old(bus.trace)
      + WriteTrace(ADDRESS, Encode(VersionCmd), old(bus.writeScript))
      + ByteTrace(ADDRESS, old(bus.byteScript))
      + BlockTrace(ADDRESS, old(bus.blockScript))
  {
    var _ := WriteI2cBlock(bus, ADDRESS, Encode(VersionCmd));
    var _ := ReadI2cByte(bus, ADDRESS);
    var number := ReadI2cBlock(bus, ADDRESS);
    r := FormatVersion(number);
  }

  /** Each write helper call puts between 1 and RETRIES copies of one frame on the bus. */
  lemma WriteTraceShape(block: seq<Byte>, script: seq<Attempt<()>>)
    ensures 1 <= |WriteTrace(ADDRESS, block, script)| <= RETRIES
    ensures forall i :: 0 <= i < |WriteTrace(ADDRESS, block, script)| ==>
      WriteTrace(ADDRESS, block, script)[i] == WriteBlockData(ADDRESS, REGISTER, block)
  {
  }
}
