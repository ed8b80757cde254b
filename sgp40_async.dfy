/**
 * The async SGP40 VOC driver (I2C address 0x59). A raw measurement is
 * requested with the compensation humidity and temperature as two checked
 * words, answered with one checked word, and fed to the VOC index
 * algorithm the driver owns. The serial number is three words whose
 * checksums are skipped.
 */
module Sgp40Async {
  import opened Common
  import Crc8
  import opened I2c
  import opened SensirionFrame
  import opened SensirionAsync
  import opened Fixed
  import VocIndex

  const SENSOR_ADDR: bv8 := 0x59

  /** The pause between the measurement command and reading its result, in milliseconds. */
  const MEASURE_DELAY_MS: nat := 30

  datatype Command = MeasureRaw | ExecuteSelfTest | TurnHeaterOff | GetSerialNumber
  {
    function Raw(): bv16
    {
      match this
      case MeasureRaw => 0x260f
      case ExecuteSelfTest => 0x280e
      case TurnHeaterOff => 0x3615
      case GetSerialNumber => 0x3682
    }
  }

  /** No two commands share an opcode. */
  lemma RawInjective()
    ensures forall a: Command, b: Command :: a.Raw() == b.Raw() ==> a == b
  {
  }

  datatype Measurement = Measurement(voc_index: nat, raw: bv16)

  /**
   * `compose_command`: the opcode, then the humidity and temperature
   * words (already scaled to sensor ticks), each followed by its checksum.
   */
  function ComposeCommand(command: Command, humidity: bv16, temperature: bv16): (r: seq<bv8>)
    ensures |r| == 8 && r[..2] == BeBytes(command.Raw())
  {
    BeBytes(command.Raw()) + DataWord(humidity) + DataWord(temperature)
  }

  /** The sensor reads back both compensation words, each passing its checksum. */
  lemma ComposedWordsCheck(command: Command, humidity: bv16, temperature: bv16)
    ensures var frame := ComposeCommand(command, humidity, temperature);
      CheckedWord(frame[2..5]) == Some(humidity) && CheckedWord(frame[5..8]) == Some(temperature)
  {
    var frame := ComposeCommand(command, humidity, temperature);
    assert frame[2..5] == DataWord(humidity);
    assert frame[5..8] == DataWord(temperature);
    WordRoundTrip(humidity);
    WordRoundTrip(temperature);
  }

  /** `parse_raw_measurement`: the word of a three-byte answer whose checksum matches. */
  function ParseRawMeasurement(data: seq<bv8>): (r: Result<bv16, ParsingError>)
    requires |data| == 3
    ensures r.Err? <==> Crc8.Crc(data[..2]) != data[2]
    ensures r.Ok? ==> data == DataWord(r.value)
  {
    match CheckedWord(data)
    case None => Err(ParsingError.Crc)
    case Some(w) => Ok(w)
  }

  /** A raw read is a checked word read: the raw exchange plus the parse give what `WordReply` does. */
  lemma RawMeasurementIsWordRead(rx: seq<bv8>, online: bool)
    ensures match RawReply(rx, online, 3)
      case Err(e) => WordReply(rx, online, true) == Err(e)
      case Ok(data) => WordReply(rx, online, true)
                       == (if ParseRawMeasurement(data).Ok? then Ok(ParseRawMeasurement(data).value)
                           else Err(Parsing(ParsingError.Crc)))
  {
    if online && 3 <= |rx| {
      assert rx[..3][..2] == rx[..2];
    }
  }

  /** The byte of `x` that starts at bit `shift`. */
  function Byte(x: bv64, shift: nat): bv8
    requires shift < 64
  {
    ((x >> shift) & 0xFF) as bv8
  }

  /** The 48-bit serial number: bytes 0, 1, 3, 4, 6 and 7 of the answer, most significant first. */
  function SerialNumber(b: seq<bv8>): (r: bv64)
    requires |b| == 9
    ensures r < 0x1_0000_0000_0000
    ensures Byte(r, 40) == b[0] && Byte(r, 32) == b[1] && Byte(r, 24) == b[3]
    ensures Byte(r, 16) == b[4] && Byte(r, 8) == b[6] && Byte(r, 0) == b[7]
  {
    (b[0] as bv64 << 40) | (b[1] as bv64 << 32) | (b[3] as bv64 << 24)
    | (b[4] as bv64 << 16) | (b[6] as bv64 << 8) | b[7] as bv64
  }

  /** The checksum bytes 2, 5 and 8 play no part in the serial number. */
  lemma SerialIgnoresChecksums(b: seq<bv8>, c: seq<bv8>)
    requires |b| == 9 && |c| == 9
    requires b[0] == c[0] && b[1] == c[1] && b[3] == c[3] && b[4] == c[4] && b[6] == c[6] && b[7] == c[7]
    ensures SerialNumber(b) == SerialNumber(c)
  {
  }

  /** Different data bytes give different serial numbers. */
  lemma SerialInjective(b: seq<bv8>, c: seq<bv8>)
    requires |b| == 9 && |c| == 9 && SerialNumber(b) == SerialNumber(c)
    ensures b[0] == c[0] && b[1] == c[1] && b[3] == c[3] && b[4] == c[4] && b[6] == c[6] && b[7] == c[7]
  {
  }

  /** `process(raw) as u16`: the index truncated to its low 16 bits. */
  function VocReport(index: int): (r: nat)
    ensures r < 0x1_0000 && (r - index) % 0x1_0000 == 0
    ensures 0 <= index < 0x1_0000 ==> r == index
  {
    index % 0x1_0000
  }

  /** Why a measurement ends without a result: the driver's error, or an abort inside the algorithm. */
  datatype ReadError = Failed(error: Error) | Aborted(fault: Fault)

  class Sgp40 {
    const i2c: SensirionI2c
    const voc: VocIndex.VocAlgorithm

    constructor (bus: Bus)
      ensures i2c.bus == bus && fresh(i2c) && fresh(i2c.crc) && fresh(voc) && fresh(voc.lowpass)
      ensures voc.State() == VocIndex.DefaultAlgorithm()
    {
      i2c := new SensirionI2c(bus);
      voc := new VocIndex.VocAlgorithm();
    }

    /** `read_raw`: the compensated measurement command, a 30 ms pause, a checked three-byte answer. */
    method ReadRaw(humidity: bv16, temperature: bv16) returns (r: Result<bv16, Error>)
      modifies i2c.bus`log, i2c.bus`rx
      ensures r == WordReply(old(i2c.bus.rx), i2c.bus.online, true)
      ensures i2c.bus.log == old(i2c.bus.log) + [Transfer.Write(SENSOR_ADDR, ComposeCommand(MeasureRaw, humidity, temperature))]
                             + (if i2c.bus.online then [Delay(MEASURE_DELAY_MS), Transfer.Read(SENSOR_ADDR, 3)] else [])
      ensures i2c.bus.rx == Remaining(old(i2c.bus.rx), i2c.bus.online, 3)
    {
      RawMeasurementIsWordRead(i2c.bus.rx, i2c.bus.online);
      var writeData := ComposeCommand(MeasureRaw, humidity, temperature);
      var result :- i2c.WriteReadRaw(SENSOR_ADDR, writeData, 3, MEASURE_DELAY_MS);
      var parsed := ParseRawMeasurement(result);
      if parsed.Err? {
        return Err(Parsing(parsed.error));
      }
      r := Ok(parsed.value);
    }

    /**
     * `read`: a raw measurement, then one step of the VOC algorithm on it.
     * A failed raw read leaves the algorithm untouched.
     */
    method Read(humidity: bv16, temperature: bv16) returns (r: Result<Measurement, ReadError>)
      modifies i2c.bus`log, i2c.bus`rx, voc, voc.lowpass
      ensures var word := WordReply(old(i2c.bus.rx), i2c.bus.online, true);
        word.Err? ==> r == Err(Failed(word.error)) && voc.State() == old(voc.State())
      ensures var word := WordReply(old(i2c.bus.rx), i2c.bus.online, true);
        word.Ok? ==> var step := VocIndex.Step(old(voc.State()), word.value as int);
          && (step.Err? ==> r == Err(Aborted(step.error)))
          && (step.Ok? ==> r == Ok(Measurement(VocReport(step.value.1), word.value)) && voc.State() == step.value.0)
      ensures i2c.bus.log == old(i2c.bus.log) + [Transfer.Write(SENSOR_ADDR, ComposeCommand(MeasureRaw, humidity, temperature))]
                             + (if i2c.bus.online then [Delay(MEASURE_DELAY_MS), Transfer.Read(SENSOR_ADDR, 3)] else [])
      ensures i2c.bus.rx == Remaining(old(i2c.bus.rx), i2c.bus.online, 3)
    {
      var raw := ReadRaw(humidity, temperature);
      if raw.Err? {
        return Err(Failed(raw.error));
      }
      var index := voc.Process(raw.value as int);
      if index.Err? {
        return Err(Aborted(index.error));
      }
      r := Ok(Measurement(VocReport(index.value), raw.value));
    }

    /** `get_serial_number`: an unchecked nine-byte read. */
    method GetSerialNumber() returns (r: Result<bv64, Error>)
      modifies i2c.bus`log, i2c.bus`rx
      ensures r.Ok? <==> i2c.bus.online && 9 <= |old(i2c.bus.rx)|
      ensures r.Ok? ==> r.value == SerialNumber(old(i2c.bus.rx)[..9])
      ensures r.Err? ==> r.error == Bus(Nack)
      ensures i2c.bus.log == old(i2c.bus.log) + RequestLog(SENSOR_ADDR, BeBytes(Command.GetSerialNumber.Raw()), i2c.bus.online, 9)
      ensures i2c.bus.rx == Remaining(old(i2c.bus.rx), i2c.bus.online, 9)
    {
      var buffer :- i2c.ReadRaw(SENSOR_ADDR, Command.GetSerialNumber.Raw(), 9);
      r := Ok(SerialNumber(buffer));
    }
  }
}
