/**
 * The async SCD30 CO2/temperature/humidity driver (I2C address 0x61): its
 * command table, the word-level commands, and the parsing of the 18-byte
 * measurement into three floats.
 */
module Scd30Async {
  import opened Common
  import Crc8
  import Crc8Properties
  import opened I2c
  import opened SensirionFrame
  import opened SensirionAsync

  const SENSOR_ADDR: bv8 := 0x61

  datatype Command =
    | ReadFWVersion
    | StartContMeasurement
    | DataReady
    | SetInterval
    | ReadMeasurement
    | SetTemperatureOffset
  {
    function Raw(): bv16
    {
      match this
      case ReadFWVersion => 0xd100
      case StartContMeasurement => 0x0010
      case DataReady => 0x0202
      case ReadMeasurement => 0x0300
      case SetInterval => 0x4600
      case SetTemperatureOffset => 0x5403
    }
  }

  /** No two commands share an opcode. */
  lemma RawInjective()
    ensures forall a: Command, b: Command :: a.Raw() == b.Raw() ==> a == b
  {
  }

  datatype Measurement = Measurement(co2: F32, temperature: F32, humidity: F32)

  /** How the sensor lays out a measurement: CO2, temperature, humidity. */
  function EncodeMeasurement(m: Measurement): (r: seq<bv8>)
    ensures |r| == 18
  {
    FloatGroup(m.co2) + FloatGroup(m.temperature) + FloatGroup(m.humidity)
  }

  /**
   * `slice_to_f32`: a slice is accepted exactly when it is six bytes long
   * and is the sensor's encoding of a float, and then that float is the
   * result.
   */
  function SliceToF32(slice: seq<bv8>): (r: Result<F32, ParsingError>)
    ensures r.Ok? <==> |slice| == 6 && CheckedFloat(slice).Some?
    ensures r.Ok? ==> slice == FloatGroup(r.value)
  {
    if |slice| != 6 then Err(ParsingError.Crc)
    else match CheckedFloat(slice)
      case None => Err(ParsingError.Crc)
      case Some(f) => Ok(f)
  }

  /** `parse_measurement`: any group with a bad checksum rejects the whole measurement. */
  function ParseMeasurement(data: seq<bv8>): (r: Result<Measurement, ParsingError>)
    requires |data| == 18
    ensures r.Ok? <==> SliceToF32(data[..6]).Ok? && SliceToF32(data[6..12]).Ok? && SliceToF32(data[12..]).Ok?
    ensures r.Ok? ==> data == EncodeMeasurement(r.value)
  {
    var co2 :- SliceToF32(data[..6]);
    var temperature :- SliceToF32(data[6..12]);
    var humidity :- SliceToF32(data[12..]);
    assert data == data[..6] + data[6..12] + data[12..];
    Ok(Measurement(co2, temperature, humidity))
  }

  /** Every measurement the sensor sends is parsed back to itself. */
  lemma ParseEncoded(m: Measurement)
    ensures ParseMeasurement(EncodeMeasurement(m)) == Ok(m)
  {
    var data := EncodeMeasurement(m);
    assert data[..6] == FloatGroup(m.co2);
    assert data[6..12] == FloatGroup(m.temperature);
    assert data[12..] == FloatGroup(m.humidity);
    FloatRoundTrip(m.co2);
    FloatRoundTrip(m.temperature);
    FloatRoundTrip(m.humidity);
  }

  /** The checksums of the six words of the recorded measurement below. */
  lemma FixtureChecksums()
    ensures Crc8.Crc([0x43, 0xDB]) == 0xCB && Crc8.Crc([0x8C, 0x2E]) == 0x8F
    ensures Crc8.Crc([0x41, 0xD9]) == 0x70 && Crc8.Crc([0xE7, 0xFF]) == 0xF5
    ensures Crc8.Crc([0x42, 0x43]) == 0xBF && Crc8.Crc([0x3A, 0x1B]) == 0x74
  {
    Crc8Properties.CrcPair(0x43, 0xDB);
    assert Crc8.ShiftBits(0xBC, 8) == Crc8.ShiftBits(0x49, 7) == Crc8.ShiftBits(0x92, 6) == Crc8.ShiftBits(0x15, 5) == Crc8.ShiftBits(0x2A, 4);
    assert Crc8.ShiftBits(0x2A, 4) == Crc8.ShiftBits(0x54, 3) == Crc8.ShiftBits(0xA8, 2) == Crc8.ShiftBits(0x61, 1) == Crc8.ShiftBits(0xC2, 0) == 0xC2;
    assert Crc8.ShiftBits(0x19, 8) == Crc8.ShiftBits(0x32, 7) == Crc8.ShiftBits(0x64, 6) == Crc8.ShiftBits(0xC8, 5) == Crc8.ShiftBits(0xA1, 4);
    assert Crc8.ShiftBits(0xA1, 4) == Crc8.ShiftBits(0x73, 3) == Crc8.ShiftBits(0xE6, 2) == Crc8.ShiftBits(0xFD, 1) == Crc8.ShiftBits(0xCB, 0) == 0xCB;
    Crc8Properties.CrcPair(0x8C, 0x2E);
    assert Crc8.ShiftBits(0x73, 8) == Crc8.ShiftBits(0xE6, 7) == Crc8.ShiftBits(0xFD, 6) == Crc8.ShiftBits(0xCB, 5) == Crc8.ShiftBits(0xA7, 4);
    assert Crc8.ShiftBits(0xA7, 4) == Crc8.ShiftBits(0x7F, 3) == Crc8.ShiftBits(0xFE, 2) == Crc8.ShiftBits(0xCD, 1) == Crc8.ShiftBits(0xAB, 0) == 0xAB;
    assert Crc8.ShiftBits(0x85, 8) == Crc8.ShiftBits(0x3B, 7) == Crc8.ShiftBits(0x76, 6) == Crc8.ShiftBits(0xEC, 5) == Crc8.ShiftBits(0xE9, 4);
    assert Crc8.ShiftBits(0xE9, 4) == Crc8.ShiftBits(0xE3, 3) == Crc8.ShiftBits(0xF7, 2) == Crc8.ShiftBits(0xDF, 1) == Crc8.ShiftBits(0x8F, 0) == 0x8F;
    Crc8Properties.CrcPair(0x41, 0xD9);
    assert Crc8.ShiftBits(0xBE, 8) == Crc8.ShiftBits(0x4D, 7) == Crc8.ShiftBits(0x9A, 6) == Crc8.ShiftBits(0x05, 5) == Crc8.ShiftBits(0x0A, 4);
    assert Crc8.ShiftBits(0x0A, 4) == Crc8.ShiftBits(0x14, 3) == Crc8.ShiftBits(0x28, 2) == Crc8.ShiftBits(0x50, 1) == Crc8.ShiftBits(0xA0, 0) == 0xA0;
    assert Crc8.ShiftBits(0x79, 8) == Crc8.ShiftBits(0xF2, 7) == Crc8.ShiftBits(0xD5, 6) == Crc8.ShiftBits(0x9B, 5) == Crc8.ShiftBits(0x07, 4);
    assert Crc8.ShiftBits(0x07, 4) == Crc8.ShiftBits(0x0E, 3) == Crc8.ShiftBits(0x1C, 2) == Crc8.ShiftBits(0x38, 1) == Crc8.ShiftBits(0x70, 0) == 0x70;
    Crc8Properties.CrcPair(0xE7, 0xFF);
    assert Crc8.ShiftBits(0x18, 8) == Crc8.ShiftBits(0x30, 7) == Crc8.ShiftBits(0x60, 6) == Crc8.ShiftBits(0xC0, 5) == Crc8.ShiftBits(0xB1, 4);
    assert Crc8.ShiftBits(0xB1, 4) == Crc8.ShiftBits(0x53, 3) == Crc8.ShiftBits(0xA6, 2) == Crc8.ShiftBits(0x7D, 1) == Crc8.ShiftBits(0xFA, 0) == 0xFA;
    assert Crc8.ShiftBits(0x05, 8) == Crc8.ShiftBits(0x0A, 7) == Crc8.ShiftBits(0x14, 6) == Crc8.ShiftBits(0x28, 5) == Crc8.ShiftBits(0x50, 4);
    assert Crc8.ShiftBits(0x50, 4) == Crc8.ShiftBits(0xA0, 3) == Crc8.ShiftBits(0x71, 2) == Crc8.ShiftBits(0xE2, 1) == Crc8.ShiftBits(0xF5, 0) == 0xF5;
    Crc8Properties.CrcPair(0x42, 0x43);
    assert Crc8.ShiftBits(0xBD, 8) == Crc8.ShiftBits(0x4B, 7) == Crc8.ShiftBits(0x96, 6) == Crc8.ShiftBits(0x1D, 5) == Crc8.ShiftBits(0x3A, 4);
    assert Crc8.ShiftBits(0x3A, 4) == Crc8.ShiftBits(0x74, 3) == Crc8.ShiftBits(0xE8, 2) == Crc8.ShiftBits(0xE1, 1) == Crc8.ShiftBits(0xF3, 0) == 0xF3;
    assert Crc8.ShiftBits(0xB0, 8) == Crc8.ShiftBits(0x51, 7) == Crc8.ShiftBits(0xA2, 6) == Crc8.ShiftBits(0x75, 5) == Crc8.ShiftBits(0xEA, 4);
    assert Crc8.ShiftBits(0xEA, 4) == Crc8.ShiftBits(0xE5, 3) == Crc8.ShiftBits(0xFB, 2) == Crc8.ShiftBits(0xC7, 1) == Crc8.ShiftBits(0xBF, 0) == 0xBF;
    Crc8Properties.CrcPair(0x3A, 0x1B);
    assert Crc8.ShiftBits(0xC5, 8) == Crc8.ShiftBits(0xBB, 7) == Crc8.ShiftBits(0x47, 6) == Crc8.ShiftBits(0x8E, 5) == Crc8.ShiftBits(0x2D, 4);
    assert Crc8.ShiftBits(0x2D, 4) == Crc8.ShiftBits(0x5A, 3) == Crc8.ShiftBits(0xB4, 2) == Crc8.ShiftBits(0x59, 1) == Crc8.ShiftBits(0xB2, 0) == 0xB2;
    assert Crc8.ShiftBits(0xA9, 8) == Crc8.ShiftBits(0x63, 7) == Crc8.ShiftBits(0xC6, 6) == Crc8.ShiftBits(0xBD, 5) == Crc8.ShiftBits(0x4B, 4);
    assert Crc8.ShiftBits(0x4B, 4) == Crc8.ShiftBits(0x96, 3) == Crc8.ShiftBits(0x1D, 2) == Crc8.ShiftBits(0x3A, 1) == Crc8.ShiftBits(0x74, 0) == 0x74;
  }

  /** The measurement recorded from a sensor: 439.1 ppm, 27.2 degC, 48.8 %RH. */
  lemma FixtureParses()
    ensures ParseMeasurement(
      [0x43, 0xDB, 0xCB, 0x8C, 0x2E, 0x8F] +
      [0x41, 0xD9, 0x70, 0xE7, 0xFF, 0xF5] +
      [0x42, 0x43, 0xBF, 0x3A, 0x1B, 0x74])
      == Ok(Measurement(F32(0x43, 0xDB, 0x8C, 0x2E), F32(0x41, 0xD9, 0xE7, 0xFF), F32(0x42, 0x43, 0x3A, 0x1B)))
  {
    var m := Measurement(F32(0x43, 0xDB, 0x8C, 0x2E), F32(0x41, 0xD9, 0xE7, 0xFF), F32(0x42, 0x43, 0x3A, 0x1B));
    FixtureChecksums();
    assert FloatGroup(m.co2) == [0x43, 0xDB, 0xCB, 0x8C, 0x2E, 0x8F];
    assert FloatGroup(m.temperature) == [0x41, 0xD9, 0x70, 0xE7, 0xFF, 0xF5];
    assert FloatGroup(m.humidity) == [0x42, 0x43, 0xBF, 0x3A, 0x1B, 0x74];
    ParseEncoded(m);
  }

  /** What `read` returns when the sensor holds `rx`. */
  function ReadReply(rx: seq<bv8>, online: bool): (r: Result<Measurement, Error>)
    ensures r.Ok? ==> online && 18 <= |rx| && rx[..18] == EncodeMeasurement(r.value)
    ensures online && 18 <= |rx| && (exists m :: rx[..18] == EncodeMeasurement(m)) ==> r.Ok?
    ensures r.Err? && r.error.Bus? <==> !online || |rx| < 18
  {
    match RawReply(rx, online, 18)
    case Err(e) => Err(e)
    case Ok(data) =>
      if ParseMeasurement(data).Ok? then Ok(ParseMeasurement(data).value)
      else
        assert forall m :: data != EncodeMeasurement(m) by {
          forall m ensures data != EncodeMeasurement(m) {
            ParseEncoded(m);
          }
        }
        Err(Parsing(ParsingError.Crc))
  }

  class Scd30 {
    const i2c: SensirionI2c

    constructor (bus: Bus)
      ensures i2c.bus == bus && fresh(i2c) && fresh(i2c.crc)
    {
      i2c := new SensirionI2c(bus);
    }

    method ReadVersion() returns (r: Result<bv16, Error>)
      modifies i2c.bus`log, i2c.bus`rx, i2c.crc
      ensures r == WordReply(old(i2c.bus.rx), i2c.bus.online, true)
      ensures i2c.bus.log == old(i2c.bus.log) + RequestLog(SENSOR_ADDR, BeBytes(ReadFWVersion.Raw()), i2c.bus.online, 3)
      ensures i2c.bus.rx == Remaining(old(i2c.bus.rx), i2c.bus.online, 3)
    {
      r := i2c.ReadWord(SENSOR_ADDR, ReadFWVersion.Raw(), true);
    }

    /** Start continuous measurement with the given ambient pressure compensation. */
    method StartMeasurement(pressure: bv16) returns (r: Result<(), Error>)
      modifies i2c.bus`log, i2c.crc
      ensures i2c.bus.log == old(i2c.bus.log) + [Transfer.Write(SENSOR_ADDR, WordFrame(StartContMeasurement.Raw(), pressure))]
      ensures r == if i2c.bus.online then Ok(()) else Err(Bus(Nack))
    {
      r := i2c.WriteWord(SENSOR_ADDR, StartContMeasurement.Raw(), pressure);
    }

    method IsMeasurementReady() returns (r: Result<bool, Error>)
      modifies i2c.bus`log, i2c.bus`rx, i2c.crc
      ensures r == ReadyFromWord(WordReply(old(i2c.bus.rx), i2c.bus.online, true))
      ensures i2c.bus.log == old(i2c.bus.log) + RequestLog(SENSOR_ADDR, BeBytes(DataReady.Raw()), i2c.bus.online, 3)
      ensures i2c.bus.rx == Remaining(old(i2c.bus.rx), i2c.bus.online, 3)
    {
      var word := i2c.ReadWord(SENSOR_ADDR, DataReady.Raw(), true);
      r := ReadyFromWord(word);
    }

    method Read() returns (r: Result<Measurement, Error>)
      modifies i2c.bus`log, i2c.bus`rx
      ensures r == ReadReply(old(i2c.bus.rx), i2c.bus.online)
      ensures i2c.bus.log == old(i2c.bus.log) + RequestLog(SENSOR_ADDR, BeBytes(ReadMeasurement.Raw()), i2c.bus.online, 18)
      ensures i2c.bus.rx == Remaining(old(i2c.bus.rx), i2c.bus.online, 18)
    {
      var data :- i2c.ReadRaw(SENSOR_ADDR, ReadMeasurement.Raw(), 18);
      var parsed := ParseMeasurement(data);
      if parsed.Err? {
        return Err(Parsing(parsed.error));
      }
      r := Ok(parsed.value);
    }

    method SetMeasurementInterval(seconds: bv16) returns (r: Result<(), Error>)
      modifies i2c.bus`log, i2c.crc
      ensures i2c.bus.log == old(i2c.bus.log) + [Transfer.Write(SENSOR_ADDR, WordFrame(SetInterval.Raw(), seconds))]
      ensures r == if i2c.bus.online then Ok(()) else Err(Bus(Nack))
    {
      r := i2c.WriteWord(SENSOR_ADDR, SetInterval.Raw(), seconds);
    }

    /** Reads the offset with the opcode of the setter, as the sensor defines it. */
    method GetTemperatureOffset() returns (r: Result<bv16, Error>)
      modifies i2c.bus`log, i2c.bus`rx, i2c.crc
      ensures r == WordReply(old(i2c.bus.rx), i2c.bus.online, true)
      ensures i2c.bus.log == old(i2c.bus.log) + RequestLog(SENSOR_ADDR, BeBytes(Command.SetTemperatureOffset.Raw()), i2c.bus.online, 3)
      ensures i2c.bus.rx == Remaining(old(i2c.bus.rx), i2c.bus.online, 3)
    {
      r := i2c.ReadWord(SENSOR_ADDR, Command.SetTemperatureOffset.Raw(), true);
    }

    /** `rawOffset` is the offset in hundredths of a degree, already converted to a word. */
    method SetTemperatureOffset(rawOffset: bv16) returns (r: Result<(), Error>)
      modifies i2c.bus`log, i2c.crc
      ensures i2c.bus.log == old(i2c.bus.log) + [Transfer.Write(SENSOR_ADDR, WordFrame(Command.SetTemperatureOffset.Raw(), rawOffset))]
      ensures r == if i2c.bus.online then Ok(()) else Err(Bus(Nack))
    {
      r := i2c.WriteWord(SENSOR_ADDR, Command.SetTemperatureOffset.Raw(), rawOffset);
    }
  }
}
