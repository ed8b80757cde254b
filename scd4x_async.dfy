/**
 * The async SCD4x CO2 driver (I2C address 0x62): its command table, the
 * checked serial number, the word-valued settings passed through
 * unchanged, and the measurement read whose CO2 word is taken without a
 * checksum test.
 */
module Scd4xAsync {
  import opened Common
  import Crc8
  import opened I2c
  import opened SensirionFrame
  import opened SensirionAsync

  const SENSOR_ADDR: bv8 := 0x62

  datatype Command =
    | StartPeriodicMeasurement
    | StopPeriodicMeasurement
    | ReadMeasurement
    | SetTemperatureOffset
    | GetTemperatureOffset
    | SetAmbientPressure
    | GetSerialNumber
    | GetDataReady
    | PersistSettings
    | SetSensorAltitude
    | GetSensorAltitude
  {
    function Raw(): bv16
    {
      match this
      case StartPeriodicMeasurement => 0x21b1
      case StopPeriodicMeasurement => 0x3f86
      case ReadMeasurement => 0xec05
      case SetTemperatureOffset => 0x241d
      case GetTemperatureOffset => 0x2318
      case SetAmbientPressure => 0xe000
      case GetSerialNumber => 0x3682
      case GetDataReady => 0xe4b8
      case PersistSettings => 0x3615
      case SetSensorAltitude => 0x2427
      case GetSensorAltitude => 0x2322
    }
  }

  /** No two commands share an opcode. */
  lemma RawInjective()
    ensures forall a: Command, b: Command :: a.Raw() == b.Raw() ==> a == b
  {
  }

  /** The 48-bit serial number from its three words, most significant first. */
  function JoinSerial(w0: bv16, w1: bv16, w2: bv16): bv64
  {
    (w0 as bv64 << 32) | (w1 as bv64 << 16) | w2 as bv64
  }

  /** The three 16-bit words of a serial number, most significant first. */
  function High(serial: bv64): bv16 { ((serial >> 32) & 0xFFFF) as bv16 }
  function Middle(serial: bv64): bv16 { ((serial >> 16) & 0xFFFF) as bv16 }
  function Low(serial: bv64): bv16 { (serial & 0xFFFF) as bv16 }

  /** The answer the sensor gives for a serial number below 2^48: three data words. */
  function EncodeSerial(serial: bv64): (r: seq<bv8>)
    requires serial < 0x1_0000_0000_0000
    ensures |r| == 9
  {
    DataWord(High(serial)) + DataWord(Middle(serial)) + DataWord(Low(serial))
  }

  /** Joined words fit 48 bits and split back into the same words. */
  lemma JoinBits(w0: bv16, w1: bv16, w2: bv16)
    ensures JoinSerial(w0, w1, w2) < 0x1_0000_0000_0000
    ensures High(JoinSerial(w0, w1, w2)) == w0 && Middle(JoinSerial(w0, w1, w2)) == w1 && Low(JoinSerial(w0, w1, w2)) == w2
  {
  }

  /** A serial number below 2^48 is the join of its words. */
  lemma SplitBits(serial: bv64)
    requires serial < 0x1_0000_0000_0000
    ensures JoinSerial(High(serial), Middle(serial), Low(serial)) == serial
  {
  }

  lemma JoinSplits(w0: bv16, w1: bv16, w2: bv16)
    ensures JoinSerial(w0, w1, w2) < 0x1_0000_0000_0000
    ensures EncodeSerial(JoinSerial(w0, w1, w2)) == DataWord(w0) + DataWord(w1) + DataWord(w2)
  {
    JoinBits(w0, w1, w2);
  }

  /**
   * What `read_serial_number` makes of a nine-byte answer: a checksum
   * error unless all three words pass, else the words joined.
   */
  function SerialFromReply(b: seq<bv8>): (r: Result<bv64, ParsingError>)
    requires |b| == 9
    ensures r.Ok? <==> CheckedWord(b[0..3]).Some? && CheckedWord(b[3..6]).Some? && CheckedWord(b[6..9]).Some?
    ensures r.Ok? ==> r.value < 0x1_0000_0000_0000 && b == EncodeSerial(r.value)
  {
    match (CheckedWord(b[0..3]), CheckedWord(b[3..6]), CheckedWord(b[6..9]))
    case (Some(w0), Some(w1), Some(w2)) =>
      JoinSplits(w0, w1, w2);
      assert b == b[0..3] + b[3..6] + b[6..9];
      Ok(JoinSerial(w0, w1, w2))
    case _ => Err(ParsingError.Crc)
  }

  /** `SerialFromReply` as the firmware evaluates it: three checksum tests in order, then the join. */
  lemma SerialChecksInOrder(b: seq<bv8>)
    requires |b| == 9
    ensures SerialFromReply(b) == (
      if Crc8.Crc(b[..2]) != b[2] || Crc8.Crc(b[3..5]) != b[5] || Crc8.Crc(b[6..8]) != b[8] then Err(ParsingError.Crc)
      else Ok(JoinSerial(FromBe(b[0], b[1]), FromBe(b[3], b[4]), FromBe(b[6], b[7]))))
  {
    assert b[0..3][..2] == b[..2] && b[3..6][..2] == b[3..5] && b[6..9][..2] == b[6..8];
  }

  /** Every serial number the sensor can send is read back unchanged. */
  lemma SerialRoundTrip(serial: bv64)
    requires serial < 0x1_0000_0000_0000
    ensures SerialFromReply(EncodeSerial(serial)) == Ok(serial)
  {
    var b := EncodeSerial(serial);
    var w0, w1, w2 := High(serial), Middle(serial), Low(serial);
    assert b[0..3] == DataWord(w0) && b[3..6] == DataWord(w1) && b[6..9] == DataWord(w2);
    WordRoundTrip(w0);
    WordRoundTrip(w1);
    WordRoundTrip(w2);
    SplitBits(serial);
  }

  /** A measurement as `read` keeps it: the CO2 in ppm and the two raw words the floats are computed from. */
  datatype Measurement = Measurement(co2: bv16, raw_temperature: bv16, raw_humidity: bv16)

  /** `read`'s decoding: the big-endian words at bytes 0, 3 and 6, with no checksum test. */
  function MeasurementFromReply(b: seq<bv8>): (r: Measurement)
    requires |b| == 9
    ensures BeBytes(r.co2) == b[0..2] && BeBytes(r.raw_temperature) == b[3..5] && BeBytes(r.raw_humidity) == b[6..8]
  {
    BeBytesOfFromBe(b[0], b[1]);
    BeBytesOfFromBe(b[3], b[4]);
    BeBytesOfFromBe(b[6], b[7]);
    Measurement(FromBe(b[0], b[1]), FromBe(b[3], b[4]), FromBe(b[6], b[7]))
  }

  /** The checksum bytes of the measurement are never looked at. */
  lemma MeasurementIgnoresChecksums(b: seq<bv8>, c0: bv8, c1: bv8, c2: bv8)
    requires |b| == 9
    ensures MeasurementFromReply(b[2 := c0][5 := c1][8 := c2]) == MeasurementFromReply(b)
  {
  }

  class Scd4x {
    const i2c: SensirionI2c

    constructor (bus: Bus)
      ensures i2c.bus == bus && fresh(i2c) && fresh(i2c.crc)
    {
      i2c := new SensirionI2c(bus);
    }

    /** `read_serial_number`: a raw nine-byte read, then the three checksums tested in order. */
    method ReadSerialNumber() returns (r: Result<bv64, Error>)
      modifies i2c.bus`log, i2c.bus`rx, i2c.crc
      ensures r.Err? && r.error.Bus? <==> !i2c.bus.online || |old(i2c.bus.rx)| < 9
      ensures i2c.bus.online && 9 <= |old(i2c.bus.rx)| ==>
        match SerialFromReply(old(i2c.bus.rx)[..9])
        case Ok(serial) => r == Ok(serial)
        case Err(e) => r == Err(Parsing(e))
      ensures i2c.bus.log == old(i2c.bus.log) + RequestLog(SENSOR_ADDR, BeBytes(Command.GetSerialNumber.Raw()), i2c.bus.online, 9)
      ensures i2c.bus.rx == Remaining(old(i2c.bus.rx), i2c.bus.online, 9)
    {
      var result :- i2c.ReadRaw(SENSOR_ADDR, Command.GetSerialNumber.Raw(), 9);
      SerialChecksInOrder(result);
      var c0 := i2c.crc.Calculate(result[..2]);
      if c0 != result[2] {
        return Err(Parsing(ParsingError.Crc));
      }
      var c1 := i2c.crc.Calculate(result[3..5]);
      if c1 != result[5] {
        return Err(Parsing(ParsingError.Crc));
      }
      var c2 := i2c.crc.Calculate(result[6..8]);
      if c2 != result[8] {
        return Err(Parsing(ParsingError.Crc));
      }
      r := Ok(JoinSerial(FromBe(result[0], result[1]), FromBe(result[3], result[4]), FromBe(result[6], result[7])));
    }

    /** `set_ambient_pressure`: the pressure word is written unchanged. */
    method SetAmbientPressure(pressure: bv16) returns (r: Result<(), Error>)
      modifies i2c.bus`log, i2c.crc
      ensures i2c.bus.log == old(i2c.bus.log) + [Transfer.Write(SENSOR_ADDR, WordFrame(Command.SetAmbientPressure.Raw(), pressure))]
      ensures r == if i2c.bus.online then Ok(()) else Err(Bus(Nack))
    {
      r := i2c.WriteWord(SENSOR_ADDR, Command.SetAmbientPressure.Raw(), pressure);
    }

    /** `set_temperature_offset`, given the offset already scaled to a word. */
    method SetTemperatureOffset(rawOffset: bv16) returns (r: Result<(), Error>)
      modifies i2c.bus`log, i2c.crc
      ensures i2c.bus.log == old(i2c.bus.log) + [Transfer.Write(SENSOR_ADDR, WordFrame(Command.SetTemperatureOffset.Raw(), rawOffset))]
      ensures r == if i2c.bus.online then Ok(()) else Err(Bus(Nack))
    {
      r := i2c.WriteWord(SENSOR_ADDR, Command.SetTemperatureOffset.Raw(), rawOffset);
    }

    /** `get_temperature_offset`: the checked word, before its conversion to degrees. */
    method GetTemperatureOffset() returns (r: Result<bv16, Error>)
      modifies i2c.bus`log, i2c.bus`rx, i2c.crc
      ensures r == WordReply(old(i2c.bus.rx), i2c.bus.online, true)
      ensures i2c.bus.log == old(i2c.bus.log) + RequestLog(SENSOR_ADDR, BeBytes(Command.GetTemperatureOffset.Raw()), i2c.bus.online, 3)
      ensures i2c.bus.rx == Remaining(old(i2c.bus.rx), i2c.bus.online, 3)
    {
      r := i2c.ReadWord(SENSOR_ADDR, Command.GetTemperatureOffset.Raw(), true);
    }

    /** `get_sensor_altitude`: the checked word is the altitude in metres. */
    method GetSensorAltitude() returns (r: Result<bv16, Error>)
      modifies i2c.bus`log, i2c.bus`rx, i2c.crc
      ensures r == WordReply(old(i2c.bus.rx), i2c.bus.online, true)
      ensures i2c.bus.log == old(i2c.bus.log) + RequestLog(SENSOR_ADDR, BeBytes(Command.GetSensorAltitude.Raw()), i2c.bus.online, 3)
      ensures i2c.bus.rx == Remaining(old(i2c.bus.rx), i2c.bus.online, 3)
    {
      r := i2c.ReadWord(SENSOR_ADDR, Command.GetSensorAltitude.Raw(), true);
    }

    /** `set_sensor_altitude`: the altitude word is written unchanged. */
    method SetSensorAltitude(altitude: bv16) returns (r: Result<(), Error>)
      modifies i2c.bus`log, i2c.crc
      ensures i2c.bus.log == old(i2c.bus.log) + [Transfer.Write(SENSOR_ADDR, WordFrame(Command.SetSensorAltitude.Raw(), altitude))]
      ensures r == if i2c.bus.online then Ok(()) else Err(Bus(Nack))
    {
      r := i2c.WriteWord(SENSOR_ADDR, Command.SetSensorAltitude.Raw(), altitude);
    }

    /** `read`: a raw nine-byte read decoded without any checksum test. */
    method Read() returns (r: Result<Measurement, Error>)
      modifies i2c.bus`log, i2c.bus`rx
      ensures r.Ok? <==> i2c.bus.online && 9 <= |old(i2c.bus.rx)|
      ensures r.Ok? ==> r.value == MeasurementFromReply(old(i2c.bus.rx)[..9])
      ensures r.Err? ==> r.error == Bus(Nack)
      ensures i2c.bus.log == old(i2c.bus.log) + RequestLog(SENSOR_ADDR, BeBytes(Command.ReadMeasurement.Raw()), i2c.bus.online, 9)
      ensures i2c.bus.rx == Remaining(old(i2c.bus.rx), i2c.bus.online, 9)
    {
      var result :- i2c.ReadRaw(SENSOR_ADDR, Command.ReadMeasurement.Raw(), 9);
      r := Ok(MeasurementFromReply(result));
    }
  }
}
