/**
 * The first SCD30 driver of the application crate. It locks the shared
 * bus itself and uses no Sensirion helper: the two word commands compute
 * their checksum with a freshly made CRC-8 engine, and no answer is ever
 * checksum-tested. Its five opcodes are a subset of the async driver's
 * table (`Scd30Async`).
 */
module AppScd30 {
  import opened Common
  import Crc8
  import opened I2c
  import opened SensirionFrame
  import Scd30Async

  const SENSOR_ADDR: bv8 := 0x61

  datatype Command = ReadFWVersion | StartContMeasurement | DataReady | SetInterval | ReadMeasurement
  {
    /** `From<SCD30Command> for u16`. */
    function Raw(): bv16
    {
      match this
      case ReadFWVersion => 0xd100
      case StartContMeasurement => 0x0010
      case DataReady => 0x0202
      case ReadMeasurement => 0x0300
      case SetInterval => 0x4600
    }

    /** The same command in the async driver's table. */
    function AsAsync(): Scd30Async.Command
    {
      match this
      case ReadFWVersion => Scd30Async.ReadFWVersion
      case StartContMeasurement => Scd30Async.StartContMeasurement
      case DataReady => Scd30Async.DataReady
      case ReadMeasurement => Scd30Async.ReadMeasurement
      case SetInterval => Scd30Async.SetInterval
    }
  }

  /** The five opcodes are distinct and agree with the async driver's table. */
  lemma RawMatchesAsync()
    ensures forall c: Command :: c.Raw() == c.AsAsync().Raw()
    ensures forall a: Command, b: Command :: a.Raw() == b.Raw() ==> a == b
  {
  }

  /** The value `slice_to_f32` computes: any six bytes are accepted, the checksum bytes skipped. */
  function SliceValue(slice: seq<bv8>): (r: Result<F32, ()>)
    ensures r.Ok? <==> |slice| == 6
    ensures r.Ok? ==> r.value == F32(slice[0], slice[1], slice[3], slice[4])
  {
    if |slice| != 6 then Err(()) else Ok(F32(slice[0], slice[1], slice[3], slice[4]))
  }

  /** On every group the sensor sends, the unchecked decoding gives the float the checked one does. */
  lemma SliceAgreesOnValidGroups(f: F32)
    ensures SliceValue(FloatGroup(f)) == Ok(f)
    ensures Scd30Async.SliceToF32(FloatGroup(f)) == Ok(f)
  {
    FloatRoundTrip(f);
  }

  /** A group with a corrupted checksum byte is accepted here, while the async driver refuses it. */
  lemma CorruptedChecksumAccepted(f: F32, c: bv8)
    requires c != FloatGroup(f)[2]
    ensures SliceValue(FloatGroup(f)[2 := c]) == Ok(f)
    ensures Scd30Async.SliceToF32(FloatGroup(f)[2 := c]).Err?
  {
    var g := FloatGroup(f)[2 := c];
    CorruptedFloatRefused(f, g, 2);
  }

  /** The measurement `read_measurement` makes of 18 bytes; the `unwrap`s never fail. */
  function MeasurementValue(data: seq<bv8>): (r: Scd30Async.Measurement)
    requires |data| == 18
    ensures r.co2 == F32(data[0], data[1], data[3], data[4])
    ensures r.temperature == F32(data[6], data[7], data[9], data[10])
    ensures r.humidity == F32(data[12], data[13], data[15], data[16])
  {
    Scd30Async.Measurement(
      SliceValue(data[..6]).value, SliceValue(data[6..12]).value, SliceValue(data[12..]).value)
  }

  /** Every measurement the sensor sends is read back to itself. */
  lemma MeasurementRoundTrip(m: Scd30Async.Measurement)
    ensures MeasurementValue(Scd30Async.EncodeMeasurement(m)) == m
  {
  }

  /** The transfers of a command followed by a read of `n` bytes. */
  function ReadLog(written: seq<bv8>, online: bool, n: nat): seq<Transfer>
  {
    RequestLog(SENSOR_ADDR, written, online, n)
  }

  class Scd30 {
    const bus: Bus

    constructor (bus: Bus)
      ensures this.bus == bus
    {
      this.bus := bus;
    }

    /** `read_fw_version`: two raw bytes, the checksum byte not even read. */
    method ReadFwVersion() returns (r: Result<seq<bv8>, BusError>)
      modifies bus`log, bus`rx
      ensures r == Answer(old(bus.rx), bus.online, 2)
      ensures bus.log == old(bus.log) + ReadLog(BeBytes(ReadFWVersion.Raw()), bus.online, 2)
      ensures bus.rx == Remaining(old(bus.rx), bus.online, 2)
    {
      var _ :- bus.Write(SENSOR_ADDR, BeBytes(ReadFWVersion.Raw()));
      r := bus.Read(SENSOR_ADDR, 2);
    }

    /**
     * The frame shape of both word commands: the opcode, the argument
     * word, then a checksum over the argument written into byte 4.
     */
    method WordCommand(command: Command, word: bv16) returns (r: Result<(), BusError>)
      modifies bus`log
      ensures bus.log == old(bus.log) + [Transfer.Write(SENSOR_ADDR, WordFrame(command.Raw(), word))]
      ensures r == if bus.online then Ok(()) else Err(Nack)
    {
      var sensorCommand := BeBytes(command.Raw());
      var raw := BeBytes(word);
      var frame := new bv8[5];
      frame[0], frame[1], frame[2], frame[3], frame[4] := sensorCommand[0], sensorCommand[1], raw[0], raw[1], 0;
      var crc := new Crc8.SensirionCrc();
      frame[4] := crc.Calculate(raw);
      assert frame[..] == WordFrame(command.Raw(), word);
      r := bus.Write(SENSOR_ADDR, frame[..]);
    }

    method SetMeasurementInterval(seconds: bv16) returns (r: Result<(), BusError>)
      modifies bus`log
      ensures bus.log == old(bus.log) + [Transfer.Write(SENSOR_ADDR, WordFrame(SetInterval.Raw(), seconds))]
      ensures r == if bus.online then Ok(()) else Err(Nack)
    {
      r := WordCommand(SetInterval, seconds);
    }

    method StartContinuousMeasurement(pressure: bv16) returns (r: Result<(), BusError>)
      modifies bus`log
      ensures bus.log == old(bus.log) + [Transfer.Write(SENSOR_ADDR, WordFrame(StartContMeasurement.Raw(), pressure))]
      ensures r == if bus.online then Ok(()) else Err(Nack)
    {
      r := WordCommand(StartContMeasurement, pressure);
    }

    /** `get_data_ready`: a three-byte read whose first word is compared with 1, checksum unchecked. */
    method GetDataReady() returns (r: Result<bool, BusError>)
      modifies bus`log, bus`rx
      ensures r.Ok? <==> bus.online && 3 <= |old(bus.rx)|
      ensures r.Err? ==> r.error == Nack
      ensures r.Ok? ==> (r.value <==> old(bus.rx)[0] == 0 && old(bus.rx)[1] == 1)
      ensures bus.log == old(bus.log) + ReadLog(BeBytes(DataReady.Raw()), bus.online, 3)
      ensures bus.rx == Remaining(old(bus.rx), bus.online, 3)
    {
      var _ :- bus.Write(SENSOR_ADDR, BeBytes(DataReady.Raw()));
      var result :- bus.Read(SENSOR_ADDR, 3);
      BeBytesOfFromBe(result[0], result[1]);
      r := Ok(FromBe(result[0], result[1]) == 1);
    }

    /** `read_measurement`: an 18-byte read decoded without any checksum test. */
    method ReadMeasurement() returns (r: Result<Scd30Async.Measurement, BusError>)
      modifies bus`log, bus`rx
      ensures r.Ok? <==> bus.online && 18 <= |old(bus.rx)|
      ensures r.Err? ==> r.error == Nack
      ensures r.Ok? ==> r.value == MeasurementValue(old(bus.rx)[..18])
      ensures bus.log == old(bus.log) + ReadLog(BeBytes(Command.ReadMeasurement.Raw()), bus.online, 18)
      ensures bus.rx == Remaining(old(bus.rx), bus.online, 18)
    {
      var _ :- bus.Write(SENSOR_ADDR, BeBytes(Command.ReadMeasurement.Raw()));
      var result :- bus.Read(SENSOR_ADDR, 18);
      var co2 := SliceToF32(result[..6]);
      var temperature := SliceToF32(result[6..12]);
      var humidity := SliceToF32(result[12..]);
      r := Ok(Scd30Async.Measurement(co2.value, temperature.value, humidity.value));
    }

    /** `slice_to_f32`: refuse anything but six bytes, then copy bytes 0, 1, 3 and 4. */
    method SliceToF32(slice: seq<bv8>) returns (r: Result<F32, ()>)
      ensures r == SliceValue(slice)
    {
      if |slice| != 6 {
        return Err(());
      }
      var buffer := new bv8[4];
      buffer[0] := slice[0];
      buffer[1] := slice[1];
      buffer[2] := slice[3];
      buffer[3] := slice[4];
      r := Ok(F32(buffer[0], buffer[1], buffer[2], buffer[3]));
    }
  }
}
