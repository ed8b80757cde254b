/**
 * The SPS30 driver of the firmware's `drivers` module. It goes through the
 * firmware's Sensirion helper (`FirmwareI2c`) and uses the async driver's
 * command table (`Sps30Async`). A measured value is taken from bytes 0, 1,
 * 3 and 4 of its group whatever the checksums say: a mismatch is only
 * reported on the debug log, never as an error.
 */
module DriversSps30 {
  import opened Common
  import Crc8
  import opened I2c
  import opened SensirionFrame
  import opened FirmwareI2c
  import Sps30Async
  import FirmwareSps30

  const SENSOR_ADDR: bv8 := 0x69

  /** What `read_measured_data` returns when the sensor holds `rx`: only a bus error can fail it. */
  function MeasurementReply(rx: seq<bv8>, online: bool): (r: Result<Sps30Async.Measurement, Error>)
    ensures r.Ok? <==> online && 60 <= |rx|
    ensures r.Err? ==> r.error == Bus(Nack)
    ensures r.Ok? && Sps30Async.ParseMeasurement(rx[..60]).Ok? ==> r.value == Sps30Async.ParseMeasurement(rx[..60]).value
  {
    if online && 60 <= |rx| then Ok(FirmwareSps30.Decode(rx[..60])) else Err(Bus(Nack))
  }

  /** Every measurement the sensor sends is read back to itself. */
  lemma MeasurementRoundTrip(m: Sps30Async.Measurement, rest: seq<bv8>)
    ensures MeasurementReply(Sps30Async.EncodeMeasurement(m) + rest, true) == Ok(m)
  {
    var rx := Sps30Async.EncodeMeasurement(m) + rest;
    assert rx[..60] == Sps30Async.EncodeMeasurement(m);
    Sps30Async.ParseEncoded(m);
  }

  /** A group whose first checksum byte is corrupted still yields the float the sensor meant. */
  lemma CorruptedChecksumIgnored(f: F32, c: bv8)
    requires c != FloatGroup(f)[2]
    ensures FirmwareSps30.Field(FloatGroup(f)[2 := c]) == f
    ensures CheckedFloat(FloatGroup(f)[2 := c]).None?
  {
    CorruptedFloatRefused(f, FloatGroup(f)[2 := c], 2);
  }

  /** `Decode` taken apart into its ten fields. */
  lemma DecodeFields(data: seq<bv8>)
    requires |data| == 60
    ensures FirmwareSps30.Decode(data) == Sps30Async.Measurement(
      FirmwareSps30.Field(data[..6]), FirmwareSps30.Field(data[6..]), FirmwareSps30.Field(data[12..]),
      FirmwareSps30.Field(data[18..]), FirmwareSps30.Field(data[24..]), FirmwareSps30.Field(data[30..]),
      FirmwareSps30.Field(data[36..]), FirmwareSps30.Field(data[42..]), FirmwareSps30.Field(data[48..]),
      FirmwareSps30.Field(data[54..]))
  {
    assert data[..6][3] == data[0..][3];
  }

  class Sps30 {
    const bus: SensirionI2c

    constructor (bus: SensirionI2c)
      ensures this.bus == bus
    {
      this.bus := bus;
    }

    method ReadVersion() returns (r: Result<bv16, Error>)
      modifies bus.bus`log, bus.bus`rx, bus.crc
      ensures r == WordReply(old(bus.bus.rx), bus.bus.online, true)
      ensures bus.bus.log == old(bus.bus.log) + RequestLog(SENSOR_ADDR, BeBytes(Sps30Async.Command.ReadVersion.Raw()), bus.bus.online, 3)
      ensures bus.bus.rx == Remaining(old(bus.bus.rx), bus.bus.online, 3)
    {
      r := bus.ReadWord(SENSOR_ADDR, Sps30Async.Command.ReadVersion.Raw(), true);
    }

    /** Start measuring with float output: the word 0x0300 after the opcode. */
    method StartMeasurement() returns (r: Result<(), Error>)
      modifies bus.bus`log, bus.crc
      ensures bus.bus.log == old(bus.bus.log) + [Transfer.Write(SENSOR_ADDR, WordFrame(Sps30Async.Command.StartMeasurement.Raw(), 0x0300))]
      ensures r == if bus.bus.online then Ok(()) else Err(Bus(Nack))
    {
      r := bus.WriteWord(SENSOR_ADDR, Sps30Async.Command.StartMeasurement.Raw(), (Sps30Async.MeasurementOutputFormat.Float.ToByte() as bv16) << 8);
    }

    method IsReady() returns (r: Result<bool, Error>)
      modifies bus.bus`log, bus.bus`rx, bus.crc
      ensures r == ReadyFromWord(WordReply(old(bus.bus.rx), bus.bus.online, true))
      ensures bus.bus.log == old(bus.bus.log) + RequestLog(SENSOR_ADDR, BeBytes(Sps30Async.Command.ReadDataReadyFlag.Raw()), bus.bus.online, 3)
      ensures bus.bus.rx == Remaining(old(bus.bus.rx), bus.bus.online, 3)
    {
      var result :- bus.ReadWord(SENSOR_ADDR, Sps30Async.Command.ReadDataReadyFlag.Raw(), true);
      r := Ok(result == 1);
    }

    /** `read_measured_data`: a 60-byte raw read, then the ten groups at offsets 0, 6, ..., 54. */
    method ReadMeasuredData() returns (r: Result<Sps30Async.Measurement, Error>)
      modifies bus.bus`log, bus.bus`rx, bus.crc
      ensures r == MeasurementReply(old(bus.bus.rx), bus.bus.online)
      ensures bus.bus.log == old(bus.bus.log) + RequestLog(SENSOR_ADDR, BeBytes(Sps30Async.Command.ReadMeasuredValues.Raw()), bus.bus.online, 60)
      ensures bus.bus.rx == Remaining(old(bus.bus.rx), bus.bus.online, 60)
    {
      var buffer :- bus.ReadRaw(SENSOR_ADDR, Sps30Async.Command.ReadMeasuredValues.Raw(), 60);
      assert buffer == old(bus.bus.rx)[..60];
      var m := ProcessData(buffer);
      r := Ok(m);
    }

    /** The ten fields of a 60-byte answer, from the groups at offsets 0, 6, ..., 54. */
    method ProcessData(buffer: seq<bv8>) returns (m: Sps30Async.Measurement)
      requires |buffer| == 60
      modifies bus.crc
      ensures m == FirmwareSps30.Decode(buffer)
    {
      DecodeFields(buffer);
      var mass_pm1_0, _ := ProcessDataSlice(buffer[..6]);
      var mass_pm2_5, _ := ProcessDataSlice(buffer[6..]);
      var mass_pm4_0, _ := ProcessDataSlice(buffer[12..]);
      var mass_pm10, _ := ProcessDataSlice(buffer[18..]);
      var number_pm0_5, _ := ProcessDataSlice(buffer[24..]);
      var number_pm1_0, _ := ProcessDataSlice(buffer[30..]);
      var number_pm2_5, _ := ProcessDataSlice(buffer[36..]);
      var number_pm4_0, _ := ProcessDataSlice(buffer[42..]);
      var number_pm10, _ := ProcessDataSlice(buffer[48..]);
      var typical_size, _ := ProcessDataSlice(buffer[54..]);
      m := Sps30Async.Measurement(mass_pm1_0, mass_pm2_5, mass_pm4_0, mass_pm10, number_pm0_5,
                                  number_pm1_0, number_pm2_5, number_pm4_0, number_pm10, typical_size);
    }

    /**
     * `process_data_slice`: the float of bytes 0, 1, 3 and 4, whatever the
     * checksums. `crcInvalid` stands for the "crc invalid" debug-log line
     * written when either word fails its checksum.
     */
    method ProcessDataSlice(buffer: seq<bv8>) returns (r: F32, crcInvalid: bool)
      requires |buffer| >= 6
      modifies bus.crc
      ensures r == FirmwareSps30.Field(buffer)
      ensures crcInvalid <==> CheckedFloat(buffer[..6]).None?
    {
      var raw := [buffer[0], buffer[1], buffer[3], buffer[4]];
      var crc1 := bus.CalculateCrc(buffer[..2]);
      var crc2 := bus.CalculateCrc(buffer[3..5]);
      assert buffer[..2] == buffer[..6][..2] == [buffer[0], buffer[1]];
      assert buffer[3..5] == [buffer[3], buffer[4]];
      crcInvalid := crc1 != buffer[2] || crc2 != buffer[5];
      r := F32(raw[0], raw[1], raw[2], raw[3]);
    }
  }
}
