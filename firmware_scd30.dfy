/**
 * The firmware's SCD30 driver. It goes through the firmware's Sensirion
 * helper (`FirmwareI2c`), so a bad checksum is the flat `Error::Crc`. The
 * commands and the wire format are those of the async driver
 * (`Scd30Async`); only the error type and the checksum engine differ.
 */
module FirmwareScd30 {
  import opened Common
  import Crc8
  import opened I2c
  import opened SensirionFrame
  import opened FirmwareI2c
  import Scd30Async

  const SENSOR_ADDR: bv8 := 0x61

  /** The value `slice_to_f32` computes from a slice, with the helper's error type. */
  function SliceValue(slice: seq<bv8>): (r: Result<F32, Error>)
    ensures r.Ok? <==> |slice| == 6 && CheckedFloat(slice).Some?
    ensures r.Err? ==> r.error == Crc
    ensures r.Ok? ==> slice == FloatGroup(r.value)
  {
    if |slice| != 6 then Err(Crc)
    else match CheckedFloat(slice)
      case None => Err(Crc)
      case Some(f) => Ok(f)
  }

  /** The firmware's check of a group accepts and rejects exactly what the async driver's does. */
  lemma SliceAgreesWithAsync(slice: seq<bv8>)
    ensures SliceValue(slice).Ok? <==> Scd30Async.SliceToF32(slice).Ok?
    ensures SliceValue(slice).Ok? ==> SliceValue(slice).value == Scd30Async.SliceToF32(slice).value
  {
  }

  /** What `read_measurement` returns when the sensor holds `rx`. */
  function MeasurementReply(rx: seq<bv8>, online: bool): (r: Result<Scd30Async.Measurement, Error>)
    ensures r.Err? && r.error.Bus? <==> !online || |rx| < 18
    ensures r.Err? && !r.error.Bus? ==> r.error == Crc
    ensures r.Ok? ==> online && 18 <= |rx| && rx[..18] == Scd30Async.EncodeMeasurement(r.value)
  {
    if !online || |rx| < 18 then Err(Bus(Nack))
    else
      var co2 :- SliceValue(rx[..6]);
      var temperature :- SliceValue(rx[6..12]);
      var humidity :- SliceValue(rx[12..18]);
      assert rx[..18] == rx[..6] + rx[6..12] + rx[12..18];
      Ok(Scd30Async.Measurement(co2, temperature, humidity))
  }

  /** The firmware reads a measurement back as exactly what the async driver parses from the same bytes. */
  lemma MeasurementAgreesWithAsync(rx: seq<bv8>)
    requires 18 <= |rx|
    ensures MeasurementReply(rx, true).Ok? <==> Scd30Async.ParseMeasurement(rx[..18]).Ok?
    ensures MeasurementReply(rx, true).Ok? ==> MeasurementReply(rx, true).value == Scd30Async.ParseMeasurement(rx[..18]).value
  {
    var data := rx[..18];
    assert data[..6] == rx[..6] && data[6..12] == rx[6..12] && data[12..] == rx[12..18];
    SliceAgreesWithAsync(rx[..6]);
    SliceAgreesWithAsync(rx[6..12]);
    SliceAgreesWithAsync(rx[12..18]);
  }

  /** Every measurement the sensor sends is read back to itself. */
  lemma MeasurementRoundTrip(m: Scd30Async.Measurement, rest: seq<bv8>)
    ensures MeasurementReply(Scd30Async.EncodeMeasurement(m) + rest, true) == Ok(m)
  {
    var rx := Scd30Async.EncodeMeasurement(m) + rest;
    assert rx[..18] == Scd30Async.EncodeMeasurement(m);
    MeasurementAgreesWithAsync(rx);
    Scd30Async.ParseEncoded(m);
  }

  class Scd30 {
    const bus: SensirionI2c

    constructor (bus: SensirionI2c)
      ensures this.bus == bus
    {
      this.bus := bus;
    }

    method ReadFwVersion() returns (r: Result<bv16, Error>)
      modifies bus.bus`log, bus.bus`rx, bus.crc
      ensures r == WordReply(old(bus.bus.rx), bus.bus.online, true)
      ensures bus.bus.log == old(bus.bus.log) + RequestLog(SENSOR_ADDR, BeBytes(Scd30Async.Command.ReadFWVersion.Raw()), bus.bus.online, 3)
      ensures bus.bus.rx == Remaining(old(bus.bus.rx), bus.bus.online, 3)
    {
      r := bus.ReadWord(SENSOR_ADDR, Scd30Async.Command.ReadFWVersion.Raw(), true);
    }

    method SetMeasurementInterval(seconds: bv16) returns (r: Result<(), Error>)
      modifies bus.bus`log, bus.crc
      ensures bus.bus.log == old(bus.bus.log) + [Transfer.Write(SENSOR_ADDR, WordFrame(Scd30Async.Command.SetInterval.Raw(), seconds))]
      ensures r == if bus.bus.online then Ok(()) else Err(Bus(Nack))
    {
      r := bus.WriteWord(SENSOR_ADDR, Scd30Async.Command.SetInterval.Raw(), seconds);
    }

    method StartContinuousMeasurement(pressure: bv16) returns (r: Result<(), Error>)
      modifies bus.bus`log, bus.crc
      ensures bus.bus.log == old(bus.bus.log) + [Transfer.Write(SENSOR_ADDR, WordFrame(Scd30Async.Command.StartContMeasurement.Raw(), pressure))]
      ensures r == if bus.bus.online then Ok(()) else Err(Bus(Nack))
    {
      r := bus.WriteWord(SENSOR_ADDR, Scd30Async.Command.StartContMeasurement.Raw(), pressure);
    }

    /** `get_data_ready`: the checked word, compared with 1. */
    method GetDataReady() returns (r: Result<bool, Error>)
      modifies bus.bus`log, bus.bus`rx, bus.crc
      ensures r == ReadyFromWord(WordReply(old(bus.bus.rx), bus.bus.online, true))
      ensures bus.bus.log == old(bus.bus.log) + RequestLog(SENSOR_ADDR, BeBytes(Scd30Async.Command.DataReady.Raw()), bus.bus.online, 3)
      ensures bus.bus.rx == Remaining(old(bus.bus.rx), bus.bus.online, 3)
    {
      var result :- bus.ReadWord(SENSOR_ADDR, Scd30Async.Command.DataReady.Raw(), true);
      r := Ok(result == 1);
    }

    /** `read_measurement`: an 18-byte raw read cut into three checked groups. */
    method ReadMeasurement() returns (r: Result<Scd30Async.Measurement, Error>)
      modifies bus.bus`log, bus.bus`rx, bus.crc
      ensures r == MeasurementReply(old(bus.bus.rx), bus.bus.online)
      ensures bus.bus.log == old(bus.bus.log) + RequestLog(SENSOR_ADDR, BeBytes(Scd30Async.Command.ReadMeasurement.Raw()), bus.bus.online, 18)
      ensures bus.bus.rx == Remaining(old(bus.bus.rx), bus.bus.online, 18)
    {
      var result :- bus.ReadRaw(SENSOR_ADDR, Scd30Async.Command.ReadMeasurement.Raw(), 18);
      assert result[..6] == old(bus.bus.rx)[..6] && result[6..12] == old(bus.bus.rx)[6..12];
      assert result[12..] == old(bus.bus.rx)[12..18];
      var co2 :- SliceToF32(result[..6]);
      var temperature :- SliceToF32(result[6..12]);
      var humidity :- SliceToF32(result[12..]);
      r := Ok(Scd30Async.Measurement(co2, temperature, humidity));
    }

    /** Reads the offset with the opcode of the setter, as the sensor defines it. */
    method GetTemperatureOffset() returns (r: Result<bv16, Error>)
      modifies bus.bus`log, bus.bus`rx, bus.crc
      ensures r == WordReply(old(bus.bus.rx), bus.bus.online, true)
      ensures bus.bus.log == old(bus.bus.log) + RequestLog(SENSOR_ADDR, BeBytes(Scd30Async.Command.SetTemperatureOffset.Raw()), bus.bus.online, 3)
      ensures bus.bus.rx == Remaining(old(bus.bus.rx), bus.bus.online, 3)
    {
      r := bus.ReadWord(SENSOR_ADDR, Scd30Async.Command.SetTemperatureOffset.Raw(), true);
    }

    /** `rawOffset` is `(degrees * 100.0) as u16`, computed by the caller. */
    method SetTemperatureOffset(rawOffset: bv16) returns (r: Result<(), Error>)
      modifies bus.bus`log, bus.crc
      ensures bus.bus.log == old(bus.bus.log) + [Transfer.Write(SENSOR_ADDR, WordFrame(Scd30Async.Command.SetTemperatureOffset.Raw(), rawOffset))]
      ensures r == if bus.bus.online then Ok(()) else Err(Bus(Nack))
    {
      r := bus.WriteWord(SENSOR_ADDR, Scd30Async.Command.SetTemperatureOffset.Raw(), rawOffset);
    }

    /**
     * `slice_to_f32`: refuse a slice that is not six bytes or whose words
     * fail their checksums (the second is computed only if the first
     * matched), then copy bytes 0, 1, 3 and 4 into a four-byte buffer.
     */
    method SliceToF32(slice: seq<bv8>) returns (r: Result<F32, Error>)
      modifies bus.crc
      ensures r == SliceValue(slice)
    {
      if |slice| != 6 {
        return Err(Crc);
      }
      var first := bus.CalculateCrc(slice[..2]);
      if first != slice[2] {
        assert slice[..2] == [slice[0], slice[1]];
        return Err(Crc);
      }
      var second := bus.CalculateCrc(slice[3..5]);
      if second != slice[5] {
        assert slice[3..5] == [slice[3], slice[4]];
        return Err(Crc);
      }
      assert slice[..2] == [slice[0], slice[1]] && slice[3..5] == [slice[3], slice[4]];
      var buffer := new bv8[4];
      buffer[0] := slice[0];
      buffer[1] := slice[1];
      buffer[2] := slice[3];
      buffer[3] := slice[4];
      r := Ok(F32(buffer[0], buffer[1], buffer[2], buffer[3]));
    }
  }
}
