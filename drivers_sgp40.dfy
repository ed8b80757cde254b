/**
 * The SGP40 driver of the firmware's `drivers` module. It goes through the
 * firmware's Sensirion helper (`FirmwareI2c`): the measurement frame's
 * checksums come from the helper's CRC engine, the exchange pauses 30 ms,
 * and neither the raw answer nor the serial number is checksum-tested.
 * The commands and the frame layout are those of the async driver
 * (`Sgp40Async`).
 */
module DriversSgp40 {
  import opened Common
  import Crc8
  import opened I2c
  import opened Fixed
  import opened SensirionFrame
  import opened FirmwareI2c
  import Sgp40Async
  import VocIndex

  /** Why `measure_voc_index` ends without an index: the helper's error, or an abort inside the algorithm. */
  datatype MeasureError = Failed(error: FirmwareI2c.Error) | Aborted(fault: Fault)

  /** What `measure_raw` returns: the first two bytes of a three-byte answer, its checksum ignored. */
  function RawWord(rx: seq<bv8>, online: bool): (r: Result<bv16, FirmwareI2c.Error>)
    ensures r.Ok? <==> online && 3 <= |rx|
    ensures r.Err? ==> r.error == Bus(Nack)
    ensures r.Ok? ==> BeBytes(r.value) == rx[..2]
    ensures r == WordReply(rx, online, false)
  {
    if online && 3 <= |rx| then
      BeBytesOfFromBe(rx[0], rx[1]);
      Ok(FromBe(rx[0], rx[1]))
    else Err(Bus(Nack))
  }

  class Sgp40 {
    const i2c: SensirionI2c
    const voc: VocIndex.VocAlgorithm

    constructor (i2c: SensirionI2c)
      ensures this.i2c == i2c && fresh(voc) && fresh(voc.lowpass)
      ensures voc.State() == VocIndex.DefaultAlgorithm()
    {
      this.i2c := i2c;
      voc := new VocIndex.VocAlgorithm();
    }

    /** `get_serial_number`: an unchecked nine-byte read. */
    method GetSerialNumber() returns (r: Result<bv64, FirmwareI2c.Error>)
      modifies i2c.bus`log, i2c.bus`rx
      ensures r.Ok? <==> i2c.bus.online && 9 <= |old(i2c.bus.rx)|
      ensures r.Ok? ==> r.value == Sgp40Async.SerialNumber(old(i2c.bus.rx)[..9])
      ensures r.Err? ==> r.error == Bus(Nack)
      ensures i2c.bus.log == old(i2c.bus.log) + RequestLog(Sgp40Async.SENSOR_ADDR, BeBytes(Sgp40Async.Command.GetSerialNumber.Raw()), i2c.bus.online, 9)
      ensures i2c.bus.rx == Remaining(old(i2c.bus.rx), i2c.bus.online, 9)
    {
      var buffer :- i2c.ReadRaw(Sgp40Async.SENSOR_ADDR, Sgp40Async.Command.GetSerialNumber.Raw(), 9);
      r := Ok(Sgp40Async.SerialNumber(buffer));
    }

    /** `measure_raw`: the compensated command, a 30 ms pause, then a three-byte answer taken unchecked. */
    method MeasureRaw(humidity: bv16, temperature: bv16) returns (r: Result<bv16, FirmwareI2c.Error>)
      modifies i2c.bus`log, i2c.bus`rx, i2c.crc
      ensures r == RawWord(old(i2c.bus.rx), i2c.bus.online)
      ensures i2c.bus.log == old(i2c.bus.log)
                             + (if i2c.bus.online
                                then ExchangeLog(Sgp40Async.SENSOR_ADDR, Sgp40Async.ComposeCommand(Sgp40Async.Command.MeasureRaw, humidity, temperature), Some(Sgp40Async.MEASURE_DELAY_MS), 3)
                                else [Transfer.Write(Sgp40Async.SENSOR_ADDR, Sgp40Async.ComposeCommand(Sgp40Async.Command.MeasureRaw, humidity, temperature))])
      ensures i2c.bus.rx == Remaining(old(i2c.bus.rx), i2c.bus.online, 3)
    {
      var command := Sgp40Async.Command.MeasureRaw.Raw();
      var humidityCrc := i2c.CalculateCrc(BeBytes(humidity));
      var temperatureCrc := i2c.CalculateCrc(BeBytes(temperature));
      var writeData := BeBytes(command) + BeBytes(humidity) + [humidityCrc] + BeBytes(temperature) + [temperatureCrc];
      assert writeData == Sgp40Async.ComposeCommand(Sgp40Async.Command.MeasureRaw, humidity, temperature);
      var result :- i2c.WriteReadRaw(Sgp40Async.SENSOR_ADDR, writeData, 3, Some(Sgp40Async.MEASURE_DELAY_MS));
      r := Ok(FromBe(result[0], result[1]));
    }

    /** `measure_voc_index`: one algorithm step per successful raw measurement, none otherwise. */
    method MeasureVocIndex(humidity: bv16, temperature: bv16) returns (r: Result<nat, MeasureError>)
      modifies i2c.bus`log, i2c.bus`rx, i2c.crc, voc, voc.lowpass
      ensures var word := RawWord(old(i2c.bus.rx), i2c.bus.online);
        word.Err? ==> r == Err(Failed(word.error)) && voc.State() == old(voc.State())
      ensures var word := RawWord(old(i2c.bus.rx), i2c.bus.online);
        word.Ok? ==> var step := VocIndex.Step(old(voc.State()), word.value as int);
          && (step.Err? ==> r == Err(Aborted(step.error)))
          && (step.Ok? ==> r == Ok(Sgp40Async.VocReport(step.value.1)) && voc.State() == step.value.0)
      ensures i2c.bus.log == old(i2c.bus.log)
                             + (if i2c.bus.online
                                then ExchangeLog(Sgp40Async.SENSOR_ADDR, Sgp40Async.ComposeCommand(Sgp40Async.Command.MeasureRaw, humidity, temperature), Some(Sgp40Async.MEASURE_DELAY_MS), 3)
                                else [Transfer.Write(Sgp40Async.SENSOR_ADDR, Sgp40Async.ComposeCommand(Sgp40Async.Command.MeasureRaw, humidity, temperature))])
      ensures i2c.bus.rx == Remaining(old(i2c.bus.rx), i2c.bus.online, 3)
    {
      var raw := MeasureRaw(humidity, temperature);
      if raw.Err? {
        return Err(Failed(raw.error));
      }
      var index := voc.Process(raw.value as int);
      if index.Err? {
        return Err(Aborted(index.error));
      }
      r := Ok(Sgp40Async.VocReport(index.value));
    }
  }
}
