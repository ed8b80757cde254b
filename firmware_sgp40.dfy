/**
 * The firmware's first SGP40 driver. Like its SPS30 driver it locks the
 * shared bus for each exchange and reports errors as `sps30::Error`. The
 * raw measurement answer is taken without testing its checksum; the
 * serial number is read through `read` with the check turned off. The
 * commands and the frame layout are those of the async driver
 * (`Sgp40Async`).
 */
module FirmwareSgp40 {
  import opened Common
  import Crc8
  import opened I2c
  import opened Fixed
  import FirmwareSps30
  import Sgp40Async
  import VocIndex

  type Error = FirmwareSps30.Error

  /** Why `measure_voc_index` ends without an index: the driver's error, or an abort inside the algorithm. */
  datatype MeasureError = Failed(error: Error) | Aborted(fault: Fault)

  /** What `measure_raw` returns: the first two bytes of a three-byte answer, whatever the third. */
  function RawWord(rx: seq<bv8>, online: bool): (r: Result<bv16, Error>)
    ensures r.Ok? <==> online && 3 <= |rx|
    ensures r.Err? ==> r.error == FirmwareSps30.Bus(Nack)
    ensures r.Ok? ==> BeBytes(r.value) == rx[..2]
  {
    if online && 3 <= |rx| then
      BeBytesOfFromBe(rx[0], rx[1]);
      Ok(FromBe(rx[0], rx[1]))
    else Err(FirmwareSps30.Bus(Nack))
  }

  /** The checksum byte of the answer is never looked at. */
  lemma RawWordIgnoresChecksum(rx: seq<bv8>, c: bv8)
    requires 3 <= |rx|
    ensures RawWord(rx[2 := c], true) == RawWord(rx, true)
  {
  }

  class Sgp40 {
    const bus: Bus
    const voc: VocIndex.VocAlgorithm

    constructor (bus: Bus)
      ensures this.bus == bus && fresh(voc) && fresh(voc.lowpass)
      ensures voc.State() == VocIndex.DefaultAlgorithm()
    {
      this.bus := bus;
      voc := new VocIndex.VocAlgorithm();
    }

    /** `read`: send the opcode, fill `buffer`, optionally compare the last byte with the checksum of the others. */
    method Read(command: Sgp40Async.Command, buffer: array<bv8>, checkCrc: bool) returns (r: Result<(), Error>)
      requires buffer.Length >= 1
      modifies bus`log, bus`rx, buffer
      ensures r == FirmwareSps30.ReadOutcome(old(bus.rx), bus.online, buffer.Length, checkCrc)
      ensures bus.log == old(bus.log) + RequestLog(Sgp40Async.SENSOR_ADDR, BeBytes(command.Raw()), bus.online, buffer.Length)
      ensures bus.rx == Remaining(old(bus.rx), bus.online, buffer.Length)
      ensures r != Err(FirmwareSps30.Bus(Nack)) ==> buffer[..] == old(bus.rx)[..buffer.Length]
    {
      var sent := bus.Write(Sgp40Async.SENSOR_ADDR, BeBytes(command.Raw()));
      if sent.Err? {
        return Err(FirmwareSps30.Bus(sent.error));
      }
      var got := bus.Read(Sgp40Async.SENSOR_ADDR, buffer.Length);
      if got.Err? {
        return Err(FirmwareSps30.Bus(got.error));
      }
      ghost var log, rx := bus.log, bus.rx;
      for i := 0 to buffer.Length
        invariant buffer[..i] == got.value[..i]
        invariant bus.log == log && bus.rx == rx
      {
        buffer[i] := got.value[i];
      }
      assert buffer[..] == old(bus.rx)[..buffer.Length];
      assert buffer[..buffer.Length - 1] == old(bus.rx)[..buffer.Length - 1];
      if checkCrc {
        var sum := Crc8.Crc(buffer[..buffer.Length - 1]);
        if sum != buffer[buffer.Length - 1] {
          return Err(FirmwareSps30.Crc);
        }
      }
      r := Ok(());
    }

    /** `get_serial_number`: nine bytes read without the checksum test. */
    method GetSerialNumber() returns (r: Result<bv64, Error>)
      modifies bus`log, bus`rx
      ensures r.Ok? <==> bus.online && 9 <= |old(bus.rx)|
      ensures r.Ok? ==> r.value == Sgp40Async.SerialNumber(old(bus.rx)[..9])
      ensures r.Err? ==> r.error == FirmwareSps30.Bus(Nack)
      ensures bus.log == old(bus.log) + RequestLog(Sgp40Async.SENSOR_ADDR, BeBytes(Sgp40Async.Command.GetSerialNumber.Raw()), bus.online, 9)
      ensures bus.rx == Remaining(old(bus.rx), bus.online, 9)
    {
      var buffer := new bv8[9];
      var read := Read(Sgp40Async.Command.GetSerialNumber, buffer, false);
      if read.Err? {
        return Err(read.error);
      }
      r := Ok(Sgp40Async.SerialNumber(buffer[..]));
    }

    /** `measure_raw`: the compensated command, a 30 ms pause, then a three-byte answer taken unchecked. */
    method MeasureRaw(humidity: bv16, temperature: bv16) returns (r: Result<bv16, Error>)
      modifies bus`log, bus`rx
      ensures r == RawWord(old(bus.rx), bus.online)
      ensures bus.log == old(bus.log) + [Transfer.Write(Sgp40Async.SENSOR_ADDR, Sgp40Async.ComposeCommand(Sgp40Async.Command.MeasureRaw, humidity, temperature))]
                         + (if bus.online then [Delay(Sgp40Async.MEASURE_DELAY_MS), Transfer.Read(Sgp40Async.SENSOR_ADDR, 3)] else [])
      ensures bus.rx == Remaining(old(bus.rx), bus.online, 3)
    {
      var writeData := Sgp40Async.ComposeCommand(Sgp40Async.Command.MeasureRaw, humidity, temperature);
      var sent := bus.Write(Sgp40Async.SENSOR_ADDR, writeData);
      if sent.Err? {
        return Err(FirmwareSps30.Bus(sent.error));
      }
      bus.Wait(Sgp40Async.MEASURE_DELAY_MS);
      var got := bus.Read(Sgp40Async.SENSOR_ADDR, 3);
      if got.Err? {
        return Err(FirmwareSps30.Bus(got.error));
      }
      r := Ok(FromBe(got.value[0], got.value[1]));
    }

    /** `measure_voc_index`: one algorithm step per successful raw measurement, none otherwise. */
    method MeasureVocIndex(humidity: bv16, temperature: bv16) returns (r: Result<nat, MeasureError>)
      modifies bus`log, bus`rx, voc, voc.lowpass
      ensures var word := RawWord(old(bus.rx), bus.online);
        word.Err? ==> r == Err(Failed(word.error)) && voc.State() == old(voc.State())
      ensures var word := RawWord(old(bus.rx), bus.online);
        word.Ok? ==> var step := VocIndex.Step(old(voc.State()), word.value as int);
          && (step.Err? ==> r == Err(Aborted(step.error)))
          && (step.Ok? ==> r == Ok(Sgp40Async.VocReport(step.value.1)) && voc.State() == step.value.0)
      ensures bus.log == old(bus.log) + [Transfer.Write(Sgp40Async.SENSOR_ADDR, Sgp40Async.ComposeCommand(Sgp40Async.Command.MeasureRaw, humidity, temperature))]
                         + (if bus.online then [Delay(Sgp40Async.MEASURE_DELAY_MS), Transfer.Read(Sgp40Async.SENSOR_ADDR, 3)] else [])
      ensures bus.rx == Remaining(old(bus.rx), bus.online, 3)
    {
      var raw := MeasureRaw(humidity, temperature);
      if raw.Err? {
        return Err(Failed(raw.error));
      }
      var index := voc.Process(raw.value as int);
      if index.Err? {
        return Err(Aborted(index.error));
      }
      r := Ok(Sgp40Async.VocReport(index.value));
    }
  }
}
