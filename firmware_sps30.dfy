/**
 * The firmware's first SPS30 driver. It talks to the shared bus directly:
 * `write` assembles command, optional payload and one checksum over the
 * whole payload in a 10-byte frame buffer; `read` sends the command, fills
 * the caller's buffer and, on request, compares the last byte with the
 * checksum of all the others. The sensor's wire format is the one of the
 * async driver (`Sps30Async`).
 */
module FirmwareSps30 {
  import opened Common
  import Crc8
  import opened I2c
  import opened SensirionFrame
  import Sps30Async

  const SENSOR_ADDR: bv8 := 0x69

  datatype Error = Bus(inner: BusError) | Crc

  /** The frame `write` sends: the opcode, then the payload followed by its checksum, if any. */
  function CommandFrame(command: bv16, payload: Option<seq<bv8>>): (r: seq<bv8>)
    ensures |r| >= 2 && r[..2] == BeBytes(command)
    ensures payload.None? ==> |r| == 2
    ensures payload.Some? ==> |r| == |payload.value| + 3 && r[2..|r| - 1] == payload.value
                              && r[|r| - 1] == Crc8.Crc(payload.value)
  {
    match payload
    case None => BeBytes(command)
    case Some(p) => BeBytes(command) + p + [Crc8.Crc(p)]
  }

  /** A two-byte payload is framed exactly like the word it spells. */
  lemma WordPayloadIsWordFrame(command: bv16, w: bv16)
    ensures CommandFrame(command, Some(BeBytes(w))) == WordFrame(command, w)
  {
  }

  /** `start_measurement` asks for float output: opcode 0x0010, then 0x03 0x00 and their checksum. */
  lemma StartMeasurementFrame()
    ensures CommandFrame(Sps30Async.Command.StartMeasurement.Raw(), Some([Sps30Async.MeasurementOutputFormat.Float.ToByte(), 0x00]))
            == [0x00, 0x10, 0x03, 0x00, Crc8.Crc([0x03, 0x00])]
  {
  }

  /**
   * The outcome of `read` into an `n`-byte buffer: a bus error when the
   * device does not answer `n` bytes, a checksum error when asked to check
   * and the last byte is not the checksum of the others.
   */
  function ReadOutcome(rx: seq<bv8>, online: bool, n: nat, checkCrc: bool): (r: Result<(), Error>)
    requires n >= 1
    ensures r == Err(Bus(Nack)) <==> !online || |rx| < n
    ensures r.Ok? ==> online && n <= |rx| && (checkCrc ==> rx[..n] == rx[..n - 1] + [Crc8.Crc(rx[..n - 1])])
    ensures online && n <= |rx| && (!checkCrc || rx[n - 1] == Crc8.Crc(rx[..n - 1])) ==> r.Ok?
  {
    if !online || |rx| < n then Err(Bus(Nack))
    else if checkCrc && Crc8.Crc(rx[..n - 1]) != rx[n - 1] then Err(Crc)
    else
      assert rx[..n] == rx[..n - 1] + [rx[n - 1]];
      Ok(())
  }

  /** A checked three-byte read accepts exactly the frames of a data word. */
  lemma CheckedReadIsWord(rx: seq<bv8>)
    requires |rx| >= 3
    ensures ReadOutcome(rx, true, 3, true).Ok? <==> CheckedWord(rx[..3]).Some?
  {
    assert rx[..3][..2] == rx[..2];
  }

  /** A field as `read_measured_data` takes it: the four bytes at the start of its group. */
  function FieldAsWritten(group: seq<bv8>): (r: F32)
    requires |group| >= 4
    ensures [r.b0, r.b1, r.b2, r.b3] == group[..4]
  {
    F32(group[0], group[1], group[2], group[3])
  }

  /** `read_measured_data` as written: ten fields from `buffer[6k..6k + 4]`. */
  function DecodeAsWritten(data: seq<bv8>): (r: Sps30Async.Measurement)
    requires |data| == 60
    ensures r.mass_pm1_0 == FieldAsWritten(data[0..]) && r.typical_size == FieldAsWritten(data[54..])
  {
    Sps30Async.Measurement(
      FieldAsWritten(data[0..]), FieldAsWritten(data[6..]), FieldAsWritten(data[12..]),
      FieldAsWritten(data[18..]), FieldAsWritten(data[24..]), FieldAsWritten(data[30..]),
      FieldAsWritten(data[36..]), FieldAsWritten(data[42..]), FieldAsWritten(data[48..]),
      FieldAsWritten(data[54..]))
  }

  /**
   * What the as-written slicing makes of a float the sensor sent: its first
   * word, that word's checksum (byte 2 of the group) and its third byte.
   */
  function Misread(f: F32): (r: F32)
    ensures r.b2 == Crc8.Crc([f.b0, f.b1])
  {
    F32(f.b0, f.b1, FloatGroup(f)[2], f.b2)
  }

  /**
   * As written, the third byte of every value is the checksum of its first
   * word, and the last byte of the value is never read.
   */
  lemma AsWrittenReadsChecksum(m: Sps30Async.Measurement)
    ensures DecodeAsWritten(Sps30Async.EncodeMeasurement(m)) == Sps30Async.Measurement(
              Misread(m.mass_pm1_0), Misread(m.mass_pm2_5), Misread(m.mass_pm4_0), Misread(m.mass_pm10),
              Misread(m.number_pm0_5), Misread(m.number_pm1_0), Misread(m.number_pm2_5),
              Misread(m.number_pm4_0), Misread(m.number_pm10), Misread(m.typical_size))
  {
    Sps30Async.SplitGroups(
      FloatGroup(m.mass_pm1_0), FloatGroup(m.mass_pm2_5), FloatGroup(m.mass_pm4_0), FloatGroup(m.mass_pm10),
      FloatGroup(m.number_pm0_5), FloatGroup(m.number_pm1_0), FloatGroup(m.number_pm2_5),
      FloatGroup(m.number_pm4_0), FloatGroup(m.number_pm10), FloatGroup(m.typical_size));
    var data := Sps30Async.EncodeMeasurement(m);
    MisreadGroup(data[0..], m.mass_pm1_0);
    MisreadGroup(data[6..], m.mass_pm2_5);
    MisreadGroup(data[12..], m.mass_pm4_0);
    MisreadGroup(data[18..], m.mass_pm10);
    MisreadGroup(data[24..], m.number_pm0_5);
    MisreadGroup(data[30..], m.number_pm1_0);
    MisreadGroup(data[36..], m.number_pm2_5);
    MisreadGroup(data[42..], m.number_pm4_0);
    MisreadGroup(data[48..], m.number_pm10);
    MisreadGroup(data[54..], m.typical_size);
  }

  /** A group that starts with the encoding of `f` is misread as `Misread(f)`. */
  lemma MisreadGroup(d: seq<bv8>, f: F32)
    requires |d| >= 6 && d[..6] == FloatGroup(f)
    ensures FieldAsWritten(d) == Misread(f)
  {
    var g := FloatGroup(f);
    assert d[0] == g[0] && d[1] == g[1] && d[2] == g[2] && d[3] == g[3] by {
      assert forall j :: 0 <= j < 6 ==> d[j] == d[..6][j];
    }
  }

  /** On the recorded measurement the value read as written is not the value the sensor sent. */
  lemma AsWrittenMisreadsFixture()
    ensures Sps30Async.ParseMeasurement(
      [0x40, 0x88, 0xCB, 0xE1, 0x6D, 0xF4] + (
      [0x40, 0x94, 0xF5, 0xB2, 0xEA, 0xD3] + (
      [0x40, 0x98, 0x88, 0xD7, 0xED, 0x66] + (
      [0x40, 0x9B, 0xDB, 0x06, 0xCA, 0x47] + (
      [0x41, 0xE4, 0xF9, 0xC5, 0x23, 0x89] + (
      [0x42, 0x05, 0x24, 0x43, 0x7E, 0xC2] + (
      [0x42, 0x06, 0x77, 0x68, 0x6C, 0x25] + (
      [0x42, 0x06, 0x77, 0x93, 0x8C, 0xE6] + (
      [0x42, 0x06, 0x77, 0xA2, 0x9B, 0x74] + (
      [0x3F, 0x0D, 0xE6, 0x09, 0x1C, 0x7C])))))))))).Ok?
    ensures Sps30Async.ParseMeasurement(
      [0x40, 0x88, 0xCB, 0xE1, 0x6D, 0xF4] + (
      [0x40, 0x94, 0xF5, 0xB2, 0xEA, 0xD3] + (
      [0x40, 0x98, 0x88, 0xD7, 0xED, 0x66] + (
      [0x40, 0x9B, 0xDB, 0x06, 0xCA, 0x47] + (
      [0x41, 0xE4, 0xF9, 0xC5, 0x23, 0x89] + (
      [0x42, 0x05, 0x24, 0x43, 0x7E, 0xC2] + (
      [0x42, 0x06, 0x77, 0x68, 0x6C, 0x25] + (
      [0x42, 0x06, 0x77, 0x93, 0x8C, 0xE6] + (
      [0x42, 0x06, 0x77, 0xA2, 0x9B, 0x74] + (
      [0x3F, 0x0D, 0xE6, 0x09, 0x1C, 0x7C])))))))))).value.mass_pm1_0 == F32(0x40, 0x88, 0xE1, 0x6D)
    ensures DecodeAsWritten(
      [0x40, 0x88, 0xCB, 0xE1, 0x6D, 0xF4] + (
      [0x40, 0x94, 0xF5, 0xB2, 0xEA, 0xD3] + (
      [0x40, 0x98, 0x88, 0xD7, 0xED, 0x66] + (
      [0x40, 0x9B, 0xDB, 0x06, 0xCA, 0x47] + (
      [0x41, 0xE4, 0xF9, 0xC5, 0x23, 0x89] + (
      [0x42, 0x05, 0x24, 0x43, 0x7E, 0xC2] + (
      [0x42, 0x06, 0x77, 0x68, 0x6C, 0x25] + (
      [0x42, 0x06, 0x77, 0x93, 0x8C, 0xE6] + (
      [0x42, 0x06, 0x77, 0xA2, 0x9B, 0x74] + (
      [0x3F, 0x0D, 0xE6, 0x09, 0x1C, 0x7C])))))))))).mass_pm1_0 == F32(0x40, 0x88, 0xCB, 0xE1)
  {
    Sps30Async.FixtureParses();
  }

  /** A field as the sensor lays it out: bytes 0, 1, 3 and 4 of its group, the checksums skipped. */
  function Field(group: seq<bv8>): (r: F32)
    requires |group| >= 6
    ensures |group| == 6 && CheckedFloat(group).Some? ==> r == CheckedFloat(group).value
  {
    F32(group[0], group[1], group[3], group[4])
  }

  /** `read_measured_data` with each field taken as the sensor lays it out. */
  function Decode(data: seq<bv8>): (r: Sps30Async.Measurement)
    requires |data| == 60
    ensures Sps30Async.ParseMeasurement(data).Ok? ==> r == Sps30Async.ParseMeasurement(data).value
  {
    var m := Sps30Async.Measurement(
      Field(data[0..]), Field(data[6..]), Field(data[12..]), Field(data[18..]), Field(data[24..]),
      Field(data[30..]), Field(data[36..]), Field(data[42..]), Field(data[48..]), Field(data[54..]));
    if Sps30Async.ParseMeasurement(data).Ok? then
      DecodeEncoded(Sps30Async.ParseMeasurement(data).value);
      m
    else m
  }

  /** Every measurement the sensor sends is read back to itself, checksums or not. */
  lemma DecodeEncoded(p: Sps30Async.Measurement)
    ensures var data := Sps30Async.EncodeMeasurement(p);
            Sps30Async.Measurement(
              Field(data[0..]), Field(data[6..]), Field(data[12..]), Field(data[18..]), Field(data[24..]),
              Field(data[30..]), Field(data[36..]), Field(data[42..]), Field(data[48..]), Field(data[54..])) == p
  {
    var data := Sps30Async.EncodeMeasurement(p);
    Sps30Async.SplitGroups(
      FloatGroup(p.mass_pm1_0), FloatGroup(p.mass_pm2_5), FloatGroup(p.mass_pm4_0), FloatGroup(p.mass_pm10),
      FloatGroup(p.number_pm0_5), FloatGroup(p.number_pm1_0), FloatGroup(p.number_pm2_5),
      FloatGroup(p.number_pm4_0), FloatGroup(p.number_pm10), FloatGroup(p.typical_size));
    assert data[0..][..6][0] == data[0..][0];
  }

  class Sps30 {
    const bus: Bus

    constructor (bus: Bus)
      ensures this.bus == bus
    {
      this.bus := bus;
    }

    /** `write`: build the frame in a 10-byte buffer with a running offset and send it. */
    method Write(command: Sps30Async.Command, payload: Option<seq<bv8>>) returns (r: Result<(), Error>)
      requires payload.Some? ==> |payload.value| <= 7
      modifies bus`log
      ensures bus.log == old(bus.log) + [Transfer.Write(SENSOR_ADDR, CommandFrame(command.Raw(), payload))]
      ensures r == if bus.online then Ok(()) else Err(Bus(Nack))
    {
      var buffer := new bv8[10];
      var opcode := command.Raw();
      buffer[0], buffer[1] := Hi(opcode), Lo(opcode);
      var offset := 2;
      if payload.Some? {
        var p := payload.value;
        for i := 0 to |p|
          invariant buffer[..2] == BeBytes(opcode)
          invariant buffer[2..2 + i] == p[..i]
          invariant bus.log == old(bus.log)
        {
          buffer[2 + i] := p[i];
        }
        offset := offset + |p|;
        assert buffer[..offset] == BeBytes(opcode) + p;
        ghost var framed := buffer[..offset];
        buffer[offset] := Crc8.Crc(buffer[2..offset]);
        assert buffer[..offset] == framed;
        assert buffer[..offset + 1] == framed + [Crc8.Crc(p)];
        offset := offset + 1;
      }
      assert buffer[..offset] == CommandFrame(opcode, payload);
      var sent := bus.Write(SENSOR_ADDR, buffer[..offset]);
      if sent.Err? {
        return Err(Bus(sent.error));
      }
      r := Ok(());
    }

    /** `read`: send the opcode, fill `buffer` from the device, optionally check its last byte. */
    method Read(command: Sps30Async.Command, buffer: array<bv8>, checkCrc: bool) returns (r: Result<(), Error>)
      requires buffer.Length >= 1
      modifies bus`log, bus`rx, buffer
      ensures r == ReadOutcome(old(bus.rx), bus.online, buffer.Length, checkCrc)
      ensures bus.log == old(bus.log) + RequestLog(SENSOR_ADDR, BeBytes(command.Raw()), bus.online, buffer.Length)
      ensures bus.rx == Remaining(old(bus.rx), bus.online, buffer.Length)
      ensures r != Err(Bus(Nack)) ==> buffer[..] == old(bus.rx)[..buffer.Length]
    {
      var sent := bus.Write(SENSOR_ADDR, BeBytes(command.Raw()));
      if sent.Err? {
        return Err(Bus(sent.error));
      }
      var got := bus.Read(SENSOR_ADDR, buffer.Length);
      if got.Err? {
        return Err(Bus(got.error));
      }
      ghost var log, rx := bus.log, bus.rx;
      for i := 0 to buffer.Length
        invariant buffer[..i] == got.value[..i]
        invariant bus.log == log && bus.rx == rx
      {
        buffer[i] := got.value[i];
      }
      assert buffer[..] == old(bus.rx)[..buffer.Length];
      assert buffer[..buffer.Length - 1] == old(bus.rx)[..buffer.Length - 1];
      if checkCrc {
        var sum := Crc8.Crc(buffer[..buffer.Length - 1]);
        if sum != buffer[buffer.Length - 1] {
          return Err(Crc);
        }
      }
      r := Ok(());
    }

    /** `read_version`: the first two bytes of a checked three-byte answer. */
    method ReadVersion() returns (r: Result<seq<bv8>, Error>)
      modifies bus`log, bus`rx
      ensures r.Err? <==> ReadOutcome(old(bus.rx), bus.online, 3, true).Err?
      ensures r.Err? ==> r.error == ReadOutcome(old(bus.rx), bus.online, 3, true).error
      ensures r.Ok? ==> |r.value| == 2 && old(bus.rx)[..3] == DataWord(FromBe(r.value[0], r.value[1]))
      ensures bus.log == old(bus.log) + RequestLog(SENSOR_ADDR, BeBytes(Sps30Async.Command.ReadVersion.Raw()), bus.online, 3)
      ensures bus.rx == Remaining(old(bus.rx), bus.online, 3)
    {
      var buffer := new bv8[3];
      var read := Read(Sps30Async.Command.ReadVersion, buffer, true);
      if read.Err? {
        return Err(read.error);
      }
      BeBytesOfFromBe(buffer[0], buffer[1]);
      assert buffer[..2] == old(bus.rx)[..2] == [buffer[0], buffer[1]];
      r := Ok(buffer[..2]);
    }

    /** `start_measurement`: float output format. */
    method StartMeasurement() returns (r: Result<(), Error>)
      modifies bus`log
      ensures bus.log == old(bus.log)
                         + [Transfer.Write(SENSOR_ADDR, [0x00, 0x10, 0x03, 0x00, Crc8.Crc([0x03, 0x00])])]
      ensures r == if bus.online then Ok(()) else Err(Bus(Nack))
    {
      StartMeasurementFrame();
      r := Write(Sps30Async.Command.StartMeasurement, Some([Sps30Async.MeasurementOutputFormat.Float.ToByte(), 0x00]));
    }

    /** `is_ready`: the flag is the second byte of a checked three-byte answer. */
    method IsReady() returns (r: Result<bool, Error>)
      modifies bus`log, bus`rx
      ensures r.Err? <==> ReadOutcome(old(bus.rx), bus.online, 3, true).Err?
      ensures r.Err? ==> r.error == ReadOutcome(old(bus.rx), bus.online, 3, true).error
      ensures r.Ok? ==> (r.value <==> old(bus.rx)[1] == 1)
      ensures bus.log == old(bus.log) + RequestLog(SENSOR_ADDR, BeBytes(Sps30Async.Command.ReadDataReadyFlag.Raw()), bus.online, 3)
      ensures bus.rx == Remaining(old(bus.rx), bus.online, 3)
    {
      var buffer := new bv8[3];
      var read := Read(Sps30Async.Command.ReadDataReadyFlag, buffer, true);
      if read.Err? {
        return Err(read.error);
      }
      r := Ok(buffer[1] == 1);
    }

    /**
     * `read_measured_data`: an unchecked 60-byte read, each field taken as
     * written, from the four bytes at the start of its group (`Decode` is
     * the reading the sensor's layout calls for).
     */
    method ReadMeasuredData() returns (r: Result<Sps30Async.Measurement, Error>)
      modifies bus`log, bus`rx
      ensures r.Err? <==> !bus.online || |old(bus.rx)| < 60
      ensures r.Err? ==> r.error == Bus(Nack)
      ensures r.Ok? ==> r.value == DecodeAsWritten(old(bus.rx)[..60])
      ensures bus.log == old(bus.log) + RequestLog(SENSOR_ADDR, BeBytes(Sps30Async.Command.ReadMeasuredValues.Raw()), bus.online, 60)
      ensures bus.rx == Remaining(old(bus.rx), bus.online, 60)
    {
      var buffer := new bv8[60];
      var read := Read(Sps30Async.Command.ReadMeasuredValues, buffer, false);
      if read.Err? {
        return Err(read.error);
      }
      r := Ok(DecodeAsWritten(buffer[..]));
    }
  }
}
