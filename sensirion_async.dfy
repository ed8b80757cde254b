/**
 * The async Sensirion I2C helper shared by the SCD30, SPS30, SGP40 and
 * SCD4x drivers: word reads with an optional checksum test, word writes
 * with a checksum, and raw command/response exchanges. A failed bus
 * transfer ends the operation at once with `Error::Bus`; nothing is
 * retried.
 */
module SensirionAsync {
  import opened Common
  import Crc8
  import opened I2c
  import opened SensirionFrame

  datatype ParsingError = Crc

  datatype Error = Bus(inner: BusError) | Parsing(kind: ParsingError)

  /**
   * What `read_word` returns when the device holds the answer `rx`: a bus
   * error when the device does not answer three bytes, a parsing error
   * when the checksum is requested and wrong, the big-endian word
   * otherwise.
   */
  function WordReply(rx: seq<bv8>, online: bool, checkCrc: bool): (r: Result<bv16, Error>)
    ensures r == Err(Bus(Nack)) <==> !online || |rx| < 3
    ensures r == Err(Parsing(Crc)) <==> online && |rx| >= 3 && checkCrc && CheckedWord(rx[..3]).None?
    ensures r.Ok? ==> rx[..2] == BeBytes(r.value) && (checkCrc ==> rx[..3] == DataWord(r.value))
  {
    if !online || |rx| < 3 then Err(Bus(Nack))
    else if checkCrc && Crc8.Crc(rx[..2]) != rx[2] then
      assert rx[..3][..2] == rx[..2];
      Err(Parsing(Crc))
    else
      BeBytesOfFromBe(rx[0], rx[1]);
      assert rx[..3][..2] == rx[..2];
      Ok(FromBe(rx[0], rx[1]))
  }

  /** What a raw read of `n` bytes returns when the device holds `rx`. */
  function RawReply(rx: seq<bv8>, online: bool, n: nat): (r: Result<seq<bv8>, Error>)
    ensures r.Ok? <==> online && n <= |rx|
    ensures r.Err? ==> r.error == Bus(Nack)
    ensures r.Ok? ==> rx == r.value + rx[n..]
  {
    if online && n <= |rx| then Ok(rx[..n]) else Err(Bus(Nack))
  }

  /** A word read reaches the device as the command alone; it answers data word and checksum. */
  lemma WordReadLoopback(w: bv16, rest: seq<bv8>, checkCrc: bool)
    ensures WordReply(DataWord(w) + rest, true, checkCrc) == Ok(w)
  {
    var rx := DataWord(w) + rest;
    assert rx[..3] == DataWord(w) && rx[..2] == BeBytes(w);
    BeRoundTrip(w);
  }

  class SensirionI2c {
    const bus: Bus
    const crc: Crc8.SensirionCrc

    constructor (bus: Bus)
      ensures this.bus == bus && fresh(crc)
    {
      this.bus := bus;
      crc := new Crc8.SensirionCrc();
    }

    method ReadWord(address: bv8, command: bv16, checkCrc: bool) returns (r: Result<bv16, Error>)
      modifies bus`log, bus`rx, crc
      ensures r == WordReply(old(bus.rx), bus.online, checkCrc)
      ensures bus.log == old(bus.log) + RequestLog(address, BeBytes(command), bus.online, 3)
      ensures bus.rx == Remaining(old(bus.rx), bus.online, 3)
    {
      var sent := bus.Write(address, BeBytes(command));
      if sent.Err? {
        return Err(Bus(sent.error));
      }
      var buffer := new bv8[3];
      var got := bus.Read(address, 3);
      if got.Err? {
        return Err(Bus(got.error));
      }
      buffer[0], buffer[1], buffer[2] := got.value[0], got.value[1], got.value[2];
      assert buffer[..] == old(bus.rx)[..3] && buffer[..2] == old(bus.rx)[..2];
      if checkCrc {
        var sum := crc.Calculate(buffer[..2]);
        if sum != buffer[2] {
          return Err(Parsing(Crc));
        }
      }
      r := Ok(FromBe(buffer[0], buffer[1]));
    }

    method WriteWord(address: bv8, command: bv16, word: bv16) returns (r: Result<(), Error>)
      modifies bus`log, crc
      ensures bus.log == old(bus.log) + [Transfer.Write(address, WordFrame(command, word))]
      ensures r == if bus.online then Ok(()) else Err(Bus(Nack))
    {
      var buffer := new bv8[5];
      buffer[0], buffer[1] := Hi(command), Lo(command);
      buffer[2], buffer[3] := Hi(word), Lo(word);
      assert buffer[2..4] == BeBytes(word);
      buffer[4] := crc.Calculate(buffer[2..4]);
      assert buffer[..] == WordFrame(command, word);
      var sent := bus.Write(address, buffer[..]);
      if sent.Err? {
        return Err(Bus(sent.error));
      }
      r := Ok(());
    }

    /** Write a prepared frame, wait `delayMs`, then read `n` bytes. */
    method WriteReadRaw(address: bv8, writeBuffer: seq<bv8>, n: nat, delayMs: nat)
      returns (r: Result<seq<bv8>, Error>)
      modifies bus`log, bus`rx
      ensures r == RawReply(old(bus.rx), bus.online, n)
      ensures bus.log == old(bus.log) + [Transfer.Write(address, writeBuffer)]
                         + (if bus.online then [Delay(delayMs), Transfer.Read(address, n)] else [])
      ensures bus.rx == Remaining(old(bus.rx), bus.online, n)
    {
      var sent := bus.Write(address, writeBuffer);
      if sent.Err? {
        return Err(Bus(sent.error));
      }
      bus.Wait(delayMs);
      var got := bus.Read(address, n);
      if got.Err? {
        return Err(Bus(got.error));
      }
      r := Ok(got.value);
    }

    /** Send a bare command and read `n` bytes back, checksums untested. */
    method ReadRaw(address: bv8, command: bv16, n: nat) returns (r: Result<seq<bv8>, Error>)
      modifies bus`log, bus`rx
      ensures r == RawReply(old(bus.rx), bus.online, n)
      ensures bus.log == old(bus.log) + RequestLog(address, BeBytes(command), bus.online, n)
      ensures bus.rx == Remaining(old(bus.rx), bus.online, n)
    {
      var sent := bus.Write(address, BeBytes(command));
      if sent.Err? {
        return Err(Bus(sent.error));
      }
      var got := bus.Read(address, n);
      if got.Err? {
        return Err(Bus(got.error));
      }
      r := Ok(got.value);
    }
  }
}
