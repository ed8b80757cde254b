/**
 * The shared I2C bus the Sensirion sensors hang off, reduced to what the
 * drivers can observe: the transfers they issue, in order, and the bytes
 * the devices answer with. A device that is absent or busy does not
 * acknowledge, which the driver sees as a bus error.
 */
module I2c {
  import opened Common

  /** One transfer on the bus, as a logic analyser would list it. */
  datatype Transfer =
    | Write(address: bv8, bytes: seq<bv8>)
    | Read(address: bv8, count: nat)
    | Delay(ms: nat)

  /** The error of the underlying bus implementation (opaque to the drivers). */
  datatype BusError = Nack

  /** What a read of `count` bytes returns when the devices still hold `rx`. */
  function Answer(rx: seq<bv8>, online: bool, count: nat): (r: Result<seq<bv8>, BusError>)
    ensures r.Ok? <==> online && count <= |rx|
    ensures r.Ok? ==> |r.value| == count && rx == r.value + rx[count..]
  {
    if online && count <= |rx| then Ok(rx[..count]) else Err(Nack)
  }

  /** The transfers of a command followed by a read of `n` bytes; a refused command ends it. */
  function RequestLog(address: bv8, written: seq<bv8>, online: bool, n: nat): seq<Transfer>
  {
    [Write(address, written)] + (if online then [Read(address, n)] else [])
  }

  /** The answer bytes left once a read of `n` bytes was attempted. */
  function Remaining(rx: seq<bv8>, online: bool, n: nat): seq<bv8>
  {
    if online && n <= |rx| then rx[n..] else rx
  }

  class Bus {
    /** Every transfer attempted so far, failed ones included. */
    var log: seq<Transfer>
    /** The bytes the devices will send back, in order. */
    var rx: seq<bv8>
    /** Whether the addressed devices acknowledge. */
    var online: bool

    constructor (answers: seq<bv8>, acknowledging: bool)
      ensures log == [] && rx == answers && online == acknowledging
    {
      log := [];
      rx := answers;
      online := acknowledging;
    }

    method Write(address: bv8, bytes: seq<bv8>) returns (r: Result<(), BusError>)
      modifies this`log
      ensures log == old(log) + [Transfer.Write(address, bytes)]
      ensures r == if online then Ok(()) else Err(Nack)
    {
      log := log + [Transfer.Write(address, bytes)];
      r := if online then Ok(()) else Err(Nack);
    }

    method Read(address: bv8, count: nat) returns (r: Result<seq<bv8>, BusError>)
      modifies this`log, this`rx
      ensures log == old(log) + [Transfer.Read(address, count)]
      ensures r == Answer(old(rx), online, count)
      ensures rx == Remaining(old(rx), online, count)
    {
      log := log + [Transfer.Read(address, count)];
      r := Answer(rx, online, count);
      if r.Ok? {
        rx := rx[count..];
      }
    }

    method Wait(ms: nat)
      modifies this`log
      ensures log == old(log) + [Delay(ms)]
    {
      log := log + [Delay(ms)];
    }
  }
}
