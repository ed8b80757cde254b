/**
 * The flash-logging actor of the first firmware: the same index, erase
 * and scan as the second one, but its `LogValue` handling has its write
 * disabled, so a logged value only produces a "logging unavailable" log
 * line.
 */
module FirmwareFlash {
  import opened Common
  import opened FlashLog
  import opened Shared

  /** `LogValue` carries the shared crate's air-quality record, which this actor never reads; `Shared.AirQuality` stands in for it. */
  datatype LogCommand = EnableLogging(enable: bool) | LogValue(air_quality: AirQuality)

  class Flash {
    const memory: array<bv8>
    var index: Option<WritingIndex>

    constructor (memory: array<bv8>)
      ensures this.memory == memory && index == None
    {
      this.memory := memory;
      index := None;
    }

    /**
     * The startup scan, with a local index and the entry counter `n`
     * (terminator included); the actor's own index stays as it was.
     */
    method Mount() returns (end: Option<nat>, n: nat)
      ensures end == FirstTerminator(memory[..], 0)
      ensures end.Some? ==> n == end.value / ENTRY_LEN + 1
    {
      end, n := ScanLog(memory);
    }

    method EnableLogging(enable: bool)
      modifies this, memory
      ensures enable ==> index.Some? && fresh(index.value) && index.value.offset == 0
      ensures enable ==> forall j :: 0 <= j < memory.Length ==>
        memory[j] == if j < (memory.Length / ERASE_BLOCK) * ERASE_BLOCK then 0xff else old(memory[j])
      ensures !enable ==> index == None && unchanged(memory)
    {
      if enable {
        EraseAll(memory);
        var restart := new WritingIndex();
        index := Some(restart);
      } else {
        index := None;
      }
    }

    /**
     * `LogValue`: nothing is written and the index does not move, whether
     * logging is enabled or not; `unavailable` is the error log line
     * written when it is.
     */
    method LogValue(air_quality: AirQuality) returns (unavailable: bool)
      ensures unavailable <==> index.Some?
    {
      unavailable := index.Some?;
    }
  }
}
