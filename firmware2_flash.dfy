/**
 * The flash-logging actor of the second firmware. While logging is
 * enabled, every snapshot it is sent becomes one 8-byte entry at the next
 * offset; enabling logging erases the flash and restarts at offset 0;
 * disabling it drops the index.
 */
module Firmware2Flash {
  import opened Common
  import opened FlashLog
  import Models

  datatype LogCommand = EnableLogging(enable: bool) | LogValue(air_quality: Models.AirQuality)

  /**
   * The integer casts a log entry is made of: `co2 as u16`,
   * `pm.mass_10 as u8`, `pm.mass_25 as u8`, `(temperature * 10) as u8` and
   * `humidity as u8`. The float-to-integer conversions themselves are not
   * modelled.
   */
  datatype Casts = Casts(co2: bv16, mass_10: bv8, mass_25: bv8, temperature: bv8, humidity: bv8)

  /** The 8-byte entry: co2 and the VOC index little-endian around the four one-byte fields. */
  function EncodeEntry(c: Casts, voc: bv16): (r: seq<bv8>)
    ensures |r| == ENTRY_LEN
  {
    LeBytes(c.co2) + [c.mass_10, c.mass_25, c.temperature, c.humidity] + LeBytes(voc)
  }

  /** What the startup scan reads out of an entry: co2 and VOC little-endian, the middle bytes as they are. */
  function DecodeEntry(entry: seq<bv8>): (Casts, bv16)
    requires |entry| == ENTRY_LEN
  {
    (Casts(FromLe(entry[0], entry[1]), entry[2], entry[3], entry[4], entry[5]), FromLe(entry[6], entry[7]))
  }

  /** Reading an entry back gives the values it was written from. */
  lemma EntryRoundTrip(c: Casts, voc: bv16)
    ensures DecodeEntry(EncodeEntry(c, voc)) == (c, voc)
  {
    LeRoundTrip(c.co2);
    LeRoundTrip(voc);
  }

  /** Every 8 bytes are the entry of what the scan reads out of them. */
  lemma EntryOfDecoded(entry: seq<bv8>)
    requires |entry| == ENTRY_LEN
    ensures EncodeEntry(DecodeEntry(entry).0, DecodeEntry(entry).1) == entry
  {
    var (c, voc) := DecodeEntry(entry);
    BeBytesOfFromBe(entry[1], entry[0]);
    BeBytesOfFromBe(entry[7], entry[6]);
    assert LeBytes(c.co2) == entry[..2];
    assert LeBytes(voc) == entry[6..];
    assert entry == entry[..2] + entry[2..6] + entry[6..];
  }

  /**
   * An entry is taken for the end of the log exactly when co2 is 0xFFFF
   * and both PM bytes are 0xFF: such a reading, once logged, hides every
   * entry after it from the startup scan.
   */
  lemma EntryEndsLogIff(c: Casts, voc: bv16)
    ensures IsTerminator(EncodeEntry(c, voc)) <==> c.co2 == 0xffff && c.mass_10 == 0xff && c.mass_25 == 0xff
  {
    var e := EncodeEntry(c, voc);
    LeRoundTrip(c.co2);
    assert e[0] == LeBytes(c.co2)[0] && e[1] == LeBytes(c.co2)[1];
    if e[0] == 0xff && e[1] == 0xff {
      assert c.co2 == FromLe(0xff, 0xff);
    }
  }

  /** The entry buffer filled in place: co2 bytes, the four casts, then the VOC bytes. */
  method FillEntry(c: Casts, voc: bv16) returns (raw: seq<bv8>)
    ensures raw == EncodeEntry(c, voc)
  {
    var entry := new bv8[ENTRY_LEN];
    var co2 := LeBytes(c.co2);
    entry[0], entry[1] := co2[0], co2[1];
    entry[2] := c.mass_10;
    entry[3] := c.mass_25;
    entry[4] := c.temperature;
    entry[5] := c.humidity;
    var index := LeBytes(voc);
    entry[6], entry[7] := index[0], index[1];
    raw := [entry[0], entry[1], entry[2], entry[3], entry[4], entry[5], entry[6], entry[7]];
  }

  /** Entry `i` of `logged` sits at offset `8 i` of `memory` whenever it fits there. */
  ghost predicate InPlace(memory: seq<bv8>, logged: seq<seq<bv8>>)
  {
    forall i :: 0 <= i < |logged| ==>
      |logged[i]| == ENTRY_LEN &&
      (i * ENTRY_LEN + ENTRY_LEN <= |memory| ==> memory[i * ENTRY_LEN..i * ENTRY_LEN + ENTRY_LEN] == logged[i])
  }

  /**
   * Writing the next entry at the offset after the logged ones, or dropping
   * it when it does not fit, keeps every logged entry in place.
   */
  lemma AppendInPlace(before: seq<bv8>, after: seq<bv8>, logged: seq<seq<bv8>>, raw: seq<bv8>)
    requires InPlace(before, logged) && |raw| == ENTRY_LEN && |after| == |before|
    requires |logged| * ENTRY_LEN + ENTRY_LEN <= |before| ==> forall j :: 0 <= j < |before| ==>
      after[j] == if |logged| * ENTRY_LEN <= j < |logged| * ENTRY_LEN + ENTRY_LEN then raw[j - |logged| * ENTRY_LEN] else before[j]
    requires |logged| * ENTRY_LEN + ENTRY_LEN > |before| ==> after == before
    ensures InPlace(after, logged + [raw])
  {
    var off := |logged| * ENTRY_LEN;
    var next := logged + [raw];
    forall i | 0 <= i < |next|
      ensures |next[i]| == ENTRY_LEN
      ensures i * ENTRY_LEN + ENTRY_LEN <= |after| ==> after[i * ENTRY_LEN..i * ENTRY_LEN + ENTRY_LEN] == next[i]
    {
      var at := i * ENTRY_LEN;
      if at + ENTRY_LEN <= |after| {
        if i < |logged| {
          assert at + ENTRY_LEN <= off;
          assert next[i] == logged[i];
          assert before[at..at + ENTRY_LEN] == logged[i];
          assert after[at..at + ENTRY_LEN] == before[at..at + ENTRY_LEN];
        } else {
          assert at == off && next[i] == raw;
          assert after[at..at + ENTRY_LEN] == raw;
        }
      }
    }
  }

  class Flash {
    const memory: array<bv8>
    var index: Option<WritingIndex>
    /** The entries logged since logging was last enabled, oldest first. */
    ghost var logged: seq<seq<bv8>>

    /**
     * While logging, the index is one entry past the last logged one, and
     * every logged entry that fits the flash is still where it was written.
     */
    ghost predicate Valid()
      reads this, memory, if index.Some? then {index.value} else {}
    {
      index.Some? ==> index.value.offset == |logged| * ENTRY_LEN && InPlace(memory[..], logged)
    }

    constructor (memory: array<bv8>)
      ensures this.memory == memory && index == None && logged == []
      ensures Valid()
    {
      this.memory := memory;
      index := None;
      logged := [];
    }

    /** The startup scan, run with a local index: the actor's own index stays as it was. */
    method Mount() returns (end: Option<nat>)
      ensures end == FirstTerminator(memory[..], 0)
    {
      var entries;
      end, entries := ScanLog(memory);
    }

    method EnableLogging(enable: bool)
      modifies this, memory
      ensures enable ==> index.Some? && fresh(index.value) && index.value.offset == 0 && logged == []
      ensures enable ==> forall j :: 0 <= j < memory.Length ==>
        memory[j] == if j < (memory.Length / ERASE_BLOCK) * ERASE_BLOCK then 0xff else old(memory[j])
      ensures !enable ==> index == None && logged == [] && unchanged(memory)
      ensures Valid()
    {
      if enable {
        EraseAll(memory);
        var restart := new WritingIndex();
        index := Some(restart);
      } else {
        index := None;
      }
      logged := [];
    }

    /**
     * `LogValue`: without an index nothing happens; with one, the entry goes
     * to the next offset. `ok` is false when that offset is past the flash:
     * the write's error is dropped, the memory stays as it was and the
     * index has already moved on.
     */
    method LogValue(air_quality: Models.AirQuality, casts: Casts) returns (ok: bool)
      requires Valid()
      modifies this, memory, if index.Some? then {index.value} else {}
      ensures Valid()
      ensures old(index).None? ==> index == None && logged == old(logged) && unchanged(memory) && ok
      ensures old(index).Some? ==> index == old(index) && logged == old(logged) + [EncodeEntry(casts, air_quality.voc.index)]
      ensures old(index).Some? ==> (ok <==> old(index.value.offset) + ENTRY_LEN <= memory.Length)
      ensures old(index).Some? && ok ==> forall j :: 0 <= j < memory.Length ==>
        memory[j] == if old(index.value.offset) <= j < old(index.value.offset) + ENTRY_LEN
                     then EncodeEntry(casts, air_quality.voc.index)[j - old(index.value.offset)]
                     else old(memory[j])
    {
      if index.None? {
        return true;
      }
      var raw := FillEntry(casts, air_quality.voc.index);
      ok := Append(raw);
    }

    /** The logging branch of `LogValue`, for an entry already filled. */
    method Append(raw: seq<bv8>) returns (ok: bool)
      requires Valid() && index.Some? && |raw| == ENTRY_LEN
      modifies this, memory, index.value
      ensures Valid()
      ensures index == old(index) && logged == old(logged) + [raw]
      ensures ok <==> old(index.value.offset) + ENTRY_LEN <= memory.Length
      ensures ok ==> forall j :: 0 <= j < memory.Length ==>
        memory[j] == if old(index.value.offset) <= j < old(index.value.offset) + ENTRY_LEN
                     then raw[j - old(index.value.offset)]
                     else old(memory[j])
      ensures !ok ==> unchanged(memory)
    {
      ghost var before := memory[..];
      var flashOffset := index.value.Next();
      if flashOffset + ENTRY_LEN > memory.Length {
        ok := false;
      } else {
        Write(flashOffset, raw);
        ok := true;
      }
      AppendInPlace(before, memory[..], logged, raw);
      logged := logged + [raw];
    }

    /** The QSPI write of one entry. */
    method Write(offset: nat, raw: seq<bv8>)
      requires |raw| == ENTRY_LEN && offset + ENTRY_LEN <= memory.Length
      modifies memory
      ensures forall j :: 0 <= j < memory.Length ==>
        memory[j] == if offset <= j < offset + ENTRY_LEN then raw[j - offset] else old(memory[j])
    {
      for k := 0 to ENTRY_LEN
        invariant forall j :: 0 <= j < memory.Length ==>
          memory[j] == if offset <= j < offset + k then raw[j - offset] else old(memory[j])
      {
        memory[offset + k] := raw[k];
      }
    }
  }
}
