/**
 * The measurement log kept in the external QSPI flash, as both firmware
 * generations lay it out: fixed 8-byte entries from offset 0, handed out
 * by a writing index; a log is ended by the first entry whose first four
 * bytes are still erased (0xFF); enabling logging erases the flash in
 * 4096-byte blocks. The flash is an array of bytes whose length is the
 * part's size; a read or erase outside it, or a timeout, panics.
 */
module FlashLog {
  import opened Common

  /** co2 2 bytes, PM1.0 1, PM2.5 1, temperature 1, humidity 1, VOC 2. */
  const ENTRY_LEN: nat := 8

  const ERASE_BLOCK: nat := 4096

  /** The size of the external flash of the first firmware's board. */
  const EXTERNAL_FLASH_SIZE: nat := 2097152

  /** The offset of the next entry to write. */
  class WritingIndex {
    var offset: nat

    constructor ()
      ensures offset == 0
    {
      offset := 0;
    }

    /** Hand out the current offset and move past one entry. */
    method Next() returns (next: nat)
      modifies this
      ensures next == old(offset)
      ensures offset == old(offset) + ENTRY_LEN
    {
      next := offset;
      offset := offset + ENTRY_LEN;
    }
  }

  /** Successive offsets handed out from a fresh index are 0, 8, 16, ...: the k-th is 8k. */
  method Offsets(count: nat) returns (offsets: seq<nat>)
    ensures |offsets| == count
    ensures forall k :: 0 <= k < count ==> offsets[k] == k * ENTRY_LEN
  {
    var index := new WritingIndex();
    offsets := [];
    while |offsets| < count
      invariant |offsets| <= count
      invariant index.offset == |offsets| * ENTRY_LEN
      invariant forall k :: 0 <= k < |offsets| ==> offsets[k] == k * ENTRY_LEN
    {
      var next := index.Next();
      offsets := offsets + [next];
    }
  }

  /** An entry ends the log when its first four bytes are erased. */
  predicate IsTerminator(entry: seq<bv8>)
    requires |entry| >= 4
  {
    entry[0] == 0xff && entry[1] == 0xff && entry[2] == 0xff && entry[3] == 0xff
  }

  /**
   * The offset of the first entry from `from` on that ends the log, or
   * `None` when the entries run out first (the read past the end panics).
   */
  function FirstTerminator(memory: seq<bv8>, from: nat): (r: Option<nat>)
    requires from % ENTRY_LEN == 0
    ensures r.Some? ==> from <= r.value && r.value % ENTRY_LEN == 0 && r.value + ENTRY_LEN <= |memory|
    ensures r.Some? ==> IsTerminator(memory[r.value..r.value + ENTRY_LEN])
    ensures r.Some? ==> forall k :: from <= k < r.value && k % ENTRY_LEN == 0 ==> !IsTerminator(memory[k..k + ENTRY_LEN])
    ensures r.None? ==> forall k :: from <= k && k + ENTRY_LEN <= |memory| && k % ENTRY_LEN == 0 ==>
      !IsTerminator(memory[k..k + ENTRY_LEN])
    decreases |memory| - from
  {
    if from + ENTRY_LEN > |memory| then None
    else if IsTerminator(memory[from..from + ENTRY_LEN]) then Some(from)
    else FirstTerminator(memory, from + ENTRY_LEN)
  }

  /**
   * The startup scan: read entries at the offsets a fresh local index
   * hands out until one ends the log. `n` counts the entries read,
   * terminator included; `None` is the panic of a read past the end.
   */
  method ScanLog(memory: array<bv8>) returns (end: Option<nat>, n: nat)
    ensures end == FirstTerminator(memory[..], 0)
    ensures end.Some? ==> n == end.value / ENTRY_LEN + 1
  {
    if memory.Length < ENTRY_LEN {
      return None, 0;
    }
    var index := new WritingIndex();
    n := 1;
    while true
      invariant index.offset % ENTRY_LEN == 0 && n == index.offset / ENTRY_LEN + 1
      invariant FirstTerminator(memory[..], index.offset) == FirstTerminator(memory[..], 0)
      decreases memory.Length - index.offset
    {
      var addr := index.Next();
      if addr + ENTRY_LEN > memory.Length {
        return None, n;
      }
      var raw := memory[addr..addr + ENTRY_LEN];
      if raw[0] == 0xff && raw[1] == 0xff && raw[2] == 0xff && raw[3] == 0xff {
        return Some(addr), n;
      }
      n := n + 1;
    }
  }

  /** `erase` of the block at `addr`: its 4096 bytes become 0xFF. */
  method EraseBlock(memory: array<bv8>, addr: nat)
    requires addr + ERASE_BLOCK <= memory.Length
    modifies memory
    ensures forall j :: 0 <= j < memory.Length ==>
      memory[j] == if addr <= j < addr + ERASE_BLOCK then 0xff else old(memory[j])
  {
    for j := addr to addr + ERASE_BLOCK
      invariant forall k :: 0 <= k < memory.Length ==>
        memory[k] == if addr <= k < j then 0xff else old(memory[k])
    {
      memory[j] := 0xff;
    }
  }

  /** Erase every whole block from offset 0, as enabling logging does. */
  method EraseAll(memory: array<bv8>)
    modifies memory
    ensures forall j :: 0 <= j < memory.Length ==>
      memory[j] == if j < (memory.Length / ERASE_BLOCK) * ERASE_BLOCK then 0xff else old(memory[j])
    ensures memory.Length == EXTERNAL_FLASH_SIZE ==> forall j :: 0 <= j < memory.Length ==> memory[j] == 0xff
  {
    var blocks := memory.Length / ERASE_BLOCK;
    for i := 0 to blocks
      invariant forall j :: 0 <= j < memory.Length ==>
        memory[j] == if j < i * ERASE_BLOCK then 0xff else old(memory[j])
    {
      EraseBlock(memory, i * ERASE_BLOCK);
    }
  }
}
