/**
 * The CRC-8 that every Sensirion sensor appends to each 16-bit word it
 * sends or receives: polynomial 0x31, initial value 0xFF, no reflection of
 * input or output, final XOR 0x00.
 */
module Crc8 {

  const POLYNOMIAL: bv8 := 0x31
  const INIT: bv8 := 0xFF
  const XOR_OUT: bv8 := 0x00

  /** One step of the non-reflected shift register. */
  function ShiftBit(c: bv8): bv8
  {
    if c & 0x80 != 0 then (c << 1) ^ POLYNOMIAL else c << 1
  }

  function ShiftBits(c: bv8, n: nat): bv8
    decreases n
  {
    if n == 0 then c else ShiftBits(ShiftBit(c), n - 1)
  }

  /** The register after one more input byte. */
  function UpdateByte(c: bv8, b: bv8): bv8
  {
    ShiftBits(c ^ b, 8)
  }

  /** The register after all of `data`, fed first byte first. */
  function Register(data: seq<bv8>): bv8
    decreases |data|
  {
    if |data| == 0 then INIT
    else UpdateByte(Register(data[..|data| - 1]), data[|data| - 1])
  }

  /** The checksum of `data`. */
  function Crc(data: seq<bv8>): bv8
  {
    Register(data) ^ XOR_OUT
  }

  /**
   * The `SensirionCrc` wrapper: a CRC engine whose `calculate` resets the
   * register, feeds the input and finishes, so its result depends on the
   * input alone even though the engine is shared and mutated.
   */
  class SensirionCrc {
    var register: bv8

    constructor ()
      ensures register == INIT
    {
      register := INIT;
    }

    method Calculate(input: seq<bv8>) returns (r: bv8)
      modifies this
      ensures r == Crc(input)
      ensures register == Register(input)
    {
      register := INIT;
      var i := 0;
      while i < |input|
        invariant 0 <= i <= |input|
        invariant register == Register(input[..i])
      {
        var c := register ^ input[i];
        var k := 0;
        while k < 8
          invariant 0 <= k <= 8
          invariant ShiftBits(c, 8 - k) == UpdateByte(register, input[i])
        {
          c := if c & 0x80 != 0 then (c << 1) ^ POLYNOMIAL else c << 1;
          k := k + 1;
        }
        assert input[..i + 1][..i] == input[..i];
        register := c;
        i := i + 1;
      }
      assert input[..i] == input;
      r := register ^ XOR_OUT;
    }
  }
}

/** What the checksum guarantees: the published check value and error detection. */
module Crc8Properties {
  import opened Crc8

  /** The checksum of a two-byte word, the only length the sensors use. */
  lemma CrcPair(a: bv8, b: bv8)
    ensures Crc([a, b]) == UpdateByte(UpdateByte(INIT, a), b)
  {
    assert Register([a]) == UpdateByte(INIT, a) by { assert [a][..0] == []; }
    assert Register([a, b]) == UpdateByte(Register([a]), b) by { assert [a, b][..1] == [a]; }
  }

  /** The check value quoted with the algorithm: 0xBEEF has CRC 0x92. */
  lemma TestVector()
    ensures Crc([0xBE, 0xEF]) == 0x92
  {
    CrcPair(0xBE, 0xEF);
    assert ShiftBits(0x41, 8) == ShiftBits(0x82, 7) == ShiftBits(0x35, 6) == ShiftBits(0x6A, 5) == ShiftBits(0xD4, 4);
    assert ShiftBits(0xD4, 4) == ShiftBits(0x99, 3) == ShiftBits(0x03, 2) == ShiftBits(0x06, 1) == ShiftBits(0x0C, 0) == 0x0C;
    assert ShiftBits(0xE3, 8) == ShiftBits(0xF7, 7) == ShiftBits(0xDF, 6) == ShiftBits(0x8F, 5) == ShiftBits(0x2F, 4);
    assert ShiftBits(0x2F, 4) == ShiftBits(0x5E, 3) == ShiftBits(0xBC, 2) == ShiftBits(0x49, 1) == ShiftBits(0x92, 0) == 0x92;
  }

  lemma ShiftBitInjective(x: bv8, y: bv8)
    ensures ShiftBit(x) == ShiftBit(y) ==> x == y
  {
  }

  lemma {:induction false} ShiftBitsInjective(x: bv8, y: bv8, n: nat)
    ensures ShiftBits(x, n) == ShiftBits(y, n) ==> x == y
    decreases n
  {
    if n > 0 {
      ShiftBitsInjective(ShiftBit(x), ShiftBit(y), n - 1);
      ShiftBitInjective(x, y);
    }
  }

  /** Different registers stay different whatever byte comes next. */
  lemma UpdateByteInjective(c: bv8, d: bv8, b: bv8, e: bv8)
    ensures UpdateByte(c, b) == UpdateByte(d, e) ==> c ^ b == d ^ e
  {
    ShiftBitsInjective(c ^ b, d ^ e, 8);
  }

  /** Feeding one byte keeps a single difference, in the register or in the byte. */
  lemma UpdateKeepsDifference(c: bv8, d: bv8, b: bv8, e: bv8)
    requires (c == d && b != e) || (c != d && b == e)
    ensures UpdateByte(c, b) != UpdateByte(d, e)
  {
    assert c ^ b != d ^ e;
    UpdateByteInjective(c, d, b, e);
  }

  /** The last byte of a message keeps a single difference alive in the register. */
  lemma LastByteKeepsDifference(s: seq<bv8>, t: seq<bv8>)
    requires |s| == |t| > 0
    requires var n := |s| - 1;
      (s[..n] == t[..n] && s[n] != t[n]) || (Register(s[..n]) != Register(t[..n]) && s[n] == t[n])
    ensures Register(s) != Register(t)
  {
    var n := |s| - 1;
    var a, b := Register(s[..n]), Register(t[..n]);
    assert Register(s) == UpdateByte(a, s[n]);
    assert Register(t) == UpdateByte(b, t[n]);
    UpdateKeepsDifference(a, b, s[n], t[n]);
  }

  lemma {:induction false} RegisterSingleByteError(s: seq<bv8>, t: seq<bv8>, i: nat)
    requires |s| == |t| && i < |s|
    requires s[i] != t[i]
    requires forall j :: 0 <= j < |s| && j != i ==> s[j] == t[j]
    ensures Register(s) != Register(t)
    decreases |s|
  {
    var n := |s| - 1;
    if n == i {
      assert s[..n] == t[..n];
    } else {
      RegisterSingleByteError(s[..n], t[..n], i);
    }
    LastByteKeepsDifference(s, t);
  }

  /**
   * Error detection: two equally long messages that differ in exactly one
   * byte never share a checksum, so a single corrupted byte of a frame is
   * always reported as a CRC mismatch.
   */
  lemma SingleByteErrorDetected(s: seq<bv8>, t: seq<bv8>, i: nat)
    requires |s| == |t| && i < |s|
    requires s[i] != t[i]
    requires forall j :: 0 <= j < |s| && j != i ==> s[j] == t[j]
    ensures Crc(s) != Crc(t)
  {
    RegisterSingleByteError(s, t, i);
  }
}
