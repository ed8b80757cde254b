/**
 * The NeoPixel driver of the first firmware. It drives a WS2812 LED over
 * SPI, two colour bits per SPI byte. Each nibble of an SPI byte is one bit
 * on the wire: 1000 is a short high pulse (a 0), 1110 a long one (a 1).
 * A colour is twelve SPI bytes, green then red then blue, followed by 140
 * zero bytes that hold the line low so the LED latches.
 */
module NeoPixel {
  /** A colour; the constructor takes red, green, blue, in that order. */
  datatype Color = Color(red: bv8, blue: bv8, green: bv8)

  function NewColor(red: bv8, green: bv8, blue: bv8): (r: Color)
    ensures r.red == red && r.green == green && r.blue == blue
  {
    Color(red, blue, green)
  }

  const MAX: bv8 := 16
  const RED: Color := NewColor(MAX, 0, 0)
  const GREEN: Color := NewColor(0, MAX, 0)
  const BLUE: Color := NewColor(0, 0, MAX)
  const ORANGE: Color := NewColor(MAX, MAX / 2, 0)

  /** The SPI byte for a bit pair 00, 01, 10, 11. */
  const PATTERNS: seq<bv8> := [0x88, 0x8E, 0xE8, 0xEE]

  /** The table lookup `patterns[bits]`, for a bit pair `bits`. */
  function Pattern(bits: bv8): bv8
  {
    if bits == 0 then 0x88 else if bits == 1 then 0x8E else if bits == 2 then 0xE8 else 0xEE
  }

  const BYTES_PER_COLOR: nat := 4
  const FRAME_LEN: nat := 12
  const FLUSH_LEN: nat := 140

  /** The bit pair of `data` at position `i`, most significant pair first. */
  function Pair(data: bv8, i: nat): (r: bv8)
    requires i < BYTES_PER_COLOR
    ensures r < 4
  {
    if i == 0 then data >> 6
    else if i == 1 then (data >> 4) & 3
    else if i == 2 then (data >> 2) & 3
    else data & 3
  }

  /** The four SPI bytes of one colour byte, bit pairs most significant first. */
  function EncodeByte(data: bv8): (r: seq<bv8>)
    ensures |r| == BYTES_PER_COLOR
  {
    [Pattern(Pair(data, 0)), Pattern(Pair(data, 1)), Pattern(Pair(data, 2)), Pattern(Pair(data, 3))]
  }

  /** `data` after `i` rounds of the encoder's two-bit left shift. */
  function Shifted(data: bv8, i: nat): bv8
  {
    if i == 0 then data else Shifted(data, i - 1) << 2
  }

  /**
   * Round `i` of the encoder reads the `i`-th bit pair off the top of the
   * shifted byte, and so picks the `i`-th byte of the encoding.
   */
  lemma TopPairOfShifted(data: bv8, i: nat)
    requires i < BYTES_PER_COLOR
    ensures (Shifted(data, i) & 0xC0) >> 6 == Pair(data, i)
    ensures Pattern((Shifted(data, i) & 0xC0) >> 6) == EncodeByte(data)[i]
  {
    var s1 := Shifted(data, 1);
    var s2 := Shifted(data, 2);
    var s3 := Shifted(data, 3);
    if i == 0 {
      assert Shifted(data, 0) == data;
    } else if i == 1 {
      assert s1 == data << 2;
      assert (s1 & 0xC0) >> 6 == (data >> 4) & 3;
    } else if i == 2 {
      assert s2 == (data << 2) << 2;
      assert (s2 & 0xC0) >> 6 == (data >> 2) & 3;
    } else {
      assert s3 == ((data << 2) << 2) << 2;
      assert (s3 & 0xC0) >> 6 == data & 3;
    }
  }

  /** A wire nibble: 1110 carries a 1, 1000 a 0. */
  function NibbleBit(nibble: bv8): bv8
  {
    if nibble == 0xE then 1 else 0
  }

  /** The two wire bits of an SPI byte: its high nibble first. */
  function PatternBits(p: bv8): bv8
  {
    (NibbleBit(p >> 4) << 1) | NibbleBit(p & 0xF)
  }

  /** Reads a colour byte back off the four SPI bytes that carry it. */
  function DecodeByte(s: seq<bv8>): bv8
    requires |s| == BYTES_PER_COLOR
  {
    (PatternBits(s[0]) << 6) | (PatternBits(s[1]) << 4) | (PatternBits(s[2]) << 2) | PatternBits(s[3])
  }

  /**
   * The lookup is the table, each pattern carries its bit pair on the wire,
   * high nibble first, and every nibble of a pattern is one of the two
   * pulse shapes.
   */
  lemma PatternsCarryTheirPair(bits: bv8)
    requires bits < 4
    ensures Pattern(bits) == PATTERNS[bits as int]
    ensures PatternBits(Pattern(bits)) == bits
    ensures Pattern(bits) >> 4 in {0x8, 0xE} && Pattern(bits) & 0xF in {0x8, 0xE}
  {
    if bits == 0 {
      assert bits as int == 0;
    } else if bits == 1 {
      assert bits as int == 1;
    } else if bits == 2 {
      assert bits as int == 2;
    } else {
      assert bits as int == 3;
    }
  }

  /** The four patterns are pairwise distinct. */
  lemma PatternsDistinct()
    ensures forall i, j :: 0 <= i < j < |PATTERNS| ==> PATTERNS[i] != PATTERNS[j]
  {
  }

  /** The four bit pairs of a byte, put back in place, make the byte. */
  lemma PairsRecombine(data: bv8)
    ensures (Pair(data, 0) << 6) | (Pair(data, 1) << 4) | (Pair(data, 2) << 2) | Pair(data, 3) == data
  {
  }

  /** Decoding the SPI bytes of a colour byte gives the byte back. */
  lemma ByteRoundTrip(data: bv8)
    ensures DecodeByte(EncodeByte(data)) == data
  {
    var e := EncodeByte(data);
    PatternsCarryTheirPair(Pair(data, 0));
    PatternsCarryTheirPair(Pair(data, 1));
    PatternsCarryTheirPair(Pair(data, 2));
    PatternsCarryTheirPair(Pair(data, 3));
    assert PatternBits(e[0]) == Pair(data, 0);
    assert PatternBits(e[1]) == Pair(data, 1);
    assert PatternBits(e[2]) == Pair(data, 2);
    assert PatternBits(e[3]) == Pair(data, 3);
    PairsRecombine(data);
  }

  /** Different colour bytes never share an encoding. */
  lemma EncodeByteInjective(a: bv8, b: bv8)
    ensures EncodeByte(a) == EncodeByte(b) ==> a == b
  {
    ByteRoundTrip(a);
    ByteRoundTrip(b);
  }

  /** The twelve SPI bytes of a colour: green, red, blue. */
  function Frame(color: Color): (r: seq<bv8>)
    ensures |r| == FRAME_LEN
  {
    EncodeByte(color.green) + EncodeByte(color.red) + EncodeByte(color.blue)
  }

  /** Reads a colour back off its twelve SPI bytes. */
  function DecodeFrame(frame: seq<bv8>): Color
    requires |frame| == FRAME_LEN
  {
    NewColor(DecodeByte(frame[4..8]), DecodeByte(frame[0..4]), DecodeByte(frame[8..12]))
  }

  /** A colour survives the trip through its frame. */
  lemma FrameRoundTrip(color: Color)
    ensures DecodeFrame(Frame(color)) == color
  {
    var f := Frame(color);
    assert f[0..4] == EncodeByte(color.green);
    assert f[4..8] == EncodeByte(color.red);
    assert f[8..12] == EncodeByte(color.blue);
    ByteRoundTrip(color.green);
    ByteRoundTrip(color.red);
    ByteRoundTrip(color.blue);
  }

  /**
   * `fill_with_byte`: writes the encoding of `data` into the four bytes at
   * `start`, shifting `data` left by a pair each round, and nothing else.
   */
  method FillWithByte(buffer: array<bv8>, start: nat, data: bv8)
    requires start + BYTES_PER_COLOR <= buffer.Length
    modifies buffer
    ensures forall j :: 0 <= j < buffer.Length ==>
      buffer[j] == if start <= j < start + BYTES_PER_COLOR then EncodeByte(data)[j - start] else old(buffer[j])
  {
    ghost var code := EncodeByte(data);
    var rest := data;
    for i := 0 to BYTES_PER_COLOR
      invariant rest == Shifted(data, i)
      invariant forall j :: 0 <= j < buffer.Length ==>
        buffer[j] == if start <= j < start + i then code[j - start] else old(buffer[j])
    {
      var bits := (rest & 0xC0) >> 6;
      TopPairOfShifted(data, i);
      buffer[start + i] := Pattern(bits);
      rest := rest << 2;
    }
  }

  /**
   * The SPI bus: `sent` is every write that went out, in order, and a write
   * fails, sending nothing, when the bus is not `online`.
   */
  class Spi {
    var sent: seq<seq<bv8>>
    var online: bool

    constructor (online: bool)
      ensures sent == [] && this.online == online
    {
      sent := [];
      this.online := online;
    }

    method Write(data: seq<bv8>) returns (ok: bool)
      modifies this
      ensures ok == online && online == old(online)
      ensures sent == old(sent) + if ok then [data] else []
    {
      ok := online;
      if ok {
        sent := sent + [data];
      }
    }
  }

  /**
   * `set_color`: the colour frame, then the 140-byte flush; an error on the
   * first write returns before the flush.
   */
  method SetColor(bus: Spi, color: Color) returns (ok: bool)
    modifies bus
    ensures ok == old(bus.online) && bus.online == old(bus.online)
    ensures bus.sent == old(bus.sent) + if ok then [Frame(color), seq(FLUSH_LEN, _ => 0)] else []
  {
    var buffer := new bv8[FRAME_LEN](_ => 0);
    FillWithByte(buffer, 0, color.green);
    FillWithByte(buffer, 4, color.red);
    FillWithByte(buffer, 8, color.blue);
    assert buffer[..] == Frame(color);
    ok := bus.Write(buffer[..]);
    if !ok {
      return;
    }
    ok := bus.Write(seq(FLUSH_LEN, _ => 0));
  }
}
