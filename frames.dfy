/**
 * The Sensirion I2C framing: a command is a 16-bit opcode sent most
 * significant byte first, and every 16-bit data word in either direction
 * travels as its two big-endian bytes followed by their CRC-8. A float is
 * two such words, high half first.
 */
module SensirionFrame {
  import opened Common
  import opened Crc8
  import Crc8Properties

  /** A data word as it appears on the wire: two bytes and their checksum. */
  function DataWord(w: bv16): (r: seq<bv8>)
    ensures |r| == 3
  {
    BeBytes(w) + [Crc(BeBytes(w))]
  }

  /** A command that carries one argument word. */
  function WordFrame(command: bv16, w: bv16): (r: seq<bv8>)
    ensures |r| == 5
  {
    BeBytes(command) + DataWord(w)
  }

  /** The receiver's check of one three-byte group. */
  function CheckedWord(g: seq<bv8>): (r: Option<bv16>)
    requires |g| == 3
    ensures r.Some? <==> Crc(g[..2]) == g[2]
    ensures r.Some? ==> g == DataWord(r.value) && r.value == FromBe(g[0], g[1])
  {
    BeBytesOfFromBe(g[0], g[1]);
    assert g[..2] == [g[0], g[1]];
    if Crc(g[..2]) == g[2] then Some(FromBe(g[0], g[1])) else None
  }

  /** A "data ready" reply: the device is ready exactly when the checked word is 1; a failed read passes through. */
  function ReadyFromWord<E>(w: Result<bv16, E>): (r: Result<bool, E>)
    ensures r.Ok? <==> w.Ok?
    ensures r.Ok? ==> (r.value <==> w.value == 1)
    ensures r.Err? ==> r.error == w.error
  {
    match w
    case Ok(word) => Ok(word == 1)
    case Err(e) => Err(e)
  }

  lemma WordRoundTrip(w: bv16)
    ensures CheckedWord(DataWord(w)) == Some(w)
  {
    BeRoundTrip(w);
  }

  /** A word whose frame lost or flipped a single byte is always refused. */
  lemma CorruptedWordRefused(w: bv16, g: seq<bv8>, i: nat)
    requires |g| == 3 && i < 3 && g[i] != DataWord(w)[i]
    requires forall j :: 0 <= j < 3 && j != i ==> g[j] == DataWord(w)[j]
    ensures CheckedWord(g) == None
  {
    var good := DataWord(w);
    if i == 2 {
      assert g[..2] == good[..2];
    } else {
      Crc8Properties.SingleByteErrorDetected(g[..2], good[..2], i);
    }
  }

  /** The six-byte group of a float: high word, its CRC, low word, its CRC. */
  function FloatGroup(f: F32): (r: seq<bv8>)
    ensures |r| == 6
  {
    [f.b0, f.b1, Crc([f.b0, f.b1]), f.b2, f.b3, Crc([f.b2, f.b3])]
  }

  /** A float group is the two data words of the float's halves. */
  lemma FloatGroupIsTwoWords(f: F32)
    ensures FloatGroup(f) == DataWord(FromBe(f.b0, f.b1)) + DataWord(FromBe(f.b2, f.b3))
  {
    BeBytesOfFromBe(f.b0, f.b1);
    BeBytesOfFromBe(f.b2, f.b3);
  }

  /** The float whose encoding a group carries, when both checksums match. */
  function CheckedFloat(g: seq<bv8>): (r: Option<F32>)
    requires |g| == 6
    ensures r.Some? <==> Crc([g[0], g[1]]) == g[2] && Crc([g[3], g[4]]) == g[5]
    ensures r.Some? ==> g == FloatGroup(r.value)
  {
    if Crc([g[0], g[1]]) == g[2] && Crc([g[3], g[4]]) == g[5] then
      var f := F32(g[0], g[1], g[3], g[4]);
      assert g == FloatGroup(f) by {
        assert forall j :: 0 <= j < 6 ==> g[j] == FloatGroup(f)[j];
      }
      Some(f)
    else
      None
  }

  /** A float group with one corrupted byte is always refused. */
  lemma CorruptedFloatRefused(f: F32, g: seq<bv8>, i: nat)
    requires |g| == 6 && i < 6 && g[i] != FloatGroup(f)[i]
    requires forall j :: 0 <= j < 6 && j != i ==> g[j] == FloatGroup(f)[j]
    ensures CheckedFloat(g) == None
  {
    var sent := FloatGroup(f);
    if i < 3 {
      WordCorrupted([g[0], g[1]], [f.b0, f.b1], g[2], sent[2], i);
    } else {
      WordCorrupted([g[3], g[4]], [f.b2, f.b3], g[5], sent[5], i - 3);
    }
  }

  /** A word and checksum of which exactly one of the three bytes changed fail the check. */
  lemma WordCorrupted(s: seq<bv8>, t: seq<bv8>, c: bv8, d: bv8, i: nat)
    requires |s| == 2 && |t| == 2 && i < 3 && d == Crc(t)
    requires i < 2 ==> s[i] != t[i] && s[1 - i] == t[1 - i] && c == d
    requires i == 2 ==> s == t && c != d
    ensures Crc(s) != c
  {
    if i < 2 {
      Crc8Properties.SingleByteErrorDetected(s, t, i);
    }
  }

  lemma FloatRoundTrip(f: F32)
    ensures CheckedFloat(FloatGroup(f)) == Some(f)
  {
  }
}
