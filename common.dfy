/**
 * Values shared by every part of the firmware model: optional values,
 * results, the big- and little-endian byte order of 16-bit words, and
 * single-precision floats kept as opaque IEEE-754 words.
 */
module Common {

  datatype Option<T> = None | Some(value: T)

  /** Rust's `Result`; the three members let `:-` propagate an `Err`. */
  datatype Result<T, E> = Ok(value: T) | Err(error: E)
  {
    predicate IsFailure() { Err? }

    function PropagateFailure<U>(): Result<U, E>
      requires Err?
    {
      Err(error)
    }

    function Extract(): T
      requires Ok?
    {
      value
    }
  }

  /** Most significant byte of a 16-bit word (`to_be_bytes()[0]`). */
  function Hi(w: bv16): bv8 { (w >> 8) as bv8 }

  /** Least significant byte of a 16-bit word (`to_be_bytes()[1]`). */
  function Lo(w: bv16): bv8 { (w & 0xFF) as bv8 }

  /** `u16::to_be_bytes`. */
  function BeBytes(w: bv16): (r: seq<bv8>)
    ensures |r| == 2
  {
    [Hi(w), Lo(w)]
  }

  /** `u16::from_be_bytes([h, l])`. */
  function FromBe(h: bv8, l: bv8): bv16 { (h as bv16 << 8) | l as bv16 }

  /** `u16::to_le_bytes`. */
  function LeBytes(w: bv16): (r: seq<bv8>)
    ensures |r| == 2
  {
    [Lo(w), Hi(w)]
  }

  /** `u16::from_le_bytes([l, h])`. */
  function FromLe(l: bv8, h: bv8): bv16 { FromBe(h, l) }

  lemma BeRoundTrip(w: bv16)
    ensures FromBe(BeBytes(w)[0], BeBytes(w)[1]) == w
  {
  }

  lemma BeBytesOfFromBe(h: bv8, l: bv8)
    ensures BeBytes(FromBe(h, l)) == [h, l]
  {
  }

  lemma LeRoundTrip(w: bv16)
    ensures FromLe(LeBytes(w)[0], LeBytes(w)[1]) == w
  {
    BeRoundTrip(w);
  }

  /** `i16`. */
  type I16 = x: int | -0x8000 <= x < 0x8000

  /**
   * An `f32` as the four bytes of its IEEE-754 single-precision encoding,
   * most significant first, which is the order `f32::from_be_bytes` reads.
   * No floating-point arithmetic is modelled on it.
   */
  datatype F32 = F32(b0: bv8, b1: bv8, b2: bv8, b3: bv8)
  {
    function Bits(): bv32
    {
      (b0 as bv32 << 24) | (b1 as bv32 << 16) | (b2 as bv32 << 8) | b3 as bv32
    }
  }

  /** `0.0f32`, the all-zero encoding. */
  const F32_ZERO: F32 := F32(0, 0, 0, 0)
}
