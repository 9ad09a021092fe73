/**
 * Fixed-width integer types of the C sources and the conversions the C
 * compiler applies when an int-valued expression is stored into a narrower
 * variable or parameter. Every wrap-around of the driver code is written
 * with these functions, so that it is visible in the model.
 */
module Bytes {

  type u8 = x: int | 0 <= x < 0x100
  type u16 = x: int | 0 <= x < 0x1_0000
  type u32 = x: int | 0 <= x < 0x1_0000_0000
  type i8 = x: int | -0x80 <= x < 0x80
  type i16 = x: int | -0x8000 <= x < 0x8000

  datatype Option<+T> = None | Some(value: T)

  /** Storing an int into a uint8_t: reduction modulo 2^8. */
  function U8(v: int): (r: u8)
    ensures (v - r) % 0x100 == 0
    ensures 0 <= v < 0x100 ==> r == v
  {
    v % 0x100
  }

  /** Storing an int into a uint16_t: reduction modulo 2^16. */
  function U16(v: int): (r: u16)
    ensures (v - r) % 0x1_0000 == 0
    ensures 0 <= v < 0x1_0000 ==> r == v
  {
    v % 0x1_0000
  }

  /** Storing an int into a uint32_t: reduction modulo 2^32. */
  function U32(v: int): (r: u32)
    ensures (v - r) % 0x1_0000_0000 == 0
    ensures 0 <= v < 0x1_0000_0000 ==> r == v
  {
    v % 0x1_0000_0000
  }

  /** Storing an int into an int16_t: two's-complement wrap-around (what the target compiler does). */
  function I16(v: int): (r: i16)
    ensures (v - r) % 0x1_0000 == 0
    ensures -0x8000 <= v < 0x8000 ==> r == v
  {
    if -0x8000 <= v < 0x8000 then v else (v + 0x8000) % 0x1_0000 - 0x8000
  }

  /** The two bytes of a 16-bit value, high byte first (`v >> 8`, `v & 0xFF`). */
  function BigEndian(v: u16): (r: seq<u8>)
    ensures |r| == 2
    ensures r[0] as int * 0x100 + r[1] as int == v
  {
    var hi: u8 := v / 0x100;
    [hi, v % 0x100]
  }

  /** Reads a big-endian 16-bit value back from two bytes. */
  function FromBigEndian(hi: u8, lo: u8): (v: u16)
    ensures BigEndian(v) == [hi, lo]
  {
    hi as int * 0x100 + lo as int
  }

  /** Quotient and remainder are unique: the facts the division proofs below rest on. */
  lemma DivMod(n: int, d: int, q: int, r: int)
    requires 0 < d && 0 <= r < d && n == q * d + r
    ensures n / d == q && n % d == r
  {
    var q', r' := n / d, n % d;
    assert n == q' * d + r' && 0 <= r' < d;
    if q' < q {
      MulAtLeast(q - q', d);
      assert false;
    } else if q' > q {
      MulAtLeast(q' - q, d);
      assert false;
    }
  }

  lemma MulAtLeast(a: int, d: int)
    requires a >= 1 && d > 0
    ensures a * d >= d
  {
  }
}
