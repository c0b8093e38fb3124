/** Rust's fixed-width integers and the two narrowing casts `as i16` and `as u8`. */
module Casts {

  type I64 = x: int | -0x8000_0000_0000_0000 <= x < 0x8000_0000_0000_0000
  type I16 = x: int | -0x8000 <= x < 0x8000
  type U8 = x: int | 0 <= x < 0x100

  /** `x as i16`: keep the low 16 bits of `x` and read them as a two's-complement number. */
  function AsI16(x: int): (r: I16)
    ensures (x - r) % 0x1_0000 == 0
    ensures -0x8000 <= x < 0x8000 ==> r == x
  {
    var low := x % 0x1_0000;
    if low < 0x8000 then low else low - 0x1_0000
  }

  /** `x as u8` on any signed integer: keep the low 8 bits. */
  function AsU8(x: int): (r: U8)
    ensures (x - r) % 0x100 == 0
    ensures 0 <= x < 0x100 ==> r == x
  {
    x % 0x100
  }

  /** The casts are truncations: an `I16` that agrees with `x` on the low 16 bits is `x as i16`. */
  lemma AsI16Unique(x: int, y: I16)
    requires (x - y) % 0x1_0000 == 0
    ensures y == AsI16(x)
  {
    var r := AsI16(x);
    assert (r - y) % 0x1_0000 == 0 by {
      assert r - y == (x - y) - (x - r);
    }
    assert -0x1_0000 < r - y < 0x1_0000;
  }

  /** `(x as i16) as u8 == x as u8`: narrowing to 16 bits first keeps the low byte. */
  lemma NarrowingKeepsLowByte(x: int)
    ensures AsU8(AsI16(x)) == AsU8(x)
  {
    var r := AsI16(x);
    var k := (x - r) / 0x1_0000;
    assert x == r + 0x1_0000 * k;
    assert x == r + 0x100 * (0x100 * k);
    ModMultiple(r, 0x100 * k);
  }

  lemma ModMultiple(a: int, k: int)
    ensures (a + 0x100 * k) % 0x100 == a % 0x100
  {
  }
}
