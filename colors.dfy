/**
 * The `color` part of src/fractal.rs: a colour with four floating-point
 * channels in [0, 1] and its conversion to the packed 32-bit ARGB word that
 * the window buffer holds (alpha in bits 24-31, red 16-23, green 8-15,
 * blue 0-7).
 *
 * Words and bytes are the integers they denote. A byte shifted left by `k`
 * inside a `u32` is the byte times `2^k`, and the four shifted bytes occupy
 * disjoint bit ranges, so the `|` of the packing is a sum; `(u & mask) >> k`
 * reads back the byte as `(u / 2^k) % 256`.
 *
 * Channels are `real`: the model says nothing that depends on f64 rounding of
 * `channel * 255.0`. The saturating `as u8` cast is written out exactly.
 */
module Colors {

  /** Rust's `u32`. */
  newtype u32 = x: int | 0 <= x < 0x1_0000_0000

  /** Rust's `u8`. */
  type u8 = x: int | 0 <= x < 0x100

  /** `Color { r, g, b, a }`, each channel nominally in [0, 1]. */
  datatype Color = Color(r: real, g: real, b: real, a: real)

  /** `Color::new()`: opaque black. */
  function New(): Color
  {
    Color(0.0, 0.0, 0.0, 1.0)
  }

  /** `Color::rgb(r, g, b)`: the given channels, fully opaque. */
  function Rgb(r: real, g: real, b: real): Color
  {
    Color(r, g, b, 1.0)
  }

  /**
   * Rust's `x as u8` on a float: truncation toward zero, saturating at 0 and
   * 255 (NaN, which maps to 0, has no counterpart among the reals).
   */
  function CastToU8(x: real): (n: u8)
    ensures x <= 0.0 ==> n == 0
    ensures x >= 255.0 ==> n == 255
    ensures 0.0 <= x < 255.0 ==> n as real <= x < n as real + 1.0
  {
    if x <= 0.0 then 0 else if x >= 255.0 then 255 else x.Floor
  }

  /** `num::clamp(v, lo, hi)`, whose own debug assertion demands `lo <= hi`. */
  function Clamp(v: int, lo: int, hi: int): (r: int)
    requires lo <= hi
    ensures lo <= r <= hi
    ensures lo <= v <= hi ==> r == v
    ensures v < lo ==> r == lo
    ensures v > hi ==> r == hi
  {
    if v < lo then lo else if v > hi then hi else v
  }

  /** A clamped value is left alone by a second clamp to the same range. */
  lemma ClampIdempotent(v: int, lo: int, hi: int)
    requires lo <= hi
    ensures Clamp(Clamp(v, lo, hi), lo, hi) == Clamp(v, lo, hi)
  {
  }

  /**
   * One channel as a byte: `num::clamp((x * 255.0) as u8, 0, 255)`. The cast
   * already lands in [0, 255], so the clamp never changes it.
   */
  function Channel(x: real): (byte: u8)
    ensures byte == CastToU8(x * 255.0)
  {
    Clamp(CastToU8(x * 255.0), 0, 255)
  }

  /** Appending a byte below `x` and reading it back. */
  lemma ShiftByte(x: int, y: u8)
    ensures (x * 0x100 + y) / 0x100 == x
    ensures (x * 0x100 + y) % 0x100 == y
  {
  }

  /**
   * The bit layout `(a << 24) | (r << 16) | (g << 8) | b`. The four fields do
   * not overlap, so each byte is recovered by shift and mask.
   */
  function Pack(a: u8, r: u8, g: u8, b: u8): (u: u32)
    ensures u / 0x100_0000 == a as u32
    ensures (u / 0x1_0000) % 0x100 == r as u32
    ensures (u / 0x100) % 0x100 == g as u32
    ensures u % 0x100 == b as u32
  {
    var ar := a * 0x100 + r;
    var arg := ar * 0x100 + g;
    ShiftByte(arg, b);
    ShiftByte(ar, g);
    ShiftByte(a, r);
    var u := arg * 0x100 + b;
    assert u / 0x1_0000 == (u / 0x100) / 0x100;
    assert u / 0x100_0000 == (u / 0x1_0000) / 0x100;
    (a * 0x100_0000 + r * 0x1_0000 + g * 0x100 + b) as u32
  }

  /** Every 32-bit word is the packing of its own four bytes. */
  lemma {:induction false} PackOfFields(u: u32)
    ensures Pack(u as int / 0x100_0000, (u as int / 0x1_0000) % 0x100, (u as int / 0x100) % 0x100, u as int % 0x100) == u
  {
    var n := u as int;
    var b := n % 0x100;
    var n1 := n / 0x100;
    var g := n1 % 0x100;
    var n2 := n1 / 0x100;
    var r := n2 % 0x100;
    var a := n2 / 0x100;
    assert n2 == n / 0x1_0000;
    assert a == n / 0x100_0000;
    assert n == ((a * 0x100 + r) * 0x100 + g) * 0x100 + b;
  }

  /** Two packings are equal exactly when all four bytes are. */
  lemma PackInjective(a: u8, r: u8, g: u8, b: u8, a': u8, r': u8, g': u8, b': u8)
    ensures Pack(a, r, g, b) == Pack(a', r', g', b') <==> a == a' && r == r' && g == g' && b == b'
  {
  }

  /**
   * `impl From<Color> for u32`: each byte field of the word is the
   * saturating cast of its channel times 255.
   */
  function ToU32(c: Color): (u: u32)
    ensures u / 0x100_0000 == CastToU8(c.a * 255.0) as u32
    ensures (u / 0x1_0000) % 0x100 == CastToU8(c.r * 255.0) as u32
    ensures (u / 0x100) % 0x100 == CastToU8(c.g * 255.0) as u32
    ensures u % 0x100 == CastToU8(c.b * 255.0) as u32
  {
    var r := Channel(c.r);
    var g := Channel(c.g);
    var b := Channel(c.b);
    var a := Channel(c.a);
    Pack(a, r, g, b)
  }

  /** `Color::new()` packs to opaque black, 0xFF000000. */
  lemma NewIsOpaqueBlack()
    ensures ToU32(New()) == 0xFF00_0000
  {
    assert Channel(1.0) == 255;
    assert Channel(0.0) == 0;
  }

  /** `Color::rgb` always carries alpha byte 255, so its packing is never 0. */
  lemma RgbIsOpaque(r: real, g: real, b: real)
    ensures ToU32(Rgb(r, g, b)) / 0x100_0000 == 0xFF
    ensures ToU32(Rgb(r, g, b)) != 0
  {
  }
}
