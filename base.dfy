/**
 * Definitions shared by the whole emulator model: Rust's `Option`, the result
 * of an operation that may panic, the unsigned integer types `u8` and `u16`,
 * and the conversions Rust writes with `as u8`, `as u16` and `as i8`.
 */
module Base {

  datatype Option<+T> = None | Some(value: T)

  /**
   * The outcome of an operation that can panic: an explicit `panic!`, an
   * `unreachable!`, an `unwrap` of `None`, a slice index out of range or an
   * unchecked `+`/`-` that overflows (Rust checks those in debug builds).
   */
  datatype Checked<+T> = Ok(value: T) | Panics

  /** Rust's `u8`. */
  newtype u8 = x: int | 0 <= x < 0x100

  /** Rust's `u16`. */
  newtype u16 = x: int | 0 <= x < 0x1_0000

  /** Truncation to `u8` (`x as u8`, and the result of `wrapping_add`/`wrapping_sub`). */
  function Wrap8(x: int): (b: u8)
    ensures (b as int - x) % 0x100 == 0
  {
    (x % 0x100) as u8
  }

  /** Truncation to `u16` (`x as u16`, and the result of `wrapping_add`/`wrapping_sub`). */
  function Wrap16(x: int): (w: u16)
    ensures (w as int - x) % 0x1_0000 == 0
  {
    (x % 0x1_0000) as u16
  }

  /** `(v >> 8) as u8`: the high byte of a word. */
  function Hi(v: u16): u8
  {
    (v / 0x100) as u8
  }

  /** `v as u8`: the low byte of a word. */
  function Lo(v: u16): u8
  {
    (v % 0x100) as u8
  }

  /** `((h as u16) << 8) | (l as u16)`: the word whose bytes are `h` (high) and `l` (low). */
  function Pack(h: u8, l: u8): (v: u16)
    ensures Hi(v) == h && Lo(v) == l
  {
    (h as int * 0x100 + l as int) as u16
  }

  /** Splitting a word into its bytes and packing them again gives the word back. */
  lemma PackHiLo(v: u16)
    ensures Pack(Hi(v), Lo(v)) == v
  {
  }

  /** The value of a byte read as a two's-complement `i8`. */
  function ToI8(n: u8): (i: int)
    ensures -128 <= i < 128
    ensures (i - n as int) % 0x100 == 0
  {
    if n < 0x80 then n as int else n as int - 0x100
  }

  /**
   * `(n as i8) as i16 as u16`: the byte sign-extended to a word, which is the
   * signed value of the byte modulo 2^16.
   */
  function SignExtend(n: u8): (w: u16)
    ensures w as int == ToI8(n) % 0x1_0000
    ensures Lo(w) == n
  {
    if n < 0x80 then n as u16 else (0xFF00 + n as int) as u16
  }

  /**
   * Adding the sign-extended byte to a word with wrap-around is adding its
   * signed value modulo 2^16.
   */
  lemma AddSignExtended(v: u16, d: u8)
    ensures Wrap16(v as int + SignExtend(d) as int) as int == (v as int + ToI8(d)) % 0x1_0000
  {
    if d >= 0x80 {
      assert SignExtend(d) as int == ToI8(d) + 0x1_0000;
    }
  }

  /** The word `v` moved by the signed byte `d`, wrapping around 2^16. */
  function Displace(v: u16, d: u8): (w: u16)
    ensures w as int == (v as int + ToI8(d)) % 0x1_0000
  {
    AddSignExtended(v, d);
    Wrap16(v as int + SignExtend(d) as int)
  }

  /** A byte's bits, for the few places the source tests single bits. */
  function Bits(b: u8): bv8
  {
    b as bv8
  }

  /** The byte whose bits are `x`. */
  function FromBits(x: bv8): u8
  {
    x as int as u8
  }

  /** Adding one to bits below 0xFF adds one to their value. */
  lemma IncBits(x: bv8)
    requires x as int < 0xFF
    ensures (x + 1) as int == x as int + 1
  {
  }

  /** Bits with the value of `b`, built by counting up from zero. */
  ghost function CountBits(b: u8): (x: bv8)
    ensures x as int == b as int
  {
    if b == 0 then 0 else IncBits(CountBits(b - 1)); CountBits(b - 1) + 1
  }

  lemma CastValue(b: u8)
    ensures (b as bv8) as int == b as int
  {
    var x := CountBits(b);
    assert (x as int) as bv8 == x;
  }

  lemma BitsValue(b: u8)
    ensures Bits(b) as int == b as int
  {
    CastValue(b);
  }

  /** Taking a byte's bits and reading them back gives the byte. */
  lemma BitsRoundTrip(b: u8)
    ensures FromBits(Bits(b)) == b
  {
    BitsValue(b);
  }

  /** Reading bits as a byte and taking its bits gives the bits. */
  lemma FromBitsRoundTrip(x: bv8)
    ensures Bits(FromBits(x)) == x
  {
  }

  /** A positive multiple of a positive number is at least that number. */
  lemma {:induction false} MulAtLeast(x: int, d: int)
    requires x >= 1 && d > 0
    ensures x * d >= d
    decreases x
  {
    if x > 1 {
      MulAtLeast(x - 1, d);
    }
  }

  /** Quotient and remainder are the only pair that rebuilds the dividend. */
  lemma DivModUnique(a: int, d: int, q: int, r: int)
    requires d > 0 && a == q * d + r && 0 <= r < d
    ensures a / d == q && a % d == r
  {
    var q', r' := a / d, a % d;
    if q' > q {
      MulAtLeast(q' - q, d);
    } else if q' < q {
      MulAtLeast(q - q', d);
    }
  }
}
