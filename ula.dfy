/**
 * The ULA of the ZX Spectrum 48K: the video address arithmetic of the
 * display and attribute files, the mapping of the beam to the bitmap, the
 * colour of a pixel, the keyboard half-rows behind port 0xFE, and the
 * per-T-state raster with its memory fetches and interrupt window.
 *
 * Rust's `usize` counters become `nat`; the masks and shifts of the address
 * computations are written as the digit arithmetic they perform (each field
 * lands in its own bits, so OR is addition).
 */
module Ula {
  import opened Base
  import Bus

  newtype u32 = x: int | 0 <= x < 0x1_0000_0000

  /** One scan line, in T-states, and lines per frame. */
  const Width: nat := 448
  const Height: nat := 312
  const Border: nat := 48
  const ScreenWidth: nat := 256 + Border * 2
  const ScreenHeight: nat := 192 + Border * 2

  const Palette: seq<u32> := [
    0x000000ff, 0x2030c0ff, 0xc04010ff, 0xc040c0ff, 0x40b010ff, 0x50c0b0ff, 0xe0c010ff, 0xc0c0c0ff,
    0x000000ff, 0x3040ffff, 0xff4030ff, 0xff70f0ff, 0x50e010ff, 0x50e0ffff, 0xffe850ff, 0xffffffff]

  /**
   * `get_screen_addr`: the display-file byte holding the 8 pixels at
   * (`row`, `col`): 0x4000, then bits 7-6 of the row (the screen third),
   * bits 2-0 (the pixel line in the character), bits 5-3 (the character
   * row) and bits 7-3 of the column.
   */
  function ScreenAddr(row: nat, col: nat): (a: u16)
    ensures row < 192 ==> 0x4000 <= a <= 0x57FF
  {
    (0x4000 + ((row / 64) % 4) * 0x800 + (row % 8) * 0x100 + ((row / 8) % 8) * 32 + (col / 8) % 32) as u16
  }

  /** `get_attr_addr`: the attribute byte of the character cell holding (`row`, `col`). */
  function AttrAddr(row: nat, col: nat): (a: u16)
    ensures row < 192 ==> 0x5800 <= a <= 0x5AFF
  {
    (0x5800 + ((row / 8) % 32) * 32 + (col / 8) % 32) as u16
  }

  /** The screen line a display-file address belongs to. */
  function ScreenRow(a: u16): nat
  {
    ((a as nat / 0x800) % 4) * 64 + ((a as nat / 32) % 8) * 8 + (a as nat / 0x100) % 8
  }

  /**
   * The display file is laid out so that the line and the 8-pixel column
   * can be read back from the address: within the screen, `ScreenAddr` is
   * one-to-one on (line, column / 8).
   */
  lemma ScreenAddrInverse(row: nat, col: nat)
    requires row < 192 && col < 256
    ensures ScreenRow(ScreenAddr(row, col)) == row
    ensures ScreenAddr(row, col) as int % 32 == col / 8
  {
    ScreenAddrParts(row, col);
  }

  /** A screen line is its third, its character row within the third and its pixel line. */
  lemma RowParts(row: nat)
    requires row < 192
    ensures row / 64 < 3
    ensures row == 64 * (row / 64) + 8 * ((row / 8) % 8) + row % 8
    ensures (row / 8) % 32 == 8 * (row / 64) + (row / 8) % 8
  {
  }

  /** The fields packed into a display-file address can be read back one by one. */
  lemma AddrParts(t: nat, l: nat, c: nat, k: nat)
    requires t < 3 && l < 8 && c < 8 && k < 32
    ensures var a := 0x4000 + t * 0x800 + l * 0x100 + c * 32 + k;
      && (a / 0x800) % 4 == t && (a / 32) % 8 == c && (a / 0x100) % 8 == l && a % 32 == k
      && (a - 0x4000) / 0x800 == t && a % 0x100 == c * 32 + k
  {
    var a := 0x4000 + t * 0x800 + l * 0x100 + c * 32 + k;
    DivModUnique(a, 0x800, 8 + t, l * 0x100 + c * 32 + k);
    DivModUnique(8 + t, 4, 2, t);
    DivModUnique(a, 32, 0x200 + t * 64 + l * 8 + c, k);
    DivModUnique(0x200 + t * 64 + l * 8 + c, 8, 0x40 + t * 8 + l, c);
    DivModUnique(a, 0x100, 0x40 + t * 8 + l, c * 32 + k);
    DivModUnique(0x40 + t * 8 + l, 8, 8 + t, l);
    DivModUnique(a - 0x4000, 0x800, t, l * 0x100 + c * 32 + k);
  }

  /** `ScreenAddr` packs the third, pixel line, character row and column byte of a screen point. */
  lemma ScreenAddrParts(row: nat, col: nat)
    requires row < 192 && col < 256
    ensures var t, l, c, k := row / 64, row % 8, (row / 8) % 8, col / 8;
      && row == 64 * t + 8 * c + l && (row / 8) % 32 == 8 * t + c
      && var a := ScreenAddr(row, col) as int;
      && a == 0x4000 + t * 0x800 + l * 0x100 + c * 32 + k
      && (a / 0x800) % 4 == t && (a / 32) % 8 == c && (a / 0x100) % 8 == l && a % 32 == k
      && (a - 0x4000) / 0x800 == t && a % 0x100 == c * 32 + k
  {
    var t, l, c, k := row / 64, row % 8, (row / 8) % 8, col / 8;
    RowParts(row);
    DivModUnique(t, 4, 0, t);
    DivModUnique(k, 32, 0, k);
    AddrParts(t, l, c, k);
  }

  /**
   * The attribute of a pixel byte is found from its display-file address:
   * the screen third picks the attribute third and the low byte is kept.
   */
  lemma AttrFromScreen(row: nat, col: nat)
    requires row < 192 && col < 256
    ensures AttrAddr(row, col) as int
      == 0x5800 + ((ScreenAddr(row, col) as int - 0x4000) / 0x800) * 0x100 + ScreenAddr(row, col) as int % 0x100
  {
    ScreenAddrParts(row, col);
    DivModUnique(col / 8, 32, 0, col / 8);
  }

  /** Lines of the same character row share their attributes. */
  lemma AttrPerCell(row1: nat, row2: nat, col1: nat, col2: nat)
    requires row1 < 192 && row2 < 192 && col1 < 256 && col2 < 256
    ensures AttrAddr(row1, col1) == AttrAddr(row2, col2) <==> row1 / 8 == row2 / 8 && col1 / 8 == col2 / 8
  {
  }

  datatype Point = Point(x: nat, y: nat)

  /**
   * One pixel painted: the four big-endian bytes of `colour` go to bitmap
   * `bitmap` at byte offset (x + y * 320) * 4 of point `at`.
   */
  datatype PixelWrite = PixelWrite(bitmap: nat, at: Point, colour: u32)

  /** The pixel the beam at (`col`, `row`) paints in `bitmap`, if `get_xy` maps it into the bitmap. */
  function PixelAt(bitmap: nat, col: nat, row: nat, colour: u32): Option<PixelWrite>
  {
    match GetXY(col, row)
    case None => None
    case Some(at) => Some(PixelWrite(bitmap, at, colour))
  }

  /**
   * `get_xy(col, row)`: the bitmap point the beam at (`col`, `row`) paints.
   * The bitmap is offset by the border less 8 columns, wrapping past the
   * end of a line onto the next and past the last line onto the first; a
   * point outside the bitmap is an error.
   */
  function GetXY(col: nat, row: nat): (r: Option<Point>)
    ensures r.Some? ==> r.value.x < ScreenWidth && r.value.y < ScreenHeight
    ensures r.Some? ==> (r.value.x + r.value.y * ScreenWidth) * 4 + 3 < ScreenWidth * ScreenHeight * 4
  {
    var x0, y0 := col + Border - 8, row + Border;
    var x1, y1 := if x0 >= Width then x0 - Width else x0, if x0 >= Width then y0 + 1 else y0;
    var y2 := if y1 >= Height then y1 - Height else y1;
    if x1 < ScreenWidth && y2 < ScreenHeight then Some(Point(x1, y2)) else None
  }

  /**
   * On the raster, `get_xy` shifts the beam position (line-major, one
   * T-state per step) by 48 lines and 40 T-states, modulo the frame.
   */
  lemma GetXYShift(col: nat, row: nat)
    requires col < Width && row < Height
    ensures var p := (row * Width + col + Border * Width + 40) % (Width * Height);
      GetXY(col, row) == if p % Width < ScreenWidth && p / Width < ScreenHeight then Some(Point(p % Width, p / Width)) else None
  {
    var x0, y0 := col + 40, row + 48;
    var x1, y1 := if x0 >= Width then x0 - Width else x0, if x0 >= Width then y0 + 1 else y0;
    var y2 := if y1 >= Height then y1 - Height else y1;
    var q := row * Width + col + Border * Width + 40;
    assert q == y1 * Width + x1;
    assert q - (if y1 >= Height then Width * Height else 0) == y2 * Width + x1;
    assert q % (Width * Height) == y2 * Width + x1;
    assert (y2 * Width + x1) / Width == y2 && (y2 * Width + x1) % Width == x1;
  }

  /**
   * No two beam positions of a frame paint the same bitmap point: the point
   * gives back the column (40 T-states back, or 408 forward when the line
   * wrapped) and then the line.
   */
  lemma GetXYInjective(col1: nat, row1: nat, col2: nat, row2: nat)
    requires col1 < Width && row1 < Height && col2 < Width && row2 < Height
    requires GetXY(col1, row1).Some? && GetXY(col1, row1) == GetXY(col2, row2)
    ensures col1 == col2 && row1 == row2
  {
    var p := GetXY(col1, row1).value;
    assert col1 == if p.x >= 40 then p.x - 40 else p.x + 408;
    assert col2 == col1;
  }

  /** `1 << k` for the bit positions of a byte. */
  function Mask(k: nat): bv8
    requires k < 8
  {
    if k == 0 then 1 else if k == 1 then 2 else if k == 2 then 4 else if k == 3 then 8
    else if k == 4 then 16 else if k == 5 then 32 else if k == 6 then 64 else 128
  }

  /** Bit `k` of `v` is set (`v & (1 << k) != 0`). */
  predicate Bit(v: bv8, k: nat)
    requires k < 8
  {
    v & Mask(k) != 0
  }

  /** A palette position, 0 to 15. */
  function Colour(i: bv8): (c: u32)
    requires i < 16
  {
    Palette[i as int]
  }

  /** The bright offset of an attribute: 8 when bit 6 is set, selecting palette entries 8 to 15. */
  function Bright(attr: bv8): bv8
  {
    ((attr & 0x40) >> 6) * 8
  }

  /** The ink colour of an attribute: bits 2-0, brightened. */
  function Ink(attr: bv8): u32
  {
    Colour((attr & 0x07) + Bright(attr))
  }

  /** The paper colour of an attribute: bits 5-3, brightened. */
  function Paper(attr: bv8): u32
  {
    Colour(((attr & 0x38) >> 3) + Bright(attr))
  }

  /** The attribute flashes (bit 7) and the frame counter is in a flash phase (bit 4). */
  predicate Inverted(attr: bv8, frame: bv8)
  {
    attr & 0x80 == 0x80 && frame & 0x10 != 0
  }

  /**
   * The colour of pixel `b` of a display byte, found as `get_pixels_colors`
   * does: shift the byte left by `b`, test the top bit, take the ink when it
   * is set and the paper when it is clear, swapped while inverted.
   */
  function PixelColor(attr: bv8, pixels: bv8, frame: bv8, b: nat): u32
    requires b < 8
  {
    var on := (pixels << b) & 0x80 != 0;
    if Inverted(attr, frame) then (if on then Paper(attr) else Ink(attr))
    else if on then Ink(attr) else Paper(attr)
  }

  /** Shifting a byte left by `b` brings bit 7 - `b` to the top. */
  lemma ShiftTopBit(x: bv8, b: nat)
    requires b < 8
    ensures ((x << b) & 0x80 != 0) <==> Bit(x, 7 - b)
  {
  }

  /** Pixels are read leftmost first: pixel `b` is bit 7 - `b`, ink when set and paper when clear. */
  lemma PixelColorSteady(attr: bv8, pixels: bv8, frame: bv8, b: nat)
    requires b < 8 && !(Bit(attr, 7) && Bit(frame, 4))
    ensures PixelColor(attr, pixels, frame, b) == if Bit(pixels, 7 - b) then Ink(attr) else Paper(attr)
  {
    ShiftTopBit(pixels, b);
  }

  /** A flashing attribute in a flash phase shows each pixel in the other colour. */
  lemma PixelColorFlash(attr: bv8, pixels: bv8, frame: bv8, b: nat)
    requires b < 8 && Bit(attr, 7) && Bit(frame, 4)
    ensures PixelColor(attr, pixels, frame, b) == if Bit(pixels, 7 - b) then Paper(attr) else Ink(attr)
  {
    ShiftTopBit(pixels, b);
  }

  /**
   * The ink is palette entry (bits 2-0) and the paper entry (bits 5-3); the
   * bright bit moves both into the second half of the palette.
   */
  lemma AttrColours(attr: bv8)
    ensures Bit(attr, 6) ==> Ink(attr) == Palette[8 + (attr & 7) as int] && Paper(attr) == Palette[8 + ((attr >> 3) & 7) as int]
    ensures !Bit(attr, 6) ==> Ink(attr) == Palette[(attr & 7) as int] && Paper(attr) == Palette[((attr >> 3) & 7) as int]
  {
    var i, p := (attr & 7) + Bright(attr), ((attr & 0x38) >> 3) + Bright(attr);
    if Bit(attr, 6) {
      assert i == 8 + (attr & 7) && p == 8 + ((attr >> 3) & 7);
    } else {
      assert i == attr & 7 && p == (attr >> 3) & 7;
    }
  }

  /**
   * The keyboard half-rows a port read selects: row `r` takes part when bit
   * `r` of the port's high byte is 0.
   */
  predicate RowSelected(port: u16, r: nat)
    requires r < 8
  {
    !Bit(Bits(Hi(port)), r)
  }

  /** 0b11111 with the rows below `n` that `port` selects XORed in. */
  function KeyBits(rows: seq<bv8>, port: u16, n: nat): bv8
    requires n <= |rows| && n <= 8
  {
    if n == 0 then 0x1F
    else KeyBits(rows, port, n - 1) ^ (if RowSelected(port, n - 1) then rows[n - 1] else 0)
  }

  /**
   * `read_port` on port 0xFE (low byte): the selected half-rows over bits
   * 4-0, bit 6 the EAR input when it is active, bits 7 and 5 set.
   */
  function KeyboardRead(rows: seq<bv8>, port: u16, earActive: bool, ear: bool): (v: bv8)
    requires |rows| == 8
    ensures Bit(v, 7) && Bit(v, 5)
    ensures earActive && ear ==> Bit(v, 6)
    ensures v & 0x1F == KeyBits(rows, port, 8) & 0x1F
  {
    KeyBits(rows, port, 8) | if earActive && ear then 0xE0 else 0xA0
  }

  /** A half-row only ever holds the five key bits. */
  predicate KeysOnly(rows: seq<bv8>)
  {
    forall r :: 0 <= r < |rows| ==> rows[r] & 0xE0 == 0
  }

  lemma {:induction false} KeyBitsLow(rows: seq<bv8>, port: u16, n: nat)
    requires n <= |rows| && n <= 8 && KeysOnly(rows)
    ensures KeyBits(rows, port, n) & 0xE0 == 0
  {
    if n > 0 {
      KeyBitsLow(rows, port, n - 1);
      assert rows[n - 1] & 0xE0 == 0;
    }
  }

  /**
   * The fixed bits of a 0xFE read: with key bits only in the half-rows,
   * bits 7 and 5 are set, bit 6 is the active EAR input, and bits 4-0 are
   * the keys.
   */
  lemma KeyboardReadBits(rows: seq<bv8>, port: u16, earActive: bool, ear: bool)
    requires |rows| == 8 && KeysOnly(rows)
    ensures var v := KeyboardRead(rows, port, earActive, ear);
      Bit(v, 7) && Bit(v, 5) && (Bit(v, 6) <==> earActive && ear) && v & 0x1F == KeyBits(rows, port, 8)
  {
    KeyBitsLow(rows, port, 8);
  }

  /** Rows that are not selected do not take part in the read. */
  lemma {:induction false} KeyBitsUnselected(rows: seq<bv8>, port: u16, n: nat, r: nat)
    requires n <= |rows| && n <= 8 && r < 8
    requires forall i :: 0 <= i < n && i != r ==> !RowSelected(port, i)
    ensures KeyBits(rows, port, n) == if r < n && RowSelected(port, r) then 0x1F ^ rows[r] else 0x1F
  {
    if n > 0 {
      KeyBitsUnselected(rows, port, n - 1, r);
    }
  }

  /**
   * Selecting one half-row reads its keys: a pressed key (its bit set in the
   * row) reads as 0, a released one as 1.
   */
  lemma KeyboardReadOneRow(rows: seq<bv8>, port: u16, r: nat, earActive: bool, ear: bool, k: nat)
    requires |rows| == 8 && KeysOnly(rows) && r < 8 && k < 5
    requires forall i :: 0 <= i < 8 && i != r ==> !RowSelected(port, i)
    requires RowSelected(port, r)
    ensures Bit(KeyboardRead(rows, port, earActive, ear), k) <==> !Bit(rows[r], k)
  {
    KeyBitsUnselected(rows, port, 8, r);
  }

  /** With no key pressed, no row contributes to a 0xFE read: its key bits are all 1. */
  lemma {:induction false} KeyBitsReleased(rows: seq<bv8>, port: u16, n: nat)
    requires n <= |rows| && n <= 8 && forall r :: 0 <= r < |rows| ==> rows[r] == 0
    ensures KeyBits(rows, port, n) == 0x1F
  {
    if n > 0 {
      KeyBitsReleased(rows, port, n - 1);
    }
  }

  /** A half-row with key `j` (0 to 7) pressed or released: `row |= 1 << j` or `row &= !(1 << j)`. */
  function SetKey(v: bv8, j: nat, pressed: bool): bv8
    requires j < 8
  {
    if pressed then v | Mask(j) else v & !Mask(j)
  }

  /** Pressing or releasing a key sets or clears that key's bit and keeps every other bit. */
  lemma SetKeyBits(v: bv8, j: nat, pressed: bool)
    requires j < 8
    ensures forall k :: 0 <= k < 8 ==> Bit(SetKey(v, j, pressed), k) == if k == j then pressed else Bit(v, k)
  {
    forall k | 0 <= k < 8
      ensures Bit(SetKey(v, j, pressed), k) == if k == j then pressed else Bit(v, k)
    {
      if k != j {
        MasksDisjoint(k, j);
      }
    }
  }

  /** Different bit positions have disjoint masks. */
  lemma MasksDisjoint(k: nat, j: nat)
    requires k < 8 && j < 8 && k != j
    ensures Mask(k) & Mask(j) == 0
  {
  }

  /** Keys 1 to 5 keep a half-row free of bits 7-5. */
  lemma SetKeyKeysOnly(v: bv8, j: nat, pressed: bool)
    requires j < 5 && v & 0xE0 == 0
    ensures SetKey(v, j, pressed) & 0xE0 == 0
  {
  }

  /** The colours of a display byte, leftmost first. */
  function ByteColours(attr: bv8, pixels: bv8, frame: bv8): seq<u32>
  {
    seq(8, b requires 0 <= b < 8 => PixelColor(attr, pixels, frame, b))
  }

  /** `n` copies of colour `c`. */
  function Fill(c: u32, n: nat): seq<u32>
  {
    seq(n, _ => c)
  }

  /** The beam is over the 256 x 192 display rather than the border. */
  predicate InScreen(col: nat, row: nat)
  {
    col < 256 && row < 192
  }

  /**
   * The colours waiting in the pixel queue when a T-state with phase `k`
   * (`ts % 16`) starts. On the display the ULA adds 16 colours at phase 8;
   * on the border it adds 8 at phases 6 and 14; one colour leaves every
   * T-state.
   */
  function Level(inScreen: bool, k: nat): (n: nat)
    requires k < 16
    ensures k == 0 ==> n == 8
  {
    if inScreen then (if k <= 8 then 8 - k else 24 - k)
    else if k <= 6 then 8 - k else if k <= 14 then 16 - k else 24 - k
  }

  /** The number of colours `tick` queues at phase `k`. */
  function RefillSize(inScreen: bool, k: nat): nat
  {
    if inScreen then (if k == 8 then 16 else 0)
    else if k == 6 || k == 14 then 8 else 0
  }

  /**
   * The queue never runs dry: at every phase at least one colour is there
   * to paint, and after painting it the level is that of the next phase,
   * back to 8 when a fetch cycle ends.
   */
  lemma LevelStep(inScreen: bool, k: nat)
    requires k < 16
    ensures Level(inScreen, k) + RefillSize(inScreen, k) >= 1
    ensures Level(inScreen, k) + RefillSize(inScreen, k) - 1 == if k == 15 then 8 else Level(inScreen, k + 1)
  {
  }

  /**
   * Within a fetch cycle the beam stays on the display or on the border:
   * the display edge (column 256) and the line end (448) are multiples of 16.
   */
  lemma CycleStep(col: nat, row: nat)
    requires col < Width && row < Height
    ensures var (c, r) := Advance(col, row);
      c % 16 == (col % 16 + 1) % 16 && (col % 16 < 15 ==> InScreen(c, r) == InScreen(col, row))
  {
  }

  /** The T-state counter of a frame advances with the column, so both share the fetch phase. */
  lemma Phase(row: nat, col: nat)
    ensures (row * Width + col) % 16 == col % 16
  {
    assert row * Width + col == (row * 28) * 16 + col;
  }

  /** The beam one T-state later. */
  function Advance(col: nat, row: nat): (nat, nat)
  {
    if col + 1 < Width then (col + 1, row)
    else if row + 1 < Height then (0, row + 1)
    else (0, 0)
  }

  /** A frame is Width * Height T-states: advancing that often returns the beam to where it started. */
  lemma {:induction false} AdvanceLinear(col: nat, row: nat)
    requires col < Width && row < Height
    ensures var (c, r) := Advance(col, row);
      (c < Width && r < Height && r * Width + c == (row * Width + col + 1) % (Width * Height))
  {
  }

  class ULA {
    var keyboard_row: array<bv8>
    var border_colour: u32
    var frame: bv8
    var col: nat
    var row: nat
    var floating_bus: u8
    var ear: bool
    var ear_active: bool
    var buzzer: u8
    var sound_frame: u8
    var screen_data: bv8
    var attr_data: bv8
    var screen_data_2: bv8
    var attr_data_2: bv8
    var content: bool
    var ts: nat
    var signals: Bus.Signals
    /** The colours fetched and not yet painted. */
    var data: seq<u32>
    /** Which of the two bitmaps is being painted. */
    var buffer: nat

    /**
     * The beam lies in the frame, the T-state counter is its position, the
     * pixel queue holds the colours of its fetch phase, and the counters stay
     * in their ranges.
     */
    ghost predicate Valid()
      reads this
    {
      && keyboard_row.Length == 8
      && col < Width && row < Height && ts == row * Width + col
      && |data| == Level(InScreen(col, row), col % 16)
      && sound_frame < 200 && buffer < 2
    }

    /** The colours `tick` queues at the beam's position: two display bytes on the display, eight border colours on the border. */
    function Refill(): (r: seq<u32>)
      reads this`col, this`row, this`attr_data, this`screen_data, this`attr_data_2, this`screen_data_2,
        this`frame, this`border_colour
      requires col < Width
      ensures |r| == RefillSize(InScreen(col, row), col % 16)
    {
      var k := col % 16;
      if InScreen(col, row) then
        (if k == 8 then ByteColours(attr_data, screen_data, frame) + ByteColours(attr_data_2, screen_data_2, frame) else [])
      else if k == 6 || k == 14 then Fill(border_colour, 8) else []
    }

    /**
     * The ULA's side of the bus after a T-state at the beam's position on the
     * display: phases 0, 2, 4 and 6 ask to read the pixel byte, its attribute
     * and the next two; phases 1, 3, 5 and 7 drop the request.
     */
    function Request(): Bus.Signals
      reads this`col, this`row, this`signals
      requires col < Width && row < Height
    {
      var k := col % 16;
      if !InScreen(col, row) || k >= 8 then signals
      else if k == 0 then signals.(addr := ScreenAddr(row, col), mem := Bus.SignalReq.Read)
      else if k == 2 then signals.(addr := AttrAddr(row, col), mem := Bus.SignalReq.Read)
      else if k == 4 then signals.(addr := ScreenAddr(row, col) + 1, mem := Bus.SignalReq.Read)
      else if k == 6 then signals.(addr := AttrAddr(row, col) + 1, mem := Bus.SignalReq.Read)
      else signals.(mem := Bus.SignalReq.None)
    }

    /** `ULA::new`: the beam at the top left, no key down, eight black colours queued. */
    constructor ()
      ensures Valid() && fresh(keyboard_row) && keyboard_row[..] == [0, 0, 0, 0, 0, 0, 0, 0]
      ensures border_colour == 0 && frame == 0 && col == 0 && row == 0 && ts == 0
      ensures floating_bus == 0 && !ear && !ear_active && buzzer == 0 && sound_frame == 0
      ensures screen_data == 0 && attr_data == 0 && screen_data_2 == 0 && attr_data_2 == 0
      ensures !content && signals == Bus.Idle && data == [0, 0, 0, 0, 0, 0, 0, 0] && buffer == 0
    {
      keyboard_row := new bv8[8](_ => 0);
      border_colour, frame, col, row := 0, 0, 0, 0;
      floating_bus, ear, ear_active, buzzer, sound_frame := 0, false, false, 0, 0;
      screen_data, attr_data, screen_data_2, attr_data_2 := 0, 0, 0, 0;
      content, ts, signals := false, 0, Bus.Idle;
      data := [0, 0, 0, 0, 0, 0, 0, 0];
      buffer := 0;
    }

    /**
     * The byte an `IN` from `port` sees: the keyboard and EAR byte on port
     * 0xFE (low byte), the floating bus on any other port.
     */
    function PortByte(port: u16): (v: u8)
      reads this`keyboard_row, this`ear_active, this`ear, this`floating_bus, keyboard_row
      requires keyboard_row.Length == 8
      ensures Lo(port) != 0xFE ==> v == floating_bus
      ensures Lo(port) == 0xFE ==> v >= 0x80 && (v as int / 0x20) % 2 == 1
    {
      if Lo(port) == 0xFE then FromBits(KeyboardRead(keyboard_row[..], port, ear_active, ear)) else floating_bus
    }

    /** `read_port`: the byte a CPU `IN` from `port` sees. */
    method ReadPort(port: u16) returns (v: u8)
      requires keyboard_row.Length == 8
      ensures v == PortByte(port)
    {
      if Lo(port) == 0xFE {
        var data: bv8 := 0x1F;
        var readRow := Bits(Hi(port));
        for r := 0 to 8
          invariant data == KeyBits(keyboard_row[..], port, r)
        {
          if readRow & Mask(r) == 0 {
            data := data ^ keyboard_row[r];
          }
        }
        v := FromBits(data | if ear_active && ear then 0xE0 else 0xA0);
      } else {
        v := floating_bus;
      }
    }

    /**
     * `write_port`: on port 0xFE (low byte), bits 2-0 pick the border colour,
     * bit 4 drives the buzzer and bits 4-3 enable the EAR input.
     */
    method WritePort(port: u16, data: u8)
      modifies this`border_colour, this`buzzer, this`ear_active
      ensures Lo(port) == 0xFE ==>
        (border_colour == Palette[data as int % 8]
         && buzzer == (if Bit(Bits(data), 4) then 1 else 0) && ear_active == (Bit(Bits(data), 3) || Bit(Bits(data), 4)))
      ensures Lo(port) != 0xFE ==> border_colour == old(border_colour) && buzzer == old(buzzer) && ear_active == old(ear_active)
    {
      if Lo(port) == 0xFE {
        border_colour := Palette[data as int % 8];
        buzzer := if Bits(data) & 16 != 0 then 1 else 0;
        ear_active := Bits(data) & 24 != 0;
      }
    }

    /** `get_pixels_colors`: the colours of the eight pixels of a display byte, leftmost first. */
    method PixelsColors(attr: bv8, pixels: bv8) returns (colors: seq<u32>)
      ensures |colors| == 8
      ensures forall b :: 0 <= b < 8 ==> colors[b] == PixelColor(attr, pixels, frame, b)
    {
      var flash := attr & 0x80 == 0x80;
      var paper := Paper(attr);
      var ink := Ink(attr);
      colors := [];
      for b := 0 to 8
        invariant |colors| == b
        invariant forall i :: 0 <= i < b ==> colors[i] == PixelColor(attr, pixels, frame, i)
      {
        var data := (pixels << b) & 0x80;
        var c;
        if flash && frame & 0x10 != 0 {
          c := if data != 0 then paper else ink;
        } else {
          c := if data != 0 then ink else paper;
        }
        colors := colors + [c];
      }
    }

    /**
     * `set_bit`: press (`pressed`) or release key `bit` (1 to 5) of half-row
     * `row`. A row past the eighth, bit 0 or a bit past the byte panics.
     */
    method SetBit(row: nat, bit: nat, pressed: bool) returns (panicked: bool)
      modifies keyboard_row
      ensures panicked <==> row >= keyboard_row.Length || bit == 0 || bit > 8
      ensures panicked ==> keyboard_row[..] == old(keyboard_row[..])
      ensures !panicked ==> keyboard_row[..] == old(keyboard_row[..])[row := SetKey(old(keyboard_row[row]), bit - 1, pressed)]
    {
      if row >= keyboard_row.Length || bit == 0 || bit > 8 {
        return true;
      }
      keyboard_row[row] := SetKey(keyboard_row[row], bit - 1, pressed);
      panicked := false;
    }

    /**
     * Phases 0 to 7 of a fetch cycle on the display: even phases put the
     * address of the pixel byte, its attribute, the next pixel byte and its
     * attribute on the bus with a read request; odd phases latch the byte
     * read and drop the request.
     */
    method ReadPhase(k: nat)
      requires col < Width && row < Height && InScreen(col, row) && k == col % 16 && k < 8
      modifies this`signals, this`screen_data, this`attr_data, this`screen_data_2, this`attr_data_2
      ensures signals == old(Request())
      ensures screen_data == if k == 1 then Bits(old(signals.data)) else old(screen_data)
      ensures attr_data == if k == 3 then Bits(old(signals.data)) else old(attr_data)
      ensures screen_data_2 == if k == 5 then Bits(old(signals.data)) else old(screen_data_2)
      ensures attr_data_2 == if k == 7 then Bits(old(signals.data)) else old(attr_data_2)
    {
      if k == 0 {
        signals := signals.(addr := ScreenAddr(row, col), mem := Bus.SignalReq.Read);
      } else if k == 1 {
        screen_data := Bits(signals.data);
        signals := signals.(mem := Bus.SignalReq.None);
      } else if k == 2 {
        signals := signals.(addr := AttrAddr(row, col), mem := Bus.SignalReq.Read);
      } else if k == 3 {
        attr_data := Bits(signals.data);
        signals := signals.(mem := Bus.SignalReq.None);
      } else if k == 4 {
        signals := signals.(addr := ScreenAddr(row, col) + 1, mem := Bus.SignalReq.Read);
      } else if k == 5 {
        screen_data_2 := Bits(signals.data);
        signals := signals.(mem := Bus.SignalReq.None);
      } else if k == 6 {
        signals := signals.(addr := AttrAddr(row, col) + 1, mem := Bus.SignalReq.Read);
      } else {
        attr_data_2 := Bits(signals.data);
        signals := signals.(mem := Bus.SignalReq.None);
      }
    }

    /**
     * The fetch part of `tick`: on the display, latch the bus byte as the
     * floating-bus value, run phases 0 to 7, queue the sixteen colours of the
     * two bytes at phase 8 and mark phases 12 to 15 as idle; on the border,
     * queue eight border colours at phases 6 and 14.
     */
    method Fetch()
      requires col < Width && row < Height && ts == row * Width + col
      modifies this`content, this`floating_bus, this`signals, this`screen_data, this`attr_data,
        this`screen_data_2, this`attr_data_2, this`data
      ensures data == old(data) + old(Refill())
      ensures signals == old(Request())
      ensures content == (InScreen(col, row) && col % 16 < 12)
      ensures floating_bus == if InScreen(col, row) then old(signals.data) else old(floating_bus)
      ensures screen_data == if InScreen(col, row) && col % 16 == 1 then Bits(old(signals.data)) else old(screen_data)
      ensures attr_data == if InScreen(col, row) && col % 16 == 3 then Bits(old(signals.data)) else old(attr_data)
      ensures screen_data_2 == if InScreen(col, row) && col % 16 == 5 then Bits(old(signals.data)) else old(screen_data_2)
      ensures attr_data_2 == if InScreen(col, row) && col % 16 == 7 then Bits(old(signals.data)) else old(attr_data_2)
    {
      var inScreen := col < 256 && row < 192;
      content := inScreen;
      Phase(row, col);
      var k := ts % 16;
      if inScreen {
        floating_bus := signals.data;
        if k < 8 {
          ReadPhase(k);
        } else if k == 8 {
          var colors := PixelsColors(attr_data, screen_data);
          var colors2 := PixelsColors(attr_data_2, screen_data_2);
          assert colors == ByteColours(attr_data, screen_data, frame);
          assert colors2 == ByteColours(attr_data_2, screen_data_2, frame);
          data := data + colors + colors2;
        } else if k >= 12 {
          content := false;
        }
      } else if k == 6 || k == 14 {
        data := data + Fill(border_colour, 8);
      }
    }

    /** `frame_done`: switch to painting the other bitmap. */
    method FrameDone()
      requires buffer < 2
      modifies this`buffer
      ensures buffer == 1 - old(buffer)
    {
      buffer := 1 - buffer;
    }

    /**
     * The raster part of `tick`: move the beam one T-state, wrapping the
     * line at 448 T-states and the frame at 312 lines, where the bitmaps
     * swap and the T-state counter restarts; then raise the interrupt line
     * for the first 64 T-states of line 248.
     */
    method Raster()
      requires col < Width && row < Height && ts == row * Width + col + 1 && buffer < 2
      modifies this`col, this`row, this`ts, this`buffer, this`signals
      ensures (col, row) == Advance(old(col), old(row)) && ts == row * Width + col && buffer < 2
      ensures buffer == if col == 0 && row == 0 then 1 - old(buffer) else old(buffer)
      ensures signals == old(signals).(interrupt := row == Height - 64 && col < 64)
    {
      col := col + 1;
      if col == Width {
        col := 0;
        row := row + 1;
        if row == Height {
          row := 0;
          FrameDone();
          ts := 0;
        }
      }
      signals := signals.(interrupt := row == Height - 64 && col < 64);
    }

    /**
     * The end of `tick`: take the colour at the head of the queue and, when
     * `get_xy` maps the beam to a bitmap point, paint it there in the bitmap
     * being drawn; then count the T-state and move the beam. The queue holds
     * the colours of the phase plus those just fetched, so after painting it
     * holds those of the next phase.
     */
    method Paint() returns (write: Option<PixelWrite>)
      requires col < Width && row < Height && ts == row * Width + col && buffer < 2
      requires |data| == Level(InScreen(col, row), col % 16) + RefillSize(InScreen(col, row), col % 16)
      modifies this`ts, this`data, this`col, this`row, this`buffer, this`signals
      ensures (col, row) == Advance(old(col), old(row)) && ts == row * Width + col && buffer < 2
      ensures buffer == if col == 0 && row == 0 then 1 - old(buffer) else old(buffer)
      ensures signals == old(signals).(interrupt := row == Height - 64 && col < 64)
      ensures data == old(data)[1..] && |data| == Level(InScreen(col, row), col % 16)
      ensures write == PixelAt(old(buffer), old(col), old(row), old(data)[0])
    {
      var inScreen, k := InScreen(col, row), col % 16;
      LevelStep(inScreen, k);
      CycleStep(col, row);
      ts := ts + 1;
      var d := data[0];
      data := data[1..];
      write := PixelAt(buffer, col, row, d);
      Raster();
    }

    /**
     * `tick`, one T-state of the ULA: count the sound divider, fetch, paint
     * the colour at the head of the queue (which is never empty) and move
     * the beam; `write` is the pixel painted, if any.
     */
    method Tick() returns (write: Option<PixelWrite>)
      requires Valid()
      modifies this`sound_frame, this`content, this`floating_bus, this`signals, this`screen_data, this`attr_data,
        this`screen_data_2, this`attr_data_2, this`data, this`ts, this`col, this`row, this`buffer
      ensures Valid()
      ensures sound_frame as int == (old(sound_frame) as int + 1) % 200
      ensures (col, row) == Advance(old(col), old(row))
      ensures buffer == if col == 0 && row == 0 then 1 - old(buffer) else old(buffer)
      ensures signals == old(Request()).(interrupt := row == Height - 64 && col < 64)
      ensures data == (old(data) + old(Refill()))[1..]
      ensures content == (InScreen(old(col), old(row)) && old(col) % 16 < 12)
      ensures floating_bus == if InScreen(old(col), old(row)) then old(signals.data) else old(floating_bus)
      ensures screen_data == if InScreen(old(col), old(row)) && old(col) % 16 == 1 then Bits(old(signals.data)) else old(screen_data)
      ensures attr_data == if InScreen(old(col), old(row)) && old(col) % 16 == 3 then Bits(old(signals.data)) else old(attr_data)
      ensures screen_data_2 == if InScreen(old(col), old(row)) && old(col) % 16 == 5 then Bits(old(signals.data)) else old(screen_data_2)
      ensures attr_data_2 == if InScreen(old(col), old(row)) && old(col) % 16 == 7 then Bits(old(signals.data)) else old(attr_data_2)
      ensures write == PixelAt(old(buffer), old(col), old(row), (old(data) + old(Refill()))[0])
    {
      SoundStep();
      Fetch();
      write := Paint();
    }

    /** The sound divider of `tick`: a counter of T-states modulo 200. */
    method SoundStep()
      requires sound_frame < 200
      modifies this`sound_frame
      ensures sound_frame < 200 && sound_frame as int == (old(sound_frame) as int + 1) % 200
    {
      sound_frame := if sound_frame == 199 then 0 else sound_frame + 1;
    }

    /** `clean_keyboard`: release every key. */
    method CleanKeyboard()
      modifies keyboard_row
      ensures forall r :: 0 <= r < keyboard_row.Length ==> keyboard_row[r] == 0
    {
      forall r | 0 <= r < keyboard_row.Length {
        keyboard_row[r] := 0;
      }
    }
  }
}
