/**
 * The instruction bodies that only touch the register file: 8-bit increment
 * and decrement, the four accumulator rotations, 16-bit increment,
 * decrement and addition to HL, and the register-to-register load. Each
 * takes the register file and returns the updated one (or the panic the
 * source would raise), updating the registers step by step as the source
 * does. The bodies that also touch the CPU's scheduler or halt state
 * (`halt`, `ld_r_n`, `ld_rr_mm`) are methods of the CPU.
 */
module Z80Ops {
  import opened Base
  import opened Z80Registers

  /** `halfcarryAddTable`, indexed by bit 11 of HL, of the operand and of the sum. */
  const HalfcarryAddTable: seq<bool> := [false, true, true, true, false, false, false, true]

  /** Bit 11 of a word, `(x & 0x0800) >> 11`. */
  function Bit11(x: int): int
  {
    (x / 0x800) % 2
  }

  /** The low twelve bits of a word are bit 11 above its low eleven bits. */
  lemma SplitBit11(x: int)
    requires x >= 0
    ensures 0 <= Bit11(x) < 2
    ensures x % 0x1000 == Bit11(x) * 0x800 + x % 0x800
    ensures (x % 0x1000) / 0x800 == Bit11(x)
  {
    var q, a := x / 0x800, x % 0x800;
    DivModUnique(x, 0x1000, q / 2, 0x800 * (q % 2) + a);
    DivModUnique(x % 0x1000, 0x800, q % 2, a);
  }

  /** The low twelve bits of a 16-bit sum depend only on the operands' low twelve bits. */
  lemma SumLow12(x: int, y: int)
    requires 0 <= x < 0x1_0000 && 0 <= y < 0x1_0000
    ensures ((x + y) % 0x1_0000) % 0x1000 == (x % 0x1000 + y % 0x1000) % 0x1000
  {
    var qx, qy := x / 0x1000, y / 0x1000;
    var lx, ly := x % 0x1000, y % 0x1000;
    var c := if lx + ly >= 0x1000 then 1 else 0;
    var w := if x + y >= 0x1_0000 then x + y - 0x1_0000 else x + y;
    DivModUnique(x + y, 0x1_0000, if x + y >= 0x1_0000 then 1 else 0, w);
    var k := qx + qy + c - (if x + y >= 0x1_0000 then 16 else 0);
    DivModUnique(w, 0x1000, k, lx + ly - 0x1000 * c);
    DivModUnique(lx + ly, 0x1000, c, lx + ly - 0x1000 * c);
  }

  /**
   * The half-carry table answers "did bit 11 carry out" from bit 11 of the
   * two operands and of the 16-bit sum.
   */
  lemma HalfcarryLookup(hl: u16, v: u16)
    ensures var idx := Bit11(hl as int) + 2 * Bit11(v as int) + 4 * Bit11((hl as int + v as int) % 0x1_0000);
      0 <= idx < 8 && HalfcarryAddTable[idx] == (hl as int % 0x1000 + v as int % 0x1000 >= 0x1000)
  {
    var x, y := hl as int, v as int;
    var s := (x + y) % 0x1_0000;
    SplitBit11(x);
    SplitBit11(y);
    SplitBit11(s);
    SumLow12(x, y);
    var bx, bv, ax, av := Bit11(x), Bit11(y), x % 0x800, y % 0x800;
    var lx, ly := x % 0x1000, y % 0x1000;
    var c := if lx + ly >= 0x1000 then 1 else 0;
    var c11 := if ax + av >= 0x800 then 1 else 0;
    DivModUnique(lx + ly, 0x1000, c, lx + ly - 0x1000 * c);
    DivModUnique(s % 0x1000, 0x800, bx + bv + c11 - 2 * c, ax + av - 0x800 * c11);
    var idx := bx + 2 * bv + 4 * Bit11(s);
    assert HalfcarryAddTable[idx] == (bx + bv + c11 >= 2) by {
      TableEntries();
    }
  }

  /** The eight entries of the half-carry table, one by one. */
  lemma TableEntries()
    ensures !HalfcarryAddTable[0] && HalfcarryAddTable[1] && HalfcarryAddTable[2] && HalfcarryAddTable[3]
    ensures !HalfcarryAddTable[4] && !HalfcarryAddTable[5] && !HalfcarryAddTable[6] && HalfcarryAddTable[7]
  {
  }

  /** `(a << 1) | bit`: bits 0..6 of `a` move up one place and bit 0 becomes `bit`. */
  function ShiftLeftIn(a: u8, bit: bool): (r: u8)
    ensures r as int / 2 == a as int % 0x80
    ensures (r as int % 2 == 1) == bit
  {
    ((a as int % 0x80) * 2 + (if bit then 1 else 0)) as u8
  }

  /** `(a >> 1) | (bit << 7)`: bits 1..7 of `a` move down one place and bit 7 becomes `bit`. */
  function ShiftRightIn(a: u8, bit: bool): (r: u8)
    ensures r as int % 0x80 == a as int / 2
    ensures (r >= 0x80) == bit
  {
    (a as int / 2 + (if bit then 0x80 else 0)) as u8
  }

  /** Whether the low twelve bits of two words carry into bit 12. */
  predicate HalfCarry16(x: u16, y: u16)
  {
    x as int % 0x1000 + y as int % 0x1000 >= 0x1000
  }

  /**
   * The half-carry lookup of `add_hl_rr`: bit 11 of HL, of the operand and
   * of the 16-bit sum index `halfcarryAddTable`, and the entry found is
   * whether the low twelve bits of the operands carry into bit 12.
   */
  method LookupHalfcarry(hl: u16, v: u16) returns (h: bool)
    ensures h == HalfCarry16(hl, v)
  {
    var lookup := Bit11(hl as int) + 2 * Bit11(v as int) + 4 * Bit11(Wrap16(hl as int + v as int) as int);
    HalfcarryLookup(hl, v);
    h := HalfcarryAddTable[lookup];
  }

  /** `w.wrapping_sub(1)`: the word one below `w` modulo 2^16, so one above it is `w` again. */
  function WrappingDec16(w: u16): (r: u16)
    ensures (r as int + 1) % 0x1_0000 == w as int
  {
    if w == 0 then 0xFFFF else w - 1
  }

  /**
   * Register y one up modulo 256, with the flags `INC r` sets: S and Z
   * describe the result, H is the carry out of bit 3, P/V the signed
   * overflow, N is cleared, and C and the undocumented bits keep their
   * values.
   */
  function Incremented(regs: Registers, y: u8): Registers
    requires y < 8 && y != 6
  {
    var before := regs.GetR(y).value;
    var after := Wrap8(before as int + 1);
    regs.SetR(y, after).value.(f := regs.f.(
      s := ToI8(after) < 0, z := after == 0, h := before as int % 16 == 15,
      p := ToI8(before) + 1 > 127, n := false))
  }

  /**
   * Register y one down modulo 256, with the flags `DEC r` sets: S and Z
   * describe the result, H is the borrow into bit 4, P/V the signed
   * overflow, N is set, and C and the undocumented bits keep their values.
   */
  function Decremented(regs: Registers, y: u8): Registers
    requires y < 8 && y != 6
  {
    var before := regs.GetR(y).value;
    var after := Wrap8(before as int - 1);
    regs.SetR(y, after).value.(f := regs.f.(
      s := ToI8(after) < 0, z := after == 0, h := before as int % 16 == 0,
      p := ToI8(before) - 1 < -128, n := true))
  }

  /**
   * `inc_r(y)`: register y goes up by one modulo 256, with the flags of
   * `Incremented`, computed as the source does from the new value; no
   * other register changes. Register code 6 (the memory operand) panics.
   */
  method IncR(regs: Registers, y: u8) returns (res: Checked<Registers>)
    ensures res.Ok? <==> y < 8 && y != 6
    ensures res.Ok? ==> res.value.GetR(y).value as int == (regs.GetR(y).value as int + 1) % 0x100
    ensures res.Ok? ==> res.value == Incremented(regs, y)
  {
    var rv := regs.GetR(y);
    if rv.Panics? {
      return Panics;
    }
    var v := rv.value;
    v := Wrap8(v as int + 1);
    var r := regs.SetR(y, v).value;
    SetRGetR(regs, y, v);
    var fl := r.f;
    fl := fl.(s := v >= 0x80);
    fl := fl.(z := v == 0);
    fl := fl.(h := v % 0x10 == 0);
    fl := fl.(p := v == 0x80);
    fl := fl.(n := false);
    return Ok(r.(f := fl));
  }

  /**
   * `dec_r(y)`: register y goes down by one modulo 256, with the flags of
   * `Decremented` (H computed before the decrement, the rest from the new
   * value); no other register changes. Register code 6 panics.
   */
  method DecR(regs: Registers, y: u8) returns (res: Checked<Registers>)
    ensures res.Ok? <==> y < 8 && y != 6
    ensures res.Ok? ==> res.value.GetR(y).value as int == (regs.GetR(y).value as int - 1) % 0x100
    ensures res.Ok? ==> res.value == Decremented(regs, y)
  {
    var rv := regs.GetR(y);
    if rv.Panics? {
      return Panics;
    }
    var v := rv.value;
    var fl := regs.f;
    fl := fl.(h := v % 0x10 == 0);
    v := Wrap8(v as int - 1);
    var r := regs.SetR(y, v).value;
    SetRGetR(regs, y, v);
    fl := fl.(s := v >= 0x80);
    fl := fl.(z := v == 0);
    fl := fl.(p := v == 0x7F);
    fl := fl.(n := true);
    return Ok(r.(f := fl));
  }

  /**
   * `rlca()`: A rotates left by one bit: bits 0..6 move up to bits 1..7 and
   * bit 7 comes round to bit 0 and into C; H and N are cleared and nothing
   * else changes.
   */
  method Rlca(regs: Registers) returns (res: Registers)
    ensures res.a as int / 2 == regs.a as int % 0x80
    ensures (res.a as int % 2 == 1) == (regs.a >= 0x80)
    ensures res.f == regs.f.(c := regs.a >= 0x80, h := false, n := false)
    ensures res == regs.(a := res.a, f := res.f)
  {
    var a, fl := regs.a, regs.f;
    a := ShiftLeftIn(a, a >= 0x80);
    fl := fl.(c := a % 2 == 1);
    fl := fl.(h := false);
    fl := fl.(n := false);
    return regs.(a := a, f := fl);
  }

  /**
   * `rla()`: A and C rotate left together as nine bits: bits 0..6 of A move
   * up, the old C enters bit 0 and bit 7 of A goes to C; H and N are
   * cleared and nothing else changes.
   */
  method Rla(regs: Registers) returns (res: Registers)
    ensures res.a as int / 2 == regs.a as int % 0x80
    ensures (res.a as int % 2 == 1) == regs.f.c
    ensures res.f == regs.f.(c := regs.a >= 0x80, h := false, n := false)
    ensures res == regs.(a := res.a, f := res.f)
  {
    var a, fl := regs.a, regs.f;
    var c := fl.c;
    fl := fl.(c := a >= 0x80);
    a := ShiftLeftIn(a, c);
    fl := fl.(h := false);
    fl := fl.(n := false);
    return regs.(a := a, f := fl);
  }

  /**
   * `rrca()`: A rotates right by one bit: bits 1..7 move down to bits 0..6
   * and bit 0 comes round to bit 7 and into C; H and N are cleared and
   * nothing else changes.
   */
  method Rrca(regs: Registers) returns (res: Registers)
    ensures res.a as int % 0x80 == regs.a as int / 2
    ensures (res.a >= 0x80) == (regs.a as int % 2 == 1)
    ensures res.f == regs.f.(c := regs.a as int % 2 == 1, h := false, n := false)
    ensures res == regs.(a := res.a, f := res.f)
  {
    var a, fl := regs.a, regs.f;
    fl := fl.(c := a % 2 == 1);
    fl := fl.(h := false);
    fl := fl.(n := false);
    a := ShiftRightIn(a, a % 2 == 1);
    return regs.(a := a, f := fl);
  }

  /**
   * `rra()`: A and C rotate right together as nine bits: bits 1..7 of A
   * move down, the old C enters bit 7 and bit 0 of A goes to C; H and N are
   * cleared and nothing else changes.
   */
  method Rra(regs: Registers) returns (res: Registers)
    ensures res.a as int % 0x80 == regs.a as int / 2
    ensures (res.a >= 0x80) == regs.f.c
    ensures res.f == regs.f.(c := regs.a as int % 2 == 1, h := false, n := false)
    ensures res == regs.(a := res.a, f := res.f)
  {
    var a, fl := regs.a, regs.f;
    var c := fl.c;
    fl := fl.(c := a % 2 == 1);
    a := ShiftRightIn(a, c);
    fl := fl.(h := false);
    fl := fl.(n := false);
    return regs.(a := a, f := fl);
  }

  /**
   * HL replaced by HL plus `v` modulo 2^16, with C the carry out of bit 15,
   * H set to `h` and N cleared; every other register as in `regs`.
   */
  function WithHlSum(regs: Registers, v: u16, h: bool): Registers
  {
    var sum := regs.GetPair(HL) as int + v as int;
    regs.SetPair(HL, Wrap16(sum)).(f := regs.f.(c := sum >= 0x1_0000, h := h, n := false))
  }

  /**
   * HL plus `v` modulo 2^16, with C the carry out of bit 15, H the carry out
   * of bit 11 and N cleared; every other register as in `regs`.
   */
  function AddToHl(regs: Registers, v: u16): (rs: Registers)
    ensures rs.GetPair(HL) as int == (regs.GetPair(HL) as int + v as int) % 0x1_0000
    ensures rs.f.c <==> regs.GetPair(HL) as int + v as int >= 0x1_0000
    ensures rs.f.h <==> HalfCarry16(regs.GetPair(HL), v)
    ensures rs.f == regs.f.(c := rs.f.c, h := rs.f.h, n := false)
    ensures rs == regs.SetPair(HL, rs.GetPair(HL)).(f := rs.f)
  {
    WithHlSum(regs, v, HalfCarry16(regs.GetPair(HL), v))
  }

  /** The addition `add_hl_rr` performs once the pair is read, with H taken from the lookup table. */
  method AddHl(regs: Registers, v: u16) returns (r: Registers)
    ensures r == AddToHl(regs, v)
  {
    var h := LookupHalfcarry(regs.GetPair(HL), v);
    r := WithHlSum(regs, v, h);
  }

  /**
   * `add_hl_rr(p)`: HL (always HL, whatever the index mode) receives HL plus
   * the pair `get_rr(p)` names, modulo 2^16. C is the carry out of bit 15,
   * H the carry out of bit 11, N is cleared; nothing else changes. A pair
   * code above 3 panics.
   */
  method AddHlRr(regs: Registers, p: u8) returns (res: Checked<Registers>)
    ensures res.Ok? <==> p < 4
    ensures res.Ok? ==> res.value == AddToHl(regs, regs.GetRR(p).value)
  {
    var rv := regs.GetRR(p);
    if rv.Panics? {
      return Panics;
    }
    var r := AddHl(regs, rv.value);
    return Ok(r);
  }

  /**
   * `inc_rr(p)`: the pair `get_rr(p)` names goes up by one. The source adds
   * with an unchecked `+`, so a pair holding 0xFFFF overflows and panics, as
   * does a pair code above 3; otherwise the pair reads back one more than
   * before and nothing else changes.
   */
  method IncRr(regs: Registers, p: u8) returns (res: Checked<Registers>)
    ensures res.Ok? <==> p < 4 && regs.GetRR(p).value != 0xFFFF
    ensures res.Ok? ==> res.value.GetRR(p).value as int == regs.GetRR(p).value as int + 1
    ensures res.Ok? ==> res == regs.SetRR(p, res.value.GetRR(p).value)
  {
    var rv := regs.GetRR(p);
    if rv.Panics? || rv.value == 0xFFFF {
      return Panics;
    }
    var v := rv.value + 1;
    res := regs.SetRR(p, v);
  }

  /**
   * `dec_rr(p)`: the pair `get_rr(p)` names goes down by one, wrapping from
   * 0 to 0xFFFF; nothing else changes. A pair code above 3 panics.
   */
  method DecRr(regs: Registers, p: u8) returns (res: Checked<Registers>)
    ensures res.Ok? <==> p < 4
    ensures res.Ok? ==> res.value.GetRR(p) == Ok(WrappingDec16(regs.GetRR(p).value))
    ensures res.Ok? ==> res == regs.SetRR(p, res.value.GetRR(p).value)
  {
    var rv := regs.GetRR(p);
    if rv.Panics? {
      return Panics;
    }
    var v := WrappingDec16(rv.value);
    res := regs.SetRR(p, v);
  }

  /**
   * `ld_r_r(y, z)` as the source writes it: the memory operand (code 6) on
   * either side panics, and otherwise register y is read and written back
   * with its own value, so the registers never change and register z is
   * never read.
   */
  method LdRRAsWritten(regs: Registers, y: u8, z: u8) returns (res: Checked<Registers>)
    ensures res.Ok? <==> y != 6 && z != 6 && y < 8
    ensures res.Ok? ==> res.value == regs
  {
    if y == 6 || z == 6 {
      return Panics;
    }
    var v := regs.GetR(y);
    if v.Panics? {
      return Panics;
    }
    SetRWriteBack(regs, y);
    res := regs.SetR(y, v.value);
  }

  /**
   * `LD r, r'` as the Z80 defines it, which `ld_r_r` evidently means: the
   * same panics for the memory operand, and otherwise register y receives
   * the value of register z while every other register keeps its value.
   */
  method LdRR(regs: Registers, y: u8, z: u8) returns (res: Checked<Registers>)
    ensures res.Ok? <==> y != 6 && z != 6 && y < 8 && z < 8
    ensures res.Ok? ==> res.value.GetR(y) == regs.GetR(z)
    ensures res.Ok? ==> res == regs.SetR(y, regs.GetR(z).value)
  {
    if y == 6 || z == 6 {
      return Panics;
    }
    var v := regs.GetR(z);
    if v.Panics? || y > 7 {
      return Panics;
    }
    SetRGetR(regs, y, v.value);
    res := regs.SetR(y, v.value);
  }

  /**
   * The discrepancy: with B = 0 and C = 1, `LD B, C` (y = 0, z = 1) leaves B
   * at 0 as written, while the instruction copies C into B.
   */
  lemma LdRRCounterexample(regs: Registers)
    requires regs.b == 0 && regs.c == 1
    ensures regs.GetR(0) == Ok(0) && regs.GetR(1) == Ok(1)
    ensures regs.SetR(0, regs.GetR(0).value) == Ok(regs)
    ensures regs.SetR(0, regs.GetR(1).value).value.GetR(0) == Ok(1)
  {
  }
}
