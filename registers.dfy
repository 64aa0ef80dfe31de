/**
 * The Z80 register file: the main and alternate register sets, the index
 * registers, SP, PC, R, I and the interrupt state, together with the flag
 * register F as eight booleans. Both are plain `Copy` values in the source,
 * so they are datatypes here; a setter that takes `&mut self` becomes a
 * function returning the updated value.
 */
module Z80Registers {
  import opened Base
  import opened Format

  /** Which index register a DD or FD prefix substitutes for HL. */
  datatype IndexMode = Hl | Ix | Iy

  /**
   * The flag register: carry, add/subtract, parity/overflow, the undocumented
   * bit 3, half carry, the undocumented bit 5, zero and sign.
   */
  datatype Flags = Flags(c: bool, n: bool, p: bool, f3: bool, h: bool, f5: bool, z: bool, s: bool)
  {
    /** `Flags::get`: the flags as the bits of a byte, C in bit 0 up to S in bit 7. */
    function Get(): (b: bv8)
      ensures (b & 0x01 != 0) == c && (b & 0x02 != 0) == n
      ensures (b & 0x04 != 0) == p && (b & 0x08 != 0) == f3
      ensures (b & 0x10 != 0) == h && (b & 0x20 != 0) == f5
      ensures (b & 0x40 != 0) == z && (b & 0x80 != 0) == s
    {
      (if c then 0x01 else 0) | (if n then 0x02 else 0) | (if p then 0x04 else 0) |
      (if f3 then 0x08 else 0) | (if h then 0x10 else 0) | (if f5 then 0x20 else 0) |
      (if z then 0x40 else 0) | (if s then 0x80 else 0)
    }
  }

  /** `Flags::new()`: every flag clear. */
  const NoFlags: Flags := Flags(false, false, false, false, false, false, false, false)

  /**
   * `Flags::set(b)`: every one of the eight flags is overwritten from its bit
   * of `b`, so the result does not depend on the flags held before.
   */
  function FlagsOf(b: bv8): (fl: Flags)
    ensures fl.Get() == b
  {
    Flags(b & 0x01 != 0, b & 0x02 != 0, b & 0x04 != 0, b & 0x08 != 0,
          b & 0x10 != 0, b & 0x20 != 0, b & 0x40 != 0, b & 0x80 != 0)
  }

  /** Reading the flags as a byte and setting them from that byte changes nothing. */
  lemma FlagsGetSet(fl: Flags)
    ensures FlagsOf(fl.Get()) == fl
  {
  }

  /** The eight register pairs the source builds with `make_reg_functions!`. */
  datatype Pair = BC | DE | HL | IX | IY | BCAux | DEAux | HLAux

  datatype Registers = Registers(
    a: u8, f: Flags,
    b: u8, c: u8, d: u8, e: u8, h: u8, l: u8,
    a_: u8, f_: Flags,
    b_: u8, c_: u8, d_: u8, e_: u8, h_: u8, l_: u8,
    ixl: u8, ixh: u8, iyl: u8, iyh: u8,
    sp: u16, pc: u16,
    m1: bool, r: u8, i: u8, index_mode: IndexMode,
    iff1: bool, iff2: bool, im: u8)
  {
    /** The byte a pair keeps in its high half (the macro's first register). */
    function High(pr: Pair): u8
    {
      match pr
      case BC => b
      case DE => d
      case HL => h
      case IX => ixh
      case IY => iyh
      case BCAux => b_
      case DEAux => d_
      case HLAux => h_
    }

    /** The byte a pair keeps in its low half (the macro's second register). */
    function Low(pr: Pair): u8
    {
      match pr
      case BC => c
      case DE => e
      case HL => l
      case IX => ixl
      case IY => iyl
      case BCAux => c_
      case DEAux => e_
      case HLAux => l_
    }

    /** The getter the macro generates (`bc()`, `ix()`, `hl_aux()`, ...). */
    function GetPair(pr: Pair): (v: u16)
      ensures Hi(v) == High(pr) && Lo(v) == Low(pr)
    {
      Pack(High(pr), Low(pr))
    }

    /** Every field outside the eight register pairs is the same in `other`. */
    predicate SameOutsidePairs(other: Registers)
    {
      a == other.a && f == other.f && a_ == other.a_ && f_ == other.f_ &&
      sp == other.sp && pc == other.pc && m1 == other.m1 && r == other.r && i == other.i &&
      index_mode == other.index_mode && iff1 == other.iff1 && iff2 == other.iff2 && im == other.im
    }

    /**
     * The setter the macro generates (`set_bc(v)`, ...): the high byte of `v`
     * goes to the pair's first register and the low byte to its second; no
     * other register changes.
     */
    function SetPair(pr: Pair, v: u16): (rs: Registers)
      ensures rs.GetPair(pr) == v
      ensures rs.High(pr) == Hi(v) && rs.Low(pr) == Lo(v)
      ensures forall q :: q != pr ==> rs.High(q) == High(q) && rs.Low(q) == Low(q)
      ensures rs.SameOutsidePairs(this)
    {
      PackHiLo(v);
      match pr
      case BC => this.(b := Hi(v), c := Lo(v))
      case DE => this.(d := Hi(v), e := Lo(v))
      case HL => this.(h := Hi(v), l := Lo(v))
      case IX => this.(ixh := Hi(v), ixl := Lo(v))
      case IY => this.(iyh := Hi(v), iyl := Lo(v))
      case BCAux => this.(b_ := Hi(v), c_ := Lo(v))
      case DEAux => this.(d_ := Hi(v), e_ := Lo(v))
      case HLAux => this.(h_ := Hi(v), l_ := Lo(v))
    }

    /** `af()`: A in the high byte, the flags as a byte in the low byte. */
    function AF(): (v: u16)
      ensures Hi(v) == a && FlagsOf(Bits(Lo(v))) == f
    {
      FlagsGetSet(f);
      FromBitsRoundTrip(f.Get());
      Pack(a, FromBits(f.Get()))
    }

    /** `set_af(v)`: A from the high byte, every flag from the low byte, nothing else. */
    function SetAF(v: u16): (rs: Registers)
      ensures rs.AF() == v
      ensures rs == this.(a := Hi(v), f := rs.f)
    {
      PackHiLo(v);
      BitsRoundTrip(Lo(v));
      this.(a := Hi(v), f := FlagsOf(Bits(Lo(v))))
    }

    /** `af_aux()`: the alternate A' and F' as a word. */
    function AFAux(): (v: u16)
      ensures Hi(v) == a_ && FlagsOf(Bits(Lo(v))) == f_
    {
      FlagsGetSet(f_);
      FromBitsRoundTrip(f_.Get());
      Pack(a_, FromBits(f_.Get()))
    }

    /** `set_af_aux(v)`: A' from the high byte, F' from the low byte, nothing else. */
    function SetAFAux(v: u16): (rs: Registers)
      ensures rs.AFAux() == v
      ensures rs == this.(a_ := Hi(v), f_ := rs.f_)
    {
      PackHiLo(v);
      BitsRoundTrip(Lo(v));
      this.(a_ := Hi(v), f_ := FlagsOf(Bits(Lo(v))))
    }

    /** The pair a register-pair code 0..2 names: BC, DE, then HL or the active index register. */
    function Selected(code: u8): Pair
      requires code < 3
    {
      if code == 0 then BC
      else if code == 1 then DE
      else match index_mode
        case Hl => HL
        case Ix => IX
        case Iy => IY
    }

    /**
     * `get_rr(code)`: codes 0..2 read the selected pair, 3 reads SP, any
     * other code panics.
     */
    function GetRR(code: u8): (rs: Checked<u16>)
      ensures rs.Ok? <==> code < 4
      ensures code < 3 ==> rs == Ok(GetPair(Selected(code)))
      ensures code == 3 ==> rs == Ok(sp)
    {
      match code
      case 0 => Ok(GetPair(BC))
      case 1 => Ok(GetPair(DE))
      case 2 => (match index_mode
                 case Hl => Ok(GetPair(HL))
                 case Ix => Ok(GetPair(IX))
                 case Iy => Ok(GetPair(IY)))
      case 3 => Ok(sp)
      case _ => Panics
    }

    /**
     * `set_rr(code, v)`: codes 0..3 write the pair `get_rr` reads, which then
     * reads back `v`; every other pair, SP (for codes 0..2) and every field
     * outside the pairs keep their values. Any other code panics.
     */
    function SetRR(code: u8, v: u16): (rs: Checked<Registers>)
      ensures rs.Ok? <==> code < 4
      ensures rs.Ok? ==> rs.value.GetRR(code) == Ok(v)
      ensures code < 3 ==> rs.Ok? && rs.value == SetPair(Selected(code), v)
      ensures code == 3 ==> rs == Ok(this.(sp := v))
    {
      match code
      case 0 => Ok(SetPair(BC, v))
      case 1 => Ok(SetPair(DE, v))
      case 2 => (match index_mode
                 case Hl => Ok(SetPair(HL, v))
                 case Ix => Ok(SetPair(IX, v))
                 case Iy => Ok(SetPair(IY, v)))
      case 3 => Ok(this.(sp := v))
      case _ => Panics
    }

    /** `get_rr2(code)`: like `get_rr`, except that code 3 names AF instead of SP. */
    function GetRR2(code: u8): (rs: Checked<u16>)
      ensures rs.Ok? <==> code < 4
      ensures code == 3 ==> rs == Ok(AF())
      ensures code < 3 ==> rs == GetRR(code)
    {
      if code == 3 then Ok(AF()) else GetRR(code)
    }

    /** `set_rr2(code, v)`: like `set_rr`, except that code 3 writes AF instead of SP. */
    function SetRR2(code: u8, v: u16): (rs: Checked<Registers>)
      ensures rs.Ok? <==> code < 4
      ensures rs.Ok? ==> rs.value.GetRR2(code) == Ok(v)
      ensures code == 3 ==> rs == Ok(SetAF(v))
      ensures code < 3 ==> rs == SetRR(code, v)
    {
      if code == 3 then Ok(SetAF(v)) else SetRR(code, v)
    }

    /**
     * `get_r(code)`: the 8-bit register a 3-bit operand field names: 7 is A,
     * 6 (the memory operand) and codes above 7 panic, and `GetRPairByte`
     * states which byte of which pair codes 0..5 read.
     */
    function GetR(code: u8): (rs: Checked<u8>)
      ensures rs.Ok? <==> code < 8 && code != 6
      ensures code == 7 ==> rs == Ok(a)
    {
      match code
      case 0 => Ok(b)
      case 1 => Ok(c)
      case 2 => Ok(d)
      case 3 => Ok(e)
      case 4 => (match index_mode
                 case Hl => Ok(h)
                 case Ix => Ok(ixh)
                 case Iy => Ok(iyh))
      case 5 => (match index_mode
                 case Hl => Ok(l)
                 case Ix => Ok(ixl)
                 case Iy => Ok(iyl))
      case 7 => Ok(a)
      case _ => Panics
    }

    /**
     * `set_r(code, v)`: writes the register `get_r(code)` reads, which then
     * reads back `v`; code 7 replaces A, codes 6 and above 7 panic, and the
     * flags never change. `SetRPairByte` states what codes 0..5 do to the
     * register pairs.
     */
    function SetR(code: u8, v: u8): (rs: Checked<Registers>)
      ensures rs.Ok? <==> code < 8 && code != 6
      ensures code == 7 ==> rs == Ok(this.(a := v))
      ensures rs.Ok? ==> rs.value.f == f
    {
      match code
      case 0 => Ok(this.(b := v))
      case 1 => Ok(this.(c := v))
      case 2 => Ok(this.(d := v))
      case 3 => Ok(this.(e := v))
      case 4 => (match index_mode
                 case Hl => Ok(this.(h := v))
                 case Ix => Ok(this.(ixh := v))
                 case Iy => Ok(this.(iyh := v)))
      case 5 => (match index_mode
                 case Hl => Ok(this.(l := v))
                 case Ix => Ok(this.(ixl := v))
                 case Iy => Ok(this.(iyl := v)))
      case 7 => Ok(this.(a := v))
      case _ => Panics
    }

    /**
     * `get_idx(d)`: the active index register plus the displacement `d` read
     * as a signed byte, modulo 2^16. Without a DD/FD prefix (index mode HL)
     * it panics.
     */
    function GetIdx(disp: u8): (rs: Checked<u16>)
      ensures rs.Ok? <==> index_mode != Hl
      ensures rs.Ok? ==> rs.value as int == (GetPair(Selected(2)) as int + ToI8(disp)) % 0x1_0000
    {
      if index_mode == Hl then Panics
      else Ok(Displace(GetPair(Selected(2)), disp))
    }

    /** `exafaf()`: AF and AF' trade places; nothing else changes. */
    function ExAfAf(): (rs: Registers)
      ensures rs.AF() == AFAux() && rs.AFAux() == AF()
      ensures rs.(a := a, f := f, a_ := a_, f_ := f_) == this
    {
      this.(a := a_, f := f_, a_ := a, f_ := f)
    }

    /**
     * `exx()`: BC, DE and HL trade places with BC', DE' and HL'; A, F, the
     * index registers and everything else keep their values.
     */
    function Exx(): (rs: Registers)
      ensures rs.GetPair(BC) == GetPair(BCAux) && rs.GetPair(BCAux) == GetPair(BC)
      ensures rs.GetPair(DE) == GetPair(DEAux) && rs.GetPair(DEAux) == GetPair(DE)
      ensures rs.GetPair(HL) == GetPair(HLAux) && rs.GetPair(HLAux) == GetPair(HL)
      ensures rs.GetPair(IX) == GetPair(IX) && rs.GetPair(IY) == GetPair(IY)
      ensures rs.SameOutsidePairs(this)
    {
      this.(b := b_, c := c_, d := d_, e := e_, h := h_, l := l_,
            b_ := b, c_ := c, d_ := d, e_ := e, h_ := h, l_ := l)
    }

    /**
     * The twelve words `dump_registers` prints and `set_all_regs` takes, in
     * their order: AF, BC, DE, HL, AF', BC', DE', HL', IX, IY, SP, PC.
     */
    function Words(): (ws: seq<u16>)
      ensures |ws| == 12
    {
      [AF(), GetPair(BC), GetPair(DE), GetPair(HL), AFAux(), GetPair(BCAux), GetPair(DEAux),
       GetPair(HLAux), GetPair(IX), GetPair(IY), sp, pc]
    }

    /**
     * `set_all_regs(words)`: every one of the twelve words lands in its
     * register, so `Words()` reads them all back; R, I, the interrupt state
     * and the index mode are untouched.
     */
    function SetAllRegs(words: seq<u16>): (rs: Registers)
      requires |words| == 12
      ensures rs.Words() == words
      ensures rs.m1 == m1 && rs.r == r && rs.i == i && rs.index_mode == index_mode
      ensures rs.iff1 == iff1 && rs.iff2 == iff2 && rs.im == im
    {
      var r0 := SetAF(words[0]);
      var r1 := r0.SetPair(BC, words[1]).SetPair(DE, words[2]).SetPair(HL, words[3]);
      var r2 := r1.SetAFAux(words[4]);
      var r3 := r2.SetPair(BCAux, words[5]).SetPair(DEAux, words[6]).SetPair(HLAux, words[7]);
      var r4 := r3.SetPair(IX, words[8]).SetPair(IY, words[9]);
      var rs := r4.(sp := words[10], pc := words[11]);
      assert rs.Words() == words by {
        assert rs.AF() == r0.AF();
        assert rs.AFAux() == r2.AFAux();
      }
      rs
    }

    /**
     * `dump_registers()`: the twelve words as four-digit lower-case
     * hexadecimal numbers separated by single spaces.
     */
    function DumpRegisters(): (s: string)
      ensures |s| == 59
      ensures forall k :: 0 <= k < 12 ==> s[5 * k .. 5 * k + 4] == Hex4(Words()[k])
      ensures forall k :: 0 <= k < 11 ==> s[5 * k + 4] == ' '
    {
      JoinHex4(Words())
    }
  }

  /** The registers after `Registers::new()`: everything zero, flags clear, index mode HL. */
  const PowerOn: Registers := Registers(0, NoFlags, 0, 0, 0, 0, 0, 0, 0, NoFlags, 0, 0, 0, 0, 0, 0,
                                        0, 0, 0, 0, 0, 0, false, 0, 0, Hl, false, false, 0)

  /** Words as `{:04x}` numbers joined by single spaces. */
  function JoinHex4(ws: seq<u16>): (s: string)
    requires |ws| >= 1
    ensures |s| == 5 * |ws| - 1
    ensures forall k :: 0 <= k < |ws| ==> s[5 * k .. 5 * k + 4] == Hex4(ws[k])
    ensures forall k :: 0 <= k < |ws| - 1 ==> s[5 * k + 4] == ' '
  {
    if |ws| == 1 then Hex4(ws[0])
    else
      var rest := JoinHex4(ws[1..]);
      var s := Hex4(ws[0]) + " " + rest;
      forall k | 1 <= k < |ws|
        ensures s[5 * k .. 5 * k + 4] == Hex4(ws[k])
      {
        assert s[5 * k .. 5 * k + 4] == rest[5 * (k - 1) .. 5 * (k - 1) + 4];
      }
      forall k | 0 <= k < |ws| - 1
        ensures s[5 * k + 4] == ' '
      {
        if k > 0 {
          assert s[5 * k + 4] == rest[5 * (k - 1) + 4];
        }
      }
      s
  }

  /**
   * Loading twelve words with `set_all_regs` and then dumping the registers
   * prints those twelve words: every four-digit field reads back as the word
   * loaded at its position.
   */
  lemma {:induction false} DumpAfterSetAll(regs: Registers, words: seq<u16>)
    requires |words| == 12
    ensures var s := regs.SetAllRegs(words).DumpRegisters();
      forall k :: 0 <= k < 12 ==> HexValue(s[5 * k .. 5 * k + 4]) == words[k] as int
  {
    var s := regs.SetAllRegs(words).DumpRegisters();
    forall k | 0 <= k < 12
      ensures HexValue(s[5 * k .. 5 * k + 4]) == words[k] as int
    {
      assert (words[k] as int) < 0x1_0000 == Pow16(4);
      HexRoundTrip(words[k] as int, 4);
    }
  }

  /**
   * `get_r` with a code 0..5 reads the high (even code) or low (odd code)
   * byte of the pair `get_rr(code / 2)` names, so codes 4 and 5 follow the
   * index mode: H and L, IXH and IXL, or IYH and IYL.
   */
  lemma GetRPairByte(regs: Registers, code: u8)
    requires code < 6
    ensures regs.GetR(code) == Ok(if code % 2 == 0 then Hi(regs.GetRR(code / 2).value)
                                                  else Lo(regs.GetRR(code / 2).value))
  {
    match code
    case 0 =>
    case 1 =>
    case 2 =>
    case 3 =>
    case 4 =>
    case 5 =>
  }

  /**
   * `set_r` with a code 0..5 replaces one byte of the pair `get_rr(code / 2)`
   * names (the high byte for an even code, the low byte for an odd one) and
   * keeps the other: it is `set_rr` of the word with that byte replaced.
   */
  lemma SetRPairByte(regs: Registers, code: u8, v: u8)
    requires code < 6
    ensures var old_pair := regs.GetRR(code / 2).value;
      regs.SetR(code, v) ==
        regs.SetRR(code / 2, if code % 2 == 0 then Pack(v, Lo(old_pair)) else Pack(Hi(old_pair), v))
  {
    var old_pair := regs.GetRR(code / 2).value;
    var w := if code % 2 == 0 then Pack(v, Lo(old_pair)) else Pack(Hi(old_pair), v);
    assert Hi(w) == (if code % 2 == 0 then v else Hi(old_pair));
    assert Lo(w) == (if code % 2 == 0 then Lo(old_pair) else v);
    match code
    case 0 =>
    case 1 =>
    case 2 =>
    case 3 =>
    case 4 =>
    case 5 =>
  }

  /** After `set_r(code, v)`, `get_r(code)` reads `v`. */
  lemma SetRGetR(regs: Registers, code: u8, v: u8)
    requires code < 8 && code != 6
    ensures regs.SetR(code, v).value.GetR(code) == Ok(v)
  {
    match code
    case 0 =>
    case 1 =>
    case 2 =>
    case 3 =>
    case 4 =>
    case 5 =>
    case 7 =>
  }

  /** Writing back into a register the value `get_r` reads from it changes nothing. */
  lemma SetRWriteBack(regs: Registers, code: u8)
    requires code < 8 && code != 6
    ensures regs.SetR(code, regs.GetR(code).value) == Ok(regs)
  {
    match code
    case 0 =>
    case 1 =>
    case 2 =>
    case 3 =>
    case 4 =>
    case 5 =>
    case 7 =>
  }

  /** Exchanging AF with AF' twice restores every register. */
  lemma ExAfAfTwice(regs: Registers)
    ensures regs.ExAfAf().ExAfAf() == regs
  {
  }

  /** Exchanging the register sets twice restores every register. */
  lemma ExxTwice(regs: Registers)
    ensures regs.Exx().Exx() == regs
  {
  }
}
