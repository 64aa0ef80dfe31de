/**
 * The disassembler: the text of the instruction a `Fetched` record holds,
 * as the PC in four lower-case hex digits, a space and the mnemonic. The
 * mnemonic comes from the prefix and the x, y, z, p, q fields of the
 * opcode; with a DD or FD prefix, HL, H, L and (HL) are then rewritten to
 * the index register.
 */
module Disassembler {
  import opened Base
  import opened Format
  import opened Text
  import opened Z80Cpu

  const Alu: seq<string> := ["ADD A,", "ADC A,", "SUB A,", "SBC", "AND", "XOR", "OR", "CP"]
  const R: seq<string> := ["B", "C", "D", "E", "H", "L", "(HL)", "A"]
  const Rp: seq<string> := ["BC", "DE", "HL", "SP"]
  const Rp2: seq<string> := ["BC", "DE", "HL", "AF"]
  const EdX1Z7: seq<string> := ["LD I, A", "LD R, A", "LD A, I", "LD A, R", "RRD", "RLD", "NOP", "NOP"]
  const Cc: seq<string> := ["NZ", "Z", "NC", "C", "PO", "PE", "P", "M"]
  const Rot: seq<string> := ["RLC", "RRC", "RL", "RR", "SLA", "SRA", "SLL", "SRL"]
  const Block: seq<seq<string>> := [
    ["LDI", "CPI", "INI", "OUTI"],
    ["LDD", "CPD", "IND", "OUTD"],
    ["LDIR", "CPIR", "INIR", "OTIR"],
    ["LDDR", "CPDR", "INDR", "OTDR"]]

  /**
   * `to_abs_adrr(pc, n)`: the target of a relative jump at `pc` whose
   * displacement byte is `n`, counted from the end of the two-byte
   * instruction and wrapping at 2^16.
   */
  function ToAbsAddr(pc: u16, n: u8): (a: u16)
    ensures (a as int - (pc as int + 2 + ToI8(n))) % 0x1_0000 == 0
  {
    Wrap16(pc as int + 2 + ToI8(n))
  }

  /** The displacement a relative jump from `pc` to `target` needs, in -128..65407. */
  function Displacement(pc: u16, target: u16): int
  {
    (target as int - pc as int - 2 + 128) % 0x1_0000 - 128
  }

  /** The jump target determines the displacement byte: `Displacement` undoes `ToAbsAddr`. */
  lemma ToAbsAddrDisplacement(pc: u16, n: u8)
    ensures Displacement(pc, ToAbsAddr(pc, n)) == ToI8(n)
  {
    var a := ToAbsAddr(pc, n) as int;
    var i := ToI8(n);
    var k := (a - (pc as int + 2 + i)) / 0x1_0000;
    assert a - pc as int - 2 + 128 == 0x1_0000 * k + (i + 128);
    assert 0 <= i + 128 < 0x1_0000;
  }

  /** Different displacement bytes give different jump targets. */
  lemma ToAbsAddrInjective(pc: u16, n1: u8, n2: u8)
    requires n1 != n2
    ensures ToAbsAddr(pc, n1) != ToAbsAddr(pc, n2)
  {
    ToAbsAddrDisplacement(pc, n1);
    ToAbsAddrDisplacement(pc, n2);
  }

  /** The main-table arms that read the immediate byte `n`. */
  predicate NeedsN(x: u8, y: u8, z: u8)
  {
    || (x == 0 && ((z == 0 && y >= 2) || z == 6))
    || (x == 3 && ((z == 3 && (y == 2 || y == 3)) || z == 6))
  }

  /** The main-table arms that read the immediate word `nn`. */
  predicate NeedsNn(x: u8, y: u8, z: u8, p: u8, q: u8)
  {
    || (x == 0 && ((z == 1 && q == 0) || (z == 2 && p >= 2)))
    || (x == 3 && (z == 2 || (z == 3 && y == 0) || z == 4 || (z == 5 && q == 1 && p == 0)))
  }

  /** The main-table field combinations that have an arm: all but DD CB's slot and three PUSH-quarter slots. */
  predicate MainListed(x: u8, y: u8, z: u8, p: u8, q: u8)
  {
    !(x == 3 && z == 3 && y == 1) && !(x == 3 && z == 5 && q == 1 && p != 0)
  }

  /**
   * The x = 1 quarter of the unprefixed table, as corrected: HALT is the
   * opcode whose fields are y = z = 6 (0x76), the one the CPU halts on;
   * every other combination is `LD r, r'`.
   */
  function LoadText(y: u8, z: u8): (s: string)
    requires y < 8 && z < 8
    ensures s == "HALT" <==> y == 6 && z == 6
  {
    if y == 6 && z == 6 then "HALT" else "LD " + R[y] + ", " + R[z]
  }

  /**
   * The x = 1 quarter as written: the HALT arm matches y = 0, z = 6, which
   * is `LD B, (HL)` (0x46), and 0x76 falls through to the load arm.
   */
  function LoadTextAsWritten(y: u8, z: u8): (s: string)
    requires y < 8 && z < 8
    ensures s == "HALT" <==> y == 0 && z == 6
  {
    if y == 0 && z == 6 then "HALT" else "LD " + R[y] + ", " + R[z]
  }

  /**
   * As written, the disassembler calls 0x46 HALT, which the CPU executes as
   * a load, and calls the CPU's HALT (0x76) `LD (HL), (HL)`.
   */
  lemma LoadTextAsWrittenMislabels()
    ensures Decode(0x46) == OpFields(1, 0, 6, 0, 0) && LoadTextAsWritten(0, 6) == "HALT"
    ensures Decode(0x76) == OpFields(1, 6, 6, 3, 0) && LoadTextAsWritten(6, 6) == "LD (HL), (HL)"
  {
    DecodeFields(1, 0, 6);
    DecodeFields(1, 6, 6);
  }

  /** No ALU mnemonic starts with H. */
  lemma AluNotHalt(y: u8, rest: string)
    requires y < 8
    ensures Alu[y] + rest != "HALT"
  {
    assert (Alu[y] + rest)[0] == Alu[y][0] != 'H';
  }

  /** The main table (no prefix, DD or FD) for x = 0. */
  function MainX0(f: Fetched, y: u8, z: u8, p: u8, q: u8): (r: Checked<string>)
    requires y < 8 && z < 8 && p == y / 2 && q == y % 2
    ensures r.Ok? <==> (NeedsN(0, y, z) ==> f.n.Some?) && (NeedsNn(0, y, z, p, q) ==> f.nn.Some?)
    ensures r.Ok? ==> r.value != "HALT"
  {
    if z == 0 then
      if y == 0 then Ok("NOP")
      else if y == 1 then Ok("EX AF, AF'")
      else if f.n.None? then Panics
      else if y < 4 then Ok(["DJNZ", "JR"][y - 2] + " 0x" + Hex4(ToAbsAddr(f.pc, f.n.value)))
      else Ok("JR " + Cc[y - 4] + ", 0x" + Hex4(ToAbsAddr(f.pc, f.n.value)))
    else if z == 1 then
      if q == 0 then
        if f.nn.None? then Panics else Ok("LD " + Rp[p] + ", 0x" + Hex4(f.nn.value))
      else Ok("ADD HL, " + Rp[p])
    else if z == 2 then
      if p < 2 then
        if q == 0 then Ok("LD " + Rp[p] + ", A") else Ok("LD A, " + Rp[p])
      else if f.nn.None? then Panics
      else if q == 0 then Ok("LD (0x" + Hex4(f.nn.value) + "), " + ["HL", "A"][p - 2])
      else Ok("LD " + ["HL", "A"][p - 2] + ", (0x" + Hex4(f.nn.value) + ")")
    else if z == 3 then Ok(["INC", "DEC"][q] + " " + Rp[p])
    else if z == 4 then Ok("INC " + R[y])
    else if z == 5 then Ok("DEC " + R[y])
    else if z == 6 then
      if f.n.None? then Panics else Ok("LD " + R[y] + ", 0x" + Hex2(f.n.value))
    else Ok(["RLCA", "RRCA", "RLA", "RRA", "DAA", "CPL", "SCF", "CCF"][y])
  }

  /** The main table (no prefix, DD or FD) for x = 3. */
  function MainX3(f: Fetched, y: u8, z: u8, p: u8, q: u8): (r: Checked<string>)
    requires y < 8 && z < 8 && p == y / 2 && q == y % 2
    ensures r.Ok? <==> MainListed(3, y, z, p, q) && (NeedsN(3, y, z) ==> f.n.Some?) && (NeedsNn(3, y, z, p, q) ==> f.nn.Some?)
    ensures r.Ok? ==> r.value != "HALT"
  {
    if z == 0 then Ok("RET " + Cc[y])
    else if z == 1 then
      if q == 0 then Ok("POP " + Rp2[p]) else Ok(["RET", "EXX", "JP HL", "LD SP, HL"][p])
    else if z == 2 then
      if f.nn.None? then Panics else Ok("JP " + Cc[y] + ", 0x" + Hex4(f.nn.value))
    else if z == 3 then
      if y == 0 then
        if f.nn.None? then Panics else Ok("JP 0x" + Hex4(f.nn.value))
      else if y == 1 then Panics
      else if y < 4 && f.n.None? then Panics
      else if y == 2 then Ok("OUT (0x" + Hex2(f.n.value) + "), A")
      else if y == 3 then Ok("IN A, (0x" + Hex2(f.n.value) + ")")
      else Ok(["EX (SP), HL", "EX DE, HL", "DI", "EI"][y - 4])
    else if z == 4 then
      if f.nn.None? then Panics else Ok("CALL " + Cc[y] + ", 0x" + Hex4(f.nn.value))
    else if z == 5 then
      if q == 0 then Ok("PUSH " + Rp2[p])
      else if p != 0 then Panics
      else if f.nn.None? then Panics
      else Ok("CALL 0x" + Hex4(f.nn.value))
    else if z == 6 then
      if f.n.None? then Panics
      else
        AluNotHalt(y, " " + Dec(f.n.value as nat));
        Ok(Alu[y] + " " + Dec(f.n.value as nat))
    else Ok("RST 0x" + Hex2(y * 8))
  }

  /**
   * The arms for the unprefixed, DD and FD tables, as written: the x = 1
   * quarter is `LoadTextAsWritten`, so HALT is printed for y = 0, z = 6.
   * An arm that reads `n` or `nn` panics when it is missing (`unwrap`), and
   * so do the slots with no arm; every other combination has a text.
   */
  function MainTable(f: Fetched, x: u8, y: u8, z: u8, p: u8, q: u8): (r: Checked<string>)
    requires x < 4 && y < 8 && z < 8 && p == y / 2 && q == y % 2
    ensures r.Ok? <==> MainListed(x, y, z, p, q) && (NeedsN(x, y, z) ==> f.n.Some?) && (NeedsNn(x, y, z, p, q) ==> f.nn.Some?)
    ensures x == 1 ==> r == Ok(LoadTextAsWritten(y, z))
    ensures r == Ok("HALT") <==> x == 1 && y == 0 && z == 6
    ensures x == 3 && z == 7 ==> r == Ok("RST 0x" + Hex2(y * 8))
  {
    if x == 0 then MainX0(f, y, z, p, q)
    else if x == 1 then Ok(LoadTextAsWritten(y, z))
    else if x == 2 then
      AluNotHalt(y, " " + R[z]);
      Ok(Alu[y] + " " + R[z])
    else MainX3(f, y, z, p, q)
  }

  /**
   * The main table with the x = 1 quarter corrected to `LoadText`: HALT is
   * printed exactly for y = z = 6, and every other slot is as written.
   */
  function MainTableFixed(f: Fetched, x: u8, y: u8, z: u8, p: u8, q: u8): (r: Checked<string>)
    requires x < 4 && y < 8 && z < 8 && p == y / 2 && q == y % 2
    ensures r.Ok? <==> MainTable(f, x, y, z, p, q).Ok?
    ensures x != 1 ==> r == MainTable(f, x, y, z, p, q)
    ensures r == Ok("HALT") <==> x == 1 && y == 6 && z == 6
  {
    if x == 1 then Ok(LoadText(y, z)) else MainTable(f, x, y, z, p, q)
  }

  /** The CB table: rotations and shifts, BIT, RES and SET on a register. */
  function CbTable(x: u8, y: u8, z: u8): (s: string)
    requires x < 4 && y < 8 && z < 8
    ensures |s| > |R[z]| && s[|s| - |R[z]|..] == R[z]
    ensures x == 0 ==> Rot[y] <= s
    ensures x > 0 ==> ["BIT ", "RES ", "SET "][x - 1] <= s
  {
    if x == 0 then Rot[y] + " " + R[z]
    else ["BIT ", "RES ", "SET "][x - 1] + Dec(y as nat) + ", " + R[z]
  }

  /**
   * The DD CB and FD CB tables: the same operations on (IX+d) or (IY+d),
   * with d in decimal; a missing d panics.
   */
  function IndexedCbTable(reg: string, d: Option<u8>, x: u8, y: u8): (r: Checked<string>)
    requires x < 4 && y < 8
    ensures r.Ok? <==> d.Some?
    ensures r.Ok? ==> var operand := "(" + reg + "+" + Dec(d.value as nat) + ")";
      |r.value| > |operand| && r.value[|r.value| - |operand|..] == operand
    ensures r.Ok? && x == 0 ==> Rot[y] + " " <= r.value
    ensures r.Ok? && x > 0 ==> ["BIT ", "RES ", "SET "][x - 1] + Dec(y as nat) + ", " <= r.value
  {
    if d.None? then Panics
    else
      var operand := "(" + reg + "+" + Dec(d.value as nat) + ")";
      if x == 0 then Ok(Rot[y] + " " + operand)
      else Ok(["BIT ", "RES ", "SET "][x - 1] + Dec(y as nat) + ", " + operand)
  }

  /**
   * The ED table: the x = 1 quarter (word loads print their address in
   * decimal and panic without `nn`) and the block instructions, looked up
   * as row y - 4, column z, so y < 4 or z > 3 fails; x = 0 and x = 3 have
   * no arm.
   */
  function EdTable(f: Fetched, x: u8, y: u8, z: u8, p: u8, q: u8): (r: Checked<string>)
    requires x < 4 && y < 8 && z < 8 && p == y / 2 && q == y % 2
    ensures r.Ok? <==> (x == 1 && (z == 3 ==> f.nn.Some?)) || (x == 2 && y >= 4 && z < 4)
  {
    if x == 1 then
      if z == 0 then
        if y == 6 then Ok("IN A, (C)") else Ok("IN " + R[y] + ", (C)")
      else if z == 1 then
        if y == 6 then Ok("OUT (C), 0") else Ok("OUT (C), " + R[y])
      else if z == 2 then
        if q == 0 then Ok("SBC HL, " + Rp[p]) else Ok("ADC HL, " + Rp[p])
      else if z == 3 then
        if f.nn.None? then Panics
        else if q == 0 then Ok("LD (" + Dec(f.nn.value as nat) + "), " + Rp[p])
        else Ok("LD " + Rp[p] + ", (" + Dec(f.nn.value as nat) + ")")
      else if z == 4 then Ok("NEG")
      else if z == 5 then
        if y == 1 then Ok("RETI") else Ok("RETN")
      else if z == 6 then Ok("IM " + Dec(y as nat))
      else Ok(EdX1Z7[y])
    else if x == 2 && y >= 4 && z < 4 then Ok(Block[y - 4][z])
    else Panics
  }

  /** The mnemonic for an opcode under the record's prefix, as written; an unknown prefix panics. */
  function Mnemonic(f: Fetched, op: u8): (r: Checked<string>)
    ensures r.Ok? ==> f.prefix in {0, 0xDD, 0xFD, 0xCB, 0xDDCB, 0xFDCB, 0xED}
    ensures f.prefix == 0xCB ==> r.Ok?
    ensures f.prefix in {0xDDCB, 0xFDCB} ==> (r.Ok? <==> f.d.Some?)
  {
    var fs := Decode(op);
    if f.prefix == 0 || f.prefix == 0xDD || f.prefix == 0xFD then MainTable(f, fs.x, fs.y, fs.z, fs.p, fs.q)
    else if f.prefix == 0xCB then Ok(CbTable(fs.x, fs.y, fs.z))
    else if f.prefix == 0xDDCB then IndexedCbTable("IX", f.d, fs.x, fs.y)
    else if f.prefix == 0xFDCB then IndexedCbTable("IY", f.d, fs.x, fs.y)
    else if f.prefix == 0xED then EdTable(f, fs.x, fs.y, fs.z, fs.p, fs.q)
    else Panics
  }

  /**
   * The mnemonic with the main table corrected (`MainTableFixed`): it
   * differs from the one as written only on the x = 1 quarter of the
   * unprefixed, DD and FD tables, and panics exactly when that one does.
   */
  function MnemonicFixed(f: Fetched, op: u8): (r: Checked<string>)
    ensures r.Ok? <==> Mnemonic(f, op).Ok?
    ensures !(f.prefix in {0, 0xDD, 0xFD} && Decode(op).x == 1) ==> r == Mnemonic(f, op)
  {
    var fs := Decode(op);
    if f.prefix == 0 || f.prefix == 0xDD || f.prefix == 0xFD then MainTableFixed(f, fs.x, fs.y, fs.z, fs.p, fs.q)
    else Mnemonic(f, op)
  }

  /** Decimal digits contain no parentheses. */
  lemma DecNoParens(n: nat)
    ensures '(' !in Dec(n) && ')' !in Dec(n)
  {
    var digits := Dec(n);
    assert forall i :: 0 <= i < |digits| ==> digits[i] != '(' && digits[i] != ')';
  }

  /**
   * The index-register rewrite for one register name `reg` (IX or IY):
   * when the text mentions (HL), " (HL)" becomes " (reg+d)" with d in
   * decimal; otherwise " HL", " L" and " H" become " reg", " regL" and
   * " regH", in that order. Each replacement has the same net count of
   * parentheses as what it replaces, so the text keeps its net count; in
   * the second case no register name H or L (nor HL) is left after a space.
   */
  function RewriteFor(s: string, reg: string, d: u8): (r: string)
    requires '(' !in reg && ')' !in reg && ' ' !in reg
    requires |reg| > 0 && reg[0] != 'H' && reg[0] != 'L'
    ensures NetParens(r) == NetParens(s)
    ensures !Contains(s, "(HL)") ==> !Contains(r, " H") && !Contains(r, " L")
  {
    RewriteTextsKeepNetParens(reg, d);
    if Contains(s, "(HL)") then
      var rep := " (" + reg + "+" + Dec(d as nat) + ")";
      ReplaceAllNetParens(s, " (HL)", rep);
      ReplaceAll(s, " (HL)", rep)
    else
      var s1 := ReplaceAll(s, " HL", " " + reg);
      var s2 := ReplaceAll(s1, " L", " " + reg + "L");
      ReplaceAllNetParens(s, " HL", " " + reg);
      ReplaceAllNetParens(s1, " L", " " + reg + "L");
      ReplaceAllNetParens(s2, " H", " " + reg + "H");
      NamesReplaced(s1, reg);
      ReplaceAll(s2, " H", " " + reg + "H")
  }

  /**
   * The last two replacements of the register-name rewrite leave neither
   * " H" nor " L": each replacement starts with the space, follows it with
   * the first letter of `reg`, and ends in a letter.
   */
  lemma NamesReplaced(s1: string, reg: string)
    requires ' ' !in reg && |reg| > 0 && reg[0] != 'H' && reg[0] != 'L'
    ensures var s3 := ReplaceAll(ReplaceAll(s1, " L", " " + reg + "L"), " H", " " + reg + "H");
      !Contains(s3, " H") && !Contains(s3, " L")
  {
    var repL, repH := " " + reg + "L", " " + reg + "H";
    forall c: char | c == 'L' || c == 'H' ensures NoPair(repL, ' ', c) && NoPair(repH, ' ', c) {
      forall i | 0 <= i < |repL| - 1 ensures !(repL[i] == ' ' && repL[i + 1] == c) {
        if i > 0 { assert repL[i] == reg[i - 1]; } else { assert repL[1] == reg[0]; }
      }
      forall i | 0 <= i < |repH| - 1 ensures !(repH[i] == ' ' && repH[i + 1] == c) {
        if i > 0 { assert repH[i] == reg[i - 1]; } else { assert repH[1] == reg[0]; }
      }
    }
    var s2 := ReplaceAll(s1, " L", repL);
    var s3 := ReplaceAll(s2, " H", repH);
    assert " L" == [' ', 'L'] && " H" == [' ', 'H'];
    ReplacePairNoPair(s1, ' ', 'L', 'L', repL);
    ReplacePairNoPair(s2, ' ', 'H', 'L', repH);
    ReplacePairNoPair(s2, ' ', 'H', 'H', repH);
    NoPairNotContains(s3, " H", 0);
    NoPairNotContains(s3, " L", 0);
  }

  /** Each replacement the rewrite makes has the net parenthesis count of the text it replaces. */
  lemma RewriteTextsKeepNetParens(reg: string, d: u8)
    requires '(' !in reg && ')' !in reg
    ensures NetParens(" (" + reg + "+" + Dec(d as nat) + ")") == NetParens(" (HL)")
    ensures NetParens(" " + reg) == NetParens(" HL")
    ensures NetParens(" " + reg + "L") == NetParens(" L")
    ensures NetParens(" " + reg + "H") == NetParens(" H")
  {
    IndexedNetParens(reg, d);
    NetParensAtoms(reg);
    NetParensAtoms(" ");
    NetParensAtoms("L");
    NetParensAtoms("H");
    NetParensAtoms(" HL");
    NetParensAtoms(" L");
    NetParensAtoms(" H");
    NetParensConcat(" ", reg);
    NetParensConcat(" " + reg, "L");
    NetParensConcat(" " + reg, "H");
  }

  /** ` (IX+d)` and ` (HL)` both open and close one parenthesis. */
  lemma IndexedNetParens(reg: string, d: u8)
    requires '(' !in reg && ')' !in reg
    ensures NetParens(" (" + reg + "+" + Dec(d as nat) + ")") == 0 == NetParens(" (HL)")
  {
    DecNoParens(d as nat);
    NetParensAtoms(reg);
    NetParensAtoms(Dec(d as nat));
    NetParensAtoms(" ");
    NetParensAtoms("+");
    NetParensAtoms("HL");
    NetParensConcat(" ", "(");
    NetParensConcat(" (", reg);
    NetParensConcat(" (" + reg, "+");
    NetParensConcat(" (" + reg + "+", Dec(d as nat));
    NetParensConcat(" (" + reg + "+" + Dec(d as nat), ")");
    assert " (HL)" == " (" + "HL" + ")";
    NetParensConcat(" (", "HL");
    NetParensConcat(" (" + "HL", ")");
  }

  /**
   * The DD/FD rewrite as corrected: DD selects IX and FD selects IY, with
   * the same replacement text; with any other prefix the text is kept.
   * With `d` missing the displacement is printed as 0.
   */
  function IndexRewrite(prefix: u16, d: Option<u8>, s: string): (r: string)
    ensures NetParens(r) == NetParens(s)
    ensures !(prefix in {0xDD, 0xFD}) ==> r == s
    ensures prefix in {0xDD, 0xFD} && !Contains(s, "(HL)") ==> !Contains(r, " H") && !Contains(r, " L")
  {
    var dv := if d.Some? then d.value else 0;
    if prefix == 0xDD then RewriteFor(s, "IX", dv)
    else if prefix == 0xFD then RewriteFor(s, "IY", dv)
    else s
  }

  /**
   * The DD/FD rewrite as written: with FD and (HL) in the text, the
   * replacement " (IY+d" has no closing parenthesis.
   */
  function IndexRewriteAsWritten(prefix: u16, d: Option<u8>, s: string): (r: string)
    ensures !(prefix == 0xFD && Contains(s, "(HL)")) ==> r == IndexRewrite(prefix, d, s)
  {
    var dv := if d.Some? then d.value else 0;
    if prefix == 0xFD && Contains(s, "(HL)") then ReplaceAll(s, " (HL)", " (IY+" + Dec(dv as nat))
    else IndexRewrite(prefix, d, s)
  }

  /** `INC (HL)` with the (HL) replaced by `rep`. */
  lemma ReplaceInIncHl(rep: string)
    ensures ReplaceAll("INC (HL)", " (HL)", rep) == "INC" + rep
    ensures Contains("INC (HL)", "(HL)")
  {
    ReplaceAllWhole(" (HL)", rep);
    ReplaceAllAfter("INC", " (HL)", " (HL)", rep);
    assert "INC (HL)" == "INC" + " (HL)";
    IncHlContainsHl();
  }

  /** `INC (HL)` contains `(HL)`, from position 4. */
  lemma IncHlContainsHl()
    ensures Contains("INC (HL)", "(HL)")
  {
    assert "INC (HL)"[4..4 + 4] == "(HL)";
    ContainsAt("INC (HL)", "(HL)", 4);
  }

  /** As written, `INC (HL)` under FD with d = 5 loses its closing parenthesis. */
  lemma IndexRewriteAsWrittenOpensParen()
    ensures IndexRewriteAsWritten(0xFD, Some(5), "INC (HL)") == "INC (IY+5"
    ensures NetParens("INC (HL)") == 0 && NetParens("INC (IY+5") == 1
  {
    assert Dec(5) == "5";
    ReplaceInIncHl(" (IY+5");
    assert " (IY+" + Dec(5) == " (IY+5";
    assert "INC" + " (IY+5" == "INC (IY+5";
    LiteralNetParens();
  }

  lemma LiteralNetParens()
    ensures NetParens("INC (HL)") == 0 && NetParens("INC (IY+5") == 1
  {
    NetParensIncHl();
    NetParensIncIy();
  }

  lemma NetParensIncHl()
    ensures NetParens("INC (HL)") == 0
  {
  }

  lemma NetParensIncIy()
    ensures NetParens("INC (IY+5") == 1
  {
  }

  /**
   * Corrected, a text mentioning (HL) has " (HL)" replaced by " (IX+d)"
   * under DD and by " (IY+d)" under FD, the parenthesis closed in both;
   * as written, FD leaves it open.
   */
  lemma IndexRewriteHl(d: u8, s: string)
    requires Contains(s, "(HL)")
    ensures IndexRewrite(0xDD, Some(d), s) == ReplaceAll(s, " (HL)", " (IX+" + Dec(d as nat) + ")")
    ensures IndexRewrite(0xFD, Some(d), s) == ReplaceAll(s, " (HL)", " (IY+" + Dec(d as nat) + ")")
    ensures IndexRewriteAsWritten(0xFD, Some(d), s) == ReplaceAll(s, " (HL)", " (IY+" + Dec(d as nat))
  {
    assert " (" + "IX" + "+" + Dec(d as nat) + ")" == " (IX+" + Dec(d as nat) + ")";
    assert " (" + "IY" + "+" + Dec(d as nat) + ")" == " (IY+" + Dec(d as nat) + ")";
  }

  /**
   * On a text without (HL), the rewrite for `reg` is the three replacements
   * in turn: " HL" by " reg", then " L" by " regL", then " H" by " regH".
   */
  lemma RewriteNames(s: string, reg: string, d: u8)
    requires '(' !in reg && ')' !in reg && ' ' !in reg
    requires |reg| > 0 && reg[0] != 'H' && reg[0] != 'L'
    requires !Contains(s, "(HL)")
    ensures RewriteFor(s, reg, d)
         == ReplaceAll(ReplaceAll(ReplaceAll(s, " HL", " " + reg), " L", " " + reg + "L"), " H", " " + reg + "H")
  {
  }

  /** The rewrite of a text without (HL) whose three replacements end in `s3`. */
  lemma RewriteChain(s: string, reg: string, d: u8, s1: string, s3: string)
    requires '(' !in reg && ')' !in reg && ' ' !in reg
    requires |reg| > 0 && reg[0] != 'H' && reg[0] != 'L'
    requires '(' !in s && ReplaceAll(s, " HL", " " + reg) == s1
    requires ReplaceAll(ReplaceAll(s1, " L", " " + reg + "L"), " H", " " + reg + "H") == s3
    ensures RewriteFor(s, reg, d) == s3
  {
    NotContainsFirst(s, "(HL)");
    RewriteNames(s, reg, d);
  }

  /**
   * A text `op reg` + `t`, with no space in `op` or `reg` and no " H" or
   * " L" in `t`, has no " H" or " L", so the last two replacements of the
   * rewrite keep it.
   */
  lemma NamesKept(op: string, reg: string, t: string)
    requires ' ' !in op && ' ' !in reg && |reg| > 0 && reg[0] != 'H' && reg[0] != 'L'
    requires NoPair(t, ' ', 'H') && NoPair(t, ' ', 'L')
    ensures ReplaceAll(op + " " + reg + t, " L", " " + reg + "L") == op + " " + reg + t
    ensures ReplaceAll(op + " " + reg + t, " H", " " + reg + "H") == op + " " + reg + t
  {
    var s1 := op + " " + reg + t;
    assert s1 == op + ([' '] + reg) + t;
    NoPairLead(' ', reg, 'H');
    NoPairLead(' ', reg, 'L');
    NoPairConcat(op, [' '] + reg, ' ', 'H');
    NoPairConcat(op, [' '] + reg, ' ', 'L');
    NoPairConcat(op + ([' '] + reg), t, ' ', 'H');
    NoPairConcat(op + ([' '] + reg), t, ' ', 'L');
    ReplaceNoPair(s1, " L", " " + reg + "L", 0);
    ReplaceNoPair(s1, " H", " " + reg + "H", 0);
  }

  /** The first replacement on `op HL` and a tail without " HL": only that HL is replaced. */
  lemma WordStep(op: string, t: string, reg: string)
    requires ' ' !in op && NoPair(t, ' ', 'H')
    ensures ReplaceAll(op + " HL" + t, " HL", " " + reg) == op + " " + reg + t
  {
    var rep := " " + reg;
    assert op + " HL" + t == op + (" HL" + t);
    ReplaceAllAfter(op, " HL" + t, " HL", rep);
    ReplaceAllHead(t, " HL", rep);
    ReplaceNoPair(t, " HL", rep, 0);
    assert op + (rep + t) == op + " " + reg + t;
  }

  /**
   * A word operand: `op HL` followed by a tail with no register name after
   * a space (`INC HL`, `LD HL, 0x1234`, `ADD HL, BC`) prints as `op reg`
   * followed by the same tail.
   */
  lemma RewriteWord(op: string, t: string, reg: string, d: u8)
    requires '(' !in reg && ')' !in reg && ' ' !in reg
    requires |reg| > 0 && reg[0] != 'H' && reg[0] != 'L'
    requires ' ' !in op && '(' !in op && '(' !in t && NoPair(t, ' ', 'H') && NoPair(t, ' ', 'L')
    ensures RewriteFor(op + " HL" + t, reg, d) == op + " " + reg + t
  {
    WordStep(op, t, reg);
    NamesKept(op, reg, t);
    RewriteChain(op + " HL" + t, reg, d, op + " " + reg + t, op + " " + reg + t);
  }

  /** The first replacement on `op HL, HL`: both HL are replaced. */
  lemma PairStep(op: string, reg: string)
    requires ' ' !in op
    ensures ReplaceAll(op + " HL, HL", " HL", " " + reg) == op + " " + reg + ("," + " " + reg)
  {
    var rep := " " + reg;
    assert op + " HL, HL" == op + (" HL" + ("," + " HL"));
    ReplaceAllAfter(op, " HL" + ("," + " HL"), " HL", rep);
    ReplaceAllHead("," + " HL", " HL", rep);
    ReplaceAllAfter(",", " HL", " HL", rep);
    ReplaceAllWhole(" HL", rep);
    assert op + (rep + ("," + rep)) == op + " " + reg + ("," + " " + reg);
  }

  /** `, reg` has no register name H or L after its space. */
  lemma CommaRegPlain(reg: string)
    requires ' ' !in reg && |reg| > 0 && reg[0] != 'H' && reg[0] != 'L'
    ensures NoPair("," + " " + reg, ' ', 'H') && NoPair("," + " " + reg, ' ', 'L')
  {
    assert " " + reg == [' '] + reg;
    NoPairLead(' ', reg, 'H');
    NoPairLead(' ', reg, 'L');
    NoPairConcat(",", " " + reg, ' ', 'H');
    NoPairConcat(",", " " + reg, ' ', 'L');
    assert "," + " " + reg == "," + (" " + reg);
  }

  /** `op HL, HL` (`ADD HL, HL`) prints as `op reg, reg`: both operands are renamed. */
  lemma RewritePair(op: string, reg: string, d: u8)
    requires '(' !in reg && ')' !in reg && ' ' !in reg
    requires |reg| > 0 && reg[0] != 'H' && reg[0] != 'L'
    requires ' ' !in op && '(' !in op
    ensures RewriteFor(op + " HL, HL", reg, d) == op + " " + reg + ", " + reg
  {
    var t := "," + " " + reg;
    PairStep(op, reg);
    CommaRegPlain(reg);
    NamesKept(op, reg, t);
    PairText(op, reg);
    RewriteChain(op + " HL, HL", reg, d, op + " " + reg + t, op + " " + reg + ", " + reg);
  }

  lemma PairText(op: string, reg: string)
    ensures op + " " + reg + ("," + " " + reg) == op + " " + reg + ", " + reg
  {
  }

  /** `op H, L` has no " HL", so the first replacement keeps it. */
  lemma HalvesStepHL(op: string, reg: string)
    requires ' ' !in op
    ensures ReplaceAll(op + " H, L", " HL", " " + reg) == op + " H, L"
  {
    ReplaceAllAfter(op, " H, L", " HL", " " + reg);
    ReplaceNoPair(" H, L", " HL", " " + reg, 1);
  }

  /** The " L" replacement on `op H, L` renames the L. */
  lemma HalvesStepL(op: string, reg: string)
    requires ' ' !in op
    ensures ReplaceAll(op + " H, L", " L", " " + reg + "L") == op + (" H" + ("," + (" " + reg + "L")))
  {
    var repL := " " + reg + "L";
    ReplaceAllAfter(op, " H, L", " L", repL);
    assert " H, L"[..2][1] == 'H' != " L"[1];
    ReplaceAllMiss(" H, L", " L", repL);
    assert " H, L"[1..] == "H," + " L";
    ReplaceAllAfter("H,", " L", " L", repL);
    ReplaceAllWhole(" L", repL);
    SpaceText(op, repL);
  }

  lemma SpaceText(op: string, t: string)
    ensures op + (" " + ("H," + t)) == op + (" H" + ("," + t))
  {
  }

  /** `, regL` has no H after its space. */
  lemma CommaHalfPlain(reg: string)
    requires ' ' !in reg && |reg| > 0 && reg[0] != 'H'
    ensures NoPair("," + (" " + reg + "L"), ' ', 'H')
  {
    assert " " + reg + "L" == [' '] + (reg + "L");
    NoPairLead(' ', reg + "L", 'H');
    NoPairConcat(",", " " + reg + "L", ' ', 'H');
  }

  /** The " H" replacement on `op H, regL` renames the H. */
  lemma HalvesStepH(op: string, reg: string)
    requires ' ' !in op && ' ' !in reg && |reg| > 0 && reg[0] != 'H'
    ensures ReplaceAll(op + (" H" + ("," + (" " + reg + "L"))), " H", " " + reg + "H")
         == op + ((" " + reg + "H") + ("," + (" " + reg + "L")))
  {
    var repL, repH := " " + reg + "L", " " + reg + "H";
    ReplaceAllAfter(op, " H" + ("," + repL), " H", repH);
    ReplaceAllHead("," + repL, " H", repH);
    CommaHalfPlain(reg);
    ReplaceNoPair("," + repL, " H", repH, 0);
  }

  lemma HalvesText(op: string, reg: string)
    ensures op + ((" " + reg + "H") + ("," + (" " + reg + "L"))) == op + " " + reg + "H, " + reg + "L"
  {
  }

  /** `op H, L` (`LD H, L`) prints as `op regH, regL`: both byte halves are renamed. */
  lemma RewriteHalves(op: string, reg: string, d: u8)
    requires '(' !in reg && ')' !in reg && ' ' !in reg
    requires |reg| > 0 && reg[0] != 'H' && reg[0] != 'L'
    requires ' ' !in op && '(' !in op
    ensures RewriteFor(op + " H, L", reg, d) == op + " " + reg + "H, " + reg + "L"
  {
    HalvesStepHL(op, reg);
    HalvesStepL(op, reg);
    HalvesStepH(op, reg);
    HalvesText(op, reg);
    RewriteChain(op + " H, L", reg, d, op + " H, L", op + " " + reg + "H, " + reg + "L");
  }

  /**
   * With DD the register names become IX, IXH and IXL, and with FD IY, IYH
   * and IYL: `ADD HL, HL` prints as `ADD IX, IX`, `LD H, L` as
   * `LD IYH, IYL`, and `LD HL, 0x1234` as `LD IX, 0x1234`.
   */
  lemma IndexRewriteRenames(prefix: u16, d: Option<u8>, op: string, t: string)
    requires prefix in {0xDD, 0xFD} && ' ' !in op && '(' !in op
    requires '(' !in t && NoPair(t, ' ', 'H') && NoPair(t, ' ', 'L')
    ensures var reg := if prefix == 0xDD then "IX" else "IY";
      && IndexRewrite(prefix, d, op + " HL" + t) == op + " " + reg + t
      && IndexRewrite(prefix, d, op + " HL, HL") == op + " " + reg + ", " + reg
      && IndexRewrite(prefix, d, op + " H, L") == op + " " + reg + "H, " + reg + "L"
  {
    var reg := if prefix == 0xDD then "IX" else "IY";
    var dv := if d.Some? then d.value else 0;
    RewriteWord(op, t, reg, dv);
    RewritePair(op, reg, dv);
    RewriteHalves(op, reg, dv);
  }

  /**
   * `disassemble(fetched)` as written: the PC in four lower-case hex
   * digits, a space, and the mnemonic after the index-register rewrite as
   * written. A record without an opcode, an unknown combination, or a
   * missing operand panics. The rewrite keeps the mnemonic's net count of
   * parentheses except under FD on a text with (HL).
   */
  function Disassemble(f: Fetched): (r: Checked<string>)
    ensures r.Ok? <==> f.op_code.Some? && Mnemonic(f, f.op_code.value).Ok?
    ensures r.Ok? ==> |r.value| >= 5 && r.value[..4] == Hex4(f.pc) && r.value[4] == ' '
    ensures r.Ok? ==> r.value[5..] == IndexRewriteAsWritten(f.prefix, f.d, Mnemonic(f, f.op_code.value).value)
    ensures r.Ok? ==>
      var m := Mnemonic(f, f.op_code.value).value;
      !(f.prefix == 0xFD && Contains(m, "(HL)")) ==> NetParens(r.value[5..]) == NetParens(m)
  {
    match f.op_code
    case None => Panics
    case Some(op) =>
      match Mnemonic(f, op)
      case Panics => Panics
      case Ok(m) =>
        var text := Hex4(f.pc) + " " + IndexRewriteAsWritten(f.prefix, f.d, m);
        assert text[5..] == IndexRewriteAsWritten(f.prefix, f.d, m);
        Ok(text)
  }

  /**
   * `disassemble(fetched)` with both corrections (`MnemonicFixed` and
   * `IndexRewrite`): it panics exactly when the one as written does, and
   * the text after the PC always has the mnemonic's net count of
   * parentheses.
   */
  function DisassembleFixed(f: Fetched): (r: Checked<string>)
    ensures r.Ok? <==> Disassemble(f).Ok?
    ensures r.Ok? ==> |r.value| >= 5 && r.value[..4] == Hex4(f.pc) && r.value[4] == ' '
    ensures r.Ok? ==> r.value[5..] == IndexRewrite(f.prefix, f.d, MnemonicFixed(f, f.op_code.value).value)
    ensures r.Ok? ==> NetParens(r.value[5..]) == NetParens(MnemonicFixed(f, f.op_code.value).value)
  {
    match f.op_code
    case None => Panics
    case Some(op) =>
      match MnemonicFixed(f, op)
      case Panics => Panics
      case Ok(m) =>
        var text := Hex4(f.pc) + " " + IndexRewrite(f.prefix, f.d, m);
        assert text[5..] == IndexRewrite(f.prefix, f.d, m);
        Ok(text)
  }

  /** As written, with no prefix the mnemonic is HALT exactly for opcode 0x46 (`LD B, (HL)`). */
  lemma MnemonicHaltAsWritten(f: Fetched, op: u8)
    requires f.prefix == 0
    ensures Mnemonic(f, op) == Ok("HALT") <==> op == 0x46
  {
    var fs := Decode(op);
    if op == 0x46 {
      DecodeFields(1, 0, 6);
    }
  }

  /** Corrected, with no prefix the mnemonic is HALT exactly for opcode 0x76. */
  lemma MnemonicHalt(f: Fetched, op: u8)
    requires f.prefix == 0
    ensures MnemonicFixed(f, op) == Ok("HALT") <==> op == 0x76
  {
    var fs := Decode(op);
    if op == 0x76 {
      DecodeFields(1, 6, 6);
    }
  }

  /**
   * Corrected, with no prefix HALT is printed exactly for opcode 0x76, the
   * opcode the CPU halts on.
   */
  lemma DisassembleHalt(f: Fetched, op: u8)
    requires f.prefix == 0 && f.op_code == Some(op)
    ensures DisassembleFixed(f) == Ok(Hex4(f.pc) + " HALT") <==> op == 0x76
  {
    MnemonicHalt(f, op);
    var r := DisassembleFixed(f);
    var text := Hex4(f.pc) + " HALT";
    assert text[5..] == "HALT";
    assert Hex4(f.pc) + " " + "HALT" == text;
    if r.Ok? {
      var m := MnemonicFixed(f, op).value;
      assert r.value == Hex4(f.pc) + " " + m;
      assert r.value[5..] == m;
    }
  }

  /** A relative jump prints its absolute target, counted from the end of the instruction. */
  lemma DisassembleJr(f: Fetched, n: u8)
    requires f.prefix == 0 && f.op_code == Some(0x18) && f.n == Some(n)
    ensures Disassemble(f) == Ok(Hex4(f.pc) + " JR 0x" + Hex4(ToAbsAddr(f.pc, n)))
  {
    DecodeFields(0, 3, 0);
    var target := Hex4(ToAbsAddr(f.pc, n));
    assert MainX0(f, 3, 0, 1, 1) == Ok("JR" + " 0x" + target);
    assert Hex4(f.pc) + " " + ("JR" + " 0x" + target) == Hex4(f.pc) + " JR 0x" + target;
  }
}
