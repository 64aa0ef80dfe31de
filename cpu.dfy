/**
 * The Z80 core of the emulator: a queue of bus-level micro-operations, each
 * lasting a fixed number of T-states, driven one T-state at a time by
 * `Tick`. When the queue runs dry the CPU fetches the next opcode (or takes
 * an interrupt); when a micro-operation completes with nothing left queued,
 * the fetched bytes are decoded and the instruction either finishes or
 * queues the bus cycles it still needs.
 */
module Z80Cpu {
  import opened Base
  import opened Z80Registers
  import opened Z80Ops
  import Bus

  /** One bus-level step of an instruction (`Operation`). */
  datatype Operation =
    | Fetch
    | MrPcN
    | Mw8(addr: u16, data: u8)
    | Mw16(addr: u16, word: u16)
    | MrAddrN(addr: u16)
    | MrAddrR(addr: u16, reg: u8)
    | Delay(ticks: u8)
    | Pw8(addr: u16, data: u8)
    | PrR(addr: u16, target: Option<u8>, flags: bool)
    | MrPcD
    | Int01
    | Int02

  /** The T-state on which a micro-operation reports that it is done. */
  function Length(op: Operation): nat
  {
    match op
    case Fetch => 4
    case Mw16(_, _) => 6
    case Delay(d) => d as nat
    case Int01 => 1
    case Int02 => 1
    case _ => 3
  }

  /** Every operation the CPU queues can complete: no delay lasts zero T-states. */
  predicate WellFormed(op: Operation)
  {
    op.Delay? ==> op.ticks >= 1
  }

  predicate QueueOk(q: seq<Operation>)
  {
    forall i :: 0 <= i < |q| ==> WellFormed(q[i])
  }

  /**
   * What has been read of the current instruction (`Fetched`): the opcode,
   * the prefix bytes shifted in before it, the immediate byte or word, the
   * index displacement, a decode counter, and the address the instruction
   * started at (kept for the disassembler; the CPU itself leaves it 0).
   */
  datatype Fetched = Fetched(
    op_code: Option<u8>, prefix: u16, n: Option<u8>, nn: Option<u16>, d: Option<u8>,
    decode_step: u8, pc: u16)

  /** `Fetched::default()`. */
  const NoFetch: Fetched := Fetched(None, 0, None, None, None, 0, 0)

  /**
   * Storing a byte read as an operand: the first read fills `n`; a second
   * makes `nn` the little-endian word whose low byte is `n` and whose high
   * byte is the new byte.
   */
  function ReadOperand(f: Fetched, data: u8): (r: Fetched)
    ensures f.n.None? ==> r == f.(n := Some(data))
    ensures f.n.Some? ==> r.nn.Some? && r == f.(nn := r.nn)
    ensures f.n.Some? ==> Lo(r.nn.value) == f.n.value && Hi(r.nn.value) == data
  {
    match f.n
    case None => f.(n := Some(data))
    case Some(n) => f.(nn := Some(Pack(data, n)))
  }

  /**
   * The refresh register after an opcode fetch: bit 7 is kept and the low
   * seven bits count up modulo 128.
   */
  function NextR(r: u8): (s: u8)
    ensures s >= 0x80 <==> r >= 0x80
    ensures s as int % 0x80 == (r as int % 0x80 + 1) % 0x80
  {
    (r as int / 0x80 * 0x80 + (r as int + 1) % 0x80) as u8
  }

  /** The number of set bits among the low `width` bits of `v`. */
  function OnesCount(v: nat, width: nat): nat
  {
    if width == 0 then 0 else v % 2 + OnesCount(v / 2, width - 1)
  }

  /** Even parity of a byte, the P/V flag an input instruction sets. */
  function Parity(b: u8): bool
  {
    OnesCount(b as nat, 8) % 2 == 0
  }

  /** The fields of an opcode byte `xx yyy zzz`, with `y` split again as `pp q`. */
  datatype OpFields = OpFields(x: u8, y: u8, z: u8, p: u8, q: u8)

  /**
   * The field split of `decode_and_run`: every field is in range and the
   * fields put back together give the opcode again.
   */
  function Decode(op: u8): (fs: OpFields)
    ensures fs.x < 4 && fs.y < 8 && fs.z < 8 && fs.p < 4 && fs.q < 2
    ensures op as int == fs.x as int * 64 + fs.y as int * 8 + fs.z as int
    ensures fs.y as int == fs.p as int * 2 + fs.q as int
  {
    var y := (op % 64) / 8;
    OpFields(op / 64, y, op % 8, y / 2, y % 2)
  }

  /** Fields in range name exactly one opcode, and decoding it gives them back. */
  lemma DecodeFields(x: u8, y: u8, z: u8)
    requires x < 4 && y < 8 && z < 8
    ensures var op := x as int * 64 + y as int * 8 + z as int;
      0 <= op < 0x100 && Decode(op as u8) == OpFields(x, y, z, y / 2, y % 2)
  {
    var op := x as int * 64 + y as int * 8 + z as int;
    var fs := Decode(op as u8);
    assert fs.x as int * 64 + fs.y as int * 8 + fs.z as int == op;
    assert fs.x == x by {
      assert op / 64 == x as int;
    }
    assert fs.y == y by {
      assert (op % 64) / 8 == y as int;
    }
  }

  /**
   * `if_cc(y)`: condition y tests one flag, Z, C, P/V or S for y / 2 = 0, 1,
   * 2, 3, and holds when that flag equals y % 2 (NZ, Z, NC, C, PO, PE, P,
   * M). A code above 7 is unreachable and panics.
   */
  function IfCc(f: Flags, y: u8): (r: Checked<bool>)
    ensures r.Ok? <==> y < 8
    ensures r.Ok? ==> r.value == ([f.z, f.c, f.p, f.s][y / 2] == (y % 2 == 1))
  {
    if y == 0 then Ok(f.z == false)
    else if y == 1 then Ok(f.z == true)
    else if y == 2 then Ok(f.c == false)
    else if y == 3 then Ok(f.c == true)
    else if y == 4 then Ok(f.p == false)
    else if y == 5 then Ok(f.p == true)
    else if y == 6 then Ok(f.s == false)
    else if y == 7 then Ok(f.s == true)
    else Panics
  }

  /** How a T-state or an instruction step ended. */
  datatype Status = Done | Panicked | NotModelled

  function StatusOf(c: Checked<Registers>): Status
  {
    if c.Ok? then Done else Panicked
  }
  /**
   * The CPU's fields at one instant. Each method of the CPU is specified by
   * a predicate below that relates the state before it to the state after
   * it; a predicate leaves the state after a panic open unless it says
   * otherwise.
   */
  datatype CpuState = CpuState(
    regs: Registers, signals: Bus.Signals, fetched: Fetched, scheduler: seq<Operation>,
    wait: bool, halt: bool, current_ops: Option<Operation>, current_ops_ts: u8)

  /**
   * One T-state of `fetch()`, the opcode fetch (M1) cycle, done on its 4th
   * T-state. On the 1st it puts PC on the address bus with a memory read,
   * raises M1, moves PC on by one and counts R; on the 2nd it drops M1 and
   * the read, shifts any earlier opcode into the prefix and takes the data
   * bus as the opcode. A counter past 4 panics.
   */
  predicate FetchStep(s: CpuState, done: Checked<bool>, s': CpuState)
  {
    var t, rg, sg, f := s.current_ops_ts as int + 1, s.regs, s.signals, s.fetched;
    && (done.Ok? <==> t <= 4)
    && (done.Ok? ==> (done.value <==> t == 4))
    && (t == 1 ==>
          s' == s.(current_ops_ts := 1,
                   regs := rg.(m1 := true, pc := Wrap16(rg.pc as int + 1), r := NextR(rg.r)),
                   signals := sg.(addr := rg.pc, mem := Bus.Read)))
    && (t == 2 ==>
          s' == s.(current_ops_ts := 2, regs := rg.(m1 := false), signals := sg.(mem := Bus.None),
                   fetched := f.(op_code := Some(sg.data),
                                 prefix := if f.op_code.Some? then Pack(Lo(f.prefix), f.op_code.value) else f.prefix)))
    && (t == 3 ==> s' == s.(current_ops_ts := 3))
    && (t == 4 ==> s' == s.(current_ops_ts := 4))
  }

  /**
   * One T-state of a read at PC, done on its 3rd T-state: address on the
   * 1st, memory read on the 2nd, and on the 3rd the read is dropped, the
   * byte is stored as `stored` says and PC moves on by one with an
   * unchecked add (PC = 0xFFFF panics).
   */
  predicate PcReadStep(s: CpuState, done: Checked<bool>, s': CpuState, stored: Fetched)
  {
    var t, rg, sg := s.current_ops_ts as int + 1, s.regs, s.signals;
    && (done.Ok? <==> t <= 3 && (t == 3 ==> rg.pc < 0xFFFF))
    && (done.Ok? ==> (done.value <==> t == 3))
    && (t == 1 ==> s' == s.(current_ops_ts := 1, signals := sg.(addr := rg.pc)))
    && (t == 2 ==> s' == s.(current_ops_ts := 2, signals := sg.(mem := Bus.Read)))
    && (done.Ok? && t == 3 ==>
          s' == s.(current_ops_ts := 3, regs := rg.(pc := rg.pc + 1), signals := sg.(mem := Bus.None),
                   fetched := stored))
  }

  /** One T-state of `mr_addr_n(addr)`: like a read at PC, but from `addr`, and PC does not move. */
  predicate MrAddrNStep(addr: u16, s: CpuState, done: Checked<bool>, s': CpuState)
  {
    var t, sg := s.current_ops_ts as int + 1, s.signals;
    && (done.Ok? <==> t <= 3)
    && (done.Ok? ==> (done.value <==> t == 3))
    && (t == 1 ==> s' == s.(current_ops_ts := 1, signals := sg.(addr := addr)))
    && (t == 2 ==> s' == s.(current_ops_ts := 2, signals := sg.(mem := Bus.Read)))
    && (t == 3 ==>
          s' == s.(current_ops_ts := 3, signals := sg.(mem := Bus.None),
                   fetched := ReadOperand(s.fetched, sg.data)))
  }

  /**
   * One T-state of `mr_addr_r(addr, r)`: a memory read from `addr` whose
   * byte goes straight into register r on the 3rd T-state (`set_r`, so the
   * memory code 6 or a code above 7 panics).
   */
  predicate MrAddrRStep(addr: u16, r: u8, s: CpuState, done: Checked<bool>, s': CpuState)
  {
    var t, sg := s.current_ops_ts as int + 1, s.signals;
    && (done.Ok? <==> t <= 3 && (t == 3 ==> r < 8 && r != 6))
    && (done.Ok? ==> (done.value <==> t == 3))
    && (t == 1 ==> s' == s.(current_ops_ts := 1, signals := sg.(addr := addr)))
    && (t == 2 ==> s' == s.(current_ops_ts := 2, signals := sg.(mem := Bus.Read)))
    && (done.Ok? && t == 3 ==>
          s' == s.(current_ops_ts := 3, regs := s.regs.SetR(r, sg.data).value, signals := sg.(mem := Bus.None)))
  }

  /**
   * One T-state of `pr_r(addr, r, flags)`, a port read from `addr`. On the
   * 3rd T-state the byte goes into register r, or into `n` when there is no
   * register; with `flags` set, N and H are cleared and P/V, Z and S
   * describe the byte.
   */
  predicate PrRStep(addr: u16, r: Option<u8>, flags: bool, s: CpuState, done: Checked<bool>, s': CpuState)
  {
    var t, sg := s.current_ops_ts as int + 1, s.signals;
    && (done.Ok? <==> t <= 3 && (t == 3 && r.Some? ==> r.value < 8 && r.value != 6))
    && (done.Ok? ==> (done.value <==> t == 3))
    && (t == 1 ==> s' == s.(current_ops_ts := 1, signals := sg.(addr := addr)))
    && (t == 2 ==> s' == s.(current_ops_ts := 2, signals := sg.(port := Bus.Read)))
    && (done.Ok? && t == 3 ==>
          var data := sg.data;
          var loaded := if r.Some? then s.regs.SetR(r.value, data).value else s.regs;
          s' == s.(current_ops_ts := 3,
                   regs := if flags then loaded.(f := loaded.f.(n := false, h := false, p := Parity(data),
                                                                z := data == 0, s := data >= 0x80))
                           else loaded,
                   fetched := if r.Some? then s.fetched else s.fetched.(n := Some(data)),
                   signals := sg.(port := Bus.None)))
  }

  /**
   * One T-state of `mw_8(addr, data)` (memory) or `pw_8(addr, data)`
   * (port), done on its 3rd T-state: address and data on the 1st, the
   * write request on the 2nd, dropped on the 3rd.
   */
  predicate WriteStep(addr: u16, data: u8, toPort: bool, s: CpuState, done: Checked<bool>, s': CpuState)
  {
    var t, sg := s.current_ops_ts as int + 1, s.signals;
    && (done.Ok? <==> t <= 3)
    && (done.Ok? ==> (done.value <==> t == 3))
    && (t == 1 ==> s' == s.(current_ops_ts := 1, signals := sg.(addr := addr, data := data)))
    && (t == 2 ==>
          s' == s.(current_ops_ts := 2, signals := if toPort then sg.(port := Bus.Write) else sg.(mem := Bus.Write)))
    && (t == 3 ==>
          s' == s.(current_ops_ts := 3, signals := if toPort then sg.(port := Bus.None) else sg.(mem := Bus.None)))
  }

  /**
   * One T-state of `mw_16(addr, word)`, two memory writes done on the 6th
   * T-state: the low byte to `addr` on T-states 1-3, the high byte to
   * `addr + 1` on 4-6 (an unchecked add: `addr` = 0xFFFF panics on the 4th).
   */
  predicate Mw16Step(addr: u16, word: u16, s: CpuState, done: Checked<bool>, s': CpuState)
  {
    var t, sg := s.current_ops_ts as int + 1, s.signals;
    && (done.Ok? <==> t <= 6 && (t == 4 ==> addr < 0xFFFF))
    && (done.Ok? ==> (done.value <==> t == 6))
    && (t == 1 ==> s' == s.(current_ops_ts := 1, signals := sg.(addr := addr, data := Lo(word))))
    && (t == 2 ==> s' == s.(current_ops_ts := 2, signals := sg.(mem := Bus.Write)))
    && (t == 3 ==> s' == s.(current_ops_ts := 3, signals := sg.(mem := Bus.None)))
    && (done.Ok? && t == 4 ==> s' == s.(current_ops_ts := 4, signals := sg.(addr := addr + 1, data := Hi(word))))
    && (t == 5 ==> s' == s.(current_ops_ts := 5, signals := sg.(mem := Bus.Write)))
    && (t == 6 ==> s' == s.(current_ops_ts := 6, signals := sg.(mem := Bus.None)))
  }

  /** One T-state of `delay(d)`: it only counts, and is done exactly when the counter reaches d. */
  predicate DelayStep(d: u8, s: CpuState, done: Checked<bool>, s': CpuState)
  {
    var t := s.current_ops_ts as int + 1;
    && (done.Ok? <==> t <= 0xFF)
    && (done.Ok? ==> (done.value <==> t == d as int) && s' == s.(current_ops_ts := t as u8))
  }

  /**
   * `int01()`, accepting a mode 0/1 interrupt in one T-state: interrupts
   * are disabled, SP goes down by two (wrapping), a one-T-state delay and
   * the push of the old PC to the new SP are queued, and execution
   * continues at 0x0038.
   */
  predicate Int01Step(s: CpuState, done: Checked<bool>, s': CpuState)
  {
    var sp := Wrap16(s.regs.sp as int - 2);
    && done == Ok(true)
    && sp as int == (s.regs.sp as int - 2) % 0x1_0000
    && s' == s.(regs := s.regs.(iff1 := false, sp := sp, pc := 0x0038),
                scheduler := s.scheduler + [Operation.Delay(1), Operation.Mw16(sp, s.regs.pc)])
  }

  /** One T-state of micro-operation `op`, by its kind; `int02` is `todo!` and panics. */
  predicate MicroStep(op: Operation, s: CpuState, done: Checked<bool>, s': CpuState)
  {
    match op
    case Fetch => FetchStep(s, done, s')
    case MrPcN => PcReadStep(s, done, s', ReadOperand(s.fetched, s.signals.data))
    case MrPcD => PcReadStep(s, done, s', s.fetched.(d := Some(s.signals.data)))
    case Mw8(addr, data) => WriteStep(addr, data, false, s, done, s')
    case Pw8(addr, data) => WriteStep(addr, data, true, s, done, s')
    case Mw16(addr, word) => Mw16Step(addr, word, s, done, s')
    case MrAddrN(addr) => MrAddrNStep(addr, s, done, s')
    case MrAddrR(addr, reg) => MrAddrRStep(addr, reg, s, done, s')
    case Delay(d) => DelayStep(d, s, done, s')
    case PrR(addr, target, flags) => PrRStep(addr, target, flags, s, done, s')
    case Int01 => Int01Step(s, done, s')
    case Int02 => done.Panics?
  }

  /**
   * A T-state of a micro-operation that does not panic moves its counter
   * on by one (`int01` finishes at once), reports done exactly on the last
   * T-state, leaves the slot alone and keeps the queue well formed.
   */
  lemma MicroStepCounts(op: Operation, s: CpuState, done: Checked<bool>, s': CpuState)
    requires MicroStep(op, s, done, s') && done.Ok?
    requires WellFormed(op) && s.current_ops_ts as int < Length(op)
    ensures done.value <==> s.current_ops_ts as int + 1 == Length(op)
    ensures !done.value ==> s'.current_ops_ts as int == s.current_ops_ts as int + 1
    ensures s'.current_ops == s.current_ops
    ensures QueueOk(s.scheduler) ==> QueueOk(s'.scheduler)
  {
  }

  /**
   * `halt()`: the CPU halts and PC moves back onto the HALT opcode, so the
   * instruction repeats until an interrupt; PC = 0 underflows and panics.
   */
  predicate HaltStep(s: CpuState, st: Status, s': CpuState)
  {
    && st != NotModelled
    && s'.halt
    && (st == Done <==> s.regs.pc > 0)
    && (st == Done ==> s' == s.(halt := true, regs := s.regs.(pc := s.regs.pc - 1)))
  }

  /**
   * `ld_r_n(y)`: once the operand byte has been read it goes into register
   * y (`set_r`, so code 6 panics); until then exactly one operand read is
   * queued.
   */
  predicate LdRNStep(y: u8, s: CpuState, st: Status, s': CpuState)
  {
    && st != NotModelled
    && (s.fetched.n.None? ==> st == Done && s' == s.(scheduler := s.scheduler + [Operation.MrPcN]))
    && (s.fetched.n.Some? ==>
          && (st == Done <==> y < 8 && y != 6)
          && (st == Done ==> s' == s.(regs := s.regs.SetR(y, s.fetched.n.value).value)))
  }

  /**
   * `ld_rr_mm(p)`: once the operand word has been read it goes into the
   * pair `set_rr(p)` names (a code above 3 panics); until then two operand
   * reads are queued.
   */
  predicate LdRrMmStep(p: u8, s: CpuState, st: Status, s': CpuState)
  {
    && st != NotModelled
    && (s.fetched.nn.None? ==>
          st == Done && s' == s.(scheduler := s.scheduler + [Operation.MrPcN, Operation.MrPcN]))
    && (s.fetched.nn.Some? ==>
          && (st == Done <==> p < 4)
          && (st == Done ==> s' == s.(regs := s.regs.SetRR(p, s.fetched.nn.value).value)))
  }

  /**
   * `x0_z0_ops(y)`: NOP, `EX AF,AF'`, and the relative jumps. DJNZ (y = 2)
   * decrements B (wrapping) and jumps while B is not 0, after a one-T-state
   * delay; JR (y = 3) always jumps; `JR cc` (y = 4..7) jumps on condition
   * y - 4 of `if_cc`. A jump adds the signed displacement to PC modulo 2^16
   * and costs a five-T-state delay. Until the displacement has been read,
   * one operand read is queued.
   */
  predicate X0Z0Step(y: u8, s: CpuState, st: Status, s': CpuState)
  {
    && st != NotModelled
    && (st == Done <==> y < 8)
    && (st != Done ==> s' == s)
    && (y == 0 ==> s' == s)
    && (y == 1 ==> s' == s.(regs := s.regs.ExAfAf()))
    && (2 <= y < 8 && s.fetched.n.None? ==> s' == s.(scheduler := s.scheduler + [Operation.MrPcN]))
    && (2 <= y < 8 && s.fetched.n.Some? ==>
          var b := if y == 2 then Wrap8(s.regs.b as int - 1) else s.regs.b;
          var jump := if y == 2 then b != 0 else if y == 3 then true else IfCc(s.regs.f, y - 4).value;
          && b as int == (if y == 2 then (s.regs.b as int - 1) % 0x100 else s.regs.b as int)
          && s' == s.(regs := s.regs.(b := b, pc := if jump then Displace(s.regs.pc, s.fetched.n.value) else s.regs.pc),
                      scheduler := s.scheduler + (if y == 2 then [Operation.Delay(1)] else [])
                                               + (if jump then [Operation.Delay(5)] else []),
                      fetched := s.fetched.(op_code := None)))
  }

  /**
   * `x0_z1_ops(q, p)`: `LD rr,nn` (q = 0, through `ld_rr_mm`) and
   * `ADD HL,rr` (q = 1), which ends the instruction with a seven-T-state
   * delay. Any other q panics.
   */
  predicate X0Z1Step(q: u8, p: u8, s: CpuState, st: Status, s': CpuState)
  {
    && st != NotModelled
    && (q == 0 ==> LdRrMmStep(p, s, st, s'))
    && (q == 1 ==> (st == Done <==> p < 4))
    && (q == 1 && st == Done ==>
          s' == s.(regs := AddToHl(s.regs, s.regs.GetRR(p).value),
                   fetched := s.fetched.(op_code := None),
                   scheduler := s.scheduler + [Operation.Delay(7)]))
    && (q > 1 ==> st == Panicked)
  }

  /**
   * `x0_z2_ops(q, p)`: the indirect loads. `LD (BC),A` and `LD (DE),A`
   * queue one memory write; `LD (nn),HL` and `LD (nn),A` first queue two
   * operand reads, then a write of the pair or of A; `LD A,(BC)` and
   * `LD A,(DE)` queue a read and then take the byte into A; `LD HL,(nn)`
   * and `LD A,(nn)` read the address and then queue reads straight into
   * L and H (from nn and nn + 1, an unchecked add) or into A.
   */
  predicate X0Z2Step(q: u8, p: u8, s: CpuState, st: Status, s': CpuState)
  {
    var nn, n, rg := s.fetched.nn, s.fetched.n, s.regs;
    var ended := s.fetched.(op_code := None);
    && st != NotModelled
    && (st == Done <==> q < 2 && p < 4 && !(q == 1 && p == 2 && nn.Some? && nn.value == 0xFFFF))
    && (st == Done ==>
          && (q == 0 && p < 2 ==>
                s' == s.(fetched := ended, scheduler := s.scheduler + [Operation.Mw8(rg.GetRR(p).value, rg.a)]))
          && (p >= 2 && nn.None? ==>
                s' == s.(scheduler := s.scheduler + [Operation.MrPcN, Operation.MrPcN]))
          && (q == 0 && p == 2 && nn.Some? ==>
                s' == s.(fetched := ended, scheduler := s.scheduler + [Operation.Mw16(nn.value, rg.GetRR(2).value)]))
          && (q == 0 && p == 3 && nn.Some? ==>
                s' == s.(fetched := ended, scheduler := s.scheduler + [Operation.Mw8(nn.value, rg.a)]))
          && (q == 1 && p < 2 && n.None? ==>
                s' == s.(scheduler := s.scheduler + [Operation.MrAddrN(rg.GetRR(p).value)]))
          && (q == 1 && p < 2 && n.Some? ==> s' == s.(regs := rg.(a := n.value)))
          && (q == 1 && p == 2 && nn.Some? ==>
                s' == s.(fetched := ended,
                         scheduler := s.scheduler + [Operation.MrAddrR(nn.value, 5), Operation.MrAddrR(nn.value + 1, 4)]))
          && (q == 1 && p == 3 && nn.Some? ==>
                s' == s.(fetched := ended, scheduler := s.scheduler + [Operation.MrAddrR(nn.value, 7)])))
  }

  /**
   * `x0_z3_ops(q, p)`: `INC rr` (q = 0) or `DEC rr` (q = 1), then the
   * instruction ends with a two-T-state delay. `INC rr` on a pair holding
   * 0xFFFF overflows and panics; any other q panics.
   */
  predicate X0Z3Step(q: u8, p: u8, s: CpuState, st: Status, s': CpuState)
  {
    && st != NotModelled
    && (st == Done <==> (q == 0 && p < 4 && s.regs.GetRR(p).value != 0xFFFF) || (q == 1 && p < 4))
    && (st == Done ==>
          && s' == s.(regs := s.regs.SetRR(p, s'.regs.GetRR(p).value).value,
                      fetched := s.fetched.(op_code := None),
                      scheduler := s.scheduler + [Operation.Delay(2)])
          && (q == 0 ==> s'.regs.GetRR(p).value as int == s.regs.GetRR(p).value as int + 1)
          && (q == 1 ==> s'.regs.GetRR(p).value == WrappingDec16(s.regs.GetRR(p).value)))
  }

  /**
   * `x0_z7_ops(y)`: the four accumulator rotations for y = 0..3, which
   * change only A, C, H and N. RLCA (y = 0) and RLA (y = 2) shift A left,
   * RRCA (y = 1) and RRA (y = 3) shift it right; the bit shifted out goes
   * to C, and the bit shifted in is the one shifted out (RLCA, RRCA) or the
   * old C (RLA, RRA). DAA, CPL, SCF and CCF (y = 4..7) are not part of this
   * model.
   */
  predicate X0Z7Step(y: u8, s: CpuState, st: Status, s': CpuState)
  {
    && (st == Done <==> y < 4)
    && (st == NotModelled <==> 4 <= y < 8)
    && (st != Done ==> s' == s)
    && (y < 4 ==>
          var a, c := s.regs.a, s.regs.f.c;
          var out := if y % 2 == 0 then a >= 0x80 else a % 2 == 1;
          var rotated :=
            if y == 0 then ShiftLeftIn(a, out)
            else if y == 1 then ShiftRightIn(a, out)
            else if y == 2 then ShiftLeftIn(a, c)
            else ShiftRightIn(a, c);
          s' == s.(regs := s.regs.(a := rotated, f := s.regs.f.(c := out, h := false, n := false))))
  }

  /**
   * `x0_ops(z, y, q, p)`: the x = 0 quarter of the opcode table, by z: the
   * groups z = 0, 1, 2, 3, 7, then `INC r` (z = 4), `DEC r` (z = 5) and
   * `LD r,n` (z = 6). A z above 7 panics.
   */
  predicate X0OpsStep(z: u8, y: u8, q: u8, p: u8, s: CpuState, st: Status, s': CpuState)
  {
    if z == 0 then X0Z0Step(y, s, st, s')
    else if z == 1 then X0Z1Step(q, p, s, st, s')
    else if z == 2 then X0Z2Step(q, p, s, st, s')
    else if z == 3 then X0Z3Step(q, p, s, st, s')
    else if z == 4 || z == 5 then
      && st != NotModelled
      && (st == Done <==> y < 8 && y != 6)
      && (st == Done ==> s' == s.(regs := if z == 4 then Incremented(s.regs, y) else Decremented(s.regs, y)))
    else if z == 6 then LdRNStep(y, s, st, s')
    else if z == 7 then X0Z7Step(y, s, st, s')
    else st == Panicked
  }

  /**
   * `x1_ops(y, z)`: `HALT` for y = z = 6 and otherwise `ld_r_r` as the
   * source has it, which leaves every register as it was (see
   * `Z80Ops.LdRRAsWritten`); the memory operand on either side panics.
   */
  predicate X1OpsStep(y: u8, z: u8, s: CpuState, st: Status, s': CpuState)
  {
    if y == 6 && z == 6 then HaltStep(s, st, s')
    else
      && st != NotModelled
      && (st == Done <==> y < 8 && y != 6 && z != 6)
      && (st == Done ==> s' == s)
  }

  /**
   * `x3_z1_ops(q, p)`: `EXX` (q = 1, p = 1), `JP (HL)` (p = 2: PC takes the
   * pair `get_rr(2)` names) and `LD SP,HL` (p = 3: SP takes it, after a
   * two-T-state delay). POP and RET (q = 0, and q = 1 with p = 0) are not
   * part of this model; other codes panic.
   */
  predicate X3Z1Step(q: u8, p: u8, s: CpuState, st: Status, s': CpuState)
  {
    var hl := s.regs.GetPair(s.regs.Selected(2));
    && (st == NotModelled <==> q == 0 || (q == 1 && p == 0))
    && (st == Done <==> q == 1 && 1 <= p <= 3)
    && (st != Done ==> s' == s)
    && (q == 1 && p == 1 ==> s' == s.(regs := s.regs.Exx()))
    && (q == 1 && p == 2 ==> s' == s.(regs := s.regs.(pc := hl)))
    && (q == 1 && p == 3 ==>
          s' == s.(regs := s.regs.(sp := hl), scheduler := s.scheduler + [Operation.Delay(2)],
                   fetched := s.fetched.(op_code := None)))
  }

  /**
   * `x3_z3_ops(y)`: the CB prefix (y = 1) queues one more opcode fetch;
   * `EX DE,HL` (y = 5) swaps DE with the pair `get_rr(2)` names; DI and
   * EI (y = 6, 7) clear or set both interrupt flip-flops. JP nn, OUT, IN
   * and `EX (SP),HL` are not part of this model; y above 7 panics.
   */
  predicate X3Z3Step(y: u8, s: CpuState, st: Status, s': CpuState)
  {
    var rg := s.regs;
    && (st == Done <==> y == 1 || 5 <= y <= 7)
    && (st == NotModelled <==> y == 0 || 2 <= y <= 4)
    && (st != Done ==> s' == s)
    && (y == 1 ==> s' == s.(scheduler := s.scheduler + [Operation.Fetch]))
    && (y == 5 ==>
          var hl := rg.Selected(2);
          && s'.regs.GetPair(hl) == rg.GetPair(DE)
          && s'.regs.GetPair(DE) == rg.GetPair(hl)
          && s' == s.(regs := rg.SetPair(hl, rg.GetPair(DE)).SetPair(DE, rg.GetPair(hl))))
    && (y == 6 ==> s' == s.(regs := rg.(iff1 := false, iff2 := false)))
    && (y == 7 ==> s' == s.(regs := rg.(iff1 := true, iff2 := true)))
  }

  /**
   * `x3_z5_ops(q, p)`: the DD, ED and FD prefixes (q = 1, p = 1..3) queue
   * one more opcode fetch. PUSH and CALL nn are not part of this model;
   * other codes panic.
   */
  predicate X3Z5Step(q: u8, p: u8, s: CpuState, st: Status, s': CpuState)
  {
    && (st == Done <==> q == 1 && 1 <= p <= 3)
    && (st == NotModelled <==> q == 0 || (q == 1 && p == 0))
    && s' == if st == Done then s.(scheduler := s.scheduler + [Operation.Fetch]) else s
  }

  /**
   * `x3_ops(z, y, q, p)`: the x = 3 quarter of the opcode table, by z; the
   * groups z = 1, 3, 5 are modelled, the rest (conditional returns, jumps
   * and calls, ALU with an immediate operand, RST) are not.
   */
  predicate X3OpsStep(z: u8, y: u8, q: u8, p: u8, s: CpuState, st: Status, s': CpuState)
  {
    if z == 1 then X3Z1Step(q, p, s, st, s')
    else if z == 3 then X3Z3Step(y, s, st, s')
    else if z == 5 then X3Z5Step(q, p, s, st, s')
    else if z < 8 then st == NotModelled && s' == s
    else st == Panicked
  }

  /**
   * The dispatch of `decode_and_run` on the prefix and the x field: the
   * unprefixed, DD and FD tables go to `x0_ops`, `x1_ops` and `x3_ops`;
   * the ALU quarter (x = 2), the CB tables and the ED table are not part
   * of this model, and any other prefix panics.
   */
  predicate DispatchStep(prefix: u16, fs: OpFields, s: CpuState, st: Status, s': CpuState)
  {
    if prefix == 0xCB || prefix == 0xDDCB || prefix == 0xFDCB || prefix == 0xED then
      st == NotModelled && s' == s
    else if prefix == 0 || prefix == 0xDD || prefix == 0xFD then
      if fs.x == 0 then X0OpsStep(fs.z, fs.y, fs.q, fs.p, s, st, s')
      else if fs.x == 1 then X1OpsStep(fs.y, fs.z, s, st, s')
      else if fs.x == 2 then st == NotModelled && s' == s
      else if fs.x == 3 then X3OpsStep(fs.z, fs.y, fs.q, fs.p, s, st, s')
      else st == Panicked
    else
      st == Panicked
  }

  /**
   * The prefix stage of `decode_and_run()`, as the pair (`fetch_done`, the
   * new state). After an unprefixed CB or ED one more opcode is fetched;
   * after DD or FD one more is fetched and IX or IY replaces HL; DD/FD
   * followed by CB queues the displacement read, a delay and the opcode
   * read; a DD/FD after DD/FD replaces the prefix. In these cases decoding
   * waits. Once the opcode of a DD CB or FD CB instruction has been read
   * into `n`, the prefix becomes DDCB or FDCB and that byte becomes the
   * opcode; any other instruction is decoded as it stands.
   */
  function PrefixResult(s: CpuState): (r: (bool, CpuState))
    ensures !r.0 ==> s.fetched.op_code.Some? && s.fetched.op_code.value in {0xCB, 0xED, 0xDD, 0xFD}
    ensures r.0 ==> r.1.regs == s.regs && r.1.scheduler == s.scheduler
    ensures r.1.fetched.op_code != s.fetched.op_code ==> r.0 && r.1.fetched.prefix in {0xDDCB, 0xFDCB}
    ensures r.1 == s.(regs := r.1.regs, scheduler := r.1.scheduler, fetched := r.1.fetched)
    ensures QueueOk(s.scheduler) ==> QueueOk(r.1.scheduler)
  {
    var f := s.fetched;
    if f.prefix == 0 && f.n.None? && (f.op_code == Some(0xCB) || f.op_code == Some(0xED)) then
      (false, s.(scheduler := s.scheduler + [Operation.Fetch]))
    else if f.prefix == 0 && f.n.None? && (f.op_code == Some(0xDD) || f.op_code == Some(0xFD)) then
      (false, s.(scheduler := s.scheduler + [Operation.Fetch],
                 regs := s.regs.(index_mode := if f.op_code == Some(0xDD) then Ix else Iy)))
    else if (f.prefix == 0xDD || f.prefix == 0xFD) && f.n.None? && f.op_code == Some(0xCB) then
      (false, s.(scheduler := s.scheduler + [Operation.MrPcD, Operation.Delay(2), Operation.MrPcN]))
    else if (f.prefix == 0xDD || f.prefix == 0xFD) && f.n.None? && (f.op_code == Some(0xDD) || f.op_code == Some(0xFD)) then
      (false, s.(fetched := f.(prefix := f.op_code.value as u16)))
    else if (f.prefix == 0xDD || f.prefix == 0xFD) && f.n.Some? && f.op_code == Some(0xCB) then
      (true, s.(fetched := f.(prefix := if f.prefix == 0xDD then 0xDDCB else 0xFDCB, op_code := f.n, n := None)))
    else
      (true, s)
  }

  /**
   * The decode stage of `decode_and_run()`: with no opcode there is nothing
   * to do; otherwise the opcode's fields are dispatched on the prefix and,
   * when that step is done, the decode counter goes up by one (unchecked:
   * 0xFF panics) and nothing else changes beyond the dispatched step.
   */
  predicate DecodeStep(s: CpuState, st: Status, s': CpuState)
  {
    match s.fetched.op_code
    case None => st == Done && s' == s
    case Some(op) =>
      var f, fs := s.fetched, Decode(op);
      match st
      case Done =>
        && f.decode_step < 0xFF
        && s'.fetched.decode_step == f.decode_step + 1
        && DispatchStep(f.prefix, fs, s, Done, s'.(fetched := s'.fetched.(decode_step := f.decode_step)))
      case NotModelled => DispatchStep(f.prefix, fs, s, NotModelled, s')
      case Panicked =>
        || DispatchStep(f.prefix, fs, s, Panicked, s')
        || (f.decode_step == 0xFF && DispatchStep(f.prefix, fs, s, Done, s'))
  }

  /**
   * Decoding the unprefixed `LD B,C` (0x41) as the source has it: the
   * instruction completes while the decode counter has room, and then
   * only that counter changes; B keeps its value.
   */
  lemma DecodeLdBCAsWritten(s: CpuState, st: Status, s': CpuState)
    requires s.fetched.op_code == Some(0x41) && s.fetched.prefix == 0
    requires DecodeStep(s, st, s')
    ensures st == Done <==> s.fetched.decode_step < 0xFF
    ensures st == Done ==> s' == s.(fetched := s.fetched.(decode_step := s.fetched.decode_step + 1))
  {
    assert Decode(0x41) == OpFields(1, 0, 1, 0, 0);
  }

  /**
   * Decoding the unprefixed `HALT` (0x76) halts the CPU with PC moved back
   * onto the opcode, the decode counter one up and nothing else changed;
   * it completes exactly when PC is not 0 and the counter has room.
   */
  lemma DecodeHalt(s: CpuState, st: Status, s': CpuState)
    requires s.fetched.op_code == Some(0x76) && s.fetched.prefix == 0
    requires DecodeStep(s, st, s')
    ensures st != NotModelled
    ensures st == Done ==> s.regs.pc > 0 && s.fetched.decode_step < 0xFF
    ensures st == Done ==>
      s' == s.(halt := true, regs := s.regs.(pc := s.regs.pc - 1),
               fetched := s.fetched.(decode_step := s.fetched.decode_step + 1))
  {
    assert Decode(0x76) == OpFields(1, 6, 6, 3, 0);
  }

  /**
   * Decoding the unprefixed `INC B` (0x04) that completes leaves B one up
   * modulo 256 and C, D, E, H, L, A, SP and PC as they were.
   */
  lemma DecodeIncB(s: CpuState, st: Status, s': CpuState)
    requires s.fetched.op_code == Some(0x04) && s.fetched.prefix == 0
    requires DecodeStep(s, st, s') && st == Done
    ensures s'.regs.b as int == (s.regs.b as int + 1) % 0x100
    ensures s'.regs == s.regs.(b := s'.regs.b, f := s'.regs.f)
    ensures s'.scheduler == s.scheduler && s'.halt == s.halt
  {
    assert Decode(0x04) == OpFields(0, 0, 4, 0, 0);
  }

  /** `decode_and_run()`: the prefix stage, then, once the opcode is complete, the decode stage. */
  predicate DecodeAndRunStep(s: CpuState, st: Status, s': CpuState)
  {
    var r := PrefixResult(s);
    if r.0 then DecodeStep(r.1, st, s') else st == Done && s' == r.1
  }

  /**
   * The selection step of `tick()`: with a micro-operation in progress
   * nothing changes; otherwise the next queued one starts; with an empty
   * queue a new instruction starts, with `fetched` cleared and HL selected
   * again, as an interrupt acknowledge when the interrupt line is up and
   * IFF1 is set (modes 0 and 1 share `int01`; a mode above 2 is unreachable
   * and panics) and as an opcode fetch otherwise.
   */
  predicate SelectStep(s: CpuState, st: Status, s': CpuState)
  {
    && st != NotModelled
    && if s.current_ops.Some? then st == Done && s' == s
       else if s.scheduler != [] then
         st == Done && s' == s.(current_ops := Some(s.scheduler[0]), scheduler := s.scheduler[1..])
       else
         var accept := s.signals.interrupt && s.regs.iff1;
         && (st == Panicked <==> accept && s.regs.im > 2)
         && (st == Done ==>
               s' == s.(fetched := NoFetch, regs := s.regs.(index_mode := Hl),
                        current_ops := Some(if !accept then Operation.Fetch
                                            else if s.regs.im < 2 then Operation.Int01
                                            else Operation.Int02)))
  }

  /**
   * The wake-up at the head of `tick()`: a halted CPU that sees the
   * interrupt line up stops halting and moves PC past the HALT opcode
   * (unchecked: 0xFFFF panics); otherwise nothing changes.
   */
  predicate WakeStep(s: CpuState, st: Status, s': CpuState)
  {
    if s.halt && s.signals.interrupt then
      && st != NotModelled
      && (st == Done <==> s.regs.pc < 0xFFFF)
      && (st == Done ==> s' == s.(halt := false, regs := s.regs.(pc := s.regs.pc + 1)))
    else
      st == Done && s' == s
  }

  /**
   * The run step of `tick()`: the selected micro-operation takes one
   * T-state, leaving `ran`. When that T-state completes it, the slot is
   * emptied and, if nothing is queued, `decode_and_run` follows. The step
   * panics exactly when the slot is empty (`todo!`), when the T-state of
   * the micro-operation panics, or when `decode_and_run` does.
   */
  predicate RunStep(s: CpuState, st: Status, ran: CpuState, s': CpuState)
  {
    if s.current_ops.None? then st == Panicked
    else
      var op := s.current_ops.value;
      var finished := s.current_ops_ts as int + 1 == Length(op);
      if MicroStep(op, s, Panics, ran) then st == Panicked
      else
        && MicroStep(op, s, Ok(finished), ran)
        && if !finished then st == Done && s' == ran
           else
             var freed := ran.(current_ops := None, current_ops_ts := 0);
             if freed.scheduler == [] then DecodeAndRunStep(freed, st, s')
             else st == Done && s' == freed
  }

  /**
   * `tick()` as a whole: a CPU held by WAIT, or halted without an
   * interrupt, does nothing; otherwise it wakes (`woken`), selects a
   * micro-operation (`selected`) and runs it (`ran`, then `s'`), and it
   * panics exactly when one of these three steps does.
   */
  predicate TickStep(s: CpuState, st: Status, woken: CpuState, selected: CpuState, ran: CpuState, s': CpuState)
  {
    if s.wait || (s.halt && !s.signals.interrupt) then st == Done && s' == s
    else if WakeStep(s, Panicked, woken) then st == Panicked
    else
      && WakeStep(s, Done, woken)
      && if SelectStep(woken, Panicked, selected) then st == Panicked
         else SelectStep(woken, Done, selected) && RunStep(selected, st, ran, s')
  }

  /**
   * A tick of a running CPU with nothing in progress, nothing queued and
   * no interrupt never panics: it starts an opcode fetch with `fetched`
   * cleared and runs its first T-state, which puts PC on the address bus
   * and moves PC on by one.
   */
  lemma TickStartsFetch(s: CpuState, st: Status, woken: CpuState, selected: CpuState, ran: CpuState, s': CpuState)
    requires !s.wait && !s.halt && !s.signals.interrupt && s.current_ops.None? && s.current_ops_ts == 0 && s.scheduler == []
    requires TickStep(s, st, woken, selected, ran, s')
    ensures st == Done
    ensures s'.current_ops == Some(Operation.Fetch) && s'.current_ops_ts == 1 && s'.fetched == NoFetch
    ensures s'.signals.addr == s.regs.pc && s'.regs.pc == Wrap16(s.regs.pc as int + 1)
  {
    assert woken == s;
    assert selected.current_ops == Some(Operation.Fetch) && selected.current_ops_ts == 0;
  }

  class CPU {
    var regs: Registers
    var signals: Bus.Signals
    var fetched: Fetched
    var scheduler: seq<Operation>
    var wait: bool
    var halt: bool
    var current_ops: Option<Operation>
    var current_ops_ts: u8

    /**
     * The micro-operation in progress has not yet reached its last T-state,
     * an empty slot has a zero counter, and nothing queued is a zero-length
     * delay.
     */
    ghost predicate Valid()
      reads this
    {
      && (current_ops.None? ==> current_ops_ts == 0)
      && (current_ops.Some? ==> WellFormed(current_ops.value) && current_ops_ts as int < Length(current_ops.value))
      && QueueOk(scheduler)
    }

    /** The fields as one value, for the step predicates. */
    ghost function Snap(): CpuState
      reads this
    {
      CpuState(regs, signals, fetched, scheduler, wait, halt, current_ops, current_ops_ts)
    }

    /** `CPU::new()`: power-on registers, an idle bus and a fetch about to start. */
    constructor ()
      ensures regs == PowerOn && signals == Bus.Idle && fetched == NoFetch && scheduler == []
      ensures !wait && !halt && current_ops == Some(Operation.Fetch) && current_ops_ts == 0
      ensures Valid()
    {
      regs := PowerOn;
      signals := Bus.Idle;
      fetched := NoFetch;
      scheduler := [];
      wait := false;
      halt := false;
      current_ops := Some(Operation.Fetch);
      current_ops_ts := 0;
    }

    /** `fetch()`: one T-state of the opcode fetch, as `FetchStep` says. */
    method Fetch() returns (done: Checked<bool>)
      modifies this`current_ops_ts, this`regs, this`signals, this`fetched
      ensures FetchStep(old(Snap()), done, Snap())
    {
      if current_ops_ts == 0xFF {
        return Panics;
      }
      current_ops_ts := current_ops_ts + 1;
      if current_ops_ts == 1 {
        regs := regs.(m1 := true);
        signals := signals.(addr := regs.pc, mem := Bus.Read);
        regs := regs.(pc := Wrap16(regs.pc as int + 1));
        regs := regs.(r := NextR(regs.r));
      } else if current_ops_ts == 2 {
        regs := regs.(m1 := false);
        signals := signals.(mem := Bus.None);
        match fetched.op_code {
          case Some(opc) =>
            fetched := fetched.(prefix := Pack(Lo(fetched.prefix), opc));
          case None =>
        }
        fetched := fetched.(op_code := Some(signals.data));
      } else if current_ops_ts == 3 {
      } else if current_ops_ts == 4 {
        return Ok(true);
      } else {
        return Panics;
      }
      return Ok(false);
    }

    /**
     * `mr()`: one T-state of an operand read at PC, whose byte goes to `n`
     * (or completes `nn`).
     */
    method Mr() returns (done: Checked<bool>)
      modifies this`current_ops_ts, this`regs, this`signals, this`fetched
      ensures PcReadStep(old(Snap()), done, Snap(), ReadOperand(old(fetched), old(signals.data)))
    {
      if current_ops_ts == 0xFF {
        return Panics;
      }
      current_ops_ts := current_ops_ts + 1;
      if current_ops_ts == 1 {
        signals := signals.(addr := regs.pc);
      } else if current_ops_ts == 2 {
        signals := signals.(mem := Bus.Read);
      } else if current_ops_ts == 3 {
        fetched := ReadOperand(fetched, signals.data);
        signals := signals.(mem := Bus.None);
        if regs.pc == 0xFFFF {
          return Panics;
        }
        regs := regs.(pc := regs.pc + 1);
        return Ok(true);
      } else {
        return Panics;
      }
      return Ok(false);
    }

    /** `mr_d()`: one T-state of the read of an index displacement at PC, whose byte goes to `d`. */
    method MrD() returns (done: Checked<bool>)
      modifies this`current_ops_ts, this`regs, this`signals, this`fetched
      ensures PcReadStep(old(Snap()), done, Snap(), old(fetched).(d := Some(old(signals.data))))
    {
      if current_ops_ts == 0xFF {
        return Panics;
      }
      current_ops_ts := current_ops_ts + 1;
      if current_ops_ts == 1 {
        signals := signals.(addr := regs.pc);
      } else if current_ops_ts == 2 {
        signals := signals.(mem := Bus.Read);
      } else if current_ops_ts == 3 {
        fetched := fetched.(d := Some(signals.data));
        signals := signals.(mem := Bus.None);
        if regs.pc == 0xFFFF {
          return Panics;
        }
        regs := regs.(pc := regs.pc + 1);
        return Ok(true);
      } else {
        return Panics;
      }
      return Ok(false);
    }

    /** `mr_addr_n(addr)`: one T-state of an operand read from `addr`. */
    method MrAddrN(addr: u16) returns (done: Checked<bool>)
      modifies this`current_ops_ts, this`signals, this`fetched
      ensures MrAddrNStep(addr, old(Snap()), done, Snap())
    {
      if current_ops_ts == 0xFF {
        return Panics;
      }
      current_ops_ts := current_ops_ts + 1;
      if current_ops_ts == 1 {
        signals := signals.(addr := addr);
      } else if current_ops_ts == 2 {
        signals := signals.(mem := Bus.Read);
      } else if current_ops_ts == 3 {
        fetched := ReadOperand(fetched, signals.data);
        signals := signals.(mem := Bus.None);
        return Ok(true);
      } else {
        return Panics;
      }
      return Ok(false);
    }

    /** `mr_addr_r(addr, r)`: one T-state of a memory read into register r. */
    method MrAddrR(addr: u16, r: u8) returns (done: Checked<bool>)
      modifies this`current_ops_ts, this`regs, this`signals
      ensures MrAddrRStep(addr, r, old(Snap()), done, Snap())
    {
      if current_ops_ts == 0xFF {
        return Panics;
      }
      current_ops_ts := current_ops_ts + 1;
      if current_ops_ts == 1 {
        signals := signals.(addr := addr);
      } else if current_ops_ts == 2 {
        signals := signals.(mem := Bus.Read);
      } else if current_ops_ts == 3 {
        var rs := regs.SetR(r, signals.data);
        if rs.Panics? {
          return Panics;
        }
        regs := rs.value;
        signals := signals.(mem := Bus.None);
        return Ok(true);
      } else {
        return Panics;
      }
      return Ok(false);
    }

    /** `pr_r(addr, r, flags)`: one T-state of a port read. */
    method PrR(addr: u16, r: Option<u8>, flags: bool) returns (done: Checked<bool>)
      modifies this`current_ops_ts, this`regs, this`signals, this`fetched
      ensures PrRStep(addr, r, flags, old(Snap()), done, Snap())
    {
      if current_ops_ts == 0xFF {
        return Panics;
      }
      current_ops_ts := current_ops_ts + 1;
      if current_ops_ts == 1 {
        signals := signals.(addr := addr);
      } else if current_ops_ts == 2 {
        signals := signals.(port := Bus.Read);
      } else if current_ops_ts == 3 {
        match r {
          case Some(reg) =>
            var rs := regs.SetR(reg, signals.data);
            if rs.Panics? {
              return Panics;
            }
            regs := rs.value;
          case None =>
            fetched := fetched.(n := Some(signals.data));
        }
        signals := signals.(port := Bus.None);
        if flags {
          var fl := regs.f;
          fl := fl.(n := false);
          fl := fl.(h := false);
          fl := fl.(p := Parity(signals.data));
          fl := fl.(z := signals.data == 0);
          fl := fl.(s := signals.data >= 0x80);
          regs := regs.(f := fl);
        }
        return Ok(true);
      } else {
        return Panics;
      }
      return Ok(false);
    }

    /** `mw_8(addr, data)`: one T-state of a memory write. */
    method Mw8(addr: u16, data: u8) returns (done: Checked<bool>)
      modifies this`current_ops_ts, this`signals
      ensures WriteStep(addr, data, false, old(Snap()), done, Snap())
    {
      if current_ops_ts == 0xFF {
        return Panics;
      }
      current_ops_ts := current_ops_ts + 1;
      if current_ops_ts == 1 {
        signals := signals.(addr := addr, data := data);
      } else if current_ops_ts == 2 {
        signals := signals.(mem := Bus.Write);
      } else if current_ops_ts == 3 {
        signals := signals.(mem := Bus.None);
        return Ok(true);
      } else {
        return Panics;
      }
      return Ok(false);
    }

    /** `pw_8(addr, data)`: one T-state of a port write. */
    method Pw8(addr: u16, data: u8) returns (done: Checked<bool>)
      modifies this`current_ops_ts, this`signals
      ensures WriteStep(addr, data, true, old(Snap()), done, Snap())
    {
      if current_ops_ts == 0xFF {
        return Panics;
      }
      current_ops_ts := current_ops_ts + 1;
      if current_ops_ts == 1 {
        signals := signals.(addr := addr, data := data);
      } else if current_ops_ts == 2 {
        signals := signals.(port := Bus.Write);
      } else if current_ops_ts == 3 {
        signals := signals.(port := Bus.None);
        return Ok(true);
      } else {
        return Panics;
      }
      return Ok(false);
    }

    /** `mw_16(addr, word)`: one T-state of a 16-bit memory write. */
    method Mw16(addr: u16, word: u16) returns (done: Checked<bool>)
      modifies this`current_ops_ts, this`signals
      ensures Mw16Step(addr, word, old(Snap()), done, Snap())
    {
      if current_ops_ts == 0xFF {
        return Panics;
      }
      current_ops_ts := current_ops_ts + 1;
      if current_ops_ts == 1 {
        signals := signals.(addr := addr, data := Lo(word));
      } else if current_ops_ts == 2 {
        signals := signals.(mem := Bus.Write);
      } else if current_ops_ts == 3 {
        signals := signals.(mem := Bus.None);
      } else if current_ops_ts == 4 {
        if addr == 0xFFFF {
          return Panics;
        }
        signals := signals.(addr := addr + 1, data := Hi(word));
      } else if current_ops_ts == 5 {
        signals := signals.(mem := Bus.Write);
      } else if current_ops_ts == 6 {
        signals := signals.(mem := Bus.None);
        return Ok(true);
      } else {
        return Panics;
      }
      return Ok(false);
    }

    /** `delay(d)`: one T-state of a delay. */
    method Delay(d: u8) returns (done: Checked<bool>)
      modifies this`current_ops_ts
      ensures DelayStep(d, old(Snap()), done, Snap())
    {
      if current_ops_ts == 0xFF {
        return Panics;
      }
      current_ops_ts := current_ops_ts + 1;
      return Ok(current_ops_ts == d);
    }

    /** `int01()`: accepting a mode 0/1 interrupt. */
    method Int01() returns (done: Checked<bool>)
      modifies this`regs, this`scheduler
      ensures Int01Step(old(Snap()), done, Snap())
    {
      regs := regs.(iff1 := false);
      regs := regs.(sp := Wrap16(regs.sp as int - 2));
      scheduler := scheduler + [Operation.Delay(1)];
      scheduler := scheduler + [Operation.Mw16(regs.sp, regs.pc)];
      regs := regs.(pc := 0x0038);
      return Ok(true);
    }

    /** `halt()`. */
    method Halt() returns (st: Status)
      modifies this`halt, this`regs
      ensures HaltStep(old(Snap()), st, Snap())
    {
      halt := true;
      if regs.pc == 0 {
        return Panicked;
      }
      regs := regs.(pc := regs.pc - 1);
      return Done;
    }

    /** `ld_r_n(y)`. */
    method LdRN(y: u8) returns (st: Status)
      modifies this`regs, this`scheduler
      ensures QueueOk(old(scheduler)) ==> QueueOk(scheduler)
      ensures LdRNStep(y, old(Snap()), st, Snap())
    {
      match fetched.n {
        case Some(v) =>
          var rs := regs.SetR(y, v);
          if rs.Panics? {
            return Panicked;
          }
          regs := rs.value;
        case None =>
          scheduler := scheduler + [Operation.MrPcN];
      }
      return Done;
    }

    /** `ld_rr_mm(p)`. */
    method LdRrMm(p: u8) returns (st: Status)
      modifies this`regs, this`scheduler
      ensures QueueOk(old(scheduler)) ==> QueueOk(scheduler)
      ensures LdRrMmStep(p, old(Snap()), st, Snap())
    {
      match fetched.nn {
        case Some(v) =>
          var rs := regs.SetRR(p, v);
          if rs.Panics? {
            return Panicked;
          }
          regs := rs.value;
        case None =>
          scheduler := scheduler + [Operation.MrPcN];
          scheduler := scheduler + [Operation.MrPcN];
      }
      return Done;
    }

    /** `x0_z0_ops(y)`: NOP, `EX AF,AF'`, DJNZ and the relative jumps. */
    method X0Z0(y: u8) returns (st: Status)
      modifies this`regs, this`scheduler, this`fetched
      ensures fetched == old(fetched).(op_code := fetched.op_code)
      ensures QueueOk(old(scheduler)) ==> QueueOk(scheduler)
      ensures X0Z0Step(y, old(Snap()), st, Snap())
    {
      if y == 0 {
      } else if y == 1 {
        regs := regs.ExAfAf();
      } else if y < 8 {
        match fetched.n {
          case None =>
            scheduler := scheduler + [Operation.MrPcN];
          case Some(d) =>
            RelativeJump(y, d);
        }
      } else {
        return Panicked;
      }
      return Done;
    }

    /**
     * The arms of `x0_z0_ops` with the displacement `d` read: DJNZ, JR and
     * `JR cc`.
     */
    method RelativeJump(y: u8, d: u8)
      requires 2 <= y < 8 && fetched.n == Some(d)
      modifies this`regs, this`scheduler, this`fetched
      ensures fetched == old(fetched).(op_code := None)
      ensures QueueOk(old(scheduler)) ==> QueueOk(scheduler)
      ensures X0Z0Step(y, old(Snap()), Done, Snap())
    {
      var jump := true;
      if y == 2 {
        regs := regs.(b := Wrap8(regs.b as int - 1));
        jump := regs.b != 0;
        scheduler := scheduler + [Operation.Delay(1)];
      } else if y == 3 {
      } else if y == 4 {
        jump := regs.f.z == false;
      } else if y == 5 {
        jump := regs.f.z == true;
      } else if y == 6 {
        jump := regs.f.c == false;
      } else {
        jump := regs.f.c == true;
      }
      if jump {
        regs := regs.(pc := Displace(regs.pc, d));
        scheduler := scheduler + [Operation.Delay(5)];
      }
      fetched := fetched.(op_code := None);
    }

    /** `x0_z1_ops(q, p)`: `LD rr,nn` and `ADD HL,rr`. */
    method X0Z1(q: u8, p: u8) returns (st: Status)
      modifies this`regs, this`scheduler, this`fetched
      ensures fetched == old(fetched).(op_code := fetched.op_code)
      ensures QueueOk(old(scheduler)) ==> QueueOk(scheduler)
      ensures X0Z1Step(q, p, old(Snap()), st, Snap())
    {
      if q == 0 {
        st := LdRrMm(p);
      } else if q == 1 {
        var rs := AddHlRr(regs, p);
        if rs.Panics? {
          return Panicked;
        }
        regs := rs.value;
        fetched := fetched.(op_code := None);
        scheduler := scheduler + [Operation.Delay(7)];
        st := Done;
      } else {
        st := Panicked;
      }
    }

    /** `x0_z2_ops(q, p)`: the indirect loads. */
    method X0Z2(q: u8, p: u8) returns (st: Status)
      modifies this`regs, this`scheduler, this`fetched
      ensures fetched == old(fetched).(op_code := fetched.op_code)
      ensures QueueOk(old(scheduler)) ==> QueueOk(scheduler)
      ensures X0Z2Step(q, p, old(Snap()), st, Snap())
    {
      if q == 0 {
        if p == 0 || p == 1 {
          fetched := fetched.(op_code := None);
          scheduler := scheduler + [Operation.Mw8(regs.GetRR(p).value, regs.a)];
        } else if p == 2 {
          match fetched.nn {
            case None =>
              scheduler := scheduler + [Operation.MrPcN];
              scheduler := scheduler + [Operation.MrPcN];
            case Some(nn) =>
              fetched := fetched.(op_code := None);
              scheduler := scheduler + [Operation.Mw16(nn, regs.GetRR(p).value)];
          }
        } else if p == 3 {
          match fetched.nn {
            case None =>
              scheduler := scheduler + [Operation.MrPcN];
              scheduler := scheduler + [Operation.MrPcN];
            case Some(nn) =>
              fetched := fetched.(op_code := None);
              scheduler := scheduler + [Operation.Mw8(nn, regs.a)];
          }
        } else {
          return Panicked;
        }
      } else if q == 1 {
        if p == 0 || p == 1 {
          match fetched.n {
            case None =>
              scheduler := scheduler + [Operation.MrAddrN(regs.GetRR(p).value)];
            case Some(n) =>
              regs := regs.(a := n);
          }
        } else if p == 2 {
          match fetched.nn {
            case None =>
              scheduler := scheduler + [Operation.MrPcN];
              scheduler := scheduler + [Operation.MrPcN];
            case Some(nn) =>
              fetched := fetched.(op_code := None);
              scheduler := scheduler + [Operation.MrAddrR(nn, 5)];
              if nn == 0xFFFF {
                return Panicked;
              }
              scheduler := scheduler + [Operation.MrAddrR(nn + 1, 4)];
          }
        } else if p == 3 {
          match fetched.nn {
            case None =>
              scheduler := scheduler + [Operation.MrPcN];
              scheduler := scheduler + [Operation.MrPcN];
            case Some(nn) =>
              fetched := fetched.(op_code := None);
              scheduler := scheduler + [Operation.MrAddrR(nn, 7)];
          }
        } else {
          return Panicked;
        }
      } else {
        return Panicked;
      }
      return Done;
    }

    /** `x0_z3_ops(q, p)`: `INC rr` and `DEC rr`. */
    method X0Z3(q: u8, p: u8) returns (st: Status)
      modifies this`regs, this`scheduler, this`fetched
      ensures fetched == old(fetched).(op_code := fetched.op_code)
      ensures QueueOk(old(scheduler)) ==> QueueOk(scheduler)
      ensures X0Z3Step(q, p, old(Snap()), st, Snap())
    {
      var rs: Checked<Registers>;
      if q == 0 {
        rs := IncRr(regs, p);
      } else if q == 1 {
        rs := DecRr(regs, p);
      } else {
        return Panicked;
      }
      if rs.Panics? {
        return Panicked;
      }
      regs := rs.value;
      fetched := fetched.(op_code := None);
      scheduler := scheduler + [Operation.Delay(2)];
      return Done;
    }

    /** `x0_z7_ops(y)`: the accumulator rotations. */
    method X0Z7(y: u8) returns (st: Status)
      modifies this`regs
      ensures X0Z7Step(y, old(Snap()), st, Snap())
    {
      if y == 0 {
        regs := Rlca(regs);
      } else if y == 1 {
        regs := Rrca(regs);
      } else if y == 2 {
        regs := Rla(regs);
      } else if y == 3 {
        regs := Rra(regs);
      } else if y < 8 {
        return NotModelled;
      } else {
        return Panicked;
      }
      return Done;
    }

    /** `x0_ops(z, y, q, p)`: the x = 0 quarter of the opcode table. */
    method X0Ops(z: u8, y: u8, q: u8, p: u8) returns (st: Status)
      modifies this`regs, this`scheduler, this`fetched
      ensures fetched == old(fetched).(op_code := fetched.op_code)
      ensures QueueOk(old(scheduler)) ==> QueueOk(scheduler)
      ensures X0OpsStep(z, y, q, p, old(Snap()), st, Snap())
    {
      if z == 0 {
        st := X0Z0(y);
      } else if z == 1 {
        st := X0Z1(q, p);
      } else if z == 2 {
        st := X0Z2(q, p);
      } else if z == 3 {
        st := X0Z3(q, p);
      } else if z == 4 || z == 5 {
        var rs: Checked<Registers>;
        if z == 4 {
          rs := IncR(regs, y);
        } else {
          rs := DecR(regs, y);
        }
        if rs.Panics? {
          return Panicked;
        }
        regs := rs.value;
        st := Done;
      } else if z == 6 {
        st := LdRN(y);
      } else if z == 7 {
        st := X0Z7(y);
      } else {
        st := Panicked;
      }
    }

    /** `x1_ops(y, z)`: `HALT`, and `LD r,r'` through `ld_r_r` as the source has it. */
    method X1Ops(y: u8, z: u8) returns (st: Status)
      modifies this`regs, this`halt
      ensures X1OpsStep(y, z, old(Snap()), st, Snap())
    {
      if y == 6 && z == 6 {
        st := Halt();
      } else {
        var rs := LdRRAsWritten(regs, y, z);
        if rs.Panics? {
          return Panicked;
        }
        regs := rs.value;
        st := Done;
      }
    }

    /** `x3_z1_ops(q, p)`: `EXX`, `JP (HL)` and `LD SP,HL`. */
    method X3Z1(q: u8, p: u8) returns (st: Status)
      modifies this`regs, this`scheduler, this`fetched
      ensures fetched == old(fetched).(op_code := fetched.op_code)
      ensures QueueOk(old(scheduler)) ==> QueueOk(scheduler)
      ensures X3Z1Step(q, p, old(Snap()), st, Snap())
    {
      if q == 0 {
        return NotModelled;
      } else if q == 1 && p == 0 {
        return NotModelled;
      } else if q == 1 && p == 1 {
        regs := regs.Exx();
      } else if q == 1 && p == 2 {
        regs := regs.(pc := regs.GetRR(2).value);
      } else if q == 1 && p == 3 {
        fetched := fetched.(op_code := None);
        scheduler := scheduler + [Operation.Delay(2)];
        regs := regs.(sp := regs.GetRR(2).value);
      } else {
        return Panicked;
      }
      return Done;
    }

    /** `x3_z3_ops(y)`: the CB prefix, `EX DE,HL`, DI and EI. */
    method X3Z3(y: u8) returns (st: Status)
      modifies this`regs, this`scheduler
      ensures QueueOk(old(scheduler)) ==> QueueOk(scheduler)
      ensures X3Z3Step(y, old(Snap()), st, Snap())
    {
      if y == 1 {
        scheduler := scheduler + [Operation.Fetch];
      } else if y == 5 {
        var hl := regs.GetRR(2).value;
        regs := regs.SetRR(2, regs.GetRR(1).value).value;
        regs := regs.SetRR(1, hl).value;
      } else if y == 6 {
        regs := regs.(iff1 := false);
        regs := regs.(iff2 := false);
      } else if y == 7 {
        regs := regs.(iff1 := true);
        regs := regs.(iff2 := true);
      } else if y < 8 {
        return NotModelled;
      } else {
        return Panicked;
      }
      return Done;
    }

    /** `x3_z5_ops(q, p)`: the DD, ED and FD prefixes. */
    method X3Z5(q: u8, p: u8) returns (st: Status)
      modifies this`scheduler
      ensures QueueOk(old(scheduler)) ==> QueueOk(scheduler)
      ensures X3Z5Step(q, p, old(Snap()), st, Snap())
    {
      if q == 0 || (q == 1 && p == 0) {
        return NotModelled;
      } else if q == 1 && 1 <= p <= 3 {
        scheduler := scheduler + [Operation.Fetch];
        return Done;
      }
      return Panicked;
    }

    /** `x3_ops(z, y, q, p)`: the x = 3 quarter of the opcode table. */
    method X3Ops(z: u8, y: u8, q: u8, p: u8) returns (st: Status)
      modifies this`regs, this`scheduler, this`fetched
      ensures fetched == old(fetched).(op_code := fetched.op_code)
      ensures QueueOk(old(scheduler)) ==> QueueOk(scheduler)
      ensures X3OpsStep(z, y, q, p, old(Snap()), st, Snap())
    {
      if z == 1 {
        st := X3Z1(q, p);
      } else if z == 3 {
        st := X3Z3(y);
      } else if z == 5 {
        st := X3Z5(q, p);
      } else if z < 8 {
        st := NotModelled;
      } else {
        st := Panicked;
      }
    }

    /** The dispatch of `decode_and_run` on the prefix and the x field. */
    method Dispatch(prefix: u16, fs: OpFields) returns (st: Status)
      modifies this`regs, this`scheduler, this`fetched, this`halt
      ensures fetched == old(fetched).(op_code := fetched.op_code)
      ensures QueueOk(old(scheduler)) ==> QueueOk(scheduler)
      ensures DispatchStep(prefix, fs, old(Snap()), st, Snap())
    {
      if prefix == 0xCB || prefix == 0xDDCB || prefix == 0xFDCB {
        return NotModelled;
      } else if prefix == 0 || prefix == 0xDD || prefix == 0xFD {
        if fs.x == 0 {
          st := X0Ops(fs.z, fs.y, fs.q, fs.p);
        } else if fs.x == 1 {
          st := X1Ops(fs.y, fs.z);
        } else if fs.x == 2 {
          st := NotModelled;
        } else if fs.x == 3 {
          st := X3Ops(fs.z, fs.y, fs.q, fs.p);
        } else {
          st := Panicked;
        }
      } else if prefix == 0xED {
        return NotModelled;
      } else {
        return Panicked;
      }
    }

    /** The prefix stage of `decode_and_run()`. */
    method PrefixStage() returns (fetchDone: bool)
      modifies this`regs, this`scheduler, this`fetched
      ensures fetchDone == PrefixResult(old(Snap())).0
      ensures Snap() == PrefixResult(old(Snap())).1
    {
      var f := fetched;
      fetchDone := false;
      if f.prefix == 0 && f.n.None? && (f.op_code == Some(0xCB) || f.op_code == Some(0xED)) {
        scheduler := scheduler + [Operation.Fetch];
      } else if f.prefix == 0 && f.n.None? && f.op_code == Some(0xDD) {
        scheduler := scheduler + [Operation.Fetch];
        regs := regs.(index_mode := Ix);
      } else if f.prefix == 0 && f.n.None? && f.op_code == Some(0xFD) {
        scheduler := scheduler + [Operation.Fetch];
        regs := regs.(index_mode := Iy);
      } else if (f.prefix == 0xDD || f.prefix == 0xFD) && f.n.None? && f.op_code == Some(0xCB) {
        scheduler := scheduler + [Operation.MrPcD];
        scheduler := scheduler + [Operation.Delay(2)];
        scheduler := scheduler + [Operation.MrPcN];
      } else if (f.prefix == 0xDD || f.prefix == 0xFD) && f.n.None? && (f.op_code == Some(0xDD) || f.op_code == Some(0xFD)) {
        fetched := fetched.(prefix := f.op_code.value as u16);
      } else if (f.prefix == 0xDD || f.prefix == 0xFD) && f.n.Some? && f.op_code == Some(0xCB) {
        fetched := fetched.(prefix := Pack(Lo(f.prefix), 0xCB));
        fetched := fetched.(op_code := f.n);
        fetched := fetched.(n := None);
        fetchDone := true;
      } else {
        fetchDone := true;
      }
    }

    /** The decode stage of `decode_and_run()`. */
    method DecodeStage() returns (st: Status)
      modifies this`regs, this`scheduler, this`fetched, this`halt
      ensures QueueOk(old(scheduler)) ==> QueueOk(scheduler)
      ensures DecodeStep(old(Snap()), st, Snap())
    {
      match fetched.op_code {
        case None =>
          return Done;
        case Some(op) =>
          var fs := Decode(op);
          st := Dispatch(fetched.prefix, fs);
          if st != Done {
            return;
          }
          if fetched.decode_step == 0xFF {
            return Panicked;
          }
          fetched := fetched.(decode_step := fetched.decode_step + 1);
      }
    }

    /** `decode_and_run()`. */
    method DecodeAndRun() returns (st: Status)
      modifies this`regs, this`scheduler, this`fetched, this`halt
      ensures QueueOk(old(scheduler)) ==> QueueOk(scheduler)
      ensures DecodeAndRunStep(old(Snap()), st, Snap())
    {
      var fetchDone := PrefixStage();
      if !fetchDone {
        return Done;
      }
      st := DecodeStage();
    }

    /** The selection step of `tick()`. */
    method Select() returns (st: Status)
      requires Valid()
      modifies this`current_ops, this`scheduler, this`fetched, this`regs
      ensures st != Panicked ==> Valid() && current_ops.Some?
      ensures SelectStep(old(Snap()), st, Snap())
    {
      if current_ops.Some? {
        return Done;
      }
      if scheduler == [] {
        fetched := NoFetch;
        regs := regs.(index_mode := Hl);
        if signals.interrupt && regs.iff1 {
          if regs.im < 2 {
            current_ops := Some(Operation.Int01);
          } else if regs.im == 2 {
            current_ops := Some(Operation.Int02);
          } else {
            return Panicked;
          }
        } else {
          current_ops := Some(Operation.Fetch);
        }
      } else {
        current_ops := Some(scheduler[0]);
        scheduler := scheduler[1..];
      }
      return Done;
    }

    /** The wake-up at the head of `tick()`. */
    method Wake() returns (st: Status)
      modifies this`halt, this`regs
      ensures WakeStep(old(Snap()), st, Snap())
    {
      if halt && signals.interrupt {
        halt := false;
        if regs.pc == 0xFFFF {
          return Panicked;
        }
        regs := regs.(pc := regs.pc + 1);
      }
      return Done;
    }

    /** One T-state of micro-operation `op`, by its kind. */
    method RunOp(op: Operation) returns (done: Checked<bool>)
      modifies this`current_ops_ts, this`scheduler, this`fetched, this`regs, this`signals
      ensures MicroStep(op, old(Snap()), done, Snap())
    {
      match op {
        case Fetch => done := Fetch();
        case MrPcN => done := Mr();
        case MrPcD => done := MrD();
        case Mw8(addr, data) => done := Mw8(addr, data);
        case Mw16(addr, word) => done := Mw16(addr, word);
        case MrAddrN(addr) => done := MrAddrN(addr);
        case MrAddrR(addr, reg) => done := MrAddrR(addr, reg);
        case Delay(d) => done := Delay(d);
        case Pw8(addr, data) => done := Pw8(addr, data);
        case PrR(addr, target, flags) => done := PrR(addr, target, flags);
        case Int01 => done := Int01();
        case Int02 => done := Panics;
      }
    }

    /**
     * The run step of `tick()`. An empty slot (`todo!`) and `int02`
     * (`todo!`) panic; `ran` is the state right after the micro-operation's
     * T-state.
     */
    method RunCurrent() returns (st: Status, ghost ran: CpuState)
      requires Valid()
      modifies this`current_ops, this`current_ops_ts, this`scheduler, this`fetched, this`regs, this`signals, this`halt
      ensures st != Panicked ==> Valid()
      ensures old(current_ops).None? || old(current_ops) == Some(Operation.Int02) ==> st == Panicked
      ensures RunStep(old(Snap()), st, ran, Snap())
    {
      ran := Snap();
      if current_ops.None? {
        return Panicked, ran;
      }
      ghost var s := Snap();
      var op := current_ops.value;
      var done := RunOp(op);
      ran := Snap();
      if done.Panics? {
        return Panicked, ran;
      }
      MicroStepCounts(op, s, done, ran);
      st := Done;
      if done.value {
        current_ops := None;
        current_ops_ts := 0;
        if scheduler == [] {
          st := DecodeAndRun();
        }
      }
    }

    /**
     * `tick()`, one T-state of the CPU. A CPU held by WAIT, and a halted CPU
     * without an interrupt, do nothing. Otherwise the CPU wakes (`woken`),
     * selects a micro-operation (`selected`) and runs it for one T-state
     * (`ran`, then the final state). A step that does not panic keeps the
     * CPU's invariant.
     */
    method Tick() returns (st: Status, ghost woken: CpuState, ghost selected: CpuState, ghost ran: CpuState)
      requires Valid()
      modifies this`current_ops, this`current_ops_ts, this`scheduler, this`fetched, this`regs, this`signals, this`halt
      ensures st != Panicked ==> Valid()
      ensures old(wait) || (old(halt) && !old(signals.interrupt)) ==> st == Done && unchanged(this)
      ensures !old(wait) && old(halt) && old(signals.interrupt) && old(regs.pc) == 0xFFFF ==> st == Panicked
      ensures !old(wait) && old(halt) && old(signals.interrupt) && st != Panicked ==>
        !woken.halt && woken.regs == old(regs).(pc := woken.regs.pc) && woken.regs.pc as int == old(regs.pc) as int + 1
      ensures TickStep(old(Snap()), st, woken, selected, ran, Snap())
    {
      woken, selected, ran := Snap(), Snap(), Snap();
      if wait || (halt && !signals.interrupt) {
        return Done, woken, selected, ran;
      }
      st := Wake();
      woken := Snap();
      if st == Panicked {
        return;
      }
      st := Select();
      selected := Snap();
      if st == Panicked {
        return;
      }
      st, ran := RunCurrent();
    }
  }
}
