/**
 * The ZX Spectrum 48K machine: 64 KB of memory in four 16 KB banks, the
 * first of which is ROM, the bus step that serves the CPU's and the ULA's
 * requests, the tape loader that the ROM's LD-BYTES routine is trapped into,
 * and the state of the tape.
 */
module Spectrum {
  import opened Base
  import Bus
  import opened Z80Registers
  import Z80Cpu
  import Ula
  import Tape

  /** Where the tape stands: none chosen, a file dialog open, or a tape ready to load from. */
  datatype TapState = Empty | Loading | Ready

  /**
   * `MachineMessage`, what the user interface sends the machine. The file a
   * `TapLoad` names is given here by its bytes and its name.
   */
  datatype MachineMessage =
    | CPUWait
    | CPUResume
    | CPUSetRegisters(regs: Registers)
    | Reset
    | TapLoad(file: seq<u8>, name: string)

  /** The size of a memory bank; the ROM is bank 0. */
  const BankSize: nat := 0x4000

  /** The address of the ROM's LD-BYTES routine, where loading from tape is trapped. */
  const LoadTrap: u16 := 0x056B

  /** Where LD-BYTES returns to its caller, which the loader jumps to when done. */
  const LoadReturn: u16 := 0x05E2

  /** `addr >> 14`: the bank an address falls in. */
  function Bank(addr: u16): (b: nat)
    ensures b < 4
  {
    addr as nat / BankSize
  }

  /** `addr & 0x3FFF`: the address within its bank. */
  function Offset(addr: u16): (o: nat)
    ensures o < BankSize
  {
    addr as nat % BankSize
  }

  /** Every address has its own bank and offset, so the four banks hold the 64 KB exactly once. */
  lemma BankOffsetInjective(a1: u16, a2: u16)
    ensures (Bank(a1) == Bank(a2) && Offset(a1) == Offset(a2)) <==> a1 == a2
  {
    assert a1 as nat == Bank(a1) * BankSize + Offset(a1);
    assert a2 as nat == Bank(a2) * BankSize + Offset(a2);
  }

  /** Only the ROM bank ignores writes. */
  lemma RomBank(addr: u16)
    ensures Bank(addr) == 0 <==> addr < 0x4000
  {
  }

  /** The byte at address `a` after the memory request of `s` is served, when it held `v` before. */
  function Store(s: Bus.Signals, a: u16, v: u8): u8
  {
    if s.mem == Bus.SignalReq.Write && s.addr == a && a >= 0x4000 then s.data else v
  }

  /**
   * The port decoder of a CPU `IN`: address lines 5 to 7 all low (the low
   * byte below 0x20) select the Kempston joystick, which reads 0; otherwise
   * an even address selects the ULA; anything else reads 0xFF.
   */
  function PortRead(addr: u16, ulaByte: u8): (v: u8)
    ensures addr % 0x100 < 0x20 ==> v == 0
    ensures addr % 0x100 >= 0x20 && addr % 2 == 0 ==> v == ulaByte
    ensures addr % 0x100 >= 0x20 && addr % 2 == 1 ==> v == 0xFF
  {
    if addr % 0x100 < 0x20 then 0 else if addr % 2 == 0 then ulaByte else 0xFF
  }

  /** A request's signals after its memory read, if any, has loaded `byte` from memory. */
  function MemServed(s: Bus.Signals, byte: u8): Bus.Signals
  {
    if s.mem == Bus.SignalReq.Read then s.(data := byte) else s
  }

  /** The CPU's signals after its port read, if any, has been decoded; `ulaByte` is what the ULA would answer. */
  function PortServed(s: Bus.Signals, ulaByte: u8): Bus.Signals
  {
    if s.port == Bus.SignalReq.Read then s.(data := PortRead(s.addr, ulaByte)) else s
  }

  /**
   * A CPU `OUT` that changes the ULA: the decoder passes only even
   * addresses to the ULA, which acts only on port 0xFE (low byte).
   */
  predicate BorderWrite(s: Bus.Signals)
  {
    s.port == Bus.SignalReq.Write && s.addr % 2 == 0 && Lo(s.addr) == 0xFE
  }

  /**
   * The byte the tape loader leaves at address `a` once it has copied the
   * first `n` bytes after the flag of `block` to `ix`, `ix + 1`, ... (wrapping
   * at 64 KB), when `a` held `v` before. ROM addresses keep their byte.
   */
  function Loaded(block: seq<u8>, ix: u16, n: nat, a: u16, v: u8): u8
    requires n < |block| && n <= 0x1_0000
  {
    var k := (a as int - ix as int) % 0x1_0000;
    if a >= 0x4000 && k < n then block[k + 1] else v
  }

  /** Copying one more byte changes only the address it goes to. */
  lemma LoadedStep(block: seq<u8>, ix: u16, n: nat, a: u16, v: u8)
    requires n + 1 < |block| && n < 0x1_0000
    ensures Loaded(block, ix, n + 1, a, v) ==
      if a == Wrap16(ix as int + n) && a >= 0x4000 then block[n + 1] else Loaded(block, ix, n, a, v)
  {
    var k := (a as int - ix as int) % 0x1_0000;
    if a == Wrap16(ix as int + n) {
      assert k == n;
    } else {
      assert k != n;
    }
  }

  /** Nothing is loaded before the first byte. */
  lemma LoadedNone(block: seq<u8>, ix: u16, a: u16, v: u8)
    requires 0 < |block|
    ensures Loaded(block, ix, 0, a, v) == v
  {
  }

  /**
   * Every byte of a block that fits between `ix` and the end of memory, with
   * `ix` past the ROM, lands at its address: byte `i + 1` of the block at
   * `ix + i`.
   */
  lemma LoadedInPlace(block: seq<u8>, ix: u16, n: nat, i: nat)
    requires n < |block| && i < n && ix >= 0x4000 && ix as int + n <= 0x1_0000
    ensures Loaded(block, ix, n, (ix as int + i) as u16, 0) == block[i + 1]
  {
  }

  /** The loader copies the block into memory: it is the expected block (A' is its flag) and F' has carry set, the ROM's "load, not verify". */
  predicate CopiesBlock(regs: Registers, block: seq<u8>)
  {
    |block| > 0 && regs.a_ == block[0] && regs.f_.c
  }

  /**
   * The registers `load_tap_block` leaves when handed `block`: no block
   * changes nothing; otherwise carry is set when A' matches the flag byte
   * (success) and cleared when it does not, and PC returns to the caller of
   * LD-BYTES. When the block is copied, reading byte DE + 1 of the block (to
   * print the checksum) panics unless the block is longer than DE + 1.
   */
  function LoadOutcome(regs: Registers, block: seq<u8>): (r: Checked<Registers>)
    ensures r.Panics? <==> CopiesBlock(regs, block) && regs.GetPair(DE) as nat + 1 >= |block|
    ensures |block| == 0 ==> r == Ok(regs)
    ensures |block| > 0 && r.Ok? ==>
      && r.value.pc == LoadReturn
      && r.value.f.c == (regs.a_ == block[0])
      && r.value == regs.(pc := r.value.pc, f := r.value.f)
      && r.value.f == regs.f.(c := r.value.f.c)
  {
    if |block| == 0 then Ok(regs)
    else if regs.a_ == block[0] then
      if regs.f_.c && regs.GetPair(DE) as nat + 1 >= |block| then Panics
      else Ok(regs.(f := regs.f.(c := true), pc := LoadReturn))
    else Ok(regs.(f := regs.f.(c := false), pc := LoadReturn))
  }

  class Zx48k {
    /** `[[u8; 0x4000]; 4]`: bank, then offset. */
    var memory: array2<u8>
    var cpu: Z80Cpu.CPU
    var ula: Ula.ULA
    var tap: Option<Tape.Tap>
    var tap_state: TapState

    /** Four banks of 16 KB, eight keyboard half-rows, and a tape cursor within its tape. */
    ghost predicate Valid()
      reads this, ula, if tap.Some? then {tap.value} else {}
    {
      && memory.Length0 == 4 && memory.Length1 == BankSize
      && ula.keyboard_row.Length == 8
      && (tap.Some? ==> tap.value.Valid())
    }

    /**
     * `Zx48k::new`: the ROM image in bank 0, the other banks cleared, a
     * powered-on CPU and ULA, and no tape. Reading the ROM file is outside
     * the model, so the image is a parameter.
     */
    constructor (rom: seq<u8>)
      requires |rom| == BankSize
      ensures Valid() && fresh(memory) && fresh(cpu) && fresh(ula) && fresh(ula.keyboard_row)
      ensures forall a: u16 :: MemRead(a) == if a < 0x4000 then rom[a] else 0
      ensures cpu.Valid() && ula.Valid() && tap == None && tap_state == Empty
    {
      memory := new u8[4, BankSize]((b, o) requires 0 <= o < BankSize => if b == 0 then rom[o] else 0);
      cpu := new Z80Cpu.CPU();
      ula := new Ula.ULA();
      tap := None;
      tap_state := Empty;
    }

    /**
     * `mem_read`: the byte at `addr`, found in its bank at its offset: the
     * 64 KB address space is the four 16 KB banks one after the other, the
     * ROM (bank 0) first.
     */
    function MemRead(addr: u16): (v: u8)
      reads this`memory, memory
      requires memory.Length0 == 4 && memory.Length1 == BankSize
      ensures 0 <= addr as int - Bank(addr) * 0x4000 < 0x4000
      ensures v == memory[Bank(addr), addr as int - Bank(addr) * 0x4000]
      ensures addr < 0x4000 ==> v == memory[0, addr]
    {
      memory[Bank(addr), Offset(addr)]
    }

    /**
     * `mem_write`: a write to the ROM bank is dropped; any other write
     * changes exactly the byte at `addr`.
     */
    method MemWrite(addr: u16, data: u8)
      requires memory.Length0 == 4 && memory.Length1 == BankSize
      modifies memory
      ensures addr >= 0x4000 ==> MemRead(addr) == data
      ensures forall a: u16 :: a != addr || a < 0x4000 ==> MemRead(a) == old(MemRead(a))
    {
      var bank := Bank(addr);
      var offset := Offset(addr);
      if bank != 0 {
        memory[bank, offset] := data;
        forall a: u16
          ensures a != addr ==> MemRead(a) == old(MemRead(a))
        {
          BankOffsetInjective(a, addr);
        }
      }
    }

    /**
     * The bytes `load_tap_block` gets from the tape: those of the block
     * under the cursor, nothing when there is no tape or no block left, and
     * a panic when the block runs past the end of the file.
     */
    function PendingBlock(): (r: Checked<seq<u8>>)
      reads this, if tap.Some? then {tap.value} else {}
      ensures tap.None? ==> r == Ok([])
      ensures tap.Some? && tap.value.actual_block >= |tap.value.blocks| ==> r == Ok([])
      ensures tap.Some? && tap.value.actual_block < |tap.value.blocks| ==>
        r == Tape.Payload(tap.value.data, tap.value.blocks[tap.value.actual_block])
    {
      match tap
      case None => Ok([])
      case Some(t) => if t.actual_block >= |t.blocks| then Ok([]) else Tape.Payload(t.data, t.blocks[t.actual_block])
    }

    /** The tape part of `load_tap_block`: `next_block` on the tape, if there is one, with no block read as no bytes. */
    method TakeBlock() returns (r: Checked<seq<u8>>)
      requires tap.Some? ==> tap.value.Valid()
      modifies if tap.Some? then {tap.value} else {}
      ensures r == old(PendingBlock())
      ensures tap.Some? ==> tap.value.blocks == old(tap.value.blocks) && tap.value.data == old(tap.value.data)
      ensures tap.Some? && r.Ok? ==> (tap.value.Valid() && tap.value.actual_block ==
        if old(tap.value.actual_block) < |tap.value.blocks| then old(tap.value.actual_block) + 1 else old(tap.value.actual_block))
    {
      r := Ok([]);
      if tap.Some? {
        var next := tap.value.NextBlock();
        if next.Panics? {
          return Panics;
        }
        if next.value.Some? {
          r := Ok(next.value.value);
        }
      }
    }

    /**
     * The copy loop of `load_tap_block`: byte `i + 1` of the block goes to
     * `start + i` (wrapping) for every `i` below `requested`; a block too
     * short for that panics, and so does the checksum print that reads byte
     * `requested + 1`.
     */
    method CopyBlock(block: seq<u8>, start: u16, requested: nat) returns (panicked: bool)
      requires memory.Length0 == 4 && memory.Length1 == BankSize
      requires 0 < |block| && requested < 0x1_0000
      modifies memory
      ensures panicked <==> requested + 1 >= |block|
      ensures !panicked ==> forall a: u16 :: MemRead(a) == Loaded(block, start, requested, a, old(MemRead(a)))
    {
      var i := 0;
      while i < requested
        invariant i <= requested && i < |block|
        invariant forall a: u16 :: MemRead(a) == Loaded(block, start, i, a, old(MemRead(a)))
      {
        if i + 1 >= |block| {
          return true;
        }
        forall a: u16 {
          LoadedStep(block, start, i, a, old(MemRead(a)));
        }
        MemWrite(Wrap16(start as int + i), block[i + 1]);
        i := i + 1;
      }
      panicked := requested + 1 >= |block|;
    }

    /**
     * `load_tap_block`, run when the ROM enters LD-BYTES with a tape ready:
     * take the next block; if A' matches its flag byte and F' has carry set,
     * copy the DE bytes after the flag to IX, IX + 1, ... through `mem_write`
     * (so the ROM is never written); set carry on a match and clear it
     * otherwise; return to the caller of LD-BYTES. The CPU is held by WAIT
     * meanwhile. No block leaves everything as it was; a panic ends the
     * emulator and the model says nothing of the state it leaves.
     */
    method LoadTapBlock() returns (panicked: bool)
      requires Valid()
      modifies memory, cpu`regs, cpu`wait, if tap.Some? then {tap.value} else {}
      ensures tap == old(tap) && (tap.Some? ==> tap.value.blocks == old(tap.value.blocks) && tap.value.data == old(tap.value.data))
      ensures !panicked ==> Valid()
      ensures tap.Some? && !panicked ==> (tap.value.actual_block ==
        if old(tap.value.actual_block) < |tap.value.blocks| then old(tap.value.actual_block) + 1 else old(tap.value.actual_block))
      ensures panicked <==> old(PendingBlock()).Panics? || LoadOutcome(old(cpu.regs), old(PendingBlock()).value).Panics?
      ensures !panicked ==> cpu.regs == LoadOutcome(old(cpu.regs), old(PendingBlock()).value).value
      ensures !panicked ==> cpu.wait == (if old(PendingBlock()).value == [] then old(cpu.wait) else false)
      ensures !panicked ==> forall a: u16 :: (MemRead(a) ==
        if CopiesBlock(old(cpu.regs), old(PendingBlock()).value)
        then Loaded(old(PendingBlock()).value, old(cpu.regs.GetPair(IX)), old(cpu.regs.GetPair(DE)) as nat, a, old(MemRead(a)))
        else old(MemRead(a)))
    {
      var next := TakeBlock();
      if next.Panics? {
        return true;
      }
      var block := next.value;
      if |block| == 0 {
        return false;
      }
      cpu.wait := true;
      if cpu.regs.a_ == block[0] {
        if cpu.regs.f_.c {
          panicked := CopyBlock(block, cpu.regs.GetPair(IX), cpu.regs.GetPair(DE) as nat);
          if panicked {
            return;
          }
        }
        cpu.regs := cpu.regs.(f := cpu.regs.f.(c := true));
      } else {
        cpu.regs := cpu.regs.(f := cpu.regs.f.(c := false));
      }
      cpu.regs := cpu.regs.(pc := LoadReturn);
      cpu.wait := false;
      panicked := false;
    }

    /**
     * `reset`: the tape is dropped and the tape state returns to Empty. The
     * CPU reset flag the source also sets is not part of the CPU model.
     */
    method Reset()
      modifies this`tap, this`tap_state
      ensures tap == None && tap_state == Empty
    {
      tap := None;
      tap_state := Empty;
    }

    /**
     * `bus_tick`, one T-state of bus traffic. The CPU's memory request is
     * served first, then the ULA's, so the ULA reads what the CPU has just
     * written; then the CPU's port request is decoded; last the ULA's
     * interrupt line is copied to the CPU.
     */
    method BusTick()
      requires Valid()
      modifies memory, cpu`signals, ula`signals, ula`border_colour, ula`buzzer, ula`ear_active
      ensures Valid()
      ensures forall a: u16 :: MemRead(a) == Store(old(ula.signals), a, Store(old(cpu.signals), a, old(MemRead(a))))
      ensures ula.signals ==
        MemServed(old(ula.signals), Store(old(cpu.signals), old(ula.signals.addr), old(MemRead(ula.signals.addr))))
      ensures var c := MemServed(old(cpu.signals), old(MemRead(cpu.signals.addr)));
        cpu.signals == PortServed(c, old(ula.PortByte(cpu.signals.addr))).(interrupt := old(ula.signals.interrupt))
      ensures var c := MemServed(old(cpu.signals), old(MemRead(cpu.signals.addr)));
        if BorderWrite(c) then
          && ula.border_colour == Ula.Palette[c.data as int % 8]
          && ula.buzzer == (if Ula.Bit(Bits(c.data), 4) then 1 else 0)
          && ula.ear_active == (Ula.Bit(Bits(c.data), 3) || Ula.Bit(Bits(c.data), 4))
        else
          ula.border_colour == old(ula.border_colour) && ula.buzzer == old(ula.buzzer) && ula.ear_active == old(ula.ear_active)
    {
      ServeCpuMemory();
      ServeUlaMemory();
      ServeCpuPort();
      cpu.signals := cpu.signals.(interrupt := ula.signals.interrupt);
    }

    /** The CPU's memory request: a read loads the data bus from memory, a write stores it. */
    method ServeCpuMemory()
      requires Valid()
      modifies memory, cpu`signals
      ensures forall a: u16 :: MemRead(a) == Store(old(cpu.signals), a, old(MemRead(a)))
      ensures cpu.signals == MemServed(old(cpu.signals), old(MemRead(cpu.signals.addr)))
    {
      var s := cpu.signals;
      if s.mem == Bus.SignalReq.Read {
        cpu.signals := s.(data := MemRead(s.addr));
      } else if s.mem == Bus.SignalReq.Write {
        MemWrite(s.addr, s.data);
      }
    }

    /** The ULA's memory request, served the same way. */
    method ServeUlaMemory()
      requires Valid()
      modifies memory, ula`signals
      ensures forall a: u16 :: MemRead(a) == Store(old(ula.signals), a, old(MemRead(a)))
      ensures ula.signals == MemServed(old(ula.signals), old(MemRead(ula.signals.addr)))
    {
      var s := ula.signals;
      if s.mem == Bus.SignalReq.Read {
        ula.signals := s.(data := MemRead(s.addr));
      } else if s.mem == Bus.SignalReq.Write {
        MemWrite(s.addr, s.data);
      }
    }

    /** The CPU's port request: reads are decoded by `PortRead`, writes reach the ULA on even addresses only. */
    method ServeCpuPort()
      requires Valid()
      modifies cpu`signals, ula`border_colour, ula`buzzer, ula`ear_active
      ensures cpu.signals == PortServed(old(cpu.signals), old(ula.PortByte(cpu.signals.addr)))
      ensures BorderWrite(old(cpu.signals)) ==>
        && ula.border_colour == Ula.Palette[old(cpu.signals.data) as int % 8]
        && ula.buzzer == (if Ula.Bit(Bits(old(cpu.signals.data)), 4) then 1 else 0)
        && ula.ear_active == (Ula.Bit(Bits(old(cpu.signals.data)), 3) || Ula.Bit(Bits(old(cpu.signals.data)), 4))
      ensures !BorderWrite(old(cpu.signals)) ==>
        ula.border_colour == old(ula.border_colour) && ula.buzzer == old(ula.buzzer) && ula.ear_active == old(ula.ear_active)
    {
      var s := cpu.signals;
      if s.port == Bus.SignalReq.Read {
        var data: u8;
        if s.addr % 0x100 < 0x20 {
          data := 0;
        } else if s.addr % 2 == 0 {
          data := ula.ReadPort(s.addr);
        } else {
          data := 0xFF;
        }
        cpu.signals := s.(data := data);
      } else if s.port == Bus.SignalReq.Write {
        if s.addr % 2 == 0 {
          ula.WritePort(s.addr, s.data);
        }
      }
    }

    /**
     * The trap in the run loop: when the CPU reaches LD-BYTES (0x056B) the
     * keyboard is released and the tape state moves on. With no tape a file
     * dialog opens (Empty becomes Loading); while it is open nothing more
     * happens; with a tape ready the next block is loaded. Any other address
     * changes nothing. The address the CPU reports is a parameter: the CPU
     * model's `tick` does not return it.
     */
    method Trap(trap: Option<u16>) returns (panicked: bool)
      requires Valid()
      modifies ula.keyboard_row, this`tap_state, memory, cpu`regs, cpu`wait, if tap.Some? then {tap.value} else {}
      ensures trap != Some(LoadTrap) ==> !panicked && tap_state == old(tap_state)
      ensures trap != Some(LoadTrap) || old(tap_state) != Ready ==>
        && !panicked && unchanged(memory, cpu)
        && (tap.Some? ==> unchanged(tap.value))
      ensures trap != Some(LoadTrap) ==> unchanged(ula.keyboard_row)
      ensures trap == Some(LoadTrap) ==> forall r :: 0 <= r < ula.keyboard_row.Length ==> ula.keyboard_row[r] == 0
      ensures trap == Some(LoadTrap) ==> tap_state == if old(tap_state) == Empty then Loading else old(tap_state)
      ensures trap == Some(LoadTrap) && old(tap_state) == Ready ==>
        && (panicked <==> old(PendingBlock()).Panics? || LoadOutcome(old(cpu.regs), old(PendingBlock()).value).Panics?)
        && (!panicked ==> cpu.regs == LoadOutcome(old(cpu.regs), old(PendingBlock()).value).value)
        && (!panicked ==> cpu.wait == (if old(PendingBlock()).value == [] then old(cpu.wait) else false))
      ensures trap == Some(LoadTrap) && old(tap_state) == Ready && !panicked ==> forall a: u16 :: (MemRead(a) ==
        if CopiesBlock(old(cpu.regs), old(PendingBlock()).value)
        then Loaded(old(PendingBlock()).value, old(cpu.regs.GetPair(IX)), old(cpu.regs.GetPair(DE)) as nat, a, old(MemRead(a)))
        else old(MemRead(a)))
    {
      panicked := false;
      if trap == Some(LoadTrap) {
        ula.CleanKeyboard();
        match tap_state
        case Empty =>
          tap_state := Loading;
        case Loading =>
        case Ready =>
          panicked := LoadTapBlock();
      }
    }

    /**
     * A message from the user interface, taken at the end of a frame: WAIT
     * is raised or dropped, a reset drops the tape, a chosen file is opened
     * as a tape (a file that does not parse panics through `unwrap`) and
     * becomes the ready tape, and setting the registers is `todo!`, a panic.
     */
    method Receive(msg: MachineMessage) returns (panicked: bool)
      requires Valid()
      modifies cpu`wait, this`tap, this`tap_state
      ensures !panicked ==> Valid()
      ensures msg.CPUWait? || msg.CPUResume? ==> !panicked && cpu.wait == msg.CPUWait? && tap == old(tap) && tap_state == old(tap_state)
      ensures msg.Reset? ==> !panicked && tap == None && tap_state == Empty && cpu.wait == old(cpu.wait)
      ensures msg.CPUSetRegisters? ==> panicked
      ensures msg.TapLoad? ==> (panicked <==> Tape.Open(msg.file).Panics?) && cpu.wait == old(cpu.wait)
      ensures msg.TapLoad? && !panicked ==>
        && tap.Some? && fresh(tap.value) && tap_state == Ready
        && tap.value.blocks == Tape.Open(msg.file).value && tap.value.data == msg.file && tap.value.name == msg.name
        && tap.value.actual_block == 0
    {
      panicked := false;
      match msg
      case CPUWait =>
        cpu.wait := true;
      case CPUResume =>
        cpu.wait := false;
      case Reset =>
        Reset();
      case CPUSetRegisters(_) =>
        panicked := true;
      case TapLoad(file, name) =>
        var r := Tape.Tap.New(file, name);
        if r.Panics? {
          return true;
        }
        tap := Some(r.value);
        tap_state := Ready;
    }
  }
}
