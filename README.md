# A verified model of the b2t80s ZX Spectrum 48K core

This project is a Dafny model of the core of b2t80s, an emulator of the
Sinclair ZX Spectrum 48K written in Rust, with proofs about that model. The
model covers these parts:

- **The Z80 CPU** (`src/z80/cpu.rs`). It runs one T-state per `tick`:
  - a queue of micro-operations: opcode fetch, operand reads, memory and
    port reads and writes, delays, and the mode 0/1 interrupt acknowledge;
  - `decode_and_run`, which handles the DD/FD/CB/ED prefixes, splits the
    opcode into its x/y/z/p/q fields and dispatches the x = 0, 1 and 3
    quarters of the opcode table.
- **The register file** (`src/z80/registers.rs`):
  - the 8-bit registers and the register pairs, including the index-mode
    selection of HL, IX or IY;
  - AF and AF', the register exchanges and `set_all_regs`;
  - the text dump of the registers and the flags byte.
- **The instruction bodies** in `src/z80/ops_codes.rs`:
  - INC/DEC of a register or a pair, the four accumulator rotations;
  - ADD HL,rr with its half-carry table;
  - LD r,n, LD rr,nn, LD r,r' and HALT.
- **The disassembler** (`src/z80/diss.rs`). It turns a fetched instruction
  into text, including the IX/IY rewrite under a DD or FD prefix.
- **The ULA** (`src/zxspectrum/ula.rs`):
  - display-file and attribute addressing, and the beam-to-bitmap mapping;
  - pixel colours, the keyboard half-rows behind port 0xFE and the border
    port;
  - the T-state raster with its memory fetches, its pixel queue and its
    interrupt window.
- **The TAP file reader** (`src/zxspectrum/tap.rs`): it splits a file into
  blocks and hands them out one at a time.
- **The machine** (`src/zxspectrum/zx48k.rs`):
  - four 16 KB memory banks, the first of which is ROM;
  - the bus step that serves the CPU's and the ULA's requests, and port
    decoding;
  - the trap into the ROM's LD-BYTES routine that copies a tape block into
    memory, and the messages from the user interface.

How the Rust code is mapped:

- Rust's `u8` and `u16` become the integer newtypes `u8` and `u16`. Each
  wrap-around (`wrapping_add`, `wrapping_sub`, `as u8`) is written out
  modulo 2^8 or 2^16.
- An unchecked `+` or `-` that overflows panics, as in a debug build. So
  does `unwrap` on `None`, an index out of range, `panic!`, `todo!` and
  `unreachable!`. A pure operation returns `Checked<T>` (`Ok(v)` or
  `Panics`); a state-changing operation returns whether it panicked.
- `Registers` and `Flags` are `Copy` structs in the source, so they are
  datatypes here: a setter returns the updated registers.
- The CPU, the ULA, the tape and the machine update their fields in place,
  so they are classes:
  - memory is an `array2<u8>` of four banks;
  - the keyboard half-rows are an `array<bv8>`;
  - the scheduler queue and the ULA's pixel queue are sequences.

Each operation is proved against a specification:

- a method's `ensures` gives its new state or result in terms of the old
  state, or through a specification function;
- lemmas prove what the source promises about those functions: round trips,
  inverses, invariants kept, and both directions of each case split.

The CPU and the disassembler run the code as it is written, including the
three defects listed under "## Findings". Beside each defective definition
sits a corrected one (`LdRR`, `MainTableFixed`, `MnemonicFixed`,
`IndexRewrite`, `DisassembleFixed`), with the intended property proved
about it.

The CPU's methods are specified through `CpuState`, a snapshot of the
CPU's fields. For each operation a step predicate relates the state
before a call, its status and the state after it, and the method ensures
that predicate of `old(Snap())` and `Snap()`. A composite method's
predicate is built from the predicates of the steps it calls.

## Model

| member | source | states |
|---|---|---|
| Base.Wrap8 | src/z80/ops_codes.rs:59 | the result is the byte congruent to x modulo 256 |
| Base.Wrap16 | src/z80/ops_codes.rs:53 | the result is the word congruent to x modulo 65536 |
| Base.Pack | src/z80/registers.rs:1-12 | the packed word's high byte is h and its low byte is l |
| Base.PackHiLo | src/z80/registers.rs:1-12 | splitting a word into its bytes and packing them again gives the word back |
| Base.ToI8 | src/z80/diss.rs:188 | `n as i8` is n below 128 and n − 256 from 128 up, so it lies in −128..127 |
| Base.SignExtend | src/z80/diss.rs:189 | `(n as i8) as u16` is the signed value of n modulo 2^16, and its low byte is n |
| Base.AddSignExtended | src/z80/diss.rs:189 | adding the sign-extended byte with wrap-around adds its signed value modulo 2^16 |
| Base.Displace | src/z80/registers.rs:193-202 | a word moved by a signed displacement byte, modulo 2^16 |
| Format.Hex | src/z80/registers.rs:254-270 | the low `width` hex digits of v, lower-case, most significant first; below 16^width this is `{:0width$x}` |
| Format.Hex4 | src/z80/registers.rs:254-270 | `{:04x}` of a `u16` is four characters |
| Format.Hex4Value | src/z80/registers.rs:254-270 | the four hex digits `{:04x}` prints for v, read most significant first, have the value v |
| Format.Hex2 | src/z80/diss.rs:64 | `{:02x}` of a `u8` is two characters |
| Format.Hex2Value | src/z80/diss.rs:64 | the two hex digits `{:02x}` prints for v, read most significant first, have the value v |
| Format.HexRoundTrip | src/z80/registers.rs:254-270 | reading back the digits `Hex` writes gives the value again |
| Format.Dec | src/z80/diss.rs:113-128 | `{}` of a number is a non-empty string of decimal digits, with no leading zero unless the number is 0 |
| Format.DecRoundTrip | src/z80/diss.rs:113-128 | reading back the digits `Dec` writes gives the number again |
| Text.Contains | src/z80/diss.rs:165 | `str::contains`: the pattern fits in the text and starts at its head or occurs in its tail; by position it is stated by `ContainsAt`, `NotContainsFirst` and `NoPairNotContains` |
| Text.ContainsAt | src/z80/diss.rs:165 | an occurrence of the pattern at a position makes `contains` true |
| Text.NotContainsFirst | src/z80/diss.rs:165 | a text without the pattern's first character does not contain it |
| Text.NoPairNotContains | src/z80/diss.rs:165 | a text in which two adjacent characters of the pattern never occur together does not contain it |
| Text.ReplaceAll | src/z80/diss.rs:166-181 | `str::replace`: scanning from the left, an occurrence at the head is replaced and the scan resumes after it, otherwise one character is copied; the lemmas below state what it does to texts of each shape |
| Text.ReplaceAllHead | src/z80/diss.rs:166-181 | `replace` puts the replacement where the text starts with the pattern and carries on after it |
| Text.ReplaceAllMiss | src/z80/diss.rs:166-181 | `replace` copies a first character that starts no occurrence and carries on after it |
| Text.ReplaceAllSkip | src/z80/diss.rs:166-181 | `replace` copies a character that cannot start the pattern and carries on after it |
| Text.ReplaceAllAfter | src/z80/diss.rs:166-181 | `replace` copies unchanged a prefix none of whose characters can start the pattern |
| Text.ReplaceAllWhole | src/z80/diss.rs:166-181 | `replace` on the pattern alone gives the replacement |
| Text.ReplaceAbsent | src/z80/diss.rs:166-181 | replacing a pattern that does not occur changes nothing |
| Text.ReplaceNoPair | src/z80/diss.rs:166-181 | replacing a pattern two of whose adjacent characters never occur together in the text changes nothing |
| Text.ReplaceSelf | src/z80/diss.rs:166-181 | replacing a pattern by itself changes nothing |
| Text.ReplaceAllNetParens | src/z80/diss.rs:164-183 | replacing a pattern by text with the same net count of parentheses (opening minus closing) keeps the net count of the whole string |
| Text.NoPairConcat | src/z80/diss.rs:166-181 | joining two texts with no `a` directly before `b` makes none unless the join does |
| Text.NoPairLead | src/z80/diss.rs:166-181 | a space followed by a word without spaces whose first letter is not `b` has no space directly before `b` |
| Text.ReplacePairNoPair | src/z80/diss.rs:171-173 | replacing the two characters `ab` by a text that starts with `a`, does not end with it and has no `a` before `c` leaves no `a` directly before `c` (none at all when `c` is `b`, and otherwise when there was none before) and keeps the first character |
| Z80Registers.Flags.Get | src/z80/registers.rs:299-326 | bit k of the flags byte is the k-th flag, C in bit 0 up to S in bit 7 |
| Z80Registers.FlagsOf | src/z80/registers.rs:328-337 | the flags built from b read back as b, whatever they were before |
| Z80Registers.FlagsGetSet | src/z80/registers.rs:299-337 | `set(get())` leaves the flags unchanged |
| Z80Registers.Registers.GetPair | src/z80/registers.rs:1-12 | a pair getter's high byte is the pair's first register and its low byte the second |
| Z80Registers.Registers.SetPair | src/z80/registers.rs:1-12 | a pair setter makes the pair read back v and changes no other pair and no other field |
| Z80Registers.Registers.AF | src/z80/registers.rs:112-114 | `af()` has A as its high byte and a low byte whose bits are the flags |
| Z80Registers.Registers.SetAF | src/z80/registers.rs:116-119 | `set_af(v)` makes `af()` read back v and changes nothing else |
| Z80Registers.Registers.AFAux | src/z80/registers.rs:121-123 | `af_aux()` has A' as its high byte and a low byte whose bits are F' |
| Z80Registers.Registers.SetAFAux | src/z80/registers.rs:125-128 | `set_af_aux(v)` makes `af_aux()` read back v and changes nothing else |
| Z80Registers.Registers.GetRR | src/z80/registers.rs:172-184 | codes 0-2 read BC, DE and then HL, IX or IY by index mode; 3 reads SP; any other code panics |
| Z80Registers.Registers.SetRR | src/z80/registers.rs:204-216 | `set_rr(c, v)` panics exactly for c > 3; otherwise `get_rr(c)` reads back v and every other pair and field keeps its value |
| Z80Registers.Registers.GetRR2 | src/z80/registers.rs:186-191 | like `get_rr`, except that code 3 reads AF |
| Z80Registers.Registers.SetRR2 | src/z80/registers.rs:218-223 | like `set_rr`, except that code 3 writes AF, which reads back v |
| Z80Registers.Registers.GetR | src/z80/registers.rs:130-149 | code 7 reads A; codes 6 and above 7 panic; codes 0-5 read a register byte |
| Z80Registers.Registers.SetR | src/z80/registers.rs:151-170 | `set_r` panics exactly for codes 6 and above 7; code 7 replaces A; the flags never change |
| Z80Registers.Registers.GetIdx | src/z80/registers.rs:193-202 | panics in HL mode; otherwise IX or IY plus the signed displacement, modulo 2^16 |
| Z80Registers.Registers.ExAfAf | src/z80/registers.rs:225-228 | AF and AF' trade places; nothing else changes |
| Z80Registers.Registers.Exx | src/z80/registers.rs:230-237 | BC/DE/HL trade with BC'/DE'/HL'; A, F, IX, IY, SP, PC and the rest are kept |
| Z80Registers.Registers.Words | src/z80/registers.rs:254-270 | twelve words, in the order `dump_registers` prints and `set_all_regs` takes them |
| Z80Registers.Registers.SetAllRegs | src/z80/registers.rs:239-252 | each of the twelve words lands in its register, so `Words()` reads them back; R, I, the interrupt state and the index mode are kept |
| Z80Registers.Registers.DumpRegisters | src/z80/registers.rs:254-270 | 59 characters: twelve four-digit fields separated by single spaces, field k holding word k in hex |
| Z80Registers.JoinHex4 | src/z80/registers.rs:254-270 | 5n − 1 characters, field k at position 5k with value word k, a space after each field but the last |
| Z80Registers.DumpAfterSetAll | src/z80/registers.rs:239-270 | dumping after `set_all_regs(words)` prints the twelve words loaded, field by field |
| Z80Registers.GetRPairByte | src/z80/registers.rs:130-149 | `get_r` with codes 0-5 reads the high (even code) or low (odd code) byte of `get_rr(code / 2)`, following the index mode |
| Z80Registers.SetRPairByte | src/z80/registers.rs:151-170 | `set_r` with codes 0-5 is `set_rr(code / 2)` of that pair with one byte replaced and the other kept |
| Z80Registers.SetRGetR | src/z80/registers.rs:130-170 | after `set_r(c, v)`, `get_r(c)` reads v |
| Z80Registers.SetRWriteBack | src/z80/registers.rs:130-170 | writing back the value `get_r` reads changes nothing |
| Z80Registers.ExAfAfTwice | src/z80/registers.rs:225-228 | exchanging AF twice restores every register |
| Z80Registers.ExxTwice | src/z80/registers.rs:230-237 | `exx` twice restores every register |
| Z80Ops.SplitBit11 | src/z80/ops_codes.rs:122-123 | the low twelve bits of a word are bit 11 above its low eleven bits |
| Z80Ops.SumLow12 | src/z80/ops_codes.rs:121-123 | the low twelve bits of a 16-bit sum depend only on the operands' low twelve bits |
| Z80Ops.HalfcarryLookup | src/z80/ops_codes.rs:6 | the table entry indexed by bit 11 of HL, of the operand and of the sum is the carry out of bit 11 |
| Z80Ops.TableEntries | src/z80/ops_codes.rs:6 | the eight entries of `halfcarryAddTable` |
| Z80Ops.ShiftLeftIn | src/z80/ops_codes.rs:79-95 | bits 0-6 move up one place and bit 0 is the incoming bit |
| Z80Ops.ShiftRightIn | src/z80/ops_codes.rs:97-113 | bits 1-7 move down one place and bit 7 is the incoming bit |
| Z80Ops.LookupHalfcarry | src/z80/ops_codes.rs:122-127 | the entry found is whether the low twelve bits of HL and the operand carry into bit 12 |
| Z80Ops.WrappingDec16 | src/z80/ops_codes.rs:53 | one below modulo 2^16, so adding one modulo 2^16 gives the word back |
| Z80Ops.IncR | src/z80/ops_codes.rs:57-66 | codes 6 and above 7 panic; otherwise the register goes up by one modulo 256; S and Z describe the result, H is the carry out of bit 3, P/V the overflow from 0x7F, N clear; C and every other register kept |
| Z80Ops.DecR | src/z80/ops_codes.rs:68-77 | codes 6 and above 7 panic; otherwise the register goes down by one modulo 256; S and Z describe the result, H is the borrow into bit 4, P/V the overflow from 0x80, N set; C and every other register kept |
| Z80Ops.Rlca | src/z80/ops_codes.rs:79-84 | A rotated left, bit 7 into bit 0 and C; H, N clear; nothing else changes |
| Z80Ops.Rla | src/z80/ops_codes.rs:86-95 | A and C rotated left as nine bits; H, N clear; nothing else changes |
| Z80Ops.Rrca | src/z80/ops_codes.rs:97-102 | A rotated right, bit 0 into bit 7 and C; H, N clear; nothing else changes |
| Z80Ops.Rra | src/z80/ops_codes.rs:104-113 | A and C rotated right as nine bits; H, N clear; nothing else changes |
| Z80Ops.AddToHl | src/z80/ops_codes.rs:115-129 | HL becomes HL + v modulo 2^16; C is the carry out of bit 15 and H the carry out of bit 11; N clear; S, Z, P/V and every register other than HL kept |
| Z80Ops.AddHl | src/z80/ops_codes.rs:119-128 | the table-driven computation equals the arithmetic specification `AddToHl` |
| Z80Ops.AddHlRr | src/z80/ops_codes.rs:115-129 | panics exactly for a pair code above 3; otherwise it is `AddToHl` of the pair `get_rr(p)` reads |
| Z80Ops.IncRr | src/z80/ops_codes.rs:47-50 | panics exactly for a code above 3 or a pair holding 0xFFFF; otherwise the pair reads one more and nothing else changes |
| Z80Ops.DecRr | src/z80/ops_codes.rs:52-55 | panics exactly for a code above 3; otherwise the pair reads one less modulo 2^16 and nothing else changes |
| Z80Ops.LdRRAsWritten | src/z80/ops_codes.rs:37-45 | as written, codes 6 (either side) and y above 7 panic, and otherwise the registers never change |
| Z80Ops.LdRR | src/z80/ops_codes.rs:37-45 | corrected: codes 6 and above 7 on either side panic; otherwise register y reads what register z read, and it is `set_r(y, get_r(z))` |
| Z80Ops.LdRRCounterexample | src/z80/ops_codes.rs:43-44 | with B = 0 and C = 1, `LD B, C` leaves B at 0 as written; the corrected load sets B to 1 |
| Z80Cpu.ReadOperand | src/z80/cpu.rs:686-693 | the first operand byte fills n; the second makes nn the little-endian word of n and the new byte |
| Z80Cpu.NextR | src/z80/cpu.rs:594 | R keeps bit 7 and its low seven bits count up modulo 128 |
| Z80Cpu.Decode | src/z80/cpu.rs:176-180 | x, y, z lie in range, p = y / 2, q = y % 2, and 64x + 8y + z is the opcode |
| Z80Cpu.DecodeFields | src/z80/cpu.rs:176-180 | fields in range name exactly one opcode, which decodes back to them |
| Z80Cpu.IfCc | src/z80/cpu.rs:418-430 | condition y holds when flag Z, C, P/V or S (for y / 2 = 0..3) equals y % 2; y above 7 panics |
| Z80Cpu.CPU.constructor | src/z80/cpu.rs:48-65 | power-on registers, idle bus, empty queue, not waiting or halted, a fetch in progress |
| Z80Cpu.CPU.Fetch | src/z80/cpu.rs:587-616 | `FetchStep`: T1: PC on the bus with a read, M1 raised, PC + 1, R counted; T2: the opcode is latched and a previous opcode shifts into the prefix; done exactly on T4, every other field kept |
| Z80Cpu.CPU.Mr | src/z80/cpu.rs:681-701 | address on T1, read on T2; on T3 the byte becomes an operand (`ReadOperand`) and PC + 1, panicking at 0xFFFF; done on T3 |
| Z80Cpu.CPU.MrD | src/z80/cpu.rs:703-717 | like `Mr`, with the byte stored as the displacement d |
| Z80Cpu.CPU.MrAddrN | src/z80/cpu.rs:618-637 | like `Mr`, from a given address, and PC does not move |
| Z80Cpu.CPU.MrAddrR | src/z80/cpu.rs:639-652 | on T3 the byte goes into register r through `set_r`, panicking as it does |
| Z80Cpu.CPU.PrR | src/z80/cpu.rs:654-679 | on T3 the port byte goes into r or n; with flags, N, H clear and P/V (even parity), Z, S describe the byte |
| Z80Cpu.CPU.Mw8 | src/z80/cpu.rs:719-734 | address and data on T1, write on T2, dropped and done on T3 |
| Z80Cpu.CPU.Pw8 | src/z80/cpu.rs:736-751 | the same as `Mw8` with a port write |
| Z80Cpu.CPU.Mw16 | src/z80/cpu.rs:753-776 | the low byte to addr on T1-3, the high byte to addr + 1 on T4-6 (panicking at 0xFFFF); done on T6 |
| Z80Cpu.CPU.Delay | src/z80/cpu.rs:778-781 | counts one T-state; done exactly when the counter reaches d; the counter panics past 0xFF |
| Z80Cpu.CPU.Int01 | src/z80/cpu.rs:790-798 | IFF1 clear, SP − 2 modulo 2^16, a 1-T-state delay and the push of the old PC to the new SP queued, PC = 0x0038 |
| Z80Cpu.MicroStepCounts | src/z80/cpu.rs:104-128 | a micro-operation T-state that does not panic reports done exactly on its last T-state, otherwise counts one more, and keeps the queue well formed |
| Z80Cpu.CPU.Halt | src/z80/ops_codes.rs:25-28 | halted, PC back onto the HALT opcode; PC = 0 panics |
| Z80Cpu.CPU.LdRN | src/z80/ops_codes.rs:30-35 | with n read, register y = n through `set_r`; otherwise exactly one operand read is queued |
| Z80Cpu.CPU.LdRrMm | src/z80/ops_codes.rs:9-18 | with nn read, `set_rr(p, nn)`; otherwise exactly two operand reads are queued |
| Z80Cpu.CPU.X0Z0 | src/z80/cpu.rs:460-491 | y above 7 panics; NOP; EX AF,AF'; without n one operand read is queued; with n, DJNZ decrements B and jumps while B ≠ 0, JR always jumps, JR cc jumps on `IfCc`; a taken jump moves PC by the signed n and queues a 5-T-state delay |
| Z80Cpu.CPU.RelativeJump | src/z80/cpu.rs:466-486 | `X0Z0Step` with the displacement read: DJNZ decrements B (wrapping) and queues a 1-T-state delay, jumping while B ≠ 0; JR always jumps; JR cc jumps on `IfCc`; a jump moves PC by the signed displacement modulo 2^16 (`Displace`) and queues a 5-T-state delay; the opcode is cleared |
| Z80Cpu.CPU.X0Z1 | src/z80/cpu.rs:500-510 | q = 0 is `LdRrMm`; q = 1 is `AddToHl` of `get_rr(p)`, the opcode cleared and a 7-T-state delay queued; other q panics |
| Z80Cpu.CPU.X0Z2 | src/z80/cpu.rs:512-575 | panics exactly for q or p out of range or `LD HL,(0xFFFF)`; for each load, the micro-operations it queues (or A loaded) with the operand missing and with it read |
| Z80Cpu.CPU.X0Z3 | src/z80/cpu.rs:577-585 | panics exactly as `IncRr`/`DecRr` do; otherwise the pair goes up by one or down by one (wrapping), the opcode is cleared and a 2-T-state delay queued |
| Z80Cpu.CPU.X0Z7 | src/z80/cpu.rs:446-458 | `X0Z7Step`: y = 0..3 are `Rlca`, `Rrca`, `Rla`, `Rra`: A shifted one place, the bit shifted in being bit 7 (RLCA), bit 0 (RRCA) or the old C (RLA, RRA), C the bit shifted out, H and N clear, nothing else changed; y = 4..7 not modelled |
| Z80Cpu.CPU.X0Ops | src/z80/cpu.rs:432-444 | `X0OpsStep`: z above 7 panics; z = 0-3 and 7 are `X0Z0`-`X0Z3` and `X0Z7`; INC r and DEC r succeed exactly for a register code and leave exactly `Incremented` or `Decremented`; z = 6 is `LdRN`; an opcode not modelled changes nothing |
| Z80Cpu.CPU.X1Ops | src/z80/cpu.rs:493-498 | `X1OpsStep`: (6, 6) is `Halt`; otherwise `ld_r_r` as written (`LdRRAsWritten`): the memory operand panics, and a register load completes leaving every register as it was |
| Z80Cpu.CPU.X3Z1 | src/z80/cpu.rs:403-416 | EXX; JP (HL): PC = `get_rr(2)`; LD SP,HL: SP = `get_rr(2)` with a 2-T-state delay; POP/RET not modelled |
| Z80Cpu.CPU.X3Z3 | src/z80/cpu.rs:370-392 | CB queues one more fetch; EX DE,HL swaps DE with `get_rr(2)`; DI and EI clear or set both IFFs |
| Z80Cpu.CPU.X3Z5 | src/z80/cpu.rs:394-401 | the DD, ED and FD prefixes queue one more fetch |
| Z80Cpu.CPU.X3Ops | src/z80/cpu.rs:356-368 | `X3OpsStep`: z above 7 panics; z = 1, 3, 5 are `X3Z1`, `X3Z3`, `X3Z5`; the groups z = 0, 2, 4, 6, 7 are not modelled and change nothing |
| Z80Cpu.CPU.Dispatch | src/z80/cpu.rs:187-196 | `DispatchStep`: unprefixed, DD and FD opcodes go to `X0Ops`, `X1Ops` or `X3Ops` by x; the CB, ED and ALU (x = 2) tables are not modelled and change nothing; an unknown prefix panics |
| Z80Cpu.PrefixResult | src/z80/cpu.rs:138-170 | decoding waits only on a CB, ED, DD or FD byte; when it goes on, the registers and the queue are kept; only a DD CB or FD CB opcode moves, under prefix DDCB or FDCB; only registers, queue and `fetched` change |
| Z80Cpu.CPU.PrefixStage | src/z80/cpu.rs:138-170 | `PrefixResult`: each prefix combination queues what it should (a fetch, or the displacement read, a delay and the operand read), selects IX/IY, or moves the CB opcode into place; decoding goes on exactly when no further byte is awaited |
| Z80Cpu.CPU.DecodeStage | src/z80/cpu.rs:172-197 | `DecodeStep`: without an opcode nothing changes; otherwise `Dispatch` on the prefix and the fields `Decode` gives, and a completed step counts the decode counter up by one (0xFF panics); the queue stays well formed |
| Z80Cpu.CPU.DecodeAndRun | src/z80/cpu.rs:137-198 | `DecodeAndRunStep`: `PrefixStage`, then `DecodeStage` exactly when the prefix stage lets decoding go on; the queue stays well formed |
| Z80Cpu.DecodeLdBCAsWritten | src/z80/cpu.rs:172-197 | as written, decoding `LD B,C` (0x41) completes exactly when the decode counter has room and then changes only that counter: B is not loaded |
| Z80Cpu.DecodeHalt | src/z80/cpu.rs:172-197 | decoding `HALT` (0x76) halts with PC moved back onto the opcode and the counter up by one, nothing else changed |
| Z80Cpu.DecodeIncB | src/z80/cpu.rs:172-197 | decoding `INC B` (0x04) leaves B one up modulo 256, the other registers but F, the queue and the halt flag kept |
| Z80Cpu.CPU.Select | src/z80/cpu.rs:81-102 | with a micro-operation in progress nothing changes; else the head of the queue starts; else a new instruction starts, `fetched` cleared and HL selected: Fetch, or Int01 (modes 0, 1) or Int02 (mode 2) when the line and IFF1 are up; a mode above 2 panics |
| Z80Cpu.CPU.Wake | src/z80/cpu.rs:72-79 | `WakeStep`: a halted CPU with the interrupt line up stops halting and moves PC one on (0xFFFF panics); otherwise nothing changes |
| Z80Cpu.CPU.RunOp | src/z80/cpu.rs:106-120 | `MicroStep`: the micro-operation runs one T-state as its method states; `int02` panics |
| Z80Cpu.CPU.RunCurrent | src/z80/cpu.rs:104-134 | `RunStep` in every case: it panics exactly when the slot is empty (`todo!`), when the micro-operation's T-state panics (Int02 always does), or when `DecodeAndRun` does; otherwise the micro-operation takes one T-state as `RunOp` does, the slot empties when it finishes, and then, if nothing is queued, `DecodeAndRun` follows; a run that does not panic keeps `Valid` |
| Z80Cpu.CPU.Tick | src/z80/cpu.rs:67-135 | `TickStep`: WAIT, or a halt without an interrupt, changes nothing; otherwise `Wake`, `Select` and `RunCurrent` in turn, chained through the intermediate states, and the tick panics exactly when one of the three step predicates says that step panics; waking from a halt clears it and moves PC one past the HALT opcode, panicking at 0xFFFF; a tick that does not panic keeps `Valid` |
| Z80Cpu.TickStartsFetch | src/z80/cpu.rs:67-135 | a tick of a running CPU with nothing in progress or queued and no interrupt does not panic: it clears `fetched`, starts an opcode fetch and runs its first T-state (PC on the address bus, PC one on) |
| Disassembler.ToAbsAddr | src/z80/diss.rs:187-190 | the target is congruent to pc + 2 + (the signed byte) modulo 2^16 |
| Disassembler.ToAbsAddrDisplacement | src/z80/diss.rs:187-190 | the displacement byte can be recovered from the target |
| Disassembler.ToAbsAddrInjective | src/z80/diss.rs:187-190 | different displacement bytes give different targets |
| Disassembler.LoadText | src/z80/diss.rs:70-71 | corrected: HALT exactly for y = z = 6, `LD r, r'` otherwise |
| Disassembler.LoadTextAsWritten | src/z80/diss.rs:70-71 | as written: HALT exactly for y = 0, z = 6, `LD r, r'` otherwise |
| Disassembler.LoadTextAsWrittenMislabels | src/z80/diss.rs:70-71 | as written, 0x46 is printed as HALT and 0x76 as `LD (HL), (HL)` |
| Disassembler.AluNotHalt | src/z80/diss.rs:73 | no ALU mnemonic is HALT |
| Disassembler.MainX0 | src/z80/diss.rs:29-68 | the x = 0 slots panic exactly when the arm needs n or nn and it is missing; no text is HALT |
| Disassembler.MainX3 | src/z80/diss.rs:75-100 | the x = 3 slots panic exactly on a slot without an arm or a missing operand; no text is HALT |
| Disassembler.MainTable | src/z80/diss.rs:29-100 | as written: panics exactly on a missing operand or a slot without an arm; x = 1 is `LoadTextAsWritten`, so HALT exactly for x = 1, y = 0, z = 6; RST shows 8y in hex |
| Disassembler.MainTableFixed | src/z80/diss.rs:29-100 | corrected: panics exactly as `MainTable`; equal to it outside x = 1; HALT exactly for x = 1, y = z = 6 |
| Disassembler.IndexedCbTable | src/z80/diss.rs:113-128 | a missing d panics; otherwise the text ends with the operand (IX+d) or (IY+d), d in decimal, and starts with the rotation of y and a space (x = 0) or with BIT, RES or SET, y in decimal and a comma (x = 1-3) |
| Disassembler.EdTable | src/z80/diss.rs:131-158 | succeeds exactly for x = 1 (with nn for the word loads) and for the block slots y ≥ 4, z < 4 |
| Disassembler.Mnemonic | src/z80/diss.rs:21-163 | as written: an unknown prefix panics; the CB table never panics; DDCB/FDCB panic exactly without d |
| Disassembler.MnemonicFixed | src/z80/diss.rs:21-163 | corrected: panics exactly as `Mnemonic`, and equals it except on x = 1 of the unprefixed, DD and FD tables |
| Disassembler.CbTable | src/z80/diss.rs:103-110 | the text ends with the register name of z and starts with the rotation of y (x = 0) or with BIT, RES or SET (x = 1-3) |
| Disassembler.DecNoParens | src/z80/diss.rs:168 | decimal digits contain no parentheses |
| Disassembler.RewriteFor | src/z80/diss.rs:164-183 | the rewrite for IX or IY keeps the net count of parentheses of the text; on a text without (HL) it leaves no " H" or " L" register name (`NamesReplaced`); what it prints for each shape of text is `RewriteNames`, `RewriteWord`, `RewritePair` and `RewriteHalves` |
| Disassembler.NamesReplaced | src/z80/diss.rs:171-173 | after the " L" and " H" replacements no " H" or " L" is left |
| Disassembler.RewriteNames | src/z80/diss.rs:171-173 | on a text without (HL) the rewrite is " HL" → " reg", then " L" → " regL", then " H" → " regH", in that order |
| Disassembler.NamesKept | src/z80/diss.rs:172-173 | once " HL" has become " reg", a text with no other " H" or " L" is left alone by the last two replacements |
| Disassembler.RewriteChain | src/z80/diss.rs:164-183 | the rewrite of a text without (HL) is the result of its three replacements |
| Disassembler.RewriteWord | src/z80/diss.rs:171-173 | `op HL` and a tail with no register name after a space prints as `op reg` and the same tail (`INC HL`, `LD HL, 0x1234`) |
| Disassembler.RewritePair | src/z80/diss.rs:171-173 | `op HL, HL` prints as `op reg, reg` |
| Disassembler.RewriteHalves | src/z80/diss.rs:171-173 | `op H, L` prints as `op regH, regL` |
| Disassembler.WordStep | src/z80/diss.rs:171 | the " HL" replacement turns `op HL` and a tail without " HL" into `op reg` and the same tail |
| Disassembler.PairStep | src/z80/diss.rs:171 | the " HL" replacement turns `op HL, HL` into `op reg, reg` |
| Disassembler.HalvesStepHL | src/z80/diss.rs:171 | the " HL" replacement leaves `op H, L` unchanged |
| Disassembler.HalvesStepL | src/z80/diss.rs:172 | the " L" replacement turns `op H, L` into `op H, regL` |
| Disassembler.HalvesStepH | src/z80/diss.rs:173 | the " H" replacement turns `op H, regL` into `op regH, regL` |
| Disassembler.RewriteTextsKeepNetParens | src/z80/diss.rs:166-181 | each replacement text has the same net count of parentheses as what it replaces |
| Disassembler.IndexedNetParens | src/z80/diss.rs:168 | " (IX+d)" and " (HL)" each open and close one parenthesis |
| Disassembler.IndexRewrite | src/z80/diss.rs:164-183 | corrected rewrite: it keeps the net count of parentheses, prefixes other than DD and FD keep the text, and under DD or FD a text without (HL) keeps no " H" or " L" register name; `IndexRewriteRenames` and `IndexRewriteHl` give the text it prints |
| Disassembler.IndexRewriteRenames | src/z80/diss.rs:164-183 | DD renames to IX, IXH, IXL and FD to IY, IYH, IYL: `op HL` with a plain tail, `op HL, HL` and `op H, L` print with the index register (`ADD IX, IX`, `LD IYH, IYL`, `LD IX, 0x1234`) |
| Disassembler.IndexRewriteAsWritten | src/z80/diss.rs:175-182 | as written, it differs from the corrected rewrite only under FD with (HL) in the text |
| Disassembler.ReplaceInIncHl | src/z80/diss.rs:166-177 | replacing " (HL)" in `INC (HL)` gives `INC` followed by the replacement |
| Disassembler.IncHlContainsHl | src/z80/diss.rs:165 | `INC (HL)` contains `(HL)` |
| Disassembler.IndexRewriteAsWrittenOpensParen | src/z80/diss.rs:177 | as written, `INC (HL)` under FD with d = 5 becomes `INC (IY+5`, which leaves one more parenthesis open than it closes |
| Disassembler.IndexRewriteHl | src/z80/diss.rs:164-183 | corrected, a text with (HL) gets " (IX+d)" or " (IY+d)", both closed; as written FD differs |
| Disassembler.Disassemble | src/z80/diss.rs:18-185 | as written: panics exactly without an opcode or when `Mnemonic` panics; otherwise the PC in four hex digits, a space, and `Mnemonic` after the as-written rewrite (`IndexRewriteAsWritten`), which keeps the mnemonic's net count of parentheses except under FD on a text with (HL) |
| Disassembler.DisassembleFixed | src/z80/diss.rs:18-185 | corrected: panics exactly as `Disassemble`; the PC in four hex digits, a space, and `MnemonicFixed` after the corrected rewrite, which always keeps its net count of parentheses |
| Disassembler.MnemonicHalt | src/z80/diss.rs:70 | corrected, unprefixed, the mnemonic is HALT exactly for 0x76 |
| Disassembler.MnemonicHaltAsWritten | src/z80/diss.rs:70 | as written, unprefixed, the mnemonic is HALT exactly for 0x46 (`LD B, (HL)`) |
| Disassembler.DisassembleHalt | src/z80/diss.rs:70 | corrected, unprefixed, the text is `<pc> HALT` exactly for 0x76, the opcode the CPU halts on |
| Disassembler.DisassembleJr | src/z80/diss.rs:31-35 | a JR prints its absolute target, counted from the end of the instruction |
| Ula.ScreenAddr | src/zxspectrum/ula.rs:103-110 | on the screen (row < 192) the address lies in the display file, 0x4000-0x57FF |
| Ula.AttrAddr | src/zxspectrum/ula.rs:96-101 | on the screen (row < 192) the address lies in the attribute file, 0x5800-0x5AFF |
| Ula.ScreenAddrInverse | src/zxspectrum/ula.rs:103-110 | on the screen, the row and column byte can be read back from the display-file address |
| Ula.RowParts | src/zxspectrum/ula.rs:105-107 | a screen line is its third, its character row and its pixel line |
| Ula.AddrParts | src/zxspectrum/ula.rs:104-108 | each field packed into the address can be read back |
| Ula.ScreenAddrParts | src/zxspectrum/ula.rs:103-110 | `get_screen_addr` packs the third, the pixel line, the character row and the column byte |
| Ula.AttrFromScreen | src/zxspectrum/ula.rs:96-110 | the attribute address follows from the display-file address: the third selects the attribute third and the low byte is kept |
| Ula.AttrPerCell | src/zxspectrum/ula.rs:96-101 | points in the same character cell share the attribute address |
| Ula.GetXY | src/zxspectrum/ula.rs:226-241 | a point returned lies inside the bitmap, and its four bytes inside the buffer |
| Ula.GetXYShift | src/zxspectrum/ula.rs:226-241 | on the raster, the point is the beam position moved by 48 lines and 40 T-states, modulo the frame |
| Ula.PixelAt | src/zxspectrum/ula.rs:190-199 | the pixel `tick` paints: none when `get_xy` fails, otherwise the colour at the point `GetXY` gives in the bitmap being drawn (where that point lies, and that no two beam positions share it, are `GetXY` and `GetXYInjective`) |
| Ula.GetXYInjective | src/zxspectrum/ula.rs:226-241 | no two beam positions paint the same bitmap point |
| Ula.ShiftTopBit | src/zxspectrum/ula.rs:289-291 | shifting left by b brings bit 7 − b to the top |
| Ula.PixelColor | src/zxspectrum/ula.rs:288-307 | the colour of pixel b of a byte: bit 7 − b picks ink or paper, swapped in a flash phase of a flashing cell; stated by `PixelColorSteady` and `PixelColorFlash` |
| Ula.PixelColorSteady | src/zxspectrum/ula.rs:281-310 | without inversion pixel b is ink when bit 7 − b is set and paper when it is clear |
| Ula.PixelColorFlash | src/zxspectrum/ula.rs:297-302 | with flash in a flash phase each pixel takes the other colour |
| Ula.AttrColours | src/zxspectrum/ula.rs:282-285 | ink is palette entry bits 2-0 and paper bits 5-3, plus 8 with the bright bit |
| Ula.KeyBits | src/zxspectrum/ula.rs:252-262 | the key bits of `read_port`: 0x1F XORed with each half-row whose line of the high byte is low; stated by `KeyBitsLow`, `KeyBitsUnselected`, `KeyBitsReleased` and `KeyboardRead` |
| Ula.KeyBitsLow | src/zxspectrum/ula.rs:252-262 | with key bits only, the XOR of the selected rows keeps bits 7-5 clear |
| Ula.KeyboardRead | src/zxspectrum/ula.rs:250-271 | bits 7 and 5 set, bit 6 set when the EAR input is active and high, bits 4-0 the XOR of the selected half-rows |
| Ula.KeyboardReadBits | src/zxspectrum/ula.rs:250-271 | bits 7 and 5 are set, bit 6 is the active EAR input, bits 4-0 the keys |
| Ula.KeyBitsUnselected | src/zxspectrum/ula.rs:254-262 | rows not selected by the port's high byte do not take part |
| Ula.KeyboardReadOneRow | src/zxspectrum/ula.rs:250-271 | with one row selected, a pressed key reads 0 and a released one 1 |
| Ula.KeyBitsReleased | src/zxspectrum/ula.rs:250-271 | with no key pressed the key bits read all 1 |
| Ula.SetKey | src/zxspectrum/ula.rs:396-403 | the half-row after `set_bit` for key j: bit j set when pressed, cleared when released; stated by `SetKeyBits` |
| Ula.SetKeyBits | src/zxspectrum/ula.rs:396-403 | pressing or releasing sets or clears exactly that key's bit |
| Ula.SetKeyKeysOnly | src/zxspectrum/ula.rs:396-403 | keys 1 to 5 keep a half-row free of bits 7-5 |
| Ula.Level | src/zxspectrum/ula.rs:165-190 | 8 colours wait at phase 0 |
| Ula.LevelStep | src/zxspectrum/ula.rs:165-190 | at every phase at least one colour is queued to paint, and after painting it the level is that of the next phase (8 again after phase 15) |
| Ula.CycleStep | src/zxspectrum/ula.rs:123-126 | the phase advances by one, and within a fetch cycle the beam stays on the display or on the border |
| Ula.Phase | src/zxspectrum/ula.rs:188-209 | ts % 16 equals col % 16 because a line is 448 = 28·16 T-states |
| Ula.AdvanceLinear | src/zxspectrum/ula.rs:201-210 | one step moves the beam's T-state index (row·448 + col) on by one modulo the frame, staying in the frame |
| Ula.ULA.Refill | src/zxspectrum/ula.rs:165-185 | the number of colours queued at the phase: 16 at phase 8 on the display, 8 at phases 6 and 14 on the border, none otherwise |
| Ula.ULA.constructor | src/zxspectrum/ula.rs:59-94 | every field zero, no keys down, an idle bus, eight colours queued, `Valid` |
| Ula.ULA.PortByte | src/zxspectrum/ula.rs:250-271 | the floating bus on a port whose low byte is not 0xFE; on 0xFE a byte with bits 7 and 5 set |
| Ula.ULA.ReadPort | src/zxspectrum/ula.rs:250-271 | the byte is `PortByte`: the keyboard and EAR byte (see `KeyboardReadBits`) on 0xFE, the floating bus otherwise; nothing changes |
| Ula.ULA.WritePort | src/zxspectrum/ula.rs:273-279 | on 0xFE: border = palette entry of bits 2-0, buzzer = bit 4, EAR active = bits 4-3 non-zero; other ports change nothing |
| Ula.ULA.PixelsColors | src/zxspectrum/ula.rs:281-310 | eight colours, colour b being `PixelColor` of pixel b (ink or paper, see `PixelColorSteady`) |
| Ula.ULA.SetBit | src/zxspectrum/ula.rs:396-403 | panics exactly for row > 7, bit 0 or bit > 8, changing nothing; otherwise only that row changes, to `SetKey` of bit − 1 |
| Ula.ULA.ReadPhase | src/zxspectrum/ula.rs:128-163 | even phases request the pixel byte, the attribute and the next two; odd phases latch the byte and drop the request |
| Ula.ULA.Fetch | src/zxspectrum/ula.rs:123-186 | the `Refill` colours are queued, the bus holds `Request`, content is set on the display for phases 0-11, and the bytes are latched at phases 1, 3, 5, 7 |
| Ula.ULA.FrameDone | src/zxspectrum/ula.rs:243-248 | the other bitmap is selected |
| Ula.ULA.Raster | src/zxspectrum/ula.rs:201-216 | the beam advances one T-state, ts follows it, the bitmaps swap when it wraps to (0, 0), and the interrupt is up exactly for col < 64 on line 248 |
| Ula.ULA.Paint | src/zxspectrum/ula.rs:188-224 | the head of the queue is removed and, when `GetXY` maps the beam into the bitmap, written as a pixel at that point of the bitmap being drawn; the beam advances; the queue left holds the level of the next phase |
| Ula.ULA.Tick | src/zxspectrum/ula.rs:112-224 | one T-state: the sound divider counts modulo 200, the fetch and the raster as in `Fetch` and `Raster`, the colour at the head of the queue is painted at `GetXY` of the beam; `Valid` is kept, so the queue never runs dry |
| Ula.ULA.SoundStep | src/zxspectrum/ula.rs:113-121 | the sound divider counts modulo 200 |
| Ula.ULA.CleanKeyboard | src/zxspectrum/ula.rs:405-407 | every half-row is released |
| Tape.ReadDefaultBlock | src/zxspectrum/tap.rs:116-134 | panics exactly when the file ends before the flag; otherwise the block runs from after its two-byte header for the length the header gives, its id is the header's first byte and its flag the byte after the header; pilot 3223 pulses for a flag above 128 and 8063 otherwise; the fixed standard-speed timings |
| Tape.Split | src/zxspectrum/tap.rs:88-97 | at least one block; each block's header follows the previous block's end; only the last block reaches the end of the file |
| Tape.SplitDisjoint | src/zxspectrum/tap.rs:88-97 | blocks never share a byte |
| Tape.ThenStep | src/zxspectrum/tap.rs:88-97 | one turn of the loop moves a block from the blocks still to find to the blocks found |
| Tape.Open | src/zxspectrum/tap.rs:84-97 | a file shorter than 7 bytes panics, a TZX header is unimplemented, and anything else is split |
| Tape.Payload | src/zxspectrum/tap.rs:113 | the block's bytes, or a panic when its range runs past the file |
| Tape.Header | src/zxspectrum/tap.rs:117 | the two-byte little-endian length of a block |
| Tape.ReadEncoded | src/zxspectrum/tap.rs:116-134 | a block written behind its header is read back with its length, flag and bytes |
| Tape.SplitEncode | src/zxspectrum/tap.rs:79-105 | splitting an encoded file gives back the written blocks in order, with their flags |
| Tape.Tap.constructor | src/zxspectrum/tap.rs:98-103 | the tape is at its first block |
| Tape.Tap.New | src/zxspectrum/tap.rs:79-105 | succeeds exactly when `Open` does, with those blocks, the file's bytes and the name, at the first block |
| Tape.Tap.NextBlock | src/zxspectrum/tap.rs:107-114 | past the end, None and the cursor stays; otherwise the block's `Payload` (or its panic) and the cursor moves on |
| Spectrum.Bank | src/zxspectrum/zx48k.rs:133 | `addr >> 14` is below 4 |
| Spectrum.Offset | src/zxspectrum/zx48k.rs:134 | `addr & 0x3FFF` is below 0x4000 |
| Spectrum.BankOffsetInjective | src/zxspectrum/zx48k.rs:132-138 | different addresses have different (bank, offset) pairs |
| Spectrum.RomBank | src/zxspectrum/zx48k.rs:140-147 | bank 0 is exactly the addresses below 0x4000 |
| Spectrum.Store | src/zxspectrum/zx48k.rs:140-160 | the byte at an address after one memory request is served: a write to that address above the ROM stores the data, anything else leaves the byte; `BusTick`, `ServeCpuMemory` and `ServeUlaMemory` state memory through it |
| Spectrum.PortRead | src/zxspectrum/zx48k.rs:162-177 | Kempston for low byte < 0x20 (reads 0), the ULA for an even address, 0xFF otherwise |
| Spectrum.LoadedStep | src/zxspectrum/zx48k.rs:219-223 | copying one more byte changes only the address it goes to |
| Spectrum.LoadedNone | src/zxspectrum/zx48k.rs:219-223 | before the first byte nothing is loaded |
| Spectrum.LoadedInPlace | src/zxspectrum/zx48k.rs:219-223 | a block that fits above the ROM lands byte for byte at IX, IX + 1, ... |
| Spectrum.LoadOutcome | src/zxspectrum/zx48k.rs:195-245 | no block changes nothing; otherwise C = (A' equals the flag byte), PC = 0x05E2 and nothing else changes; it panics exactly when the block is copied and has fewer than DE + 2 bytes |
| Spectrum.Zx48k.constructor | src/zxspectrum/zx48k.rs:54-71 | `MemRead` gives the ROM below 0x4000 and 0 above; a powered-on CPU and ULA; no tape, state Empty |
| Spectrum.Zx48k.MemRead | src/zxspectrum/zx48k.rs:132-138 | the byte at addr's offset in bank addr >> 14, the offset lying below 0x4000; below 0x4000, bank 0 (the ROM) at addr |
| Spectrum.Zx48k.MemWrite | src/zxspectrum/zx48k.rs:140-147 | a write to the ROM bank is dropped; any other write changes exactly the byte at addr |
| Spectrum.Zx48k.PendingBlock | src/zxspectrum/zx48k.rs:196-205 | the bytes of the block under the cursor, empty without a tape or a block, a panic past the file |
| Spectrum.Zx48k.TakeBlock | src/zxspectrum/zx48k.rs:196-205 | returns `PendingBlock`, and the tape cursor moves past the block if there was one |
| Spectrum.Zx48k.CopyBlock | src/zxspectrum/zx48k.rs:218-232 | panics exactly when the block has fewer than requested + 2 bytes; otherwise memory is `Loaded` with the requested bytes |
| Spectrum.Zx48k.LoadTapBlock | src/zxspectrum/zx48k.rs:195-245 | panics as `PendingBlock` or `LoadOutcome` does; otherwise the registers become `LoadOutcome`, memory is `Loaded` exactly when `CopiesBlock` holds (the ROM never changes), and WAIT ends low after a block |
| Spectrum.Zx48k.Reset | src/zxspectrum/zx48k.rs:126-130 | no tape, state Empty |
| Spectrum.Zx48k.BusTick | src/zxspectrum/zx48k.rs:149-193 | memory gets the CPU's and then the ULA's write; the ULA reads what the CPU just wrote; the CPU's port read gets `PortRead`; an even-address OUT reaches `write_port`; the interrupt line is copied |
| Spectrum.Zx48k.ServeCpuMemory | src/zxspectrum/zx48k.rs:150-154 | a read loads the data bus from memory; a write stores it |
| Spectrum.Zx48k.ServeUlaMemory | src/zxspectrum/zx48k.rs:156-160 | the same for the ULA's request |
| Spectrum.Zx48k.ServeCpuPort | src/zxspectrum/zx48k.rs:162-191 | a read gets `PortRead` of the ULA's byte; a write on an even address to port 0xFE sets the border, buzzer and EAR; any other write changes nothing |
| Spectrum.Zx48k.Trap | src/zxspectrum/zx48k.rs:88-103 | at 0x056B the keys are released and Empty → Loading, Loading stays, and Ready loads a block as `LoadTapBlock`; any other address changes nothing |
| Spectrum.Zx48k.Receive | src/zxspectrum/zx48k.rs:107-121 | WAIT raised or dropped, reset, the file opened as a ready tape (a file that does not parse panics), and setting the registers panics (`todo!`) |

## Left out

- Sound: the buzzer's `f32` samples sent on a channel every 200 T-states are not modelled; only the divider is.
- The bitmaps behind their `Mutex` are not fields of the model: painting returns the pixel it writes (the bitmap, the point `get_xy` gives and the colour) instead of storing it.
- Keyboard event polling (`on_key` and the event receiver at the end of `tick`) is not modelled, because it reads a channel; `set_bit` and `clean_keyboard`, which it drives, are modelled.
- The `DrawBuffer` message that `frame_done` sends is not modelled; the bitmap swap is.
- The ULA's `frame` counter is never incremented in the source, so flashing never appears there. The model keeps the counter as a field and proves the flash behaviour for any value.
- `load_rom` reads a file, so the ROM image is the constructor's parameter.
- `load_tap_file` opens a dialog, so it is not modelled; its effect on the tape state (Empty becomes Loading) is.
- `Tap::load` and the conversion of the path to the tape's name are not modelled, because they do I/O; the file's bytes and name are parameters.
- `Tap::load_tap_block` (tap.rs) is not called by the machine and is not modelled; the machine's `load_tap_block` is.
- `run`'s timed loop is not modelled: its 20 ms interval, the T-state budget and the contention test that holds the CPU while the ULA reads the screen are scheduling. `BusTick`, `Trap` and `Receive` are its steps.
- Spectrum.Zx48k.Trap: the address the CPU reports is a parameter, because `CPU::tick` (src/z80/cpu.rs:67) returns nothing.
- Spectrum.Zx48k.Reset: it does not set the CPU's `do_reset` flag, because `CPU` has no such field.
- Spectrum.Zx48k.LoadTapBlock: the checksum is only printed, so the model reads the byte it prints (it can panic) but does not compute it.
- Z80Cpu.CPU.RunCurrent: interrupt mode 2 (`int02`) is `todo!` in the source, so running it panics; its vector read is not modelled.
- Z80Cpu.CPU.Tick: the intermediate states between the wake-up, the selection and the run are ghost out-parameters, so the contract relates them without the caller seeing them.
- Z80Cpu.CPU.PrR: `PARITY_TABLE`, used at src/z80/cpu.rs:669, is not defined in the modelled files, so P/V is even parity, as the Z80 defines it.
- Z80Cpu.CPU.Dispatch: the opcodes handled by helpers that cpu.rs calls but does not define return `NotModelled` with nothing changed. These are the ALU group (`alu`, for x = 2 and ALU n), PUSH/POP, CALL/RET/RST, JP nn, IN/OUT n, EX (SP),HL, DAA, CPL, SCF and CCF. The CB table (`cb_ops`, `rot` and `bit_ops`, src/z80/cpu.rs:246-354) and the ED table (`ed_ops`, src/z80/cpu.rs:200-244) are not modelled either, because their bodies are built on such helpers (`rlc`, `bit`, `res`, `set`, `in_c`, `sbc_hl`, `bli`, ...).
- `dump_registers_aux` is a debug string and is not modelled.
- The instruction bodies call `get_rp`, use the flag fields `f.S`, `f.C`, ... and the operation `MR_N`. None of these is defined in src/z80/registers.rs or src/z80/cpu.rs, so the model reads them as `get_rr`, the lower-case flags and `MrPcN`.
- Spectrum.Zx48k.LoadTapBlock and Disassembler.Disassemble read names the source uses but does not define as used. zx48k.rs:216-217 reads `regs.a_alt` and `regs.f_alt`, which registers.rs:35-36 declares as `a_` and `f_`; the model reads those fields. diss.rs:1 and diss.rs:19 call `crate::z80::cpu::decode`, which cpu.rs does not define, on the `Option<u8>` opcode; the model splits the opcode into x, y, z, p and q as cpu.rs:176-180 does, and a record without an opcode panics. diss.rs:34, 39 and 184 read `fetched.pc`, but `Fetched` (cpu.rs:22-29) has no such field; the model gives `Fetched` a `pc` field, which the CPU leaves 0. diss.rs also reads `Fetched`'s private `prefix` field, which the model reads as any other field.
- The state after a panic is not specified: a method that panics promises only that it reported the panic.
- The ULA's raw `u8` fields that are only read bit by bit (pixel bytes, attributes, keyboard half-rows) are `bv8`.

## Findings

| source | as written | input that shows it | evidently intended | confidence | as-written member | corrected member |
|---|---|---|---|---|---|---|
| src/z80/ops_codes.rs:43-44 | `ld_r_r` reads register y and writes it back into y | `LD B, C` with B = 0, C = 1 leaves B = 0 | register y receives register z | high, not executed | Z80Ops.LdRRAsWritten, Z80Ops.LdRRCounterexample, Z80Cpu.DecodeLdBCAsWritten | Z80Ops.LdRR |
| src/z80/diss.rs:70 | the HALT arm matches y = 0, z = 6 | opcode 0x46 is printed as HALT, and 0x76 as `LD (HL), (HL)` | HALT is y = z = 6 (0x76), the opcode `x1_ops` halts on | high, not executed | Disassembler.LoadTextAsWritten, Disassembler.LoadTextAsWrittenMislabels, Disassembler.MnemonicHaltAsWritten | Disassembler.LoadText, Disassembler.MainTableFixed, Disassembler.MnemonicHalt, Disassembler.DisassembleHalt |
| src/z80/diss.rs:177 | under FD the replacement is `" (IY+{}"` without `)` | FD 34 05 (`INC (IY+5)`) is printed as `INC (IY+5` | `" (IY+{})"`, as under DD | high, not executed | Disassembler.IndexRewriteAsWritten, Disassembler.IndexRewriteAsWrittenOpensParen, Disassembler.Disassemble | Disassembler.IndexRewrite, Disassembler.IndexRewriteHl, Disassembler.DisassembleFixed |
