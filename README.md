# A verified model of the rustARI 6502 interpreter core

rustARI is an Atari 2600 emulator written in Rust. Its core is a partial MOS 6502
interpreter. The state is a 0x1FFF-byte memory array, a status byte of eight flags, a
program counter, the X, Y and A registers and, in the later revision, a stack pointer and
a cycle counter. `execute_step` fetches the opcode at the program counter, dispatches it
to an instruction handler and stores the program counter that the handler returns. Every
fatal condition of the Rust code is a `panic!`:

- an unknown opcode;
- an addressing mode that the handler has no arm for;
- an index past the end of an array.

This project models three parts of the code:

- **rust_ari/src/atari.rs** (the later revision).
  - `AtariSpec` gives each operation as a pure function on a `Cpu` value.
  - `AtariCpu.Atari` is a class with the struct's fields. Its methods update the fields
    in place, and each method is proved to do exactly what its `AtariSpec` function
    describes.
  - On a panic, the method returns `Err(fault)` and leaves the state as it was. The Rust
    code panics before it changes anything.
  - `AtariProperties` proves what the code promises about that specification. This
    includes each of the source's unit tests, stated for every state that holds the
    bytes the test writes.
  - This revision has 42 opcodes. It mirrors writes to their TIA alias (mask 0x10BF) and
    masks absolute addresses to the 13-bit bus (mask 0x1FFF). Its Negative flag means
    "0x40 or more".
- **rustARI/src/main.rs, lines 57-264** (the older revision), in the same shape:
  `LegacySpec`, `LegacyCpu.Atari` and `LegacyProperties`.
  - This revision has no stack pointer, no cycle counter and no mirroring.
  - It reads absolute operands big-endian and sets Negative from bit 1.
  - The class follows the code as written. `LegacySpec` also defines the evidently
    intended `ldy` and dispatch table (see "## Findings").
- **rustARI/src/mem_load.rs**: `MemLoad.WriteRomToMem` is the copying loop. It is proved
  to produce `RomImage(rom)`: zeros below 0x1000, then the cartridge image.

Shared modules:

- `Machine`: byte and word types, memory reads, addressing arithmetic.
- `Flags`: the status-byte masks and their algebra.
- `Wrappers`: `Option` and `Result`.

Integer widths are explicit:

- `u8` and `u16` are newtypes. Every Rust `+` on them wraps, as in a release build.
- `usize` is an unbounded `nat`. The one place where it wraps is the negative branch
  offset of `bne`, which is taken modulo 2^64.

In several places the code departs from the behaviour that the MOS 6502 documents. The
model follows the code in each case:

- **Negative flag.** On a 6502, Negative is bit 7 of the result. `set_flag_neg` tests
  "value ≥ 0x40", and the older `set_flags` tests bit 1.
- **Extra cycle for indexed absolute loads.** A 6502 charges the extra cycle when the
  index carries the address into the next page. The code charges it whenever the
  effective address is 0xFF or more.
- **Flags after register instructions.** On a 6502, INX, INY, DEY, TAY, TYA and TSX
  update Zero and Negative. Here only TAX, TXA and DEX do.
- **ADC.** A 6502's ADC updates Carry, Zero, Overflow and Negative. `adc` updates no
  flag, and nothing in the dispatch table calls it. Its decimal adjustment is also
  wrong whenever a digit column sums to 16 or more. The column carries into the next
  digit before the `> 0x09` test sees it, so 09 + 09 gives 0x12 instead of 0x18, and
  90 + 90 gives 0x20 instead of 0x80 with a carry
  (`AtariProperties.AdcDecimalColumnOverflow`). While both columns stay within 15, the
  result is the decimal sum modulo 100 (`AtariProperties.AdcDecimal`).
- **Program counter field.** `cli`, `cld`, `clc`, `clv` and `sed` increment the `pc`
  field as well as returning pc+1. The field is then overwritten by `execute_step`. The
  model keeps both effects (`Flags.BumpsPcField`).

## Model

| member | source | states |
|---|---|---|
| Machine.ReadMem | rust_ari/src/atari.rs:68-70 | reading a cell succeeds exactly below 0x1FFF and yields that cell; past the end it is an out-of-bounds fault |
| Machine.SignedByte | rust_ari/src/atari.rs:568-570 | the `as i8` reading of the branch offset: a value in -128..127 congruent to the byte modulo 256, negative exactly for bytes from 0x80 |
| Machine.WordOfBytes | rust_ari/src/atari.rs:110-115 | splitting a 16-bit word into its high and low bytes and joining them again are inverse |
| Flags.Ordinal | rust_ari/src/atari.rs:14-23 | the eight flags occupy bit positions 0 to 7 |
| Flags.WriterMaskIsOrdinalBit | rust_ari/src/atari.rs:3-12 | each `FlagWriter` mask is the single bit at its flag's `Flag` position |
| Flags.MasksDisjoint | rust_ari/src/atari.rs:3-12 | the masks of two different flags share no bit |
| Flags.ReadAfterWrite | rust_ari/src/atari.rs:79-91 | after `write_flag(f, v)`, `read_flag(f)` is `v` |
| Flags.ReadAfterWriteOther | rust_ari/src/atari.rs:79-91 | `write_flag(f, v)` leaves every other flag reading as before |
| Flags.WriteKeepsOtherBits | rust_ari/src/atari.rs:84-91 | `write_flag` changes no bit outside the flag's mask |
| Flags.FlagsExtensional | rust_ari/src/atari.rs:79-82 | two status bytes on which all eight flags read alike are equal |
| Flags.WriteFlagExactlyOne | rust_ari/src/atari.rs:84-91 | after `write_flag(f, v)` every flag reads `v` if it is `f` and its old value otherwise |
| Flags.ReadFlag | rust_ari/src/atari.rs:79-82 | `read_flag`: whether the flag's mask bit is set in the status byte; its algebra with `WriteFlag` is proved by ReadAfterWrite, ReadAfterWriteOther and FlagsExtensional |
| Flags.WriteFlag | rust_ari/src/atari.rs:84-91 | `write_flag`: the byte with the mask bit set (`|=`) or cleared (`&= !`); proved by WriteFlagExactlyOne and WriteKeepsOtherBits to change exactly that flag |
| AtariSpec.TranslateAddr | rust_ari/src/atari.rs:130-134 | the bus translation always yields an address no greater than 0x1FFF |
| AtariSpec.TranslateForTia | rust_ari/src/atari.rs:135-139 | the TIA translation always yields an address no greater than 0x10BF |
| AtariSpec.MirrorIndex | rust_ari/src/atari.rs:72-77 | the mirror cell of `write_mem` is always inside the memory array |
| AtariSpec.ResultFlags | rust_ari/src/atari.rs:94-108 | `set_flag_zero` then `set_flag_neg`: Zero exactly for 0, Negative exactly from 0x40, every other flag unchanged |
| AtariSpec.StackCell | rust_ari/src/atari.rs:481-486 | the stack cell 0x100 + S lies in page 1 |
| AtariSpec.AdcSum | rust_ari/src/atari.rs:219-242 | the 16-bit sum of `adc`, after its decimal adjustment, never exceeds 0x265 |
| AtariSpec.New | rust_ari/src/atari.rs:54-65 | the state `Atari::new` builds; the class constructor is proved to produce it |
| AtariSpec.WriteMem | rust_ari/src/atari.rs:72-77 | store at the cell, then at its TIA alias, or an out-of-bounds fault; proved by WriteMemEffect to change exactly those two cells |
| AtariSpec.SetFlagZero | rust_ari/src/atari.rs:94-100 | Zero set exactly for value 0; with SetFlagNeg composed into ResultFlags, whose ensures and ResultFlagTests state the effect |
| AtariSpec.SetFlagNeg | rust_ari/src/atari.rs:102-108 | Negative set exactly for values from 0x40; see ResultFlags |
| AtariSpec.AbsAddr | rust_ari/src/atari.rs:110-115 | the little-endian word at pc+1/pc+2, bus-translated; closed form in AbsoluteAddresses, faults in OperandFaults |
| AtariSpec.AbsAddrY | rust_ari/src/atari.rs:116-122 | the translated word plus Y; closed form in AbsoluteAddresses |
| AtariSpec.AbsAddrX | rust_ari/src/atari.rs:123-129 | the untranslated word plus X modulo 2^16; closed form in AbsoluteAddresses |
| AtariSpec.Target | rust_ari/src/atari.rs:307-314 | the `target_loc` match with the handler's mode list, InvalidMode outside it; proved by ZeroPageAddresses, AbsoluteAddresses and OperandFaults |
| AtariSpec.LoadCycles | rust_ari/src/atari.rs:324-336 | the cycle table of the loads (IMM 2, ZP 3, ABSX/ABSY 4 below 0xFF and 5 from 0xFF, else 4); stated per mode by LoadEffect |
| AtariSpec.Load | rust_ari/src/atari.rs:303-431 | `ldx`, `ldy` and `lda` on the state; LoadEffect states its success condition and full effect |
| AtariSpec.Sta | rust_ari/src/atari.rs:436-465 | `sta` on the state; StaEffect states its success condition and full effect |
| AtariSpec.FlagInstr | rust_ari/src/atari.rs:247-299 | the seven flag instructions; FlagInstrEffect and FlagInstrTable state the effect |
| AtariSpec.Decrement | rust_ari/src/atari.rs:507-520 | the DEX/DEY decrement with 0 going to 0xFF; DecrementUndoesIncrement relates it to the increment |
| AtariSpec.RegisterInstr | rust_ari/src/atari.rs:469-560 | the one-byte transfers, increments and decrements; RegisterInstrEffect states each against an independent source/destination/delta table |
| AtariSpec.Pha | rust_ari/src/atari.rs:481-486 | `pha`; PhaEffect and StackMirror state the effect |
| AtariSpec.BranchTarget | rust_ari/src/atari.rs:568-575 | pc+2 plus the signed offset, modulo 2^64; BranchTargetExamples |
| AtariSpec.Bne | rust_ari/src/atari.rs:564-577 | `bne`; BneEffect states both branches |
| AtariSpec.Jmp | rust_ari/src/atari.rs:581-590 | `jmp`; JmpEffect states the effect and the IND fault |
| AtariSpec.Adc | rust_ari/src/atari.rs:219-242 | `adc`; AdcBinary, AdcDecimal and AdcDecimalColumnOverflow state its binary and decimal results |
| AtariSpec.Decode | rust_ari/src/atari.rs:147-209 | the 42-entry opcode table; a bijection by DecodeThenOpcode and OpcodeThenDecode, its modes accepted by DecodedModesAccepted |
| AtariSpec.Dispatch | rust_ari/src/atari.rs:147-209 | runs a decoded instruction; DispatchCycles and DispatchMemory bound its cost and its writes |
| AtariSpec.Step | rust_ari/src/atari.rs:145-214 | `execute_step`; StepFaults, StepStoresReturnedPc and StepCycles state its faults, stored pc and cost |
| AtariCpu.Atari.constructor | rust_ari/src/atari.rs:54-65 | `Atari::new`: the given memory image and entry pc, all registers, flags and cycles 0, S = 0 |
| AtariCpu.Atari.ReadMem | rust_ari/src/atari.rs:68-70 | `read_mem` on the fields is the memory read of the state |
| AtariCpu.Atari.ReadFlag | rust_ari/src/atari.rs:79-82 | `read_flag` on the flags field: Flags.ReadFlag of the status byte |
| AtariCpu.Atari.WriteMem | rust_ari/src/atari.rs:72-77 | `write_mem` stores the value at the cell and at its TIA alias and nowhere else, or panics past the end with memory unchanged |
| AtariCpu.Atari.WriteFlag | rust_ari/src/atari.rs:84-91 | `write_flag` sets or clears exactly the flag's mask bit |
| AtariCpu.Atari.SetFlagZero | rust_ari/src/atari.rs:94-100 | Zero becomes "value is 0", nothing else changes |
| AtariCpu.Atari.SetFlagNeg | rust_ari/src/atari.rs:102-108 | Negative becomes "value ≥ 0x40", nothing else changes |
| AtariCpu.Atari.AbsAddr | rust_ari/src/atari.rs:110-115 | `abs_addr` on the fields is the specification's little-endian, bus-translated word, or a fault past the end |
| AtariCpu.Atari.AbsAddrY | rust_ari/src/atari.rs:116-122 | `abs_addr_y` on the fields is the specification's translated word plus Y |
| AtariCpu.Atari.AbsAddrX | rust_ari/src/atari.rs:123-129 | `abs_addr_x` on the fields is the specification's word plus X, wrapped to 16 bits |
| AtariCpu.Atari.TargetLoc | rust_ari/src/atari.rs:307-314 | the `target_loc` match of a load or store on the fields is the specification's operand resolution |
| AtariCpu.Atari.ExecuteStep | rust_ari/src/atari.rs:145-214 | `execute_step` takes the fields to the specification's `Step` state, or faults with the state unchanged |
| AtariCpu.Atari.Execute | rust_ari/src/atari.rs:147-209 | the dispatch match runs the decoded instruction as the specification's `Dispatch` does |
| AtariCpu.Atari.ExecuteFlag | rust_ari/src/atari.rs:147-209 | the seven flag-instruction arms have the effect of the specification's `FlagInstr` |
| AtariCpu.Atari.ExecuteRegister | rust_ari/src/atari.rs:147-209 | the one-byte register arms have the effect of the specification's `RegisterInstr` |
| AtariCpu.Atari.Adc | rust_ari/src/atari.rs:219-242 | `adc` leaves A as the specification's wrapped, decimally adjusted sum, nothing else changed |
| AtariCpu.Atari.Sei | rust_ari/src/atari.rs:247-252 | sets Interrupt-disable, 2 cycles, returns pc+1 |
| AtariCpu.Atari.Cli | rust_ari/src/atari.rs:254-260 | clears Interrupt-disable, bumps the pc field, 2 cycles, returns pc+1 |
| AtariCpu.Atari.Cld | rust_ari/src/atari.rs:262-268 | clears Decimal, bumps the pc field, 2 cycles, returns pc+1 |
| AtariCpu.Atari.Clc | rust_ari/src/atari.rs:270-276 | clears Carry, bumps the pc field, 2 cycles, returns pc+1 |
| AtariCpu.Atari.Clv | rust_ari/src/atari.rs:278-284 | clears Overflow, bumps the pc field, 2 cycles, returns pc+1 |
| AtariCpu.Atari.Sed | rust_ari/src/atari.rs:286-292 | sets Decimal, bumps the pc field, 2 cycles, returns pc+1 |
| AtariCpu.Atari.Sec | rust_ari/src/atari.rs:294-299 | sets Carry, 2 cycles, returns pc+1 |
| AtariCpu.Atari.Ldx | rust_ari/src/atari.rs:303-342 | `ldx` has the effect of the specification's `Load` for X, faulting with the state unchanged |
| AtariCpu.Atari.Ldy | rust_ari/src/atari.rs:347-386 | `ldy` has the effect of the specification's `Load` for Y |
| AtariCpu.Atari.Lda | rust_ari/src/atari.rs:391-431 | `lda` has the effect of the specification's `Load` for A |
| AtariCpu.Atari.Sta | rust_ari/src/atari.rs:436-465 | `sta` has the effect of the specification's `Sta`, faulting with the state unchanged |
| AtariCpu.Atari.Txs | rust_ari/src/atari.rs:469-474 | S receives X, 2 cycles, pc+1 |
| AtariCpu.Atari.Tsx | rust_ari/src/atari.rs:475-480 | X receives S, 2 cycles, pc+1 |
| AtariCpu.Atari.Pha | rust_ari/src/atari.rs:481-486 | `pha` has the effect of the specification's `Pha` |
| AtariCpu.Atari.Tax | rust_ari/src/atari.rs:491-498 | X receives A and the flags describe it |
| AtariCpu.Atari.Txa | rust_ari/src/atari.rs:499-506 | A receives X and the flags describe it |
| AtariCpu.Atari.Dex | rust_ari/src/atari.rs:507-520 | X is decremented with 0 going to 0xFF and the flags describe it |
| AtariCpu.Atari.Inx | rust_ari/src/atari.rs:521-527 | X is incremented modulo 256, flags unchanged |
| AtariCpu.Atari.Tay | rust_ari/src/atari.rs:528-534 | Y receives A, flags unchanged |
| AtariCpu.Atari.Tya | rust_ari/src/atari.rs:535-541 | A receives Y, flags unchanged |
| AtariCpu.Atari.Dey | rust_ari/src/atari.rs:542-553 | Y is decremented with 0 going to 0xFF, flags unchanged |
| AtariCpu.Atari.Iny | rust_ari/src/atari.rs:554-560 | Y is incremented modulo 256, flags unchanged |
| AtariCpu.Atari.Bne | rust_ari/src/atari.rs:564-577 | `bne` has the effect of the specification's `Bne` |
| AtariCpu.Atari.Jmp | rust_ari/src/atari.rs:581-590 | `jmp` has the effect of the specification's `Jmp` |
| AtariProperties.WriteMemEffect | rust_ari/src/atari.rs:72-77 | `write_mem` succeeds exactly for a cell in memory, then changes exactly that cell and its TIA alias |
| AtariProperties.TiaTranslationExample | rust_ari/src/atari.rs:1020-1025 | `test_translate_for_tia`: 0xEF3F translates to 0x3F |
| AtariProperties.SplitAddress | rust_ari/src/atari.rs:135-139 | every address is the sum of the six bit fields the TIA mask separates |
| AtariProperties.TiaKeepsDecodedLines | rust_ari/src/atari.rs:135-139 | the TIA translation keeps bits 0-5, 7 and 12 and clears the rest |
| AtariProperties.TiaTranslationIdempotent | rust_ari/src/atari.rs:135-139 | translating a translated address changes nothing |
| AtariProperties.TiaIgnoresBusTranslation | rust_ari/src/atari.rs:130-139 | bus translation before the TIA translation does not change its result |
| AtariProperties.BusTranslationStable | rust_ari/src/atari.rs:130-134 | the bus translation keeps addresses below 0x2000 and is idempotent |
| AtariProperties.ZeroPageAddresses | rust_ari/src/atari.rs:307-314 | immediate is pc+1; ZP is the operand byte; ZPX/ZPY add the index with 8-bit wrap |
| AtariProperties.AbsoluteAddresses | rust_ari/src/atari.rs:110-129 | the absolute forms read a little-endian word; ABS and ABSY are bus-masked (ABSY then adds Y), ABSX adds X with 16-bit wrap |
| AtariProperties.OperandFaults | rust_ari/src/atari.rs:307-314 | an operand byte past the end of memory, or a mode without an arm, is a fault |
| AtariProperties.AbsoluteAddressExample | rust_ari/src/atari.rs:654-667 | `test_ldx_abs`: bytes 0x10, 0x12 give address 0x1210 |
| AtariProperties.LoadEffect | rust_ari/src/atari.rs:303-431 | a load succeeds exactly for an accepted mode whose address resolves and can be read; then the register holds that byte, Zero/Negative describe it, nothing else changes, with the length and cycle tables of the source |
| AtariProperties.InvalidModes | rust_ari/src/atari.rs:701-706 | `test_ldx_invalid_mode` (ABSX), and its twins `test_ldy_invalid_mode` (ABSY, lines 801-806) and `test_lda_invalid_mode` (ZPY, lines 933-938), fault with InvalidMode; the STA IMM clause has no test and follows the `_ => panic!` arm at line 446 |
| AtariProperties.LoadedWhen | rust_ari/src/atari.rs:303-431 | a load of a byte in 1..0x3F sets neither Zero nor Negative, with the given pc and cycles |
| AtariProperties.LdxImmTest | rust_ari/src/atari.rs:611-622 | `test_ldx_imm`, with the next pc 2 as the code computes |
| AtariProperties.LdxImmTestAsWritten | rust_ari/src/atari.rs:618 | the load `test_ldx_imm` runs succeeds but does not return pc 3 |
| AtariProperties.LdxZpTest | rust_ari/src/atari.rs:624-636 | `test_ldx_zp` |
| AtariProperties.LdxZpyTest | rust_ari/src/atari.rs:638-652 | `test_ldx_zpy` |
| AtariProperties.LdxAbsTest | rust_ari/src/atari.rs:654-667 | `test_ldx_abs` |
| AtariProperties.LdxAbsyTest | rust_ari/src/atari.rs:669-683 | `test_ldx_absy` |
| AtariProperties.LdxAbsyPageTest | rust_ari/src/atari.rs:685-699 | `test_ldx_absy_page_boundary`: 5 cycles |
| AtariProperties.LdyImmTest | rust_ari/src/atari.rs:711-722 | `test_ldy_imm` |
| AtariProperties.LdyZpTest | rust_ari/src/atari.rs:724-736 | `test_ldy_zp` |
| AtariProperties.LdyZpxTest | rust_ari/src/atari.rs:738-752 | `test_ldy_zpx` |
| AtariProperties.LdyAbsTest | rust_ari/src/atari.rs:754-767 | `test_ldy_abs` |
| AtariProperties.LdyAbsxTest | rust_ari/src/atari.rs:769-783 | `test_ldy_absx` |
| AtariProperties.LdyAbsxPageTest | rust_ari/src/atari.rs:785-799 | `test_ldx_absx_page_boundary` (an LDY test) |
| AtariProperties.LdaImmTest | rust_ari/src/atari.rs:811-822 | `test_lda_imm` |
| AtariProperties.LdaZpTest | rust_ari/src/atari.rs:824-836 | `test_lda_zp` |
| AtariProperties.LdaZpxTest | rust_ari/src/atari.rs:838-852 | `test_lda_zpx` |
| AtariProperties.LdaAbsTest | rust_ari/src/atari.rs:854-867 | `test_lda_abs` |
| AtariProperties.LdaAbsyTest | rust_ari/src/atari.rs:869-883 | `test_lda_absy` |
| AtariProperties.LdaAbsyPageTest | rust_ari/src/atari.rs:885-899 | `test_lda_absy_page_boundary` |
| AtariProperties.LdaAbsxTest | rust_ari/src/atari.rs:901-915 | `test_lda_absx` |
| AtariProperties.LdaAbsxPageTest | rust_ari/src/atari.rs:917-931 | `test_lda_absx_page_boundary` |
| AtariProperties.ResultFlagTests | rust_ari/src/atari.rs:1027-1063 | the `set_flag_neg` and `set_flag_zero` tests |
| AtariProperties.FlagInstrEffect | rust_ari/src/atari.rs:247-299 | each flag instruction sets its flag to its fixed value, leaves every other flag, register and memory cell alone, costs 2 cycles and returns pc+1; five of them bump the pc field |
| AtariProperties.FlagInstrTable | rust_ari/src/atari.rs:247-299 | which flag each instruction writes and the value it writes |
| AtariProperties.FlagInstrTests | rust_ari/src/atari.rs:944-999 | `test_sec`, `test_cli`, `test_sei`, `test_clv`, `test_cld`, `test_sed` |
| AtariProperties.SecThenClc | rust_ari/src/atari.rs:270-276 | CLC undoes SEC on a status byte with Carry clear |
| AtariProperties.CldThenSed | rust_ari/src/atari.rs:262-268 | SED undoes CLD on a status byte with Decimal set |
| AtariProperties.RegisterInstrEffect | rust_ari/src/atari.rs:469-560 | each transfer/increment/decrement writes source plus delta modulo 256 into its destination, changes no other register, recomputes the flags only for TAX, TXA, DEX, costs 2 cycles and returns pc+1 |
| AtariProperties.DecrementUndoesIncrement | rust_ari/src/atari.rs:507-560 | the DEX/DEY decrement undoes the INX/INY increment |
| AtariProperties.IncrementThenDecrement | rust_ari/src/atari.rs:507-560 | INX then DEX returns X; INY then DEY returns Y |
| AtariProperties.TransferTests | rust_ari/src/atari.rs:1001-1015 | `test_txs` and `test_tsx` |
| AtariProperties.StackMirror | rust_ari/src/atari.rs:481-486 | the TIA alias of stack cell 0x100 + S drops bit 8 and bit 6 of S |
| AtariProperties.PhaEffect | rust_ari/src/atari.rs:481-486 | `pha` writes A at 0x100 + S and its alias only, S goes down with wrap, 3 cycles, pc+1, never fails |
| AtariProperties.StaEffect | rust_ari/src/atari.rs:436-465 | `sta` succeeds exactly for ZP, ZPX, ABS, ABSX, ABSY with an in-memory address; stores A there and at the alias, with the source's length and cycle tables |
| AtariProperties.BneEffect | rust_ari/src/atari.rs:564-577 | with Zero set: 2 cycles and pc+2; otherwise pc+2 plus the signed offset (wrapping to the top of `usize` when negative), 3 cycles |
| AtariProperties.BranchTargetExamples | rust_ari/src/atari.rs:564-577 | offset 0xFE jumps back to the branch; from pc 0, offset 0x80 wraps around |
| AtariProperties.JmpEffect | rust_ari/src/atari.rs:581-590 | `jmp` accepts only ABS, returns the bus-translated address, 3 cycles, nothing else changes |
| AtariProperties.DecodeThenOpcode | rust_ari/src/atari.rs:147-209 | every opcode of the table is the opcode of the instruction it decodes to |
| AtariProperties.OpcodeThenDecode | rust_ari/src/atari.rs:147-209 | every instruction with an opcode decodes back from it |
| AtariProperties.DecodedModesAccepted | rust_ari/src/atari.rs:147-209 | load and store opcodes carry modes their handler accepts |
| AtariProperties.StepFaults | rust_ari/src/atari.rs:145-214 | pc past memory, an unknown opcode, and 0x6C (indirect JMP) are fatal |
| AtariProperties.StepStoresReturnedPc | rust_ari/src/atari.rs:145-214 | `execute_step` stores the pc the handler returned |
| AtariProperties.DispatchCycles | rust_ari/src/atari.rs:147-209 | every completed instruction costs 2 to 5 cycles |
| AtariProperties.DispatchMemory | rust_ari/src/atari.rs:147-209 | only STA and PHA change memory |
| AtariProperties.StepCycles | rust_ari/src/atari.rs:145-214 | a completed step raises the cycle count by 2 to 5 |
| AtariProperties.AdcBinary | rust_ari/src/atari.rs:219-242 | in binary mode, A becomes A + value + carry modulo 256 and nothing else changes |
| AtariProperties.LowColumnFix | rust_ari/src/atari.rs:226-228 | the low-digit adjustment turns a column of 10-15 into a digit and a carry |
| AtariProperties.HighColumnFix | rust_ari/src/atari.rs:230-232 | the high-digit adjustment turns a column of 10-15 into a digit and a carry |
| AtariProperties.DecimalColumns | rust_ari/src/atari.rs:219-242 | the decimal value of a two-column sum, modulo 100 |
| AtariProperties.BcdColumns | rust_ari/src/atari.rs:219-242 | the adjustment on column sums up to 15 each gives their decimal sum modulo 100 |
| AtariProperties.AdcDecimal | rust_ari/src/atari.rs:219-242 | in decimal mode, two BCD bytes whose digit columns stay within 15 add to their decimal sum modulo 100 |
| AtariProperties.AdcDecimalColumnOverflow | rust_ari/src/atari.rs:219-242 | 09 + 09 gives 0x12 and 90 + 90 gives 0x20 |
| LegacyCpu.Atari.constructor | rustARI/src/main.rs:338-343 | the struct literal `Atari { memory, flags, pc, xReg, yReg, aReg }` of `setup_atari` (and of `main`, lines 278-283): the given memory, flags, pc and registers |
| LegacyCpu.Atari.ReadMem | rustARI/src/main.rs:68-70 | `read_mem` on the fields is the memory read of the state |
| LegacyCpu.Atari.ReadFlag | rustARI/src/main.rs:76-79 | `read_flag` on the flags field: Flags.ReadFlag of the status byte |
| LegacyCpu.Atari.WriteMem | rustARI/src/main.rs:72-74 | `write_mem` stores exactly one cell, or panics past the end with memory unchanged |
| LegacyCpu.Atari.WriteFlag | rustARI/src/main.rs:81-88 | `write_flag` sets or clears exactly the flag's mask bit |
| LegacyCpu.Atari.ExecuteStep | rustARI/src/main.rs:91-125 | `execute_step` takes the fields to the specification's `Step` state, or faults with the state unchanged |
| LegacyCpu.Atari.ExecuteFlag | rustARI/src/main.rs:97-103 | the seven flag arms have the effect of `FlagInstr` |
| LegacyCpu.Atari.SetFlags | rustARI/src/main.rs:127-139 | `set_flags` is the specification's Zero/bit-1 Negative update |
| LegacyCpu.Atari.AbsAddr | rustARI/src/main.rs:141-146 | `abs_addr` on the fields is the big-endian word, or a fault past the end |
| LegacyCpu.Atari.AbsAddrY | rustARI/src/main.rs:147-153 | `abs_addr_y` on the fields is the big-endian word plus Y |
| LegacyCpu.Atari.AbsAddrX | rustARI/src/main.rs:154-160 | `abs_addr_x` on the fields is the big-endian word plus X |
| LegacyCpu.Atari.TargetLoc | rustARI/src/main.rs:215-222 | the `target_loc` match of a load on the fields is the specification's resolution |
| LegacyCpu.Atari.Sei | rustARI/src/main.rs:163-167 | sets Interrupt-disable, returns pc+1 |
| LegacyCpu.Atari.Cli | rustARI/src/main.rs:169-174 | clears Interrupt-disable, bumps the pc field, returns pc+1 |
| LegacyCpu.Atari.Cld | rustARI/src/main.rs:176-181 | clears Decimal, bumps the pc field, returns pc+1 |
| LegacyCpu.Atari.Clc | rustARI/src/main.rs:183-188 | clears Carry, bumps the pc field, returns pc+1 |
| LegacyCpu.Atari.Clv | rustARI/src/main.rs:190-195 | clears Overflow, bumps the pc field, returns pc+1 |
| LegacyCpu.Atari.Sed | rustARI/src/main.rs:197-202 | sets Decimal, bumps the pc field, returns pc+1 |
| LegacyCpu.Atari.Sec | rustARI/src/main.rs:204-208 | sets Carry, returns pc+1 |
| LegacyCpu.Atari.Ldx | rustARI/src/main.rs:212-235 | `ldx` has the effect of the specification's `Ldx`, faulting with the state unchanged |
| LegacyCpu.Atari.Ldy | rustARI/src/main.rs:239-262 | `ldy` as written has the effect of the specification's `Ldy` |
| LegacySpec.WriteMem | rustARI/src/main.rs:72-74 | a single store or an out-of-bounds fault; WriteMemEffect |
| LegacySpec.SetFlags | rustARI/src/main.rs:127-139 | Zero from value 0, Negative from bit 1; SetFlagsEffect and SetFlagsExamples |
| LegacySpec.AbsAddr | rustARI/src/main.rs:141-146 | the big-endian word at pc+1/pc+2, untranslated; AbsoluteAddresses and AbsoluteAddressFaults |
| LegacySpec.AbsAddrY | rustARI/src/main.rs:147-153 | the big-endian word plus Y modulo 2^16; AbsoluteAddresses |
| LegacySpec.AbsAddrX | rustARI/src/main.rs:154-160 | the big-endian word plus X modulo 2^16; AbsoluteAddresses |
| LegacySpec.Target | rustARI/src/main.rs:215-222 | the `target_loc` match with the handler's mode list; LdxEffect, LdyEffect and InvalidModes |
| LegacySpec.Ldx | rustARI/src/main.rs:212-235 | `ldx`; LdxEffect |
| LegacySpec.Ldy | rustARI/src/main.rs:239-262 | `ldy` as written, flags from X; LdyEffect and LdyFlagsFromX |
| LegacySpec.IntendedLdy | rustARI/src/main.rs:239-262 | `ldy` with `set_flags` of the loaded byte; IntendedLdyEffect |
| LegacySpec.FlagInstr | rustARI/src/main.rs:163-208 | the seven flag instructions without a cycle count; FlagInstrEffect |
| LegacySpec.Decode | rustARI/src/main.rs:95-120 | the dispatch table as written, LDY opcodes to `ldx`; LdyOpcodesRunLdx and DecodeNotInjective |
| LegacySpec.IntendedDecode | rustARI/src/main.rs:113-117 | the table with the LDY opcodes sent to `ldy`; IntendedLdyOpcodes, IntendedDecodeAgrees and IntendedDecodeInjective |
| LegacySpec.Dispatch | rustARI/src/main.rs:95-120 | runs a decoded instruction with `ldy` as written; StepKeepsMemory |
| LegacySpec.IntendedDispatch | rustARI/src/main.rs:113-117 | runs a decoded instruction with the intended `ldy`; IntendedLdyOpcodes |
| LegacySpec.Step | rustARI/src/main.rs:91-125 | `execute_step` as written; StepFaults, StepKeepsMemory and LdyOpcodesRunLdx |
| LegacySpec.IntendedStep | rustARI/src/main.rs:91-125 | `execute_step` with the intended table and `ldy`; IntendedLdyOpcodes and StepKeepsMemory |
| LegacyProperties.WriteMemEffect | rustARI/src/main.rs:72-74 | `write_mem` changes exactly one cell and panics past the end |
| LegacyProperties.SetFlagsEffect | rustARI/src/main.rs:127-139 | Zero exactly for 0, Negative exactly when bit 1 is set, no other flag changes |
| LegacyProperties.SetFlagsExamples | rustARI/src/main.rs:127-139 | 0x80 leaves Negative clear; 0x02 sets it |
| LegacyProperties.AbsoluteAddresses | rustARI/src/main.rs:141-160 | the absolute forms read a big-endian word with no bus translation; the indexed ones add the register as a 16-bit sum |
| LegacyProperties.AbsoluteAddressFaults | rustARI/src/main.rs:141-146 | an absolute operand past the end faults on the first missing byte |
| LegacyProperties.AbsoluteAddressExample | rustARI/src/main.rs:377-386 | `test_ldx_abs`: bytes 0x10, 0x12 give 0x1012 |
| LegacyProperties.LdxEffect | rustARI/src/main.rs:212-235 | `ldx` succeeds exactly for IMM, ZP, ZPY, ABS, ABSY with a readable address; X holds the byte, flags are `set_flags` of it, nothing else changes, pc+2 or pc+3 |
| LegacyProperties.LdyEffect | rustARI/src/main.rs:239-262 | `ldy` as written loads Y but sets Zero and Negative from X |
| LegacyProperties.LdyFlagsFromX | rustARI/src/main.rs:260 | with X = 0, loading 5 into Y sets Zero |
| LegacyProperties.IntendedLdyEffect | rustARI/src/main.rs:239-262 | the intended `ldy` sets Zero and Negative from the loaded byte, as `ldx` does |
| LegacyProperties.InvalidModes | rustARI/src/main.rs:400-405 | `test_ldx_invalid_mode` (ABSX) and `test_ldy_invalid_mode` (ABSY, lines 462-467) fault with InvalidMode |
| LegacyProperties.LdxTests | rustARI/src/main.rs:346-398 | the five LDX unit tests |
| LegacyProperties.LdyTests | rustARI/src/main.rs:407-460 | the five LDY unit tests |
| LegacyProperties.FlagInstrEffect | rustARI/src/main.rs:163-208 | each flag instruction sets its flag, leaves all else alone and returns pc+1; five bump the pc field |
| LegacyProperties.LdyOpcodesRunLdx | rustARI/src/main.rs:112-117 | as written, opcode 0xA0 loads X and 0xB4 and 0xBC fault on their mode |
| LegacyProperties.IntendedLdyOpcodes | rustARI/src/main.rs:112-117 | with the intended table, every LDY opcode loads Y and never faults on its mode |
| LegacyProperties.IntendedDecodeAgrees | rustARI/src/main.rs:91-125 | outside the LDY opcodes the intended table is the table as written |
| LegacyProperties.IntendedDecodeInjective | rustARI/src/main.rs:91-125 | the intended table maps different opcodes to different instructions |
| LegacyProperties.DecodeNotInjective | rustARI/src/main.rs:106-117 | the table as written sends 0xA0 and 0xA2 to the same instruction |
| LegacyProperties.StepFaults | rustARI/src/main.rs:91-125 | pc past memory and an unknown opcode are fatal |
| LegacyProperties.StepKeepsMemory | rustARI/src/main.rs:91-125 | no instruction of this revision writes memory |
| MemLoad.RomImage | rustARI/src/mem_load.rs:1-14 | the loaded memory: cell i holds image byte i - 0x1000 from 0x1000 up, 0 below |
| MemLoad.RomTailIgnored | rustARI/src/mem_load.rs:7-11 | image bytes past the first 0xFFF do not affect the memory |
| MemLoad.WriteRomToMem | rustARI/src/mem_load.rs:1-14 | succeeds exactly when the image has at least 0xFFF bytes, returning `RomImage`; otherwise panics at index `rom.len()` |

## Left out

- Console output (`println!`), `main`, the frame loop and ROM file reading (rust_ari/src/main.rs, `rom_read`) are I/O. rust_ari/src/main.rs is not part of this model.
- The `if self.pc == 0 { return; }` at the end of `execute_step` (rust_ari/src/atari.rs:211-213, rustARI/src/main.rs:121-123) has no effect, because it comes after the store, and is not modelled.
- Debug-build overflow panics are not modelled. Every `u8`/`u16` addition wraps, as in a release build.
- Overflow of `usize` in `pc + n` is not modelled, since `nat` is unbounded. The i32 cast in `bne` is exact, because it is only reached for a pc inside the memory.
- LegacyCpu.Atari: the class follows the older code as written. The corrected `ldy` and dispatch table exist only as `LegacySpec.IntendedLdy`, `IntendedDecode` and `IntendedStep`, with their proofs in `LegacyProperties`.
- A memory image shorter than 0x1FFF cells cannot be passed to `Atari::new`, because the Rust type fixes its length. `Memory` has exactly that length.

## Findings

| source | as written | input that shows it | evidently intended | confidence | as-written member | corrected member |
|---|---|---|---|---|---|---|
| rustARI/src/main.rs:112-117 | the LDY opcodes 0xA0, 0xA4, 0xB4, 0xAC and 0xBC call `ldx` | opcode 0xB4 at pc panics with an invalid addressing mode (ZPX), and 0xA0 loads X instead of Y | these opcodes call `ldy` with the same modes | not executed | LegacyProperties.LdyOpcodesRunLdx | LegacyProperties.IntendedLdyOpcodes |
| rustARI/src/main.rs:260 | `ldy` ends with `set_flags(self.xReg)` | X = 0 and an immediate operand 5: Y = 5 but Zero is set | `set_flags(self.yReg)` | not executed | LegacyProperties.LdyFlagsFromX | LegacyProperties.IntendedLdyEffect |
| rust_ari/src/atari.rs:618 | `test_ldx_imm` asserts that `ldx(Mode::IMM, 0)` returns 3 | the test's own state: memory[1] = 0x10, pc 0; `ldx` returns 2 (rust_ari/src/atari.rs:318-319), so the assertion fails | the test asserts 2, the length of an immediate load | not executed | AtariProperties.LdxImmTestAsWritten | AtariProperties.LdxImmTest |
