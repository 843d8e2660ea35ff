/** What the older interpreter of rustARI/src/main.rs guarantees, stated over the
    functions of LegacySpec, including the two places where the code as written departs
    from what it evidently intends and the proofs that the intended versions do better. */
module LegacyProperties {
  import opened Wrappers
  import opened Machine
  import opened Flags
  import opened LegacySpec

  // ------------------------------------------------------------ memory and flags

  /** `write_mem` changes exactly the one cell (no TIA mirroring in this revision) and
      panics past the end of the array. */
  lemma WriteMemEffect(mem: Memory, cell: nat, v: u8)
    ensures WriteMem(mem, cell, v).Ok? <==> cell < MemSize
    ensures cell >= MemSize ==> WriteMem(mem, cell, v) == Err(OutOfBounds(cell))
    ensures cell < MemSize ==>
      var m := WriteMem(mem, cell, v).value;
      m[cell] == v && forall i :: 0 <= i < MemSize && i != cell ==> m[i] == mem[i]
  {
  }

  /** `set_flags`: Zero is set exactly for 0, Negative exactly when bit 1 (value 2) is set,
      and no other flag changes. */
  lemma SetFlagsEffect(flags: bv8, v: u8)
    ensures ReadFlag(SetFlags(flags, v), Zero) <==> v == 0
    ensures ReadFlag(SetFlags(flags, v), Neg) <==> v as int % 4 >= 2
    ensures forall g: Flag :: g != Zero && g != Neg ==> ReadFlag(SetFlags(flags, v), g) == ReadFlag(flags, g)
  {
    WriteFlagExactlyOne(flags, Zero, v == 0);
    WriteFlagExactlyOne(WriteFlag(flags, Zero, v == 0), Neg, BitOne(v));
  }

  /** Bit 1 is not the sign bit: 0x80 leaves Negative clear and 0x02 sets it. */
  lemma SetFlagsExamples()
    ensures !ReadFlag(SetFlags(0, 0x80), Neg)
    ensures ReadFlag(SetFlags(0, 0x02), Neg)
  {
    SetFlagsEffect(0, 0x80);
    SetFlagsEffect(0, 0x02);
  }

  // ------------------------------------------------------------ addressing

  /** The absolute forms read a big-endian word, with no bus translation: the byte at
      pc+1 is the high one. The indexed forms add the register as a 16-bit sum. */
  lemma AbsoluteAddresses(c: Cpu, pc: nat)
    requires pc + 2 < MemSize
    ensures
      var w := c.mem[pc + 1] as int * 0x100 + c.mem[pc + 2] as int;
      AbsAddr(c, pc) == Ok(w) &&
      AbsAddrY(c, pc) == Ok((w + c.y as int) % 0x1_0000) &&
      AbsAddrX(c, pc) == Ok((w + c.x as int) % 0x1_0000)
  {
  }

  /** Reading an absolute operand past the end of memory fails on the first missing byte. */
  lemma AbsoluteAddressFaults(c: Cpu, pc: nat)
    ensures pc + 1 >= MemSize ==> AbsAddr(c, pc) == Err(OutOfBounds(pc + 1))
    ensures pc + 1 < MemSize <= pc + 2 ==> AbsAddr(c, pc) == Err(OutOfBounds(pc + 2))
  {
  }

  /** `test_ldx_abs`: the bytes 0x10, 0x12 after the opcode address cell 0x1012. */
  lemma AbsoluteAddressExample(c: Cpu)
    requires c.mem[1] == 0x10 && c.mem[2] == 0x12
    ensures AbsAddr(c, 0) == Ok(0x1012)
  {
    AbsoluteAddresses(c, 0);
  }

  // ------------------------------------------------------------ loads

  /** `ldx`: it succeeds exactly when the mode is IMM, ZP, ZPY, ABS or ABSY and the address
      can be computed and read. Then X holds the byte at the address, the flags are
      `set_flags` of that byte, Y, A, memory and the pc field are untouched, and the
      returned pc is pc+2 for IMM, ZP, ZPY and pc+3 for ABS, ABSY. */
  lemma LdxEffect(c: Cpu, mode: Mode, pc: nat)
    ensures Ldx(c, mode, pc).Ok? <==>
      mode in LdxModes && Target(c, LdxModes, mode, pc).Ok? && Target(c, LdxModes, mode, pc).value < MemSize
    ensures mode !in LdxModes ==> Ldx(c, mode, pc) == Err(InvalidMode(mode))
    ensures Ldx(c, mode, pc).Ok? ==>
      var v := c.mem[Target(c, LdxModes, mode, pc).value];
      var n := Ldx(c, mode, pc).value;
      n.cpu == c.(x := v, flags := n.cpu.flags) &&
      (ReadFlag(n.cpu.flags, Zero) <==> v == 0) && (ReadFlag(n.cpu.flags, Neg) <==> v as int % 4 >= 2) &&
      (forall g: Flag :: g != Zero && g != Neg ==> ReadFlag(n.cpu.flags, g) == ReadFlag(c.flags, g)) &&
      n.pc == pc + (if mode in {Imm, Zp, Zpy} then 2 else 3)
  {
    if Ldx(c, mode, pc).Ok? {
      SetFlagsEffect(c.flags, c.mem[Target(c, LdxModes, mode, pc).value]);
    }
  }

  /** `ldy` as written: Y receives the byte at the address (modes IMM, ZP, ZPX, ABS, ABSX),
      but Zero and Negative describe X, which the instruction does not change. */
  lemma LdyEffect(c: Cpu, mode: Mode, pc: nat)
    ensures Ldy(c, mode, pc).Ok? <==>
      mode in LdyModes && Target(c, LdyModes, mode, pc).Ok? && Target(c, LdyModes, mode, pc).value < MemSize
    ensures mode !in LdyModes ==> Ldy(c, mode, pc) == Err(InvalidMode(mode))
    ensures Ldy(c, mode, pc).Ok? ==>
      var v := c.mem[Target(c, LdyModes, mode, pc).value];
      var n := Ldy(c, mode, pc).value;
      n.cpu == c.(y := v, flags := n.cpu.flags) &&
      (ReadFlag(n.cpu.flags, Zero) <==> c.x == 0) && (ReadFlag(n.cpu.flags, Neg) <==> c.x as int % 4 >= 2) &&
      n.pc == pc + (if mode in {Imm, Zp, Zpx} then 2 else 3)
  {
    SetFlagsEffect(c.flags, c.x);
  }

  /** The flags `ldy` leaves can contradict the byte it loaded: with X = 0, loading 5
      sets Zero. */
  lemma LdyFlagsFromX(c: Cpu)
    requires c.x == 0 && c.mem[1] == 5
    ensures Ldy(c, Imm, 0).Ok? && Ldy(c, Imm, 0).value.cpu.y == 5
    ensures ReadFlag(Ldy(c, Imm, 0).value.cpu.flags, Zero)
  {
    LdyEffect(c, Imm, 0);
  }

  /** The intended `ldy`: the same as `ldy` except that Zero and Negative describe the
      loaded byte, as they do for `ldx`. */
  lemma IntendedLdyEffect(c: Cpu, mode: Mode, pc: nat)
    ensures IntendedLdy(c, mode, pc).Ok? <==> Ldy(c, mode, pc).Ok?
    ensures IntendedLdy(c, mode, pc).Err? ==> IntendedLdy(c, mode, pc) == Ldy(c, mode, pc)
    ensures IntendedLdy(c, mode, pc).Ok? ==>
      var v := c.mem[Target(c, LdyModes, mode, pc).value];
      var n := IntendedLdy(c, mode, pc).value;
      n.cpu == Ldy(c, mode, pc).value.cpu.(flags := n.cpu.flags) && n.pc == Ldy(c, mode, pc).value.pc &&
      (ReadFlag(n.cpu.flags, Zero) <==> v == 0) && (ReadFlag(n.cpu.flags, Neg) <==> v as int % 4 >= 2) &&
      (forall g: Flag :: g != Zero && g != Neg ==> ReadFlag(n.cpu.flags, g) == ReadFlag(c.flags, g))
  {
    if IntendedLdy(c, mode, pc).Ok? {
      SetFlagsEffect(c.flags, c.mem[Target(c, LdyModes, mode, pc).value]);
    }
  }

  /** `test_ldx_invalid_mode` and `test_ldy_invalid_mode`. */
  lemma InvalidModes(c: Cpu, pc: nat)
    ensures Ldx(c, Absx, pc) == Err(InvalidMode(Absx))
    ensures Ldy(c, Absy, pc) == Err(InvalidMode(Absy))
  {
  }

  /** `test_ldx_imm`, `test_ldx_zp`, `test_ldx_zpy`, `test_ldx_abs` and `test_ldx_absy`,
      each for every state holding the bytes the test writes. */
  lemma LdxTests(c: Cpu)
    ensures c.mem[1] == 0x10 ==> Ldx(c, Imm, 0).Ok? && Ldx(c, Imm, 0).value.cpu.x == 0x10
    ensures c.mem[1] == 0x10 && c.mem[0x10] == 0x12 ==> Ldx(c, Zp, 0).Ok? && Ldx(c, Zp, 0).value.cpu.x == 0x12
    ensures c.mem[1] == 0x10 && c.mem[0x15] == 0x9 && c.y == 5 ==>
      Ldx(c, Zpy, 0).Ok? && Ldx(c, Zpy, 0).value.cpu.x == 0x9
    ensures c.mem[1] == 0x10 && c.mem[2] == 0x12 && c.mem[0x1012] == 0x9 ==>
      Ldx(c, Abs, 0).Ok? && Ldx(c, Abs, 0).value.cpu.x == 0x9
    ensures c.mem[1] == 0x10 && c.mem[2] == 0x12 && c.mem[0x1017] == 0x9 && c.y == 5 ==>
      Ldx(c, Absy, 0).Ok? && Ldx(c, Absy, 0).value.cpu.x == 0x9
  {
    AbsoluteAddresses(c, 0);
  }

  /** `test_ldy_imm`, `test_ldy_zp`, `test_ldy_zpx`, `test_ldy_abs` and `test_ldy_absy`
      (which uses ABSX). */
  lemma LdyTests(c: Cpu)
    ensures c.mem[1] == 0x10 ==> Ldy(c, Imm, 0).Ok? && Ldy(c, Imm, 0).value.cpu.y == 0x10
    ensures c.mem[1] == 0x10 && c.mem[0x10] == 0x12 ==> Ldy(c, Zp, 0).Ok? && Ldy(c, Zp, 0).value.cpu.y == 0x12
    ensures c.mem[1] == 0x10 && c.mem[0x15] == 0x9 && c.x == 5 ==>
      Ldy(c, Zpx, 0).Ok? && Ldy(c, Zpx, 0).value.cpu.y == 0x9
    ensures c.mem[1] == 0x10 && c.mem[2] == 0x12 && c.mem[0x1012] == 0x9 ==>
      Ldy(c, Abs, 0).Ok? && Ldy(c, Abs, 0).value.cpu.y == 0x9
    ensures c.mem[1] == 0x10 && c.mem[2] == 0x12 && c.mem[0x1017] == 0x9 && c.x == 5 ==>
      Ldy(c, Absx, 0).Ok? && Ldy(c, Absx, 0).value.cpu.y == 0x9
  {
    AbsoluteAddresses(c, 0);
  }

  // ------------------------------------------------------------ flag instructions

  /** Each flag instruction sets its one flag to its fixed value, leaves the other flags,
      the registers and memory alone and returns pc+1; the five whose body increments
      the `pc` field do so. */
  lemma FlagInstrEffect(c: Cpu, op: FlagOp, pc: nat)
    ensures var n := FlagInstr(c, op, pc);
      ReadFlag(n.cpu.flags, FlagOf(op)) == ValueOf(op) &&
      (forall g: Flag :: g != FlagOf(op) ==> ReadFlag(n.cpu.flags, g) == ReadFlag(c.flags, g)) &&
      n.pc == pc + 1 && n.cpu.pc == (if op in {Sec, Sei} then c.pc else c.pc + 1) &&
      n.cpu.mem == c.mem && n.cpu.x == c.x && n.cpu.y == c.y && n.cpu.a == c.a
  {
    WriteFlagExactlyOne(c.flags, FlagOf(op), ValueOf(op));
  }

  // ------------------------------------------------------------ dispatch

  /** As written, the dispatch table sends the LDY opcodes to `ldx`: 0xA0 loads X, and
      0xB4 and 0xBC fail because `ldx` has no ZPX or ABSX arm. */
  lemma LdyOpcodesRunLdx(c: Cpu)
    requires c.pc < MemSize
    ensures c.mem[c.pc] in LdyOpcodes ==> Decode(c.mem[c.pc]).Some? && Decode(c.mem[c.pc]).value.LoadX?
    ensures c.mem[c.pc] == 0xB4 ==> Step(c) == Err(InvalidMode(Zpx))
    ensures c.mem[c.pc] == 0xBC ==> Step(c) == Err(InvalidMode(Absx))
    ensures c.mem[c.pc] == 0xA0 && c.pc + 1 < MemSize ==>
      Step(c).Ok? && Step(c).value.x == c.mem[c.pc + 1] && Step(c).value.y == c.y
  {
  }

  /** With the intended table every LDY opcode runs the intended `ldy` in a mode it has
      an arm for, so it never fails on its mode, and it loads Y and not X. */
  lemma IntendedLdyOpcodes(c: Cpu)
    requires c.pc < MemSize && c.mem[c.pc] in LdyOpcodes
    ensures IntendedDecode(c.mem[c.pc]).Some? && IntendedDecode(c.mem[c.pc]).value.LoadY?
    ensures IntendedDecode(c.mem[c.pc]).value.mode in LdyModes
    ensures IntendedStep(c).Err? ==> IntendedStep(c).error.OutOfBounds?
    ensures IntendedStep(c).Ok? ==> IntendedStep(c).value.x == c.x
  {
  }

  /** Outside the LDY opcodes the intended table is the table as written. */
  lemma IntendedDecodeAgrees(op: u8)
    requires op !in LdyOpcodes
    ensures IntendedDecode(op) == Decode(op)
  {
  }

  /** The opcode of an instruction in the intended table, if it has one. */
  function IntendedOpcode(ins: Instruction): Option<u8> {
    match ins
    case FlagInstruction(op) =>
      Some(match op case Clc => 0x18 case Sec => 0x38 case Cli => 0x58 case Sei => 0x78
                    case Clv => 0xB8 case Cld => 0xD8 case Sed => 0xF8)
    case LoadX(mode) =>
      (match mode
      case Imm => Some(0xA2) case Zp => Some(0xA6) case Zpy => Some(0xB6)
      case Abs => Some(0xAE) case Absy => Some(0xBE) case _ => None)
    case LoadY(mode) =>
      (match mode
      case Imm => Some(0xA0) case Zp => Some(0xA4) case Zpx => Some(0xB4)
      case Abs => Some(0xAC) case Absx => Some(0xBC) case _ => None)
  }

  /** The intended table is one-to-one: each opcode in it is the opcode of its instruction. */
  lemma IntendedDecodeInjective(op: u8)
    ensures IntendedDecode(op).Some? ==> IntendedOpcode(IntendedDecode(op).value) == Some(op)
  {
  }

  /** The table as written is not: 0xA0 and 0xA2 both decode to LDX immediate. */
  lemma DecodeNotInjective()
    ensures Decode(0xA0) == Decode(0xA2) == Some(LoadX(Imm))
  {
  }

  /** The fatal conditions of `execute_step`: a pc past the end of memory and an opcode
      outside the table. */
  lemma StepFaults(c: Cpu)
    ensures c.pc >= MemSize ==> Step(c) == Err(OutOfBounds(c.pc))
    ensures c.pc < MemSize && Decode(c.mem[c.pc]).None? ==> Step(c) == Err(NotImplemented(c.mem[c.pc]))
  {
  }

  /** No instruction of this revision writes memory. */
  lemma StepKeepsMemory(c: Cpu)
    ensures Step(c).Ok? ==> Step(c).value.mem == c.mem
    ensures IntendedStep(c).Ok? ==> IntendedStep(c).value.mem == c.mem
  {
  }
}
