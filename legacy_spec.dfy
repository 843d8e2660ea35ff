/** The older interpreter of rustARI/src/main.rs (the `Atari` struct and its impl) as pure
    functions on its state. This revision has no stack pointer, no cycle counter and no
    TIA mirroring, reads absolute addresses big-endian and takes Negative from bit 1.
    Besides the functions that follow the code as written, `IntendedLdy`, `IntendedDecode`
    and `IntendedStep` give the behaviour the code evidently means, where it differs. */
module LegacySpec {
  import opened Wrappers
  import opened Machine
  import opened Flags

  /** The fields of the older `Atari` struct. */
  datatype Cpu = Cpu(mem: Memory, flags: bv8, pc: nat, x: u8, y: u8, a: u8)

  /** The state after an instruction and the program counter the instruction returns. */
  datatype Next = Next(cpu: Cpu, pc: nat)

  /** `write_mem`: a single store, which panics past the end of the array. */
  function WriteMem(mem: Memory, cell: nat, v: u8): Result<Memory, Fault> {
    if cell < MemSize then Ok(mem[cell := v]) else Err(OutOfBounds(cell))
  }

  /** Bit 1 of the byte, the bit `set_flags` tests with `val & (1 << 1)`. */
  predicate BitOne(v: u8) {
    v as int / 2 % 2 == 1
  }

  /** `set_flags`: Zero when the value is 0, Negative when its bit 1 is set. */
  function SetFlags(flags: bv8, v: u8): bv8 {
    WriteFlag(WriteFlag(flags, Zero, v == 0), Neg, BitOne(v))
  }

  /** `p1 << 8 | p2` with p1 the byte at pc+1 and p2 the byte at pc+2: big-endian. */
  function AbsWord(c: Cpu, pc: nat): Result<u16, Fault> {
    var p1 :- ReadMem(c.mem, pc + 1);
    var p2 :- ReadMem(c.mem, pc + 2);
    Ok(Word(p1, p2))
  }

  /** `abs_addr`: the word itself, with no bus translation. */
  function AbsAddr(c: Cpu, pc: nat): Result<nat, Fault> {
    var w :- AbsWord(c, pc);
    Ok(w as int)
  }

  /** `abs_addr_y`: the word plus Y as a 16-bit sum. */
  function AbsAddrY(c: Cpu, pc: nat): Result<nat, Fault> {
    var w :- AbsWord(c, pc);
    Ok(OffsetAddr(w, c.y))
  }

  /** `abs_addr_x`: the word plus X as a 16-bit sum. */
  function AbsAddrX(c: Cpu, pc: nat): Result<nat, Fault> {
    var w :- AbsWord(c, pc);
    Ok(OffsetAddr(w, c.x))
  }

  /** The modes `ldx` and `ldy` have arms for. */
  const LdxModes: set<Mode> := {Imm, Zp, Zpy, Abs, Absy}
  const LdyModes: set<Mode> := {Imm, Zp, Zpx, Abs, Absx}

  /** The `target_loc` match of `ldx` (`modes` = LdxModes) or `ldy` (LdyModes). */
  function Target(c: Cpu, modes: set<Mode>, mode: Mode, pc: nat): Result<nat, Fault>
    requires modes <= {Imm, Zp, Zpx, Zpy, Abs, Absx, Absy}
  {
    if mode !in modes then Err(InvalidMode(mode))
    else
      match mode
      case Imm => Ok(pc + 1)
      case Zp =>
        var b :- ReadMem(c.mem, pc + 1);
        Ok(b as int)
      case Zpx =>
        var b :- ReadMem(c.mem, pc + 1);
        Ok(ZeroPageAddr(b, c.x))
      case Zpy =>
        var b :- ReadMem(c.mem, pc + 1);
        Ok(ZeroPageAddr(b, c.y))
      case Abs => AbsAddr(c, pc)
      case Absx => AbsAddrX(c, pc)
      case Absy => AbsAddrY(c, pc)
  }

  /** The length match of the loads. */
  function Length(mode: Mode): nat {
    if mode in {Imm, Zp, Zpx, Zpy} then 2 else 3
  }

  /** `ldx`: X receives the byte at the target, then `set_flags(X)`. */
  function Ldx(c: Cpu, mode: Mode, pc: nat): Result<Next, Fault> {
    var t :- Target(c, LdxModes, mode, pc);
    var v :- ReadMem(c.mem, t);
    Ok(Next(c.(x := v, flags := SetFlags(c.flags, v)), pc + Length(mode)))
  }

  /** `ldy` as written: Y receives the byte at the target, but the flags are set from X. */
  function Ldy(c: Cpu, mode: Mode, pc: nat): Result<Next, Fault> {
    var t :- Target(c, LdyModes, mode, pc);
    var v :- ReadMem(c.mem, t);
    Ok(Next(c.(y := v, flags := SetFlags(c.flags, c.x)), pc + Length(mode)))
  }

  /** `ldy` as intended: the flags are set from the loaded byte, as `ldx` does. */
  function IntendedLdy(c: Cpu, mode: Mode, pc: nat): Result<Next, Fault> {
    var t :- Target(c, LdyModes, mode, pc);
    var v :- ReadMem(c.mem, t);
    Ok(Next(c.(y := v, flags := SetFlags(c.flags, v)), pc + Length(mode)))
  }

  /** The seven flag instructions: no cycle counter in this revision. `cli`, `cld`, `clc`,
      `clv` and `sed` also increment the `pc` field. */
  function FlagInstr(c: Cpu, op: FlagOp, pc: nat): Next {
    var d := c.(flags := WriteFlag(c.flags, FlagOf(op), ValueOf(op)));
    Next(if BumpsPcField(op) then d.(pc := c.pc + 1) else d, pc + 1)
  }

  /** What an opcode stands for in `execute_step`. */
  datatype Instruction = FlagInstruction(fop: FlagOp) | LoadX(mode: Mode) | LoadY(mode: Mode)

  /** The opcodes under the "LDY" heading of the dispatch table. */
  const LdyOpcodes: set<u8> := {0xA0, 0xA4, 0xB4, 0xAC, 0xBC}

  /** The dispatch table of `execute_step` as written: the LDY opcodes call `ldx`. */
  function Decode(op: u8): Option<Instruction> {
    match op
    case 0x18 => Some(FlagInstruction(Clc))
    case 0x38 => Some(FlagInstruction(Sec))
    case 0x58 => Some(FlagInstruction(Cli))
    case 0x78 => Some(FlagInstruction(Sei))
    case 0xB8 => Some(FlagInstruction(Clv))
    case 0xD8 => Some(FlagInstruction(Cld))
    case 0xF8 => Some(FlagInstruction(Sed))
    case 0xA2 => Some(LoadX(Imm))
    case 0xA6 => Some(LoadX(Zp))
    case 0xB6 => Some(LoadX(Zpy))
    case 0xAE => Some(LoadX(Abs))
    case 0xBE => Some(LoadX(Absy))
    case 0xA0 => Some(LoadX(Imm))
    case 0xA4 => Some(LoadX(Zp))
    case 0xB4 => Some(LoadX(Zpx))
    case 0xAC => Some(LoadX(Abs))
    case 0xBC => Some(LoadX(Absx))
    case _ => None
  }

  /** The dispatch table as intended: the LDY opcodes call `ldy` with the same modes. */
  function IntendedDecode(op: u8): Option<Instruction> {
    if op in LdyOpcodes then Some(LoadY(Decode(op).value.mode)) else Decode(op)
  }

  /** Runs one decoded instruction with `ldy` as written. */
  function Dispatch(c: Cpu, ins: Instruction, pc: nat): Result<Next, Fault> {
    match ins
    case FlagInstruction(op) => Ok(FlagInstr(c, op, pc))
    case LoadX(mode) => Ldx(c, mode, pc)
    case LoadY(mode) => Ldy(c, mode, pc)
  }

  /** Runs one decoded instruction with the intended `ldy`. */
  function IntendedDispatch(c: Cpu, ins: Instruction, pc: nat): Result<Next, Fault> {
    match ins
    case FlagInstruction(op) => Ok(FlagInstr(c, op, pc))
    case LoadX(mode) => Ldx(c, mode, pc)
    case LoadY(mode) => IntendedLdy(c, mode, pc)
  }

  /** `execute_step` as written. */
  function Step(c: Cpu): Result<Cpu, Fault> {
    var op :- ReadMem(c.mem, c.pc);
    match Decode(op)
    case None => Err(NotImplemented(op))
    case Some(ins) =>
      var n :- Dispatch(c, ins, c.pc);
      Ok(n.cpu.(pc := n.pc))
  }

  /** `execute_step` with the intended dispatch table and `ldy`. */
  function IntendedStep(c: Cpu): Result<Cpu, Fault> {
    var op :- ReadMem(c.mem, c.pc);
    match IntendedDecode(op)
    case None => Err(NotImplemented(op))
    case Some(ins) =>
      var n :- IntendedDispatch(c, ins, c.pc);
      Ok(n.cpu.(pc := n.pc))
  }
}
