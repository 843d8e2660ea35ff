/** The interpreter of rust_ari/src/atari.rs as pure functions on its state.
    Every instruction here takes the state and the program counter it is invoked
    with and gives back either the new state together with the program counter the
    instruction returns, or the fault that makes the Rust code panic. The class
    in atari_cpu.dfy updates its fields in place and is proved to agree with these
    functions. */
module AtariSpec {
  import opened Wrappers
  import opened Machine
  import opened Flags

  /** The fields of the `Atari` struct. */
  datatype Cpu = Cpu(mem: Memory, flags: bv8, pc: nat, x: u8, y: u8, a: u8, s: u8, cycles: nat)

  /** The state after an instruction and the program counter the instruction returns. */
  datatype Next = Next(cpu: Cpu, pc: nat)

  /** `Atari::new`: the given memory image and entry point, everything else zero. */
  function New(image: Memory, pc: nat): Cpu {
    Cpu(image, 0, pc, 0, 0, 0, 0, 0)
  }

  // ---------------------------------------------------------------- memory

  /** `translate_addr`: the CPU bus is 13 lines wide. Masking with 0x1FFF keeps the low
      thirteen bits, which is the remainder modulo 0x2000. */
  function TranslateAddr(addr: u16): (r: u16)
    ensures r <= 0x1FFF
  {
    addr % 0x2000
  }

  /** `translate_for_tia`: the video chip decodes only address lines 0-5, 7 and 12. The
      mask 0x10BF is written out as those bits: the low six, bit 7 and bit 12. */
  function TranslateForTia(addr: u16): (r: u16)
    ensures r <= 0x10BF
  {
    addr % 0x40 + (addr / 0x80 % 2) * 0x80 + (addr / 0x1000 % 2) * 0x1000
  }

  /** The second index `write_mem` stores to: the TIA alias of `cell`. */
  function MirrorIndex(cell: nat): (m: nat)
    requires cell < MemSize
    ensures m <= 0x10BF < MemSize
  {
    TranslateForTia(cell as u16) as int
  }

  /** The two stores of `write_mem` on a cell known to be in bounds. */
  function Store(mem: Memory, cell: nat, v: u8): Memory
    requires cell < MemSize
  {
    mem[cell := v][MirrorIndex(cell) := v]
  }

  /** `write_mem`: stores at `cell`, then at its TIA alias; panics if `cell` is past the end. */
  function WriteMem(mem: Memory, cell: nat, v: u8): Result<Memory, Fault> {
    if cell < MemSize then Ok(Store(mem, cell, v)) else Err(OutOfBounds(cell))
  }

  // ---------------------------------------------------------------- flags

  /** `set_flag_zero`. */
  function SetFlagZero(flags: bv8, v: u8): bv8 {
    WriteFlag(flags, Zero, v == 0)
  }

  /** `set_flag_neg`: this revision sets Negative for every value from 0x40 up. */
  function SetFlagNeg(flags: bv8, v: u8): bv8 {
    WriteFlag(flags, Neg, v >= 0x40)
  }

  /** `set_flag_zero(v)` followed by `set_flag_neg(v)`, as the loads, TAX, TXA and DEX do. */
  function ResultFlags(flags: bv8, v: u8): (r: bv8)
    ensures ReadFlag(r, Zero) <==> v == 0
    ensures ReadFlag(r, Neg) <==> v >= 0x40
    ensures forall g: Flag :: g != Zero && g != Neg ==> ReadFlag(r, g) == ReadFlag(flags, g)
  {
    WriteFlagExactlyOne(flags, Zero, v == 0);
    WriteFlagExactlyOne(SetFlagZero(flags, v), Neg, v >= 0x40);
    SetFlagNeg(SetFlagZero(flags, v), v)
  }

  // ---------------------------------------------------------------- addressing

  /** `abs_addr`: the little-endian word at pc+1 (low byte) and pc+2 (high byte), bus-translated. */
  function AbsAddr(c: Cpu, pc: nat): Result<nat, Fault> {
    var lo :- ReadMem(c.mem, pc + 1);
    var hi :- ReadMem(c.mem, pc + 2);
    Ok(TranslateAddr(Word(hi, lo)) as int)
  }

  /** `abs_addr_y`: bus-translates first, then adds Y (the sum cannot wrap). */
  function AbsAddrY(c: Cpu, pc: nat): Result<nat, Fault> {
    var lo :- ReadMem(c.mem, pc + 1);
    var hi :- ReadMem(c.mem, pc + 2);
    Ok(OffsetAddr(TranslateAddr(Word(hi, lo)), c.y))
  }

  /** `abs_addr_x`: adds X to the untranslated word, as a 16-bit sum. */
  function AbsAddrX(c: Cpu, pc: nat): Result<nat, Fault> {
    var lo :- ReadMem(c.mem, pc + 1);
    var hi :- ReadMem(c.mem, pc + 2);
    Ok(OffsetAddr(Word(hi, lo), c.x))
  }

  /** The `target_loc` match shared by the loads and the store. Zero-page indexing is an
      8-bit sum. Modes the resolver has no arm for are invalid. */
  function Operand(c: Cpu, mode: Mode, pc: nat): Result<nat, Fault> {
    match mode
    case Imm => Ok(pc + 1)
    case Zp =>
      var b :- ReadMem(c.mem, pc + 1);
      Ok(b as int)
    case Zpx =>
      var b :- ReadMem(c.mem, pc + 1);
      Ok(ZeroPageAddr(b, c.x))
    case Zpy =>
      var b :- ReadMem(c.mem, pc + 1);
      Ok(ZeroPageAddr(b, c.y))
    case Abs => AbsAddr(c, pc)
    case Absx => AbsAddrX(c, pc)
    case Absy => AbsAddrY(c, pc)
    case _ => Err(InvalidMode(mode))
  }

  /** An instruction's `target_loc`: a mode outside the instruction's list panics. */
  function Target(c: Cpu, modes: set<Mode>, mode: Mode, pc: nat): Result<nat, Fault> {
    if mode in modes then Operand(c, mode, pc) else Err(InvalidMode(mode))
  }

  /** The modes with a resolver arm. */
  const ResolvedModes: set<Mode> := {Imm, Zp, Zpx, Zpy, Abs, Absx, Absy}

  /** The `pc +=` match: instruction length by mode. */
  function OperandLength(mode: Mode): nat
    requires mode in ResolvedModes
  {
    if mode in {Imm, Zp, Zpx, Zpy} then 2 else 3
  }

  /** The cycle match of the loads. The extra cycle of an indexed absolute load is charged
      when the effective address is 0xFF or more. */
  function LoadCycles(mode: Mode, target: nat): nat {
    match mode
    case Imm => 2
    case Zp => 3
    case Absx | Absy => if target < 0xFF then 4 else 5
    case _ => 4
  }

  /** The cycle match of `sta`. */
  function StaCycles(mode: Mode): nat {
    match mode
    case Zp => 3
    case Abs | Zpx => 4
    case _ => 5
  }

  // ---------------------------------------------------------------- instructions

  /** The register a load writes. */
  datatype Register = X | Y | A

  /** The modes `ldx`, `ldy` and `lda` accept. */
  function LoadModes(r: Register): set<Mode> {
    match r
    case X => {Imm, Zp, Zpy, Abs, Absy}
    case Y => {Imm, Zp, Zpx, Abs, Absx}
    case A => {Imm, Zp, Zpx, Abs, Absx, Absy}
  }

  const StaModes: set<Mode> := {Zp, Zpx, Abs, Absx, Absy}

  function SetRegister(c: Cpu, r: Register, v: u8): Cpu {
    match r
    case X => c.(x := v)
    case Y => c.(y := v)
    case A => c.(a := v)
  }

  function GetRegister(c: Cpu, r: Register): u8 {
    match r
    case X => c.x
    case Y => c.y
    case A => c.a
  }

  /** `ldx`, `ldy` and `lda`: load the byte at the target, advance by the mode's length,
      charge the mode's cycles, and set Zero and Negative from the loaded byte. */
  function Load(c: Cpu, r: Register, mode: Mode, pc: nat): Result<Next, Fault> {
    var t :- Target(c, LoadModes(r), mode, pc);
    var v :- ReadMem(c.mem, t);
    var d := SetRegister(c, r, v);
    Ok(Next(d.(cycles := c.cycles + LoadCycles(mode, t), flags := ResultFlags(c.flags, v)),
            pc + OperandLength(mode)))
  }

  /** `sta`: writes A through `write_mem`; no register or flag changes. */
  function Sta(c: Cpu, mode: Mode, pc: nat): Result<Next, Fault> {
    var t :- Target(c, StaModes, mode, pc);
    var m :- WriteMem(c.mem, t, c.a);
    Ok(Next(c.(mem := m, cycles := c.cycles + StaCycles(mode)), pc + OperandLength(mode)))
  }

  function FlagInstr(c: Cpu, op: FlagOp, pc: nat): Next {
    var d := c.(flags := WriteFlag(c.flags, FlagOf(op), ValueOf(op)), cycles := c.cycles + 2);
    Next(if BumpsPcField(op) then d.(pc := c.pc + 1) else d, pc + 1)
  }

  /** The one-byte register instructions. */
  datatype RegOp = Txs | Tsx | Tax | Txa | Dex | Inx | Tay | Tya | Dey | Iny

  /** The decrement of `dex` and `dey`: 0 becomes 0xFF, anything else goes down by one. */
  function Decrement(v: u8): u8 {
    if v == 0 then 0xFF else v - 1
  }

  /** `txs` ... `iny`. Only TAX, TXA and DEX recompute Zero and Negative; the other flag
      updates are commented out in the source. INX and INY wrap in 8 bits. */
  function RegisterInstr(c: Cpu, op: RegOp, pc: nat): Next {
    var d :=
      match op
      case Txs => c.(s := c.x)
      case Tsx => c.(x := c.s)
      case Tax => c.(x := c.a, flags := ResultFlags(c.flags, c.a))
      case Txa => c.(a := c.x, flags := ResultFlags(c.flags, c.x))
      case Dex => c.(x := Decrement(c.x), flags := ResultFlags(c.flags, Decrement(c.x)))
      case Inx => c.(x := Wrap8(c.x as int + 1))
      case Tay => c.(y := c.a)
      case Tya => c.(a := c.y)
      case Dey => c.(y := Decrement(c.y))
      case Iny => c.(y := Wrap8(c.y as int + 1));
    Next(d.(cycles := c.cycles + 2), pc + 1)
  }

  /** The address `pha` pushes to. */
  function StackCell(s: u8): (cell: nat)
    ensures 0x100 <= cell <= 0x1FF
  {
    0x100 + s as int
  }

  /** `pha`: writes A at 0x100 + S through `write_mem`, then decrements S with wrap-around. */
  function Pha(c: Cpu, pc: nat): Next {
    Next(c.(mem := Store(c.mem, StackCell(c.s), c.a), s := Wrap8(c.s as int - 1), cycles := c.cycles + 3), pc + 1)
  }

  /** `(pc as i32 + offset as i8 as i32 + 2) as usize`: a negative sum wraps around. */
  function BranchTarget(pc: nat, offset: u8): nat {
    (pc + SignedByte(offset) + 2) % UsizeModulus
  }

  /** `bne`. */
  function Bne(c: Cpu, pc: nat): Result<Next, Fault> {
    if ReadFlag(c.flags, Zero) then
      Ok(Next(c.(cycles := c.cycles + 2), pc + 2))
    else
      var offset :- ReadMem(c.mem, pc + 1);
      Ok(Next(c.(cycles := c.cycles + 3), BranchTarget(pc, offset)))
  }

  /** `jmp`: only the absolute form has an arm. */
  function Jmp(c: Cpu, mode: Mode, pc: nat): Result<Next, Fault> {
    if mode != Abs then Err(InvalidMode(mode))
    else
      var t :- AbsAddr(c, pc);
      Ok(Next(c.(cycles := c.cycles + 3), t))
  }

  /** The 16-bit sum computed by `adc`, with its decimal-mode adjustment; `& 0x0F` is the
      low nibble (`% 0x10`) and `& 0xF0 > 0x90` says the second nibble exceeds 9. The sum
      never exceeds 0x265, so the `u16` additions cannot overflow. */
  function AdcSum(a: u8, value: u8, carry: bool, decimal: bool): (r: u16)
    ensures r <= 0x265
  {
    var sum := a as int + value as int + if carry then 1 else 0;
    if !decimal then sum as u16
    else
      var lowFixed := if sum % 0x10 > 0x09 then sum + 0x06 else sum;
      (if lowFixed / 0x10 % 0x10 > 0x09 then lowFixed + 0x60 else lowFixed) as u16
  }

  /** `adc`: only A changes; no flag is updated (those lines are commented out). */
  function Adc(c: Cpu, value: u8): Cpu {
    c.(a := LowByte(AdcSum(c.a, value, ReadFlag(c.flags, Carry), ReadFlag(c.flags, Dec))))
  }

  // ---------------------------------------------------------------- dispatch

  /** What an opcode stands for in `execute_step`. */
  datatype Instruction =
    | FlagInstruction(fop: FlagOp)
    | LoadRegister(reg: Register, mode: Mode)
    | StoreA(mode: Mode)
    | RegisterInstruction(rop: RegOp)
    | PushA
    | BranchNotEqual
    | Jump(mode: Mode)

  /** The dispatch table of `execute_step`. */
  function Decode(op: u8): Option<Instruction> {
    match op
    case 0x18 => Some(FlagInstruction(Clc))
    case 0x38 => Some(FlagInstruction(Sec))
    case 0x58 => Some(FlagInstruction(Cli))
    case 0x78 => Some(FlagInstruction(Sei))
    case 0xB8 => Some(FlagInstruction(Clv))
    case 0xD8 => Some(FlagInstruction(Cld))
    case 0xF8 => Some(FlagInstruction(Sed))
    case 0xA2 => Some(LoadRegister(X, Imm))
    case 0xA6 => Some(LoadRegister(X, Zp))
    case 0xB6 => Some(LoadRegister(X, Zpy))
    case 0xAE => Some(LoadRegister(X, Abs))
    case 0xBE => Some(LoadRegister(X, Absy))
    case 0xA0 => Some(LoadRegister(Y, Imm))
    case 0xA4 => Some(LoadRegister(Y, Zp))
    case 0xB4 => Some(LoadRegister(Y, Zpx))
    case 0xAC => Some(LoadRegister(Y, Abs))
    case 0xBC => Some(LoadRegister(Y, Absx))
    case 0xA9 => Some(LoadRegister(A, Imm))
    case 0xA5 => Some(LoadRegister(A, Zp))
    case 0xB5 => Some(LoadRegister(A, Zpx))
    case 0xAD => Some(LoadRegister(A, Abs))
    case 0xBD => Some(LoadRegister(A, Absx))
    case 0xB9 => Some(LoadRegister(A, Absy))
    case 0x85 => Some(StoreA(Zp))
    case 0x95 => Some(StoreA(Zpx))
    case 0x8D => Some(StoreA(Abs))
    case 0x9D => Some(StoreA(Absx))
    case 0x99 => Some(StoreA(Absy))
    case 0x9A => Some(RegisterInstruction(Txs))
    case 0xBA => Some(RegisterInstruction(Tsx))
    case 0x48 => Some(PushA)
    case 0xAA => Some(RegisterInstruction(Tax))
    case 0x8A => Some(RegisterInstruction(Txa))
    case 0xCA => Some(RegisterInstruction(Dex))
    case 0xE8 => Some(RegisterInstruction(Inx))
    case 0xA8 => Some(RegisterInstruction(Tay))
    case 0x98 => Some(RegisterInstruction(Tya))
    case 0x88 => Some(RegisterInstruction(Dey))
    case 0xC8 => Some(RegisterInstruction(Iny))
    case 0xD0 => Some(BranchNotEqual)
    case 0x4C => Some(Jump(Abs))
    case 0x6C => Some(Jump(Ind))
    case _ => None
  }

  /** Runs one decoded instruction at `pc`. */
  function Dispatch(c: Cpu, ins: Instruction, pc: nat): Result<Next, Fault> {
    match ins
    case FlagInstruction(op) => Ok(FlagInstr(c, op, pc))
    case LoadRegister(r, mode) => Load(c, r, mode, pc)
    case StoreA(mode) => Sta(c, mode, pc)
    case RegisterInstruction(op) => Ok(RegisterInstr(c, op, pc))
    case PushA => Ok(Pha(c, pc))
    case BranchNotEqual => Bne(c, pc)
    case Jump(mode) => Jmp(c, mode, pc)
  }

  /** `execute_step`: fetch the opcode at `pc`, run it, store the program counter it returns. */
  function Step(c: Cpu): Result<Cpu, Fault> {
    var op :- ReadMem(c.mem, c.pc);
    match Decode(op)
    case None => Err(NotImplemented(op))
    case Some(ins) =>
      var n :- Dispatch(c, ins, c.pc);
      Ok(n.cpu.(pc := n.pc))
  }
}
