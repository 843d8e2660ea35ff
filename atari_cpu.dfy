/** The `Atari` struct of rust_ari/src/atari.rs as a class whose methods update its
    fields in place. Each method mirrors the Rust method of the same name and is
    proved to have the effect the corresponding function of AtariSpec describes:
    on success the new state and the returned program counter are the function's,
    on a fault (a Rust panic) the state is unchanged. */
module AtariCpu {
  import opened Wrappers
  import opened Machine
  import opened Flags
  import S = AtariSpec

  class Atari {
    var memory: array<u8>
    var flags: bv8
    var pc: nat
    var xReg: u8
    var yReg: u8
    var aReg: u8
    var sPnt: u8
    var cycles: nat

    /** The memory array has the length of `[u8; 0x1FFF]`. */
    ghost predicate Valid()
      reads this
    {
      memory.Length == MemSize
    }

    /** The fields as one value. */
    function State(): S.Cpu
      reads this, memory
      requires Valid()
    {
      S.Cpu(memory[..], flags, pc, xReg, yReg, aReg, sPnt, cycles)
    }

    /** The method that returned `r` has done what `spec` says, starting from `before`. */
    ghost predicate Realizes(before: S.Cpu, spec: Result<S.Next, Fault>, r: Result<nat, Fault>)
      reads this, memory
      requires Valid()
    {
      match spec
      case Ok(n) => r == Ok(n.pc) && State() == n.cpu
      case Err(e) => r == Err(e) && State() == before
    }

    /** `Atari::new`. */
    constructor (image: Memory, entry: nat)
      ensures Valid() && fresh(memory)
      ensures State() == S.New(image, entry)
    {
      var cells := new u8[MemSize](i requires 0 <= i < MemSize => image[i]);
      assert cells[..] == image;
      memory := cells;
      flags, pc, xReg, yReg, aReg, sPnt, cycles := 0, entry, 0, 0, 0, 0, 0;
    }

    // ------------------------------------------------------------ utility functions

    /** `read_mem`. */
    function ReadMem(cell: nat): (r: Result<u8, Fault>)
      reads this, memory
      requires Valid()
      ensures r == Machine.ReadMem(State().mem, cell)
    {
      if cell < memory.Length then Ok(memory[cell]) else Err(OutOfBounds(cell))
    }

    /** `write_mem`: the cell and its TIA alias receive `v`; nothing else changes. */
    method WriteMem(cell: nat, v: u8) returns (r: Result<(), Fault>)
      requires Valid()
      modifies memory
      ensures Valid()
      ensures r.Ok? <==> cell < MemSize
      ensures r.Ok? ==> memory[..] == S.Store(old(memory[..]), cell, v)
      ensures r.Ok? ==> memory[cell] == v && memory[S.MirrorIndex(cell)] == v
      ensures r.Ok? ==> forall i :: 0 <= i < MemSize && i != cell && i != S.MirrorIndex(cell) ==> memory[i] == old(memory[i])
      ensures r.Err? ==> r == Err(OutOfBounds(cell)) && memory[..] == old(memory[..])
    {
      if cell >= memory.Length {
        return Err(OutOfBounds(cell));
      }
      memory[cell] := v;
      var tiaAddr := S.TranslateForTia(cell as u16) as int;
      memory[tiaAddr] := v;
      r := Ok(());
    }

    /** `read_flag`. */
    function ReadFlag(f: Flag): bool
      reads this
    {
      Flags.ReadFlag(flags, f)
    }

    /** `write_flag`. */
    method WriteFlag(f: Flag, v: bool)
      modifies this`flags
      ensures flags == Flags.WriteFlag(old(flags), f, v)
    {
      var fw := WriterMask(f);
      if v {
        flags := flags | fw;
      } else {
        flags := flags & !fw;
      }
    }

    /** `set_flag_zero`. */
    method SetFlagZero(v: u8)
      modifies this`flags
      ensures flags == S.SetFlagZero(old(flags), v)
    {
      if v == 0 {
        WriteFlag(Zero, true);
      } else {
        WriteFlag(Zero, false);
      }
    }

    /** `set_flag_neg`. */
    method SetFlagNeg(v: u8)
      modifies this`flags
      ensures flags == S.SetFlagNeg(old(flags), v)
    {
      if v >= 0x40 {
        WriteFlag(Neg, true);
      } else {
        WriteFlag(Neg, false);
      }
    }

    /** `abs_addr`. */
    function AbsAddr(at: nat): (r: Result<nat, Fault>)
      reads this, memory
      requires Valid()
      ensures r == S.AbsAddr(State(), at)
    {
      if at + 1 >= memory.Length then Err(OutOfBounds(at + 1))
      else if at + 2 >= memory.Length then Err(OutOfBounds(at + 2))
      else
        var targetLoc: u16 := Word(memory[at + 2], memory[at + 1]);
        Ok(S.TranslateAddr(targetLoc) as int)
    }

    /** `abs_addr_y`. */
    function AbsAddrY(at: nat): (r: Result<nat, Fault>)
      reads this, memory
      requires Valid()
      ensures r == S.AbsAddrY(State(), at)
    {
      if at + 1 >= memory.Length then Err(OutOfBounds(at + 1))
      else if at + 2 >= memory.Length then Err(OutOfBounds(at + 2))
      else
        var targetLoc: u16 := S.TranslateAddr(Word(memory[at + 2], memory[at + 1]));
        Ok(OffsetAddr(targetLoc, yReg))
    }

    /** `abs_addr_x`. */
    function AbsAddrX(at: nat): (r: Result<nat, Fault>)
      reads this, memory
      requires Valid()
      ensures r == S.AbsAddrX(State(), at)
    {
      if at + 1 >= memory.Length then Err(OutOfBounds(at + 1))
      else if at + 2 >= memory.Length then Err(OutOfBounds(at + 2))
      else
        var targetLoc: u16 := Word(memory[at + 2], memory[at + 1]);
        Ok(OffsetAddr(targetLoc, xReg))
    }

    /** The `target_loc` match of an instruction that accepts `modes`. */
    function TargetLoc(modes: set<Mode>, mode: Mode, at: nat): (r: Result<nat, Fault>)
      reads this, memory
      requires Valid()
      ensures r == S.Target(State(), modes, mode, at)
    {
      if mode !in modes then Err(InvalidMode(mode))
      else
        match mode
        case Imm => Ok(at + 1)
        case Zp => if at + 1 < memory.Length then Ok(memory[at + 1] as int) else Err(OutOfBounds(at + 1))
        case Zpx => if at + 1 < memory.Length then Ok(ZeroPageAddr(memory[at + 1], xReg)) else Err(OutOfBounds(at + 1))
        case Zpy => if at + 1 < memory.Length then Ok(ZeroPageAddr(memory[at + 1], yReg)) else Err(OutOfBounds(at + 1))
        case Abs => AbsAddr(at)
        case Absx => AbsAddrX(at)
        case Absy => AbsAddrY(at)
        case _ => Err(InvalidMode(mode))
    }

    // ------------------------------------------------------------ step executor

    /** `execute_step`: one fetch, dispatch and program-counter update. */
    method ExecuteStep() returns (r: Result<(), Fault>)
      requires Valid()
      modifies this, memory
      ensures Valid() && memory == old(memory)
      ensures match S.Step(old(State()))
              case Ok(d) => r == Ok(()) && State() == d
              case Err(e) => r == Err(e) && State() == old(State())
    {
      var here := pc;
      if here >= memory.Length {
        return Err(OutOfBounds(here));
      }
      var op := memory[here];
      var decoded := S.Decode(op);
      if decoded.None? {
        return Err(NotImplemented(op));
      }
      var next := Execute(decoded.value, here);
      if next.Err? {
        return Err(next.error);
      }
      pc := next.value;
      r := Ok(());
    }

    /** The `match` arm of `execute_step` for one decoded instruction at `here`. */
    method Execute(ins: S.Instruction, here: nat) returns (r: Result<nat, Fault>)
      requires Valid()
      modifies this, memory
      ensures Valid() && memory == old(memory)
      ensures Realizes(old(State()), S.Dispatch(old(State()), ins, here), r)
    {
      match ins {
        case FlagInstruction(fop) =>
          var n := ExecuteFlag(fop, here);
          r := Ok(n);
        case LoadRegister(reg, mode) =>
          match reg {
            case X => r := Ldx(mode, here);
            case Y => r := Ldy(mode, here);
            case A => r := Lda(mode, here);
          }
        case StoreA(mode) =>
          r := Sta(mode, here);
        case RegisterInstruction(rop) =>
          var n := ExecuteRegister(rop, here);
          r := Ok(n);
        case PushA =>
          var n := Pha(here);
          r := Ok(n);
        case BranchNotEqual =>
          r := Bne(here);
        case Jump(mode) =>
          r := Jmp(mode, here);
      }
    }

    /** The flag-instruction arms of `execute_step`. */
    method ExecuteFlag(op: FlagOp, here: nat) returns (n: nat)
      requires Valid()
      modifies this`pc, this`flags, this`cycles
      ensures Valid() && S.Next(State(), n) == S.FlagInstr(old(State()), op, here)
    {
      match op {
        case Clc => n := Clc(here);
        case Sec => n := Sec(here);
        case Cli => n := Cli(here);
        case Sei => n := Sei(here);
        case Clv => n := Clv(here);
        case Cld => n := Cld(here);
        case Sed => n := Sed(here);
      }
    }

    /** The stack and register arms of `execute_step` that cannot fail. */
    method ExecuteRegister(op: S.RegOp, here: nat) returns (n: nat)
      requires Valid()
      modifies this`xReg, this`yReg, this`aReg, this`sPnt, this`flags, this`cycles
      ensures Valid() && S.Next(State(), n) == S.RegisterInstr(old(State()), op, here)
    {
      match op {
        case Txs => n := Txs(here);
        case Tsx => n := Tsx(here);
        case Tax => n := Tax(here);
        case Txa => n := Txa(here);
        case Dex => n := Dex(here);
        case Inx => n := Inx(here);
        case Tay => n := Tay(here);
        case Tya => n := Tya(here);
        case Dey => n := Dey(here);
        case Iny => n := Iny(here);
      }
    }

    // ------------------------------------------------------------ ADC

    /** `adc`: has no opcode in the dispatch table. */
    method Adc(value: u8)
      requires Valid()
      modifies this`aReg
      ensures Valid() && State() == S.Adc(old(State()), value)
    {
      var result: u16 := aReg as u16 + value as u16;
      if ReadFlag(Carry) {
        result := result + 1;
      }
      if ReadFlag(Dec) {
        // BCD mode
        if result % 0x10 > 0x09 {
          result := result + 0x06;
        }
        if result / 0x10 % 0x10 > 0x09 {
          result := result + 0x60;
        }
      }
      aReg := LowByte(result);
    }

    // ------------------------------------------------------------ flag instructions

    method Sei(at: nat) returns (next: nat)
      requires Valid()
      modifies this`flags, this`cycles
      ensures Valid() && S.Next(State(), next) == S.FlagInstr(old(State()), FlagOp.Sei, at)
    {
      WriteFlag(Irqd, true);
      cycles := cycles + 2;
      return at + 1;
    }

    method Cli(at: nat) returns (next: nat)
      requires Valid()
      modifies this`pc, this`flags, this`cycles
      ensures Valid() && S.Next(State(), next) == S.FlagInstr(old(State()), FlagOp.Cli, at)
    {
      pc := pc + 1;
      WriteFlag(Irqd, false);
      cycles := cycles + 2;
      return at + 1;
    }

    method Cld(at: nat) returns (next: nat)
      requires Valid()
      modifies this`pc, this`flags, this`cycles
      ensures Valid() && S.Next(State(), next) == S.FlagInstr(old(State()), FlagOp.Cld, at)
    {
      pc := pc + 1;
      WriteFlag(Dec, false);
      cycles := cycles + 2;
      return at + 1;
    }

    method Clc(at: nat) returns (next: nat)
      requires Valid()
      modifies this`pc, this`flags, this`cycles
      ensures Valid() && S.Next(State(), next) == S.FlagInstr(old(State()), FlagOp.Clc, at)
    {
      pc := pc + 1;
      WriteFlag(Carry, false);
      cycles := cycles + 2;
      return at + 1;
    }

    method Clv(at: nat) returns (next: nat)
      requires Valid()
      modifies this`pc, this`flags, this`cycles
      ensures Valid() && S.Next(State(), next) == S.FlagInstr(old(State()), FlagOp.Clv, at)
    {
      pc := pc + 1;
      WriteFlag(Over, false);
      cycles := cycles + 2;
      return at + 1;
    }

    method Sed(at: nat) returns (next: nat)
      requires Valid()
      modifies this`pc, this`flags, this`cycles
      ensures Valid() && S.Next(State(), next) == S.FlagInstr(old(State()), FlagOp.Sed, at)
    {
      pc := pc + 1;
      WriteFlag(Dec, true);
      cycles := cycles + 2;
      return at + 1;
    }

    method Sec(at: nat) returns (next: nat)
      requires Valid()
      modifies this`flags, this`cycles
      ensures Valid() && S.Next(State(), next) == S.FlagInstr(old(State()), FlagOp.Sec, at)
    {
      WriteFlag(Carry, true);
      cycles := cycles + 2;
      return at + 1;
    }

    // ------------------------------------------------------------ loads and store

    method Ldx(mode: Mode, at: nat) returns (r: Result<nat, Fault>)
      requires Valid()
      modifies this`xReg, this`flags, this`cycles
      ensures Valid() && Realizes(old(State()), S.Load(old(State()), S.X, mode, at), r)
    {
      var target := TargetLoc(S.LoadModes(S.X), mode, at);
      if target.Err? {
        return Err(target.error);
      }
      var targetLoc := target.value;
      if targetLoc >= memory.Length {
        return Err(OutOfBounds(targetLoc));
      }
      xReg := memory[targetLoc];
      cycles := cycles + S.LoadCycles(mode, targetLoc);
      SetFlagZero(xReg);
      SetFlagNeg(xReg);
      r := Ok(at + S.OperandLength(mode));
    }

    method Ldy(mode: Mode, at: nat) returns (r: Result<nat, Fault>)
      requires Valid()
      modifies this`yReg, this`flags, this`cycles
      ensures Valid() && Realizes(old(State()), S.Load(old(State()), S.Y, mode, at), r)
    {
      var target := TargetLoc(S.LoadModes(S.Y), mode, at);
      if target.Err? {
        return Err(target.error);
      }
      var targetLoc := target.value;
      if targetLoc >= memory.Length {
        return Err(OutOfBounds(targetLoc));
      }
      yReg := memory[targetLoc];
      cycles := cycles + S.LoadCycles(mode, targetLoc);
      SetFlagZero(yReg);
      SetFlagNeg(yReg);
      r := Ok(at + S.OperandLength(mode));
    }

    method Lda(mode: Mode, at: nat) returns (r: Result<nat, Fault>)
      requires Valid()
      modifies this`aReg, this`flags, this`cycles
      ensures Valid() && Realizes(old(State()), S.Load(old(State()), S.A, mode, at), r)
    {
      var target := TargetLoc(S.LoadModes(S.A), mode, at);
      if target.Err? {
        return Err(target.error);
      }
      var targetLoc := target.value;
      if targetLoc >= memory.Length {
        return Err(OutOfBounds(targetLoc));
      }
      aReg := memory[targetLoc];
      cycles := cycles + S.LoadCycles(mode, targetLoc);
      SetFlagZero(aReg);
      SetFlagNeg(aReg);
      r := Ok(at + S.OperandLength(mode));
    }

    method Sta(mode: Mode, at: nat) returns (r: Result<nat, Fault>)
      requires Valid()
      modifies memory, this`cycles
      ensures Valid() && Realizes(old(State()), S.Sta(old(State()), mode, at), r)
    {
      var target := TargetLoc(S.StaModes, mode, at);
      if target.Err? {
        return Err(target.error);
      }
      var written := WriteMem(target.value, aReg);
      if written.Err? {
        return Err(written.error);
      }
      cycles := cycles + S.StaCycles(mode);
      r := Ok(at + S.OperandLength(mode));
    }

    // ------------------------------------------------------------ stack instructions

    method Txs(at: nat) returns (next: nat)
      requires Valid()
      modifies this`sPnt, this`cycles
      ensures Valid() && S.Next(State(), next) == S.RegisterInstr(old(State()), S.Txs, at)
    {
      sPnt := xReg;
      cycles := cycles + 2;
      return at + 1;
    }

    method Tsx(at: nat) returns (next: nat)
      requires Valid()
      modifies this`xReg, this`cycles
      ensures Valid() && S.Next(State(), next) == S.RegisterInstr(old(State()), S.Tsx, at)
    {
      xReg := sPnt;
      cycles := cycles + 2;
      return at + 1;
    }

    method Pha(at: nat) returns (next: nat)
      requires Valid()
      modifies memory, this`sPnt, this`cycles
      ensures Valid() && S.Next(State(), next) == S.Pha(old(State()), at)
    {
      // The stack page lies inside the memory, so the push cannot fail.
      var written := WriteMem(0x100 + sPnt as int, aReg);
      assert written.Ok?;
      sPnt := Wrap8(sPnt as int - 1);
      cycles := cycles + 3;
      return at + 1;
    }

    // ------------------------------------------------------------ register instructions

    method Tax(at: nat) returns (next: nat)
      requires Valid()
      modifies this`xReg, this`flags, this`cycles
      ensures Valid() && S.Next(State(), next) == S.RegisterInstr(old(State()), S.Tax, at)
    {
      xReg := aReg;
      SetFlagZero(xReg);
      SetFlagNeg(xReg);
      cycles := cycles + 2;
      return at + 1;
    }

    method Txa(at: nat) returns (next: nat)
      requires Valid()
      modifies this`aReg, this`flags, this`cycles
      ensures Valid() && S.Next(State(), next) == S.RegisterInstr(old(State()), S.Txa, at)
    {
      aReg := xReg;
      SetFlagZero(aReg);
      SetFlagNeg(aReg);
      cycles := cycles + 2;
      return at + 1;
    }

    method Dex(at: nat) returns (next: nat)
      requires Valid()
      modifies this`xReg, this`flags, this`cycles
      ensures Valid() && S.Next(State(), next) == S.RegisterInstr(old(State()), S.Dex, at)
    {
      if xReg == 0 {
        xReg := 0xFF;
      } else {
        xReg := xReg - 1;
      }
      SetFlagZero(xReg);
      SetFlagNeg(xReg);
      cycles := cycles + 2;
      return at + 1;
    }

    method Inx(at: nat) returns (next: nat)
      requires Valid()
      modifies this`xReg, this`cycles
      ensures Valid() && S.Next(State(), next) == S.RegisterInstr(old(State()), S.Inx, at)
    {
      xReg := Wrap8(xReg as int + 1);
      cycles := cycles + 2;
      return at + 1;
    }

    method Tay(at: nat) returns (next: nat)
      requires Valid()
      modifies this`yReg, this`cycles
      ensures Valid() && S.Next(State(), next) == S.RegisterInstr(old(State()), S.Tay, at)
    {
      yReg := aReg;
      cycles := cycles + 2;
      return at + 1;
    }

    method Tya(at: nat) returns (next: nat)
      requires Valid()
      modifies this`aReg, this`cycles
      ensures Valid() && S.Next(State(), next) == S.RegisterInstr(old(State()), S.Tya, at)
    {
      aReg := yReg;
      cycles := cycles + 2;
      return at + 1;
    }

    method Dey(at: nat) returns (next: nat)
      requires Valid()
      modifies this`yReg, this`cycles
      ensures Valid() && S.Next(State(), next) == S.RegisterInstr(old(State()), S.Dey, at)
    {
      if yReg == 0 {
        yReg := 0xFF;
      } else {
        yReg := yReg - 1;
      }
      cycles := cycles + 2;
      return at + 1;
    }

    method Iny(at: nat) returns (next: nat)
      requires Valid()
      modifies this`yReg, this`cycles
      ensures Valid() && S.Next(State(), next) == S.RegisterInstr(old(State()), S.Iny, at)
    {
      yReg := Wrap8(yReg as int + 1);
      cycles := cycles + 2;
      return at + 1;
    }

    // ------------------------------------------------------------ branch and jump

    method Bne(at: nat) returns (r: Result<nat, Fault>)
      requires Valid()
      modifies this`cycles
      ensures Valid() && Realizes(old(State()), S.Bne(old(State()), at), r)
    {
      if ReadFlag(Zero) {
        cycles := cycles + 2;
        return Ok(at + 2);
      }
      if at + 1 >= memory.Length {
        return Err(OutOfBounds(at + 1));
      }
      var step := SignedByte(memory[at + 1]);
      cycles := cycles + 3;
      r := Ok((at + step + 2) % UsizeModulus);
    }

    method Jmp(mode: Mode, at: nat) returns (r: Result<nat, Fault>)
      requires Valid()
      modifies this`cycles
      ensures Valid() && Realizes(old(State()), S.Jmp(old(State()), mode, at), r)
    {
      if mode != Abs {
        return Err(InvalidMode(mode));
      }
      var target := AbsAddr(at);
      if target.Err? {
        return Err(target.error);
      }
      cycles := cycles + 3;
      r := Ok(target.value);
    }
  }
}
