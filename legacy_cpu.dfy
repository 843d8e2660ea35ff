/** The older `Atari` struct of rustARI/src/main.rs as a class whose methods update its
    fields in place, each proved to have the effect the function of LegacySpec of the
    same name describes (the code as written): on success the new state and the
    returned program counter are the function's, on a panic the state is unchanged. */
module LegacyCpu {
  import opened Wrappers
  import opened Machine
  import opened Flags
  import L = LegacySpec

  class Atari {
    var memory: array<u8>
    var flags: bv8
    var pc: nat
    var xReg: u8
    var yReg: u8
    var aReg: u8

    /** The memory array has the length of `[u8; 0x1FFF]`. */
    ghost predicate Valid()
      reads this
    {
      memory.Length == MemSize
    }

    /** The fields as one value. */
    function State(): L.Cpu
      reads this, memory
      requires Valid()
    {
      L.Cpu(memory[..], flags, pc, xReg, yReg, aReg)
    }

    /** The method that returned `r` has done what `spec` says, starting from `before`. */
    ghost predicate Realizes(before: L.Cpu, spec: Result<L.Next, Fault>, r: Result<nat, Fault>)
      reads this, memory
      requires Valid()
    {
      match spec
      case Ok(n) => r == Ok(n.pc) && State() == n.cpu
      case Err(e) => r == Err(e) && State() == before
    }

    /** The struct literal `Atari { memory, flags, pc, xReg, yReg, aReg }`. */
    constructor (image: Memory, flags0: bv8, entry: nat, x: u8, y: u8, a: u8)
      ensures Valid() && fresh(memory)
      ensures State() == L.Cpu(image, flags0, entry, x, y, a)
    {
      var cells := new u8[MemSize](i requires 0 <= i < MemSize => image[i]);
      assert cells[..] == image;
      memory := cells;
      flags, pc, xReg, yReg, aReg := flags0, entry, x, y, a;
    }

    // ------------------------------------------------------------ memory helpers

    /** `read_mem`. */
    function ReadMem(cell: nat): (r: Result<u8, Fault>)
      reads this, memory
      requires Valid()
      ensures r == Machine.ReadMem(State().mem, cell)
    {
      if cell < memory.Length then Ok(memory[cell]) else Err(OutOfBounds(cell))
    }

    /** `write_mem`: one cell receives `v`; nothing else changes. */
    method WriteMem(cell: nat, v: u8) returns (r: Result<(), Fault>)
      requires Valid()
      modifies memory
      ensures Valid()
      ensures match L.WriteMem(old(memory[..]), cell, v)
              case Ok(m) => r == Ok(()) && memory[..] == m
              case Err(e) => r == Err(e) && memory[..] == old(memory[..])
      ensures r.Ok? <==> cell < MemSize
      ensures r.Ok? ==> memory[cell] == v
      ensures r.Ok? ==> forall i :: 0 <= i < MemSize && i != cell ==> memory[i] == old(memory[i])
    {
      if cell >= memory.Length {
        return Err(OutOfBounds(cell));
      }
      memory[cell] := v;
      r := Ok(());
    }

    /** `read_flag`. */
    function ReadFlag(f: Flag): bool
      reads this
    {
      Flags.ReadFlag(flags, f)
    }

    /** `write_flag`. */
    method WriteFlag(f: Flag, v: bool)
      modifies this`flags
      ensures flags == Flags.WriteFlag(old(flags), f, v)
    {
      var fw := WriterMask(f);
      if v {
        flags := flags | fw;
      } else {
        flags := flags & !fw;
      }
    }

    // ------------------------------------------------------------ step executor

    /** `execute_step`: one fetch, dispatch and program-counter update. */
    method ExecuteStep() returns (r: Result<(), Fault>)
      requires Valid()
      modifies this
      ensures Valid() && memory == old(memory)
      ensures match L.Step(old(State()))
              case Ok(d) => r == Ok(()) && State() == d
              case Err(e) => r == Err(e) && State() == old(State())
    {
      var here := pc;
      if here >= memory.Length {
        return Err(OutOfBounds(here));
      }
      var op := memory[here];
      var decoded := L.Decode(op);
      if decoded.None? {
        return Err(NotImplemented(op));
      }
      var next: Result<nat, Fault>;
      match decoded.value {
        case FlagInstruction(fop) =>
          var n := ExecuteFlag(fop, here);
          next := Ok(n);
        case LoadX(mode) =>
          next := Ldx(mode, here);
        case LoadY(mode) =>
          next := Ldy(mode, here);
      }
      if next.Err? {
        return Err(next.error);
      }
      pc := next.value;
      r := Ok(());
    }

    /** The flag-instruction arms of `execute_step`. */
    method ExecuteFlag(op: FlagOp, here: nat) returns (n: nat)
      requires Valid()
      modifies this`pc, this`flags
      ensures Valid() && L.Next(State(), n) == L.FlagInstr(old(State()), op, here)
    {
      match op {
        case Clc => n := Clc(here);
        case Sec => n := Sec(here);
        case Cli => n := Cli(here);
        case Sei => n := Sei(here);
        case Clv => n := Clv(here);
        case Cld => n := Cld(here);
        case Sed => n := Sed(here);
      }
    }

    /** `set_flags`. */
    method SetFlags(v: u8)
      modifies this`flags
      ensures flags == L.SetFlags(old(flags), v)
    {
      if v == 0 {
        WriteFlag(Zero, true);
      } else {
        WriteFlag(Zero, false);
      }
      if v as int / 2 % 2 != 0 {
        WriteFlag(Neg, true);
      } else {
        WriteFlag(Neg, false);
      }
    }

    /** `abs_addr`. */
    function AbsAddr(at: nat): (r: Result<nat, Fault>)
      reads this, memory
      requires Valid()
      ensures r == L.AbsAddr(State(), at)
    {
      if at + 1 >= memory.Length then Err(OutOfBounds(at + 1))
      else if at + 2 >= memory.Length then Err(OutOfBounds(at + 2))
      else
        var targetLoc: u16 := Word(memory[at + 1], memory[at + 2]);
        Ok(targetLoc as int)
    }

    /** `abs_addr_y`. */
    function AbsAddrY(at: nat): (r: Result<nat, Fault>)
      reads this, memory
      requires Valid()
      ensures r == L.AbsAddrY(State(), at)
    {
      if at + 1 >= memory.Length then Err(OutOfBounds(at + 1))
      else if at + 2 >= memory.Length then Err(OutOfBounds(at + 2))
      else
        var targetLoc: u16 := Word(memory[at + 1], memory[at + 2]);
        Ok(OffsetAddr(targetLoc, yReg))
    }

    /** `abs_addr_x`. */
    function AbsAddrX(at: nat): (r: Result<nat, Fault>)
      reads this, memory
      requires Valid()
      ensures r == L.AbsAddrX(State(), at)
    {
      if at + 1 >= memory.Length then Err(OutOfBounds(at + 1))
      else if at + 2 >= memory.Length then Err(OutOfBounds(at + 2))
      else
        var targetLoc: u16 := Word(memory[at + 1], memory[at + 2]);
        Ok(OffsetAddr(targetLoc, xReg))
    }

    /** The `target_loc` match of `ldx` or `ldy`. */
    function TargetLoc(modes: set<Mode>, mode: Mode, at: nat): (r: Result<nat, Fault>)
      reads this, memory
      requires Valid() && modes <= {Imm, Zp, Zpx, Zpy, Abs, Absx, Absy}
      ensures r == L.Target(State(), modes, mode, at)
    {
      if mode !in modes then Err(InvalidMode(mode))
      else
        match mode
        case Imm => Ok(at + 1)
        case Zp => if at + 1 < memory.Length then Ok(memory[at + 1] as int) else Err(OutOfBounds(at + 1))
        case Zpx => if at + 1 < memory.Length then Ok(ZeroPageAddr(memory[at + 1], xReg)) else Err(OutOfBounds(at + 1))
        case Zpy => if at + 1 < memory.Length then Ok(ZeroPageAddr(memory[at + 1], yReg)) else Err(OutOfBounds(at + 1))
        case Abs => AbsAddr(at)
        case Absx => AbsAddrX(at)
        case Absy => AbsAddrY(at)
    }

    // ------------------------------------------------------------ flag instructions

    method Sei(at: nat) returns (next: nat)
      requires Valid()
      modifies this`flags
      ensures Valid() && L.Next(State(), next) == L.FlagInstr(old(State()), FlagOp.Sei, at)
    {
      WriteFlag(Irqd, true);
      return at + 1;
    }

    method Cli(at: nat) returns (next: nat)
      requires Valid()
      modifies this`pc, this`flags
      ensures Valid() && L.Next(State(), next) == L.FlagInstr(old(State()), FlagOp.Cli, at)
    {
      pc := pc + 1;
      WriteFlag(Irqd, false);
      return at + 1;
    }

    method Cld(at: nat) returns (next: nat)
      requires Valid()
      modifies this`pc, this`flags
      ensures Valid() && L.Next(State(), next) == L.FlagInstr(old(State()), FlagOp.Cld, at)
    {
      pc := pc + 1;
      WriteFlag(Dec, false);
      return at + 1;
    }

    method Clc(at: nat) returns (next: nat)
      requires Valid()
      modifies this`pc, this`flags
      ensures Valid() && L.Next(State(), next) == L.FlagInstr(old(State()), FlagOp.Clc, at)
    {
      pc := pc + 1;
      WriteFlag(Carry, false);
      return at + 1;
    }

    method Clv(at: nat) returns (next: nat)
      requires Valid()
      modifies this`pc, this`flags
      ensures Valid() && L.Next(State(), next) == L.FlagInstr(old(State()), FlagOp.Clv, at)
    {
      pc := pc + 1;
      WriteFlag(Over, false);
      return at + 1;
    }

    method Sed(at: nat) returns (next: nat)
      requires Valid()
      modifies this`pc, this`flags
      ensures Valid() && L.Next(State(), next) == L.FlagInstr(old(State()), FlagOp.Sed, at)
    {
      pc := pc + 1;
      WriteFlag(Dec, true);
      return at + 1;
    }

    method Sec(at: nat) returns (next: nat)
      requires Valid()
      modifies this`flags
      ensures Valid() && L.Next(State(), next) == L.FlagInstr(old(State()), FlagOp.Sec, at)
    {
      WriteFlag(Carry, true);
      return at + 1;
    }

    // ------------------------------------------------------------ loads

    /** `ldx`. */
    method Ldx(mode: Mode, at: nat) returns (r: Result<nat, Fault>)
      requires Valid()
      modifies this`xReg, this`flags
      ensures Valid() && Realizes(old(State()), L.Ldx(old(State()), mode, at), r)
    {
      var targetLoc := TargetLoc(L.LdxModes, mode, at);
      if targetLoc.Err? {
        return Err(targetLoc.error);
      }
      if targetLoc.value >= memory.Length {
        return Err(OutOfBounds(targetLoc.value));
      }
      xReg := memory[targetLoc.value];
      var next := at + L.Length(mode);
      SetFlags(xReg);
      r := Ok(next);
    }

    /** `ldy`, with its `set_flags(self.xReg)`. */
    method Ldy(mode: Mode, at: nat) returns (r: Result<nat, Fault>)
      requires Valid()
      modifies this`yReg, this`flags
      ensures Valid() && Realizes(old(State()), L.Ldy(old(State()), mode, at), r)
    {
      var targetLoc := TargetLoc(L.LdyModes, mode, at);
      if targetLoc.Err? {
        return Err(targetLoc.error);
      }
      if targetLoc.value >= memory.Length {
        return Err(OutOfBounds(targetLoc.value));
      }
      yReg := memory[targetLoc.value];
      var next := at + L.Length(mode);
      SetFlags(xReg);
      r := Ok(next);
    }
  }
}
