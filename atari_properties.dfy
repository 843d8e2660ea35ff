/** What the interpreter of rust_ari/src/atari.rs guarantees, stated over the functions of
    AtariSpec (which the class of atari_cpu.dfy is proved to follow) and, for the unit tests
    of the source, over the concrete states those tests build. */
module AtariProperties {
  import opened Wrappers
  import opened Machine
  import opened Flags
  import opened AtariSpec

  // ------------------------------------------------------------ memory and mirroring

  /** `write_mem` stores the value at the cell and at its TIA alias and nowhere else. The
      alias is always inside the memory; only a cell past the end makes it panic. */
  lemma WriteMemEffect(mem: Memory, cell: nat, v: u8)
    ensures WriteMem(mem, cell, v).Ok? <==> cell < MemSize
    ensures cell >= MemSize ==> WriteMem(mem, cell, v) == Err(OutOfBounds(cell))
    ensures cell < MemSize ==>
      var m := WriteMem(mem, cell, v).value;
      MirrorIndex(cell) < MemSize && m[cell] == v && m[MirrorIndex(cell)] == v &&
      forall i :: 0 <= i < MemSize && i != cell && i != MirrorIndex(cell) ==> m[i] == mem[i]
  {
  }

  /** The TIA translation of the unit test: 0xEF3F is an alias of TIA register 0x3F. */
  lemma TiaTranslationExample()
    ensures TranslateForTia(0xEF3F) == 0x3F
  {
  }

  /** An address split into the fields the mask 0x10BF separates: bits 0-5, bit 6, bit 7,
      bits 8-11, bit 12 and bits 13-15. */
  lemma {:induction false} SplitAddress(addr: u16) returns (b0: int, b6: int, b7: int, m: int, b12: int, h: int)
    ensures 0 <= b0 < 0x40 && 0 <= b6 < 2 && 0 <= b7 < 2 && 0 <= m < 0x10 && 0 <= b12 < 2 && 0 <= h < 8
    ensures addr as int == b0 + b6 * 0x40 + b7 * 0x80 + m * 0x100 + b12 * 0x1000 + h * 0x2000
  {
    var q0 := addr as int / 0x40;
    b0 := addr as int % 0x40;
    b6 := q0 % 2;
    var q1 := q0 / 2;
    b7 := q1 % 2;
    var q2 := q1 / 2;
    m := q2 % 0x10;
    var q3 := q2 / 0x10;
    b12 := q3 % 2;
    h := q3 / 2;
  }

  /** The TIA translation is the mask 0x10BF: it keeps bits 0-5, bit 7 and bit 12 of the
      address and clears bit 6, bits 8-11 and bits 13-15. */
  lemma {:induction false} TiaKeepsDecodedLines(b0: int, b6: int, b7: int, m: int, b12: int, h: int)
    requires 0 <= b0 < 0x40 && 0 <= b6 < 2 && 0 <= b7 < 2 && 0 <= m < 0x10 && 0 <= b12 < 2 && 0 <= h < 8
    ensures var addr := b0 + b6 * 0x40 + b7 * 0x80 + m * 0x100 + b12 * 0x1000 + h * 0x2000;
      0 <= addr < 0x1_0000 && TranslateForTia(addr as u16) as int == b0 + b7 * 0x80 + b12 * 0x1000
  {
    var addr := b0 + b6 * 0x40 + b7 * 0x80 + m * 0x100 + b12 * 0x1000 + h * 0x2000;
    assert addr % 0x40 == b0;
    assert addr / 0x80 == b7 + m * 2 + b12 * 0x20 + h * 0x40;
    assert addr / 0x1000 == b12 + h * 2;
  }

  /** Translating an alias again gives the same TIA register. */
  lemma {:induction false} TiaTranslationIdempotent(addr: u16)
    ensures TranslateForTia(TranslateForTia(addr)) == TranslateForTia(addr)
  {
    var b0, b6, b7, m, b12, h := SplitAddress(addr);
    TiaKeepsDecodedLines(b0, b6, b7, m, b12, h);
    var t := b0 + b7 * 0x80 + b12 * 0x1000;
    assert TranslateForTia(addr) as int == t;
    TiaKeepsDecodedLines(b0, 0, b7, 0, b12, 0);
    assert TranslateForTia(t as u16) as int == t;
  }

  /** Translating onto the 13-line bus before the TIA translation makes no difference: the
      lines the TIA decodes are a subset of the bus lines. */
  lemma {:induction false} TiaIgnoresBusTranslation(addr: u16)
    ensures TranslateForTia(TranslateAddr(addr)) == TranslateForTia(addr)
  {
    var b0, b6, b7, m, b12, h := SplitAddress(addr);
    TiaKeepsDecodedLines(b0, b6, b7, m, b12, h);
    var low := b0 + b6 * 0x40 + b7 * 0x80 + m * 0x100 + b12 * 0x1000;
    assert addr as int % 0x2000 == low;
    TiaKeepsDecodedLines(b0, b6, b7, m, b12, 0);
    assert TranslateForTia(low as u16) as int == b0 + b7 * 0x80 + b12 * 0x1000;
  }

  /** Bus translation keeps every address below 0x2000 as it is and is idempotent. */
  lemma BusTranslationStable(addr: u16)
    ensures addr < 0x2000 ==> TranslateAddr(addr) == addr
    ensures TranslateAddr(TranslateAddr(addr)) == TranslateAddr(addr)
  {
  }

  // ------------------------------------------------------------ effective addresses

  /** Immediate addresses the operand byte itself; the zero-page forms read it as an address,
      the indexed ones adding the index register with 8-bit wrap-around. */
  lemma ZeroPageAddresses(c: Cpu, pc: nat)
    ensures Operand(c, Imm, pc) == Ok(pc + 1)
    ensures pc + 1 < MemSize ==>
      var b := c.mem[pc + 1] as int;
      Operand(c, Zp, pc) == Ok(b) &&
      Operand(c, Zpx, pc) == Ok((b + c.x as int) % 0x100) &&
      Operand(c, Zpy, pc) == Ok((b + c.y as int) % 0x100)
  {
  }

  /** The absolute forms read a little-endian word: low byte at pc+1, high byte at pc+2.
      ABS masks it to the bus, ABSY masks first and then adds Y (a sum that cannot wrap),
      ABSX adds X to the unmasked word with 16-bit wrap-around. */
  lemma AbsoluteAddresses(c: Cpu, pc: nat)
    requires pc + 2 < MemSize
    ensures
      var w := c.mem[pc + 2] as int * 0x100 + c.mem[pc + 1] as int;
      Operand(c, Abs, pc) == Ok(w % 0x2000) &&
      Operand(c, Absy, pc) == Ok(w % 0x2000 + c.y as int) &&
      Operand(c, Absx, pc) == Ok((w + c.x as int) % 0x1_0000)
  {
    var lo, hi := c.mem[pc + 1], c.mem[pc + 2];
    var w := Word(hi, lo);
    var t := TranslateAddr(w);
    assert t as int == w as int % 0x2000;
    assert OffsetAddr(t, c.y) == t as int + c.y as int;
  }

  /** An operand byte past the end of memory is a fault, as is a mode without a resolver arm. */
  lemma OperandFaults(c: Cpu, mode: Mode, pc: nat)
    ensures mode !in ResolvedModes ==> Operand(c, mode, pc) == Err(InvalidMode(mode))
    ensures mode in ResolvedModes - {Imm} && pc + 1 >= MemSize ==> Operand(c, mode, pc) == Err(OutOfBounds(pc + 1))
    ensures mode in {Abs, Absx, Absy} && pc + 1 < MemSize <= pc + 2 ==> Operand(c, mode, pc) == Err(OutOfBounds(pc + 2))
  {
  }

  /** The state `setup_atari` builds for the unit tests: zeroed memory, pc 0x1000. */
  function TestCpu(): Cpu {
    New(seq(MemSize, _ => 0), 0x1000)
  }

  /** `test_ldx_abs`: the bytes 0x10, 0x12 after the opcode address cell 0x1210. */
  lemma AbsoluteAddressExample()
    ensures AbsAddr(TestCpu().(mem := TestCpu().mem[1 := 0x10][2 := 0x12]), 0) == Ok(0x1210)
  {
  }

  // ------------------------------------------------------------ loads

  /** `ldx`, `ldy` and `lda`. The load succeeds exactly when the mode is one the instruction
      accepts and its address can be computed and read. Then the register holds the byte at
      that address, Zero says whether it is 0, Negative whether it is 0x40 or more, the other
      flags, registers and memory are untouched, the instruction is 2 bytes long in the
      immediate and zero-page forms and 3 in the absolute ones, and it costs 2 cycles
      (immediate), 3 (zero page), 4, or 5 for an indexed absolute address of 0xFF or more. */
  lemma LoadEffect(c: Cpu, r: Register, mode: Mode, pc: nat)
    ensures Load(c, r, mode, pc).Ok? <==>
      mode in LoadModes(r) && Operand(c, mode, pc).Ok? && Operand(c, mode, pc).value < MemSize
    ensures mode !in LoadModes(r) ==> Load(c, r, mode, pc) == Err(InvalidMode(mode))
    ensures Load(c, r, mode, pc).Ok? ==>
      var t := Operand(c, mode, pc).value;
      var n := Load(c, r, mode, pc).value;
      var v := c.mem[t];
      GetRegister(n.cpu, r) == v &&
      (ReadFlag(n.cpu.flags, Zero) <==> v == 0) &&
      (ReadFlag(n.cpu.flags, Neg) <==> v >= 0x40) &&
      (forall g: Flag :: g != Zero && g != Neg ==> ReadFlag(n.cpu.flags, g) == ReadFlag(c.flags, g)) &&
      (forall q: Register :: q != r ==> GetRegister(n.cpu, q) == GetRegister(c, q)) &&
      n.cpu.mem == c.mem && n.cpu.s == c.s && n.cpu.pc == c.pc &&
      n.pc == pc + (if mode in {Imm, Zp, Zpx, Zpy} then 2 else 3) &&
      n.cpu.cycles == c.cycles + (
        if mode == Imm then 2
        else if mode == Zp then 3
        else if mode in {Absx, Absy} && t >= 0xFF then 5
        else 4)
  {
  }

  /** The modes the unit tests show to be rejected. */
  lemma InvalidModes(c: Cpu, pc: nat)
    ensures Load(c, X, Absx, pc) == Err(InvalidMode(Absx))
    ensures Load(c, Y, Absy, pc) == Err(InvalidMode(Absy))
    ensures Load(c, A, Zpy, pc) == Err(InvalidMode(Zpy))
    ensures Sta(c, Imm, pc) == Err(InvalidMode(Imm))
  {
  }

  /** What the load unit tests check: the register holds `v`, the next pc and the cycle
      count are as given, and neither Negative nor Zero is set. */
  predicate LoadedAs(res: Result<Next, Fault>, r: Register, v: u8, pc: nat, cycles: nat) {
    res.Ok? && GetRegister(res.value.cpu, r) == v && res.value.pc == pc &&
    res.value.cpu.cycles == cycles &&
    !ReadFlag(res.value.cpu.flags, Neg) && !ReadFlag(res.value.cpu.flags, Zero)
  }

  // The load unit tests, each stated for every state that holds the bytes the test writes
  // (the test itself starts from `setup_atari`, whose cycle counter is 0).

  /** A successful load in the shape the unit tests check: a byte between 1 and 0x3F at the
      effective address sets neither Zero nor Negative. */
  lemma LoadedWhen(c: Cpu, r: Register, mode: Mode, pc: nat, t: nat)
    requires mode in LoadModes(r) && Operand(c, mode, pc) == Ok(t) && t < MemSize
    requires 0 < c.mem[t] < 0x40
    ensures LoadedAs(Load(c, r, mode, pc), r, c.mem[t],
                     pc + (if mode in {Imm, Zp, Zpx, Zpy} then 2 else 3),
                     c.cycles + LoadCycles(mode, t))
  {
    LoadEffect(c, r, mode, pc);
  }

  /** `test_ldx_imm` with the next pc that `ldx` computes: 2, the length of an immediate load. */
  lemma LdxImmTest(c: Cpu)
    requires c.mem[1] == 0x10 && c.cycles == 0
    ensures LoadedAs(Load(c, X, Imm, 0), X, 0x10, 2, 2)
  {
    ZeroPageAddresses(c, 0);
    LoadedWhen(c, X, Imm, 0, 0x1);
  }

  /** `test_ldx_imm` as written asserts that the returned pc is 3: the load it runs
      succeeds, but returns another pc, so that assertion fails. */
  lemma LdxImmTestAsWritten(c: Cpu)
    requires c.mem[1] == 0x10 && c.cycles == 0
    ensures Load(c, X, Imm, 0).Ok? && Load(c, X, Imm, 0).value.pc != 3
  {
    LdxImmTest(c);
  }

  /** `test_ldx_zp`. */
  lemma LdxZpTest(c: Cpu)
    requires c.mem[1] == 0x10 && c.mem[0x10] == 0x12 && c.cycles == 0
    ensures LoadedAs(Load(c, X, Zp, 0), X, 0x12, 2, 3)
  {
    ZeroPageAddresses(c, 0);
    LoadedWhen(c, X, Zp, 0, 0x10);
  }

  /** `test_ldx_zpy`. */
  lemma LdxZpyTest(c: Cpu)
    requires c.mem[1] == 0x10 && c.mem[0x15] == 0x9 && c.y == 5 && c.cycles == 0
    ensures LoadedAs(Load(c, X, Zpy, 0), X, 0x9, 2, 4)
  {
    ZeroPageAddresses(c, 0);
    LoadedWhen(c, X, Zpy, 0, 0x15);
  }

  /** `test_ldx_abs`. */
  lemma LdxAbsTest(c: Cpu)
    requires c.mem[1] == 0x10 && c.mem[2] == 0x12 && c.mem[0x1210] == 0x9 && c.cycles == 0
    ensures LoadedAs(Load(c, X, Abs, 0), X, 0x9, 3, 4)
  {
    AbsoluteAddresses(c, 0);
    LoadedWhen(c, X, Abs, 0, 0x1210);
  }

  /** `test_ldx_absy`. */
  lemma LdxAbsyTest(c: Cpu)
    requires c.mem[1] == 0x10 && c.mem[2] == 0 && c.mem[0x15] == 0x9 && c.y == 5 && c.cycles == 0
    ensures LoadedAs(Load(c, X, Absy, 0), X, 0x9, 3, 4)
  {
    AbsoluteAddresses(c, 0);
    LoadedWhen(c, X, Absy, 0, 0x15);
  }

  /** `test_ldx_absy_page_boundary`. */
  lemma LdxAbsyPageTest(c: Cpu)
    requires c.mem[1] == 0x10 && c.mem[2] == 0x12 && c.mem[0x1215] == 0x9 && c.y == 5 && c.cycles == 0
    ensures LoadedAs(Load(c, X, Absy, 0), X, 0x9, 3, 5)
  {
    AbsoluteAddresses(c, 0);
    LoadedWhen(c, X, Absy, 0, 0x1215);
  }

  /** `test_ldy_imm`. */
  lemma LdyImmTest(c: Cpu)
    requires c.mem[1] == 0x10 && c.cycles == 0
    ensures LoadedAs(Load(c, Y, Imm, 0), Y, 0x10, 2, 2)
  {
    ZeroPageAddresses(c, 0);
    LoadedWhen(c, Y, Imm, 0, 0x1);
  }

  /** `test_ldy_zp`. */
  lemma LdyZpTest(c: Cpu)
    requires c.mem[1] == 0x10 && c.mem[0x10] == 0x12 && c.cycles == 0
    ensures LoadedAs(Load(c, Y, Zp, 0), Y, 0x12, 2, 3)
  {
    ZeroPageAddresses(c, 0);
    LoadedWhen(c, Y, Zp, 0, 0x10);
  }

  /** `test_ldy_zpx`. */
  lemma LdyZpxTest(c: Cpu)
    requires c.mem[1] == 0x10 && c.mem[0x15] == 0x9 && c.x == 5 && c.cycles == 0
    ensures LoadedAs(Load(c, Y, Zpx, 0), Y, 0x9, 2, 4)
  {
    ZeroPageAddresses(c, 0);
    LoadedWhen(c, Y, Zpx, 0, 0x15);
  }

  /** `test_ldy_abs`. */
  lemma LdyAbsTest(c: Cpu)
    requires c.mem[1] == 0x10 && c.mem[2] == 0x12 && c.mem[0x1210] == 0x9 && c.cycles == 0
    ensures LoadedAs(Load(c, Y, Abs, 0), Y, 0x9, 3, 4)
  {
    AbsoluteAddresses(c, 0);
    LoadedWhen(c, Y, Abs, 0, 0x1210);
  }

  /** `test_ldy_absx`. */
  lemma LdyAbsxTest(c: Cpu)
    requires c.mem[1] == 0x10 && c.mem[2] == 0 && c.mem[0x15] == 0x9 && c.x == 5 && c.cycles == 0
    ensures LoadedAs(Load(c, Y, Absx, 0), Y, 0x9, 3, 4)
  {
    AbsoluteAddresses(c, 0);
    LoadedWhen(c, Y, Absx, 0, 0x15);
  }

  /** `test_ldx_absx_page_boundary`. That test runs `ldy`. */
  lemma LdyAbsxPageTest(c: Cpu)
    requires c.mem[1] == 0x10 && c.mem[2] == 0x12 && c.mem[0x1215] == 0x9 && c.x == 5 && c.cycles == 0
    ensures LoadedAs(Load(c, Y, Absx, 0), Y, 0x9, 3, 5)
  {
    AbsoluteAddresses(c, 0);
    LoadedWhen(c, Y, Absx, 0, 0x1215);
  }

  /** `test_lda_imm`. */
  lemma LdaImmTest(c: Cpu)
    requires c.mem[1] == 0x10 && c.cycles == 0
    ensures LoadedAs(Load(c, A, Imm, 0), A, 0x10, 2, 2)
  {
    ZeroPageAddresses(c, 0);
    LoadedWhen(c, A, Imm, 0, 0x1);
  }

  /** `test_lda_zp`. */
  lemma LdaZpTest(c: Cpu)
    requires c.mem[1] == 0x10 && c.mem[0x10] == 0x12 && c.cycles == 0
    ensures LoadedAs(Load(c, A, Zp, 0), A, 0x12, 2, 3)
  {
    ZeroPageAddresses(c, 0);
    LoadedWhen(c, A, Zp, 0, 0x10);
  }

  /** `test_lda_zpx`. */
  lemma LdaZpxTest(c: Cpu)
    requires c.mem[1] == 0x10 && c.mem[0x15] == 0x9 && c.x == 5 && c.cycles == 0
    ensures LoadedAs(Load(c, A, Zpx, 0), A, 0x9, 2, 4)
  {
    ZeroPageAddresses(c, 0);
    LoadedWhen(c, A, Zpx, 0, 0x15);
  }

  /** `test_lda_abs`. */
  lemma LdaAbsTest(c: Cpu)
    requires c.mem[1] == 0x10 && c.mem[2] == 0x12 && c.mem[0x1210] == 0x9 && c.cycles == 0
    ensures LoadedAs(Load(c, A, Abs, 0), A, 0x9, 3, 4)
  {
    AbsoluteAddresses(c, 0);
    LoadedWhen(c, A, Abs, 0, 0x1210);
  }

  /** `test_lda_absy`. */
  lemma LdaAbsyTest(c: Cpu)
    requires c.mem[1] == 0x10 && c.mem[2] == 0 && c.mem[0x15] == 0x9 && c.y == 5 && c.cycles == 0
    ensures LoadedAs(Load(c, A, Absy, 0), A, 0x9, 3, 4)
  {
    AbsoluteAddresses(c, 0);
    LoadedWhen(c, A, Absy, 0, 0x15);
  }

  /** `test_lda_absy_page_boundary`. */
  lemma LdaAbsyPageTest(c: Cpu)
    requires c.mem[1] == 0x10 && c.mem[2] == 0x12 && c.mem[0x1215] == 0x9 && c.y == 5 && c.cycles == 0
    ensures LoadedAs(Load(c, A, Absy, 0), A, 0x9, 3, 5)
  {
    AbsoluteAddresses(c, 0);
    LoadedWhen(c, A, Absy, 0, 0x1215);
  }

  /** `test_lda_absx`. */
  lemma LdaAbsxTest(c: Cpu)
    requires c.mem[1] == 0x10 && c.mem[2] == 0 && c.mem[0x15] == 0x9 && c.x == 5 && c.cycles == 0
    ensures LoadedAs(Load(c, A, Absx, 0), A, 0x9, 3, 4)
  {
    AbsoluteAddresses(c, 0);
    LoadedWhen(c, A, Absx, 0, 0x15);
  }

  /** `test_lda_absx_page_boundary`. */
  lemma LdaAbsxPageTest(c: Cpu)
    requires c.mem[1] == 0x10 && c.mem[2] == 0x12 && c.mem[0x1215] == 0x9 && c.x == 5 && c.cycles == 0
    ensures LoadedAs(Load(c, A, Absx, 0), A, 0x9, 3, 5)
  {
    AbsoluteAddresses(c, 0);
    LoadedWhen(c, A, Absx, 0, 0x1215);
  }

  /** `test_set_flag_neg_*` and `test_set_flag_zero_*`: Negative from 0x40 up, Zero only for 0. */
  lemma ResultFlagTests()
    ensures !ReadFlag(SetFlagNeg(0, 0x12), Neg)
    ensures ReadFlag(SetFlagNeg(0, 0x40), Neg) && ReadFlag(SetFlagNeg(SetFlagNeg(0, 0x40), 0xFF), Neg)
    ensures !ReadFlag(SetFlagZero(0, 0x12), Zero) && !ReadFlag(SetFlagZero(SetFlagZero(0, 0x12), 0xFF), Zero)
    ensures ReadFlag(SetFlagZero(0, 0), Zero)
  {
  }

  // ------------------------------------------------------------ flag instructions

  /** SEC, CLC, SEI, CLI, SED, CLD and CLV: the instruction's flag takes its fixed value,
      every other flag reads as before, 2 cycles are charged and the returned pc is pc+1.
      Memory and registers are untouched; the `pc` field goes up by one for the five
      instructions whose Rust body increments it. */
  lemma FlagInstrEffect(c: Cpu, op: FlagOp, pc: nat)
    ensures var n := FlagInstr(c, op, pc);
      ReadFlag(n.cpu.flags, FlagOf(op)) == ValueOf(op) &&
      (forall g: Flag :: g != FlagOf(op) ==> ReadFlag(n.cpu.flags, g) == ReadFlag(c.flags, g)) &&
      n.cpu.cycles == c.cycles + 2 && n.pc == pc + 1 &&
      n.cpu.pc == (if op in {Sec, Sei} then c.pc else c.pc + 1) &&
      n.cpu.mem == c.mem && n.cpu.x == c.x && n.cpu.y == c.y && n.cpu.a == c.a && n.cpu.s == c.s
  {
    WriteFlagExactlyOne(c.flags, FlagOf(op), ValueOf(op));
  }

  /** Which flag each instruction writes, and to what. */
  lemma FlagInstrTable()
    ensures FlagOf(Sec) == Carry && ValueOf(Sec) && FlagOf(Clc) == Carry && !ValueOf(Clc)
    ensures FlagOf(Sei) == Irqd && ValueOf(Sei) && FlagOf(Cli) == Irqd && !ValueOf(Cli)
    ensures FlagOf(Sed) == Dec && ValueOf(Sed) && FlagOf(Cld) == Dec && !ValueOf(Cld)
    ensures FlagOf(Clv) == Over && !ValueOf(Clv)
  {
  }

  /** `test_sec`, `test_cli`, `test_sei`, `test_clv`, `test_cld` and `test_sed`, from a state
      whose cycle counter is 0 and whose flag may have been set beforehand. */
  lemma FlagInstrTests(c: Cpu)
    requires c.cycles == 0
    ensures var n := FlagInstr(c, Sec, 0); ReadFlag(n.cpu.flags, Carry) && n.pc == 1 && n.cpu.cycles == 2
    ensures var n := FlagInstr(c, Cli, 0); !ReadFlag(n.cpu.flags, Irqd) && n.pc == 1 && n.cpu.cycles == 2
    ensures var n := FlagInstr(c, Sei, 0); ReadFlag(n.cpu.flags, Irqd) && n.pc == 1 && n.cpu.cycles == 2
    ensures var n := FlagInstr(c, Clv, 0); !ReadFlag(n.cpu.flags, Over) && n.pc == 1 && n.cpu.cycles == 2
    ensures var n := FlagInstr(c, Cld, 0); !ReadFlag(n.cpu.flags, Dec) && n.pc == 1 && n.cpu.cycles == 2
    ensures var n := FlagInstr(c, Sed, 0); ReadFlag(n.cpu.flags, Dec) && n.pc == 1 && n.cpu.cycles == 2
  {
    FlagInstrEffect(c, Sec, 0);
    FlagInstrEffect(c, Cli, 0);
    FlagInstrEffect(c, Sei, 0);
    FlagInstrEffect(c, Clv, 0);
    FlagInstrEffect(c, Cld, 0);
    FlagInstrEffect(c, Sed, 0);
  }

  /** SEC followed by CLC leaves the status byte as it was when Carry was clear. */
  lemma SecThenClc(c: Cpu, pc: nat)
    requires !ReadFlag(c.flags, Carry)
    ensures FlagInstr(FlagInstr(c, Sec, pc).cpu, Clc, pc + 1).cpu.flags == c.flags
  {
    assert c.flags & 1 == 0;
  }

  /** CLD followed by SED leaves the status byte as it was when Decimal was set. */
  lemma CldThenSed(c: Cpu, pc: nat)
    requires ReadFlag(c.flags, Dec)
    ensures FlagInstr(FlagInstr(c, Cld, pc).cpu, Sed, pc + 1).cpu.flags == c.flags
  {
    assert c.flags & 8 == 8;
  }

  // ------------------------------------------------------------ register instructions

  /** The four 8-bit registers the one-byte instructions move between. */
  datatype Reg8 = SReg | XReg | YReg | AReg

  function Read8(c: Cpu, q: Reg8): u8 {
    match q
    case SReg => c.s
    case XReg => c.x
    case YReg => c.y
    case AReg => c.a
  }

  /** The register an instruction writes. */
  function Dest(op: RegOp): Reg8 {
    match op
    case Txs => SReg
    case Tsx | Tax | Dex | Inx => XReg
    case Tay | Dey | Iny => YReg
    case Txa | Tya => AReg
  }

  /** The register whose value it starts from. */
  function Source(op: RegOp): Reg8 {
    match op
    case Tsx => SReg
    case Txs | Txa | Dex | Inx => XReg
    case Tya | Dey | Iny => YReg
    case Tax | Tay => AReg
  }

  /** What it adds to that value: nothing for a transfer, -1 or +1 for a decrement or increment. */
  function Delta(op: RegOp): int {
    match op
    case Dex | Dey => -1
    case Inx | Iny => 1
    case _ => 0
  }

  /** TXS, TSX, TAX, TXA, DEX, INX, TAY, TYA, DEY and INY: the destination receives the
      source plus the instruction's delta modulo 256 (so DEX/DEY take 0 to 0xFF and INX/INY
      take 0xFF to 0), no other register changes, only TAX, TXA and DEX recompute Zero and
      Negative from the new value, and each costs 2 cycles and returns pc+1. */
  lemma RegisterInstrEffect(c: Cpu, op: RegOp, pc: nat)
    ensures var n := RegisterInstr(c, op, pc);
      Read8(n.cpu, Dest(op)) as int == (Read8(c, Source(op)) as int + Delta(op)) % 0x100 &&
      (forall q: Reg8 :: q != Dest(op) ==> Read8(n.cpu, q) == Read8(c, q)) &&
      (op in {Tax, Txa, Dex} ==> n.cpu.flags == ResultFlags(c.flags, Read8(n.cpu, Dest(op)))) &&
      (op !in {Tax, Txa, Dex} ==> n.cpu.flags == c.flags) &&
      n.cpu.mem == c.mem && n.cpu.pc == c.pc && n.cpu.cycles == c.cycles + 2 && n.pc == pc + 1
  {
  }

  /** The decrement of DEX/DEY and the wrapping increment of INX/INY undo each other. */
  lemma {:induction false} DecrementUndoesIncrement(v: u8)
    ensures Decrement(Wrap8(v as int + 1)) == v
    ensures Wrap8(Decrement(v) as int + 1) == v
  {
    if v == 0xFF {
      assert Wrap8(v as int + 1) == 0;
    }
  }

  /** INX followed by DEX gives back X; INY followed by DEY gives back Y. */
  lemma IncrementThenDecrement(c: Cpu, pc: nat)
    ensures RegisterInstr(RegisterInstr(c, Inx, pc).cpu, Dex, pc + 1).cpu.x == c.x
    ensures RegisterInstr(RegisterInstr(c, Iny, pc).cpu, Dey, pc + 1).cpu.y == c.y
  {
    DecrementUndoesIncrement(c.x);
    DecrementUndoesIncrement(c.y);
  }

  /** `test_txs` and `test_tsx`. */
  lemma TransferTests(c: Cpu)
    ensures c.x == 0x12 ==> RegisterInstr(c, Txs, 0).cpu.s == 0x12
    ensures c.s == 0x12 ==> RegisterInstr(c, Tsx, 0).cpu.x == 0x12
  {
  }

  // ------------------------------------------------------------ stack and store

  /** The TIA alias of a stack cell: bit 8 of 0x100 + S is dropped, as is bit 6 of S. The
      push therefore also lands in the zero page. */
  lemma {:induction false} StackMirror(s: u8)
    ensures MirrorIndex(StackCell(s)) == s as int % 0x40 + s as int / 0x80 * 0x80
    ensures MirrorIndex(StackCell(s)) < 0x100
  {
    var b0, b6, b7, m, b12, h := SplitAddress(StackCell(s) as u16);
    TiaKeepsDecodedLines(b0, b6, b7, m, b12, h);
    assert s as int == b0 + b6 * 0x40 + b7 * 0x80;
  }

  /** `pha`: A is written at 0x100 + S and at that cell's alias, nothing else in memory
      changes, S goes down by one with 0 becoming 0xFF, 3 cycles are charged and pc+1 is
      returned. The push cannot fail: the stack page lies inside the memory. */
  lemma PhaEffect(c: Cpu, pc: nat)
    ensures var n := Pha(c, pc); var cell := 0x100 + c.s as int;
      n.cpu.mem[cell] == c.a && n.cpu.mem[MirrorIndex(cell)] == c.a &&
      (forall i :: 0 <= i < MemSize && i != cell && i != MirrorIndex(cell) ==> n.cpu.mem[i] == c.mem[i]) &&
      n.cpu.s as int == (c.s as int - 1) % 0x100 && (c.s == 0 ==> n.cpu.s == 0xFF) &&
      n.cpu.x == c.x && n.cpu.y == c.y && n.cpu.a == c.a && n.cpu.flags == c.flags && n.cpu.pc == c.pc &&
      n.cpu.cycles == c.cycles + 3 && n.pc == pc + 1
  {
  }

  /** `sta`: succeeds exactly when the mode is one of ZP, ZPX, ABS, ABSX, ABSY and the
      address can be computed and lies in memory. Then A is stored there and at the alias,
      nothing else changes but the cycle count (ZP 3, ABS and ZPX 4, ABSX and ABSY 5), and
      pc advances by 2 or 3. */
  lemma StaEffect(c: Cpu, mode: Mode, pc: nat)
    ensures Sta(c, mode, pc).Ok? <==>
      mode in StaModes && Operand(c, mode, pc).Ok? && Operand(c, mode, pc).value < MemSize
    ensures mode !in StaModes ==> Sta(c, mode, pc) == Err(InvalidMode(mode))
    ensures mode in StaModes && Operand(c, mode, pc).Ok? && Operand(c, mode, pc).value >= MemSize ==>
      Sta(c, mode, pc) == Err(OutOfBounds(Operand(c, mode, pc).value))
    ensures Sta(c, mode, pc).Ok? ==>
      var t := Operand(c, mode, pc).value;
      var n := Sta(c, mode, pc).value;
      n.cpu.mem[t] == c.a && n.cpu.mem[MirrorIndex(t)] == c.a &&
      (forall i :: 0 <= i < MemSize && i != t && i != MirrorIndex(t) ==> n.cpu.mem[i] == c.mem[i]) &&
      n.cpu.(mem := c.mem, cycles := c.cycles) == c &&
      n.pc == pc + (if mode in {Zp, Zpx} then 2 else 3) &&
      n.cpu.cycles == c.cycles + (if mode == Zp then 3 else if mode in {Abs, Zpx} then 4 else 5)
  {
  }

  // ------------------------------------------------------------ branch and jump

  /** `bne`. With Zero set: 2 cycles and pc+2. Otherwise the byte after the opcode is a
      signed offset from pc+2, the sum wrapping modulo 2^64 when negative, at 3 cycles;
      reading that byte past the end of memory fails. Nothing else changes. */
  lemma BneEffect(c: Cpu, pc: nat)
    ensures ReadFlag(c.flags, Zero) ==> Bne(c, pc) == Ok(Next(c.(cycles := c.cycles + 2), pc + 2))
    ensures !ReadFlag(c.flags, Zero) && pc + 1 >= MemSize ==> Bne(c, pc) == Err(OutOfBounds(pc + 1))
    ensures !ReadFlag(c.flags, Zero) && pc + 1 < MemSize ==>
      var off := c.mem[pc + 1] as int;
      Bne(c, pc).Ok? && Bne(c, pc).value.cpu == c.(cycles := c.cycles + 3) &&
      (off < 0x80 ==> Bne(c, pc).value.pc == pc + 2 + off) &&
      (off >= 0x80 && pc + 2 + off >= 0x100 ==> Bne(c, pc).value.pc == pc + 2 + off - 0x100) &&
      (off >= 0x80 && pc + 2 + off < 0x100 ==> Bne(c, pc).value.pc == UsizeModulus + pc + 2 + off - 0x100)
  {
  }

  /** A branch offset of 0xFE (-2) jumps back to the branch itself; from pc 0 an offset of
      0x80 (-128) gives a negative sum, which wraps around to the top of `usize`. */
  lemma BranchTargetExamples()
    ensures BranchTarget(0x10, 0xFE) == 0x10
    ensures BranchTarget(0, 0x80) == UsizeModulus - 126
  {
  }

  /** `jmp`: only the absolute form is accepted; it returns the bus-translated absolute
      address and charges 3 cycles, changing nothing else. */
  lemma JmpEffect(c: Cpu, mode: Mode, pc: nat)
    ensures mode != Abs ==> Jmp(c, mode, pc) == Err(InvalidMode(mode))
    ensures mode == Abs && pc + 2 < MemSize ==>
      Jmp(c, mode, pc) == Ok(Next(c.(cycles := c.cycles + 3), (c.mem[pc + 2] as int * 0x100 + c.mem[pc + 1] as int) % 0x2000))
    ensures mode == Abs && pc + 2 >= MemSize ==> Jmp(c, mode, pc).Err?
  {
    if mode == Abs && pc + 2 < MemSize {
      AbsoluteAddresses(c, pc);
    }
  }

  // ------------------------------------------------------------ dispatch

  /** The dispatch table read backwards: the opcode `execute_step` maps to an instruction,
      if there is one. */
  function Opcode(ins: Instruction): Option<u8> {
    match ins
    case FlagInstruction(op) =>
      Some(match op case Clc => 0x18 case Sec => 0x38 case Cli => 0x58 case Sei => 0x78
                    case Clv => 0xB8 case Cld => 0xD8 case Sed => 0xF8)
    case LoadRegister(X, mode) =>
      (match mode
      case Imm => Some(0xA2) case Zp => Some(0xA6) case Zpy => Some(0xB6)
      case Abs => Some(0xAE) case Absy => Some(0xBE) case _ => None)
    case LoadRegister(Y, mode) =>
      (match mode
      case Imm => Some(0xA0) case Zp => Some(0xA4) case Zpx => Some(0xB4)
      case Abs => Some(0xAC) case Absx => Some(0xBC) case _ => None)
    case LoadRegister(A, mode) =>
      (match mode
      case Imm => Some(0xA9) case Zp => Some(0xA5) case Zpx => Some(0xB5)
      case Abs => Some(0xAD) case Absx => Some(0xBD) case Absy => Some(0xB9) case _ => None)
    case StoreA(mode) =>
      (match mode
      case Zp => Some(0x85) case Zpx => Some(0x95) case Abs => Some(0x8D)
      case Absx => Some(0x9D) case Absy => Some(0x99) case _ => None)
    case RegisterInstruction(op) =>
      Some(match op case Txs => 0x9A case Tsx => 0xBA case Tax => 0xAA case Txa => 0x8A
                    case Dex => 0xCA case Inx => 0xE8 case Tay => 0xA8 case Tya => 0x98
                    case Dey => 0x88 case Iny => 0xC8)
    case PushA => Some(0x48)
    case BranchNotEqual => Some(0xD0)
    case Jump(mode) =>
      (match mode
      case Abs => Some(0x4C) case Ind => Some(0x6C) case _ => None)
  }

  /** Every opcode of the table decodes to an instruction whose opcode it is. */
  lemma DecodeThenOpcode(op: u8)
    ensures Decode(op).Some? ==> Opcode(Decode(op).value) == Some(op)
  {
  }

  /** Every instruction with an opcode decodes back from it: the table is a bijection
      between its 42 opcodes and the instructions that have one. */
  lemma OpcodeThenDecode(ins: Instruction)
    ensures Opcode(ins).Some? ==> Decode(Opcode(ins).value) == Some(ins)
  {
  }

  /** The load opcodes carry modes the load accepts, so their only faults are memory ones;
      the store opcodes likewise. */
  lemma DecodedModesAccepted(op: u8)
    ensures Decode(op).Some? && Decode(op).value.LoadRegister? ==>
      Decode(op).value.mode in LoadModes(Decode(op).value.reg)
    ensures Decode(op).Some? && Decode(op).value.StoreA? ==> Decode(op).value.mode in StaModes
  {
  }

  /** The fatal conditions of `execute_step`: a pc past the end of memory, an opcode
      outside the table, and 0x6C, whose indirect mode `jmp` has no arm for. */
  lemma StepFaults(c: Cpu)
    ensures c.pc >= MemSize ==> Step(c) == Err(OutOfBounds(c.pc))
    ensures c.pc < MemSize && Decode(c.mem[c.pc]).None? ==> Step(c) == Err(NotImplemented(c.mem[c.pc]))
    ensures c.pc < MemSize && c.mem[c.pc] == 0x6C ==> Step(c) == Err(InvalidMode(Ind))
  {
  }

  /** In `execute_step`, the pc stored is the one the instruction returned. */
  lemma StepStoresReturnedPc(c: Cpu, ins: Instruction)
    requires c.pc < MemSize && Decode(c.mem[c.pc]) == Some(ins)
    ensures Step(c).Ok? <==> Dispatch(c, ins, c.pc).Ok?
    ensures Step(c).Ok? ==> Step(c).value == Dispatch(c, ins, c.pc).value.cpu.(pc := Dispatch(c, ins, c.pc).value.pc)
  {
  }

  /** Every instruction that completes costs between 2 and 5 cycles. */
  lemma DispatchCycles(c: Cpu, ins: Instruction, pc: nat)
    requires Dispatch(c, ins, pc).Ok?
    ensures c.cycles + 2 <= Dispatch(c, ins, pc).value.cpu.cycles <= c.cycles + 5
  {
    match ins
    case FlagInstruction(op) => FlagInstrEffect(c, op, pc);
    case LoadRegister(r, mode) => LoadEffect(c, r, mode, pc);
    case StoreA(mode) => StaEffect(c, mode, pc);
    case RegisterInstruction(op) => RegisterInstrEffect(c, op, pc);
    case PushA => PhaEffect(c, pc);
    case BranchNotEqual => BneEffect(c, pc);
    case Jump(mode) => JmpEffect(c, mode, pc);
  }

  /** Only STA and PHA write memory; every other instruction leaves it as it was. */
  lemma DispatchMemory(c: Cpu, ins: Instruction, pc: nat)
    requires Dispatch(c, ins, pc).Ok? && !ins.StoreA? && !ins.PushA?
    ensures Dispatch(c, ins, pc).value.cpu.mem == c.mem
  {
    match ins
    case FlagInstruction(op) => FlagInstrEffect(c, op, pc);
    case LoadRegister(r, mode) => LoadEffect(c, r, mode, pc);
    case RegisterInstruction(op) => RegisterInstrEffect(c, op, pc);
    case BranchNotEqual => BneEffect(c, pc);
    case Jump(mode) => JmpEffect(c, mode, pc);
  }

  /** A step that completes raises the cycle count by 2 to 5. */
  lemma StepCycles(c: Cpu)
    requires Step(c).Ok?
    ensures c.cycles + 2 <= Step(c).value.cycles <= c.cycles + 5
  {
    var ins := Decode(c.mem[c.pc]).value;
    DispatchCycles(c, ins, c.pc);
  }

  // ------------------------------------------------------------ adc

  /** A byte holding two decimal digits. */
  predicate IsBcd(b: u8) {
    b as int % 0x10 <= 9 && b as int / 0x10 <= 9
  }

  function FromBcd(b: u8): int {
    b as int / 0x10 * 10 + b as int % 0x10
  }

  function ToBcd(n: int): u8
    requires 0 <= n < 100
  {
    (n / 10 * 0x10 + n % 10) as u8
  }

  /** In binary mode `adc` leaves A + value + carry modulo 256 in A and changes nothing else. */
  lemma AdcBinary(c: Cpu, value: u8)
    requires !ReadFlag(c.flags, Dec)
    ensures Adc(c, value).a as int == (c.a as int + value as int + if ReadFlag(c.flags, Carry) then 1 else 0) % 0x100
    ensures Adc(c, value).(a := c.a) == c
  {
  }

  /** The low-digit fix: a low column of 10 to 15 becomes a digit and a carry. */
  lemma LowColumnFix(hi: int, lo: int)
    requires 0 <= hi <= 15 && 0 <= lo <= 15
    ensures var sum := hi * 0x10 + lo;
      (if sum % 0x10 > 0x09 then sum + 0x06 else sum) ==
      (if lo > 9 then (hi + 1) * 0x10 + (lo - 10) else sum)
  {
    assert (hi * 0x10 + lo) % 0x10 == lo;
  }

  /** The high-digit fix: a high column of 10 to 15 becomes a digit and a carry out of the byte. */
  lemma HighColumnFix(h: int, l: int)
    requires 0 <= h <= 15 && 0 <= l <= 9
    ensures var v := h * 0x10 + l;
      (if v / 0x10 % 0x10 > 0x09 then v + 0x60 else v) % 0x100 ==
      (if h > 9 then h - 10 else h) * 0x10 + l
  {
    assert (h * 0x10 + l) / 0x10 == h;
  }

  /** The decimal digits of a two-column sum, modulo 100. */
  lemma DecimalColumns(h: int, l: int)
    requires 0 <= h <= 15 && 0 <= l <= 9
    ensures var n := (h * 10 + l) % 100;
      n / 10 == (if h > 9 then h - 10 else h) && n % 10 == l
  {
    var h2 := if h > 9 then h - 10 else h;
    assert (h * 10 + l) % 100 == h2 * 10 + l;
  }

  /** The decimal adjustment on digit columns: `lo` is the low-column sum, `hi` the high
      one, each at most 15. */
  lemma {:induction false} BcdColumns(hi: int, lo: int)
    requires 0 <= hi <= 15 && 0 <= lo <= 15 && hi + (if lo > 9 then 1 else 0) <= 15
    ensures var sum := hi * 0x10 + lo;
      var lowFixed := if sum % 0x10 > 0x09 then sum + 0x06 else sum;
      var fixed := if lowFixed / 0x10 % 0x10 > 0x09 then lowFixed + 0x60 else lowFixed;
      var n := (hi * 10 + lo) % 100;
      fixed % 0x100 == n / 10 * 0x10 + n % 10
  {
    LowColumnFix(hi, lo);
    var h1 := if lo > 9 then hi + 1 else hi;
    var l1 := if lo > 9 then lo - 10 else lo;
    HighColumnFix(h1, l1);
    assert hi * 10 + lo == h1 * 10 + l1;
    DecimalColumns(h1, l1);
  }

  /** In decimal mode the adjustment gives the decimal sum, modulo 100, of two BCD bytes
      whenever neither digit column sums past 15 before it is adjusted. */
  lemma AdcDecimal(a: u8, value: u8, carry: bool)
    requires IsBcd(a) && IsBcd(value)
    requires a as int % 0x10 + value as int % 0x10 + (if carry then 1 else 0) <= 15
    requires a as int / 0x10 + value as int / 0x10 +
      (if a as int % 0x10 + value as int % 0x10 + (if carry then 1 else 0) > 9 then 1 else 0) <= 15
    ensures LowByte(AdcSum(a, value, carry, true)) ==
      ToBcd((FromBcd(a) + FromBcd(value) + if carry then 1 else 0) % 100)
  {
    var k := if carry then 1 else 0;
    var lo := a as int % 0x10 + value as int % 0x10 + k;
    var hi := a as int / 0x10 + value as int / 0x10;
    assert a as int + value as int + k == hi * 0x10 + lo;
    assert FromBcd(a) + FromBcd(value) + k == hi * 10 + lo;
    BcdColumns(hi, lo);
  }

  /** Two sums the adjustment gets wrong: a digit column that reaches 16 or more carries
      out before the test sees it, so 09 + 09 gives 0x12 (not 0x18) and 90 + 90 gives 0x20
      (not 0x80 with a carry). */
  lemma AdcDecimalColumnOverflow()
    ensures LowByte(AdcSum(0x09, 0x09, false, true)) == 0x12
    ensures LowByte(AdcSum(0x90, 0x90, false, true)) == 0x20
  {
  }
}
