/** The packed status byte. Both revisions name the eight status bits twice: `Flag`
    gives a bit's ordinal (used by `read_flag`), `FlagWriter` gives its mask (used by
    `write_flag`). Here one datatype carries both through `Ordinal` and `WriterMask`. */
module Flags {

  datatype Flag = Carry | Zero | Irqd | Dec | Brk | Unused | Over | Neg

  /** The `Flag` discriminant: the bit position of the flag. */
  function Ordinal(f: Flag): (i: nat)
    ensures i < 8
  {
    match f
    case Carry => 0
    case Zero => 1
    case Irqd => 2
    case Dec => 3
    case Brk => 4
    case Unused => 5
    case Over => 6
    case Neg => 7
  }

  /** The `FlagWriter` discriminant: the mask written by `write_flag`. */
  function WriterMask(f: Flag): bv8 {
    match f
    case Neg => 0x80
    case Over => 0x40
    case Unused => 0x20
    case Brk => 0x10
    case Dec => 0x08
    case Irqd => 0x04
    case Zero => 0x02
    case Carry => 0x01
  }

  /** `read_flag`: tests bit `Ordinal(f)` of the status byte. */
  function ReadFlag(flags: bv8, f: Flag): bool {
    flags & (1 << Ordinal(f)) != 0
  }

  /** `write_flag`: ors the mask in, or ands its complement. */
  function WriteFlag(flags: bv8, f: Flag, v: bool): bv8 {
    if v then flags | WriterMask(f) else flags & !WriterMask(f)
  }

  /** The two enumerations agree: the writer mask of a flag is the bit its ordinal names. */
  lemma WriterMaskIsOrdinalBit(f: Flag)
    ensures WriterMask(f) == 1 << Ordinal(f)
  {
    match f
    case Carry =>
    case Zero =>
    case Irqd =>
    case Dec =>
    case Brk =>
    case Unused =>
    case Over =>
    case Neg =>
  }

  /** Distinct flags have distinct, non-overlapping masks. */
  lemma MasksDisjoint(f: Flag, g: Flag)
    requires f != g
    ensures WriterMask(f) & WriterMask(g) == 0
  {
    match f
    case Carry =>
    case Zero =>
    case Irqd =>
    case Dec =>
    case Brk =>
    case Unused =>
    case Over =>
    case Neg =>
  }

  /** Reading a flag back after writing it yields the written value. */
  lemma ReadAfterWrite(flags: bv8, f: Flag, v: bool)
    ensures ReadFlag(WriteFlag(flags, f, v), f) == v
  {
    WriterMaskIsOrdinalBit(f);
  }

  /** Writing one flag does not change how any other flag reads. */
  lemma ReadAfterWriteOther(flags: bv8, f: Flag, g: Flag, v: bool)
    requires f != g
    ensures ReadFlag(WriteFlag(flags, f, v), g) == ReadFlag(flags, g)
  {
    WriterMaskIsOrdinalBit(g);
    MasksDisjoint(f, g);
  }

  /** Writing one flag leaves the other seven bits of the byte exactly as they were. */
  lemma WriteKeepsOtherBits(flags: bv8, f: Flag, v: bool)
    ensures WriteFlag(flags, f, v) & !WriterMask(f) == flags & !WriterMask(f)
  {
  }

  /** Two status bytes are equal exactly when every flag reads the same in both. */
  lemma FlagsExtensional(a: bv8, b: bv8)
    requires forall f: Flag :: ReadFlag(a, f) == ReadFlag(b, f)
    ensures a == b
  {
    assert ReadFlag(a, Carry) == ReadFlag(b, Carry);
    assert ReadFlag(a, Zero) == ReadFlag(b, Zero);
    assert ReadFlag(a, Irqd) == ReadFlag(b, Irqd);
    assert ReadFlag(a, Dec) == ReadFlag(b, Dec);
    assert ReadFlag(a, Brk) == ReadFlag(b, Brk);
    assert ReadFlag(a, Unused) == ReadFlag(b, Unused);
    assert ReadFlag(a, Over) == ReadFlag(b, Over);
    assert ReadFlag(a, Neg) == ReadFlag(b, Neg);
  }

  /** The status byte with `f` set to `v`, read flag by flag: exactly `f` changes. */
  lemma WriteFlagExactlyOne(flags: bv8, f: Flag, v: bool)
    ensures forall g: Flag :: ReadFlag(WriteFlag(flags, f, v), g) == if g == f then v else ReadFlag(flags, g)
  {
    forall g: Flag
      ensures ReadFlag(WriteFlag(flags, f, v), g) == if g == f then v else ReadFlag(flags, g)
    {
      if g == f {
        ReadAfterWrite(flags, f, v);
      } else {
        ReadAfterWriteOther(flags, f, g, v);
      }
    }
  }

  /** The seven processor-status instructions, present in both revisions. */
  datatype FlagOp = Clc | Sec | Cli | Sei | Clv | Cld | Sed

  /** The flag an instruction writes. */
  function FlagOf(op: FlagOp): Flag {
    match op
    case Clc | Sec => Carry
    case Cli | Sei => Irqd
    case Clv => Over
    case Cld | Sed => Dec
  }

  /** The value it writes: the SE* instructions set, the CL* instructions clear. */
  function ValueOf(op: FlagOp): bool {
    op in {Sec, Sei, Sed}
  }

  /** `cli`, `cld`, `clc`, `clv` and `sed` also increment the `pc` field (overwritten by
      `execute_step`, visible when the instruction is called directly). */
  predicate BumpsPcField(op: FlagOp) {
    op !in {Sec, Sei}
  }
}
