/** Definitions shared by both revisions of the interpreter: the integer widths, the
    memory size, the addressing-mode tags, the error kinds and the byte-level helpers. */
module Machine {
  import opened Wrappers

  /** Rust's `u8`. Overflowing arithmetic is written out with `Wrap8`. */
  newtype u8 = x: int | 0 <= x < 0x100

  /** Rust's `u16`. Overflowing arithmetic is written out with `Wrap16`. */
  newtype u16 = x: int | 0 <= x < 0x1_0000

  /** Number of cells of the memory array (`[u8; 0x1FFF]`); the valid indices are 0 .. 0x1FFE. */
  const MemSize: nat := 0x1FFF

  /** `usize` is 64 bits wide: a negative `i32` cast to `usize` wraps modulo this. */
  const UsizeModulus: int := 0x1_0000_0000_0000_0000

  /** The memory as the source holds it: exactly MemSize bytes. */
  type Memory = m: seq<u8> | |m| == MemSize witness seq(MemSize, _ => 0)

  /** Addressing-mode tags. `Ind` exists only in the later revision; the older one never uses it. */
  datatype Mode = Imm | Zp | Zpx | Zpy | Abs | Absx | Absy | Indx | Indy | Ind

  /** Why a step stops: the three fatal conditions of the core. */
  datatype Fault =
    | InvalidMode(mode: Mode)        // the "INVALID ADDRESSING MODE!!!" panic
    | NotImplemented(opcode: u8)     // the "INSTRUCTION NOT IMPLEMENTED" panic
    | OutOfBounds(index: nat)        // an index past the end of an array (the memory or a ROM image)

  /** `read_mem`: indexing the memory array, which panics past its end. */
  function ReadMem(mem: Memory, cell: nat): (r: Result<u8, Fault>)
    ensures r.Ok? <==> cell < MemSize
    ensures r.Ok? ==> r.value == mem[cell]
    ensures r.Err? ==> r.error == OutOfBounds(cell)
  {
    if cell < MemSize then Ok(mem[cell]) else Err(OutOfBounds(cell))
  }

  /** The result of a `u8` operation in a release build: the low eight bits. */
  function Wrap8(i: int): (b: u8)
    ensures b as int == i % 0x100
  {
    (i % 0x100) as u8
  }

  /** The result of a `u16` operation in a release build: the low sixteen bits. */
  function Wrap16(i: int): (w: u16)
    ensures w as int == i % 0x1_0000
  {
    (i % 0x1_0000) as u16
  }

  /** The 16-bit word `hi << 8 | lo`. */
  function Word(hi: u8, lo: u8): (w: u16)
    ensures w as int == hi as int * 0x100 + lo as int
  {
    (hi as int * 0x100 + lo as int) as u16
  }

  /** `w >> 8`. */
  function HighByte(w: u16): u8 {
    (w as int / 0x100) as u8
  }

  /** `w as u8`: the low eight bits. */
  function LowByte(w: u16): u8 {
    (w as int % 0x100) as u8
  }

  /** `Word` is the inverse of splitting a word into its two bytes, in both directions. */
  lemma WordOfBytes(w: u16, hi: u8, lo: u8)
    ensures Word(HighByte(w), LowByte(w)) == w
    ensures HighByte(Word(hi, lo)) == hi && LowByte(Word(hi, lo)) == lo
  {
  }

  /** `base + idx as u16`, wrapping in 16 bits, used as a memory index. */
  function OffsetAddr(base: u16, idx: u8): nat {
    Wrap16(base as int + idx as int) as int
  }

  /** `b + idx`, wrapping in 8 bits, used as a zero-page index. */
  function ZeroPageAddr(b: u8, idx: u8): nat {
    Wrap8(b as int + idx as int) as int
  }

  /** The byte read as a two's-complement `i8` (the `as i8` cast). */
  function SignedByte(b: u8): (r: int)
    ensures -128 <= r < 128
    ensures (r + 256) % 256 == b as int
    ensures r < 0 <==> b >= 0x80
  {
    if b < 0x80 then b as int else b as int - 256
  }
}
