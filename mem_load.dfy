/** `write_rom_to_mem` of rustARI/src/mem_load.rs: places a cartridge image in a fresh,
    zeroed memory from address 0x1000 up to the last cell. */
module MemLoad {
  import opened Wrappers
  import opened Machine

  /** Where the cartridge starts in memory. */
  const RomBase: nat := 0x1000

  /** How many ROM bytes fit between RomBase and the end of memory. */
  const RomWindow: nat := MemSize - RomBase

  /** The memory `write_rom_to_mem` returns for an image long enough to fill the window. */
  function RomImage(rom: seq<u8>): (m: Memory)
    requires |rom| >= RomWindow
    ensures forall i :: RomBase <= i < MemSize ==> m[i] == rom[i - RomBase]
    ensures forall i :: 0 <= i < RomBase ==> m[i] == 0
  {
    seq(MemSize, i requires 0 <= i < MemSize => if i < RomBase then 0 else rom[i - RomBase])
  }

  /** Only the first RomWindow bytes of the image matter: anything after them is ignored. */
  lemma RomTailIgnored(rom: seq<u8>, rom': seq<u8>)
    requires |rom| >= RomWindow && |rom'| >= RomWindow && rom[..RomWindow] == rom'[..RomWindow]
    ensures RomImage(rom) == RomImage(rom')
  {
    forall i | RomBase <= i < MemSize
      ensures RomImage(rom)[i] == RomImage(rom')[i]
    {
      assert rom[i - RomBase] == rom[..RomWindow][i - RomBase];
      assert rom'[i - RomBase] == rom'[..RomWindow][i - RomBase];
    }
  }

  /** `write_rom_to_mem`. The loop copies `rom[ri]` to `mem[mi]` with `ri == mi - 0x1000`
      until `mi` reaches 0x1FFF. An image shorter than RomWindow bytes makes `rom[ri]`
      panic at index `rom.len()`. */
  method WriteRomToMem(rom: seq<u8>) returns (r: Result<Memory, Fault>)
    ensures r.Ok? <==> |rom| >= RomWindow
    ensures r.Err? ==> r.error == OutOfBounds(|rom|)
    ensures r.Ok? ==> r.value == RomImage(rom)
    ensures r.Ok? ==> forall i :: RomBase <= i < MemSize ==> r.value[i] == rom[i - RomBase]
    ensures r.Ok? ==> forall i :: 0 <= i < RomBase ==> r.value[i] == 0
  {
    var mem := new u8[MemSize](_ => 0);
    var mi: nat := RomBase;
    var ri: nat := 0;
    while mi < MemSize
      invariant RomBase <= mi <= MemSize
      invariant ri == mi - RomBase
      invariant ri <= |rom|
      invariant forall i :: 0 <= i < RomBase ==> mem[i] == 0
      invariant forall i :: RomBase <= i < mi ==> mem[i] == rom[i - RomBase]
      decreases MemSize - mi
    {
      if ri >= |rom| {
        return Err(OutOfBounds(ri));
      }
      mem[mi] := rom[ri];
      mi := mi + 1;
      ri := ri + 1;
    }
    assert mem[..] == RomImage(rom);
    r := Ok(mem[..]);
  }
}
