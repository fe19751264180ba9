/** Constants and the register map shared by the whole APU
    (the `constants` namespace and the `Apu::Reg` enumeration). */
module Constants {

  const MAX_FREQUENCY: nat := 2047
  const WAVE_RAMSIZE: nat := 16
  const MAX_TERM_VOLUME: nat := 7
  const CLOCK_SPEED: nat := 4194304

  // CH1 - square with sweep
  const NR10: bv8 := 0x10
  const NR11: bv8 := 0x11
  const NR12: bv8 := 0x12
  const NR13: bv8 := 0x13
  const NR14: bv8 := 0x14
  // CH2 - square
  const UNUSED1: bv8 := 0x15
  const NR21: bv8 := 0x16
  const NR22: bv8 := 0x17
  const NR23: bv8 := 0x18
  const NR24: bv8 := 0x19
  // CH3 - wave
  const NR30: bv8 := 0x1A
  const NR31: bv8 := 0x1B
  const NR32: bv8 := 0x1C
  const NR33: bv8 := 0x1D
  const NR34: bv8 := 0x1E
  // CH4 - noise
  const UNUSED2: bv8 := 0x1F
  const NR41: bv8 := 0x20
  const NR42: bv8 := 0x21
  const NR43: bv8 := 0x22
  const NR44: bv8 := 0x23
  // control / status
  const NR50: bv8 := 0x24
  const NR51: bv8 := 0x25
  const NR52: bv8 := 0x26
  // wave RAM, 16 bytes
  const WAVERAM: bv8 := 0x30

  /** The `Registers` read-back mirror holds one byte per address NR10..NR52. */
  const REGISTER_COUNT: nat := 23

  predicate IsWaveRam(reg: bv8)
  {
    WAVERAM <= reg < WAVERAM + WAVE_RAMSIZE as bv8
  }

  /** Position of a register in the `Registers` mirror. */
  function MirrorIndex(reg: bv8): (i: nat)
    requires NR10 <= reg <= NR52
    ensures i < REGISTER_COUNT
    ensures reg == NR10 ==> i == 0
    ensures reg == NR52 ==> i == REGISTER_COUNT - 1
  {
    (reg - NR10) as nat
  }

  /** Position of a wave-RAM address in the 16-byte table. */
  function WaveRamIndex(reg: bv8): (i: nat)
    requires IsWaveRam(reg)
    ensures i < WAVE_RAMSIZE
  {
    (reg - WAVERAM) as nat
  }

  function Zeroes(n: nat): (r: seq<bv8>)
    ensures |r| == n
    ensures forall i :: 0 <= i < n ==> r[i] == 0
  {
    seq(n, _ => 0)
  }
}
