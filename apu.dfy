/** The sound unit's only register so far, NR52 (sound on/off), of
    libgbc/apu.cpp. The register byte lives in the I/O block and is passed
    to the APU by reference; here it is a cell the methods read and write. */
module Apu {

  /** IO::REG_NR52, the Game Boy's sound on/off register address. */
  const REG_NR52: int := 0xFF26

  /** A byte of the I/O register file, passed as `uint8_t& reg`. */
  class IoRegister {
    var value: bv8

    constructor(v: bv8)
      ensures value == v
    {
      value := v;
    }
  }

  /** The value NR52 holds after a write of `value`: the low nibble (the
      per-channel status bits) stays, bits 4-6 read as zero, and bit 7 (the
      master switch) comes from the written byte. */
  function Nr52Write(reg: bv8, value: bv8): (r: bv8)
    ensures r & 0x0F == reg & 0x0F
    ensures r & 0x70 == 0
    ensures r & 0x80 == value & 0x80
  {
    (reg & 0x0F) | (value & 0x80)
  }

  /** The three clauses of Nr52Write's contract fix every bit, so they say
      all there is to say about the result. */
  lemma Nr52WriteUnique(reg: bv8, value: bv8, r: bv8)
    requires r & 0x0F == reg & 0x0F && r & 0x70 == 0 && r & 0x80 == value & 0x80
    ensures r == Nr52Write(reg, value)
  {
  }

  /** Writing the same byte twice is writing it once. */
  lemma Nr52WriteIdempotent(reg: bv8, value: bv8)
    ensures Nr52Write(Nr52Write(reg, value), value) == Nr52Write(reg, value)
  {
  }

  /** More generally the last write wins: nothing of an earlier written byte
      survives a later write. */
  lemma Nr52LastWriteWins(reg: bv8, v1: bv8, v2: bv8)
    ensures Nr52Write(Nr52Write(reg, v1), v2) == Nr52Write(reg, v2)
  {
  }

  /** Whether sound is on: bit 7 of NR52, the test APU::simulate makes. */
  predicate SoundOn(reg: bv8)
  {
    reg & 0x80 != 0
  }

  /** Sound is on after a write exactly when the byte written had bit 7 set. */
  lemma SoundOnAfterWrite(reg: bv8, value: bv8)
    ensures SoundOn(Nr52Write(reg, value)) <==> value & 0x80 != 0
  {
  }

  /** APU::read (libgbc/apu.cpp:23-31): NR52 reads back the register as it
      is. Any other address is a fatal assertion in the source, so the
      address is a precondition. */
  method Read(addr: int, reg: IoRegister) returns (r: bv8)
    requires addr == REG_NR52
    ensures r == reg.value
  {
    r := reg.value;
  }

  /** APU::write (libgbc/apu.cpp:32-46): the masked in-place update of the
      register byte; any other address is fatal. */
  method Write(addr: int, value: bv8, reg: IoRegister)
    requires addr == REG_NR52
    modifies reg
    ensures reg.value == Nr52Write(old(reg.value), value)
  {
    reg.value := reg.value & 0x0F;
    reg.value := reg.value | (value & 0x80);
  }

  /** APU::simulate (libgbc/apu.cpp:14-21): it returns at once when sound
      is off, and its body past that test is still empty, so it changes no
      state. `active` says whether the call gets past the test. */
  method Simulate(nr52: IoRegister) returns (active: bool)
    ensures active <==> nr52.value & 0x80 != 0
  {
    if !SoundOn(nr52.value) {
      return false;
    }
    return true;
  }
}
