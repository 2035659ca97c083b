/// The instruction handlers of src/opcodes.rs for opcodes
/// 0x00 to 0x3F: 16-bit loads, increments and decrements, additions to
/// HL, rotations of A, relative jumps and the flag instructions.
/// One method per handler, each updating the `Cpu` object (and, where the
/// handler takes it, the `Memory`) in place, and each proved to leave
/// exactly the state its function in module Semantics describes.
///
/// Every handler names in `modifies` exactly the CPU fields it writes, so
/// the fields it does not name keep their values. Its postcondition takes
/// the state before the call, puts in the current values of the fields it
/// wrote, and says that this state, with the memory, is what the Semantics
/// function gives: together, the new state IS that function of the old.
/// Comments give the opcode that dispatches to the handler.
module Opcodes00 {
  import opened Wrappers
  import opened Bits
  import opened Memory
  import opened RegisterFile
  import opened Cpu
  import opened Stack
  import opened Semantics

  /// `nop` (0x00).
  method Nop(cpu: Cpu)
    modifies cpu`programCounter, cpu`cycle
    ensures old(cpu.Snapshot()).(programCounter := cpu.programCounter, cycle := cpu.cycle)
         == Advance(old(cpu.Snapshot()), 1, 1)
  {
    cpu.programCounter := WrappingAdd16(cpu.programCounter, 1);
    cpu.cycle := WrappingAdd64(cpu.cycle, 1);
  }

  /// `ld_bc_d16` (0x01).
  method LdBcD16(cpu: Cpu, memory: Memory)
    requires memory.Valid()
    modifies cpu`b, cpu`c, cpu`programCounter, cpu`cycle
    ensures Machine(old(cpu.Snapshot()).(b := cpu.b, c := cpu.c, programCounter := cpu.programCounter, cycle := cpu.cycle), memory.Contents())
         == LoadPairImmediate(old(MachineOf(cpu, memory)), BC)
  {
    var value := memory.Read16BitValueAt(WrappingAdd16(cpu.programCounter, 1));
    var (lsb, msb) := U16ToLsbMsb(value);
    cpu.b := lsb;
    cpu.c := msb;
    cpu.programCounter := WrappingAdd16(cpu.programCounter, 3);
    cpu.cycle := WrappingAdd64(cpu.cycle, 3);
  }

  /// `ld_bc_a` (0x02).
  method LdBcA(cpu: Cpu, memory: Memory)
    requires memory.Valid()
    modifies cpu`programCounter, cpu`cycle, memory.bytes
    ensures Machine(old(cpu.Snapshot()).(programCounter := cpu.programCounter, cycle := cpu.cycle), memory.Contents())
         == StoreToPair(old(MachineOf(cpu, memory)), BC, A)
  {
    memory.WriteByteAt(LsbMsbToU16(cpu.b, cpu.c), cpu.a);
    cpu.programCounter := WrappingAdd16(cpu.programCounter, 1);
    cpu.cycle := WrappingAdd64(cpu.cycle, 2);
  }

  /// `inc_bc` (0x03).
  method IncBc(cpu: Cpu)
    modifies cpu`b, cpu`c, cpu`programCounter, cpu`cycle
    ensures old(cpu.Snapshot()).(b := cpu.b, c := cpu.c, programCounter := cpu.programCounter, cycle := cpu.cycle)
         == IncrementPair(old(cpu.Snapshot()), BC)
  {
    var value := WrappingAdd16(LsbMsbToU16(cpu.b, cpu.c), 1);
    var (lsb, msb) := U16ToLsbMsb(value);
    cpu.b := lsb;
    cpu.c := msb;
    cpu.programCounter := WrappingAdd16(cpu.programCounter, 1);
    cpu.cycle := WrappingAdd64(cpu.cycle, 2);
  }

  /// `inc_b` (0x04).
  method IncB(cpu: Cpu)
    modifies cpu`b, cpu`programCounter, cpu`cycle, cpu`zero, cpu`negative, cpu`halfCarry
    ensures old(cpu.Snapshot()).(b := cpu.b, programCounter := cpu.programCounter, cycle := cpu.cycle, zero := cpu.zero, negative := cpu.negative, halfCarry := cpu.halfCarry)
         == IncrementRegister(old(cpu.Snapshot()), B)
  {
    cpu.halfCarry := IsNthBitSetU8(cpu.b, 7);
    cpu.b := WrappingAdd8(cpu.b, 1);
    cpu.zero := cpu.b == 0;
    cpu.negative := false;
    cpu.programCounter := WrappingAdd16(cpu.programCounter, 1);
    cpu.cycle := WrappingAdd64(cpu.cycle, 1);
  }

  /// `dec_b` (0x05).
  method DecB(cpu: Cpu)
    modifies cpu`b, cpu`programCounter, cpu`cycle, cpu`zero, cpu`negative, cpu`halfCarry
    ensures old(cpu.Snapshot()).(b := cpu.b, programCounter := cpu.programCounter, cycle := cpu.cycle, zero := cpu.zero, negative := cpu.negative, halfCarry := cpu.halfCarry)
         == DecrementRegister(old(cpu.Snapshot()), B, true)
  {
    cpu.halfCarry := IsNthBitSetU8(cpu.b, 7);
    cpu.b := WrappingSub8(cpu.b, 1);
    cpu.zero := cpu.b == 0;
    cpu.negative := true;
    cpu.programCounter := WrappingAdd16(cpu.programCounter, 1);
    cpu.cycle := WrappingAdd64(cpu.cycle, 1);
  }

  /// `ld_b_d8` (0x06).
  method LdBD8(cpu: Cpu, memory: Memory)
    requires memory.Valid()
    modifies cpu`b, cpu`programCounter, cpu`cycle
    ensures Machine(old(cpu.Snapshot()).(b := cpu.b, programCounter := cpu.programCounter, cycle := cpu.cycle), memory.Contents())
         == LoadImmediate(old(MachineOf(cpu, memory)), B)
  {
    cpu.b := memory.ReadByteAt(WrappingAdd16(cpu.programCounter, 1));
    cpu.programCounter := WrappingAdd16(cpu.programCounter, 2);
    cpu.cycle := WrappingAdd64(cpu.cycle, 2);
  }

  /// `rlca` (0x07).
  method Rlca(cpu: Cpu)
    modifies cpu`a, cpu`programCounter, cpu`cycle, cpu`zero, cpu`negative, cpu`halfCarry, cpu`carry
    ensures old(cpu.Snapshot()).(a := cpu.a, programCounter := cpu.programCounter, cycle := cpu.cycle, zero := cpu.zero, negative := cpu.negative, halfCarry := cpu.halfCarry, carry := cpu.carry)
         == RotateLeftA(old(cpu.Snapshot()), true)
  {
    cpu.zero := false;
    cpu.negative := false;
    cpu.halfCarry := false;
    cpu.carry := IsNthBitSetU8(cpu.a, 7);
    cpu.a := ShiftLeft8(cpu.a, 1);
    cpu.a := SetBitNStateU8(cpu.a, 0, cpu.carry);
    cpu.programCounter := WrappingAdd16(cpu.programCounter, 1);
    cpu.cycle := WrappingAdd64(cpu.cycle, 1);
  }

  /// `ld_a16_sp` (0x08).
  method LdA16Sp(cpu: Cpu, memory: Memory)
    requires memory.Valid()
    modifies cpu`programCounter, cpu`cycle, memory.bytes
    ensures Machine(old(cpu.Snapshot()).(programCounter := cpu.programCounter, cycle := cpu.cycle), memory.Contents())
         == StoreStackPointer(old(MachineOf(cpu, memory)))
  {
    var (lsb, msb) := U16ToLsbMsb(cpu.stackPointer);
    var address := memory.Read16BitValueAt(WrappingAdd16(cpu.programCounter, 1));
    memory.WriteByteAt(address, lsb);
    memory.WriteByteAt(WrappingAdd16(address, 1), msb);
    cpu.programCounter := WrappingAdd16(cpu.programCounter, 3);
    cpu.cycle := WrappingAdd64(cpu.cycle, 5);
  }

  /// `add_hl_bc` (0x09). As written, the zero flag is not written.
  method AddHlBc(cpu: Cpu)
    modifies cpu`h, cpu`l, cpu`programCounter, cpu`cycle, cpu`negative, cpu`halfCarry, cpu`carry
    ensures old(cpu.Snapshot()).(h := cpu.h, l := cpu.l, programCounter := cpu.programCounter, cycle := cpu.cycle, negative := cpu.negative, halfCarry := cpu.halfCarry, carry := cpu.carry)
         == AddToHl(old(cpu.Snapshot()), FromPair(BC), false)
  {
    var bc := LsbMsbToU16(cpu.b, cpu.c);
    var hl := LsbMsbToU16(cpu.h, cpu.l);
    assert bc == PairValue(cpu.Snapshot(), BC) && hl == PairValue(cpu.Snapshot(), HL);
    var result := WrappingAdd16(bc, hl);
    var (lsb, msb) := U16ToLsbMsb(result);
    cpu.halfCarry := IsNthBitSetU16(hl, 15);
    cpu.carry := IsNthBitSetU16(hl, 15);
    cpu.h := lsb;
    cpu.l := msb;
    cpu.negative := false;
    cpu.programCounter := WrappingAdd16(cpu.programCounter, 1);
    cpu.cycle := WrappingAdd64(cpu.cycle, 2);
  }

  /// `ld_a_bc` (0x0A).
  method LdABc(cpu: Cpu, memory: Memory)
    requires memory.Valid()
    modifies cpu`a, cpu`programCounter, cpu`cycle
    ensures Machine(old(cpu.Snapshot()).(a := cpu.a, programCounter := cpu.programCounter, cycle := cpu.cycle), memory.Contents())
         == LoadFromPair(old(MachineOf(cpu, memory)), A, BC)
  {
    var address := LsbMsbToU16(cpu.b, cpu.c);
    cpu.a := memory.ReadByteAt(address);
    cpu.programCounter := WrappingAdd16(cpu.programCounter, 1);
    cpu.cycle := WrappingAdd64(cpu.cycle, 2);
  }

  /// `dec_bc` (0x0B).
  method DecBc(cpu: Cpu)
    modifies cpu`b, cpu`c, cpu`programCounter, cpu`cycle
    ensures old(cpu.Snapshot()).(b := cpu.b, c := cpu.c, programCounter := cpu.programCounter, cycle := cpu.cycle)
         == DecrementPair(old(cpu.Snapshot()), BC)
  {
    var value := WrappingSub16(LsbMsbToU16(cpu.b, cpu.c), 1);
    var (lsb, msb) := U16ToLsbMsb(value);
    cpu.b := lsb;
    cpu.c := msb;
    cpu.programCounter := WrappingAdd16(cpu.programCounter, 1);
    cpu.cycle := WrappingAdd64(cpu.cycle, 2);
  }

  /// `inc_c` (0x0C).
  method IncC(cpu: Cpu)
    modifies cpu`c, cpu`programCounter, cpu`cycle, cpu`zero, cpu`negative, cpu`halfCarry
    ensures old(cpu.Snapshot()).(c := cpu.c, programCounter := cpu.programCounter, cycle := cpu.cycle, zero := cpu.zero, negative := cpu.negative, halfCarry := cpu.halfCarry)
         == IncrementRegister(old(cpu.Snapshot()), C)
  {
    cpu.halfCarry := IsNthBitSetU8(cpu.c, 7);
    cpu.c := WrappingAdd8(cpu.c, 1);
    cpu.zero := cpu.c == 0;
    cpu.negative := false;
    cpu.programCounter := WrappingAdd16(cpu.programCounter, 1);
    cpu.cycle := WrappingAdd64(cpu.cycle, 1);
  }

  /// `dec_c` (0x0D).
  method DecC(cpu: Cpu)
    modifies cpu`c, cpu`programCounter, cpu`cycle, cpu`zero, cpu`negative, cpu`halfCarry
    ensures old(cpu.Snapshot()).(c := cpu.c, programCounter := cpu.programCounter, cycle := cpu.cycle, zero := cpu.zero, negative := cpu.negative, halfCarry := cpu.halfCarry)
         == DecrementRegister(old(cpu.Snapshot()), C, true)
  {
    cpu.halfCarry := IsNthBitSetU8(cpu.c, 7);
    cpu.c := WrappingSub8(cpu.c, 1);
    cpu.zero := cpu.c == 0;
    cpu.negative := true;
    cpu.programCounter := WrappingAdd16(cpu.programCounter, 1);
    cpu.cycle := WrappingAdd64(cpu.cycle, 1);
  }

  /// `ld_c_d8` (0x0E).
  method LdCD8(cpu: Cpu, memory: Memory)
    requires memory.Valid()
    modifies cpu`c, cpu`programCounter, cpu`cycle
    ensures Machine(old(cpu.Snapshot()).(c := cpu.c, programCounter := cpu.programCounter, cycle := cpu.cycle), memory.Contents())
         == LoadImmediate(old(MachineOf(cpu, memory)), C)
  {
    cpu.c := memory.ReadByteAt(WrappingAdd16(cpu.programCounter, 1));
    cpu.programCounter := WrappingAdd16(cpu.programCounter, 2);
    cpu.cycle := WrappingAdd64(cpu.cycle, 2);
  }

  /// `rrca` (0x0F).
  method Rrca(cpu: Cpu)
    modifies cpu`a, cpu`programCounter, cpu`cycle, cpu`zero, cpu`negative, cpu`halfCarry, cpu`carry
    ensures old(cpu.Snapshot()).(a := cpu.a, programCounter := cpu.programCounter, cycle := cpu.cycle, zero := cpu.zero, negative := cpu.negative, halfCarry := cpu.halfCarry, carry := cpu.carry)
         == RotateRightA(old(cpu.Snapshot()), true)
  {
    cpu.zero := false;
    cpu.negative := false;
    cpu.halfCarry := false;
    cpu.carry := IsNthBitSetU8(cpu.a, 0);
    cpu.a := ShiftRight8(cpu.a, 1);
    cpu.a := SetBitNStateU8(cpu.a, 7, cpu.carry);
    cpu.programCounter := WrappingAdd16(cpu.programCounter, 1);
    cpu.cycle := WrappingAdd64(cpu.cycle, 1);
  }

  /// `stop` (0x10).
  method Stop(cpu: Cpu, memory: Memory)
    requires memory.Valid()
    modifies cpu`programCounter, cpu`cycle, cpu`state
    ensures Machine(old(cpu.Snapshot()).(programCounter := cpu.programCounter, cycle := cpu.cycle, state := cpu.state), memory.Contents())
         == EnterStop(old(MachineOf(cpu, memory)))
  {
    var vBlankUnset := !cpu.IsInterruptFlagSet(memory, VBlank(None));
    var lcdStatUnset := !cpu.IsInterruptFlagSet(memory, LcdStat(None));
    var timerUnset := !cpu.IsInterruptFlagSet(memory, Timer(None));
    var serialUnset := !cpu.IsInterruptFlagSet(memory, Serial(None));
    var joypadUnset := !cpu.IsInterruptFlagSet(memory, Joypad(None));
    if vBlankUnset && lcdStatUnset && timerUnset && serialUnset && joypadUnset {
      cpu.state := Some(CpuState.Stop);
    }
    cpu.programCounter := WrappingAdd16(cpu.programCounter, 2);
    cpu.cycle := WrappingAdd64(cpu.cycle, 1);
  }

  /// `ld_de_d16` (0x11).
  method LdDeD16(cpu: Cpu, memory: Memory)
    requires memory.Valid()
    modifies cpu`d, cpu`e, cpu`programCounter, cpu`cycle
    ensures Machine(old(cpu.Snapshot()).(d := cpu.d, e := cpu.e, programCounter := cpu.programCounter, cycle := cpu.cycle), memory.Contents())
         == LoadPairImmediate(old(MachineOf(cpu, memory)), DE)
  {
    var value := memory.Read16BitValueAt(WrappingAdd16(cpu.programCounter, 1));
    var (lsb, msb) := U16ToLsbMsb(value);
    cpu.d := lsb;
    cpu.e := msb;
    cpu.programCounter := WrappingAdd16(cpu.programCounter, 3);
    cpu.cycle := WrappingAdd64(cpu.cycle, 3);
  }

  /// `ld_de_a` (0x12).
  method LdDeA(cpu: Cpu, memory: Memory)
    requires memory.Valid()
    modifies cpu`programCounter, cpu`cycle, memory.bytes
    ensures Machine(old(cpu.Snapshot()).(programCounter := cpu.programCounter, cycle := cpu.cycle), memory.Contents())
         == StoreToPair(old(MachineOf(cpu, memory)), DE, A)
  {
    memory.WriteByteAt(LsbMsbToU16(cpu.d, cpu.e), cpu.a);
    cpu.programCounter := WrappingAdd16(cpu.programCounter, 1);
    cpu.cycle := WrappingAdd64(cpu.cycle, 2);
  }

  /// `inc_de` (0x13).
  method IncDe(cpu: Cpu)
    modifies cpu`d, cpu`e, cpu`programCounter, cpu`cycle
    ensures old(cpu.Snapshot()).(d := cpu.d, e := cpu.e, programCounter := cpu.programCounter, cycle := cpu.cycle)
         == IncrementPair(old(cpu.Snapshot()), DE)
  {
    var value := WrappingAdd16(LsbMsbToU16(cpu.d, cpu.e), 1);
    var (lsb, msb) := U16ToLsbMsb(value);
    cpu.d := lsb;
    cpu.e := msb;
    cpu.programCounter := WrappingAdd16(cpu.programCounter, 1);
    cpu.cycle := WrappingAdd64(cpu.cycle, 2);
  }

  /// `inc_d` (0x14).
  method IncD(cpu: Cpu)
    modifies cpu`d, cpu`programCounter, cpu`cycle, cpu`zero, cpu`negative, cpu`halfCarry
    ensures old(cpu.Snapshot()).(d := cpu.d, programCounter := cpu.programCounter, cycle := cpu.cycle, zero := cpu.zero, negative := cpu.negative, halfCarry := cpu.halfCarry)
         == IncrementRegister(old(cpu.Snapshot()), D)
  {
    cpu.halfCarry := IsNthBitSetU8(cpu.d, 7);
    cpu.d := WrappingAdd8(cpu.d, 1);
    cpu.zero := cpu.d == 0;
    cpu.negative := false;
    cpu.programCounter := WrappingAdd16(cpu.programCounter, 1);
    cpu.cycle := WrappingAdd64(cpu.cycle, 1);
  }

  /// `dec_d` (0x15).
  method DecD(cpu: Cpu)
    modifies cpu`d, cpu`programCounter, cpu`cycle, cpu`zero, cpu`negative, cpu`halfCarry
    ensures old(cpu.Snapshot()).(d := cpu.d, programCounter := cpu.programCounter, cycle := cpu.cycle, zero := cpu.zero, negative := cpu.negative, halfCarry := cpu.halfCarry)
         == DecrementRegister(old(cpu.Snapshot()), D, true)
  {
    cpu.halfCarry := IsNthBitSetU8(cpu.d, 7);
    cpu.d := WrappingSub8(cpu.d, 1);
    cpu.zero := cpu.d == 0;
    cpu.negative := true;
    cpu.programCounter := WrappingAdd16(cpu.programCounter, 1);
    cpu.cycle := WrappingAdd64(cpu.cycle, 1);
  }

  /// `ld_d_d8` (0x16).
  method LdDD8(cpu: Cpu, memory: Memory)
    requires memory.Valid()
    modifies cpu`d, cpu`programCounter, cpu`cycle
    ensures Machine(old(cpu.Snapshot()).(d := cpu.d, programCounter := cpu.programCounter, cycle := cpu.cycle), memory.Contents())
         == LoadImmediate(old(MachineOf(cpu, memory)), D)
  {
    cpu.d := memory.ReadByteAt(WrappingAdd16(cpu.programCounter, 1));
    cpu.programCounter := WrappingAdd16(cpu.programCounter, 2);
    cpu.cycle := WrappingAdd64(cpu.cycle, 2);
  }

  /// `rla` (0x17). As written, the carry flag is not written.
  method Rla(cpu: Cpu)
    modifies cpu`a, cpu`programCounter, cpu`cycle, cpu`zero, cpu`negative, cpu`halfCarry
    ensures old(cpu.Snapshot()).(a := cpu.a, programCounter := cpu.programCounter, cycle := cpu.cycle, zero := cpu.zero, negative := cpu.negative, halfCarry := cpu.halfCarry)
         == RotateLeftA(old(cpu.Snapshot()), false)
  {
    cpu.zero := false;
    cpu.negative := false;
    cpu.halfCarry := false;
    var carry := IsNthBitSetU8(cpu.a, 7);
    cpu.a := ShiftLeft8(cpu.a, 1);
    cpu.a := SetBitNStateU8(cpu.a, 0, carry);
    cpu.programCounter := WrappingAdd16(cpu.programCounter, 1);
    cpu.cycle := WrappingAdd64(cpu.cycle, 1);
  }

  /// `jr_s8` (0x18).
  method JrS8(cpu: Cpu, memory: Memory)
    requires memory.Valid()
    modifies cpu`programCounter, cpu`cycle
    ensures Machine(old(cpu.Snapshot()).(programCounter := cpu.programCounter, cycle := cpu.cycle), memory.Contents())
         == JumpRelative(old(MachineOf(cpu, memory)), Always)
  {
    var relativeJump := memory.ReadByteAt(WrappingAdd16(cpu.programCounter, 1)) as u16;
    cpu.programCounter := WrappingAdd16(cpu.programCounter, relativeJump);
    cpu.cycle := WrappingAdd64(cpu.cycle, 3);
  }

  /// `add_hl_de` (0x19).
  method AddHlDe(cpu: Cpu)
    modifies cpu`h, cpu`l, cpu`programCounter, cpu`cycle, cpu`zero, cpu`negative, cpu`halfCarry, cpu`carry
    ensures old(cpu.Snapshot()).(h := cpu.h, l := cpu.l, programCounter := cpu.programCounter, cycle := cpu.cycle, zero := cpu.zero, negative := cpu.negative, halfCarry := cpu.halfCarry, carry := cpu.carry)
         == AddToHl(old(cpu.Snapshot()), FromPair(DE), true)
  {
    var de := LsbMsbToU16(cpu.d, cpu.e);
    var hl := LsbMsbToU16(cpu.h, cpu.l);
    assert de == PairValue(cpu.Snapshot(), DE) && hl == PairValue(cpu.Snapshot(), HL);
    var result := WrappingAdd16(de, hl);
    var (lsb, msb) := U16ToLsbMsb(result);
    cpu.halfCarry := IsNthBitSetU16(hl, 15);
    cpu.carry := IsNthBitSetU16(hl, 15);
    cpu.h := lsb;
    cpu.l := msb;
    cpu.zero := result == 0;
    cpu.negative := false;
    cpu.programCounter := WrappingAdd16(cpu.programCounter, 1);
    cpu.cycle := WrappingAdd64(cpu.cycle, 2);
  }

  /// `ld_a_de` (0x1A).
  method LdADe(cpu: Cpu, memory: Memory)
    requires memory.Valid()
    modifies cpu`a, cpu`programCounter, cpu`cycle
    ensures Machine(old(cpu.Snapshot()).(a := cpu.a, programCounter := cpu.programCounter, cycle := cpu.cycle), memory.Contents())
         == LoadFromPair(old(MachineOf(cpu, memory)), A, DE)
  {
    var address := LsbMsbToU16(cpu.d, cpu.e);
    cpu.a := memory.ReadByteAt(address);
    cpu.programCounter := WrappingAdd16(cpu.programCounter, 1);
    cpu.cycle := WrappingAdd64(cpu.cycle, 2);
  }

  /// `dec_de` (0x1B).
  method DecDe(cpu: Cpu)
    modifies cpu`d, cpu`e, cpu`programCounter, cpu`cycle
    ensures old(cpu.Snapshot()).(d := cpu.d, e := cpu.e, programCounter := cpu.programCounter, cycle := cpu.cycle)
         == DecrementPair(old(cpu.Snapshot()), DE)
  {
    var value := WrappingSub16(LsbMsbToU16(cpu.d, cpu.e), 1);
    var (lsb, msb) := U16ToLsbMsb(value);
    cpu.d := lsb;
    cpu.e := msb;
    cpu.programCounter := WrappingAdd16(cpu.programCounter, 1);
    cpu.cycle := WrappingAdd64(cpu.cycle, 2);
  }

  /// `inc_e` (0x1C).
  method IncE(cpu: Cpu)
    modifies cpu`e, cpu`programCounter, cpu`cycle, cpu`zero, cpu`negative, cpu`halfCarry
    ensures old(cpu.Snapshot()).(e := cpu.e, programCounter := cpu.programCounter, cycle := cpu.cycle, zero := cpu.zero, negative := cpu.negative, halfCarry := cpu.halfCarry)
         == IncrementRegister(old(cpu.Snapshot()), E)
  {
    cpu.halfCarry := IsNthBitSetU8(cpu.e, 7);
    cpu.e := WrappingAdd8(cpu.e, 1);
    cpu.zero := cpu.e == 0;
    cpu.negative := false;
    cpu.programCounter := WrappingAdd16(cpu.programCounter, 1);
    cpu.cycle := WrappingAdd64(cpu.cycle, 1);
  }

  /// `dec_e` (0x1D).
  method DecE(cpu: Cpu)
    modifies cpu`e, cpu`programCounter, cpu`cycle, cpu`zero, cpu`negative, cpu`halfCarry
    ensures old(cpu.Snapshot()).(e := cpu.e, programCounter := cpu.programCounter, cycle := cpu.cycle, zero := cpu.zero, negative := cpu.negative, halfCarry := cpu.halfCarry)
         == DecrementRegister(old(cpu.Snapshot()), E, true)
  {
    cpu.halfCarry := IsNthBitSetU8(cpu.e, 7);
    cpu.e := WrappingSub8(cpu.e, 1);
    cpu.zero := cpu.e == 0;
    cpu.negative := true;
    cpu.programCounter := WrappingAdd16(cpu.programCounter, 1);
    cpu.cycle := WrappingAdd64(cpu.cycle, 1);
  }

  /// `ld_e_d8` (0x1E).
  method LdED8(cpu: Cpu, memory: Memory)
    requires memory.Valid()
    modifies cpu`e, cpu`programCounter, cpu`cycle
    ensures Machine(old(cpu.Snapshot()).(e := cpu.e, programCounter := cpu.programCounter, cycle := cpu.cycle), memory.Contents())
         == LoadImmediate(old(MachineOf(cpu, memory)), E)
  {
    cpu.e := memory.ReadByteAt(WrappingAdd16(cpu.programCounter, 1));
    cpu.programCounter := WrappingAdd16(cpu.programCounter, 2);
    cpu.cycle := WrappingAdd64(cpu.cycle, 2);
  }

  /// `rra` (0x1F). As written, the carry flag is not written.
  method Rra(cpu: Cpu)
    modifies cpu`a, cpu`programCounter, cpu`cycle, cpu`zero, cpu`negative, cpu`halfCarry
    ensures old(cpu.Snapshot()).(a := cpu.a, programCounter := cpu.programCounter, cycle := cpu.cycle, zero := cpu.zero, negative := cpu.negative, halfCarry := cpu.halfCarry)
         == RotateRightA(old(cpu.Snapshot()), false)
  {
    cpu.zero := false;
    cpu.negative := false;
    cpu.halfCarry := false;
    var carry := IsNthBitSetU8(cpu.a, 0);
    cpu.a := ShiftRight8(cpu.a, 1);
    cpu.a := SetBitNStateU8(cpu.a, 7, carry);
    cpu.programCounter := WrappingAdd16(cpu.programCounter, 1);
    cpu.cycle := WrappingAdd64(cpu.cycle, 1);
  }

  /// `jr_nz_s8` (0x20).
  method JrNzS8(cpu: Cpu, memory: Memory)
    requires memory.Valid()
    modifies cpu`programCounter, cpu`cycle
    ensures Machine(old(cpu.Snapshot()).(programCounter := cpu.programCounter, cycle := cpu.cycle), memory.Contents())
         == JumpRelative(old(MachineOf(cpu, memory)), IfNotZero)
  {
    if !cpu.zero {
      cpu.programCounter := WrappingAdd16(cpu.programCounter, memory.ReadByteAt(WrappingAdd16(cpu.programCounter, 1)) as u16);
      cpu.cycle := WrappingAdd64(cpu.cycle, 3);
    } else {
      cpu.programCounter := WrappingAdd16(cpu.programCounter, 2);
      cpu.cycle := WrappingAdd64(cpu.cycle, 2);
    }
  }

  /// `ld_hl_d16` (0x21).
  method LdHlD16(cpu: Cpu, memory: Memory)
    requires memory.Valid()
    modifies cpu`h, cpu`l, cpu`programCounter, cpu`cycle
    ensures Machine(old(cpu.Snapshot()).(h := cpu.h, l := cpu.l, programCounter := cpu.programCounter, cycle := cpu.cycle), memory.Contents())
         == LoadPairImmediate(old(MachineOf(cpu, memory)), HL)
  {
    var value := memory.Read16BitValueAt(WrappingAdd16(cpu.programCounter, 1));
    var (lsb, msb) := U16ToLsbMsb(value);
    cpu.h := lsb;
    cpu.l := msb;
    cpu.programCounter := WrappingAdd16(cpu.programCounter, 3);
    cpu.cycle := WrappingAdd64(cpu.cycle, 3);
  }

  /// `ld_hl_inc_a` (0x22).
  method LdHlIncA(cpu: Cpu, memory: Memory)
    requires memory.Valid()
    modifies cpu`h, cpu`l, cpu`programCounter, cpu`cycle, memory.bytes
    ensures Machine(old(cpu.Snapshot()).(h := cpu.h, l := cpu.l, programCounter := cpu.programCounter, cycle := cpu.cycle), memory.Contents())
         == StoreAToHl(old(MachineOf(cpu, memory)), Increment)
  {
    var addressInHl := LsbMsbToU16(cpu.h, cpu.l);
    memory.WriteByteAt(addressInHl, cpu.a);
    var (lsb, msb) := U16ToLsbMsb(WrappingAdd16(addressInHl, 1));
    cpu.h := lsb;
    cpu.l := msb;
    cpu.programCounter := WrappingAdd16(cpu.programCounter, 1);
    cpu.cycle := WrappingAdd64(cpu.cycle, 2);
  }

  /// `inc_hl` (0x23).
  method IncHl(cpu: Cpu)
    modifies cpu`h, cpu`l, cpu`programCounter, cpu`cycle
    ensures old(cpu.Snapshot()).(h := cpu.h, l := cpu.l, programCounter := cpu.programCounter, cycle := cpu.cycle)
         == IncrementPair(old(cpu.Snapshot()), HL)
  {
    var value := WrappingAdd16(LsbMsbToU16(cpu.h, cpu.l), 1);
    var (lsb, msb) := U16ToLsbMsb(value);
    cpu.h := lsb;
    cpu.l := msb;
    cpu.programCounter := WrappingAdd16(cpu.programCounter, 1);
    cpu.cycle := WrappingAdd64(cpu.cycle, 2);
  }

  /// `inc_h` (0x24).
  method IncH(cpu: Cpu)
    modifies cpu`h, cpu`programCounter, cpu`cycle, cpu`zero, cpu`negative, cpu`halfCarry
    ensures old(cpu.Snapshot()).(h := cpu.h, programCounter := cpu.programCounter, cycle := cpu.cycle, zero := cpu.zero, negative := cpu.negative, halfCarry := cpu.halfCarry)
         == IncrementRegister(old(cpu.Snapshot()), H)
  {
    cpu.halfCarry := IsNthBitSetU8(cpu.h, 7);
    cpu.h := WrappingAdd8(cpu.h, 1);
    cpu.zero := cpu.h == 0;
    cpu.negative := false;
    cpu.programCounter := WrappingAdd16(cpu.programCounter, 1);
    cpu.cycle := WrappingAdd64(cpu.cycle, 1);
  }

  /// `dec_h` (0x25).
  method DecH(cpu: Cpu)
    modifies cpu`h, cpu`programCounter, cpu`cycle, cpu`zero, cpu`negative, cpu`halfCarry
    ensures old(cpu.Snapshot()).(h := cpu.h, programCounter := cpu.programCounter, cycle := cpu.cycle, zero := cpu.zero, negative := cpu.negative, halfCarry := cpu.halfCarry)
         == DecrementRegister(old(cpu.Snapshot()), H, true)
  {
    cpu.halfCarry := IsNthBitSetU8(cpu.h, 7);
    cpu.h := WrappingSub8(cpu.h, 1);
    cpu.zero := cpu.h == 0;
    cpu.negative := true;
    cpu.programCounter := WrappingAdd16(cpu.programCounter, 1);
    cpu.cycle := WrappingAdd64(cpu.cycle, 1);
  }

  /// `ld_h_d8` (0x26).
  method LdHD8(cpu: Cpu, memory: Memory)
    requires memory.Valid()
    modifies cpu`h, cpu`programCounter, cpu`cycle
    ensures Machine(old(cpu.Snapshot()).(h := cpu.h, programCounter := cpu.programCounter, cycle := cpu.cycle), memory.Contents())
         == LoadImmediate(old(MachineOf(cpu, memory)), H)
  {
    cpu.h := memory.ReadByteAt(WrappingAdd16(cpu.programCounter, 1));
    cpu.programCounter := WrappingAdd16(cpu.programCounter, 2);
    cpu.cycle := WrappingAdd64(cpu.cycle, 2);
  }

  /// `jr_z_s8` (0x28).
  method JrZS8(cpu: Cpu, memory: Memory)
    requires memory.Valid()
    modifies cpu`programCounter, cpu`cycle
    ensures Machine(old(cpu.Snapshot()).(programCounter := cpu.programCounter, cycle := cpu.cycle), memory.Contents())
         == JumpRelative(old(MachineOf(cpu, memory)), IfZero)
  {
    if cpu.zero {
      cpu.programCounter := WrappingAdd16(cpu.programCounter, memory.ReadByteAt(WrappingAdd16(cpu.programCounter, 1)) as u16);
      cpu.cycle := WrappingAdd64(cpu.cycle, 3);
    } else {
      cpu.programCounter := WrappingAdd16(cpu.programCounter, 2);
      cpu.cycle := WrappingAdd64(cpu.cycle, 2);
    }
  }

  /// `add_hl_hl` (0x29).
  method AddHlHl(cpu: Cpu)
    modifies cpu`h, cpu`l, cpu`programCounter, cpu`cycle, cpu`zero, cpu`negative, cpu`halfCarry, cpu`carry
    ensures old(cpu.Snapshot()).(h := cpu.h, l := cpu.l, programCounter := cpu.programCounter, cycle := cpu.cycle, zero := cpu.zero, negative := cpu.negative, halfCarry := cpu.halfCarry, carry := cpu.carry)
         == AddToHl(old(cpu.Snapshot()), FromPair(HL), true)
  {
    var hl := LsbMsbToU16(cpu.h, cpu.l);
    assert hl == PairValue(cpu.Snapshot(), HL);
    var result := WrappingAdd16(hl, hl);
    var (lsb, msb) := U16ToLsbMsb(result);
    cpu.halfCarry := IsNthBitSetU16(hl, 15);
    cpu.carry := IsNthBitSetU16(hl, 15);
    cpu.h := lsb;
    cpu.l := msb;
    cpu.zero := result == 0;
    cpu.negative := false;
    cpu.programCounter := WrappingAdd16(cpu.programCounter, 1);
    cpu.cycle := WrappingAdd64(cpu.cycle, 2);
  }

  /// `ld_a_hl_inc` (0x2A).
  method LdAHlInc(cpu: Cpu, memory: Memory)
    requires memory.Valid()
    modifies cpu`a, cpu`h, cpu`l, cpu`programCounter, cpu`cycle
    ensures Machine(old(cpu.Snapshot()).(a := cpu.a, h := cpu.h, l := cpu.l, programCounter := cpu.programCounter, cycle := cpu.cycle), memory.Contents())
         == LoadAFromHl(old(MachineOf(cpu, memory)), Increment)
  {
    var addressInHl := LsbMsbToU16(cpu.h, cpu.l);
    cpu.a := memory.ReadByteAt(addressInHl);
    var (lsb, msb) := U16ToLsbMsb(WrappingAdd16(addressInHl, 1));
    cpu.h := lsb;
    cpu.l := msb;
    cpu.programCounter := WrappingAdd16(cpu.programCounter, 1);
    cpu.cycle := WrappingAdd64(cpu.cycle, 2);
  }

  /// `dec_hl` (0x2B).
  method DecHl(cpu: Cpu)
    modifies cpu`h, cpu`l, cpu`programCounter, cpu`cycle
    ensures old(cpu.Snapshot()).(h := cpu.h, l := cpu.l, programCounter := cpu.programCounter, cycle := cpu.cycle)
         == DecrementPair(old(cpu.Snapshot()), HL)
  {
    var value := WrappingSub16(LsbMsbToU16(cpu.h, cpu.l), 1);
    var (lsb, msb) := U16ToLsbMsb(value);
    cpu.h := lsb;
    cpu.l := msb;
    cpu.programCounter := WrappingAdd16(cpu.programCounter, 1);
    cpu.cycle := WrappingAdd64(cpu.cycle, 2);
  }

  /// `inc_l` (0x2C).
  method IncL(cpu: Cpu)
    modifies cpu`l, cpu`programCounter, cpu`cycle, cpu`zero, cpu`negative, cpu`halfCarry
    ensures old(cpu.Snapshot()).(l := cpu.l, programCounter := cpu.programCounter, cycle := cpu.cycle, zero := cpu.zero, negative := cpu.negative, halfCarry := cpu.halfCarry)
         == IncrementRegister(old(cpu.Snapshot()), L)
  {
    cpu.halfCarry := IsNthBitSetU8(cpu.l, 7);
    cpu.l := WrappingAdd8(cpu.l, 1);
    cpu.zero := cpu.l == 0;
    cpu.negative := false;
    cpu.programCounter := WrappingAdd16(cpu.programCounter, 1);
    cpu.cycle := WrappingAdd64(cpu.cycle, 1);
  }

  /// `dec_l` (0x2D).
  method DecL(cpu: Cpu)
    modifies cpu`l, cpu`programCounter, cpu`cycle, cpu`zero, cpu`negative, cpu`halfCarry
    ensures old(cpu.Snapshot()).(l := cpu.l, programCounter := cpu.programCounter, cycle := cpu.cycle, zero := cpu.zero, negative := cpu.negative, halfCarry := cpu.halfCarry)
         == DecrementRegister(old(cpu.Snapshot()), L, true)
  {
    cpu.halfCarry := IsNthBitSetU8(cpu.l, 7);
    cpu.l := WrappingSub8(cpu.l, 1);
    cpu.zero := cpu.l == 0;
    cpu.negative := true;
    cpu.programCounter := WrappingAdd16(cpu.programCounter, 1);
    cpu.cycle := WrappingAdd64(cpu.cycle, 1);
  }

  /// `ld_l_d8` (0x2E).
  method LdLD8(cpu: Cpu, memory: Memory)
    requires memory.Valid()
    modifies cpu`l, cpu`programCounter, cpu`cycle
    ensures Machine(old(cpu.Snapshot()).(l := cpu.l, programCounter := cpu.programCounter, cycle := cpu.cycle), memory.Contents())
         == LoadImmediate(old(MachineOf(cpu, memory)), L)
  {
    cpu.l := memory.ReadByteAt(WrappingAdd16(cpu.programCounter, 1));
    cpu.programCounter := WrappingAdd16(cpu.programCounter, 2);
    cpu.cycle := WrappingAdd64(cpu.cycle, 2);
  }

  /// `cpl` (0x2F). As written, neither the program counter nor the cycle advances.
  method Cpl(cpu: Cpu)
    modifies cpu`a
    ensures old(cpu.Snapshot()).(a := cpu.a)
         == ComplementA(old(cpu.Snapshot()))
  {
    cpu.a := Not8(cpu.a);
  }

  /// `jr_nc_s8` (0x30). As written, the jump is taken when carry is SET, like `jr_c_s8`.
  method JrNcS8(cpu: Cpu, memory: Memory)
    requires memory.Valid()
    modifies cpu`programCounter, cpu`cycle
    ensures Machine(old(cpu.Snapshot()).(programCounter := cpu.programCounter, cycle := cpu.cycle), memory.Contents())
         == JumpRelative(old(MachineOf(cpu, memory)), IfCarry)
  {
    if cpu.carry {
      cpu.programCounter := WrappingAdd16(cpu.programCounter, memory.ReadByteAt(WrappingAdd16(cpu.programCounter, 1)) as u16);
      cpu.cycle := WrappingAdd64(cpu.cycle, 3);
    } else {
      cpu.programCounter := WrappingAdd16(cpu.programCounter, 2);
      cpu.cycle := WrappingAdd64(cpu.cycle, 2);
    }
  }

  /// `ld_sp_d16` (0x31).
  method LdSpD16(cpu: Cpu, memory: Memory)
    requires memory.Valid()
    modifies cpu`stackPointer, cpu`programCounter, cpu`cycle
    ensures Machine(old(cpu.Snapshot()).(stackPointer := cpu.stackPointer, programCounter := cpu.programCounter, cycle := cpu.cycle), memory.Contents())
         == LoadStackPointerImmediate(old(MachineOf(cpu, memory)))
  {
    cpu.stackPointer := memory.Read16BitValueAt(WrappingAdd16(cpu.programCounter, 1));
    cpu.cycle := WrappingAdd64(cpu.cycle, 3);
    cpu.programCounter := WrappingAdd16(cpu.programCounter, 3);
  }

  /// `ld_hl_dec_a` (0x32).
  method LdHlDecA(cpu: Cpu, memory: Memory)
    requires memory.Valid()
    modifies cpu`h, cpu`l, cpu`programCounter, cpu`cycle, memory.bytes
    ensures Machine(old(cpu.Snapshot()).(h := cpu.h, l := cpu.l, programCounter := cpu.programCounter, cycle := cpu.cycle), memory.Contents())
         == StoreAToHl(old(MachineOf(cpu, memory)), Decrement)
  {
    var addressInHl := LsbMsbToU16(cpu.h, cpu.l);
    memory.WriteByteAt(addressInHl, cpu.a);
    var (lsb, msb) := U16ToLsbMsb(WrappingSub16(addressInHl, 1));
    cpu.h := lsb;
    cpu.l := msb;
    cpu.programCounter := WrappingAdd16(cpu.programCounter, 1);
    cpu.cycle := WrappingAdd64(cpu.cycle, 2);
  }

  /// `inc_sp` (0x33).
  method IncSp(cpu: Cpu)
    modifies cpu`stackPointer, cpu`programCounter, cpu`cycle
    ensures old(cpu.Snapshot()).(stackPointer := cpu.stackPointer, programCounter := cpu.programCounter, cycle := cpu.cycle)
         == IncrementStackPointer(old(cpu.Snapshot()))
  {
    cpu.stackPointer := WrappingAdd16(cpu.stackPointer, 1);
    cpu.programCounter := WrappingAdd16(cpu.programCounter, 1);
    cpu.cycle := WrappingAdd64(cpu.cycle, 2);
  }

  /// `inc_hl_address` (0x34).
  method IncHlAddress(cpu: Cpu, memory: Memory)
    requires memory.Valid()
    modifies cpu`programCounter, cpu`cycle, cpu`zero, cpu`negative, cpu`halfCarry, memory.bytes
    ensures Machine(old(cpu.Snapshot()).(programCounter := cpu.programCounter, cycle := cpu.cycle, zero := cpu.zero, negative := cpu.negative, halfCarry := cpu.halfCarry), memory.Contents())
         == IncrementAtHl(old(MachineOf(cpu, memory)))
  {
    var address := LsbMsbToU16(cpu.h, cpu.l);
    var value := WrappingAdd8(memory.ReadByteAt(address), 1);
    memory.WriteByteAt(address, value);
    cpu.zero := value == 0;
    cpu.negative := false;
    cpu.halfCarry := IsNthBitSetU8(value, 7);
    cpu.programCounter := WrappingAdd16(cpu.programCounter, 1);
    cpu.cycle := WrappingAdd64(cpu.cycle, 3);
  }

  /// `dec_hl_address` (0x35).
  method DecHlAddress(cpu: Cpu, memory: Memory)
    requires memory.Valid()
    modifies cpu`programCounter, cpu`cycle, cpu`zero, cpu`negative, cpu`halfCarry, memory.bytes
    ensures Machine(old(cpu.Snapshot()).(programCounter := cpu.programCounter, cycle := cpu.cycle, zero := cpu.zero, negative := cpu.negative, halfCarry := cpu.halfCarry), memory.Contents())
         == DecrementAtHl(old(MachineOf(cpu, memory)))
  {
    var address := LsbMsbToU16(cpu.h, cpu.l);
    var value := WrappingSub8(memory.ReadByteAt(address), 1);
    memory.WriteByteAt(address, value);
    cpu.zero := value == 0;
    cpu.negative := true;
    cpu.halfCarry := IsNthBitSetU8(value, 7);
    cpu.programCounter := WrappingAdd16(cpu.programCounter, 1);
    cpu.cycle := WrappingAdd64(cpu.cycle, 3);
  }

  /// `ld_hl_d8` (0x36).
  method LdHlD8(cpu: Cpu, memory: Memory)
    requires memory.Valid()
    modifies cpu`programCounter, cpu`cycle, memory.bytes
    ensures Machine(old(cpu.Snapshot()).(programCounter := cpu.programCounter, cycle := cpu.cycle), memory.Contents())
         == StoreImmediateAtHl(old(MachineOf(cpu, memory)))
  {
    var value := memory.ReadByteAt(WrappingAdd16(cpu.programCounter, 1));
    var address := LsbMsbToU16(cpu.h, cpu.l);
    memory.WriteByteAt(address, value);
    cpu.programCounter := WrappingAdd16(cpu.programCounter, 2);
    cpu.cycle := WrappingAdd64(cpu.cycle, 3);
  }

  /// `scf` (0x37). As written, neither the program counter nor the cycle advances.
  method Scf(cpu: Cpu)
    modifies cpu`negative, cpu`halfCarry, cpu`carry
    ensures old(cpu.Snapshot()).(negative := cpu.negative, halfCarry := cpu.halfCarry, carry := cpu.carry)
         == SetCarryFlag(old(cpu.Snapshot()))
  {
    cpu.carry := true;
    cpu.negative := false;
    cpu.halfCarry := false;
    cpu.carry := true;
  }

  /// `jr_c_s8` (0x38).
  method JrCS8(cpu: Cpu, memory: Memory)
    requires memory.Valid()
    modifies cpu`programCounter, cpu`cycle
    ensures Machine(old(cpu.Snapshot()).(programCounter := cpu.programCounter, cycle := cpu.cycle), memory.Contents())
         == JumpRelative(old(MachineOf(cpu, memory)), IfCarry)
  {
    if cpu.carry {
      cpu.programCounter := WrappingAdd16(cpu.programCounter, memory.ReadByteAt(WrappingAdd16(cpu.programCounter, 1)) as u16);
      cpu.cycle := WrappingAdd64(cpu.cycle, 3);
    } else {
      cpu.programCounter := WrappingAdd16(cpu.programCounter, 2);
      cpu.cycle := WrappingAdd64(cpu.cycle, 2);
    }
  }

  /// `add_hl_sp` (0x39). As written, the zero flag is not written.
  method AddHlSp(cpu: Cpu)
    modifies cpu`h, cpu`l, cpu`programCounter, cpu`cycle, cpu`negative, cpu`halfCarry, cpu`carry
    ensures old(cpu.Snapshot()).(h := cpu.h, l := cpu.l, programCounter := cpu.programCounter, cycle := cpu.cycle, negative := cpu.negative, halfCarry := cpu.halfCarry, carry := cpu.carry)
         == AddToHl(old(cpu.Snapshot()), FromStackPointer, false)
  {
    var value := LsbMsbToU16(cpu.h, cpu.l);
    assert value == PairValue(cpu.Snapshot(), HL);
    cpu.negative := false;
    cpu.halfCarry := IsNthBitSetU16(value, 15);
    cpu.carry := IsNthBitSetU16(value, 15);
    var (lsb, msb) := U16ToLsbMsb(WrappingAdd16(value, cpu.stackPointer));
    cpu.h := lsb;
    cpu.l := msb;
    cpu.programCounter := WrappingAdd16(cpu.programCounter, 1);
    cpu.cycle := WrappingAdd64(cpu.cycle, 2);
  }

  /// `ld_a_hl_dec` (0x3A). As written, HL is written back unchanged.
  method LdAHlDec(cpu: Cpu, memory: Memory)
    requires memory.Valid()
    modifies cpu`a, cpu`h, cpu`l, cpu`programCounter, cpu`cycle
    ensures Machine(old(cpu.Snapshot()).(a := cpu.a, h := cpu.h, l := cpu.l, programCounter := cpu.programCounter, cycle := cpu.cycle), memory.Contents())
         == LoadAFromHl(old(MachineOf(cpu, memory)), Keep)
  {
    var address := LsbMsbToU16(cpu.h, cpu.l);
    cpu.a := memory.ReadByteAt(address);
    var (lsb, msb) := U16ToLsbMsb(address);
    cpu.h := lsb;
    cpu.l := msb;
    cpu.programCounter := WrappingAdd16(cpu.programCounter, 1);
    cpu.cycle := WrappingAdd64(cpu.cycle, 2);
  }

  /// `dec_sp` (0x3B).
  method DecSp(cpu: Cpu)
    modifies cpu`stackPointer, cpu`programCounter, cpu`cycle
    ensures old(cpu.Snapshot()).(stackPointer := cpu.stackPointer, programCounter := cpu.programCounter, cycle := cpu.cycle)
         == DecrementStackPointer(old(cpu.Snapshot()))
  {
    cpu.stackPointer := WrappingSub16(cpu.stackPointer, 1);
    cpu.programCounter := WrappingAdd16(cpu.programCounter, 1);
    cpu.cycle := WrappingAdd64(cpu.cycle, 2);
  }

  /// `inc_a` (0x3C).
  method IncA(cpu: Cpu)
    modifies cpu`a, cpu`programCounter, cpu`cycle, cpu`zero, cpu`negative, cpu`halfCarry
    ensures old(cpu.Snapshot()).(a := cpu.a, programCounter := cpu.programCounter, cycle := cpu.cycle, zero := cpu.zero, negative := cpu.negative, halfCarry := cpu.halfCarry)
         == IncrementRegister(old(cpu.Snapshot()), A)
  {
    cpu.halfCarry := IsNthBitSetU8(cpu.a, 7);
    cpu.a := WrappingAdd8(cpu.a, 1);
    cpu.zero := cpu.a == 0;
    cpu.negative := false;
    cpu.programCounter := WrappingAdd16(cpu.programCounter, 1);
    cpu.cycle := WrappingAdd64(cpu.cycle, 1);
  }

  /// `dec_a` (0x3D). As written, the subtract flag is cleared.
  method DecA(cpu: Cpu)
    modifies cpu`a, cpu`programCounter, cpu`cycle, cpu`zero, cpu`negative, cpu`halfCarry
    ensures old(cpu.Snapshot()).(a := cpu.a, programCounter := cpu.programCounter, cycle := cpu.cycle, zero := cpu.zero, negative := cpu.negative, halfCarry := cpu.halfCarry)
         == DecrementRegister(old(cpu.Snapshot()), A, false)
  {
    cpu.halfCarry := IsNthBitSetU8(cpu.a, 7);
    cpu.a := WrappingSub8(cpu.a, 1);
    cpu.zero := cpu.a == 0;
    cpu.negative := false;
    cpu.programCounter := WrappingAdd16(cpu.programCounter, 1);
    cpu.cycle := WrappingAdd64(cpu.cycle, 1);
  }

  /// `ld_a_d8` (0x3E).
  method LdAD8(cpu: Cpu, memory: Memory)
    requires memory.Valid()
    modifies cpu`a, cpu`programCounter, cpu`cycle
    ensures Machine(old(cpu.Snapshot()).(a := cpu.a, programCounter := cpu.programCounter, cycle := cpu.cycle), memory.Contents())
         == LoadImmediate(old(MachineOf(cpu, memory)), A)
  {
    cpu.a := memory.ReadByteAt(WrappingAdd16(cpu.programCounter, 1));
    cpu.programCounter := WrappingAdd16(cpu.programCounter, 2);
    cpu.cycle := WrappingAdd64(cpu.cycle, 2);
  }

  /// `ccf` (0x3F).
  method Ccf(cpu: Cpu)
    modifies cpu`programCounter, cpu`cycle, cpu`negative, cpu`halfCarry, cpu`carry
    ensures old(cpu.Snapshot()).(programCounter := cpu.programCounter, cycle := cpu.cycle, negative := cpu.negative, halfCarry := cpu.halfCarry, carry := cpu.carry)
         == ComplementCarryFlag(old(cpu.Snapshot()))
  {
    cpu.negative := false;
    cpu.halfCarry := false;
    cpu.carry := !cpu.carry;
    cpu.programCounter := WrappingAdd16(cpu.programCounter, 1);
    cpu.cycle := WrappingAdd64(cpu.cycle, 1);
  }
}
