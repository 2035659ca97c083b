/// The instruction handlers of src/opcodes.rs for opcodes
/// 0x80 to 0xBF: arithmetic and logic on A with a register or the byte
/// at HL.
/// One method per handler, each updating the `Cpu` object (and, where the
/// handler takes it, the `Memory`) in place, and each proved to leave
/// exactly the state its function in module Semantics describes.
///
/// Every handler names in `modifies` exactly the CPU fields it writes, so
/// the fields it does not name keep their values. Its postcondition takes
/// the state before the call, puts in the current values of the fields it
/// wrote, and says that this state, with the memory, is what the Semantics
/// function gives: together, the new state IS that function of the old.
/// Comments give the opcode that dispatches to the handler.
module Opcodes80 {
  import opened Wrappers
  import opened Bits
  import opened Memory
  import opened RegisterFile
  import opened Cpu
  import opened Stack
  import opened Semantics

  /// `add_a_b` (0x80).
  method AddAB(cpu: Cpu)
    modifies cpu`a, cpu`programCounter, cpu`cycle, cpu`zero, cpu`negative, cpu`halfCarry, cpu`carry
    ensures old(cpu.Snapshot()).(a := cpu.a, programCounter := cpu.programCounter, cycle := cpu.cycle, zero := cpu.zero, negative := cpu.negative, halfCarry := cpu.halfCarry, carry := cpu.carry)
         == AluRegister(old(cpu.Snapshot()), Add, B)
  {
    cpu.halfCarry := IsNthBitSetU8(cpu.a, 7);
    cpu.carry := IsNthBitSetU8(cpu.a, 7);
    cpu.a := WrappingAdd8(cpu.a, cpu.b);
    cpu.zero := cpu.a == 0;
    cpu.negative := false;
    cpu.programCounter := WrappingAdd16(cpu.programCounter, 1);
    cpu.cycle := WrappingAdd64(cpu.cycle, 1);
  }

  /// `add_a_c` (0x81).
  method AddAC(cpu: Cpu)
    modifies cpu`a, cpu`programCounter, cpu`cycle, cpu`zero, cpu`negative, cpu`halfCarry, cpu`carry
    ensures old(cpu.Snapshot()).(a := cpu.a, programCounter := cpu.programCounter, cycle := cpu.cycle, zero := cpu.zero, negative := cpu.negative, halfCarry := cpu.halfCarry, carry := cpu.carry)
         == AluRegister(old(cpu.Snapshot()), Add, C)
  {
    cpu.halfCarry := IsNthBitSetU8(cpu.a, 7);
    cpu.carry := IsNthBitSetU8(cpu.a, 7);
    cpu.a := WrappingAdd8(cpu.a, cpu.c);
    cpu.zero := cpu.a == 0;
    cpu.negative := false;
    cpu.programCounter := WrappingAdd16(cpu.programCounter, 1);
    cpu.cycle := WrappingAdd64(cpu.cycle, 1);
  }

  /// `add_a_d` (0x82).
  method AddAD(cpu: Cpu)
    modifies cpu`a, cpu`programCounter, cpu`cycle, cpu`zero, cpu`negative, cpu`halfCarry, cpu`carry
    ensures old(cpu.Snapshot()).(a := cpu.a, programCounter := cpu.programCounter, cycle := cpu.cycle, zero := cpu.zero, negative := cpu.negative, halfCarry := cpu.halfCarry, carry := cpu.carry)
         == AluRegister(old(cpu.Snapshot()), Add, D)
  {
    cpu.halfCarry := IsNthBitSetU8(cpu.a, 7);
    cpu.carry := IsNthBitSetU8(cpu.a, 7);
    cpu.a := WrappingAdd8(cpu.a, cpu.d);
    cpu.zero := cpu.a == 0;
    cpu.negative := false;
    cpu.programCounter := WrappingAdd16(cpu.programCounter, 1);
    cpu.cycle := WrappingAdd64(cpu.cycle, 1);
  }

  /// `add_a_e` (0x83).
  method AddAE(cpu: Cpu)
    modifies cpu`a, cpu`programCounter, cpu`cycle, cpu`zero, cpu`negative, cpu`halfCarry, cpu`carry
    ensures old(cpu.Snapshot()).(a := cpu.a, programCounter := cpu.programCounter, cycle := cpu.cycle, zero := cpu.zero, negative := cpu.negative, halfCarry := cpu.halfCarry, carry := cpu.carry)
         == AluRegister(old(cpu.Snapshot()), Add, E)
  {
    cpu.halfCarry := IsNthBitSetU8(cpu.a, 7);
    cpu.carry := IsNthBitSetU8(cpu.a, 7);
    cpu.a := WrappingAdd8(cpu.a, cpu.e);
    cpu.zero := cpu.a == 0;
    cpu.negative := false;
    cpu.programCounter := WrappingAdd16(cpu.programCounter, 1);
    cpu.cycle := WrappingAdd64(cpu.cycle, 1);
  }

  /// `add_a_h` (0x84).
  method AddAH(cpu: Cpu)
    modifies cpu`a, cpu`programCounter, cpu`cycle, cpu`zero, cpu`negative, cpu`halfCarry, cpu`carry
    ensures old(cpu.Snapshot()).(a := cpu.a, programCounter := cpu.programCounter, cycle := cpu.cycle, zero := cpu.zero, negative := cpu.negative, halfCarry := cpu.halfCarry, carry := cpu.carry)
         == AluRegister(old(cpu.Snapshot()), Add, H)
  {
    cpu.halfCarry := IsNthBitSetU8(cpu.a, 7);
    cpu.carry := IsNthBitSetU8(cpu.a, 7);
    cpu.a := WrappingAdd8(cpu.a, cpu.h);
    cpu.zero := cpu.a == 0;
    cpu.negative := false;
    cpu.programCounter := WrappingAdd16(cpu.programCounter, 1);
    cpu.cycle := WrappingAdd64(cpu.cycle, 1);
  }

  /// `add_a_l` (0x85).
  method AddAL(cpu: Cpu)
    modifies cpu`a, cpu`programCounter, cpu`cycle, cpu`zero, cpu`negative, cpu`halfCarry, cpu`carry
    ensures old(cpu.Snapshot()).(a := cpu.a, programCounter := cpu.programCounter, cycle := cpu.cycle, zero := cpu.zero, negative := cpu.negative, halfCarry := cpu.halfCarry, carry := cpu.carry)
         == AluRegister(old(cpu.Snapshot()), Add, L)
  {
    cpu.halfCarry := IsNthBitSetU8(cpu.a, 7);
    cpu.carry := IsNthBitSetU8(cpu.a, 7);
    cpu.a := WrappingAdd8(cpu.a, cpu.l);
    cpu.zero := cpu.a == 0;
    cpu.negative := false;
    cpu.programCounter := WrappingAdd16(cpu.programCounter, 1);
    cpu.cycle := WrappingAdd64(cpu.cycle, 1);
  }

  /// `add_a_hl` (0x86).
  method AddAHl(cpu: Cpu, memory: Memory)
    requires memory.Valid()
    modifies cpu`a, cpu`programCounter, cpu`cycle, cpu`zero, cpu`negative, cpu`halfCarry, cpu`carry
    ensures Machine(old(cpu.Snapshot()).(a := cpu.a, programCounter := cpu.programCounter, cycle := cpu.cycle, zero := cpu.zero, negative := cpu.negative, halfCarry := cpu.halfCarry, carry := cpu.carry), memory.Contents())
         == AluAtHl(old(MachineOf(cpu, memory)), Add)
  {
    var address := LsbMsbToU16(cpu.h, cpu.l);
    cpu.halfCarry := IsNthBitSetU8(cpu.a, 7);
    cpu.carry := IsNthBitSetU8(cpu.a, 7);
    cpu.a := WrappingAdd8(cpu.a, memory.ReadByteAt(address));
    cpu.zero := cpu.a == 0;
    cpu.negative := false;
    cpu.programCounter := WrappingAdd16(cpu.programCounter, 1);
    cpu.cycle := WrappingAdd64(cpu.cycle, 2);
  }

  /// `add_a_a` (0x87).
  method AddAA(cpu: Cpu)
    modifies cpu`a, cpu`programCounter, cpu`cycle, cpu`zero, cpu`negative, cpu`halfCarry, cpu`carry
    ensures old(cpu.Snapshot()).(a := cpu.a, programCounter := cpu.programCounter, cycle := cpu.cycle, zero := cpu.zero, negative := cpu.negative, halfCarry := cpu.halfCarry, carry := cpu.carry)
         == AluRegister(old(cpu.Snapshot()), Add, A)
  {
    cpu.halfCarry := IsNthBitSetU8(cpu.a, 7);
    cpu.carry := IsNthBitSetU8(cpu.a, 7);
    cpu.a := WrappingAdd8(cpu.a, cpu.a);
    cpu.zero := cpu.a == 0;
    cpu.negative := false;
    cpu.programCounter := WrappingAdd16(cpu.programCounter, 1);
    cpu.cycle := WrappingAdd64(cpu.cycle, 1);
  }

  /// `sub_b` (0x90).
  method SubB(cpu: Cpu)
    modifies cpu`a, cpu`programCounter, cpu`cycle, cpu`zero, cpu`negative, cpu`halfCarry, cpu`carry
    ensures old(cpu.Snapshot()).(a := cpu.a, programCounter := cpu.programCounter, cycle := cpu.cycle, zero := cpu.zero, negative := cpu.negative, halfCarry := cpu.halfCarry, carry := cpu.carry)
         == AluRegister(old(cpu.Snapshot()), Sub, B)
  {
    cpu.halfCarry := IsNthBitSetU8(cpu.a, 7);
    cpu.carry := IsNthBitSetU8(cpu.a, 7);
    cpu.a := WrappingSub8(cpu.a, cpu.b);
    cpu.negative := true;
    cpu.zero := cpu.a == 0;
    cpu.programCounter := WrappingAdd16(cpu.programCounter, 1);
    cpu.cycle := WrappingAdd64(cpu.cycle, 1);
  }

  /// `sub_c` (0x91).
  method SubC(cpu: Cpu)
    modifies cpu`a, cpu`programCounter, cpu`cycle, cpu`zero, cpu`negative, cpu`halfCarry, cpu`carry
    ensures old(cpu.Snapshot()).(a := cpu.a, programCounter := cpu.programCounter, cycle := cpu.cycle, zero := cpu.zero, negative := cpu.negative, halfCarry := cpu.halfCarry, carry := cpu.carry)
         == AluRegister(old(cpu.Snapshot()), Sub, C)
  {
    cpu.halfCarry := IsNthBitSetU8(cpu.a, 7);
    cpu.carry := IsNthBitSetU8(cpu.a, 7);
    cpu.a := WrappingSub8(cpu.a, cpu.c);
    cpu.negative := true;
    cpu.zero := cpu.a == 0;
    cpu.programCounter := WrappingAdd16(cpu.programCounter, 1);
    cpu.cycle := WrappingAdd64(cpu.cycle, 1);
  }

  /// `sub_d` (0x92).
  method SubD(cpu: Cpu)
    modifies cpu`a, cpu`programCounter, cpu`cycle, cpu`zero, cpu`negative, cpu`halfCarry, cpu`carry
    ensures old(cpu.Snapshot()).(a := cpu.a, programCounter := cpu.programCounter, cycle := cpu.cycle, zero := cpu.zero, negative := cpu.negative, halfCarry := cpu.halfCarry, carry := cpu.carry)
         == AluRegister(old(cpu.Snapshot()), Sub, D)
  {
    cpu.halfCarry := IsNthBitSetU8(cpu.a, 7);
    cpu.carry := IsNthBitSetU8(cpu.a, 7);
    cpu.a := WrappingSub8(cpu.a, cpu.d);
    cpu.negative := true;
    cpu.zero := cpu.a == 0;
    cpu.programCounter := WrappingAdd16(cpu.programCounter, 1);
    cpu.cycle := WrappingAdd64(cpu.cycle, 1);
  }

  /// `sub_e` (0x93).
  method SubE(cpu: Cpu)
    modifies cpu`a, cpu`programCounter, cpu`cycle, cpu`zero, cpu`negative, cpu`halfCarry, cpu`carry
    ensures old(cpu.Snapshot()).(a := cpu.a, programCounter := cpu.programCounter, cycle := cpu.cycle, zero := cpu.zero, negative := cpu.negative, halfCarry := cpu.halfCarry, carry := cpu.carry)
         == AluRegister(old(cpu.Snapshot()), Sub, E)
  {
    cpu.halfCarry := IsNthBitSetU8(cpu.a, 7);
    cpu.carry := IsNthBitSetU8(cpu.a, 7);
    cpu.a := WrappingSub8(cpu.a, cpu.e);
    cpu.negative := true;
    cpu.zero := cpu.a == 0;
    cpu.programCounter := WrappingAdd16(cpu.programCounter, 1);
    cpu.cycle := WrappingAdd64(cpu.cycle, 1);
  }

  /// `sub_h` (0x94).
  method SubH(cpu: Cpu)
    modifies cpu`a, cpu`programCounter, cpu`cycle, cpu`zero, cpu`negative, cpu`halfCarry, cpu`carry
    ensures old(cpu.Snapshot()).(a := cpu.a, programCounter := cpu.programCounter, cycle := cpu.cycle, zero := cpu.zero, negative := cpu.negative, halfCarry := cpu.halfCarry, carry := cpu.carry)
         == AluRegister(old(cpu.Snapshot()), Sub, H)
  {
    cpu.halfCarry := IsNthBitSetU8(cpu.a, 7);
    cpu.carry := IsNthBitSetU8(cpu.a, 7);
    cpu.a := WrappingSub8(cpu.a, cpu.h);
    cpu.negative := true;
    cpu.zero := cpu.a == 0;
    cpu.programCounter := WrappingAdd16(cpu.programCounter, 1);
    cpu.cycle := WrappingAdd64(cpu.cycle, 1);
  }

  /// `sub_l` (0x95).
  method SubL(cpu: Cpu)
    modifies cpu`a, cpu`programCounter, cpu`cycle, cpu`zero, cpu`negative, cpu`halfCarry, cpu`carry
    ensures old(cpu.Snapshot()).(a := cpu.a, programCounter := cpu.programCounter, cycle := cpu.cycle, zero := cpu.zero, negative := cpu.negative, halfCarry := cpu.halfCarry, carry := cpu.carry)
         == AluRegister(old(cpu.Snapshot()), Sub, L)
  {
    cpu.halfCarry := IsNthBitSetU8(cpu.a, 7);
    cpu.carry := IsNthBitSetU8(cpu.a, 7);
    cpu.a := WrappingSub8(cpu.a, cpu.l);
    cpu.negative := true;
    cpu.zero := cpu.a == 0;
    cpu.programCounter := WrappingAdd16(cpu.programCounter, 1);
    cpu.cycle := WrappingAdd64(cpu.cycle, 1);
  }

  /// `sub_hl` (0x96).
  method SubHl(cpu: Cpu, memory: Memory)
    requires memory.Valid()
    modifies cpu`a, cpu`programCounter, cpu`cycle, cpu`zero, cpu`negative, cpu`halfCarry, cpu`carry
    ensures Machine(old(cpu.Snapshot()).(a := cpu.a, programCounter := cpu.programCounter, cycle := cpu.cycle, zero := cpu.zero, negative := cpu.negative, halfCarry := cpu.halfCarry, carry := cpu.carry), memory.Contents())
         == AluAtHl(old(MachineOf(cpu, memory)), Sub)
  {
    var address := LsbMsbToU16(cpu.h, cpu.l);
    var value := memory.ReadByteAt(address);
    cpu.halfCarry := IsNthBitSetU8(cpu.a, 7);
    cpu.carry := IsNthBitSetU8(cpu.a, 7);
    cpu.a := WrappingSub8(cpu.a, value);
    cpu.negative := true;
    cpu.zero := cpu.a == 0;
    cpu.programCounter := WrappingAdd16(cpu.programCounter, 1);
    cpu.cycle := WrappingAdd64(cpu.cycle, 2);
  }

  /// `sub_a` (0x97).
  method SubA(cpu: Cpu)
    modifies cpu`a, cpu`programCounter, cpu`cycle, cpu`zero, cpu`negative, cpu`halfCarry, cpu`carry
    ensures old(cpu.Snapshot()).(a := cpu.a, programCounter := cpu.programCounter, cycle := cpu.cycle, zero := cpu.zero, negative := cpu.negative, halfCarry := cpu.halfCarry, carry := cpu.carry)
         == AluRegister(old(cpu.Snapshot()), Sub, A)
  {
    cpu.halfCarry := IsNthBitSetU8(cpu.a, 7);
    cpu.carry := IsNthBitSetU8(cpu.a, 7);
    cpu.a := WrappingSub8(cpu.a, cpu.a);
    cpu.negative := true;
    cpu.zero := cpu.a == 0;
    cpu.programCounter := WrappingAdd16(cpu.programCounter, 1);
    cpu.cycle := WrappingAdd64(cpu.cycle, 1);
  }

  /// `and_b` (0xA0).
  method AndB(cpu: Cpu)
    modifies cpu`a, cpu`programCounter, cpu`cycle, cpu`zero, cpu`negative, cpu`halfCarry, cpu`carry
    ensures old(cpu.Snapshot()).(a := cpu.a, programCounter := cpu.programCounter, cycle := cpu.cycle, zero := cpu.zero, negative := cpu.negative, halfCarry := cpu.halfCarry, carry := cpu.carry)
         == AluRegister(old(cpu.Snapshot()), And, B)
  {
    cpu.a := And8(cpu.a, cpu.b);
    cpu.zero := cpu.a == 0;
    cpu.negative := false;
    cpu.halfCarry := true;
    cpu.carry := false;
    cpu.programCounter := WrappingAdd16(cpu.programCounter, 1);
    cpu.cycle := WrappingAdd64(cpu.cycle, 1);
  }

  /// `and_c` (0xA1).
  method AndC(cpu: Cpu)
    modifies cpu`a, cpu`programCounter, cpu`cycle, cpu`zero, cpu`negative, cpu`halfCarry, cpu`carry
    ensures old(cpu.Snapshot()).(a := cpu.a, programCounter := cpu.programCounter, cycle := cpu.cycle, zero := cpu.zero, negative := cpu.negative, halfCarry := cpu.halfCarry, carry := cpu.carry)
         == AluRegister(old(cpu.Snapshot()), And, C)
  {
    cpu.a := And8(cpu.a, cpu.c);
    cpu.zero := cpu.a == 0;
    cpu.negative := false;
    cpu.halfCarry := true;
    cpu.carry := false;
    cpu.programCounter := WrappingAdd16(cpu.programCounter, 1);
    cpu.cycle := WrappingAdd64(cpu.cycle, 1);
  }

  /// `and_d` (0xA2).
  method AndD(cpu: Cpu)
    modifies cpu`a, cpu`programCounter, cpu`cycle, cpu`zero, cpu`negative, cpu`halfCarry, cpu`carry
    ensures old(cpu.Snapshot()).(a := cpu.a, programCounter := cpu.programCounter, cycle := cpu.cycle, zero := cpu.zero, negative := cpu.negative, halfCarry := cpu.halfCarry, carry := cpu.carry)
         == AluRegister(old(cpu.Snapshot()), And, D)
  {
    cpu.a := And8(cpu.a, cpu.d);
    cpu.zero := cpu.a == 0;
    cpu.negative := false;
    cpu.halfCarry := true;
    cpu.carry := false;
    cpu.programCounter := WrappingAdd16(cpu.programCounter, 1);
    cpu.cycle := WrappingAdd64(cpu.cycle, 1);
  }

  /// `and_e` (0xA3).
  method AndE(cpu: Cpu)
    modifies cpu`a, cpu`programCounter, cpu`cycle, cpu`zero, cpu`negative, cpu`halfCarry, cpu`carry
    ensures old(cpu.Snapshot()).(a := cpu.a, programCounter := cpu.programCounter, cycle := cpu.cycle, zero := cpu.zero, negative := cpu.negative, halfCarry := cpu.halfCarry, carry := cpu.carry)
         == AluRegister(old(cpu.Snapshot()), And, E)
  {
    cpu.a := And8(cpu.a, cpu.e);
    cpu.zero := cpu.a == 0;
    cpu.negative := false;
    cpu.halfCarry := true;
    cpu.carry := false;
    cpu.programCounter := WrappingAdd16(cpu.programCounter, 1);
    cpu.cycle := WrappingAdd64(cpu.cycle, 1);
  }

  /// `and_h` (0xA4).
  method AndH(cpu: Cpu)
    modifies cpu`a, cpu`programCounter, cpu`cycle, cpu`zero, cpu`negative, cpu`halfCarry, cpu`carry
    ensures old(cpu.Snapshot()).(a := cpu.a, programCounter := cpu.programCounter, cycle := cpu.cycle, zero := cpu.zero, negative := cpu.negative, halfCarry := cpu.halfCarry, carry := cpu.carry)
         == AluRegister(old(cpu.Snapshot()), And, H)
  {
    cpu.a := And8(cpu.a, cpu.h);
    cpu.zero := cpu.a == 0;
    cpu.negative := false;
    cpu.halfCarry := true;
    cpu.carry := false;
    cpu.programCounter := WrappingAdd16(cpu.programCounter, 1);
    cpu.cycle := WrappingAdd64(cpu.cycle, 1);
  }

  /// `and_l` (0xA5).
  method AndL(cpu: Cpu)
    modifies cpu`a, cpu`programCounter, cpu`cycle, cpu`zero, cpu`negative, cpu`halfCarry, cpu`carry
    ensures old(cpu.Snapshot()).(a := cpu.a, programCounter := cpu.programCounter, cycle := cpu.cycle, zero := cpu.zero, negative := cpu.negative, halfCarry := cpu.halfCarry, carry := cpu.carry)
         == AluRegister(old(cpu.Snapshot()), And, L)
  {
    cpu.a := And8(cpu.a, cpu.l);
    cpu.zero := cpu.a == 0;
    cpu.negative := false;
    cpu.halfCarry := true;
    cpu.carry := false;
    cpu.programCounter := WrappingAdd16(cpu.programCounter, 1);
    cpu.cycle := WrappingAdd64(cpu.cycle, 1);
  }

  /// `and_hl` (0xA6).
  method AndHl(cpu: Cpu, memory: Memory)
    requires memory.Valid()
    modifies cpu`a, cpu`programCounter, cpu`cycle, cpu`zero, cpu`negative, cpu`halfCarry, cpu`carry
    ensures Machine(old(cpu.Snapshot()).(a := cpu.a, programCounter := cpu.programCounter, cycle := cpu.cycle, zero := cpu.zero, negative := cpu.negative, halfCarry := cpu.halfCarry, carry := cpu.carry), memory.Contents())
         == AluAtHl(old(MachineOf(cpu, memory)), And)
  {
    var address := LsbMsbToU16(cpu.h, cpu.l);
    var value := memory.ReadByteAt(address);
    cpu.a := And8(cpu.a, value);
    cpu.zero := cpu.a == 0;
    cpu.negative := false;
    cpu.halfCarry := true;
    cpu.carry := false;
    cpu.programCounter := WrappingAdd16(cpu.programCounter, 1);
    cpu.cycle := WrappingAdd64(cpu.cycle, 2);
  }

  /// `and_a` (0xA7).
  method AndA(cpu: Cpu)
    modifies cpu`a, cpu`programCounter, cpu`cycle, cpu`zero, cpu`negative, cpu`halfCarry, cpu`carry
    ensures old(cpu.Snapshot()).(a := cpu.a, programCounter := cpu.programCounter, cycle := cpu.cycle, zero := cpu.zero, negative := cpu.negative, halfCarry := cpu.halfCarry, carry := cpu.carry)
         == AluRegister(old(cpu.Snapshot()), And, A)
  {
    cpu.a := And8(cpu.a, cpu.a);
    cpu.zero := cpu.a == 0;
    cpu.negative := false;
    cpu.halfCarry := true;
    cpu.carry := false;
    cpu.programCounter := WrappingAdd16(cpu.programCounter, 1);
    cpu.cycle := WrappingAdd64(cpu.cycle, 1);
  }

  /// `xor_b` (0xA8).
  method XorB(cpu: Cpu)
    modifies cpu`a, cpu`programCounter, cpu`cycle, cpu`zero, cpu`negative, cpu`halfCarry, cpu`carry
    ensures old(cpu.Snapshot()).(a := cpu.a, programCounter := cpu.programCounter, cycle := cpu.cycle, zero := cpu.zero, negative := cpu.negative, halfCarry := cpu.halfCarry, carry := cpu.carry)
         == AluRegister(old(cpu.Snapshot()), Xor, B)
  {
    cpu.a := Xor8(cpu.a, cpu.b);
    cpu.zero := cpu.a == 0;
    cpu.negative := false;
    cpu.halfCarry := false;
    cpu.carry := false;
    cpu.programCounter := WrappingAdd16(cpu.programCounter, 1);
    cpu.cycle := WrappingAdd64(cpu.cycle, 1);
  }

  /// `xor_c` (0xA9).
  method XorC(cpu: Cpu)
    modifies cpu`a, cpu`programCounter, cpu`cycle, cpu`zero, cpu`negative, cpu`halfCarry, cpu`carry
    ensures old(cpu.Snapshot()).(a := cpu.a, programCounter := cpu.programCounter, cycle := cpu.cycle, zero := cpu.zero, negative := cpu.negative, halfCarry := cpu.halfCarry, carry := cpu.carry)
         == AluRegister(old(cpu.Snapshot()), Xor, C)
  {
    cpu.a := Xor8(cpu.a, cpu.c);
    cpu.zero := cpu.a == 0;
    cpu.negative := false;
    cpu.halfCarry := false;
    cpu.carry := false;
    cpu.programCounter := WrappingAdd16(cpu.programCounter, 1);
    cpu.cycle := WrappingAdd64(cpu.cycle, 1);
  }

  /// `xor_d` (0xAA).
  method XorD(cpu: Cpu)
    modifies cpu`a, cpu`programCounter, cpu`cycle, cpu`zero, cpu`negative, cpu`halfCarry, cpu`carry
    ensures old(cpu.Snapshot()).(a := cpu.a, programCounter := cpu.programCounter, cycle := cpu.cycle, zero := cpu.zero, negative := cpu.negative, halfCarry := cpu.halfCarry, carry := cpu.carry)
         == AluRegister(old(cpu.Snapshot()), Xor, D)
  {
    cpu.a := Xor8(cpu.a, cpu.d);
    cpu.zero := cpu.a == 0;
    cpu.negative := false;
    cpu.halfCarry := false;
    cpu.carry := false;
    cpu.programCounter := WrappingAdd16(cpu.programCounter, 1);
    cpu.cycle := WrappingAdd64(cpu.cycle, 1);
  }

  /// `xor_e` (0xAB).
  method XorE(cpu: Cpu)
    modifies cpu`a, cpu`programCounter, cpu`cycle, cpu`zero, cpu`negative, cpu`halfCarry, cpu`carry
    ensures old(cpu.Snapshot()).(a := cpu.a, programCounter := cpu.programCounter, cycle := cpu.cycle, zero := cpu.zero, negative := cpu.negative, halfCarry := cpu.halfCarry, carry := cpu.carry)
         == AluRegister(old(cpu.Snapshot()), Xor, E)
  {
    cpu.a := Xor8(cpu.a, cpu.e);
    cpu.zero := cpu.a == 0;
    cpu.negative := false;
    cpu.halfCarry := false;
    cpu.carry := false;
    cpu.programCounter := WrappingAdd16(cpu.programCounter, 1);
    cpu.cycle := WrappingAdd64(cpu.cycle, 1);
  }

  /// `xor_h` (0xAC).
  method XorH(cpu: Cpu)
    modifies cpu`a, cpu`programCounter, cpu`cycle, cpu`zero, cpu`negative, cpu`halfCarry, cpu`carry
    ensures old(cpu.Snapshot()).(a := cpu.a, programCounter := cpu.programCounter, cycle := cpu.cycle, zero := cpu.zero, negative := cpu.negative, halfCarry := cpu.halfCarry, carry := cpu.carry)
         == AluRegister(old(cpu.Snapshot()), Xor, H)
  {
    cpu.a := Xor8(cpu.a, cpu.h);
    cpu.zero := cpu.a == 0;
    cpu.negative := false;
    cpu.halfCarry := false;
    cpu.carry := false;
    cpu.programCounter := WrappingAdd16(cpu.programCounter, 1);
    cpu.cycle := WrappingAdd64(cpu.cycle, 1);
  }

  /// `xor_l` (0xAD).
  method XorL(cpu: Cpu)
    modifies cpu`a, cpu`programCounter, cpu`cycle, cpu`zero, cpu`negative, cpu`halfCarry, cpu`carry
    ensures old(cpu.Snapshot()).(a := cpu.a, programCounter := cpu.programCounter, cycle := cpu.cycle, zero := cpu.zero, negative := cpu.negative, halfCarry := cpu.halfCarry, carry := cpu.carry)
         == AluRegister(old(cpu.Snapshot()), Xor, L)
  {
    cpu.a := Xor8(cpu.a, cpu.l);
    cpu.zero := cpu.a == 0;
    cpu.negative := false;
    cpu.halfCarry := false;
    cpu.carry := false;
    cpu.programCounter := WrappingAdd16(cpu.programCounter, 1);
    cpu.cycle := WrappingAdd64(cpu.cycle, 1);
  }

  /// `xor_hl` (0xAE).
  method XorHl(cpu: Cpu, memory: Memory)
    requires memory.Valid()
    modifies cpu`a, cpu`programCounter, cpu`cycle, cpu`zero, cpu`negative, cpu`halfCarry, cpu`carry
    ensures Machine(old(cpu.Snapshot()).(a := cpu.a, programCounter := cpu.programCounter, cycle := cpu.cycle, zero := cpu.zero, negative := cpu.negative, halfCarry := cpu.halfCarry, carry := cpu.carry), memory.Contents())
         == AluAtHl(old(MachineOf(cpu, memory)), Xor)
  {
    var address := LsbMsbToU16(cpu.h, cpu.l);
    var value := memory.ReadByteAt(address);
    cpu.a := Xor8(cpu.a, value);
    cpu.zero := cpu.a == 0;
    cpu.negative := false;
    cpu.halfCarry := false;
    cpu.carry := false;
    cpu.programCounter := WrappingAdd16(cpu.programCounter, 1);
    cpu.cycle := WrappingAdd64(cpu.cycle, 2);
  }

  /// `xor_a` (0xAF).
  method XorA(cpu: Cpu)
    modifies cpu`a, cpu`programCounter, cpu`cycle, cpu`zero, cpu`negative, cpu`halfCarry, cpu`carry
    ensures old(cpu.Snapshot()).(a := cpu.a, programCounter := cpu.programCounter, cycle := cpu.cycle, zero := cpu.zero, negative := cpu.negative, halfCarry := cpu.halfCarry, carry := cpu.carry)
         == AluRegister(old(cpu.Snapshot()), Xor, A)
  {
    cpu.a := Xor8(cpu.a, cpu.a);
    cpu.zero := cpu.a == 0;
    cpu.negative := false;
    cpu.halfCarry := false;
    cpu.carry := false;
    cpu.programCounter := WrappingAdd16(cpu.programCounter, 1);
    cpu.cycle := WrappingAdd64(cpu.cycle, 1);
  }

  /// `or_b` (0xB0).
  method OrB(cpu: Cpu)
    modifies cpu`a, cpu`programCounter, cpu`cycle, cpu`zero, cpu`negative, cpu`halfCarry, cpu`carry
    ensures old(cpu.Snapshot()).(a := cpu.a, programCounter := cpu.programCounter, cycle := cpu.cycle, zero := cpu.zero, negative := cpu.negative, halfCarry := cpu.halfCarry, carry := cpu.carry)
         == AluRegister(old(cpu.Snapshot()), Or, B)
  {
    cpu.a := Or8(cpu.a, cpu.b);
    cpu.zero := cpu.a == 0;
    cpu.negative := false;
    cpu.halfCarry := false;
    cpu.carry := false;
    cpu.programCounter := WrappingAdd16(cpu.programCounter, 1);
    cpu.cycle := WrappingAdd64(cpu.cycle, 1);
  }

  /// `or_c` (0xB1).
  method OrC(cpu: Cpu)
    modifies cpu`a, cpu`programCounter, cpu`cycle, cpu`zero, cpu`negative, cpu`halfCarry, cpu`carry
    ensures old(cpu.Snapshot()).(a := cpu.a, programCounter := cpu.programCounter, cycle := cpu.cycle, zero := cpu.zero, negative := cpu.negative, halfCarry := cpu.halfCarry, carry := cpu.carry)
         == AluRegister(old(cpu.Snapshot()), Or, C)
  {
    cpu.a := Or8(cpu.a, cpu.c);
    cpu.zero := cpu.a == 0;
    cpu.negative := false;
    cpu.halfCarry := false;
    cpu.carry := false;
    cpu.programCounter := WrappingAdd16(cpu.programCounter, 1);
    cpu.cycle := WrappingAdd64(cpu.cycle, 1);
  }

  /// `or_d` (0xB2).
  method OrD(cpu: Cpu)
    modifies cpu`a, cpu`programCounter, cpu`cycle, cpu`zero, cpu`negative, cpu`halfCarry, cpu`carry
    ensures old(cpu.Snapshot()).(a := cpu.a, programCounter := cpu.programCounter, cycle := cpu.cycle, zero := cpu.zero, negative := cpu.negative, halfCarry := cpu.halfCarry, carry := cpu.carry)
         == AluRegister(old(cpu.Snapshot()), Or, D)
  {
    cpu.a := Or8(cpu.a, cpu.d);
    cpu.zero := cpu.a == 0;
    cpu.negative := false;
    cpu.halfCarry := false;
    cpu.carry := false;
    cpu.programCounter := WrappingAdd16(cpu.programCounter, 1);
    cpu.cycle := WrappingAdd64(cpu.cycle, 1);
  }

  /// `or_e` (0xB3).
  method OrE(cpu: Cpu)
    modifies cpu`a, cpu`programCounter, cpu`cycle, cpu`zero, cpu`negative, cpu`halfCarry, cpu`carry
    ensures old(cpu.Snapshot()).(a := cpu.a, programCounter := cpu.programCounter, cycle := cpu.cycle, zero := cpu.zero, negative := cpu.negative, halfCarry := cpu.halfCarry, carry := cpu.carry)
         == AluRegister(old(cpu.Snapshot()), Or, E)
  {
    cpu.a := Or8(cpu.a, cpu.e);
    cpu.zero := cpu.a == 0;
    cpu.negative := false;
    cpu.halfCarry := false;
    cpu.carry := false;
    cpu.programCounter := WrappingAdd16(cpu.programCounter, 1);
    cpu.cycle := WrappingAdd64(cpu.cycle, 1);
  }

  /// `or_h` (0xB4).
  method OrH(cpu: Cpu)
    modifies cpu`a, cpu`programCounter, cpu`cycle, cpu`zero, cpu`negative, cpu`halfCarry, cpu`carry
    ensures old(cpu.Snapshot()).(a := cpu.a, programCounter := cpu.programCounter, cycle := cpu.cycle, zero := cpu.zero, negative := cpu.negative, halfCarry := cpu.halfCarry, carry := cpu.carry)
         == AluRegister(old(cpu.Snapshot()), Or, H)
  {
    cpu.a := Or8(cpu.a, cpu.h);
    cpu.zero := cpu.a == 0;
    cpu.negative := false;
    cpu.halfCarry := false;
    cpu.carry := false;
    cpu.programCounter := WrappingAdd16(cpu.programCounter, 1);
    cpu.cycle := WrappingAdd64(cpu.cycle, 1);
  }

  /// `or_l` (0xB5).
  method OrL(cpu: Cpu)
    modifies cpu`a, cpu`programCounter, cpu`cycle, cpu`zero, cpu`negative, cpu`halfCarry, cpu`carry
    ensures old(cpu.Snapshot()).(a := cpu.a, programCounter := cpu.programCounter, cycle := cpu.cycle, zero := cpu.zero, negative := cpu.negative, halfCarry := cpu.halfCarry, carry := cpu.carry)
         == AluRegister(old(cpu.Snapshot()), Or, L)
  {
    cpu.a := Or8(cpu.a, cpu.l);
    cpu.zero := cpu.a == 0;
    cpu.negative := false;
    cpu.halfCarry := false;
    cpu.carry := false;
    cpu.programCounter := WrappingAdd16(cpu.programCounter, 1);
    cpu.cycle := WrappingAdd64(cpu.cycle, 1);
  }

  /// `or_hl` (0xB6).
  method OrHl(cpu: Cpu, memory: Memory)
    requires memory.Valid()
    modifies cpu`a, cpu`programCounter, cpu`cycle, cpu`zero, cpu`negative, cpu`halfCarry, cpu`carry
    ensures Machine(old(cpu.Snapshot()).(a := cpu.a, programCounter := cpu.programCounter, cycle := cpu.cycle, zero := cpu.zero, negative := cpu.negative, halfCarry := cpu.halfCarry, carry := cpu.carry), memory.Contents())
         == AluAtHl(old(MachineOf(cpu, memory)), Or)
  {
    var address := LsbMsbToU16(cpu.h, cpu.l);
    var value := memory.ReadByteAt(address);
    cpu.a := Or8(cpu.a, value);
    cpu.zero := cpu.a == 0;
    cpu.negative := false;
    cpu.halfCarry := false;
    cpu.carry := false;
    cpu.programCounter := WrappingAdd16(cpu.programCounter, 1);
    cpu.cycle := WrappingAdd64(cpu.cycle, 2);
  }

  /// `or_a` (0xB7).
  method OrA(cpu: Cpu)
    modifies cpu`a, cpu`programCounter, cpu`cycle, cpu`zero, cpu`negative, cpu`halfCarry, cpu`carry
    ensures old(cpu.Snapshot()).(a := cpu.a, programCounter := cpu.programCounter, cycle := cpu.cycle, zero := cpu.zero, negative := cpu.negative, halfCarry := cpu.halfCarry, carry := cpu.carry)
         == AluRegister(old(cpu.Snapshot()), Or, A)
  {
    cpu.a := Or8(cpu.a, cpu.a);
    cpu.zero := cpu.a == 0;
    cpu.negative := false;
    cpu.halfCarry := false;
    cpu.carry := false;
    cpu.programCounter := WrappingAdd16(cpu.programCounter, 1);
    cpu.cycle := WrappingAdd64(cpu.cycle, 1);
  }

  /// `cp_b` (0xB8).
  method CpB(cpu: Cpu)
    modifies cpu`programCounter, cpu`cycle, cpu`zero, cpu`negative, cpu`halfCarry, cpu`carry
    ensures old(cpu.Snapshot()).(programCounter := cpu.programCounter, cycle := cpu.cycle, zero := cpu.zero, negative := cpu.negative, halfCarry := cpu.halfCarry, carry := cpu.carry)
         == AluRegister(old(cpu.Snapshot()), Cp, B)
  {
    cpu.zero := WrappingSub8(cpu.a, cpu.b) == 0;
    cpu.negative := true;
    cpu.halfCarry := IsNthBitSetU8(cpu.a, 7);
    cpu.carry := IsNthBitSetU8(cpu.a, 7);
    cpu.programCounter := WrappingAdd16(cpu.programCounter, 1);
    cpu.cycle := WrappingAdd64(cpu.cycle, 1);
  }

  /// `cp_c` (0xB9).
  method CpC(cpu: Cpu)
    modifies cpu`programCounter, cpu`cycle, cpu`zero, cpu`negative, cpu`halfCarry, cpu`carry
    ensures old(cpu.Snapshot()).(programCounter := cpu.programCounter, cycle := cpu.cycle, zero := cpu.zero, negative := cpu.negative, halfCarry := cpu.halfCarry, carry := cpu.carry)
         == AluRegister(old(cpu.Snapshot()), Cp, C)
  {
    cpu.zero := WrappingSub8(cpu.a, cpu.c) == 0;
    cpu.negative := true;
    cpu.halfCarry := IsNthBitSetU8(cpu.a, 7);
    cpu.carry := IsNthBitSetU8(cpu.a, 7);
    cpu.programCounter := WrappingAdd16(cpu.programCounter, 1);
    cpu.cycle := WrappingAdd64(cpu.cycle, 1);
  }

  /// `cp_d` (0xBA).
  method CpD(cpu: Cpu)
    modifies cpu`programCounter, cpu`cycle, cpu`zero, cpu`negative, cpu`halfCarry, cpu`carry
    ensures old(cpu.Snapshot()).(programCounter := cpu.programCounter, cycle := cpu.cycle, zero := cpu.zero, negative := cpu.negative, halfCarry := cpu.halfCarry, carry := cpu.carry)
         == AluRegister(old(cpu.Snapshot()), Cp, D)
  {
    cpu.zero := WrappingSub8(cpu.a, cpu.d) == 0;
    cpu.negative := true;
    cpu.halfCarry := IsNthBitSetU8(cpu.a, 7);
    cpu.carry := IsNthBitSetU8(cpu.a, 7);
    cpu.programCounter := WrappingAdd16(cpu.programCounter, 1);
    cpu.cycle := WrappingAdd64(cpu.cycle, 1);
  }

  /// `cp_e` (0xBB).
  method CpE(cpu: Cpu)
    modifies cpu`programCounter, cpu`cycle, cpu`zero, cpu`negative, cpu`halfCarry, cpu`carry
    ensures old(cpu.Snapshot()).(programCounter := cpu.programCounter, cycle := cpu.cycle, zero := cpu.zero, negative := cpu.negative, halfCarry := cpu.halfCarry, carry := cpu.carry)
         == AluRegister(old(cpu.Snapshot()), Cp, E)
  {
    cpu.zero := WrappingSub8(cpu.a, cpu.e) == 0;
    cpu.negative := true;
    cpu.halfCarry := IsNthBitSetU8(cpu.a, 7);
    cpu.carry := IsNthBitSetU8(cpu.a, 7);
    cpu.programCounter := WrappingAdd16(cpu.programCounter, 1);
    cpu.cycle := WrappingAdd64(cpu.cycle, 1);
  }

  /// `cp_h` (0xBC).
  method CpH(cpu: Cpu)
    modifies cpu`programCounter, cpu`cycle, cpu`zero, cpu`negative, cpu`halfCarry, cpu`carry
    ensures old(cpu.Snapshot()).(programCounter := cpu.programCounter, cycle := cpu.cycle, zero := cpu.zero, negative := cpu.negative, halfCarry := cpu.halfCarry, carry := cpu.carry)
         == AluRegister(old(cpu.Snapshot()), Cp, H)
  {
    cpu.zero := WrappingSub8(cpu.a, cpu.h) == 0;
    cpu.negative := true;
    cpu.halfCarry := IsNthBitSetU8(cpu.a, 7);
    cpu.carry := IsNthBitSetU8(cpu.a, 7);
    cpu.programCounter := WrappingAdd16(cpu.programCounter, 1);
    cpu.cycle := WrappingAdd64(cpu.cycle, 1);
  }

  /// `cp_l` (0xBD).
  method CpL(cpu: Cpu)
    modifies cpu`programCounter, cpu`cycle, cpu`zero, cpu`negative, cpu`halfCarry, cpu`carry
    ensures old(cpu.Snapshot()).(programCounter := cpu.programCounter, cycle := cpu.cycle, zero := cpu.zero, negative := cpu.negative, halfCarry := cpu.halfCarry, carry := cpu.carry)
         == AluRegister(old(cpu.Snapshot()), Cp, L)
  {
    cpu.zero := WrappingSub8(cpu.a, cpu.l) == 0;
    cpu.negative := true;
    cpu.halfCarry := IsNthBitSetU8(cpu.a, 7);
    cpu.carry := IsNthBitSetU8(cpu.a, 7);
    cpu.programCounter := WrappingAdd16(cpu.programCounter, 1);
    cpu.cycle := WrappingAdd64(cpu.cycle, 1);
  }

  /// `cp_hl` (0xBE).
  method CpHl(cpu: Cpu, memory: Memory)
    requires memory.Valid()
    modifies cpu`programCounter, cpu`cycle, cpu`zero, cpu`negative, cpu`halfCarry, cpu`carry
    ensures Machine(old(cpu.Snapshot()).(programCounter := cpu.programCounter, cycle := cpu.cycle, zero := cpu.zero, negative := cpu.negative, halfCarry := cpu.halfCarry, carry := cpu.carry), memory.Contents())
         == AluAtHl(old(MachineOf(cpu, memory)), Cp)
  {
    var address := LsbMsbToU16(cpu.h, cpu.l);
    var value := memory.ReadByteAt(address);
    cpu.zero := WrappingSub8(cpu.a, value) == 0;
    cpu.negative := true;
    cpu.halfCarry := IsNthBitSetU8(cpu.a, 7);
    cpu.carry := IsNthBitSetU8(cpu.a, 7);
    cpu.programCounter := WrappingAdd16(cpu.programCounter, 1);
    cpu.cycle := WrappingAdd64(cpu.cycle, 2);
  }

  /// `cp_a` (0xBF).
  method CpA(cpu: Cpu)
    modifies cpu`programCounter, cpu`cycle, cpu`zero, cpu`negative, cpu`halfCarry, cpu`carry
    ensures old(cpu.Snapshot()).(programCounter := cpu.programCounter, cycle := cpu.cycle, zero := cpu.zero, negative := cpu.negative, halfCarry := cpu.halfCarry, carry := cpu.carry)
         == AluRegister(old(cpu.Snapshot()), Cp, A)
  {
    cpu.zero := WrappingSub8(cpu.a, cpu.a) == 0;
    cpu.negative := true;
    cpu.halfCarry := IsNthBitSetU8(cpu.a, 7);
    cpu.carry := IsNthBitSetU8(cpu.a, 7);
    cpu.programCounter := WrappingAdd16(cpu.programCounter, 1);
    cpu.cycle := WrappingAdd64(cpu.cycle, 1);
  }
}
