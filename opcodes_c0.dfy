/// The instruction handlers of src/opcodes.rs for opcodes
/// 0xC0 to 0xFF: returns, pops, pushes, jumps and calls, arithmetic and
/// logic with an immediate byte, the high-page loads, and DI and EI.
/// One method per handler, each updating the `Cpu` object (and, where the
/// handler takes it, the `Memory`) in place, and each proved to leave
/// exactly the state its function in module Semantics describes.
///
/// Every handler names in `modifies` exactly the CPU fields it writes, so
/// the fields it does not name keep their values. Its postcondition takes
/// the state before the call, puts in the current values of the fields it
/// wrote, and says that this state, with the memory, is what the Semantics
/// function gives: together, the new state IS that function of the old.
/// Comments give the opcode that dispatches to the handler.
module OpcodesC0 {
  import opened Wrappers
  import opened Bits
  import opened Memory
  import opened RegisterFile
  import opened Cpu
  import opened Stack
  import opened Semantics

  /// `ret_nz` (0xC0).
  method RetNz(cpu: Cpu, memory: Memory)
    requires memory.Valid()
    modifies cpu`stackPointer, cpu`programCounter, cpu`cycle
    ensures Machine(old(cpu.Snapshot()).(stackPointer := cpu.stackPointer, programCounter := cpu.programCounter, cycle := cpu.cycle), memory.Contents())
         == ReturnIf(old(MachineOf(cpu, memory)), IfNotZero)
  {
    if cpu.zero {
      cpu.programCounter := WrappingAdd16(cpu.programCounter, 1);
      cpu.cycle := WrappingAdd64(cpu.cycle, 2);
    } else {
      var target := PopStackU16(memory, cpu);
      cpu.programCounter := target;
      cpu.cycle := WrappingAdd64(cpu.cycle, 5);
    }
  }

  /// `pop_bc` (0xC1).
  method PopBc(cpu: Cpu, memory: Memory)
    requires memory.Valid()
    modifies cpu`b, cpu`c, cpu`stackPointer, cpu`programCounter, cpu`cycle
    ensures Machine(old(cpu.Snapshot()).(b := cpu.b, c := cpu.c, stackPointer := cpu.stackPointer, programCounter := cpu.programCounter, cycle := cpu.cycle), memory.Contents())
         == PopPair(old(MachineOf(cpu, memory)), BC)
  {
    cpu.b := PopStackU8(memory, cpu);
    cpu.c := PopStackU8(memory, cpu);
    cpu.programCounter := WrappingAdd16(cpu.programCounter, 1);
    cpu.cycle := WrappingAdd64(cpu.cycle, 3);
  }

  /// `jp_nz_a16` (0xC2).
  method JpNzA16(cpu: Cpu, memory: Memory)
    requires memory.Valid()
    modifies cpu`programCounter, cpu`cycle
    ensures Machine(old(cpu.Snapshot()).(programCounter := cpu.programCounter, cycle := cpu.cycle), memory.Contents())
         == JumpAbsolute(old(MachineOf(cpu, memory)), IfNotZero)
  {
    if cpu.zero {
      cpu.programCounter := WrappingAdd16(cpu.programCounter, 3);
      cpu.cycle := WrappingAdd64(cpu.cycle, 3);
    } else {
      cpu.programCounter := memory.Read16BitValueAt(WrappingAdd16(cpu.programCounter, 1));
      cpu.cycle := WrappingAdd64(cpu.cycle, 4);
    }
  }

  /// `jp_a16` (0xC3).
  method JpA16(cpu: Cpu, memory: Memory)
    requires memory.Valid()
    modifies cpu`programCounter, cpu`cycle
    ensures Machine(old(cpu.Snapshot()).(programCounter := cpu.programCounter, cycle := cpu.cycle), memory.Contents())
         == JumpAbsolute(old(MachineOf(cpu, memory)), Always)
  {
    cpu.programCounter := memory.Read16BitValueAt(WrappingAdd16(cpu.programCounter, 1));
    cpu.cycle := WrappingAdd64(cpu.cycle, 4);
  }

  /// `call_nz_a16` (0xC4).
  method CallNzA16(cpu: Cpu, memory: Memory)
    requires memory.Valid()
    modifies cpu`stackPointer, cpu`programCounter, cpu`cycle, memory.bytes
    ensures Machine(old(cpu.Snapshot()).(stackPointer := cpu.stackPointer, programCounter := cpu.programCounter, cycle := cpu.cycle), memory.Contents())
         == CallIf(old(MachineOf(cpu, memory)), IfNotZero)
  {
    if cpu.zero {
      cpu.programCounter := WrappingAdd16(cpu.programCounter, 3);
      cpu.cycle := WrappingAdd64(cpu.cycle, 3);
    } else {
      PushStackU16(memory, WrappingAdd16(cpu.programCounter, 3), cpu);
      cpu.programCounter := memory.Read16BitValueAt(WrappingAdd16(cpu.programCounter, 1));
      cpu.cycle := WrappingAdd64(cpu.cycle, 6);
    }
  }

  /// `push_bc` (0xC5).
  method PushBc(cpu: Cpu, memory: Memory)
    requires memory.Valid()
    modifies cpu`stackPointer, cpu`programCounter, cpu`cycle, memory.bytes
    ensures Machine(old(cpu.Snapshot()).(stackPointer := cpu.stackPointer, programCounter := cpu.programCounter, cycle := cpu.cycle), memory.Contents())
         == PushPair(old(MachineOf(cpu, memory)), BC)
  {
    var value := LsbMsbToU16(cpu.b, cpu.c);
    PushStackU16(memory, value, cpu);
    cpu.programCounter := WrappingAdd16(cpu.programCounter, 1);
    cpu.cycle := WrappingAdd64(cpu.cycle, 4);
  }

  /// `add_a_d8` (0xC6).
  method AddAD8(cpu: Cpu, memory: Memory)
    requires memory.Valid()
    modifies cpu`a, cpu`programCounter, cpu`cycle, cpu`zero, cpu`negative, cpu`halfCarry, cpu`carry
    ensures Machine(old(cpu.Snapshot()).(a := cpu.a, programCounter := cpu.programCounter, cycle := cpu.cycle, zero := cpu.zero, negative := cpu.negative, halfCarry := cpu.halfCarry, carry := cpu.carry), memory.Contents())
         == AluImmediate(old(MachineOf(cpu, memory)), Add)
  {
    var value := memory.ReadByteAt(WrappingAdd16(cpu.programCounter, 1));
    cpu.halfCarry := IsNthBitSetU8(cpu.a, 7);
    cpu.carry := IsNthBitSetU8(cpu.a, 7);
    cpu.a := WrappingAdd8(cpu.a, value);
    cpu.negative := false;
    cpu.zero := cpu.a == 0;
    cpu.programCounter := WrappingAdd16(cpu.programCounter, 2);
    cpu.cycle := WrappingAdd64(cpu.cycle, 2);
  }

  /// `ret_z` (0xC8).
  method RetZ(cpu: Cpu, memory: Memory)
    requires memory.Valid()
    modifies cpu`stackPointer, cpu`programCounter, cpu`cycle
    ensures Machine(old(cpu.Snapshot()).(stackPointer := cpu.stackPointer, programCounter := cpu.programCounter, cycle := cpu.cycle), memory.Contents())
         == ReturnIf(old(MachineOf(cpu, memory)), IfZero)
  {
    if cpu.zero {
      var target := PopStackU16(memory, cpu);
      cpu.programCounter := target;
      cpu.cycle := WrappingAdd64(cpu.cycle, 5);
    } else {
      cpu.programCounter := WrappingAdd16(cpu.programCounter, 1);
      cpu.cycle := WrappingAdd64(cpu.cycle, 2);
    }
  }

  /// `ret` (0xC9).
  method Ret(cpu: Cpu, memory: Memory)
    requires memory.Valid()
    modifies cpu`stackPointer, cpu`programCounter, cpu`cycle
    ensures Machine(old(cpu.Snapshot()).(stackPointer := cpu.stackPointer, programCounter := cpu.programCounter, cycle := cpu.cycle), memory.Contents())
         == Return(old(MachineOf(cpu, memory)))
  {
    var target := PopStackU16(memory, cpu);
    cpu.programCounter := target;
    cpu.cycle := WrappingAdd64(cpu.cycle, 4);
  }

  /// `jp_z_a16` (0xCA).
  method JpZA16(cpu: Cpu, memory: Memory)
    requires memory.Valid()
    modifies cpu`programCounter, cpu`cycle
    ensures Machine(old(cpu.Snapshot()).(programCounter := cpu.programCounter, cycle := cpu.cycle), memory.Contents())
         == JumpAbsolute(old(MachineOf(cpu, memory)), IfZero)
  {
    if cpu.zero {
      cpu.programCounter := memory.Read16BitValueAt(WrappingAdd16(cpu.programCounter, 1));
      cpu.cycle := WrappingAdd64(cpu.cycle, 4);
    } else {
      cpu.programCounter := WrappingAdd16(cpu.programCounter, 3);
      cpu.cycle := WrappingAdd64(cpu.cycle, 3);
    }
  }

  /// `call_z_a16` (0xCC).
  method CallZA16(cpu: Cpu, memory: Memory)
    requires memory.Valid()
    modifies cpu`stackPointer, cpu`programCounter, cpu`cycle, memory.bytes
    ensures Machine(old(cpu.Snapshot()).(stackPointer := cpu.stackPointer, programCounter := cpu.programCounter, cycle := cpu.cycle), memory.Contents())
         == CallIf(old(MachineOf(cpu, memory)), IfZero)
  {
    if cpu.zero {
      PushStackU16(memory, WrappingAdd16(cpu.programCounter, 3), cpu);
      cpu.programCounter := memory.Read16BitValueAt(WrappingAdd16(cpu.programCounter, 1));
      cpu.cycle := WrappingAdd64(cpu.cycle, 6);
    } else {
      cpu.programCounter := WrappingAdd16(cpu.programCounter, 3);
      cpu.cycle := WrappingAdd64(cpu.cycle, 3);
    }
  }

  /// `call_a16` (0xCD). As written, the pushed return address is the word stored at PC + 3.
  method CallA16(cpu: Cpu, memory: Memory)
    requires memory.Valid()
    modifies cpu`stackPointer, cpu`programCounter, cpu`cycle, memory.bytes
    ensures Machine(old(cpu.Snapshot()).(stackPointer := cpu.stackPointer, programCounter := cpu.programCounter, cycle := cpu.cycle), memory.Contents())
         == CallPushingStoredWord(old(MachineOf(cpu, memory)))
  {
    var returnAddressAfterCall := memory.Read16BitValueAt(WrappingAdd16(cpu.programCounter, 3));
    PushStackU16(memory, returnAddressAfterCall, cpu);
    cpu.programCounter := memory.Read16BitValueAt(WrappingAdd16(cpu.programCounter, 1));
    cpu.cycle := WrappingAdd64(cpu.cycle, 6);
  }

  /// `ret_nc` (0xD0).
  method RetNc(cpu: Cpu, memory: Memory)
    requires memory.Valid()
    modifies cpu`stackPointer, cpu`programCounter, cpu`cycle
    ensures Machine(old(cpu.Snapshot()).(stackPointer := cpu.stackPointer, programCounter := cpu.programCounter, cycle := cpu.cycle), memory.Contents())
         == ReturnIf(old(MachineOf(cpu, memory)), IfNotCarry)
  {
    if cpu.carry {
      cpu.programCounter := WrappingAdd16(cpu.programCounter, 1);
      cpu.cycle := WrappingAdd64(cpu.cycle, 2);
    } else {
      var target := PopStackU16(memory, cpu);
      cpu.programCounter := target;
      cpu.cycle := WrappingAdd64(cpu.cycle, 5);
    }
  }

  /// `pop_de` (0xD1).
  method PopDe(cpu: Cpu, memory: Memory)
    requires memory.Valid()
    modifies cpu`d, cpu`e, cpu`stackPointer, cpu`programCounter, cpu`cycle
    ensures Machine(old(cpu.Snapshot()).(d := cpu.d, e := cpu.e, stackPointer := cpu.stackPointer, programCounter := cpu.programCounter, cycle := cpu.cycle), memory.Contents())
         == PopPair(old(MachineOf(cpu, memory)), DE)
  {
    cpu.d := PopStackU8(memory, cpu);
    cpu.e := PopStackU8(memory, cpu);
    cpu.programCounter := WrappingAdd16(cpu.programCounter, 1);
    cpu.cycle := WrappingAdd64(cpu.cycle, 3);
  }

  /// `jp_nc_a16` (0xD2).
  method JpNcA16(cpu: Cpu, memory: Memory)
    requires memory.Valid()
    modifies cpu`programCounter, cpu`cycle
    ensures Machine(old(cpu.Snapshot()).(programCounter := cpu.programCounter, cycle := cpu.cycle), memory.Contents())
         == JumpAbsolute(old(MachineOf(cpu, memory)), IfNotCarry)
  {
    if cpu.carry {
      cpu.programCounter := WrappingAdd16(cpu.programCounter, 3);
      cpu.cycle := WrappingAdd64(cpu.cycle, 3);
    } else {
      cpu.programCounter := memory.Read16BitValueAt(WrappingAdd16(cpu.programCounter, 1));
      cpu.cycle := WrappingAdd64(cpu.cycle, 4);
    }
  }

  /// `call_nc_a16` (0xD4).
  method CallNcA16(cpu: Cpu, memory: Memory)
    requires memory.Valid()
    modifies cpu`stackPointer, cpu`programCounter, cpu`cycle, memory.bytes
    ensures Machine(old(cpu.Snapshot()).(stackPointer := cpu.stackPointer, programCounter := cpu.programCounter, cycle := cpu.cycle), memory.Contents())
         == CallIf(old(MachineOf(cpu, memory)), IfNotCarry)
  {
    if cpu.carry {
      cpu.programCounter := WrappingAdd16(cpu.programCounter, 3);
      cpu.cycle := WrappingAdd64(cpu.cycle, 3);
    } else {
      PushStackU16(memory, WrappingAdd16(cpu.programCounter, 3), cpu);
      cpu.programCounter := memory.Read16BitValueAt(WrappingAdd16(cpu.programCounter, 1));
      cpu.cycle := WrappingAdd64(cpu.cycle, 6);
    }
  }

  /// `push_de` (0xD5).
  method PushDe(cpu: Cpu, memory: Memory)
    requires memory.Valid()
    modifies cpu`stackPointer, cpu`programCounter, cpu`cycle, memory.bytes
    ensures Machine(old(cpu.Snapshot()).(stackPointer := cpu.stackPointer, programCounter := cpu.programCounter, cycle := cpu.cycle), memory.Contents())
         == PushPair(old(MachineOf(cpu, memory)), DE)
  {
    var value := LsbMsbToU16(cpu.d, cpu.e);
    PushStackU16(memory, value, cpu);
    cpu.programCounter := WrappingAdd16(cpu.programCounter, 1);
    cpu.cycle := WrappingAdd64(cpu.cycle, 4);
  }

  /// `sub_d8` (0xD6).
  method SubD8(cpu: Cpu, memory: Memory)
    requires memory.Valid()
    modifies cpu`a, cpu`programCounter, cpu`cycle, cpu`zero, cpu`negative, cpu`halfCarry, cpu`carry
    ensures Machine(old(cpu.Snapshot()).(a := cpu.a, programCounter := cpu.programCounter, cycle := cpu.cycle, zero := cpu.zero, negative := cpu.negative, halfCarry := cpu.halfCarry, carry := cpu.carry), memory.Contents())
         == AluImmediate(old(MachineOf(cpu, memory)), Sub)
  {
    var value := memory.ReadByteAt(WrappingAdd16(cpu.programCounter, 1));
    cpu.halfCarry := IsNthBitSetU8(cpu.a, 7);
    cpu.carry := IsNthBitSetU8(cpu.a, 7);
    cpu.a := WrappingSub8(cpu.a, value);
    cpu.negative := true;
    cpu.zero := cpu.a == 0;
    cpu.programCounter := WrappingAdd16(cpu.programCounter, 2);
    cpu.cycle := WrappingAdd64(cpu.cycle, 2);
  }

  /// `ret_c` (0xD8).
  method RetC(cpu: Cpu, memory: Memory)
    requires memory.Valid()
    modifies cpu`stackPointer, cpu`programCounter, cpu`cycle
    ensures Machine(old(cpu.Snapshot()).(stackPointer := cpu.stackPointer, programCounter := cpu.programCounter, cycle := cpu.cycle), memory.Contents())
         == ReturnIf(old(MachineOf(cpu, memory)), IfCarry)
  {
    if cpu.carry {
      var target := PopStackU16(memory, cpu);
      cpu.programCounter := target;
      cpu.cycle := WrappingAdd64(cpu.cycle, 5);
    } else {
      cpu.programCounter := WrappingAdd16(cpu.programCounter, 1);
      cpu.cycle := WrappingAdd64(cpu.cycle, 2);
    }
  }

  /// `reti` (0xD9).
  method Reti(cpu: Cpu, memory: Memory)
    requires memory.Valid()
    modifies cpu`stackPointer, cpu`programCounter, cpu`cycle, cpu`ime, memory.bytes
    ensures Machine(old(cpu.Snapshot()).(stackPointer := cpu.stackPointer, programCounter := cpu.programCounter, cycle := cpu.cycle, ime := cpu.ime), memory.Contents())
         == ReturnFromInterrupt(old(MachineOf(cpu, memory)))
  {
    var target := PopStackU16(memory, cpu);
    cpu.programCounter := target;
    cpu.ime := false;
    cpu.SetInterruptFlagState(memory, VBlank(Some(false)));
    cpu.SetInterruptFlagState(memory, LcdStat(Some(false)));
    cpu.SetInterruptFlagState(memory, Timer(Some(false)));
    cpu.SetInterruptFlagState(memory, Serial(Some(false)));
    cpu.SetInterruptFlagState(memory, Joypad(Some(false)));
    cpu.cycle := WrappingAdd64(cpu.cycle, 4);
  }

  /// `jp_c_a16` (0xDA).
  method JpCA16(cpu: Cpu, memory: Memory)
    requires memory.Valid()
    modifies cpu`programCounter, cpu`cycle
    ensures Machine(old(cpu.Snapshot()).(programCounter := cpu.programCounter, cycle := cpu.cycle), memory.Contents())
         == JumpAbsolute(old(MachineOf(cpu, memory)), IfCarry)
  {
    if cpu.carry {
      cpu.programCounter := memory.Read16BitValueAt(WrappingAdd16(cpu.programCounter, 1));
      cpu.cycle := WrappingAdd64(cpu.cycle, 4);
    } else {
      cpu.programCounter := WrappingAdd16(cpu.programCounter, 3);
      cpu.cycle := WrappingAdd64(cpu.cycle, 3);
    }
  }

  /// `call_c_a16` (0xDC).
  method CallCA16(cpu: Cpu, memory: Memory)
    requires memory.Valid()
    modifies cpu`stackPointer, cpu`programCounter, cpu`cycle, memory.bytes
    ensures Machine(old(cpu.Snapshot()).(stackPointer := cpu.stackPointer, programCounter := cpu.programCounter, cycle := cpu.cycle), memory.Contents())
         == CallIf(old(MachineOf(cpu, memory)), IfCarry)
  {
    if cpu.carry {
      PushStackU16(memory, WrappingAdd16(cpu.programCounter, 3), cpu);
      cpu.programCounter := memory.Read16BitValueAt(WrappingAdd16(cpu.programCounter, 1));
      cpu.cycle := WrappingAdd64(cpu.cycle, 6);
    } else {
      cpu.programCounter := WrappingAdd16(cpu.programCounter, 3);
      cpu.cycle := WrappingAdd64(cpu.cycle, 3);
    }
  }

  /// `ld_a8_a` (0xE0).
  method LdA8A(cpu: Cpu, memory: Memory)
    requires memory.Valid()
    modifies cpu`programCounter, cpu`cycle, memory.bytes
    ensures Machine(old(cpu.Snapshot()).(programCounter := cpu.programCounter, cycle := cpu.cycle), memory.Contents())
         == StoreA(old(MachineOf(cpu, memory)), LowPage)
  {
    var address := memory.ReadByteAt(WrappingAdd16(cpu.programCounter, 1)) as u16;
    memory.WriteByteAt(address, cpu.a);
    cpu.programCounter := WrappingAdd16(cpu.programCounter, 2);
    cpu.cycle := WrappingAdd64(cpu.cycle, 3);
  }

  /// `pop_hl` (0xE1).
  method PopHl(cpu: Cpu, memory: Memory)
    requires memory.Valid()
    modifies cpu`h, cpu`l, cpu`stackPointer, cpu`programCounter, cpu`cycle
    ensures Machine(old(cpu.Snapshot()).(h := cpu.h, l := cpu.l, stackPointer := cpu.stackPointer, programCounter := cpu.programCounter, cycle := cpu.cycle), memory.Contents())
         == PopPair(old(MachineOf(cpu, memory)), HL)
  {
    cpu.h := PopStackU8(memory, cpu);
    cpu.l := PopStackU8(memory, cpu);
    cpu.programCounter := WrappingAdd16(cpu.programCounter, 1);
    cpu.cycle := WrappingAdd64(cpu.cycle, 3);
  }

  /// `ld_port_c_a` (0xE2).
  method LdPortCA(cpu: Cpu, memory: Memory)
    requires memory.Valid()
    modifies cpu`programCounter, cpu`cycle, memory.bytes
    ensures Machine(old(cpu.Snapshot()).(programCounter := cpu.programCounter, cycle := cpu.cycle), memory.Contents())
         == StoreA(old(MachineOf(cpu, memory)), PortC)
  {
    var address := LsbMsbToU16(cpu.c, 0xFF);
    memory.WriteByteAt(address, cpu.a);
    cpu.programCounter := WrappingAdd16(cpu.programCounter, 1);
    cpu.cycle := WrappingAdd64(cpu.cycle, 2);
  }

  /// `push_hl` (0xE5).
  method PushHl(cpu: Cpu, memory: Memory)
    requires memory.Valid()
    modifies cpu`stackPointer, cpu`programCounter, cpu`cycle, memory.bytes
    ensures Machine(old(cpu.Snapshot()).(stackPointer := cpu.stackPointer, programCounter := cpu.programCounter, cycle := cpu.cycle), memory.Contents())
         == PushPair(old(MachineOf(cpu, memory)), HL)
  {
    var value := LsbMsbToU16(cpu.h, cpu.l);
    PushStackU16(memory, value, cpu);
    cpu.programCounter := WrappingAdd16(cpu.programCounter, 1);
    cpu.cycle := WrappingAdd64(cpu.cycle, 4);
  }

  /// `and_d8` (0xE6).
  method AndD8(cpu: Cpu, memory: Memory)
    requires memory.Valid()
    modifies cpu`a, cpu`programCounter, cpu`cycle, cpu`zero, cpu`negative, cpu`halfCarry, cpu`carry
    ensures Machine(old(cpu.Snapshot()).(a := cpu.a, programCounter := cpu.programCounter, cycle := cpu.cycle, zero := cpu.zero, negative := cpu.negative, halfCarry := cpu.halfCarry, carry := cpu.carry), memory.Contents())
         == AluImmediate(old(MachineOf(cpu, memory)), And)
  {
    var value := memory.ReadByteAt(WrappingAdd16(cpu.programCounter, 1));
    cpu.a := And8(cpu.a, value);
    cpu.zero := cpu.a == 0;
    cpu.negative := false;
    cpu.halfCarry := true;
    cpu.carry := false;
    cpu.programCounter := WrappingAdd16(cpu.programCounter, 2);
    cpu.cycle := WrappingAdd64(cpu.cycle, 2);
  }

  /// `add_sp_s8` (0xE8).
  method AddSpS8(cpu: Cpu, memory: Memory)
    requires memory.Valid()
    modifies cpu`stackPointer, cpu`programCounter, cpu`cycle, cpu`zero, cpu`negative, cpu`halfCarry, cpu`carry
    ensures Machine(old(cpu.Snapshot()).(stackPointer := cpu.stackPointer, programCounter := cpu.programCounter, cycle := cpu.cycle, zero := cpu.zero, negative := cpu.negative, halfCarry := cpu.halfCarry, carry := cpu.carry), memory.Contents())
         == AddToStackPointer(old(MachineOf(cpu, memory)))
  {
    var value := memory.ReadByteAt(WrappingAdd16(cpu.programCounter, 1)) as u16;
    cpu.zero := false;
    cpu.negative := false;
    cpu.halfCarry := IsNthBitSetU16(cpu.stackPointer, 15);
    cpu.carry := IsNthBitSetU16(cpu.stackPointer, 15);
    cpu.stackPointer := WrappingAdd16(cpu.stackPointer, value);
    cpu.programCounter := WrappingAdd16(cpu.programCounter, 2);
    cpu.cycle := WrappingAdd64(cpu.cycle, 4);
  }

  /// `jp_hl` (0xE9).
  method JpHl(cpu: Cpu)
    modifies cpu`programCounter, cpu`cycle
    ensures old(cpu.Snapshot()).(programCounter := cpu.programCounter, cycle := cpu.cycle)
         == JumpToHl(old(cpu.Snapshot()))
  {
    cpu.programCounter := LsbMsbToU16(cpu.h, cpu.l);
    cpu.cycle := WrappingAdd64(cpu.cycle, 1);
  }

  /// `ld_a16_a` (0xEA).
  method LdA16A(cpu: Cpu, memory: Memory)
    requires memory.Valid()
    modifies cpu`programCounter, cpu`cycle, memory.bytes
    ensures Machine(old(cpu.Snapshot()).(programCounter := cpu.programCounter, cycle := cpu.cycle), memory.Contents())
         == StoreA(old(MachineOf(cpu, memory)), AbsoluteAddress)
  {
    var address := memory.Read16BitValueAt(WrappingAdd16(cpu.programCounter, 1));
    memory.WriteByteAt(address, cpu.a);
    cpu.programCounter := WrappingAdd16(cpu.programCounter, 3);
    cpu.cycle := WrappingAdd64(cpu.cycle, 4);
  }

  /// `xor_d8` (0xEE).
  method XorD8(cpu: Cpu, memory: Memory)
    requires memory.Valid()
    modifies cpu`a, cpu`programCounter, cpu`cycle, cpu`zero, cpu`negative, cpu`halfCarry, cpu`carry
    ensures Machine(old(cpu.Snapshot()).(a := cpu.a, programCounter := cpu.programCounter, cycle := cpu.cycle, zero := cpu.zero, negative := cpu.negative, halfCarry := cpu.halfCarry, carry := cpu.carry), memory.Contents())
         == AluImmediate(old(MachineOf(cpu, memory)), Xor)
  {
    var value := memory.ReadByteAt(WrappingAdd16(cpu.programCounter, 1));
    cpu.a := Xor8(cpu.a, value);
    cpu.zero := cpu.a == 0;
    cpu.negative := false;
    cpu.halfCarry := false;
    cpu.carry := false;
    cpu.programCounter := WrappingAdd16(cpu.programCounter, 2);
    cpu.cycle := WrappingAdd64(cpu.cycle, 2);
  }

  /// `ld_a_a8` (0xF0). As written, A is STORED at 0xFF00 + the immediate byte.
  method LdAA8(cpu: Cpu, memory: Memory)
    requires memory.Valid()
    modifies cpu`programCounter, cpu`cycle, memory.bytes
    ensures Machine(old(cpu.Snapshot()).(programCounter := cpu.programCounter, cycle := cpu.cycle), memory.Contents())
         == StoreA(old(MachineOf(cpu, memory)), HighPage)
  {
    var addressLsb := memory.ReadByteAt(WrappingAdd16(cpu.programCounter, 1));
    var address := LsbMsbToU16(addressLsb, 0xFF);
    memory.WriteByteAt(address, cpu.a);
    cpu.programCounter := WrappingAdd16(cpu.programCounter, 2);
    cpu.cycle := WrappingAdd64(cpu.cycle, 3);
  }

  /// `pop_af` (0xF1).
  method PopAf(cpu: Cpu, memory: Memory)
    requires memory.Valid()
    modifies cpu`a, cpu`stackPointer, cpu`programCounter, cpu`cycle, cpu`zero, cpu`negative, cpu`halfCarry, cpu`carry
    ensures Machine(old(cpu.Snapshot()).(a := cpu.a, stackPointer := cpu.stackPointer, programCounter := cpu.programCounter, cycle := cpu.cycle, zero := cpu.zero, negative := cpu.negative, halfCarry := cpu.halfCarry, carry := cpu.carry), memory.Contents())
         == PopAccumulatorAndFlags(old(MachineOf(cpu, memory)))
  {
    var flags := PopStackU8(memory, cpu);
    cpu.carry := IsNthBitSetU8(flags, 0);
    cpu.halfCarry := IsNthBitSetU8(flags, 1);
    cpu.negative := IsNthBitSetU8(flags, 2);
    cpu.zero := IsNthBitSetU8(flags, 3);
    cpu.a := PopStackU8(memory, cpu);
    cpu.programCounter := WrappingAdd16(cpu.programCounter, 1);
    cpu.cycle := WrappingAdd64(cpu.cycle, 3);
  }

  /// `ld_a_port_c` (0xF2).
  method LdAPortC(cpu: Cpu, memory: Memory)
    requires memory.Valid()
    modifies cpu`a, cpu`programCounter, cpu`cycle
    ensures Machine(old(cpu.Snapshot()).(a := cpu.a, programCounter := cpu.programCounter, cycle := cpu.cycle), memory.Contents())
         == LoadA(old(MachineOf(cpu, memory)), PortC)
  {
    var address := LsbMsbToU16(cpu.c, 0xFF);
    cpu.a := memory.ReadByteAt(address);
    cpu.programCounter := WrappingAdd16(cpu.programCounter, 1);
    cpu.cycle := WrappingAdd64(cpu.cycle, 2);
  }

  /// `di` (0xF3).
  method Di(cpu: Cpu, memory: Memory)
    requires memory.Valid()
    modifies cpu`programCounter, cpu`cycle, cpu`ime, memory.bytes
    ensures Machine(old(cpu.Snapshot()).(programCounter := cpu.programCounter, cycle := cpu.cycle, ime := cpu.ime), memory.Contents())
         == DisableInterrupts(old(MachineOf(cpu, memory)))
  {
    cpu.SetInterruptFlagState(memory, VBlank(Some(false)));
    cpu.SetInterruptFlagState(memory, LcdStat(Some(false)));
    cpu.SetInterruptFlagState(memory, Timer(Some(false)));
    cpu.SetInterruptFlagState(memory, Serial(Some(false)));
    cpu.SetInterruptFlagState(memory, Joypad(Some(false)));
    cpu.ime := false;
    cpu.programCounter := WrappingAdd16(cpu.programCounter, 1);
    cpu.cycle := WrappingAdd64(cpu.cycle, 1);
  }

  /// `push_af` (0xF5).
  method PushAf(cpu: Cpu, memory: Memory)
    requires memory.Valid()
    modifies cpu`stackPointer, cpu`programCounter, cpu`cycle, memory.bytes
    ensures Machine(old(cpu.Snapshot()).(stackPointer := cpu.stackPointer, programCounter := cpu.programCounter, cycle := cpu.cycle), memory.Contents())
         == PushAccumulatorAndFlags(old(MachineOf(cpu, memory)))
  {
    PushStackU8(memory, cpu.a, cpu);
    var flags: u8 := 0;
    flags := SetBitNStateU8(flags, 0, cpu.carry);
    flags := SetBitNStateU8(flags, 1, cpu.halfCarry);
    flags := SetBitNStateU8(flags, 2, cpu.negative);
    flags := SetBitNStateU8(flags, 3, cpu.zero);
    PushStackU8(memory, flags, cpu);
    cpu.programCounter := WrappingAdd16(cpu.programCounter, 1);
    cpu.cycle := WrappingAdd64(cpu.cycle, 4);
  }

  /// `or_d8` (0xF6). As written, the program counter moves by 1 and the cycle by 1.
  method OrD8(cpu: Cpu, memory: Memory)
    requires memory.Valid()
    modifies cpu`a, cpu`programCounter, cpu`cycle, cpu`zero, cpu`negative, cpu`halfCarry, cpu`carry
    ensures Machine(old(cpu.Snapshot()).(a := cpu.a, programCounter := cpu.programCounter, cycle := cpu.cycle, zero := cpu.zero, negative := cpu.negative, halfCarry := cpu.halfCarry, carry := cpu.carry), memory.Contents())
         == AluImmediate(old(MachineOf(cpu, memory)), Or)
  {
    var value := memory.ReadByteAt(WrappingAdd16(cpu.programCounter, 1));
    cpu.a := Or8(cpu.a, value);
    cpu.zero := cpu.a == 0;
    cpu.negative := false;
    cpu.halfCarry := false;
    cpu.carry := false;
    cpu.programCounter := WrappingAdd16(cpu.programCounter, 1);
    cpu.cycle := WrappingAdd64(cpu.cycle, 1);
  }

  /// `ld_hl_sp_plus_s8` (0xF8).
  method LdHlSpPlusS8(cpu: Cpu, memory: Memory)
    requires memory.Valid()
    modifies cpu`h, cpu`l, cpu`programCounter, cpu`cycle, cpu`zero, cpu`negative, cpu`halfCarry, cpu`carry
    ensures Machine(old(cpu.Snapshot()).(h := cpu.h, l := cpu.l, programCounter := cpu.programCounter, cycle := cpu.cycle, zero := cpu.zero, negative := cpu.negative, halfCarry := cpu.halfCarry, carry := cpu.carry), memory.Contents())
         == LoadHlStackPointerOffset(old(MachineOf(cpu, memory)))
  {
    cpu.zero := false;
    cpu.negative := false;
    cpu.halfCarry := IsNthBitSetU16(cpu.stackPointer, 15);
    cpu.carry := IsNthBitSetU16(cpu.stackPointer, 15);
    var value := memory.ReadByteAt(WrappingAdd16(cpu.programCounter, 1)) as u16;
    var result := WrappingAdd16(cpu.stackPointer, value);
    var (lsb, msb) := U16ToLsbMsb(result);
    cpu.h := lsb;
    cpu.l := msb;
    cpu.programCounter := WrappingAdd16(cpu.programCounter, 2);
    cpu.cycle := WrappingAdd64(cpu.cycle, 3);
  }

  /// `ld_sp_hl` (0xF9).
  method LdSpHl(cpu: Cpu)
    modifies cpu`stackPointer, cpu`programCounter, cpu`cycle
    ensures old(cpu.Snapshot()).(stackPointer := cpu.stackPointer, programCounter := cpu.programCounter, cycle := cpu.cycle)
         == LoadStackPointerFromHl(old(cpu.Snapshot()))
  {
    cpu.stackPointer := LsbMsbToU16(cpu.h, cpu.l);
    cpu.programCounter := WrappingAdd16(cpu.programCounter, 1);
    cpu.cycle := WrappingAdd64(cpu.cycle, 2);
  }

  /// `ld_a_a16` (0xFA).
  method LdAA16(cpu: Cpu, memory: Memory)
    requires memory.Valid()
    modifies cpu`a, cpu`programCounter, cpu`cycle
    ensures Machine(old(cpu.Snapshot()).(a := cpu.a, programCounter := cpu.programCounter, cycle := cpu.cycle), memory.Contents())
         == LoadA(old(MachineOf(cpu, memory)), AbsoluteAddress)
  {
    var address := memory.Read16BitValueAt(WrappingAdd16(cpu.programCounter, 1));
    cpu.a := memory.ReadByteAt(address);
    cpu.programCounter := WrappingAdd16(cpu.programCounter, 3);
    cpu.cycle := WrappingAdd64(cpu.cycle, 4);
  }

  /// `ei` (0xFB).
  method Ei(cpu: Cpu)
    modifies cpu`programCounter, cpu`cycle, cpu`ime
    ensures old(cpu.Snapshot()).(programCounter := cpu.programCounter, cycle := cpu.cycle, ime := cpu.ime)
         == EnableInterrupts(old(cpu.Snapshot()))
  {
    cpu.ime := true;
    cpu.programCounter := WrappingAdd16(cpu.programCounter, 1);
    cpu.cycle := WrappingAdd64(cpu.cycle, 1);
  }

  /// `cp_d8` (0xFE).
  method CpD8(cpu: Cpu, memory: Memory)
    requires memory.Valid()
    modifies cpu`programCounter, cpu`cycle, cpu`zero, cpu`negative, cpu`halfCarry, cpu`carry
    ensures Machine(old(cpu.Snapshot()).(programCounter := cpu.programCounter, cycle := cpu.cycle, zero := cpu.zero, negative := cpu.negative, halfCarry := cpu.halfCarry, carry := cpu.carry), memory.Contents())
         == AluImmediate(old(MachineOf(cpu, memory)), Cp)
  {
    var value := memory.ReadByteAt(WrappingAdd16(cpu.programCounter, 1));
    cpu.zero := WrappingSub8(cpu.a, value) == 0;
    cpu.negative := true;
    cpu.halfCarry := IsNthBitSetU8(cpu.a, 7);
    cpu.carry := IsNthBitSetU8(cpu.a, 7);
    cpu.programCounter := WrappingAdd16(cpu.programCounter, 2);
    cpu.cycle := WrappingAdd64(cpu.cycle, 2);
  }
}
