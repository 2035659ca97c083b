/// The instruction handlers of src/opcodes.rs for opcodes
/// 0x40 to 0x7F: loads between registers and through HL, and HALT.
/// One method per handler, each updating the `Cpu` object (and, where the
/// handler takes it, the `Memory`) in place, and each proved to leave
/// exactly the state its function in module Semantics describes.
///
/// Every handler names in `modifies` exactly the CPU fields it writes, so
/// the fields it does not name keep their values. Its postcondition takes
/// the state before the call, puts in the current values of the fields it
/// wrote, and says that this state, with the memory, is what the Semantics
/// function gives: together, the new state IS that function of the old.
/// Comments give the opcode that dispatches to the handler.
module Opcodes40 {
  import opened Wrappers
  import opened Bits
  import opened Memory
  import opened RegisterFile
  import opened Cpu
  import opened Stack
  import opened Semantics

  /// `ld_b_b` (0x40).
  method LdBB(cpu: Cpu)
    modifies cpu`b, cpu`programCounter, cpu`cycle
    ensures old(cpu.Snapshot()).(b := cpu.b, programCounter := cpu.programCounter, cycle := cpu.cycle)
         == LoadRegister(old(cpu.Snapshot()), B, B)
  {
    cpu.b := cpu.b;
    cpu.programCounter := WrappingAdd16(cpu.programCounter, 1);
    cpu.cycle := WrappingAdd64(cpu.cycle, 1);
  }

  /// `ld_b_c` (0x41).
  method LdBC(cpu: Cpu)
    modifies cpu`b, cpu`programCounter, cpu`cycle
    ensures old(cpu.Snapshot()).(b := cpu.b, programCounter := cpu.programCounter, cycle := cpu.cycle)
         == LoadRegister(old(cpu.Snapshot()), B, C)
  {
    cpu.b := cpu.c;
    cpu.programCounter := WrappingAdd16(cpu.programCounter, 1);
    cpu.cycle := WrappingAdd64(cpu.cycle, 1);
  }

  /// `ld_b_d` (0x42).
  method LdBD(cpu: Cpu)
    modifies cpu`b, cpu`programCounter, cpu`cycle
    ensures old(cpu.Snapshot()).(b := cpu.b, programCounter := cpu.programCounter, cycle := cpu.cycle)
         == LoadRegister(old(cpu.Snapshot()), B, D)
  {
    cpu.b := cpu.d;
    cpu.programCounter := WrappingAdd16(cpu.programCounter, 1);
    cpu.cycle := WrappingAdd64(cpu.cycle, 1);
  }

  /// `ld_b_e` (0x43).
  method LdBE(cpu: Cpu)
    modifies cpu`b, cpu`programCounter, cpu`cycle
    ensures old(cpu.Snapshot()).(b := cpu.b, programCounter := cpu.programCounter, cycle := cpu.cycle)
         == LoadRegister(old(cpu.Snapshot()), B, E)
  {
    cpu.b := cpu.e;
    cpu.programCounter := WrappingAdd16(cpu.programCounter, 1);
    cpu.cycle := WrappingAdd64(cpu.cycle, 1);
  }

  /// `ld_b_h` (0x44).
  method LdBH(cpu: Cpu)
    modifies cpu`b, cpu`programCounter, cpu`cycle
    ensures old(cpu.Snapshot()).(b := cpu.b, programCounter := cpu.programCounter, cycle := cpu.cycle)
         == LoadRegister(old(cpu.Snapshot()), B, H)
  {
    cpu.b := cpu.h;
    cpu.programCounter := WrappingAdd16(cpu.programCounter, 1);
    cpu.cycle := WrappingAdd64(cpu.cycle, 1);
  }

  /// `ld_b_l` (0x45).
  method LdBL(cpu: Cpu)
    modifies cpu`b, cpu`programCounter, cpu`cycle
    ensures old(cpu.Snapshot()).(b := cpu.b, programCounter := cpu.programCounter, cycle := cpu.cycle)
         == LoadRegister(old(cpu.Snapshot()), B, L)
  {
    cpu.b := cpu.l;
    cpu.programCounter := WrappingAdd16(cpu.programCounter, 1);
    cpu.cycle := WrappingAdd64(cpu.cycle, 1);
  }

  /// `ld_b_hl` (0x46).
  method LdBHl(cpu: Cpu, memory: Memory)
    requires memory.Valid()
    modifies cpu`b, cpu`programCounter, cpu`cycle
    ensures Machine(old(cpu.Snapshot()).(b := cpu.b, programCounter := cpu.programCounter, cycle := cpu.cycle), memory.Contents())
         == LoadFromPair(old(MachineOf(cpu, memory)), B, HL)
  {
    var address := LsbMsbToU16(cpu.h, cpu.l);
    cpu.b := memory.ReadByteAt(address);
    cpu.programCounter := WrappingAdd16(cpu.programCounter, 1);
    cpu.cycle := WrappingAdd64(cpu.cycle, 2);
  }

  /// `ld_b_a` (0x47).
  method LdBA(cpu: Cpu)
    modifies cpu`b, cpu`programCounter, cpu`cycle
    ensures old(cpu.Snapshot()).(b := cpu.b, programCounter := cpu.programCounter, cycle := cpu.cycle)
         == LoadRegister(old(cpu.Snapshot()), B, A)
  {
    cpu.b := cpu.a;
    cpu.programCounter := WrappingAdd16(cpu.programCounter, 1);
    cpu.cycle := WrappingAdd64(cpu.cycle, 1);
  }

  /// `ld_c_b` (0x48).
  method LdCB(cpu: Cpu)
    modifies cpu`c, cpu`programCounter, cpu`cycle
    ensures old(cpu.Snapshot()).(c := cpu.c, programCounter := cpu.programCounter, cycle := cpu.cycle)
         == LoadRegister(old(cpu.Snapshot()), C, B)
  {
    cpu.c := cpu.b;
    cpu.programCounter := WrappingAdd16(cpu.programCounter, 1);
    cpu.cycle := WrappingAdd64(cpu.cycle, 1);
  }

  /// `ld_c_c` (0x49).
  method LdCC(cpu: Cpu)
    modifies cpu`c, cpu`programCounter, cpu`cycle
    ensures old(cpu.Snapshot()).(c := cpu.c, programCounter := cpu.programCounter, cycle := cpu.cycle)
         == LoadRegister(old(cpu.Snapshot()), C, C)
  {
    cpu.c := cpu.c;
    cpu.programCounter := WrappingAdd16(cpu.programCounter, 1);
    cpu.cycle := WrappingAdd64(cpu.cycle, 1);
  }

  /// `ld_c_d` (0x4A).
  method LdCD(cpu: Cpu)
    modifies cpu`c, cpu`programCounter, cpu`cycle
    ensures old(cpu.Snapshot()).(c := cpu.c, programCounter := cpu.programCounter, cycle := cpu.cycle)
         == LoadRegister(old(cpu.Snapshot()), C, D)
  {
    cpu.c := cpu.d;
    cpu.programCounter := WrappingAdd16(cpu.programCounter, 1);
    cpu.cycle := WrappingAdd64(cpu.cycle, 1);
  }

  /// `ld_c_e` (0x4B). As written, this handler copies B, not E.
  method LdCE(cpu: Cpu)
    modifies cpu`c, cpu`programCounter, cpu`cycle
    ensures old(cpu.Snapshot()).(c := cpu.c, programCounter := cpu.programCounter, cycle := cpu.cycle)
         == LoadRegister(old(cpu.Snapshot()), C, B)
  {
    cpu.c := cpu.b;
    cpu.programCounter := WrappingAdd16(cpu.programCounter, 1);
    cpu.cycle := WrappingAdd64(cpu.cycle, 1);
  }

  /// `ld_c_h` (0x4C). As written, this handler copies B, not H.
  method LdCH(cpu: Cpu)
    modifies cpu`c, cpu`programCounter, cpu`cycle
    ensures old(cpu.Snapshot()).(c := cpu.c, programCounter := cpu.programCounter, cycle := cpu.cycle)
         == LoadRegister(old(cpu.Snapshot()), C, B)
  {
    cpu.c := cpu.b;
    cpu.programCounter := WrappingAdd16(cpu.programCounter, 1);
    cpu.cycle := WrappingAdd64(cpu.cycle, 1);
  }

  /// `ld_c_l` (0x4D).
  method LdCL(cpu: Cpu)
    modifies cpu`c, cpu`programCounter, cpu`cycle
    ensures old(cpu.Snapshot()).(c := cpu.c, programCounter := cpu.programCounter, cycle := cpu.cycle)
         == LoadRegister(old(cpu.Snapshot()), C, L)
  {
    cpu.c := cpu.l;
    cpu.programCounter := WrappingAdd16(cpu.programCounter, 1);
    cpu.cycle := WrappingAdd64(cpu.cycle, 1);
  }

  /// `ld_c_hl` (0x4E).
  method LdCHl(cpu: Cpu, memory: Memory)
    requires memory.Valid()
    modifies cpu`c, cpu`programCounter, cpu`cycle
    ensures Machine(old(cpu.Snapshot()).(c := cpu.c, programCounter := cpu.programCounter, cycle := cpu.cycle), memory.Contents())
         == LoadFromPair(old(MachineOf(cpu, memory)), C, HL)
  {
    var address := LsbMsbToU16(cpu.h, cpu.l);
    cpu.c := memory.ReadByteAt(address);
    cpu.programCounter := WrappingAdd16(cpu.programCounter, 1);
    cpu.cycle := WrappingAdd64(cpu.cycle, 2);
  }

  /// `ld_c_a` (0x4F).
  method LdCA(cpu: Cpu)
    modifies cpu`c, cpu`programCounter, cpu`cycle
    ensures old(cpu.Snapshot()).(c := cpu.c, programCounter := cpu.programCounter, cycle := cpu.cycle)
         == LoadRegister(old(cpu.Snapshot()), C, A)
  {
    cpu.c := cpu.a;
    cpu.programCounter := WrappingAdd16(cpu.programCounter, 1);
    cpu.cycle := WrappingAdd64(cpu.cycle, 1);
  }

  /// `ld_d_b` (0x50).
  method LdDB(cpu: Cpu)
    modifies cpu`d, cpu`programCounter, cpu`cycle
    ensures old(cpu.Snapshot()).(d := cpu.d, programCounter := cpu.programCounter, cycle := cpu.cycle)
         == LoadRegister(old(cpu.Snapshot()), D, B)
  {
    cpu.d := cpu.b;
    cpu.programCounter := WrappingAdd16(cpu.programCounter, 1);
    cpu.cycle := WrappingAdd64(cpu.cycle, 1);
  }

  /// `ld_d_c` (0x51).
  method LdDC(cpu: Cpu)
    modifies cpu`d, cpu`programCounter, cpu`cycle
    ensures old(cpu.Snapshot()).(d := cpu.d, programCounter := cpu.programCounter, cycle := cpu.cycle)
         == LoadRegister(old(cpu.Snapshot()), D, C)
  {
    cpu.d := cpu.c;
    cpu.programCounter := WrappingAdd16(cpu.programCounter, 1);
    cpu.cycle := WrappingAdd64(cpu.cycle, 1);
  }

  /// `ld_d_d` (0x52).
  method LdDD(cpu: Cpu)
    modifies cpu`d, cpu`programCounter, cpu`cycle
    ensures old(cpu.Snapshot()).(d := cpu.d, programCounter := cpu.programCounter, cycle := cpu.cycle)
         == LoadRegister(old(cpu.Snapshot()), D, D)
  {
    cpu.d := cpu.d;
    cpu.programCounter := WrappingAdd16(cpu.programCounter, 1);
    cpu.cycle := WrappingAdd64(cpu.cycle, 1);
  }

  /// `ld_d_e` (0x53).
  method LdDE(cpu: Cpu)
    modifies cpu`d, cpu`programCounter, cpu`cycle
    ensures old(cpu.Snapshot()).(d := cpu.d, programCounter := cpu.programCounter, cycle := cpu.cycle)
         == LoadRegister(old(cpu.Snapshot()), D, E)
  {
    cpu.d := cpu.e;
    cpu.programCounter := WrappingAdd16(cpu.programCounter, 1);
    cpu.cycle := WrappingAdd64(cpu.cycle, 1);
  }

  /// `ld_d_h` (0x54).
  method LdDH(cpu: Cpu)
    modifies cpu`d, cpu`programCounter, cpu`cycle
    ensures old(cpu.Snapshot()).(d := cpu.d, programCounter := cpu.programCounter, cycle := cpu.cycle)
         == LoadRegister(old(cpu.Snapshot()), D, H)
  {
    cpu.d := cpu.h;
    cpu.programCounter := WrappingAdd16(cpu.programCounter, 1);
    cpu.cycle := WrappingAdd64(cpu.cycle, 1);
  }

  /// `ld_d_l` (0x55).
  method LdDL(cpu: Cpu)
    modifies cpu`d, cpu`programCounter, cpu`cycle
    ensures old(cpu.Snapshot()).(d := cpu.d, programCounter := cpu.programCounter, cycle := cpu.cycle)
         == LoadRegister(old(cpu.Snapshot()), D, L)
  {
    cpu.d := cpu.l;
    cpu.programCounter := WrappingAdd16(cpu.programCounter, 1);
    cpu.cycle := WrappingAdd64(cpu.cycle, 1);
  }

  /// `ld_d_hl` (0x56).
  method LdDHl(cpu: Cpu, memory: Memory)
    requires memory.Valid()
    modifies cpu`d, cpu`programCounter, cpu`cycle
    ensures Machine(old(cpu.Snapshot()).(d := cpu.d, programCounter := cpu.programCounter, cycle := cpu.cycle), memory.Contents())
         == LoadFromPair(old(MachineOf(cpu, memory)), D, HL)
  {
    var address := LsbMsbToU16(cpu.h, cpu.l);
    cpu.d := memory.ReadByteAt(address);
    cpu.programCounter := WrappingAdd16(cpu.programCounter, 1);
    cpu.cycle := WrappingAdd64(cpu.cycle, 2);
  }

  /// `ld_d_a` (0x57).
  method LdDA(cpu: Cpu)
    modifies cpu`d, cpu`programCounter, cpu`cycle
    ensures old(cpu.Snapshot()).(d := cpu.d, programCounter := cpu.programCounter, cycle := cpu.cycle)
         == LoadRegister(old(cpu.Snapshot()), D, A)
  {
    cpu.d := cpu.a;
    cpu.programCounter := WrappingAdd16(cpu.programCounter, 1);
    cpu.cycle := WrappingAdd64(cpu.cycle, 1);
  }

  /// `ld_e_b` (0x58).
  method LdEB(cpu: Cpu)
    modifies cpu`e, cpu`programCounter, cpu`cycle
    ensures old(cpu.Snapshot()).(e := cpu.e, programCounter := cpu.programCounter, cycle := cpu.cycle)
         == LoadRegister(old(cpu.Snapshot()), E, B)
  {
    cpu.e := cpu.b;
    cpu.programCounter := WrappingAdd16(cpu.programCounter, 1);
    cpu.cycle := WrappingAdd64(cpu.cycle, 1);
  }

  /// `ld_e_c` (0x59).
  method LdEC(cpu: Cpu)
    modifies cpu`e, cpu`programCounter, cpu`cycle
    ensures old(cpu.Snapshot()).(e := cpu.e, programCounter := cpu.programCounter, cycle := cpu.cycle)
         == LoadRegister(old(cpu.Snapshot()), E, C)
  {
    cpu.e := cpu.c;
    cpu.programCounter := WrappingAdd16(cpu.programCounter, 1);
    cpu.cycle := WrappingAdd64(cpu.cycle, 1);
  }

  /// `ld_e_d` (0x5A).
  method LdED(cpu: Cpu)
    modifies cpu`e, cpu`programCounter, cpu`cycle
    ensures old(cpu.Snapshot()).(e := cpu.e, programCounter := cpu.programCounter, cycle := cpu.cycle)
         == LoadRegister(old(cpu.Snapshot()), E, D)
  {
    cpu.e := cpu.d;
    cpu.programCounter := WrappingAdd16(cpu.programCounter, 1);
    cpu.cycle := WrappingAdd64(cpu.cycle, 1);
  }

  /// `ld_e_e` (0x5B).
  method LdEE(cpu: Cpu)
    modifies cpu`e, cpu`programCounter, cpu`cycle
    ensures old(cpu.Snapshot()).(e := cpu.e, programCounter := cpu.programCounter, cycle := cpu.cycle)
         == LoadRegister(old(cpu.Snapshot()), E, E)
  {
    cpu.e := cpu.e;
    cpu.programCounter := WrappingAdd16(cpu.programCounter, 1);
    cpu.cycle := WrappingAdd64(cpu.cycle, 1);
  }

  /// `ld_e_h` (0x5C).
  method LdEH(cpu: Cpu)
    modifies cpu`e, cpu`programCounter, cpu`cycle
    ensures old(cpu.Snapshot()).(e := cpu.e, programCounter := cpu.programCounter, cycle := cpu.cycle)
         == LoadRegister(old(cpu.Snapshot()), E, H)
  {
    cpu.e := cpu.h;
    cpu.programCounter := WrappingAdd16(cpu.programCounter, 1);
    cpu.cycle := WrappingAdd64(cpu.cycle, 1);
  }

  /// `ld_e_l` (0x5D).
  method LdEL(cpu: Cpu)
    modifies cpu`e, cpu`programCounter, cpu`cycle
    ensures old(cpu.Snapshot()).(e := cpu.e, programCounter := cpu.programCounter, cycle := cpu.cycle)
         == LoadRegister(old(cpu.Snapshot()), E, L)
  {
    cpu.e := cpu.l;
    cpu.programCounter := WrappingAdd16(cpu.programCounter, 1);
    cpu.cycle := WrappingAdd64(cpu.cycle, 1);
  }

  /// `ld_e_hl` (0x5E).
  method LdEHl(cpu: Cpu, memory: Memory)
    requires memory.Valid()
    modifies cpu`e, cpu`programCounter, cpu`cycle
    ensures Machine(old(cpu.Snapshot()).(e := cpu.e, programCounter := cpu.programCounter, cycle := cpu.cycle), memory.Contents())
         == LoadFromPair(old(MachineOf(cpu, memory)), E, HL)
  {
    var address := LsbMsbToU16(cpu.h, cpu.l);
    cpu.e := memory.ReadByteAt(address);
    cpu.programCounter := WrappingAdd16(cpu.programCounter, 1);
    cpu.cycle := WrappingAdd64(cpu.cycle, 2);
  }

  /// `ld_e_a` (0x5F).
  method LdEA(cpu: Cpu)
    modifies cpu`e, cpu`programCounter, cpu`cycle
    ensures old(cpu.Snapshot()).(e := cpu.e, programCounter := cpu.programCounter, cycle := cpu.cycle)
         == LoadRegister(old(cpu.Snapshot()), E, A)
  {
    cpu.e := cpu.a;
    cpu.programCounter := WrappingAdd16(cpu.programCounter, 1);
    cpu.cycle := WrappingAdd64(cpu.cycle, 1);
  }

  /// `ld_h_b` (0x60).
  method LdHB(cpu: Cpu)
    modifies cpu`h, cpu`programCounter, cpu`cycle
    ensures old(cpu.Snapshot()).(h := cpu.h, programCounter := cpu.programCounter, cycle := cpu.cycle)
         == LoadRegister(old(cpu.Snapshot()), H, B)
  {
    cpu.h := cpu.b;
    cpu.programCounter := WrappingAdd16(cpu.programCounter, 1);
    cpu.cycle := WrappingAdd64(cpu.cycle, 1);
  }

  /// `ld_h_c` (0x61).
  method LdHC(cpu: Cpu)
    modifies cpu`h, cpu`programCounter, cpu`cycle
    ensures old(cpu.Snapshot()).(h := cpu.h, programCounter := cpu.programCounter, cycle := cpu.cycle)
         == LoadRegister(old(cpu.Snapshot()), H, C)
  {
    cpu.h := cpu.c;
    cpu.programCounter := WrappingAdd16(cpu.programCounter, 1);
    cpu.cycle := WrappingAdd64(cpu.cycle, 1);
  }

  /// `ld_h_d` (0x62).
  method LdHD(cpu: Cpu)
    modifies cpu`h, cpu`programCounter, cpu`cycle
    ensures old(cpu.Snapshot()).(h := cpu.h, programCounter := cpu.programCounter, cycle := cpu.cycle)
         == LoadRegister(old(cpu.Snapshot()), H, D)
  {
    cpu.h := cpu.d;
    cpu.programCounter := WrappingAdd16(cpu.programCounter, 1);
    cpu.cycle := WrappingAdd64(cpu.cycle, 1);
  }

  /// `ld_h_e` (0x63).
  method LdHE(cpu: Cpu)
    modifies cpu`h, cpu`programCounter, cpu`cycle
    ensures old(cpu.Snapshot()).(h := cpu.h, programCounter := cpu.programCounter, cycle := cpu.cycle)
         == LoadRegister(old(cpu.Snapshot()), H, E)
  {
    cpu.h := cpu.e;
    cpu.programCounter := WrappingAdd16(cpu.programCounter, 1);
    cpu.cycle := WrappingAdd64(cpu.cycle, 1);
  }

  /// `ld_h_h` (0x64).
  method LdHH(cpu: Cpu)
    modifies cpu`h, cpu`programCounter, cpu`cycle
    ensures old(cpu.Snapshot()).(h := cpu.h, programCounter := cpu.programCounter, cycle := cpu.cycle)
         == LoadRegister(old(cpu.Snapshot()), H, H)
  {
    cpu.h := cpu.h;
    cpu.programCounter := WrappingAdd16(cpu.programCounter, 1);
    cpu.cycle := WrappingAdd64(cpu.cycle, 1);
  }

  /// `ld_h_l` (0x65).
  method LdHL(cpu: Cpu)
    modifies cpu`h, cpu`programCounter, cpu`cycle
    ensures old(cpu.Snapshot()).(h := cpu.h, programCounter := cpu.programCounter, cycle := cpu.cycle)
         == LoadRegister(old(cpu.Snapshot()), H, L)
  {
    cpu.h := cpu.l;
    cpu.programCounter := WrappingAdd16(cpu.programCounter, 1);
    cpu.cycle := WrappingAdd64(cpu.cycle, 1);
  }

  /// `ld_h_hl` (0x66).
  method LdHHl(cpu: Cpu, memory: Memory)
    requires memory.Valid()
    modifies cpu`h, cpu`programCounter, cpu`cycle
    ensures Machine(old(cpu.Snapshot()).(h := cpu.h, programCounter := cpu.programCounter, cycle := cpu.cycle), memory.Contents())
         == LoadFromPair(old(MachineOf(cpu, memory)), H, HL)
  {
    var address := LsbMsbToU16(cpu.h, cpu.l);
    cpu.h := memory.ReadByteAt(address);
    cpu.programCounter := WrappingAdd16(cpu.programCounter, 1);
    cpu.cycle := WrappingAdd64(cpu.cycle, 2);
  }

  /// `ld_h_a` (0x67).
  method LdHA(cpu: Cpu)
    modifies cpu`h, cpu`programCounter, cpu`cycle
    ensures old(cpu.Snapshot()).(h := cpu.h, programCounter := cpu.programCounter, cycle := cpu.cycle)
         == LoadRegister(old(cpu.Snapshot()), H, A)
  {
    cpu.h := cpu.a;
    cpu.programCounter := WrappingAdd16(cpu.programCounter, 1);
    cpu.cycle := WrappingAdd64(cpu.cycle, 1);
  }

  /// `ld_l_b` (0x68).
  method LdLB(cpu: Cpu)
    modifies cpu`l, cpu`programCounter, cpu`cycle
    ensures old(cpu.Snapshot()).(l := cpu.l, programCounter := cpu.programCounter, cycle := cpu.cycle)
         == LoadRegister(old(cpu.Snapshot()), L, B)
  {
    cpu.l := cpu.b;
    cpu.programCounter := WrappingAdd16(cpu.programCounter, 1);
    cpu.cycle := WrappingAdd64(cpu.cycle, 1);
  }

  /// `ld_l_c` (0x69).
  method LdLC(cpu: Cpu)
    modifies cpu`l, cpu`programCounter, cpu`cycle
    ensures old(cpu.Snapshot()).(l := cpu.l, programCounter := cpu.programCounter, cycle := cpu.cycle)
         == LoadRegister(old(cpu.Snapshot()), L, C)
  {
    cpu.l := cpu.c;
    cpu.programCounter := WrappingAdd16(cpu.programCounter, 1);
    cpu.cycle := WrappingAdd64(cpu.cycle, 1);
  }

  /// `ld_l_d` (0x6A).
  method LdLD(cpu: Cpu)
    modifies cpu`l, cpu`programCounter, cpu`cycle
    ensures old(cpu.Snapshot()).(l := cpu.l, programCounter := cpu.programCounter, cycle := cpu.cycle)
         == LoadRegister(old(cpu.Snapshot()), L, D)
  {
    cpu.l := cpu.d;
    cpu.programCounter := WrappingAdd16(cpu.programCounter, 1);
    cpu.cycle := WrappingAdd64(cpu.cycle, 1);
  }

  /// `ld_l_e` (0x6B).
  method LdLE(cpu: Cpu)
    modifies cpu`l, cpu`programCounter, cpu`cycle
    ensures old(cpu.Snapshot()).(l := cpu.l, programCounter := cpu.programCounter, cycle := cpu.cycle)
         == LoadRegister(old(cpu.Snapshot()), L, E)
  {
    cpu.l := cpu.e;
    cpu.programCounter := WrappingAdd16(cpu.programCounter, 1);
    cpu.cycle := WrappingAdd64(cpu.cycle, 1);
  }

  /// `ld_l_h` (0x6C).
  method LdLH(cpu: Cpu)
    modifies cpu`l, cpu`programCounter, cpu`cycle
    ensures old(cpu.Snapshot()).(l := cpu.l, programCounter := cpu.programCounter, cycle := cpu.cycle)
         == LoadRegister(old(cpu.Snapshot()), L, H)
  {
    cpu.l := cpu.h;
    cpu.programCounter := WrappingAdd16(cpu.programCounter, 1);
    cpu.cycle := WrappingAdd64(cpu.cycle, 1);
  }

  /// `ld_l_l` (0x6D).
  method LdLL(cpu: Cpu)
    modifies cpu`l, cpu`programCounter, cpu`cycle
    ensures old(cpu.Snapshot()).(l := cpu.l, programCounter := cpu.programCounter, cycle := cpu.cycle)
         == LoadRegister(old(cpu.Snapshot()), L, L)
  {
    cpu.l := cpu.l;
    cpu.programCounter := WrappingAdd16(cpu.programCounter, 1);
    cpu.cycle := WrappingAdd64(cpu.cycle, 1);
  }

  /// `ld_l_hl` (0x6E).
  method LdLHl(cpu: Cpu, memory: Memory)
    requires memory.Valid()
    modifies cpu`l, cpu`programCounter, cpu`cycle
    ensures Machine(old(cpu.Snapshot()).(l := cpu.l, programCounter := cpu.programCounter, cycle := cpu.cycle), memory.Contents())
         == LoadFromPair(old(MachineOf(cpu, memory)), L, HL)
  {
    var address := LsbMsbToU16(cpu.h, cpu.l);
    cpu.l := memory.ReadByteAt(address);
    cpu.programCounter := WrappingAdd16(cpu.programCounter, 1);
    cpu.cycle := WrappingAdd64(cpu.cycle, 2);
  }

  /// `ld_l_a` (0x6F).
  method LdLA(cpu: Cpu)
    modifies cpu`l, cpu`programCounter, cpu`cycle
    ensures old(cpu.Snapshot()).(l := cpu.l, programCounter := cpu.programCounter, cycle := cpu.cycle)
         == LoadRegister(old(cpu.Snapshot()), L, A)
  {
    cpu.l := cpu.a;
    cpu.programCounter := WrappingAdd16(cpu.programCounter, 1);
    cpu.cycle := WrappingAdd64(cpu.cycle, 1);
  }

  /// `ld_hl_b` (0x70).
  method LdHlB(cpu: Cpu, memory: Memory)
    requires memory.Valid()
    modifies cpu`programCounter, cpu`cycle, memory.bytes
    ensures Machine(old(cpu.Snapshot()).(programCounter := cpu.programCounter, cycle := cpu.cycle), memory.Contents())
         == StoreToPair(old(MachineOf(cpu, memory)), HL, B)
  {
    var address := LsbMsbToU16(cpu.h, cpu.l);
    memory.WriteByteAt(address, cpu.b);
    cpu.programCounter := WrappingAdd16(cpu.programCounter, 1);
    cpu.cycle := WrappingAdd64(cpu.cycle, 2);
  }

  /// `ld_hl_c` (0x71).
  method LdHlC(cpu: Cpu, memory: Memory)
    requires memory.Valid()
    modifies cpu`programCounter, cpu`cycle, memory.bytes
    ensures Machine(old(cpu.Snapshot()).(programCounter := cpu.programCounter, cycle := cpu.cycle), memory.Contents())
         == StoreToPair(old(MachineOf(cpu, memory)), HL, C)
  {
    var address := LsbMsbToU16(cpu.h, cpu.l);
    memory.WriteByteAt(address, cpu.c);
    cpu.programCounter := WrappingAdd16(cpu.programCounter, 1);
    cpu.cycle := WrappingAdd64(cpu.cycle, 2);
  }

  /// `ld_hl_d` (0x72).
  method LdHlD(cpu: Cpu, memory: Memory)
    requires memory.Valid()
    modifies cpu`programCounter, cpu`cycle, memory.bytes
    ensures Machine(old(cpu.Snapshot()).(programCounter := cpu.programCounter, cycle := cpu.cycle), memory.Contents())
         == StoreToPair(old(MachineOf(cpu, memory)), HL, D)
  {
    var address := LsbMsbToU16(cpu.h, cpu.l);
    memory.WriteByteAt(address, cpu.d);
    cpu.programCounter := WrappingAdd16(cpu.programCounter, 1);
    cpu.cycle := WrappingAdd64(cpu.cycle, 2);
  }

  /// `ld_hl_e` (0x73).
  method LdHlE(cpu: Cpu, memory: Memory)
    requires memory.Valid()
    modifies cpu`programCounter, cpu`cycle, memory.bytes
    ensures Machine(old(cpu.Snapshot()).(programCounter := cpu.programCounter, cycle := cpu.cycle), memory.Contents())
         == StoreToPair(old(MachineOf(cpu, memory)), HL, E)
  {
    var address := LsbMsbToU16(cpu.h, cpu.l);
    memory.WriteByteAt(address, cpu.e);
    cpu.programCounter := WrappingAdd16(cpu.programCounter, 1);
    cpu.cycle := WrappingAdd64(cpu.cycle, 2);
  }

  /// `ld_hl_h` (0x74).
  method LdHlH(cpu: Cpu, memory: Memory)
    requires memory.Valid()
    modifies cpu`programCounter, cpu`cycle, memory.bytes
    ensures Machine(old(cpu.Snapshot()).(programCounter := cpu.programCounter, cycle := cpu.cycle), memory.Contents())
         == StoreToPair(old(MachineOf(cpu, memory)), HL, H)
  {
    var address := LsbMsbToU16(cpu.h, cpu.l);
    memory.WriteByteAt(address, cpu.h);
    cpu.programCounter := WrappingAdd16(cpu.programCounter, 1);
    cpu.cycle := WrappingAdd64(cpu.cycle, 2);
  }

  /// `ld_hl_l` (0x75).
  method LdHlL(cpu: Cpu, memory: Memory)
    requires memory.Valid()
    modifies cpu`programCounter, cpu`cycle, memory.bytes
    ensures Machine(old(cpu.Snapshot()).(programCounter := cpu.programCounter, cycle := cpu.cycle), memory.Contents())
         == StoreToPair(old(MachineOf(cpu, memory)), HL, L)
  {
    var address := LsbMsbToU16(cpu.h, cpu.l);
    memory.WriteByteAt(address, cpu.l);
    cpu.programCounter := WrappingAdd16(cpu.programCounter, 1);
    cpu.cycle := WrappingAdd64(cpu.cycle, 2);
  }

  /// `halt` (0x76).
  method Halt(cpu: Cpu)
    modifies cpu`programCounter, cpu`cycle, cpu`state
    ensures old(cpu.Snapshot()).(programCounter := cpu.programCounter, cycle := cpu.cycle, state := cpu.state)
         == EnterHalt(old(cpu.Snapshot()))
  {
    cpu.state := Some(CpuState.Halt);
    cpu.programCounter := WrappingAdd16(cpu.programCounter, 1);
    cpu.cycle := WrappingAdd64(cpu.cycle, 1);
  }

  /// `ld_hl_a` (0x77).
  method LdHlA(cpu: Cpu, memory: Memory)
    requires memory.Valid()
    modifies cpu`programCounter, cpu`cycle, memory.bytes
    ensures Machine(old(cpu.Snapshot()).(programCounter := cpu.programCounter, cycle := cpu.cycle), memory.Contents())
         == StoreToPair(old(MachineOf(cpu, memory)), HL, A)
  {
    var address := LsbMsbToU16(cpu.h, cpu.l);
    memory.WriteByteAt(address, cpu.a);
    cpu.programCounter := WrappingAdd16(cpu.programCounter, 1);
    cpu.cycle := WrappingAdd64(cpu.cycle, 2);
  }

  /// `ld_a_b` (0x78).
  method LdAB(cpu: Cpu)
    modifies cpu`a, cpu`programCounter, cpu`cycle
    ensures old(cpu.Snapshot()).(a := cpu.a, programCounter := cpu.programCounter, cycle := cpu.cycle)
         == LoadRegister(old(cpu.Snapshot()), A, B)
  {
    cpu.a := cpu.b;
    cpu.programCounter := WrappingAdd16(cpu.programCounter, 1);
    cpu.cycle := WrappingAdd64(cpu.cycle, 1);
  }

  /// `ld_a_c` (0x79).
  method LdAC(cpu: Cpu)
    modifies cpu`a, cpu`programCounter, cpu`cycle
    ensures old(cpu.Snapshot()).(a := cpu.a, programCounter := cpu.programCounter, cycle := cpu.cycle)
         == LoadRegister(old(cpu.Snapshot()), A, C)
  {
    cpu.a := cpu.c;
    cpu.programCounter := WrappingAdd16(cpu.programCounter, 1);
    cpu.cycle := WrappingAdd64(cpu.cycle, 1);
  }

  /// `ld_a_d` (0x7A).
  method LdAD(cpu: Cpu)
    modifies cpu`a, cpu`programCounter, cpu`cycle
    ensures old(cpu.Snapshot()).(a := cpu.a, programCounter := cpu.programCounter, cycle := cpu.cycle)
         == LoadRegister(old(cpu.Snapshot()), A, D)
  {
    cpu.a := cpu.d;
    cpu.programCounter := WrappingAdd16(cpu.programCounter, 1);
    cpu.cycle := WrappingAdd64(cpu.cycle, 1);
  }

  /// `ld_a_e` (0x7B).
  method LdAE(cpu: Cpu)
    modifies cpu`a, cpu`programCounter, cpu`cycle
    ensures old(cpu.Snapshot()).(a := cpu.a, programCounter := cpu.programCounter, cycle := cpu.cycle)
         == LoadRegister(old(cpu.Snapshot()), A, E)
  {
    cpu.a := cpu.e;
    cpu.programCounter := WrappingAdd16(cpu.programCounter, 1);
    cpu.cycle := WrappingAdd64(cpu.cycle, 1);
  }

  /// `ld_a_h` (0x7C).
  method LdAH(cpu: Cpu)
    modifies cpu`a, cpu`programCounter, cpu`cycle
    ensures old(cpu.Snapshot()).(a := cpu.a, programCounter := cpu.programCounter, cycle := cpu.cycle)
         == LoadRegister(old(cpu.Snapshot()), A, H)
  {
    cpu.a := cpu.h;
    cpu.programCounter := WrappingAdd16(cpu.programCounter, 1);
    cpu.cycle := WrappingAdd64(cpu.cycle, 1);
  }

  /// `ld_a_l` (0x7D).
  method LdAL(cpu: Cpu)
    modifies cpu`a, cpu`programCounter, cpu`cycle
    ensures old(cpu.Snapshot()).(a := cpu.a, programCounter := cpu.programCounter, cycle := cpu.cycle)
         == LoadRegister(old(cpu.Snapshot()), A, L)
  {
    cpu.a := cpu.l;
    cpu.programCounter := WrappingAdd16(cpu.programCounter, 1);
    cpu.cycle := WrappingAdd64(cpu.cycle, 1);
  }

  /// `ld_a_hl` (0x7E).
  method LdAHl(cpu: Cpu, memory: Memory)
    requires memory.Valid()
    modifies cpu`a, cpu`programCounter, cpu`cycle
    ensures Machine(old(cpu.Snapshot()).(a := cpu.a, programCounter := cpu.programCounter, cycle := cpu.cycle), memory.Contents())
         == LoadFromPair(old(MachineOf(cpu, memory)), A, HL)
  {
    var address := LsbMsbToU16(cpu.h, cpu.l);
    cpu.a := memory.ReadByteAt(address);
    cpu.programCounter := WrappingAdd16(cpu.programCounter, 1);
    cpu.cycle := WrappingAdd64(cpu.cycle, 2);
  }

  /// `ld_a_a` (0x7F).
  method LdAA(cpu: Cpu)
    modifies cpu`a, cpu`programCounter, cpu`cycle
    ensures old(cpu.Snapshot()).(a := cpu.a, programCounter := cpu.programCounter, cycle := cpu.cycle)
         == LoadRegister(old(cpu.Snapshot()), A, A)
  {
    cpu.a := cpu.a;
    cpu.programCounter := WrappingAdd16(cpu.programCounter, 1);
    cpu.cycle := WrappingAdd64(cpu.cycle, 1);
  }
}
