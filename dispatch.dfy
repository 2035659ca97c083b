/// `process_opcode` of src/cpu/cpu.rs: read the opcode at the program
/// counter and take its arm of the table: call the instruction handler,
/// move past an unimplemented instruction, do nothing for the two-byte
/// prefix, or panic. Each handler is proved against its function in module
/// Semantics (see the Opcodes modules); the dispatch is proved against the
/// table `DispatchTable.ArmOf`. The table is split into its sixteen rows,
/// and each row into two blocks of eight opcodes, to keep each proof small.
///
/// A panic of the source (an unknown opcode) is a returned `panicked` flag. The `error!` logging is left out.
module Dispatch {
  import opened Wrappers
  import opened Bits
  import opened Memory
  import opened RegisterFile
  import opened Cpu
  import opened Semantics
  import opened DispatchTable
  import Opcodes00
  import Opcodes40
  import Opcodes80
  import OpcodesC0

  /// What dispatching an opcode does, given the arm the table names for it:
  /// the default arm panics (which ends the emulator, so the machine left
  /// behind is not specified), the prefix changes nothing, an unimplemented
  /// arm moves only the program counter and the cycle counter, and a handler
  /// arm does what its handler's contract says.
  predicate Dispatched(before: Machine, after: Machine, arm: Option<Arm>, panicked: bool) {
    match arm
    case None => panicked
    case Some(TwoByteOpcodePrefix) => !panicked && after == before
    case Some(Unimplemented(length, cost)) =>
      !panicked && after == Machine(Advance(before.regs, length, cost), before.mem)
    case Some(Handler) => !panicked
  }

  /// `read_opcode`: the byte at the program counter; the counter does not move.
  function ReadOpcode(cpu: Cpu, memory: Memory): (opcode: u8)
    reads cpu, memory.bytes
    requires memory.Valid()
    ensures opcode == ByteAt(memory.Contents(), cpu.programCounter)
  {
    memory.ReadByteAt(cpu.programCounter)
  }

  /// `process_16_bit_opcode`: it only logs that the two-byte opcodes are not
  /// implemented, so it changes nothing.
  method Process16BitOpcode(cpu: Cpu, memory: Memory)
    ensures unchanged(cpu, memory, memory.bytes)
  {
  }

  /// `tick`: one dispatch.
  method Tick(cpu: Cpu, memory: Memory) returns (panicked: bool)
    requires memory.Valid()
    modifies cpu, memory.bytes
    ensures Dispatched(old(MachineOf(cpu, memory)), MachineOf(cpu, memory),
                       ArmOf(old(ByteAt(memory.Contents(), cpu.programCounter))), panicked)
  {
    panicked := ProcessOpcode(cpu, memory);
  }

  /// `process_opcode`.
  method ProcessOpcode(cpu: Cpu, memory: Memory) returns (panicked: bool)
    requires memory.Valid()
    modifies cpu, memory.bytes
    ensures Dispatched(old(MachineOf(cpu, memory)), MachineOf(cpu, memory),
                       ArmOf(old(ByteAt(memory.Contents(), cpu.programCounter))), panicked)
  {
    var opcode := ReadOpcode(cpu, memory);
    match opcode / 0x10
    case 0x0 => panicked := ProcessRow0(cpu, memory, opcode);
    case 0x1 => panicked := ProcessRow1(cpu, memory, opcode);
    case 0x2 => panicked := ProcessRow2(cpu, memory, opcode);
    case 0x3 => panicked := ProcessRow3(cpu, memory, opcode);
    case 0x4 => panicked := ProcessRow4(cpu, memory, opcode);
    case 0x5 => panicked := ProcessRow5(cpu, memory, opcode);
    case 0x6 => panicked := ProcessRow6(cpu, memory, opcode);
    case 0x7 => panicked := ProcessRow7(cpu, memory, opcode);
    case 0x8 => panicked := ProcessRow8(cpu, memory, opcode);
    case 0x9 => panicked := ProcessRow9(cpu, memory, opcode);
    case 0xA => panicked := ProcessRowA(cpu, memory, opcode);
    case 0xB => panicked := ProcessRowB(cpu, memory, opcode);
    case 0xC => panicked := ProcessRowC(cpu, memory, opcode);
    case 0xD => panicked := ProcessRowD(cpu, memory, opcode);
    case 0xE => panicked := ProcessRowE(cpu, memory, opcode);
    case _ => panicked := ProcessRowF(cpu, memory, opcode);  // 0xF
  }

  /// Opcodes 0x00 to 0x0F of the dispatch table.
  method ProcessRow0(cpu: Cpu, memory: Memory, opcode: u8) returns (panicked: bool)
    requires memory.Valid()
    requires opcode / 0x10 == 0x0
    modifies cpu, memory.bytes
    ensures Dispatched(old(MachineOf(cpu, memory)), MachineOf(cpu, memory), Row0(opcode), panicked)
  {
    if opcode < 0x08 {
      panicked := ProcessBlock00(cpu, memory, opcode);
    } else {
      panicked := ProcessBlock08(cpu, memory, opcode);
    }
  }

  /// Opcodes 0x10 to 0x1F of the dispatch table.
  method ProcessRow1(cpu: Cpu, memory: Memory, opcode: u8) returns (panicked: bool)
    requires memory.Valid()
    requires opcode / 0x10 == 0x1
    modifies cpu, memory.bytes
    ensures Dispatched(old(MachineOf(cpu, memory)), MachineOf(cpu, memory), Row1(opcode), panicked)
  {
    if opcode < 0x18 {
      panicked := ProcessBlock10(cpu, memory, opcode);
    } else {
      panicked := ProcessBlock18(cpu, memory, opcode);
    }
  }

  /// Opcodes 0x20 to 0x2F of the dispatch table.
  method ProcessRow2(cpu: Cpu, memory: Memory, opcode: u8) returns (panicked: bool)
    requires memory.Valid()
    requires opcode / 0x10 == 0x2
    modifies cpu, memory.bytes
    ensures Dispatched(old(MachineOf(cpu, memory)), MachineOf(cpu, memory), Row2(opcode), panicked)
  {
    if opcode < 0x28 {
      panicked := ProcessBlock20(cpu, memory, opcode);
    } else {
      panicked := ProcessBlock28(cpu, memory, opcode);
    }
  }

  /// Opcodes 0x30 to 0x3F of the dispatch table.
  method ProcessRow3(cpu: Cpu, memory: Memory, opcode: u8) returns (panicked: bool)
    requires memory.Valid()
    requires opcode / 0x10 == 0x3
    modifies cpu, memory.bytes
    ensures Dispatched(old(MachineOf(cpu, memory)), MachineOf(cpu, memory), Row3(opcode), panicked)
  {
    if opcode < 0x38 {
      panicked := ProcessBlock30(cpu, memory, opcode);
    } else {
      panicked := ProcessBlock38(cpu, memory, opcode);
    }
  }

  /// Opcodes 0x40 to 0x4F of the dispatch table.
  method ProcessRow4(cpu: Cpu, memory: Memory, opcode: u8) returns (panicked: bool)
    requires memory.Valid()
    requires opcode / 0x10 == 0x4
    modifies cpu, memory.bytes
    ensures Dispatched(old(MachineOf(cpu, memory)), MachineOf(cpu, memory), Row4(opcode), panicked)
  {
    if opcode < 0x48 {
      panicked := ProcessBlock40(cpu, memory, opcode);
    } else {
      panicked := ProcessBlock48(cpu, memory, opcode);
    }
  }

  /// Opcodes 0x50 to 0x5F of the dispatch table.
  method ProcessRow5(cpu: Cpu, memory: Memory, opcode: u8) returns (panicked: bool)
    requires memory.Valid()
    requires opcode / 0x10 == 0x5
    modifies cpu, memory.bytes
    ensures Dispatched(old(MachineOf(cpu, memory)), MachineOf(cpu, memory), Row5(opcode), panicked)
  {
    if opcode < 0x58 {
      panicked := ProcessBlock50(cpu, memory, opcode);
    } else {
      panicked := ProcessBlock58(cpu, memory, opcode);
    }
  }

  /// Opcodes 0x60 to 0x6F of the dispatch table.
  method ProcessRow6(cpu: Cpu, memory: Memory, opcode: u8) returns (panicked: bool)
    requires memory.Valid()
    requires opcode / 0x10 == 0x6
    modifies cpu, memory.bytes
    ensures Dispatched(old(MachineOf(cpu, memory)), MachineOf(cpu, memory), Row6(opcode), panicked)
  {
    if opcode < 0x68 {
      panicked := ProcessBlock60(cpu, memory, opcode);
    } else {
      panicked := ProcessBlock68(cpu, memory, opcode);
    }
  }

  /// Opcodes 0x70 to 0x7F of the dispatch table.
  method ProcessRow7(cpu: Cpu, memory: Memory, opcode: u8) returns (panicked: bool)
    requires memory.Valid()
    requires opcode / 0x10 == 0x7
    modifies cpu, memory.bytes
    ensures Dispatched(old(MachineOf(cpu, memory)), MachineOf(cpu, memory), Row7(opcode), panicked)
  {
    if opcode < 0x78 {
      panicked := ProcessBlock70(cpu, memory, opcode);
    } else {
      panicked := ProcessBlock78(cpu, memory, opcode);
    }
  }

  /// Opcodes 0x80 to 0x8F of the dispatch table.
  method ProcessRow8(cpu: Cpu, memory: Memory, opcode: u8) returns (panicked: bool)
    requires memory.Valid()
    requires opcode / 0x10 == 0x8
    modifies cpu, memory.bytes
    ensures Dispatched(old(MachineOf(cpu, memory)), MachineOf(cpu, memory), Row8(opcode), panicked)
  {
    if opcode < 0x88 {
      panicked := ProcessBlock80(cpu, memory, opcode);
    } else {
      panicked := ProcessBlock88(cpu, memory, opcode);
    }
  }

  /// Opcodes 0x90 to 0x9F of the dispatch table.
  method ProcessRow9(cpu: Cpu, memory: Memory, opcode: u8) returns (panicked: bool)
    requires memory.Valid()
    requires opcode / 0x10 == 0x9
    modifies cpu, memory.bytes
    ensures Dispatched(old(MachineOf(cpu, memory)), MachineOf(cpu, memory), Row9(opcode), panicked)
  {
    if opcode < 0x98 {
      panicked := ProcessBlock90(cpu, memory, opcode);
    } else {
      panicked := ProcessBlock98(cpu, memory, opcode);
    }
  }

  /// Opcodes 0xA0 to 0xAF of the dispatch table.
  method ProcessRowA(cpu: Cpu, memory: Memory, opcode: u8) returns (panicked: bool)
    requires memory.Valid()
    requires opcode / 0x10 == 0xA
    modifies cpu, memory.bytes
    ensures Dispatched(old(MachineOf(cpu, memory)), MachineOf(cpu, memory), RowA(opcode), panicked)
  {
    if opcode < 0xA8 {
      panicked := ProcessBlockA0(cpu, memory, opcode);
    } else {
      panicked := ProcessBlockA8(cpu, memory, opcode);
    }
  }

  /// Opcodes 0xB0 to 0xBF of the dispatch table.
  method ProcessRowB(cpu: Cpu, memory: Memory, opcode: u8) returns (panicked: bool)
    requires memory.Valid()
    requires opcode / 0x10 == 0xB
    modifies cpu, memory.bytes
    ensures Dispatched(old(MachineOf(cpu, memory)), MachineOf(cpu, memory), RowB(opcode), panicked)
  {
    if opcode < 0xB8 {
      panicked := ProcessBlockB0(cpu, memory, opcode);
    } else {
      panicked := ProcessBlockB8(cpu, memory, opcode);
    }
  }

  /// Opcodes 0xC0 to 0xCF of the dispatch table.
  method ProcessRowC(cpu: Cpu, memory: Memory, opcode: u8) returns (panicked: bool)
    requires memory.Valid()
    requires opcode / 0x10 == 0xC
    modifies cpu, memory.bytes
    ensures Dispatched(old(MachineOf(cpu, memory)), MachineOf(cpu, memory), RowC(opcode), panicked)
  {
    if opcode < 0xC8 {
      panicked := ProcessBlockC0(cpu, memory, opcode);
    } else {
      panicked := ProcessBlockC8(cpu, memory, opcode);
    }
  }

  /// Opcodes 0xD0 to 0xDF of the dispatch table.
  method ProcessRowD(cpu: Cpu, memory: Memory, opcode: u8) returns (panicked: bool)
    requires memory.Valid()
    requires opcode / 0x10 == 0xD
    modifies cpu, memory.bytes
    ensures Dispatched(old(MachineOf(cpu, memory)), MachineOf(cpu, memory), RowD(opcode), panicked)
  {
    if opcode < 0xD8 {
      panicked := ProcessBlockD0(cpu, memory, opcode);
    } else {
      panicked := ProcessBlockD8(cpu, memory, opcode);
    }
  }

  /// Opcodes 0xE0 to 0xEF of the dispatch table.
  method ProcessRowE(cpu: Cpu, memory: Memory, opcode: u8) returns (panicked: bool)
    requires memory.Valid()
    requires opcode / 0x10 == 0xE
    modifies cpu, memory.bytes
    ensures Dispatched(old(MachineOf(cpu, memory)), MachineOf(cpu, memory), RowE(opcode), panicked)
  {
    if opcode < 0xE8 {
      panicked := ProcessBlockE0(cpu, memory, opcode);
    } else {
      panicked := ProcessBlockE8(cpu, memory, opcode);
    }
  }

  /// Opcodes 0xF0 to 0xFF of the dispatch table.
  method ProcessRowF(cpu: Cpu, memory: Memory, opcode: u8) returns (panicked: bool)
    requires memory.Valid()
    requires opcode / 0x10 == 0xF
    modifies cpu, memory.bytes
    ensures Dispatched(old(MachineOf(cpu, memory)), MachineOf(cpu, memory), RowF(opcode), panicked)
  {
    if opcode < 0xF8 {
      panicked := ProcessBlockF0(cpu, memory, opcode);
    } else {
      panicked := ProcessBlockF8(cpu, memory, opcode);
    }
  }

  /// Opcodes 0x00 to 0x07 of the dispatch table.
  method ProcessBlock00(cpu: Cpu, memory: Memory, opcode: u8) returns (panicked: bool)
    requires memory.Valid()
    requires 0x00 <= opcode <= 0x07
    modifies cpu, memory.bytes
    ensures Dispatched(old(MachineOf(cpu, memory)), MachineOf(cpu, memory), Row0(opcode), panicked)
  {
    panicked := false;
    match opcode
    case 0x00 =>
      Opcodes00.Nop(cpu);
    case 0x01 =>
      Opcodes00.LdBcD16(cpu, memory);
    case 0x02 =>
      Opcodes00.LdBcA(cpu, memory);
    case 0x03 =>
      Opcodes00.IncBc(cpu);
    case 0x04 =>
      Opcodes00.IncB(cpu);
    case 0x05 =>
      Opcodes00.DecB(cpu);
    case 0x06 =>
      Opcodes00.LdBD8(cpu, memory);
    case _ =>  // 0x07
      Opcodes00.Rlca(cpu);
  }

  /// Opcodes 0x08 to 0x0F of the dispatch table.
  method ProcessBlock08(cpu: Cpu, memory: Memory, opcode: u8) returns (panicked: bool)
    requires memory.Valid()
    requires 0x08 <= opcode <= 0x0F
    modifies cpu, memory.bytes
    ensures Dispatched(old(MachineOf(cpu, memory)), MachineOf(cpu, memory), Row0(opcode), panicked)
  {
    panicked := false;
    match opcode
    case 0x08 =>
      Opcodes00.LdA16Sp(cpu, memory);
    case 0x09 =>
      Opcodes00.AddHlBc(cpu);
    case 0x0A =>
      Opcodes00.LdABc(cpu, memory);
    case 0x0B =>
      Opcodes00.DecBc(cpu);
    case 0x0C =>
      Opcodes00.IncC(cpu);
    case 0x0D =>
      Opcodes00.DecC(cpu);
    case 0x0E =>
      Opcodes00.LdCD8(cpu, memory);
    case _ =>  // 0x0F
      Opcodes00.Rrca(cpu);
  }

  /// Opcodes 0x10 to 0x17 of the dispatch table.
  method ProcessBlock10(cpu: Cpu, memory: Memory, opcode: u8) returns (panicked: bool)
    requires memory.Valid()
    requires 0x10 <= opcode <= 0x17
    modifies cpu, memory.bytes
    ensures Dispatched(old(MachineOf(cpu, memory)), MachineOf(cpu, memory), Row1(opcode), panicked)
  {
    panicked := false;
    match opcode
    case 0x10 =>
      Opcodes00.Stop(cpu, memory);
    case 0x11 =>
      Opcodes00.LdDeD16(cpu, memory);
    case 0x12 =>
      Opcodes00.LdDeA(cpu, memory);
    case 0x13 =>
      Opcodes00.IncDe(cpu);
    case 0x14 =>
      Opcodes00.IncD(cpu);
    case 0x15 =>
      Opcodes00.DecD(cpu);
    case 0x16 =>
      Opcodes00.LdDD8(cpu, memory);
    case _ =>  // 0x17
      Opcodes00.Rla(cpu);
  }

  /// Opcodes 0x18 to 0x1F of the dispatch table.
  method ProcessBlock18(cpu: Cpu, memory: Memory, opcode: u8) returns (panicked: bool)
    requires memory.Valid()
    requires 0x18 <= opcode <= 0x1F
    modifies cpu, memory.bytes
    ensures Dispatched(old(MachineOf(cpu, memory)), MachineOf(cpu, memory), Row1(opcode), panicked)
  {
    panicked := false;
    match opcode
    case 0x18 =>
      Opcodes00.JrS8(cpu, memory);
    case 0x19 =>
      Opcodes00.AddHlDe(cpu);
    case 0x1A =>
      Opcodes00.LdADe(cpu, memory);
    case 0x1B =>
      Opcodes00.DecDe(cpu);
    case 0x1C =>
      Opcodes00.IncE(cpu);
    case 0x1D =>
      Opcodes00.DecE(cpu);
    case 0x1E =>
      Opcodes00.LdED8(cpu, memory);
    case _ =>  // 0x1F
      Opcodes00.Rra(cpu);
  }

  /// Opcodes 0x20 to 0x27 of the dispatch table.
  method ProcessBlock20(cpu: Cpu, memory: Memory, opcode: u8) returns (panicked: bool)
    requires memory.Valid()
    requires 0x20 <= opcode <= 0x27
    modifies cpu, memory.bytes
    ensures Dispatched(old(MachineOf(cpu, memory)), MachineOf(cpu, memory), Row2(opcode), panicked)
  {
    panicked := false;
    match opcode
    case 0x20 =>
      Opcodes00.JrNzS8(cpu, memory);
    case 0x21 =>
      Opcodes00.LdHlD16(cpu, memory);
    case 0x22 =>
      Opcodes00.LdHlIncA(cpu, memory);
    case 0x23 =>
      Opcodes00.IncHl(cpu);
    case 0x24 =>
      Opcodes00.IncH(cpu);
    case 0x25 =>
      Opcodes00.DecH(cpu);
    case 0x26 =>
      Opcodes00.LdHD8(cpu, memory);
    case _ =>  // 0x27
      // DAA: not implemented; only the program counter and the cycle move.
      cpu.programCounter := WrappingAdd16(cpu.programCounter, 1);
      cpu.cycle := WrappingAdd64(cpu.cycle, 1);
  }

  /// Opcodes 0x28 to 0x2F of the dispatch table.
  method ProcessBlock28(cpu: Cpu, memory: Memory, opcode: u8) returns (panicked: bool)
    requires memory.Valid()
    requires 0x28 <= opcode <= 0x2F
    modifies cpu, memory.bytes
    ensures Dispatched(old(MachineOf(cpu, memory)), MachineOf(cpu, memory), Row2(opcode), panicked)
  {
    panicked := false;
    match opcode
    case 0x28 =>
      Opcodes00.JrZS8(cpu, memory);
    case 0x29 =>
      Opcodes00.AddHlHl(cpu);
    case 0x2A =>
      Opcodes00.LdAHlInc(cpu, memory);
    case 0x2B =>
      Opcodes00.DecHl(cpu);
    case 0x2C =>
      Opcodes00.IncL(cpu);
    case 0x2D =>
      Opcodes00.DecL(cpu);
    case 0x2E =>
      Opcodes00.LdLD8(cpu, memory);
    case _ =>  // 0x2F
      Opcodes00.Cpl(cpu);
  }

  /// Opcodes 0x30 to 0x37 of the dispatch table.
  method ProcessBlock30(cpu: Cpu, memory: Memory, opcode: u8) returns (panicked: bool)
    requires memory.Valid()
    requires 0x30 <= opcode <= 0x37
    modifies cpu, memory.bytes
    ensures Dispatched(old(MachineOf(cpu, memory)), MachineOf(cpu, memory), Row3(opcode), panicked)
  {
    panicked := false;
    match opcode
    case 0x30 =>
      Opcodes00.JrNcS8(cpu, memory);
    case 0x31 =>
      Opcodes00.LdSpD16(cpu, memory);
    case 0x32 =>
      Opcodes00.LdHlDecA(cpu, memory);
    case 0x33 =>
      Opcodes00.IncSp(cpu);
    case 0x34 =>
      Opcodes00.IncHlAddress(cpu, memory);
    case 0x35 =>
      Opcodes00.DecHlAddress(cpu, memory);
    case 0x36 =>
      Opcodes00.LdHlD8(cpu, memory);
    case _ =>  // 0x37
      Opcodes00.Scf(cpu);
  }

  /// Opcodes 0x38 to 0x3F of the dispatch table.
  method ProcessBlock38(cpu: Cpu, memory: Memory, opcode: u8) returns (panicked: bool)
    requires memory.Valid()
    requires 0x38 <= opcode <= 0x3F
    modifies cpu, memory.bytes
    ensures Dispatched(old(MachineOf(cpu, memory)), MachineOf(cpu, memory), Row3(opcode), panicked)
  {
    panicked := false;
    match opcode
    case 0x38 =>
      Opcodes00.JrCS8(cpu, memory);
    case 0x39 =>
      Opcodes00.AddHlSp(cpu);
    case 0x3A =>
      Opcodes00.LdAHlDec(cpu, memory);
    case 0x3B =>
      Opcodes00.DecSp(cpu);
    case 0x3C =>
      Opcodes00.IncA(cpu);
    case 0x3D =>
      Opcodes00.DecA(cpu);
    case 0x3E =>
      Opcodes00.LdAD8(cpu, memory);
    case _ =>  // 0x3F
      Opcodes00.Ccf(cpu);
  }

  /// Opcodes 0x40 to 0x47 of the dispatch table.
  method ProcessBlock40(cpu: Cpu, memory: Memory, opcode: u8) returns (panicked: bool)
    requires memory.Valid()
    requires 0x40 <= opcode <= 0x47
    modifies cpu, memory.bytes
    ensures Dispatched(old(MachineOf(cpu, memory)), MachineOf(cpu, memory), Row4(opcode), panicked)
  {
    panicked := false;
    match opcode
    case 0x40 =>
      Opcodes40.LdBB(cpu);
    case 0x41 =>
      Opcodes40.LdBC(cpu);
    case 0x42 =>
      Opcodes40.LdBD(cpu);
    case 0x43 =>
      Opcodes40.LdBE(cpu);
    case 0x44 =>
      Opcodes40.LdBH(cpu);
    case 0x45 =>
      Opcodes40.LdBL(cpu);
    case 0x46 =>
      Opcodes40.LdBHl(cpu, memory);
    case _ =>  // 0x47
      Opcodes40.LdBA(cpu);
  }

  /// Opcodes 0x48 to 0x4F of the dispatch table.
  method ProcessBlock48(cpu: Cpu, memory: Memory, opcode: u8) returns (panicked: bool)
    requires memory.Valid()
    requires 0x48 <= opcode <= 0x4F
    modifies cpu, memory.bytes
    ensures Dispatched(old(MachineOf(cpu, memory)), MachineOf(cpu, memory), Row4(opcode), panicked)
  {
    panicked := false;
    match opcode
    case 0x48 =>
      Opcodes40.LdCB(cpu);
    case 0x49 =>
      Opcodes40.LdCC(cpu);
    case 0x4A =>
      Opcodes40.LdCD(cpu);
    case 0x4B =>
      Opcodes40.LdCE(cpu);
    case 0x4C =>
      Opcodes40.LdCH(cpu);
    case 0x4D =>
      Opcodes40.LdCL(cpu);
    case 0x4E =>
      Opcodes40.LdCHl(cpu, memory);
    case _ =>  // 0x4F
      Opcodes40.LdCA(cpu);
  }

  /// Opcodes 0x50 to 0x57 of the dispatch table.
  method ProcessBlock50(cpu: Cpu, memory: Memory, opcode: u8) returns (panicked: bool)
    requires memory.Valid()
    requires 0x50 <= opcode <= 0x57
    modifies cpu, memory.bytes
    ensures Dispatched(old(MachineOf(cpu, memory)), MachineOf(cpu, memory), Row5(opcode), panicked)
  {
    panicked := false;
    match opcode
    case 0x50 =>
      Opcodes40.LdDB(cpu);
    case 0x51 =>
      Opcodes40.LdDC(cpu);
    case 0x52 =>
      Opcodes40.LdDD(cpu);
    case 0x53 =>
      Opcodes40.LdDE(cpu);
    case 0x54 =>
      Opcodes40.LdDH(cpu);
    case 0x55 =>
      Opcodes40.LdDL(cpu);
    case 0x56 =>
      Opcodes40.LdDHl(cpu, memory);
    case _ =>  // 0x57
      Opcodes40.LdDA(cpu);
  }

  /// Opcodes 0x58 to 0x5F of the dispatch table.
  method ProcessBlock58(cpu: Cpu, memory: Memory, opcode: u8) returns (panicked: bool)
    requires memory.Valid()
    requires 0x58 <= opcode <= 0x5F
    modifies cpu, memory.bytes
    ensures Dispatched(old(MachineOf(cpu, memory)), MachineOf(cpu, memory), Row5(opcode), panicked)
  {
    panicked := false;
    match opcode
    case 0x58 =>
      Opcodes40.LdEB(cpu);
    case 0x59 =>
      Opcodes40.LdEC(cpu);
    case 0x5A =>
      Opcodes40.LdED(cpu);
    case 0x5B =>
      Opcodes40.LdEE(cpu);
    case 0x5C =>
      Opcodes40.LdEH(cpu);
    case 0x5D =>
      Opcodes40.LdEL(cpu);
    case 0x5E =>
      Opcodes40.LdEHl(cpu, memory);
    case _ =>  // 0x5F
      Opcodes40.LdEA(cpu);
  }

  /// Opcodes 0x60 to 0x67 of the dispatch table.
  method ProcessBlock60(cpu: Cpu, memory: Memory, opcode: u8) returns (panicked: bool)
    requires memory.Valid()
    requires 0x60 <= opcode <= 0x67
    modifies cpu, memory.bytes
    ensures Dispatched(old(MachineOf(cpu, memory)), MachineOf(cpu, memory), Row6(opcode), panicked)
  {
    panicked := false;
    match opcode
    case 0x60 =>
      Opcodes40.LdHB(cpu);
    case 0x61 =>
      Opcodes40.LdHC(cpu);
    case 0x62 =>
      Opcodes40.LdHD(cpu);
    case 0x63 =>
      Opcodes40.LdHE(cpu);
    case 0x64 =>
      Opcodes40.LdHH(cpu);
    case 0x65 =>
      Opcodes40.LdHL(cpu);
    case 0x66 =>
      Opcodes40.LdHHl(cpu, memory);
    case _ =>  // 0x67
      Opcodes40.LdHA(cpu);
  }

  /// Opcodes 0x68 to 0x6F of the dispatch table.
  method ProcessBlock68(cpu: Cpu, memory: Memory, opcode: u8) returns (panicked: bool)
    requires memory.Valid()
    requires 0x68 <= opcode <= 0x6F
    modifies cpu, memory.bytes
    ensures Dispatched(old(MachineOf(cpu, memory)), MachineOf(cpu, memory), Row6(opcode), panicked)
  {
    panicked := false;
    match opcode
    case 0x68 =>
      Opcodes40.LdLB(cpu);
    case 0x69 =>
      Opcodes40.LdLC(cpu);
    case 0x6A =>
      Opcodes40.LdLD(cpu);
    case 0x6B =>
      Opcodes40.LdLE(cpu);
    case 0x6C =>
      Opcodes40.LdLH(cpu);
    case 0x6D =>
      Opcodes40.LdLL(cpu);
    case 0x6E =>
      Opcodes40.LdLHl(cpu, memory);
    case _ =>  // 0x6F
      Opcodes40.LdLA(cpu);
  }

  /// Opcodes 0x70 to 0x77 of the dispatch table.
  method ProcessBlock70(cpu: Cpu, memory: Memory, opcode: u8) returns (panicked: bool)
    requires memory.Valid()
    requires 0x70 <= opcode <= 0x77
    modifies cpu, memory.bytes
    ensures Dispatched(old(MachineOf(cpu, memory)), MachineOf(cpu, memory), Row7(opcode), panicked)
  {
    panicked := false;
    match opcode
    case 0x70 =>
      Opcodes40.LdHlB(cpu, memory);
    case 0x71 =>
      Opcodes40.LdHlC(cpu, memory);
    case 0x72 =>
      Opcodes40.LdHlD(cpu, memory);
    case 0x73 =>
      Opcodes40.LdHlE(cpu, memory);
    case 0x74 =>
      Opcodes40.LdHlH(cpu, memory);
    case 0x75 =>
      Opcodes40.LdHlL(cpu, memory);
    case 0x76 =>
      Opcodes40.Halt(cpu);
    case _ =>  // 0x77
      Opcodes40.LdHlA(cpu, memory);
  }

  /// Opcodes 0x78 to 0x7F of the dispatch table.
  method ProcessBlock78(cpu: Cpu, memory: Memory, opcode: u8) returns (panicked: bool)
    requires memory.Valid()
    requires 0x78 <= opcode <= 0x7F
    modifies cpu, memory.bytes
    ensures Dispatched(old(MachineOf(cpu, memory)), MachineOf(cpu, memory), Row7(opcode), panicked)
  {
    panicked := false;
    match opcode
    case 0x78 =>
      Opcodes40.LdAB(cpu);
    case 0x79 =>
      Opcodes40.LdAC(cpu);
    case 0x7A =>
      Opcodes40.LdAD(cpu);
    case 0x7B =>
      Opcodes40.LdAE(cpu);
    case 0x7C =>
      Opcodes40.LdAH(cpu);
    case 0x7D =>
      Opcodes40.LdAL(cpu);
    case 0x7E =>
      Opcodes40.LdAHl(cpu, memory);
    case _ =>  // 0x7F
      Opcodes40.LdAA(cpu);
  }

  /// Opcodes 0x80 to 0x87 of the dispatch table.
  method ProcessBlock80(cpu: Cpu, memory: Memory, opcode: u8) returns (panicked: bool)
    requires memory.Valid()
    requires 0x80 <= opcode <= 0x87
    modifies cpu, memory.bytes
    ensures Dispatched(old(MachineOf(cpu, memory)), MachineOf(cpu, memory), Row8(opcode), panicked)
  {
    panicked := false;
    match opcode
    case 0x80 =>
      Opcodes80.AddAB(cpu);
    case 0x81 =>
      Opcodes80.AddAC(cpu);
    case 0x82 =>
      Opcodes80.AddAD(cpu);
    case 0x83 =>
      Opcodes80.AddAE(cpu);
    case 0x84 =>
      Opcodes80.AddAH(cpu);
    case 0x85 =>
      Opcodes80.AddAL(cpu);
    case 0x86 =>
      Opcodes80.AddAHl(cpu, memory);
    case _ =>  // 0x87
      Opcodes80.AddAA(cpu);
  }

  /// Opcodes 0x88 to 0x8F of the dispatch table.
  method ProcessBlock88(cpu: Cpu, memory: Memory, opcode: u8) returns (panicked: bool)
    requires memory.Valid()
    requires 0x88 <= opcode <= 0x8F
    modifies cpu, memory.bytes
    ensures Dispatched(old(MachineOf(cpu, memory)), MachineOf(cpu, memory), Row8(opcode), panicked)
  {
    panicked := false;
    match opcode
    case 0x88 =>
      // ADC A, B: not implemented; only the program counter and the cycle move.
      cpu.programCounter := WrappingAdd16(cpu.programCounter, 1);
      cpu.cycle := WrappingAdd64(cpu.cycle, 1);
    case 0x89 =>
      // ADC A, C: not implemented; only the program counter and the cycle move.
      cpu.programCounter := WrappingAdd16(cpu.programCounter, 1);
      cpu.cycle := WrappingAdd64(cpu.cycle, 1);
    case 0x8A =>
      // ADC A, D: not implemented; only the program counter and the cycle move.
      cpu.programCounter := WrappingAdd16(cpu.programCounter, 1);
      cpu.cycle := WrappingAdd64(cpu.cycle, 1);
    case 0x8B =>
      // ADC A, E: not implemented; only the program counter and the cycle move.
      cpu.programCounter := WrappingAdd16(cpu.programCounter, 1);
      cpu.cycle := WrappingAdd64(cpu.cycle, 1);
    case 0x8C =>
      // ADC A, H: not implemented; only the program counter and the cycle move.
      cpu.programCounter := WrappingAdd16(cpu.programCounter, 1);
      cpu.cycle := WrappingAdd64(cpu.cycle, 1);
    case 0x8D =>
      // ADC A, L: not implemented; only the program counter and the cycle move.
      cpu.programCounter := WrappingAdd16(cpu.programCounter, 1);
      cpu.cycle := WrappingAdd64(cpu.cycle, 1);
    case 0x8E =>
      // ADC A, (HL): not implemented; only the program counter and the cycle move.
      cpu.programCounter := WrappingAdd16(cpu.programCounter, 1);
      cpu.cycle := WrappingAdd64(cpu.cycle, 1);
    case _ =>  // 0x8F
      // ADC A, A: not implemented; only the program counter and the cycle move.
      cpu.programCounter := WrappingAdd16(cpu.programCounter, 1);
      cpu.cycle := WrappingAdd64(cpu.cycle, 1);
  }

  /// Opcodes 0x90 to 0x97 of the dispatch table.
  method ProcessBlock90(cpu: Cpu, memory: Memory, opcode: u8) returns (panicked: bool)
    requires memory.Valid()
    requires 0x90 <= opcode <= 0x97
    modifies cpu, memory.bytes
    ensures Dispatched(old(MachineOf(cpu, memory)), MachineOf(cpu, memory), Row9(opcode), panicked)
  {
    panicked := false;
    match opcode
    case 0x90 =>
      Opcodes80.SubB(cpu);
    case 0x91 =>
      Opcodes80.SubC(cpu);
    case 0x92 =>
      Opcodes80.SubD(cpu);
    case 0x93 =>
      Opcodes80.SubE(cpu);
    case 0x94 =>
      Opcodes80.SubH(cpu);
    case 0x95 =>
      Opcodes80.SubL(cpu);
    case 0x96 =>
      Opcodes80.SubHl(cpu, memory);
    case _ =>  // 0x97
      Opcodes80.SubA(cpu);
  }

  /// Opcodes 0x98 to 0x9F of the dispatch table.
  method ProcessBlock98(cpu: Cpu, memory: Memory, opcode: u8) returns (panicked: bool)
    requires memory.Valid()
    requires 0x98 <= opcode <= 0x9F
    modifies cpu, memory.bytes
    ensures Dispatched(old(MachineOf(cpu, memory)), MachineOf(cpu, memory), Row9(opcode), panicked)
  {
    panicked := false;
    match opcode
    case 0x98 =>
      // SBC A, B: not implemented; only the program counter and the cycle move.
      cpu.programCounter := WrappingAdd16(cpu.programCounter, 1);
      cpu.cycle := WrappingAdd64(cpu.cycle, 1);
    case 0x99 =>
      // SBC A, C: not implemented; only the program counter and the cycle move.
      cpu.programCounter := WrappingAdd16(cpu.programCounter, 1);
      cpu.cycle := WrappingAdd64(cpu.cycle, 1);
    case 0x9A =>
      // SBC A, D: not implemented; only the program counter and the cycle move.
      cpu.programCounter := WrappingAdd16(cpu.programCounter, 1);
      cpu.cycle := WrappingAdd64(cpu.cycle, 1);
    case 0x9B =>
      // SBC A, E: not implemented; only the program counter and the cycle move.
      cpu.programCounter := WrappingAdd16(cpu.programCounter, 1);
      cpu.cycle := WrappingAdd64(cpu.cycle, 1);
    case 0x9C =>
      // SBC A, H: not implemented; only the program counter and the cycle move.
      cpu.programCounter := WrappingAdd16(cpu.programCounter, 1);
      cpu.cycle := WrappingAdd64(cpu.cycle, 1);
    case 0x9D =>
      // SBC A, L: not implemented; only the program counter and the cycle move.
      cpu.programCounter := WrappingAdd16(cpu.programCounter, 1);
      cpu.cycle := WrappingAdd64(cpu.cycle, 1);
    case 0x9E =>
      // SBC A, (HL): not implemented; only the program counter and the cycle move.
      cpu.programCounter := WrappingAdd16(cpu.programCounter, 1);
      cpu.cycle := WrappingAdd64(cpu.cycle, 1);
    case _ =>  // 0x9F
      // SBC A, A: not implemented; only the program counter and the cycle move.
      cpu.programCounter := WrappingAdd16(cpu.programCounter, 1);
      cpu.cycle := WrappingAdd64(cpu.cycle, 1);
  }

  /// Opcodes 0xA0 to 0xA7 of the dispatch table.
  method ProcessBlockA0(cpu: Cpu, memory: Memory, opcode: u8) returns (panicked: bool)
    requires memory.Valid()
    requires 0xA0 <= opcode <= 0xA7
    modifies cpu, memory.bytes
    ensures Dispatched(old(MachineOf(cpu, memory)), MachineOf(cpu, memory), RowA(opcode), panicked)
  {
    panicked := false;
    match opcode
    case 0xA0 =>
      Opcodes80.AndB(cpu);
    case 0xA1 =>
      Opcodes80.AndC(cpu);
    case 0xA2 =>
      Opcodes80.AndD(cpu);
    case 0xA3 =>
      Opcodes80.AndE(cpu);
    case 0xA4 =>
      Opcodes80.AndH(cpu);
    case 0xA5 =>
      Opcodes80.AndL(cpu);
    case 0xA6 =>
      Opcodes80.AndHl(cpu, memory);
    case _ =>  // 0xA7
      Opcodes80.AndA(cpu);
  }

  /// Opcodes 0xA8 to 0xAF of the dispatch table.
  method ProcessBlockA8(cpu: Cpu, memory: Memory, opcode: u8) returns (panicked: bool)
    requires memory.Valid()
    requires 0xA8 <= opcode <= 0xAF
    modifies cpu, memory.bytes
    ensures Dispatched(old(MachineOf(cpu, memory)), MachineOf(cpu, memory), RowA(opcode), panicked)
  {
    panicked := false;
    match opcode
    case 0xA8 =>
      Opcodes80.XorB(cpu);
    case 0xA9 =>
      Opcodes80.XorC(cpu);
    case 0xAA =>
      Opcodes80.XorD(cpu);
    case 0xAB =>
      Opcodes80.XorE(cpu);
    case 0xAC =>
      Opcodes80.XorH(cpu);
    case 0xAD =>
      Opcodes80.XorL(cpu);
    case 0xAE =>
      Opcodes80.XorHl(cpu, memory);
    case _ =>  // 0xAF
      Opcodes80.XorA(cpu);
  }

  /// Opcodes 0xB0 to 0xB7 of the dispatch table.
  method ProcessBlockB0(cpu: Cpu, memory: Memory, opcode: u8) returns (panicked: bool)
    requires memory.Valid()
    requires 0xB0 <= opcode <= 0xB7
    modifies cpu, memory.bytes
    ensures Dispatched(old(MachineOf(cpu, memory)), MachineOf(cpu, memory), RowB(opcode), panicked)
  {
    panicked := false;
    match opcode
    case 0xB0 =>
      Opcodes80.OrB(cpu);
    case 0xB1 =>
      Opcodes80.OrC(cpu);
    case 0xB2 =>
      Opcodes80.OrD(cpu);
    case 0xB3 =>
      Opcodes80.OrE(cpu);
    case 0xB4 =>
      Opcodes80.OrH(cpu);
    case 0xB5 =>
      Opcodes80.OrL(cpu);
    case 0xB6 =>
      Opcodes80.OrHl(cpu, memory);
    case _ =>  // 0xB7
      Opcodes80.OrA(cpu);
  }

  /// Opcodes 0xB8 to 0xBF of the dispatch table.
  method ProcessBlockB8(cpu: Cpu, memory: Memory, opcode: u8) returns (panicked: bool)
    requires memory.Valid()
    requires 0xB8 <= opcode <= 0xBF
    modifies cpu, memory.bytes
    ensures Dispatched(old(MachineOf(cpu, memory)), MachineOf(cpu, memory), RowB(opcode), panicked)
  {
    panicked := false;
    match opcode
    case 0xB8 =>
      Opcodes80.CpB(cpu);
    case 0xB9 =>
      Opcodes80.CpC(cpu);
    case 0xBA =>
      Opcodes80.CpD(cpu);
    case 0xBB =>
      Opcodes80.CpE(cpu);
    case 0xBC =>
      Opcodes80.CpH(cpu);
    case 0xBD =>
      Opcodes80.CpL(cpu);
    case 0xBE =>
      Opcodes80.CpHl(cpu, memory);
    case _ =>  // 0xBF
      Opcodes80.CpA(cpu);
  }

  /// Opcodes 0xC0 to 0xC7 of the dispatch table.
  method ProcessBlockC0(cpu: Cpu, memory: Memory, opcode: u8) returns (panicked: bool)
    requires memory.Valid()
    requires 0xC0 <= opcode <= 0xC7
    modifies cpu, memory.bytes
    ensures Dispatched(old(MachineOf(cpu, memory)), MachineOf(cpu, memory), RowC(opcode), panicked)
  {
    panicked := false;
    match opcode
    case 0xC0 =>
      OpcodesC0.RetNz(cpu, memory);
    case 0xC1 =>
      OpcodesC0.PopBc(cpu, memory);
    case 0xC2 =>
      OpcodesC0.JpNzA16(cpu, memory);
    case 0xC3 =>
      OpcodesC0.JpA16(cpu, memory);
    case 0xC4 =>
      OpcodesC0.CallNzA16(cpu, memory);
    case 0xC5 =>
      OpcodesC0.PushBc(cpu, memory);
    case 0xC6 =>
      OpcodesC0.AddAD8(cpu, memory);
    case _ =>  // 0xC7
      // RST 0: not implemented; only the program counter and the cycle move.
      cpu.programCounter := WrappingAdd16(cpu.programCounter, 1);
      cpu.cycle := WrappingAdd64(cpu.cycle, 4);
  }

  /// Opcodes 0xC8 to 0xCF of the dispatch table.
  method ProcessBlockC8(cpu: Cpu, memory: Memory, opcode: u8) returns (panicked: bool)
    requires memory.Valid()
    requires 0xC8 <= opcode <= 0xCF
    modifies cpu, memory.bytes
    ensures Dispatched(old(MachineOf(cpu, memory)), MachineOf(cpu, memory), RowC(opcode), panicked)
  {
    panicked := false;
    match opcode
    case 0xC8 =>
      OpcodesC0.RetZ(cpu, memory);
    case 0xC9 =>
      OpcodesC0.Ret(cpu, memory);
    case 0xCA =>
      OpcodesC0.JpZA16(cpu, memory);
    case 0xCB =>
      Process16BitOpcode(cpu, memory);
    case 0xCC =>
      OpcodesC0.CallZA16(cpu, memory);
    case 0xCD =>
      OpcodesC0.CallA16(cpu, memory);
    case 0xCE =>
      // ADC A, d8: not implemented; only the program counter and the cycle move.
      cpu.programCounter := WrappingAdd16(cpu.programCounter, 2);
      cpu.cycle := WrappingAdd64(cpu.cycle, 2);
    case _ =>  // 0xCF
      // RST 1: not implemented; only the program counter and the cycle move.
      cpu.programCounter := WrappingAdd16(cpu.programCounter, 1);
      cpu.cycle := WrappingAdd64(cpu.cycle, 4);
  }

  /// Opcodes 0xD0 to 0xD7 of the dispatch table.
  method ProcessBlockD0(cpu: Cpu, memory: Memory, opcode: u8) returns (panicked: bool)
    requires memory.Valid()
    requires 0xD0 <= opcode <= 0xD7
    modifies cpu, memory.bytes
    ensures Dispatched(old(MachineOf(cpu, memory)), MachineOf(cpu, memory), RowD(opcode), panicked)
  {
    panicked := false;
    match opcode
    case 0xD0 =>
      OpcodesC0.RetNc(cpu, memory);
    case 0xD1 =>
      OpcodesC0.PopDe(cpu, memory);
    case 0xD2 =>
      OpcodesC0.JpNcA16(cpu, memory);
    case 0xD3 =>
      panicked := true;
    case 0xD4 =>
      OpcodesC0.CallNcA16(cpu, memory);
    case 0xD5 =>
      OpcodesC0.PushDe(cpu, memory);
    case 0xD6 =>
      OpcodesC0.SubD8(cpu, memory);
    case _ =>  // 0xD7
      // RST 2: not implemented; only the program counter and the cycle move.
      cpu.programCounter := WrappingAdd16(cpu.programCounter, 1);
      cpu.cycle := WrappingAdd64(cpu.cycle, 4);
  }

  /// Opcodes 0xD8 to 0xDF of the dispatch table.
  method ProcessBlockD8(cpu: Cpu, memory: Memory, opcode: u8) returns (panicked: bool)
    requires memory.Valid()
    requires 0xD8 <= opcode <= 0xDF
    modifies cpu, memory.bytes
    ensures Dispatched(old(MachineOf(cpu, memory)), MachineOf(cpu, memory), RowD(opcode), panicked)
  {
    panicked := false;
    match opcode
    case 0xD8 =>
      OpcodesC0.RetC(cpu, memory);
    case 0xD9 =>
      OpcodesC0.Reti(cpu, memory);
    case 0xDA =>
      OpcodesC0.JpCA16(cpu, memory);
    case 0xDB =>
      panicked := true;
    case 0xDC =>
      OpcodesC0.CallCA16(cpu, memory);
    case 0xDD =>
      panicked := true;
    case 0xDE =>
      // SBC A, d8, logged as ADC A, d8: not implemented; only the program counter and the cycle move.
      cpu.programCounter := WrappingAdd16(cpu.programCounter, 2);
      cpu.cycle := WrappingAdd64(cpu.cycle, 2);
    case _ =>  // 0xDF
      // RST 3: not implemented; only the program counter and the cycle move.
      cpu.programCounter := WrappingAdd16(cpu.programCounter, 1);
      cpu.cycle := WrappingAdd64(cpu.cycle, 4);
  }

  /// Opcodes 0xE0 to 0xE7 of the dispatch table.
  method ProcessBlockE0(cpu: Cpu, memory: Memory, opcode: u8) returns (panicked: bool)
    requires memory.Valid()
    requires 0xE0 <= opcode <= 0xE7
    modifies cpu, memory.bytes
    ensures Dispatched(old(MachineOf(cpu, memory)), MachineOf(cpu, memory), RowE(opcode), panicked)
  {
    panicked := false;
    match opcode
    case 0xE0 =>
      OpcodesC0.LdA8A(cpu, memory);
    case 0xE1 =>
      OpcodesC0.PopHl(cpu, memory);
    case 0xE2 =>
      OpcodesC0.LdPortCA(cpu, memory);
    case 0xE3 =>
      panicked := true;
    case 0xE4 =>
      panicked := true;
    case 0xE5 =>
      OpcodesC0.PushHl(cpu, memory);
    case 0xE6 =>
      OpcodesC0.AndD8(cpu, memory);
    case _ =>  // 0xE7
      // RST 4: not implemented; only the program counter and the cycle move.
      cpu.programCounter := WrappingAdd16(cpu.programCounter, 1);
      cpu.cycle := WrappingAdd64(cpu.cycle, 4);
  }

  /// Opcodes 0xE8 to 0xEF of the dispatch table.
  method ProcessBlockE8(cpu: Cpu, memory: Memory, opcode: u8) returns (panicked: bool)
    requires memory.Valid()
    requires 0xE8 <= opcode <= 0xEF
    modifies cpu, memory.bytes
    ensures Dispatched(old(MachineOf(cpu, memory)), MachineOf(cpu, memory), RowE(opcode), panicked)
  {
    panicked := false;
    match opcode
    case 0xE8 =>
      OpcodesC0.AddSpS8(cpu, memory);
    case 0xE9 =>
      OpcodesC0.JpHl(cpu);
    case 0xEA =>
      OpcodesC0.LdA16A(cpu, memory);
    case 0xEB =>
      panicked := true;
    case 0xEC =>
      panicked := true;
    case 0xED =>
      panicked := true;
    case 0xEE =>
      OpcodesC0.XorD8(cpu, memory);
    case _ =>  // 0xEF
      // RST 5: not implemented; only the program counter and the cycle move.
      cpu.programCounter := WrappingAdd16(cpu.programCounter, 1);
      cpu.cycle := WrappingAdd64(cpu.cycle, 4);
  }

  /// Opcodes 0xF0 to 0xF7 of the dispatch table.
  method ProcessBlockF0(cpu: Cpu, memory: Memory, opcode: u8) returns (panicked: bool)
    requires memory.Valid()
    requires 0xF0 <= opcode <= 0xF7
    modifies cpu, memory.bytes
    ensures Dispatched(old(MachineOf(cpu, memory)), MachineOf(cpu, memory), RowF(opcode), panicked)
  {
    panicked := false;
    match opcode
    case 0xF0 =>
      OpcodesC0.LdAA8(cpu, memory);
    case 0xF1 =>
      OpcodesC0.PopAf(cpu, memory);
    case 0xF2 =>
      OpcodesC0.LdAPortC(cpu, memory);
    case 0xF3 =>
      OpcodesC0.Di(cpu, memory);
    case 0xF4 =>
      panicked := true;
    case 0xF5 =>
      OpcodesC0.PushAf(cpu, memory);
    case 0xF6 =>
      OpcodesC0.OrD8(cpu, memory);
    case _ =>  // 0xF7
      // RST 6: not implemented; only the program counter and the cycle move.
      cpu.programCounter := WrappingAdd16(cpu.programCounter, 1);
      cpu.cycle := WrappingAdd64(cpu.cycle, 4);
  }

  /// Opcodes 0xF8 to 0xFF of the dispatch table.
  method ProcessBlockF8(cpu: Cpu, memory: Memory, opcode: u8) returns (panicked: bool)
    requires memory.Valid()
    requires 0xF8 <= opcode <= 0xFF
    modifies cpu, memory.bytes
    ensures Dispatched(old(MachineOf(cpu, memory)), MachineOf(cpu, memory), RowF(opcode), panicked)
  {
    panicked := false;
    match opcode
    case 0xF8 =>
      OpcodesC0.LdHlSpPlusS8(cpu, memory);
    case 0xF9 =>
      OpcodesC0.LdSpHl(cpu);
    case 0xFA =>
      OpcodesC0.LdAA16(cpu, memory);
    case 0xFB =>
      OpcodesC0.Ei(cpu);
    case 0xFC =>
      panicked := true;
    case 0xFD =>
      panicked := true;
    case 0xFE =>
      OpcodesC0.CpD8(cpu, memory);
    case _ =>  // 0xFF
      // RST 7: not implemented; only the program counter and the cycle move.
      cpu.programCounter := WrappingAdd16(cpu.programCounter, 1);
      cpu.cycle := WrappingAdd64(cpu.cycle, 4);
  }

}
