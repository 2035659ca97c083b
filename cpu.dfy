/// The CPU object of src/cpu/cpu.rs: the register fields, construction,
/// reset, and the interrupt bitfield accessors. Instruction dispatch is in
/// module Dispatch, because the handlers it calls need this class.
module Cpu {
  import opened Wrappers
  import opened Bits
  import Memory
  import opened RegisterFile

  class Cpu {
    var a: u8
    var b: u8
    var c: u8
    var d: u8
    var e: u8
    var h: u8
    var l: u8
    var stackPointer: u16
    var programCounter: u16
    var cycle: u64
    /// Interrupt master enable.
    var ime: bool
    var zero: bool
    var negative: bool
    var halfCarry: bool
    var carry: bool
    var state: Option<CpuState>

    /// The fields as one value.
    function Snapshot(): Registers
      reads this
    {
      Registers(a, b, c, d, e, h, l, stackPointer, programCounter, cycle,
                ime, zero, negative, halfCarry, carry, state)
    }

    /// `Cpu::new` (and `Default`).
    constructor ()
      ensures Snapshot() == Initial()
    {
      a, b, c, d, e, h, l := 0, 0, 0, 0, 0, 0, 0;
      stackPointer := 0;
      programCounter := PROGRAM_COUNTER_START_ADDRESS;
      cycle := 0;
      ime, zero, negative, halfCarry, carry := false, false, false, false, false;
      state := None;
    }

    method ResetProgramCounter()
      modifies this`programCounter
      ensures Snapshot() == old(Snapshot()).(programCounter := PROGRAM_COUNTER_START_ADDRESS)
    {
      programCounter := PROGRAM_COUNTER_START_ADDRESS;
    }

    /// `Cpu::reset`, called by the Game Boy on reset and after a cartridge
    /// load: registers, flags and state cleared and the program counter back
    /// at the entry point. The cycle counter keeps running.
    method Reset()
      modifies this
      ensures Snapshot() == Initial().(cycle := old(cycle))
    {
      ClearDataRegisters();
      stackPointer := 0;
      programCounter := PROGRAM_COUNTER_START_ADDRESS;
      ClearFlags();
    }

    /// The seven 8-bit registers cleared, as `Reset` does first.
    method ClearDataRegisters()
      modifies this`a, this`b, this`c, this`d, this`e, this`h, this`l
      ensures a == 0 && b == 0 && c == 0 && d == 0 && e == 0 && h == 0 && l == 0
    {
      a, b, c, d := 0, 0, 0, 0;
      e, h, l := 0, 0, 0;
    }

    /// The master enable, the four flags and the state cleared, as `Reset`
    /// does last.
    method ClearFlags()
      modifies this`ime, this`zero, this`negative, this`halfCarry, this`carry, this`state
      ensures !ime && !zero && !negative && !halfCarry && !carry && state == None
    {
      ime, zero, negative := false, false, false;
      halfCarry, carry, state := false, false, None;
    }

    /// Set or clear one interrupt-enable bit (address 0xFFFF).
    method SetInterruptFlagState(memory: Memory.Memory, flag: InterruptFlag)
      requires memory.Valid()
      modifies memory.bytes
      ensures memory.Contents() == WithInterruptBit(old(memory.Contents()), INTERRUPT_ENABLE_ADDRESS, flag)
    {
      var flags := memory.ReadByteAt(INTERRUPT_ENABLE_ADDRESS);
      flags := SetBitNStateU8(flags, BitPosition(flag), flag.state.UnwrapOr(false));
      memory.WriteByteAt(INTERRUPT_ENABLE_ADDRESS, flags);
    }

    /// Set or clear one interrupt-request bit (address 0xFF0F).
    method SetInterruptRequestFlagState(memory: Memory.Memory, flag: InterruptFlag)
      requires memory.Valid()
      modifies memory.bytes
      ensures memory.Contents() == WithInterruptBit(old(memory.Contents()), INTERRUPT_REQUEST_ADDRESS, flag)
    {
      var flags := memory.ReadByteAt(INTERRUPT_REQUEST_ADDRESS);
      flags := SetBitNStateU8(flags, BitPosition(flag), flag.state.UnwrapOr(false));
      memory.WriteByteAt(INTERRUPT_REQUEST_ADDRESS, flags);
    }

    /// Whether the source's interrupt-enable bit is set; the carried state is ignored.
    function IsInterruptFlagSet(memory: Memory.Memory, flag: InterruptFlag): (r: bool)
      reads memory.bytes
      requires memory.Valid()
      ensures r == InterruptBitSet(memory.Contents(), INTERRUPT_ENABLE_ADDRESS, flag)
    {
      IsNthBitSetU8(memory.ReadByteAt(INTERRUPT_ENABLE_ADDRESS), BitPosition(flag))
    }

    /// Whether the source's interrupt-request bit is set.
    function IsRequestInterruptFlagSet(memory: Memory.Memory, flag: InterruptFlag): (r: bool)
      reads memory.bytes
      requires memory.Valid()
      ensures r == InterruptBitSet(memory.Contents(), INTERRUPT_REQUEST_ADDRESS, flag)
    {
      IsNthBitSetU8(memory.ReadByteAt(INTERRUPT_REQUEST_ADDRESS), BitPosition(flag))
    }
  }

  /// The CPU object and the memory it runs against, as one machine value.
  function MachineOf(cpu: Cpu, memory: Memory.Memory): Machine
    reads cpu, memory.bytes
    requires memory.Valid()
  {
    Machine(cpu.Snapshot(), memory.Contents())
  }

  /// Writing an interrupt bit and reading it back gives the written state,
  /// whatever state the query carries; the other four sources are untouched.
  lemma InterruptBitReadBack(m: Memory.Image, register: u16, written: InterruptFlag, read: InterruptFlag)
    ensures InterruptBitSet(WithInterruptBit(m, register, written), register, read)
         == if BitPosition(read) == BitPosition(written) then written.state.UnwrapOr(false)
            else InterruptBitSet(m, register, read)
  {
    WithInterruptBitEffect(m, register, written);
  }

  /// The enable and request bitfields are separate bytes: writing one never
  /// changes what the other reports.
  lemma EnableAndRequestIndependent(m: Memory.Image, written: InterruptFlag, read: InterruptFlag)
    ensures InterruptBitSet(WithInterruptBit(m, INTERRUPT_ENABLE_ADDRESS, written), INTERRUPT_REQUEST_ADDRESS, read)
         == InterruptBitSet(m, INTERRUPT_REQUEST_ADDRESS, read)
    ensures InterruptBitSet(WithInterruptBit(m, INTERRUPT_REQUEST_ADDRESS, written), INTERRUPT_ENABLE_ADDRESS, read)
         == InterruptBitSet(m, INTERRUPT_ENABLE_ADDRESS, read)
  {
    WithInterruptBitEffect(m, INTERRUPT_ENABLE_ADDRESS, written);
    WithInterruptBitEffect(m, INTERRUPT_REQUEST_ADDRESS, written);
  }
}
