/// The call stack kept in memory (the push and pop helpers of the Memory
/// type that the instruction handlers call). The stack grows downward: a push
/// moves the stack pointer down one byte and writes there, a pop reads at the
/// stack pointer and moves it up. A word is pushed high byte first, so it
/// sits in memory little-endian and pops low byte first.
module Stack {
  import opened Bits
  import opened Memory
  import opened RegisterFile
  import Cpu

  function PushU8(mc: Machine, value: u8): Machine {
    var sp := WrappingSub16(mc.regs.stackPointer, 1);
    Machine(mc.regs.(stackPointer := sp), WithByte(mc.mem, sp, value))
  }

  function PopU8(mc: Machine): (u8, Machine) {
    var value := ByteAt(mc.mem, mc.regs.stackPointer);
    (value, Machine(mc.regs.(stackPointer := WrappingAdd16(mc.regs.stackPointer, 1)), mc.mem))
  }

  function PushU16(mc: Machine, value: u16): Machine {
    var (lsb, msb) := U16ToLsbMsb(value);
    PushU8(PushU8(mc, msb), lsb)
  }

  function PopU16(mc: Machine): (u16, Machine) {
    var (lsb, afterLsb) := PopU8(mc);
    var (msb, afterMsb) := PopU8(afterLsb);
    (LsbMsbToU16(lsb, msb), afterMsb)
  }

  /// A byte push moves the stack pointer down by one, stores the byte at the
  /// new top, and changes no other register.
  lemma PushU8Effect(mc: Machine, value: u8)
    ensures PushU8(mc, value).regs == mc.regs.(stackPointer := WrappingSub16(mc.regs.stackPointer, 1))
    ensures ByteAt(PushU8(mc, value).mem, WrappingSub16(mc.regs.stackPointer, 1)) == value
  {
  }

  /// A word push moves the stack pointer down by two and leaves the word at
  /// the new top in little-endian order.
  lemma PushU16Effect(mc: Machine, value: u16)
    ensures PushU16(mc, value).regs == mc.regs.(stackPointer := WrappingSub16(mc.regs.stackPointer, 2))
    ensures ByteAt(PushU16(mc, value).mem, WrappingSub16(mc.regs.stackPointer, 2)) == U16ToLsbMsb(value).0
    ensures ByteAt(PushU16(mc, value).mem, WrappingSub16(mc.regs.stackPointer, 1)) == U16ToLsbMsb(value).1
  {
    var sp := mc.regs.stackPointer;
    StepsOfOne16(sp);
    var (lsb, msb) := U16ToLsbMsb(value);
    var once := PushU8(mc, msb);
    PushU8Effect(mc, msb);
    PushU8Effect(once, lsb);
  }

  /// A word pop returns the little-endian word at the stack pointer, moves the
  /// stack pointer up by two, and changes nothing else.
  lemma PopU16Effect(mc: Machine)
    ensures PopU16(mc).0 == WordAt(mc.mem, mc.regs.stackPointer)
    ensures PopU16(mc).1 == Machine(mc.regs.(stackPointer := WrappingAdd16(mc.regs.stackPointer, 2)), mc.mem)
  {
    StepsOfOne16(mc.regs.stackPointer);
  }

  /// A popped byte is the byte just pushed, and the registers are back as
  /// they were.
  lemma PopU8AfterPushU8(mc: Machine, value: u8)
    ensures PopU8(PushU8(mc, value)).0 == value
    ensures PopU8(PushU8(mc, value)).1.regs == mc.regs
  {
    StepsOfOne16(mc.regs.stackPointer);
  }

  /// The word popped right after a word push is that word.
  lemma {:induction false} PopU16ReturnsPushedWord(mc: Machine, value: u16)
    ensures PopU16(PushU16(mc, value)).0 == value
  {
    var sp := mc.regs.stackPointer;
    var pushed := PushU16(mc, value);
    PushU16Effect(mc, value);
    PopU16Effect(pushed);
    StepsOfOne16(sp);
    SplitThenJoin(value);
  }

  /// A popped word is the word just pushed, and the registers are back as
  /// they were: the round trip the stack discipline exists for.
  lemma {:induction false} PopU16AfterPushU16(mc: Machine, value: u16)
    ensures PopU16(PushU16(mc, value)).0 == value
    ensures PopU16(PushU16(mc, value)).1.regs == mc.regs
  {
    PopU16ReturnsPushedWord(mc, value);
    PushU16Effect(mc, value);
    PopU16Effect(PushU16(mc, value));
    StepsOfOne16(mc.regs.stackPointer);
  }

  /// Two byte pushes popped in reverse order: the last byte pushed comes out
  /// first, and the stack pointer ends where it started.
  lemma {:induction false} StackIsLastInFirstOut(mc: Machine, first: u8, second: u8)
    ensures PopU8(PushU8(PushU8(mc, first), second)).0 == second
    ensures PopU8(PopU8(PushU8(PushU8(mc, first), second)).1).0 == first
    ensures PopU8(PopU8(PushU8(PushU8(mc, first), second)).1).1.regs == mc.regs
  {
    var once := PushU8(mc, first);
    var twice := PushU8(once, second);
    PushU8Effect(mc, first);
    PushU8Effect(once, second);
    StepsOfOne16(mc.regs.stackPointer);
    PopU8AfterPushU8(once, second);
    PopU8AfterPushU8(mc, first);
  }

  // The methods below name in `modifies` the one field of the CPU they
  // write, the stack pointer, so every other field is unchanged by their
  // frame; their postconditions give the stack pointer and the memory.

  method PushStackU8(memory: Memory, value: u8, cpu: Cpu.Cpu)
    requires memory.Valid()
    modifies memory.bytes, cpu`stackPointer
    ensures cpu.stackPointer == WrappingSub16(old(cpu.stackPointer), 1)
    ensures memory.Contents() == WithByte(old(memory.Contents()), cpu.stackPointer, value)
  {
    cpu.stackPointer := WrappingSub16(cpu.stackPointer, 1);
    memory.WriteByteAt(cpu.stackPointer, value);
  }

  method PopStackU8(memory: Memory, cpu: Cpu.Cpu) returns (value: u8)
    requires memory.Valid()
    modifies cpu`stackPointer
    ensures value == ByteAt(memory.Contents(), old(cpu.stackPointer))
    ensures cpu.stackPointer == WrappingAdd16(old(cpu.stackPointer), 1)
  {
    value := memory.ReadByteAt(cpu.stackPointer);
    cpu.stackPointer := WrappingAdd16(cpu.stackPointer, 1);
  }

  method PushStackU16(memory: Memory, value: u16, cpu: Cpu.Cpu)
    requires memory.Valid()
    modifies memory.bytes, cpu`stackPointer
    ensures cpu.stackPointer == WrappingSub16(WrappingSub16(old(cpu.stackPointer), 1), 1)
    ensures memory.Contents()
         == WithByte(WithByte(old(memory.Contents()), WrappingSub16(old(cpu.stackPointer), 1), U16ToLsbMsb(value).1),
                     cpu.stackPointer, U16ToLsbMsb(value).0)
  {
    var (lsb, msb) := U16ToLsbMsb(value);
    PushStackU8(memory, msb, cpu);
    PushStackU8(memory, lsb, cpu);
  }

  method PopStackU16(memory: Memory, cpu: Cpu.Cpu) returns (value: u16)
    requires memory.Valid()
    modifies cpu`stackPointer
    ensures value == LsbMsbToU16(ByteAt(memory.Contents(), old(cpu.stackPointer)),
                                 ByteAt(memory.Contents(), WrappingAdd16(old(cpu.stackPointer), 1)))
    ensures cpu.stackPointer == WrappingAdd16(WrappingAdd16(old(cpu.stackPointer), 1), 1)
  {
    var lsb := PopStackU8(memory, cpu);
    var msb := PopStackU8(memory, cpu);
    value := LsbMsbToU16(lsb, msb);
  }
}
