/// The Game Boy device of src/emulator/gameboy.rs: it owns one CPU and one
/// address space, steps the CPU, resets, and loads cartridges. The wall-clock
/// time between ticks that the source records is not modelled.
module GameBoy {
  import opened Wrappers
  import opened Bits
  import opened Memory
  import opened RegisterFile
  import opened Cpu
  import opened DispatchTable
  import Dispatch

  /// The registers after `Cpu::reset`: everything cleared and the program
  /// counter at the entry point; the cycle counter keeps running.
  function ResetRegisters(s: Registers): Registers {
    Initial().(cycle := s.cycle)
  }

  /// `GameBoy::reset` on values: the CPU reset, and memory zeroed exactly
  /// when `clearMemory` is set.
  function ResetMachine(mc: Machine, clearMemory: bool): Machine {
    Machine(ResetRegisters(mc.regs), if clearMemory then Zeroed() else mc.mem)
  }

  /// `GameBoy::load_cartridge` on values: the success flag and the machine
  /// after the copy, with the CPU reset only when the copy happened.
  function LoadedCartridge(mc: Machine, data: seq<u8>): (bool, Machine) {
    if Fits(0, data) then (true, Machine(ResetRegisters(mc.regs), CopiedInto(mc.mem, 0, data)))
    else (false, mc)
  }

  /// A cartridge load succeeds exactly when the cartridge fits in the
  /// address space; it then holds the cartridge from address 0 on, keeps the
  /// rest of memory, and leaves the CPU as after a reset. A failed load
  /// changes nothing.
  lemma LoadedCartridgeEffect(mc: Machine, data: seq<u8>)
    ensures LoadedCartridge(mc, data).0 <==> |data| <= MEMORY_SIZE
    ensures LoadedCartridge(mc, data).0 ==>
      && LoadedCartridge(mc, data).1.mem[..|data|] == data
      && LoadedCartridge(mc, data).1.mem[|data|..] == mc.mem[|data|..]
      && LoadedCartridge(mc, data).1.regs == ResetMachine(mc, false).regs
    ensures !LoadedCartridge(mc, data).0 ==> LoadedCartridge(mc, data).1 == mc
  {
    if Fits(0, data) {
      var loaded := LoadedCartridge(mc, data).1.mem;
      assert loaded[..|data|] == data by {
        forall i | 0 <= i < |data|
          ensures loaded[..|data|][i] == data[i]
        {
          assert Index(0) + i == i;
        }
      }
    }
  }

  /// Reset keeps memory unless asked to clear it, and a reset CPU is in the
  /// state `Cpu::new` gives, apart from the running cycle counter; resetting
  /// twice is resetting once.
  lemma ResetMachineEffect(mc: Machine, clearMemory: bool)
    ensures ResetMachine(mc, clearMemory).regs == Initial().(cycle := mc.regs.cycle)
    ensures ResetMachine(mc, clearMemory).regs.programCounter == PROGRAM_COUNTER_START_ADDRESS
    ensures clearMemory ==> forall address: u16 :: ByteAt(ResetMachine(mc, clearMemory).mem, address) == 0
    ensures !clearMemory ==> ResetMachine(mc, clearMemory).mem == mc.mem
    ensures ResetMachine(ResetMachine(mc, clearMemory), clearMemory) == ResetMachine(mc, clearMemory)
  {
  }

  class GameBoy {
    const cpu: Cpu
    const memory: Memory

    predicate Valid() {
      memory.Valid()
    }

    /// The CPU and memory as one value.
    function State(): Machine
      reads this, cpu, memory.bytes
      requires Valid()
    {
      MachineOf(cpu, memory)
    }

    /// `GameBoy::new`: a fresh CPU and zeroed memory.
    constructor ()
      ensures Valid() && fresh(cpu) && fresh(memory) && fresh(memory.bytes)
      ensures State() == Machine(Initial(), Zeroed())
    {
      cpu := new Cpu();
      memory := new Memory();
    }

    /// `GameBoy::tick`: exactly one `Cpu::tick` on the owned memory.
    method Tick() returns (panicked: bool)
      requires Valid()
      modifies cpu, memory.bytes
      ensures Dispatch.Dispatched(old(State()), State(),
                                  ArmOf(old(ByteAt(memory.Contents(), cpu.programCounter))), panicked)
    {
      panicked := Dispatch.Tick(cpu, memory);
    }

    /// `GameBoy::reset`.
    method Reset(clearMemory: bool)
      requires Valid()
      modifies cpu, memory.bytes
      ensures State() == ResetMachine(old(State()), clearMemory)
    {
      cpu.Reset();
      if clearMemory {
        memory.Clear();
      }
    }

    /// `GameBoy::get_cpu_readonly`: the CPU's registers, read only.
    function CpuReadonly(): Registers
      reads this, cpu
    {
      cpu.Snapshot()
    }

    /// `GameBoy::get_memory_readonly`: the address space, read only.
    function MemoryReadonly(): Image
      reads this, memory.bytes
      requires Valid()
    {
      memory.Contents()
    }

    /// `GameBoy::load_cartridge`, given the cartridge's bytes: copy them to
    /// address 0 and reset the CPU when the copy succeeded.
    method LoadCartridge(data: seq<u8>) returns (success: bool)
      requires Valid()
      modifies cpu, memory.bytes
      ensures (success, State()) == LoadedCartridge(old(State()), data)
    {
      success := memory.CopyIntoMemoryAtAddress(0x0000, data);
      if success {
        cpu.Reset();
      }
    }
  }
}
