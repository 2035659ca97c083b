/// Value view of the CPU state of src/cpu/cpu.rs: the register file, the run
/// state, the interrupt flags, and a machine (registers plus memory) that the
/// instruction semantics step from one state to the next.
module RegisterFile {
  import opened Wrappers
  import opened Bits
  import opened Memory

  /// Where execution starts: the cartridge entry point, skipping the boot ROM.
  const PROGRAM_COUNTER_START_ADDRESS: u16 := 0x0100

  /// The interrupt-enable bitfield (IE).
  const INTERRUPT_ENABLE_ADDRESS: u16 := 0xFFFF

  /// The interrupt-request bitfield (IF).
  const INTERRUPT_REQUEST_ADDRESS: u16 := 0xFF0F

  /// Special CPU states; `None` in `Registers.state` is normal execution.
  datatype CpuState = Stop | Halt

  /// The five interrupt sources. The carried state is what a setter writes
  /// (`None` writes false); readers ignore it.
  datatype InterruptFlag =
    | VBlank(state: Option<bool>)
    | LcdStat(state: Option<bool>)
    | Timer(state: Option<bool>)
    | Serial(state: Option<bool>)
    | Joypad(state: Option<bool>)

  /// Bit of the IE/IF byte that belongs to an interrupt source.
  function BitPosition(flag: InterruptFlag): (position: u8)
    ensures position < 5
  {
    match flag
    case VBlank(_) => 0
    case LcdStat(_) => 1
    case Timer(_) => 2
    case Serial(_) => 3
    case Joypad(_) => 4
  }

  /// Sources of different kinds own different bits.
  lemma BitPositionsDistinct(f: InterruptFlag, g: InterruptFlag)
    requires BitPosition(f) == BitPosition(g)
    ensures f.VBlank? == g.VBlank? && f.LcdStat? == g.LcdStat? && f.Timer? == g.Timer?
    ensures f.Serial? == g.Serial? && f.Joypad? == g.Joypad?
  {
  }

  /// Whether the source's bit is set in the bitfield at `register`.
  function InterruptBitSet(m: Image, register: u16, flag: InterruptFlag): bool {
    IsNthBitSetU8(ByteAt(m, register), BitPosition(flag))
  }

  /// Read-modify-write of the bitfield at `register`: the source's bit becomes
  /// its carried state (false for `None`).
  function WithInterruptBit(m: Image, register: u16, flag: InterruptFlag): Image {
    WithByte(m, register, SetBitNStateU8(ByteAt(m, register), BitPosition(flag), flag.state.UnwrapOr(false)))
  }

  /// The written bit reads back as the flag's state; the other seven bits of
  /// the bitfield and every other address keep their values.
  lemma WithInterruptBitEffect(m: Image, register: u16, flag: InterruptFlag)
    ensures InterruptBitSet(WithInterruptBit(m, register, flag), register, flag) == flag.state.UnwrapOr(false)
    ensures forall k: u8 :: k < 8 && k != BitPosition(flag) ==>
      IsNthBitSetU8(ByteAt(WithInterruptBit(m, register, flag), register), k) == IsNthBitSetU8(ByteAt(m, register), k)
    ensures forall other: u16 :: other != register ==>
      ByteAt(WithInterruptBit(m, register, flag), other) == ByteAt(m, other)
  {
    SetBitNStateBits(ByteAt(m, register), BitPosition(flag), flag.state.UnwrapOr(false));
  }

  /// Every field of the Rust `Cpu` struct.
  datatype Registers = Registers(
    a: u8, b: u8, c: u8, d: u8, e: u8, h: u8, l: u8,
    stackPointer: u16,
    programCounter: u16,
    cycle: u64,
    ime: bool,
    zero: bool,
    negative: bool,
    halfCarry: bool,
    carry: bool,
    state: Option<CpuState>)

  /// `Cpu::new`: all registers and flags cleared, no special state, and the
  /// program counter at the entry point.
  function Initial(): Registers {
    Registers(0, 0, 0, 0, 0, 0, 0, 0, PROGRAM_COUNTER_START_ADDRESS, 0,
              false, false, false, false, false, None)
  }

  /// The CPU together with the address space it executes against.
  datatype Machine = Machine(regs: Registers, mem: Image)
}
