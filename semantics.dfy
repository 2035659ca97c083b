/// What each instruction handler of src/opcodes.rs does, as a function from
/// the state before to the state after. Handlers of one kind (say, every
/// `ld_r_r'`) share one function here, parameterised by the registers they
/// name; quirks of individual handlers appear as the arguments the handler
/// passes (see module Opcodes). Arithmetic on registers, the program counter
/// and the cycle counter wraps, as the `wrapping_*` calls do and as plain
/// `+=`/`-=` does in a release build.
module Semantics {
  import opened Wrappers
  import opened Bits
  import opened Memory
  import opened RegisterFile
  import opened Stack

  /// The 8-bit registers.
  datatype Reg8 = A | B | C | D | E | H | L

  /// The 16-bit register pairs. The source joins a pair `xy` as
  /// `lsb_msb_to_u16(x, y)`, so the FIRST register named is the low byte.
  datatype Pair = BC | DE | HL

  /// Branch conditions of JR/JP/CALL/RET.
  datatype Condition = Always | IfZero | IfNotZero | IfCarry | IfNotCarry

  /// What the `(HL+)`/`(HL-)` loads do to HL afterwards.
  datatype HlStep = Increment | Decrement | Keep

  /// The 8-bit arithmetic and logic operations on A.
  datatype AluOp = Add | Sub | And | Xor | Or | Cp

  /// Addresses the A-only loads and stores go through.
  datatype Indirect =
    | PortC           // 0xFF00 + C
    | HighPage        // 0xFF00 + the immediate byte
    | LowPage         // 0x0000 + the immediate byte
    | AbsoluteAddress // the immediate word

  /// Source of the word ADD HL adds.
  datatype WordSource = FromPair(pair: Pair) | FromStackPointer

  function Get(s: Registers, r: Reg8): u8 {
    match r
    case A => s.a
    case B => s.b
    case C => s.c
    case D => s.d
    case E => s.e
    case H => s.h
    case L => s.l
  }

  function Set(s: Registers, r: Reg8, value: u8): Registers {
    match r
    case A => s.(a := value)
    case B => s.(b := value)
    case C => s.(c := value)
    case D => s.(d := value)
    case E => s.(e := value)
    case H => s.(h := value)
    case L => s.(l := value)
  }

  /// The register holding a pair's low byte (B, D or H).
  function Low(p: Pair): Reg8 {
    match p
    case BC => B
    case DE => D
    case HL => H
  }

  /// The register holding a pair's high byte (C, E or L).
  function High(p: Pair): Reg8 {
    match p
    case BC => C
    case DE => E
    case HL => L
  }

  function PairValue(s: Registers, p: Pair): u16 {
    LsbMsbToU16(Get(s, Low(p)), Get(s, High(p)))
  }

  /// Store a word into a pair: low byte into the first register, high byte
  /// into the second.
  function WithPair(s: Registers, p: Pair, value: u16): Registers {
    Set(Set(s, Low(p), U16ToLsbMsb(value).0), High(p), U16ToLsbMsb(value).1)
  }

  /// Move past an instruction of `length` bytes that took `cost` cycles.
  function Advance(s: Registers, length: u16, cost: u64): Registers {
    s.(programCounter := WrappingAdd16(s.programCounter, length), cycle := WrappingAdd64(s.cycle, cost))
  }

  predicate Holds(s: Registers, condition: Condition) {
    match condition
    case Always => true
    case IfZero => s.zero
    case IfNotZero => !s.zero
    case IfCarry => s.carry
    case IfNotCarry => !s.carry
  }

  function BitSeven(value: u8): bool {
    IsNthBitSetU8(value, 7)
  }

  function BitFifteen(value: u16): bool {
    IsNthBitSetU16(value, 15)
  }

  /// The byte operand that follows the opcode.
  function Immediate8(mc: Machine): u8 {
    ByteAt(mc.mem, WrappingAdd16(mc.regs.programCounter, 1))
  }

  /// The little-endian word operand that follows the opcode.
  function Immediate16(mc: Machine): u16 {
    WordAt(mc.mem, WrappingAdd16(mc.regs.programCounter, 1))
  }

  // ---------------------------------------------------------------------
  // Instructions on registers only

  /// `ld_r_r'`: copy one register into another.
  function LoadRegister(s: Registers, target: Reg8, source: Reg8): Registers {
    Advance(Set(s, target, Get(s, source)), 1, 1)
  }

  /// `inc_r`: half carry from bit 7 of the old value, zero from the new one.
  function IncrementRegister(s: Registers, r: Reg8): Registers {
    var value := WrappingAdd8(Get(s, r), 1);
    Advance(Set(s, r, value).(halfCarry := BitSeven(Get(s, r)), zero := value == 0, negative := false), 1, 1)
  }

  /// `dec_r`: as `inc_r` but subtracting; the subtract flag becomes
  /// `negative` (true for every register but A, whose handler clears it).
  function DecrementRegister(s: Registers, r: Reg8, negative: bool): Registers {
    var value := WrappingSub8(Get(s, r), 1);
    Advance(Set(s, r, value).(halfCarry := BitSeven(Get(s, r)), zero := value == 0, negative := negative), 1, 1)
  }

  /// `inc_bc`, `inc_de`, `inc_hl`: no flags.
  function IncrementPair(s: Registers, p: Pair): Registers {
    Advance(WithPair(s, p, WrappingAdd16(PairValue(s, p), 1)), 1, 2)
  }

  /// `dec_bc`, `dec_de`, `dec_hl`: no flags.
  function DecrementPair(s: Registers, p: Pair): Registers {
    Advance(WithPair(s, p, WrappingSub16(PairValue(s, p), 1)), 1, 2)
  }

  /// `inc_sp`.
  function IncrementStackPointer(s: Registers): Registers {
    Advance(s.(stackPointer := WrappingAdd16(s.stackPointer, 1)), 1, 2)
  }

  /// `dec_sp`.
  function DecrementStackPointer(s: Registers): Registers {
    Advance(s.(stackPointer := WrappingSub16(s.stackPointer, 1)), 1, 2)
  }

  /// `add_hl_*`: HL plus a word; half carry and carry are bit 15 of the old
  /// HL; the zero flag is written only by the handlers that write it. The
  /// operands are in the source's order (`bc + hl`, but `hl + sp`).
  function AddToHl(s: Registers, source: WordSource, writesZero: bool): Registers {
    var hl := PairValue(s, HL);
    var sum := match source
      case FromPair(p) => WrappingAdd16(PairValue(s, p), hl)
      case FromStackPointer => WrappingAdd16(hl, s.stackPointer);
    var t := WithPair(s, HL, sum).(halfCarry := BitFifteen(hl), carry := BitFifteen(hl), negative := false);
    Advance(if writesZero then t.(zero := sum == 0) else t, 1, 2)
  }

  /// `rlca` (writes carry) and `rla` (does not): A rotated left, the old
  /// bit 7 moving to bit 0; zero, subtract and half carry cleared.
  function RotateLeftA(s: Registers, writesCarry: bool): Registers {
    var out := BitSeven(s.a);
    var t := s.(a := SetBitNStateU8(ShiftLeft8(s.a, 1), 0, out), zero := false, negative := false, halfCarry := false);
    Advance(if writesCarry then t.(carry := out) else t, 1, 1)
  }

  /// `rrca` (writes carry) and `rra` (does not): A rotated right, the old
  /// bit 0 moving to bit 7.
  function RotateRightA(s: Registers, writesCarry: bool): Registers {
    var out := IsNthBitSetU8(s.a, 0);
    var t := s.(a := SetBitNStateU8(ShiftRight8(s.a, 1), 7, out), zero := false, negative := false, halfCarry := false);
    Advance(if writesCarry then t.(carry := out) else t, 1, 1)
  }

  /// `cpl`: A complemented; the handler advances neither PC nor the cycle.
  function ComplementA(s: Registers): Registers {
    s.(a := Not8(s.a))
  }

  /// `scf`: carry set, subtract and half carry cleared; no advance.
  function SetCarryFlag(s: Registers): Registers {
    s.(carry := true, negative := false, halfCarry := false)
  }

  /// `ccf`: carry flipped, subtract and half carry cleared.
  function ComplementCarryFlag(s: Registers): Registers {
    Advance(s.(negative := false, halfCarry := false, carry := !s.carry), 1, 1)
  }

  /// `halt`.
  function EnterHalt(s: Registers): Registers {
    Advance(s.(state := Some(Halt)), 1, 1)
  }

  /// `ei`.
  function EnableInterrupts(s: Registers): Registers {
    Advance(s.(ime := true), 1, 1)
  }

  /// A combined with `value` by `op`, with the flags the source's handlers
  /// write. ADD, SUB and CP take half carry and carry from bit 7 of the old
  /// A; CP computes A - value only for the zero flag.
  function ApplyAlu(s: Registers, op: AluOp, value: u8): Registers {
    match op
    case Add =>
      var result := WrappingAdd8(s.a, value);
      s.(halfCarry := BitSeven(s.a), carry := BitSeven(s.a), a := result, zero := result == 0, negative := false)
    case Sub =>
      var result := WrappingSub8(s.a, value);
      s.(halfCarry := BitSeven(s.a), carry := BitSeven(s.a), a := result, negative := true, zero := result == 0)
    case And =>
      var result := And8(s.a, value);
      s.(a := result, zero := result == 0, negative := false, halfCarry := true, carry := false)
    case Xor =>
      var result := Xor8(s.a, value);
      s.(a := result, zero := result == 0, negative := false, halfCarry := false, carry := false)
    case Or =>
      var result := Or8(s.a, value);
      s.(a := result, zero := result == 0, negative := false, halfCarry := false, carry := false)
    case Cp =>
      s.(zero := WrappingSub8(s.a, value) == 0, negative := true, halfCarry := BitSeven(s.a), carry := BitSeven(s.a))
  }

  /// `add_a_r`, `sub_r`, `and_r`, `xor_r`, `or_r`, `cp_r`.
  function AluRegister(s: Registers, op: AluOp, r: Reg8): Registers {
    Advance(ApplyAlu(s, op, Get(s, r)), 1, 1)
  }

  /// `jp_hl`: jump to HL; the cycle counter grows by one.
  function JumpToHl(s: Registers): Registers {
    s.(programCounter := PairValue(s, HL), cycle := WrappingAdd64(s.cycle, 1))
  }

  /// `ld_sp_hl`.
  function LoadStackPointerFromHl(s: Registers): Registers {
    Advance(s.(stackPointer := PairValue(s, HL)), 1, 2)
  }

  // ---------------------------------------------------------------------
  // Instructions that read memory but do not write it

  /// `ld_r_d8`.
  function LoadImmediate(mc: Machine, r: Reg8): Machine {
    Machine(Advance(Set(mc.regs, r, Immediate8(mc)), 2, 2), mc.mem)
  }

  /// `ld_bc_d16`, `ld_de_d16`, `ld_hl_d16`.
  function LoadPairImmediate(mc: Machine, p: Pair): Machine {
    Machine(Advance(WithPair(mc.regs, p, Immediate16(mc)), 3, 3), mc.mem)
  }

  /// `ld_sp_d16`.
  function LoadStackPointerImmediate(mc: Machine): Machine {
    Machine(Advance(mc.regs.(stackPointer := Immediate16(mc)), 3, 3), mc.mem)
  }

  /// `ld_a_bc`, `ld_a_de`, `ld_r_hl`: load from the address in a pair.
  function LoadFromPair(mc: Machine, r: Reg8, p: Pair): Machine {
    Machine(Advance(Set(mc.regs, r, ByteAt(mc.mem, PairValue(mc.regs, p))), 1, 2), mc.mem)
  }

  function Stepped(address: u16, step: HlStep): u16 {
    match step
    case Increment => WrappingAdd16(address, 1)
    case Decrement => WrappingSub16(address, 1)
    case Keep => address
  }

  /// `ld_a_hl_inc` (`Increment`) and `ld_a_hl_dec` (as written, `Keep`):
  /// A loaded from the address in HL, then HL written back stepped.
  function LoadAFromHl(mc: Machine, step: HlStep): Machine {
    var address := PairValue(mc.regs, HL);
    var loaded := mc.regs.(a := ByteAt(mc.mem, address));
    Machine(Advance(WithPair(loaded, HL, Stepped(address, step)), 1, 2), mc.mem)
  }

  function IndirectAddress(mc: Machine, via: Indirect): u16 {
    match via
    case PortC => LsbMsbToU16(mc.regs.c, 0xFF)
    case HighPage => LsbMsbToU16(Immediate8(mc), 0xFF)
    case LowPage => Immediate8(mc) as u16
    case AbsoluteAddress => Immediate16(mc)
  }

  function IndirectLength(via: Indirect): u16 {
    match via
    case PortC => 1
    case HighPage => 2
    case LowPage => 2
    case AbsoluteAddress => 3
  }

  function IndirectCost(via: Indirect): u64 {
    match via
    case PortC => 2
    case HighPage => 3
    case LowPage => 3
    case AbsoluteAddress => 4
  }

  /// `ld_a_port_c`, `ld_a_a16`: A loaded through an indirect address.
  function LoadA(mc: Machine, via: Indirect): Machine {
    var value := ByteAt(mc.mem, IndirectAddress(mc, via));
    Machine(Advance(mc.regs.(a := value), IndirectLength(via), IndirectCost(via)), mc.mem)
  }

  /// `add_a_hl`, `sub_hl`, `and_hl`, `xor_hl`, `or_hl`, `cp_hl`.
  function AluAtHl(mc: Machine, op: AluOp): Machine {
    Machine(Advance(ApplyAlu(mc.regs, op, ByteAt(mc.mem, PairValue(mc.regs, HL))), 1, 2), mc.mem)
  }

  /// Length of the immediate ALU forms: two bytes, except that `or_d8`
  /// advances the program counter by one.
  function ImmediateAluLength(op: AluOp): u16 {
    if op == Or then 1 else 2
  }

  /// Cost of the immediate ALU forms: two cycles, except one for `or_d8`.
  function ImmediateAluCost(op: AluOp): u64 {
    if op == Or then 1 else 2
  }

  /// `add_a_d8`, `sub_d8`, `and_d8`, `xor_d8`, `or_d8`, `cp_d8`.
  function AluImmediate(mc: Machine, op: AluOp): Machine {
    Machine(Advance(ApplyAlu(mc.regs, op, Immediate8(mc)), ImmediateAluLength(op), ImmediateAluCost(op)), mc.mem)
  }

  /// `jr_s8` and the conditional `jr_*_s8`: taken, the program counter grows
  /// by the zero-extended offset byte (not by 2 plus a signed offset) at
  /// cost 3; not taken, the instruction is skipped at cost 2.
  function JumpRelative(mc: Machine, condition: Condition): Machine {
    var s := mc.regs;
    if Holds(s, condition) then
      Machine(s.(programCounter := WrappingAdd16(s.programCounter, Immediate8(mc) as u16), cycle := WrappingAdd64(s.cycle, 3)), mc.mem)
    else
      Machine(Advance(s, 2, 2), mc.mem)
  }

  /// `jp_a16` and the conditional `jp_*_a16`: taken, jump to the immediate
  /// word at cost 4; not taken, skip at cost 3.
  function JumpAbsolute(mc: Machine, condition: Condition): Machine {
    var s := mc.regs;
    if Holds(s, condition) then
      Machine(s.(programCounter := Immediate16(mc), cycle := WrappingAdd64(s.cycle, 4)), mc.mem)
    else
      Machine(Advance(s, 3, 3), mc.mem)
  }

  /// `ld_hl_sp_plus_s8`: HL becomes SP plus the zero-extended offset byte;
  /// half carry and carry are bit 15 of SP; zero and subtract cleared.
  function LoadHlStackPointerOffset(mc: Machine): Machine {
    var s := mc.regs;
    var flagged := s.(zero := false, negative := false, halfCarry := BitFifteen(s.stackPointer), carry := BitFifteen(s.stackPointer));
    Machine(Advance(WithPair(flagged, HL, WrappingAdd16(s.stackPointer, Immediate8(mc) as u16)), 2, 3), mc.mem)
  }

  /// `add_sp_s8`: SP plus the zero-extended offset byte, flags as above.
  function AddToStackPointer(mc: Machine): Machine {
    var s := mc.regs;
    var flagged := s.(zero := false, negative := false, halfCarry := BitFifteen(s.stackPointer), carry := BitFifteen(s.stackPointer));
    Machine(Advance(flagged.(stackPointer := WrappingAdd16(s.stackPointer, Immediate8(mc) as u16)), 2, 4), mc.mem)
  }

  /// All five interrupt-enable bits (bits 0 to 4 of 0xFFFF) are clear.
  predicate AllInterruptsDisabled(m: Image) {
    && !InterruptBitSet(m, INTERRUPT_ENABLE_ADDRESS, VBlank(None))
    && !InterruptBitSet(m, INTERRUPT_ENABLE_ADDRESS, LcdStat(None))
    && !InterruptBitSet(m, INTERRUPT_ENABLE_ADDRESS, Timer(None))
    && !InterruptBitSet(m, INTERRUPT_ENABLE_ADDRESS, Serial(None))
    && !InterruptBitSet(m, INTERRUPT_ENABLE_ADDRESS, Joypad(None))
  }

  /// `stop`: enter the Stop state only when no interrupt is enabled; the
  /// program counter moves by 2 and the cycle by 1 either way.
  function EnterStop(mc: Machine): Machine {
    var s := mc.regs;
    var t := if AllInterruptsDisabled(mc.mem) then s.(state := Some(Stop)) else s;
    Machine(Advance(t, 2, 1), mc.mem)
  }

  // ---------------------------------------------------------------------
  // Instructions that write memory

  /// `ld_bc_a`, `ld_de_a`, `ld_hl_r`: store a register at the address in a pair.
  function StoreToPair(mc: Machine, p: Pair, r: Reg8): Machine {
    Machine(Advance(mc.regs, 1, 2), WithByte(mc.mem, PairValue(mc.regs, p), Get(mc.regs, r)))
  }

  /// `ld_hl_inc_a` and `ld_hl_dec_a`: A stored at HL, then HL stepped.
  function StoreAToHl(mc: Machine, step: HlStep): Machine {
    var address := PairValue(mc.regs, HL);
    Machine(Advance(WithPair(mc.regs, HL, Stepped(address, step)), 1, 2), WithByte(mc.mem, address, mc.regs.a))
  }

  /// `ld_a8_a`, `ld_port_c_a`, `ld_a16_a`, and `ld_a_a8` as written: A
  /// stored through an indirect address.
  function StoreA(mc: Machine, via: Indirect): Machine {
    Machine(Advance(mc.regs, IndirectLength(via), IndirectCost(via)), WithByte(mc.mem, IndirectAddress(mc, via), mc.regs.a))
  }

  /// `ld_hl_d8`.
  function StoreImmediateAtHl(mc: Machine): Machine {
    Machine(Advance(mc.regs, 2, 3), WithByte(mc.mem, PairValue(mc.regs, HL), Immediate8(mc)))
  }

  /// `ld_a16_sp`: SP stored little-endian at the immediate address.
  function StoreStackPointer(mc: Machine): Machine {
    var address := Immediate16(mc);
    var (lsb, msb) := U16ToLsbMsb(mc.regs.stackPointer);
    Machine(Advance(mc.regs, 3, 5), WithByte(WithByte(mc.mem, address, lsb), WrappingAdd16(address, 1), msb))
  }

  /// `inc_hl_address`: the byte at HL incremented; half carry is bit 7 of
  /// the NEW byte.
  function IncrementAtHl(mc: Machine): Machine {
    var address := PairValue(mc.regs, HL);
    var value := WrappingAdd8(ByteAt(mc.mem, address), 1);
    var s := mc.regs.(zero := value == 0, negative := false, halfCarry := BitSeven(value));
    Machine(Advance(s, 1, 3), WithByte(mc.mem, address, value))
  }

  /// `dec_hl_address`: the byte at HL decremented; half carry is bit 7 of
  /// the NEW byte.
  function DecrementAtHl(mc: Machine): Machine {
    var address := PairValue(mc.regs, HL);
    var value := WrappingSub8(ByteAt(mc.mem, address), 1);
    var s := mc.regs.(zero := value == 0, negative := true, halfCarry := BitSeven(value));
    Machine(Advance(s, 1, 3), WithByte(mc.mem, address, value))
  }

  /// `push_bc`, `push_de`, `push_hl`.
  function PushPair(mc: Machine, p: Pair): Machine {
    var pushed := PushU16(mc, PairValue(mc.regs, p));
    Machine(Advance(pushed.regs, 1, 4), pushed.mem)
  }

  /// `pop_bc`, `pop_de`, `pop_hl`: the first byte popped goes to the first
  /// register named, the second to the second.
  function PopPair(mc: Machine, p: Pair): Machine {
    var (first, once) := PopU8(mc);
    var (second, twice) := PopU8(once);
    Machine(Advance(Set(Set(twice.regs, Low(p), first), High(p), second), 1, 3), twice.mem)
  }

  /// The flag byte `push_af` builds: carry in bit 0, half carry in bit 1,
  /// subtract in bit 2, zero in bit 3, bits 4 to 7 clear.
  function FlagsByte(s: Registers): u8 {
    var withCarry := SetBitNStateU8(0, 0, s.carry);
    var withHalf := SetBitNStateU8(withCarry, 1, s.halfCarry);
    var withNegative := SetBitNStateU8(withHalf, 2, s.negative);
    SetBitNStateU8(withNegative, 3, s.zero)
  }

  /// The four flags read back from a flag byte as `pop_af` reads them.
  function WithFlagsFrom(s: Registers, flags: u8): Registers {
    s.(carry := IsNthBitSetU8(flags, 0), halfCarry := IsNthBitSetU8(flags, 1),
       negative := IsNthBitSetU8(flags, 2), zero := IsNthBitSetU8(flags, 3))
  }

  /// `push_af`: A pushed first, then the flag byte.
  function PushAccumulatorAndFlags(mc: Machine): Machine {
    var withA := PushU8(mc, mc.regs.a);
    var withFlags := PushU8(withA, FlagsByte(mc.regs));
    Machine(Advance(withFlags.regs, 1, 4), withFlags.mem)
  }

  /// `pop_af`: the flag byte popped first, then A.
  function PopAccumulatorAndFlags(mc: Machine): Machine {
    var (flags, once) := PopU8(mc);
    var (a, twice) := PopU8(once);
    Machine(Advance(WithFlagsFrom(twice.regs, flags).(a := a), 1, 3), twice.mem)
  }

  /// `ret`: pop the program counter; cost 4.
  function Return(mc: Machine): Machine {
    var (target, popped) := PopU16(mc);
    Machine(popped.regs.(programCounter := target, cycle := WrappingAdd64(popped.regs.cycle, 4)), popped.mem)
  }

  /// `ret_nz`, `ret_z`, `ret_nc`, `ret_c`: taken, pop the program counter at
  /// cost 5; not taken, skip one byte at cost 2.
  function ReturnIf(mc: Machine, condition: Condition): Machine {
    if Holds(mc.regs, condition) then
      var (target, popped) := PopU16(mc);
      Machine(popped.regs.(programCounter := target, cycle := WrappingAdd64(popped.regs.cycle, 5)), popped.mem)
    else
      Machine(Advance(mc.regs, 1, 2), mc.mem)
  }

  /// `call_nz_a16`, `call_z_a16`, `call_nc_a16`, `call_c_a16`: taken, push
  /// PC + 3, then jump to the word at PC + 1 as memory reads AFTER the push,
  /// at cost 6; not taken, skip at cost 3.
  function CallIf(mc: Machine, condition: Condition): Machine {
    var pc := mc.regs.programCounter;
    if Holds(mc.regs, condition) then
      var pushed := PushU16(mc, WrappingAdd16(pc, 3));
      Machine(pushed.regs.(programCounter := WordAt(pushed.mem, WrappingAdd16(pc, 1)), cycle := WrappingAdd64(pushed.regs.cycle, 6)), pushed.mem)
    else
      Machine(Advance(mc.regs, 3, 3), mc.mem)
  }

  /// `call_a16` as written: it pushes the WORD STORED at PC + 3 (not the
  /// address PC + 3), then jumps to the word at PC + 1 after the push.
  function CallPushingStoredWord(mc: Machine): Machine {
    var pc := mc.regs.programCounter;
    var pushed := PushU16(mc, WordAt(mc.mem, WrappingAdd16(pc, 3)));
    Machine(pushed.regs.(programCounter := WordAt(pushed.mem, WrappingAdd16(pc, 1)), cycle := WrappingAdd64(pushed.regs.cycle, 6)), pushed.mem)
  }

  /// The interrupt-enable byte after the five `set_interrupt_flag_state`
  /// calls with `Some(false)` that DI and RETI make, in their order.
  function WithInterruptsDisabled(m: Image): Image {
    var vblank := WithInterruptBit(m, INTERRUPT_ENABLE_ADDRESS, VBlank(Some(false)));
    var lcdStat := WithInterruptBit(vblank, INTERRUPT_ENABLE_ADDRESS, LcdStat(Some(false)));
    var timer := WithInterruptBit(lcdStat, INTERRUPT_ENABLE_ADDRESS, Timer(Some(false)));
    var serial := WithInterruptBit(timer, INTERRUPT_ENABLE_ADDRESS, Serial(Some(false)));
    WithInterruptBit(serial, INTERRUPT_ENABLE_ADDRESS, Joypad(Some(false)))
  }

  /// `di`: clear the five enable bits and the master enable.
  function DisableInterrupts(mc: Machine): Machine {
    Machine(Advance(mc.regs.(ime := false), 1, 1), WithInterruptsDisabled(mc.mem))
  }

  /// `reti`: pop the program counter, clear the master enable and the five
  /// enable bits; cost 4.
  function ReturnFromInterrupt(mc: Machine): Machine {
    var (target, popped) := PopU16(mc);
    var s := popped.regs.(programCounter := target, ime := false);
    Machine(s.(cycle := WrappingAdd64(s.cycle, 4)), WithInterruptsDisabled(popped.mem))
  }
}
