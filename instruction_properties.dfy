/// Properties of the instruction semantics of src/opcodes.rs: what the flag
/// updates mean, which instructions undo each other, and what the
/// conditional instructions do when their condition fails. Each handler
/// method is proved equal to its function in module Semantics, so these
/// lemmas hold of the handlers too.
module InstructionProperties {
  import opened Wrappers
  import opened Bits
  import opened Memory
  import opened RegisterFile
  import opened Stack
  import opened Semantics

  // ---------------------------------------------------------------------
  // Registers and register pairs

  /// `ld_r_r'` copies the source byte into the target, leaves every other
  /// register, the flags and the stack pointer alone, and advances PC and
  /// the cycle by one. (`ld_c_e` and `ld_c_h` are `LoadRegister(s, C, B)`.)
  lemma LoadRegisterCopies(s: Registers, target: Reg8, source: Reg8)
    ensures Get(LoadRegister(s, target, source), target) == Get(s, source)
    ensures forall r: Reg8 :: r != target ==> Get(LoadRegister(s, target, source), r) == Get(s, r)
    ensures var t := LoadRegister(s, target, source);
      && t.zero == s.zero && t.negative == s.negative && t.halfCarry == s.halfCarry && t.carry == s.carry
      && t.stackPointer == s.stackPointer && t.ime == s.ime && t.state == s.state
      && t.programCounter == WrappingAdd16(s.programCounter, 1) && t.cycle == WrappingAdd64(s.cycle, 1)
  {
  }

  /// Writing a word into a pair reads back as that word, and leaves the
  /// other pairs, A and the flags as they were.
  lemma PairReadsBack(s: Registers, p: Pair, value: u16)
    ensures PairValue(WithPair(s, p, value), p) == value
    ensures forall q: Pair :: q != p ==> PairValue(WithPair(s, p, value), q) == PairValue(s, q)
    ensures WithPair(s, p, value).a == s.a && WithPair(s, p, value).stackPointer == s.stackPointer
  {
    SplitThenJoin(value);
  }

  /// `ld_bc_d16` and its siblings: the pair holds the immediate word, the
  /// first register named holding its low byte (the byte right after the
  /// opcode); instruction length 3, cost 3, memory untouched.
  lemma LoadPairImmediateLoadsWord(mc: Machine, p: Pair)
    ensures PairValue(LoadPairImmediate(mc, p).regs, p) == Immediate16(mc)
    ensures Get(LoadPairImmediate(mc, p).regs, Low(p)) == ByteAt(mc.mem, WrappingAdd16(mc.regs.programCounter, 1))
    ensures Get(LoadPairImmediate(mc, p).regs, High(p)) == ByteAt(mc.mem, WrappingAdd16(mc.regs.programCounter, 2))
    ensures LoadPairImmediate(mc, p).mem == mc.mem
    ensures LoadPairImmediate(mc, p).regs.programCounter == WrappingAdd16(mc.regs.programCounter, 3)
  {
    PairReadsBack(mc.regs, p, Immediate16(mc));
    StepsOfOne16(WrappingAdd16(mc.regs.programCounter, 2));
    WrappingIsModular16(mc.regs.programCounter, 1);
    WrappingIsModular16(mc.regs.programCounter, 2);
    WrappingIsModular16(WrappingAdd16(mc.regs.programCounter, 1), 1);
  }

  /// `inc_bc`/`dec_bc` and their siblings add or subtract one modulo 2^16.
  lemma PairStepsWrap(s: Registers, p: Pair)
    ensures PairValue(IncrementPair(s, p), p) as int == (PairValue(s, p) as int + 1) % 0x1_0000
    ensures PairValue(DecrementPair(s, p), p) as int == (PairValue(s, p) as int - 1) % 0x1_0000
  {
    PairReadsBack(s, p, WrappingAdd16(PairValue(s, p), 1));
    PairReadsBack(s, p, WrappingSub16(PairValue(s, p), 1));
    WrappingIsModular16(PairValue(s, p), 1);
  }

  /// `dec_bc` undoes `inc_bc`.
  lemma DecrementPairUndoesIncrement(s: Registers, p: Pair)
    ensures PairValue(DecrementPair(IncrementPair(s, p), p), p) == PairValue(s, p)
  {
    var once := IncrementPair(s, p);
    PairReadsBack(s, p, WrappingAdd16(PairValue(s, p), 1));
    PairReadsBack(once, p, WrappingSub16(PairValue(once, p), 1));
    AddThenSub16(PairValue(s, p), 1);
  }

  // ---------------------------------------------------------------------
  // INC and DEC of a register

  /// `inc_r`: the register grows by one modulo 256; zero is set exactly when
  /// it wraps from 0xFF; half carry is bit 7 of the OLD value; carry is never
  /// written; no other register changes.
  lemma IncrementRegisterFlags(s: Registers, r: Reg8)
    ensures Get(IncrementRegister(s, r), r) as int == (Get(s, r) as int + 1) % 0x100
    ensures IncrementRegister(s, r).zero <==> Get(s, r) == 0xFF
    ensures IncrementRegister(s, r).halfCarry <==> Get(s, r) >= 0x80
    ensures IncrementRegister(s, r).carry == s.carry && !IncrementRegister(s, r).negative
    ensures forall q: Reg8 :: q != r ==> Get(IncrementRegister(s, r), q) == Get(s, q)
  {
    WrappingIsModular8(Get(s, r), 1);
    IncrementWrapsAtTop(Get(s, r));
    BitSevenIsSignBit(Get(s, r));
  }

  /// `inc_b` on 0xFF: B becomes 0 with zero and half carry set, carry as it was.
  lemma IncrementAtTop(s: Registers)
    requires s.b == 0xFF
    ensures IncrementRegister(s, B).b == 0 && IncrementRegister(s, B).zero
    ensures IncrementRegister(s, B).halfCarry && IncrementRegister(s, B).carry == s.carry
  {
    IncrementRegisterFlags(s, B);
  }

  /// `dec_r`: the register shrinks by one modulo 256; zero is set exactly
  /// when it was 1; half carry is bit 7 of the OLD value; carry is never
  /// written.
  lemma DecrementRegisterFlags(s: Registers, r: Reg8, negative: bool)
    ensures Get(DecrementRegister(s, r, negative), r) as int == (Get(s, r) as int - 1) % 0x100
    ensures DecrementRegister(s, r, negative).zero <==> Get(s, r) == 1
    ensures DecrementRegister(s, r, negative).halfCarry <==> Get(s, r) >= 0x80
    ensures DecrementRegister(s, r, negative).carry == s.carry
    ensures DecrementRegister(s, r, negative).negative == negative
  {
    WrappingIsModular8(Get(s, r), 1);
    DecrementWrapsAtBottom(Get(s, r));
    BitSevenIsSignBit(Get(s, r));
  }

  // ---------------------------------------------------------------------
  // 8-bit arithmetic and logic

  /// `xor_a` always clears A, sets zero, clears the other three flags and
  /// advances PC by one.
  lemma XorAClears(s: Registers)
    ensures AluRegister(s, Xor, A).a == 0 && AluRegister(s, Xor, A).zero
    ensures !AluRegister(s, Xor, A).negative && !AluRegister(s, Xor, A).halfCarry && !AluRegister(s, Xor, A).carry
    ensures AluRegister(s, Xor, A).programCounter == WrappingAdd16(s.programCounter, 1)
  {
    XorSelf(s.a);
  }

  /// The bitwise forms work bit by bit on A and the operand; AND sets half
  /// carry, and all three clear subtract and carry.
  lemma BitwiseAlu(s: Registers, value: u8, k: u8)
    requires k < 8
    ensures IsNthBitSetU8(ApplyAlu(s, And, value).a, k) == (IsNthBitSetU8(s.a, k) && IsNthBitSetU8(value, k))
    ensures IsNthBitSetU8(ApplyAlu(s, Or, value).a, k) == (IsNthBitSetU8(s.a, k) || IsNthBitSetU8(value, k))
    ensures IsNthBitSetU8(ApplyAlu(s, Xor, value).a, k) == (IsNthBitSetU8(s.a, k) != IsNthBitSetU8(value, k))
    ensures ApplyAlu(s, And, value).halfCarry && !ApplyAlu(s, And, value).carry && !ApplyAlu(s, And, value).negative
    ensures !ApplyAlu(s, Or, value).carry && !ApplyAlu(s, Xor, value).carry
  {
    BitSetReadsBit(s.a, k);
    BitSetReadsBit(value, k);
    BitSetReadsBit(And8(s.a, value), k);
    BitSetReadsBit(Or8(s.a, value), k);
    BitSetReadsBit(Xor8(s.a, value), k);
    BitOfAnd(s.a as nat, value as nat, k as nat);
    BitOfOr(s.a as nat, value as nat, k as nat);
    BitOfXor(s.a as nat, value as nat, k as nat);
  }

  /// `cp`: zero is set exactly when A equals the operand, subtract is set,
  /// carry and half carry are bit 7 of A, and A is unchanged.
  lemma CompareSetsZeroIffEqual(s: Registers, value: u8)
    ensures ApplyAlu(s, Cp, value).zero <==> s.a == value
    ensures ApplyAlu(s, Cp, value).a == s.a && ApplyAlu(s, Cp, value).negative
    ensures ApplyAlu(s, Cp, value).carry <==> s.a >= 0x80
  {
    SubIsZeroIffEqual(s.a, value);
    BitSevenIsSignBit(s.a);
  }

  /// `add` and `sub`: A becomes the sum or difference modulo 256; zero says
  /// whether that is 0; carry is bit 7 of the OLD A, not the carry out of the
  /// addition. Subtracting what was added gives back A.
  lemma AddAndSubtract(s: Registers, value: u8)
    ensures ApplyAlu(s, Add, value).a as int == (s.a as int + value as int) % 0x100
    ensures ApplyAlu(s, Sub, value).a as int == (s.a as int - value as int) % 0x100
    ensures ApplyAlu(s, Add, value).zero <==> ApplyAlu(s, Add, value).a == 0
    ensures ApplyAlu(s, Add, value).carry <==> s.a >= 0x80
    ensures ApplyAlu(ApplyAlu(s, Add, value), Sub, value).a == s.a
  {
    WrappingIsModular8(s.a, value);
    WrappingIsModular8(WrappingAdd8(s.a, value), value);
    BitSevenIsSignBit(s.a);
  }

  /// `cpl` complements every bit of A, twice gives A back, and it advances
  /// neither PC nor the cycle.
  lemma ComplementAFlipsBits(s: Registers, k: u8)
    requires k < 8
    ensures IsNthBitSetU8(ComplementA(s).a, k) == !IsNthBitSetU8(s.a, k)
    ensures ComplementA(ComplementA(s)) == s
    ensures ComplementA(s).programCounter == s.programCounter && ComplementA(s).cycle == s.cycle
  {
    BitSetReadsBit(s.a, k);
    BitSetReadsBit(Not8(s.a), k);
    PowersOfTwo();
    BitOfComplement(8, s.a as nat, k as nat);
  }

  /// `rlca` and `rla` rotate A left by one place: bit `k` moves to bit
  /// `k + 1` and bit 7 comes round to bit 0. `rlca` also copies the old
  /// bit 7 into carry; `rla` leaves carry alone. Both clear Z, N and H and
  /// advance PC and the cycle by one.
  lemma RotateLeftARotates(s: Registers, writesCarry: bool, k: u8)
    requires k < 8
    ensures IsNthBitSetU8(RotateLeftA(s, writesCarry).a, k) == IsNthBitSetU8(s.a, (k + 7) % 8)
    ensures RotateLeftA(s, writesCarry).carry == if writesCarry then IsNthBitSetU8(s.a, 7) else s.carry
    ensures var t := RotateLeftA(s, writesCarry);
      && !t.zero && !t.negative && !t.halfCarry
      && t.programCounter == WrappingAdd16(s.programCounter, 1) && t.cycle == WrappingAdd64(s.cycle, 1)
  {
    var rotated := SetBitNStateU8(ShiftLeft8(s.a, 1), 0, BitSeven(s.a));
    assert RotateLeftA(s, writesCarry).a == rotated;
    SetBitNStateReadsBit(ShiftLeft8(s.a, 1), 0, BitSeven(s.a), k);
    if k > 0 {
      ShiftLeftOneBits(s.a, k);
      assert (k + 7) % 8 == k - 1;
    }
  }

  /// `rrca` and `rra` rotate A right by one place: bit `k + 1` moves to bit
  /// `k` and bit 0 comes round to bit 7. `rrca` also copies the old bit 0
  /// into carry; `rra` leaves carry alone.
  lemma RotateRightARotates(s: Registers, writesCarry: bool, k: u8)
    requires k < 8
    ensures IsNthBitSetU8(RotateRightA(s, writesCarry).a, k) == IsNthBitSetU8(s.a, (k + 1) % 8)
    ensures RotateRightA(s, writesCarry).carry == if writesCarry then IsNthBitSetU8(s.a, 0) else s.carry
    ensures var t := RotateRightA(s, writesCarry);
      && !t.zero && !t.negative && !t.halfCarry
      && t.programCounter == WrappingAdd16(s.programCounter, 1) && t.cycle == WrappingAdd64(s.cycle, 1)
  {
    var rotated := SetBitNStateU8(ShiftRight8(s.a, 1), 7, IsNthBitSetU8(s.a, 0));
    assert RotateRightA(s, writesCarry).a == rotated;
    SetBitNStateReadsBit(ShiftRight8(s.a, 1), 7, IsNthBitSetU8(s.a, 0), k);
    if k < 7 {
      ShiftRightOneBits(s.a, k);
      assert (k + 1) % 8 == k + 1;
    } else {
      assert (k + 1) % 8 == 0;
    }
  }

  /// A right rotation undoes a left rotation.
  lemma RotateRightUndoesLeft(s: Registers, writesCarry: bool)
    ensures RotateRightA(RotateLeftA(s, writesCarry), writesCarry).a == s.a
  {
    var t := RotateLeftA(s, writesCarry);
    var back := RotateRightA(t, writesCarry).a;
    forall k: u8 | k < 8
      ensures IsNthBitSetU8(back, k) == IsNthBitSetU8(s.a, k)
    {
      RotateBackBit(s, writesCarry, k);
    }
    BitsDetermineByte(back, s.a);
  }

  lemma RotateBackBit(s: Registers, writesCarry: bool, k: u8)
    requires k < 8
    ensures IsNthBitSetU8(RotateRightA(RotateLeftA(s, writesCarry), writesCarry).a, k) == IsNthBitSetU8(s.a, k)
  {
    var j := (k + 1) % 8;
    assert (j + 7) % 8 == k;
    RotateRightARotates(RotateLeftA(s, writesCarry), writesCarry, k);
    RotateLeftARotates(s, writesCarry, j);
  }

  /// As written, `rla` and `rra` bring the old bit 7 (or bit 0) round into
  /// A, not the old carry: the carry flag has no effect on the result, so a
  /// zero A stays zero even with carry set.
  lemma RotateThroughCarryIgnoresCarry(s: Registers)
    ensures RotateLeftA(s, false).a == RotateLeftA(s.(carry := !s.carry), false).a
    ensures RotateRightA(s, false).a == RotateRightA(s.(carry := !s.carry), false).a
    ensures s.a == 0 ==> RotateLeftA(s, false).a == 0 && RotateRightA(s, false).a == 0
  {
    if s.a == 0 {
      var left, right := RotateLeftA(s, false).a, RotateRightA(s, false).a;
      forall k: u8 | k < 8
        ensures IsNthBitSetU8(left, k) == IsNthBitSetU8(0, k)
        ensures IsNthBitSetU8(right, k) == IsNthBitSetU8(0, k)
      {
        RotateLeftARotates(s, false, k);
        RotateRightARotates(s, false, k);
      }
      BitsDetermineByte(left, 0);
      BitsDetermineByte(right, 0);
    }
  }

  /// `scf` sets carry, clears subtract and half carry, and advances neither
  /// PC nor the cycle; `ccf` twice restores carry.
  lemma CarryFlagInstructions(s: Registers)
    ensures SetCarryFlag(s).carry && !SetCarryFlag(s).negative && !SetCarryFlag(s).halfCarry
    ensures SetCarryFlag(s).programCounter == s.programCounter && SetCarryFlag(s).cycle == s.cycle
    ensures ComplementCarryFlag(s).carry == !s.carry
    ensures ComplementCarryFlag(ComplementCarryFlag(s)).carry == s.carry
  {
  }

  // ---------------------------------------------------------------------
  // Control flow

  /// The conditional forms when their condition fails: JR skips 2 bytes at
  /// cost 2, JP and CALL skip 3 at cost 3, RET skips 1 at cost 2; nothing
  /// else changes.
  lemma ConditionNotTaken(mc: Machine, condition: Condition)
    requires !Holds(mc.regs, condition)
    ensures JumpRelative(mc, condition) == Machine(Advance(mc.regs, 2, 2), mc.mem)
    ensures JumpAbsolute(mc, condition) == Machine(Advance(mc.regs, 3, 3), mc.mem)
    ensures CallIf(mc, condition) == Machine(Advance(mc.regs, 3, 3), mc.mem)
    ensures ReturnIf(mc, condition) == Machine(Advance(mc.regs, 1, 2), mc.mem)
  {
  }

  /// `jr_nc_s8` and `jr_c_s8` both test `IfCarry`: they jump exactly when
  /// carry is SET, and never when it is clear.
  lemma RelativeJumpOnCarry(mc: Machine)
    ensures JumpRelative(mc, IfCarry).regs.cycle == WrappingAdd64(mc.regs.cycle, if mc.regs.carry then 3 else 2)
    ensures mc.regs.carry ==>
      JumpRelative(mc, IfCarry).regs.programCounter == WrappingAdd16(mc.regs.programCounter, Immediate8(mc) as u16)
  {
  }

  /// A taken CALL followed by RET returns to the byte after the CALL with
  /// the stack pointer restored.
  lemma CallThenReturn(mc: Machine, condition: Condition)
    requires Holds(mc.regs, condition)
    ensures Return(CallIf(mc, condition)).regs.programCounter == WrappingAdd16(mc.regs.programCounter, 3)
    ensures Return(CallIf(mc, condition)).regs.stackPointer == mc.regs.stackPointer
  {
    PopU16AfterPushU16(mc, WrappingAdd16(mc.regs.programCounter, 3));
    var pushed := PushU16(mc, WrappingAdd16(mc.regs.programCounter, 3));
    var called := CallIf(mc, condition);
    assert called.regs.stackPointer == pushed.regs.stackPointer && called.mem == pushed.mem;
    assert PopU16(called) == (PopU16(pushed).0, Machine(PopU16(pushed).1.regs.(programCounter := called.regs.programCounter, cycle := called.regs.cycle), called.mem));
  }

  /// `call_a16` as written: the RET that follows it returns to the word
  /// stored at PC + 3, not to PC + 3.
  lemma UnconditionalCallReturnsToStoredWord(mc: Machine)
    ensures Return(CallPushingStoredWord(mc)).regs.programCounter
         == WordAt(mc.mem, WrappingAdd16(mc.regs.programCounter, 3))
    ensures Return(CallPushingStoredWord(mc)).regs.stackPointer == mc.regs.stackPointer
  {
    var stored := WordAt(mc.mem, WrappingAdd16(mc.regs.programCounter, 3));
    PopU16AfterPushU16(mc, stored);
    var pushed := PushU16(mc, stored);
    var called := CallPushingStoredWord(mc);
    assert called.regs.stackPointer == pushed.regs.stackPointer && called.mem == pushed.mem;
    assert PopU16(called) == (PopU16(pushed).0, Machine(PopU16(pushed).1.regs.(programCounter := called.regs.programCounter, cycle := called.regs.cycle), called.mem));
  }

  // ---------------------------------------------------------------------
  // The stack

  /// POP rr after PUSH rr restores every register, the stack pointer
  /// included; only PC (1 + 1) and the cycle (4 + 3) move.
  lemma PopPairUndoesPush(mc: Machine, p: Pair)
    ensures PopPair(PushPair(mc, p), p).regs == Advance(Advance(mc.regs, 1, 4), 1, 3)
  {
    var value := PairValue(mc.regs, p);
    JoinThenSplit(Get(mc.regs, Low(p)), Get(mc.regs, High(p)));
    var pushed := PushPair(mc, p);
    var bare := PushU16(mc, value);
    StackIsLastInFirstOut(mc, Get(mc.regs, High(p)), Get(mc.regs, Low(p)));
    assert pushed == Machine(Advance(bare.regs, 1, 4), bare.mem);
    assert bare == PushU8(PushU8(mc, Get(mc.regs, High(p))), Get(mc.regs, Low(p)));
  }

  /// The flag byte keeps each flag in its bit, and bits 4 to 7 are clear;
  /// reading it back with `WithFlagsFrom` restores the four flags exactly.
  lemma FlagsByteRoundTrip(s: Registers, t: Registers)
    ensures WithFlagsFrom(t, FlagsByte(s)) == t.(carry := s.carry, halfCarry := s.halfCarry, negative := s.negative, zero := s.zero)
    ensures forall k: u8 :: 4 <= k < 8 ==> !IsNthBitSetU8(FlagsByte(s), k)
  {
    var withCarry := SetBitNStateU8(0, 0, s.carry);
    var withHalf := SetBitNStateU8(withCarry, 1, s.halfCarry);
    var withNegative := SetBitNStateU8(withHalf, 2, s.negative);
    var flags := SetBitNStateU8(withNegative, 3, s.zero);
    forall k: u8 | k < 8
      ensures IsNthBitSetU8(flags, k) == if k == 0 then s.carry else if k == 1 then s.halfCarry
                                         else if k == 2 then s.negative else if k == 3 then s.zero else false
    {
      SetBitNStateReadsBit(0, 0, s.carry, k);
      SetBitNStateReadsBit(withCarry, 1, s.halfCarry, k);
      SetBitNStateReadsBit(withHalf, 2, s.negative, k);
      SetBitNStateReadsBit(withNegative, 3, s.zero, k);
      BitSetReadsBit(0, k);
      ZeroHasNoBits(k as nat);
    }
  }

  /// PUSH AF then POP AF restores A, all four flags and the stack pointer;
  /// only PC (1 + 1) and the cycle (4 + 3) move.
  lemma PopAfUndoesPushAf(mc: Machine)
    ensures PopAccumulatorAndFlags(PushAccumulatorAndFlags(mc)).regs == Advance(Advance(mc.regs, 1, 4), 1, 3)
  {
    var withA := PushU8(mc, mc.regs.a);
    var withFlags := PushU8(withA, FlagsByte(mc.regs));
    StackIsLastInFirstOut(mc, mc.regs.a, FlagsByte(mc.regs));
    var twice := PopU8(PopU8(withFlags).1).1;
    FlagsByteRoundTrip(mc.regs, twice.regs);
  }

  // ---------------------------------------------------------------------
  // Memory

  /// A register stored through a pair and loaded back through the same pair
  /// arrives unchanged.
  lemma LoadThroughPairAfterStore(mc: Machine, p: Pair, stored: Reg8, loaded: Reg8)
    ensures Get(LoadFromPair(StoreToPair(mc, p, stored), loaded, p).regs, loaded) == Get(mc.regs, stored)
  {
  }

  /// `ld_a_hl_inc` leaves HL one higher; `ld_a_hl_dec`, as written, leaves
  /// it where it was. Both load A from the old HL.
  lemma LoadAFromHlSteps(mc: Machine, step: HlStep)
    ensures LoadAFromHl(mc, step).regs.a == ByteAt(mc.mem, PairValue(mc.regs, HL))
    ensures PairValue(LoadAFromHl(mc, step).regs, HL) == Stepped(PairValue(mc.regs, HL), step)
    ensures PairValue(LoadAFromHl(mc, Keep).regs, HL) == PairValue(mc.regs, HL)
  {
    var address := PairValue(mc.regs, HL);
    PairReadsBack(mc.regs.(a := ByteAt(mc.mem, address)), HL, Stepped(address, step));
    PairReadsBack(mc.regs.(a := ByteAt(mc.mem, address)), HL, address);
  }

  /// `ld_a16_sp` stores SP so that a little-endian word read at the
  /// immediate address gives it back.
  lemma StoreStackPointerReadsBack(mc: Machine)
    ensures WordAt(StoreStackPointer(mc).mem, Immediate16(mc)) == mc.regs.stackPointer
  {
    var address := Immediate16(mc);
    var next := WrappingAdd16(address, 1);
    WrappingIsModular16(address, 1);
    assert next != address;
    var stored := StoreStackPointer(mc).mem;
    assert ByteAt(stored, address) == U16ToLsbMsb(mc.regs.stackPointer).0;
    assert ByteAt(stored, next) == U16ToLsbMsb(mc.regs.stackPointer).1;
    JoinThenSplit(ByteAt(stored, address), ByteAt(stored, next));
    SplitThenJoin(mc.regs.stackPointer);
  }

  /// `dec_hl_address` undoes `inc_hl_address` on memory.
  lemma DecrementAtHlUndoesIncrement(mc: Machine)
    ensures DecrementAtHl(IncrementAtHl(mc)).mem == mc.mem
  {
    var address := PairValue(mc.regs, HL);
    var original := ByteAt(mc.mem, address);
    WrappingIsModular8(original, 1);
    WrappingIsModular8(WrappingAdd8(original, 1), 1);
    var after := DecrementAtHl(IncrementAtHl(mc)).mem;
    assert forall i :: 0 <= i < MEMORY_SIZE ==> after[i] == mc.mem[i] by {
      forall i | 0 <= i < MEMORY_SIZE
        ensures after[i] == mc.mem[i]
      {
        ReadAfterWrite(mc.mem, address, i as u16, WrappingAdd8(original, 1));
        ReadAfterWrite(IncrementAtHl(mc).mem, address, i as u16, original);
      }
    }
  }

  // ---------------------------------------------------------------------
  // Interrupts and low-power states

  /// The five enable-bit writes of DI and RETI clear bits 0 to 4 of the
  /// interrupt-enable byte, keep bits 5 to 7, and touch no other address.
  lemma InterruptsDisabledEffect(m: Image)
    ensures AllInterruptsDisabled(WithInterruptsDisabled(m))
    ensures forall k: u8 :: 5 <= k < 8 ==>
      IsNthBitSetU8(ByteAt(WithInterruptsDisabled(m), INTERRUPT_ENABLE_ADDRESS), k) == IsNthBitSetU8(ByteAt(m, INTERRUPT_ENABLE_ADDRESS), k)
    ensures forall address: u16 :: address != INTERRUPT_ENABLE_ADDRESS ==>
      ByteAt(WithInterruptsDisabled(m), address) == ByteAt(m, address)
  {
    var vblank := WithInterruptBit(m, INTERRUPT_ENABLE_ADDRESS, VBlank(Some(false)));
    var lcdStat := WithInterruptBit(vblank, INTERRUPT_ENABLE_ADDRESS, LcdStat(Some(false)));
    var timer := WithInterruptBit(lcdStat, INTERRUPT_ENABLE_ADDRESS, Timer(Some(false)));
    var serial := WithInterruptBit(timer, INTERRUPT_ENABLE_ADDRESS, Serial(Some(false)));
    WithInterruptBitEffect(m, INTERRUPT_ENABLE_ADDRESS, VBlank(Some(false)));
    WithInterruptBitEffect(vblank, INTERRUPT_ENABLE_ADDRESS, LcdStat(Some(false)));
    WithInterruptBitEffect(lcdStat, INTERRUPT_ENABLE_ADDRESS, Timer(Some(false)));
    WithInterruptBitEffect(timer, INTERRUPT_ENABLE_ADDRESS, Serial(Some(false)));
    WithInterruptBitEffect(serial, INTERRUPT_ENABLE_ADDRESS, Joypad(Some(false)));
  }

  /// `di` clears the master enable and bits 0 to 4 of 0xFFFF and advances PC
  /// by one; STOP right after it always enters the Stop state.
  lemma DisableThenStop(mc: Machine)
    ensures !DisableInterrupts(mc).regs.ime && AllInterruptsDisabled(DisableInterrupts(mc).mem)
    ensures DisableInterrupts(mc).regs.programCounter == WrappingAdd16(mc.regs.programCounter, 1)
    ensures EnterStop(DisableInterrupts(mc)).regs.state == Some(Stop)
  {
    InterruptsDisabledEffect(mc.mem);
  }

  /// `stop` enters the Stop state when no interrupt is enabled and otherwise
  /// keeps the state it had; PC moves by 2 and the cycle by 1 either way.
  lemma StopOnlyWhenNothingEnabled(mc: Machine)
    ensures AllInterruptsDisabled(mc.mem) ==> EnterStop(mc).regs.state == Some(Stop)
    ensures !AllInterruptsDisabled(mc.mem) ==> EnterStop(mc).regs.state == mc.regs.state
    ensures EnterStop(mc).regs.programCounter == WrappingAdd16(mc.regs.programCounter, 2)
    ensures EnterStop(mc).regs.cycle == WrappingAdd64(mc.regs.cycle, 1)
    ensures EnterStop(mc).mem == mc.mem
  {
  }
}
