# gbrs core in Dafny

A model of the core of gbrs, a Game Boy (Sharp LR35902) emulator written in
Rust, with proofs about it:

- the bit helpers every instruction uses (byte split and join, single-bit test and set);
- the 64 KiB address space with its bounds-checked bulk copy;
- the `Cpu` object with its construction, reset and interrupt bitfield accessors;
- every implemented instruction handler, one method per handler, each proved
  equal to a pure function of the state before it;
- the 256-way opcode dispatch (handlers, stubs that only move the program
  counter and cycle counter, the `0xCB` prefix that does nothing, and the eleven
  bytes that panic);
- the `GameBoy` device that owns one CPU and one address space;
- the debugger's FIFO message queue, its run/pause/tick-once gate and its
  message handling.

The model follows the code as written, quirks included: for example `ld_c_e`
copies B, `jr_nc_s8` jumps when carry is set, `or_d8` moves the program counter
by one, `call_a16` pushes the word stored at PC + 3, and `rla` and `rra` bring
the old bit 7 (or bit 0) round into A rather than the old carry flag, which their
own doc comments describe. Such quirks appear as
the arguments a handler passes to its semantic function, and the lemmas in
`instruction_properties.dfy` state their consequences.

Layout, bottom up:

| file | module | contents |
|---|---|---|
| wrappers.dfy | Wrappers | `Option` |
| bits.dfy | Bits | `u8`/`u16`/`u64`, wrapping arithmetic, bitwise operations, the split/join and bit helpers |
| memory.dfy | Memory | the address space as a value (`Image`) and as the `Memory` class over an array |
| register_file.dfy | RegisterFile | the register file as a value, interrupt flags, `Machine` |
| stack.dfy | Stack | the stack push/pop helpers the handlers call |
| semantics.dfy | Semantics | one pure function per kind of instruction |
| cpu.dfy | Cpu | the `Cpu` class |
| opcodes_00.dfy … opcodes_c0.dfy | Opcodes00 … OpcodesC0 | the handlers as methods on `Cpu` and `Memory` |
| instruction_properties.dfy | InstructionProperties | lemmas about the instruction semantics |
| dispatch_table.dfy | DispatchTable | which arm every opcode byte takes |
| dispatch.dfy | Dispatch | `tick`/`process_opcode`, proved against the table |
| gameboy.dfy | GameBoy | the `GameBoy` device |
| message_queue.dfy | MessageQueue | the message queue |
| debugger.dfy | Debugger | the debugger's state and message handling |

Every handler's `modifies` clause names exactly the CPU fields it writes
(plus the memory array when it writes memory). Its postcondition says that
the old state, with those fields replaced by their new values, equals its
function in `Semantics` applied to the old state. So the new state is that
function of the old one, and the fields not named keep their values.

Registers pair up the way the source joins them: `lsb_msb_to_u16(b, c)`, so the
first register named (B, D, H) holds the LOW byte of BC, DE, HL.

## Model

| member | source | states |
|---|---|---|
| Bits.WrappingIsModular8 | src/opcodes.rs:48-67 | the 8-bit increments and decrements the handlers perform (`wrapping_add`/`wrapping_sub`, and plain `+=`/`-=` as a release build runs it) are addition and subtraction modulo 256 |
| Bits.WrappingIsModular16 | src/opcodes.rs:36-45 | the 16-bit pair and program-counter arithmetic is modulo 2^16 |
| Bits.WrappingIsModular64 | src/opcodes.rs:10-13 | the cycle counter grows modulo 2^64 |
| Bits.IncrementWrapsAtTop | src/opcodes.rs:48-56 | adding one to a byte gives 0 exactly at 0xFF, and otherwise the next integer |
| Bits.DecrementWrapsAtBottom | src/opcodes.rs:59-67 | subtracting one gives 0xFF exactly from 0, and 0 exactly from 1 |
| Bits.SubIsZeroIffEqual | src/opcodes.rs:1706-1713 | the wrapped difference of two bytes is 0 exactly when they are equal (what CP tests) |
| Bits.AddThenSub16 | src/opcodes.rs:137-146 | subtracting what was added gives the word back, modulo 2^16 |
| Bits.SplitIsMasking | src/bits.rs:2-7 | the low byte is `value & 0xFF` and the high byte is `(value & 0xFF00) >> 8`, as both copies of `u16_to_lsb_msb` compute them |
| Bits.JoinIsOr | src/bits.rs:10-12 | `lsb_msb_to_u16` is the bitwise OR of the high byte shifted left by 8 and the low byte |
| Bits.U16ToLsbMsb | src/utility/bits.rs:2-7 | the low and high byte of a word; `SplitIsMasking`, `SplitThenJoin` and `JoinThenSplit` state its meaning |
| Bits.LsbMsbToU16 | src/utility/bits.rs:10-12 | the word with `msb` in bits 8-15 and `lsb` in bits 0-7; `JoinIsOr` and the two round trips state its meaning |
| Bits.SplitThenJoin | src/utility/bits.rs:2-12 | splitting a word and joining the halves gives the word back, for every word |
| Bits.JoinThenSplit | src/utility/bits.rs:2-12 | joining two bytes and splitting the word gives the bytes back, for every pair |
| Bits.SplitExample | src/utility/bits.rs:48-58 | 0xABDE splits into (0xDE, 0xAB) and joins back |
| Bits.BitSetReadsBit | src/utility/bits.rs:15-17 | `is_nth_bit_set_u8(b, n)` for n < 8 is bit n of b |
| Bits.BitSetReadsBitU16 | src/utility/bits.rs:25-27 | `is_nth_bit_set_u16(w, n)` for n < 16 is bit n of w |
| Bits.IsNthBitSetU8 | src/utility/bits.rs:15-17 | `(1 << n) & b != 0`, for n < 8; `BitSetReadsBit` proves it reads bit n |
| Bits.IsNthBitUnsetU8 | src/utility/bits.rs:20-22 | `(1 << n) & b == 0`, for n < 8; `UnsetIsNotSet` proves it the negation of the set test |
| Bits.IsNthBitSetU16 | src/utility/bits.rs:25-27 | `(1 << n) & w != 0`, for n < 16; `BitSetReadsBitU16` proves it reads bit n |
| Bits.IsNthBitUnsetU16 | src/utility/bits.rs:30-32 | `(1 << n) & w == 0`, for n < 16; `UnsetIsNotSet` proves it the negation of the set test |
| Bits.UnsetIsNotSet | src/utility/bits.rs:15-32 | the `unset` tests are the negation of the `set` tests, for bytes and for words |
| Bits.BitTestExamples | src/utility/bits.rs:61-126 | all 32 assertions of the four unit tests: bits 2-5 of 0x3C and bits 10-13 of 0x3C00 test as set and not unset, bits 0, 1, 6, 7 and 8, 9, 14, 15 the other way round |
| Bits.BitSevenIsSignBit | src/utility/bits.rs:15-17 | bit 7 of a byte is set exactly when the byte is at least 0x80 |
| Bits.BitFifteenIsTopBit | src/utility/bits.rs:25-27 | bit 15 of a word is set exactly when the word is at least 0x8000 |
| Bits.SetBitNStateU8 | src/utility/bits.rs:35-41 | OR with `1 << n` to set, AND with its complement to clear; `SetBitNStateReadsBit` and `SetBitNStateBits` state its meaning |
| Bits.SetBitNStateReadsBit | src/utility/bits.rs:35-41 | after `set_bit_n_state_u8(b, n, s)`, bit n reads s and every other bit reads as in b |
| Bits.SetBitNStateBits | src/utility/bits.rs:35-41 | the same, for all bits at once |
| Bits.SetBitNStateIdempotent | src/utility/bits.rs:35-41 | setting a bit to a state twice is setting it once |
| Bits.SetBitExamples | src/utility/bits.rs:129-142 | setting bits 3 and 4 of 0 gives 8 and 16; clearing them in 0x18 gives 16 and 8 |
| Bits.ShiftLeftOneBits | src/opcodes.rs:88 | `a <<= 1` moves bit k - 1 to bit k and clears bit 0 |
| Bits.ShiftRightOneBits | src/opcodes.rs:189 | `a >>= 1` moves bit k + 1 to bit k and clears bit 7 |
| Bits.XorSelf | src/opcodes.rs:1595-1603 | a byte XOR itself is 0 |
| Memory.Index | src/memory.rs:38-40 | every 16-bit address is a valid index into the 0x10000 bytes |
| Memory.WithByte | src/memory.rs:42-44 | after writing v at a, the byte at a is v and no other address changes |
| Memory.WordAt | src/opcodes.rs:95-96 | the word read at a splits into the byte at a (low) and the byte at a + 1 (high), the second address wrapping at 0xFFFF |
| Memory.Zeroed | src/memory.rs:10-14 | every byte of fresh memory is 0 |
| Memory.CopiedInto | src/memory.rs:28-33 | an in-bounds copy puts `data[i]` at `address + i` and keeps every byte outside that range |
| Memory.ReadAfterWrite | src/memory.rs:38-44 | reading after a write gives the written value at that address and the old value elsewhere |
| Memory.Memory.constructor | src/memory.rs:10-14 | exactly 0x10000 bytes, all 0 |
| Memory.Memory.ReadByteAt | src/memory.rs:38-40 | the byte at the address |
| Memory.Memory.WriteByteAt | src/memory.rs:42-44 | the new contents are the old ones with that one byte replaced |
| Memory.Memory.CopyIntoMemoryAtAddress | src/memory.rs:18-35 | succeeds exactly when `address + len <= 0x10000`; on success the contents are `CopiedInto`, on failure nothing changes (a zero-length copy changes nothing) |
| Memory.Memory.WriteBlock | src/memory.rs:28-33 | the copy loop: the array becomes the old prefix, the data, and the old suffix |
| Memory.Memory.Read16BitValueAt | src/opcodes.rs:95-96 | a little-endian word: low byte at the address, high byte after it |
| Memory.Memory.Clear | src/emulator/gameboy.rs:38-40 | every byte becomes 0 |
| RegisterFile.BitPosition | src/cpu/cpu.rs:178-190 | each interrupt source owns a bit below 5 |
| RegisterFile.BitPositionsDistinct | src/cpu/cpu.rs:178-190 | different sources own different bits |
| RegisterFile.WithInterruptBitEffect | src/cpu/cpu.rs:148-160 | the read-modify-write sets the source's bit to its state (None as false), keeps the other seven bits and every other address |
| Cpu.Cpu.constructor | src/cpu/cpu.rs:116-135 | PC = 0x0100; SP, every register and the cycle 0; IME and all flags false; no special state |
| Cpu.Cpu.ResetProgramCounter | src/cpu/cpu.rs:138-140 | PC = 0x0100 and nothing else changes |
| Cpu.Cpu.Reset | src/emulator/gameboy.rs:35-36 | the state of a new CPU, except that the cycle counter keeps its value |
| Cpu.Cpu.ClearDataRegisters | src/emulator/gameboy.rs:35-36 | the seven 8-bit registers become 0 |
| Cpu.Cpu.ClearFlags | src/emulator/gameboy.rs:35-36 | IME, the four flags and the special state are cleared |
| Cpu.Cpu.SetInterruptFlagState | src/cpu/cpu.rs:148-160 | memory becomes `WithInterruptBit` of byte 0xFFFF |
| Cpu.Cpu.SetInterruptRequestFlagState | src/cpu/cpu.rs:163-175 | the same for byte 0xFF0F |
| Cpu.Cpu.IsInterruptFlagSet | src/cpu/cpu.rs:178-190 | the source's bit of byte 0xFFFF |
| Cpu.Cpu.IsRequestInterruptFlagSet | src/cpu/cpu.rs:193-205 | the source's bit of byte 0xFF0F |
| Cpu.InterruptBitReadBack | src/cpu/cpu.rs:148-205 | after writing a source's bit with state s, reading that source gives s and reading any other source gives what it gave before |
| Cpu.EnableAndRequestIndependent | src/cpu/cpu.rs:148-175 | writing the enable byte never changes a request bit, and the reverse |
| Stack.PushU8Effect | src/opcodes.rs:2211-2226 | a byte push decrements SP and stores the byte at the new SP (the assumed contract of `push_stack_u8`) |
| Stack.PushU16Effect | src/opcodes.rs:1851-1857 | a word push decrements SP by 2, low byte at the new SP and high byte above it (assumed contract of `push_stack_u16`) |
| Stack.PopU16Effect | src/opcodes.rs:1886-1889 | a word pop reads the little-endian word at SP and increments SP by 2 (assumed contract of `pop_stack_u16`) |
| Stack.PopU8AfterPushU8 | src/opcodes.rs:2171-2186 | popping a byte right after pushing it returns it and restores every register |
| Stack.PopU16AfterPushU16 | src/opcodes.rs:1886-1889 | popping a word right after pushing it returns it and restores every register |
| Stack.PopU16ReturnsPushedWord | src/opcodes.rs:1886-1889 | the word popped is the word pushed |
| Stack.StackIsLastInFirstOut | src/opcodes.rs:2171-2226 | two bytes pushed come back in reverse order and SP is restored |
| Stack.PushStackU8 | src/opcodes.rs:2211-2226 | SP - 1, then the byte written at the new SP |
| Stack.PopStackU8 | src/opcodes.rs:2171-2186 | the byte at SP, then SP + 1 |
| Stack.PushStackU16 | src/opcodes.rs:1851-1857 | two byte pushes, high byte first, so the word lies little-endian at the new SP |
| Stack.PopStackU16 | src/opcodes.rs:1886-1889 | two byte pops, low byte first |
| InstructionProperties.LoadRegisterCopies | src/opcodes.rs:731-735 | `ld_r_r'` copies the source into the target and changes no other register, flag or SP; PC + 1, cycle + 1 (`ld_c_e`, `ld_c_h` at src/opcodes.rs:802-813 copy B) |
| InstructionProperties.PairReadsBack | src/opcodes.rs:16-25 | writing a word into a pair reads back as that word and leaves the other pairs, A and SP |
| InstructionProperties.LoadPairImmediateLoadsWord | src/opcodes.rs:16-25 | after `ld_bc_d16` the pair holds the immediate word, B the byte right after the opcode; length 3; memory untouched |
| InstructionProperties.PairStepsWrap | src/opcodes.rs:36-45 | `inc_bc`/`dec_bc` add/subtract one modulo 2^16 on the pair |
| InstructionProperties.DecrementPairUndoesIncrement | src/opcodes.rs:137-146 | `dec_bc` after `inc_bc` gives the pair back |
| InstructionProperties.IncrementRegisterFlags | src/opcodes.rs:48-56 | INC: result modulo 256; Z iff the old value was 0xFF; H iff the old value is at least 0x80; C untouched; N cleared; no other register changes |
| InstructionProperties.IncrementAtTop | src/opcodes.rs:48-56 | `inc_b` at 0xFF gives 0 with Z and H set and C unchanged |
| InstructionProperties.DecrementRegisterFlags | src/opcodes.rs:59-67 | DEC: result modulo 256; Z iff the old value was 1; H iff the old value is at least 0x80; C untouched |
| InstructionProperties.XorAClears | src/opcodes.rs:1595-1603 | `xor_a` leaves A = 0 with Z set, N, H, C cleared, PC + 1 |
| InstructionProperties.BitwiseAlu | src/opcodes.rs:1409-1417 | AND, OR and XOR act bit by bit; AND sets H and clears N and C; OR and XOR clear C |
| InstructionProperties.CompareSetsZeroIffEqual | src/opcodes.rs:1706-1713 | CP sets Z exactly when A equals the operand, sets N, leaves A, and C is bit 7 of A |
| InstructionProperties.AddAndSubtract | src/opcodes.rs:1212-1220 | ADD/SUB give the sum/difference modulo 256; C is bit 7 of the old A; SUB after ADD restores A |
| InstructionProperties.ComplementAFlipsBits | src/opcodes.rs:547-549 | CPL flips each bit of A, twice gives A back, and moves neither PC nor the cycle |
| InstructionProperties.RotateLeftARotates | src/opcodes.rs:77-93 | `rlca` and `rla` move bit k of A to bit k + 1 and bit 7 round to bit 0; `rlca` copies the old bit 7 into carry, `rla` keeps carry; Z, N, H cleared, PC and cycle + 1 |
| InstructionProperties.RotateRightARotates | src/opcodes.rs:178-194 | `rrca` and `rra` move bit k + 1 of A to bit k and bit 0 round to bit 7; `rrca` copies the old bit 0 into carry, `rra` keeps carry; Z, N, H cleared, PC and cycle + 1 |
| InstructionProperties.RotateRightUndoesLeft | src/opcodes.rs:77-93 | rotating A right after rotating it left gives A back |
| InstructionProperties.RotateThroughCarryIgnoresCarry | src/opcodes.rs:277-294 | as written, `rla` and `rra` give the same A whatever the carry flag, so a zero A stays zero with carry set, although their doc comments say the old carry enters A |
| InstructionProperties.CarryFlagInstructions | src/opcodes.rs:630-635 | SCF sets C, clears N and H and does not advance; CCF flips C, twice restores it |
| InstructionProperties.ConditionNotTaken | src/opcodes.rs:390-398 | when the condition fails, JR is PC + 2, cycle + 2; JP and CALL are PC + 3, cycle + 3; RET is PC + 1, cycle + 2; nothing else changes (also src/opcodes.rs:1797-1848) |
| InstructionProperties.RelativeJumpOnCarry | src/opcodes.rs:553-561 | `jr_nc_s8`, as written, jumps exactly when carry is set, like `jr_c_s8` (src/opcodes.rs:639-647) |
| InstructionProperties.CallThenReturn | src/opcodes.rs:1839-1848 | a taken conditional CALL followed by RET returns to PC + 3 with SP restored |
| InstructionProperties.UnconditionalCallReturnsToStoredWord | src/opcodes.rs:1926-1934 | RET after `call_a16` returns to the word stored at PC + 3, with SP restored |
| InstructionProperties.PopPairUndoesPush | src/opcodes.rs:1808-1813 | POP rr after PUSH rr restores every register and SP; only PC and the cycle move |
| InstructionProperties.FlagsByteRoundTrip | src/opcodes.rs:2211-2226 | the flag byte holds C, H, N, Z in bits 0-3 with bits 4-7 clear, and reading it back restores the four flags |
| InstructionProperties.PopAfUndoesPushAf | src/opcodes.rs:2171-2186 | POP AF after PUSH AF restores A, the four flags and SP |
| InstructionProperties.LoadThroughPairAfterStore | src/opcodes.rs:28-33 | a register stored through a pair and loaded back through it arrives unchanged |
| InstructionProperties.LoadAFromHlSteps | src/opcodes.rs:667-678 | `ld_a_hl_inc`/`ld_a_hl_dec` load A from the old HL; HL is stepped, and as written `ld_a_hl_dec` keeps HL |
| InstructionProperties.StoreStackPointerReadsBack | src/opcodes.rs:97-105 | after `ld_a16_sp`, the word at the immediate address is SP |
| InstructionProperties.DecrementAtHlUndoesIncrement | src/opcodes.rs:593-616 | `dec_hl_address` after `inc_hl_address` restores memory |
| InstructionProperties.InterruptsDisabledEffect | src/opcodes.rs:2199-2208 | the five setter calls of DI/RETI clear bits 0-4 of 0xFFFF, keep bits 5-7 and every other address |
| InstructionProperties.DisableThenStop | src/opcodes.rs:2199-2208 | after DI, IME is clear, no interrupt is enabled, PC + 1, and a following STOP enters the Stop state |
| InstructionProperties.StopOnlyWhenNothingEnabled | src/opcodes.rs:203-216 | STOP enters Stop exactly when bits 0-4 of 0xFFFF are clear, otherwise keeps the state; PC + 2, cycle + 1, memory unchanged |
| DispatchTable.PanicsExactlyOnUnknownOpcodes | src/cpu/cpu.rs:565-568 | the table has no arm exactly for 0xD3, 0xDB, 0xDD, 0xE3, 0xE4, 0xEB, 0xEC, 0xED, 0xF4, 0xFC, 0xFD |
| DispatchTable.PrefixOnlyAtCb | src/cpu/cpu.rs:487 | only 0xCB takes the two-byte prefix arm |
| DispatchTable.UnimplementedArms | src/cpu/cpu.rs:251-564 | the stubs: DAA, ADC r, SBC r move PC + 1, cycle + 1; RST k PC + 1, cycle + 4; 0xCE and 0xDE PC + 2, cycle + 2; no other stub exists |
| Dispatch.ReadOpcode | src/cpu/cpu.rs:580-582 | the byte at PC |
| Dispatch.Process16BitOpcode | src/cpu/cpu.rs:572-577 | the CPU and memory are unchanged: the source only logs |
| Dispatch.Tick | src/cpu/cpu.rs:143-145 | one dispatch of the opcode at PC |
| Dispatch.ProcessOpcode | src/cpu/cpu.rs:208-570 | the opcode at PC takes its table arm: panic exactly on the eleven unknown bytes; 0xCB changes nothing, PC included; a stub moves only PC and the cycle by its amounts; every other byte runs its handler without panicking |
| Opcodes00.Nop | src/opcodes.rs:10-13 | `nop` (0x00): only PC + 1, cycle + 1; every other register, flag and memory byte unchanged |
| Opcodes00.LdBcD16 | src/opcodes.rs:16-25 | `ld_bc_d16` (0x01): BC (B low, C high) := the little-endian word after the opcode, its low byte in B; PC + 3, cycle + 3; every other register, flag and memory byte unchanged |
| Opcodes00.LdBcA | src/opcodes.rs:28-33 | `ld_bc_a` (0x02): only the byte at the address in BC (B low, C high) := A; PC + 1, cycle + 2; every other register, flag and memory byte unchanged |
| Opcodes00.IncBc | src/opcodes.rs:36-45 | `inc_bc` (0x03): pair BC (B low, C high) + 1 mod 2^16, no flags; PC + 1, cycle + 2; every other register, flag and memory byte unchanged |
| Opcodes00.IncB | src/opcodes.rs:48-56 | `inc_b` (0x04): B := B + 1 mod 256; Z iff the result is 0; N cleared; H := bit 7 of the old B; C kept; PC + 1, cycle + 1; every other register, flag and memory byte unchanged |
| Opcodes00.DecB | src/opcodes.rs:59-67 | `dec_b` (0x05): B := B - 1 mod 256; Z iff the result is 0; N set; H := bit 7 of the old B; C kept; PC + 1, cycle + 1; every other register, flag and memory byte unchanged |
| Opcodes00.LdBD8 | src/opcodes.rs:70-75 | `ld_b_d8` (0x06): B := the byte after the opcode; PC + 2, cycle + 2; memory unchanged; every other register, flag and memory byte unchanged |
| Opcodes00.Rlca | src/opcodes.rs:81-93 | `rlca` (0x07): A rotated left (old bit 7 into bit 0); Z, N, H cleared; C := the old bit 7; PC + 1, cycle + 1; every other register, flag and memory byte unchanged |
| Opcodes00.LdA16Sp | src/opcodes.rs:97-105 | `ld_a16_sp` (0x08): SP stored little-endian at the immediate address and the one after; PC + 3, cycle + 5; every other register, flag and memory byte unchanged |
| Opcodes00.AddHlBc | src/opcodes.rs:109-123 | `add_hl_bc` (0x09): HL := HL + BC mod 2^16; N cleared; H and C := bit 15 of the old HL; Z not written (as written); PC + 1, cycle + 2; every other register, flag and memory byte unchanged |
| Opcodes00.LdABc | src/opcodes.rs:126-134 | `ld_a_bc` (0x0A): A := the byte at the address in BC (B low, C high); PC + 1, cycle + 2; memory unchanged; every other register, flag and memory byte unchanged |
| Opcodes00.DecBc | src/opcodes.rs:137-146 | `dec_bc` (0x0B): pair BC (B low, C high) - 1 mod 2^16, no flags; PC + 1, cycle + 2; every other register, flag and memory byte unchanged |
| Opcodes00.IncC | src/opcodes.rs:149-157 | `inc_c` (0x0C): C := C + 1 mod 256; Z iff the result is 0; N cleared; H := bit 7 of the old C; C kept; PC + 1, cycle + 1; every other register, flag and memory byte unchanged |
| Opcodes00.DecC | src/opcodes.rs:160-168 | `dec_c` (0x0D): C := C - 1 mod 256; Z iff the result is 0; N set; H := bit 7 of the old C; C kept; PC + 1, cycle + 1; every other register, flag and memory byte unchanged |
| Opcodes00.LdCD8 | src/opcodes.rs:171-176 | `ld_c_d8` (0x0E): C := the byte after the opcode; PC + 2, cycle + 2; memory unchanged; every other register, flag and memory byte unchanged |
| Opcodes00.Rrca | src/opcodes.rs:182-194 | `rrca` (0x0F): A rotated right (old bit 0 into bit 7); Z, N, H cleared; C := the old bit 0; PC + 1, cycle + 1; every other register, flag and memory byte unchanged |
| Opcodes00.Stop | src/opcodes.rs:203-216 | `stop` (0x10): state := Stop exactly when bits 0-4 of 0xFFFF are all clear; PC + 2, cycle + 1 either way; every other register, flag and memory byte unchanged |
| Opcodes00.LdDeD16 | src/opcodes.rs:219-228 | `ld_de_d16` (0x11): DE (D low, E high) := the little-endian word after the opcode, its low byte in D; PC + 3, cycle + 3; every other register, flag and memory byte unchanged |
| Opcodes00.LdDeA | src/opcodes.rs:231-237 | `ld_de_a` (0x12): only the byte at the address in DE (D low, E high) := A; PC + 1, cycle + 2; every other register, flag and memory byte unchanged |
| Opcodes00.IncDe | src/opcodes.rs:240-248 | `inc_de` (0x13): pair DE (D low, E high) + 1 mod 2^16, no flags; PC + 1, cycle + 2; every other register, flag and memory byte unchanged |
| Opcodes00.IncD | src/opcodes.rs:251-258 | `inc_d` (0x14): D := D + 1 mod 256; Z iff the result is 0; N cleared; H := bit 7 of the old D; C kept; PC + 1, cycle + 1; every other register, flag and memory byte unchanged |
| Opcodes00.DecD | src/opcodes.rs:261-268 | `dec_d` (0x15): D := D - 1 mod 256; Z iff the result is 0; N set; H := bit 7 of the old D; C kept; PC + 1, cycle + 1; every other register, flag and memory byte unchanged |
| Opcodes00.LdDD8 | src/opcodes.rs:271-275 | `ld_d_d8` (0x16): D := the byte after the opcode; PC + 2, cycle + 2; memory unchanged; every other register, flag and memory byte unchanged |
| Opcodes00.Rla | src/opcodes.rs:281-294 | `rla` (0x17): A rotated left (old bit 7 into bit 0); Z, N, H cleared; C not written (as written); PC + 1, cycle + 1; every other register, flag and memory byte unchanged |
| Opcodes00.JrS8 | src/opcodes.rs:297-303 | `jr_s8` (0x18): PC + the zero-extended offset byte, cycle + 3; every other register, flag and memory byte unchanged |
| Opcodes00.AddHlDe | src/opcodes.rs:307-321 | `add_hl_de` (0x19): HL := HL + DE mod 2^16; N cleared; H and C := bit 15 of the old HL; Z iff the sum is 0; PC + 1, cycle + 2; every other register, flag and memory byte unchanged |
| Opcodes00.LdADe | src/opcodes.rs:324-329 | `ld_a_de` (0x1A): A := the byte at the address in DE (D low, E high); PC + 1, cycle + 2; memory unchanged; every other register, flag and memory byte unchanged |
| Opcodes00.DecDe | src/opcodes.rs:332-340 | `dec_de` (0x1B): pair DE (D low, E high) - 1 mod 2^16, no flags; PC + 1, cycle + 2; every other register, flag and memory byte unchanged |
| Opcodes00.IncE | src/opcodes.rs:343-350 | `inc_e` (0x1C): E := E + 1 mod 256; Z iff the result is 0; N cleared; H := bit 7 of the old E; C kept; PC + 1, cycle + 1; every other register, flag and memory byte unchanged |
| Opcodes00.DecE | src/opcodes.rs:353-360 | `dec_e` (0x1D): E := E - 1 mod 256; Z iff the result is 0; N set; H := bit 7 of the old E; C kept; PC + 1, cycle + 1; every other register, flag and memory byte unchanged |
| Opcodes00.LdED8 | src/opcodes.rs:363-367 | `ld_e_d8` (0x1E): E := the byte after the opcode; PC + 2, cycle + 2; memory unchanged; every other register, flag and memory byte unchanged |
| Opcodes00.Rra | src/opcodes.rs:373-386 | `rra` (0x1F): A rotated right (old bit 0 into bit 7); Z, N, H cleared; C not written (as written); PC + 1, cycle + 1; every other register, flag and memory byte unchanged |
| Opcodes00.JrNzS8 | src/opcodes.rs:390-398 | `jr_nz_s8` (0x20): if Z clear: PC + the zero-extended offset byte, cycle + 3; otherwise PC + 2, cycle + 2; every other register, flag and memory byte unchanged |
| Opcodes00.LdHlD16 | src/opcodes.rs:401-409 | `ld_hl_d16` (0x21): HL (H low, L high) := the little-endian word after the opcode, its low byte in H; PC + 3, cycle + 3; every other register, flag and memory byte unchanged |
| Opcodes00.LdHlIncA | src/opcodes.rs:413-424 | `ld_hl_inc_a` (0x22): only the byte at HL := A, then HL + 1; PC + 1, cycle + 2; every other register, flag and memory byte unchanged |
| Opcodes00.IncHl | src/opcodes.rs:427-435 | `inc_hl` (0x23): pair HL (H low, L high) + 1 mod 2^16, no flags; PC + 1, cycle + 2; every other register, flag and memory byte unchanged |
| Opcodes00.IncH | src/opcodes.rs:438-445 | `inc_h` (0x24): H := H + 1 mod 256; Z iff the result is 0; N cleared; H := bit 7 of the old H; C kept; PC + 1, cycle + 1; every other register, flag and memory byte unchanged |
| Opcodes00.DecH | src/opcodes.rs:448-455 | `dec_h` (0x25): H := H - 1 mod 256; Z iff the result is 0; N set; H := bit 7 of the old H; C kept; PC + 1, cycle + 1; every other register, flag and memory byte unchanged |
| Opcodes00.LdHD8 | src/opcodes.rs:458-462 | `ld_h_d8` (0x26): H := the byte after the opcode; PC + 2, cycle + 2; memory unchanged; every other register, flag and memory byte unchanged |
| Opcodes00.JrZS8 | src/opcodes.rs:466-474 | `jr_z_s8` (0x28): if Z set: PC + the zero-extended offset byte, cycle + 3; otherwise PC + 2, cycle + 2; every other register, flag and memory byte unchanged |
| Opcodes00.AddHlHl | src/opcodes.rs:478-491 | `add_hl_hl` (0x29): HL := HL + HL mod 2^16; N cleared; H and C := bit 15 of the old HL; Z iff the sum is 0; PC + 1, cycle + 2; every other register, flag and memory byte unchanged |
| Opcodes00.LdAHlInc | src/opcodes.rs:495-506 | `ld_a_hl_inc` (0x2A): A := the byte at HL; HL + 1 afterwards; PC + 1, cycle + 2; every other register, flag and memory byte unchanged |
| Opcodes00.DecHl | src/opcodes.rs:509-517 | `dec_hl` (0x2B): pair HL (H low, L high) - 1 mod 2^16, no flags; PC + 1, cycle + 2; every other register, flag and memory byte unchanged |
| Opcodes00.IncL | src/opcodes.rs:520-527 | `inc_l` (0x2C): L := L + 1 mod 256; Z iff the result is 0; N cleared; H := bit 7 of the old L; C kept; PC + 1, cycle + 1; every other register, flag and memory byte unchanged |
| Opcodes00.DecL | src/opcodes.rs:530-537 | `dec_l` (0x2D): L := L - 1 mod 256; Z iff the result is 0; N set; H := bit 7 of the old L; C kept; PC + 1, cycle + 1; every other register, flag and memory byte unchanged |
| Opcodes00.LdLD8 | src/opcodes.rs:540-544 | `ld_l_d8` (0x2E): L := the byte after the opcode; PC + 2, cycle + 2; memory unchanged; every other register, flag and memory byte unchanged |
| Opcodes00.Cpl | src/opcodes.rs:547-549 | `cpl` (0x2F): A := NOT A; nothing else, not even PC or cycle (as written); every other register, flag and memory byte unchanged |
| Opcodes00.JrNcS8 | src/opcodes.rs:553-561 | `jr_nc_s8` (0x30): if C set (as written, the same condition as `jr_c_s8`): PC + the zero-extended offset byte, cycle + 3; otherwise PC + 2, cycle + 2; every other register, flag and memory byte unchanged |
| Opcodes00.LdSpD16 | src/opcodes.rs:564-568 | `ld_sp_d16` (0x31): SP := the little-endian word after the opcode; PC + 3, cycle + 3; every other register, flag and memory byte unchanged |
| Opcodes00.LdHlDecA | src/opcodes.rs:572-583 | `ld_hl_dec_a` (0x32): only the byte at HL := A, then HL - 1; PC + 1, cycle + 2; every other register, flag and memory byte unchanged |
| Opcodes00.IncSp | src/opcodes.rs:586-590 | `inc_sp` (0x33): SP + 1 mod 2^16; PC + 1, cycle + 2; every other register, flag and memory byte unchanged |
| Opcodes00.IncHlAddress | src/opcodes.rs:593-603 | `inc_hl_address` (0x34): byte at HL + 1 mod 256; Z iff 0; N cleared; H := bit 7 of the new byte; PC + 1, cycle + 3; every other register, flag and memory byte unchanged |
| Opcodes00.DecHlAddress | src/opcodes.rs:606-616 | `dec_hl_address` (0x35): byte at HL - 1 mod 256; Z iff 0; N set; H := bit 7 of the new byte; PC + 1, cycle + 3; every other register, flag and memory byte unchanged |
| Opcodes00.LdHlD8 | src/opcodes.rs:620-627 | `ld_hl_d8` (0x36): only the byte at HL := the immediate byte; PC + 2, cycle + 3; every other register, flag and memory byte unchanged |
| Opcodes00.Scf | src/opcodes.rs:630-635 | `scf` (0x37): C set, N and H cleared; PC and cycle unchanged (as written); every other register, flag and memory byte unchanged |
| Opcodes00.JrCS8 | src/opcodes.rs:639-647 | `jr_c_s8` (0x38): if C set: PC + the zero-extended offset byte, cycle + 3; otherwise PC + 2, cycle + 2; every other register, flag and memory byte unchanged |
| Opcodes00.AddHlSp | src/opcodes.rs:651-663 | `add_hl_sp` (0x39): HL := HL + SP mod 2^16; N cleared; H and C := bit 15 of the old HL; Z not written (as written); PC + 1, cycle + 2; every other register, flag and memory byte unchanged |
| Opcodes00.LdAHlDec | src/opcodes.rs:667-678 | `ld_a_hl_dec` (0x3A): A := the byte at HL; HL written back unchanged (as written); PC + 1, cycle + 2; every other register, flag and memory byte unchanged |
| Opcodes00.DecSp | src/opcodes.rs:681-685 | `dec_sp` (0x3B): SP - 1 mod 2^16; PC + 1, cycle + 2; every other register, flag and memory byte unchanged |
| Opcodes00.IncA | src/opcodes.rs:688-695 | `inc_a` (0x3C): A := A + 1 mod 256; Z iff the result is 0; N cleared; H := bit 7 of the old A; C kept; PC + 1, cycle + 1; every other register, flag and memory byte unchanged |
| Opcodes00.DecA | src/opcodes.rs:698-705 | `dec_a` (0x3D): A := A - 1 mod 256; Z iff the result is 0; N cleared (as written); H := bit 7 of the old A; C kept; PC + 1, cycle + 1; every other register, flag and memory byte unchanged |
| Opcodes00.LdAD8 | src/opcodes.rs:708-712 | `ld_a_d8` (0x3E): A := the byte after the opcode; PC + 2, cycle + 2; memory unchanged; every other register, flag and memory byte unchanged |
| Opcodes00.Ccf | src/opcodes.rs:715-721 | `ccf` (0x3F): C flipped, N and H cleared; PC + 1, cycle + 1; every other register, flag and memory byte unchanged |
| Opcodes40.LdBB | src/opcodes.rs:724-728 | `ld_b_b` (0x40): B := B; PC + 1, cycle + 1; no flag or memory change; every other register, flag and memory byte unchanged |
| Opcodes40.LdBC | src/opcodes.rs:731-735 | `ld_b_c` (0x41): B := C; PC + 1, cycle + 1; no flag or memory change; every other register, flag and memory byte unchanged |
| Opcodes40.LdBD | src/opcodes.rs:738-742 | `ld_b_d` (0x42): B := D; PC + 1, cycle + 1; no flag or memory change; every other register, flag and memory byte unchanged |
| Opcodes40.LdBE | src/opcodes.rs:745-749 | `ld_b_e` (0x43): B := E; PC + 1, cycle + 1; no flag or memory change; every other register, flag and memory byte unchanged |
| Opcodes40.LdBH | src/opcodes.rs:752-756 | `ld_b_h` (0x44): B := H; PC + 1, cycle + 1; no flag or memory change; every other register, flag and memory byte unchanged |
| Opcodes40.LdBL | src/opcodes.rs:759-763 | `ld_b_l` (0x45): B := L; PC + 1, cycle + 1; no flag or memory change; every other register, flag and memory byte unchanged |
| Opcodes40.LdBHl | src/opcodes.rs:766-771 | `ld_b_hl` (0x46): B := the byte at the address in HL (H low, L high); PC + 1, cycle + 2; memory unchanged; every other register, flag and memory byte unchanged |
| Opcodes40.LdBA | src/opcodes.rs:774-778 | `ld_b_a` (0x47): B := A; PC + 1, cycle + 1; no flag or memory change; every other register, flag and memory byte unchanged |
| Opcodes40.LdCB | src/opcodes.rs:781-785 | `ld_c_b` (0x48): C := B; PC + 1, cycle + 1; no flag or memory change; every other register, flag and memory byte unchanged |
| Opcodes40.LdCC | src/opcodes.rs:788-792 | `ld_c_c` (0x49): C := C; PC + 1, cycle + 1; no flag or memory change; every other register, flag and memory byte unchanged |
| Opcodes40.LdCD | src/opcodes.rs:795-799 | `ld_c_d` (0x4A): C := D; PC + 1, cycle + 1; no flag or memory change; every other register, flag and memory byte unchanged |
| Opcodes40.LdCE | src/opcodes.rs:802-806 | `ld_c_e` (0x4B): C := B; PC + 1, cycle + 1; no flag or memory change (as written, the source register is B); every other register, flag and memory byte unchanged |
| Opcodes40.LdCH | src/opcodes.rs:809-813 | `ld_c_h` (0x4C): C := B; PC + 1, cycle + 1; no flag or memory change (as written, the source register is B); every other register, flag and memory byte unchanged |
| Opcodes40.LdCL | src/opcodes.rs:816-820 | `ld_c_l` (0x4D): C := L; PC + 1, cycle + 1; no flag or memory change; every other register, flag and memory byte unchanged |
| Opcodes40.LdCHl | src/opcodes.rs:823-828 | `ld_c_hl` (0x4E): C := the byte at the address in HL (H low, L high); PC + 1, cycle + 2; memory unchanged; every other register, flag and memory byte unchanged |
| Opcodes40.LdCA | src/opcodes.rs:831-835 | `ld_c_a` (0x4F): C := A; PC + 1, cycle + 1; no flag or memory change; every other register, flag and memory byte unchanged |
| Opcodes40.LdDB | src/opcodes.rs:838-842 | `ld_d_b` (0x50): D := B; PC + 1, cycle + 1; no flag or memory change; every other register, flag and memory byte unchanged |
| Opcodes40.LdDC | src/opcodes.rs:845-849 | `ld_d_c` (0x51): D := C; PC + 1, cycle + 1; no flag or memory change; every other register, flag and memory byte unchanged |
| Opcodes40.LdDD | src/opcodes.rs:852-856 | `ld_d_d` (0x52): D := D; PC + 1, cycle + 1; no flag or memory change; every other register, flag and memory byte unchanged |
| Opcodes40.LdDE | src/opcodes.rs:859-863 | `ld_d_e` (0x53): D := E; PC + 1, cycle + 1; no flag or memory change; every other register, flag and memory byte unchanged |
| Opcodes40.LdDH | src/opcodes.rs:866-870 | `ld_d_h` (0x54): D := H; PC + 1, cycle + 1; no flag or memory change; every other register, flag and memory byte unchanged |
| Opcodes40.LdDL | src/opcodes.rs:873-877 | `ld_d_l` (0x55): D := L; PC + 1, cycle + 1; no flag or memory change; every other register, flag and memory byte unchanged |
| Opcodes40.LdDHl | src/opcodes.rs:880-885 | `ld_d_hl` (0x56): D := the byte at the address in HL (H low, L high); PC + 1, cycle + 2; memory unchanged; every other register, flag and memory byte unchanged |
| Opcodes40.LdDA | src/opcodes.rs:888-892 | `ld_d_a` (0x57): D := A; PC + 1, cycle + 1; no flag or memory change; every other register, flag and memory byte unchanged |
| Opcodes40.LdEB | src/opcodes.rs:895-899 | `ld_e_b` (0x58): E := B; PC + 1, cycle + 1; no flag or memory change; every other register, flag and memory byte unchanged |
| Opcodes40.LdEC | src/opcodes.rs:902-906 | `ld_e_c` (0x59): E := C; PC + 1, cycle + 1; no flag or memory change; every other register, flag and memory byte unchanged |
| Opcodes40.LdED | src/opcodes.rs:909-913 | `ld_e_d` (0x5A): E := D; PC + 1, cycle + 1; no flag or memory change; every other register, flag and memory byte unchanged |
| Opcodes40.LdEE | src/opcodes.rs:916-920 | `ld_e_e` (0x5B): E := E; PC + 1, cycle + 1; no flag or memory change; every other register, flag and memory byte unchanged |
| Opcodes40.LdEH | src/opcodes.rs:923-927 | `ld_e_h` (0x5C): E := H; PC + 1, cycle + 1; no flag or memory change; every other register, flag and memory byte unchanged |
| Opcodes40.LdEL | src/opcodes.rs:930-934 | `ld_e_l` (0x5D): E := L; PC + 1, cycle + 1; no flag or memory change; every other register, flag and memory byte unchanged |
| Opcodes40.LdEHl | src/opcodes.rs:937-942 | `ld_e_hl` (0x5E): E := the byte at the address in HL (H low, L high); PC + 1, cycle + 2; memory unchanged; every other register, flag and memory byte unchanged |
| Opcodes40.LdEA | src/opcodes.rs:945-949 | `ld_e_a` (0x5F): E := A; PC + 1, cycle + 1; no flag or memory change; every other register, flag and memory byte unchanged |
| Opcodes40.LdHB | src/opcodes.rs:952-956 | `ld_h_b` (0x60): H := B; PC + 1, cycle + 1; no flag or memory change; every other register, flag and memory byte unchanged |
| Opcodes40.LdHC | src/opcodes.rs:959-963 | `ld_h_c` (0x61): H := C; PC + 1, cycle + 1; no flag or memory change; every other register, flag and memory byte unchanged |
| Opcodes40.LdHD | src/opcodes.rs:966-970 | `ld_h_d` (0x62): H := D; PC + 1, cycle + 1; no flag or memory change; every other register, flag and memory byte unchanged |
| Opcodes40.LdHE | src/opcodes.rs:973-977 | `ld_h_e` (0x63): H := E; PC + 1, cycle + 1; no flag or memory change; every other register, flag and memory byte unchanged |
| Opcodes40.LdHH | src/opcodes.rs:980-984 | `ld_h_h` (0x64): H := H; PC + 1, cycle + 1; no flag or memory change; every other register, flag and memory byte unchanged |
| Opcodes40.LdHL | src/opcodes.rs:987-991 | `ld_h_l` (0x65): H := L; PC + 1, cycle + 1; no flag or memory change; every other register, flag and memory byte unchanged |
| Opcodes40.LdHHl | src/opcodes.rs:994-999 | `ld_h_hl` (0x66): H := the byte at the address in HL (H low, L high); PC + 1, cycle + 2; memory unchanged; every other register, flag and memory byte unchanged |
| Opcodes40.LdHA | src/opcodes.rs:1002-1006 | `ld_h_a` (0x67): H := A; PC + 1, cycle + 1; no flag or memory change; every other register, flag and memory byte unchanged |
| Opcodes40.LdLB | src/opcodes.rs:1009-1013 | `ld_l_b` (0x68): L := B; PC + 1, cycle + 1; no flag or memory change; every other register, flag and memory byte unchanged |
| Opcodes40.LdLC | src/opcodes.rs:1016-1020 | `ld_l_c` (0x69): L := C; PC + 1, cycle + 1; no flag or memory change; every other register, flag and memory byte unchanged |
| Opcodes40.LdLD | src/opcodes.rs:1023-1027 | `ld_l_d` (0x6A): L := D; PC + 1, cycle + 1; no flag or memory change; every other register, flag and memory byte unchanged |
| Opcodes40.LdLE | src/opcodes.rs:1030-1034 | `ld_l_e` (0x6B): L := E; PC + 1, cycle + 1; no flag or memory change; every other register, flag and memory byte unchanged |
| Opcodes40.LdLH | src/opcodes.rs:1037-1041 | `ld_l_h` (0x6C): L := H; PC + 1, cycle + 1; no flag or memory change; every other register, flag and memory byte unchanged |
| Opcodes40.LdLL | src/opcodes.rs:1044-1048 | `ld_l_l` (0x6D): L := L; PC + 1, cycle + 1; no flag or memory change; every other register, flag and memory byte unchanged |
| Opcodes40.LdLHl | src/opcodes.rs:1051-1056 | `ld_l_hl` (0x6E): L := the byte at the address in HL (H low, L high); PC + 1, cycle + 2; memory unchanged; every other register, flag and memory byte unchanged |
| Opcodes40.LdLA | src/opcodes.rs:1059-1063 | `ld_l_a` (0x6F): L := A; PC + 1, cycle + 1; no flag or memory change; every other register, flag and memory byte unchanged |
| Opcodes40.LdHlB | src/opcodes.rs:1066-1072 | `ld_hl_b` (0x70): only the byte at the address in HL (H low, L high) := B; PC + 1, cycle + 2; every other register, flag and memory byte unchanged |
| Opcodes40.LdHlC | src/opcodes.rs:1075-1081 | `ld_hl_c` (0x71): only the byte at the address in HL (H low, L high) := C; PC + 1, cycle + 2; every other register, flag and memory byte unchanged |
| Opcodes40.LdHlD | src/opcodes.rs:1084-1090 | `ld_hl_d` (0x72): only the byte at the address in HL (H low, L high) := D; PC + 1, cycle + 2; every other register, flag and memory byte unchanged |
| Opcodes40.LdHlE | src/opcodes.rs:1093-1099 | `ld_hl_e` (0x73): only the byte at the address in HL (H low, L high) := E; PC + 1, cycle + 2; every other register, flag and memory byte unchanged |
| Opcodes40.LdHlH | src/opcodes.rs:1102-1108 | `ld_hl_h` (0x74): only the byte at the address in HL (H low, L high) := H; PC + 1, cycle + 2; every other register, flag and memory byte unchanged |
| Opcodes40.LdHlL | src/opcodes.rs:1111-1117 | `ld_hl_l` (0x75): only the byte at the address in HL (H low, L high) := L; PC + 1, cycle + 2; every other register, flag and memory byte unchanged |
| Opcodes40.Halt | src/opcodes.rs:1138-1142 | `halt` (0x76): state := Halt; PC + 1, cycle + 1; every other register, flag and memory byte unchanged |
| Opcodes40.LdHlA | src/opcodes.rs:1145-1151 | `ld_hl_a` (0x77): only the byte at the address in HL (H low, L high) := A; PC + 1, cycle + 2; every other register, flag and memory byte unchanged |
| Opcodes40.LdAB | src/opcodes.rs:1154-1158 | `ld_a_b` (0x78): A := B; PC + 1, cycle + 1; no flag or memory change; every other register, flag and memory byte unchanged |
| Opcodes40.LdAC | src/opcodes.rs:1161-1165 | `ld_a_c` (0x79): A := C; PC + 1, cycle + 1; no flag or memory change; every other register, flag and memory byte unchanged |
| Opcodes40.LdAD | src/opcodes.rs:1168-1172 | `ld_a_d` (0x7A): A := D; PC + 1, cycle + 1; no flag or memory change; every other register, flag and memory byte unchanged |
| Opcodes40.LdAE | src/opcodes.rs:1175-1179 | `ld_a_e` (0x7B): A := E; PC + 1, cycle + 1; no flag or memory change; every other register, flag and memory byte unchanged |
| Opcodes40.LdAH | src/opcodes.rs:1182-1186 | `ld_a_h` (0x7C): A := H; PC + 1, cycle + 1; no flag or memory change; every other register, flag and memory byte unchanged |
| Opcodes40.LdAL | src/opcodes.rs:1189-1193 | `ld_a_l` (0x7D): A := L; PC + 1, cycle + 1; no flag or memory change; every other register, flag and memory byte unchanged |
| Opcodes40.LdAHl | src/opcodes.rs:1196-1201 | `ld_a_hl` (0x7E): A := the byte at the address in HL (H low, L high); PC + 1, cycle + 2; memory unchanged; every other register, flag and memory byte unchanged |
| Opcodes40.LdAA | src/opcodes.rs:1204-1208 | `ld_a_a` (0x7F): A := A; PC + 1, cycle + 1; no flag or memory change; every other register, flag and memory byte unchanged |
| Opcodes80.AddAB | src/opcodes.rs:1212-1220 | `add_a_b` (0x80): A := A + B mod 256; Z iff the result is 0; N cleared; H and C := bit 7 of the old A; PC + 1, cycle + 1; every other register, flag and memory byte unchanged |
| Opcodes80.AddAC | src/opcodes.rs:1224-1232 | `add_a_c` (0x81): A := A + C mod 256; Z iff the result is 0; N cleared; H and C := bit 7 of the old A; PC + 1, cycle + 1; every other register, flag and memory byte unchanged |
| Opcodes80.AddAD | src/opcodes.rs:1236-1244 | `add_a_d` (0x82): A := A + D mod 256; Z iff the result is 0; N cleared; H and C := bit 7 of the old A; PC + 1, cycle + 1; every other register, flag and memory byte unchanged |
| Opcodes80.AddAE | src/opcodes.rs:1248-1256 | `add_a_e` (0x83): A := A + E mod 256; Z iff the result is 0; N cleared; H and C := bit 7 of the old A; PC + 1, cycle + 1; every other register, flag and memory byte unchanged |
| Opcodes80.AddAH | src/opcodes.rs:1260-1268 | `add_a_h` (0x84): A := A + H mod 256; Z iff the result is 0; N cleared; H and C := bit 7 of the old A; PC + 1, cycle + 1; every other register, flag and memory byte unchanged |
| Opcodes80.AddAL | src/opcodes.rs:1272-1280 | `add_a_l` (0x85): A := A + L mod 256; Z iff the result is 0; N cleared; H and C := bit 7 of the old A; PC + 1, cycle + 1; every other register, flag and memory byte unchanged |
| Opcodes80.AddAHl | src/opcodes.rs:1284-1294 | `add_a_hl` (0x86): A := A + the byte at HL mod 256; Z iff the result is 0; N cleared; H and C := bit 7 of the old A; PC + 1, cycle + 2; every other register, flag and memory byte unchanged |
| Opcodes80.AddAA | src/opcodes.rs:1298-1306 | `add_a_a` (0x87): A := A + A mod 256; Z iff the result is 0; N cleared; H and C := bit 7 of the old A; PC + 1, cycle + 1; every other register, flag and memory byte unchanged |
| Opcodes80.SubB | src/opcodes.rs:1310-1318 | `sub_b` (0x90): A := A - B mod 256; Z iff the result is 0; N set; H and C := bit 7 of the old A; PC + 1, cycle + 1; every other register, flag and memory byte unchanged |
| Opcodes80.SubC | src/opcodes.rs:1322-1330 | `sub_c` (0x91): A := A - C mod 256; Z iff the result is 0; N set; H and C := bit 7 of the old A; PC + 1, cycle + 1; every other register, flag and memory byte unchanged |
| Opcodes80.SubD | src/opcodes.rs:1334-1342 | `sub_d` (0x92): A := A - D mod 256; Z iff the result is 0; N set; H and C := bit 7 of the old A; PC + 1, cycle + 1; every other register, flag and memory byte unchanged |
| Opcodes80.SubE | src/opcodes.rs:1346-1354 | `sub_e` (0x93): A := A - E mod 256; Z iff the result is 0; N set; H and C := bit 7 of the old A; PC + 1, cycle + 1; every other register, flag and memory byte unchanged |
| Opcodes80.SubH | src/opcodes.rs:1358-1366 | `sub_h` (0x94): A := A - H mod 256; Z iff the result is 0; N set; H and C := bit 7 of the old A; PC + 1, cycle + 1; every other register, flag and memory byte unchanged |
| Opcodes80.SubL | src/opcodes.rs:1370-1378 | `sub_l` (0x95): A := A - L mod 256; Z iff the result is 0; N set; H and C := bit 7 of the old A; PC + 1, cycle + 1; every other register, flag and memory byte unchanged |
| Opcodes80.SubHl | src/opcodes.rs:1382-1393 | `sub_hl` (0x96): A := A - the byte at HL mod 256; Z iff the result is 0; N set; H and C := bit 7 of the old A; PC + 1, cycle + 2; every other register, flag and memory byte unchanged |
| Opcodes80.SubA | src/opcodes.rs:1397-1405 | `sub_a` (0x97): A := A - A mod 256; Z iff the result is 0; N set; H and C := bit 7 of the old A; PC + 1, cycle + 1; every other register, flag and memory byte unchanged |
| Opcodes80.AndB | src/opcodes.rs:1409-1417 | `and_b` (0xA0): A := A AND B; Z iff the result is 0; N cleared, H set, C cleared; PC + 1, cycle + 1; every other register, flag and memory byte unchanged |
| Opcodes80.AndC | src/opcodes.rs:1421-1429 | `and_c` (0xA1): A := A AND C; Z iff the result is 0; N cleared, H set, C cleared; PC + 1, cycle + 1; every other register, flag and memory byte unchanged |
| Opcodes80.AndD | src/opcodes.rs:1433-1441 | `and_d` (0xA2): A := A AND D; Z iff the result is 0; N cleared, H set, C cleared; PC + 1, cycle + 1; every other register, flag and memory byte unchanged |
| Opcodes80.AndE | src/opcodes.rs:1445-1453 | `and_e` (0xA3): A := A AND E; Z iff the result is 0; N cleared, H set, C cleared; PC + 1, cycle + 1; every other register, flag and memory byte unchanged |
| Opcodes80.AndH | src/opcodes.rs:1457-1465 | `and_h` (0xA4): A := A AND H; Z iff the result is 0; N cleared, H set, C cleared; PC + 1, cycle + 1; every other register, flag and memory byte unchanged |
| Opcodes80.AndL | src/opcodes.rs:1469-1477 | `and_l` (0xA5): A := A AND L; Z iff the result is 0; N cleared, H set, C cleared; PC + 1, cycle + 1; every other register, flag and memory byte unchanged |
| Opcodes80.AndHl | src/opcodes.rs:1481-1492 | `and_hl` (0xA6): A := A AND the byte at HL; Z iff the result is 0; N cleared, H set, C cleared; PC + 1, cycle + 2; every other register, flag and memory byte unchanged |
| Opcodes80.AndA | src/opcodes.rs:1496-1504 | `and_a` (0xA7): A := A AND A; Z iff the result is 0; N cleared, H set, C cleared; PC + 1, cycle + 1; every other register, flag and memory byte unchanged |
| Opcodes80.XorB | src/opcodes.rs:1508-1516 | `xor_b` (0xA8): A := A XOR B; Z iff the result is 0; N, H and C cleared; PC + 1, cycle + 1; every other register, flag and memory byte unchanged |
| Opcodes80.XorC | src/opcodes.rs:1520-1528 | `xor_c` (0xA9): A := A XOR C; Z iff the result is 0; N, H and C cleared; PC + 1, cycle + 1; every other register, flag and memory byte unchanged |
| Opcodes80.XorD | src/opcodes.rs:1532-1540 | `xor_d` (0xAA): A := A XOR D; Z iff the result is 0; N, H and C cleared; PC + 1, cycle + 1; every other register, flag and memory byte unchanged |
| Opcodes80.XorE | src/opcodes.rs:1544-1552 | `xor_e` (0xAB): A := A XOR E; Z iff the result is 0; N, H and C cleared; PC + 1, cycle + 1; every other register, flag and memory byte unchanged |
| Opcodes80.XorH | src/opcodes.rs:1556-1564 | `xor_h` (0xAC): A := A XOR H; Z iff the result is 0; N, H and C cleared; PC + 1, cycle + 1; every other register, flag and memory byte unchanged |
| Opcodes80.XorL | src/opcodes.rs:1568-1576 | `xor_l` (0xAD): A := A XOR L; Z iff the result is 0; N, H and C cleared; PC + 1, cycle + 1; every other register, flag and memory byte unchanged |
| Opcodes80.XorHl | src/opcodes.rs:1580-1591 | `xor_hl` (0xAE): A := A XOR the byte at HL; Z iff the result is 0; N, H and C cleared; PC + 1, cycle + 2; every other register, flag and memory byte unchanged |
| Opcodes80.XorA | src/opcodes.rs:1595-1603 | `xor_a` (0xAF): A := A XOR A; Z iff the result is 0; N, H and C cleared; PC + 1, cycle + 1; every other register, flag and memory byte unchanged |
| Opcodes80.OrB | src/opcodes.rs:1607-1615 | `or_b` (0xB0): A := A OR B; Z iff the result is 0; N, H and C cleared; PC + 1, cycle + 1; every other register, flag and memory byte unchanged |
| Opcodes80.OrC | src/opcodes.rs:1619-1627 | `or_c` (0xB1): A := A OR C; Z iff the result is 0; N, H and C cleared; PC + 1, cycle + 1; every other register, flag and memory byte unchanged |
| Opcodes80.OrD | src/opcodes.rs:1631-1639 | `or_d` (0xB2): A := A OR D; Z iff the result is 0; N, H and C cleared; PC + 1, cycle + 1; every other register, flag and memory byte unchanged |
| Opcodes80.OrE | src/opcodes.rs:1643-1651 | `or_e` (0xB3): A := A OR E; Z iff the result is 0; N, H and C cleared; PC + 1, cycle + 1; every other register, flag and memory byte unchanged |
| Opcodes80.OrH | src/opcodes.rs:1655-1663 | `or_h` (0xB4): A := A OR H; Z iff the result is 0; N, H and C cleared; PC + 1, cycle + 1; every other register, flag and memory byte unchanged |
| Opcodes80.OrL | src/opcodes.rs:1667-1675 | `or_l` (0xB5): A := A OR L; Z iff the result is 0; N, H and C cleared; PC + 1, cycle + 1; every other register, flag and memory byte unchanged |
| Opcodes80.OrHl | src/opcodes.rs:1679-1690 | `or_hl` (0xB6): A := A OR the byte at HL; Z iff the result is 0; N, H and C cleared; PC + 1, cycle + 2; every other register, flag and memory byte unchanged |
| Opcodes80.OrA | src/opcodes.rs:1694-1702 | `or_a` (0xB7): A := A OR A; Z iff the result is 0; N, H and C cleared; PC + 1, cycle + 1; every other register, flag and memory byte unchanged |
| Opcodes80.CpB | src/opcodes.rs:1706-1713 | `cp_b` (0xB8): A unchanged; Z iff A equals B; N set; H and C := bit 7 of A; PC + 1, cycle + 1; every other register, flag and memory byte unchanged |
| Opcodes80.CpC | src/opcodes.rs:1717-1724 | `cp_c` (0xB9): A unchanged; Z iff A equals C; N set; H and C := bit 7 of A; PC + 1, cycle + 1; every other register, flag and memory byte unchanged |
| Opcodes80.CpD | src/opcodes.rs:1728-1735 | `cp_d` (0xBA): A unchanged; Z iff A equals D; N set; H and C := bit 7 of A; PC + 1, cycle + 1; every other register, flag and memory byte unchanged |
| Opcodes80.CpE | src/opcodes.rs:1739-1746 | `cp_e` (0xBB): A unchanged; Z iff A equals E; N set; H and C := bit 7 of A; PC + 1, cycle + 1; every other register, flag and memory byte unchanged |
| Opcodes80.CpH | src/opcodes.rs:1750-1757 | `cp_h` (0xBC): A unchanged; Z iff A equals H; N set; H and C := bit 7 of A; PC + 1, cycle + 1; every other register, flag and memory byte unchanged |
| Opcodes80.CpL | src/opcodes.rs:1761-1768 | `cp_l` (0xBD): A unchanged; Z iff A equals L; N set; H and C := bit 7 of A; PC + 1, cycle + 1; every other register, flag and memory byte unchanged |
| Opcodes80.CpHl | src/opcodes.rs:1772-1782 | `cp_hl` (0xBE): A unchanged; Z iff A equals the byte at HL; N set; H and C := bit 7 of A; PC + 1, cycle + 2; every other register, flag and memory byte unchanged |
| Opcodes80.CpA | src/opcodes.rs:1786-1793 | `cp_a` (0xBF): A unchanged; Z iff A equals A; N set; H and C := bit 7 of A; PC + 1, cycle + 1; every other register, flag and memory byte unchanged |
| OpcodesC0.RetNz | src/opcodes.rs:1797-1805 | `ret_nz` (0xC0): if Z clear: PC := the popped word, SP + 2, cycle + 5; otherwise PC + 1, cycle + 2; every other register, flag and memory byte unchanged |
| OpcodesC0.PopBc | src/opcodes.rs:1808-1813 | `pop_bc` (0xC1): first byte popped into B, second into C; SP + 2; PC + 1, cycle + 3; every other register, flag and memory byte unchanged |
| OpcodesC0.JpNzA16 | src/opcodes.rs:1819-1827 | `jp_nz_a16` (0xC2): if Z clear: PC := the immediate word, cycle + 4; otherwise PC + 3, cycle + 3; every other register, flag and memory byte unchanged |
| OpcodesC0.JpA16 | src/opcodes.rs:1830-1834 | `jp_a16` (0xC3): PC := the immediate word, cycle + 4; every other register, flag and memory byte unchanged |
| OpcodesC0.CallNzA16 | src/opcodes.rs:1839-1848 | `call_nz_a16` (0xC4): if Z clear: PC + 3 pushed, PC := the word at PC + 1, cycle + 6; otherwise PC + 3, cycle + 3; every other register, flag and memory byte unchanged |
| OpcodesC0.PushBc | src/opcodes.rs:1851-1857 | `push_bc` (0xC5): BC (B low, C high) pushed as a word: SP - 2; PC + 1, cycle + 4; every other register, flag and memory byte unchanged |
| OpcodesC0.AddAD8 | src/opcodes.rs:1861-1871 | `add_a_d8` (0xC6): A := A + the immediate byte mod 256; Z iff the result is 0; N cleared; H and C := bit 7 of the old A; PC + 2, cycle + 2; every other register, flag and memory byte unchanged |
| OpcodesC0.RetZ | src/opcodes.rs:1875-1883 | `ret_z` (0xC8): if Z set: PC := the popped word, SP + 2, cycle + 5; otherwise PC + 1, cycle + 2; every other register, flag and memory byte unchanged |
| OpcodesC0.Ret | src/opcodes.rs:1886-1889 | `ret` (0xC9): PC := the word popped from the stack; SP + 2; cycle + 4; every other register, flag and memory byte unchanged |
| OpcodesC0.JpZA16 | src/opcodes.rs:1895-1903 | `jp_z_a16` (0xCA): if Z set: PC := the immediate word, cycle + 4; otherwise PC + 3, cycle + 3; every other register, flag and memory byte unchanged |
| OpcodesC0.CallZA16 | src/opcodes.rs:1908-1917 | `call_z_a16` (0xCC): if Z set: PC + 3 pushed, PC := the word at PC + 1, cycle + 6; otherwise PC + 3, cycle + 3; every other register, flag and memory byte unchanged |
| OpcodesC0.CallA16 | src/opcodes.rs:1926-1934 | `call_a16` (0xCD): pushes the word STORED at PC + 3 (as written), PC := the word at PC + 1, cycle + 6; every other register, flag and memory byte unchanged |
| OpcodesC0.RetNc | src/opcodes.rs:1938-1946 | `ret_nc` (0xD0): if C clear: PC := the popped word, SP + 2, cycle + 5; otherwise PC + 1, cycle + 2; every other register, flag and memory byte unchanged |
| OpcodesC0.PopDe | src/opcodes.rs:1949-1954 | `pop_de` (0xD1): first byte popped into D, second into E; SP + 2; PC + 1, cycle + 3; every other register, flag and memory byte unchanged |
| OpcodesC0.JpNcA16 | src/opcodes.rs:1960-1968 | `jp_nc_a16` (0xD2): if C clear: PC := the immediate word, cycle + 4; otherwise PC + 3, cycle + 3; every other register, flag and memory byte unchanged |
| OpcodesC0.CallNcA16 | src/opcodes.rs:1973-1982 | `call_nc_a16` (0xD4): if C clear: PC + 3 pushed, PC := the word at PC + 1, cycle + 6; otherwise PC + 3, cycle + 3; every other register, flag and memory byte unchanged |
| OpcodesC0.PushDe | src/opcodes.rs:1985-1991 | `push_de` (0xD5): DE (D low, E high) pushed as a word: SP - 2; PC + 1, cycle + 4; every other register, flag and memory byte unchanged |
| OpcodesC0.SubD8 | src/opcodes.rs:1995-2005 | `sub_d8` (0xD6): A := A - the immediate byte mod 256; Z iff the result is 0; N set; H and C := bit 7 of the old A; PC + 2, cycle + 2; every other register, flag and memory byte unchanged |
| OpcodesC0.RetC | src/opcodes.rs:2009-2017 | `ret_c` (0xD8): if C set: PC := the popped word, SP + 2, cycle + 5; otherwise PC + 1, cycle + 2; every other register, flag and memory byte unchanged |
| OpcodesC0.Reti | src/opcodes.rs:2022-2033 | `reti` (0xD9): PC := the popped word, SP + 2; IME and bits 0-4 of 0xFFFF cleared; cycle + 4; every other register, flag and memory byte unchanged |
| OpcodesC0.JpCA16 | src/opcodes.rs:2039-2047 | `jp_c_a16` (0xDA): if C set: PC := the immediate word, cycle + 4; otherwise PC + 3, cycle + 3; every other register, flag and memory byte unchanged |
| OpcodesC0.CallCA16 | src/opcodes.rs:2052-2061 | `call_c_a16` (0xDC): if C set: PC + 3 pushed, PC := the word at PC + 1, cycle + 6; otherwise PC + 3, cycle + 3; every other register, flag and memory byte unchanged |
| OpcodesC0.LdA8A | src/opcodes.rs:2065-2071 | `ld_a8_a` (0xE0): only the byte at the immediate byte (as an address below 0x100) := A; PC + 2, cycle + 3; every other register, flag and memory byte unchanged |
| OpcodesC0.PopHl | src/opcodes.rs:2074-2079 | `pop_hl` (0xE1): first byte popped into H, second into L; SP + 2; PC + 1, cycle + 3; every other register, flag and memory byte unchanged |
| OpcodesC0.LdPortCA | src/opcodes.rs:2083-2089 | `ld_port_c_a` (0xE2): only the byte at 0xFF00 + C := A; PC + 1, cycle + 2; every other register, flag and memory byte unchanged |
| OpcodesC0.PushHl | src/opcodes.rs:2092-2098 | `push_hl` (0xE5): HL (H low, L high) pushed as a word: SP - 2; PC + 1, cycle + 4; every other register, flag and memory byte unchanged |
| OpcodesC0.AndD8 | src/opcodes.rs:2102-2112 | `and_d8` (0xE6): A := A AND the immediate byte; Z iff the result is 0; N cleared, H set, C cleared; PC + 2, cycle + 2; every other register, flag and memory byte unchanged |
| OpcodesC0.AddSpS8 | src/opcodes.rs:2116-2126 | `add_sp_s8` (0xE8): SP := SP + the zero-extended offset byte mod 2^16; Z, N cleared; H and C := bit 15 of the old SP; PC + 2, cycle + 4; every other register, flag and memory byte unchanged |
| OpcodesC0.JpHl | src/opcodes.rs:2130-2133 | `jp_hl` (0xE9): PC := HL; cycle + 1; every other register, flag and memory byte unchanged |
| OpcodesC0.LdA16A | src/opcodes.rs:2137-2143 | `ld_a16_a` (0xEA): only the byte at the immediate word := A; PC + 3, cycle + 4; every other register, flag and memory byte unchanged |
| OpcodesC0.XorD8 | src/opcodes.rs:2147-2157 | `xor_d8` (0xEE): A := A XOR the immediate byte; Z iff the result is 0; N, H and C cleared; PC + 2, cycle + 2; every other register, flag and memory byte unchanged |
| OpcodesC0.LdAA8 | src/opcodes.rs:2161-2168 | `ld_a_a8` (0xF0): only the byte at 0xFF00 + the immediate byte := A; PC + 2, cycle + 3 (as written, a store); every other register, flag and memory byte unchanged |
| OpcodesC0.PopAf | src/opcodes.rs:2171-2186 | `pop_af` (0xF1): flag byte popped into C, H, N, Z (bits 0-3), then A; SP + 2; PC + 1, cycle + 3; every other register, flag and memory byte unchanged |
| OpcodesC0.LdAPortC | src/opcodes.rs:2190-2196 | `ld_a_port_c` (0xF2): A := the byte at 0xFF00 + C; PC + 1, cycle + 2; every other register, flag and memory byte unchanged |
| OpcodesC0.Di | src/opcodes.rs:2199-2208 | `di` (0xF3): IME cleared; bits 0-4 of 0xFFFF cleared by the five flag setters; PC + 1, cycle + 1; every other register, flag and memory byte unchanged |
| OpcodesC0.PushAf | src/opcodes.rs:2211-2226 | `push_af` (0xF5): A pushed, then the flag byte (C, H, N, Z in bits 0-3); SP - 2; PC + 1, cycle + 4; every other register, flag and memory byte unchanged |
| OpcodesC0.OrD8 | src/opcodes.rs:2230-2240 | `or_d8` (0xF6): A := A OR the immediate byte; Z iff the result is 0; N, H and C cleared; PC + 1, cycle + 1 (as written); every other register, flag and memory byte unchanged |
| OpcodesC0.LdHlSpPlusS8 | src/opcodes.rs:2244-2258 | `ld_hl_sp_plus_s8` (0xF8): HL := SP + the zero-extended offset byte mod 2^16; Z, N cleared; H and C := bit 15 of SP; PC + 2, cycle + 3; every other register, flag and memory byte unchanged |
| OpcodesC0.LdSpHl | src/opcodes.rs:2261-2265 | `ld_sp_hl` (0xF9): SP := HL; PC + 1, cycle + 2; every other register, flag and memory byte unchanged |
| OpcodesC0.LdAA16 | src/opcodes.rs:2269-2274 | `ld_a_a16` (0xFA): A := the byte at the immediate word; PC + 3, cycle + 4; every other register, flag and memory byte unchanged |
| OpcodesC0.Ei | src/opcodes.rs:2282-2286 | `ei` (0xFB): IME set; PC + 1, cycle + 1; every other register, flag and memory byte unchanged |
| OpcodesC0.CpD8 | src/opcodes.rs:2292-2301 | `cp_d8` (0xFE): A unchanged; Z iff A equals the immediate byte; N set; H and C := bit 7 of A; PC + 2, cycle + 2; every other register, flag and memory byte unchanged |
| Dispatch.ProcessRow0 | src/cpu/cpu.rs:212-227 | opcodes 0x00-0x0F end as `DispatchTable.Row0` names: the handler, a stub moving only PC and cycle, the no-op prefix, or a panic |
| Dispatch.ProcessBlock00 | src/cpu/cpu.rs:212-219 | opcodes 0x00-0x07: the same, arm by arm |
| Dispatch.ProcessBlock08 | src/cpu/cpu.rs:220-227 | opcodes 0x08-0x0F: the same, arm by arm |
| Dispatch.ProcessRow1 | src/cpu/cpu.rs:228-243 | opcodes 0x10-0x1F end as `DispatchTable.Row1` names: the handler, a stub moving only PC and cycle, the no-op prefix, or a panic |
| Dispatch.ProcessBlock10 | src/cpu/cpu.rs:228-235 | opcodes 0x10-0x17: the same, arm by arm |
| Dispatch.ProcessBlock18 | src/cpu/cpu.rs:236-243 | opcodes 0x18-0x1F: the same, arm by arm |
| Dispatch.ProcessRow2 | src/cpu/cpu.rs:244-263 | opcodes 0x20-0x2F end as `DispatchTable.Row2` names: the handler, a stub moving only PC and cycle, the no-op prefix, or a panic |
| Dispatch.ProcessBlock20 | src/cpu/cpu.rs:244-255 | opcodes 0x20-0x27: the same, arm by arm |
| Dispatch.ProcessBlock28 | src/cpu/cpu.rs:256-263 | opcodes 0x28-0x2F: the same, arm by arm |
| Dispatch.ProcessRow3 | src/cpu/cpu.rs:264-279 | opcodes 0x30-0x3F end as `DispatchTable.Row3` names: the handler, a stub moving only PC and cycle, the no-op prefix, or a panic |
| Dispatch.ProcessBlock30 | src/cpu/cpu.rs:264-271 | opcodes 0x30-0x37: the same, arm by arm |
| Dispatch.ProcessBlock38 | src/cpu/cpu.rs:272-279 | opcodes 0x38-0x3F: the same, arm by arm |
| Dispatch.ProcessRow4 | src/cpu/cpu.rs:280-295 | opcodes 0x40-0x4F end as `DispatchTable.Row4` names: the handler, a stub moving only PC and cycle, the no-op prefix, or a panic |
| Dispatch.ProcessBlock40 | src/cpu/cpu.rs:280-287 | opcodes 0x40-0x47: the same, arm by arm |
| Dispatch.ProcessBlock48 | src/cpu/cpu.rs:288-295 | opcodes 0x48-0x4F: the same, arm by arm |
| Dispatch.ProcessRow5 | src/cpu/cpu.rs:296-311 | opcodes 0x50-0x5F end as `DispatchTable.Row5` names: the handler, a stub moving only PC and cycle, the no-op prefix, or a panic |
| Dispatch.ProcessBlock50 | src/cpu/cpu.rs:296-303 | opcodes 0x50-0x57: the same, arm by arm |
| Dispatch.ProcessBlock58 | src/cpu/cpu.rs:304-311 | opcodes 0x58-0x5F: the same, arm by arm |
| Dispatch.ProcessRow6 | src/cpu/cpu.rs:312-327 | opcodes 0x60-0x6F end as `DispatchTable.Row6` names: the handler, a stub moving only PC and cycle, the no-op prefix, or a panic |
| Dispatch.ProcessBlock60 | src/cpu/cpu.rs:312-319 | opcodes 0x60-0x67: the same, arm by arm |
| Dispatch.ProcessBlock68 | src/cpu/cpu.rs:320-327 | opcodes 0x68-0x6F: the same, arm by arm |
| Dispatch.ProcessRow7 | src/cpu/cpu.rs:328-343 | opcodes 0x70-0x7F end as `DispatchTable.Row7` names: the handler, a stub moving only PC and cycle, the no-op prefix, or a panic |
| Dispatch.ProcessBlock70 | src/cpu/cpu.rs:328-335 | opcodes 0x70-0x77: the same, arm by arm |
| Dispatch.ProcessBlock78 | src/cpu/cpu.rs:336-343 | opcodes 0x78-0x7F: the same, arm by arm |
| Dispatch.ProcessRow8 | src/cpu/cpu.rs:344-391 | opcodes 0x80-0x8F end as `DispatchTable.Row8` names: the handler, a stub moving only PC and cycle, the no-op prefix, or a panic |
| Dispatch.ProcessBlock80 | src/cpu/cpu.rs:344-351 | opcodes 0x80-0x87: the same, arm by arm |
| Dispatch.ProcessBlock88 | src/cpu/cpu.rs:352-391 | opcodes 0x88-0x8F: the same, arm by arm |
| Dispatch.ProcessRow9 | src/cpu/cpu.rs:392-439 | opcodes 0x90-0x9F end as `DispatchTable.Row9` names: the handler, a stub moving only PC and cycle, the no-op prefix, or a panic |
| Dispatch.ProcessBlock90 | src/cpu/cpu.rs:392-399 | opcodes 0x90-0x97: the same, arm by arm |
| Dispatch.ProcessBlock98 | src/cpu/cpu.rs:400-439 | opcodes 0x98-0x9F: the same, arm by arm |
| Dispatch.ProcessRowA | src/cpu/cpu.rs:440-455 | opcodes 0xA0-0xAF end as `DispatchTable.RowA` names: the handler, a stub moving only PC and cycle, the no-op prefix, or a panic |
| Dispatch.ProcessBlockA0 | src/cpu/cpu.rs:440-447 | opcodes 0xA0-0xA7: the same, arm by arm |
| Dispatch.ProcessBlockA8 | src/cpu/cpu.rs:448-455 | opcodes 0xA8-0xAF: the same, arm by arm |
| Dispatch.ProcessRowB | src/cpu/cpu.rs:456-471 | opcodes 0xB0-0xBF end as `DispatchTable.RowB` names: the handler, a stub moving only PC and cycle, the no-op prefix, or a panic |
| Dispatch.ProcessBlockB0 | src/cpu/cpu.rs:456-463 | opcodes 0xB0-0xB7: the same, arm by arm |
| Dispatch.ProcessBlockB8 | src/cpu/cpu.rs:464-471 | opcodes 0xB8-0xBF: the same, arm by arm |
| Dispatch.ProcessRowC | src/cpu/cpu.rs:472-499 | opcodes 0xC0-0xCF end as `DispatchTable.RowC` names: the handler, a stub moving only PC and cycle, the no-op prefix, or a panic |
| Dispatch.ProcessBlockC0 | src/cpu/cpu.rs:472-483 | opcodes 0xC0-0xC7: the same, arm by arm |
| Dispatch.ProcessBlockC8 | src/cpu/cpu.rs:484-499 | opcodes 0xC8-0xCF: the same, arm by arm |
| Dispatch.ProcessRowD | src/cpu/cpu.rs:500-524 | opcodes 0xD0-0xDF end as `DispatchTable.RowD` names: the handler, a stub moving only PC and cycle, the no-op prefix, or a panic |
| Dispatch.ProcessBlockD0 | src/cpu/cpu.rs:500-510 | opcodes 0xD0-0xD7: the same, arm by arm |
| Dispatch.ProcessBlockD8 | src/cpu/cpu.rs:511-524 | opcodes 0xD8-0xDF: the same, arm by arm |
| Dispatch.ProcessRowE | src/cpu/cpu.rs:525-543 | opcodes 0xE0-0xEF end as `DispatchTable.RowE` names: the handler, a stub moving only PC and cycle, the no-op prefix, or a panic |
| Dispatch.ProcessBlockE0 | src/cpu/cpu.rs:525-534 | opcodes 0xE0-0xE7: the same, arm by arm |
| Dispatch.ProcessBlockE8 | src/cpu/cpu.rs:535-543 | opcodes 0xE8-0xEF: the same, arm by arm |
| Dispatch.ProcessRowF | src/cpu/cpu.rs:544-564 | opcodes 0xF0-0xFF end as `DispatchTable.RowF` names: the handler, a stub moving only PC and cycle, the no-op prefix, or a panic |
| Dispatch.ProcessBlockF0 | src/cpu/cpu.rs:544-554 | opcodes 0xF0-0xF7: the same, arm by arm |
| Dispatch.ProcessBlockF8 | src/cpu/cpu.rs:555-564 | opcodes 0xF8-0xFF: the same, arm by arm |
| GameBoy.LoadedCartridgeEffect | src/emulator/gameboy.rs:55-65 | a load succeeds exactly when the cartridge fits in 0x10000 bytes; it then holds the cartridge from address 0, keeps the rest of memory and resets the CPU; a failed load changes nothing |
| GameBoy.ResetMachineEffect | src/emulator/gameboy.rs:35-41 | reset always resets the CPU (PC = 0x0100) and zeroes memory exactly when asked; resetting twice is resetting once |
| GameBoy.GameBoy.constructor | src/emulator/gameboy.rs:16-23 | a new CPU and zeroed memory |
| GameBoy.GameBoy.Tick | src/emulator/gameboy.rs:26-32 | exactly one `Cpu::tick` on the owned memory, with its contract |
| GameBoy.GameBoy.Reset | src/emulator/gameboy.rs:35-41 | the new state is `ResetMachine` of the old |
| GameBoy.GameBoy.LoadCartridge | src/emulator/gameboy.rs:55-65 | the success flag and new state are `LoadedCartridge` of the old state |
| GameBoy.GameBoy.CpuReadonly | src/emulator/gameboy.rs:44-46 | the CPU's registers, read without changing anything |
| GameBoy.GameBoy.MemoryReadonly | src/emulator/gameboy.rs:49-51 | the address space, read without changing anything |
| MessageQueue.PollTakesOldest | src/emulator/debugger/message_queue.rs:33-35 | polling gives nothing exactly on an empty queue; otherwise the oldest message and the rest |
| MessageQueue.DrainedInOrder | src/emulator/debugger/message_queue.rs:33-35 | polling until empty yields the messages oldest first |
| MessageQueue.PushedAllAppends | src/emulator/debugger/message_queue.rs:28-30 | pushing appends at the back |
| MessageQueue.FirstInFirstOut | src/emulator/debugger/message_queue.rs:28-35 | messages come out in the order they were pushed, after the ones already waiting |
| MessageQueue.MessageQueue.constructor | src/emulator/debugger/message_queue.rs:18-24 | a new queue is empty |
| MessageQueue.MessageQueue.Push | src/emulator/debugger/message_queue.rs:28-30 | the message is appended at the back |
| MessageQueue.MessageQueue.Poll | src/emulator/debugger/message_queue.rs:33-35 | the oldest message is returned and removed; None from an empty queue, which stays empty |
| Debugger.ShouldTickCases | src/emulator/debugger/debugger.rs:42-57 | no game: false and no change, so a pending single step survives; single step pending: true once, both flags cleared, and the next call is false; otherwise `is_running` with no change |
| Debugger.TicksOnlyWhenAllowed | src/emulator/debugger/debugger.rs:42-57 | the gate opens exactly when a game is loaded and the emulator is running or a single step is pending |
| Debugger.HandleEffects | src/emulator/debugger/debugger.rs:63-79 | `UpdateRunningState(b)` sets `is_running` to b; `TickOnce` sets `should_tick_once`; `BreakpointTriggered` clears `is_running`; `ResetGameBoy(c)` resets with c and clears `is_game_loaded` exactly when c; a readable cartridge sets `is_game_loaded` to whether it fit; an unreadable one changes nothing |
| Debugger.HandleAllAppend | src/emulator/debugger/debugger.rs:62-80 | handling messages one after another is handling the sequence |
| Debugger.Debugger.constructor | src/emulator/debugger/debugger.rs:29-39 | an empty queue and the default state (all false, src/emulator/debugger/mod.rs:21-29) |
| Debugger.Debugger.GameboyShouldTick | src/emulator/debugger/debugger.rs:42-57 | the answer and the new state are `ShouldTick` of the old state |
| Debugger.Debugger.Update | src/emulator/debugger/debugger.rs:61-80 | the queue ends empty, and the debugger state and device are the queued messages handled in order |
| Debugger.Debugger.HandleMessage | src/emulator/debugger/debugger.rs:63-79 | the new debugger state and device are `Handle` of the old ones and the message |
| Debugger.Debugger.LoadCartridgeFromDisk | src/emulator/debugger/debugger.rs:129-140 | a readable file is loaded and `is_game_loaded` set to the load's result; an unreadable one changes nothing |

## Left out

- Overflow: the source's plain `+=`/`-=` on registers, the program counter and the cycle counter would panic in a debug build; the model wraps everywhere, as a release build and the `wrapping_*` calls do.
- Operations the handlers call whose code is not part of this model: `Memory::read_16_bit_value_at`, `push_stack_u8`/`u16`, `pop_stack_u8`/`u16`, `clear`, a bool-returning `copy_into_memory_at_address`, and `Cpu::reset`. Each is given a body that follows a stated assumption: little-endian words as the doc comment at src/opcodes.rs:95-96 says; pushes decrement SP and write there; pops read at SP and increment it; a word push stores the high byte first so that the word lies little-endian at the new SP; `clear` zeroes memory; the copy reports whether it happened; `reset` restores the state `Cpu::new` gives but keeps the cycle counter, which counts for the whole run.
- Memory.Memory.CopyIntoMemoryAtAddress: the current revision of src/memory.rs returns nothing; the model returns the success flag that src/emulator/gameboy.rs:56-60 expects, true exactly when the copy happened.
- Dispatch.ProcessOpcode, and likewise Dispatch.ProcessRow0, Dispatch.ProcessRow1, Dispatch.ProcessRow2, Dispatch.ProcessRow3, Dispatch.ProcessRow4, Dispatch.ProcessRow5, Dispatch.ProcessRow6, Dispatch.ProcessRow7, Dispatch.ProcessRow8, Dispatch.ProcessRow9, Dispatch.ProcessRowA, Dispatch.ProcessRowB, Dispatch.ProcessRowC, Dispatch.ProcessRowD, Dispatch.ProcessRowE, Dispatch.ProcessRowF and Dispatch.ProcessBlock00, Dispatch.ProcessBlock08, Dispatch.ProcessBlock10, Dispatch.ProcessBlock18, Dispatch.ProcessBlock20, Dispatch.ProcessBlock28, Dispatch.ProcessBlock30, Dispatch.ProcessBlock38, Dispatch.ProcessBlock40, Dispatch.ProcessBlock48, Dispatch.ProcessBlock50, Dispatch.ProcessBlock58, Dispatch.ProcessBlock60, Dispatch.ProcessBlock68, Dispatch.ProcessBlock70, Dispatch.ProcessBlock78, Dispatch.ProcessBlock80, Dispatch.ProcessBlock88, Dispatch.ProcessBlock90, Dispatch.ProcessBlock98, Dispatch.ProcessBlockA0, Dispatch.ProcessBlockA8, Dispatch.ProcessBlockB0, Dispatch.ProcessBlockB8, Dispatch.ProcessBlockC0, Dispatch.ProcessBlockC8, Dispatch.ProcessBlockD0, Dispatch.ProcessBlockD8, Dispatch.ProcessBlockE0, Dispatch.ProcessBlockE8, Dispatch.ProcessBlockF0, Dispatch.ProcessBlockF8: for a byte whose arm is a handler, the contract states only that dispatch does not panic. Which handler each byte runs is stated in the source code of each ProcessBlock method and in the comments of the table, and what each handler does is stated by that handler's own contract; the model does not restate all 217 handler effects in one dispatch postcondition, because such a postcondition is too expensive to verify.
- Dispatch.Tick: a panic (an unknown opcode) ends the source program. The model returns a `panicked` flag and says nothing about the state left behind.
- `process_16_bit_opcode` only logs, so Dispatch.Process16BitOpcode has an empty body and changes nothing.
- Logging: every `error!` call and the `log` crate are left out.
- `add_sp_s8` and `ld_hl_sp_plus_s8` cast the offset byte with `u8 as i16`, which zero-extends. The model adds the zero-extended byte modulo 2^16. It does not model the i16 overflow of `sp as i16 + v` in a debug build.
- The relative jumps add the offset byte to PC unsigned, as the source does. Two's-complement offsets are not modelled.
- Wall-clock time: `GameBoy::tick` records the time since the previous tick and never uses it. The emulator's frame timing (src/emulator/emulator.rs) is also left out.
- Cartridge files: `Cartridge::new_from_file` reads the file system. The debugger takes a function `disk` from a path to the file's bytes, `None` when the read fails.
- The user interface: `Debugger::draw`, the menu, toolbar, breakpoint list, CPU view and memory dump. `update` also passes breakpoint addresses to the memory dump view for display. None of this affects emulator state.
- `MessageData::BreakpointTriggered` is handled by `update` but missing from the message enum in the current revision of src/emulator/debugger/message_queue.rs; the model adds it to the datatype.
- src/cpu.rs is an older CPU in which every opcode is unknown; it is superseded by src/cpu/cpu.rs and not modelled.
- `get_cpu_readonly` and `get_memory_readonly` are reads: GameBoy.GameBoy.CpuReadonly and MemoryReadonly are functions, so by construction they change nothing.
