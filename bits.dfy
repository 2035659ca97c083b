/// Machine integers and the bit helpers of src/utility/bits.rs (src/bits.rs
/// holds an identical copy of the byte split and join, which the
/// instruction handlers import).
///
/// Bytes, words and the cycle counter are integers in range (`u8`, `u16`,
/// `u64`). Rust's bitwise operators are the functions `BitAnd`, `BitOr` and
/// `BitXor` on naturals, defined bit by bit from the least significant end;
/// `Bit(x, k)` reads bit `k` of `x`.
module Bits {

  newtype u8 = x: int | 0 <= x < 0x100
  newtype u16 = x: int | 0 <= x < 0x1_0000
  newtype u64 = x: int | 0 <= x < 0x1_0000_0000_0000_0000

  // ---------------------------------------------------------------------
  // Arithmetic that wraps around, as `wrapping_add`/`wrapping_sub` do and as
  // plain `+`/`-` on Rust integers does in a release build.

  // Each sum of two operands is below twice the modulus and each difference
  // above minus the modulus, so one correction by the modulus reduces it;
  // `WrappingIsModular` states the reduction.

  function WrappingAdd8(x: u8, y: u8): u8 {
    var sum := x as int + y as int;
    if sum < 0x100 then sum as u8 else (sum - 0x100) as u8
  }

  function WrappingSub8(x: u8, y: u8): u8 {
    if y <= x then x - y else (x as int - y as int + 0x100) as u8
  }

  function WrappingAdd16(x: u16, y: u16): u16 {
    var sum := x as int + y as int;
    if sum < 0x1_0000 then sum as u16 else (sum - 0x1_0000) as u16
  }

  function WrappingSub16(x: u16, y: u16): u16 {
    if y <= x then x - y else (x as int - y as int + 0x1_0000) as u16
  }

  function WrappingAdd64(x: u64, y: u64): u64 {
    var sum := x as int + y as int;
    if sum < 0x1_0000_0000_0000_0000 then sum as u64 else (sum - 0x1_0000_0000_0000_0000) as u64
  }

  /// Each wrapping operation is the exact result reduced modulo 2 to the
  /// width of its type.
  lemma WrappingIsModular8(x: u8, y: u8)
    ensures WrappingAdd8(x, y) as int == (x as int + y as int) % 0x100
    ensures WrappingSub8(x, y) as int == (x as int - y as int) % 0x100
  {
  }

  lemma WrappingIsModular16(x: u16, y: u16)
    ensures WrappingAdd16(x, y) as int == (x as int + y as int) % 0x1_0000
    ensures WrappingSub16(x, y) as int == (x as int - y as int) % 0x1_0000
  {
  }

  lemma WrappingIsModular64(x: u64, y: u64)
    ensures WrappingAdd64(x, y) as int == (x as int + y as int) % 0x1_0000_0000_0000_0000
  {
  }

  /// Adding one wraps to zero exactly at the largest byte.
  lemma IncrementWrapsAtTop(x: u8)
    ensures WrappingAdd8(x, 1) == 0 <==> x == 0xFF
    ensures x != 0xFF ==> WrappingAdd8(x, 1) as int == x as int + 1
  {
  }

  /// Subtracting one wraps to the largest byte exactly at zero.
  lemma DecrementWrapsAtBottom(x: u8)
    ensures WrappingSub8(x, 1) == 0xFF <==> x == 0
    ensures WrappingSub8(x, 1) == 0 <==> x == 1
  {
  }

  /// Subtraction is zero exactly when the operands are equal.
  lemma SubIsZeroIffEqual(x: u8, y: u8)
    ensures WrappingSub8(x, y) == 0 <==> x == y
  {
  }

  /// Subtracting undoes adding, on words.
  lemma AddThenSub16(x: u16, y: u16)
    ensures WrappingSub16(WrappingAdd16(x, y), y) == x
  {
  }

  /// Two steps of one are one step of two, and the addresses they pass
  /// through are distinct: the arithmetic of a two-byte stack push and pop.
  lemma StepsOfOne16(x: u16)
    ensures WrappingSub16(WrappingSub16(x, 1), 1) == WrappingSub16(x, 2)
    ensures WrappingAdd16(WrappingAdd16(x, 1), 1) == WrappingAdd16(x, 2)
    ensures WrappingSub16(x, 1) != WrappingSub16(x, 2)
    ensures WrappingAdd16(WrappingSub16(x, 2), 1) == WrappingSub16(x, 1)
    ensures WrappingAdd16(WrappingSub16(x, 2), 2) == x
    ensures WrappingAdd16(WrappingSub16(x, 1), 1) == x
  {
  }

  // ---------------------------------------------------------------------
  // Bits of naturals

  function Pow2(n: nat): (r: nat)
    ensures r >= 1
  {
    if n == 0 then 1 else 2 * Pow2(n - 1)
  }

  /// Bit `k` of `x`.
  predicate Bit(x: nat, k: nat) {
    if k == 0 then x % 2 == 1 else Bit(x / 2, k - 1)
  }

  /// Rust's `&`.
  function BitAnd(x: nat, y: nat): nat
    decreases x
  {
    if x == 0 || y == 0 then 0
    else 2 * BitAnd(x / 2, y / 2) + (if x % 2 == 1 && y % 2 == 1 then 1 else 0)
  }

  /// Rust's `|`.
  function BitOr(x: nat, y: nat): nat
    decreases x
  {
    if x == 0 then y
    else if y == 0 then x
    else 2 * BitOr(x / 2, y / 2) + (if x % 2 == 1 || y % 2 == 1 then 1 else 0)
  }

  /// Rust's `^`.
  function BitXor(x: nat, y: nat): nat
    decreases x
  {
    if x == 0 then y
    else if y == 0 then x
    else 2 * BitXor(x / 2, y / 2) + (if (x % 2 == 1) != (y % 2 == 1) then 1 else 0)
  }

  lemma {:induction false} ZeroHasNoBits(k: nat)
    ensures !Bit(0, k)
  {
    if k > 0 {
      ZeroHasNoBits(k - 1);
    }
  }

  lemma {:induction false} BitOfAnd(x: nat, y: nat, k: nat)
    ensures Bit(BitAnd(x, y), k) == (Bit(x, k) && Bit(y, k))
    decreases k
  {
    if x == 0 || y == 0 {
      ZeroHasNoBits(k);
    } else if k > 0 {
      BitOfAnd(x / 2, y / 2, k - 1);
    }
  }

  lemma {:induction false} BitOfOr(x: nat, y: nat, k: nat)
    ensures Bit(BitOr(x, y), k) == (Bit(x, k) || Bit(y, k))
    decreases k
  {
    if x == 0 || y == 0 {
      ZeroHasNoBits(k);
    } else if k > 0 {
      BitOfOr(x / 2, y / 2, k - 1);
    }
  }

  lemma {:induction false} BitOfXor(x: nat, y: nat, k: nat)
    ensures Bit(BitXor(x, y), k) == (Bit(x, k) != Bit(y, k))
    decreases k
  {
    if x == 0 || y == 0 {
      ZeroHasNoBits(k);
    } else if k > 0 {
      BitOfXor(x / 2, y / 2, k - 1);
    }
  }

  /// `1 << n` has exactly bit `n` set.
  lemma {:induction false} BitOfPow2(n: nat, k: nat)
    ensures Bit(Pow2(n), k) == (n == k)
    decreases n
  {
    if n == 0 {
      if k > 0 {
        ZeroHasNoBits(k - 1);
      }
    } else if k > 0 {
      BitOfPow2(n - 1, k - 1);
    }
  }

  /// Below `2^w`, no bit at position `w` or above is set.
  lemma {:induction false} NoBitsAbove(x: nat, w: nat, k: nat)
    requires x < Pow2(w) && w <= k
    ensures !Bit(x, k)
    decreases w
  {
    if w == 0 {
      ZeroHasNoBits(k);
    } else {
      NoBitsAbove(x / 2, w - 1, k - 1);
    }
  }

  /// Two naturals below `2^w` with the same `w` low bits are equal.
  lemma {:induction false} BitsDetermineValue(x: nat, y: nat, w: nat)
    requires x < Pow2(w) && y < Pow2(w)
    requires forall k :: 0 <= k < w ==> Bit(x, k) == Bit(y, k)
    ensures x == y
    decreases w
  {
    if w > 0 {
      assert Bit(x, 0) == Bit(y, 0);
      forall k | 0 <= k < w - 1
        ensures Bit(x / 2, k) == Bit(y / 2, k)
      {
        assert Bit(x, k + 1) == Bit(y, k + 1);
      }
      BitsDetermineValue(x / 2, y / 2, w - 1);
    }
  }

  lemma {:induction false} AndIsBelow(x: nat, y: nat, w: nat)
    requires x < Pow2(w)
    ensures BitAnd(x, y) < Pow2(w)
    decreases w
  {
    if x != 0 && y != 0 {
      AndIsBelow(x / 2, y / 2, w - 1);
    }
  }

  lemma {:induction false} OrIsBelow(x: nat, y: nat, w: nat)
    requires x < Pow2(w) && y < Pow2(w)
    ensures BitOr(x, y) < Pow2(w)
    decreases w
  {
    if x != 0 && y != 0 {
      OrIsBelow(x / 2, y / 2, w - 1);
    }
  }

  lemma {:induction false} XorIsBelow(x: nat, y: nat, w: nat)
    requires x < Pow2(w) && y < Pow2(w)
    ensures BitXor(x, y) < Pow2(w)
    decreases w
  {
    if x != 0 && y != 0 {
      XorIsBelow(x / 2, y / 2, w - 1);
    }
  }

  /// Masking with an odd number keeps the low bit and masks the rest with
  /// half of it one bit up.
  lemma AndWithOdd(m: nat, y: nat)
    ensures BitAnd(2 * m + 1, y) == 2 * BitAnd(m, y / 2) + y % 2
  {
  }

  lemma MulPositive(d: int, t: int)
    requires d > 0 && t >= 1
    ensures d * t >= d
  {
  }

  /// Quotient and remainder are the only ones that fit.
  lemma DivModUnique(x: int, d: int, q: int, r: int)
    requires d > 0 && 0 <= r < d && x == d * q + r
    ensures x / d == q && x % d == r
  {
    var q', r' := x / d, x % d;
    assert d * (q - q') == r' - r;
    if q > q' {
      MulPositive(d, q - q');
    } else if q < q' {
      MulPositive(d, q' - q);
    }
  }

  /// `x >> k`, one halving at a time.
  function ShiftDown(x: nat, k: nat): nat {
    if k == 0 then x else ShiftDown(x / 2, k - 1)
  }

  /// The `k` low bits of `x` as a number.
  function LowBits(x: nat, k: nat): nat {
    if k == 0 then 0 else x % 2 + 2 * LowBits(x / 2, k - 1)
  }

  /// `x << k`, one doubling at a time.
  function ShiftUp(x: nat, k: nat): nat {
    if k == 0 then x else 2 * ShiftUp(x, k - 1)
  }

  /// A natural is its `k` low bits plus the rest shifted back up.
  lemma {:induction false} LowBitsAndRest(x: nat, k: nat)
    ensures x == LowBits(x, k) + ShiftUp(ShiftDown(x, k), k)
    ensures LowBits(x, k) < Pow2(k)
    decreases k
  {
    if k > 0 {
      LowBitsAndRest(x / 2, k - 1);
      ShiftUpSplits(ShiftDown(x / 2, k - 1), k - 1);
    }
  }

  /// Shifting up by `k + 1` is shifting up by `k` and doubling once more,
  /// which is also doubling first.
  lemma {:induction false} ShiftUpSplits(x: nat, k: nat)
    ensures ShiftUp(x, k + 1) == 2 * ShiftUp(x, k)
    ensures ShiftUp(2 * x, k) == 2 * ShiftUp(x, k)
    decreases k
  {
    if k > 0 {
      ShiftUpSplits(x, k - 1);
    }
  }

  /// Shifting up by eight is multiplying by 0x100.
  lemma ShiftUpByte(w: nat)
    ensures ShiftUp(w, 8) == 0x100 * w
  {
    assert ShiftUp(w, 1) == 2 * w;
    assert ShiftUp(w, 2) == 4 * w;
    assert ShiftUp(w, 3) == 8 * w;
    assert ShiftUp(w, 4) == 16 * w;
    assert ShiftUp(w, 5) == 32 * w;
    assert ShiftUp(w, 6) == 64 * w;
    assert ShiftUp(w, 7) == 128 * w;
  }

  /// Masking with `2^k - 1` keeps the `k` low bits.
  lemma {:induction false} LowMaskKeepsLowBits(k: nat, x: nat)
    ensures BitAnd(Pow2(k) - 1, x) == LowBits(x, k)
    decreases k
  {
    if k > 0 {
      LowMaskKeepsLowBits(k - 1, x / 2);
      AndWithOdd(Pow2(k - 1) - 1, x);
    }
  }

  /// The low byte and the rest are the remainder and quotient by 0x100.
  lemma ByteSplit(x: nat)
    ensures LowBits(x, 8) == x % 0x100 && ShiftDown(x, 8) == x / 0x100
  {
    PowersOfTwo();
    LowBitsAndRest(x, 8);
    ShiftUpByte(ShiftDown(x, 8));
    DivModUnique(x, 0x100, ShiftDown(x, 8), LowBits(x, 8));
  }

  /// Masking with an even number is masking with half of it one bit up.
  lemma AndWithEven(m: nat, y: nat)
    ensures BitAnd(2 * m, y) == 2 * BitAnd(m, y / 2)
  {
  }

  /// Or-ing a shifted value with a smaller one adds them.
  lemma {:induction false} OrWithShifted(x: nat, k: nat, y: nat)
    requires y < Pow2(k)
    ensures BitOr(x * Pow2(k), y) == x * Pow2(k) + y
    decreases k
  {
    if k > 0 && x != 0 && y != 0 {
      assert x * Pow2(k) == 2 * (x * Pow2(k - 1));
      OrWithShifted(x, k - 1, y / 2);
    }
  }

  // ---------------------------------------------------------------------
  // Byte-sized bitwise operators

  function And8(x: u8, y: u8): u8 {
    AndIsBelow(x as nat, y as nat, 8);
    BitAnd(x as nat, y as nat) as u8
  }

  function Or8(x: u8, y: u8): u8 {
    OrIsBelow(x as nat, y as nat, 8);
    BitOr(x as nat, y as nat) as u8
  }

  function Xor8(x: u8, y: u8): u8 {
    XorIsBelow(x as nat, y as nat, 8);
    BitXor(x as nat, y as nat) as u8
  }

  /// `x ^ x` is zero.
  lemma {:induction false} BitXorSelf(x: nat)
    ensures BitXor(x, x) == 0
    decreases x
  {
    if x != 0 {
      BitXorSelf(x / 2);
    }
  }

  /// A byte xor-ed with itself is zero, whatever the byte.
  lemma XorSelf(x: u8)
    ensures Xor8(x, x) == 0
  {
    BitXorSelf(x as nat);
  }

  /// Rust's `!` on a byte.
  function Not8(x: u8): u8 {
    0xFF - x
  }

  /// Rust's `<<` on a byte by a shift amount below 8: high bits fall off.
  function ShiftLeft8(x: u8, n: nat): u8
    requires n < 8
  {
    if n == 0 then x else ((2 * ShiftLeft8(x, n - 1) as int) % 0x100) as u8
  }

  /// Rust's `>>` on a byte by a shift amount below 8.
  function ShiftRight8(x: u8, n: nat): u8
    requires n < 8
  {
    if n == 0 then x else ShiftRight8(x, n - 1) / 2
  }

  /// Reducing modulo `2^w` keeps the bits below `w`.
  lemma {:induction false} BitOfMod(x: nat, w: nat, k: nat)
    requires k < w
    ensures Bit(x % Pow2(w), k) == Bit(x, k)
    decreases k
  {
    var m := Pow2(w - 1);
    var q, r := x / Pow2(w), x % Pow2(w);
    assert x == 2 * (m * q) + r;
    if k > 0 {
      DivModUnique(x, 2, m * q + r / 2, r % 2);
      DivModUnique(x / 2, m, q, r / 2);
      BitOfMod(x / 2, w - 1, k - 1);
    }
  }

  /// `x << 1` moves bit `k - 1` to bit `k` and clears bit 0.
  lemma ShiftLeftOneBits(x: u8, k: u8)
    requires k < 8
    ensures IsNthBitSetU8(ShiftLeft8(x, 1), k) == (k > 0 && IsNthBitSetU8(x, k - 1))
  {
    var y: nat := ShiftLeft8(x, 1) as nat;
    assert ShiftLeft8(x, 0) == x;
    assert y == (2 * x as int) % 0x100;
    BitSetReadsBit(ShiftLeft8(x, 1), k);
    if k > 0 {
      BitSetReadsBit(x, k - 1);
      assert Pow2(7) == 0x80 by { PowersOfTwo(); }
      DivModUnique(x as int, 0x80, x as int / 0x80, x as int % 0x80);
      DivModUnique(2 * x as int, 0x100, x as int / 0x80, 2 * (x as int % 0x80));
      assert y / 2 == x as nat % Pow2(7);
      assert Bit(y, k as nat) == Bit(y / 2, (k - 1) as nat);
      BitOfMod(x as nat, 7, (k - 1) as nat);
    }
  }

  /// `x >> 1` moves bit `k + 1` to bit `k` and clears bit 7.
  lemma ShiftRightOneBits(x: u8, k: u8)
    requires k < 8
    ensures IsNthBitSetU8(ShiftRight8(x, 1), k) == (k < 7 && IsNthBitSetU8(x, k + 1))
  {
    BitSetReadsBit(ShiftRight8(x, 1), k);
    if k < 7 {
      BitSetReadsBit(x, k + 1);
    } else {
      PowersOfTwo();
      TopBit(x as nat / 2, 7);
    }
  }

  /// `1 << n` on a byte is `2^n`.
  lemma {:induction false} ShiftedOne(n: nat)
    requires n < 8
    ensures ShiftLeft8(1, n) as nat == Pow2(n) <= 0x80
  {
    if n > 0 {
      ShiftedOne(n - 1);
      Pow2Grows(n, 7);
      PowersOfTwo();
    }
  }

  lemma {:induction false} Pow2Grows(n: nat, m: nat)
    requires n <= m
    ensures Pow2(n) <= Pow2(m)
    decreases m
  {
    if n < m {
      Pow2Grows(n, m - 1);
    }
  }

  /// Complementing a byte flips each of its eight bits.
  lemma {:induction false} BitOfComplement(w: nat, x: nat, k: nat)
    requires x < Pow2(w) && k < w
    ensures Bit(Pow2(w) - 1 - x, k) == !Bit(x, k)
    decreases k
  {
    assert Pow2(w) == 2 * Pow2(w - 1);
    if k > 0 {
      BitOfComplement(w - 1, x / 2, k - 1);
    }
  }

  // ---------------------------------------------------------------------
  // src/utility/bits.rs

  /// Split a word into its low and high byte. The source masks,
  /// `(value & 0x00FF, (value & 0xFF00) >> 8)`; `SplitIsMasking` proves the
  /// two agree.
  function U16ToLsbMsb(value: u16): (u8, u8) {
    ((value % 0x100) as u8, (value / 0x100) as u8)
  }

  lemma SplitIsMasking(value: u16)
    ensures U16ToLsbMsb(value).0 as nat == BitAnd(0x00FF, value as nat)
    ensures U16ToLsbMsb(value).1 as nat == ShiftDown(BitAnd(0xFF00, value as nat), 8)
  {
    LowByteMask(value as nat);
    HighMaskIsQuotient(value as nat);
    ByteSplit(0x100 * (value as nat / 0x100));
    DivModUnique(0x100 * (value as nat / 0x100), 0x100, value as nat / 0x100, 0);
  }

  /// Masking with `m` shifted up by `k` masks the value shifted down by
  /// `k` with `m`, shifted back up.
  lemma {:induction false} ShiftedMask(m: nat, k: nat, y: nat)
    ensures BitAnd(ShiftUp(m, k), y) == ShiftUp(BitAnd(m, ShiftDown(y, k)), k)
    decreases k
  {
    if k > 0 {
      ShiftUpSplits(m, k - 1);
      AndWithEven(ShiftUp(m, k - 1), y);
      ShiftedMask(m, k - 1, y / 2);
      ShiftDownSplits(y, k - 1);
      ShiftUpSplits(BitAnd(m, ShiftDown(y, k)), k - 1);
    }
  }

  /// Shifting down by `k + 1` is halving and then shifting down by `k`.
  lemma ShiftDownSplits(y: nat, k: nat)
    ensures ShiftDown(y, k + 1) == ShiftDown(y / 2, k)
  {
  }

  lemma PowersOfTwo()
    ensures Pow2(7) == 0x80 && Pow2(8) == 0x100 && Pow2(15) == 0x8000
  {
    assert Pow2(4) == 0x10;
    assert Pow2(8) == 0x100;
    assert Pow2(12) == 0x1000;
  }

  /// `0x00FF & value` is the low byte of the value.
  lemma LowByteMask(v: nat)
    ensures BitAnd(0xFF, v) == v % 0x100
  {
    PowersOfTwo();
    LowMaskKeepsLowBits(8, v);
    ByteSplit(v);
  }

  /// `0xFF00 & value` is the word with its low byte cleared.
  lemma HighMaskIsQuotient(v: nat)
    requires v < 0x1_0000
    ensures BitAnd(0xFF00, v) == 0x100 * (v / 0x100)
  {
    var high := v / 0x100;
    DivModUnique(high, 0x100, 0, high);
    ByteSplit(v);
    assert ShiftUp(0xFF, 8) == 0xFF00;
    ShiftedMask(0xFF, 8, v);
    LowByteMask(high);
    ShiftUpByte(high);
  }

  /// Join two bytes into a word: `msb` lands in bits 8-15, `lsb` in bits
  /// 0-7. The source ORs, `(msb << 8) | lsb`; `JoinIsOr` proves the two
  /// agree.
  function LsbMsbToU16(lsb: u8, msb: u8): u16 {
    (msb as int * 0x100 + lsb as int) as u16
  }

  lemma JoinIsOr(lsb: u8, msb: u8)
    ensures LsbMsbToU16(lsb, msb) as nat == BitOr(ShiftUp(msb as nat, 8), lsb as nat)
  {
    PowersOfTwo();
    ShiftUpByte(msb as nat);
    OrWithShifted(msb as nat, 8, lsb as nat);
  }

  /// Splitting a word and joining the halves gives the word back.
  lemma SplitThenJoin(value: u16)
    ensures LsbMsbToU16(U16ToLsbMsb(value).0, U16ToLsbMsb(value).1) == value
  {
  }

  /// Joining two bytes and splitting the word gives the bytes back.
  lemma JoinThenSplit(lsb: u8, msb: u8)
    ensures U16ToLsbMsb(LsbMsbToU16(lsb, msb)) == (lsb, msb)
  {
    DivModUnique(LsbMsbToU16(lsb, msb) as int, 0x100, msb as int, lsb as int);
  }

  /// The unit-test vectors of the source: 0xABDE splits into 0xDE and 0xAB
  /// and joins back.
  lemma SplitExample()
    ensures U16ToLsbMsb(0xABDE) == (0xDE, 0xAB)
    ensures LsbMsbToU16(0xDE, 0xAB) == 0xABDE
  {
  }

  /// `(1 << position) & byte != 0`; `1 << position` overflows a byte for
  /// positions of 8 and more, so callers stay below 8.
  predicate IsNthBitSetU8(byte: u8, position: u8)
    requires position < 8
  {
    BitAnd(Pow2(position as nat), byte as nat) != 0
  }

  predicate IsNthBitUnsetU8(byte: u8, position: u8)
    requires position < 8
  {
    BitAnd(Pow2(position as nat), byte as nat) == 0
  }

  predicate IsNthBitSetU16(word: u16, position: u16)
    requires position < 16
  {
    BitAnd(Pow2(position as nat), word as nat) != 0
  }

  predicate IsNthBitUnsetU16(word: u16, position: u16)
    requires position < 16
  {
    BitAnd(Pow2(position as nat), word as nat) == 0
  }

  /// Masking with `1 << n` leaves `1 << n` or nothing.
  lemma {:induction false} AndWithPow2(n: nat, x: nat)
    ensures BitAnd(Pow2(n), x) == if Bit(x, n) then Pow2(n) else 0
    decreases n
  {
    if x == 0 {
      ZeroHasNoBits(n);
    } else if n > 0 {
      AndWithPow2(n - 1, x / 2);
      AndWithEven(Pow2(n - 1), x);
    }
  }

  /// `is_nth_bit_set_u8` reads bit `position`.
  lemma BitSetReadsBit(byte: u8, position: u8)
    requires position < 8
    ensures IsNthBitSetU8(byte, position) == Bit(byte as nat, position as nat)
  {
    AndWithPow2(position as nat, byte as nat);
  }

  /// `is_nth_bit_set_u16` reads bit `position`.
  lemma BitSetReadsBitU16(word: u16, position: u16)
    requires position < 16
    ensures IsNthBitSetU16(word, position) == Bit(word as nat, position as nat)
  {
    AndWithPow2(position as nat, word as nat);
  }

  /// The unset test is the negation of the set test.
  lemma UnsetIsNotSet(byte: u8, position: u8, word: u16, wordPosition: u16)
    requires position < 8 && wordPosition < 16
    ensures IsNthBitUnsetU8(byte, position) == !IsNthBitSetU8(byte, position)
    ensures IsNthBitUnsetU16(word, wordPosition) == !IsNthBitSetU16(word, wordPosition)
  {
  }

  /// Below `2^(w+1)`, bit `w` is set exactly from `2^w` upward.
  lemma {:induction false} TopBit(x: nat, w: nat)
    requires x < 2 * Pow2(w)
    ensures Bit(x, w) <==> x >= Pow2(w)
    decreases w
  {
    if w > 0 {
      TopBit(x / 2, w - 1);
    }
  }

  /// Bit 7 of a byte is set exactly from 0x80 upward.
  lemma BitSevenIsSignBit(byte: u8)
    ensures IsNthBitSetU8(byte, 7) <==> byte >= 0x80
  {
    BitSetReadsBit(byte, 7);
    PowersOfTwo();
    TopBit(byte as nat, 7);
  }

  /// Bit 15 of a word is set exactly from 0x8000 upward.
  lemma BitFifteenIsTopBit(word: u16)
    ensures IsNthBitSetU16(word, 15) <==> word >= 0x8000
  {
    BitSetReadsBitU16(word, 15);
    PowersOfTwo();
    TopBit(word as nat, 15);
  }

  /// Force bit `position` of `byte` to `state`: or-in `1 << position`, or
  /// and-out its complement.
  function SetBitNStateU8(byte: u8, position: u8, state: bool): u8
    requires position < 8
  {
    var mask := ShiftLeft8(1, position as nat);
    if state then Or8(byte, mask) else And8(byte, Not8(mask))
  }

  /// Bit `k` of the result of `SetBitNStateU8`: `state` at `position`, the
  /// bit of `byte` everywhere else.
  lemma SetBitNStateReadsBit(byte: u8, position: u8, state: bool, k: u8)
    requires position < 8 && k < 8
    ensures IsNthBitSetU8(SetBitNStateU8(byte, position, state), k)
         == if k == position then state else IsNthBitSetU8(byte, k)
  {
    var mask := ShiftLeft8(1, position as nat);
    ShiftedOne(position as nat);
    BitSetReadsBit(SetBitNStateU8(byte, position, state), k);
    BitSetReadsBit(byte, k);
    BitOfPow2(position as nat, k as nat);
    if state {
      BitOfOr(byte as nat, mask as nat, k as nat);
    } else {
      BitOfAnd(byte as nat, Not8(mask) as nat, k as nat);
      BitOfComplement(8, mask as nat, k as nat);
    }
  }

  /// Setting bit `position` to `state` leaves it reading `state` and the
  /// other seven bits as they were.
  lemma SetBitNStateBits(byte: u8, position: u8, state: bool)
    requires position < 8
    ensures IsNthBitSetU8(SetBitNStateU8(byte, position, state), position) == state
    ensures forall k: u8 :: k < 8 && k != position ==>
              IsNthBitSetU8(SetBitNStateU8(byte, position, state), k) == IsNthBitSetU8(byte, k)
  {
    SetBitNStateReadsBit(byte, position, state, position);
    forall k: u8 | k < 8 && k != position
      ensures IsNthBitSetU8(SetBitNStateU8(byte, position, state), k) == IsNthBitSetU8(byte, k)
    {
      SetBitNStateReadsBit(byte, position, state, k);
    }
  }

  /// Setting a bit to the state it already has changes nothing, so a second
  /// identical call is a no-op.
  lemma SetBitNStateIdempotent(byte: u8, position: u8, state: bool)
    requires position < 8
    ensures SetBitNStateU8(SetBitNStateU8(byte, position, state), position, state)
         == SetBitNStateU8(byte, position, state)
  {
    var once := SetBitNStateU8(byte, position, state);
    var twice := SetBitNStateU8(once, position, state);
    SetBitNStateBits(byte, position, state);
    SetBitNStateBits(once, position, state);
    BitsDetermineByte(twice, once);
  }

  /// A byte is determined by its eight bits.
  lemma BitsDetermineByte(x: u8, y: u8)
    requires forall k: u8 :: k < 8 ==> IsNthBitSetU8(x, k) == IsNthBitSetU8(y, k)
    ensures x == y
  {
    var xn, yn := x as nat, y as nat;
    forall k: nat | k < 8
      ensures Bit(xn, k) == Bit(yn, k)
    {
      BitSetReadsBit(x, k as u8);
      BitSetReadsBit(y, k as u8);
    }
    BitsDetermineValue(xn, yn, 8);
  }

  /// The source's unit tests for `set_bit_n_state_u8`: setting bits 3 and 4
  /// of 0 gives 8 and 16; clearing them in 0b0001_1000 gives 16 and 8.
  lemma SetBitExamples()
    ensures SetBitNStateU8(0x00, 3, true) == 8 && SetBitNStateU8(0x00, 4, true) == 16
    ensures SetBitNStateU8(0x18, 3, false) == 16 && SetBitNStateU8(0x18, 4, false) == 8
  {
    assert ShiftLeft8(1, 3) == 8;
    assert ShiftLeft8(1, 4) == 16;
    SetBitNStateBits(0x18, 3, false);
    SetBitNStateBits(0x18, 4, false);
  }

  /// Bit `k + j` of `x` is bit `k` of `x` shifted down by `j`.
  lemma {:induction false} HalvedBits(x: nat, y: nat, j: nat, k: nat)
    requires ShiftDown(x, j) == y
    ensures Bit(x, k + j) == Bit(y, k)
    decreases j
  {
    if j > 0 {
      HalvedBits(x / 2, y, j - 1, k);
    }
  }

  /// The bits of 0b0011_1100: bits 2-5 set, bits 0, 1, 6 and 7 clear.
  lemma BitsOf3C(k: u8)
    requires k < 8
    ensures IsNthBitSetU8(0x3C, k) <==> 2 <= k <= 5
  {
    BitSetReadsBit(0x3C, k);
    assert Bit(0x3C, 0) == false && Bit(0x3C, 1) == false;
    assert Bit(0x3C, 2) && Bit(0x3C, 3) && Bit(0x3C, 4) && Bit(0x3C, 5);
    assert Bit(0x3C, 6) == false && Bit(0x3C, 7) == false;
  }

  /// The bits 8-15 of 0b0011_1100_0000_0000 are the bits 0-7 of 0b0011_1100.
  lemma BitsOf3C00(k: u16)
    requires 8 <= k < 16
    ensures IsNthBitSetU16(0x3C00, k) <==> 10 <= k <= 13
  {
    BitSetReadsBitU16(0x3C00, k);
    HalvedBits(0x3C00, 0x3C, 8, (k - 8) as nat);
    BitsOf3C((k - 8) as u8);
  }

  /// The source's unit tests for the four bit tests, on 0b0011_1100 and
  /// 0b0011_1100_0000_0000: each set bit tests as set and not unset, each
  /// clear bit the other way round.
  lemma BitTestExamples()
    ensures && IsNthBitSetU8(0x3C, 2) && IsNthBitSetU8(0x3C, 3)
            && IsNthBitSetU8(0x3C, 4) && IsNthBitSetU8(0x3C, 5)
    ensures && !IsNthBitSetU8(0x3C, 0) && !IsNthBitSetU8(0x3C, 1)
            && !IsNthBitSetU8(0x3C, 6) && !IsNthBitSetU8(0x3C, 7)
    ensures && IsNthBitUnsetU8(0x3C, 0) && IsNthBitUnsetU8(0x3C, 1)
            && IsNthBitUnsetU8(0x3C, 6) && IsNthBitUnsetU8(0x3C, 7)
    ensures && !IsNthBitUnsetU8(0x3C, 2) && !IsNthBitUnsetU8(0x3C, 3)
            && !IsNthBitUnsetU8(0x3C, 4) && !IsNthBitUnsetU8(0x3C, 5)
    ensures && IsNthBitSetU16(0x3C00, 10) && IsNthBitSetU16(0x3C00, 11)
            && IsNthBitSetU16(0x3C00, 12) && IsNthBitSetU16(0x3C00, 13)
    ensures && !IsNthBitSetU16(0x3C00, 8) && !IsNthBitSetU16(0x3C00, 9)
            && !IsNthBitSetU16(0x3C00, 14) && !IsNthBitSetU16(0x3C00, 15)
    ensures && IsNthBitUnsetU16(0x3C00, 8) && IsNthBitUnsetU16(0x3C00, 9)
            && IsNthBitUnsetU16(0x3C00, 14) && IsNthBitUnsetU16(0x3C00, 15)
    ensures && !IsNthBitUnsetU16(0x3C00, 10) && !IsNthBitUnsetU16(0x3C00, 11)
            && !IsNthBitUnsetU16(0x3C00, 12) && !IsNthBitUnsetU16(0x3C00, 13)
  {
    forall k: u8 | k < 8
      ensures IsNthBitSetU8(0x3C, k) <==> 2 <= k <= 5
    {
      BitsOf3C(k);
    }
    forall k: u16 | 8 <= k < 16
      ensures IsNthBitSetU16(0x3C00, k) <==> 10 <= k <= 13
    {
      BitsOf3C00(k);
    }
  }
}
