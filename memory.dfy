/// The Game Boy's flat 64 KiB address space (src/memory.rs).
/// `Image` is the value view of its contents; the class `Memory` is the
/// mutable object the emulator owns, specified against `Image`.
module Memory {
  import opened Bits

  const MEMORY_SIZE := 0x10000

  /// Every value of the address space: exactly 0x10000 bytes.
  type Image = s: seq<u8> | |s| == MEMORY_SIZE witness seq(MEMORY_SIZE, _ => 0)

  /// Position of an address in the byte vector (Rust's `usize::from(address)`).
  function Index(address: u16): (i: nat)
    ensures i < MEMORY_SIZE && i == address as int
  {
    address as nat
  }

  function ByteAt(m: Image, address: u16): u8 {
    m[Index(address)]
  }

  /// `m` with `value` stored at `address` and every other byte as it was.
  function WithByte(m: Image, address: u16, value: u8): (r: Image)
    ensures ByteAt(r, address) == value
    ensures forall other: u16 :: other != address ==> ByteAt(r, other) == ByteAt(m, other)
  {
    m[Index(address) := value]
  }

  /// Little-endian word at `address`: low byte there, high byte at the next
  /// address, which wraps from 0xFFFF to 0x0000.
  function WordAt(m: Image, address: u16): (r: u16)
    ensures U16ToLsbMsb(r) == (ByteAt(m, address), ByteAt(m, WrappingAdd16(address, 1)))
  {
    JoinThenSplit(ByteAt(m, address), ByteAt(m, WrappingAdd16(address, 1)));
    LsbMsbToU16(ByteAt(m, address), ByteAt(m, WrappingAdd16(address, 1)))
  }

  /// The freshly allocated address space: all zero.
  function Zeroed(): (r: Image)
    ensures forall address: u16 :: ByteAt(r, address) == 0
  {
    seq(MEMORY_SIZE, _ => 0)
  }

  /// A block of `data` placed at `address` ends inside the address space.
  predicate Fits(address: u16, data: seq<u8>) {
    Index(address) + |data| <= MEMORY_SIZE
  }

  /// `m` with `data` laid out from `address` onwards and every byte outside
  /// that block unchanged.
  function CopiedInto(m: Image, address: u16, data: seq<u8>): (r: Image)
    requires Fits(address, data)
    ensures forall i :: 0 <= i < |data| ==> r[Index(address) + i] == data[i]
    ensures forall i :: 0 <= i < MEMORY_SIZE && !(Index(address) <= i < Index(address) + |data|) ==> r[i] == m[i]
  {
    m[..Index(address)] + data + m[Index(address) + |data|..]
  }

  /// A byte written and read back at the same address is the written byte;
  /// a write leaves every other address alone.
  lemma ReadAfterWrite(m: Image, written: u16, read: u16, value: u8)
    ensures ByteAt(WithByte(m, written, value), read) == if read == written then value else ByteAt(m, read)
  {
  }

  class Memory {
    /// The Rust `Vec<u8>`; its length never changes after construction.
    const bytes: array<u8>

    predicate Valid() {
      bytes.Length == MEMORY_SIZE
    }

    function Contents(): Image
      reads bytes
      requires Valid()
    {
      bytes[..]
    }

    /// `Memory::new`: 64 KiB of zeroes.
    constructor ()
      ensures Valid() && fresh(bytes)
      ensures Contents() == Zeroed()
    {
      bytes := new u8[MEMORY_SIZE](_ => 0);
    }

    function ReadByteAt(address: u16): (r: u8)
      reads bytes
      requires Valid()
      ensures r == ByteAt(Contents(), address)
    {
      bytes[Index(address)]
    }

    method WriteByteAt(address: u16, value: u8)
      requires Valid()
      modifies bytes
      ensures Contents() == WithByte(old(Contents()), address, value)
    {
      bytes[Index(address)] := value;
    }

    /// Copy `data` into memory from `address` on, or, when the block would run
    /// past the end of memory, write nothing and report failure.
    method CopyIntoMemoryAtAddress(address: u16, data: seq<u8>) returns (success: bool)
      requires Valid()
      modifies bytes
      ensures success <==> Fits(address, data)
      ensures success ==> Contents() == CopiedInto(old(Contents()), address, data)
      ensures !success ==> Contents() == old(Contents())
    {
      if Index(address) + |data| > bytes.Length {
        return false;
      }
      WriteBlock(Index(address), data);
      return true;
    }

    /// The copy loop of `CopyIntoMemoryAtAddress`: byte `i` of `data` goes to
    /// position `start + i`. The caller's bounds check keeps every position
    /// inside memory, so the source's narrowing of the position to `u16` never
    /// truncates and the model indexes the array directly.
    method WriteBlock(start: nat, data: seq<u8>)
      requires start + |data| <= bytes.Length
      modifies bytes
      ensures bytes[..] == old(bytes[..start]) + data + old(bytes[start + |data|..])
    {
      var index := 0;
      while index < |data|
        invariant 0 <= index <= |data|
        invariant bytes[..] == old(bytes[..start]) + data[..index] + old(bytes[start + index..])
      {
        bytes[start + index] := data[index];
        index := index + 1;
      }
    }

    /// Little-endian word read; the high byte's address wraps at 0xFFFF.
    function Read16BitValueAt(address: u16): (r: u16)
      reads bytes
      requires Valid()
      ensures U16ToLsbMsb(r) == (ReadByteAt(address), ReadByteAt(WrappingAdd16(address, 1)))
    {
      JoinThenSplit(ReadByteAt(address), ReadByteAt(WrappingAdd16(address, 1)));
      LsbMsbToU16(ReadByteAt(address), ReadByteAt(WrappingAdd16(address, 1)))
    }

    /// Zero every byte again.
    method Clear()
      requires Valid()
      modifies bytes
      ensures Contents() == Zeroed()
    {
      var i := 0;
      while i < bytes.Length
        invariant 0 <= i <= bytes.Length
        invariant forall k :: 0 <= k < i ==> bytes[k] == 0
      {
        bytes[i] := 0;
        i := i + 1;
      }
    }
  }
}
