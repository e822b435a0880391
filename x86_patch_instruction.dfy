/**
 * BaseLib's PatchInstructionX86: overwrite the immediate operand that forms
 * the trailing 1, 2, 4 or 8 bytes of an IA-32/X64 instruction.
 *
 * Memory is an array of bytes whose index is the address, so InstructionEnd
 * is the index one past the last byte of the instruction. IA-32 and X64 are
 * little-endian: the operand's least significant byte comes first.
 */
module X86PatchInstruction {

  /** UINT8, one byte of memory. */
  type u8 = x: int | 0 <= x < 0x100
  type u64 = x: int | 0 <= x < 0x1_0000_0000_0000_0000

  const MAX_UINT8: int := 0xFF
  const MAX_UINT16: int := 0xFFFF
  const MAX_UINT32: int := 0xFFFF_FFFF

  /** 256^n: one more than the largest value n bytes hold. */
  function Pow256(n: nat): (r: nat)
    ensures r > 0
  {
    if n == 0 then 1 else 256 * Pow256(n - 1)
  }

  /** The size bytes of value, least significant first (higher bytes dropped). */
  function LittleEndianBytes(value: nat, size: nat): (r: seq<u8>)
    ensures |r| == size
  {
    if size == 0 then [] else [value % 256] + LittleEndianBytes(value / 256, size - 1)
  }

  /** The value that bytes encode, least significant byte first. */
  function LittleEndianValue(bytes: seq<u8>): (r: nat)
    ensures r < Pow256(|bytes|)
  {
    if bytes == [] then 0 else bytes[0] + 256 * LittleEndianValue(bytes[1..])
  }

  /** Decoding an encoding gives back every value that fits in the size. */
  lemma {:induction false} DecodeEncode(value: nat, size: nat)
    requires value < Pow256(size)
    ensures LittleEndianValue(LittleEndianBytes(value, size)) == value
  {
    if size > 0 {
      DecodeEncode(value / 256, size - 1);
      assert LittleEndianBytes(value, size)[1..] == LittleEndianBytes(value / 256, size - 1);
    }
  }

  /** Encoding a decoded byte string gives back the same bytes. */
  lemma {:induction false} EncodeDecode(bytes: seq<u8>)
    ensures LittleEndianBytes(LittleEndianValue(bytes), |bytes|) == bytes
  {
    if bytes != [] {
      EncodeDecode(bytes[1..]);
      var v := LittleEndianValue(bytes);
      assert v % 256 == bytes[0];
      assert v / 256 == LittleEndianValue(bytes[1..]);
    }
  }

  /** The operand sizes PatchInstructionX86 accepts. */
  predicate IsOperandSize(valueSize: nat)
  {
    valueSize == 1 || valueSize == 2 || valueSize == 4 || valueSize == 8
  }

  /** PatchValue is representable in the operand (a UINT64 always fills a qword). */
  predicate OperandFits(patchValue: u64, valueSize: nat)
  {
    (valueSize == 1 ==> patchValue <= MAX_UINT8) &&
    (valueSize == 2 ==> patchValue <= MAX_UINT16) &&
    (valueSize == 4 ==> patchValue <= MAX_UINT32)
  }

  /** The operand widths in bytes, as powers of 256. */
  lemma PowersOf256()
    ensures Pow256(1) == 0x100 && Pow256(2) == 0x1_0000
    ensures Pow256(4) == 0x1_0000_0000 && Pow256(8) == 0x1_0000_0000_0000_0000
  {
  }

  lemma SmallModulus(x: nat, m: nat)
    requires x < m
    ensures x % m == x
  {
  }

  /** Within the ASSERTs of the source, PatchValue fits in the operand. */
  lemma OperandFitsInSize(patchValue: u64, valueSize: nat)
    requires IsOperandSize(valueSize) && OperandFits(patchValue, valueSize)
    ensures patchValue < Pow256(valueSize)
  {
    PowersOf256();
  }

  /**
   * The memory after the patch: the size bytes that end at instructionEnd
   * hold value, little-endian; every other byte is kept.
   */
  function Patched(mem: seq<u8>, instructionEnd: nat, value: nat, size: nat): (r: seq<u8>)
    requires size <= instructionEnd <= |mem|
    requires value < Pow256(size)
    ensures |r| == |mem|
    ensures LittleEndianValue(r[instructionEnd - size..instructionEnd]) == value
    ensures forall i :: 0 <= i < |mem| && !(instructionEnd - size <= i < instructionEnd) ==> r[i] == mem[i]
  {
    var operand := LittleEndianBytes(value, size);
    var r := mem[..instructionEnd - size] + operand + mem[instructionEnd..];
    assert r[instructionEnd - size..instructionEnd] == operand;
    DecodeEncode(value, size);
    r
  }

  /**
   * When the ASSERTs on ValueSize and PatchValue hold, the truncation is
   * lossless and the patched operand reads back as PatchValue.
   */
  lemma PatchedReadsBack(mem: seq<u8>, instructionEnd: nat, patchValue: u64, valueSize: nat)
    requires valueSize < instructionEnd <= |mem|
    requires IsOperandSize(valueSize) && OperandFits(patchValue, valueSize)
    ensures patchValue % Pow256(valueSize) == patchValue
    ensures var r := Patched(mem, instructionEnd, patchValue % Pow256(valueSize), valueSize);
            LittleEndianValue(r[instructionEnd - valueSize..instructionEnd]) == patchValue
  {
    OperandFitsInSize(patchValue, valueSize);
    SmallModulus(patchValue, Pow256(valueSize));
  }

  /**
   * One store of a width-byte value at address: the byte store for width 1,
   * WriteUnaligned16/32/64 for widths 2, 4 and 8.
   */
  method StoreLittleEndian(mem: array<u8>, address: nat, value: nat, width: nat)
    requires address + width <= mem.Length
    modifies mem
    ensures mem[..] == old(mem[..])[..address] + LittleEndianBytes(value, width) + old(mem[..])[address + width..]
  {
    var bytes := LittleEndianBytes(value, width);
    forall i | 0 <= i < width {
      mem[address + i] := bytes[i];
    }
  }

  /**
   * Patch the immediate operand of the instruction that ends at
   * instructionEnd. The requires clause is the ASSERT on the address, without
   * which the store would fall below address 0. The ASSERTs on ValueSize and
   * PatchValue are modelled as a release build sees them: each cast to
   * UINT8, UINT16 or UINT32 keeps the low bytes of PatchValue, and an
   * unsupported size writes nothing. Patched states what the store leaves in
   * memory, and PatchedReadsBack what it means within the ASSERTs.
   */
  method PatchInstructionX86(mem: array<u8>, instructionEnd: nat, patchValue: u64, valueSize: nat)
    requires instructionEnd <= mem.Length
    requires instructionEnd > valueSize
    modifies mem
    ensures IsOperandSize(valueSize) ==>
              mem[..] == Patched(old(mem[..]), instructionEnd, patchValue % Pow256(valueSize), valueSize)
    ensures !IsOperandSize(valueSize) ==> mem[..] == old(mem[..])
  {
    if !IsOperandSize(valueSize) {
      return;
    }
    // The cast of each case: UINT8, UINT16, UINT32, and the UINT64 as is.
    var operand: nat;
    if valueSize == 1 {
      operand := patchValue % 0x100;
    } else if valueSize == 2 {
      operand := patchValue % 0x1_0000;
    } else if valueSize == 4 {
      operand := patchValue % 0x1_0000_0000;
    } else {
      operand := patchValue;
    }
    PowersOf256();
    assert operand == patchValue % Pow256(valueSize);
    StoreLittleEndian(mem, instructionEnd - valueSize, operand, valueSize);
  }
}
