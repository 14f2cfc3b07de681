/**
 * The SVC number the SVC trampolines of every architecture version read
 * back from the instruction that trapped, and its relation to the SVC
 * encodings A1 (Arm, `imm24`) and T1 (Thumb, `imm8`) of section A8.8.228
 * of the ARM Architecture Reference Manual (DDI 0406C).
 */
module SvcNumbers {
  import opened Machine

  /**
   * The SVC number the SVC trampolines read back from the instruction
   * that trapped: in Thumb state the halfword before the return address
   * with bits 8-15 cleared (`ldrh r0, [lr, #-2]; bic r0, r0, #0xFF00`), in
   * Arm state the word before it with bits 24-31 cleared
   * (`ldr r0, [lr, #-4]; bic r0, r0, #0xFF000000`).
   */
  function SvcNumber(mem: map<int, Word>, lr: Word, spsr: Word): (n: Word)
    ensures spsr & ThumbBit != 0 ==> n < 0x100
    ensures spsr & ThumbBit == 0 ==> n < 0x100_0000
  {
    if spsr & ThumbBit != 0 then HalfwordAt(mem, (lr - 2) as int) & 0xFFFF_00FF
    else Load(mem, (lr - 4) as int) & 0x00FF_FFFF
  }

  /** The A1 encoding of `SVC #imm24` with condition `cond`. */
  function ArmSvc(cond: Word, imm24: Word): Word
    requires cond < 16 && imm24 < 0x100_0000
  {
    (cond << 28) | 0x0F00_0000 | imm24
  }

  /** The T1 encoding of `SVC #imm8`. */
  function ThumbSvc(imm8: Word): Word
    requires imm8 < 0x100
  {
    0xDF00 | imm8
  }

  /** From Arm state, the number read back is the instruction's imm24. */
  lemma SvcNumberArm(mem: map<int, Word>, lr: Word, spsr: Word, cond: Word, imm24: Word)
    requires cond < 16 && imm24 < 0x100_0000
    requires spsr & ThumbBit == 0 && Load(mem, (lr - 4) as int) == ArmSvc(cond, imm24)
    ensures SvcNumber(mem, lr, spsr) == imm24
  {
  }

  /** From Thumb state, the number read back is the instruction's imm8. */
  lemma SvcNumberThumb(mem: map<int, Word>, lr: Word, spsr: Word, imm8: Word)
    requires imm8 < 0x100
    requires spsr & ThumbBit != 0 && HalfwordAt(mem, (lr - 2) as int) == ThumbSvc(imm8)
    ensures SvcNumber(mem, lr, spsr) == imm8
  {
  }

  /**
   * The same with the instruction in memory as the code stores it: the
   * T1 halfword is the low or the high half of a little-endian word,
   * next to `other`.
   */
  lemma SvcNumberThumbWord(mem: map<int, Word>, lr: Word, spsr: Word, imm8: Word, other: Word)
    requires imm8 < 0x100 && other < 0x1_0000 && spsr & ThumbBit != 0
    requires var a := (lr - 2) as int;
      (a % 4 == 0 && Load(mem, a) == (other << 16) | ThumbSvc(imm8))
      || (a % 4 == 2 && Load(mem, a - 2) == (ThumbSvc(imm8) << 16) | other)
    ensures SvcNumber(mem, lr, spsr) == imm8
  {
  }
}
