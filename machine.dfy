/**
 * An abstract AArch32 processor, just detailed enough to state what the
 * start-up code and the exception trampolines do: r0-r12, the banked
 * SP/LR/SPSR of each mode, ELR_hyp, the CPSR, the PC, the two FPU control
 * words, the system control registers touched at boot, and memory. The
 * instructions follow the ARM Architecture Reference Manual (ARMv7-A/R,
 * DDI 0406C).
 *
 * Stack pointers are integers: the code never lets a stack wrap past
 * address 0 (`HasRoom`), so 32-bit wrap-around of SP does not arise. A
 * trampoline's stack frame is a `Stack`: the stack pointer and the words
 * from it up to where the trampoline started pushing. Memory outside the
 * frames (`Cpu.mem`) is only read, to fetch an SVC instruction.
 */
module Machine {
  import opened Wrappers

  type Word = bv32

  /** A 32-bit register or `u32` value read as an unsigned integer. */
  type U32 = x: int | 0 <= x < 0x1_0000_0000

  /** The processor modes, encoded in CPSR bits 0..4. */
  datatype Mode = Usr | Fiq | Irq | Svc | Abt | Hyp | Und | Sys

  function ModeBits(m: Mode): (r: Word)
    ensures r & 0x1F == r && r & 0x10 == 0x10
  {
    match m
    case Usr => 0x10
    case Fiq => 0x11
    case Irq => 0x12
    case Svc => 0x13
    case Abt => 0x17
    case Hyp => 0x1A
    case Und => 0x1B
    case Sys => 0x1F
  }

  /** The PSR bits for IRQ masked (I), FIQ masked (F) and Thumb state (T). */
  const IBit: Word := 0x80
  const FBit: Word := 0x40
  const ThumbBit: Word := 0x20

  /** The mode a PSR value selects; `None` for the reserved encodings. */
  function ModeOf(psr: Word): (r: Option<Mode>)
    ensures r.Some? ==> ModeBits(r.value) == psr & 0x1F
  {
    var b := psr & 0x1F;
    if b == 0x10 then Some(Usr)
    else if b == 0x11 then Some(Fiq)
    else if b == 0x12 then Some(Irq)
    else if b == 0x13 then Some(Svc)
    else if b == 0x17 then Some(Abt)
    else if b == 0x1A then Some(Hyp)
    else if b == 0x1B then Some(Und)
    else if b == 0x1F then Some(Sys)
    else None
  }

  lemma ModeOfModeBits(m: Mode)
    ensures ModeOf(ModeBits(m)) == Some(m)
  {
  }

  /**
   * The CPSR control byte for mode `m` with IRQ and FIQ masked (I is bit 7,
   * F is bit 6, T is bit 5 and clear): the value the start-up code builds
   * with `Cpsr::new_with_raw_value(0).with_mode(m).with_i(true).with_f(true)`.
   */
  function MaskedControl(m: Mode): (r: Word)
    ensures r & 0x1F == ModeBits(m)
    ensures r & 0xC0 == 0xC0 && r & 0x20 == 0 && r & 0xFFFF_FF00 == 0
  {
    ModeBits(m) | 0xC0
  }

  /**
   * The register banks. System mode shares User mode's bank; Hyp mode has
   * its own SP and SPSR but uses LR_usr.
   */
  datatype Bank = UsrBank | FiqBank | IrqBank | SvcBank | AbtBank | UndBank | HypBank

  function SpBank(m: Mode): Bank
  {
    match m
    case Usr => UsrBank
    case Sys => UsrBank
    case Fiq => FiqBank
    case Irq => IrqBank
    case Svc => SvcBank
    case Abt => AbtBank
    case Und => UndBank
    case Hyp => HypBank
  }

  function LrBank(m: Mode): Bank
  {
    if m == Hyp then UsrBank else SpBank(m)
  }

  /** The banked registers of one bank (User mode's `spsr` is unused). */
  datatype Banked = Banked(sp: int, lr: Word, spsr: Word)

  /** The CP15 registers the start-up code writes. */
  datatype SysRegs = SysRegs(sctlr: Word, cpacr: Word, vbar: Word, hvbar: Word, hactlr: Word)

  datatype Cpu = Cpu(
    r0: Word, r1: Word, r2: Word, r3: Word, r4: Word, r5: Word, r6: Word,
    r7: Word, r8: Word, r9: Word, r10: Word, r11: Word, r12: Word,
    usr: Banked, fiq: Banked, irq: Banked, svc: Banked, abt: Banked, und: Banked, hyp: Banked,
    elrHyp: Word,
    cpsr: Word,
    pc: Word,
    fpscr: Word, fpexc: Word,
    sys: SysRegs,
    mem: map<int, Word>)

  function BankOf(c: Cpu, b: Bank): Banked
  {
    match b
    case UsrBank => c.usr
    case FiqBank => c.fiq
    case IrqBank => c.irq
    case SvcBank => c.svc
    case AbtBank => c.abt
    case UndBank => c.und
    case HypBank => c.hyp
  }

  /** The processor with bank `b` replaced and everything else as it was. */
  function WithBank(c: Cpu, b: Bank, v: Banked): (r: Cpu)
    ensures BankOf(r, b) == v
    ensures forall o :: o != b ==> BankOf(r, o) == BankOf(c, o)
    ensures r.(usr := c.usr, fiq := c.fiq, irq := c.irq, svc := c.svc, abt := c.abt, und := c.und, hyp := c.hyp) == c
  {
    match b
    case UsrBank => c.(usr := v)
    case FiqBank => c.(fiq := v)
    case IrqBank => c.(irq := v)
    case SvcBank => c.(svc := v)
    case AbtBank => c.(abt := v)
    case UndBank => c.(und := v)
    case HypBank => c.(hyp := v)
  }

  /** The mode the processor is in. */
  function CurrentMode(c: Cpu): Option<Mode>
  {
    ModeOf(c.cpsr)
  }

  function Sp(c: Cpu, m: Mode): int { BankOf(c, SpBank(m)).sp }
  function Lr(c: Cpu, m: Mode): Word { BankOf(c, LrBank(m)).lr }
  function Spsr(c: Cpu, m: Mode): Word { BankOf(c, SpBank(m)).spsr }

  /**
   * What no trampoline changes: r4-r11 (pushed and popped, or callee-saved
   * for the handler), the system registers and memory outside the frames.
   */
  predicate Untouched(a: Cpu, b: Cpu)
  {
    a.r4 == b.r4 && a.r5 == b.r5 && a.r6 == b.r6 && a.r7 == b.r7
    && a.r8 == b.r8 && a.r9 == b.r9 && a.r10 == b.r10 && a.r11 == b.r11
    && a.sys == b.sys && a.mem == b.mem
  }

  /** Every bank outside `banks` is the same in `a` and `b`. */
  predicate BanksKept(a: Cpu, b: Cpu, banks: set<Bank>)
  {
    forall o :: o !in banks ==> BankOf(a, o) == BankOf(b, o)
  }

  /** A bank that was the one allowed to change, but came back as it was, is kept too. */
  lemma BankRestored(a: Cpu, b: Cpu, bank: Bank)
    requires BanksKept(a, b, {bank}) && BankOf(b, bank) == BankOf(a, bank)
    ensures BanksKept(a, b, {})
  {
  }

  /** `b` is the top end of `a`: the words of `b` lie, unchanged, above the rest of `a`. */
  predicate IsSuffix(b: seq<Word>, a: seq<Word>)
  {
    |b| <= |a| && a[|a| - |b|..] == b
  }

  lemma SuffixTrans(a: seq<Word>, b: seq<Word>, c: seq<Word>)
    requires IsSuffix(a, b) && IsSuffix(b, c)
    ensures IsSuffix(a, c)
  {
    assert c[|c| - |b|..][|b| - |a|..] == c[|c| - |a|..];
  }

  /**
   * Words whose contents the model does not track: the saved D registers
   * and the alignment padding. They are stored as zeros; nothing proved
   * here depends on their value, only on how many there are.
   */
  function Untracked(n: nat): (r: seq<Word>)
    ensures |r| == n
  {
    if n == 0 then [] else [0] + Untracked(n - 1)
  }

  /**
   * A full descending stack frame: SP and the words from SP upwards,
   * `words[i]` being the word at `sp + 4 * i`. `Push` is
   * `str v, [sp, #-4]!`; a multi-register `push {..}` is `PushList`.
   */
  datatype Stack = Stack(sp: int, words: seq<Word>)
  {
    function Push(v: Word): Stack
    {
      Stack(sp - 4, [v] + words)
    }

    /**
     * `push {vs}` (STMDB): the lowest-numbered register is stored at the
     * lowest address, so it is a chain of single pushes from the last
     * register down to the first.
     */
    function PushList(vs: seq<Word>): (r: Stack)
      ensures r.sp == sp - 4 * |vs|
      ensures r.words == vs + words
      decreases |vs|
    {
      if vs == [] then this
      else
        var rest := PushList(vs[1..]);
        assert vs == [vs[0]] + vs[1..];
        rest.Push(vs[0])
    }

    /** `sub sp, sp, #bytes` for space whose contents are not tracked. */
    function Reserve(bytes: nat): Stack
      requires bytes % 4 == 0
    {
      Stack(sp - bytes, Untracked(bytes / 4) + words)
    }

    /** `add sp, sp, #bytes`, discarding the words popped. */
    function Drop(bytes: nat): Stack
      requires bytes % 4 == 0 && bytes / 4 <= |words|
    {
      Stack(sp + bytes, words[bytes / 4..])
    }
  }

  /** `sub sp, sp, #bytes` is undone by `add sp, sp, #bytes`, and keeps the stack above it. */
  lemma ReserveThenDrop(st: Stack, bytes: nat)
    requires bytes % 4 == 0
    ensures var r := st.Reserve(bytes);
      r.sp == st.sp - bytes && |r.words| == |st.words| + bytes / 4
      && r.Drop(bytes) == st && IsSuffix(st.words, r.words)
  {
    var r := st.Reserve(bytes);
    assert r.words[bytes / 4..] == st.words;
  }

  /** A two-register `push` is undone by dropping two words, and keeps the stack above it. */
  lemma PushPairThenDrop(st: Stack, a: Word, b: Word)
    ensures var r := st.PushList([a, b]);
      r.Drop(8) == st && IsSuffix(st.words, r.words)
  {
    var r := st.PushList([a, b]);
    assert r.words[2..] == st.words;
  }

  /** `cps #m`: the mode field of the PSR is replaced, nothing else. */
  function Cps(psr: Word, m: Mode): (r: Word)
    ensures ModeOf(r) == Some(m)
    ensures r & 0xFFFF_FFE0 == psr & 0xFFFF_FFE0
  {
    (psr & 0xFFFF_FFE0) | ModeBits(m)
  }

  /** `msr cpsr_c, #v`: the control byte (mode, T, F, I) is replaced. */
  function MsrControl(psr: Word, v: Word): (r: Word)
    requires v & 0xFFFF_FF00 == 0
    ensures r & 0xFF == v
    ensures r & 0xFFFF_FF00 == psr & 0xFFFF_FF00
  {
    (psr & 0xFFFF_FF00) | v
  }

  /**
   * `subs rd, rn, rm`: the CPSR with the N, Z, C and V flags of
   * `a - b` and every other bit kept.
   */
  function SubsPsr(psr: Word, a: Word, b: Word): (r: Word)
    ensures r & 0x0FFF_FFFF == psr & 0x0FFF_FFFF
    ensures (r & 0x8000_0000 != 0) <==> (a - b) & 0x8000_0000 != 0
    ensures (r & 0x4000_0000 != 0) <==> a == b
    ensures (r & 0x2000_0000 != 0) <==> a >= b
  {
    var d := a - b;
    var n := d & 0x8000_0000;
    SubZero(a, b);
    var z: Word := if d == 0 then 0x4000_0000 else 0;
    var c: Word := if a >= b then 0x2000_0000 else 0;
    var v := (((a ^ b) & (a ^ d)) >> 31) << 28;
    WithFlags(psr, n, z, c, v)
  }

  /**
   * `tst rn, #imm` with an immediate needing no rotation: N is bit 31 of
   * `value & mask`, Z is set exactly when `value & mask` is zero, and C,
   * V and every other bit are kept.
   */
  function TstPsr(psr: Word, value: Word, mask: Word): (r: Word)
    ensures r & 0x3FFF_FFFF == psr & 0x3FFF_FFFF
    ensures (r & 0x8000_0000 != 0) <==> (value & mask) & 0x8000_0000 != 0
    ensures (r & 0x4000_0000 != 0) <==> value & mask == 0
  {
    var t := value & mask;
    var z: Word := if t == 0 then 0x4000_0000 else 0;
    (psr & 0x3FFF_FFFF) | (t & 0x8000_0000) | z
  }

  /**
   * `tst rn, #T` on a saved PSR: N is cleared, Z is set exactly when the
   * saved state was Arm state, and the rest of the CPSR is kept.
   */
  lemma TstThumb(psr: Word, spsr: Word)
    ensures TstPsr(psr, spsr, ThumbBit) & 0x3FFF_FFFF == psr & 0x3FFF_FFFF
    ensures TstPsr(psr, spsr, ThumbBit) & 0x8000_0000 == 0
    ensures TstPsr(psr, spsr, ThumbBit) & 0x4000_0000 != 0 <==> spsr & ThumbBit == 0
  {
    var t := spsr & ThumbBit;
    assert t & 0x8000_0000 == 0;
  }

  /** `subs` and `cmp` change only the flags, so the control byte and the mode are kept. */
  lemma SubsKeepsMode(psr: Word, a: Word, b: Word)
    ensures SubsPsr(psr, a, b) & 0xFF == psr & 0xFF
    ensures ModeOf(SubsPsr(psr, a, b)) == ModeOf(psr)
  {
    var r := SubsPsr(psr, a, b);
    assert r & 0xFF == psr & 0xFF by {
      assert (r & 0x0FFF_FFFF) & 0xFF == r & 0xFF;
      assert (psr & 0x0FFF_FFFF) & 0xFF == psr & 0xFF;
    }
    assert r & 0x1F == psr & 0x1F by {
      assert (r & 0xFF) & 0x1F == r & 0x1F;
      assert (psr & 0xFF) & 0x1F == psr & 0x1F;
    }
  }

  lemma SubZero(a: Word, b: Word)
    ensures a - b == 0 <==> a == b
  {
  }

  /** The PSR with N, Z, C and V replaced by the (already positioned) bits given. */
  function WithFlags(psr: Word, n: Word, z: Word, c: Word, v: Word): (r: Word)
    requires n & 0x7FFF_FFFF == 0 && (z == 0 || z == 0x4000_0000)
    requires (c == 0 || c == 0x2000_0000) && v & 0xEFFF_FFFF == 0
    ensures r & 0x0FFF_FFFF == psr & 0x0FFF_FFFF
    ensures r & 0x8000_0000 == n && r & 0x4000_0000 == z && r & 0x2000_0000 == c
  {
    (psr & 0x0FFF_FFFF) | n | z | c | v
  }

  /**
   * `msr cpsr_c, #v` followed by `subs`: the control byte is `v` and bits
   * 8..27 are as before; only the flags change.
   */
  lemma SubsAfterMsr(psr: Word, v: Word, a: Word, b: Word)
    requires v & 0xFFFF_FF00 == 0
    ensures SubsPsr(MsrControl(psr, v), a, b) & 0xFF == v
    ensures SubsPsr(MsrControl(psr, v), a, b) & 0x0FFF_FF00 == psr & 0x0FFF_FF00
  {
  }

  /** A PSR whose control byte is `MaskedControl(m)` is in mode `m`, Arm state, IRQ and FIQ masked. */
  lemma MaskedControlByte(r: Word, m: Mode)
    requires r & 0xFF == MaskedControl(m)
    ensures ModeOf(r) == Some(m) && r & 0xC0 == 0xC0 && r & ThumbBit == 0
  {
    var c := MaskedControl(m);
    assert r & 0x1F == c & 0x1F && r & 0xC0 == c & 0xC0 && r & ThumbBit == c & ThumbBit by {
      assert (r & 0xFF) & 0x1F == r & 0x1F && (r & 0xFF) & 0xC0 == r & 0xC0 && (r & 0xFF) & 0x20 == r & 0x20;
    }
    assert c & 0x1F == ModeBits(m);
    ModeOfModeBits(m);
  }

  /**
   * `bx rm`: the PC takes the target with bit 0 cleared, and bit 0 selects
   * Thumb (1) or Arm (0) state in the CPSR's T bit.
   */
  function BxPsr(psr: Word, target: Word): Word
  {
    (psr & !ThumbBit) | ((target & 1) << 5)
  }

  /** After `bx`, T is bit 0 of the target, and every other CPSR bit is as before. */
  lemma BxSetsThumb(psr: Word, target: Word)
    ensures BxPsr(psr, target) & ThumbBit != 0 <==> target & 1 == 1
    ensures BxPsr(psr, target) & !ThumbBit == psr & !ThumbBit
  {
  }

  /** `bx` keeps the mode field and the I and F masks, so the mode. */
  lemma BxKeepsMode(psr: Word, target: Word)
    ensures BxPsr(psr, target) & 0x1F == psr & 0x1F && BxPsr(psr, target) & 0xC0 == psr & 0xC0
    ensures ModeOf(BxPsr(psr, target)) == ModeOf(psr)
  {
    var r := BxPsr(psr, target);
    assert r & 0x1F == psr & 0x1F;
  }

  /** The address `bx` branches to: the target with bit 0 cleared. */
  function BranchTarget(target: Word): (pc: Word)
    ensures pc & 1 == 0 && pc | (target & 1) == target
  {
    target & 0xFFFF_FFFE
  }

  /**
   * `bx` from a mode whose control byte the start-up code wrote keeps
   * that mode and its interrupt masks, and every bit above the control
   * byte.
   */
  lemma BxKeepsControl(psr: Word, target: Word, m: Mode)
    requires psr & 0xFF == MaskedControl(m)
    ensures ModeOf(BxPsr(psr, target)) == Some(m) && BxPsr(psr, target) & 0xC0 == 0xC0
    ensures BxPsr(psr, target) & 0xFFFF_FF00 == psr & 0xFFFF_FF00
  {
    var r := BxPsr(psr, target);
    assert r & 0xFFFF_FF00 == psr & 0xFFFF_FF00;
    assert r & 0xC0 == psr & 0xC0;
    assert r & 0x1F == psr & 0x1F;
    MaskedControlByte(psr, m);
  }

  /** The control byte of SYS mode with IRQ and FIQ masked, `MaskedControl(Sys)`. */
  const SysMasked: Word := 0xDF

  /**
   * Bits 0..27 of the CPSR after `bx lr` from SYS mode with IRQ and FIQ
   * masked, starting from `psr`: bits 8..27 of `psr`, the SYS control
   * byte, and T from bit 0 of `lr`.
   */
  function SysReturnBits(psr: Word, lr: Word): Word
  {
    (psr & 0x0FFF_FF00) | SysMasked | ((lr & 1) << 5)
  }

  /** Bits 0..27 of `r` are `SysReturnBits(psr, lr)`. */
  predicate SysReturnCpsr(r: Word, psr: Word, lr: Word)
  {
    r & 0x0FFF_FFFF == SysReturnBits(psr, lr)
  }

  /** `bx lr` from SYS mode with IRQ and FIQ masked gives `SysReturnBits`. */
  lemma BxFromSys(psr: Word, lr: Word)
    requires psr & 0xFF == SysMasked
    ensures SysReturnCpsr(BxPsr(psr, lr), psr, lr)
  {
  }

  /** `bx` changes nothing above the control byte. */
  lemma BxKeepsUpper(psr: Word, target: Word)
    ensures BxPsr(psr, target) & 0xFFFF_FF00 == psr & 0xFFFF_FF00
  {
  }

  /** Such a CPSR is in SYS mode with IRQ and FIQ masked, and in Thumb state exactly when bit 0 of `lr` is set. */
  lemma SysReturnMode(r: Word, psr: Word, lr: Word)
    requires SysReturnCpsr(r, psr, lr)
    ensures ModeOf(r) == Some(Sys) && r & 0xC0 == 0xC0
    ensures r & ThumbBit != 0 <==> lr & 1 == 1
    ensures r & 0x0FFF_FF00 == psr & 0x0FFF_FF00
  {
    var b := SysReturnBits(psr, lr);
    assert r & 0x1F == 0x1F by {
      assert (r & 0x0FFF_FFFF) & 0x1F == r & 0x1F;
    }
    assert r & 0xC0 == 0xC0 by {
      assert (r & 0x0FFF_FFFF) & 0xC0 == r & 0xC0;
    }
    assert r & ThumbBit == b & ThumbBit by {
      assert (r & 0x0FFF_FFFF) & ThumbBit == r & ThumbBit;
    }
    assert r & 0x0FFF_FF00 == psr & 0x0FFF_FF00 by {
      assert (r & 0x0FFF_FFFF) & 0x0FFF_FF00 == r & 0x0FFF_FF00;
    }
  }

  /**
   * What an AAPCS function called with `bl` may leave behind: r0-r3, r12
   * and LR hold anything, FPSCR and the CPSR outside its mode field may
   * differ. An exception taken while the callee runs (a nested SVC from an
   * SVC handler, a nested IRQ once an IRQ handler unmasks IRQs) may in
   * addition leave its own values in the SPSR of the mode it is taken to
   * (`spsr`), in that mode's LR when it is not the caller's mode
   * (`nestedLr`) and in ELR_hyp. r4-r11, every SP and the other banks are
   * preserved, and so is the stack at and above SP.
   */
  datatype Clobber = Clobber(
    r0: Word, r1: Word, r2: Word, r3: Word, r12: Word,
    lr: Word, spsr: Word, nestedLr: Word, elrHyp: Word, psr: Word,
    fpscr: Word)

  /**
   * `save_context!` and `restore_context!`, whose bodies are not part of
   * this model, as an opaque balanced pair: the save pushes `bytes` bytes
   * and leaves `frame` in r1; the restore pops them again and leaves r0-r3,
   * r12, FPSCR and FPEXC holding `r0`..`fpexc`. Neither touches LR or the
   * SPSR (the code after the save reads both, and the code after the
   * restore returns through LR).
   */
  datatype SavedContext = SavedContext(bytes: nat, frame: Word, r0: Word, r1: Word, r2: Word, r3: Word, r12: Word,
                                       fpscr: Word, fpexc: Word)

  /** The CPSR after a call made with CPSR `psr`: the callee keeps the mode. */
  function PsrAfterCall(psr: Word, k: Clobber): (r: Word)
    ensures ModeOf(r) == ModeOf(psr)
  {
    (k.psr & 0xFFFF_FFE0) | (psr & 0x1F)
  }

  /**
   * A word-aligned stack pointer far enough from address 0 that a
   * trampoline frame (at most 256 bytes) does not wrap.
   */
  predicate HasRoom(sp: int)
  {
    0x100 <= sp < 0x1_0000_0000 && sp % 4 == 0
  }

  /** An address as the 32-bit value a register holds. */
  function Addr(a: int): Word
    requires 0 <= a < 0x1_0000_0000
  {
    a as Word
  }

  /**
   * `mov rX, sp; and rX, rX, 7`: how far a word-aligned SP is above an
   * 8-byte boundary, 0 or 4.
   */
  function AlignAmount(sp: int): (r: Word)
    requires sp % 4 == 0
    ensures r == 0 <==> sp % 8 == 0
    ensures r == 4 <==> sp % 8 == 4
  {
    if sp % 8 == 0 then 0 else 4
  }

  /**
   * The sequence every EL1 and Hyp trampoline uses to align the stack
   * for the AAPCS: `and r12, sp, 7; sub sp, r12; push {regs.., r12}`.
   * With an even number of registers pushed, SP ends 8-byte aligned.
   */
  function PushAligned(st: Stack, regs: seq<Word>): (r: Stack)
    requires st.sp % 4 == 0
  {
    var pad := AlignAmount(st.sp);
    (if pad == 0 then st else st.Reserve(4)).PushList(regs + [pad])
  }

  /**
   * Its mirror image, `pop {regs.., r12}; add sp, r12`: the registers,
   * the pad word, and the stack with the pad skipped.
   */
  function PopAligned(st: Stack, n: nat): (r: (seq<Word>, Stack))
    requires n < |st.words|
    requires st.words[n] == 0 || (st.words[n] == 4 && n + 2 <= |st.words|)
  {
    var pad := st.words[n];
    var popped := st.Drop(4 * (n + 1));
    (st.words[..n], if pad == 0 then popped else popped.Drop(4))
  }

  /**
   * The two sequences undo each other, and SP is 8-byte aligned between
   * them when the register list, with r12, has an even length.
   */
  lemma {:induction false} AlignedRoundTrip(st: Stack, regs: seq<Word>)
    requires st.sp % 4 == 0
    ensures var r := PushAligned(st, regs);
      |regs| < |r.words| && (r.words[|regs|] == 0 || (r.words[|regs|] == 4 && |regs| + 2 <= |r.words|))
      && PopAligned(r, |regs|) == (regs, st) && IsSuffix(st.words, r.words)
    ensures |regs| % 2 == 1 ==> PushAligned(st, regs).sp % 8 == 0
  {
    if AlignAmount(st.sp) == 0 {
      RoundTripNoPad(st, regs);
    } else {
      RoundTripPad(st, regs);
    }
    AlignedSp(st, regs);
  }

  lemma RoundTripNoPad(st: Stack, regs: seq<Word>)
    requires st.sp % 8 == 0
    ensures var r := PushAligned(st, regs);
      |regs| < |r.words| && r.words[|regs|] == 0
      && PopAligned(r, |regs|) == (regs, st) && IsSuffix(st.words, r.words)
  {
    var r := PushAligned(st, regs);
    assert AlignAmount(st.sp) == 0;
    FrameLayout(regs, 0, st.words, r.words);
    assert r.words[|r.words| - |st.words|..] == st.words;
  }

  lemma RoundTripPad(st: Stack, regs: seq<Word>)
    requires st.sp % 8 == 4
    ensures var r := PushAligned(st, regs);
      |regs| + 2 <= |r.words| && r.words[|regs|] == 4
      && PopAligned(r, |regs|) == (regs, st) && IsSuffix(st.words, r.words)
  {
    assert AlignAmount(st.sp) == 4;
    ReserveWord(st);
    PopPadded(st, regs, PushAligned(st, regs));
  }

  /** `sub sp, 4`: one untracked word below the stack. */
  lemma ReserveWord(st: Stack)
    ensures st.Reserve(4) == Stack(st.sp - 4, [0] + st.words)
  {
    assert Untracked(1) == [0];
  }

  lemma PopPadded(st: Stack, regs: seq<Word>, r: Stack)
    requires r.sp == st.sp - 4 * (|regs| + 2) && r.words == regs + [4] + ([0] + st.words)
    ensures |regs| + 2 <= |r.words| && r.words[|regs|] == 4
      && PopAligned(r, |regs|) == (regs, st) && IsSuffix(st.words, r.words)
  {
    FrameLayout(regs, 4, [0] + st.words, r.words);
    assert r.words[|r.words| - |st.words|..] == st.words;
    assert r.Drop(4 * (|regs| + 1)).Drop(4) == st;
  }

  lemma FrameLayout(regs: seq<Word>, pad: Word, below: seq<Word>, w: seq<Word>)
    requires w == regs + [pad] + below
    ensures w[..|regs|] == regs && w[|regs|] == pad && w[|regs| + 1..] == below
  {
  }

  lemma AlignedSp(st: Stack, regs: seq<Word>)
    requires st.sp % 4 == 0
    ensures |regs| % 2 == 1 ==> PushAligned(st, regs).sp % 8 == 0
  {
    var pad := AlignAmount(st.sp);
    ReserveWord(st);
    var below := if pad == 0 then st else Stack(st.sp - 4, [0] + st.words);
    assert below.sp % 8 == 0;
    if |regs| % 2 == 1 {
      var k := (|regs| + 1) / 2;
      assert PushAligned(st, regs).sp == below.sp - 8 * k;
    }
  }

  /** The registers pushed by `PushAligned` are the words at the new SP, in order. */
  lemma AlignedFrame(st: Stack, regs: seq<Word>)
    requires st.sp % 4 == 0
    ensures PushAligned(st, regs).words[..|regs|] == regs
  {
    var pad := AlignAmount(st.sp);
    var below := if pad == 0 then st else st.Reserve(4);
    assert PushAligned(st, regs).words == regs + ([pad] + below.words);
  }

  /**
   * The processor on return from an exception: r0-r3 and r12, the bank
   * `b`, the CPSR, the PC, ELR_hyp and the FPU control words as given, and
   * every other register as at `entry`.
   */
  method Resume(entry: Cpu, r0: Word, r1: Word, r2: Word, r3: Word, r12: Word, b: Bank, v: Banked,
                cpsr: Word, pc: Word, elr: Word, fpscr: Word, fpexc: Word)
    returns (exit: Cpu)
    ensures exit.r0 == r0 && exit.r1 == r1 && exit.r2 == r2 && exit.r3 == r3 && exit.r12 == r12
    ensures BankOf(exit, b) == v && exit.cpsr == cpsr && exit.pc == pc
    ensures exit.fpscr == fpscr && exit.fpexc == fpexc && exit.elrHyp == elr
    ensures Untouched(entry, exit) && BanksKept(entry, exit, {b})
  {
    exit := WithBank(entry.(r0 := r0, r1 := r1, r2 := r2, r3 := r3, r12 := r12,
                            cpsr := cpsr, pc := pc, elrHyp := elr, fpscr := fpscr, fpexc := fpexc), b, v);
  }

  /** The word at byte address `a`; memory the model does not populate reads as 0. */
  function Load(mem: map<int, Word>, a: int): Word
  {
    if a in mem then mem[a] else 0
  }

  /**
   * The halfword at byte address `a` (even), little-endian: the low or the
   * high half of the word at the enclosing word-aligned address.
   */
  function HalfwordAt(mem: map<int, Word>, a: int): Word
  {
    if a % 4 == 0 then Load(mem, a) & 0xFFFF else Load(mem, a - 2) >> 16
  }

  /**
   * A call into a handler as a trampoline makes it: r0 and r1, SP, the
   * CPSR, and the stack from SP up to the trampoline's first push.
   */
  datatype HandlerCall = HandlerCall(r0: Word, r1: Word, sp: int, cpsr: Word, stack: seq<Word>)
}
