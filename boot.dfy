/**
 * The run-time's start-up code: `_init_segments` (zero `.bss` and the
 * stacks, copy `.data` from its load image), `_stack_setup_preallocated`
 * (give every exception mode but Hyp its stack for one core, from the
 * linker symbols), which the `_default_start` routines run before
 * `kmain`.
 *
 * RAM for `_init_segments` is an array of words; byte address `a` is the
 * word `mem[a / 4]`. The linker symbols are parameters: the stack ones
 * as `RtStacks.Symbols`, the segment bounds as a `Segments` record.
 */
module Boot {
  import opened Wrappers
  import opened Machine
  import opened FpuContext
  import RtStacks

  /** SCTLR.TE (bit 30): take exceptions in Thumb state. */
  const TeBit: Word := 0x4000_0000

  /**
   * `__sbss`/`__ebss`, `_stacks_low_end`/`_stacks_high_end`,
   * `__sdata`/`__edata` and `__sidata`: byte addresses as the linker
   * gives them, or word indices after `Words()`.
   */
  datatype Segments = Segments(sbss: int, ebss: int, stacksLow: int, stacksHigh: int,
                               sdata: int, edata: int, sidata: int)
  {
    /** The same bounds as indices of words. */
    function Words(): Segments
    {
      Segments(sbss / 4, ebss / 4, stacksLow / 4, stacksHigh / 4, sdata / 4, edata / 4, sidata / 4)
    }

    /** Every bound is 4-byte aligned. */
    predicate Aligned()
    {
      && sbss % 4 == 0 && ebss % 4 == 0 && stacksLow % 4 == 0 && stacksHigh % 4 == 0
      && sdata % 4 == 0 && edata % 4 == 0 && sidata % 4 == 0
    }

    /**
     * Each region lies inside `[0, limit)` and is well formed, and
     * `.data`'s load image and run-time copy are apart from each other
     * and from `.bss` and the stacks.
     */
    predicate Laid(limit: int)
    {
      && 0 <= sbss <= ebss <= limit
      && 0 <= stacksLow <= stacksHigh <= limit
      && 0 <= sdata <= edata <= limit
      && 0 <= sidata && sidata + (edata - sdata) <= limit
      && Apart(sdata, edata, sbss, ebss) && Apart(sdata, edata, stacksLow, stacksHigh)
      && Apart(sidata, sidata + (edata - sdata), sdata, edata)
      && Apart(sidata, sidata + (edata - sdata), sbss, ebss)
      && Apart(sidata, sidata + (edata - sdata), stacksLow, stacksHigh)
    }
  }

  /** Whether word `i` is one of the words `[lo, hi)`. */
  predicate InRegion(i: int, lo: int, hi: int)
  {
    lo <= i < hi
  }

  /** What the linker script guarantees of the symbols, for a RAM of `words` words. */
  predicate SegmentsValid(l: Segments, words: nat)
  {
    l.Aligned() && l.Laid(4 * words)
  }

  /** Dividing aligned bounds by 4 keeps the layout. */
  lemma WordLayout(l: Segments, words: nat)
    requires SegmentsValid(l, words)
    ensures l.Words().Laid(words)
  {
  }

  /** Two half-open ranges share no element. */
  predicate Apart(a: int, b: int, c: int, d: int)
  {
    b <= c || d <= a
  }

  /**
   * A store loop that stops on `ptr == end` and steps `ptr` by 4 from
   * `start` never stops when the region's length is not a multiple of 4.
   */
  lemma UnalignedEndNeverReached(start: int, end: int, steps: nat)
    requires (end - start) % 4 != 0
    ensures start + 4 * steps != end
  {
  }

  /** The word a word-aligned byte address `a` names. */
  function WordOf(a: nat): (w: nat)
    requires a % 4 == 0
    ensures 4 * w == a
  {
    a / 4
  }

  /**
   * One of `_init_segments`' zeroing loops on the words `[lo, hi)`:
   * `cmp r1, r0; beq 1f; stm r0!, {r2}; b 0b` with r2 = 0 and the byte
   * pointer r0 running from `4 * lo` to `4 * hi`.
   */
  method ZeroLoop(mem: array<Word>, lo: nat, hi: nat)
    modifies mem
    requires lo <= hi <= mem.Length
    ensures forall i :: 0 <= i < mem.Length ==> mem[i] == if lo <= i < hi then 0 else old(mem[i])
  {
    var r0 := 4 * lo;
    ghost var j := lo;                                 // the word r0 points at
    while r0 != 4 * hi
      invariant lo <= j <= hi && r0 == 4 * j
      invariant forall i :: 0 <= i < mem.Length ==> mem[i] == if lo <= i < j then 0 else old(mem[i])
      decreases hi - j
    {
      mem[WordOf(r0)] := 0;                            // stm r0!, {r2}
      r0, j := r0 + 4, j + 1;
    }
  }

  /**
   * `_init_segments`' copy loop: `ldm r2!, {r3}; stm r0!, {r3}` from the
   * load image at word `src` into the words `[lo, hi)`, until r0 reaches
   * `4 * hi`.
   */
  method CopyLoop(mem: array<Word>, lo: nat, hi: nat, src: nat)
    modifies mem
    requires lo <= hi <= mem.Length && src + (hi - lo) <= mem.Length
    requires hi <= src || src + (hi - lo) <= lo
    ensures forall i :: 0 <= i < mem.Length ==> mem[i] == if lo <= i < hi then old(mem[i - lo + src]) else old(mem[i])
  {
    var r0, r2 := 4 * lo, 4 * src;
    ghost var j := lo;                                 // the word r0 points at
    while r0 != 4 * hi
      invariant lo <= j <= hi && r0 == 4 * j && r2 == 4 * (src + (j - lo))
      invariant forall i :: 0 <= i < mem.Length ==>
                  mem[i] == if lo <= i < j then old(mem[i - lo + src]) else old(mem[i])
      decreases hi - j
    {
      var r3 := mem[WordOf(r2)];                       // ldm r2!, {r3}
      r2 := r2 + 4;
      mem[WordOf(r0)] := r3;                           // stm r0!, {r3}
      r0, j := r0 + 4, j + 1;
    }
  }

  /** The two zeroing loops of `_init_segments` on the words of `w`: `.bss`, then the stacks. */
  method ZeroBssAndStacks(mem: array<Word>, w: Segments)
    modifies mem
    requires w.Laid(mem.Length)
    ensures forall i :: 0 <= i < mem.Length ==>
              mem[i] == if InRegion(i, w.sbss, w.ebss) || InRegion(i, w.stacksLow, w.stacksHigh) then 0 else old(mem[i])
  {
    ZeroLoop(mem, w.sbss, w.ebss);                     // ldr r0, =__sbss; ldr r1, =__ebss; mov r2, 0
    ZeroLoop(mem, w.stacksLow, w.stacksHigh);          // ldr r0, =_stacks_low_end; ldr r1, =_stacks_high_end
  }

  /**
   * `_init_segments`: zero `.bss`, zero the stacks, copy `.data` from its
   * load image. Afterwards `.bss` and the stacks are zero, `.data` holds
   * the words of its load image, and nothing else changed.
   */
  method InitSegments(mem: array<Word>, l: Segments)
    modifies mem
    requires SegmentsValid(l, mem.Length)
    ensures var w := l.Words();
      forall i :: 0 <= i < mem.Length && InRegion(i, w.sbss, w.ebss) ==> mem[i] == 0
    ensures var w := l.Words();
      forall i :: 0 <= i < mem.Length && InRegion(i, w.stacksLow, w.stacksHigh) ==> mem[i] == 0
    ensures var w := l.Words();
      forall i :: 0 <= i < mem.Length && InRegion(i, w.sdata, w.edata) ==> mem[i] == old(mem[i - w.sdata + w.sidata])
    ensures var w := l.Words();
      forall i :: (0 <= i < mem.Length && !InRegion(i, w.sbss, w.ebss) && !InRegion(i, w.stacksLow, w.stacksHigh)
        && !InRegion(i, w.sdata, w.edata)) ==> mem[i] == old(mem[i])
  {
    WordLayout(l, mem.Length);
    InitWords(mem, l.Words());
  }

  /** `_init_segments` with its bounds as word indices. */
  method InitWords(mem: array<Word>, w: Segments)
    modifies mem
    requires w.Laid(mem.Length)
    ensures forall i :: 0 <= i < mem.Length && InRegion(i, w.sbss, w.ebss) ==> mem[i] == 0
    ensures forall i :: 0 <= i < mem.Length && InRegion(i, w.stacksLow, w.stacksHigh) ==> mem[i] == 0
    ensures forall i :: 0 <= i < mem.Length && InRegion(i, w.sdata, w.edata) ==> mem[i] == old(mem[i - w.sdata + w.sidata])
    ensures forall i :: (0 <= i < mem.Length && !InRegion(i, w.sbss, w.ebss) && !InRegion(i, w.stacksLow, w.stacksHigh)
              && !InRegion(i, w.sdata, w.edata)) ==> mem[i] == old(mem[i])
  {
    ghost var m0 := mem[..];
    ZeroBssAndStacks(mem, w);
    ghost var m1 := mem[..];
    CopyLoop(mem, w.sdata, w.edata, w.sidata);        // ldr r0, =__sdata; ldr r1, =__edata; ldr r2, =__sidata
    forall i | 0 <= i < mem.Length && w.sdata <= i < w.edata
      ensures mem[i] == m0[i - w.sdata + w.sidata]
    {
      var j := i - w.sdata + w.sidata;
      assert m1[j] == m0[j];
    }
  }

  /** The modes whose SP `_stack_setup_preallocated` sets, in order: every one but User and Hyp. */
  const SETUP_ORDER: seq<Mode> := [Und, Svc, Abt, Irq, Fiq, Sys]

  /** The linker symbols' stack area for a mode's SP; User mode shares System mode's SP. */
  function AreaOf(m: Mode): RtStacks.Stack
  {
    match m
    case Usr => RtStacks.Sys
    case Und => RtStacks.Und
    case Svc => RtStacks.Svc
    case Abt => RtStacks.Abt
    case Irq => RtStacks.Irq
    case Fiq => RtStacks.Fiq
    case Sys => RtStacks.Sys
    case Hyp => RtStacks.Hyp
  }

  /** The linker symbols fit in 32-bit registers. */
  predicate SymbolsFit(sym: RtStacks.Symbols)
  {
    sym.Valid()
    && (forall i :: 0 <= i < 7 ==> sym.sizeBytes[i] < 0x1_0000_0000)
    && (forall i :: 0 <= i < 7 ==> 0 <= sym.highEnd[i] < 0x1_0000_0000)
  }

  type FitSymbols = sym: RtStacks.Symbols | SymbolsFit(sym)
    witness RtStacks.Symbols(0, [0, 0, 0, 0, 0, 0, 0], [0, 0, 0, 0, 0, 0, 0])

  /** A processor mode at PL1, from which `msr cpsr_c` may switch to any other PL1 mode. */
  predicate Pl1(c: Cpu)
  {
    CurrentMode(c).Some? && CurrentMode(c).value != Usr && CurrentMode(c).value != Hyp
  }

  /**
   * The SP that `ldr r2, =high; ldr r1, =size; muls r1, r1, r0; subs sp,
   * r2, r1` computes for core `core`: 32-bit multiplication and
   * subtraction, each wrapping modulo 2^32.
   */
  function SetupSp(sym: FitSymbols, m: Mode, core: nat): (sp: int)
    ensures 0 <= sp < 0x1_0000_0000
  {
    var s := AreaOf(m);
    (sym.highEnd[s.Index()] - (sym.sizeBytes[s.Index()] * core) % 0x1_0000_0000) % 0x1_0000_0000
  }

  /**
   * For an existing core whose offset does not wrap, the SP set up is
   * exactly the top of that core's stack as `Stack::top` computes it.
   */
  lemma SetupSpIsTop(sym: FitSymbols, m: Mode, core: nat)
    requires m != Hyp
    requires core < sym.numCores
    requires sym.sizeBytes[AreaOf(m).Index()] % 4 == 0
    requires sym.sizeBytes[AreaOf(m).Index()] * core <= sym.highEnd[AreaOf(m).Index()]
    ensures RtStacks.CoreTop(sym, AreaOf(m), core).Some?
    ensures SetupSp(sym, m, core) == RtStacks.CoreTop(sym, AreaOf(m), core).value
  {
    var s := AreaOf(m);
    var size, high, c := sym.sizeBytes[s.Index()], sym.highEnd[s.Index()], core;
    var w := RtStacks.PerCoreSizeWords(sym, s);
    assert 4 * w == size;
    var p := size * c;
    assert 4 * w * c == p;
    assert 0 <= p <= high < 0x1_0000_0000;
    ModSmall(p);
    ModSmall(high - p);
  }

  lemma ModSmall(x: int)
    requires 0 <= x < 0x1_0000_0000
    ensures x % 0x1_0000_0000 == x
  {
  }

  /** Core 0's SP is the area's high end. */
  lemma SetupSpCoreZero(sym: FitSymbols, m: Mode)
    ensures SetupSp(sym, m, 0) == sym.highEnd[AreaOf(m).Index()]
  {
  }

  /** The two values the SP computation leaves in r1 (the product) and r2 (the high end). */
  function Product(sym: FitSymbols, m: Mode, core: nat): Word
  {
    ((sym.sizeBytes[AreaOf(m).Index()] * core) % 0x1_0000_0000) as Word
  }

  function High(sym: FitSymbols, m: Mode): Word
  {
    sym.highEnd[AreaOf(m).Index()] as Word
  }

  /** The N, Z and C flags of `psr` are those of the 32-bit subtraction `a - b`. */
  predicate SubsFlags(psr: Word, a: Word, b: Word)
  {
    && (psr & 0x8000_0000 != 0 <==> (a - b) & 0x8000_0000 != 0)
    && (psr & 0x4000_0000 != 0 <==> a == b)
    && (psr & 0x2000_0000 != 0 <==> a >= b)
  }

  /**
   * The CPSR side of one block of `_stack_setup_preallocated`: `msr
   * cpsr_c, #m_mode` writes the control byte of mode `m` with IRQ and FIQ
   * masked; `muls r1, r1, r0` sets N and Z, which `subs sp, r2, r1` then
   * overwrites with the flags of `a - b`.
   */
  method SetupStep(psr: Word, m: Mode, op: (Word, Word)) returns (r: Word, control: Word)
    ensures control == MaskedControl(m)
    ensures r & 0xFF == control && r & 0x0FFF_FF00 == psr & 0x0FFF_FF00
    ensures SubsFlags(r, op.0, op.1)
  {
    control := MaskedControl(m);
    r := MsrControl(psr, control);
    SubsAfterMsr(psr, control, op.0, op.1);
    r := SubsPsr(r, op.0, op.1);
  }

  /** `bx r3` from SYS mode as the setup left it. */
  method ReturnFromSetup(psr: Word, lr: Word) returns (r: Word)
    requires psr & 0xFF == SysMasked
    ensures SysReturnCpsr(r, psr, lr)
    ensures r & 0xFFFF_FF00 == psr & 0xFFFF_FF00
  {
    r := BxPsr(psr, lr);
    BxFromSys(psr, lr);
    BxKeepsUpper(psr, lr);
  }

  /**
   * The CPSR side of `_stack_setup_preallocated`, return included, for
   * the operands `ops[i]` of each block's `subs sp, r2, r1`: the control
   * bytes written, in order (`SetupControls`), and the CPSR it returns
   * with: SYS mode with IRQ and FIQ masked, Thumb state exactly when bit 0
   * of `lr` is set, bits 8..27 as on entry (`SysReturnBits`), and the
   * flags of the last subtraction.
   */
  method SetupCpsr(psr: Word, ops: seq<(Word, Word)>, lr: Word) returns (r: Word, switches: seq<Word>)
    requires |ops| == |SETUP_ORDER|
    ensures switches == SetupControls()
    ensures SysReturnCpsr(r, psr, lr)
    ensures SubsFlags(r, ops[5].0, ops[5].1)
  {
    var c1, c2, c3, c4, c5, c6;
    r, c1 := SetupStep(psr, Und, ops[0]);
    r, c2 := SetupStep(r, Svc, ops[1]);
    r, c3 := SetupStep(r, Abt, ops[2]);
    r, c4 := SetupStep(r, Irq, ops[3]);
    r, c5 := SetupStep(r, Fiq, ops[4]);
    r, c6 := SetupStep(r, Sys, ops[5]);
    var p6, last := r, ops[5];
    switches := [c1, c2, c3, c4, c5, c6];
    r := ReturnFromSetup(r, lr);                       // bx r3
    SubsFlagsKept(p6, r, last.0, last.1);
  }

  /** Flags live above the control byte, so a change confined to that byte keeps them. */
  lemma SubsFlagsKept(p: Word, q: Word, a: Word, b: Word)
    requires SubsFlags(p, a, b) && q & 0xFFFF_FF00 == p & 0xFFFF_FF00
    ensures SubsFlags(q, a, b)
  {
    assert q & 0x8000_0000 == p & 0x8000_0000 by {
      assert (q & 0xFFFF_FF00) & 0x8000_0000 == q & 0x8000_0000;
      assert (p & 0xFFFF_FF00) & 0x8000_0000 == p & 0x8000_0000;
    }
    assert q & 0x4000_0000 == p & 0x4000_0000 by {
      assert (q & 0xFFFF_FF00) & 0x4000_0000 == q & 0x4000_0000;
      assert (p & 0xFFFF_FF00) & 0x4000_0000 == p & 0x4000_0000;
    }
    assert q & 0x2000_0000 == p & 0x2000_0000 by {
      assert (q & 0xFFFF_FF00) & 0x2000_0000 == q & 0x2000_0000;
      assert (p & 0xFFFF_FF00) & 0x2000_0000 == p & 0x2000_0000;
    }
  }

  lemma UpperBitsKept(p: Word, q: Word)
    requires q & 0xFFFF_FF00 == p & 0xFFFF_FF00
    ensures q & 0x0FFF_FF00 == p & 0x0FFF_FF00
  {
    assert (q & 0xFFFF_FF00) & 0x0FFF_FF00 == q & 0x0FFF_FF00;
    assert (p & 0xFFFF_FF00) & 0x0FFF_FF00 == p & 0x0FFF_FF00;
  }

  /** The control bytes the six `msr cpsr_c` write, in order: each mode of `SETUP_ORDER` with IRQ and FIQ masked. */
  function SetupControls(): (r: seq<Word>)
    ensures |r| == |SETUP_ORDER|
    ensures forall i :: 0 <= i < |r| ==> ModeOf(r[i]) == Some(SETUP_ORDER[i]) && r[i] & 0xC0 == 0xC0 && r[i] & ThumbBit == 0
  {
    var r := [MaskedControl(Und), MaskedControl(Svc), MaskedControl(Abt), MaskedControl(Irq), MaskedControl(Fiq), MaskedControl(Sys)];
    forall i | 0 <= i < |r|
      ensures ModeOf(r[i]) == Some(SETUP_ORDER[i]) && r[i] & 0xC0 == 0xC0 && r[i] & ThumbBit == 0
    {
      assert r[i] == MaskedControl(SETUP_ORDER[i]);
      MaskedControlByte(r[i], SETUP_ORDER[i]);
    }
    r
  }

  /** The core number the caller passes in r0. */
  function Core(c: Cpu): nat
  {
    c.r0 as int
  }

  /** The LR of the mode the processor is in. */
  function CurrentLr(c: Cpu): Word
    requires CurrentMode(c).Some?
  {
    Lr(c, CurrentMode(c).value)
  }

  /**
   * `_stack_setup_preallocated`, core number in r0: from any PL1 mode,
   * switch to UND, SVC, ABT, IRQ, FIQ and SYS in turn and set that mode's
   * SP to the top of the core's stack (`SetupSp`); Hyp's SP is never set.
   * Then clear SCTLR.TE and return through the entry LR kept in r3, in
   * SYS mode with IRQ and FIQ masked (`SetupCpsr` gives the CPSR side).
   */
  method StackSetupPreallocated(entry: Cpu, sym: FitSymbols) returns (exit: Cpu)
    requires Pl1(entry)
    ensures exit == StackSetupState(entry, sym, CurrentLr(entry)).(cpsr := exit.cpsr)
    ensures SysReturnCpsr(exit.cpsr, entry.cpsr, CurrentLr(entry))
  {
    var r3 := CurrentLr(entry);                        // mov r3, lr
    exit := StackSetupFrom(entry, sym, r3);
  }

  /**
   * Everything `_stack_setup_preallocated` leaves behind apart from the
   * CPSR, for the return address `lr` it was called with: the six banked
   * SPs, the scratch registers, SCTLR with TE clear, and the PC.
   */
  function StackSetupState(entry: Cpu, sym: FitSymbols, lr: Word): Cpu
  {
    var core := Core(entry);
    // each block's `subs sp, r2, r1` writes the SP of the mode just entered;
    // SYS shares its SP with USR
    var c := entry.(und := entry.und.(sp := SetupSp(sym, Und, core)), svc := entry.svc.(sp := SetupSp(sym, Svc, core)),
                    abt := entry.abt.(sp := SetupSp(sym, Abt, core)), irq := entry.irq.(sp := SetupSp(sym, Irq, core)),
                    fiq := entry.fiq.(sp := SetupSp(sym, Fiq, core)), usr := entry.usr.(sp := SetupSp(sym, Sys, core)),
                    r2 := High(sym, Sys));
    // mrc p15, 0, r1, c1, c0, 0; bic r1, #te_bit; mcr p15, 0, r1, c1, c0, 0
    var sctlr := c.sys.sctlr & !TeBit;
    // bx r3
    c.(r1 := sctlr, r3 := lr, sys := c.sys.(sctlr := sctlr), pc := lr & 0xFFFF_FFFE)
  }

  /**
   * The operands of each block's `subs sp, r2, r1`, in `SETUP_ORDER`: the
   * area's high end in r2 and the wrapped product size * core in r1.
   */
  function SetupOperands(sym: FitSymbols, core: nat): (ops: seq<(Word, Word)>)
    ensures |ops| == |SETUP_ORDER|
  {
    seq(6, i requires 0 <= i < 6 => (High(sym, SETUP_ORDER[i]), Product(sym, SETUP_ORDER[i], core)))
  }

  /** The body of `_stack_setup_preallocated` after `mov r3, lr`. */
  method StackSetupFrom(entry: Cpu, sym: FitSymbols, r3: Word) returns (exit: Cpu)
    ensures exit == StackSetupState(entry, sym, r3).(cpsr := exit.cpsr)
    ensures SysReturnCpsr(exit.cpsr, entry.cpsr, r3)
  {
    var psr, _ := SetupCpsr(entry.cpsr, SetupOperands(sym, Core(entry)), r3);
    exit := StackSetupState(entry, sym, r3).(cpsr := psr);
  }

  /**
   * What the caller of `_stack_setup_preallocated` sees: every mode of
   * `SETUP_ORDER` has the SP `SetupSp` of the core in r0, the Hyp bank is
   * as on entry, SCTLR.TE is clear, the other CP15 registers are kept, and
   * execution continues in SYS mode with IRQ and FIQ masked at the entry
   * LR (Thumb state exactly when its bit 0 is set).
   */
  lemma StackSetupOutcome(entry: Cpu, sym: FitSymbols, lr: Word, exit: Cpu)
    requires exit == StackSetupState(entry, sym, lr).(cpsr := exit.cpsr)
    requires SysReturnCpsr(exit.cpsr, entry.cpsr, lr)
    ensures forall i :: 0 <= i < |SETUP_ORDER| ==> Sp(exit, SETUP_ORDER[i]) == SetupSp(sym, SETUP_ORDER[i], Core(entry))
    ensures exit.hyp == entry.hyp && exit.elrHyp == entry.elrHyp && exit.fpexc == entry.fpexc
    ensures exit.sys.sctlr & TeBit == 0 && exit.sys.(sctlr := entry.sys.sctlr) == entry.sys
    ensures CurrentMode(exit) == Some(Sys) && exit.cpsr & 0xC0 == 0xC0
    ensures exit.pc == lr & 0xFFFF_FFFE
    ensures exit.cpsr & ThumbBit != 0 <==> lr & 1 == 1
  {
    SysReturnMode(exit.cpsr, entry.cpsr, lr);
    SetupSps(entry, sym, lr, exit);
    assert (entry.sys.sctlr & !TeBit) & TeBit == 0;
  }

  lemma SetupSps(entry: Cpu, sym: FitSymbols, lr: Word, exit: Cpu)
    requires exit == StackSetupState(entry, sym, lr).(cpsr := exit.cpsr)
    ensures forall i :: 0 <= i < |SETUP_ORDER| ==> Sp(exit, SETUP_ORDER[i]) == SetupSp(sym, SETUP_ORDER[i], Core(entry))
  {
    forall i | 0 <= i < |SETUP_ORDER|
      ensures Sp(exit, SETUP_ORDER[i]) == SetupSp(sym, SETUP_ORDER[i], Core(entry))
    {
      var core := Core(entry);
      if i == 0 { assert exit.und.sp == SetupSp(sym, Und, core); }
      else if i == 1 { assert exit.svc.sp == SetupSp(sym, Svc, core); }
      else if i == 2 { assert exit.abt.sp == SetupSp(sym, Abt, core); }
      else if i == 3 { assert exit.irq.sp == SetupSp(sym, Irq, core); }
      else if i == 4 { assert exit.fiq.sp == SetupSp(sym, Fiq, core); }
      else { assert exit.usr.sp == SetupSp(sym, Sys, core); }
    }
  }
}
