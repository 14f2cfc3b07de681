/**
 * The vector table and the two `_default_start` routines of the
 * run-time: the one for processors that boot into a PL1 mode, and the
 * Armv8-R one that first drops from Hyp mode to SYS mode with `eret`.
 * Both zero `.bss` and the stacks, copy `.data`, give every mode but Hyp
 * core 0's stack, optionally enable the FPU, zero r0-r12 and call `kmain`.
 *
 * The addresses the code refers to (`_vector_table`, `kmain`, and the
 * return addresses of its calls) are parameters, as are the HACTLR bits
 * the Armv8-R start-up sets, whose layout is not part of this model.
 */
module Start {
  import opened Wrappers
  import opened Machine
  import Boot
  import RtStacks

  /** The slots of the vector table, in order. */
  datatype Slot = ResetSlot | UndefSlot | SvcSlot | PrefetchSlot | DataSlot | UnusedSlot | IrqSlot | FiqSlot

  /**
   * The offset from the vector base at which the processor fetches the
   * first instruction of each exception, as section B1.8.1 of the ARMv7-A/R
   * Architecture Reference Manual lays out the (non-Hyp) vector table.
   */
  function Offset(s: Slot): (n: nat)
    ensures n % 4 == 0 && n < 0x20
  {
    match s
    case ResetSlot => 0x00
    case UndefSlot => 0x04
    case SvcSlot => 0x08
    case PrefetchSlot => 0x0C
    case DataSlot => 0x10
    case UnusedSlot => 0x14
    case IrqSlot => 0x18
    case FiqSlot => 0x1C
  }

  /** The symbol each exception is meant to reach; the unused slot reaches none. */
  function Handler(s: Slot): Option<string>
  {
    match s
    case ResetSlot => Some("_start")
    case UndefSlot => Some("_asm_undefined_handler")
    case SvcSlot => Some("_asm_svc_handler")
    case PrefetchSlot => Some("_asm_prefetch_abort_handler")
    case DataSlot => Some("_asm_data_abort_handler")
    case UnusedSlot => None
    case IrqSlot => Some("_asm_irq_handler")
    case FiqSlot => Some("_asm_fiq_handler")
  }

  /**
   * `_vector_table`: eight one-word instructions, each `ldr pc, =symbol`
   * (a jump to that symbol) except the sixth, a `nop`.
   */
  const VECTOR_TABLE: seq<Option<string>> := [
    Some("_start"), Some("_asm_undefined_handler"), Some("_asm_svc_handler"),
    Some("_asm_prefetch_abort_handler"), Some("_asm_data_abort_handler"), None,
    Some("_asm_irq_handler"), Some("_asm_fiq_handler")]

  /**
   * The table is 32 bytes long, every exception's offset falls on its own
   * instruction, and that instruction jumps to the exception's handler.
   */
  lemma VectorTableLayout(s: Slot, t: Slot)
    ensures 4 * |VECTOR_TABLE| == 0x20
    ensures Offset(s) / 4 < |VECTOR_TABLE| && VECTOR_TABLE[Offset(s) / 4] == Handler(s)
    ensures Offset(s) == Offset(t) ==> s == t
  {
  }

  /**
   * The code addresses `_default_start` uses: where
   * `_stack_setup_preallocated` returns to, `kmain`, the `b .` after the
   * call to `kmain`, and label `1:` of the Armv8-R start-up. All but
   * `kmain` are in the start-up's Arm code (`.arm`), so bit 0 of each is
   * clear; `kmain` is compiled Rust, Thumb code on Thumb targets, and
   * bit 0 of its address says which.
   */
  datatype StartAddrs = StartAddrs(afterSetup: Word, kmain: Word, spin: Word, label1: Word)
  {
    predicate Valid()
    {
      afterSetup & 1 == 0 && spin & 1 == 0 && label1 & 1 == 0
    }
  }

  /**
   * `bl label`: the LR of the current mode takes the return address; the
   * mode and every other bank are kept.
   */
  function SetCurrentLr(c: Cpu, v: Word): (r: Cpu)
    requires Boot.Pl1(c)
    ensures CurrentMode(r) == CurrentMode(c) && Boot.CurrentLr(r) == v
    ensures r.hyp == c.hyp && r.sys == c.sys && r.fpexc == c.fpexc && r.r0 == c.r0
  {
    var m := CurrentMode(c).value;
    var r := WithBank(c, LrBank(m), BankOf(c, LrBank(m)).(lr := v));
    LrWritten(c, m, v, r);
    r
  }

  /** Writing the LR of a mode other than Hyp keeps the CPSR and the Hyp bank. */
  lemma LrWritten(c: Cpu, m: Mode, v: Word, r: Cpu)
    requires m != Hyp && r == WithBank(c, LrBank(m), BankOf(c, LrBank(m)).(lr := v))
    ensures r.cpsr == c.cpsr && Lr(r, m) == v
    ensures r.hyp == c.hyp && r.sys == c.sys && r.fpexc == c.fpexc && r.r0 == c.r0
  {
    assert LrBank(m) != HypBank;
    assert BankOf(r, HypBank) == BankOf(c, HypBank);
  }

  /** `a` and `b` agree on every banked SP, SPSR and LR but LR_usr. */
  predicate BanksAgree(a: Cpu, b: Cpu)
  {
    a.usr.sp == b.usr.sp && a.fiq == b.fiq && a.irq == b.irq && a.svc == b.svc
    && a.abt == b.abt && a.und == b.und && a.hyp == b.hyp
  }

  /** `a` and `b` agree on the CPSR and on the banks, as `BanksAgree` says. */
  predicate ControlKept(a: Cpu, b: Cpu)
  {
    a.cpsr == b.cpsr && BanksAgree(a, b)
  }

  /**
   * `fpu_enable!()` when the target has an FPU: `orr` 0xF00000 into CPACR
   * (full access to CP10 and CP11), then write 0x40000000 (EN) to FPEXC
   * through r0.
   */
  function EnableFpu(c: Cpu): (r: Cpu)
    ensures r.sys.cpacr == CpacrFullAccess(c.sys.cpacr) && r.sys.(cpacr := c.sys.cpacr) == c.sys
    ensures r.fpexc == 0x4000_0000 && r.r0 == 0x4000_0000
    ensures ControlKept(c, r) && r.usr == c.usr
  {
    c.(r0 := 0x4000_0000, sys := c.sys.(cpacr := CpacrFullAccess(c.sys.cpacr)), fpexc := 0x4000_0000)
  }

  /** CPACR with CP10 and CP11 set to full access (bits 20-23). */
  function CpacrFullAccess(cpacr: Word): Word
  {
    cpacr | 0xF0_0000
  }

  /** Full access sets the CP10 and CP11 fields and keeps every other CPACR bit. */
  lemma CpacrFullAccessBits(cpacr: Word)
    ensures CpacrFullAccess(cpacr) & 0xF0_0000 == 0xF0_0000
    ensures CpacrFullAccess(cpacr) & 0xFF0F_FFFF == cpacr & 0xFF0F_FFFF
  {
  }

  /** Every one of r0-r12 is zero. */
  predicate RegistersZero(c: Cpu)
  {
    c.r0 == 0 && c.r1 == 0 && c.r2 == 0 && c.r3 == 0 && c.r4 == 0 && c.r5 == 0 && c.r6 == 0
    && c.r7 == 0 && c.r8 == 0 && c.r9 == 0 && c.r10 == 0 && c.r11 == 0 && c.r12 == 0
  }

  /** The thirteen `mov rN, 0` before `kmain`. */
  function ZeroRegisters(c: Cpu): (r: Cpu)
    ensures RegistersZero(r)
    ensures ControlKept(c, r) && r.usr == c.usr && r.sys == c.sys && r.fpexc == c.fpexc
  {
    c.(r0 := 0, r1 := 0, r2 := 0, r3 := 0, r4 := 0, r5 := 0, r6 := 0,
       r7 := 0, r8 := 0, r9 := 0, r10 := 0, r11 := 0, r12 := 0)
  }

  /**
   * `bl kmain` from SYS mode in Arm code: LR_sys (User's bank) is the
   * `b .` after the call. When `kmain` is Thumb code the linker turns the
   * `bl` into `blx`, which also switches to Thumb state, so the T bit
   * follows bit 0 of `kmain` and the PC is `kmain` with that bit cleared.
   */
  function CallKmain(c: Cpu, k: StartAddrs): (r: Cpu)
    ensures r.pc == BranchTarget(k.kmain) && r.usr.lr == k.spin
    ensures r.cpsr == BxPsr(c.cpsr, k.kmain)
    ensures BanksAgree(c, r) && r.sys == c.sys && r.fpexc == c.fpexc
    ensures RegistersZero(c) ==> RegistersZero(r)
  {
    c.(usr := c.usr.(lr := k.spin), cpsr := BxPsr(c.cpsr, k.kmain), pc := BranchTarget(k.kmain))
  }

  /**
   * What `_init_segments` leaves in RAM, `after`, given what was there,
   * `before`, for the bounds `w` as word indices: `.bss` and the stacks
   * are zero, `.data` holds its load image, the rest is as it was.
   */
  ghost predicate SegmentsInitialised(before: seq<Word>, after: seq<Word>, w: Boot.Segments)
  {
    |after| == |before| && w.Laid(|before|)
    && (forall i :: 0 <= i < |after| && Boot.InRegion(i, w.sbss, w.ebss) ==> after[i] == 0)
    && (forall i :: 0 <= i < |after| && Boot.InRegion(i, w.stacksLow, w.stacksHigh) ==> after[i] == 0)
    && (forall i :: 0 <= i < |after| && Boot.InRegion(i, w.sdata, w.edata) ==> after[i] == before[i - w.sdata + w.sidata])
    && (forall i :: (0 <= i < |after| && !Boot.InRegion(i, w.sbss, w.ebss) && !Boot.InRegion(i, w.stacksLow, w.stacksHigh)
          && !Boot.InRegion(i, w.sdata, w.edata)) ==> after[i] == before[i])
  }

  /**
   * The processor as `kmain` is entered from `_default_start`: SYS mode,
   * IRQ and FIQ masked, Thumb state exactly when `kmain` is Thumb code;
   * each mode but Hyp has core 0's stack top (the high end of its area);
   * r0-r12 are zero; the PC is `kmain` without its Thumb bit; LR_sys is
   * the spin loop, so a `kmain` that returns spins there; SCTLR.TE is
   * clear.
   */
  ghost predicate AtKmain(c: Cpu, sym: Boot.FitSymbols, k: StartAddrs)
  {
    && CurrentMode(c) == Some(Sys) && c.cpsr & 0xC0 == 0xC0
    && (c.cpsr & ThumbBit != 0 <==> k.kmain & 1 == 1)
    && (forall i :: 0 <= i < |Boot.SETUP_ORDER| ==>
          Sp(c, Boot.SETUP_ORDER[i]) == sym.highEnd[Boot.AreaOf(Boot.SETUP_ORDER[i]).Index()])
    && RegistersZero(c)
    && c.pc == BranchTarget(k.kmain) && Lr(c, Sys) == k.spin
    && c.sys.sctlr & Boot.TeBit == 0
  }

  /**
   * With an FPU, `fpu_enable!()` has granted CP10/CP11 access in CPACR
   * and set FPEXC.EN; without one, both are as they were in `entry`.
   */
  ghost predicate FpuFrom(c: Cpu, entry: Cpu, fpu: bool)
  {
    if fpu then c.sys.cpacr == CpacrFullAccess(entry.sys.cpacr) && c.fpexc == 0x4000_0000
    else c.sys.cpacr == entry.sys.cpacr && c.fpexc == entry.fpexc
  }

  /**
   * The part of `_default_start` that runs in a PL1 mode, from `bl
   * _init_segments` to `bl kmain`: segments initialised, core 0's stacks
   * set up, the FPU enabled when the target has one, registers zeroed,
   * and `kmain` called with the spin loop as its return address.
   */
  method StartEl1(entry: Cpu, mem: array<Word>, l: Boot.Segments, sym: Boot.FitSymbols, fpu: bool, k: StartAddrs)
    returns (c: Cpu)
    modifies mem
    requires Boot.Pl1(entry) && k.Valid()
    requires Boot.SegmentsValid(l, mem.Length)
    ensures SegmentsInitialised(old(mem[..]), mem[..], l.Words())
    ensures Started(c, entry, sym, fpu, k)
  {
    ghost var before := mem[..];
    Boot.InitSegments(mem, l);                                  // bl _init_segments
    Boot.WordLayout(l, mem.Length);
    InitialisedFrom(before, mem[..], l);
    c := Launch(entry, sym, fpu, k);
  }

  /**
   * `Started(c, entry, ..)`: `c` is `AtKmain`, the FPU is set up as `fpu`
   * says, and the Hyp bank, VBAR, HVBAR and HACTLR are as in `entry`.
   */
  ghost predicate Started(c: Cpu, entry: Cpu, sym: Boot.FitSymbols, fpu: bool, k: StartAddrs)
  {
    AtKmain(c, sym, k) && FpuFrom(c, entry, fpu) && c.hyp == entry.hyp
    && c.sys.vbar == entry.sys.vbar && c.sys.hvbar == entry.sys.hvbar && c.sys.hactlr == entry.sys.hactlr
  }

  /** `_default_start` from `mov r0, #0` to `bl kmain`. */
  method Launch(entry: Cpu, sym: Boot.FitSymbols, fpu: bool, k: StartAddrs) returns (c: Cpu)
    requires Boot.Pl1(entry) && k.Valid()
    ensures Started(c, entry, sym, fpu, k)
  {
    c := SetupCoreZero(entry, sym, k);
    ghost var ready := c;
    if fpu {
      c := EnableFpu(c);                                        // fpu_enable!()
    }
    c := ZeroRegisters(c);                                      // mov r0, 0 .. mov r12, 0
    c := CallKmain(c, k);                                       // bl kmain; b .
    Launched(ready, entry, sym, fpu, k, c);
  }

  /** `mov r0, #0; bl _stack_setup_preallocated`. */
  method SetupCoreZero(entry: Cpu, sym: Boot.FitSymbols, k: StartAddrs) returns (s: Cpu)
    requires Boot.Pl1(entry) && k.Valid()
    ensures SetUp(s, entry, sym)
  {
    var c := entry.(r0 := 0);                                   // mov r0, #0
    c := SetCurrentLr(c, k.afterSetup);                         // bl _stack_setup_preallocated
    ghost var called := c;
    s := Boot.StackSetupPreallocated(c, sym);
    AfterSetup(called, sym, k.afterSetup, s);
  }

  /**
   * The processor `_stack_setup_preallocated` returns for core 0 to an Arm
   * return address, compared with `entry` before the call: SYS mode with
   * IRQ and FIQ masked, Arm state, every mode but Hyp at the high end of
   * its area, SCTLR.TE clear, and the Hyp bank, FPEXC and the other CP15
   * registers as they were.
   */
  ghost predicate SetUp(s: Cpu, entry: Cpu, sym: Boot.FitSymbols)
  {
    && CurrentMode(s) == Some(Sys) && s.cpsr & 0xC0 == 0xC0 && s.cpsr & ThumbBit == 0
    && (forall i :: 0 <= i < |Boot.SETUP_ORDER| ==>
          Sp(s, Boot.SETUP_ORDER[i]) == sym.highEnd[Boot.AreaOf(Boot.SETUP_ORDER[i]).Index()])
    && s.sys.sctlr & Boot.TeBit == 0 && s.sys.(sctlr := entry.sys.sctlr) == entry.sys
    && s.hyp == entry.hyp && s.fpexc == entry.fpexc
  }

  lemma AfterSetup(called: Cpu, sym: Boot.FitSymbols, lr: Word, s: Cpu)
    requires Boot.Core(called) == 0 && lr & 1 == 0
    requires s == Boot.StackSetupState(called, sym, lr).(cpsr := s.cpsr)
    requires SysReturnCpsr(s.cpsr, called.cpsr, lr)
    ensures SetUp(s, called, sym)
  {
    Boot.StackSetupOutcome(called, sym, lr, s);
    SetupForCoreZero(sym);
  }

  /** The steps from `fpu_enable!()` to `bl kmain` turn a `SetUp` processor into one `AtKmain`. */
  lemma Launched(s: Cpu, entry: Cpu, sym: Boot.FitSymbols, fpu: bool, k: StartAddrs, c: Cpu)
    requires SetUp(s, entry, sym)
    requires c == CallKmain(ZeroRegisters(if fpu then EnableFpu(s) else s), k)
    ensures Started(c, entry, sym, fpu, k)
  {
    LaunchedAtKmain(s, entry, sym, fpu, k, c);
    LaunchedFpu(s, entry, fpu, k, c);
  }

  lemma LaunchedAtKmain(s: Cpu, entry: Cpu, sym: Boot.FitSymbols, fpu: bool, k: StartAddrs, c: Cpu)
    requires SetUp(s, entry, sym)
    requires c == CallKmain(ZeroRegisters(if fpu then EnableFpu(s) else s), k)
    ensures AtKmain(c, sym, k)
  {
    var z := ZeroRegisters(if fpu then EnableFpu(s) else s);
    assert z.cpsr == s.cpsr && BanksAgree(s, z);
    KmainPsr(s.cpsr, k.kmain);
    KeptSps(s, c);
  }

  /** `blx`/`bl` to `kmain` from SYS mode keeps the mode and masks and takes T from bit 0 of `kmain`. */
  lemma KmainPsr(psr: Word, kmain: Word)
    requires ModeOf(psr) == Some(Sys) && psr & 0xC0 == 0xC0
    ensures ModeOf(BxPsr(psr, kmain)) == Some(Sys) && BxPsr(psr, kmain) & 0xC0 == 0xC0
    ensures BxPsr(psr, kmain) & ThumbBit != 0 <==> kmain & 1 == 1
  {
    BxKeepsMode(psr, kmain);
    BxSetsThumb(psr, kmain);
  }

  lemma LaunchedFpu(s: Cpu, entry: Cpu, fpu: bool, k: StartAddrs, c: Cpu)
    requires s.sys.(sctlr := entry.sys.sctlr) == entry.sys && s.hyp == entry.hyp && s.fpexc == entry.fpexc
    requires c == CallKmain(ZeroRegisters(if fpu then EnableFpu(s) else s), k)
    ensures FpuFrom(c, entry, fpu) && c.hyp == entry.hyp
    ensures c.sys.vbar == entry.sys.vbar && c.sys.hvbar == entry.sys.hvbar && c.sys.hactlr == entry.sys.hactlr
  {
    var e := if fpu then EnableFpu(s) else s;
    var z := ZeroRegisters(e);
    assert c.sys == e.sys && c.fpexc == e.fpexc && c.hyp == e.hyp;
    if fpu {
      assert e.sys.(cpacr := s.sys.cpacr) == s.sys;
    }
  }

  /** Processors whose banks agree have the same SP in every mode. */
  lemma KeptSps(a: Cpu, b: Cpu)
    requires BanksAgree(a, b)
    ensures forall m :: Sp(a, m) == Sp(b, m)
  {
  }

  /** Core 0's SP for every mode of the setup is the high end of the mode's area. */
  lemma SetupForCoreZero(sym: Boot.FitSymbols)
    ensures forall i :: 0 <= i < |Boot.SETUP_ORDER| ==>
              Boot.SetupSp(sym, Boot.SETUP_ORDER[i], 0) == sym.highEnd[Boot.AreaOf(Boot.SETUP_ORDER[i]).Index()]
  {
    forall i | 0 <= i < |Boot.SETUP_ORDER|
      ensures Boot.SetupSp(sym, Boot.SETUP_ORDER[i], 0) == sym.highEnd[Boot.AreaOf(Boot.SETUP_ORDER[i]).Index()]
    {
      Boot.SetupSpCoreZero(sym, Boot.SETUP_ORDER[i]);
    }
  }

  /** `Boot.InitSegments`' postcondition, read as `SegmentsInitialised`. */
  lemma InitialisedFrom(before: seq<Word>, after: seq<Word>, l: Boot.Segments)
    requires |after| == |before| && l.Words().Laid(|before|)
    requires var w := l.Words();
      forall i :: 0 <= i < |after| && Boot.InRegion(i, w.sbss, w.ebss) ==> after[i] == 0
    requires var w := l.Words();
      forall i :: 0 <= i < |after| && Boot.InRegion(i, w.stacksLow, w.stacksHigh) ==> after[i] == 0
    requires var w := l.Words();
      forall i :: 0 <= i < |after| && Boot.InRegion(i, w.sdata, w.edata) ==> after[i] == before[i - w.sdata + w.sidata]
    requires var w := l.Words();
      forall i :: (0 <= i < |after| && !Boot.InRegion(i, w.sbss, w.ebss) && !Boot.InRegion(i, w.stacksLow, w.stacksHigh)
        && !Boot.InRegion(i, w.sdata, w.edata)) ==> after[i] == before[i]
    ensures SegmentsInitialised(before, after, l.Words())
  {
  }

  /**
   * `_default_start` for processors that boot into a PL1 mode (every
   * target but Armv8-R): `StartEl1` from the reset state.
   */
  method DefaultStart(entry: Cpu, mem: array<Word>, l: Boot.Segments, sym: Boot.FitSymbols, fpu: bool, k: StartAddrs)
    returns (c: Cpu)
    modifies mem
    requires Boot.Pl1(entry) && k.Valid()
    requires Boot.SegmentsValid(l, mem.Length)
    ensures SegmentsInitialised(old(mem[..]), mem[..], l.Words())
    ensures Started(c, entry, sym, fpu, k)
  {
    c := StartEl1(entry, mem, l, sym, fpu, k);
  }

  /** The CPSR `msr spsr_hyp` loads before `eret`: SYS mode, IRQ and FIQ masked, Arm state. */
  lemma SysMaskedIsSys()
    ensures ModeOf(SysMasked) == Some(Sys) && SysMasked == MaskedControl(Sys)
    ensures SysMasked & 0xC0 == 0xC0 && SysMasked & ThumbBit == 0
  {
  }

  /**
   * The EL2 part of the Armv8-R `_default_start`: set SP_hyp to the
   * Hyp stack's high end, HVBAR to the vector table, OR the given bits
   * into HACTLR, load SPSR_hyp with SYS mode and IRQ/FIQ masked and
   * ELR_hyp with label `1:`, and `eret` there.
   */
  function DropToEl1(c: Cpu, sym: Boot.FitSymbols, hactlrBits: Word, table: Word, label1: Word): (r: Cpu)
    ensures r.cpsr == SysMasked && r.pc == label1 && r.elrHyp == label1
    ensures r.hyp == Banked(sym.highEnd[Boot.AreaOf(Hyp).Index()], c.hyp.lr, SysMasked)
    ensures r.sys == c.sys.(hvbar := table, hactlr := HactlrWith(c.sys.hactlr, hactlrBits))
    ensures r.(r1 := c.r1, r2 := c.r2, hyp := c.hyp, sys := c.sys, elrHyp := c.elrHyp, cpsr := c.cpsr, pc := c.pc) == c
  {
    var hyp := c.hyp.(sp := sym.highEnd[Boot.AreaOf(Hyp).Index()]);   // ldr sp, =_hyp_stack_high_end
    var sys := c.sys.(hvbar := table);                              // ldr r1, =_vector_table; mcr p15, 4, r1, c12, c0, 0
    var hactlr := HactlrWith(sys.hactlr, hactlrBits);               // mrc; mov r2, {hactlr_bits}; orr r1, r1, r2; mcr
    var spsr := SysMasked;                                          // mov r1, {sys_mode}; msr spsr_hyp, r1
    var elr := label1;                                              // adr r1, 1f; msr elr_hyp, r1
    // eret: CPSR from SPSR_hyp, PC from ELR_hyp
    c.(r1 := label1, r2 := hactlrBits, hyp := hyp.(spsr := spsr), sys := sys.(hactlr := hactlr),
       elrHyp := elr, cpsr := spsr, pc := elr)
  }

  /** HACTLR with the start-up's bits ORed in. */
  function HactlrWith(hactlr: Word, bits: Word): Word
  {
    hactlr | bits
  }

  /** The start-up's bits end up set, and no bit of HACTLR is cleared. */
  lemma HactlrWithBits(hactlr: Word, bits: Word)
    ensures HactlrWith(hactlr, bits) & bits == bits
    ensures HactlrWith(hactlr, bits) & hactlr == hactlr
  {
  }

  /** `ldr r0, =_vector_table; mcr p15, 0, r0, c12, c0, 0`: VBAR points at the vector table. */
  function SetVbar(c: Cpu, table: Word): (r: Cpu)
    ensures r.sys == c.sys.(vbar := table) && r.r0 == table
    ensures r.cpsr == c.cpsr && r.hyp == c.hyp && r.fpexc == c.fpexc
  {
    c.(r0 := table, sys := c.sys.(vbar := table))
  }

  /**
   * What the Armv8-R start-up has done by label `1:` and the VBAR write,
   * starting from `entry`: a PL1 mode, VBAR at the vector table, CPACR and
   * FPEXC untouched; from Hyp mode, SP_hyp at the Hyp stack's high end,
   * HVBAR at the vector table and the HACTLR bits set; from any other mode,
   * the Hyp bank, HVBAR and HACTLR as they were.
   */
  ghost predicate AtEl1(c: Cpu, entry: Cpu, sym: Boot.FitSymbols, hactlrBits: Word, table: Word)
  {
    && Boot.Pl1(c) && c.sys.vbar == table
    && c.sys.cpacr == entry.sys.cpacr && c.fpexc == entry.fpexc
    && (CurrentMode(entry) == Some(Hyp) ==>
          c.hyp.sp == sym.highEnd[Boot.AreaOf(Hyp).Index()] && c.sys.hvbar == table
          && c.sys.hactlr == HactlrWith(entry.sys.hactlr, hactlrBits))
    && (CurrentMode(entry) != Some(Hyp) ==>
          c.hyp == entry.hyp && c.sys.hvbar == entry.sys.hvbar && c.sys.hactlr == entry.sys.hactlr)
  }

  /**
   * The Armv8-R `_default_start` up to label `1:` and the VBAR write:
   * `cmp` of the CPSR's mode field with Hyp's sets the flags; when Z is
   * set (Hyp mode), `DropToEl1`, otherwise straight to `1:`.
   */
  method ReachEl1(entry: Cpu, sym: Boot.FitSymbols, k: StartAddrs, hactlrBits: Word, table: Word) returns (c: Cpu)
    requires CurrentMode(entry).Some? && CurrentMode(entry).value != Usr
    ensures AtEl1(c, entry, sym, hactlrBits, table)
  {
    var r0 := entry.cpsr & 0x1F;                               // mrs r0, cpsr; and r0, r0, 0x1F
    c := entry.(r0 := r0, cpsr := SubsPsr(entry.cpsr, r0, 0x1A));  // cmp r0, {cpsr_mode_hyp}
    ghost var tested := c;
    SubsKeepsMode(entry.cpsr, r0, 0x1A);
    if c.cpsr & 0x4000_0000 != 0 {                             // bne 1f (not taken: Z set)
      c := DropToEl1(c, sym, hactlrBits, table, k.label1);
    }
    // 1: ldr r0, =_vector_table; mcr p15, 0, r0, c12, c0, 0
    c := SetVbar(c, table);
    if tested.cpsr & 0x4000_0000 != 0 {
      FromHyp(entry, tested, c, sym, k, hactlrBits, table);
    } else {
      FromPl1(entry, tested, c, sym, hactlrBits, table);
    }
  }

  /** `ReachEl1` when the start is in Hyp mode: `DropToEl1` after the `cmp`, then the VBAR write. */
  lemma FromHyp(entry: Cpu, tested: Cpu, c: Cpu, sym: Boot.FitSymbols, k: StartAddrs, hactlrBits: Word, table: Word)
    requires entry.cpsr & 0x1F == 0x1A
    requires tested.hyp == entry.hyp && tested.sys == entry.sys && tested.fpexc == entry.fpexc
    requires c == SetVbar(DropToEl1(tested, sym, hactlrBits, table, k.label1), table)
    ensures AtEl1(c, entry, sym, hactlrBits, table)
  {
    SysMaskedIsSys();
  }

  /** `ReachEl1` when the start is in a PL1 mode: the `cmp`, then only the VBAR write. */
  lemma FromPl1(entry: Cpu, tested: Cpu, c: Cpu, sym: Boot.FitSymbols, hactlrBits: Word, table: Word)
    requires CurrentMode(entry).Some? && CurrentMode(entry).value != Usr && entry.cpsr & 0x1F != 0x1A
    requires CurrentMode(tested) == CurrentMode(entry)
    requires tested.hyp == entry.hyp && tested.sys == entry.sys && tested.fpexc == entry.fpexc
    requires c == SetVbar(tested, table)
    ensures AtEl1(c, entry, sym, hactlrBits, table)
  {
  }

  /**
   * `_default_start` on Armv8-R, from Hyp mode or a PL1 mode: `ReachEl1`,
   * then `StartEl1`. Only a start in Hyp mode touches SP_hyp, HVBAR and
   * HACTLR.
   */
  method DefaultStartV8r(entry: Cpu, mem: array<Word>, l: Boot.Segments, sym: Boot.FitSymbols, fpu: bool, k: StartAddrs,
                         hactlrBits: Word, table: Word)
    returns (c: Cpu)
    modifies mem
    requires CurrentMode(entry).Some? && CurrentMode(entry).value != Usr && k.Valid()
    requires Boot.SegmentsValid(l, mem.Length)
    ensures SegmentsInitialised(old(mem[..]), mem[..], l.Words())
    ensures StartedV8r(c, entry, sym, fpu, k, hactlrBits, table)
  {
    var el1 := ReachEl1(entry, sym, k, hactlrBits, table);
    c := StartEl1(el1, mem, l, sym, fpu, k);
    V8rOutcome(entry, el1, c, sym, fpu, k, hactlrBits, table);
  }

  /**
   * The processor as `kmain` is entered from the Armv8-R `_default_start`:
   * `AtKmain`, the FPU set up as `fpu` says, VBAR at the vector table, and
   * SP_hyp, HVBAR and HACTLR set exactly when the start was in Hyp mode.
   */
  ghost predicate StartedV8r(c: Cpu, entry: Cpu, sym: Boot.FitSymbols, fpu: bool, k: StartAddrs, hactlrBits: Word, table: Word)
  {
    && AtKmain(c, sym, k) && FpuFrom(c, entry, fpu) && c.sys.vbar == table
    && (CurrentMode(entry) == Some(Hyp) ==>
          c.hyp.sp == sym.highEnd[Boot.AreaOf(Hyp).Index()] && c.sys.hvbar == table
          && c.sys.hactlr == HactlrWith(entry.sys.hactlr, hactlrBits))
    && (CurrentMode(entry) != Some(Hyp) ==>
          c.hyp == entry.hyp && c.sys.hvbar == entry.sys.hvbar && c.sys.hactlr == entry.sys.hactlr)
  }

  lemma V8rOutcome(entry: Cpu, el1: Cpu, c: Cpu, sym: Boot.FitSymbols, fpu: bool, k: StartAddrs, hactlrBits: Word, table: Word)
    requires AtEl1(el1, entry, sym, hactlrBits, table)
    requires Started(c, el1, sym, fpu, k)
    ensures StartedV8r(c, entry, sym, fpu, k, hactlrBits, table)
  {
  }
}
