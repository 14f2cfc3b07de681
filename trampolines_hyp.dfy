/**
 * The default exception trampolines for Armv8-R in Hyp mode (EL2,
 * `aarch32-rt/src/arch_v8_hyp`). Each pushes r0-r3, r12 and LR, saves
 * ELR_hyp and SPSR_hyp in an 8-byte aligned frame, saves the FPU context,
 * calls the handler, writes SPSR_hyp back from the frame and returns with
 * `eret` (PC := ELR_hyp, CPSR := SPSR_hyp). In Hyp mode LR is LR_usr.
 */
module TrampolinesHyp {
  import opened Wrappers
  import opened Machine
  import opened FpuContext
  import opened TrampolinesV7

  /**
   * `push {r0-r3, r12, lr}` of `saved`, `mrs r0, elr_hyp; mrs r1,
   * spsr_hyp`, the aligned `push {r0-r2, r12}` and `save_fpu_context!`.
   */
  method HypEnter(sp: int, saved: seq<Word>, elr: Word, spsr: Word, fpscr: Word, fpexc: Word, cfg: FpuConfig)
    returns (s: Stack)
    requires |saved| == 6 && sp % 4 == 0
    ensures s == SaveFpu(PushAligned(Stack(sp - 24, saved), [elr, spsr, saved[2]]), fpscr, fpexc, cfg)
    ensures s.sp % 8 == 0 && IsSuffix(saved, s.words)
  {
    var st := Stack(sp, []).PushList(saved);           // push {r0-r3, r12, lr}
    assert st == Stack(sp - 24, saved);
    s := EnterAligned(st, [elr, spsr, saved[2]], fpscr, fpexc, cfg);
  }

  /**
   * `restore_fpu_context!`, `pop {r0-r2, r12}; add sp, r12` and
   * `pop {r0-r3, r12, lr}` on the frame `HypEnter` built: the registers
   * come back, and so do the ELR and SPSR values stored in the frame.
   */
  method HypLeave(s: Stack, ghost sp: int, ghost saved: seq<Word>, ghost elr: Word, ghost spsr: Word,
                  ghost fpscr: Word, ghost fpexc: Word, cfg: FpuConfig, fpscrNow: Word, fpexcNow: Word)
    returns (sp': int, saved': seq<Word>, elr': Word, spsr': Word, fpscr': Word, fpexc': Word)
    requires |saved| == 6 && sp % 4 == 0
    requires s == SaveFpu(PushAligned(Stack(sp - 24, saved), [elr, spsr, saved[2]]), fpscr, fpexc, cfg)
    ensures sp' == sp && saved' == saved && elr' == elr && spsr' == spsr
    ensures cfg != NoFpu ==> fpscr' == fpscr && fpexc' == fpexc
    ensures cfg == NoFpu ==> fpscr' == fpscrNow && fpexc' == fpexcNow
  {
    ghost var pushed := Stack(sp - 24, saved);
    assert pushed.words[..6] == saved;
    var st, regs;
    st, regs, fpscr', fpexc' :=
      LeaveAligned(s, pushed, [elr, spsr, saved[2]], fpscr, fpexc, 3, cfg, fpscrNow, fpexcNow);
    elr', spsr' := regs[0], regs[1];
    saved', st := st.words[..6], st.Drop(24);          // pop {r0-r3, r12, lr}
    sp' := st.sp;
  }

  /**
   * The stack-level part the abort, undefined and IRQ trampolines share
   * once SP_hyp is known: the frame, the call with `arg` in r0, and the
   * way back to `eret`, giving back the registers, SP and the stored ELR
   * and SPSR.
   */
  method HypCall(sp: int, saved: seq<Word>, elr: Word, spsr: Word, arg: Word, cpsr: Word,
                 fpscr: Word, fpexc: Word, cfg: FpuConfig, k: Clobber)
    returns (call: HandlerCall, sp': int, r0': Word, r1': Word, r2': Word, r3': Word, r12': Word,
             elr': Word, spsr': Word, fpscr': Word, fpexc': Word)
    requires |saved| == 6 && sp % 4 == 0
    ensures call.r0 == arg && call.sp % 8 == 0 && call.cpsr == cpsr && IsSuffix(saved, call.stack)
    ensures sp' == sp && elr' == elr && spsr' == spsr
    ensures r0' == saved[0] && r1' == saved[1] && r2' == saved[2] && r3' == saved[3] && r12' == saved[4]
    ensures cfg != NoFpu ==> fpscr' == fpscr && fpexc' == fpexc
    ensures cfg == NoFpu ==> fpscr' == k.fpscr && fpexc' == fpexc
  {
    var s := HypEnter(sp, saved, elr, spsr, fpscr, fpexc, cfg);
    var r1 := if cfg == NoFpu then spsr else fpexc;
    call := HandlerCall(arg, r1, s.sp, cpsr, s.words);
    var saved';
    sp', saved', elr', spsr', fpscr', fpexc' := HypLeave(s, sp, saved, elr, spsr, fpscr, fpexc, cfg, k.fpscr, fpexc);
    r0', r1', r2', r3', r12' := saved'[0], saved'[1], saved'[2], saved'[3], saved'[4];
  }

  /**
   * `_asm_default_data_abort_handler`, `_asm_default_prefetch_abort_handler`
   * and `_asm_default_undefined_handler`, which are the same sequence: the
   * handler gets ELR_hyp as it is, its result is written to ELR_hyp
   * (`msr elr_hyp, r0`) and `eret` resumes there, with SPSR_hyp and every
   * pushed register restored.
   */
  method FaultTrampoline(entry: Cpu, cfg: FpuConfig, handler: Word -> Word, k: Clobber)
    returns (call: HandlerCall, exit: Cpu)
    requires CurrentMode(entry) == Some(Hyp)
    requires HasRoom(Sp(entry, Hyp))
    ensures call.r0 == entry.elrHyp && call.sp % 8 == 0 && call.cpsr == entry.cpsr
    ensures IsSuffix([entry.r0, entry.r1, entry.r2, entry.r3, entry.r12, Lr(entry, Hyp)], call.stack)
    ensures exit.pc == handler(entry.elrHyp) && exit.elrHyp == handler(entry.elrHyp)
    ensures exit.cpsr == Spsr(entry, Hyp) && Spsr(exit, Hyp) == Spsr(entry, Hyp)
    ensures Sp(exit, Hyp) == Sp(entry, Hyp) && Lr(exit, Hyp) == Lr(entry, Hyp)
    ensures exit.r0 == entry.r0 && exit.r1 == entry.r1 && exit.r2 == entry.r2
    ensures exit.r3 == entry.r3 && exit.r12 == entry.r12
    ensures cfg != NoFpu ==> exit.fpscr == entry.fpscr && exit.fpexc == entry.fpexc
    ensures Untouched(entry, exit) && BanksKept(entry, exit, {})
  {
    var saved := [entry.r0, entry.r1, entry.r2, entry.r3, entry.r12, Lr(entry, Hyp)];
    var sp, r0, r1, r2, r3, r12, stackedElr, spsr, fpscr, fpexc;
    call, sp, r0, r1, r2, r3, r12, stackedElr, spsr, fpscr, fpexc :=   // mrs r0, elr_hyp; bl
      HypCall(Sp(entry, Hyp), saved, entry.elrHyp, Spsr(entry, Hyp), entry.elrHyp, entry.cpsr,
              entry.fpscr, entry.fpexc, cfg, k);
    var elr := handler(entry.elrHyp);                  // msr elr_hyp, r0
    // msr spsr_hyp, r1; eret
    exit := Resume(entry, r0, r1, r2, r3, r12, HypBank, Banked(sp, entry.hyp.lr, spsr),
                   spsr, elr, elr, fpscr, fpexc);
    BankRestored(entry, exit, HypBank);
  }

  /**
   * `_asm_default_irq_handler` as written: ELR_hyp is pushed at entry and
   * popped into r0 on the way out, but never written back, so `eret`
   * resumes at whatever ELR_hyp holds after the handler (`k.elrHyp`).
   */
  method IrqTrampolineAsWritten(entry: Cpu, cfg: FpuConfig, k: Clobber)
    returns (call: HandlerCall, exit: Cpu)
    requires CurrentMode(entry) == Some(Hyp)
    requires HasRoom(Sp(entry, Hyp))
    ensures call.sp % 8 == 0 && call.cpsr == entry.cpsr
    ensures IsSuffix([entry.r0, entry.r1, entry.r2, entry.r3, entry.r12, Lr(entry, Hyp)], call.stack)
    ensures exit.pc == k.elrHyp && exit.elrHyp == k.elrHyp
    ensures exit.cpsr == Spsr(entry, Hyp) && Spsr(exit, Hyp) == Spsr(entry, Hyp)
    ensures Sp(exit, Hyp) == Sp(entry, Hyp) && Lr(exit, Hyp) == Lr(entry, Hyp)
    ensures exit.r0 == entry.r0 && exit.r1 == entry.r1 && exit.r2 == entry.r2
    ensures exit.r3 == entry.r3 && exit.r12 == entry.r12
    ensures cfg != NoFpu ==> exit.fpscr == entry.fpscr && exit.fpexc == entry.fpexc
    ensures Untouched(entry, exit) && BanksKept(entry, exit, {})
  {
    var saved := [entry.r0, entry.r1, entry.r2, entry.r3, entry.r12, Lr(entry, Hyp)];
    var arg := if cfg == NoFpu then entry.elrHyp else entry.fpscr;
    var sp, r0, r1, r2, r3, r12, stackedElr, spsr, fpscr, fpexc;
    call, sp, r0, r1, r2, r3, r12, stackedElr, spsr, fpscr, fpexc :=   // bl _irq_handler (no argument)
      HypCall(Sp(entry, Hyp), saved, entry.elrHyp, Spsr(entry, Hyp), arg, entry.cpsr, entry.fpscr, entry.fpexc, cfg, k);
    // msr spsr_hyp, r1; eret with ELR_hyp as the handler left it
    exit := Resume(entry, r0, r1, r2, r3, r12, HypBank, Banked(sp, entry.hyp.lr, spsr),
                   spsr, k.elrHyp, k.elrHyp, fpscr, fpexc);
    BankRestored(entry, exit, HypBank);
  }

  /**
   * An exception taken while the IRQ handler runs (a nested IRQ once the
   * handler unmasks IRQs, or a fault, whose trampoline ends with ELR_hyp
   * at its own resume address) leaves another address in ELR_hyp, and the
   * trampoline as written then resumes there instead of at the
   * interrupted instruction.
   */
  method NestedIrqLosesReturnAddress() returns (entry: Cpu, k: Clobber, exit: Cpu)
    ensures CurrentMode(entry) == Some(Hyp) && HasRoom(Sp(entry, Hyp))
    ensures k.elrHyp != entry.elrHyp && exit.pc == k.elrHyp && exit.pc != entry.elrHyp
  {
    var none := Banked(0, 0, 0);
    entry := Cpu(0, 0, 0, 0, 0, 0, 0, 0, 0, 0, 0, 0, 0,
                 none, none, none, none, none, none, Banked(0x2000, 0, 0x10),
                 0x8000, 0x9A, 0, 0, 0, SysRegs(0, 0, 0, 0, 0), map[]);
    k := Clobber(0, 0, 0, 0, 0, 0, 0, 0, 0x9000, 0, 0);
    var call;
    call, exit := IrqTrampolineAsWritten(entry, NoFpu, k);
  }

  /**
   * `_asm_default_irq_handler` with the write-back its comments describe
   * (`msr elr_hyp, r0` after `pop {r0-r2, r12}`): it resumes at the
   * interrupted instruction whatever the handler and any nested exception
   * leave in ELR_hyp.
   */
  method IrqTrampoline(entry: Cpu, cfg: FpuConfig, k: Clobber)
    returns (call: HandlerCall, exit: Cpu)
    requires CurrentMode(entry) == Some(Hyp)
    requires HasRoom(Sp(entry, Hyp))
    ensures call.sp % 8 == 0 && call.cpsr == entry.cpsr
    ensures IsSuffix([entry.r0, entry.r1, entry.r2, entry.r3, entry.r12, Lr(entry, Hyp)], call.stack)
    ensures exit.pc == entry.elrHyp && exit.elrHyp == entry.elrHyp
    ensures exit.cpsr == Spsr(entry, Hyp) && Spsr(exit, Hyp) == Spsr(entry, Hyp)
    ensures Sp(exit, Hyp) == Sp(entry, Hyp) && Lr(exit, Hyp) == Lr(entry, Hyp)
    ensures exit.r0 == entry.r0 && exit.r1 == entry.r1 && exit.r2 == entry.r2
    ensures exit.r3 == entry.r3 && exit.r12 == entry.r12
    ensures cfg != NoFpu ==> exit.fpscr == entry.fpscr && exit.fpexc == entry.fpexc
    ensures Untouched(entry, exit) && BanksKept(entry, exit, {})
  {
    var saved := [entry.r0, entry.r1, entry.r2, entry.r3, entry.r12, Lr(entry, Hyp)];
    var arg := if cfg == NoFpu then entry.elrHyp else entry.fpscr;
    var sp, r0, r1, r2, r3, r12, elr, spsr, fpscr, fpexc;
    call, sp, r0, r1, r2, r3, r12, elr, spsr, fpscr, fpexc :=          // bl _irq_handler (no argument)
      HypCall(Sp(entry, Hyp), saved, entry.elrHyp, Spsr(entry, Hyp), arg, entry.cpsr, entry.fpscr, entry.fpexc, cfg, k);
    // msr elr_hyp, r0; msr spsr_hyp, r1; eret
    exit := Resume(entry, r0, r1, r2, r3, r12, HypBank, Banked(sp, entry.hyp.lr, spsr),
                   spsr, elr, elr, fpscr, fpexc);
    BankRestored(entry, exit, HypBank);
  }

  /**
   * The entry half of `_asm_default_hvc_handler`: `push {r12, lr}`, ELR_hyp
   * and SPSR_hyp pushed through LR and r12, the aligned `push {r0-r6, r12}`
   * whose bottom six words are the `Frame`, and `save_fpu_context!`.
   */
  method HvcEnter(sp: int, regs: seq<Word>, r12: Word, lr: Word, elr: Word, spsr: Word,
                  fpscr: Word, fpexc: Word, cfg: FpuConfig)
    returns (s: Stack)
    requires |regs| == 7 && sp % 4 == 0
    ensures s == SaveFpu(PushAligned(Stack(sp - 16, [spsr, elr, r12, lr]), regs), fpscr, fpexc, cfg)
    ensures s.sp % 8 == 0 && sp - 52 <= s.sp + FpuBytes(cfg) <= sp - 48
    ensures |s.words| >= FpuBytes(cfg) / 4 + 7 && s.words[FpuBytes(cfg) / 4..][..7] == regs
    ensures IsSuffix([spsr, elr, r12, lr], s.words)
  {
    var st := Stack(sp, []).PushList([r12, lr]);       // push {r12, lr}
    st := st.PushList([spsr, elr]);                    // mrs lr, elr_hyp; mrs r12, spsr_hyp; push {r12, lr}
    assert st == Stack(sp - 16, [spsr, elr, r12, lr]);
    AlignedFrame(st, regs);
    FpuMirror(PushAligned(st, regs), fpscr, fpexc, cfg);
    s := EnterAligned(st, regs, fpscr, fpexc, cfg);
    var aligned := PushAligned(st, regs);
    assert s.words[|s.words| - |aligned.words|..] == aligned.words;
  }

  /**
   * The exit half: `restore_fpu_context!`, `pop {r0-r6, r12}` with the
   * handler's result (parked in LR) put in r0, `add sp, r12`, ELR and SPSR
   * popped and written back to ELR_hyp and SPSR_hyp, and `pop {r12, lr}`.
   */
  method HvcLeave(s: Stack, ghost sp: int, ghost regs: seq<Word>, ghost r12: Word, ghost lr: Word,
                  ghost elr: Word, ghost spsr: Word, ghost fpscr: Word, ghost fpexc: Word,
                  cfg: FpuConfig, result: Word, fpscrNow: Word, fpexcNow: Word)
    returns (sp': int, regs': seq<Word>, r12': Word, lr': Word, elr': Word, spsr': Word, fpscr': Word, fpexc': Word)
    requires |regs| == 7 && sp % 4 == 0
    requires s == SaveFpu(PushAligned(Stack(sp - 16, [spsr, elr, r12, lr]), regs), fpscr, fpexc, cfg)
    ensures sp' == sp && regs' == [result] + regs[1..]
    ensures r12' == r12 && lr' == lr && elr' == elr && spsr' == spsr
    ensures cfg != NoFpu ==> fpscr' == fpscr && fpexc' == fpexc
    ensures cfg == NoFpu ==> fpscr' == fpscrNow && fpexc' == fpexcNow
  {
    var st;
    st, regs', fpscr', fpexc' :=
      LeaveAligned(s, Stack(sp - 16, [spsr, elr, r12, lr]), regs, fpscr, fpexc, 7, cfg, fpscrNow, fpexcNow);
    regs' := [result] + regs'[1..];                    // mov r0, lr
    spsr', elr', st := st.words[0], st.words[1], st.Drop(8);  // pop {r12, lr}; msr elr_hyp, lr; msr spsr_hyp, r12
    r12', lr', st := st.words[0], st.words[1], st.Drop(8);    // pop {r12, lr}
    sp' := st.sp;
  }

  /**
   * The stack-level part of the Hyp HVC trampoline on SP_hyp `sp`: the
   * frame, the call with the HSR and the frame's address (`mov r12, sp`
   * before the FPU context; `mov r1, r12`), and the way back.
   */
  method HvcCall(sp: int, regs: seq<Word>, r12: Word, lr: Word, elr: Word, spsr: Word, hsr: Word, cpsr: Word,
                 fpscr: Word, fpexc: Word, cfg: FpuConfig, handler: (Word, seq<Word>) -> Word, k: Clobber)
    returns (call: HandlerCall, sp': int, r0': Word, r1': Word, r2': Word, r3': Word, r12': Word, lr': Word,
             elr': Word, spsr': Word, fpscr': Word, fpexc': Word)
    requires |regs| == 7 && HasRoom(sp)
    ensures call.sp % 8 == 0 && sp - 52 <= call.sp + FpuBytes(cfg) <= sp - 48
    ensures call.r0 == hsr && call.r1 == Addr(call.sp + FpuBytes(cfg)) && call.cpsr == cpsr
    ensures |call.stack| >= FpuBytes(cfg) / 4 + 6 && call.stack[FpuBytes(cfg) / 4..][..6] == regs[..6]
    ensures IsSuffix([spsr, elr, r12, lr], call.stack)
    ensures sp' == sp && r0' == handler(hsr, regs[..6]) && r1' == regs[1] && r2' == regs[2] && r3' == regs[3]
    ensures r12' == r12 && lr' == lr && elr' == elr && spsr' == spsr
    ensures cfg != NoFpu ==> fpscr' == fpscr && fpexc' == fpexc
    ensures cfg == NoFpu ==> fpscr' == k.fpscr && fpexc' == fpexc
  {
    var s := HvcEnter(sp, regs, r12, lr, elr, spsr, fpscr, fpexc, cfg);
    var fp := s.sp + FpuBytes(cfg);                    // mov r12, sp
    call := HandlerCall(hsr, Addr(fp), s.sp, cpsr, s.words);  // mrc p15, 4, r0, c5, c2, 0; mov r1, r12
    var frameRead := s.words[FpuBytes(cfg) / 4..][..6];
    assert frameRead == regs[..6];
    var result := handler(hsr, frameRead);             // bl _hvc_handler; mov lr, r0
    var regs';
    sp', regs', r12', lr', elr', spsr', fpscr', fpexc' :=
      HvcLeave(s, sp, regs, r12, lr, elr, spsr, fpscr, fpexc, cfg, result, k.fpscr, fpexc);
    r0', r1', r2', r3' := regs'[0], regs'[1], regs'[2], regs'[3];  // pop {r0-r6, r12}; mov r0, lr
  }

  /**
   * `_asm_default_hvc_handler` in Hyp mode: the handler gets the HSR (read
   * from CP15, here `hsr`) and a pointer to r0-r5 as a `Frame` in an
   * 8-byte aligned frame; `eret` returns to the instruction after the
   * `hvc` with the handler's result in r0, and ELR_hyp, SPSR_hyp and every
   * other register as they were, whatever the handler did to them.
   */
  method HvcTrampoline(entry: Cpu, hsr: Word, cfg: FpuConfig, handler: (Word, seq<Word>) -> Word, k: Clobber)
    returns (call: HandlerCall, exit: Cpu)
    requires CurrentMode(entry) == Some(Hyp)
    requires HasRoom(Sp(entry, Hyp))
    ensures call.sp % 8 == 0 && call.r0 == hsr && call.cpsr == entry.cpsr
    ensures Sp(entry, Hyp) - 52 <= call.sp + FpuBytes(cfg) <= Sp(entry, Hyp) - 48
    ensures call.r1 == Addr(call.sp + FpuBytes(cfg))
    ensures |call.stack| >= FpuBytes(cfg) / 4 + 6
    ensures call.stack[FpuBytes(cfg) / 4..][..6] == HvcArgs(entry)
    ensures IsSuffix([Spsr(entry, Hyp), entry.elrHyp, entry.r12, Lr(entry, Hyp)], call.stack)
    ensures exit.r0 == handler(hsr, HvcArgs(entry))
    ensures exit.r1 == entry.r1 && exit.r2 == entry.r2 && exit.r3 == entry.r3 && exit.r12 == entry.r12
    ensures exit.pc == entry.elrHyp && exit.elrHyp == entry.elrHyp
    ensures exit.cpsr == Spsr(entry, Hyp) && Spsr(exit, Hyp) == Spsr(entry, Hyp)
    ensures Sp(exit, Hyp) == Sp(entry, Hyp) && Lr(exit, Hyp) == Lr(entry, Hyp)
    ensures cfg != NoFpu ==> exit.fpscr == entry.fpscr && exit.fpexc == entry.fpexc
    ensures Untouched(entry, exit) && BanksKept(entry, exit, {})
  {
    var regs := HvcArgs(entry) + [entry.r6];
    assert regs[..6] == HvcArgs(entry);
    var sp, r0, r1, r2, r3, r12, lr, elr, spsr, fpscr, fpexc;
    call, sp, r0, r1, r2, r3, r12, lr, elr, spsr, fpscr, fpexc :=
      HvcCall(Sp(entry, Hyp), regs, entry.r12, Lr(entry, Hyp), entry.elrHyp, Spsr(entry, Hyp), hsr, entry.cpsr,
              entry.fpscr, entry.fpexc, cfg, handler, k);
    // eret, with r4-r6 popped back unchanged
    exit := Resume(entry, r0, r1, r2, r3, r12, HypBank, Banked(sp, entry.hyp.lr, spsr),
                   spsr, elr, elr, fpscr, fpexc);
    BankRestored(entry, exit, HypBank);
  }
}
