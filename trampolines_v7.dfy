/**
 * The default exception trampolines for Armv7 and later in EL1
 * (`aarch32-rt/src/arch_v7`): they store the return state with `srsfd`,
 * align SP for the AAPCS, save the FPU context, call the portable handler
 * and return with `rfefd`.
 *
 * Each trampoline is a method from the processor state on exception entry
 * (after the hardware has put the return address in the mode's LR and the
 * interrupted CPSR in its SPSR) to the state after its final instruction.
 * The handler's result is a function of its argument; everything else the
 * handler may do is the `Clobber` parameter.
 */
module TrampolinesV7 {
  import opened Wrappers
  import opened Machine
  import opened FpuContext
  import opened SvcNumbers

  /**
   * `mov r12, sp; and r12, r12, 7; sub sp, r12; push {regs.., r12}`
   * followed by `save_fpu_context!`: the frame the handler is called on.
   */
  method EnterAligned(st: Stack, regs: seq<Word>, fpscr: Word, fpexc: Word, cfg: FpuConfig)
    returns (s: Stack)
    requires st.sp % 4 == 0 && |regs| % 2 == 1
    ensures s == SaveFpu(PushAligned(st, regs), fpscr, fpexc, cfg)
    ensures s.sp % 8 == 0 && IsSuffix(st.words, s.words)
  {
    AlignedRoundTrip(st, regs);
    var aligned := PushAligned(st, regs);
    FpuMirror(aligned, fpscr, fpexc, cfg);
    s := SaveFpu(aligned, fpscr, fpexc, cfg);
    SuffixTrans(st.words, aligned.words, s.words);
  }

  /**
   * `restore_fpu_context!` followed by `pop {regs.., r12}; add sp, r12`
   * on the frame `EnterAligned` built: the registers and the stack come
   * back, and so do FPSCR and FPEXC when there is an FPU.
   */
  method LeaveAligned(s: Stack, ghost st: Stack, ghost regs: seq<Word>, ghost fpscr: Word, ghost fpexc: Word,
                      n: nat, cfg: FpuConfig, fpscrNow: Word, fpexcNow: Word)
    returns (st': Stack, regs': seq<Word>, fpscr': Word, fpexc': Word)
    requires st.sp % 4 == 0 && n == |regs|
    requires s == SaveFpu(PushAligned(st, regs), fpscr, fpexc, cfg)
    ensures st' == st && regs' == regs
    ensures cfg != NoFpu ==> fpscr' == fpscr && fpexc' == fpexc
    ensures cfg == NoFpu ==> fpscr' == fpscrNow && fpexc' == fpexcNow
  {
    UnwindFrame(s, st, regs, fpscr, fpexc, cfg);
    var t, r0, r1;
    t, r0, r1, fpscr', fpexc' := RestoreFpuContext(s, 0, 0, fpscrNow, fpexcNow, cfg);
    regs', st' := PopAligned(t, n).0, PopAligned(t, n).1;
  }

  /** What unwinding the frame `EnterAligned` built finds at each step. */
  lemma UnwindFrame(s: Stack, st: Stack, regs: seq<Word>, fpscr: Word, fpexc: Word, cfg: FpuConfig)
    requires st.sp % 4 == 0
    requires s == SaveFpu(PushAligned(st, regs), fpscr, fpexc, cfg)
    ensures FpuBytes(cfg) / 4 <= |s.words|
    ensures cfg != NoFpu ==> s.words[0] == fpscr && s.words[1] == fpexc
    ensures var t := RestoreFpu(s, cfg);
      |regs| < |t.words| && (t.words[|regs|] == 0 || (t.words[|regs|] == 4 && |regs| + 2 <= |t.words|))
      && PopAligned(t, |regs|) == (regs, st)
  {
    AlignedRoundTrip(st, regs);
    FpuMirror(PushAligned(st, regs), fpscr, fpexc, cfg);
  }

  /**
   * `pop {r12}; str lr, [sp]; rfefd sp!`: r12 comes back from the stack,
   * the return address stored by `srsfd` is replaced by `lr`, and the PC
   * and CPSR are loaded from the two words `srsfd` stored.
   */
  method PopAndReturn(st: Stack, lr: Word) returns (st': Stack, r12: Word, pc: Word, cpsr: Word)
    requires 3 <= |st.words|
    ensures r12 == st.words[0] && pc == lr && cpsr == st.words[2]
    ensures st' == Stack(st.sp + 12, st.words[3..])
  {
    r12, st' := st.words[0], st.Drop(4);               // pop {r12}
    st' := st'.(words := [lr] + st'.words[1..]);       // str lr, [sp]
    pc, cpsr := st'.words[0], st'.words[1];            // rfefd sp!
    st' := st'.Drop(8);
  }

  /**
   * `pop {lr}; rfefd sp!`: a word popped into LR, then the PC and CPSR
   * loaded from the two words above it.
   */
  method PopLrAndReturn(st: Stack) returns (st': Stack, lr: Word, pc: Word, cpsr: Word)
    requires 3 <= |st.words|
    ensures lr == st.words[0] && pc == st.words[1] && cpsr == st.words[2]
    ensures st' == Stack(st.sp + 12, st.words[3..])
  {
    lr, st' := st.words[0], st.Drop(4);                // pop {lr}
    pc, cpsr := st'.words[0], st'.words[1];            // rfefd sp!
    st' := st'.Drop(8);
  }

  /**
   * The part the abort and undefined trampolines share once the mode's
   * stack pointer `sp` is known: `srsfd` of `saved` and `spsr`,
   * `push {r12}`, the aligned frame with r0-r4, the FPU context, the call
   * of the handler with `arg`, `mov lr, r0`, and the way back to
   * `rfefd`. Resumes at the handler's result with the CPSR `srsfd`
   * stored, with SP and every register pushed back as it was.
   */
  method FaultCall(sp: int, saved: Word, spsr: Word, r12: Word, regs: seq<Word>, arg: Word,
                   cpsr: Word, fpscr: Word, fpexc: Word, cfg: FpuConfig, handler: Word -> Word, k: Clobber)
    returns (call: HandlerCall, sp': int, regs': seq<Word>, r12': Word, lr: Word, pc: Word, cpsr': Word,
             fpscr': Word, fpexc': Word)
    requires |regs| == 5 && sp % 4 == 0
    ensures call.r0 == arg && call.sp % 8 == 0 && call.cpsr == cpsr
    ensures IsSuffix([r12, saved, spsr], call.stack)
    ensures sp' == sp && regs' == regs && r12' == r12
    ensures lr == handler(arg) && pc == handler(arg) && cpsr' == spsr
    ensures cfg != NoFpu ==> fpscr' == fpscr && fpexc' == fpexc
    ensures cfg == NoFpu ==> fpscr' == k.fpscr && fpexc' == fpexc
  {
    var st := Stack(sp, []).PushList([saved, spsr]);   // srsfd sp!, #mode
    st := st.Push(r12);                                // push {r12}
    assert st.words == [r12, saved, spsr];
    var s := EnterAligned(st, regs, fpscr, fpexc, cfg);
    var r1 := if cfg == NoFpu then regs[1] else fpexc;
    var r0 := arg;                                     // mov r0, lr
    call := HandlerCall(r0, r1, s.sp, cpsr, s.words);
    r0 := handler(r0);                                 // bl handler
    lr := r0;                                          // mov lr, r0
    st, regs', fpscr', fpexc' := LeaveAligned(s, st, regs, fpscr, fpexc, 5, cfg, k.fpscr, fpexc);
    st, r12', pc, cpsr' := PopAndReturn(st, lr);
    sp' := st.sp;
  }

  /**
   * `_asm_default_data_abort_handler` (`offset` 8) and
   * `_asm_default_prefetch_abort_handler` (`offset` 4), which differ only
   * in the amount subtracted from LR_abt.
   */
  method AbortTrampoline(entry: Cpu, offset: Word, cfg: FpuConfig, handler: Word -> Word, k: Clobber)
    returns (call: HandlerCall, exit: Cpu)
    requires CurrentMode(entry) == Some(Abt)
    requires HasRoom(Sp(entry, Abt))
    ensures call.r0 == Lr(entry, Abt) - offset
    ensures call.sp % 8 == 0 && call.cpsr == entry.cpsr
    ensures IsSuffix([entry.r12, Lr(entry, Abt) - offset, Spsr(entry, Abt)], call.stack)
    ensures exit.pc == handler(call.r0) && exit.cpsr == Spsr(entry, Abt)
    ensures Sp(exit, Abt) == Sp(entry, Abt) && Lr(exit, Abt) == handler(call.r0) && Spsr(exit, Abt) == k.spsr
    ensures exit.r0 == entry.r0 && exit.r1 == entry.r1 && exit.r2 == entry.r2
    ensures exit.r3 == entry.r3 && exit.r12 == entry.r12 && exit.elrHyp == entry.elrHyp
    ensures cfg != NoFpu ==> exit.fpscr == entry.fpscr && exit.fpexc == entry.fpexc
    ensures Untouched(entry, exit) && BanksKept(entry, exit, {AbtBank})
  {
    var lr := Lr(entry, Abt) - offset;                 // sub lr, lr, #offset
    var sp, regs, r12, pc, psr, fpscr, fpexc;
    call, sp, regs, r12, lr, pc, psr, fpscr, fpexc :=
      FaultCall(Sp(entry, Abt), lr, Spsr(entry, Abt), entry.r12, [entry.r0, entry.r1, entry.r2, entry.r3, entry.r4],
                lr, entry.cpsr, entry.fpscr, entry.fpexc, cfg, handler, k);
    exit := Resume(entry, regs[0], regs[1], regs[2], regs[3], r12, AbtBank, Banked(sp, lr, k.spsr),
                   psr, pc, entry.elrHyp, fpscr, fpexc);
  }

  method DataAbort(entry: Cpu, cfg: FpuConfig, handler: Word -> Word, k: Clobber)
    returns (call: HandlerCall, exit: Cpu)
    requires CurrentMode(entry) == Some(Abt)
    requires HasRoom(Sp(entry, Abt))
    ensures call.r0 == Lr(entry, Abt) - 8 && call.sp % 8 == 0
    ensures exit.pc == handler(Lr(entry, Abt) - 8) && exit.cpsr == Spsr(entry, Abt)
    ensures Sp(exit, Abt) == Sp(entry, Abt)
    ensures exit.r0 == entry.r0 && exit.r1 == entry.r1 && exit.r2 == entry.r2
    ensures exit.r3 == entry.r3 && exit.r12 == entry.r12
    ensures Untouched(entry, exit) && BanksKept(entry, exit, {AbtBank})
  {
    call, exit := AbortTrampoline(entry, 8, cfg, handler, k);
  }

  method PrefetchAbort(entry: Cpu, cfg: FpuConfig, handler: Word -> Word, k: Clobber)
    returns (call: HandlerCall, exit: Cpu)
    requires CurrentMode(entry) == Some(Abt)
    requires HasRoom(Sp(entry, Abt))
    ensures call.r0 == Lr(entry, Abt) - 4 && call.sp % 8 == 0
    ensures exit.pc == handler(Lr(entry, Abt) - 4) && exit.cpsr == Spsr(entry, Abt)
    ensures Sp(exit, Abt) == Sp(entry, Abt)
    ensures exit.r0 == entry.r0 && exit.r1 == entry.r1 && exit.r2 == entry.r2
    ensures exit.r3 == entry.r3 && exit.r12 == entry.r12
    ensures Untouched(entry, exit) && BanksKept(entry, exit, {AbtBank})
  {
    call, exit := AbortTrampoline(entry, 4, cfg, handler, k);
  }

  /**
   * `_asm_default_undefined_handler`. `srsfd` stores LR_und and SPSR_und as
   * they are on entry; only then is LR moved back to the undefined
   * instruction, by 4 bytes in Arm state and by 2 in Thumb state (SPSR.T),
   * and handed to the handler. Execution resumes at the handler's result.
   */
  method UndefinedTrampoline(entry: Cpu, cfg: FpuConfig, handler: Word -> Word, k: Clobber)
    returns (call: HandlerCall, exit: Cpu)
    requires CurrentMode(entry) == Some(Und)
    requires HasRoom(Sp(entry, Und))
    ensures Spsr(entry, Und) & ThumbBit == 0 ==> call.r0 == Lr(entry, Und) - 4
    ensures Spsr(entry, Und) & ThumbBit != 0 ==> call.r0 == Lr(entry, Und) - 2
    ensures call.sp % 8 == 0 && call.cpsr == TstPsr(entry.cpsr, Spsr(entry, Und), ThumbBit)
    ensures IsSuffix([entry.r12, Lr(entry, Und), Spsr(entry, Und)], call.stack)
    ensures exit.pc == handler(call.r0) && exit.cpsr == Spsr(entry, Und)
    ensures Sp(exit, Und) == Sp(entry, Und) && Lr(exit, Und) == handler(call.r0) && Spsr(exit, Und) == k.spsr
    ensures exit.r0 == entry.r0 && exit.r1 == entry.r1 && exit.r2 == entry.r2
    ensures exit.r3 == entry.r3 && exit.r12 == entry.r12 && exit.elrHyp == entry.elrHyp
    ensures cfg != NoFpu ==> exit.fpscr == entry.fpscr && exit.fpexc == entry.fpexc
    ensures Untouched(entry, exit) && BanksKept(entry, exit, {UndBank})
  {
    // srsfd and push {r12} (inside FaultCall) come before the adjustment
    var lr := Lr(entry, Und);
    var tested := TstPsr(entry.cpsr, Spsr(entry, Und), ThumbBit);   // mrs r12, spsr; tst r12, {t_bit}
    var arg := if Spsr(entry, Und) & ThumbBit == 0 then lr - 4 else lr - 2;
    var sp, regs, r12, pc, psr, fpscr, fpexc;
    call, sp, regs, r12, lr, pc, psr, fpscr, fpexc :=
      FaultCall(Sp(entry, Und), lr, Spsr(entry, Und), entry.r12, [entry.r0, entry.r1, entry.r2, entry.r3, entry.r4],
                arg, tested, entry.fpscr, entry.fpexc, cfg, handler, k);
    exit := Resume(entry, regs[0], regs[1], regs[2], regs[3], r12, UndBank, Banked(sp, lr, k.spsr),
                   psr, pc, entry.elrHyp, fpscr, fpexc);
  }

  /**
   * `_asm_default_svc_handler`: `srsfd` stores LR_svc and SPSR_svc, the
   * registers are saved by `save_context!`, the handler gets the SVC
   * number, `restore_context!` pops what the save pushed and `rfefd`
   * returns through the two stored words. The return address and CPSR
   * therefore come from the stack, whatever the handler (or an SVC it
   * makes itself) does to LR_svc and SPSR_svc.
   */
  method SvcTrampoline(entry: Cpu, ctx: SavedContext, k: Clobber)
    returns (call: HandlerCall, exit: Cpu)
    requires CurrentMode(entry) == Some(Svc)
    requires HasRoom(Sp(entry, Svc)) && ctx.bytes % 4 == 0
    ensures call.r0 == SvcNumber(entry.mem, Lr(entry, Svc), Spsr(entry, Svc)) && call.r1 == ctx.frame
    ensures call.cpsr == TstPsr(entry.cpsr, Spsr(entry, Svc), ThumbBit)
    ensures IsSuffix([Lr(entry, Svc), Spsr(entry, Svc)], call.stack)
    ensures exit.pc == Lr(entry, Svc) && exit.cpsr == Spsr(entry, Svc)
    ensures Sp(exit, Svc) == Sp(entry, Svc) && Lr(exit, Svc) == k.lr && Spsr(exit, Svc) == k.spsr
    ensures exit.r0 == ctx.r0 && exit.r1 == ctx.r1 && exit.r2 == ctx.r2 && exit.r3 == ctx.r3 && exit.r12 == ctx.r12
    ensures exit.elrHyp == entry.elrHyp
    ensures Untouched(entry, exit) && BanksKept(entry, exit, {SvcBank})
  {
    var st := Stack(Sp(entry, Svc), []).PushList([Lr(entry, Svc), Spsr(entry, Svc)]);  // srsfd sp!, #svc
    assert st.words == [Lr(entry, Svc), Spsr(entry, Svc)];
    var saved := st.Reserve(ctx.bytes);                              // save_context!
    assert saved.words[|saved.words| - 2..] == st.words;
    var tested := TstPsr(entry.cpsr, Spsr(entry, Svc), ThumbBit);   // mrs r0, spsr; tst r0, {t_bit}
    var r0 := SvcNumber(entry.mem, Lr(entry, Svc), Spsr(entry, Svc));
    call := HandlerCall(r0, ctx.frame, saved.sp, tested, saved.words);  // bl _svc_handler
    st := saved.Drop(ctx.bytes);                                     // restore_context!
    var pc, psr := st.words[0], st.words[1];                         // rfefd sp!
    st := st.Drop(8);
    exit := Resume(entry, ctx.r0, ctx.r1, ctx.r2, ctx.r3, ctx.r12, SvcBank, Banked(st.sp, k.lr, k.spsr),
                   psr, pc, entry.elrHyp, ctx.fpscr, ctx.fpexc);
  }

  /**
   * The stack-level part of the IRQ trampoline, on the System-mode stack
   * `sp`: `srsfd` of the adjusted return address `lr` and `spsr`,
   * `push {lr}` of LR_sys, the aligned frame with r0-r3 and r12, the FPU
   * context, the call, and the way back to `rfefd`.
   */
  method IrqCall(sp: int, lr: Word, spsr: Word, lrSys: Word, regs: seq<Word>,
                 cpsr: Word, fpscr: Word, fpexc: Word, cfg: FpuConfig, k: Clobber)
    returns (call: HandlerCall, sp': int, regs': seq<Word>, lrSys': Word, pc: Word, cpsr': Word,
             fpscr': Word, fpexc': Word)
    requires |regs| == 5 && sp % 4 == 0
    ensures call.sp % 8 == 0 && call.cpsr == cpsr
    ensures IsSuffix([lrSys, lr, spsr], call.stack)
    ensures sp' == sp && regs' == regs && lrSys' == lrSys && pc == lr && cpsr' == spsr
    ensures cfg != NoFpu ==> fpscr' == fpscr && fpexc' == fpexc
    ensures cfg == NoFpu ==> fpscr' == k.fpscr && fpexc' == fpexc
  {
    var st := Stack(sp, []).PushList([lr, spsr]);      // srsfd sp!, #sys
    st := st.Push(lrSys);                              // cps #sys; push {lr}
    assert st.words == [lrSys, lr, spsr];
    var s := EnterAligned(st, regs, fpscr, fpexc, cfg);
    var r0, r1 := if cfg == NoFpu then regs[0] else fpscr, if cfg == NoFpu then regs[1] else fpexc;
    call := HandlerCall(r0, r1, s.sp, cpsr, s.words);  // bl _irq_handler
    st, regs', fpscr', fpexc' := LeaveAligned(s, st, regs, fpscr, fpexc, 5, cfg, k.fpscr, fpexc);
    st, lrSys', pc, cpsr' := PopLrAndReturn(st);
    sp' := st.sp;
  }

  /**
   * `_asm_default_irq_handler`: the return state goes to the System-mode
   * stack and the handler runs in System mode with the I bit as it was on
   * entry, so SP_irq is never used. LR_irq and SPSR_irq end as a nested
   * IRQ taken while the handler runs leaves them (`k.nestedLr`,
   * `k.spsr`).
   */
  method IrqTrampoline(entry: Cpu, cfg: FpuConfig, k: Clobber)
    returns (call: HandlerCall, exit: Cpu)
    requires CurrentMode(entry) == Some(Irq)
    requires HasRoom(Sp(entry, Sys))
    ensures ModeOf(call.cpsr) == Some(Sys) && call.cpsr & IBit == entry.cpsr & IBit
    ensures call.sp % 8 == 0
    ensures IsSuffix([Lr(entry, Sys), Lr(entry, Irq) - 4, Spsr(entry, Irq)], call.stack)
    ensures exit.pc == Lr(entry, Irq) - 4 && exit.cpsr == Spsr(entry, Irq)
    ensures Sp(exit, Irq) == Sp(entry, Irq) && Lr(exit, Irq) == k.nestedLr && Spsr(exit, Irq) == k.spsr
    ensures Sp(exit, Sys) == Sp(entry, Sys) && Lr(exit, Sys) == Lr(entry, Sys)
    ensures exit.r0 == entry.r0 && exit.r1 == entry.r1 && exit.r2 == entry.r2
    ensures exit.r3 == entry.r3 && exit.r12 == entry.r12 && exit.elrHyp == entry.elrHyp
    ensures cfg != NoFpu ==> exit.fpscr == entry.fpscr && exit.fpexc == entry.fpexc
    ensures Untouched(entry, exit) && BanksKept(entry, exit, {IrqBank})
  {
    var lr := Lr(entry, Irq) - 4;                      // sub lr, lr, 4
    var psr := Cps(entry.cpsr, Sys);                   // cps #sys
    assert psr & IBit == entry.cpsr & IBit;
    var sp, regs, lrSys, pc, fpscr, fpexc;
    call, sp, regs, lrSys, pc, psr, fpscr, fpexc :=
      IrqCall(Sp(entry, Sys), lr, Spsr(entry, Irq), Lr(entry, Sys), [entry.r0, entry.r1, entry.r2, entry.r3, entry.r12],
              psr, entry.fpscr, entry.fpexc, cfg, k);
    exit := entry.(r0 := regs[0], r1 := regs[1], r2 := regs[2], r3 := regs[3], r12 := regs[4],
                   usr := Banked(sp, lrSys, entry.usr.spsr), irq := Banked(entry.irq.sp, k.nestedLr, k.spsr),
                   cpsr := psr, pc := pc, fpscr := fpscr, fpexc := fpexc);
  }

  /**
   * `push {r12, lr}; push {r0-r5}` and `save_fpu_context!` at the start of
   * the v8-R HVC trampoline: the `Frame` sits right above the FPU context.
   */
  method HvcEnter(sp: int, frame: seq<Word>, r12: Word, lr: Word, fpscr: Word, fpexc: Word, cfg: FpuConfig)
    returns (s: Stack)
    requires |frame| == 6
    ensures s == SaveFpu(Stack(sp - 32, frame + [r12, lr]), fpscr, fpexc, cfg)
    ensures s.sp == sp - 32 - FpuBytes(cfg) && |s.words| == FpuBytes(cfg) / 4 + 8
    ensures s.words[FpuBytes(cfg) / 4..] == frame + [r12, lr]
  {
    var st := Stack(sp, []).PushList([r12, lr]);       // push {r12, lr}
    st := st.PushList(frame);                          // push {r0-r5}
    assert st == Stack(sp - 32, frame + [r12, lr]);
    var r0, r1;
    s, r0, r1 := SaveFpuContext(st, frame[0], frame[1], fpscr, fpexc, cfg);
    SaveFpuTop(st, fpscr, fpexc, cfg);
  }

  /**
   * `restore_fpu_context!; pop {r0-r5}; mov r0, r12; pop {r12, lr}` on the
   * frame `HvcEnter` built, with the handler's result in r12.
   */
  method HvcLeave(s: Stack, ghost sp: int, ghost frame: seq<Word>, ghost r12: Word, ghost lr: Word,
                  ghost fpscr: Word, ghost fpexc: Word, cfg: FpuConfig, result: Word, fpexcNow: Word, k: Clobber)
    returns (sp': int, regs': seq<Word>, r12': Word, lr': Word, fpscr': Word, fpexc': Word)
    requires |frame| == 6
    requires s == SaveFpu(Stack(sp - 32, frame + [r12, lr]), fpscr, fpexc, cfg)
    ensures sp' == sp && r12' == r12 && lr' == lr
    ensures regs' == [result] + frame[1..]
    ensures cfg != NoFpu ==> fpscr' == fpscr && fpexc' == fpexc
    ensures cfg == NoFpu ==> fpscr' == k.fpscr && fpexc' == fpexcNow
  {
    FpuMirror(Stack(sp - 32, frame + [r12, lr]), fpscr, fpexc, cfg);
    var st, r0, r1;
    st, r0, r1, fpscr', fpexc' := RestoreFpuContext(s, k.r0, k.r1, k.fpscr, fpexcNow, cfg);
    regs', st := st.words[..6], st.Drop(24);           // pop {r0-r5}
    regs' := [result] + regs'[1..];                    // mov r0, r12
    r12', lr', st := st.words[0], st.words[1], st.Drop(8);  // pop {r12, lr}
    sp' := st.sp;
  }

  /**
   * The stack-level part of the v8-R HVC trampoline on SP_hyp `sp`: the
   * frame, the call with the HSR and the frame's address (`mov r12, sp`;
   * `mov r1, r12`), the result parked in r12 across the FPU restore, and
   * the way back.
   */
  method HvcCall(sp: int, frame: seq<Word>, r12: Word, lr: Word, hsr: Word, cpsr: Word,
                 fpscr: Word, fpexc: Word, cfg: FpuConfig, handler: (Word, seq<Word>) -> Word, k: Clobber)
    returns (call: HandlerCall, sp': int, regs': seq<Word>, r12': Word, lr': Word, fpscr': Word, fpexc': Word)
    requires |frame| == 6 && HasRoom(sp)
    ensures call.sp == sp - 32 - FpuBytes(cfg) && |call.stack| == FpuBytes(cfg) / 4 + 8
    ensures call.r0 == hsr && call.r1 == Addr(sp - 32) && call.cpsr == cpsr
    ensures call.stack[FpuBytes(cfg) / 4..] == frame + [r12, lr]
    ensures sp' == sp && r12' == r12 && lr' == lr
    ensures regs' == [handler(hsr, frame)] + frame[1..]
    ensures cfg != NoFpu ==> fpscr' == fpscr && fpexc' == fpexc
    ensures cfg == NoFpu ==> fpscr' == k.fpscr && fpexc' == fpexc
  {
    var s := HvcEnter(sp, frame, r12, lr, fpscr, fpexc, cfg);
    var fp := s.sp + FpuBytes(cfg);                    // mov r12, sp (before the FPU context)
    call := HandlerCall(hsr, Addr(fp), s.sp, cpsr, s.words);  // mrc p15, 4, r0, c5, c2, 0; mov r1, r12
    var frameRead := s.words[FpuBytes(cfg) / 4..][..6];
    assert frameRead == frame;
    var result := handler(hsr, frameRead);             // bl _hvc_handler; mov r12, r0
    sp', regs', r12', lr', fpscr', fpexc' := HvcLeave(s, sp, frame, r12, lr, fpscr, fpexc, cfg, result, fpexc, k);
  }

  /** r0-r5 of `c`, the six words of the `Frame` an HVC handler receives. */
  function HvcArgs(c: Cpu): (r: seq<Word>)
    ensures |r| == 6
  {
    [c.r0, c.r1, c.r2, c.r3, c.r4, c.r5]
  }

  /**
   * `_asm_default_hvc_handler` as built for Armv8-R, in Hyp mode: the
   * handler gets the HSR (read from CP15, here `hsr`) and a pointer to
   * r0-r5 as a `Frame`, and `eret` returns with the handler's result in
   * r0. Neither ELR_hyp nor SPSR_hyp is saved, so `eret` uses whatever
   * they hold after the handler; there is no alignment step either, so
   * SP at the call is 8-byte aligned only if SP_hyp was on entry.
   */
  method HvcV8r(entry: Cpu, hsr: Word, cfg: FpuConfig, handler: (Word, seq<Word>) -> Word, k: Clobber)
    returns (call: HandlerCall, exit: Cpu)
    requires CurrentMode(entry) == Some(Hyp)
    requires HasRoom(Sp(entry, Hyp))
    ensures call.sp == Sp(entry, Hyp) - 32 - FpuBytes(cfg) && |call.stack| == FpuBytes(cfg) / 4 + 8
    ensures call.r0 == hsr && call.r1 == Addr(Sp(entry, Hyp) - 32) && call.cpsr == entry.cpsr
    ensures call.stack[FpuBytes(cfg) / 4..] == HvcArgs(entry) + [entry.r12, Lr(entry, Hyp)]
    ensures exit.r0 == handler(hsr, HvcArgs(entry))
    ensures exit.r1 == entry.r1 && exit.r2 == entry.r2 && exit.r3 == entry.r3
    ensures exit.r4 == entry.r4 && exit.r5 == entry.r5 && exit.r12 == entry.r12
    ensures Lr(exit, Hyp) == Lr(entry, Hyp) && Sp(exit, Hyp) == Sp(entry, Hyp)
    ensures exit.pc == k.elrHyp && exit.cpsr == k.spsr && exit.elrHyp == k.elrHyp && Spsr(exit, Hyp) == k.spsr
    ensures cfg != NoFpu ==> exit.fpscr == entry.fpscr && exit.fpexc == entry.fpexc
    ensures Untouched(entry, exit) && BanksKept(entry, exit, {HypBank})
  {
    var frame := HvcArgs(entry);
    var sp, regs, r12, lr, fpscr, fpexc;
    call, sp, regs, r12, lr, fpscr, fpexc :=
      HvcCall(Sp(entry, Hyp), frame, entry.r12, Lr(entry, Hyp), hsr, entry.cpsr, entry.fpscr, entry.fpexc, cfg, handler, k);
    exit := HvcExit(entry, sp, regs[0], r12, lr, fpscr, fpexc, k);
  }

  /** The processor after `eret`, once r0 holds `r0` and the rest is popped back. */
  method HvcExit(entry: Cpu, sp: int, r0: Word, r12: Word, lr: Word, fpscr: Word, fpexc: Word, k: Clobber)
    returns (exit: Cpu)
    ensures exit.r0 == r0 && exit.r1 == entry.r1 && exit.r2 == entry.r2 && exit.r3 == entry.r3
    ensures exit.r4 == entry.r4 && exit.r5 == entry.r5 && exit.r12 == r12
    ensures Lr(exit, Hyp) == lr && Sp(exit, Hyp) == sp
    ensures exit.pc == k.elrHyp && exit.cpsr == k.spsr && exit.elrHyp == k.elrHyp && Spsr(exit, Hyp) == k.spsr
    ensures exit.fpscr == fpscr && exit.fpexc == fpexc
    ensures Untouched(entry, exit) && BanksKept(entry, exit, {HypBank, UsrBank})
    ensures lr == Lr(entry, Hyp) ==> BanksKept(entry, exit, {HypBank})
  {
    exit := entry.(r0 := r0, r12 := r12, usr := entry.usr.(lr := lr), hyp := Banked(sp, entry.hyp.lr, k.spsr),
                   elrHyp := k.elrHyp, cpsr := k.spsr, pc := k.elrHyp,  // eret
                   fpscr := fpscr, fpexc := fpexc);
  }

  /**
   * `_asm_default_hvc_handler` for every target: the body above on
   * Armv8-R (`v8r`), and elsewhere `b .`, which never calls the handler
   * and never returns.
   */
  method HvcTrampoline(entry: Cpu, v8r: bool, hsr: Word, cfg: FpuConfig,
                       handler: (Word, seq<Word>) -> Word, k: Clobber)
    returns (call: Option<HandlerCall>, exit: Option<Cpu>)
    requires CurrentMode(entry) == Some(Hyp)
    requires HasRoom(Sp(entry, Hyp))
    ensures !v8r ==> call == None && exit == None
    ensures v8r ==> call.Some? && exit.Some?
    ensures call.Some? ==> call.value.r0 == hsr && call.value.r1 == Addr(Sp(entry, Hyp) - 32)
    ensures exit.Some? ==> exit.value.r0 == handler(hsr, HvcArgs(entry))
    ensures exit.Some? ==> exit.value.pc == k.elrHyp && Sp(exit.value, Hyp) == Sp(entry, Hyp)
  {
    if !v8r {
      return None, None;                               // b .
    }
    var c, e := HvcV8r(entry, hsr, cfg, handler, k);
    call, exit := Some(c), Some(e);
  }
}
