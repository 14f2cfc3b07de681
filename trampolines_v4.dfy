/**
 * The default exception trampolines for Armv4 to Armv6
 * (`aarch32-rt/src/arch_v4`). These cores have no `srs`/`rfe`: the
 * trampoline pushes the SPSR itself, writes it back with `msr` before
 * returning, and returns with `movs pc, lr` or an `ldm` with `^`, which
 * copy the SPSR into the CPSR. The registers around the handler call are
 * kept by `save_context!`/`restore_context!` (a `SavedContext`).
 */
module TrampolinesV4 {
  import opened Wrappers
  import opened Machine
  import opened SvcNumbers

  /**
   * `msr spsr, rX`: with no field suffix the assembler writes the flags
   * and control fields (bits 24-31 and 0-7) and keeps bits 8-23 of the
   * SPSR as they are.
   */
  function MsrSpsrFc(spsr: Word, v: Word): (r: Word)
    ensures r & 0xFF00_00FF == v & 0xFF00_00FF
    ensures r & 0x00FF_FF00 == spsr & 0x00FF_FF00
  {
    var kept, written := spsr & 0x00FF_FF00, v & 0xFF00_00FF;
    assert kept & 0xFF00_00FF == 0 && written & 0x00FF_FF00 == 0;
    kept | written
  }

  /** Writing an SPSR's own flags and control fields back over it changes nothing. */
  lemma MsrSpsrFcSame(spsr: Word)
    ensures MsrSpsrFc(spsr, spsr) == spsr
  {
    var r := MsrSpsrFc(spsr, spsr);
    assert r == (r & 0xFF00_00FF) | (r & 0x00FF_FF00);
    assert spsr == (spsr & 0xFF00_00FF) | (spsr & 0x00FF_FF00);
  }

  /**
   * The CPSR control byte for mode `m` with IRQ masked and FIQ unmasked,
   * Arm state: `Cpsr::new_with_raw_value(0).with_mode(m).with_i(true)`.
   */
  function IrqMaskedControl(m: Mode): (r: Word)
    ensures ModeOf(r) == Some(m)
    ensures r & IBit != 0 && r & FBit == 0 && r & ThumbBit == 0 && r & 0xFFFF_FF00 == 0
  {
    ModeBits(m) | IBit
  }

  /**
   * `_asm_default_data_abort_handler` (`offset` 8) and
   * `_asm_default_prefetch_abort_handler` (`offset` 4). LR_abt is moved
   * back by `offset` with `subs` (which also sets the flags), r0 and
   * SPSR_abt are pushed, the handler gets the adjusted address and its
   * result becomes LR, SPSR_abt is written back from the stack and
   * `movs pc, lr` resumes at the handler's result.
   */
  method AbortTrampoline(entry: Cpu, offset: Word, ctx: SavedContext, handler: Word -> Word, k: Clobber)
    returns (call: HandlerCall, exit: Cpu)
    requires CurrentMode(entry) == Some(Abt)
    requires HasRoom(Sp(entry, Abt)) && ctx.bytes % 4 == 0
    ensures call.r0 == Lr(entry, Abt) - offset && call.r1 == ctx.frame
    ensures call.cpsr == SubsPsr(entry.cpsr, Lr(entry, Abt), offset)
    ensures IsSuffix([Spsr(entry, Abt), entry.r0], call.stack)
    ensures exit.pc == handler(call.r0) && Lr(exit, Abt) == handler(call.r0)
    ensures Spsr(exit, Abt) == MsrSpsrFc(k.spsr, Spsr(entry, Abt)) && exit.cpsr == Spsr(exit, Abt)
    ensures k.spsr == Spsr(entry, Abt) ==> exit.cpsr == Spsr(entry, Abt)
    ensures Sp(exit, Abt) == Sp(entry, Abt) && exit.r0 == entry.r0
    ensures exit.r1 == ctx.r1 && exit.r2 == ctx.r2 && exit.r3 == ctx.r3 && exit.r12 == ctx.r12
    ensures exit.elrHyp == entry.elrHyp
    ensures Untouched(entry, exit) && BanksKept(entry, exit, {AbtBank})
  {
    var lr := Lr(entry, Abt) - offset;                 // subs lr, lr, #offset
    var psr := SubsPsr(entry.cpsr, Lr(entry, Abt), offset);
    var st := Stack(Sp(entry, Abt), []).Push(entry.r0);  // stmfd sp!, {r0}
    st := st.Push(Spsr(entry, Abt));                   // mrs r0, spsr; stmfd sp!, {r0}
    assert st.words == [Spsr(entry, Abt), entry.r0];
    var saved := st.Reserve(ctx.bytes);                // save_context!
    assert saved.words[|saved.words| - 2..] == st.words;
    call := HandlerCall(lr, ctx.frame, saved.sp, psr, saved.words);  // mov r0, lr; bl
    lr := handler(lr);                                 // mov lr, r0
    st := saved.Drop(ctx.bytes);                       // restore_context!
    var spsr := MsrSpsrFc(k.spsr, st.words[0]);        // ldmia sp!, {r0}; msr spsr, r0
    var r0 := st.words[1];                             // ldmia sp!, {r0}
    st := st.Drop(8);
    MsrSpsrFcSame(Spsr(entry, Abt));
    exit := Resume(entry, r0, ctx.r1, ctx.r2, ctx.r3, ctx.r12, AbtBank, Banked(st.sp, lr, spsr),
                   spsr, lr, entry.elrHyp, ctx.fpscr, ctx.fpexc);   // movs pc, lr
  }

  /**
   * `_asm_default_svc_handler`: r0 and LR_svc, then SPSR_svc, are pushed;
   * the handler gets the SVC number; SPSR_svc is restored in full
   * (`msr spsr_cxsf`) and `ldmfd sp!, {r0, pc}^` returns to the
   * instruction after the SVC with the r0 pushed at entry.
   */
  method SvcTrampoline(entry: Cpu, ctx: SavedContext, k: Clobber)
    returns (call: HandlerCall, exit: Cpu)
    requires CurrentMode(entry) == Some(Svc)
    requires HasRoom(Sp(entry, Svc)) && ctx.bytes % 4 == 0
    ensures call.r0 == SvcNumber(entry.mem, Lr(entry, Svc), Spsr(entry, Svc)) && call.r1 == ctx.frame
    ensures call.cpsr == TstPsr(entry.cpsr, Spsr(entry, Svc), ThumbBit)
    ensures IsSuffix([Spsr(entry, Svc), entry.r0, Lr(entry, Svc)], call.stack)
    ensures exit.pc == Lr(entry, Svc) && exit.cpsr == Spsr(entry, Svc) && Spsr(exit, Svc) == Spsr(entry, Svc)
    ensures Sp(exit, Svc) == Sp(entry, Svc) && Lr(exit, Svc) == k.lr
    ensures exit.r0 == entry.r0 && exit.r1 == ctx.r1 && exit.r2 == ctx.r2 && exit.r3 == ctx.r3 && exit.r12 == ctx.r12
    ensures exit.elrHyp == entry.elrHyp
    ensures Untouched(entry, exit) && BanksKept(entry, exit, {SvcBank})
  {
    var st := Stack(Sp(entry, Svc), []).PushList([entry.r0, Lr(entry, Svc)]);  // stmfd sp!, {r0, lr}
    st := st.Push(Spsr(entry, Svc));                   // mrs r0, spsr; stmfd sp!, {r0}
    assert st.words == [Spsr(entry, Svc), entry.r0, Lr(entry, Svc)];
    var saved := st.Reserve(ctx.bytes);                // save_context!
    assert saved.words[|saved.words| - 3..] == st.words;
    var tested := TstPsr(entry.cpsr, Spsr(entry, Svc), ThumbBit);   // mrs r0, spsr; tst r0, {t_bit}
    var r0 := SvcNumber(entry.mem, Lr(entry, Svc), Spsr(entry, Svc));
    call := HandlerCall(r0, ctx.frame, saved.sp, tested, saved.words);  // bl _svc_handler
    st := saved.Drop(ctx.bytes);                       // restore_context!
    var spsr := st.words[0];                           // ldmfd sp!, {r0}; msr spsr_cxsf, r0
    var pc;
    r0, pc := st.words[1], st.words[2];                // ldmfd sp!, {r0, pc}^
    st := st.Drop(12);
    exit := Resume(entry, r0, ctx.r1, ctx.r2, ctx.r3, ctx.r12, SvcBank, Banked(st.sp, k.lr, spsr),
                   spsr, pc, entry.elrHyp, ctx.fpscr, ctx.fpexc);
  }

  /**
   * The IRQ-stack part of the IRQ trampoline: `stmfd sp!, {lr}` of the
   * return address, `mrs lr, spsr; stmfd sp!, {lr}` on the way in, and on
   * the way out `ldmia sp!, {lr}; msr spsr, lr` (with SPSR_irq then
   * holding `spsrNow`) and the PC loaded by `ldmfd sp!, {pc}^`.
   */
  method IrqStackFrame(sp: int, lr: Word, spsr: Word, spsrNow: Word)
    returns (sp': int, lr': Word, pc: Word, spsr': Word)
    ensures sp' == sp && lr' == spsr && pc == lr && spsr' == MsrSpsrFc(spsrNow, spsr)
  {
    var st := Stack(sp, []).Push(lr);                  // stmfd sp!, {lr}
    st := st.Push(spsr);                               // mrs lr, spsr; stmfd sp!, {lr}
    // the handler runs on the System-mode stack in between
    lr', st := st.words[0], st.Drop(4);                // ldmia sp!, {lr}
    spsr' := MsrSpsrFc(spsrNow, lr');                  // msr spsr, lr
    pc, st := st.words[0], st.Drop(4);                 // ldmfd sp!, {pc}^
    sp' := st.sp;
  }

  /**
   * `_asm_default_irq_handler`: LR_irq - 4 and SPSR_irq are pushed on the
   * IRQ stack, `msr cpsr_c` moves to System mode with IRQ masked (and FIQ
   * unmasked), the handler is called on the System-mode stack, `msr
   * cpsr_c` moves back to IRQ mode with IRQ masked (`back`), SPSR_irq is
   * written back from the stack through LR_irq, and `ldmfd sp!, {pc}^`
   * resumes at LR_irq - 4.
   */
  method IrqTrampoline(entry: Cpu, ctx: SavedContext, k: Clobber)
    returns (call: HandlerCall, back: Word, exit: Cpu)
    requires CurrentMode(entry) == Some(Irq)
    requires HasRoom(Sp(entry, Irq)) && HasRoom(Sp(entry, Sys)) && ctx.bytes % 4 == 0
    ensures call.cpsr == MsrControl(entry.cpsr, IrqMaskedControl(Sys))
    ensures ModeOf(call.cpsr) == Some(Sys) && call.cpsr & IBit != 0 && call.cpsr & FBit == 0
    ensures call.r1 == ctx.frame && call.sp == Sp(entry, Sys) - ctx.bytes
    ensures ModeOf(back) == Some(Irq) && back & IBit != 0
    ensures exit.pc == Lr(entry, Irq) - 4
    ensures Spsr(exit, Irq) == MsrSpsrFc(k.spsr, Spsr(entry, Irq)) && exit.cpsr == Spsr(exit, Irq)
    ensures k.spsr == Spsr(entry, Irq) ==> exit.cpsr == Spsr(entry, Irq)
    ensures Sp(exit, Irq) == Sp(entry, Irq) && Lr(exit, Irq) == Spsr(entry, Irq)
    ensures Sp(exit, Sys) == Sp(entry, Sys) && Lr(exit, Sys) == k.lr
    ensures exit.r0 == ctx.r0 && exit.r1 == ctx.r1 && exit.r2 == ctx.r2 && exit.r3 == ctx.r3 && exit.r12 == ctx.r12
    ensures exit.elrHyp == entry.elrHyp
    ensures Untouched(entry, exit) && BanksKept(entry, exit, {IrqBank, UsrBank})
  {
    var lr := Lr(entry, Irq) - 4;                      // sub lr, lr, 4
    var psr := MsrControl(entry.cpsr, IrqMaskedControl(Sys));  // msr cpsr_c, #sys_mode
    var saved := Stack(Sp(entry, Sys), []).Reserve(ctx.bytes);  // save_context! on SP_sys
    call := HandlerCall(0, ctx.frame, saved.sp, psr, saved.words);  // bl _irq_handler (no argument)
    var sysStack := saved.Drop(ctx.bytes);             // restore_context!
    back := MsrControl(PsrAfterCall(psr, k), IrqMaskedControl(Irq));  // msr cpsr_c, #irq_mode
    var spIrq, lrIrq, pc, spsr := IrqStackFrame(Sp(entry, Irq), lr, Spsr(entry, Irq), k.spsr);
    MsrSpsrFcSame(Spsr(entry, Irq));
    exit := Resume(entry, ctx.r0, ctx.r1, ctx.r2, ctx.r3, ctx.r12, IrqBank, Banked(spIrq, lrIrq, spsr),
                   spsr, pc, entry.elrHyp, ctx.fpscr, ctx.fpexc);
    exit := exit.(usr := Banked(sysStack.sp, k.lr, entry.usr.spsr));
  }
}
