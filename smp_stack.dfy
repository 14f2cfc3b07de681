/**
 * The `_stack_setup` routine of the MPS3-AN536 SMP example: given one
 * stack top in r0, it carves the UND, SVC, ABT, IRQ and FIQ stacks
 * downwards from it, one after the other, and leaves what remains below
 * them to SYS mode. No Hyp stack is carved.
 */
module SmpStack {
  import opened Wrappers
  import opened Machine
  import Boot

  /** The five `_x_stack_size` linker symbols the routine loads, in bytes. */
  datatype StackSizes = StackSizes(und: U32, svc: U32, abt: U32, irq: U32, fiq: U32)

  /** The size of the `i`-th carved stack, in the order UND, SVC, ABT, IRQ, FIQ. */
  function Size(s: StackSizes, i: nat): U32
    requires i < 5
  {
    match i
    case 0 => s.und
    case 1 => s.svc
    case 2 => s.abt
    case 3 => s.irq
    case 4 => s.fiq
  }

  /**
   * The value of r0 when the routine enters the `i`-th mode of
   * `Boot.SETUP_ORDER` (UND first, SYS last), for stack top `t`: each
   * `sub r0, r0, r1` has taken off one stack size, modulo 2^32.
   */
  function Top(t: U32, s: StackSizes, i: nat): U32
    requires i <= 5
  {
    if i == 0 then t else Sub(Top(t, s, i - 1), Size(s, i - 1))
  }

  /** `sub rd, rn, rm` on unsigned 32-bit values: the difference modulo 2^32. */
  function Sub(a: U32, b: U32): U32
  {
    (a - b) % 0x1_0000_0000
  }

  /** The total size of the first `i` carved stacks, as a mathematical integer. */
  function Carved(s: StackSizes, i: nat): nat
    requires i <= 5
  {
    if i == 0 then 0 else Carved(s, i - 1) + Size(s, i - 1)
  }

  /** The five stacks fit below the top without the address wrapping past zero. */
  predicate Fits(t: U32, s: StackSizes)
  {
    Carved(s, 5) <= t
  }

  /**
   * Everything `_stack_setup` leaves behind apart from the CPSR, for the
   * return address `lr` it was called with: the SP of each mode of
   * `Boot.SETUP_ORDER` is `Top` of its position (SYS shares its SP with
   * USR), r0 holds the SYS stack top, r1 and SCTLR hold SCTLR with TE
   * clear, r2 holds `lr`, and the PC is `lr` with bit 0 cleared.
   */
  function SetupState(entry: Cpu, s: StackSizes, lr: Word): Cpu
  {
    var t: U32 := entry.r0 as int;
    var sps := Tops(t, s);
    assert |sps| == 6;
    Carve(entry, sps, lr)
  }

  /** The SPs of the modes of `Boot.SETUP_ORDER`, in that order. */
  function Tops(t: U32, s: StackSizes): (sps: seq<U32>)
    ensures |sps| == |Boot.SETUP_ORDER| && forall i :: 0 <= i < |sps| ==> sps[i] == Top(t, s, i)
  {
    seq(6, i requires 0 <= i < 6 => Top(t, s, i))
  }

  /**
   * The processor after the routine has given the modes of
   * `Boot.SETUP_ORDER` the SPs `sps`, in order, left the last of them in
   * r0, cleared SCTLR.TE through r1, and branched to `lr` kept in r2.
   */
  function Carve(entry: Cpu, sps: seq<U32>, lr: Word): (r: Cpu)
    requires |sps| == |Boot.SETUP_ORDER|
    ensures r.und.sp == sps[0] && r.svc.sp == sps[1] && r.abt.sp == sps[2]
            && r.irq.sp == sps[3] && r.fiq.sp == sps[4] && r.usr.sp == sps[5]
    ensures r.r1 == r.sys.sctlr && r.r2 == lr && r.pc == lr & 0xFFFF_FFFE
    ensures r.sys.sctlr & Boot.TeBit == 0 && r.sys.(sctlr := entry.sys.sctlr) == entry.sys
    ensures r.hyp == entry.hyp && r.cpsr == entry.cpsr && r.mem == entry.mem
  {
    var sctlr := entry.sys.sctlr & !Boot.TeBit;
    assert sctlr & Boot.TeBit == 0;
    entry.(und := entry.und.(sp := sps[0]), svc := entry.svc.(sp := sps[1]),
           abt := entry.abt.(sp := sps[2]), irq := entry.irq.(sp := sps[3]),
           fiq := entry.fiq.(sp := sps[4]), usr := entry.usr.(sp := sps[5]),
           r0 := sps[5] as Word, r1 := sctlr, r2 := lr, sys := entry.sys.(sctlr := sctlr), pc := lr & 0xFFFF_FFFE)
  }

  /** `msr cpsr_c, {m_mode}`: enter mode `m` with IRQ and FIQ masked and Arm state. */
  method Enter(psr: Word, m: Mode) returns (r: Word, control: Word)
    ensures control == MaskedControl(m)
    ensures r & 0xFF == control && r & 0xFFFF_FF00 == psr & 0xFFFF_FF00
  {
    control := MaskedControl(m);
    r := MsrControl(psr, control);
  }

  /**
   * The CPSR side of `_stack_setup`: the six `msr cpsr_c` write the
   * control bytes of `Boot.SETUP_ORDER` with IRQ and FIQ masked (`sub`
   * leaves the flags alone), and `bx r2` from SYS mode returns with
   * `SysReturnCpsr`.
   */
  method SetupCpsr(psr: Word, lr: Word) returns (r: Word, switches: seq<Word>)
    ensures switches == Boot.SetupControls()
    ensures SysReturnCpsr(r, psr, lr)
  {
    var c1, c2, c3, c4, c5, c6;
    r, c1 := Enter(psr, Und);
    r, c2 := Enter(r, Svc);
    r, c3 := Enter(r, Abt);
    r, c4 := Enter(r, Irq);
    r, c5 := Enter(r, Fiq);
    r, c6 := Enter(r, Sys);
    switches := [c1, c2, c3, c4, c5, c6];
    var upper := r;
    Boot.UpperBitsKept(psr, upper);
    r := Boot.ReturnFromSetup(r, lr);                  // bx r2
  }

  /**
   * `_stack_setup` with the stack top in r0, called from a PL1 mode: the
   * control bytes the six `msr cpsr_c` write are those of `Boot.SETUP_ORDER`
   * with IRQ and FIQ masked, the state is `SetupState`, and the CPSR is
   * that of `bx r2` from SYS mode with the entry LR in r2.
   */
  method StackSetup(entry: Cpu, s: StackSizes) returns (exit: Cpu, switches: seq<Word>)
    requires Boot.Pl1(entry)
    ensures switches == Boot.SetupControls()
    ensures exit == SetupState(entry, s, Boot.CurrentLr(entry)).(cpsr := exit.cpsr)
    ensures SysReturnCpsr(exit.cpsr, entry.cpsr, Boot.CurrentLr(entry))
  {
    var r2 := Boot.CurrentLr(entry);                  // mov r2, lr
    var psr;
    psr, switches := SetupCpsr(entry.cpsr, r2);       // the six `msr cpsr_c` and `bx r2`
    var t: U32 := entry.r0 as int;
    var r0 := t;
    var spUnd := r0;                                   // msr cpsr_c, {und_mode}; mov sp, r0
    r0 := Sub(r0, s.und);                              // ldr r1, =_und_stack_size; sub r0, r0, r1
    var spSvc := r0;
    r0 := Sub(r0, s.svc);
    var spAbt := r0;
    r0 := Sub(r0, s.abt);
    var spIrq := r0;
    r0 := Sub(r0, s.irq);
    var spFiq := r0;
    r0 := Sub(r0, s.fiq);
    var spSys := r0;
    var sps := [spUnd, spSvc, spAbt, spIrq, spFiq, spSys];
    assert sps == [Top(t, s, 0), Top(t, s, 1), Top(t, s, 2), Top(t, s, 3), Top(t, s, 4), Top(t, s, 5)];
    TopsInOrder(t, s, sps);
    // mrc p15, 0, r1, c1, c0, 0; bic r1, #te_bit; mcr p15, 0, r1, c1, c0, 0; bx r2
    exit := Carve(entry, sps, r2).(cpsr := psr);
  }

  /** A 32-bit subtraction that does not borrow is the integer subtraction. */
  lemma SubNoBorrow(a: U32, b: U32)
    requires b <= a
    ensures Sub(a, b) == a - b
  {
  }

  /**
   * When the stacks fit, no subtraction wraps: the `i`-th mode's SP is the
   * top less the sizes of the stacks carved before it.
   */
  lemma {:induction false} TopExact(t: U32, s: StackSizes, i: nat)
    requires i <= 5 && Fits(t, s)
    ensures Top(t, s, i) == t - Carved(s, i)
  {
    if i > 0 {
      TopExact(t, s, i - 1);
      CarvedMonotone(s, i, 5);
      SubNoBorrow(Top(t, s, i - 1), Size(s, i - 1));
    }
  }

  lemma {:induction false} CarvedMonotone(s: StackSizes, i: nat, j: nat)
    requires i <= j <= 5
    ensures Carved(s, i) <= Carved(s, j)
    decreases j - i
  {
    if i < j {
      CarvedMonotone(s, i + 1, j);
    }
  }

  /**
   * Consecutive stacks abut: the `i`-th carved stack occupies
   * `[Top(i+1), Top(i))`, exactly `Size(i)` bytes, and the next mode's SP
   * is its low end, so there is neither a gap nor an overlap.
   */
  lemma StacksAbut(t: U32, s: StackSizes, i: nat)
    requires i < 5 && Fits(t, s)
    ensures Size(s, i) <= Top(t, s, i)
    ensures Top(t, s, i + 1) == Top(t, s, i) - Size(s, i)
  {
    TopExact(t, s, i);
    TopExact(t, s, i + 1);
  }

  /**
   * The carved stacks are disjoint and lie in order below the top: a later
   * mode's SP is at or below the low end of every earlier carved stack,
   * and the SYS stack starts below all of them.
   */
  lemma StacksDisjoint(t: U32, s: StackSizes, i: nat, j: nat)
    requires i < j <= 5 && Fits(t, s)
    ensures Top(t, s, j) <= Top(t, s, i) - Size(s, i)
    ensures Top(t, s, i) <= t
  {
    TopExact(t, s, i);
    TopExact(t, s, j);
    CarvedMonotone(s, i + 1, j);
  }

  /** Between them the five carved stacks take exactly the sum of their sizes below the top. */
  lemma CarvedSpan(t: U32, s: StackSizes)
    requires Fits(t, s)
    ensures t - Top(t, s, 5) == s.und + s.svc + s.abt + s.irq + s.fiq
  {
    TopExact(t, s, 5);
    assert Carved(s, 5) == Carved(s, 4) + s.fiq;
    assert Carved(s, 4) == Carved(s, 3) + s.irq;
    assert Carved(s, 3) == Carved(s, 2) + s.abt;
    assert Carved(s, 2) == Carved(s, 1) + s.svc;
    assert Carved(s, 1) == s.und;
  }

  /**
   * What the caller of `_stack_setup` sees: every mode the routine visits
   * has its SP at `Top` of its position in `Boot.SETUP_ORDER`, the Hyp bank
   * is as on entry, SCTLR.TE is clear with every other SCTLR bit kept, and
   * execution continues in SYS mode with IRQ and FIQ masked at the entry
   * LR (Thumb state exactly when its bit 0 is set).
   */
  lemma SetupOutcome(entry: Cpu, s: StackSizes, exit: Cpu)
    requires Boot.Pl1(entry)
    requires exit == SetupState(entry, s, Boot.CurrentLr(entry)).(cpsr := exit.cpsr)
    requires SysReturnCpsr(exit.cpsr, entry.cpsr, Boot.CurrentLr(entry))
    ensures forall i :: 0 <= i < |Boot.SETUP_ORDER| ==> Sp(exit, Boot.SETUP_ORDER[i]) == Top(entry.r0 as int, s, i)
    ensures exit.hyp == entry.hyp
    ensures exit.sys.sctlr & Boot.TeBit == 0 && exit.sys.sctlr | Boot.TeBit == entry.sys.sctlr | Boot.TeBit
    ensures CurrentMode(exit) == Some(Sys) && exit.cpsr & 0xC0 == 0xC0
    ensures exit.pc == Boot.CurrentLr(entry) & 0xFFFF_FFFE && exit.r2 == Boot.CurrentLr(entry)
    ensures exit.cpsr & ThumbBit != 0 <==> Boot.CurrentLr(entry) & 1 == 1
  {
    var lr := Boot.CurrentLr(entry);
    SysReturnMode(exit.cpsr, entry.cpsr, lr);
    SetupSps(entry, s, lr, exit);
    TeCleared(entry.sys.sctlr);
  }

  /** The SPs `SetupState` gives the modes of `Boot.SETUP_ORDER`, whatever the CPSR. */
  lemma SetupSps(entry: Cpu, s: StackSizes, lr: Word, exit: Cpu)
    requires exit == SetupState(entry, s, lr).(cpsr := exit.cpsr)
    ensures forall i :: 0 <= i < |Boot.SETUP_ORDER| ==> Sp(exit, Boot.SETUP_ORDER[i]) == Top(entry.r0 as int, s, i)
  {
    CarvedSps(entry, Tops(entry.r0 as int, s), lr, exit);
  }

  /** The six tops listed in order are `Tops`. */
  lemma TopsInOrder(t: U32, s: StackSizes, sps: seq<U32>)
    requires sps == [Top(t, s, 0), Top(t, s, 1), Top(t, s, 2), Top(t, s, 3), Top(t, s, 4), Top(t, s, 5)]
    ensures sps == Tops(t, s)
  {
    var tops := Tops(t, s);
    assert sps[0] == tops[0] && sps[1] == tops[1] && sps[2] == tops[2];
    assert sps[3] == tops[3] && sps[4] == tops[4] && sps[5] == tops[5];
  }

  /** `Carve` gives the `i`-th mode of `Boot.SETUP_ORDER` the `i`-th SP. */
  lemma CarvedSps(entry: Cpu, sps: seq<U32>, lr: Word, exit: Cpu)
    requires |sps| == |Boot.SETUP_ORDER|
    requires exit == Carve(entry, sps, lr).(cpsr := exit.cpsr)
    ensures forall i :: 0 <= i < |Boot.SETUP_ORDER| ==> Sp(exit, Boot.SETUP_ORDER[i]) == sps[i]
  {
    assert exit.und.sp == sps[0] && exit.svc.sp == sps[1] && exit.abt.sp == sps[2]
        && exit.irq.sp == sps[3] && exit.fiq.sp == sps[4] && exit.usr.sp == sps[5];
  }

  /** `bic r1, #te_bit` clears TE and keeps every other bit. */
  lemma TeCleared(v: Word)
    ensures (v & !Boot.TeBit) & Boot.TeBit == 0
    ensures (v & !Boot.TeBit) | Boot.TeBit == v | Boot.TeBit
  {
  }
}
