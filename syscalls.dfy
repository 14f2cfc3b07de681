/**
 * The SVC handlers of the two syscall examples: the Versatile AB one and
 * the MPS3-AN536 one. Each handler gets the SVC number and the `Frame` of
 * r0-r5 that the trampoline saved. It returns 0x1000_0000 with the first
 * arguments added in, argument k shifted left by 4k bits. Any number it does
 * not know gets 0xDEAD_C0DE.
 *
 * The sums are `u32` additions. In a debug build an addition that
 * overflows panics, and the model gives `None` for that panic. The shifts
 * are `u32` shifts, which drop the bits shifted past bit 31 and never
 * panic.
 */
module Syscalls {
  import opened Wrappers
  import opened Machine

  /** `aarch32_rt::Frame`: r0-r5 as the trampoline saved them. */
  datatype Frame = Frame(r0: U32, r1: U32, r2: U32, r3: U32, r4: U32, r5: U32)

  /**
   * `x << s` on a `u32`, given the multiplier `scale` = 2^s: the bits
   * shifted past bit 31 are dropped.
   */
  function Shl(x: U32, scale: nat): U32
  {
    (x * scale) % 0x1_0000_0000
  }

  /** The value every accepted call starts from. */
  const Base: nat := 0x1000_0000

  /** What both handlers return for an SVC number they do not know. */
  const Unknown: U32 := 0xDEAD_C0DE

  /** Argument `k` moved into its nibble: `frame.rk << 4k` as a `u32`. */
  function Term(f: Frame, k: nat): nat
    requires k < 6
  {
    match k
    case 0 => f.r0
    case 1 => Shl(f.r1, 0x10)
    case 2 => Shl(f.r2, 0x100)
    case 3 => Shl(f.r3, 0x1000)
    case 4 => Shl(f.r4, 0x1_0000)
    case 5 => Shl(f.r5, 0x10_0000)
  }

  /** The sum of the first `n` terms, with no wrap-around. */
  function Sum(f: Frame, n: nat): nat
    requires n <= 6
  {
    if n == 0 then 0 else Sum(f, n - 1) + Term(f, n - 1)
  }

  /** A sum that fits in 32 bits, or `None` for the overflow panic. */
  function Checked(total: nat): (r: Option<U32>)
    ensures r.Some? <==> total < 0x1_0000_0000
    ensures r.Some? ==> r.value == total
  {
    if total < 0x1_0000_0000 then Some(total) else None
  }

  /** The result the doc comment of each example promises for `n` arguments. */
  function Formula(f: Frame, n: nat): Option<U32>
    requires n <= 6
  {
    Checked(Base + Sum(f, n))
  }

  /**
   * How many arguments the Versatile AB handler adds in for a number that
   * passed its mask test: one per `arg >= 0xF1` ... `arg >= 0xF6` test
   * that holds.
   */
  function ArgCount(arg: Word): (n: nat)
    ensures n <= 6
  {
    if arg >= 0xF6 then 6
    else if arg >= 0xF5 then 5
    else if arg >= 0xF4 then 4
    else if arg >= 0xF3 then 3
    else if arg >= 0xF2 then 2
    else if arg >= 0xF1 then 1
    else 0
  }

  /** The Versatile AB handler as a value: the mask test, then the sum of `ArgCount(arg)` terms. */
  function VersatileResult(arg: Word, f: Frame): Option<U32>
  {
    if arg & 0xF8 != 0xF0 then Some(Unknown) else Formula(f, ArgCount(arg))
  }

  /**
   * The Versatile AB `svc_handler`. It rejects a number whose bits 3-7 are
   * not `0b11110`. Then it adds the terms from r5 down to r0 into `output`
   * with guarded `+=` steps, and each step panics (`None`) if the `u32`
   * addition overflows.
   */
  method VersatileSvcHandler(arg: Word, frame: Frame) returns (r: Option<U32>)
    ensures r == VersatileResult(arg, frame)
  {
    if arg & 0xF8 != 0xF0 {
      return Some(Unknown);
    }
    SumUnrolled(frame, ArgCount(arg));
    var output: nat := Base;
    if arg >= 0xF6 {
      output := output + Term(frame, 5);
      if output >= 0x1_0000_0000 { return None; }
    }
    if arg >= 0xF5 {
      output := output + Term(frame, 4);
      if output >= 0x1_0000_0000 { return None; }
    }
    if arg >= 0xF4 {
      output := output + Term(frame, 3);
      if output >= 0x1_0000_0000 { return None; }
    }
    if arg >= 0xF3 {
      output := output + Term(frame, 2);
      if output >= 0x1_0000_0000 { return None; }
    }
    if arg >= 0xF2 {
      output := output + Term(frame, 1);
      if output >= 0x1_0000_0000 { return None; }
    }
    if arg >= 0xF1 {
      output := output + Term(frame, 0);
      if output >= 0x1_0000_0000 { return None; }
    }
    r := Some(output);
  }

  /** `Sum` written out term by term from the top, in the order the handler adds. */
  lemma SumUnrolled(f: Frame, n: nat)
    requires n <= 6
    ensures n == 6 ==> Sum(f, n) == Term(f, 5) + Term(f, 4) + Term(f, 3) + Term(f, 2) + Term(f, 1) + Term(f, 0)
    ensures n == 5 ==> Sum(f, n) == Term(f, 4) + Term(f, 3) + Term(f, 2) + Term(f, 1) + Term(f, 0)
    ensures n == 4 ==> Sum(f, n) == Term(f, 3) + Term(f, 2) + Term(f, 1) + Term(f, 0)
    ensures n == 3 ==> Sum(f, n) == Term(f, 2) + Term(f, 1) + Term(f, 0)
    ensures n == 2 ==> Sum(f, n) == Term(f, 1) + Term(f, 0)
    ensures n == 1 ==> Sum(f, n) == Term(f, 0)
  {
  }

  /**
   * Which numbers pass the mask: exactly 0xF0 to 0xF7 in the low byte,
   * whatever the bits above bit 7.
   */
  lemma MaskAccepts(arg: Word)
    ensures arg & 0xF8 == 0xF0 <==> 0xF0 <= arg & 0xFF <= 0xF7
  {
  }

  /**
   * Below 0x100 the handler adds `arg - 0xF0` arguments, and 0xF7 adds the
   * same six as 0xF6.
   */
  lemma VersatileArgCount(arg: Word)
    requires arg & 0xF8 == 0xF0 && arg < 0x100
    ensures ArgCount(arg) == if arg == 0xF7 then 6 else (arg - 0xF0) as nat
  {
  }

  /** 0xF7 passes the mask and gives the same result as 0xF6. */
  lemma SevenLikeSix(f: Frame)
    ensures VersatileResult(0xF7, f) == VersatileResult(0xF6, f)
  {
  }

  /**
   * Any number above 0xFF whose low byte is 0xF0 to 0xF7 also passes the
   * mask, and since it is `>= 0xF6` it adds all six arguments. An Arm SVC
   * has room for such numbers (`imm24`).
   */
  lemma WideNumberAddsAll(arg: Word, f: Frame)
    requires arg >= 0x100 && 0xF0 <= arg & 0xFF <= 0xF7
    ensures VersatileResult(arg, f) == Formula(f, 6)
  {
  }

  /** Rejected numbers give 0xDEAD_C0DE whatever the frame. */
  lemma VersatileRejects(arg: Word, f: Frame)
    requires !(0xF0 <= arg & 0xFF <= 0xF7)
    ensures VersatileResult(arg, f) == Some(Unknown)
  {
    MaskAccepts(arg);
  }

  /** A sum of `n` terms reads only the first `n` registers of the frame. */
  lemma {:induction false} SumReadsPrefix(f: Frame, g: Frame, n: nat)
    requires n <= 6
    requires forall k :: 0 <= k < n ==> Term(f, k) == Term(g, k)
    ensures Sum(f, n) == Sum(g, n)
  {
    if n > 0 {
      SumReadsPrefix(f, g, n - 1);
    }
  }

  /** The registers at and above `ArgCount(arg)` do not affect the Versatile AB result. */
  lemma VersatileIgnoresRest(arg: Word, f: Frame, g: Frame)
    requires forall k :: 0 <= k < ArgCount(arg) ==> Term(f, k) == Term(g, k)
    ensures VersatileResult(arg, f) == VersatileResult(arg, g)
  {
    SumReadsPrefix(f, g, ArgCount(arg));
  }

  /** The test vector r0..r5 = 0xE000_0001..0xE000_0006. */
  const TestFrame: Frame := Frame(0xE000_0001, 0xE000_0002, 0xE000_0003, 0xE000_0004, 0xE000_0005, 0xE000_0006)

  /** The values the Versatile AB example expects from 0xF6 down to 0xF0. */
  lemma VersatileTestVectors()
    ensures VersatileResult(0xF6, TestFrame) == Some(0xF065_4321)
    ensures VersatileResult(0xF5, TestFrame) == Some(0xF005_4321)
    ensures VersatileResult(0xF4, TestFrame) == Some(0xF000_4321)
    ensures VersatileResult(0xF3, TestFrame) == Some(0xF000_0321)
    ensures VersatileResult(0xF2, TestFrame) == Some(0xF000_0021)
    ensures VersatileResult(0xF1, TestFrame) == Some(0xF000_0001)
    ensures VersatileResult(0xF0, TestFrame) == Some(0x1000_0000)
  {
    assert Term(TestFrame, 0) == 0xE000_0001;
    assert Term(TestFrame, 1) == 0x20;
    assert Term(TestFrame, 2) == 0x300;
    assert Term(TestFrame, 3) == 0x4000;
    assert Term(TestFrame, 4) == 0x5_0000;
    assert Term(TestFrame, 5) == 0x60_0000;
  }

  /**
   * The MPS3-AN536 `svc_handler`: a `match` on the number with arms for
   * 0xF0 to 0xF4, each a left-to-right `u32` sum that panics (`None`) on
   * overflow, and 0xDEAD_C0DE for any other number.
   */
  function Mps3SvcHandler(arg: Word, f: Frame): (r: Option<U32>)
    ensures !(0xF0 <= arg <= 0xF4) ==> r == Some(Unknown)
    ensures r.None? ==> 0xF1 <= arg <= 0xF4
  {
    match arg
    case 0xF0 => Some(0x1000_0000)
    case 0xF1 => Checked(Base + f.r0)
    case 0xF2 => AddChecked(Checked(Base + f.r0), Shl(f.r1, 0x10))
    case 0xF3 => AddChecked(AddChecked(Checked(Base + f.r0), Shl(f.r1, 0x10)), Shl(f.r2, 0x100))
    case 0xF4 => AddChecked(AddChecked(AddChecked(Checked(Base + f.r0), Shl(f.r1, 0x10)), Shl(f.r2, 0x100)),
                            Shl(f.r3, 0x1000))
    case _ => Some(Unknown)
  }

  /** One more checked `u32` addition after the ones before it; a panic stays a panic. */
  function AddChecked(acc: Option<U32>, t: nat): (r: Option<U32>)
    ensures acc.None? ==> r.None?
  {
    if acc.None? then None else Checked(acc.value + t)
  }

  /** For 0xF0 to 0xF4 the MPS3-AN536 handler computes the documented formula. */
  lemma Mps3Formula(arg: Word, f: Frame)
    requires 0xF0 <= arg <= 0xF4
    ensures Mps3SvcHandler(arg, f) == Formula(f, (arg - 0xF0) as nat)
  {
    SumUnrolled(f, (arg - 0xF0) as nat);
  }

  /** `frame.r4` and `frame.r5` are never read. */
  lemma Mps3IgnoresR4R5(arg: Word, f: Frame, r4: U32, r5: U32)
    ensures Mps3SvcHandler(arg, f) == Mps3SvcHandler(arg, f.(r4 := r4, r5 := r5))
  {
  }

  /**
   * The two handlers agree on 0xF0 to 0xF4, overflow panics included,
   * although one adds from r0 upwards and the other from the top down.
   */
  lemma HandlersAgree(arg: Word, f: Frame)
    requires 0xF0 <= arg <= 0xF4
    ensures Mps3SvcHandler(arg, f) == VersatileResult(arg, f)
  {
    Mps3Formula(arg, f);
  }

  /** The values the MPS3-AN536 example expects from 0xF4 down to 0xF0. */
  lemma Mps3TestVectors()
    ensures Mps3SvcHandler(0xF4, TestFrame) == Some(0xF000_4321)
    ensures Mps3SvcHandler(0xF3, TestFrame) == Some(0xF000_0321)
    ensures Mps3SvcHandler(0xF2, TestFrame) == Some(0xF000_0021)
    ensures Mps3SvcHandler(0xF1, TestFrame) == Some(0xF000_0001)
    ensures Mps3SvcHandler(0xF0, TestFrame) == Some(0x1000_0000)
  {
  }
}
