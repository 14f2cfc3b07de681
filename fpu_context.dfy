/**
 * The FPU context that the exception trampolines save around a handler
 * call: nothing without an FPU, or D0-D7 (and D16-D31 on a D32 unit)
 * followed by FPSCR and FPEXC. D8-D15 are callee-saved under the EABI and
 * are left to the handler. The contents of the D registers are not
 * modelled: a `vpush` reserves untracked words and a `vpop` drops them.
 */
module FpuContext {
  import opened Machine

  datatype FpuConfig = NoFpu | D16 | D32

  /** Bytes pushed by the save sequence. */
  function FpuBytes(cfg: FpuConfig): (n: nat)
    ensures n % 8 == 0 && n <= 200
  {
    match cfg
    case NoFpu => 0
    case D16 => 72
    case D32 => 200
  }

  /**
   * The stack after `save_fpu_context!`: `FpuBytes(cfg)` bytes below the
   * old SP, FPSCR and FPEXC at the bottom, the old stack untouched above.
   */
  function SaveFpu(st: Stack, fpscr: Word, fpexc: Word, cfg: FpuConfig): (r: Stack)
    ensures r.sp == st.sp - FpuBytes(cfg) && |r.words| == |st.words| + FpuBytes(cfg) / 4
    ensures cfg != NoFpu ==> r.words[0] == fpscr && r.words[1] == fpexc
  {
    match cfg
    case NoFpu => st
    // vpush {d0-d7}; vmrs r0, FPSCR; vmrs r1, FPEXC; push {r0-r1}
    case D16 =>
      var r := st.Reserve(64).PushList([fpscr, fpexc]);
      assert r.words == [fpscr, fpexc] + (Untracked(16) + st.words);
      r
    // vpush {d0-d7}; vpush {d16-d31}; vmrs r0, FPSCR; vmrs r1, FPEXC; push {r0-r1}
    case D32 =>
      var r := st.Reserve(64).Reserve(128).PushList([fpscr, fpexc]);
      assert r.words == [fpscr, fpexc] + ((Untracked(32) + Untracked(16)) + st.words);
      r
  }

  /** The stack after `restore_fpu_context!`: `FpuBytes(cfg)` bytes are popped. */
  function RestoreFpu(st: Stack, cfg: FpuConfig): (r: Stack)
    requires FpuBytes(cfg) / 4 <= |st.words|
    ensures r.sp == st.sp + FpuBytes(cfg) && r.words == st.words[FpuBytes(cfg) / 4..]
  {
    match cfg
    case NoFpu => st
    // pop {r0-r1}; vmsr FPEXC, r1; vmsr FPSCR, r0; vpop {d0-d7}
    case D16 => st.Drop(8).Drop(64)
    // pop {r0-r1}; vmsr FPEXC, r1; vmsr FPSCR, r0; vpop {d16-d31}; vpop {d0-d7}
    case D32 => st.Drop(8).Drop(128).Drop(64)
  }

  /**
   * The two sequences are mirror images: the save pushes exactly
   * `FpuBytes(cfg)` bytes with FPSCR and FPEXC at the bottom, and the
   * restore pops them again, giving back the stack it started from.
   */
  lemma FpuMirror(st: Stack, fpscr: Word, fpexc: Word, cfg: FpuConfig)
    ensures var s := SaveFpu(st, fpscr, fpexc, cfg);
      s.sp == st.sp - FpuBytes(cfg) && |s.words| == |st.words| + FpuBytes(cfg) / 4
      && RestoreFpu(s, cfg) == st && IsSuffix(st.words, s.words)
    ensures cfg != NoFpu ==> SaveFpu(st, fpscr, fpexc, cfg).words[..2] == [fpscr, fpexc]
    ensures st.sp % 8 == 0 ==> SaveFpu(st, fpscr, fpexc, cfg).sp % 8 == 0
  {
    match cfg
    case NoFpu =>
      var s := SaveFpu(st, fpscr, fpexc, cfg);
      assert s.words[|s.words| - |st.words|..] == st.words;
    case D16 => FpuMirrorD16(st, fpscr, fpexc);
    case D32 => FpuMirrorD32(st, fpscr, fpexc);
  }

  /** The frame below which the save sequence leaves the stack it started from. */
  lemma SaveFpuTop(st: Stack, fpscr: Word, fpexc: Word, cfg: FpuConfig)
    ensures var s := SaveFpu(st, fpscr, fpexc, cfg);
      s.sp == st.sp - FpuBytes(cfg) && |s.words| == |st.words| + FpuBytes(cfg) / 4
      && s.words[FpuBytes(cfg) / 4..] == st.words
  {
    FpuMirror(st, fpscr, fpexc, cfg);
    var s := SaveFpu(st, fpscr, fpexc, cfg);
    assert |s.words| - |st.words| == FpuBytes(cfg) / 4;
  }

  lemma FpuMirrorD16(st: Stack, fpscr: Word, fpexc: Word)
    ensures var s := SaveFpu(st, fpscr, fpexc, D16);
      s.sp == st.sp - 72 && |s.words| == |st.words| + 18
      && RestoreFpu(s, D16) == st && IsSuffix(st.words, s.words) && s.words[..2] == [fpscr, fpexc]
  {
    var low := st.Reserve(64);
    var s := low.PushList([fpscr, fpexc]);
    ReserveThenDrop(st, 64);
    PushPairThenDrop(low, fpscr, fpexc);
    SuffixTrans(st.words, low.words, s.words);
  }

  lemma FpuMirrorD32(st: Stack, fpscr: Word, fpexc: Word)
    ensures var s := SaveFpu(st, fpscr, fpexc, D32);
      s.sp == st.sp - 200 && |s.words| == |st.words| + 50
      && RestoreFpu(s, D32) == st && IsSuffix(st.words, s.words) && s.words[..2] == [fpscr, fpexc]
  {
    var low := st.Reserve(64);
    var high := low.Reserve(128);
    var s := high.PushList([fpscr, fpexc]);
    ReserveThenDrop(st, 64);
    ReserveThenDrop(low, 128);
    PushPairThenDrop(high, fpscr, fpexc);
    SuffixTrans(st.words, low.words, high.words);
    SuffixTrans(st.words, high.words, s.words);
  }

  /**
   * `save_fpu_context!` as the trampolines execute it: the stack as
   * `SaveFpu`, with r0 and r1 overwritten by FPSCR and FPEXC when there is
   * an FPU.
   */
  method SaveFpuContext(st: Stack, r0: Word, r1: Word, fpscr: Word, fpexc: Word, cfg: FpuConfig)
    returns (st': Stack, r0': Word, r1': Word)
    ensures st' == SaveFpu(st, fpscr, fpexc, cfg)
    ensures cfg == NoFpu ==> r0' == r0 && r1' == r1
    ensures cfg != NoFpu ==> r0' == fpscr && r1' == fpexc
  {
    st', r0', r1' := st, r0, r1;
    if cfg != NoFpu {
      st' := st'.Reserve(64);
      if cfg == D32 {
        st' := st'.Reserve(128);
      }
      r0', r1' := fpscr, fpexc;
      st' := st'.PushList([r0', r1']);
    }
  }

  /**
   * `restore_fpu_context!`: FPSCR and FPEXC come back from the two words at
   * SP (through r0 and r1), then the D registers are popped.
   */
  method RestoreFpuContext(st: Stack, r0: Word, r1: Word, fpscr: Word, fpexc: Word, cfg: FpuConfig)
    returns (st': Stack, r0': Word, r1': Word, fpscr': Word, fpexc': Word)
    requires FpuBytes(cfg) / 4 <= |st.words|
    ensures st' == RestoreFpu(st, cfg)
    ensures cfg == NoFpu ==> r0' == r0 && r1' == r1 && fpscr' == fpscr && fpexc' == fpexc
    ensures cfg != NoFpu ==> r0' == st.words[0] && r1' == st.words[1] && fpscr' == r0' && fpexc' == r1'
  {
    st', r0', r1', fpscr', fpexc' := st, r0, r1, fpscr, fpexc;
    if cfg != NoFpu {
      r0', r1', st' := st'.words[0], st'.words[1], st'.Drop(8);
      fpexc', fpscr' := r1', r0';
      if cfg == D32 {
        st' := st'.Drop(128);
      }
      st' := st'.Drop(64);
    }
  }
}
