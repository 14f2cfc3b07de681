/**
 * HCR, the Hyp Configuration Register (p15, op1 4, c1, c1, op2 0): 26
 * one-bit trap and override controls, the two-bit BSU field at bits
 * 10..11, and four bits (2, 19, 25, 28) that belong to no field.
 */
module HcrReg {
  import opened Bits
  import SysReg

  /** An HCR value: its raw 32 bits (`new_with_raw_value` and `raw_value` are the identity). */
  type Hcr = bv32

  /** The one-bit fields of HCR. */
  datatype HcrFlag =
    | Tcpac | Trvm | Hcd | Tge | Tvm | Tpu | Tpc | Tsw | Tac | Tidcp
    | Tid3 | Tid2 | Tid1 | Tid0 | Twe | Twi | Dc | Fb | Va | Vi | Vf
    | Amo | Imo | Fmo | Swio | Vm

  /** The declared position of each one-bit field, as a mask. */
  function FlagMask(f: HcrFlag): bv32 {
    match f
    case Tcpac => 0x8000_0000
    case Trvm => 0x4000_0000
    case Hcd => 0x2000_0000
    case Tge => 0x0800_0000
    case Tvm => 0x0400_0000
    case Tpu => 0x0100_0000
    case Tpc => 0x0080_0000
    case Tsw => 0x0040_0000
    case Tac => 0x0020_0000
    case Tidcp => 0x0010_0000
    case Tid3 => 0x0004_0000
    case Tid2 => 0x0002_0000
    case Tid1 => 0x0001_0000
    case Tid0 => 0x0000_8000
    case Twe => 0x0000_4000
    case Twi => 0x0000_2000
    case Dc => 0x0000_1000
    case Fb => 0x0000_0200
    case Va => 0x0000_0100
    case Vi => 0x0000_0080
    case Vf => 0x0000_0040
    case Amo => 0x0000_0020
    case Imo => 0x0000_0010
    case Fmo => 0x0000_0008
    case Swio => 0x0000_0002
    case Vm => 0x0000_0001
  }

  /** The bits of the BSU field. */
  const BSU_MASK: bv32 := 0xC00
  /** Bits 2, 19, 25 and 28, which no field names. */
  const RESERVED_MASK: bv32 := 0x1208_0004

  /** The field getter `f()`. */
  function Get(h: Hcr, f: HcrFlag): bool { Flag(h, FlagMask(f)) }

  /** The field setter `with_f(v)`. */
  function With(h: Hcr, f: HcrFlag, v: bool): Hcr { WithFlag(h, FlagMask(f), v) }

  /** Barrier Shareability upgrade: every two-bit pattern names one variant. */
  datatype Bsu = NoEffect | InnerShareable | OuterShareable | FullSystem
  {
    function Raw(): bv2 {
      match this
      case NoEffect => 0
      case InnerShareable => 1
      case OuterShareable => 2
      case FullSystem => 3
    }
  }

  /** The exhaustive decoding of the BSU field. */
  function BsuFromRaw(v: bv2): (b: Bsu)
    ensures b.Raw() == v
  {
    if v == 0 then NoEffect
    else if v == 1 then InnerShareable
    else if v == 2 then OuterShareable
    else FullSystem
  }

  /** Each variant is decoded from its own pattern. */
  lemma BsuRoundTrip(b: Bsu)
    ensures BsuFromRaw(b.Raw()) == b
  {
  }

  /** The getter `bsu()`. */
  function GetBsu(h: Hcr): Bsu { BsuFromRaw(((h >> 10) & 3) as bv2) }

  /** The setter `with_bsu(b)`: bits 10..11 take the pattern, all other bits are kept. */
  function WithBsu(h: Hcr, b: Bsu): (r: Hcr)
    ensures GetBsu(r) == b
    ensures r & 0xFFFF_F3FF == h & 0xFFFF_F3FF
  {
    (h & 0xFFFF_F3FF) | ((b.Raw() as bv32) << 10)
  }

  /** The BSU field depends only on bits 10..11. */
  lemma BsuDependsOnItsBits(x: Hcr, y: Hcr)
    requires x & 0xC00 == y & 0xC00
    ensures GetBsu(x) == GetBsu(y)
  {
    assert (x >> 10) & 3 == (y >> 10) & 3;
  }

  /** No one-bit field overlaps the BSU field or the unnamed bits. */
  lemma FlagOutsideBsuAndReserved(f: HcrFlag)
    ensures FlagMask(f) & BSU_MASK == 0
    ensures FlagMask(f) & RESERVED_MASK == 0
    ensures FlagMask(f) != 0
  {
    FlagOutsideUnnamed(f);
    OutsideUnion(FlagMask(f));
  }

  lemma FlagOutsideUnnamed(f: HcrFlag)
    ensures FlagMask(f) & 0x1208_0C04 == 0 && FlagMask(f) != 0
  {
  }

  lemma OutsideUnion(m: bv32)
    requires m & 0x1208_0C04 == 0
    ensures m & BSU_MASK == 0 && m & RESERVED_MASK == 0
  {
  }

  /** The flag whose mask is `m`, when `m` is the mask of a flag. */
  function FlagAt(m: bv32): HcrFlag {
    if m == 0x8000_0000 then Tcpac
    else if m == 0x4000_0000 then Trvm
    else if m == 0x2000_0000 then Hcd
    else if m == 0x0800_0000 then Tge
    else if m == 0x0400_0000 then Tvm
    else if m == 0x0100_0000 then Tpu
    else if m == 0x0080_0000 then Tpc
    else if m == 0x0040_0000 then Tsw
    else if m == 0x0020_0000 then Tac
    else if m == 0x0010_0000 then Tidcp
    else if m == 0x0004_0000 then Tid3
    else if m == 0x0002_0000 then Tid2
    else if m == 0x0001_0000 then Tid1
    else if m == 0x0000_8000 then Tid0
    else if m == 0x0000_4000 then Twe
    else if m == 0x0000_2000 then Twi
    else if m == 0x0000_1000 then Dc
    else if m == 0x0000_0200 then Fb
    else if m == 0x0000_0100 then Va
    else if m == 0x0000_0080 then Vi
    else if m == 0x0000_0040 then Vf
    else if m == 0x0000_0020 then Amo
    else if m == 0x0000_0010 then Imo
    else if m == 0x0000_0008 then Fmo
    else if m == 0x0000_0002 then Swio
    else Vm
  }

  /** Each flag is found again from its mask, so distinct flags have distinct masks. */
  lemma FlagAtMask(f: HcrFlag)
    ensures FlagAt(FlagMask(f)) == f
  {
    match f
    case Tcpac =>
    case Trvm =>
    case Hcd =>
    case Tge =>
    case Tvm =>
    case Tpu =>
    case Tpc =>
    case Tsw =>
    case Tac =>
    case Tidcp =>
    case Tid3 =>
    case Tid2 =>
    case Tid1 =>
    case Tid0 =>
    case Twe =>
    case Twi =>
    case Dc =>
    case Fb =>
    case Va =>
    case Vi =>
    case Vf =>
    case Amo =>
    case Imo =>
    case Fmo =>
    case Swio =>
    case Vm =>
  }

  /** Each mask is a single bit. */
  lemma FlagMaskOneBit(f: HcrFlag)
    ensures FlagMask(f) != 0 && FlagMask(f) & (FlagMask(f) - 1) == 0
  {
  }

  /** Distinct one-bit fields occupy distinct bits. */
  lemma FlagMasksDisjoint(f: HcrFlag, g: HcrFlag)
    requires f != g
    ensures FlagMask(f) & FlagMask(g) == 0
  {
    FlagAtMask(f);
    FlagAtMask(g);
    FlagMaskOneBit(f);
    FlagMaskOneBit(g);
    OneBitsDisjoint(FlagMask(f), FlagMask(g));
  }

  /** Setting one flag: that flag reads back what was written and every other flag is as before. */
  lemma WithFlagKeepsOtherFlags(h: Hcr, f: HcrFlag, v: bool, g: HcrFlag)
    ensures Get(With(h, f, v), g) == (if g == f then v else Get(h, g))
  {
    if g == f {
      WithFlagReadsBack(h, f, v);
    } else {
      WithFlagKeepsOther(h, f, v, g);
    }
  }

  lemma WithFlagReadsBack(h: Hcr, f: HcrFlag, v: bool)
    ensures Get(With(h, f, v), f) == v
  {
    FlagOutsideUnnamed(f);
    FlagOfWithFlag(h, FlagMask(f), v);
  }

  lemma WithFlagKeepsOther(h: Hcr, f: HcrFlag, v: bool, g: HcrFlag)
    requires f != g
    ensures Get(With(h, f, v), g) == Get(h, g)
  {
    FlagMasksDisjoint(f, g);
    FlagOfDisjoint(h, FlagMask(f), FlagMask(g), v);
  }

  /** Setting one flag leaves BSU and the unnamed bits as they were. */
  lemma WithFlagKeepsBsuAndReserved(h: Hcr, f: HcrFlag, v: bool)
    ensures GetBsu(With(h, f, v)) == GetBsu(h)
    ensures With(h, f, v) & RESERVED_MASK == h & RESERVED_MASK
  {
    var mf := FlagMask(f);
    FlagOutsideBsuAndReserved(f);
    WithFlagDisjoint(h, mf, BSU_MASK, v);
    BsuDependsOnItsBits(With(h, f, v), h);
    WithFlagDisjoint(h, mf, RESERVED_MASK, v);
  }

  /** A mask disjoint from BSU lies inside its complement. */
  lemma OutsideBsu(m: bv32)
    requires m & 0xC00 == 0
    ensures m & 0xFFFF_F3FF == m
  {
  }

  /** Two values that agree outside BSU agree on every one-bit field outside it. */
  lemma MaskIgnoresBsu(x: Hcr, y: Hcr, m: bv32)
    requires x & 0xFFFF_F3FF == y & 0xFFFF_F3FF
    requires m & 0xC00 == 0
    ensures Flag(x, m) == Flag(y, m)
  {
    OutsideBsu(m);
    FlagAgrees(x, y, 0xFFFF_F3FF, m);
  }

  /** Setting BSU leaves every flag as it was. */
  lemma WithBsuKeepsFlags(h: Hcr, b: Bsu, g: HcrFlag)
    ensures Get(WithBsu(h, b), g) == Get(h, g)
  {
    FlagOutsideBsuAndReserved(g);
    MaskIgnoresBsu(WithBsu(h, b), h, FlagMask(g));
  }

  /** Setting BSU leaves the unnamed bits as they were. */
  lemma WithBsuKeepsReserved(h: Hcr, b: Bsu)
    ensures WithBsu(h, b) & RESERVED_MASK == h & RESERVED_MASK
  {
    MaskAgrees(WithBsu(h, b), h, 0xFFFF_F3FF, RESERVED_MASK);
  }

  /** `Hcr::read`. */
  method Read(reg: SysReg.Register) returns (h: Hcr)
    modifies reg`log
    ensures h == reg.raw
    ensures reg.log == old(reg.log) + [SysReg.ReadAccess(h)]
  {
    h := reg.ReadRaw();
  }

  /** `Hcr::write`: the register receives exactly the value's raw bits. */
  method Write(reg: SysReg.Register, h: Hcr)
    modifies reg
    ensures reg.raw == h
    ensures reg.log == old(reg.log) + [SysReg.WriteAccess(h)]
  {
    reg.WriteRaw(h);
  }
}
