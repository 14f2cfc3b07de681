/**
 * HCPTR, the Hyp Architectural Feature Trap Register (p15, op1 4, c1,
 * c1, op2 2): four one-bit trap controls; the other 28 bits belong to
 * no field.
 */
module HcptrReg {
  import opened Bits
  import SysReg

  /** An HCPTR value: its raw 32 bits. */
  type Hcptr = bv32

  /** The one-bit fields of HCPTR. */
  datatype HcptrFlag = Tcpac | Tta | Tase | Tcp

  /** The declared position of each field, as a mask. */
  function FlagMask(f: HcptrFlag): bv32 {
    match f
    case Tcpac => 0x8000_0000
    case Tta => 0x0010_0000
    case Tase => 0x0000_8000
    case Tcp => 0x0000_0400
  }

  /** The 28 bits that no field names. */
  const UNNAMED_MASK: bv32 := 0x7FEF_7BFF

  /** The field getter `f()`. */
  function Get(h: Hcptr, f: HcptrFlag): bool { Flag(h, FlagMask(f)) }

  /** The field setter `with_f(v)`. */
  function With(h: Hcptr, f: HcptrFlag, v: bool): Hcptr { WithFlag(h, FlagMask(f), v) }

  /** The four fields are single bits, pairwise distinct, and outside the unnamed bits. */
  lemma FlagMasksDisjoint(f: HcptrFlag, g: HcptrFlag)
    ensures FlagMask(f) != 0
    ensures FlagMask(f) & UNNAMED_MASK == 0
    ensures f != g ==> FlagMask(f) & FlagMask(g) == 0
  {
  }

  /** Setting one field: it reads back what was written and the other three fields are as before. */
  lemma WithFlagKeepsOtherFlags(h: Hcptr, f: HcptrFlag, v: bool, g: HcptrFlag)
    ensures Get(With(h, f, v), g) == (if g == f then v else Get(h, g))
  {
    var mf, mg := FlagMask(f), FlagMask(g);
    FlagMasksDisjoint(f, g);
    if g == f {
      FlagOfWithFlag(h, mf, v);
    } else {
      WithFlagDisjoint(h, mf, mg, v);
    }
  }

  /** Setting one field leaves the 28 unnamed bits as they were. */
  lemma WithFlagKeepsUnnamedBits(h: Hcptr, f: HcptrFlag, v: bool)
    ensures With(h, f, v) & UNNAMED_MASK == h & UNNAMED_MASK
  {
    FlagMasksDisjoint(f, f);
    WithFlagDisjoint(h, FlagMask(f), UNNAMED_MASK, v);
  }

  /** `Hcptr::read`. */
  method Read(reg: SysReg.Register) returns (h: Hcptr)
    modifies reg`log
    ensures h == reg.raw
    ensures reg.log == old(reg.log) + [SysReg.ReadAccess(h)]
  {
    h := reg.ReadRaw();
  }

  /** `Hcptr::write`: the register receives exactly `raw_value()`. */
  method Write(reg: SysReg.Register, h: Hcptr)
    modifies reg
    ensures reg.raw == h
    ensures reg.log == old(reg.log) + [SysReg.WriteAccess(h)]
  {
    reg.WriteRaw(h);
  }

  /**
   * `Hcptr::modify`: one read, the closure applied to that copy (`f`
   * gives the copy as the closure leaves it), then one write of the copy.
   */
  method Modify(reg: SysReg.Register, f: Hcptr -> Hcptr)
    modifies reg
    ensures reg.raw == f(old(reg.raw))
    ensures reg.log == old(reg.log) + [SysReg.ReadAccess(old(reg.raw)), SysReg.WriteAccess(reg.raw)]
  {
    var value := Read(reg);
    value := f(value);
    Write(reg, value);
  }
}
