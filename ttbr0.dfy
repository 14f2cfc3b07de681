/**
 * TTBR0, the Translation Table Base Register 0: the table address in bits
 * 7..31, IRGN bit 6, NOS bit 5, RGN bits 3..4, S bit 1 and C bit 0. Bit 2
 * belongs to no field.
 */
module Ttbr0Reg {
  import opened Bits
  import SysReg

  /** Outer cacheability of the translation table walks; every 2-bit pattern is a variant. */
  datatype Region =
    | NonCacheable                        // 0b00
    | WriteBackWriteAllocateCacheable     // 0b01
    | WriteThroughCacheable               // 0b10
    | WriteBackNoWriteAllocateCacheable   // 0b11
  {
    function Raw(): bv2 {
      match this
      case NonCacheable => 0
      case WriteBackWriteAllocateCacheable => 1
      case WriteThroughCacheable => 2
      case WriteBackNoWriteAllocateCacheable => 3
    }
  }

  /** The exhaustive decoding of the RGN field: every pattern names exactly one region. */
  function RegionFromRaw(v: bv2): (r: Region)
    ensures r.Raw() == v
  {
    if v == 0 then NonCacheable
    else if v == 1 then WriteBackWriteAllocateCacheable
    else if v == 2 then WriteThroughCacheable
    else WriteBackNoWriteAllocateCacheable
  }

  /** Encoding a region and decoding it again gives it back. */
  lemma RegionRoundTrip(r: Region)
    ensures RegionFromRaw(r.Raw()) == r
  {
  }

  /** A TTBR0 value: its raw 32 bits. */
  type Ttbr0 = bv32

  function Addr(t: Ttbr0): bv25 { (t >> 7) as bv25 }
  function Irgn(t: Ttbr0): bool { Flag(t, 0x40) }
  function Nos(t: Ttbr0): bool { Flag(t, 0x20) }
  function Rgn(t: Ttbr0): Region { RegionFromRaw(((t >> 3) & 3) as bv2) }
  function S(t: Ttbr0): bool { Flag(t, 0x2) }
  function C(t: Ttbr0): bool { Flag(t, 0x1) }

  /** `get_address`: the table address as a full 32-bit address, that is the ADDR field shifted back into place. */
  function GetAddress(t: Ttbr0): (a: bv32)
    ensures a & 0x7F == 0
    ensures a == Addr(t) as bv32 << 7
  {
    t & 0xFFFF_FF80
  }

  /** The generated `with_addr`: a new ADDR field, every other bit kept. */
  function WithAddr(t: Ttbr0, addr: bv25): Ttbr0 {
    (t & 0x7F) | (addr as bv32 << 7)
  }

  /**
   * `with_address`: stores `address >> 7` in ADDR (the value always fits in
   * 25 bits, so the conversion never fails). Reading the address back gives
   * the address with its low seven bits cleared, and bits 0..6 are kept.
   */
  function WithAddress(t: Ttbr0, address: bv32): (r: Ttbr0)
    ensures GetAddress(r) == address & 0xFFFF_FF80
    ensures r & 0x7F == t & 0x7F
  {
    WithAddr(t, (address >> 7) as bv25)
  }

  /** `set_address`, the in-place form of `with_address`: `t` is the value before, `r` after. */
  method SetAddress(t: Ttbr0, address: bv32) returns (r: Ttbr0)
    ensures r == WithAddress(t, address)
    ensures GetAddress(r) == address & 0xFFFF_FF80
  {
    var addr := (address >> 7) as bv25;
    r := (t & 0x7F) | (addr as bv32 << 7);
  }

  /** Changing the address leaves C, S, bit 2, RGN, NOS and IRGN as they were. */
  lemma WithAddressKeepsAttributes(t: Ttbr0, address: bv32)
    ensures var r := WithAddress(t, address);
      C(r) == C(t) && S(r) == S(t) && r & 4 == t & 4
      && Rgn(r) == Rgn(t) && Nos(r) == Nos(t) && Irgn(r) == Irgn(t)
  {
    var r := WithAddress(t, address);
    FlagAgrees(r, t, 0x7F, 0x1);
    FlagAgrees(r, t, 0x7F, 0x2);
    FlagAgrees(r, t, 0x7F, 0x20);
    FlagAgrees(r, t, 0x7F, 0x40);
    MaskAgrees(r, t, 0x7F, 0x4);
    MaskAgrees(r, t, 0x7F, 0x18);
    RgnBitsAgree(r, t);
  }

  lemma RgnBitsAgree(x: bv32, y: bv32)
    requires x & 0x18 == y & 0x18
    ensures ((x >> 3) & 3) as bv2 == ((y >> 3) & 3) as bv2
  {
  }

  /** The generated one-bit `with_*` builders. */
  function WithIrgn(t: Ttbr0, v: bool): Ttbr0 { WithFlag(t, 0x40, v) }
  function WithNos(t: Ttbr0, v: bool): Ttbr0 { WithFlag(t, 0x20, v) }
  function WithS(t: Ttbr0, v: bool): Ttbr0 { WithFlag(t, 0x2, v) }
  function WithC(t: Ttbr0, v: bool): Ttbr0 { WithFlag(t, 0x1, v) }

  /** The generated `with_rgn`: a new RGN field, every other bit kept. */
  function WithRgn(t: Ttbr0, rgn: Region): (r: Ttbr0)
    ensures Rgn(r) == rgn
    ensures r & 0xFFFF_FFE7 == t & 0xFFFF_FFE7
  {
    RegionRoundTrip(rgn);
    (t & 0xFFFF_FFE7) | (rgn.Raw() as bv32 << 3)
  }

  /** `Ttbr0::read`. */
  method Read(reg: SysReg.Register) returns (t: Ttbr0)
    modifies reg`log
    ensures t == reg.raw
    ensures reg.log == old(reg.log) + [SysReg.ReadAccess(t)]
  {
    t := reg.ReadRaw();
  }

  /** `Ttbr0::write`: the register receives exactly the value's raw bits. */
  method Write(reg: SysReg.Register, t: Ttbr0)
    modifies reg
    ensures reg.raw == t
    ensures reg.log == old(reg.log) + [SysReg.WriteAccess(t)]
  {
    reg.WriteRaw(t);
  }
}
