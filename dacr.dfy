/**
 * DACR, the Domain Access Control Register: sixteen 2-bit domain fields,
 * domain `i` in bits `2i..2i+1`, each an exhaustive `DomainAccess`.
 */
module DacrReg {
  import SysReg

  datatype DomainAccess =
    | NoAccess   // 0b00: every access faults
    | Client     // 0b01: accesses checked against the translation table permissions
    | Reserved   // 0b10
    | Manager    // 0b11: accesses not checked
  {
    function Raw(): bv2 {
      match this
      case NoAccess => 0
      case Client => 1
      case Reserved => 2
      case Manager => 3
    }
  }

  /** The exhaustive decoding of a domain field: every pattern names exactly one variant. */
  function DomainFromRaw(v: bv2): (a: DomainAccess)
    ensures a.Raw() == v
  {
    if v == 0 then NoAccess else if v == 1 then Client else if v == 2 then Reserved else Manager
  }

  lemma DomainRoundTrip(a: DomainAccess)
    ensures DomainFromRaw(a.Raw()) == a
  {
  }

  /** A DACR value: its raw 32 bits. */
  type Dacr = bv32

  /** The raw bits `2i..2i+1` of domain `i`. */
  function Bits2(d: Dacr, i: bv32): bv2
    requires i < 16
  {
    ((d >> (2 * i)) & 3) as bv2
  }

  /** The mask of bits `2i..2i+1`. */
  function Mask2(i: bv32): bv32
    requires i < 16
  {
    3 << (2 * i)
  }

  /** `d` with bits `2i..2i+1` replaced by `v`. */
  function WithBits2(d: Dacr, i: bv32, v: bv2): bv32
    requires i < 16
  {
    (d & !Mask2(i)) | (v as bv32 << (2 * i))
  }

  lemma Bits2OfWithBits2(d: Dacr, i: bv32, j: bv32, v: bv2)
    requires i < 16 && j < 16
    ensures Bits2(WithBits2(d, i, v), j) == if i == j then v else Bits2(d, j)
  {
  }

  lemma WithBits2Frame(d: Dacr, i: bv32, v: bv2)
    requires i < 16
    ensures WithBits2(d, i, v) & !Mask2(i) == d & !Mask2(i)
  {
  }

  lemma DomainIndexInjective(i: nat, j: nat)
    requires i < 16 && j < 16 && i != j
    ensures i as bv32 != j as bv32
  {
    IndexAsWord(i);
    IndexAsWord(j);
  }

  lemma IndexAsWord(i: nat)
    requires i < 16
    ensures (i as bv32) as int == i
  {
  }

  /** The generated `d(i)`. */
  function D(d: Dacr, i: nat): DomainAccess
    requires i < 16
  {
    DomainFromRaw(Bits2(d, i as bv32))
  }

  /**
   * The generated `with_d(i, a)` (and `set_d(i, a)` in place): domain `i`
   * reads back as `a`, every other domain is unchanged, and no bit outside
   * `2i..2i+1` changes.
   */
  function WithD(d: Dacr, i: nat, a: DomainAccess): (r: Dacr)
    requires i < 16
    ensures D(r, i) == a
    ensures forall j :: 0 <= j < 16 && j != i ==> D(r, j) == D(d, j)
    ensures r & !Mask2(i as bv32) == d & !Mask2(i as bv32)
  {
    DomainRoundTrip(a);
    Bits2OfWithBits2(d, i as bv32, i as bv32, a.Raw());
    WithBits2Frame(d, i as bv32, a.Raw());
    forall j | 0 <= j < 16 && j != i
      ensures D(WithBits2(d, i as bv32, a.Raw()), j) == D(d, j)
    {
      DomainIndexInjective(i, j);
      Bits2OfWithBits2(d, i as bv32, j as bv32, a.Raw());
    }
    WithBits2(d, i as bv32, a.Raw())
  }

  /** The sixteen domain fields, domain 0 first. */
  function Domains(d: Dacr): (ds: seq<DomainAccess>)
    ensures |ds| == 16
  {
    seq(16, i requires 0 <= i < 16 => D(d, i))
  }

  /** The register value whose domains `k..15` are `ds[k..]` and whose other bits are 0. */
  function Fill(ds: seq<DomainAccess>, k: nat): Dacr
    requires |ds| == 16 && k <= 16
    decreases 16 - k
  {
    if k == 16 then 0 else WithD(Fill(ds, k + 1), k, ds[k])
  }

  /** The register value built from sixteen domain fields. */
  function FromDomains(ds: seq<DomainAccess>): Dacr
    requires |ds| == 16
  {
    Fill(ds, 0)
  }

  lemma {:induction false} FillDomain(ds: seq<DomainAccess>, k: nat, i: nat)
    requires |ds| == 16 && k <= 16 && i < 16
    ensures D(Fill(ds, k), i) == if i < k then NoAccess else ds[i]
    decreases 16 - k
  {
    if k < 16 {
      FillDomain(ds, k + 1, i);
    } else {
      assert Bits2(0, i as bv32) == 0;
    }
  }

  /** Writing sixteen domain fields and reading them back gives the same fields. */
  lemma DomainsOfFromDomains(ds: seq<DomainAccess>)
    requires |ds| == 16
    ensures Domains(FromDomains(ds)) == ds
  {
    forall i | 0 <= i < 16 ensures Domains(FromDomains(ds))[i] == ds[i] {
      FillDomain(ds, 0, i);
    }
  }

  lemma Bits2Determine(x: Dacr, y: Dacr)
    requires Bits2(x, 0) == Bits2(y, 0) && Bits2(x, 1) == Bits2(y, 1)
    requires Bits2(x, 2) == Bits2(y, 2) && Bits2(x, 3) == Bits2(y, 3)
    requires Bits2(x, 4) == Bits2(y, 4) && Bits2(x, 5) == Bits2(y, 5)
    requires Bits2(x, 6) == Bits2(y, 6) && Bits2(x, 7) == Bits2(y, 7)
    requires Bits2(x, 8) == Bits2(y, 8) && Bits2(x, 9) == Bits2(y, 9)
    requires Bits2(x, 10) == Bits2(y, 10) && Bits2(x, 11) == Bits2(y, 11)
    requires Bits2(x, 12) == Bits2(y, 12) && Bits2(x, 13) == Bits2(y, 13)
    requires Bits2(x, 14) == Bits2(y, 14) && Bits2(x, 15) == Bits2(y, 15)
    ensures x == y
  {
  }

  lemma DomainBitsAgree(x: Dacr, y: Dacr, i: nat)
    requires i < 16 && Domains(x) == Domains(y)
    ensures Bits2(x, i as bv32) == Bits2(y, i as bv32)
  {
    assert D(x, i) == Domains(x)[i];
  }

  /** Domains 0..7 agree in their bits. */
  lemma LowDomainsAgree(x: Dacr, y: Dacr)
    requires Domains(x) == Domains(y)
    ensures Bits2(x, 0) == Bits2(y, 0) && Bits2(x, 1) == Bits2(y, 1)
    ensures Bits2(x, 2) == Bits2(y, 2) && Bits2(x, 3) == Bits2(y, 3)
    ensures Bits2(x, 4) == Bits2(y, 4) && Bits2(x, 5) == Bits2(y, 5)
    ensures Bits2(x, 6) == Bits2(y, 6) && Bits2(x, 7) == Bits2(y, 7)
  {
    DomainBitsAgree(x, y, 0); DomainBitsAgree(x, y, 1); DomainBitsAgree(x, y, 2); DomainBitsAgree(x, y, 3);
    DomainBitsAgree(x, y, 4); DomainBitsAgree(x, y, 5); DomainBitsAgree(x, y, 6); DomainBitsAgree(x, y, 7);
  }

  /** Domains 8..15 agree in their bits. */
  lemma HighDomainsAgree(x: Dacr, y: Dacr)
    requires Domains(x) == Domains(y)
    ensures Bits2(x, 8) == Bits2(y, 8) && Bits2(x, 9) == Bits2(y, 9)
    ensures Bits2(x, 10) == Bits2(y, 10) && Bits2(x, 11) == Bits2(y, 11)
    ensures Bits2(x, 12) == Bits2(y, 12) && Bits2(x, 13) == Bits2(y, 13)
    ensures Bits2(x, 14) == Bits2(y, 14) && Bits2(x, 15) == Bits2(y, 15)
  {
    DomainBitsAgree(x, y, 8); DomainBitsAgree(x, y, 9); DomainBitsAgree(x, y, 10); DomainBitsAgree(x, y, 11);
    DomainBitsAgree(x, y, 12); DomainBitsAgree(x, y, 13); DomainBitsAgree(x, y, 14); DomainBitsAgree(x, y, 15);
  }

  /** The sixteen domain fields cover all 32 bits: two values with the same domains are equal. */
  lemma DomainsDetermine(x: Dacr, y: Dacr)
    requires Domains(x) == Domains(y)
    ensures x == y
  {
    LowDomainsAgree(x, y);
    HighDomainsAgree(x, y);
    Bits2Determine(x, y);
  }

  /** Reading the sixteen domain fields and writing them back gives the register value unchanged. */
  lemma FromDomainsOfDomains(d: Dacr)
    ensures FromDomains(Domains(d)) == d
  {
    DomainsOfFromDomains(Domains(d));
    DomainsDetermine(FromDomains(Domains(d)), d);
  }

  /** `Dacr::read`. */
  method Read(reg: SysReg.Register) returns (d: Dacr)
    modifies reg`log
    ensures d == reg.raw
    ensures reg.log == old(reg.log) + [SysReg.ReadAccess(d)]
  {
    d := reg.ReadRaw();
  }

  /** `Dacr::write`: the register receives exactly the value's raw bits. */
  method Write(reg: SysReg.Register, d: Dacr)
    modifies reg
    ensures reg.raw == d
    ensures reg.log == old(reg.log) + [SysReg.WriteAccess(d)]
  {
    reg.WriteRaw(d);
  }

  /**
   * `Dacr::modify`: one read, the closure applied to that copy (`f` gives
   * the copy as the closure leaves it), then one write of the copy.
   */
  method Modify(reg: SysReg.Register, f: Dacr -> Dacr)
    modifies reg
    ensures reg.raw == f(old(reg.raw))
    ensures reg.log == old(reg.log) + [SysReg.ReadAccess(old(reg.raw)), SysReg.WriteAccess(reg.raw)]
  {
    var value := Read(reg);
    value := f(value);
    Write(reg, value);
  }
}
