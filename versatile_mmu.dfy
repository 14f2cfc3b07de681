/**
 * The MMU set-up of the Versatile AB board example: a flat L1 page table
 * with 128 MiB of cacheable SDRAM identity-mapped at address 0 and 2 MiB
 * of device memory at 0x1000_0000, the TTBR0 value that points at it, and
 * the DACR/SCTLR updates that switch the MMU and the caches on.
 */
module VersatileMmu {
  import opened Wrappers
  import opened Mmu
  import Ttbr0Reg
  import DacrReg
  import opened Bits
  import SysReg

  /** Normal memory, write-back write-allocate inside and out, shareable, domain 0. */
  const SDRAM_ATTRS: SectionAttributes :=
    SectionAttributes(false, false, true, FullAccess,
      AsRaw(CacheableMemory(WriteBackWriteAlloc, WriteBackWriteAlloc)), 0, false)

  /** Shareable device memory, domain 0. */
  const DEVICE_ATTRS: SectionAttributes :=
    SectionAttributes(false, false, false, FullAccess, AsRaw(ShareableDevice), 0, false)

  /** Whether entry `e` maps the megabyte at `addr` with attributes `sa`. */
  predicate MapsSection(e: L1Section, addr: bv32, sa: SectionAttributes) {
    e.raw & 0xFFF0_0000 == addr && SectionAttrs(e) == Ok(sa)
  }

  /** `page * ONE_MB`: the start of megabyte `page`, a 1 MiB aligned address. */
  function Megabyte(page: nat): (a: bv32)
    requires page < 4096
    ensures a & 0xF_FFFF == 0
  {
    MegabyteAligned(page as bv32);
    page as bv32 * 0x10_0000
  }

  lemma MegabyteAligned(page: bv32)
    ensures (page * 0x10_0000) & 0xF_FFFF == 0
  {
  }

  /** `0x1000_0000 + page * ONE_MB`: megabyte `page` of the peripheral window, 1 MiB aligned. */
  function PeripheralMegabyte(page: nat): (a: bv32)
    requires page < 2
    ensures a & 0xF_FFFF == 0
  {
    PeripheralAligned(page as bv32);
    0x1000_0000 + page as bv32 * 0x10_0000
  }

  lemma PeripheralAligned(page: bv32)
    ensures (0x1000_0000 + page * 0x10_0000) & 0xF_FFFF == 0
  {
  }

  /**
   * The first loop of `make_mmu_table`: entries 0..127 map the first 128
   * MiB with the SDRAM attributes `attrs`.
   */
  method MapSdram(temp: array<L1Section>, attrs: SectionAttributes)
    requires temp.Length == NUM_L1_PAGE_TABLE_ENTRIES
    modifies temp
    ensures forall i :: 0 <= i < 128 ==> MapsSection(temp[i], Megabyte(i), attrs)
    ensures forall i :: 128 <= i < NUM_L1_PAGE_TABLE_ENTRIES ==> temp[i] == old(temp[i])
  {
    var page: nat := 0;
    while page < 128
      invariant page <= 128
      invariant forall i :: 0 <= i < page ==> temp[i] == SdramEntry(i, attrs)
      invariant forall i :: 128 <= i < NUM_L1_PAGE_TABLE_ENTRIES ==> temp[i] == old(temp[i])
    {
      var section := SdramEntry(page, attrs);          // new_with_addr_and_attrs(page * ONE_MB, attrs).unwrap()
      temp[0x000 + page] := section;
      page := page + 1;
    }
    forall i | 0 <= i < 128
      ensures MapsSection(temp[i], Megabyte(i), attrs)
    {
      SectionAtMaps(Megabyte(i), attrs);
    }
  }

  /** Entry `page` of the first loop: the section at megabyte `page`. */
  function SdramEntry(page: nat, sa: SectionAttributes): L1Section
    requires page < 4096
  {
    SectionAt(Megabyte(page), sa)
  }

  /** The entry `new_with_addr_and_attrs(addr, sa).unwrap()` for a 1 MiB aligned `addr`. */
  function SectionAt(addr: bv32, sa: SectionAttributes): L1Section
    requires addr & 0xF_FFFF == 0
  {
    NewWithAddrAndAttrs(addr, sa).value
  }

  lemma SectionAtMaps(addr: bv32, sa: SectionAttributes)
    requires addr & 0xF_FFFF == 0
    ensures MapsSection(SectionAt(addr, sa), addr, sa)
  {
  }

  /**
   * The second loop of `make_mmu_table`: entries 0x100 and 0x101 map the 2
   * MiB at 0x1000_0000 with the device attributes `attrs`.
   */
  method MapPeripherals(temp: array<L1Section>, attrs: SectionAttributes)
    requires temp.Length == NUM_L1_PAGE_TABLE_ENTRIES
    modifies temp
    ensures forall k :: 0 <= k < 2 ==> MapsSection(temp[0x100 + k], PeripheralMegabyte(k), attrs)
    ensures forall i :: 0 <= i < NUM_L1_PAGE_TABLE_ENTRIES && !(0x100 <= i < 0x102) ==> temp[i] == old(temp[i])
  {
    var page: nat := 0;
    while page < 2
      invariant page <= 2
      invariant forall k :: 0 <= k < page ==> temp[0x100 + k] == SectionAt(PeripheralMegabyte(k), attrs)
      invariant forall i :: 0 <= i < NUM_L1_PAGE_TABLE_ENTRIES && !(0x100 <= i < 0x100 + page) ==> temp[i] == old(temp[i])
    {
      var section := NewWithAddrAndAttrs(PeripheralMegabyte(page), attrs).value;
      temp[0x100 + page] := section;
      page := page + 1;
    }
    forall k | 0 <= k < 2
      ensures MapsSection(temp[0x100 + k], PeripheralMegabyte(k), attrs)
    {
      SectionAtMaps(PeripheralMegabyte(k), attrs);
    }
  }

  /**
   * `make_mmu_table`: a table of 4096 `L1Section::ZERO` entries filled by
   * two loops over `page` with `new_with_addr_and_attrs(base + page *
   * ONE_MB, attrs)`. Every address passed is aligned, so no call panics
   * (the `.value` of each result is defined); entries 0..127 identity-map
   * SDRAM, entries 0x100 and 0x101 map the peripherals, and every other
   * entry stays a fault entry.
   */
  method MakeMmuTable() returns (table: array<L1Section>)
    ensures fresh(table) && table.Length == NUM_L1_PAGE_TABLE_ENTRIES
    ensures forall i :: 0 <= i < 128 ==> MapsSection(table[i], Megabyte(i), SDRAM_ATTRS)
    ensures forall k :: 0 <= k < 2 ==> MapsSection(table[0x100 + k], PeripheralMegabyte(k), DEVICE_ATTRS)
    ensures forall i :: 128 <= i < NUM_L1_PAGE_TABLE_ENTRIES && !(0x100 <= i < 0x102) ==>
      table[i] == ZERO && SectionAttrs(table[i]) == Err(Fault)
  {
    table := new L1Section[NUM_L1_PAGE_TABLE_ENTRIES](_ => ZERO);
    MapSdram(table, SDRAM_ATTRS);
    MapPeripherals(table, DEVICE_ATTRS);
    RejectedEntryVectors();
  }

  /** The TTBR0 value `set_mmu` builds from the table address. */
  function MmuTtbr0(tableAddr: bv32): Ttbr0Reg.Ttbr0 {
    var t := Ttbr0Reg.WithAddress(0, tableAddr);
    var t := Ttbr0Reg.WithIrgn(t, false);
    var t := Ttbr0Reg.WithNos(t, false);
    var t := Ttbr0Reg.WithRgn(t, Ttbr0Reg.WriteBackWriteAllocateCacheable);
    var t := Ttbr0Reg.WithS(t, true);
    Ttbr0Reg.WithC(t, true)
  }

  /** The builder chain comes to the table address with its low seven bits cleared, RGN 0b01, S and C. */
  lemma MmuTtbr0Raw(tableAddr: bv32)
    ensures MmuTtbr0(tableAddr) == (tableAddr & 0xFFFF_FF80) | 0xB
  {
    var t0 := Ttbr0Reg.WithAddress(0, tableAddr);
    assert t0 == tableAddr & 0xFFFF_FF80 by {
      AddressOnly(t0, tableAddr);
    }
  }

  lemma AddressOnly(t: bv32, tableAddr: bv32)
    requires t & 0x7F == 0
    requires (t >> 7) << 7 == tableAddr & 0xFFFF_FF80
    ensures t == tableAddr & 0xFFFF_FF80
  {
  }

  /** The fields of the TTBR0 value: the table's address, RGN write-back write-allocate, S and C set, IRGN and NOS clear. */
  lemma MmuTtbr0Fields(tableAddr: bv32)
    ensures var t := MmuTtbr0(tableAddr);
      Ttbr0Reg.GetAddress(t) == tableAddr & 0xFFFF_FF80
      && Ttbr0Reg.Rgn(t) == Ttbr0Reg.WriteBackWriteAllocateCacheable
      && Ttbr0Reg.S(t) && Ttbr0Reg.C(t) && !Ttbr0Reg.Irgn(t) && !Ttbr0Reg.Nos(t)
    ensures tableAddr & 0xF_FFFF == 0 ==> Ttbr0Reg.GetAddress(MmuTtbr0(tableAddr)) == tableAddr
  {
    MmuTtbr0Raw(tableAddr);
    PackedTtbr0Fields(tableAddr & 0xFFFF_FF80);
    AlignedTableAddress(tableAddr);
  }

  lemma PackedTtbr0Fields(a: bv32)
    requires a & 0x7F == 0
    ensures var t := a | 0xB;
      Ttbr0Reg.GetAddress(t) == a && ((t >> 3) & 3) as bv2 == 1
      && t & 0x2 != 0 && t & 0x1 != 0 && t & 0x40 == 0 && t & 0x20 == 0
  {
  }

  lemma AlignedTableAddress(a: bv32)
    ensures a & 0xF_FFFF == 0 ==> a & 0xFFFF_FF80 == a
  {
  }

  /**
   * `set_mmu`: TTBR0 receives the table address with RGN write-back
   * write-allocate and S and C set. The table is 1 MiB aligned (its type
   * demands it), so the translation base read back is the table address.
   */
  method SetMmu(ttbr0: SysReg.Register, tableAddr: bv32)
    modifies ttbr0
    ensures ttbr0.raw == MmuTtbr0(tableAddr)
    ensures tableAddr & 0xF_FFFF == 0 ==> Ttbr0Reg.GetAddress(ttbr0.raw) == tableAddr
    ensures ttbr0.log == old(ttbr0.log) + [SysReg.WriteAccess(ttbr0.raw)]
  {
    var t := MmuTtbr0(tableAddr);
    MmuTtbr0Fields(tableAddr);
    Ttbr0Reg.Write(ttbr0, t);
  }

  /**
   * The DACR closure of `enable_mmu_and_cache`: domain 0 becomes Manager
   * and the other fifteen domains keep their access.
   */
  function SetD0Manager(d: DacrReg.Dacr): (r: DacrReg.Dacr)
    ensures DacrReg.D(r, 0) == DacrReg.Manager
    ensures forall j :: 1 <= j < 16 ==> DacrReg.D(r, j) == DacrReg.D(d, j)
  {
    DacrReg.WithD(d, 0, DacrReg.Manager)
  }

  /** The C (bit 2) and M (bit 0) bits of an SCTLR value are both set. */
  predicate CacheAndMmuOn(s: bv32) { s & 0x5 == 0x5 }

  /** Two SCTLR values agree on every bit other than C and M. */
  predicate SameOutsideCacheAndMmu(a: bv32, b: bv32) { a & 0xFFFF_FFFA == b & 0xFFFF_FFFA }

  /**
   * The SCTLR closure of `enable_mmu_and_cache`: C and then M are set, and
   * no other bit changes.
   */
  function SetCacheAndMmu(s: bv32): (r: bv32)
    ensures CacheAndMmuOn(r) && SameOutsideCacheAndMmu(r, s)
  {
    var r := WithFlag(WithFlag(s, 0x4, true), 0x1, true);
    assert r == (s | 0x4) | 0x1;
    OrFiveBits(s);
    r
  }

  lemma OrFiveBits(s: bv32)
    ensures CacheAndMmuOn((s | 0x4) | 0x1) && SameOutsideCacheAndMmu((s | 0x4) | 0x1, s)
  {
  }

  /**
   * `enable_mmu_and_cache`: a DACR read-modify-write that gives domain 0
   * Manager access and keeps the other fifteen domains, then an SCTLR
   * read-modify-write that sets C and M and keeps every other bit. Each
   * register is read once and then written once.
   */
  method EnableMmuAndCache(dacr: SysReg.Register, sctlr: SysReg.Register)
    requires dacr != sctlr
    modifies dacr, sctlr
    ensures DacrReg.D(dacr.raw, 0) == DacrReg.Manager
    ensures forall j :: 1 <= j < 16 ==> DacrReg.D(dacr.raw, j) == DacrReg.D(old(dacr.raw), j)
    ensures dacr.log == old(dacr.log) + [SysReg.ReadAccess(old(dacr.raw)), SysReg.WriteAccess(dacr.raw)]
    ensures CacheAndMmuOn(sctlr.raw)
    ensures SameOutsideCacheAndMmu(sctlr.raw, old(sctlr.raw))
    ensures sctlr.log == old(sctlr.log) + [SysReg.ReadAccess(old(sctlr.raw)), SysReg.WriteAccess(sctlr.raw)]
  {
    DacrReg.Modify(dacr, SetD0Manager);
    ModifySctlr(sctlr);
  }

  /** `Sctlr::modify` with the closure above: one read, then one write with C and M set. */
  method ModifySctlr(sctlr: SysReg.Register)
    modifies sctlr
    ensures sctlr.raw == SetCacheAndMmu(old(sctlr.raw))
    ensures sctlr.log == old(sctlr.log) + [SysReg.ReadAccess(old(sctlr.raw)), SysReg.WriteAccess(sctlr.raw)]
  {
    var s := sctlr.ReadRaw();
    s := SetCacheAndMmu(s);
    sctlr.WriteRaw(s);
  }

}
