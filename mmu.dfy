/**
 * VMSA short-descriptor L1 section entries (ARMv7-A/R Architecture Reference
 * Manual, section B3.5.1) and the TEX/C/B memory-attribute encodings of
 * section B3.8.2, as built and decoded by the `mmu` module of `aarch32-cpu`.
 */
module Mmu {
  import opened Wrappers

  /** Number of 1 MiB sections in a 4 GiB address space. */
  const NUM_L1_PAGE_TABLE_ENTRIES: nat := 4096

  /** The 3-bit APX:AP access-permission encoding. */
  datatype AccessPermissions =
    | PermissionFault     // 0b000
    | PrivilegedOnly      // 0b001
    | NoUserWrite         // 0b010
    | FullAccess          // 0b011
    | Reserved1           // 0b100
    | PrivilegedReadOnly  // 0b101
    | ReadOnly            // 0b110
    | Reserved2           // 0b111
  {
    function Raw(): bv3 {
      match this
      case PermissionFault => 0
      case PrivilegedOnly => 1
      case NoUserWrite => 2
      case FullAccess => 3
      case Reserved1 => 4
      case PrivilegedReadOnly => 5
      case ReadOnly => 6
      case Reserved2 => 7
    }

    /** The two AP bits. */
    function Ap(): bv2 { (Raw() & 3) as bv2 }

    /** The APX bit: set for every encoding above `FullAccess`. */
    function Apx(): bool { Raw() > FullAccess.Raw() }
  }

  /** The exhaustive decoding of a 3-bit access-permission value. */
  function AccessFromRaw(v: bv3): (p: AccessPermissions)
    ensures p.Raw() == v
  {
    if v == 0 then PermissionFault
    else if v == 1 then PrivilegedOnly
    else if v == 2 then NoUserWrite
    else if v == 3 then FullAccess
    else if v == 4 then Reserved1
    else if v == 5 then PrivilegedReadOnly
    else if v == 6 then ReadOnly
    else Reserved2
  }

  /** `AccessPermissions::new(apx, ap)`: the encoding `apx << 2 | ap`. */
  function NewAccess(apx: bool, ap: bv2): (p: AccessPermissions)
    ensures p.Apx() == apx && p.Ap() == ap
  {
    AccessFromRaw((if apx then 4 else 0) | ap as bv3)
  }

  /** Splitting a permission into APX and AP and joining them again gives it back. */
  lemma AccessPermissionsRoundTrip(p: AccessPermissions)
    ensures NewAccess(p.Apx(), p.Ap()) == p
  {
  }

  /** The two-bit type field of an L1 descriptor. */
  datatype L1EntryType = Fault | PageTable | Section | Supersection
  {
    function Raw(): bv2 {
      match this
      case Fault => 0
      case PageTable => 1
      case Section => 2
      case Supersection => 3
    }
  }

  function EntryTypeFromRaw(v: bv2): (t: L1EntryType)
    ensures t.Raw() == v
  {
    if v == 0 then Fault else if v == 1 then PageTable else if v == 2 then Section else Supersection
  }

  /** The raw TEX, C and B bits of a region. */
  datatype MemoryRegionAttributesRaw = MemoryRegionAttributesRaw(typeExtensions: bv3, c: bool, b: bool)

  /** Inner or outer cache policy of normal memory. */
  datatype CacheableMemoryAttribute =
    | NonCacheable               // 0b00
    | WriteBackWriteAlloc        // 0b01
    | WriteThroughNoWriteAlloc   // 0b10
    | WriteBackNoWriteAlloc      // 0b11
  {
    function Raw(): bv2 {
      match this
      case NonCacheable => 0
      case WriteBackWriteAlloc => 1
      case WriteThroughNoWriteAlloc => 2
      case WriteBackNoWriteAlloc => 3
    }
  }

  datatype MemoryRegionAttributes =
    | StronglyOrdered
    | ShareableDevice
    | OuterAndInnerWriteThroughNoWriteAlloc
    | OuterAndInnerWriteBackNoWriteAlloc
    | OuterAndInnerNonCacheable
    | OuterAndInnerWriteBackWriteAlloc
    | NonShareableDevice
    | CacheableMemory(inner: CacheableMemoryAttribute, outer: CacheableMemoryAttribute)

  /**
   * `MemoryRegionAttributes::as_raw`: the TEX/C/B encoding of a region type.
   * TEX bit 2 is set exactly for the `CacheableMemory` form, whose outer
   * policy sits in TEX bits 0..1 and whose inner policy sits in C:B.
   */
  function AsRaw(m: MemoryRegionAttributes): (r: MemoryRegionAttributesRaw)
    ensures (r.typeExtensions & 4 != 0) <==> m.CacheableMemory?
    ensures m.CacheableMemory? ==>
      (r.typeExtensions & 3) as bv2 == m.outer.Raw()
      && r.c == (m.inner.Raw() & 2 != 0) && r.b == (m.inner.Raw() & 1 != 0)
  {
    match m
    case StronglyOrdered => MemoryRegionAttributesRaw(0, false, false)
    case ShareableDevice => MemoryRegionAttributesRaw(0, false, true)
    case OuterAndInnerWriteThroughNoWriteAlloc => MemoryRegionAttributesRaw(0, true, false)
    case OuterAndInnerWriteBackNoWriteAlloc => MemoryRegionAttributesRaw(0, true, true)
    case OuterAndInnerNonCacheable => MemoryRegionAttributesRaw(1, false, false)
    case OuterAndInnerWriteBackWriteAlloc => MemoryRegionAttributesRaw(1, true, true)
    case NonShareableDevice => MemoryRegionAttributesRaw(2, false, false)
    case CacheableMemory(inner, outer) =>
      MemoryRegionAttributesRaw(4 | outer.Raw() as bv3, inner.Raw() & 2 != 0, inner.Raw() & 1 != 0)
  }

  /** No two region types share a TEX/C/B encoding. */
  lemma AsRawInjective(m1: MemoryRegionAttributes, m2: MemoryRegionAttributes)
    ensures AsRaw(m1) == AsRaw(m2) ==> m1 == m2
  {
  }

  /** The per-section attributes of an L1 section entry. */
  datatype SectionAttributes = SectionAttributes(
    nonGlobal: bool,
    pBit: bool,
    shareable: bool,
    access: AccessPermissions,
    memoryAttrs: MemoryRegionAttributesRaw,
    domain: bv4,
    executeNever: bool)

  /** Every field of an L1 section entry, as given to its builder. */
  datatype L1Fields = L1Fields(
    baseAddrUpperBits: bv12,
    ng: bool, s: bool, apx: bool, tex: bv3, ap: bv2, pBit: bool,
    domain: bv4, xn: bool, c: bool, b: bool, entryType: L1EntryType)

  /**
   * A 32-bit L1 section descriptor: base address bits 20..31, nG 17, S 16,
   * APX 15, TEX 12..14, AP 10..11, P 9, domain 5..8, XN 4, C 3, B 2 and the
   * entry type in bits 0..1. Bits 18 and 19 belong to no field.
   */
  datatype L1Section = L1Section(raw: bv32)
  {
    function BaseAddrUpperBits(): bv12 { (raw >> 20) as bv12 }
    function Ng(): bool { raw & 0x2_0000 != 0 }
    function S(): bool { raw & 0x1_0000 != 0 }
    function Apx(): bool { raw & 0x8000 != 0 }
    function Tex(): bv3 { ((raw >> 12) & 7) as bv3 }
    function Ap(): bv2 { ((raw >> 10) & 3) as bv2 }
    function PBit(): bool { raw & 0x200 != 0 }
    function Domain(): bv4 { ((raw >> 5) & 0xF) as bv4 }
    function Xn(): bool { raw & 0x10 != 0 }
    function C(): bool { raw & 0x8 != 0 }
    function B(): bool { raw & 0x4 != 0 }
    function EntryType(): L1EntryType { EntryTypeFromRaw((raw & 3) as bv2) }

    function Fields(): L1Fields {
      L1Fields(BaseAddrUpperBits(), Ng(), S(), Apx(), Tex(), Ap(), PBit(), Domain(), Xn(), C(), B(), EntryType())
    }
  }

  /** The all-zero entry, whose type is `Fault`. */
  const ZERO: L1Section := L1Section(0)

  /** The descriptor word with each field placed at its bit position; bits 18 and 19 stay clear. */
  function Pack(
    upper: bv12, ng: bool, s: bool, apx: bool, tex: bv3, ap: bv2, pBit: bool,
    domain: bv4, xn: bool, c: bool, b: bool, entryType: bv2): bv32
  {
    (upper as bv32 << 20) | (if ng then 0x2_0000 else 0) | (if s then 0x1_0000 else 0)
    | (if apx then 0x8000 else 0) | (tex as bv32 << 12) | (ap as bv32 << 10)
    | (if pBit then 0x200 else 0) | (domain as bv32 << 5) | (if xn then 0x10 else 0)
    | (if c then 0x8 else 0) | (if b then 0x4 else 0) | entryType as bv32
  }

  /** The builder: every field set, as `L1Section::builder()...build()` requires. */
  function Build(f: L1Fields): (l1: L1Section)
    ensures l1.Fields() == f
    ensures l1.raw & 0xC_0000 == 0
  {
    L1Section(Pack(f.baseAddrUpperBits, f.ng, f.s, f.apx, f.tex, f.ap, f.pBit, f.domain, f.xn, f.c, f.b, f.entryType.Raw()))
  }

  /** Reading every field of a descriptor and building it again clears only bits 18 and 19. */
  lemma BuildFieldsRoundTrip(l1: L1Section)
    ensures Build(l1.Fields()).raw == l1.raw & 0xFFF3_FFFF
  {
  }

  /**
   * `SectionAttributes::from_raw_unchecked`: the attributes, whatever the
   * type bits say. They capture exactly bits 2..17 of the word: packed
   * back with address and type 0, they give those bits and no others.
   */
  function FromRawUnchecked(raw: bv32): (sa: SectionAttributes)
    ensures Pack(0, sa.nonGlobal, sa.shareable, sa.access.Apx(), sa.memoryAttrs.typeExtensions, sa.access.Ap(),
                 sa.pBit, sa.domain, sa.executeNever, sa.memoryAttrs.c, sa.memoryAttrs.b, 0)
            == raw & 0x3_FFFC
  {
    var l1 := L1Section(raw);
    SectionAttributes(
      l1.Ng(), l1.PBit(), l1.S(), NewAccess(l1.Apx(), l1.Ap()),
      MemoryRegionAttributesRaw(l1.Tex(), l1.C(), l1.B()), l1.Domain(), l1.Xn())
  }

  /**
   * `SectionAttributes::from_raw`: the attributes of a section entry, or the
   * entry's type when bits 0..1 are not `0b10`.
   */
  function FromRaw(raw: bv32): (r: Result<SectionAttributes, L1EntryType>)
    ensures r.Err? <==> raw & 3 != 2
    ensures r.Err? ==> r.error.Raw() as bv32 == raw & 3
  {
    var sectionType := EntryTypeFromRaw((raw & 3) as bv2);
    if sectionType != Section then Err(sectionType) else Ok(FromRawUnchecked(raw))
  }

  /** `SectionAttributes::l1_section_part`: the attributes placed in a section entry with base address 0. */
  function L1SectionPart(sa: SectionAttributes): (l1: L1Section)
    ensures l1.BaseAddrUpperBits() == 0 && l1.EntryType() == Section
    ensures FromRawUnchecked(l1.raw) == sa
  {
    Build(L1Fields(
      0, sa.nonGlobal, sa.shareable, sa.access.Apx(), sa.memoryAttrs.typeExtensions,
      sa.access.Ap(), sa.pBit, sa.domain, sa.executeNever, sa.memoryAttrs.c, sa.memoryAttrs.b,
      Section))
  }

  /** `L1Section::section_attrs`. */
  function SectionAttrs(l1: L1Section): Result<SectionAttributes, L1EntryType> {
    FromRaw(l1.raw)
  }

  /**
   * `L1Section::new_with_addr_upper_bits_and_attrs`: copies every field of
   * `l1_section_part` into a descriptor carrying the given address bits.
   */
  function NewWithAddrUpperBitsAndAttrs(upper: bv12, sa: SectionAttributes): (l1: L1Section)
    ensures l1.BaseAddrUpperBits() == upper
    ensures SectionAttrs(l1) == Ok(sa)
    ensures l1.EntryType() == Section && l1.raw & 0xC_0000 == 0
  {
    var attrs := L1SectionPart(sa);
    Build(L1Fields(
      upper, attrs.Ng(), attrs.S(), attrs.Apx(), attrs.Tex(), attrs.Ap(), attrs.PBit(),
      attrs.Domain(), attrs.Xn(), attrs.C(), attrs.B(), attrs.EntryType()))
  }

  /** The panic of `new_with_addr_and_attrs` on an address that is not 1 MiB aligned. */
  datatype MmuPanic = UnalignedSectionAddress

  /**
   * `L1Section::new_with_addr_and_attrs`: panics exactly on an address with
   * any of its low 20 bits set; otherwise the entry maps that address.
   */
  function NewWithAddrAndAttrs(physAddr: bv32, sa: SectionAttributes): (r: Result<L1Section, MmuPanic>)
    ensures r.Err? <==> physAddr & 0x000F_FFFF != 0
    ensures r.Ok? ==> r.value.raw & 0xFFF0_0000 == physAddr && SectionAttrs(r.value) == Ok(sa)
  {
    if physAddr & 0x000F_FFFF != 0 then Err(UnalignedSectionAddress)
    else Ok(NewWithAddrUpperBitsAndAttrs((physAddr >> 20) as bv12, sa))
  }

  /** `L1Section::set_section_attrs`: new attributes, same address. */
  function SetSectionAttrs(l1: L1Section, sa: SectionAttributes): (r: L1Section)
    ensures r.raw & 0xFFF0_0000 == l1.raw & 0xFFF0_0000
    ensures SectionAttrs(r) == Ok(sa)
  {
    NewWithAddrUpperBitsAndAttrs(l1.BaseAddrUpperBits(), sa)
  }

  /**
   * Decoding a section entry and encoding it again at the same address gives
   * the entry back, except for the two bits that belong to no field.
   */
  lemma SectionDecodeEncode(l1: L1Section)
    requires l1.EntryType() == Section
    ensures SectionAttrs(l1).Ok?
    ensures NewWithAddrUpperBitsAndAttrs(l1.BaseAddrUpperBits(), SectionAttrs(l1).value).raw
         == l1.raw & 0xFFF3_FFFF
  {
    var built := NewWithAddrUpperBitsAndAttrs(l1.BaseAddrUpperBits(), SectionAttrs(l1).value);
    DecodeEncodeFields(l1);
    BuildFieldsRoundTrip(l1);
    BuildFieldsRoundTrip(built);
    ReservedClear(built.raw);
  }

  lemma DecodeEncodeFields(l1: L1Section)
    requires l1.EntryType() == Section
    ensures SectionAttrs(l1).Ok?
    ensures NewWithAddrUpperBitsAndAttrs(l1.BaseAddrUpperBits(), SectionAttrs(l1).value).Fields() == l1.Fields()
  {
    var sa := SectionAttrs(l1).value;
    var built := NewWithAddrUpperBitsAndAttrs(l1.BaseAddrUpperBits(), sa);
    assert SectionAttrs(built) == Ok(sa);
    AccessPermissionsRoundTrip(sa.access);
  }

  lemma ReservedClear(raw: bv32)
    requires raw & 0xC_0000 == 0
    ensures raw & 0xFFF3_FFFF == raw
  {
  }

  /** Device peripheral attributes: full access, shareable device, domain 0b1111. */
  const SECTION_ATTRS_DEVICE_PERIPHERAL: SectionAttributes :=
    SectionAttributes(false, false, false, FullAccess, AsRaw(ShareableDevice), 0xF, false)

  /** Fully cacheable normal memory: write-back write-allocate inside and out, domain 0b1010. */
  const SECTION_ATTRS_FULL_CACHEABLE: SectionAttributes :=
    SectionAttributes(false, false, true, FullAccess,
      AsRaw(CacheableMemory(WriteBackWriteAlloc, WriteBackWriteAlloc)), 0xA, false)

  /** The replacement attributes of the update test: read-only, strongly ordered, domain 0b1001. */
  const SECTION_ATTRS_UPDATED: SectionAttributes :=
    SectionAttributes(true, true, false, ReadOnly, AsRaw(StronglyOrdered), 0x9, true)

  /** The fields of a descriptor built from an address and attributes. */
  function SectionFields(upper: bv12, sa: SectionAttributes): L1Fields {
    L1Fields(
      upper, sa.nonGlobal, sa.shareable, sa.access.Apx(), sa.memoryAttrs.typeExtensions,
      sa.access.Ap(), sa.pBit, sa.domain, sa.executeNever, sa.memoryAttrs.c, sa.memoryAttrs.b,
      Section)
  }

  /** A built section descriptor is exactly the packing of its address and attribute fields. */
  lemma NewSectionIsPacked(upper: bv12, sa: SectionAttributes)
    ensures NewWithAddrUpperBitsAndAttrs(upper, sa) == Build(SectionFields(upper, sa))
  {
    var l1 := NewWithAddrUpperBitsAndAttrs(upper, sa);
    assert l1.Fields() == SectionFields(upper, sa);
    BuildFieldsRoundTrip(l1);
    assert l1.raw & 0xFFF3_FFFF == l1.raw;
  }

  /** An aligned address gives the packing of its upper twelve bits and the attribute fields. */
  lemma AlignedSectionIsPacked(physAddr: bv32, sa: SectionAttributes)
    requires physAddr & 0x000F_FFFF == 0
    ensures NewWithAddrAndAttrs(physAddr, sa) == Ok(Build(SectionFields((physAddr >> 20) as bv12, sa)))
  {
    NewSectionIsPacked((physAddr >> 20) as bv12, sa);
  }

  /** The peripheral-section test: address 0x0010_0000 with device attributes gives 0x0010_0DE6. */
  lemma PeripheralSectionVector()
    ensures NewWithAddrAndAttrs(0x10_0000, SECTION_ATTRS_DEVICE_PERIPHERAL) == Ok(L1Section(0x10_0DE6))
  {
    AlignedSectionIsPacked(0x10_0000, SECTION_ATTRS_DEVICE_PERIPHERAL);
    PeripheralSectionFields();
  }

  lemma PeripheralSectionFields()
    ensures SectionFields(1, SECTION_ATTRS_DEVICE_PERIPHERAL)
         == L1Fields(1, false, false, false, 0, 3, false, 0xF, false, false, true, Section)
    ensures Build(L1Fields(1, false, false, false, 0, 3, false, 0xF, false, false, true, Section)).raw == 0x10_0DE6
  {
    assert Pack(1, false, false, false, 0, 3, false, 0xF, false, false, true, 2) == 0x10_0DE6;
  }

  /** The normal-memory test: address 0x0020_0000 with cacheable attributes gives 0x0021_5D46. */
  lemma MemorySectionVector()
    ensures NewWithAddrAndAttrs(0x20_0000, SECTION_ATTRS_FULL_CACHEABLE) == Ok(L1Section(0x21_5D46))
  {
    AlignedSectionIsPacked(0x20_0000, SECTION_ATTRS_FULL_CACHEABLE);
    MemorySectionFields();
  }

  lemma MemorySectionFields()
    ensures SectionFields(2, SECTION_ATTRS_FULL_CACHEABLE)
         == L1Fields(2, false, true, false, 5, 3, false, 0xA, false, false, true, Section)
    ensures Build(L1Fields(2, false, true, false, 5, 3, false, 0xA, false, false, true, Section)).raw == 0x21_5D46
  {
    assert Pack(2, false, true, false, 5, 3, false, 0xA, false, false, true, 2) == 0x21_5D46;
  }

  /** The update test: new attributes on 0x0021_5D46 give 0x0022_8B32. */
  lemma UpdatedSectionVector()
    ensures SetSectionAttrs(L1Section(0x21_5D46), SECTION_ATTRS_UPDATED) == L1Section(0x22_8B32)
  {
    assert L1Section(0x21_5D46).BaseAddrUpperBits() == 2;
    NewSectionIsPacked(2, SECTION_ATTRS_UPDATED);
    UpdatedSectionFields();
  }

  lemma UpdatedSectionFields()
    ensures SectionFields(2, SECTION_ATTRS_UPDATED)
         == L1Fields(2, true, false, true, 0, 2, true, 0x9, true, false, false, Section)
    ensures Build(L1Fields(2, true, false, true, 0, 2, true, 0x9, true, false, false, Section)).raw == 0x22_8B32
  {
    assert Pack(2, true, false, true, 0, 2, true, 0x9, true, false, false, 2) == 0x22_8B32;
  }

  /** The unaligned-address test panics, and the zero entry is a fault entry. */
  lemma RejectedEntryVectors()
    ensures NewWithAddrAndAttrs(0x10_0001, SECTION_ATTRS_DEVICE_PERIPHERAL) == Err(UnalignedSectionAddress)
    ensures SectionAttrs(ZERO) == Err(Fault)
  {
  }
}
