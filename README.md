# aarch32 — a Dafny model of the Arm AArch32 support crates

This project models the core of the `aarch32` family of Rust crates. These crates support bare-metal
programs on 32-bit Arm processors: the Armv4T/v5TE classic cores, the Armv7-A/R and Armv8-R cores,
and Armv8-R running at EL2 (Hyp mode).

- **aarch32-cpu, register and MMU layer** (modules `Bits`, `SysReg`, `Mmu`, `Ttbr0Reg`, `DacrReg`,
  `HsrReg`, `HcrReg`, `HcptrReg`)
  - Each system register is a 32-bit word (`bv32`).
  - Each named field is a function that reads it and a function that rebuilds the word with it.
  - Each register has a small class holding one 32-bit cell for its coprocessor read and write.
  - The short-descriptor L1 section entry is packed from its fields and decoded back. Its access
    permissions and its memory attributes are modelled the same way.
- **aarch32-rt, the runtime**
  - `RtStacks`: the per-mode, per-core stack areas the linker script lays out.
  - `StackUsage`: the scan that measures how much of a stack was used, counting the zero words
    left at its low end.
  - `Boot`: `_init_segments` (copy `.data`, zero `.bss`, zero the stacks) and
    `_stack_setup_preallocated`, which gives every processor mode its stack pointer.
  - `Start`: the vector table, `_default_start`, and the Armv8-R start path that drops from EL2
    to EL1.
  - `TrampolinesV7`, `TrampolinesV4`, `TrampolinesHyp`: the assembly exception trampolines for
    each architecture family. They save state, align the stack, call the Rust handler, and
    return to the interrupted code.
  - `Machine` and `FpuContext`: the processor state those assembly routines act on.
- **arm-targets** (`Targets`): parses a Rust target triple into an instruction set, architecture,
  profile and ABI. It also builds the `cfg` lists that the build scripts print.
- **aarch32-rt-macros** (`Macros`): the checks the `#[entry]` and `#[exception]`/`#[irq]`
  attribute macros make on the function they decorate.
- **The examples**:
  - `VersatileMmu`: the VersatileAB flat MMU table.
  - `SmpStack`: the SMP test's per-core stack setup, its own `_stack_setup` routine.
  - `SvcNumbers` and `Syscalls`: the supervisor-call handlers.

The assembly routines are straight-line methods over a `Cpu` value. This value holds:

- the general registers;
- the banked SP, LR and SPSR of each mode;
- ELR_hyp, CPSR, FPSCR and FPEXC;
- the system control registers;
- a word-addressed memory.

A Rust handler that an assembly routine calls is a function parameter. What the AAPCS lets that
handler clobber is an arbitrary `Clobber` parameter:

- r0–r3, r12 and LR;
- memory below the stack pointer;
- for the Hyp trampolines, ELR_hyp.

Every trampoline is proved to keep the registers it promises to keep and to balance its stack
pointer. Where it resumes depends on the exception:

- the IRQ and SVC trampolines resume the interrupted code;
- the abort and undefined-instruction trampolines resume at the address their handler returns;
- `TrampolinesV7.HvcV8r` and `TrampolinesHyp.IrqTrampolineAsWritten` resume at whatever ELR_hyp
  holds after the handler, as the code is written (see Findings for the Hyp IRQ case).

## Model

| member | source | states |
|---|---|---|
| Mmu.AccessFromRaw | aarch32-cpu/src/mmu.rs:27-40 | every 3-bit value decodes to the access permission whose encoding it is (the enum is exhaustive) |
| Mmu.NewAccess | aarch32-cpu/src/mmu.rs:43-58 | the permission built from `apx` and `ap` reports exactly that APX bit and those AP bits |
| Mmu.AccessPermissionsRoundTrip | aarch32-cpu/src/mmu.rs:43-58 | splitting any permission into APX and AP and rebuilding it gives the same permission |
| Mmu.EntryTypeFromRaw | aarch32-cpu/src/mmu.rs:61-76 | every 2-bit value decodes to the L1 entry type with that encoding |
| Mmu.AsRaw | aarch32-cpu/src/mmu.rs:134-166 | TEX bit 2 is set exactly for cacheable memory, whose outer policy is TEX bits 0..1 and inner policy is C:B |
| Mmu.AsRawInjective | aarch32-cpu/src/mmu.rs:134-166 | no two region attribute kinds share a TEX/C/B encoding |
| Mmu.Build | aarch32-cpu/src/mmu.rs:236-268 | a descriptor built from field values reads back every one of those values and has bits 18 and 19 clear |
| Mmu.BuildFieldsRoundTrip | aarch32-cpu/src/mmu.rs:236-268 | reading all fields of any descriptor and building it again changes only bits 18 and 19 (cleared) |
| Mmu.FromRaw | aarch32-cpu/src/mmu.rs:188-196 | decoding fails exactly when bits 0..1 are not the section type, and the error carries those two bits |
| Mmu.FromRawUnchecked | aarch32-cpu/src/mmu.rs:216-229 | the attributes read from any word hold exactly its bits 2..17: packing them back with address and type 0 gives those bits and nothing else |
| Mmu.L1SectionPart | aarch32-cpu/src/mmu.rs:198-229 | the attribute part is a section entry with base address 0 from which `from_raw_unchecked` recovers the same attributes |
| Mmu.NewWithAddrUpperBitsAndAttrs | aarch32-cpu/src/mmu.rs:319-340 | the new entry carries the given upper address bits, is a section and decodes to exactly the given attributes |
| Mmu.NewWithAddrAndAttrs | aarch32-cpu/src/mmu.rs:290-305 | panics exactly when any of the low 20 address bits is set; otherwise maps that address with those attributes |
| Mmu.SetSectionAttrs | aarch32-cpu/src/mmu.rs:313-317 | the address bits are unchanged and the entry now decodes to the new attributes |
| Mmu.SectionDecodeEncode | aarch32-cpu/src/mmu.rs:307-340 | decoding any section entry and re-encoding it at its own address gives it back except bits 18 and 19 |
| Mmu.NewSectionIsPacked | aarch32-cpu/src/mmu.rs:319-340 | a built entry is the packing of its address bits and its attribute fields |
| Mmu.AlignedSectionIsPacked | aarch32-cpu/src/mmu.rs:299-305 | an aligned address gives the packing of its upper 12 bits with the attribute fields |
| Mmu.PeripheralSectionVector | aarch32-cpu/src/mmu.rs:347-402 | address 0x0010_0000 with device attributes encodes to 0x0010_0DE6 |
| Mmu.MemorySectionVector | aarch32-cpu/src/mmu.rs:362-424 | address 0x0020_0000 with fully cacheable attributes encodes to 0x0021_5D46 |
| Mmu.UpdatedSectionVector | aarch32-cpu/src/mmu.rs:426-454 | replacing the attributes of 0x0021_5D46 with the read-only strongly-ordered set gives 0x0022_8B32 |
| Mmu.RejectedEntryVectors | aarch32-cpu/src/mmu.rs:456-460 | an address of 0x0010_0001 panics, and the zero entry decodes to a fault-type error |
| Ttbr0Reg.RegionFromRaw | aarch32-cpu/src/register/ttbr0.rs:81-93 | every 2-bit RGN pattern decodes to the region with that encoding (the enum is exhaustive) |
| Ttbr0Reg.RegionRoundTrip | aarch32-cpu/src/register/ttbr0.rs:81-93 | encoding a region and decoding it again gives it back |
| Ttbr0Reg.GetAddress | aarch32-cpu/src/register/ttbr0.rs:57-62 | the address has its low seven bits clear and is the ADDR field (bits 7..31) shifted back into place |
| Ttbr0Reg.WithAddress | aarch32-cpu/src/register/ttbr0.rs:72-78 | reading the address back gives the given address with its low seven bits cleared; bits 0..6 are kept |
| Ttbr0Reg.SetAddress | aarch32-cpu/src/register/ttbr0.rs:64-70 | the in-place form gives the same value as `with_address`, so the address reads back rounded down to 128 bytes |
| Ttbr0Reg.WithAddressKeepsAttributes | aarch32-cpu/src/register/ttbr0.rs:10-54 | changing the address leaves C, S, bit 2, RGN, NOS and IRGN as they were |
| Ttbr0Reg.WithRgn | aarch32-cpu/src/register/ttbr0.rs:30-35 | the new value reads back the given region and every bit outside 3..4 is kept |
| Ttbr0Reg.Read | aarch32-cpu/src/register/ttbr0.rs:107-112 | the value read is the register's raw content, and one read is recorded |
| Ttbr0Reg.Write | aarch32-cpu/src/register/ttbr0.rs:114-124 | the register receives exactly the value's raw bits, and one write is recorded |
| DacrReg.DomainFromRaw | aarch32-cpu/src/register/dacr.rs:13-27 | every 2-bit field value decodes to the domain access with that encoding (the enum is exhaustive) |
| DacrReg.DomainRoundTrip | aarch32-cpu/src/register/dacr.rs:13-27 | encoding a domain access and decoding it again gives it back |
| DacrReg.WithD | aarch32-cpu/src/register/dacr.rs:8-11 | domain `i` reads back the written access, the other fifteen domains are unchanged, and no bit outside `2i..2i+1` changes |
| DacrReg.Domains | aarch32-cpu/src/register/dacr.rs:8-11 | a register value has exactly sixteen domain fields |
| DacrReg.DomainsOfFromDomains | aarch32-cpu/src/register/dacr.rs:8-11 | writing sixteen domain fields into a register value and reading them back gives the same fields |
| DacrReg.DomainsDetermine | aarch32-cpu/src/register/dacr.rs:8-11 | the sixteen domains cover all 32 bits: two values with the same domains are equal |
| DacrReg.FromDomainsOfDomains | aarch32-cpu/src/register/dacr.rs:8-11 | reading all domains of any value and writing them back gives that value |
| DacrReg.Read | aarch32-cpu/src/register/dacr.rs:39-45 | the value read is the register's raw content, and one read is recorded |
| DacrReg.Write | aarch32-cpu/src/register/dacr.rs:49-56 | the register receives exactly the value's raw bits, and one write is recorded |
| DacrReg.Modify | aarch32-cpu/src/register/dacr.rs:58-67 | the register ends as the closure applied to its old value, after exactly one read and one write |
| HsrReg.EcFromRaw | aarch32-cpu/src/register/armv8r/hsr.rs:30-53 | a 6-bit code decodes to a class exactly when it is one of the eighteen named codes, and then to the class with that code |
| HsrReg.ExceptionClassRoundTrip | aarch32-cpu/src/register/armv8r/hsr.rs:30-53 | every named exception class decodes from its own code |
| HsrReg.HsrFieldsDetermineRaw | aarch32-cpu/src/register/armv8r/hsr.rs:8-28 | EC, IL and ISS together are the whole register: building from the fields read gives the value back |
| HsrReg.HsrFieldsRoundTrip | aarch32-cpu/src/register/armv8r/hsr.rs:8-28 | building a value from EC, IL and ISS and reading them back gives the same three fields |
| HsrReg.Read | aarch32-cpu/src/register/armv8r/hsr.rs:74-80 | the value read is the register's raw content, and one read is recorded |
| HsrReg.Write | aarch32-cpu/src/register/armv8r/hsr.rs:84-95 | the register receives exactly the value's raw bits, and one write is recorded |
| HcrReg.BsuFromRaw | aarch32-cpu/src/register/armv8r/hcr.rs:92-105 | every 2-bit BSU pattern decodes to the variant with that encoding (the enum is exhaustive) |
| HcrReg.BsuRoundTrip | aarch32-cpu/src/register/armv8r/hcr.rs:92-105 | each BSU variant decodes from its own pattern |
| HcrReg.WithBsu | aarch32-cpu/src/register/armv8r/hcr.rs:60-62 | the new value reads back the given BSU and every bit outside 10..11 is kept |
| HcrReg.FlagOutsideBsuAndReserved | aarch32-cpu/src/register/armv8r/hcr.rs:8-90 | no one-bit field overlaps BSU (bits 10..11) or the unnamed bits 2, 19, 25 and 28 |
| HcrReg.FlagAtMask | aarch32-cpu/src/register/armv8r/hcr.rs:8-90 | each one-bit field is recovered from its bit position, so the 26 positions are distinct |
| HcrReg.FlagMasksDisjoint | aarch32-cpu/src/register/armv8r/hcr.rs:8-90 | two different one-bit fields occupy different bits |
| HcrReg.WithFlagKeepsOtherFlags | aarch32-cpu/src/register/armv8r/hcr.rs:8-90 | after setting one flag, that flag reads back the written value and every other flag reads as before |
| HcrReg.WithFlagKeepsBsuAndReserved | aarch32-cpu/src/register/armv8r/hcr.rs:8-90 | setting a flag leaves BSU and the unnamed bits as they were |
| HcrReg.WithBsuKeepsFlags | aarch32-cpu/src/register/armv8r/hcr.rs:8-90 | setting BSU leaves every one-bit flag as it was |
| HcrReg.WithBsuKeepsReserved | aarch32-cpu/src/register/armv8r/hcr.rs:8-90 | setting BSU leaves the unnamed bits as they were |
| HcrReg.Read | aarch32-cpu/src/register/armv8r/hcr.rs:117-123 | the value read is the register's raw content, and one read is recorded |
| HcrReg.Write | aarch32-cpu/src/register/armv8r/hcr.rs:127-138 | the register receives exactly the value's raw bits, and one write is recorded |
| HcptrReg.FlagMasksDisjoint | aarch32-cpu/src/register/armv8r/hcptr.rs:8-21 | the four fields are single bits, pairwise distinct, and outside the 28 unnamed bits |
| HcptrReg.WithFlagKeepsOtherFlags | aarch32-cpu/src/register/armv8r/hcptr.rs:8-21 | after setting one field, it reads back the written value and the other three read as before |
| HcptrReg.WithFlagKeepsUnnamedBits | aarch32-cpu/src/register/armv8r/hcptr.rs:8-21 | setting a field leaves the 28 unnamed bits as they were |
| HcptrReg.Read | aarch32-cpu/src/register/armv8r/hcptr.rs:33-38 | the value read is the register's raw content, and one read is recorded |
| HcptrReg.Write | aarch32-cpu/src/register/armv8r/hcptr.rs:54-61 | the register receives exactly the value's raw bits, and one write is recorded |
| HcptrReg.Modify | aarch32-cpu/src/register/armv8r/hcptr.rs:40-49 | the register ends as the closure applied to its old value, after exactly one read and one write |
| VersatileMmu.Megabyte | examples/versatileab/src/mmu.rs:53-63 | `page * ONE_MB` is 1 MiB aligned, so the SDRAM loop never panics |
| VersatileMmu.PeripheralMegabyte | examples/versatileab/src/mmu.rs:67-71 | `0x1000_0000 + page * ONE_MB` is 1 MiB aligned, so the peripheral loop never panics |
| VersatileMmu.MapSdram | examples/versatileab/src/mmu.rs:59-66 | entries 0..127 map megabyte `i` to itself with the SDRAM attributes; entries from 128 on are untouched |
| VersatileMmu.MapPeripherals | examples/versatileab/src/mmu.rs:67-74 | entries 0x100 and 0x101 map the two megabytes at 0x1000_0000 with the device attributes; no other entry changes |
| VersatileMmu.MakeMmuTable | examples/versatileab/src/mmu.rs:26-79 | a fresh 4096-entry table: SDRAM identity-mapped in entries 0..127, peripherals in 0x100..0x101, every other entry the zero fault entry |
| VersatileMmu.MmuTtbr0Raw | examples/versatileab/src/mmu.rs:82-89 | the builder chain yields the table address with its low seven bits cleared, OR 0xB |
| VersatileMmu.MmuTtbr0Fields | examples/versatileab/src/mmu.rs:82-89 | the TTBR0 value points at the table, with RGN write-back write-allocate, S and C set and IRGN and NOS clear |
| VersatileMmu.SetMmu | examples/versatileab/src/mmu.rs:81-91 | TTBR0 receives that value in one write, and for a 1 MiB aligned table its address reads back exactly |
| VersatileMmu.SetD0Manager | examples/versatileab/src/mmu.rs:95-98 | the DACR closure gives domain 0 Manager access and keeps domains 1..15 |
| VersatileMmu.SetCacheAndMmu | examples/versatileab/src/mmu.rs:99-105 | the SCTLR closure sets C and M and keeps every other bit |
| VersatileMmu.ModifySctlr | examples/versatileab/src/mmu.rs:99-105 | `Sctlr::modify` reads SCTLR once and then writes the closure's result once |
| VersatileMmu.EnableMmuAndCache | examples/versatileab/src/mmu.rs:93-106 | after the call domain 0 is Manager, the other domains are unchanged, and SCTLR has C and M set with every other bit kept; each register's access log gains exactly one read of its old value followed by one write of its new value |
| RtStacks.IterListsEveryStackOnce | aarch32-rt/src/stacks.rs:40-54 | `Stack::iter` yields seven stacks, each exactly once and each at its own index |
| RtStacks.NamesDistinct | aarch32-rt/src/stacks.rs:22-38 | every display name has three characters and no two stacks share one |
| RtStacks.PerCoreSizeWords | aarch32-rt/src/stacks.rs:90-112 | the per-core size in words is the byte size divided by four, rounded down |
| RtStacks.Top | aarch32-rt/src/stacks.rs:56-65 | `None` exactly when the core number exceeds `num_cores` (so `num_cores` itself is accepted) |
| RtStacks.Bottom | aarch32-rt/src/stacks.rs:67-71 | `None` exactly when `top` is, otherwise one per-core stack below `top` |
| RtStacks.StackRange | aarch32-rt/src/stacks.rs:73-80 | a range exactly when the core number is at most `num_cores`, spanning one per-core stack |
| RtStacks.CoresTile | aarch32-rt/src/stacks.rs:56-71 | core `c`'s bottom is core `c + 1`'s top: adjacent cores tile the mode's area |
| RtStacks.AreasAscend | aarch32-rt/src/lib.rs:78-98 | under the documented layout an earlier area in `iter` order lies wholly below a later one |
| RtStacks.CoreStackInArea | aarch32-rt/src/lib.rs:78-98 | under the documented layout every existing core's stack lies inside its mode's area |
| RtStacks.CoreTop | aarch32-rt/src/stacks.rs:56-65 | the corrected guard: a top exactly for cores below `num_cores`, equal to `top` there |
| RtStacks.CoreRange | aarch32-rt/src/stacks.rs:73-80 | the corrected range: defined exactly for cores below `num_cores`, equal to `range` there |
| RtStacks.CoreRangeInArea | aarch32-rt/src/lib.rs:78-98 | every range of the corrected guard lies inside its mode's area |
| RtStacks.RangePastLastCore | aarch32-rt/src/stacks.rs:56-80 | the guard as written gives core `num_cores` an SVC range just below the SVC area that overlaps core 0's UND stack |
| RtStacks.StacksDisjoint | aarch32-rt/src/stacks.rs:56-80 | under the documented layout the stacks of two different (mode, existing core) pairs do not overlap |
| StackUsage.LeadingZeroWords | aarch32-cpu/src/stacks.rs:22-33 | the count of contiguous zero words at the start: at most the length, all counted words zero, the next word (if any) non-zero |
| StackUsage.LeadingZeroWordsUnique | aarch32-cpu/src/stacks.rs:22-33 | any zero prefix followed by a non-zero word or the end fixes that count |
| StackUsage.StackUnusedWords | aarch32-cpu/src/stacks.rs:34-62 | the scan returns the leading-zero count of the `size` words at `start`, stops at the first non-zero word and returns 0 at once for size 0 |
| StackUsage.StackUsedBytes | aarch32-cpu/src/stacks.rs:3-20 | total is four bytes per word of the range; used is four bytes per word above the unused zero words, never more than total |
| StackUsage.UsageExtremes | aarch32-cpu/src/stacks.rs:22-33 | an all-zero stack is wholly unused, and one whose lowest word is non-zero has no unused words |
| Machine.MaskedControl | aarch32-rt/src/lib.rs:849-890 | the mode constants are the control byte of their mode with I and F set, T clear and no bit above 7 |
| Machine.AlignedRoundTrip | aarch32-rt/src/arch_v8_hyp/interrupt.rs:17-35 | the align-and-push sequence (`and r12, sp, 7; sub sp, r12; push {.., r12}`) is undone by `pop {.., r12}; add sp, r12`, keeps the stack above, and leaves SP 8-byte aligned for an even push |
| Machine.BxSetsThumb | aarch32-rt/src/lib.rs:799-805 | after `bx` the T bit is bit 0 of the target and every other CPSR bit is as before |
| Machine.SysReturnMode | aarch32-rt/src/lib.rs:793-805 | after `msr cpsr_c, sys_mode` and `bx r3` the processor is in SYS mode with IRQ and FIQ masked, Thumb exactly when bit 0 of the return address is set |
| Machine.TstPsr | aarch32-rt/src/arch_v7/svc.rs:23 | `tst` sets N to bit 31 and Z to zero-ness of `value & mask`, and keeps C, V and every other CPSR bit |
| Machine.TstThumb | aarch32-rt/src/arch_v7/undefined.rs:21 | `tst` of a saved PSR against the T bit clears N, sets Z exactly when the saved state was Arm, and keeps the rest of the CPSR |
| Machine.SubsKeepsMode | aarch32-rt/src/lib.rs:962 | `cmp`/`subs` change only the flags, so the control byte and the mode are kept |
| Machine.BxKeepsMode | aarch32-rt/src/lib.rs:935 | an interworking branch keeps the mode field and the I and F masks |
| Machine.BranchTarget | aarch32-rt/src/lib.rs:935 | the address an interworking branch goes to has bit 0 clear and differs from the target only in bit 0 |
| FpuContext.FpuBytes | aarch32-rt/src/lib.rs:569-697 | the save sequence pushes a multiple of eight bytes: 0, 72 (D16) or 200 (D32) |
| FpuContext.FpuMirror | aarch32-rt/src/lib.rs:569-697 | `restore_fpu_context!` undoes `save_fpu_context!` exactly, FPSCR and FPEXC sit at the new SP, and 8-byte alignment is kept |
| FpuContext.SaveFpu | aarch32-rt/src/lib.rs:616-677 | the save pushes 0, 72 or 200 bytes, and with an FPU the two words at the new SP are FPSCR then FPEXC (that the old stack lies unchanged above is `FpuMirror`) |
| FpuContext.RestoreFpu | aarch32-rt/src/lib.rs:638-697 | the restore pops exactly as many bytes as the save pushed, and the stack left is the one that lay above them |
| FpuContext.SaveFpuTop | aarch32-rt/src/lib.rs:596-677 | the save sequence leaves the stack it started from directly above the pushed context |
| FpuContext.SaveFpuContext | aarch32-rt/src/lib.rs:596-677 | the save sequence builds that stack and, with an FPU, damages r0 and r1 (they hold FPSCR and FPEXC) |
| FpuContext.RestoreFpuContext | aarch32-rt/src/lib.rs:628-697 | the restore sequence reloads FPSCR and FPEXC from the two words at SP, through r0 and r1, and pops the D registers |
| Boot.UnalignedEndNeverReached | aarch32-rt/src/lib.rs:814-844 | a loop that steps its pointer by 4 and stops only on equality never reaches an end whose distance is not a multiple of 4, which is why every bound must be 4-byte aligned |
| Boot.ZeroLoop | aarch32-rt/src/lib.rs:814-832 | each zeroing loop stores 0 to exactly the words of its region and leaves every other word as it was |
| Boot.CopyLoop | aarch32-rt/src/lib.rs:834-844 | the copy loop gives every word of `.data` the matching word of the load image and changes nothing else |
| Boot.ZeroBssAndStacks | aarch32-rt/src/lib.rs:814-833 | after the two zeroing loops, exactly `.bss` and the stacks are zero |
| Boot.InitSegments | aarch32-rt/src/lib.rs:808-847 | `.bss` and the stacks are zero, `.data` holds its load image, and every word outside the three regions is unchanged |
| Boot.SetupSpIsTop | aarch32-rt/src/lib.rs:763-798 | for an existing core whose offset does not wrap, each `subs sp, r2, r1` gives exactly that core's `Stack::top` |
| Boot.SetupSpCoreZero | aarch32-rt/src/lib.rs:763-798 | for core 0 each mode's SP is its area's high end |
| Boot.SetupStep | aarch32-rt/src/lib.rs:763-768 | each block writes its mode's masked control byte, keeps bits 8..27, and leaves the N, Z and C flags of its subtraction |
| Boot.ReturnFromSetup | aarch32-rt/src/lib.rs:804-805 | `bx r3` from SYS mode gives the SYS return CPSR and keeps every bit above the control byte |
| Boot.SetupCpsr | aarch32-rt/src/lib.rs:759-805 | the six control bytes written are UND, SVC, ABT, IRQ, FIQ and SYS in that order, masked; the return CPSR is SYS masked with T from the return address |
| Boot.SetupControls | aarch32-rt/src/lib.rs:849-890 | there are six control bytes, the `i`-th selecting the `i`-th mode of the setup order with IRQ and FIQ masked and Arm state |
| Boot.StackSetupPreallocated | aarch32-rt/src/lib.rs:752-806 | from any PL1 mode the routine leaves the state `StackSetupState` (the six SPs of the core in r0, SCTLR.TE clear, PC at the entry LR) and the SYS return CPSR |
| Boot.StackSetupOutcome | aarch32-rt/src/lib.rs:752-806 | each of UND, SVC, ABT, IRQ, FIQ and SYS has the core's stack top, the Hyp bank is untouched, only SCTLR.TE changes among the CP15 registers, and execution resumes at the caller in SYS mode with IRQ and FIQ masked |
| SmpStack.Top | examples/mps3-an536/src/bin/smp_test.rs:269-300 | the SP of the `i`-th mode is the stack top less the first `i` sizes, each subtraction modulo 2^32 |
| SmpStack.Tops | examples/mps3-an536/src/bin/smp_test.rs:273-300 | the list has one SP per mode of the setup order, and its `i`-th entry is that mode's carved top |
| SmpStack.Carve | examples/mps3-an536/src/bin/smp_test.rs:273-307 | UND, SVC, ABT, IRQ, FIQ and SYS (through the USR bank) get the given SPs in that order; r1 and SCTLR hold SCTLR with TE clear and the other CP15 registers are kept; r2 holds the return address and the PC is it with bit 0 cleared; the Hyp bank, CPSR and memory are unchanged |
| SmpStack.CarvedSps | examples/mps3-an536/src/bin/smp_test.rs:273-300 | whatever CPSR follows, the SP of the `i`-th mode of the setup order, read through its bank, is the `i`-th SP given |
| SmpStack.SetupSps | examples/mps3-an536/src/bin/smp_test.rs:273-300 | after the routine the SP of the `i`-th mode of the setup order is its carved top |
| SmpStack.Enter | examples/mps3-an536/src/bin/smp_test.rs:274 | `msr cpsr_c` writes its mode's masked control byte and keeps every higher bit |
| SmpStack.SetupCpsr | examples/mps3-an536/src/bin/smp_test.rs:269-307 | the six control bytes written are the masked bytes of UND, SVC, ABT, IRQ, FIQ and SYS in order, and `bx r2` returns in SYS mode with T from the return address |
| SmpStack.StackSetup | examples/mps3-an536/src/bin/smp_test.rs:263-308 | from a PL1 mode the routine gives each mode its carved SP, leaves the SYS top in r0, clears SCTLR.TE and returns to the entry LR kept in r2 |
| SmpStack.SubNoBorrow | examples/mps3-an536/src/bin/smp_test.rs:277 | a 32-bit `sub` that does not borrow is the integer subtraction |
| SmpStack.TopExact | examples/mps3-an536/src/bin/smp_test.rs:273-300 | when the stacks fit below the top, no subtraction wraps: the `i`-th SP is the top less the sizes carved before it |
| SmpStack.CarvedMonotone | examples/mps3-an536/src/bin/smp_test.rs:273-300 | the amount carved never decreases from one mode to the next |
| SmpStack.StacksAbut | examples/mps3-an536/src/bin/smp_test.rs:273-300 | the `i`-th stack spans exactly its size, and the next mode's SP is its low end: no gap and no overlap |
| SmpStack.StacksDisjoint | examples/mps3-an536/src/bin/smp_test.rs:273-300 | every later mode's SP lies at or below the low end of every earlier carved stack, and all lie at or below the top |
| SmpStack.CarvedSpan | examples/mps3-an536/src/bin/smp_test.rs:273-300 | the SYS stack starts exactly the sum of the five sizes below the top |
| SmpStack.SetupOutcome | examples/mps3-an536/src/bin/smp_test.rs:263-308 | the caller sees each visited mode's SP at its carved top, the Hyp bank untouched, only TE cleared in SCTLR, and a return to its LR in SYS mode with IRQ and FIQ masked |
| SmpStack.TeCleared | examples/mps3-an536/src/bin/smp_test.rs:303-305 | `bic r1, #te_bit` clears TE and keeps every other SCTLR bit |
| Start.Offset | aarch32-rt/src/lib.rs:541-549 | every exception's vector lies on a word boundary inside the 32-byte table |
| Start.VectorTableLayout | aarch32-rt/src/lib.rs:536-550 | the table is eight words long; the word at each exception's offset jumps to that exception's handler (reset to `_start`, the sixth slot a `nop`); distinct exceptions have distinct offsets |
| Start.EnableFpu | aarch32-rt/src/lib.rs:714-727 | `fpu_enable!()` ORs 0xF00000 into CPACR and changes no other CP15 register, sets FPEXC to EN (0x40000000) and keeps the CPSR and every banked register |
| Start.ZeroRegisters | aarch32-rt/src/lib.rs:920-933 | r0-r12 are all zero afterwards and the CPSR, banks, CP15 registers and FPEXC are unchanged |
| Start.SetCurrentLr | aarch32-rt/src/lib.rs:916 | `bl _stack_setup_preallocated` writes the return address into the current mode's LR and keeps the mode, r0, the Hyp bank, the CP15 registers and FPEXC |
| Start.CallKmain | aarch32-rt/src/lib.rs:934-937 | `bl kmain` enters `kmain` with LR_sys at the `b .` spin loop, the PC at `kmain` with bit 0 cleared and the CPSR as `bx` leaves it (T from bit 0 of `kmain`), keeps every bank, CP15 register and FPEXC, and keeps r0-r12 zero |
| Start.KmainPsr | aarch32-rt/src/lib.rs:935 | the branch to `kmain` keeps SYS mode and the IRQ and FIQ masks, and selects Thumb state exactly when bit 0 of `kmain` is set |
| Start.SetupCoreZero | aarch32-rt/src/lib.rs:914-916 | `mov r0, #0; bl _stack_setup_preallocated` returns in SYS mode with IRQ and FIQ masked, Arm state, every mode but Hyp at the high end of its stack area, SCTLR.TE clear and the rest of CP15, the Hyp bank and FPEXC unchanged |
| Start.AfterSetup | aarch32-rt/src/lib.rs:914-916 | the general outcome of `_stack_setup_preallocated` for core 0 with an Arm return address is the `SetUp` state above |
| Start.SetupForCoreZero | aarch32-rt/src/lib.rs:763-798 | for core 0 every mode of the setup order gets the high end of its stack area |
| Start.Launched | aarch32-rt/src/lib.rs:917-937 | from the set-up state, the optional FPU enable, the thirteen zeroing moves and `bl kmain` reach `kmain` in the documented state (SYS mode, IRQ and FIQ masked, Thumb state exactly when bit 0 of `kmain` is set), with the FPU configured exactly when the target has one |
| Start.LaunchedAtKmain | aarch32-rt/src/lib.rs:917-937 | those steps keep every mode's stack pointer and leave r0-r12 zero, LR_sys at the spin loop, PC at `kmain` with bit 0 cleared, and T set exactly when bit 0 of `kmain` is |
| Start.LaunchedFpu | aarch32-rt/src/lib.rs:917-937 | those steps change CPACR and FPEXC only if there is an FPU, and never touch the Hyp bank, VBAR, HVBAR or HACTLR |
| Start.Launch | aarch32-rt/src/lib.rs:914-937 | `_default_start` after `_init_segments` reaches `kmain` in SYS mode, IRQ and FIQ masked, Thumb state exactly when bit 0 of `kmain` is set, PC at `kmain` with bit 0 cleared, core 0's stacks, r0-r12 zero, LR_sys at the spin loop, SCTLR.TE clear, the FPU enabled exactly when present, and the Hyp bank, VBAR, HVBAR and HACTLR untouched |
| Start.StartEl1 | aarch32-rt/src/lib.rs:911-937 | RAM ends with `.bss` and the stacks zero, `.data` copied from its load image and the rest unchanged, and the processor is as `Launch` states |
| Start.DefaultStart | aarch32-rt/src/lib.rs:901-939 | `_default_start` for targets that boot into a PL1 mode: the memory and processor outcome of `StartEl1` from any PL1 reset mode |
| Start.SysMaskedIsSys | aarch32-rt/src/lib.rs:1029-1035 | the value loaded into SPSR_hyp selects SYS mode with IRQ and FIQ masked and the Arm instruction set |
| Start.DropToEl1 | aarch32-rt/src/lib.rs:964-981 | SP_hyp becomes the Hyp stack's high end, HVBAR the vector table, HACTLR gains the given bits, SPSR_hyp and the CPSR after `eret` are SYS masked, ELR_hyp and PC are label `1:`, and nothing else but r1 and r2 changes |
| Start.SetVbar | aarch32-rt/src/lib.rs:982-986 | VBAR (and r0) becomes the vector table's address and no other CP15 register, the CPSR, the Hyp bank or FPEXC changes |
| Start.HactlrWithBits | aarch32-rt/src/lib.rs:969-973 | `orr r1, r1, r2` on HACTLR sets every bit of `hactlr_bits` and clears no bit |
| Start.ReachEl1 | aarch32-rt/src/lib.rs:958-986 | from any privileged mode execution reaches label `1:` in a PL1 mode with VBAR at the vector table; SP_hyp, HVBAR and HACTLR are set exactly when the mode field was Hyp's, and kept otherwise |
| Start.V8rOutcome | aarch32-rt/src/lib.rs:958-1012 | the EL2 prologue followed by the common start-up gives `kmain` the documented state (Thumb state exactly when bit 0 of `kmain` is set) plus VBAR at the table, and the Hyp-only settings exactly when started in Hyp mode |
| Start.DefaultStartV8r | aarch32-rt/src/lib.rs:950-1036 | the Armv8-R `_default_start` initialises RAM as `StartEl1` does and reaches `kmain` in the state `V8rOutcome` states |
| Start.CpacrFullAccessBits | aarch32-rt/src/lib.rs:714-727 | `fpu_enable!()` grants full access to CP10 and CP11 (CPACR bits 20-23 set) and leaves every other CPACR bit as it was |
| TrampolinesV7.EnterAligned | aarch32-rt/src/arch_v7/abort.rs:18-24 | after the alignment step, the push and the FPU save, SP is 8-byte aligned and the stack as it was before lies untouched above the new frame |
| TrampolinesV7.LeaveAligned | aarch32-rt/src/arch_v7/abort.rs:30-33 | the FPU restore, `pop {regs.., r12}` and `add sp, r12` give back exactly the stack and registers that were saved, and FPSCR and FPEXC when there is an FPU |
| TrampolinesV7.UnwindFrame | aarch32-rt/src/arch_v7/abort.rs:18-33 | unwinding the frame finds FPSCR and FPEXC at its bottom, then the pushed registers above the alignment word (0 or 4), then the stack as it was |
| TrampolinesV7.PopAndReturn | aarch32-rt/src/arch_v7/abort.rs:34-36 | `pop {r12}` returns the saved r12, `str lr, [sp]` replaces the stored return address, and `rfefd` loads PC from LR and the CPSR from the stored SPSR, freeing the three words |
| TrampolinesV7.PopLrAndReturn | aarch32-rt/src/arch_v7/interrupt.rs:34-35 | `pop {lr}` then `rfefd` restores LR and loads PC and CPSR from the two words above it, freeing three words |
| TrampolinesV7.FaultCall | aarch32-rt/src/arch_v7/abort.rs:17-36 | the handler is called with the given address on an 8-byte aligned stack above which lie r12 and the `srsfd` words; execution resumes at the handler's result with the stored SPSR, and SP, r0-r4 and r12 come back as they were |
| TrampolinesV7.AbortTrampoline | aarch32-rt/src/arch_v7/abort.rs:15-79 | the handler receives LR_abt less the offset on an aligned stack; execution resumes at the handler's result with SPSR_abt as CPSR; SP_abt, r0-r3 and r12 are restored; FPSCR and FPEXC are restored when there is an FPU; only the Abort bank changes |
| TrampolinesV7.DataAbort | aarch32-rt/src/arch_v7/abort.rs:8-40 | the data abort handler receives LR_abt - 8 and execution resumes at its result, with SP_abt and the caller-saved registers restored |
| TrampolinesV7.PrefetchAbort | aarch32-rt/src/arch_v7/abort.rs:42-79 | the prefetch abort handler receives LR_abt - 4 (the code subtracts 4) and execution resumes at its result, with SP_abt and the caller-saved registers restored |
| TrampolinesV7.UndefinedTrampoline | aarch32-rt/src/arch_v7/undefined.rs:17-42 | `srsfd` stores the unadjusted LR_und; the handler is called with the CPSR flags that `tst` of SPSR_und's T bit leaves; it receives LR_und - 4 from Arm state and LR_und - 2 from Thumb state; execution resumes at its result with SPSR_und as CPSR, and SP_und and r0-r3 and r12 are restored |
| TrampolinesV7.SvcTrampoline | aarch32-rt/src/arch_v7/svc.rs:16-39 | the handler receives the SVC number decoded from the calling instruction and is called with the CPSR flags that `tst` of SPSR_svc's T bit leaves, with LR_svc and SPSR_svc stored on the SVC stack; execution resumes at LR_svc with SPSR_svc as CPSR whatever the handler does, SP_svc is restored, and only the SVC bank changes |
| TrampolinesV7.IrqCall | aarch32-rt/src/arch_v7/interrupt.rs:17-35 | on the System-mode stack the handler is called 8-byte aligned above LR_sys and the `srsfd` words, and SP, r0-r3, r12 and LR_sys come back, returning to the adjusted LR with the stored SPSR |
| TrampolinesV7.IrqTrampoline | aarch32-rt/src/arch_v7/interrupt.rs:16-36 | the handler runs in System mode with the I bit as on entry; execution resumes at LR_irq - 4 with SPSR_irq as CPSR; SP_irq, SP_sys, LR_sys, r0-r3 and r12 are as on entry, and LR_irq and SPSR_irq hold whatever a nested IRQ left |
| TrampolinesV7.HvcEnter | aarch32-rt/src/arch_v7/hvc.rs:18-22 | `push {r12, lr}; push {r0-r5}` and the FPU save leave the six-word `Frame` directly above the FPU context, 32 bytes plus the context below the entry SP |
| TrampolinesV7.HvcLeave | aarch32-rt/src/arch_v7/hvc.rs:29-33 | the FPU restore and the pops give back SP, r12 and LR, with r0 replaced by the handler's result and r1-r5 from the frame |
| TrampolinesV7.HvcCall | aarch32-rt/src/arch_v7/hvc.rs:18-33 | the handler receives the HSR and the address of the frame holding r0-r5; SP, r12 and LR come back and r0 carries the handler's result |
| TrampolinesV7.HvcArgs | aarch32-rt/src/arch_v7/hvc.rs:19 | the frame is the six registers r0-r5 |
| TrampolinesV7.HvcV8r | aarch32-rt/src/arch_v7/hvc.rs:3-37 | on Armv8-R, r0 returns the handler's result; r1-r5, r12, LR_hyp and SP_hyp are restored; `eret` resumes at whatever ELR_hyp and SPSR_hyp hold after the handler, which the trampoline does not save |
| TrampolinesV7.HvcExit | aarch32-rt/src/arch_v7/hvc.rs:32-34 | after `eret` only r0, r12, LR, SP_hyp, the FPU words, PC and CPSR differ from entry: PC from ELR_hyp and CPSR from SPSR_hyp |
| TrampolinesV7.HvcTrampoline | aarch32-rt/src/arch_v7/hvc.rs:1-56 | on Armv8-R the trampoline calls the handler and returns its result in r0 with SP_hyp restored; on every other target it is `b .`, which neither calls the handler nor returns |
| TrampolinesV4.MsrSpsrFc | aarch32-rt/src/arch_v4/abort.rs:37 | `msr spsr, rX` writes exactly the flags and control bytes from the source register and keeps bits 8-23 of the SPSR |
| TrampolinesV4.MsrSpsrFcSame | aarch32-rt/src/arch_v4/abort.rs:36-37 | writing an SPSR's own value back over it leaves it unchanged |
| TrampolinesV4.IrqMaskedControl | aarch32-rt/src/arch_v4/interrupt.rs:48-60 | each constant selects its mode with IRQ masked, FIQ unmasked, Arm state and nothing above the control byte |
| TrampolinesV4.AbortTrampoline | aarch32-rt/src/arch_v4/abort.rs:16-73 | the handler receives LR_abt less the offset, with SPSR_abt and r0 stacked; execution resumes at the handler's result with SPSR_abt's flags and control bytes restored into SPSR and CPSR; SP_abt and r0 come back and only the Abort bank changes |
| TrampolinesV4.SvcTrampoline | aarch32-rt/src/arch_v4/svc.rs:17-41 | the handler receives the decoded SVC number with SPSR_svc, r0 and LR_svc stacked and the CPSR flags that `tst` of SPSR_svc's T bit leaves; execution resumes after the SVC with SPSR_svc restored in full as SPSR and CPSR, SP_svc restored, and r0 as it was at entry |
| TrampolinesV4.IrqStackFrame | aarch32-rt/src/arch_v4/interrupt.rs:20-25 | the words pushed on the IRQ stack come back: SP_irq is restored, LR ends holding the stacked SPSR, SPSR_irq gets its flags and control bytes back, and PC is loaded from the adjusted return address |
| TrampolinesV4.IrqTrampoline | aarch32-rt/src/arch_v4/interrupt.rs:18-46 | the handler runs in System mode with IRQ masked and FIQ unmasked on the System-mode stack; the way back is in IRQ mode with IRQ masked; execution resumes at LR_irq - 4 with SPSR_irq restored; SP_irq and SP_sys are as on entry |
| TrampolinesHyp.HypEnter | aarch32-rt/src/arch_v8_hyp/abort.rs:16-24 | after `push {r0-r3, r12, lr}`, the aligned push of ELR_hyp and SPSR_hyp and the FPU save, SP is 8-byte aligned and the six pushed registers lie above the frame |
| TrampolinesHyp.HypLeave | aarch32-rt/src/arch_v8_hyp/abort.rs:30-35 | unwinding gives back SP, the six pushed registers and the stored ELR and SPSR, and FPSCR and FPEXC when there is an FPU |
| TrampolinesHyp.HypCall | aarch32-rt/src/arch_v8_hyp/abort.rs:16-35 | the handler is called on an 8-byte aligned stack with the pushed registers above it, and SP, r0-r3, r12 and the stored ELR and SPSR come back |
| TrampolinesHyp.FaultTrampoline | aarch32-rt/src/arch_v8_hyp/abort.rs:15-77 | the data abort, prefetch abort and undefined handlers receive ELR_hyp; its result becomes ELR_hyp and `eret` resumes there with SPSR_hyp restored as CPSR; SP_hyp, LR, r0-r3 and r12 are as on entry and no bank changes |
| TrampolinesHyp.IrqTrampolineAsWritten | aarch32-rt/src/arch_v8_hyp/interrupt.rs:16-35 | as written, `eret` resumes at whatever ELR_hyp holds after the handler, while the registers, SP_hyp and SPSR_hyp are restored |
| TrampolinesHyp.NestedIrqLosesReturnAddress | aarch32-rt/src/arch_v8_hyp/interrupt.rs:27-35 | there is an entry state and handler effect (ELR_hyp overwritten from 0x8000 to 0x9000) for which the trampoline as written resumes somewhere other than the interrupted instruction |
| TrampolinesHyp.IrqTrampoline | aarch32-rt/src/arch_v8_hyp/interrupt.rs:16-35 | with ELR_hyp written back from the frame, `eret` resumes at the interrupted instruction whatever the handler leaves in ELR_hyp, with every pushed register, SP_hyp and SPSR_hyp restored |
| TrampolinesHyp.HvcEnter | aarch32-rt/src/arch_v8_hyp/hvc.rs:17-27 | the frame holds r0-r6 directly above the FPU context, at 48 to 52 bytes below the entry SP, with SPSR_hyp, ELR_hyp, r12 and LR above; SP is 8-byte aligned |
| TrampolinesHyp.HvcLeave | aarch32-rt/src/arch_v8_hyp/hvc.rs:34-43 | unwinding gives back SP, r12, LR and the stored ELR and SPSR, with r0 replaced by the handler's result |
| TrampolinesHyp.HvcCall | aarch32-rt/src/arch_v8_hyp/hvc.rs:17-43 | the handler receives the HSR and the address of the frame holding r0-r5 on an aligned stack; r0 comes back as its result and every other register, SP and the stored ELR and SPSR as they were |
| TrampolinesHyp.HvcTrampoline | aarch32-rt/src/arch_v8_hyp/hvc.rs:16-44 | the handler receives the HSR and a pointer to r0-r5; `eret` returns to ELR_hyp as on entry with SPSR_hyp as CPSR and the handler's result in r0, every other register as it was |
| Targets.StartsFromIff | arm-targets/src/lib.rs:136-140 | the character-by-character `starts_with` holds exactly when the prefix fits and agrees with the triple at every position |
| Targets.EndsFromIff | arm-targets/src/lib.rs:356-359 | the character-by-character `ends_with` holds exactly when the suffix fits and agrees with the triple at every position counted from the end |
| Targets.DashedPrefixUnique | arm-targets/src/lib.rs:204-239 | two prefixes that each end in their only '-' cannot both start the same triple unless they are equal |
| Targets.ArchGetOfPrefix | arm-targets/src/lib.rs:204-239 | although `Arch::get` takes the first test that holds, its answer for a triple with one of its prefixes is that prefix's architecture: the order of the tests does not matter |
| Targets.ProfileGet | arm-targets/src/lib.rs:314-317 | `Profile::get` is `None` exactly when `Arch::get` is, and otherwise the architecture's profile |
| Targets.AbiGet | arm-targets/src/lib.rs:355-364 | `Abi::get` gives Eabi exactly when there is an architecture and the triple ends in "eabi", and EabiHf exactly when there is one and it ends in "eabihf" |
| Targets.IsaGet | arm-targets/src/lib.rs:135-145 | `Isa::get` gives A32, T32 or A64 exactly when the triple starts with "arm", "thumb" or "aarch64" |
| Targets.ArchGet | arm-targets/src/lib.rs:204-240 | a triple with an architecture always has an instruction set (`Isa::get`, lib.rs:135-145); M-profile architectures imply T32, and Armv8-A holds exactly when the set is A64 |
| Targets.ArchPrefixesIsa | arm-targets/src/lib.rs:204-240 | every prefix `Arch::get` tests starts with "arm", "thumb" or "aarch64", the one matching its instruction set |
| Targets.ProfileOf | arm-targets/src/lib.rs:242-252 | `Arch::profile` agrees with the `cfg` names of lib.rs:276-297: a Legacy architecture's name has no '-', and every other name has its profile's letter right after the '-' |
| Targets.ProcessTarget | arm-targets/src/lib.rs:81-120 | the profile is present exactly when the architecture is, and an ABI is found only with an architecture |
| Targets.Example_armv4t_none_eabi | arm-targets/src/lib.rs:393-401 | "armv4t-none-eabi" gives A32, Armv4T, Legacy, Eabi |
| Targets.Example_armv5te_none_eabi | arm-targets/src/lib.rs:403-411 | "armv5te-none-eabi" gives A32, Armv5TE, Legacy, Eabi |
| Targets.Example_armv6_none_eabi | arm-targets/src/lib.rs:413-421 | "armv6-none-eabi" gives A32, Armv6, Legacy, Eabi |
| Targets.Example_armv6_none_eabihf | arm-targets/src/lib.rs:423-431 | "armv6-none-eabihf" gives A32, Armv6, Legacy, EabiHf |
| Targets.Example_arm_unknown_linux_gnueabi | arm-targets/src/lib.rs:433-441 | "arm-unknown-linux-gnueabi" gives A32, Armv6 (assumed with no version), Legacy, Eabi |
| Targets.Example_thumbv6m_none_eabi | arm-targets/src/lib.rs:443-451 | "thumbv6m-none-eabi" gives T32, Armv6M, M, Eabi |
| Targets.Example_thumbv7m_none_eabi | arm-targets/src/lib.rs:453-461 | "thumbv7m-none-eabi" gives T32, Armv7M, M, Eabi |
| Targets.Example_thumbv7em_nuttx_eabihf | arm-targets/src/lib.rs:463-471 | "thumbv7em-nuttx-eabihf" gives T32, Armv7EM, M, EabiHf |
| Targets.Example_thumbv8m_base_none_eabi | arm-targets/src/lib.rs:473-481 | "thumbv8m.base-none-eabi" gives T32, Armv8MBase, M, Eabi |
| Targets.Example_thumbv8m_main_none_eabihf | arm-targets/src/lib.rs:483-491 | "thumbv8m.main-none-eabihf" gives T32, Armv8MMain, M, EabiHf |
| Targets.Example_armv7r_none_eabi | arm-targets/src/lib.rs:493-501 | "armv7r-none-eabi" gives A32, Armv7R, R, Eabi |
| Targets.Example_armv8r_none_eabihf | arm-targets/src/lib.rs:503-511 | "armv8r-none-eabihf" gives A32, Armv8R, R, EabiHf |
| Targets.Example_thumbv8r_none_eabihf | arm-targets/src/lib.rs:513-521 | "thumbv8r-none-eabihf" gives T32, Armv8R, R, EabiHf |
| Targets.Example_armv7a_none_eabi | arm-targets/src/lib.rs:523-531 | "armv7a-none-eabi" gives A32, Armv7A, A, Eabi |
| Targets.Example_aarch64_unknown_none | arm-targets/src/lib.rs:533-541 | "aarch64-unknown-none" gives A64, Armv8A, A and no ABI |
| Targets.Names | arm-targets/src/lib.rs:148-154 | the mapped list has one name per variant, in the variants' order |
| Targets.ValuesListEveryVariant | arm-targets/src/lib.rs:254-273 | every variant appears in its `values()` list, and the architectures are listed without repetition |
| Targets.NamesDistinct | arm-targets/src/lib.rs:276-297 | distinct architectures, profiles and instruction sets have distinct `cfg` names |
| Targets.ArchKeyName | arm-targets/src/lib.rs:276-297 | every architecture can be read back from its `cfg` name |
| Targets.JoinQuotedAppend | arm-targets/src/lib.rs:148-154 | joining two non-empty lists of quoted names puts ", " between the joins of the parts |
| Targets.JoinQuotedQuotes | arm-targets/src/lib.rs:148-154 | a non-empty join starts and ends with a quote, and its length is the names' total length plus 4 per name less 2 |
| Targets.IsaValuesString | arm-targets/src/lib.rs:148-154 | `Isa::values()` is `"a64", "a32", "t32"` |
| Targets.AbiValuesString | arm-targets/src/lib.rs:367-373 | `Abi::values()` is `"eabi", "eabihf"` |
| Macros.FirstDisallowed | aarch32-rt-macros/src/lib.rs:457-492 | `None` exactly when every attribute is allowed; otherwise the index of an attribute that is not allowed, with every attribute before it allowed |
| Macros.WhitelistOk | aarch32-rt-macros/src/lib.rs:443-495 | the check answers `Ok` exactly when every attribute is either an outer whitelisted one or `unsafe(..)` around a whitelisted name |
| Macros.WhitelistFirstOffender | aarch32-rt-macros/src/lib.rs:479-491 | when it fails, the error points at the first attribute that is not allowed and carries the caller's message |
| Macros.InWhitelist | aarch32-rt-macros/src/lib.rs:462-466 | the loop over the whitelist finds a name exactly when it is one of the ten entries |
| Macros.NestedListed | aarch32-rt-macros/src/lib.rs:459-471 | the `parse_nested_meta` callback sets `whitelisted` exactly when some nested path is a whitelisted identifier |
| Macros.OuterListed | aarch32-rt-macros/src/lib.rs:473-477 | the inner loop finds a match exactly when the attribute is outer and its path is one of the whitelisted identifiers |
| Macros.CheckAttrWhitelist | aarch32-rt-macros/src/lib.rs:443-495 | the loop with `continue 'o` answers exactly as `WhitelistResult`: `Ok` when all attributes are allowed, otherwise the first offender's span and the caller's message |
| Macros.Keep | aarch32-rt-macros/src/lib.rs:427-440 | each part holds only attributes of its kind (`cfg` or not), all drawn from the input |
| Macros.KeepAppend | aarch32-rt-macros/src/lib.rs:427-440 | splitting a concatenation gives the concatenation of the splits, so each part keeps the input's order |
| Macros.KeepPermutation | aarch32-rt-macros/src/lib.rs:427-440 | the two parts together hold exactly the input's attributes, each as often as in the input |
| Macros.KeepUniform | aarch32-rt-macros/src/lib.rs:427-440 | a list of only `cfg` (or only other) attributes goes whole into its part and leaves the other part empty |
| Macros.ExtractCfgs | aarch32-rt-macros/src/lib.rs:427-440 | the one-pass loop gives the `cfg` attributes and the others in their original order, and together they are a permutation of the input |
| Macros.Entry | aarch32-rt-macros/src/lib.rs:50-110 | `#[entry]` succeeds exactly for `[unsafe] fn() -> !` with no arguments and only allowed attributes; a bad signature is reported first, at the function, then arguments at the call site; on success the trampoline is exported as `kmain`, takes nothing, returns `!`, keeps the body and re-emits every attribute |
| Macros.HandlerFor | aarch32-rt-macros/src/lib.rs:307-416 | the trampoline carries the given `cfg` and other attributes and the body, and is exported under the exception's fixed symbol |
| Macros.HandleVector | aarch32-rt-macros/src/lib.rs:221-422 | an attribute error comes first; the macro succeeds exactly when the attributes are allowed and the exception resolves; on success every attribute is re-emitted, the body is kept and the export symbol is the resolved exception's |
| Macros.ResolveException | aarch32-rt-macros/src/lib.rs:233-302 | `#[irq]` always gives Irq; `#[exception(..)]` succeeds only on a single identifier that is the `Display` name of the exception it gives; a fault handler is accepted only if it returns `!` or is `unsafe` |
| Macros.ExceptionNameRoundTrip | aarch32-rt-macros/src/lib.rs:122-132 | each exception's `Display` name given to `#[exception(..)]` resolves back to that exception, when the handler's signature is acceptable |
| Macros.AcceptedNames | aarch32-rt-macros/src/lib.rs:255-299 | a name is accepted exactly when it is SupervisorCall or Irq, or Undefined, PrefetchAbort or DataAbort on a handler that returns `!` or is `unsafe`; the accepted exception's name is the one given |
| Macros.HypervisorCallRejected | aarch32-rt-macros/src/lib.rs:291-298 | `#[exception(HypervisorCall)]` is refused as not a valid exception name |
| Macros.ExceptionArguments | aarch32-rt-macros/src/lib.rs:238-254 | `#[exception]` succeeds only with exactly one identifier; no argument gives the missing-name error and a second argument the one-argument error |
| Macros.IrqAttributeIsIrq | aarch32-rt-macros/src/lib.rs:301 | `#[irq]` resolves to the IRQ handler whatever its arguments |
| Macros.TrampolineShape | aarch32-rt-macros/src/lib.rs:307-416 | fault handlers take `addr: usize` and return `!` exactly when the function does and `usize` exactly when it does not; SVC and IRQ handlers return nothing |
| Macros.ExportNamesDistinct | aarch32-rt-macros/src/lib.rs:307-416 | no two handlers share an export symbol, and none is `kmain` |
| SvcNumbers.SvcNumber | aarch32-rt/src/arch_v7/svc.rs:22-32 | the number read back is below 0x100 from Thumb state and below 0x100_0000 from Arm state |
| SvcNumbers.SvcNumberArm | aarch32-rt/src/arch_v7/svc.rs:29-30 | from Arm state, when the word before the return address is an A1 `SVC #imm24`, the number read back is `imm24` |
| SvcNumbers.SvcNumberThumb | aarch32-rt/src/arch_v7/svc.rs:25-26 | from Thumb state, when the halfword before the return address is a T1 `SVC #imm8`, the number read back is `imm8` |
| SvcNumbers.SvcNumberThumbWord | aarch32-rt/src/arch_v4/svc.rs:24-32 | the same holds with the T1 halfword in either half of a little-endian word |
| Syscalls.Checked | examples/versatileab/src/bin/syscall.rs:87-106 | a `u32` sum is kept exactly when it fits in 32 bits, otherwise it is the overflow panic |
| Syscalls.ArgCount | examples/versatileab/src/bin/syscall.rs:88-105 | at most six arguments are added in |
| Syscalls.VersatileSvcHandler | examples/versatileab/src/bin/syscall.rs:81-107 | the handler answers 0xDEAD_C0DE for a number whose bits 3-7 are not `0b11110`; otherwise it answers the documented formula over its first `ArgCount` arguments, or panics exactly when that sum overflows 32 bits |
| Syscalls.SumUnrolled | examples/versatileab/src/bin/syscall.rs:88-105 | adding the terms from the top down gives the same total as the formula's order |
| Syscalls.MaskAccepts | examples/versatileab/src/bin/syscall.rs:84 | the mask test passes exactly for numbers whose low byte is 0xF0 to 0xF7 |
| Syscalls.VersatileArgCount | examples/versatileab/src/bin/syscall.rs:3-9 | below 0x100 an accepted number 0xF0+n adds n arguments, and 0xF7 adds six |
| Syscalls.SevenLikeSix | examples/versatileab/src/bin/syscall.rs:84-105 | 0xF7 is accepted and answers exactly as 0xF6 does |
| Syscalls.WideNumberAddsAll | examples/versatileab/src/bin/syscall.rs:84-105 | a number above 0xFF whose low byte is 0xF0 to 0xF7 is accepted and adds all six arguments |
| Syscalls.VersatileRejects | examples/versatileab/src/bin/syscall.rs:84-86 | any number whose low byte is outside 0xF0 to 0xF7 answers 0xDEAD_C0DE whatever the frame |
| Syscalls.SumReadsPrefix | examples/versatileab/src/bin/syscall.rs:3-9 | a sum of n terms depends only on the first n arguments |
| Syscalls.VersatileIgnoresRest | examples/versatileab/src/bin/syscall.rs:88-105 | arguments beyond the number's count never affect the answer |
| Syscalls.VersatileTestVectors | examples/versatileab/src/bin/syscall.rs:28-70 | with r0-r5 = 0xE000_0001..0xE000_0006 the numbers 0xF6 down to 0xF0 give the values `main` checks for |
| Syscalls.Mps3SvcHandler | examples/mps3-an536/src/bin/syscall.rs:52-62 | every number outside 0xF0 to 0xF4 answers 0xDEAD_C0DE, and only 0xF1 to 0xF4 can overflow |
| Syscalls.AddChecked | examples/mps3-an536/src/bin/syscall.rs:56-59 | once an addition has panicked the result stays a panic |
| Syscalls.Mps3Formula | examples/mps3-an536/src/bin/syscall.rs:3-7 | for 0xF0 to 0xF4 the left-to-right checked sum is the documented formula over the first `arg - 0xF0` arguments, panicking exactly when it overflows |
| Syscalls.Mps3IgnoresR4R5 | examples/mps3-an536/src/bin/syscall.rs:54-61 | r4 and r5 of the frame never affect the answer |
| Syscalls.HandlersAgree | examples/mps3-an536/src/bin/syscall.rs:52-62 | for 0xF0 to 0xF4 the two examples' handlers answer the same, overflow included, though one adds from r0 up and the other from the top down |
| Syscalls.Mps3TestVectors | examples/mps3-an536/src/bin/syscall.rs:26-45 | with r0-r3 = 0xE000_0001..0xE000_0004 the numbers 0xF4 down to 0xF0 give the values `main` checks for |

## Left out

- Coprocessor access (`mrc`/`mcr`, `mrs`/`msr` on banked registers) is not modelled as real hardware. A register's hardware copy is one 32-bit cell in `SysReg.Register`, and its read and write are the cell's read and write.
- FPU register contents are not modelled. `FpuContext` counts the bytes saved and restored: 0 with no FPU, 72 for D0–D7 plus FPSCR and FPEXC, and 200 for D0–D7 and D16–D31 plus FPSCR and FPEXC (D8–D15 are callee-saved and never pushed). It also keeps the FPSCR/FPEXC words, but not the D registers themselves.
- `save_context!`/`restore_context!` are modelled as a balanced push and pop of a `SavedContext`, because their register list is outside the files modelled here. Four trampolines use them: `TrampolinesV7.SvcTrampoline`, and `TrampolinesV4.AbortTrampoline`, `TrampolinesV4.SvcTrampoline` and `TrampolinesV4.IrqTrampoline`.
- HACTLR has no bit layout in the Armv8-R start code. The value written to it is a parameter of `Start.DefaultStartV8r`.
- Linker-script symbols (`_stack_top`, the stack sizes, `__sdata`, `__sbss` and so on) are parameters. Their values are constrained only by the `requires` that the linker script guarantees.
- RAM in `_init_segments` is a word array separate from `Cpu.mem`, because the copy and zeroing loops are the only code that writes it.
- `Boot.InitSegments` models what `_init_segments` does to RAM only. The registers it uses as pointers and counters (r0–r3) and the flags its compares set are not modelled; `_default_start` sets every register it relies on afterwards. The call `bl _init_segments` and its `bx lr` return are not modelled as processor steps either: the LR it writes is overwritten by the next `bl _stack_setup_preallocated`.
- `VersatileMmu.EnableMmuAndCache`: each register has its own access log, so the contract states one read followed by one write on DACR and on SCTLR, but not that the DACR write comes before the SCTLR read.
- `kmain`, `main` and the Rust handlers called by the trampolines are opaque function parameters. The branch to `kmain` is modelled with interworking: the T bit follows bit 0 of `kmain` and the PC is `kmain` with bit 0 cleared. For the handlers, only their effect on the registers (a `Clobber`) and their result are modelled.
- I/O is left out: semihosting, UART output, `println!` and the exit calls in the examples.
- `dsb`, `isb` and cache or TLB maintenance (`iciallu`) have no effect on the modelled state and are omitted.
- aarch32-cpu/src/asmv4.rs (inline-assembly helpers for Armv4) and the other register files of aarch32-cpu are not part of this model.
- The default FIQ handler and the other handlers that only spin (`b .`) are left out. So is the `_asm_fiq_handler` loop in aarch32-rt/src/lib.rs:699-712. Each of these only loops forever.
- `TrampolinesV4` has no separate HVC trampoline: aarch32-rt/src/arch_v4/hvc.rs is a single `b .`. That is the same behaviour as the non-Armv8-R branch of `TrampolinesV7.HvcTrampoline`.
- `Macros` works on a summary of each parsed function, not on `syn` syntax trees. This summary holds the attribute list, the visibility, the signature flags the macros test (`const`, `unsafe`, `extern`, variadic, a `where` clause), the number of arguments and of generic parameters, and whether the return type is `!`. Argument types are not kept. The error messages are modelled as string constants with their spans; only the token output (`quote!`) is left out.
- `Targets` does not read the `TARGET` environment variable or print `cargo:` lines. `process_target` is modelled on a given target string as `Targets.ProcessTarget`, which returns its `TargetInfo`. The `cargo:` lines it prints are left out; the names in them are `Targets.IsaName`, `Targets.ArchName`, `Targets.ProfileName` and `Targets.AbiName`, and the `values()` lists are `Targets.IsaValues` and its siblings.
- `Targets.IsaValuesString`, `Targets.AbiValuesString`: only these two `values()` strings are proved character for character. For the architecture and profile lists, the general `Targets.JoinQuoted*` lemmas and the name-distinctness lemmas state what the joined strings contain, instead of the literal text.
- `Macros.Keep`: its contract states membership and kind only. That the order of the input is kept is stated separately by `Macros.KeepAppend` and `Macros.KeepPermutation`.
- `RtStacks.Top`: models the guard `core > num_cores` as written, so it also answers for `core == num_cores` (see Findings). The rest of the model uses `RtStacks.CoreTop`.
- `TrampolinesV7.HvcV8r`: like the source, it does not align the stack before calling the handler.
- `Syscalls`: overflow of the `u32` sums is modelled as the debug-build panic (`None`); a release build wraps instead.
- Concurrency between cores is not modelled. Each core's start-up is a separate run of the boot methods. Disjointness of the per-core stacks is what is proved about the cores together.

Where a comment in the source and its code disagree, the model follows the code:

- aarch32-rt/src/arch_v7/abort.rs: the prefetch-abort trampoline subtracts 4 from LR. Its comment speaks of 8.
- aarch32-rt/src/arch_v7/interrupt.rs: the IRQ trampoline saves the System-mode LR. It does not save the adjusted IRQ LR that its comment mentions. Return still goes through the `srs`-saved LR_irq.
- aarch32-rt/src/arch_v4/svc.rs: the v4 SVC trampoline returns to the caller with the r0 saved at entry, not with the handler's return value.
- aarch32-rt-macros/src/lib.rs: `#[irq]` accepts and ignores its arguments. Its documentation example shows a handler taking an address and never returning. The IRQ trampoline calls it with no argument.
- aarch32-rt-macros/src/lib.rs: the macros check an SVC handler as `fn(arg: u32)`. The syscall examples declare `(arg, frame) -> u32`, and the model follows each file as written.
- arm-targets/src/lib.rs: the doc comment listing the architecture values leaves out `v6`. The code includes Armv6, and so does `Targets`.

## Findings

| source | as written | input that shows it | evidently intended | confidence | as-written member | corrected member |
|---|---|---|---|---|---|---|
| aarch32-rt/src/arch_v8_hyp/interrupt.rs:16-35 | ELR_hyp is read into r0 and pushed, but never written back before `eret`; only SPSR_hyp is restored | IRQ taken with ELR_hyp = 0x8000; the handler re-enables interrupts and a nested IRQ leaves ELR_hyp = 0x9000; `eret` resumes at 0x9000 | restore ELR_hyp from the saved value (`msr elr_hyp, r0`) before `eret`, as the Hyp HVC trampoline does | medium, not executed | TrampolinesHyp.NestedIrqLosesReturnAddress | TrampolinesHyp.IrqTrampoline |
| aarch32-rt/src/stacks.rs:57-60 | `top` rejects only `core > num_cores`, so `core == num_cores` gets a range | `core = num_cores` for the SVC stack: its range lies just below the SVC area and overlaps core 0's UND stack | reject `core >= num_cores`; cores are numbered from 0 | high, not executed | RtStacks.RangePastLastCore | RtStacks.CoreRangeInArea |
