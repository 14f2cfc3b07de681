/**
 * HSR, the Hyp Syndrome Register: exception class in bits 26..31,
 * instruction length in bit 25 and the instruction-specific syndrome in
 * bits 0..24. It is read at p15, op1 4, c5, c2, op2 0.
 */
module HsrReg {
  import opened Wrappers
  import SysReg

  /** The exception classes the register type names; the other 46 six-bit values have no variant. */
  datatype ExceptionClass =
    | Unknown | TrappedWfiWfe | TrappedCp15McrMrc | TrappedCp15McrrMrrc | TrappedCp14McrMrc
    | TrappedLdcStc | TrappedFpu | TrappedVmrs | TrappedCp14McrrMrrc | IllegalAArch32Eret
    | Svc | Hvc | Smc | PrefetchAbortFromLower | PrefetchAbortFromCurrent | PcAlignment
    | DataAbortFromLower | DataAbortFromCurrent
  {
    function Raw(): bv6 {
      match this
      case Unknown => 0x00
      case TrappedWfiWfe => 0x01
      case TrappedCp15McrMrc => 0x03
      case TrappedCp15McrrMrrc => 0x04
      case TrappedCp14McrMrc => 0x05
      case TrappedLdcStc => 0x06
      case TrappedFpu => 0x07
      case TrappedVmrs => 0x08
      case TrappedCp14McrrMrrc => 0x0C
      case IllegalAArch32Eret => 0x0E
      case Svc => 0x11
      case Hvc => 0x12
      case Smc => 0x13
      case PrefetchAbortFromLower => 0x20
      case PrefetchAbortFromCurrent => 0x21
      case PcAlignment => 0x22
      case DataAbortFromLower => 0x24
      case DataAbortFromCurrent => 0x25
    }
  }

  /** The eighteen recognised exception-class codes. */
  const KNOWN_CLASSES: set<bv6> :=
    {0x00, 0x01, 0x03, 0x04, 0x05, 0x06, 0x07, 0x08, 0x0C, 0x0E,
     0x11, 0x12, 0x13, 0x20, 0x21, 0x22, 0x24, 0x25}

  /** The non-exhaustive decoding of the EC field: `None` for a code with no variant. */
  function EcFromRaw(v: bv6): (r: Option<ExceptionClass>)
    ensures r.Some? <==> v in KNOWN_CLASSES
    ensures r.Some? ==> r.value.Raw() == v
  {
    if v == 0x00 then Some(Unknown)
    else if v == 0x01 then Some(TrappedWfiWfe)
    else if v == 0x03 then Some(TrappedCp15McrMrc)
    else if v == 0x04 then Some(TrappedCp15McrrMrrc)
    else if v == 0x05 then Some(TrappedCp14McrMrc)
    else if v == 0x06 then Some(TrappedLdcStc)
    else if v == 0x07 then Some(TrappedFpu)
    else if v == 0x08 then Some(TrappedVmrs)
    else if v == 0x0C then Some(TrappedCp14McrrMrrc)
    else if v == 0x0E then Some(IllegalAArch32Eret)
    else if v == 0x11 then Some(Svc)
    else if v == 0x12 then Some(Hvc)
    else if v == 0x13 then Some(Smc)
    else if v == 0x20 then Some(PrefetchAbortFromLower)
    else if v == 0x21 then Some(PrefetchAbortFromCurrent)
    else if v == 0x22 then Some(PcAlignment)
    else if v == 0x24 then Some(DataAbortFromLower)
    else if v == 0x25 then Some(DataAbortFromCurrent)
    else None
  }

  /** Every named class decodes from its own code. */
  lemma ExceptionClassRoundTrip(c: ExceptionClass)
    ensures EcFromRaw(c.Raw()) == Some(c)
  {
  }

  /** The exhaustive IL bit. */
  datatype InstructionLength = SixteenBit | ThirtyTwoBit

  /** An HSR value: its raw 32 bits. */
  type Hsr = bv32

  /** The raw EC bits. */
  function EcRaw(h: Hsr): bv6 { (h >> 26) as bv6 }

  /** The generated `ec()`. */
  function Ec(h: Hsr): Option<ExceptionClass> { EcFromRaw(EcRaw(h)) }

  /** The generated `il()`. */
  function Il(h: Hsr): InstructionLength {
    if h & 0x200_0000 != 0 then ThirtyTwoBit else SixteenBit
  }

  /** The generated `iss()`. */
  function Iss(h: Hsr): bv25 { (h & 0x1FF_FFFF) as bv25 }

  /** The register value with the given fields. */
  function NewHsr(ec: bv6, il: InstructionLength, iss: bv25): Hsr {
    (ec as bv32 << 26) | (if il == ThirtyTwoBit then 0x200_0000 else 0) | iss as bv32
  }

  /** The three fields together are the whole register: reading them and building again gives the value back. */
  lemma HsrFieldsDetermineRaw(h: Hsr)
    ensures NewHsr(EcRaw(h), Il(h), Iss(h)) == h
  {
  }

  /** Building from three fields and reading them back gives the same fields. */
  lemma HsrFieldsRoundTrip(ec: bv6, il: InstructionLength, iss: bv25)
    ensures EcRaw(NewHsr(ec, il, iss)) == ec
    ensures Il(NewHsr(ec, il, iss)) == il
    ensures Iss(NewHsr(ec, il, iss)) == iss
  {
  }

  /** `Hsr::read`. */
  method Read(reg: SysReg.Register) returns (h: Hsr)
    modifies reg`log
    ensures h == reg.raw
    ensures reg.log == old(reg.log) + [SysReg.ReadAccess(h)]
  {
    h := reg.ReadRaw();
  }

  /** `Hsr::write`: the register receives exactly the value's raw bits. */
  method Write(reg: SysReg.Register, h: Hsr)
    modifies reg
    ensures reg.raw == h
    ensures reg.log == old(reg.log) + [SysReg.WriteAccess(h)]
  {
    reg.WriteRaw(h);
  }
}
