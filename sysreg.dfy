/**
 * A coprocessor register as a 32-bit cell. The MRC/MCR instructions that
 * move its value are hardware; what matters here is the sequence of reads
 * and writes the code issues, which the cell records.
 */
module SysReg {
  datatype Access = ReadAccess(value: bv32) | WriteAccess(value: bv32)

  class Register {
    var raw: bv32
    ghost var log: seq<Access>

    constructor (initial: bv32)
      ensures raw == initial && log == []
    {
      raw := initial;
      log := [];
    }

    /** `read_raw`: the current value; the register itself does not change. */
    method ReadRaw() returns (v: bv32)
      modifies this`log
      ensures v == raw
      ensures log == old(log) + [ReadAccess(v)]
    {
      v := raw;
      log := log + [ReadAccess(v)];
    }

    /** `write_raw`: the register takes exactly the given value. */
    method WriteRaw(v: bv32)
      modifies this
      ensures raw == v
      ensures log == old(log) + [WriteAccess(v)]
    {
      raw := v;
      log := log + [WriteAccess(v)];
    }
  }
}
