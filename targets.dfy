/**
 * The `arm-targets` build helper: it reads a Rust target triple such as
 * "thumbv8r-none-eabihf" and works out the instruction set, architecture
 * version, architecture profile and ABI with ordered `starts_with` and
 * `ends_with` tests. It also gives the list of values that each `cfg`
 * may take. Printing the cargo directives and reading `TARGET` from the
 * environment are left out.
 */
module Targets {
  import opened Wrappers

  /** `str::starts_with`: `p` is the first `|p|` characters of `t`. */
  predicate StartsWith(t: string, p: string)
  {
    StartsFrom(t, p, 0)
  }

  /** Characters `i..|p|` of `p` are those of `t`, compared one at a time. */
  predicate StartsFrom(t: string, p: string, i: nat)
    requires i <= |p|
    decreases |p| - i
  {
    i == |p| || (i < |t| && t[i] == p[i] && StartsFrom(t, p, i + 1))
  }

  /** `str::ends_with`: `s` is the last `|s|` characters of `t`. */
  predicate EndsWith(t: string, s: string)
  {
    EndsFrom(t, s, 0)
  }

  /** Characters `i..|s|` of `s`, counted from the end, are those of `t`. */
  predicate EndsFrom(t: string, s: string, i: nat)
    requires i <= |s|
    decreases |s| - i
  {
    i == |s| || (i < |t| && t[|t| - 1 - i] == s[|s| - 1 - i] && EndsFrom(t, s, i + 1))
  }

  /** The `k`-th character counted from the end (0 is the last). */
  function FromEnd(t: string, k: nat): char
    requires k < |t|
  {
    t[|t| - 1 - k]
  }

  lemma {:induction false} StartsFromIff(t: string, p: string, i: nat)
    requires i <= |p|
    ensures StartsFrom(t, p, i) <==>
      (i < |p| ==> |p| <= |t|) && forall k :: i <= k < |p| ==> t[k] == p[k]
    decreases |p| - i
  {
    if i < |p| {
      StartsFromIff(t, p, i + 1);
    }
  }

  lemma {:induction false} EndsFromIff(t: string, s: string, i: nat)
    requires i <= |s|
    ensures EndsFrom(t, s, i) <==>
      (i < |s| ==> |s| <= |t|) && forall k :: i <= k < |s| ==> FromEnd(t, k) == FromEnd(s, k)
    decreases |s| - i
  {
    if i < |s| {
      EndsFromIff(t, s, i + 1);
      if i < |t| {
        assert t[|t| - 1 - i] == FromEnd(t, i) && s[|s| - 1 - i] == FromEnd(s, i);
      }
    }
  }

  /** Two prefixes of one string: the shorter is a prefix of the longer. */
  lemma PrefixClash(t: string, p: string, q: string)
    ensures StartsWith(t, p) && StartsWith(t, q) ==> StartsWith(p, q) || StartsWith(q, p)
  {
    StartsFromIff(t, p, 0);
    StartsFromIff(t, q, 0);
    StartsFromIff(p, q, 0);
    StartsFromIff(q, p, 0);
  }

  /** A prefix of a prefix is a prefix. */
  lemma PrefixTrans(t: string, p: string, q: string)
    ensures StartsWith(t, p) && StartsWith(p, q) ==> StartsWith(t, q)
  {
    StartsFromIff(t, p, 0);
    StartsFromIff(p, q, 0);
    StartsFromIff(t, q, 0);
  }

  /**
   * An architecture prefix: it ends in '-' and has no other '-', so
   * "thumbv8m.base-" and "thumbv8m.main-" qualify but "arm" does not.
   */
  predicate Dashed(p: string)
  {
    DashedFrom(p, 0)
  }

  /** From character `i` on, `p` has exactly one '-', its last character. */
  predicate DashedFrom(p: string, i: nat)
    requires i <= |p|
    decreases |p| - i
  {
    i < |p| && if i == |p| - 1 then p[i] == '-' else p[i] != '-' && DashedFrom(p, i + 1)
  }

  lemma {:induction false} DashedFromIff(p: string, i: nat)
    requires i <= |p|
    ensures DashedFrom(p, i) <==>
      i < |p| && p[|p| - 1] == '-' && forall k :: i <= k < |p| - 1 ==> p[k] != '-'
    decreases |p| - i
  {
    if i < |p| - 1 {
      DashedFromIff(p, i + 1);
    }
  }

  /** A triple starts with at most one dashed prefix. */
  lemma DashedPrefixUnique(t: string, p: string, q: string)
    requires Dashed(p) && Dashed(q)
    ensures StartsWith(t, p) && StartsWith(t, q) ==> p == q
  {
    if StartsWith(t, p) && StartsWith(t, q) {
      StartsFromIff(t, p, 0);
      StartsFromIff(t, q, 0);
      DashedFromIff(p, 0);
      DashedFromIff(q, 0);
      assert forall k :: 0 <= k < |p| ==> p[k] == q[k];
    }
  }

  /** One differing character, or a string too short, rules a prefix out. */
  lemma Mismatch(t: string, p: string, k: nat)
    requires k < |p| && (k >= |t| || t[k] != p[k])
    ensures !StartsWith(t, p)
  {
    StartsFromIff(t, p, 0);
  }

  /** One differing character, counted from the end, rules a suffix out. */
  lemma SuffixMismatch(t: string, s: string, k: nat)
    requires k < |s| && (k >= |t| || FromEnd(t, k) != FromEnd(s, k))
    ensures !EndsWith(t, s)
  {
    EndsFromIff(t, s, 0);
  }

  /** A string starts with what is put in front of it. */
  lemma StartsConcat(p: string, r: string)
    ensures StartsWith(p + r, p)
  {
    StartsFromIff(p + r, p, 0);
  }

  /** A string ends with what is put behind it. */
  lemma EndsConcat(r: string, s: string)
    ensures EndsWith(r + s, s)
  {
    EndsFromIff(r + s, s, 0);
    forall k | 0 <= k < |s|
      ensures FromEnd(r + s, k) == FromEnd(s, k)
    {
    }
  }

  /** Two suffixes of one string: the shorter is a suffix of the longer. */
  lemma SuffixClash(t: string, p: string, q: string)
    ensures EndsWith(t, p) && EndsWith(t, q) ==> EndsWith(p, q) || EndsWith(q, p)
  {
    EndsFromIff(t, p, 0);
    EndsFromIff(t, q, 0);
    EndsFromIff(p, q, 0);
    EndsFromIff(q, p, 0);
  }

  datatype Isa = A64 | A32 | T32

  datatype Arch = Armv4T | Armv5TE | Armv6 | Armv6M | Armv7M | Armv7EM | Armv8MBase | Armv8MMain
                | Armv7R | Armv8R | Armv7A | Armv8A

  datatype Profile = M | R | A | Legacy

  datatype Abi = Eabi | EabiHf

  /** `Isa::get`: the first of "arm", "thumb" and "aarch64" that the triple starts with. */
  function IsaGet(t: string): (r: Option<Isa>)
    ensures r == Some(A32) <==> StartsWith(t, "arm")
    ensures r == Some(T32) <==> StartsWith(t, "thumb")
    ensures r == Some(A64) <==> StartsWith(t, "aarch64")
  {
    // in both directions: at most one of the three prefixes can start a triple
    PrefixClash(t, "arm", "thumb");
    PrefixClash(t, "arm", "aarch64");
    PrefixClash(t, "thumb", "aarch64");
    if StartsWith(t, "arm") then Some(A32)
    else if StartsWith(t, "thumb") then Some(T32)
    else if StartsWith(t, "aarch64") then Some(A64)
    else None
  }

  /**
   * `Arch::get`: the first prefix test in the source's order that holds.
   * A triple with an architecture always has an instruction set, and the
   * two agree: M profile cores run Thumb only, Armv8-A here is A64.
   */
  function ArchGet(t: string): (r: Option<Arch>)
    ensures r.Some? ==> IsaGet(t).Some?
    ensures r.Some? && ProfileOf(r.value) == M ==> IsaGet(t) == Some(T32)
    ensures r == Some(Armv8A) <==> r.Some? && IsaGet(t) == Some(A64)
  {
    ArchPrefixesIsa(t);
    if StartsWith(t, "armv4t-") || StartsWith(t, "thumbv4t-") then Some(Armv4T)
    else if StartsWith(t, "armv5te-") || StartsWith(t, "thumbv5te-") then Some(Armv5TE)
    else if StartsWith(t, "thumbv6m-") then Some(Armv6M)
    else if StartsWith(t, "thumbv7m-") then Some(Armv7M)
    else if StartsWith(t, "thumbv7em-") then Some(Armv7EM)
    else if StartsWith(t, "thumbv8m.base-") then Some(Armv8MBase)
    else if StartsWith(t, "thumbv8m.main-") then Some(Armv8MMain)
    else if StartsWith(t, "armv7r-") || StartsWith(t, "armebv7r-") || StartsWith(t, "thumbv7r-") then Some(Armv7R)
    else if StartsWith(t, "armv8r-") || StartsWith(t, "thumbv8r-") then Some(Armv8R)
    else if StartsWith(t, "armv7a-") || StartsWith(t, "thumbv7a-") then Some(Armv7A)
    else if StartsWith(t, "aarch64-") || StartsWith(t, "aarch64be-") then Some(Armv8A)
    // with no version given, Armv6 is assumed
    else if StartsWith(t, "arm-") || StartsWith(t, "armv6-") || StartsWith(t, "thumbv6-") then Some(Armv6)
    else None
  }

  /** Every prefix `Arch::get` tests is dashed, in groups of a few. */
  lemma LegacyPrefixesDashed()
    ensures Dashed("armv4t-")
    ensures Dashed("thumbv4t-")
    ensures Dashed("armv5te-")
    ensures Dashed("thumbv5te-")
  {
  }

  lemma MPrefixesDashed()
    ensures Dashed("thumbv6m-")
    ensures Dashed("thumbv7m-")
    ensures Dashed("thumbv7em-")
    ensures Dashed("thumbv8m.base-")
    ensures Dashed("thumbv8m.main-")
  {
  }

  lemma RPrefixesDashed()
    ensures Dashed("armv7r-")
    ensures Dashed("armebv7r-")
    ensures Dashed("thumbv7r-")
    ensures Dashed("armv8r-")
    ensures Dashed("thumbv8r-")
  {
  }

  lemma APrefixesDashed()
    ensures Dashed("armv7a-")
    ensures Dashed("thumbv7a-")
    ensures Dashed("aarch64-")
    ensures Dashed("aarch64be-")
  {
  }

  lemma V6PrefixesDashed()
    ensures Dashed("arm-")
    ensures Dashed("armv6-")
    ensures Dashed("thumbv6-")
  {
  }

  /** The architecture each prefix names, as a lookup that does not depend on the order of tests. */
  function ArchOfPrefix(p: string): Option<Arch>
  {
    if p == "armv4t-" || p == "thumbv4t-" then Some(Armv4T)
    else if p == "armv5te-" || p == "thumbv5te-" then Some(Armv5TE)
    else if p == "thumbv6m-" then Some(Armv6M)
    else if p == "thumbv7m-" then Some(Armv7M)
    else if p == "thumbv7em-" then Some(Armv7EM)
    else if p == "thumbv8m.base-" then Some(Armv8MBase)
    else if p == "thumbv8m.main-" then Some(Armv8MMain)
    else if p == "armv7r-" || p == "armebv7r-" || p == "thumbv7r-" then Some(Armv7R)
    else if p == "armv8r-" || p == "thumbv8r-" then Some(Armv8R)
    else if p == "armv7a-" || p == "thumbv7a-" then Some(Armv7A)
    else if p == "aarch64-" || p == "aarch64be-" then Some(Armv8A)
    else if p == "arm-" || p == "armv6-" || p == "thumbv6-" then Some(Armv6)
    else None
  }

  /** A triple that starts with any dashed prefix has it as its only one. */
  lemma OnlyPrefix(t: string, p: string)
    requires Dashed(p) && StartsWith(t, p)
    ensures forall q :: Dashed(q) ==> (StartsWith(t, q) <==> q == p)
  {
    forall q | Dashed(q)
      ensures StartsWith(t, q) <==> q == p
    {
      DashedPrefixUnique(t, p, q);
    }
  }

  /**
   * `Arch::get` takes the first matching test, but at most one prefix can
   * match, so its answer is the lookup of whichever prefix the triple has.
   */
  lemma ArchGetOfPrefix(t: string, p: string)
    requires Dashed(p) && StartsWith(t, p)
    ensures ArchGet(t) == ArchOfPrefix(p)
  {
    LegacyPrefixesDashed();
    MPrefixesDashed();
    RPrefixesDashed();
    APrefixesDashed();
    V6PrefixesDashed();
    OnlyPrefix(t, p);
    if p == "armv4t-" || p == "thumbv4t-" {
    } else if p == "armv5te-" || p == "thumbv5te-" {
    } else if p == "thumbv6m-" {
    } else if p == "thumbv7m-" {
    } else if p == "thumbv7em-" {
    } else if p == "thumbv8m.base-" {
    } else if p == "thumbv8m.main-" {
    } else if p == "armv7r-" || p == "armebv7r-" || p == "thumbv7r-" {
    } else if p == "armv8r-" || p == "thumbv8r-" {
    } else if p == "armv7a-" || p == "thumbv7a-" {
    } else if p == "aarch64-" || p == "aarch64be-" {
    } else if p == "arm-" || p == "armv6-" || p == "thumbv6-" {
    }
  }

  /**
   * `Arch::profile`, total over the architectures. It agrees with the
   * `cfg` names: a legacy architecture's name has no '-', and any other
   * has its profile's letter right after the '-' ("v7e-m", "v8-r").
   */
  function ProfileOf(a: Arch): (p: Profile)
    ensures p == Legacy <==> '-' !in ArchName(a)
    ensures p != Legacy ==>
              DashIndex(a) + 1 < |ArchName(a)| && ArchName(a)[DashIndex(a)] == '-'
              && ArchName(a)[DashIndex(a) + 1] == ProfileName(p)[0]
  {
    match a
    case Armv6M | Armv7M | Armv7EM | Armv8MBase | Armv8MMain => M
    case Armv4T | Armv5TE | Armv6 => Legacy
    case Armv7R | Armv8R => R
    case Armv7A | Armv8A => A
  }

  /** `Profile::get`: `?` on `Arch::get`, then the profile. */
  function ProfileGet(t: string): (r: Option<Profile>)
    ensures r.None? <==> ArchGet(t).None?
    ensures r.Some? ==> r.value == ProfileOf(ArchGet(t).value)
  {
    match ArchGet(t)
    case None => None
    case Some(arch) => Some(ProfileOf(arch))
  }

  /**
   * `Abi::get`: `None` without an architecture; otherwise "eabi" at the
   * end gives Eabi (so does "gnueabi"), "eabihf" gives EabiHf, anything
   * else `None`.
   */
  function AbiGet(t: string): (r: Option<Abi>)
    ensures r == Some(Eabi) <==> ArchGet(t).Some? && EndsWith(t, "eabi")
    ensures r == Some(EabiHf) <==> ArchGet(t).Some? && EndsWith(t, "eabihf")
  {
    // the two suffixes exclude each other
    SuffixClash(t, "eabi", "eabihf");
    if ArchGet(t).None? then None
    else if EndsWith(t, "eabi") then Some(Eabi)
    else if EndsWith(t, "eabihf") then Some(EabiHf)
    else None
  }

  /** Each prefix `Arch::get` tests extends the prefix `Isa::get` tests for its instruction set. */
  lemma ArchPrefixesIsa(t: string)
    ensures (StartsWith(t, "armv4t-") || StartsWith(t, "armv5te-") || StartsWith(t, "armv7r-")
             || StartsWith(t, "armebv7r-") || StartsWith(t, "armv8r-") || StartsWith(t, "armv7a-")
             || StartsWith(t, "arm-") || StartsWith(t, "armv6-"))
            ==> StartsWith(t, "arm")
    ensures (StartsWith(t, "thumbv4t-") || StartsWith(t, "thumbv5te-") || StartsWith(t, "thumbv6m-")
             || StartsWith(t, "thumbv7m-") || StartsWith(t, "thumbv7em-") || StartsWith(t, "thumbv8m.base-")
             || StartsWith(t, "thumbv8m.main-") || StartsWith(t, "thumbv7r-") || StartsWith(t, "thumbv8r-")
             || StartsWith(t, "thumbv7a-") || StartsWith(t, "thumbv6-"))
            ==> StartsWith(t, "thumb")
    ensures (StartsWith(t, "aarch64-") || StartsWith(t, "aarch64be-")) ==> StartsWith(t, "aarch64")
  {
    PrefixTrans(t, "armv4t-", "arm");
    PrefixTrans(t, "armv5te-", "arm");
    PrefixTrans(t, "armv7r-", "arm");
    PrefixTrans(t, "armebv7r-", "arm");
    PrefixTrans(t, "armv8r-", "arm");
    PrefixTrans(t, "armv7a-", "arm");
    PrefixTrans(t, "arm-", "arm");
    PrefixTrans(t, "armv6-", "arm");
    PrefixTrans(t, "thumbv4t-", "thumb");
    PrefixTrans(t, "thumbv5te-", "thumb");
    PrefixTrans(t, "thumbv6m-", "thumb");
    PrefixTrans(t, "thumbv7m-", "thumb");
    PrefixTrans(t, "thumbv7em-", "thumb");
    PrefixTrans(t, "thumbv8m.base-", "thumb");
    PrefixTrans(t, "thumbv8m.main-", "thumb");
    PrefixTrans(t, "thumbv7r-", "thumb");
    PrefixTrans(t, "thumbv8r-", "thumb");
    PrefixTrans(t, "thumbv7a-", "thumb");
    PrefixTrans(t, "thumbv6-", "thumb");
    PrefixTrans(t, "aarch64-", "aarch64");
    PrefixTrans(t, "aarch64be-", "aarch64");
  }

  /** `TargetInfo`: each field as its `get` gives it. */
  datatype TargetInfo = TargetInfo(isa: Option<Isa>, arch: Option<Arch>, profile: Option<Profile>, abi: Option<Abi>)

  /** `process_target` without its `println!`s. */
  function ProcessTarget(t: string): (info: TargetInfo)
    ensures info.profile.None? <==> info.arch.None?
    ensures info.abi.Some? ==> info.arch.Some?
  {
    TargetInfo(IsaGet(t), ArchGet(t), ProfileGet(t), AbiGet(t))
  }

  /** The triples of the crate's own tests and what each should give. */
  lemma Example_armv4t_none_eabi()
    ensures ProcessTarget("armv4t-none-eabi") == TargetInfo(Some(A32), Some(Armv4T), Some(Legacy), Some(Eabi))
  {
    assert "armv4t-none-eabi" == "armv4t-" + "none-eabi";
    StartsConcat("armv4t-", "none-eabi");
    assert "armv4t-" == "arm" + "v4t-";
    StartsConcat("arm", "v4t-");
    PrefixTrans("armv4t-none-eabi", "armv4t-", "arm");
    assert "armv4t-none-eabi" == "armv4t-none-" + "eabi";
    EndsConcat("armv4t-none-", "eabi");
  }

  lemma Example_armv5te_none_eabi()
    ensures ProcessTarget("armv5te-none-eabi") == TargetInfo(Some(A32), Some(Armv5TE), Some(Legacy), Some(Eabi))
  {
    assert "armv5te-none-eabi" == "armv5te-" + "none-eabi";
    StartsConcat("armv5te-", "none-eabi");
    assert "armv5te-" == "arm" + "v5te-";
    StartsConcat("arm", "v5te-");
    PrefixTrans("armv5te-none-eabi", "armv5te-", "arm");
    Mismatch("armv5te-none-eabi", "armv4t-", 4);
    assert "armv5te-none-eabi" == "armv5te-none-" + "eabi";
    EndsConcat("armv5te-none-", "eabi");
  }

  lemma Example_armv6_none_eabi()
    ensures ProcessTarget("armv6-none-eabi") == TargetInfo(Some(A32), Some(Armv6), Some(Legacy), Some(Eabi))
  {
    assert "armv6-none-eabi" == "armv6-" + "none-eabi";
    StartsConcat("armv6-", "none-eabi");
    assert "armv6-" == "arm" + "v6-";
    StartsConcat("arm", "v6-");
    PrefixTrans("armv6-none-eabi", "armv6-", "arm");
    Mismatch("armv6-none-eabi", "armv4t-", 4);
    Mismatch("armv6-none-eabi", "armv5te-", 4);
    Mismatch("armv6-none-eabi", "armv7r-", 4);
    Mismatch("armv6-none-eabi", "armebv7r-", 3);
    Mismatch("armv6-none-eabi", "armv8r-", 4);
    Mismatch("armv6-none-eabi", "armv7a-", 4);
    Mismatch("armv6-none-eabi", "aarch64-", 1);
    Mismatch("armv6-none-eabi", "aarch64be-", 1);
    Mismatch("armv6-none-eabi", "arm-", 3);
    assert "armv6-none-eabi" == "armv6-none-" + "eabi";
    EndsConcat("armv6-none-", "eabi");
  }

  lemma Example_armv6_none_eabihf()
    ensures ProcessTarget("armv6-none-eabihf") == TargetInfo(Some(A32), Some(Armv6), Some(Legacy), Some(EabiHf))
  {
    assert "armv6-none-eabihf" == "armv6-" + "none-eabihf";
    StartsConcat("armv6-", "none-eabihf");
    assert "armv6-" == "arm" + "v6-";
    StartsConcat("arm", "v6-");
    PrefixTrans("armv6-none-eabihf", "armv6-", "arm");
    Mismatch("armv6-none-eabihf", "armv4t-", 4);
    Mismatch("armv6-none-eabihf", "armv5te-", 4);
    Mismatch("armv6-none-eabihf", "armv7r-", 4);
    Mismatch("armv6-none-eabihf", "armebv7r-", 3);
    Mismatch("armv6-none-eabihf", "armv8r-", 4);
    Mismatch("armv6-none-eabihf", "armv7a-", 4);
    Mismatch("armv6-none-eabihf", "aarch64-", 1);
    Mismatch("armv6-none-eabihf", "aarch64be-", 1);
    Mismatch("armv6-none-eabihf", "arm-", 3);
    assert "armv6-none-eabihf" == "armv6-none-" + "eabihf";
    EndsConcat("armv6-none-", "eabihf");
    SuffixMismatch("armv6-none-eabihf", "eabi", 0);
  }

  lemma Example_arm_unknown_linux_gnueabi()
    ensures ProcessTarget("arm-unknown-linux-gnueabi") == TargetInfo(Some(A32), Some(Armv6), Some(Legacy), Some(Eabi))
  {
    assert "arm-unknown-linux-gnueabi" == "arm-" + "unknown-linux-gnueabi";
    StartsConcat("arm-", "unknown-linux-gnueabi");
    assert "arm-" == "arm" + "-";
    StartsConcat("arm", "-");
    PrefixTrans("arm-unknown-linux-gnueabi", "arm-", "arm");
    Mismatch("arm-unknown-linux-gnueabi", "armv4t-", 3);
    Mismatch("arm-unknown-linux-gnueabi", "armv5te-", 3);
    Mismatch("arm-unknown-linux-gnueabi", "armv7r-", 3);
    Mismatch("arm-unknown-linux-gnueabi", "armebv7r-", 3);
    Mismatch("arm-unknown-linux-gnueabi", "armv8r-", 3);
    Mismatch("arm-unknown-linux-gnueabi", "armv7a-", 3);
    Mismatch("arm-unknown-linux-gnueabi", "aarch64-", 1);
    Mismatch("arm-unknown-linux-gnueabi", "aarch64be-", 1);
    assert "arm-unknown-linux-gnueabi" == "arm-unknown-linux-gnu" + "eabi";
    EndsConcat("arm-unknown-linux-gnu", "eabi");
  }

  lemma Example_thumbv6m_none_eabi()
    ensures ProcessTarget("thumbv6m-none-eabi") == TargetInfo(Some(T32), Some(Armv6M), Some(M), Some(Eabi))
  {
    assert "thumbv6m-none-eabi" == "thumbv6m-" + "none-eabi";
    StartsConcat("thumbv6m-", "none-eabi");
    assert "thumbv6m-" == "thumb" + "v6m-";
    StartsConcat("thumb", "v6m-");
    PrefixTrans("thumbv6m-none-eabi", "thumbv6m-", "thumb");
    Mismatch("thumbv6m-none-eabi", "thumbv4t-", 6);
    Mismatch("thumbv6m-none-eabi", "thumbv5te-", 6);
    assert "thumbv6m-none-eabi" == "thumbv6m-none-" + "eabi";
    EndsConcat("thumbv6m-none-", "eabi");
  }

  lemma Example_thumbv7m_none_eabi()
    ensures ProcessTarget("thumbv7m-none-eabi") == TargetInfo(Some(T32), Some(Armv7M), Some(M), Some(Eabi))
  {
    assert "thumbv7m-none-eabi" == "thumbv7m-" + "none-eabi";
    StartsConcat("thumbv7m-", "none-eabi");
    assert "thumbv7m-" == "thumb" + "v7m-";
    StartsConcat("thumb", "v7m-");
    PrefixTrans("thumbv7m-none-eabi", "thumbv7m-", "thumb");
    Mismatch("thumbv7m-none-eabi", "thumbv4t-", 6);
    Mismatch("thumbv7m-none-eabi", "thumbv5te-", 6);
    Mismatch("thumbv7m-none-eabi", "thumbv6m-", 6);
    assert "thumbv7m-none-eabi" == "thumbv7m-none-" + "eabi";
    EndsConcat("thumbv7m-none-", "eabi");
  }

  lemma Example_thumbv7em_nuttx_eabihf()
    ensures ProcessTarget("thumbv7em-nuttx-eabihf") == TargetInfo(Some(T32), Some(Armv7EM), Some(M), Some(EabiHf))
  {
    assert "thumbv7em-nuttx-eabihf" == "thumbv7em-" + "nuttx-eabihf";
    StartsConcat("thumbv7em-", "nuttx-eabihf");
    assert "thumbv7em-" == "thumb" + "v7em-";
    StartsConcat("thumb", "v7em-");
    PrefixTrans("thumbv7em-nuttx-eabihf", "thumbv7em-", "thumb");
    Mismatch("thumbv7em-nuttx-eabihf", "thumbv4t-", 6);
    Mismatch("thumbv7em-nuttx-eabihf", "thumbv5te-", 6);
    Mismatch("thumbv7em-nuttx-eabihf", "thumbv6m-", 6);
    Mismatch("thumbv7em-nuttx-eabihf", "thumbv7m-", 7);
    assert "thumbv7em-nuttx-eabihf" == "thumbv7em-nuttx-" + "eabihf";
    EndsConcat("thumbv7em-nuttx-", "eabihf");
    SuffixMismatch("thumbv7em-nuttx-eabihf", "eabi", 0);
  }

  lemma Example_thumbv8m_base_none_eabi()
    ensures ProcessTarget("thumbv8m.base-none-eabi") == TargetInfo(Some(T32), Some(Armv8MBase), Some(M), Some(Eabi))
  {
    assert "thumbv8m.base-none-eabi" == "thumbv8m.base-" + "none-eabi";
    StartsConcat("thumbv8m.base-", "none-eabi");
    assert "thumbv8m.base-" == "thumb" + "v8m.base-";
    StartsConcat("thumb", "v8m.base-");
    PrefixTrans("thumbv8m.base-none-eabi", "thumbv8m.base-", "thumb");
    Mismatch("thumbv8m.base-none-eabi", "thumbv4t-", 6);
    Mismatch("thumbv8m.base-none-eabi", "thumbv5te-", 6);
    Mismatch("thumbv8m.base-none-eabi", "thumbv6m-", 6);
    Mismatch("thumbv8m.base-none-eabi", "thumbv7m-", 6);
    Mismatch("thumbv8m.base-none-eabi", "thumbv7em-", 6);
    assert "thumbv8m.base-none-eabi" == "thumbv8m.base-none-" + "eabi";
    EndsConcat("thumbv8m.base-none-", "eabi");
  }

  lemma Example_thumbv8m_main_none_eabihf()
    ensures ProcessTarget("thumbv8m.main-none-eabihf") == TargetInfo(Some(T32), Some(Armv8MMain), Some(M), Some(EabiHf))
  {
    assert "thumbv8m.main-none-eabihf" == "thumbv8m.main-" + "none-eabihf";
    StartsConcat("thumbv8m.main-", "none-eabihf");
    assert "thumbv8m.main-" == "thumb" + "v8m.main-";
    StartsConcat("thumb", "v8m.main-");
    PrefixTrans("thumbv8m.main-none-eabihf", "thumbv8m.main-", "thumb");
    Mismatch("thumbv8m.main-none-eabihf", "thumbv4t-", 6);
    Mismatch("thumbv8m.main-none-eabihf", "thumbv5te-", 6);
    Mismatch("thumbv8m.main-none-eabihf", "thumbv6m-", 6);
    Mismatch("thumbv8m.main-none-eabihf", "thumbv7m-", 6);
    Mismatch("thumbv8m.main-none-eabihf", "thumbv7em-", 6);
    Mismatch("thumbv8m.main-none-eabihf", "thumbv8m.base-", 9);
    assert "thumbv8m.main-none-eabihf" == "thumbv8m.main-none-" + "eabihf";
    EndsConcat("thumbv8m.main-none-", "eabihf");
    SuffixMismatch("thumbv8m.main-none-eabihf", "eabi", 0);
  }

  lemma Example_armv7r_none_eabi()
    ensures ProcessTarget("armv7r-none-eabi") == TargetInfo(Some(A32), Some(Armv7R), Some(R), Some(Eabi))
  {
    assert "armv7r-none-eabi" == "armv7r-" + "none-eabi";
    StartsConcat("armv7r-", "none-eabi");
    assert "armv7r-" == "arm" + "v7r-";
    StartsConcat("arm", "v7r-");
    PrefixTrans("armv7r-none-eabi", "armv7r-", "arm");
    Mismatch("armv7r-none-eabi", "armv4t-", 4);
    Mismatch("armv7r-none-eabi", "armv5te-", 4);
    assert "armv7r-none-eabi" == "armv7r-none-" + "eabi";
    EndsConcat("armv7r-none-", "eabi");
  }

  lemma Example_armv8r_none_eabihf()
    ensures ProcessTarget("armv8r-none-eabihf") == TargetInfo(Some(A32), Some(Armv8R), Some(R), Some(EabiHf))
  {
    assert "armv8r-none-eabihf" == "armv8r-" + "none-eabihf";
    StartsConcat("armv8r-", "none-eabihf");
    assert "armv8r-" == "arm" + "v8r-";
    StartsConcat("arm", "v8r-");
    PrefixTrans("armv8r-none-eabihf", "armv8r-", "arm");
    Mismatch("armv8r-none-eabihf", "armv4t-", 4);
    Mismatch("armv8r-none-eabihf", "armv5te-", 4);
    Mismatch("armv8r-none-eabihf", "armv7r-", 4);
    Mismatch("armv8r-none-eabihf", "armebv7r-", 3);
    assert "armv8r-none-eabihf" == "armv8r-none-" + "eabihf";
    EndsConcat("armv8r-none-", "eabihf");
    SuffixMismatch("armv8r-none-eabihf", "eabi", 0);
  }

  lemma Example_thumbv8r_none_eabihf()
    ensures ProcessTarget("thumbv8r-none-eabihf") == TargetInfo(Some(T32), Some(Armv8R), Some(R), Some(EabiHf))
  {
    assert "thumbv8r-none-eabihf" == "thumbv8r-" + "none-eabihf";
    StartsConcat("thumbv8r-", "none-eabihf");
    assert "thumbv8r-" == "thumb" + "v8r-";
    StartsConcat("thumb", "v8r-");
    PrefixTrans("thumbv8r-none-eabihf", "thumbv8r-", "thumb");
    Mismatch("thumbv8r-none-eabihf", "thumbv4t-", 6);
    Mismatch("thumbv8r-none-eabihf", "thumbv5te-", 6);
    Mismatch("thumbv8r-none-eabihf", "thumbv6m-", 6);
    Mismatch("thumbv8r-none-eabihf", "thumbv7m-", 6);
    Mismatch("thumbv8r-none-eabihf", "thumbv7em-", 6);
    Mismatch("thumbv8r-none-eabihf", "thumbv8m.base-", 7);
    Mismatch("thumbv8r-none-eabihf", "thumbv8m.main-", 7);
    Mismatch("thumbv8r-none-eabihf", "thumbv7r-", 6);
    assert "thumbv8r-none-eabihf" == "thumbv8r-none-" + "eabihf";
    EndsConcat("thumbv8r-none-", "eabihf");
    SuffixMismatch("thumbv8r-none-eabihf", "eabi", 0);
  }

  lemma Example_armv7a_none_eabi()
    ensures ProcessTarget("armv7a-none-eabi") == TargetInfo(Some(A32), Some(Armv7A), Some(A), Some(Eabi))
  {
    assert "armv7a-none-eabi" == "armv7a-" + "none-eabi";
    StartsConcat("armv7a-", "none-eabi");
    assert "armv7a-" == "arm" + "v7a-";
    StartsConcat("arm", "v7a-");
    PrefixTrans("armv7a-none-eabi", "armv7a-", "arm");
    Mismatch("armv7a-none-eabi", "armv4t-", 4);
    Mismatch("armv7a-none-eabi", "armv5te-", 4);
    Mismatch("armv7a-none-eabi", "armv7r-", 5);
    Mismatch("armv7a-none-eabi", "armebv7r-", 3);
    Mismatch("armv7a-none-eabi", "armv8r-", 4);
    assert "armv7a-none-eabi" == "armv7a-none-" + "eabi";
    EndsConcat("armv7a-none-", "eabi");
  }

  lemma Example_aarch64_unknown_none()
    ensures ProcessTarget("aarch64-unknown-none") == TargetInfo(Some(A64), Some(Armv8A), Some(A), None)
  {
    assert "aarch64-unknown-none" == "aarch64-" + "unknown-none";
    StartsConcat("aarch64-", "unknown-none");
    assert "aarch64-" == "aarch64" + "-";
    StartsConcat("aarch64", "-");
    PrefixTrans("aarch64-unknown-none", "aarch64-", "aarch64");
    Mismatch("aarch64-unknown-none", "arm", 1);
    Mismatch("aarch64-unknown-none", "armv4t-", 1);
    Mismatch("aarch64-unknown-none", "armv5te-", 1);
    Mismatch("aarch64-unknown-none", "armv7r-", 1);
    Mismatch("aarch64-unknown-none", "armebv7r-", 1);
    Mismatch("aarch64-unknown-none", "armv8r-", 1);
    Mismatch("aarch64-unknown-none", "armv7a-", 1);
    SuffixMismatch("aarch64-unknown-none", "eabi", 0);
    SuffixMismatch("aarch64-unknown-none", "eabihf", 0);
  }

  /** The `Display` names, as the `cfg` values. */
  function IsaName(i: Isa): string
  {
    match i
    case A64 => "a64"
    case A32 => "a32"
    case T32 => "t32"
  }

  function ArchName(a: Arch): string
  {
    match a
    case Armv4T => "v4t"
    case Armv5TE => "v5te"
    case Armv6 => "v6"
    case Armv6M => "v6-m"
    case Armv7M => "v7-m"
    case Armv7EM => "v7e-m"
    case Armv7R => "v7-r"
    case Armv8R => "v8-r"
    case Armv8MBase => "v8-m.base"
    case Armv8MMain => "v8-m.main"
    case Armv7A => "v7-a"
    case Armv8A => "v8-a"
  }

  /** Where the '-' of an architecture's `cfg` name stands, when it has one. */
  function DashIndex(a: Arch): nat
  {
    if a == Armv7EM then 3 else 2
  }

  function ProfileName(p: Profile): string
  {
    match p
    case M => "m"
    case R => "r"
    case A => "a"
    case Legacy => "legacy"
  }

  function AbiName(a: Abi): string
  {
    match a
    case Eabi => "eabi"
    case EabiHf => "eabihf"
  }

  /** The variants in the order each `values()` lists them. */
  const AllIsas: seq<Isa> := [A64, A32, T32]
  const AllArchs: seq<Arch> := [Armv4T, Armv5TE, Armv6, Armv6M, Armv7M, Armv7EM, Armv8MBase, Armv8MMain,
                                Armv7R, Armv8R, Armv7A, Armv8A]
  const AllProfiles: seq<Profile> := [A, R, M, Legacy]
  const AllAbis: seq<Abi> := [Eabi, EabiHf]

  /** `format!(r#""{i}""#)` of each name, joined with ", ". */
  function JoinQuoted(names: seq<string>): string
  {
    if |names| == 0 then ""
    else if |names| == 1 then "\"" + names[0] + "\""
    else "\"" + names[0] + "\", " + JoinQuoted(names[1..])
  }

  /** The names of `xs`, in order. */
  function Names<T>(xs: seq<T>, name: T -> string): (r: seq<string>)
    ensures |r| == |xs| && forall k :: 0 <= k < |xs| ==> r[k] == name(xs[k])
  {
    if |xs| == 0 then [] else [name(xs[0])] + Names(xs[1..], name)
  }

  /** Each `values()`. */
  function IsaValues(): string { JoinQuoted(Names(AllIsas, IsaName)) }
  function ArchValues(): string { JoinQuoted(Names(AllArchs, ArchName)) }
  function ProfileValues(): string { JoinQuoted(Names(AllProfiles, ProfileName)) }
  function AbiValues(): string { JoinQuoted(Names(AllAbis, AbiName)) }

  /** Each list names every variant exactly once. */
  lemma ValuesListEveryVariant(i: Isa, a: Arch, p: Profile, b: Abi)
    ensures i in AllIsas && a in AllArchs && p in AllProfiles && b in AllAbis
    ensures forall j, k :: 0 <= j < k < |AllArchs| ==> AllArchs[j] != AllArchs[k]
  {
  }

  /** The `cfg` names of distinct variants are distinct. */
  lemma NamesDistinct(a: Arch, b: Arch, p: Profile, q: Profile, i: Isa, j: Isa)
    ensures ArchName(a) == ArchName(b) ==> a == b
    ensures ProfileName(p) == ProfileName(q) ==> p == q
    ensures IsaName(i) == IsaName(j) ==> i == j
  {
    ArchKeyName(a);
    ArchKeyName(b);
  }

  /** The architecture a `cfg` name belongs to, read from its characters. */
  function ArchKey(s: string): Arch
    requires |s| >= 2
  {
    var v, n, last := s[1], |s|, s[|s| - 1];
    if v == '4' then Armv4T
    else if v == '5' then Armv5TE
    else if v == '6' then (if n == 2 then Armv6 else Armv6M)
    else if v == '7' then
      (if n == 5 then Armv7EM else if last == 'm' then Armv7M else if last == 'r' then Armv7R else Armv7A)
    else if n == 9 then (if last == 'e' then Armv8MBase else Armv8MMain)
    else if last == 'r' then Armv8R
    else Armv8A
  }

  lemma ArchKeyName(a: Arch)
    ensures |ArchName(a)| >= 2 && ArchKey(ArchName(a)) == a
  {
    match a
    case Armv4T =>
    case Armv5TE =>
    case Armv6 =>
    case Armv6M =>
    case Armv7M =>
    case Armv7EM =>
    case Armv7R =>
    case Armv8R =>
    case Armv8MBase =>
    case Armv8MMain =>
    case Armv7A =>
    case Armv8A =>
  }

  /** Joining two non-empty lists puts ", " between their two joins. */
  lemma {:induction false} JoinQuotedAppend(a: seq<string>, b: seq<string>)
    requires |a| > 0 && |b| > 0
    ensures JoinQuoted(a + b) == JoinQuoted(a) + ", " + JoinQuoted(b)
    decreases |a|
  {
    if |a| > 1 {
      assert (a + b)[1..] == a[1..] + b;
      JoinQuotedAppend(a[1..], b);
    } else {
      assert (a + b)[1..] == b;
    }
  }

  /** Each name sits in the join between its own pair of quotes. */
  lemma {:induction false} JoinQuotedQuotes(names: seq<string>)
    ensures |names| > 0 ==> JoinQuoted(names)[0] == '"' && JoinQuoted(names)[|JoinQuoted(names)| - 1] == '"'
    ensures |JoinQuoted(names)| == (if |names| == 0 then 0 else SumLengths(names) + 4 * |names| - 2)
    decreases |names|
  {
    if |names| > 1 {
      JoinQuotedQuotes(names[1..]);
    }
  }

  /** The total length of the names. */
  function SumLengths(names: seq<string>): nat
  {
    if |names| == 0 then 0 else |names[0]| + SumLengths(names[1..])
  }

  /** Small lists, spelled out. */
  lemma IsaValuesString()
    ensures IsaValues() == "\"a64\", \"a32\", \"t32\""
  {
    var isas := Names(AllIsas, IsaName);
    assert isas == ["a64", "a32", "t32"];
    assert JoinQuoted(isas[2..]) == "\"t32\"";
    assert JoinQuoted(isas[1..]) == "\"a32\", \"t32\"";
  }

  lemma AbiValuesString()
    ensures AbiValues() == "\"eabi\", \"eabihf\""
  {
    var abis := Names(AllAbis, AbiName);
    assert abis == ["eabi", "eabihf"];
    assert JoinQuoted(abis[1..]) == "\"eabihf\"";
  }
}
