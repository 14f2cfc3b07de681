/**
 * The run-time's view of the linker-allocated stacks: one area per
 * processor mode, each holding `_num_cores` equal per-core stacks that
 * grow downwards from the area's high end. The linker symbols (core
 * count, per-core size and high end of each area) are parameters.
 * Addresses are byte addresses; a `*const u32` offset of `k` words moves
 * the address by `4 * k` bytes.
 */
module RtStacks {
  import opened Wrappers

  /** The stacks, in the order `Stack::iter` yields them. */
  datatype Stack = Und | Svc | Abt | Hyp | Irq | Fiq | Sys
  {
    /** The position in `Stack::iter`, which is also the position of the area from the bottom of the stack region. */
    function Index(): nat {
      match this
      case Und => 0
      case Svc => 1
      case Abt => 2
      case Hyp => 3
      case Irq => 4
      case Fiq => 5
      case Sys => 6
    }
  }

  /** `Stack::iter`. */
  const ITER: seq<Stack> := [Und, Svc, Abt, Hyp, Irq, Fiq, Sys]

  /** `Stack::iter` yields every stack exactly once, each at its own index. */
  lemma IterListsEveryStackOnce(s: Stack)
    ensures |ITER| == 7
    ensures s in ITER && ITER[s.Index()] == s
    ensures forall i, j :: 0 <= i < j < |ITER| ==> ITER[i] != ITER[j]
  {
  }

  /** `Display for Stack`. */
  function Name(s: Stack): string {
    match s
    case Und => "UND"
    case Svc => "SVC"
    case Abt => "ABT"
    case Hyp => "HYP"
    case Irq => "IRQ"
    case Fiq => "FIQ"
    case Sys => "SYS"
  }

  /** The names are three characters long and tell the stacks apart. */
  lemma NamesDistinct(s: Stack, t: Stack)
    ensures |Name(s)| == 3
    ensures Name(s) == Name(t) ==> s == t
  {
  }

  /**
   * The linker symbols: `_num_cores`, and per stack (indexed by
   * `Index()`) `_x_stack_size` in bytes and the address of
   * `_x_stack_high_end`.
   */
  datatype Symbols = Symbols(numCores: nat, sizeBytes: seq<nat>, highEnd: seq<int>)
  {
    predicate Valid() { |sizeBytes| == 7 && |highEnd| == 7 }
  }

  /** `per_core_size_words`: the per-core size in words, rounded down. */
  function PerCoreSizeWords(sym: Symbols, s: Stack): (w: nat)
    requires sym.Valid()
    ensures 4 * w <= sym.sizeBytes[s.Index()] < 4 * w + 4
  {
    sym.sizeBytes[s.Index()] / 4
  }

  /** `Stack::top`: the high end of core `core`'s stack; `None` only for `core > num_cores`. */
  function Top(sym: Symbols, s: Stack, core: nat): (r: Option<int>)
    requires sym.Valid()
    ensures r.None? <==> core > sym.numCores
  {
    if core > sym.numCores then None
    else Some(sym.highEnd[s.Index()] - 4 * PerCoreSizeWords(sym, s) * core)
  }

  /** `Stack::bottom`: one per-core stack below the top. */
  function Bottom(sym: Symbols, s: Stack, core: nat): (r: Option<int>)
    requires sym.Valid()
    ensures r.None? <==> Top(sym, s, core).None?
    ensures r.Some? ==> r.value == Top(sym, s, core).value - 4 * PerCoreSizeWords(sym, s)
  {
    match Top(sym, s, core)
    case None => None
    case Some(p) => Some(p - 4 * PerCoreSizeWords(sym, s))
  }

  /** A half-open address range `start..end`. */
  datatype Range = Range(start: int, end: int)

  /** `Stack::range`: `bottom..top`, when both exist. */
  function StackRange(sym: Symbols, s: Stack, core: nat): (r: Option<Range>)
    requires sym.Valid()
    ensures r.None? <==> core > sym.numCores
    ensures r.Some? ==> r.value.end - r.value.start == 4 * PerCoreSizeWords(sym, s)
  {
    match (Bottom(sym, s, core), Top(sym, s, core))
    case (Some(bottom), Some(top)) => Some(Range(bottom, top))
    case _ => None
  }

  /** The tops step down by one per-core stack per core, so core `c`'s bottom is core `c + 1`'s top. */
  lemma CoresTile(sym: Symbols, s: Stack, core: nat)
    requires sym.Valid() && core < sym.numCores
    ensures Bottom(sym, s, core).Some? && Top(sym, s, core + 1).Some?
    ensures Bottom(sym, s, core).value == Top(sym, s, core + 1).value
  {
    var w := PerCoreSizeWords(sym, s);
    assert 4 * w * core + 4 * w == 4 * w * (core + 1);
  }

  /** The lowest address of stack `s`'s area: the high end less `num_cores` per-core stacks. */
  function AreaLow(sym: Symbols, s: Stack): int
    requires sym.Valid()
  {
    sym.highEnd[s.Index()] - sym.sizeBytes[s.Index()] * sym.numCores
  }

  /**
   * The documented layout: every size is a multiple of 8 and each area
   * ends where the next one in `iter` order begins.
   */
  predicate DocumentedLayout(sym: Symbols)
  {
    sym.Valid()
    && (forall i :: 0 <= i < 7 ==> sym.sizeBytes[i] % 8 == 0)
    && (forall i :: 0 <= i < 6 ==>
          sym.highEnd[i] == sym.highEnd[i + 1] - sym.sizeBytes[i + 1] * sym.numCores)
  }

  /** Under the layout, an earlier area in `iter` order lies wholly below a later one. */
  lemma {:induction false} AreasAscend(sym: Symbols, i: nat, j: nat)
    requires DocumentedLayout(sym) && i < j < 7
    ensures sym.highEnd[i] <= sym.highEnd[j] - sym.sizeBytes[j] * sym.numCores
    decreases j - i
  {
    if i + 1 < j {
      AreasAscend(sym, i + 1, j);
      assert sym.sizeBytes[i + 1] * sym.numCores >= 0;
    }
  }

  /** Every core's stack lies inside its mode's area. */
  lemma {:induction false} CoreStackInArea(sym: Symbols, s: Stack, core: nat)
    requires DocumentedLayout(sym) && core < sym.numCores
    ensures StackRange(sym, s, core).Some?
    ensures AreaLow(sym, s) <= StackRange(sym, s, core).value.start
    ensures StackRange(sym, s, core).value.end <= sym.highEnd[s.Index()]
  {
    var i := s.Index();
    assert sym.sizeBytes[i] % 8 == 0;
    SliceInside(sym.sizeBytes[i], PerCoreSizeWords(sym, s), core, sym.numCores);
  }

  /** Slice `core` of `n` slices of `4 * w` bytes lies inside the `size * n` bytes of its area. */
  lemma SliceInside(size: nat, w: nat, core: nat, n: nat)
    requires 4 * w == size && core < n
    ensures 0 <= 4 * w * core && 4 * w * core + 4 * w <= size * n
  {
    MulMonotone(size, core + 1, n);
    assert 4 * w * core + 4 * w == size * (core + 1);
  }

  lemma MulMonotone(a: nat, x: nat, y: nat)
    requires x <= y
    ensures a * x <= a * y
  {
  }

  /**
   * `Stack::top` with the guard `core >= num_cores`: only the cores that
   * exist have a stack.
   */
  function CoreTop(sym: Symbols, s: Stack, core: nat): (r: Option<int>)
    requires sym.Valid()
    ensures r.Some? <==> core < sym.numCores
    ensures r.Some? ==> r == Top(sym, s, core)
  {
    if core >= sym.numCores then None else Top(sym, s, core)
  }

  /** `Stack::range` over `CoreTop`. */
  function CoreRange(sym: Symbols, s: Stack, core: nat): (r: Option<Range>)
    requires sym.Valid()
    ensures r.Some? <==> core < sym.numCores
    ensures r.Some? ==> r == StackRange(sym, s, core)
  {
    if CoreTop(sym, s, core).None? then None else StackRange(sym, s, core)
  }

  /** Every range `CoreRange` gives lies inside its mode's area. */
  lemma CoreRangeInArea(sym: Symbols, s: Stack, core: nat)
    requires DocumentedLayout(sym) && CoreRange(sym, s, core).Some?
    ensures AreaLow(sym, s) <= CoreRange(sym, s, core).value.start
    ensures CoreRange(sym, s, core).value.end <= sym.highEnd[s.Index()]
  {
    CoreStackInArea(sym, s, core);
  }

  /**
   * The guard as written lets `core == num_cores` through: the SVC stack
   * of that core is the slice just below the SVC area, which overlaps
   * core 0's UND stack.
   */
  lemma RangePastLastCore(sym: Symbols)
    requires DocumentedLayout(sym) && sym.numCores > 0
    requires sym.sizeBytes[Und.Index()] > 0 && sym.sizeBytes[Svc.Index()] > 0
    ensures StackRange(sym, Svc, sym.numCores).Some? && StackRange(sym, Und, 0).Some?
    ensures StackRange(sym, Svc, sym.numCores).value.end == AreaLow(sym, Svc)
    ensures var r1, r2 := StackRange(sym, Svc, sym.numCores).value, StackRange(sym, Und, 0).value;
      r1.start < r2.end && r2.start < r1.end
  {
    assert sym.sizeBytes[1] % 8 == 0 && sym.sizeBytes[0] % 8 == 0;
    assert sym.highEnd[0] == sym.highEnd[1] - sym.sizeBytes[1] * sym.numCores;
    SvcBelowArea(sym);
  }

  /** `RangePastLastCore` from the three layout facts it needs. */
  lemma SvcBelowArea(sym: Symbols)
    requires sym.Valid() && sym.sizeBytes[1] % 8 == 0 && sym.sizeBytes[0] % 8 == 0
    requires sym.highEnd[0] == sym.highEnd[1] - sym.sizeBytes[1] * sym.numCores
    ensures StackRange(sym, Svc, sym.numCores).value == Range(sym.highEnd[0] - sym.sizeBytes[1], sym.highEnd[0])
    ensures StackRange(sym, Und, 0).value == Range(sym.highEnd[0] - sym.sizeBytes[0], sym.highEnd[0])
  {
    var w1 := PerCoreSizeWords(sym, Svc);
    assert 4 * w1 == sym.sizeBytes[1];
    assert 4 * w1 * sym.numCores == sym.sizeBytes[1] * sym.numCores;
  }

  /**
   * Under the documented layout, the stacks of two different (mode, core)
   * pairs of existing cores do not overlap.
   */
  lemma StacksDisjoint(sym: Symbols, s: Stack, c: nat, t: Stack, d: nat)
    requires DocumentedLayout(sym) && CoreRange(sym, s, c).Some? && CoreRange(sym, t, d).Some?
    requires s != t || c != d
    ensures var r1, r2 := CoreRange(sym, s, c).value, CoreRange(sym, t, d).value;
      r1.end <= r2.start || r2.end <= r1.start
  {
    CoreStackInArea(sym, s, c);
    CoreStackInArea(sym, t, d);
    if s.Index() < t.Index() {
      AreasAscend(sym, s.Index(), t.Index());
      assert sym.highEnd[s.Index()] <= AreaLow(sym, t);
    } else if t.Index() < s.Index() {
      AreasAscend(sym, t.Index(), s.Index());
      assert sym.highEnd[t.Index()] <= AreaLow(sym, s);
    } else {
      assert s == t && c != d;
      if c < d {
        CoreOrder(sym, s, c, d);
      } else {
        CoreOrder(sym, s, d, c);
      }
    }
  }

  /** Within one area a lower core number means a higher stack. */
  lemma CoreOrder(sym: Symbols, s: Stack, c: nat, d: nat)
    requires sym.Valid() && c < d <= sym.numCores
    ensures StackRange(sym, s, d).Some? && StackRange(sym, s, c).Some?
    ensures StackRange(sym, s, d).value.end <= StackRange(sym, s, c).value.start
  {
    var w := PerCoreSizeWords(sym, s);
    assert 4 * w * d >= 4 * w * (c + 1) by {
      MulMonotone(4 * w, c + 1, d);
    }
  }
}
