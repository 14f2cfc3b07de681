/**
 * The `aarch32-rt-macros` attribute macros: `#[entry]`, `#[exception(..)]`
 * and `#[irq]`. Each checks the function it is put on and its attributes,
 * then emits a trampoline exported under the symbol the start-up and
 * vector code call.
 *
 * The `syn` syntax tree is abstracted to the parts the macros look at: the
 * attribute list, the visibility, the signature's flags and the top-level
 * tokens of the macro's arguments. The body is carried through untouched.
 * A `syn::Error` is modelled by where it points and its message.
 */
module Macros {
  import opened Wrappers

  // ---------------------------------------------------------------- syntax

  datatype AttrStyle = Outer | Inner

  /**
   * A `syn::Attribute`: its style, its path when that path is a single
   * identifier (`path().is_ident` can only succeed then), and, for a list
   * attribute such as `unsafe(..)`, the single-identifier paths of the
   * nested metas `parse_nested_meta` visits, in order, up to the first one
   * it cannot parse (`None` for a path of several segments).
   */
  datatype Attribute = Attribute(style: AttrStyle, ident: Option<string>, nested: seq<Option<string>>)

  /** A top-level token of the macro's argument stream. */
  datatype Token = Ident(name: string) | Other

  datatype Visibility = Inherited | Public | Restricted

  datatype Type = Never | OtherType

  datatype ReturnType = Default | Returns(ty: Type)

  /** `syn::Signature`: the flags the macros test, and how many inputs and generic parameters there are. */
  datatype Signature = Signature(constness: bool, unsafety: bool, abi: bool, inputs: nat,
                                 genericParams: nat, whereClause: bool, variadic: bool, output: ReturnType)

  /** `syn::ItemFn`; the body is kept as its source text. */
  datatype ItemFn = ItemFn(attrs: seq<Attribute>, vis: Visibility, sig: Signature, block: string)

  /** `VectorKind`: which macro is running. */
  datatype VectorKind = EntryKind | ExceptionKind | InterruptKind

  /** `Exception`: the handlers the macros can create. */
  datatype Exception = Undefined | SupervisorCall | PrefetchAbort | DataAbort | Irq

  /** Where an error points. */
  datatype Span = CallSite | FunctionSpan | ExceptionNameSpan | AttributeSpan(index: nat)

  datatype MacroError = MacroError(span: Span, message: string)

  /** The trampoline's single parameter, if it has one. */
  datatype Param = NoParam | AddrUsize | ArgU32

  datatype Ret = RetNever | RetUsize | RetUnit

  /**
   * The emitted `pub unsafe extern "C" fn`: the `cfg` attributes, then the
   * other attributes, then `#[doc(hidden)]` and `#[export_name = ..]`.
   */
  datatype Trampoline = Trampoline(cfgs: seq<Attribute>, attrs: seq<Attribute>, exportName: string,
                                   ident: string, param: Param, ret: Ret, block: string)

  // ------------------------------------------------------------ attributes

  /** `eq`: an outer attribute whose path is the identifier `name`. */
  predicate Eq(attr: Attribute, name: string)
  {
    attr.style == Outer && attr.ident == Some(name)
  }

  /** The attributes the macros let through. */
  const Whitelist: seq<string> := ["doc", "link_section", "cfg", "allow", "warn", "deny", "forbid", "cold", "naked", "expect"]

  /** Some nested meta of `unsafe(..)` is a whitelisted identifier. */
  predicate NestedWhitelisted(nested: seq<Option<string>>)
  {
    exists k :: 0 <= k < |nested| && nested[k].Some? && nested[k].value in Whitelist
  }

  /**
   * An attribute `check_attr_whitelist` accepts: `unsafe(..)` wrapping a
   * whitelisted name (whatever the style), or an outer whitelisted one.
   */
  predicate Allowed(attr: Attribute)
  {
    (attr.ident == Some("unsafe") && NestedWhitelisted(attr.nested))
    || exists k :: 0 <= k < |Whitelist| && Eq(attr, Whitelist[k])
  }

  /** The index of the first attribute that is not allowed, if any. */
  function FirstDisallowed(attrs: seq<Attribute>): (r: Option<nat>)
    ensures r.None? <==> forall j :: 0 <= j < |attrs| ==> Allowed(attrs[j])
    ensures r.Some? ==> r.value < |attrs| && !Allowed(attrs[r.value])
                        && forall j :: 0 <= j < r.value ==> Allowed(attrs[j])
  {
    if |attrs| == 0 then None
    else if !Allowed(attrs[0]) then Some(0)
    else match FirstDisallowed(attrs[1..])
      case None => None
      case Some(k) => Some(k + 1)
  }

  /** The message for an attribute that is not allowed, by caller. */
  function NotAllowedMessage(caller: VectorKind): string
  {
    match caller
    case EntryKind => "this attribute is not allowed on an aarch32-rt entry point"
    case ExceptionKind => "this attribute is not allowed on an exception handler controlled by aarch32-rt"
    case InterruptKind => "this attribute is not allowed on an interrupt handler controlled by aarch32-rt"
  }

  /** What `check_attr_whitelist` answers. */
  function WhitelistResult(attrs: seq<Attribute>, caller: VectorKind): Result<(), MacroError>
  {
    match FirstDisallowed(attrs)
    case None => Ok(())
    case Some(i) => Err(MacroError(AttributeSpan(i), NotAllowedMessage(caller)))
  }

  /** The whitelist answers `Ok` exactly when every attribute is allowed. */
  lemma WhitelistOk(attrs: seq<Attribute>, caller: VectorKind)
    ensures WhitelistResult(attrs, caller).Ok? <==> forall j :: 0 <= j < |attrs| ==> Allowed(attrs[j])
  {
  }

  /** Otherwise it names the first attribute that is not allowed. */
  lemma WhitelistFirstOffender(attrs: seq<Attribute>, caller: VectorKind, i: nat)
    requires i < |attrs| && !Allowed(attrs[i])
    requires forall j :: 0 <= j < i ==> Allowed(attrs[j])
    ensures WhitelistResult(attrs, caller) == Err(MacroError(AttributeSpan(i), NotAllowedMessage(caller)))
  {
  }

  /** Whether `name` is one of the whitelist's entries, looked up one entry at a time. */
  method InWhitelist(name: string) returns (found: bool)
    ensures found <==> name in Whitelist
  {
    found := false;
    for n := 0 to |Whitelist|
      invariant found <==> exists k :: 0 <= k < n && Whitelist[k] == name
    {
      if Whitelist[n] == name {
        found := true;
      }
    }
  }

  /** The `parse_nested_meta` callback over `unsafe(..)`: is any nested path a whitelisted identifier? */
  method NestedListed(nested: seq<Option<string>>) returns (whitelisted: bool)
    ensures whitelisted <==> NestedWhitelisted(nested)
  {
    whitelisted := false;
    for m := 0 to |nested|
      invariant whitelisted <==> exists k :: 0 <= k < m && nested[k].Some? && nested[k].value in Whitelist
    {
      if nested[m].Some? {
        var listed := InWhitelist(nested[m].value);
        if listed {
          whitelisted := true;
        }
      }
    }
  }

  /** The inner loop of `check_attr_whitelist`: `eq(attr, val)` for each whitelisted `val`. */
  method OuterListed(attr: Attribute) returns (listed: bool)
    ensures listed <==> exists k :: 0 <= k < |Whitelist| && Eq(attr, Whitelist[k])
  {
    listed := false;
    for n := 0 to |Whitelist|
      invariant listed <==> exists k :: 0 <= k < n && Eq(attr, Whitelist[k])
    {
      if Eq(attr, Whitelist[n]) {
        listed := true;
      }
    }
  }

  /**
   * `check_attr_whitelist`: the attributes in order; an `unsafe(..)` one is
   * let through when a nested meta is whitelisted, any other when it is
   * an outer whitelisted attribute. The first one let through by neither
   * test ends the check with the caller's message.
   */
  method CheckAttrWhitelist(attrs: seq<Attribute>, caller: VectorKind) returns (r: Result<(), MacroError>)
    ensures r == WhitelistResult(attrs, caller)
  {
    var i := 0;
    while i < |attrs|
      invariant 0 <= i <= |attrs|
      invariant forall j :: 0 <= j < i ==> Allowed(attrs[j])
    {
      var attr := attrs[i];
      if attr.ident == Some("unsafe") {
        var whitelisted := NestedListed(attr.nested);
        if whitelisted {
          i := i + 1;
          continue;
        }
      }
      var listed := OuterListed(attr);
      if listed {
        i := i + 1;
        continue;
      }
      WhitelistFirstOffender(attrs, caller, i);
      return Err(MacroError(AttributeSpan(i), NotAllowedMessage(caller)));
    }
    WhitelistOk(attrs, caller);
    return Ok(());
  }

  // --------------------------------------------------------------- cfgs

  /**
   * The attributes that are (`cfg` true) or are not (`cfg` false)
   * `#[cfg(..)]`, in their original order.
   */
  function Keep(attrs: seq<Attribute>, cfg: bool): (r: seq<Attribute>)
    ensures |r| <= |attrs|
    ensures forall k :: 0 <= k < |r| ==> Eq(r[k], "cfg") == cfg && r[k] in attrs
  {
    if |attrs| == 0 then []
    else
      var last := attrs[|attrs| - 1];
      Keep(attrs[..|attrs| - 1], cfg) + (if Eq(last, "cfg") == cfg then [last] else [])
  }

  /** Keeping is a filter: it splits over concatenation, so each part keeps the original order. */
  lemma {:induction false} KeepAppend(a: seq<Attribute>, b: seq<Attribute>, cfg: bool)
    ensures Keep(a + b, cfg) == Keep(a, cfg) + Keep(b, cfg)
    decreases |b|
  {
    if |b| == 0 {
      assert a + b == a;
    } else {
      assert (a + b)[..|a + b| - 1] == a + b[..|b| - 1];
      KeepAppend(a, b[..|b| - 1], cfg);
    }
  }

  /** The two parts together hold each attribute exactly as often as the input. */
  lemma {:induction false} KeepPermutation(attrs: seq<Attribute>)
    ensures multiset(Keep(attrs, true)) + multiset(Keep(attrs, false)) == multiset(attrs)
    decreases |attrs|
  {
    if |attrs| > 0 {
      var init, last := attrs[..|attrs| - 1], attrs[|attrs| - 1];
      KeepPermutation(init);
      assert attrs == init + [last];
      assert multiset(attrs) == multiset(init) + multiset{last};
      if Eq(last, "cfg") {
        assert Keep(attrs, true) == Keep(init, true) + [last];
        assert Keep(attrs, false) == Keep(init, false);
      } else {
        assert Keep(attrs, true) == Keep(init, true);
        assert Keep(attrs, false) == Keep(init, false) + [last];
      }
    }
  }

  /** A list that is all of one kind is kept whole and gives nothing to the other part. */
  lemma {:induction false} KeepUniform(attrs: seq<Attribute>, cfg: bool)
    requires forall k :: 0 <= k < |attrs| ==> Eq(attrs[k], "cfg") == cfg
    ensures Keep(attrs, cfg) == attrs
    ensures Keep(attrs, !cfg) == []
    decreases |attrs|
  {
    if |attrs| > 0 {
      var init, last := attrs[..|attrs| - 1], attrs[|attrs| - 1];
      KeepUniform(init, cfg);
      assert Eq(last, "cfg") == cfg;
      assert Keep(attrs, cfg) == Keep(init, cfg) + [last];
      assert Keep(attrs, !cfg) == Keep(init, !cfg);
      assert attrs == init + [last];
    }
  }

  /** `extract_cfgs`: one pass, pushing each attribute onto the list it belongs to. */
  method ExtractCfgs(attrs: seq<Attribute>) returns (cfgs: seq<Attribute>, notCfgs: seq<Attribute>)
    ensures cfgs == Keep(attrs, true) && notCfgs == Keep(attrs, false)
    ensures multiset(cfgs) + multiset(notCfgs) == multiset(attrs)
  {
    cfgs, notCfgs := [], [];
    for i := 0 to |attrs|
      invariant cfgs == Keep(attrs[..i], true) && notCfgs == Keep(attrs[..i], false)
    {
      var attr := attrs[i];
      assert attrs[..i + 1][..i] == attrs[..i];
      if Eq(attr, "cfg") {
        cfgs := cfgs + [attr];
      } else {
        notCfgs := notCfgs + [attr];
      }
    }
    assert attrs[..|attrs|] == attrs;
    KeepPermutation(attrs);
  }

  // -------------------------------------------------------------- #[entry]

  /** The signature `#[entry]` accepts: `[unsafe] fn() -> !`. */
  predicate ValidEntrySignature(vis: Visibility, sig: Signature)
  {
    !sig.constness && vis == Inherited && !sig.abi && sig.inputs == 0
    && sig.genericParams == 0 && !sig.whereClause && !sig.variadic && sig.output == Returns(Never)
  }

  const EntrySignatureMessage: string := "`#[entry]` function must have signature `[unsafe] fn() -> !`"
  const NoArgumentsMessage: string := "This attribute accepts no arguments"

  /**
   * `entry`: the signature first, then the arguments, then the attributes;
   * a function that passes all three becomes `kmain`.
   */
  function Entry(args: seq<Token>, f: ItemFn): (r: Result<Trampoline, MacroError>)
    ensures r.Ok? <==> ValidEntrySignature(f.vis, f.sig) && |args| == 0
                       && forall j :: 0 <= j < |f.attrs| ==> Allowed(f.attrs[j])
    ensures !ValidEntrySignature(f.vis, f.sig) ==> r == Err(MacroError(FunctionSpan, EntrySignatureMessage))
    ensures ValidEntrySignature(f.vis, f.sig) && |args| > 0 ==> r == Err(MacroError(CallSite, NoArgumentsMessage))
    ensures r.Ok? ==> r.value.exportName == "kmain" && r.value.param == NoParam && r.value.ret == RetNever
                      && r.value.block == f.block
                      && multiset(r.value.cfgs) + multiset(r.value.attrs) == multiset(f.attrs)
  {
    KeepPermutation(f.attrs);
    if !ValidEntrySignature(f.vis, f.sig) then Err(MacroError(FunctionSpan, EntrySignatureMessage))
    else if |args| > 0 then Err(MacroError(CallSite, NoArgumentsMessage))
    else match WhitelistResult(f.attrs, EntryKind)
      case Err(e) => Err(e)
      case Ok(_) =>
        Ok(Trampoline(Keep(f.attrs, true), Keep(f.attrs, false), "kmain", "__aarch32_rt_kmain",
                      NoParam, RetNever, f.block))
  }

  // -------------------------------------------- #[exception] and #[irq]

  /** `returns_never`: the declared return type is `!`. */
  predicate ReturnsNever(output: ReturnType)
  {
    output == Returns(Never)
  }

  const NeedsNameMessage: string := "This attribute requires the name of the exception as the first argument"
  const OneArgumentMessage: string := "This attribute accepts only one argument"
  const NotValidNameMessage: string := "This is not a valid exception name"

  /** The message for a fault handler that neither returns `!` nor is `unsafe`. */
  function MustBeUnsafeMessage(name: string): string
  {
    name + " handlers that don't return ! must be unsafe"
  }

  /** The `Display` text of each exception, which is also the name `#[exception(..)]` takes. */
  function ExceptionName(e: Exception): string
  {
    match e
    case Undefined => "Undefined"
    case SupervisorCall => "SupervisorCall"
    case PrefetchAbort => "PrefetchAbort"
    case DataAbort => "DataAbort"
    case Irq => "Irq"
  }

  /** The three fault handlers, which may return a new address instead of `!`. */
  predicate IsFault(e: Exception)
  {
    e == Undefined || e == PrefetchAbort || e == DataAbort
  }

  /** The name given to `#[exception(..)]`, checked against the handler's unsafety. */
  function NamedException(name: string, never: bool, unsafety: bool): Result<Exception, MacroError>
  {
    if name == "Undefined" then
      if !never && !unsafety then Err(MacroError(ExceptionNameSpan, MustBeUnsafeMessage(name))) else Ok(Undefined)
    else if name == "SupervisorCall" then Ok(SupervisorCall)
    else if name == "PrefetchAbort" then
      if !never && !unsafety then Err(MacroError(ExceptionNameSpan, MustBeUnsafeMessage(name))) else Ok(PrefetchAbort)
    else if name == "DataAbort" then
      if !never && !unsafety then Err(MacroError(ExceptionNameSpan, MustBeUnsafeMessage(name))) else Ok(DataAbort)
    else if name == "Irq" then Ok(Irq)
    else Err(MacroError(ExceptionNameSpan, NotValidNameMessage))
  }

  /**
   * Which handler `handle_vector` builds: `#[irq]` ignores its arguments
   * and gives Irq; `#[exception(..)]` wants exactly one identifier.
   */
  function ResolveException(args: seq<Token>, kind: VectorKind, never: bool, unsafety: bool): (r: Result<Exception, MacroError>)
    requires kind != EntryKind
    ensures kind == InterruptKind ==> r == Ok(Irq)
    ensures r.Ok? && kind == ExceptionKind ==> |args| == 1 && args[0].Ident? && ExceptionName(r.value) == args[0].name
    ensures r.Ok? && IsFault(r.value) ==> never || unsafety
  {
    if kind == InterruptKind then Ok(Irq)
    else if |args| == 0 || !args[0].Ident? then Err(MacroError(CallSite, NeedsNameMessage))
    else if |args| > 1 then Err(MacroError(CallSite, OneArgumentMessage))
    else NamedException(args[0].name, never, unsafety)
  }

  /** The symbol each handler is exported under. */
  function ExportName(e: Exception): string
  {
    match e
    case Undefined => "_undefined_handler"
    case SupervisorCall => "_svc_handler"
    case PrefetchAbort => "_prefetch_abort_handler"
    case DataAbort => "_data_abort_handler"
    case Irq => "_irq_handler"
  }

  /** The Rust name of each trampoline. */
  function TrampolineIdent(e: Exception): string
  {
    match e
    case Undefined => "__aarch32_rt_undefined_handler"
    case SupervisorCall => "__aarch32_rt_svc_handler"
    case PrefetchAbort => "__aarch32_rt_prefetch_abort_handler"
    case DataAbort => "__aarch32_rt_data_abort_handler"
    case Irq => "__aarch32_rt_irq_handler"
  }

  /** The trampoline for `e`: fault handlers take `addr: usize`, SVC takes `arg: u32`, IRQ nothing. */
  function HandlerFor(e: Exception, never: bool, cfgs: seq<Attribute>, attrs: seq<Attribute>, block: string): (t: Trampoline)
    ensures t.cfgs == cfgs && t.attrs == attrs && t.block == block
    ensures t.exportName == ExportName(e)
  {
    match e
    case Undefined | PrefetchAbort | DataAbort =>
      Trampoline(cfgs, attrs, ExportName(e), TrampolineIdent(e), AddrUsize, if never then RetNever else RetUsize, block)
    case SupervisorCall => Trampoline(cfgs, attrs, ExportName(e), TrampolineIdent(e), ArgU32, RetUnit, block)
    case Irq => Trampoline(cfgs, attrs, ExportName(e), TrampolineIdent(e), NoParam, RetUnit, block)
  }

  /**
   * `handle_vector` for `#[exception]` and `#[irq]` (it panics if handed
   * `#[entry]`): attributes first, then the exception, then the trampoline.
   */
  function HandleVector(args: seq<Token>, f: ItemFn, kind: VectorKind): (r: Result<Trampoline, MacroError>)
    requires kind != EntryKind
    ensures WhitelistResult(f.attrs, kind).Err? ==> r == Err(WhitelistResult(f.attrs, kind).error)
    ensures r.Ok? <==> WhitelistResult(f.attrs, kind).Ok?
                       && ResolveException(args, kind, ReturnsNever(f.sig.output), f.sig.unsafety).Ok?
    ensures r.Ok? ==> multiset(r.value.cfgs) + multiset(r.value.attrs) == multiset(f.attrs)
                      && r.value.block == f.block
                      && r.value.exportName == ExportName(ResolveException(args, kind, ReturnsNever(f.sig.output), f.sig.unsafety).value)
  {
    KeepPermutation(f.attrs);
    match WhitelistResult(f.attrs, kind)
    case Err(e) => Err(e)
    case Ok(_) =>
      var never := ReturnsNever(f.sig.output);
      match ResolveException(args, kind, never, f.sig.unsafety)
      case Err(e) => Err(e)
      case Ok(ex) => Ok(HandlerFor(ex, never, Keep(f.attrs, true), Keep(f.attrs, false), f.block))
  }

  // ----------------------------------------------------------------- lemmas

  /** Each `Display` name is accepted back as that exception: parsing inverts printing. */
  lemma ExceptionNameRoundTrip(e: Exception, never: bool, unsafety: bool)
    requires never || unsafety || !IsFault(e)
    ensures ResolveException([Ident(ExceptionName(e))], ExceptionKind, never, unsafety) == Ok(e)
  {
  }

  /**
   * `#[exception(name)]` is accepted exactly for the five names, and a fault
   * handler among them must return `!` or be `unsafe`.
   */
  lemma AcceptedNames(name: string, never: bool, unsafety: bool)
    ensures NamedException(name, never, unsafety).Ok? <==>
      (name == "SupervisorCall" || name == "Irq"
       || ((name == "Undefined" || name == "PrefetchAbort" || name == "DataAbort") && (never || unsafety)))
    ensures NamedException(name, never, unsafety).Ok? ==> ExceptionName(NamedException(name, never, unsafety).value) == name
  {
  }

  /** There is no `#[exception(HypervisorCall)]`: the name is refused like any unknown one. */
  lemma HypervisorCallRejected(never: bool, unsafety: bool)
    ensures ResolveException([Ident("HypervisorCall")], ExceptionKind, never, unsafety)
         == Err(MacroError(ExceptionNameSpan, NotValidNameMessage))
  {
  }

  /** `#[exception]` takes exactly one identifier argument. */
  lemma ExceptionArguments(args: seq<Token>, never: bool, unsafety: bool)
    ensures ResolveException(args, ExceptionKind, never, unsafety).Ok? ==> |args| == 1 && args[0].Ident?
    ensures |args| == 0 ==> ResolveException(args, ExceptionKind, never, unsafety) == Err(MacroError(CallSite, NeedsNameMessage))
    ensures |args| > 1 && args[0].Ident? ==>
      ResolveException(args, ExceptionKind, never, unsafety) == Err(MacroError(CallSite, OneArgumentMessage))
  {
  }

  /** `#[irq]` always means the IRQ handler, whatever tokens it is given. */
  lemma IrqAttributeIsIrq(args: seq<Token>, never: bool, unsafety: bool)
    ensures ResolveException(args, InterruptKind, never, unsafety) == Ok(Irq)
  {
  }

  /**
   * The handler exported is the one named, under its fixed symbol; a fault
   * handler returns `!` exactly when the function does and `usize`
   * otherwise, SVC and IRQ handlers return nothing.
   */
  lemma TrampolineShape(e: Exception, never: bool, cfgs: seq<Attribute>, attrs: seq<Attribute>, block: string)
    ensures HandlerFor(e, never, cfgs, attrs, block).exportName == ExportName(e)
    ensures IsFault(e) ==> HandlerFor(e, never, cfgs, attrs, block).param == AddrUsize
                           && (HandlerFor(e, never, cfgs, attrs, block).ret == RetNever <==> never)
                           && (HandlerFor(e, never, cfgs, attrs, block).ret == RetUsize <==> !never)
    ensures !IsFault(e) ==> HandlerFor(e, never, cfgs, attrs, block).ret == RetUnit
  {
  }

  /** No two handlers share an export symbol, and none clashes with `kmain`. */
  lemma ExportNamesDistinct(a: Exception, b: Exception)
    ensures ExportName(a) == ExportName(b) ==> a == b
    ensures ExportName(a) != "kmain"
  {
    assert ExportName(a)[1] == ExportKey(a);
    assert ExportName(b)[1] == ExportKey(b);
  }

  /** The character after `_` in each export name, which already tells them apart. */
  function ExportKey(e: Exception): char
  {
    match e
    case Undefined => 'u'
    case SupervisorCall => 's'
    case PrefetchAbort => 'p'
    case DataAbort => 'd'
    case Irq => 'i'
  }
}
