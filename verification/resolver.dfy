/**
 * The five formatter hooks that rewrite address-bearing operands into symbolic
 * text. Each consults, in a fixed order (first match wins): the function's label
 * table, then its own section's address span, then the whole image's address span,
 * and otherwise hands the operand to the formatter's saved default renderer.
 */
module Resolver {
  import opened Wrappers
  import opened Hex
  import opened Labels

  const Two64: nat := 0x1_0000_0000_0000_0000

  /** A symbol of the executable: its name (possibly empty) and its address. */
  datatype Symbol = Symbol(name: string, value: nat)

  /**
   * The loaded image: its inclusive address span and the symbol lookup the hooks
   * call (`get_symbol`), which may report a symbol whose address is not the one asked.
   */
  datatype Image = Image(baseAddress: nat, endAddress: nat, symbolAt: nat -> Option<Symbol>)

  /** What a hook knows about the function being disassembled. */
  datatype HookContext = HookContext(labels: LabelTable, sectionAddress: nat, sectionEnd: nat, image: Image)

  /** The operand-printing contexts the formatter lets the program override. */
  datatype HookKind = AddressAbsolute | AddressRelative | Immediate | Displacement | OperandPointer

  /** How an address is resolved; the order of the constructors is the order of precedence. */
  datatype AddressClass = LocalLabel | SectionAddress | ImageAddress | Unresolved

  predicate InSection(ctx: HookContext, a: nat) {
    ctx.sectionAddress <= a <= ctx.sectionEnd
  }

  predicate InImage(ctx: HookContext, a: nat) {
    ctx.image.baseAddress <= a <= ctx.image.endAddress
  }

  /** The first rule that applies to a, in order of precedence. */
  function Classify(ctx: HookContext, a: nat): AddressClass {
    if a in ctx.labels then LocalLabel
    else if InSection(ctx, a) then SectionAddress
    else if InImage(ctx, a) then ImageAddress
    else Unresolved
  }

  /** The symbol reported for a, provided its name is not empty. */
  function NamedSymbol(ctx: HookContext, a: nat): (r: Option<Symbol>)
    ensures r.Some? ==> r.value.name != ""
    ensures r.Some? <==> ctx.image.symbolAt(a).Some? && ctx.image.symbolAt(a).value.name != ""
    ensures r.Some? ==> r == ctx.image.symbolAt(a)
  {
    match ctx.image.symbolAt(a)
    case Some(s) => if s.name != "" then Some(s) else None
    case None => None
  }

  /** A symbol with a non-empty name sits exactly at a. */
  predicate HasExactSymbol(ctx: HookContext, a: nat) {
    NamedSymbol(ctx, a).Some? && NamedSymbol(ctx, a).value.value == a
  }

  /** uint64_t subtraction: wraps modulo 2^64 when b exceeds a. */
  function Sub64(a: nat, b: nat): nat {
    (a - b) % Two64
  }

  /** The text for an address in the section or the image: the exact symbol's name, else a synthesized name. */
  function SymbolText(ctx: HookContext, a: nat, prefix: string): string {
    if HasExactSymbol(ctx, a) then NamedSymbol(ctx, a).value.name else Prefixed(prefix, a)
  }

  /** What a non-displacement hook must print for a, given the prefix it uses for image data. */
  ghost predicate PlainRendering(ctx: HookContext, a: nat, dataPrefix: string, fallback: string, r: string) {
    match Classify(ctx, a)
    case LocalLabel => r == ctx.labels[a]
    case SectionAddress =>
      (HasExactSymbol(ctx, a) && r == NamedSymbol(ctx, a).value.name)
      || (!HasExactSymbol(ctx, a) && ParsePrefixed("sub_", r) == Some(a) && r == Prefixed("sub_", a))
    case ImageAddress =>
      (HasExactSymbol(ctx, a) && r == NamedSymbol(ctx, a).value.name)
      || (!HasExactSymbol(ctx, a) && ParsePrefixed(dataPrefix, r) == Some(a) && r == Prefixed(dataPrefix, a))
    case Unresolved => r == fallback
  }

  /** The resolution shared by the absolute, relative, immediate and far-pointer hooks. */
  function ResolvePlain(ctx: HookContext, a: nat, dataPrefix: string, fallback: string): (r: string)
    ensures PlainRendering(ctx, a, dataPrefix, fallback, r)
  {
    if a in ctx.labels then ctx.labels[a]
    else if InSection(ctx, a) then PrefixedRoundTrip("sub_", a); SymbolText(ctx, a, "sub_")
    else if InImage(ctx, a) then PrefixedRoundTrip(dataPrefix, a); SymbolText(ctx, a, dataPrefix)
    else fallback
  }

  /** Hook for absolute address operands; image data is named "off_<hex>". */
  function PrintAddressAbsolute(ctx: HookContext, a: nat, fallback: string): (r: string)
    ensures PlainRendering(ctx, a, "off_", fallback, r)
  {
    ResolvePlain(ctx, a, "off_", fallback)
  }

  /** Hook for relative (branch and RIP-style) address operands, given their absolute target. */
  function PrintAddressRelative(ctx: HookContext, a: nat, fallback: string): (r: string)
    ensures PlainRendering(ctx, a, "off_", fallback, r)
  {
    ResolvePlain(ctx, a, "off_", fallback)
  }

  /** Hook for immediate operands, whose value is treated as an address. */
  function PrintImmediate(ctx: HookContext, a: nat, fallback: string): (r: string)
    ensures PlainRendering(ctx, a, "off_", fallback, r)
  {
    ResolvePlain(ctx, a, "off_", fallback)
  }

  /** Hook for far-pointer operands; image data is named "unk_<hex>". */
  function FormatOperandPointer(ctx: HookContext, a: nat, fallback: string): (r: string)
    ensures PlainRendering(ctx, a, "unk_", fallback, r)
  {
    ResolvePlain(ctx, a, "unk_", fallback)
  }

  /**
   * The text for a displacement in the section or the image: "+name" for an exact
   * symbol, "+name+0x<hex distance>" for a symbol below a, else "+<prefix><hex a>".
   */
  function DisplacementText(ctx: HookContext, a: nat, prefix: string): string {
    match NamedSymbol(ctx, a)
    case None => "+" + Prefixed(prefix, a)
    case Some(s) => if s.value == a then "+" + s.name else Prefixed("+" + s.name + "+0x", Sub64(a, s.value))
  }

  /** Hook for memory displacements: the plain order, with every symbolic result led by '+'. */
  function PrintDisplacement(ctx: HookContext, a: nat, fallback: string): (r: string)
    ensures Classify(ctx, a) == LocalLabel ==> r == "+" + ctx.labels[a]
    ensures Classify(ctx, a) == Unresolved ==> r == fallback
    ensures Classify(ctx, a) != Unresolved ==> |r| > 0 && r[0] == '+'
    ensures Classify(ctx, a) in {SectionAddress, ImageAddress} && NamedSymbol(ctx, a).None? ==>
      ParsePrefixed(if Classify(ctx, a) == SectionAddress then "+sub_" else "+off_", r) == Some(a)
    ensures Classify(ctx, a) in {SectionAddress, ImageAddress} && NamedSymbol(ctx, a).Some? ==>
      var s := NamedSymbol(ctx, a).value;
      && (s.value == a ==> r == "+" + s.name)
      && (s.value != a ==> ParsePrefixed("+" + s.name + "+0x", r) == Some(Sub64(a, s.value)))
  {
    if a in ctx.labels then "+" + ctx.labels[a]
    else if InSection(ctx, a) then DisplacementTextParses(ctx, a, "sub_"); DisplacementText(ctx, a, "sub_")
    else if InImage(ctx, a) then DisplacementTextParses(ctx, a, "off_"); DisplacementText(ctx, a, "off_")
    else fallback
  }

  lemma DisplacementTextParses(ctx: HookContext, a: nat, prefix: string)
    ensures NamedSymbol(ctx, a).None? ==> ParsePrefixed("+" + prefix, DisplacementText(ctx, a, prefix)) == Some(a)
    ensures NamedSymbol(ctx, a).Some? && NamedSymbol(ctx, a).value.value != a ==>
      var s := NamedSymbol(ctx, a).value;
      ParsePrefixed("+" + s.name + "+0x", DisplacementText(ctx, a, prefix)) == Some(Sub64(a, s.value))
  {
    match NamedSymbol(ctx, a)
    case None =>
      assert DisplacementText(ctx, a, prefix) == Prefixed("+" + prefix, a);
      PrefixedRoundTrip("+" + prefix, a);
    case Some(s) =>
      if s.value != a {
        PrefixedRoundTrip("+" + s.name + "+0x", Sub64(a, s.value));
      }
  }

  /** The hook the formatter calls for an operand of the given kind. */
  function RenderOperand(ctx: HookContext, kind: HookKind, a: nat, fallback: string): string {
    match kind
    case AddressAbsolute => PrintAddressAbsolute(ctx, a, fallback)
    case AddressRelative => PrintAddressRelative(ctx, a, fallback)
    case Immediate => PrintImmediate(ctx, a, fallback)
    case Displacement => PrintDisplacement(ctx, a, fallback)
    case OperandPointer => FormatOperandPointer(ctx, a, fallback)
  }

  /**
   * Precedence: an address with a local label prints as that label in every hook,
   * even when a symbol of the image sits exactly at the same address.
   */
  lemma LabelBeatsSymbol(ctx: HookContext, kind: HookKind, a: nat, fallback: string)
    requires a in ctx.labels
    ensures RenderOperand(ctx, kind, a, fallback) == (if kind == Displacement then "+" else "") + ctx.labels[a]
  {
  }

  /**
   * The far-pointer hook agrees with the absolute-address hook everywhere except on
   * image data without an exact symbol, where it says "unk_" instead of "off_".
   */
  lemma PointerDiffersOnlyInDataPrefix(ctx: HookContext, a: nat, fallback: string)
    ensures Classify(ctx, a) != ImageAddress || HasExactSymbol(ctx, a) ==>
      FormatOperandPointer(ctx, a, fallback) == PrintAddressAbsolute(ctx, a, fallback)
    ensures Classify(ctx, a) == ImageAddress && !HasExactSymbol(ctx, a) ==>
      && ParsePrefixed("unk_", FormatOperandPointer(ctx, a, fallback)) == Some(a)
      && ParsePrefixed("off_", PrintAddressAbsolute(ctx, a, fallback)) == Some(a)
  {
  }

  /**
   * Unless a symbol lies strictly off the address, a symbolic displacement is the
   * absolute-address rendering of the same address with a '+' in front.
   */
  lemma DisplacementIsSignedAbsolute(ctx: HookContext, a: nat, fallback: string)
    requires Classify(ctx, a) != Unresolved
    requires NamedSymbol(ctx, a).None? || HasExactSymbol(ctx, a)
    ensures PrintDisplacement(ctx, a, fallback) == "+" + PrintAddressAbsolute(ctx, a, fallback)
  {
    if Classify(ctx, a) != LocalLabel && NamedSymbol(ctx, a).None? {
      var p := if InSection(ctx, a) then "sub_" else "off_";
      assert "+" + Prefixed(p, a) == Prefixed("+" + p, a);
    }
  }

  /**
   * The displacement offset law: for an address a with no exact symbol whose
   * reported symbol s lies below it, the text is "+<s.name>+0x<hex of a - s.value>".
   */
  lemma DisplacementOffsetLaw(ctx: HookContext, a: nat, fallback: string)
    requires a < Two64
    requires Classify(ctx, a) in {SectionAddress, ImageAddress}
    requires NamedSymbol(ctx, a).Some? && NamedSymbol(ctx, a).value.value < a
    ensures var s := NamedSymbol(ctx, a).value;
      PrintDisplacement(ctx, a, fallback) == "+" + s.name + "+0x" + ToHex(a - s.value)
  {
    var s := NamedSymbol(ctx, a).value;
    assert Sub64(a, s.value) == a - s.value;
  }

  /**
   * The displacement hook exactly as written at function.cpp:192-234: in the
   * section branch the format "+%s+0x%" never consumes the distance, so a symbol
   * below the address prints as "+<name>+0x" with nothing after it.
   */
  function PrintDisplacementAsWritten(ctx: HookContext, a: nat, fallback: string): (r: string)
    ensures Classify(ctx, a) != SectionAddress ==> r == PrintDisplacement(ctx, a, fallback)
    ensures Classify(ctx, a) == SectionAddress && NamedSymbol(ctx, a).Some? && !HasExactSymbol(ctx, a) ==>
      r == "+" + NamedSymbol(ctx, a).value.name + "+0x"
    ensures Classify(ctx, a) == SectionAddress && (NamedSymbol(ctx, a).None? || HasExactSymbol(ctx, a)) ==>
      r == PrintDisplacement(ctx, a, fallback)
  {
    if a in ctx.labels then "+" + ctx.labels[a]
    else if InSection(ctx, a) then
      match NamedSymbol(ctx, a)
      case None => "+" + Prefixed("sub_", a)
      case Some(s) => if s.value == a then "+" + s.name else "+" + s.name + "+0x"
    else if InImage(ctx, a) then DisplacementText(ctx, a, "off_")
    else fallback
  }

  /** A context whose section holds one symbol "foo" at 0x401000, reported for every address. */
  function OneSymbolContext(): HookContext {
    HookContext(map[], 0x401000, 0x401fff, Image(0x400000, 0x4fffff, _ => Some(Symbol("foo", 0x401000))))
  }

  /**
   * As written, two different displacements into the same function print the same
   * text, so the distance is lost; the corrected hook keeps them apart.
   */
  lemma AsWrittenLosesDistance()
    ensures PrintDisplacementAsWritten(OneSymbolContext(), 0x401005, "")
         == PrintDisplacementAsWritten(OneSymbolContext(), 0x401009, "")
    ensures PrintDisplacement(OneSymbolContext(), 0x401005, "")
         != PrintDisplacement(OneSymbolContext(), 0x401009, "")
  {
    var ctx := OneSymbolContext();
    assert NamedSymbol(ctx, 0x401005) == Some(Symbol("foo", 0x401000));
    assert NamedSymbol(ctx, 0x401009) == Some(Symbol("foo", 0x401000));
    DisplacementOffsetLaw(ctx, 0x401005, "");
    DisplacementOffsetLaw(ctx, 0x401009, "");
    var p := "+foo+0x";
    assert PrintDisplacement(ctx, 0x401005, "") == Prefixed(p, 5);
    assert PrintDisplacement(ctx, 0x401009, "") == Prefixed(p, 9);
    if Prefixed(p, 5) == Prefixed(p, 9) {
      PrefixedInjective(p, 5, 9);
    }
  }
}
