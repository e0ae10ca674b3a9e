/**
 * One decoded instruction, the argument and mode checks wrapped around the
 * external decoder, and the formatting of an instruction through the hooks.
 */
module Decode {
  import opened Wrappers
  import opened Resolver

  type Length = n: nat | 0 < n witness 1

  datatype Mnemonic = Nop | Jmp | OtherMnemonic(name: string)

  /**
   * A fragment of the formatter's output: literal text (mnemonic, registers,
   * punctuation), or an address-bearing operand printed through a hook, with the
   * text the formatter's default renderer would print for it.
   */
  datatype Piece = Literal(text: string) | AddressOperand(kind: HookKind, address: nat, default: string)

  /**
   * What the external decoder reports for one instruction: its encoded length, its
   * mnemonic, the absolute target of its relative immediate if it has one, and the
   * shape of its formatted text.
   */
  datatype Insn = Insn(length: Length, mnemonic: Mnemonic, relativeTarget: Option<nat>, pieces: seq<Piece>)

  /** The external decoder over one section: offset into the section to an instruction, or failure. */
  type Decoder = nat -> Option<Insn>

  /** The decoder's machine modes; Unknown stands for any other value of the mode enumeration. */
  datatype MachineMode = Long64 | LongCompat32 | LongCompat16 | Legacy32 | Legacy16 | Real16 | Unknown(code: int)

  datatype Status = InvalidArgument | DecodeFailed

  /** Bits of address width of a mode that runs 64-, 32- or 16-bit code. */
  predicate Is64BitMode(m: MachineMode) { m == Long64 }
  predicate Is32BitMode(m: MachineMode) { m == LongCompat32 || m == Legacy32 }
  predicate Is16BitMode(m: MachineMode) { m == LongCompat16 || m == Legacy16 || m == Real16 }

  /** The stack width derived from a machine mode's address width, in bits. */
  function StackWidth(mode: MachineMode): (r: Result<nat, Status>)
    ensures r.Success? <==> !mode.Unknown?
    ensures r.Failure? ==> r.error == InvalidArgument
    ensures r == Success(64) <==> Is64BitMode(mode)
    ensures r == Success(32) <==> Is32BitMode(mode)
    ensures r == Success(16) <==> Is16BitMode(mode)
  {
    match mode
    case Long64 => Success(64)
    case LongCompat32 => Success(32)
    case Legacy32 => Success(32)
    case LongCompat16 => Success(16)
    case Legacy16 => Success(16)
    case Real16 => Success(16)
    case Unknown(_) => Failure(InvalidArgument)
  }

  /**
   * Decodes one instruction without formatting. The buffer is an offset into the
   * section (None is a null buffer); hasInstruction is false for a null output
   * record. Null arguments and unsupported modes fail before the decoder is used.
   */
  function DisassembleNoFormat(mode: MachineMode, buffer: Option<nat>, hasInstruction: bool, decode: Decoder)
    : (r: Result<Insn, Status>)
    ensures buffer.None? || !hasInstruction ==> r == Failure(InvalidArgument)
    ensures r == Failure(InvalidArgument) <==> buffer.None? || !hasInstruction || mode.Unknown?
    ensures r.Success? <==> buffer.Some? && hasInstruction && !mode.Unknown? && decode(buffer.value).Some?
    ensures r.Success? ==> r.value == decode(buffer.value).value
  {
    if buffer.None? || !hasInstruction then Failure(InvalidArgument)
    else match StackWidth(mode)
      case Failure(e) => Failure(e)
      case Success(_) =>
        match decode(buffer.value)
        case None => Failure(DecodeFailed)
        case Some(insn) => Success(insn)
  }

  /** The instruction's text with every address operand printed through its hook. */
  function FormatPieces(ctx: HookContext, ps: seq<Piece>): string {
    if |ps| == 0 then ""
    else
      var head := match ps[0]
        case Literal(t) => t
        case AddressOperand(k, a, d) => RenderOperand(ctx, k, a, d);
      head + FormatPieces(ctx, ps[1..])
  }

  /** The text the formatter prints with no hooks installed. */
  function DefaultText(ps: seq<Piece>): string {
    if |ps| == 0 then ""
    else
      var head := match ps[0]
        case Literal(t) => t
        case AddressOperand(_, _, d) => d;
      head + DefaultText(ps[1..])
  }

  /** Every address operand of ps resolves to nothing in ctx. */
  ghost predicate AllUnresolved(ctx: HookContext, ps: seq<Piece>) {
    forall i :: 0 <= i < |ps| && ps[i].AddressOperand? ==> Classify(ctx, ps[i].address) == Unresolved
  }

  /** When no operand address resolves, the hooks fall back to the default text throughout. */
  lemma {:induction false} FormatFallsBackToDefault(ctx: HookContext, ps: seq<Piece>)
    requires AllUnresolved(ctx, ps)
    ensures FormatPieces(ctx, ps) == DefaultText(ps)
  {
    if |ps| > 0 {
      assert AllUnresolved(ctx, ps[1..]) by {
        forall i | 0 <= i < |ps[1..]| && ps[1..][i].AddressOperand?
          ensures Classify(ctx, ps[1..][i].address) == Unresolved
        {
          assert ps[1..][i] == ps[i + 1];
        }
      }
      FormatFallsBackToDefault(ctx, ps[1..]);
    }
  }

  /**
   * Decodes and formats one instruction with the hooks bound to ctx, after the
   * same argument and mode checks as DisassembleNoFormat.
   */
  function DisassembleCustom(mode: MachineMode, buffer: Option<nat>, hasInstruction: bool, decode: Decoder,
                             ctx: HookContext): (r: Result<(Insn, string), Status>)
    ensures buffer.None? || !hasInstruction ==> r == Failure(InvalidArgument)
    ensures r.Success? ==> r.value.1 == FormatPieces(ctx, r.value.0.pieces)
  {
    if buffer.None? || !hasInstruction then Failure(InvalidArgument)
    else match StackWidth(mode)
      case Failure(e) => Failure(e)
      case Success(_) =>
        match decode(buffer.value)
        case None => Failure(DecodeFailed)
        case Some(insn) => Success((insn, FormatPieces(ctx, insn.pieces)))
  }

  /**
   * The formatting and the plain entry points decode alike: same failures, same
   * instruction. This is what lets the emission pass retrace the labelling pass.
   */
  lemma CustomDecodesLikeNoFormat(mode: MachineMode, buffer: Option<nat>, hasInstruction: bool, decode: Decoder,
                                  ctx: HookContext)
    ensures DisassembleCustom(mode, buffer, hasInstruction, decode, ctx).Failure?
        <==> DisassembleNoFormat(mode, buffer, hasInstruction, decode).Failure?
    ensures DisassembleCustom(mode, buffer, hasInstruction, decode, ctx).Failure? ==>
      DisassembleCustom(mode, buffer, hasInstruction, decode, ctx).error
        == DisassembleNoFormat(mode, buffer, hasInstruction, decode).error
    ensures DisassembleCustom(mode, buffer, hasInstruction, decode, ctx).Success? ==>
      DisassembleCustom(mode, buffer, hasInstruction, decode, ctx).value.0
        == DisassembleNoFormat(mode, buffer, hasInstruction, decode).value
  {
  }
}
