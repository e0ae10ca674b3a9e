/** Two worked runs of the whole pipeline on small hand-built functions. */
module Scenarios {
  import opened Wrappers
  import opened Le32
  import opened Hex
  import opened Labels
  import opened Resolver
  import opened Decode
  import opened Disassembly
  import opened Traversal

  /** An image holding one code section at 0x1000..0x1fff and no symbols. */
  function NoSymbols(): Image {
    Image(0x1000, 0x2fff, _ => None)
  }

  /** `eb 06` (jmp 0x1008), `81 c0 10 00 00 00` (add eax, 0x10), `c3` (ret), then bytes that do not decode. */
  const BranchBytes: seq<Byte> :=
    [0xeb, 0x06, 0x81, 0xc0, 0x10, 0x00, 0x00, 0x00, 0xc3, 0xff, 0xff, 0xff, 0xff, 0xff, 0xff, 0xff]

  /**
   * Function 0x1000..0x100f: a relative `jmp 0x1008` at 0x1000, an `add` at 0x1002,
   * a `ret` at 0x1008, and undecodable bytes at 0x1009.
   */
  function BranchJob(): Job {
    var code := Section(0x1000, 0x1fff, BranchBytes);
    var decode: Decoder := o =>
      if o == 0 then Some(BranchJmp()) else if o == 2 then Some(BranchAdd()) else if o == 8 then Some(BranchRet()) else None;
    Job(0x1000, 0x100f, code, NoSymbols(), decode)
  }

  const BranchLabels: LabelTable := map[0x1008 := "label_1008"]

  /** The lines pass 2 writes for the jump, the add, and the labelled ret. */
  const JmpLine: string := Indent + "jmp label_1008" + "\n"
  const AddLine: string := Indent + "add eax, 0x10" + "\n"
  const RetLines: string := "label_1008" + ":\n" + Indent + "ret" + "\n"

  lemma BranchLabelName()
    ensures LabelName(0x1008) == "label_1008"
  {
    assert ToHex(0x1008) == ToHex(0x100) + ['8'];
    assert ToHex(0x100) == ToHex(0x10) + ['0'];
    assert ToHex(0x10) == ToHex(0x1) + ['0'];
  }

  function BranchJmp(): Insn {
    Insn(2, Jmp, Some(0x1008), [Literal("jmp "), AddressOperand(AddressRelative, 0x1008, "0x1008")])
  }

  function BranchAdd(): Insn {
    Insn(6, OtherMnemonic("add"), None, [Literal("add eax, "), AddressOperand(Immediate, 0x10, "0x10")])
  }

  /** The immediate 0x10 is neither labelled nor inside the image, so its hook keeps the default text. */
  lemma BranchAddText()
    ensures FormatPieces(HookContextFor(BranchJob(), BranchLabels), BranchAdd().pieces) == "add eax, 0x10"
  {
    var ctx := HookContextFor(BranchJob(), BranchLabels);
    assert FormatPieces(ctx, [AddressOperand(Immediate, 0x10, "0x10")]) == "0x10";
  }

  function BranchRet(): Insn {
    Insn(1, OtherMnemonic("ret"), None, [Literal("ret")])
  }

  /** No jump table follows the jump: the bytes after it, the start of the add, read as 0x0010c081. */
  lemma BranchNoTable(labels: LabelTable, out: string)
    ensures ScanLabels(BranchJob(), Cursor(2, 0x1002), labels, true) == (labels, Cursor(2, 0x1002))
    ensures ScanText(BranchJob(), labels, Cursor(2, 0x1002), out, true) == (out, Cursor(2, 0x1002))
  {
    assert WordAt(BranchJob(), 2) == Some(0x0010c081);
  }

  lemma BranchPass1Rest()
    ensures Pass1(BranchJob(), Cursor(2, 0x1002), BranchLabels) == BranchLabels
  {
    var job := BranchJob();
    assert Pass1(job, Cursor(9, 0x1009), BranchLabels) == BranchLabels;
    Pass1Unfolds(job, Cursor(8, 0x1008), BranchLabels, BranchRet());
    Pass1Unfolds(job, Cursor(2, 0x1002), BranchLabels, BranchAdd());
  }

  lemma BranchJmpLabels()
    ensures LabelBranch(BranchJob(), BranchJmp(), map[]) == BranchLabels
  {
    BranchLabelName();
    assert AddLabel(map[], 0x1008) == BranchLabels;
  }

  lemma BranchPass1First()
    ensures Pass1(BranchJob(), Cursor(0, 0x1000), map[]) == Pass1(BranchJob(), Cursor(2, 0x1002), BranchLabels)
  {
    var job := BranchJob();
    BranchJmpLabels();
    BranchNoTable(BranchLabels, "");
    Pass1Unfolds(job, Cursor(0, 0x1000), map[], BranchJmp());
  }

  /** Pass 1 labels the in-range target of the jump and nothing else. */
  lemma BranchPass1()
    ensures Pass1(BranchJob(), StartCursor(BranchJob()), map[]) == BranchLabels
  {
    assert StartCursor(BranchJob()) == Cursor(0, 0x1000);
    BranchPass1First();
    BranchPass1Rest();
  }

  lemma FormatLiteral(ctx: HookContext, t: string)
    ensures FormatPieces(ctx, [Literal(t)]) == t
  {
    assert [Literal(t)][1..] == [];
  }

  lemma BranchJumpText()
    ensures FormatPieces(HookContextFor(BranchJob(), BranchLabels), BranchJmp().pieces) == "jmp label_1008"
  {
    var ctx := HookContextFor(BranchJob(), BranchLabels);
    assert FormatPieces(ctx, [AddressOperand(AddressRelative, 0x1008, "0x1008")]) == "label_1008";
  }

  lemma BranchPass2Rest(out: string)
    ensures Pass2(BranchJob(), BranchLabels, Cursor(2, 0x1002), out)
         == out + AddLine + RetLines
  {
    var job := BranchJob();
    var ctx := HookContextFor(job, BranchLabels);
    var t2 := out + AddLine;
    var t3 := t2 + RetLines;
    BranchAddText();
    FormatLiteral(ctx, "ret");
    assert InstructionLines(BranchLabels, 0x1002, "add eax, 0x10") == AddLine;
    assert InstructionLines(BranchLabels, 0x1008, "ret") == RetLines;
    assert Pass2(job, BranchLabels, Cursor(9, 0x1009), t3) == t3;
    Pass2Unfolds(job, BranchLabels, Cursor(8, 0x1008), t2, BranchRet());
    Pass2Unfolds(job, BranchLabels, Cursor(2, 0x1002), out, BranchAdd());
  }

  lemma BranchJmpLine()
    ensures "" + InstructionLines(BranchLabels, 0x1000, FormatPieces(HookContextFor(BranchJob(), BranchLabels), BranchJmp().pieces))
         == JmpLine
  {
    var text := "jmp label_1008";
    BranchJumpText();
    assert LabelLine(BranchLabels, 0x1000) == "";
    assert "" + Indent == Indent;
    assert "" + (Indent + text + "\n") == Indent + text + "\n";
  }

  lemma BranchPass2First()
    ensures Pass2(BranchJob(), BranchLabels, Cursor(0, 0x1000), "")
         == Pass2(BranchJob(), BranchLabels, Cursor(2, 0x1002), JmpLine)
  {
    var job := BranchJob();
    BranchJmpLine();
    BranchNoTable(BranchLabels, JmpLine);
    Pass2Unfolds(job, BranchLabels, Cursor(0, 0x1000), "", BranchJmp());
  }

  /** Pass 2 writes the three decodable instructions, the label line before 0x1008, and stops. */
  lemma BranchPass2()
    ensures Pass2(BranchJob(), BranchLabels, StartCursor(BranchJob()), "") == JmpLine + AddLine + RetLines
  {
    assert StartCursor(BranchJob()) == Cursor(0, 0x1000);
    BranchPass2First();
    BranchPass2Rest(JmpLine);
  }

  /**
   * The branch target gets the label "label_1008"; its label line precedes the
   * instruction at 0x1008; the jump's operand prints as that label; and the
   * undecodable bytes end the text after the three instructions before them.
   */
  lemma BranchScenario()
    ensures Disassemble(BranchJob(), FunctionState(map[], "")).labels == map[0x1008 := "label_1008"]
    ensures Disassemble(BranchJob(), FunctionState(map[], "")).text == JmpLine + AddLine + RetLines
  {
    BranchPass1();
    BranchPass2();
  }
}
