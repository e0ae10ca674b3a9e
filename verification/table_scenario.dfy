/**
 * A worked run over a function whose indirect jump is followed by an inline
 * jump table, as emitted for a small switch statement.
 */
module TableScenario {
  import opened Wrappers
  import opened Le32
  import opened Hex
  import opened Labels
  import opened Resolver
  import opened Decode
  import opened Disassembly
  import opened Traversal
  import opened Scenarios

  /**
   * Function 0x1000..0x1012: `jmp [eax*4+0x1007]` (seven bytes), a two-slot table
   * at 0x1007 holding 0x100f and 0x1010, then two `ret`s at 0x100f and 0x1010 and
   * two undecodable bytes. The word at 0x100f reads 0xffffc3c3, which is no
   * address of the function, so the table scan stops there.
   */
  const TableBytes: seq<Byte> :=
    [0xff, 0x24, 0x85, 0x07, 0x10, 0x00, 0x00,
     0x0f, 0x10, 0x00, 0x00,
     0x10, 0x10, 0x00, 0x00,
     0xc3, 0xc3, 0xff, 0xff]

  function TableJmp(): Insn {
    Insn(7, Jmp, None, [Literal("jmp dword ptr [eax*4"), AddressOperand(Displacement, 0x1007, "+0x1007"), Literal("]")])
  }

  function TableRet(): Insn {
    Insn(1, OtherMnemonic("ret"), None, [Literal("ret")])
  }

  function TableJob(): Job {
    var code := Section(0x1000, 0x1fff, TableBytes);
    var decode: Decoder := o => if o == 0 then Some(TableJmp()) else if o == 15 || o == 16 then Some(TableRet()) else None;
    Job(0x1000, 0x1012, code, NoSymbols(), decode)
  }

  const TableLabels: LabelTable := map[0x1007 := "label_1007", 0x100f := "label_100f", 0x1010 := "label_1010"]

  /** The lines pass 2 writes: the jump, the table's anchor and slots, and the two labelled cases. */
  const TableJmpLine: string := Indent + "jmp dword ptr [eax*4+label_1007]" + "\n"
  const AnchorLine: string := "label_1007" + ":\n"
  const FirstSlotLine: string := Indent + ".int " + "label_100f" + "\n"
  const SecondSlotLine: string := Indent + ".int " + "label_1010" + "\n"
  const FirstCaseLines: string := "label_100f" + ":\n" + Indent + "ret" + "\n"
  const SecondCaseLines: string := "label_1010" + ":\n" + Indent + "ret" + "\n"

  lemma Hex10()
    ensures ToHex(0x10) == "10"
  {
    assert ToHex(0x10) == ToHex(0x1) + ['0'];
  }

  lemma TableLabelNames()
    ensures LabelName(0x1007) == "label_1007"
    ensures LabelName(0x100f) == "label_100f"
    ensures LabelName(0x1010) == "label_1010"
  {
    Hex10();
    assert ToHex(0x100) == ToHex(0x10) + ['0'];
    assert ToHex(0x101) == ToHex(0x10) + ['1'];
    assert ToHex(0x1007) == ToHex(0x100) + ['7'];
    assert ToHex(0x100f) == ToHex(0x100) + ['f'];
    assert ToHex(0x1010) == ToHex(0x101) + ['0'];
  }

  /** The three words the scan reads: two addresses of the function, then the stop word. */
  lemma TableWords()
    ensures WordAt(TableJob(), 7) == Some(0x100f)
    ensures WordAt(TableJob(), 11) == Some(0x1010)
    ensures WordAt(TableJob(), 15) == Some(0xffffc3c3)
  {
  }

  lemma TableScanEnds(labels: LabelTable, out: string)
    ensures ScanLabels(TableJob(), Cursor(15, 0x100f), labels, false) == (labels, Cursor(15, 0x100f))
    ensures ScanText(TableJob(), labels, Cursor(15, 0x100f), out, false) == (out, Cursor(15, 0x100f))
  {
    TableWords();
  }

  lemma TableLabelMap()
    ensures AddLabel(AddLabel(AddLabel(map[], 0x1007), 0x100f), 0x1010) == TableLabels
  {
    TableLabelNames();
  }

  /** The pass 1 scan labels the table's own address and both slot targets. */
  lemma TableScanLabels()
    ensures ScanLabels(TableJob(), Cursor(7, 0x1007), map[], true) == (TableLabels, Cursor(15, 0x100f))
  {
    var job := TableJob();
    var l1 := AddLabel(AddLabel(map[], 0x1007), 0x100f);
    TableWords();
    TableLabelMap();
    TableScanEnds(TableLabels, "");
    assert ScanLabels(job, Cursor(11, 0x100b), l1, false) == (TableLabels, Cursor(15, 0x100f));
  }

  lemma TableScanTextSecond(out: string)
    ensures ScanText(TableJob(), TableLabels, Cursor(11, 0x100b), out, false) == (out + SecondSlotLine, Cursor(15, 0x100f))
  {
    TableWords();
    TableScanEnds(TableLabels, out + SecondSlotLine);
    assert SlotLine(TableLabels, 0x1010) == SecondSlotLine;
  }

  lemma TableScanTextFirst(out: string)
    ensures ScanText(TableJob(), TableLabels, Cursor(7, 0x1007), out, true)
         == ScanText(TableJob(), TableLabels, Cursor(11, 0x100b), out + AnchorLine + FirstSlotLine, false)
  {
    TableWords();
    assert LabelLine(TableLabels, 0x1007) == AnchorLine;
    assert SlotLine(TableLabels, 0x100f) == FirstSlotLine;
  }

  /** The pass 2 scan writes the anchor's label line and one ".int" line per slot. */
  lemma TableScanText()
    ensures ScanText(TableJob(), TableLabels, Cursor(7, 0x1007), TableJmpLine, true)
         == (TableJmpLine + AnchorLine + FirstSlotLine + SecondSlotLine, Cursor(15, 0x100f))
  {
    TableScanTextFirst(TableJmpLine);
    TableScanTextSecond(TableJmpLine + AnchorLine + FirstSlotLine);
  }

  lemma TablePass1Cases()
    ensures Pass1(TableJob(), Cursor(15, 0x100f), TableLabels) == TableLabels
  {
    var job := TableJob();
    assert Pass1(job, Cursor(17, 0x1011), TableLabels) == TableLabels;
    Pass1Unfolds(job, Cursor(16, 0x1010), TableLabels, TableRet());
    Pass1Unfolds(job, Cursor(15, 0x100f), TableLabels, TableRet());
  }

  lemma TablePass1First()
    ensures Pass1(TableJob(), Cursor(0, 0x1000), map[]) == Pass1(TableJob(), Cursor(15, 0x100f), TableLabels)
  {
    var job := TableJob();
    assert LabelBranch(job, TableJmp(), map[]) == map[];
    assert Advance(Cursor(0, 0x1000), 7) == Cursor(7, 0x1007);
    TableScanLabels();
    Pass1Unfolds(job, Cursor(0, 0x1000), map[], TableJmp());
  }

  /** Pass 1 labels the table and its two cases; the jump itself has no relative target. */
  lemma TablePass1()
    ensures Pass1(TableJob(), StartCursor(TableJob()), map[]) == TableLabels
  {
    assert StartCursor(TableJob()) == Cursor(0, 0x1000);
    TablePass1First();
    TablePass1Cases();
  }

  lemma TableJumpText()
    ensures FormatPieces(HookContextFor(TableJob(), TableLabels), TableJmp().pieces) == "jmp dword ptr [eax*4+label_1007]"
  {
    var ctx := HookContextFor(TableJob(), TableLabels);
    var ps := TableJmp().pieces;
    FormatLiteral(ctx, "]");
    assert ps[1..][1..] == [Literal("]")];
    assert FormatPieces(ctx, ps[1..]) == "+label_1007" + "]";
  }

  lemma TableJmpLineIs()
    ensures "" + InstructionLines(TableLabels, 0x1000, FormatPieces(HookContextFor(TableJob(), TableLabels), TableJmp().pieces))
         == TableJmpLine
  {
    var text := "jmp dword ptr [eax*4+label_1007]";
    TableJumpText();
    assert LabelLine(TableLabels, 0x1000) == "";
    assert "" + Indent == Indent;
    assert "" + (Indent + text + "\n") == Indent + text + "\n";
  }

  lemma TablePass2First()
    ensures Pass2(TableJob(), TableLabels, Cursor(0, 0x1000), "")
         == Pass2(TableJob(), TableLabels, Cursor(15, 0x100f), TableJmpLine + AnchorLine + FirstSlotLine + SecondSlotLine)
  {
    TableJmpLineIs();
    TableScanText();
    Pass2Unfolds(TableJob(), TableLabels, Cursor(0, 0x1000), "", TableJmp());
  }

  lemma TablePass2Cases(out: string)
    ensures Pass2(TableJob(), TableLabels, Cursor(15, 0x100f), out) == out + FirstCaseLines + SecondCaseLines
  {
    var job := TableJob();
    var ctx := HookContextFor(job, TableLabels);
    var t1 := out + FirstCaseLines;
    var t2 := t1 + SecondCaseLines;
    FormatLiteral(ctx, "ret");
    assert InstructionLines(TableLabels, 0x100f, "ret") == FirstCaseLines;
    assert InstructionLines(TableLabels, 0x1010, "ret") == SecondCaseLines;
    assert Pass2(job, TableLabels, Cursor(17, 0x1011), t2) == t2;
    Pass2Unfolds(job, TableLabels, Cursor(16, 0x1010), t1, TableRet());
    Pass2Unfolds(job, TableLabels, Cursor(15, 0x100f), out, TableRet());
  }

  /** Pass 2 writes the jump, the table as ".int" lines, and the two labelled cases. */
  lemma TablePass2()
    ensures Pass2(TableJob(), TableLabels, StartCursor(TableJob()), "")
         == TableJmpLine + AnchorLine + FirstSlotLine + SecondSlotLine + FirstCaseLines + SecondCaseLines
  {
    assert StartCursor(TableJob()) == Cursor(0, 0x1000);
    TablePass2First();
    TablePass2Cases(TableJmpLine + AnchorLine + FirstSlotLine + SecondSlotLine);
  }

  /**
   * The table is recognised: its address gets a label that the jump's displacement
   * prints as, its slots print as ".int" lines naming the case labels, and the
   * cases' code follows under those labels.
   */
  lemma TableScenarioRun()
    ensures Disassemble(TableJob(), FunctionState(map[], "")).labels
         == map[0x1007 := "label_1007", 0x100f := "label_100f", 0x1010 := "label_1010"]
    ensures Disassemble(TableJob(), FunctionState(map[], "")).text
         == TableJmpLine + AnchorLine + FirstSlotLine + SecondSlotLine + FirstCaseLines + SecondCaseLines
  {
    TablePass1();
    TablePass2();
  }
}
