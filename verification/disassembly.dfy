/**
 * Function::disassemble: a labelling pass and an emission pass over the same
 * inclusive address range of one section, each following a `nop` or `jmp` with
 * a naive inline jump-table scan.
 */
module Disassembly {
  import opened Wrappers
  import opened Le32
  import opened Labels
  import opened Resolver
  import opened Decode

  /** A section: its first address, the inclusive end address the hooks compare against, and its bytes. */
  datatype Section = Section(address: nat, end: nat, data: seq<Byte>)

  /**
   * One function to disassemble: its inclusive address range, the section it lives
   * in, the image around it, and the decoder over that section's bytes.
   */
  datatype Job = Job(start: nat, end: nat, section: Section, image: Image, decode: Decoder)

  /** What a function object accumulates: its label table and its disassembly text. */
  datatype FunctionState = FunctionState(labels: LabelTable, text: string)

  /** The position of a pass: offset into the section and the matching runtime address. */
  datatype Cursor = Cursor(offset: nat, address: nat)

  /** Both passes decode in 32-bit legacy mode. */
  const Mode := Legacy32

  /** A jump-table slot is one 32-bit word. */
  const WordSize: nat := 4

  const Indent := "    "

  /** The offsets are unsigned differences from the section's start address. */
  function StartOffset(job: Job): nat {
    Sub64(job.start, job.section.address)
  }

  function EndOffset(job: Job): nat {
    Sub64(job.end, job.section.address)
  }

  function StartCursor(job: Job): Cursor {
    Cursor(StartOffset(job), job.start)
  }

  predicate InFunction(job: Job, a: nat) {
    job.start <= a <= job.end
  }

  function Advance(c: Cursor, n: nat): Cursor {
    Cursor(c.offset + n, c.address + n)
  }

  /** The little-endian word at offset, when four bytes of the section remain there. */
  function WordAt(job: Job, offset: nat): Option<nat> {
    if offset + WordSize <= |job.section.data| then Some(GetLe32(job.section.data, offset)) else None
  }

  /** The word at offset reads as an address inside the function: the scan goes on. */
  predicate TableEntryAt(job: Job, offset: nat) {
    WordAt(job, offset).Some? && InFunction(job, WordAt(job, offset).value)
  }

  /** A `nop` or a `jmp` may be followed by an inline jump table. */
  predicate StartsTableScan(insn: Insn) {
    insn.mnemonic == Nop || insn.mnemonic == Jmp
  }

  /** The function as the hooks see it during emission. */
  function HookContextFor(job: Job, labels: LabelTable): HookContext {
    HookContext(labels, job.section.address, job.section.end, job.image)
  }

  /** How much of the range is left to a pass at c; zero once the cursor is past the end. */
  function Remaining(job: Job, c: Cursor): nat {
    if c.offset <= EndOffset(job) then EndOffset(job) + 1 - c.offset else 0
  }

  /**
   * Where a jump-table scan that starts at c stops: at the first word that does not
   * read as an address inside the function, or where fewer than four bytes remain.
   * Every word it steps over reads as such an address.
   */
  function ScanEnd(job: Job, c: Cursor): (e: Cursor)
    ensures c.offset <= e.offset && e.address == c.address + (e.offset - c.offset)
    ensures (e.offset - c.offset) % WordSize == 0
    ensures forall k :: c.offset <= k < e.offset && (k - c.offset) % WordSize == 0 ==> TableEntryAt(job, k)
    ensures !TableEntryAt(job, e.offset)
    decreases |job.section.data| - c.offset
  {
    if TableEntryAt(job, c.offset) then ScanEnd(job, Advance(c, WordSize)) else c
  }

  // ---------------------------------------------------------------------------
  // Pass 1: label discovery

  /** Labels the target of a relative branch when it lies inside the function. */
  function LabelBranch(job: Job, insn: Insn, labels: LabelTable): (r: LabelTable)
    ensures Extends(r, labels)
    ensures insn.relativeTarget.Some? && InFunction(job, insn.relativeTarget.value) ==>
      var t := insn.relativeTarget.value; t in r && (t !in labels ==> r[t] == LabelName(t))
    ensures forall a :: a in r && a !in labels ==> insn.relativeTarget == Some(a) && InFunction(job, a)
  {
    match insn.relativeTarget
    case Some(t) => if InFunction(job, t) then AddLabel(labels, t) else labels
    case None => labels
  }

  /**
   * The pass 1 jump-table scan from c. While the word at the cursor reads as an
   * address inside the function: on the first word only, label the anchor (the
   * cursor's own address) if it is inside the function; label the word; step one
   * word. It stops where ScanEnd says.
   */
  function ScanLabels(job: Job, c: Cursor, labels: LabelTable, first: bool): (r: (LabelTable, Cursor))
    ensures r.1 == ScanEnd(job, c)
    ensures Extends(r.0, labels)
    ensures forall a :: a in r.0 && a !in labels ==> InFunction(job, a)
    ensures WellFormed(labels) ==> WellFormed(r.0)
    decreases |job.section.data| - c.offset
  {
    if TableEntryAt(job, c.offset) then
      var anchored := if first && InFunction(job, c.address) then AddLabel(labels, c.address) else labels;
      ScanLabels(job, Advance(c, WordSize), AddLabel(anchored, WordAt(job, c.offset).value), false)
    else (labels, c)
  }

  /** A positive multiple of the word size is at least one word. */
  lemma NextWordOffset(c: nat, k: nat)
    requires c < k && (k - c) % WordSize == 0
    ensures c + WordSize <= k && (k - (c + WordSize)) % WordSize == 0
  {
  }

  /** The pass 1 scan labels the target of every word it steps over. */
  lemma {:induction false} ScanLabelsMarksSlots(job: Job, c: Cursor, labels: LabelTable, first: bool)
    ensures var r := ScanLabels(job, c, labels, first);
      forall k :: c.offset <= k < r.1.offset && (k - c.offset) % WordSize == 0 ==>
        WordAt(job, k).Some? && WordAt(job, k).value in r.0
    decreases |job.section.data| - c.offset
  {
    var r := ScanLabels(job, c, labels, first);
    if TableEntryAt(job, c.offset) {
      var w := WordAt(job, c.offset).value;
      var anchored := if first && InFunction(job, c.address) then AddLabel(labels, c.address) else labels;
      var next := Advance(c, WordSize);
      var added := AddLabel(anchored, w);
      assert r == ScanLabels(job, next, added, false);
      assert w in added;
      ScanLabelsMarksSlots(job, next, added, false);
      forall k | c.offset <= k < r.1.offset && (k - c.offset) % WordSize == 0
        ensures WordAt(job, k).Some? && WordAt(job, k).value in r.0
      {
        if k != c.offset {
          NextWordOffset(c.offset, k);
        }
      }
    }
  }

  /** On the first word of a table, the pass 1 scan labels the table's own address when it is inside the function. */
  lemma ScanLabelsMarksAnchor(job: Job, c: Cursor, labels: LabelTable)
    requires TableEntryAt(job, c.offset) && InFunction(job, c.address)
    ensures c.address in ScanLabels(job, c, labels, true).0
  {
    var anchored := AddLabel(labels, c.address);
    var added := AddLabel(anchored, WordAt(job, c.offset).value);
    assert ScanLabels(job, c, labels, true) == ScanLabels(job, Advance(c, WordSize), added, false);
    assert c.address in added;
  }

  /**
   * Pass 1 from cursor c. It stops at the first decode failure or once the offset
   * is past the end offset (the end is inclusive); otherwise it labels an in-range
   * relative target, steps over the instruction and, after a `nop` or `jmp`, over
   * any jump table. It only ever adds labels inside the function and never
   * renames an existing one.
   */
  function Pass1(job: Job, c: Cursor, labels: LabelTable): (r: LabelTable)
    ensures Extends(r, labels)
    ensures forall a :: a in r && a !in labels ==> InFunction(job, a)
    ensures WellFormed(labels) ==> WellFormed(r)
    decreases Remaining(job, c)
  {
    match DisassembleNoFormat(Mode, Some(c.offset), true, job.decode)
    case Failure(_) => labels
    case Success(insn) =>
      if c.offset > EndOffset(job) then labels
      else
        var branched := LabelBranch(job, insn, labels);
        var next := Advance(c, insn.length);
        if StartsTableScan(insn) then
          var scanned := ScanLabels(job, next, branched, true);
          Pass1(job, scanned.1, scanned.0)
        else Pass1(job, next, branched)
  }

  // ---------------------------------------------------------------------------
  // Pass 2: emission

  /** The "name:" line written before an address that carries a label. */
  function LabelLine(labels: LabelTable, a: nat): string {
    if a in labels then labels[a] + ":\n" else ""
  }

  /** The lines written for an instruction at address a whose formatted text is text. */
  function InstructionLines(labels: LabelTable, a: nat, text: string): string {
    LabelLine(labels, a) + Indent + text + "\n"
  }

  /** The ".int name" line for a jump-table slot, written only when its target has a label. */
  function SlotLine(labels: LabelTable, target: nat): string {
    if target in labels then Indent + ".int " + labels[target] + "\n" else ""
  }

  /**
   * The pass 2 jump-table scan: it walks the same words as ScanLabels, writing the
   * anchor's label line on the first word and a ".int" line per labelled slot.
   */
  function ScanText(job: Job, labels: LabelTable, c: Cursor, out: string, first: bool): (r: (string, Cursor))
    ensures r.1 == ScanEnd(job, c)
    ensures out <= r.0
    decreases |job.section.data| - c.offset
  {
    if TableEntryAt(job, c.offset) then
      var anchored := if first then out + LabelLine(labels, c.address) else out;
      var slotted := anchored + SlotLine(labels, WordAt(job, c.offset).value);
      ScanText(job, labels, Advance(c, WordSize), slotted, false)
    else (out, c)
  }

  /**
   * Pass 2 from cursor c, appending to out: the label line of a labelled
   * instruction, then the instruction's hooked text indented on its own line, then
   * any jump table. It stops where pass 1 stops, and what it wrote before stopping
   * is kept.
   */
  function Pass2(job: Job, labels: LabelTable, c: Cursor, out: string): (r: string)
    ensures out <= r
    decreases Remaining(job, c)
  {
    match DisassembleCustom(Mode, Some(c.offset), true, job.decode, HookContextFor(job, labels))
    case Failure(_) => out
    case Success(decoded) =>
      if c.offset > EndOffset(job) then out
      else
        var insn := decoded.0;
        var line := out + InstructionLines(labels, c.address, decoded.1);
        var next := Advance(c, insn.length);
        if StartsTableScan(insn) then
          var scanned := ScanText(job, labels, next, line, true);
          Pass2(job, labels, scanned.1, scanned.0)
        else Pass2(job, labels, next, line)
  }

  /**
   * Function::disassemble on a function object: nothing at all for a zero-size
   * section; otherwise pass 1 extends the object's labels and pass 2 appends the
   * text, reading the extended table without changing it.
   */
  function Disassemble(job: Job, s: FunctionState): (r: FunctionState)
    ensures |job.section.data| == 0 ==> r == s
    ensures Extends(r.labels, s.labels)
    ensures forall a :: a in r.labels && a !in s.labels ==> InFunction(job, a)
    ensures WellFormed(s.labels) ==> WellFormed(r.labels)
  {
    if |job.section.data| == 0 then s
    else
      var labels := Pass1(job, StartCursor(job), s.labels);
      FunctionState(labels, Pass2(job, labels, StartCursor(job), s.text))
  }
}
