/**
 * A single reference traversal of a function's range, shared by both passes:
 * the sequence of events a pass meets. Pass 1 is the label requests of these
 * events applied in order, and pass 2 is their rendering concatenated, so both
 * passes visit the same cursors and step over the same jump tables.
 */
module Traversal {
  import opened Wrappers
  import opened Labels
  import opened Resolver
  import opened Decode
  import opened Disassembly

  /** An instruction decoded at a cursor, the anchor of a jump table, or one table slot. */
  datatype Event = Instruction(at: Cursor, insn: Insn) | TableStart(anchor: nat) | TableSlot(at: Cursor, target: nat)

  /** The events of a jump-table scan starting at c, with the cursor where it stops. */
  function TableEvents(job: Job, c: Cursor, first: bool): (r: (seq<Event>, Cursor))
    ensures r.1 == ScanEnd(job, c)
    ensures forall i :: 0 <= i < |r.0| ==> !r.0[i].Instruction?
    ensures forall i :: 0 <= i < |r.0| && r.0[i].TableSlot? ==> InFunction(job, r.0[i].target)
    decreases |job.section.data| - c.offset, if first then 1 else 0
  {
    if !TableEntryAt(job, c.offset) then ([], c)
    else if first then
      var rest := TableEvents(job, c, false);
      ([TableStart(c.address)] + rest.0, rest.1)
    else
      var rest := TableEvents(job, Advance(c, WordSize), false);
      ([TableSlot(c, WordAt(job, c.offset).value)] + rest.0, rest.1)
  }

  /**
   * The slots of a table walk: one per word stepped over, in order, each at its
   * own cursor and holding the word read there.
   */
  lemma {:induction false} TableEventsSlots(job: Job, c: Cursor)
    ensures var r := TableEvents(job, c, false);
      && |r.0| == (r.1.offset - c.offset) / WordSize
      && forall i :: 0 <= i < |r.0| ==>
           var at := Advance(c, WordSize * i);
           TableEntryAt(job, at.offset) && r.0[i] == TableSlot(at, WordAt(job, at.offset).value)
    decreases |job.section.data| - c.offset
  {
    var r := TableEvents(job, c, false);
    if TableEntryAt(job, c.offset) {
      var next := Advance(c, WordSize);
      var rest := TableEvents(job, next, false);
      TableEventsSlots(job, next);
      assert r.0 == [TableSlot(c, WordAt(job, c.offset).value)] + rest.0 && r.1 == rest.1;
      assert r.1.offset - c.offset == (r.1.offset - next.offset) + WordSize;
      forall i | 0 <= i < |r.0|
        ensures var at := Advance(c, WordSize * i);
          TableEntryAt(job, at.offset) && r.0[i] == TableSlot(at, WordAt(job, at.offset).value)
      {
        if i == 0 {
          assert Advance(c, WordSize * i) == c;
        } else {
          assert r.0[i] == rest.0[i - 1];
          assert Advance(next, WordSize * (i - 1)) == Advance(c, WordSize * i);
        }
      }
    }
  }

  /** A scan that starts a table puts the anchor before the slots; one that does not is empty. */
  lemma TableEventsAnchor(job: Job, c: Cursor)
    ensures TableEntryAt(job, c.offset) ==>
      TableEvents(job, c, true) == ([TableStart(c.address)] + TableEvents(job, c, false).0, TableEvents(job, c, false).1)
    ensures !TableEntryAt(job, c.offset) ==> TableEvents(job, c, true) == ([], c)
  {
  }

  /**
   * The events of a pass from c: an Instruction event for each instruction decoded
   * at an offset within the range, each followed by its jump table's events.
   */
  function Walk(job: Job, c: Cursor): seq<Event>
    decreases Remaining(job, c)
  {
    match DisassembleNoFormat(Mode, Some(c.offset), true, job.decode)
    case Failure(_) => []
    case Success(insn) =>
      if c.offset > EndOffset(job) then []
      else
        var next := Advance(c, insn.length);
        if StartsTableScan(insn) then
          var table := TableEvents(job, next, true);
          [Instruction(c, insn)] + (table.0 + Walk(job, table.1))
        else [Instruction(c, insn)] + Walk(job, next)
  }

  /**
   * Every instruction of the walk was decoded successfully at an offset within the
   * range, and every table slot it met reads as an address inside the function.
   */
  ghost predicate ValidEvents(job: Job, es: seq<Event>) {
    && (forall i :: 0 <= i < |es| && es[i].Instruction? ==>
         es[i].at.offset <= EndOffset(job) && job.decode(es[i].at.offset) == Some(es[i].insn))
    && (forall i :: 0 <= i < |es| && es[i].TableSlot? ==> InFunction(job, es[i].target))
  }

  lemma ValidEventsAppend(job: Job, a: seq<Event>, b: seq<Event>)
    requires ValidEvents(job, a) && ValidEvents(job, b)
    ensures ValidEvents(job, a + b)
  {
    forall i | 0 <= i < |a + b|
      ensures (a + b)[i] == if i < |a| then a[i] else b[i - |a|]
    {
    }
  }

  /** A pass only decodes inside the range, stops at the first failure, and only ever reads in-range slots. */
  lemma {:induction false} WalkEventsValid(job: Job, c: Cursor)
    ensures ValidEvents(job, Walk(job, c))
    decreases Remaining(job, c)
  {
    match job.decode(c.offset)
    case None =>
    case Some(insn) =>
      if c.offset <= EndOffset(job) {
        var next := Advance(c, insn.length);
        var head := [Instruction(c, insn)];
        assert ValidEvents(job, head);
        if StartsTableScan(insn) {
          var table := TableEvents(job, next, true);
          WalkEventsValid(job, table.1);
          ValidEventsAppend(job, table.0, Walk(job, table.1));
          ValidEventsAppend(job, head, table.0 + Walk(job, table.1));
        } else {
          WalkEventsValid(job, next);
          ValidEventsAppend(job, head, Walk(job, next));
        }
      }
  }

  /** The address an event asks pass 1 to label, if any. */
  function Requested(job: Job, e: Event): Option<nat> {
    match e
    case Instruction(_, insn) =>
      if insn.relativeTarget.Some? && InFunction(job, insn.relativeTarget.value) then insn.relativeTarget else None
    case TableStart(a) => if InFunction(job, a) then Some(a) else None
    case TableSlot(_, w) => Some(w)
  }

  function Request(job: Job, labels: LabelTable, e: Event): LabelTable {
    match Requested(job, e)
    case Some(a) => AddLabel(labels, a)
    case None => labels
  }

  /** Every address some event of es asks to label is a key of t. */
  ghost predicate AllRequestedIn(job: Job, es: seq<Event>, t: LabelTable) {
    forall i :: 0 <= i < |es| && Requested(job, es[i]).Some? ==> Requested(job, es[i]).value in t
  }

  /** The addresses the events of es ask pass 1 to label. */
  ghost function RequestedSet(job: Job, es: seq<Event>): set<nat> {
    set i | 0 <= i < |es| && Requested(job, es[i]).Some? :: Requested(job, es[i]).value
  }

  /** The requests of a non-empty sequence are its head's request and those of its tail. */
  lemma RequestedSetCons(job: Job, es: seq<Event>)
    requires |es| > 0
    ensures RequestedSet(job, es)
         == (if Requested(job, es[0]).Some? then {Requested(job, es[0]).value} else {}) + RequestedSet(job, es[1..])
  {
    var head := if Requested(job, es[0]).Some? then {Requested(job, es[0]).value} else {};
    forall a | a in RequestedSet(job, es)
      ensures a in head + RequestedSet(job, es[1..])
    {
      var i :| 0 <= i < |es| && Requested(job, es[i]).Some? && Requested(job, es[i]).value == a;
      if i > 0 {
        assert es[1..][i - 1] == es[i];
      }
    }
    forall a | a in RequestedSet(job, es[1..])
      ensures a in RequestedSet(job, es)
    {
      var i :| 0 <= i < |es[1..]| && Requested(job, es[1..][i]).Some? && Requested(job, es[1..][i]).value == a;
      assert es[1..][i] == es[i + 1];
    }
  }

  /**
   * The label requests of es applied in order: existing names are kept, and the
   * keys grow by exactly the requested addresses, nothing else.
   */
  function Collect(job: Job, labels: LabelTable, es: seq<Event>): (r: LabelTable)
    ensures Extends(r, labels)
    ensures r.Keys == labels.Keys + RequestedSet(job, es)
    decreases |es|
  {
    if |es| == 0 then labels
    else
      RequestedSetCons(job, es);
      Collect(job, Request(job, labels, es[0]), es[1..])
  }

  /** The text pass 2 writes for one event. */
  function RenderEvent(job: Job, labels: LabelTable, e: Event): string {
    match e
    case Instruction(c, insn) => InstructionLines(labels, c.address, FormatPieces(HookContextFor(job, labels), insn.pieces))
    case TableStart(a) => LabelLine(labels, a)
    case TableSlot(_, w) => SlotLine(labels, w)
  }

  /** The text pass 2 writes for es. */
  function Render(job: Job, labels: LabelTable, es: seq<Event>): string
    decreases |es|
  {
    if |es| == 0 then "" else RenderEvent(job, labels, es[0]) + Render(job, labels, es[1..])
  }

  lemma {:induction false} CollectAppend(job: Job, labels: LabelTable, a: seq<Event>, b: seq<Event>)
    ensures Collect(job, labels, a + b) == Collect(job, Collect(job, labels, a), b)
    decreases |a|
  {
    if |a| > 0 {
      assert (a + b)[1..] == a[1..] + b;
      CollectAppend(job, Request(job, labels, a[0]), a[1..], b);
    } else {
      assert a + b == b;
    }
  }

  lemma {:induction false} RenderAppend(job: Job, labels: LabelTable, a: seq<Event>, b: seq<Event>)
    ensures Render(job, labels, a + b) == Render(job, labels, a) + Render(job, labels, b)
    decreases |a|
  {
    if |a| > 0 {
      assert (a + b)[1..] == a[1..] + b;
      RenderAppend(job, labels, a[1..], b);
    } else {
      assert a + b == b;
    }
  }

  lemma CollectCons(job: Job, labels: LabelTable, e: Event, es: seq<Event>)
    ensures Collect(job, labels, [e] + es) == Collect(job, Request(job, labels, e), es)
  {
    assert ([e] + es)[1..] == es;
  }

  lemma RenderCons(job: Job, labels: LabelTable, e: Event, es: seq<Event>)
    ensures Render(job, labels, [e] + es) == RenderEvent(job, labels, e) + Render(job, labels, es)
  {
    assert ([e] + es)[1..] == es;
  }

  lemma AppendAssoc(a: string, b: string, c: string)
    ensures (a + b) + c == a + (b + c)
  {
  }

  /** The pass 1 table scan applies exactly the requests of the table's events. */
  lemma {:induction false} ScanLabelsReplays(job: Job, c: Cursor, labels: LabelTable, first: bool)
    ensures ScanLabels(job, c, labels, first).0 == Collect(job, labels, TableEvents(job, c, first).0)
    decreases |job.section.data| - c.offset, if first then 1 else 0
  {
    if TableEntryAt(job, c.offset) {
      if first {
        var anchored := Request(job, labels, TableStart(c.address));
        assert ScanLabels(job, c, labels, true) == ScanLabels(job, c, anchored, false);
        ScanLabelsReplays(job, c, anchored, false);
        CollectCons(job, labels, TableStart(c.address), TableEvents(job, c, false).0);
      } else {
        var w := WordAt(job, c.offset).value;
        var next := Advance(c, WordSize);
        ScanLabelsReplays(job, next, AddLabel(labels, w), false);
        CollectCons(job, labels, TableSlot(c, w), TableEvents(job, next, false).0);
      }
    }
  }

  /** The pass 2 table scan appends exactly the rendering of the table's events. */
  lemma {:induction false} ScanTextReplays(job: Job, labels: LabelTable, c: Cursor, out: string, first: bool)
    ensures ScanText(job, labels, c, out, first).0 == out + Render(job, labels, TableEvents(job, c, first).0)
    decreases |job.section.data| - c.offset, if first then 1 else 0
  {
    if TableEntryAt(job, c.offset) {
      if first {
        var anchored := out + LabelLine(labels, c.address);
        assert ScanText(job, labels, c, out, true) == ScanText(job, labels, c, anchored, false);
        var rest := TableEvents(job, c, false).0;
        ScanTextReplays(job, labels, c, anchored, false);
        RenderCons(job, labels, TableStart(c.address), rest);
        AppendAssoc(out, LabelLine(labels, c.address), Render(job, labels, rest));
      } else {
        var w := WordAt(job, c.offset).value;
        var next := Advance(c, WordSize);
        var rest := TableEvents(job, next, false).0;
        assert TableEvents(job, c, false).0 == [TableSlot(c, w)] + rest;
        assert ScanText(job, labels, c, out, false) == ScanText(job, labels, next, out + SlotLine(labels, w), false);
        ScanTextReplays(job, labels, next, out + SlotLine(labels, w), false);
        RenderCons(job, labels, TableSlot(c, w), rest);
        AppendAssoc(out, SlotLine(labels, w), Render(job, labels, rest));
      }
    }
  }

  /** Pass 1's first step from c, when an instruction decodes there within the range. */
  lemma Pass1Unfolds(job: Job, c: Cursor, labels: LabelTable, insn: Insn)
    requires job.decode(c.offset) == Some(insn) && c.offset <= EndOffset(job)
    ensures var next := Advance(c, insn.length);
      var branched := LabelBranch(job, insn, labels);
      var scanned := ScanLabels(job, next, branched, true);
      Pass1(job, c, labels)
        == if StartsTableScan(insn) then Pass1(job, scanned.1, scanned.0) else Pass1(job, next, branched)
  {
  }

  /** One pass 1 step over an instruction that is not followed by a table scan. */
  lemma Pass1PlainStep(job: Job, c: Cursor, labels: LabelTable, insn: Insn)
    requires job.decode(c.offset) == Some(insn) && c.offset <= EndOffset(job) && !StartsTableScan(insn)
    requires var next := Advance(c, insn.length);
      var branched := LabelBranch(job, insn, labels);
      Pass1(job, next, branched) == Collect(job, branched, Walk(job, next))
    ensures Pass1(job, c, labels) == Collect(job, labels, Walk(job, c))
  {
    Pass1Unfolds(job, c, labels, insn);
    WalkUnfolds(job, c, insn);
    CollectCons(job, labels, Instruction(c, insn), Walk(job, Advance(c, insn.length)));
  }

  /** One pass 1 step over a `nop` or `jmp` and the jump table after it. */
  lemma Pass1TableStep(job: Job, c: Cursor, labels: LabelTable, insn: Insn)
    requires job.decode(c.offset) == Some(insn) && c.offset <= EndOffset(job) && StartsTableScan(insn)
    requires var next := Advance(c, insn.length);
      var scanned := ScanLabels(job, next, LabelBranch(job, insn, labels), true);
      Pass1(job, scanned.1, scanned.0) == Collect(job, scanned.0, Walk(job, scanned.1))
    ensures Pass1(job, c, labels) == Collect(job, labels, Walk(job, c))
  {
    var branched := LabelBranch(job, insn, labels);
    var next := Advance(c, insn.length);
    var table := TableEvents(job, next, true);
    Pass1Unfolds(job, c, labels, insn);
    WalkUnfolds(job, c, insn);
    ScanLabelsReplays(job, next, branched, true);
    CollectCons(job, labels, Instruction(c, insn), table.0 + Walk(job, table.1));
    CollectAppend(job, branched, table.0, Walk(job, table.1));
  }

  /** Pass 1 is the label requests of the walk, applied in order. */
  lemma {:induction false} Pass1Replays(job: Job, c: Cursor, labels: LabelTable)
    ensures Pass1(job, c, labels) == Collect(job, labels, Walk(job, c))
    decreases Remaining(job, c)
  {
    match job.decode(c.offset)
    case None =>
    case Some(insn) =>
      if c.offset <= EndOffset(job) {
        var branched := LabelBranch(job, insn, labels);
        var next := Advance(c, insn.length);
        if StartsTableScan(insn) {
          var scanned := ScanLabels(job, next, branched, true);
          Pass1Replays(job, scanned.1, scanned.0);
          Pass1TableStep(job, c, labels, insn);
        } else {
          Pass1Replays(job, next, branched);
          Pass1PlainStep(job, c, labels, insn);
        }
      }
  }

  /** Pass 2's first step from c, when an instruction decodes there within the range. */
  lemma Pass2Unfolds(job: Job, labels: LabelTable, c: Cursor, out: string, insn: Insn)
    requires job.decode(c.offset) == Some(insn) && c.offset <= EndOffset(job)
    ensures var next := Advance(c, insn.length);
      var line := out + InstructionLines(labels, c.address, FormatPieces(HookContextFor(job, labels), insn.pieces));
      var scanned := ScanText(job, labels, next, line, true);
      Pass2(job, labels, c, out)
        == if StartsTableScan(insn) then Pass2(job, labels, scanned.1, scanned.0) else Pass2(job, labels, next, line)
  {
  }

  /** The walk's first step from c, when an instruction decodes there within the range. */
  lemma WalkUnfolds(job: Job, c: Cursor, insn: Insn)
    requires job.decode(c.offset) == Some(insn) && c.offset <= EndOffset(job)
    ensures var next := Advance(c, insn.length);
      var table := TableEvents(job, next, true);
      Walk(job, c)
        == if StartsTableScan(insn) then [Instruction(c, insn)] + (table.0 + Walk(job, table.1))
           else [Instruction(c, insn)] + Walk(job, next)
  {
  }

  /** One pass 2 step over an instruction that is not followed by a table scan. */
  lemma Pass2PlainStep(job: Job, labels: LabelTable, c: Cursor, out: string, insn: Insn)
    requires job.decode(c.offset) == Some(insn) && c.offset <= EndOffset(job) && !StartsTableScan(insn)
    requires var next := Advance(c, insn.length);
      var line := out + InstructionLines(labels, c.address, FormatPieces(HookContextFor(job, labels), insn.pieces));
      Pass2(job, labels, next, line) == line + Render(job, labels, Walk(job, next))
    ensures Pass2(job, labels, c, out) == out + Render(job, labels, Walk(job, c))
  {
    var ctx := HookContextFor(job, labels);
    var lines := InstructionLines(labels, c.address, FormatPieces(ctx, insn.pieces));
    var next := Advance(c, insn.length);
    Pass2Unfolds(job, labels, c, out, insn);
    WalkUnfolds(job, c, insn);
    RenderCons(job, labels, Instruction(c, insn), Walk(job, next));
    AppendAssoc(out, lines, Render(job, labels, Walk(job, next)));
  }

  /** One pass 2 step over a `nop` or `jmp` and the jump table after it. */
  lemma Pass2TableStep(job: Job, labels: LabelTable, c: Cursor, out: string, insn: Insn)
    requires job.decode(c.offset) == Some(insn) && c.offset <= EndOffset(job) && StartsTableScan(insn)
    requires var next := Advance(c, insn.length);
      var line := out + InstructionLines(labels, c.address, FormatPieces(HookContextFor(job, labels), insn.pieces));
      var scanned := ScanText(job, labels, next, line, true);
      Pass2(job, labels, scanned.1, scanned.0) == scanned.0 + Render(job, labels, Walk(job, scanned.1))
    ensures Pass2(job, labels, c, out) == out + Render(job, labels, Walk(job, c))
  {
    var ctx := HookContextFor(job, labels);
    var lines := InstructionLines(labels, c.address, FormatPieces(ctx, insn.pieces));
    var line := out + lines;
    var next := Advance(c, insn.length);
    var table := TableEvents(job, next, true);
    var scanned := ScanText(job, labels, next, line, true);
    Pass2Unfolds(job, labels, c, out, insn);
    WalkUnfolds(job, c, insn);
    ScanTextReplays(job, labels, next, line, true);
    RenderCons(job, labels, Instruction(c, insn), table.0 + Walk(job, table.1));
    RenderAppend(job, labels, table.0, Walk(job, table.1));
    var rt, rw := Render(job, labels, table.0), Render(job, labels, Walk(job, table.1));
    AppendAssoc(line, rt, rw);
    AppendAssoc(out, lines, rt + rw);
  }

  /** Pass 2 appends the rendering of the same walk, so it retraces pass 1 exactly. */
  lemma {:induction false} Pass2Replays(job: Job, labels: LabelTable, c: Cursor, out: string)
    ensures Pass2(job, labels, c, out) == out + Render(job, labels, Walk(job, c))
    decreases Remaining(job, c)
  {
    var ctx := HookContextFor(job, labels);
    CustomDecodesLikeNoFormat(Mode, Some(c.offset), true, job.decode, ctx);
    match job.decode(c.offset)
    case None =>
    case Some(insn) =>
      if c.offset <= EndOffset(job) {
        var line := out + InstructionLines(labels, c.address, FormatPieces(ctx, insn.pieces));
        var next := Advance(c, insn.length);
        if StartsTableScan(insn) {
          var scanned := ScanText(job, labels, next, line, true);
          Pass2Replays(job, labels, scanned.1, scanned.0);
          Pass2TableStep(job, labels, c, out, insn);
        } else {
          Pass2Replays(job, labels, next, line);
          Pass2PlainStep(job, labels, c, out, insn);
        }
      }
  }

  /**
   * A pass meets no instruction at c exactly when the decoder fails there or the
   * offset is past the end offset: the end of the range is inclusive.
   */
  lemma WalkStops(job: Job, c: Cursor)
    ensures Walk(job, c) == [] <==> job.decode(c.offset).None? || c.offset > EndOffset(job)
    ensures Walk(job, c) != [] ==> Walk(job, c)[0] == Instruction(c, job.decode(c.offset).value)
  {
  }

  /**
   * Pass 1 adds exactly the addresses the walk requests: the in-range branch
   * targets, the in-range table anchors and the table words.
   */
  lemma Pass1Keys(job: Job, c: Cursor, labels: LabelTable)
    ensures Pass1(job, c, labels).Keys == labels.Keys + RequestedSet(job, Walk(job, c))
  {
    Pass1Replays(job, c, labels);
  }

  /** After collecting es, every address es asks for is labelled. */
  lemma {:induction false} CollectCovers(job: Job, labels: LabelTable, es: seq<Event>)
    ensures AllRequestedIn(job, es, Collect(job, labels, es))
    decreases |es|
  {
    if |es| > 0 {
      var first := Request(job, labels, es[0]);
      CollectCovers(job, first, es[1..]);
      var r := Collect(job, labels, es);
      forall i | 0 <= i < |es| && Requested(job, es[i]).Some?
        ensures Requested(job, es[i]).value in r
      {
        if i > 0 {
          assert es[1..][i - 1] == es[i];
        }
      }
    }
  }

  /** Collecting requests that are all already labelled changes nothing. */
  lemma {:induction false} CollectStable(job: Job, labels: LabelTable, es: seq<Event>)
    requires AllRequestedIn(job, es, labels)
    ensures Collect(job, labels, es) == labels
    decreases |es|
  {
    if |es| > 0 {
      assert Request(job, labels, es[0]) == labels;
      assert AllRequestedIn(job, es[1..], labels) by {
        forall i | 0 <= i < |es[1..]| && Requested(job, es[1..][i]).Some?
          ensures Requested(job, es[1..][i]).value in labels
        {
          assert es[1..][i] == es[i + 1];
        }
      }
      CollectStable(job, labels, es[1..]);
    }
  }

  /** Running pass 1 again over its own result adds nothing: label discovery is idempotent. */
  lemma Pass1Idempotent(job: Job, c: Cursor, labels: LabelTable)
    ensures Pass1(job, c, Pass1(job, c, labels)) == Pass1(job, c, labels)
  {
    var es := Walk(job, c);
    var once := Pass1(job, c, labels);
    Pass1Replays(job, c, labels);
    Pass1Replays(job, c, once);
    CollectCovers(job, labels, es);
    CollectStable(job, once, es);
  }

  /**
   * Disassembling the same function object twice keeps its label table and appends
   * to its text exactly what the first run appended: the emission is reproducible.
   */
  lemma RerunAppendsSameText(job: Job, s: FunctionState)
    ensures Disassemble(job, Disassemble(job, s)).labels == Disassemble(job, s).labels
    ensures var once := Disassemble(job, s);
      |s.text| <= |once.text| && Disassemble(job, once).text == once.text + once.text[|s.text|..]
  {
    var once := Disassemble(job, s);
    if |job.section.data| > 0 {
      var c := StartCursor(job);
      Pass1Idempotent(job, c, s.labels);
      Pass2Replays(job, once.labels, c, s.text);
      Pass2Replays(job, once.labels, c, once.text);
      assert once.text[|s.text|..] == Render(job, once.labels, Walk(job, c));
    } else {
      assert once.text[|s.text|..] == "";
    }
  }
}
