# unassemblize `Function::disassemble`, modelled in Dafny

unassemblize turns one function of a 32-bit x86 executable into assembler text.
`Function::disassemble` (function.cpp) does this in two passes over the
function's inclusive address range `[start, end]` inside one section:

- **Pass 1, label discovery.** Every in-range relative branch target gets a
  `label_<hex>` entry in the function's label table. After every `nop` or `jmp`,
  a naive inline jump-table scan reads consecutive little-endian 32-bit words.
  While a word is an address of the function, the scan labels the table's own
  address (first word only) and the word's target.
- **Pass 2, emission.** The same range is walked again and the text is appended
  in order:
  - a `name:` line before every labelled instruction;
  - the instruction's formatted text, indented by four spaces;
  - for a jump table, the anchor's label line and one `.int name` line per
    labelled slot.

  Five formatter hooks rewrite address operands, first match winning:
  1. a local label;
  2. a symbol of the current section, else `sub_<hex>`;
  3. a symbol of the image, else `off_<hex>` (`unk_<hex>` for far pointers);
  4. the formatter's default text.

  The displacement hook prefixes every symbolic result with `+`.

The model is purely functional.

- **External decoder.** It is an oracle from a section offset to an
  instruction: positive length, mnemonic, optional absolute relative-branch
  target, and the formatted text as literal pieces and address operands.
- **Symbol lookup.** It is an oracle from an address to an optional
  `(name, value)`.
- **Section bytes.** They are a `seq` of bytes.

Modules, one per component:

| module | file | contents |
|---|---|---|
| `Wrappers` | wrappers.dfy | `Option`, `Result` |
| `Hex` | hex.dfy | `std::hex`/`%x` rendering and its parse-back |
| `Le32` | le32.dfy | `get_le32` |
| `Labels` | labels.dfy | the label table |
| `Resolver` | resolver.dfy | the five hooks |
| `Decode` | decode.dfy | the argument and mode checks, formatting through the hooks |
| `Disassembly` | disassembly.dfy | both passes and the table scans |
| `Traversal` | traversal.dfy | a reference event walk that follows the same recursion as the passes; both passes are proved to replay it |
| `Scenarios` | scenarios.dfy | a worked run of a branch over an `add` |
| `TableScenario` | table_scenario.dfy | a worked run of a switch-style jump table |

## Model

| member | source | states |
|---|---|---|
| Le32.GetLe32 | function.cpp:9-12 | the little-endian word read at an offset is always below 2^32 |
| Le32.DecodeEncode | function.cpp:9-12 | reading back the four-byte little-endian encoding of any 32-bit word yields that word |
| Le32.EncodeDecode | function.cpp:9-12 | the word read at i determines the four bytes data[i..i+4]: data[i] is the least significant byte, data[i+3] the most significant |
| Le32.GetLe32Local | function.cpp:9-12 | the word read at i depends on data[i..i+4] and on no other byte |
| Hex.ToHex | function.cpp:380-382 | the `std::hex` numeral of a number is non-empty, all lower-case hex digits, and has no leading zero unless the number is 0 |
| Hex.FromHexToHex | function.cpp:380-382 | reading a rendered numeral back yields the number rendered |
| Hex.ToHexInjective | function.cpp:380-382 | distinct numbers render to distinct numerals |
| Hex.Prefixed | function.cpp:81 | a synthesized name starts with its prefix and continues with hex digits only |
| Hex.PrefixedRoundTrip | function.cpp:81 | a prefixed name such as `sub_<hex>` parses back to its address |
| Hex.PrefixedInjective | function.cpp:81 | two addresses never get the same prefixed name |
| Labels.LabelNameRoundTrip | function.cpp:380-382 | a `label_<hex>` name parses back to the address it labels |
| Labels.LabelNameInjective | function.cpp:380-382 | two addresses never share a label name |
| Labels.AddLabel | function.cpp:379-383 | label creation adds exactly the requested key; an existing name is never overwritten; a new entry is named `label_<hex>`; a table whose every entry is named after its own key stays so |
| Labels.AddLabelIdempotent | function.cpp:408-412 | requesting the same label twice is the same as requesting it once |
| Resolver.NamedSymbol | function.cpp:75-77 | the looked-up symbol is used exactly when the lookup returns one with a non-empty name, and then it is passed through unchanged; an empty name counts as no symbol |
| Resolver.ResolvePlain | function.cpp:64-96 | resolution order, first match wins: a label; then an in-section address, named by its exact symbol or parsing back from `sub_<hex>`; then an in-image address, named by its exact symbol or parsing back from the data prefix; otherwise the default text |
| Resolver.PrintAddressAbsolute | function.cpp:57-97 | the absolute-address hook follows that order with the `off_` data prefix |
| Resolver.PrintAddressRelative | function.cpp:101-140 | the relative-address hook follows the same order with `off_`, applied to the absolute target |
| Resolver.PrintImmediate | function.cpp:144-183 | the immediate hook follows the same order with `off_`, treating the immediate as an address |
| Resolver.FormatOperandPointer | function.cpp:239-278 | the far-pointer hook follows the same order with the `unk_` data prefix |
| Resolver.PointerDiffersOnlyInDataPrefix | function.cpp:263-274 | the far-pointer and absolute hooks agree on every address except image data without an exact symbol, where they print `unk_<hex>` and `off_<hex>` of the same address |
| Resolver.LabelBeatsSymbol | function.cpp:192-197 | a labelled address prints as its label in every hook, with a `+` in the displacement hook, even when a symbol sits exactly there |
| Resolver.PrintDisplacement | function.cpp:187-235 | the displacement hook: `+label` for a labelled address; the default text for an unresolved one; otherwise a `+`-led text that is `+name` for an exact symbol, `+name+0x<diff>` (parsing back to the distance) for a symbol off the address, or `+sub_<hex>`/`+off_<hex>` (parsing back to the address) without a symbol |
| Resolver.DisplacementTextParses | function.cpp:205-231 | the synthesized displacement texts parse back to the address or to the distance from the symbol |
| Resolver.DisplacementIsSignedAbsolute | function.cpp:192-231 | unless a symbol lies off the address, a resolved displacement prints as `+` followed by what the absolute hook prints |
| Resolver.DisplacementOffsetLaw | function.cpp:222-228 | for a symbol below the address, the text is `+name+0x` followed by the hex of `address - symbol.value` |
| Resolver.PrintDisplacementAsWritten | function.cpp:198-214 | the section branch of the displacement hook as written: a symbol off the address prints as `+name+0x` with no distance; with no symbol or an exact one (lines 205-207, 214), and outside the section, it agrees with the corrected hook |
| Resolver.AsWrittenLosesDistance | function.cpp:209-210 | as written, displacements 0x401005 and 0x401009 from symbol `foo` at 0x401000 print identically; the corrected hook prints them differently |
| Decode.StackWidth | function.cpp:25-42 | the 64-bit mode gives stack width 64, the two 32-bit modes 32, the three 16-bit modes 16, and any other mode is an invalid argument (each direction) |
| Decode.DisassembleNoFormat | function.cpp:15-53 | a null buffer or output record is an invalid argument before anything else; the result is an invalid argument exactly for null arguments or an unknown mode; it succeeds exactly when the arguments and mode are valid and the decoder succeeds, returning the decoded instruction |
| Decode.DisassembleCustom | function.cpp:280-349 | the same null-argument check; on success the text is the instruction's pieces formatted through the hooks |
| Decode.CustomDecodesLikeNoFormat | function.cpp:283-315 | the formatting and the plain entry points fail alike, with the same status, and decode the same instruction |
| Decode.FormatFallsBackToDefault | function.cpp:339-346 | when no operand address resolves, the hooked text equals the default formatter's text |
| Disassembly.ScanEnd | function.cpp:389-417 | a jump-table scan advances offset and address alike, in whole words; every word it steps over is an address of the function; it stops at the first word that is not, or where fewer than four bytes remain |
| Disassembly.LabelBranch | function.cpp:376-384 | a relative branch target inside the function becomes a key, named `label_<hex>` when new; existing names are kept; nothing but that target is ever added |
| Disassembly.ScanLabels | function.cpp:389-418 | the pass 1 scan stops where ScanEnd says, never overwrites a label, and adds only labels inside the function |
| Disassembly.Pass1 | function.cpp:360-419 | label discovery never overwrites a label, adds only addresses inside `[start, end]`, and keeps every entry named `label_<its hex>` |
| Disassembly.ScanLabelsMarksSlots | function.cpp:408-416 | the pass 1 scan labels the target of every word it steps over |
| Disassembly.ScanLabelsMarksAnchor | function.cpp:397-403 | on the first word of a table, the pass 1 scan labels the table's own address when that is inside the function |
| Disassembly.ScanText | function.cpp:443-470 | the pass 2 scan steps over exactly the words the pass 1 scan steps over, and only appends to the text |
| Disassembly.Pass2 | function.cpp:421-471 | emission only appends: the text before pass 2 is a prefix of its result; Traversal.Pass2Replays states what it appends |
| Disassembly.Disassemble | function.cpp:352-472 | a zero-size section leaves the function untouched; otherwise the labels only grow, every new label lies inside the function, and the table stays well-formed |
| Traversal.TableEvents | function.cpp:395-417 | the reference table walk ends where ScanEnd says, holds no instruction, and each of its slots is an address of the function |
| Traversal.TableEventsSlots | function.cpp:395-417 | a table walk holds one slot per word stepped over, the i-th at offset and address advanced by 4i, each holding the word read there, which is an address of the function |
| Traversal.TableEventsAnchor | function.cpp:397-406 | a scan that starts a table puts the anchor event before the slots, and a scan whose first word is not an address of the function has no events |
| Traversal.Collect | function.cpp:379-412 | applying label requests in order never overwrites a label, and the keys grow by exactly the requested addresses |
| Traversal.Pass1Keys | function.cpp:376-416 | pass 1 adds exactly the walk's requests: in-range branch targets, in-range table anchors and table words, nothing else |
| Traversal.WalkEventsValid | function.cpp:368-373 | the reference walk decodes only at offsets up to the inclusive end offset, and only where the decoder succeeds |
| Traversal.WalkStops | function.cpp:368-373 | a walk meets no instruction exactly when the decoder fails at the cursor or the offset is past the end offset; otherwise it starts with the instruction there |
| Traversal.ScanLabelsReplays | function.cpp:395-417 | the pass 1 scan equals the label requests of the reference table walk |
| Traversal.ScanTextReplays | function.cpp:449-469 | the pass 2 scan appends the rendering of the reference table walk |
| Traversal.Pass1Replays | function.cpp:368-419 | pass 1 equals the label requests of the reference walk applied in order |
| Traversal.Pass2Replays | function.cpp:425-471 | pass 2 appends the rendering of that same walk, so it visits the same cursors as pass 1 |
| Traversal.CollectCovers | function.cpp:379-412 | after pass 1, every address the walk asks to label is labelled |
| Traversal.CollectStable | function.cpp:379-412 | requests that are all already labelled change nothing |
| Traversal.Pass1Idempotent | function.cpp:368-419 | running pass 1 over its own result adds nothing |
| Traversal.RerunAppendsSameText | function.cpp:352-472 | disassembling the same function object twice keeps its labels and appends the same text again |
| Scenarios.BranchPass1 | function.cpp:376-383 | on the branch example, pass 1 labels only the jump's in-range target, 0x1008 |
| Scenarios.BranchPass2 | function.cpp:432-441 | on the branch example, pass 2 writes the three instructions, with `label_1008:` before the `ret`; the `add`'s immediate 0x10 resolves to nothing and keeps its default text |
| Scenarios.BranchScenario | function.cpp:352-472 | the complete run of the branch example: its label table and its text |
| TableScenario.TableScanLabels | function.cpp:395-417 | on the switch example, the pass 1 scan labels the table address 0x1007 and both slot targets, then stops at the word 0xffffc3c3 |
| TableScenario.TableScanText | function.cpp:449-469 | on the switch example, the pass 2 scan writes `label_1007:` and two `.int` lines |
| TableScenario.TableScenarioRun | function.cpp:352-472 | the complete run of the switch example: three labels, and text whose jump operand prints as `+label_1007` |

## Left out

- The decoder's internals are not modelled: `ZydisDecoderInit`, instruction and operand decoding, `ZydisCalcAbsoluteAddress`, and the formatter's buffer and token calls. The decoder is an oracle keyed by section offset. An instruction's relative target is given already made absolute.
- The formatter's default renderers are not modelled: each address operand carries the text they would print.
- A failure inside a hook or the formatter is not modelled. It would make `UnasmDisassembleCustom` fail and end pass 2 early; in the model, formatting succeeds whenever decoding does.
- Hook registration through process-wide globals (function.cpp:322-337) is left out. The current function is an explicit `HookContext` parameter.
- The static `in_jump_table` (function.cpp:358, 365, 423) is left out. It is shadowed by the locals at 392 and 446 and has no effect.
- The 96-byte decode window is left out. The decoder oracle sees the whole section.
- Reads past the section's end are not modelled. `get_le32` reads without a bounds check (function.cpp:391, 416, 445, 468); the model stops a jump-table scan where fewer than four bytes remain.
- Runtime-address wrap-around past 2^64 is not modelled. The unsigned offset `start - section_address` does wrap modulo 2^64, as in the source.
- Resolver.PrintDisplacementAsWritten: takes the malformed format at function.cpp:210 as printing `+name+0x` and stopping. With a C library whose formatter rejects the trailing `%`, the hook would instead fail and end pass 2 at that instruction; that outcome is not modelled, because hook failures are not (see above).
- Disassembly.Pass2: formats displacements through the corrected hook `Resolver.PrintDisplacement`, not through the line-210 format as written, so for a section address whose symbol lies below it the modelled text carries the distance (`+foo+0x5`) where the program prints `+foo+0x` or fails. The as-written hook is modelled separately, with the discrepancy under "## Findings".
- `%x` applied to a 64-bit address is not modelled (printf reads only 32 bits on the usual ABIs). The model prints the full address in hex.
- The shift-and-or form of `get_le32` is written as the equivalent arithmetic sum: the four shifted bytes occupy disjoint bits.
- function.h and executabletypes.h are not part of this model. They declare data shapes and a newer API that function.cpp does not use.

## Findings

| source | as written | input that shows it | evidently intended | confidence | as-written member | corrected member |
|---|---|---|---|---|---|---|
| function.cpp:210 | the section branch of the displacement hook formats `"+%s+0x%"`; no conversion consumes the distance, so it is never printed. A lone trailing `%` is undefined in the printf family: depending on the C library, the text stops at `+name+0x`, or the format call fails, failing the hook, the instruction's formatting and so pass 2 at that instruction. The model takes the first reading | symbol `foo` at 0x401000 in section 0x401000-0x401fff: displacements 0x401005 and 0x401009 both lose their distance (in the model, both print `+foo+0x`) | `"+%s+0x%" PRIx64`, as in the image branch at function.cpp:227, printing `+foo+0x5` and `+foo+0x9` | not executed | Resolver.PrintDisplacementAsWritten, Resolver.AsWrittenLosesDistance | Resolver.PrintDisplacement |
