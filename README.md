# qubitverse text protocol and editor rules, in Dafny

This project models the text protocol between the qubitverse circuit editor and its
simulator, plus the editor's small state rules, and proves properties of that model.

- **Wire encoder** (`SendToBackEnd`). The editor's gate lists are mapped to wire records, concatenated and stably sorted by position (`extractCircuitData`). They are then serialised as `<mode>n:<N>` followed by one `key:value` line per field and an `@` line per record (`quantum_encode`). The older extractor (`CircuitDataExtractor`) also builds a per-qubit gate list and a per-qubit execution order.
- **Simulator front end** (`Tokens`, `Lexer`, `Ast`, `Parser`). The character scanner builds SEP, COLON and IDEN tokens. The token parser reads gate records at fixed offsets from their `type` token and builds one syntax-tree node per record.
- **Protocol composition** (`WireProtocol`). Encoding, then scanning, then parsing gives back exactly one node per gate, provided the mode digit is dropped first. The request as the encoder sends it is refused.
- **Reply decoder** (`ParseResultData`). This is the cursor-driven scan of the simulator's reply into a chain of state vertices and a probability table. After a `measure` line comes the collapse: one-hot probabilities, a "Measured State" vertex and a longer measurement history.
- **Editor rules** (`QuantumCircuit`): clamping, snapping a dropped gate to a qubit line, the per-line order numbers, and the drop, drag, delete and CNOT-dialog handlers as a state class.
- **Qubit-count prompt** (`NQubitInput`): validation of the typed count, as a state class.
- **Measurement histogram** (`MeasurementChart`): the frequency table of the measurement history.

Shared helpers:

- `Wrappers`: Option and Result.
- `Numbers`: decimal and binary text, round half up, and `std::stoul`.
- `Text`: JavaScript `split`, `trim` and `toUpperCase` on ASCII.
- `StableSort`: a stable insertion sort by an integer key, which stands in for `Array.prototype.sort`, stable since ES2019.

Mutable state is modelled as classes whose methods are proved against specification functions:

- the lexer's token list;
- the parser's gate list and qubit count;
- the editor's gate arrays and dialog;
- the prompt's fields.

Loops are methods with invariants, proved against the same functions. These loops are:

- the lexer's scan;
- the parser's record loop;
- the encoder's nested loops;
- the decoder's cursor loop, its block loops and its edge loop;
- the extractor's dictionary loops;
- the order-number loops;
- the histogram's `forEach`.

Three behaviours of the code are stated as they are written:

- A reply with a `measure` line but no `prob` block fails. An example is the six lines `+`, `0=(1,0)`, `1=(0,0)`, `measure`, `0` and an empty last line. The collapse then writes `prob[measured].value` of an empty table (ParseResultData.jsx:86), which throws. `ParseResultData.MeasureWithoutProbFails` states this.
- The comment at parser.cc:15 says the request starts with `n` at token 0 and `:` at token 1. The encoder, however, puts the mode digit in front of `n:` (SendToBackEnd.jsx:72). The scanner splits `0n` into `0` and `n`, and the parser skips `n :` only at token 0, so the raw request is refused. This is `WireProtocol.RawRequestRejected`. The round trip (`WireProtocol.RoundTrip`) is therefore stated for the request with its first character dropped. The entry point that reads the mode digit is not part of this model.
- The parser checks for an `@` after every record, including the last, and it does so without a bound check. So a request whose last record is not followed by a token reads past the end. `Parser.LastSepRequired` states this as an explicit fault.

## Model

| member | source | states |
|---|---|---|
| Ast.Ordinal | qubitverse/simulator/parser/ast.hh:14-20 | each gate kind has its declaration-order enumerator value, below 4 |
| Ast.FourKinds | qubitverse/simulator/parser/ast.hh:14-20 | the four kinds have distinct values, and the values are exactly 0..3 |
| Ast.GetGateType | qubitverse/simulator/parser/ast.hh:26-75 | single, cnot, cz and swap nodes report SINGLE_GATE, CNOT_GATE, CZ_GATE and SWAP_GATE (each an iff); the measurement node reports no kind |
| Lexer.Run | qubitverse/simulator/lexer/lexer.cc:41-60 | the text of a run token is no longer than the rest of the input |
| Lexer.RunIsMaximal | qubitverse/simulator/lexer/lexer.cc:44-58 | a run is a prefix of the input, all in one class, and the next character is not in that class |
| Lexer.LexWellFormed | qubitverse/simulator/lexer/lexer.cc:18-65 | every token is SEP "@", COLON ":" or a non-empty IDEN run of letters only or of number characters only |
| Lexer.LexOkIff | qubitverse/simulator/lexer/lexer.cc:18-67 | the scan succeeds if and only if every character is `@`, `:`, a blank, a letter, a digit, `-` or `.` |
| Lexer.LexKeepsText | qubitverse/simulator/lexer/lexer.cc:18-67 | on success the tokens, joined, are the input with blanks removed, and no token is empty |
| Lexer.LexKeepsTextRun | qubitverse/simulator/lexer/lexer.cc:40-60 | the same, for an input that starts with a run |
| Lexer.NonBlankConcat | qubitverse/simulator/lexer/lexer.cc:33-38 | removing blanks distributes over concatenation |
| Lexer.NonBlankRun | qubitverse/simulator/lexer/lexer.cc:41-60 | a run holds no blank |
| Lexer.RunStops | qubitverse/simulator/lexer/lexer.cc:44-58 | a run does not continue past a character outside its class |
| Lexer.LexConcat | qubitverse/simulator/lexer/lexer.cc:18-65 | scanning a + b, where b starts with a delimiter, gives a's tokens then b's (a's failure if a fails) |
| Lexer.LexConcatRun | qubitverse/simulator/lexer/lexer.cc:40-60 | the same, for an a that starts with a run |
| Lexer.LexUnfoldRun | qubitverse/simulator/lexer/lexer.cc:40-60 | a text starting with a run scans to that run's IDEN token, then the rest's tokens |
| Lexer.LexRun | qubitverse/simulator/lexer/lexer.cc:40-60 | a one-class word followed by a delimiter is one IDEN token |
| Lexer.LexSymbol | qubitverse/simulator/lexer/lexer.cc:23-31 | `@` gives SEP "@" and `:` gives COLON ":" |
| Lexer.LexBlank | qubitverse/simulator/lexer/lexer.cc:33-38 | space, tab, CR and LF give no token |
| Lexer.LexSingleRun | qubitverse/simulator/lexer/lexer.cc:40-60 | a one-class word alone is exactly one IDEN token and the scan succeeds |
| Lexer.LexChain | qubitverse/simulator/lexer/lexer.cc:18-65 | two pieces that each scan to their tokens scan, in sequence, to both token lists in order |
| Lexer.Lexer.constructor | qubitverse/simulator/lexer/lexer.hh:22 | a new scanner holds no tokens |
| Lexer.Lexer.Perform | qubitverse/simulator/lexer/lexer.cc:16-68 | the result is the scan's verdict, and the token list gains exactly the scan's tokens (on failure, those read before the bad character) |
| Lexer.Lexer.Step | qubitverse/simulator/lexer/lexer.cc:20-64 | one pass accepts exactly the allowed characters, advances past one token or blank, and keeps the invariant "tokens so far + tokens of the rest" |
| Lexer.LexAt | qubitverse/simulator/lexer/lexer.cc:21-38 | the scan at a delimiter, a blank or a refused character, in terms of the rest of the input |
| Lexer.LexAtRun | qubitverse/simulator/lexer/lexer.cc:40-60 | the scan at the start of a run, in terms of the rest of the input |
| Lexer.ReadRun | qubitverse/simulator/lexer/lexer.cc:43-48 | the inner loop collects exactly the maximal run at i and stops right after it |
| Lexer.RunIs | qubitverse/simulator/lexer/lexer.cc:44-48 | a prefix of one class that is followed by a character outside it is the run |
| Lexer.Lex | qubitverse/simulator/lexer/lexer.cc:18-67 | `lexer::perform` as a value: `@` and `:` give SEP and COLON tokens, blanks are dropped, a letter or number character starts a maximal run that becomes one IDEN token, and any other character ends the scan as failed, keeping the tokens read before it |
| Parser.Text | qubitverse/simulator/parser/parser.cc:32 | a token's text is read if and only if the index is in range |
| Parser.Size | qubitverse/simulator/parser/parser.cc:34 | `std::stoul(toks[k])` succeeds if and only if the index is in range and stoul accepts the text, and then gives stoul's value |
| Parser.Theta | qubitverse/simulator/parser/parser.cc:36 | `std::stod(toks[k])` succeeds if and only if the index is in range, stod accepts the text and its value is in a double's range; it throws invalid_argument exactly when the text is not accepted and out_of_range exactly when it is accepted but overflows or underflows; the text is kept |
| Parser.Record | qubitverse/simulator/parser/parser.cc:21-102 | one record read at the source's fixed offsets gives its node and ends at least 9 tokens on |
| Parser.ParseHeader | qubitverse/simulator/parser/parser.cc:13-16 | the count is read at index 2 when token 0 is "n", else at 0, if and only if stoul accepts it; a count above 2^60 - 1 faults with length_error and no nodes, and otherwise the records start right after it |
| Parser.ParseRejects | qubitverse/simulator/parser/parser.cc:21-105 | a record not starting with "type", or with a kind other than the five, makes `perform` return false with no node |
| Parser.RecordReadsValuesOnly | qubitverse/simulator/parser/parser.cc:24-100 | only `type`, the kind and the value tokens at the kind's offsets are looked at; keys, colons and the position value may be anything |
| Parser.RecordPrefix | qubitverse/simulator/parser/parser.cc:24-100 | a record is read from its own tokens alone |
| Parser.SepOptional | qubitverse/simulator/parser/parser.cc:40-41 | removing the `@` between two records changes neither the nodes nor the result |
| Parser.RecordsUnfold | qubitverse/simulator/parser/parser.cc:19-106 | the records are the first record's node, then the records after it and its optional `@` |
| Parser.LastSepRequired | qubitverse/simulator/parser/parser.cc:39-41 | a last record with no token after it pushes its node, then reads past the end |
| Parser.Parser.constructor | qubitverse/simulator/parser/parser.hh:24 | a new parser has no nodes and no count |
| Parser.Parser.Perform | qubitverse/simulator/parser/parser.cc:11-109 | the result (length_error once a count above 2^60 - 1 is stored), the count, the gate list (old list + one node per record, in order) and the token vector (cleared exactly on success) all follow the specification function |
| Parser.Parser.ParseRecords | qubitverse/simulator/parser/parser.cc:19-106 | the record loop appends exactly the nodes the records from the cursor parse to, in order, leaves the count alone and returns their verdict |
| Parser.Parser.Step | qubitverse/simulator/parser/parser.cc:21-105 | one loop pass pushes the record's node, skips a following SEP and keeps the loop invariant, or ends the call with the specification's result |
| Parser.RecordsStep | qubitverse/simulator/parser/parser.cc:39-41 | the records from i are the record at i, then the records from the cursor after it |
| Parser.ReadSize | qubitverse/simulator/parser/parser.cc:34 | reading a count gives the specification's Size |
| Parser.ReadRecord | qubitverse/simulator/parser/parser.cc:21-102 | the cursor's fixed steps read the same record as the specification |
| Parser.ShiftedReads | qubitverse/simulator/parser/parser.cc:19-106 | reading at offset k of the suffix from r is reading at r + k |
| Parser.Parse | qubitverse/simulator/parser/parser.cc:11-109 | `parser::perform` as a value: the count is read by stoul at token 2 after `n :` or else at token 0, and the records are read from the token after it; an empty token list or a failed count faults with no count and no nodes; a count above 2^60 - 1, more than `reserve` accepts, faults with length_error, the count kept and no nodes |
| Parser.Records | qubitverse/simulator/parser/parser.cc:19-106 | the record loop on the tokens after the count: no tokens left accepts with no further nodes, otherwise one pass (`RecordsAt`) |
| Parser.RecordsAt | qubitverse/simulator/parser/parser.cc:21-105 | one pass: a token that is not `type`, or a kind that is none of the five, rejects; a failed read faults; otherwise the node is kept, the token after the record must exist (else an index fault), and it is skipped only when it is a SEP |
| Parser.Parser.Get | qubitverse/simulator/parser/parser.cc:111-114 | `get()`: the gate list the last `perform` built |
| Parser.Parser.GetNoQubits | qubitverse/simulator/parser/parser.cc:116-119 | `get_no_qubits()`: the count the last `perform` read, None while unset |
| Parser.Unsigned | qubitverse/simulator/parser/parser.cc:36 | the text `std::stod` reads its number from: white space skipped, then one `+` or `-` dropped |
| Parser.StodAccepts | qubitverse/simulator/parser/parser.cc:36 | stod converts without invalid_argument exactly when, after white space and a sign, a digit, a `.` before a digit, or `inf` or `nan` in any case follows |
| Parser.PlainDecimal | qubitverse/simulator/parser/parser.cc:36 | the value stod reads from `[sign]digits[.digits]`, as the integer of all its digits over a power of ten; None when an exponent follows |
| Parser.StodOutOfRange | qubitverse/simulator/parser/parser.cc:36 | stod throws out_of_range: the value is at least 2^1024 - 2^970 (it rounds to infinity), or it is nonzero, below 2^-1022 - 2^-1076 and not a multiple of 2^-1074 (an inexact underflow) |
| Parser.PlainDecimalOfParts | qubitverse/simulator/parser/parser.cc:36 | stod accepts `ip.fp`, and its value is the integer of the digits of ip and fp over 10^\|fp\| |
| Parser.PlainDecimalOfDigits | qubitverse/simulator/parser/parser.cc:36 | stod accepts a digit string, and its value is that integer |
| Parser.SameUnsigned | qubitverse/simulator/parser/parser.cc:36 | two texts that agree after white space and sign are accepted alike and out of range alike |
| Parser.ThetaOverflow | qubitverse/simulator/parser/parser.cc:36 | a theta of digits worth at least 2^1024 - 2^970, such as `1` followed by 400 zeros, makes the theta read throw out_of_range |
| Parser.ThetaInRange | qubitverse/simulator/parser/parser.cc:36 | a theta of digits, with or without a leading `-`, worth less than that bound is read and kept, as the extractor's default `-1` is |
| Parser.DigitsInRange | qubitverse/simulator/parser/parser.cc:36 | a digit string worth less than 2^1024 - 2^970 is accepted by stod and not out of range |
| Parser.UnsignedOfDigits | qubitverse/simulator/parser/parser.cc:36 | stod reads the number of a digit string, with or without a leading `-`, from those digits |
| Parser.RecordsSameRest | qubitverse/simulator/parser/parser.cc:19-106 | two token lists with the same first record and the same tokens after it (its `@` skipped) give the same records |
| Parser.ParseByHeader | qubitverse/simulator/parser/parser.cc:13-19 | a failed count read faults with no count and no nodes; a successful one yields that count and, if it is at most 2^60 - 1, the records of the tokens after it, else a length_error fault with no nodes |
| Parser.CountBeyondMaxSize | qubitverse/simulator/parser/parser.cc:17 | a digit count from 2^60 up to 2^64 - 1 is stored and then faults with length_error, with no nodes, whatever follows it |
| Numbers.NatToString | qubitverse/visualizer/src/components/SendToBackEnd.jsx:72 | a number renders as non-empty decimal digits |
| Numbers.IntToString | qubitverse/visualizer/src/components/SendToBackEnd.jsx:76 | an integer renders as digits and at most a leading '-' |
| Numbers.DigitsValueOfNatToString | qubitverse/visualizer/src/components/SendToBackEnd.jsx:72 | the value of a rendered number is the number |
| Numbers.NatToStringInjective | qubitverse/visualizer/src/components/SendToBackEnd.jsx:72 | different numbers render differently |
| Numbers.BinaryValueOfNatToBinary | qubitverse/visualizer/src/components/ParseResultData.jsx:11 | the binary rendering reads back as the number |
| Numbers.RoundDiv | qubitverse/visualizer/src/components/QuantumCircuit.jsx:171 | `Math.round(n / d)` on integers: the nearest integer, with halves rounded up |
| Numbers.LeadingDigits | qubitverse/simulator/parser/parser.cc:16 | the longest digit prefix: all digits, and the next character is not a digit |
| Numbers.StoulOfNatToString | qubitverse/simulator/parser/parser.cc:16 | stoul reads a rendered count back, and a negated one back modulo 2^64 |
| Numbers.StoulIntToString | qubitverse/simulator/parser/parser.cc:34 | stoul reads a rendered integer back modulo 2^64 |
| Numbers.Stoul | qubitverse/simulator/parser/parser.cc:16 | `std::stoul` as its definition: white space skipped, an optional sign, the longest digit run; no digit throws invalid_argument, a magnitude of 2^64 or more throws out_of_range, and `-` negates modulo 2^64 |
| Numbers.StoulSkipsSpace | qubitverse/simulator/parser/parser.cc:16 | a leading white-space character does not change what stoul reads |
| Numbers.LeadingDigitsStop | qubitverse/simulator/parser/parser.cc:16 | the digit run read from a digit string followed by a non-digit is that digit string |
| Numbers.NatToBinary | qubitverse/visualizer/src/components/ParseResultData.jsx:11 | `n.toString(2)` is a non-empty string of `0` and `1`; `BinaryValueOfNatToBinary` proves that it reads back as n |
| Numbers.SkipSpace | qubitverse/simulator/parser/parser.cc:16 | the white space strtoul skips: what is left is no longer and does not start with white space |
| Text.Split | qubitverse/visualizer/src/components/ParseResultData.jsx:2 | `split` gives at least one piece, and no piece holds the separator |
| Text.JoinSplit | qubitverse/visualizer/src/components/ParseResultData.jsx:2 | joining the pieces at the separator gives back the line |
| Text.SplitTerminated | qubitverse/visualizer/src/components/ParseResultData.jsx:26 | a separator-free line followed by the separator splits into that line, then the pieces of the rest |
| Text.Trim | qubitverse/visualizer/src/components/NQubitInput.jsx:19 | `trim` is empty if and only if the text is all white space; otherwise it neither starts nor ends with white space (that it is one slice of the text is `Text.TrimSlice`) |
| Text.TrimSlice | qubitverse/visualizer/src/components/NQubitInput.jsx:19 | `trim` keeps one slice `s[a..b]` of the text, with only white space before a and from b on |
| Text.TrimStartSuffix | qubitverse/visualizer/src/components/NQubitInput.jsx:19 | trimming the front leaves a suffix of the text |
| Text.Upper | qubitverse/visualizer/src/components/ParseResultData.jsx:71 | `toUpperCase` on ASCII: same length, a-z raised, other characters kept |
| Text.TrimStart | qubitverse/visualizer/src/components/NQubitInput.jsx:19 | the text without its leading JavaScript white space: no longer, not starting with white space, and all it drops is white space |
| Text.TrimEnd | qubitverse/visualizer/src/components/NQubitInput.jsx:19 | the text without its trailing JavaScript white space: a prefix, not ending with white space, and all it drops is white space |
| Text.IsLettersAndSpaces | qubitverse/visualizer/src/components/ParseResultData.jsx:8 | `/^[ a-z]+$/i.test(s)`: s is non-empty and made only of ASCII letters and spaces |
| StableSort.SortBy | qubitverse/visualizer/src/components/SendToBackEnd.jsx:60-62 | the sort is a permutation of its input |
| StableSort.SortBySorted | qubitverse/visualizer/src/components/SendToBackEnd.jsx:60-62 | the sorted list is nondecreasing by key |
| StableSort.SortByStable | qubitverse/visualizer/src/components/SendToBackEnd.jsx:60-62 | among equal keys, the input order is kept |
| StableSort.SortSorted | qubitverse/visualizer/src/components/circuitDataExtractor.jsx:74 | sorting a list that is already sorted changes nothing |
| StableSort.Filter | qubitverse/visualizer/src/components/circuitDataExtractor.jsx:67-73 | `filter` keeps exactly the elements that pass the test |
| StableSort.SortedFilter | qubitverse/visualizer/src/components/circuitDataExtractor.jsx:66-74 | filtering a sorted list leaves it sorted |
| StableSort.InsertPermutes | qubitverse/visualizer/src/components/SendToBackEnd.jsx:60-62 | one insertion adds exactly the inserted element |
| StableSort.InsertSorted | qubitverse/visualizer/src/components/SendToBackEnd.jsx:60-62 | inserting into a sorted list keeps it sorted |
| StableSort.InsertStable | qubitverse/visualizer/src/components/SendToBackEnd.jsx:60-62 | an insertion puts the element in front of its equal-key run only |
| StableSort.Insert | qubitverse/visualizer/src/components/SendToBackEnd.jsx:60-62 | one insertion: x goes before the first element whose key is not smaller; `InsertPermutes`, `InsertSorted` and `InsertStable` prove its properties |
| QuantumCircuit.Clamp | qubitverse/visualizer/src/components/QuantumCircuit.jsx:47 | the result is in [lo, hi] when lo <= hi; it is the value when the value is in range, else the nearer bound |
| QuantumCircuit.SnapY | qubitverse/visualizer/src/components/QuantumCircuit.jsx:170-177 | the snapped centre is a qubit line between the first and the fifth; for a drop point within the lines' band it is the nearest line, with a drop point halfway between two lines (Math.round rounds halves up) going to the larger y; above the band it is the first line, below it the fifth |
| QuantumCircuit.QubitOfY | qubitverse/visualizer/src/components/QuantumCircuit.jsx:213 | `round((y + 20) / 50) - 1` is the q whose band [50q + 5, 50q + 55) holds y |
| QuantumCircuit.SnappedOnLine | qubitverse/visualizer/src/components/QuantumCircuit.jsx:213 | a gate drawn at a snapped y sits on line 0..4, the line its centre is on |
| QuantumCircuit.SnappedQubitInRange | qubitverse/visualizer/src/components/QuantumCircuit.jsx:170-177 | for every drop point, the snapped gate's qubit index is in 0..4 |
| QuantumCircuit.SingleItemsMembers | qubitverse/visualizer/src/components/QuantumCircuit.jsx:212-216 | a line's single-gate entries are exactly the gates drawn on it, each with its x |
| QuantumCircuit.CnotItemsMembers | qubitverse/visualizer/src/components/QuantumCircuit.jsx:217-221 | a line's CNOT entries are exactly the CNOTs whose control is that line |
| QuantumCircuit.GroupMembers | qubitverse/visualizer/src/components/QuantumCircuit.jsx:211-221 | a group's entries are exactly the gates that join it |
| QuantumCircuit.RankedMembers | qubitverse/visualizer/src/components/QuantumCircuit.jsx:224 | sorting a group by x keeps exactly its entries |
| QuantumCircuit.CombinedOrders | qubitverse/visualizer/src/components/QuantumCircuit.jsx:211-232 | every gate and CNOT gets a number (and no other index does): its 1-based rank in the x-sorted group of its line, a CNOT under its control line only |
| QuantumCircuit.CombinedGroups | qubitverse/visualizer/src/components/QuantumCircuit.jsx:211-221 | there is a non-empty group for exactly the lines some gate joins, each the specification's group |
| QuantumCircuit.GroupSingles | qubitverse/visualizer/src/components/QuantumCircuit.jsx:212-216 | after the first loop, each line's group is its single gates in index order |
| QuantumCircuit.GroupCnots | qubitverse/visualizer/src/components/QuantumCircuit.jsx:217-221 | after the second loop, each line's group has its CNOTs appended in index order |
| QuantumCircuit.NumberGroups | qubitverse/visualizer/src/components/QuantumCircuit.jsx:223-232 | every group is sorted, and every gate of every group is given its rank |
| QuantumCircuit.NumberGroup | qubitverse/visualizer/src/components/QuantumCircuit.jsx:224-231 | one group is sorted by x and its entries are numbered 1, 2, ... in that order |
| QuantumCircuit.NumberStep | qubitverse/visualizer/src/components/QuantumCircuit.jsx:225-230 | the k-th entry of the sorted group receives number k + 1 |
| QuantumCircuit.SinglesComplete | qubitverse/visualizer/src/components/QuantumCircuit.jsx:223-232 | once all groups are numbered, every single gate has its rank |
| QuantumCircuit.CnotsComplete | qubitverse/visualizer/src/components/QuantumCircuit.jsx:223-232 | once all groups are numbered, every CNOT has its rank |
| QuantumCircuit.WithoutIndexRemoves | qubitverse/visualizer/src/components/QuantumCircuit.jsx:292-299 | `filter((_, i) => i !== index)` removes exactly the element at index, if any, and keeps the others in order |
| QuantumCircuit.CircuitEditor.constructor | qubitverse/visualizer/src/components/QuantumCircuit.jsx:184-193 | the editor starts with no gates, the dialog closed at x 0, control 0 and target 1 |
| QuantumCircuit.CircuitEditor.Drop | qubitverse/visualizer/src/components/QuantumCircuit.jsx:241-258 | an empty type changes nothing; "CNOT" opens the dialog at pointerX and adds no gate; any other type appends `{pointerX, snapY(pointerY), type}` |
| QuantumCircuit.CircuitEditor.GateDragEnd | qubitverse/visualizer/src/components/QuantumCircuit.jsx:269-279 | only the dragged gate's x changes, clamped to [50, 710] |
| QuantumCircuit.CircuitEditor.CnotDragEnd | qubitverse/visualizer/src/components/QuantumCircuit.jsx:282-289 | only the dragged CNOT's x changes, clamped to [50, 710] |
| QuantumCircuit.CircuitEditor.DeleteGate | qubitverse/visualizer/src/components/QuantumCircuit.jsx:292-294 | exactly the gate at index is removed; everything else is unchanged |
| QuantumCircuit.CircuitEditor.DeleteCnot | qubitverse/visualizer/src/components/QuantumCircuit.jsx:297-299 | exactly the CNOT at index is removed; everything else is unchanged |
| QuantumCircuit.CircuitEditor.SelectControl | qubitverse/visualizer/src/components/QuantumCircuit.jsx:523-532 | the dialog's control becomes the chosen line 0..4 |
| QuantumCircuit.CircuitEditor.SelectTarget | qubitverse/visualizer/src/components/QuantumCircuit.jsx:536-545 | the dialog's target becomes the chosen line 0..4 |
| QuantumCircuit.CircuitEditor.CnotConfirm | qubitverse/visualizer/src/components/QuantumCircuit.jsx:312-322 | control == target is refused (the alert) and changes nothing; otherwise exactly one `{cnotX, control, target}` is appended and the dialog closes |
| QuantumCircuit.CircuitEditor.CnotCancel | qubitverse/visualizer/src/components/QuantumCircuit.jsx:323-325 | the dialog closes and nothing else changes |
| QuantumCircuit.Group | qubitverse/visualizer/src/components/QuantumCircuit.jsx:211-221 | `combinedGroups[q]` before sorting: the single gates that snap to line q, in array order, then the CNOTs whose control is q |
| QuantumCircuit.Ranked | qubitverse/visualizer/src/components/QuantumCircuit.jsx:224 | `combinedGroups[q]` after its stable sort by x |
| QuantumCircuit.WithoutIndex | qubitverse/visualizer/src/components/QuantumCircuit.jsx:293 | `prev.filter((_, i) => i !== index)`: the array with the element at index removed, and unchanged when index is out of range |
| SendToBackEnd.AllGates | qubitverse/visualizer/src/components/SendToBackEnd.jsx:60 | the spread holds one record per input gate |
| SendToBackEnd.Extract | qubitverse/visualizer/src/components/SendToBackEnd.jsx:5-69 | numQubits is nQ unchanged; the gates are a permutation of single ++ cnot ++ cz ++ swap ++ measurenth, none added or dropped |
| SendToBackEnd.ExtractSorted | qubitverse/visualizer/src/components/SendToBackEnd.jsx:60-62 | the extracted gates are nondecreasing by position |
| SendToBackEnd.ExtractStable | qubitverse/visualizer/src/components/SendToBackEnd.jsx:60-62 | gates at the same position keep their concatenation order |
| SendToBackEnd.ExtractedSingle | qubitverse/visualizer/src/components/SendToBackEnd.jsx:7-17 | each single gate is sent with its text, qubit round((y + 20) / 50) - 1, theta (-1 without params, else params.theta) and x |
| SendToBackEnd.ExtractedMeasure | qubitverse/visualizer/src/components/SendToBackEnd.jsx:50-57 | each measurement is sent as a measurenth record on the qubit of its y, at its x |
| SendToBackEnd.Fields | qubitverse/visualizer/src/components/SendToBackEnd.jsx:10-56 | a record's own fields in declaration order, from `type` to `position` |
| SendToBackEnd.EncodedStart | qubitverse/visualizer/src/components/SendToBackEnd.jsx:72-81 | the request opens with `feature + "n:" + numQubits + "\n"`, and with no gates that line is all of it |
| SendToBackEnd.TerminatedConcat | qubitverse/visualizer/src/components/SendToBackEnd.jsx:73-80 | the lines of two lists, each ended by a line feed, concatenate |
| SendToBackEnd.EncodeStep | qubitverse/visualizer/src/components/SendToBackEnd.jsx:73-80 | one outer-loop pass extends the text for records 0..i-1 to the text for 0..i |
| SendToBackEnd.Encode | qubitverse/visualizer/src/components/SendToBackEnd.jsx:71-82 | the nested loops build exactly the specified request text |
| SendToBackEnd.AppendFields | qubitverse/visualizer/src/components/SendToBackEnd.jsx:74-78 | the inner loop appends one `key:value\n` per own field, in order |
| SendToBackEnd.BodySeparators | qubitverse/visualizer/src/components/SendToBackEnd.jsx:79 | the `@` lines of the body number exactly the gates |
| SendToBackEnd.SplitTerminatedRows | qubitverse/visualizer/src/components/SendToBackEnd.jsx:72-80 | text made of feed-free lines, each ended by a feed, splits back into those lines and a final "" |
| SendToBackEnd.EncodedLines | qubitverse/visualizer/src/components/SendToBackEnd.jsx:71-82 | split at line feeds, the request is the header, each record's field lines and `@`, then ""; the `@` lines number the gates |
| SendToBackEnd.FeatureDigit | qubitverse/visualizer/src/components/SendToBackEnd.jsx:101-119 | Calculate, Probability and Measure send the one-digit modes "0", "1" and "2" |
| SendToBackEnd.FeatureDistinguishes | qubitverse/visualizer/src/components/SendToBackEnd.jsx:103-117 | a request starts with its mode digit, so the three requests for one circuit differ |
| SendToBackEnd.RequestBody | qubitverse/visualizer/src/components/SendToBackEnd.jsx:101-119 | a button's request body is the encoding, under its mode digit, of the extracted circuit |
| SendToBackEnd.Encoded | qubitverse/visualizer/src/components/SendToBackEnd.jsx:71-82 | `quantum_encode(cktData, feature)`: the request's lines, each followed by a line feed |
| SendToBackEnd.Rows | qubitverse/visualizer/src/components/SendToBackEnd.jsx:71-82 | the lines of the request: the header line, then the lines of each record in list order |
| SendToBackEnd.Header | qubitverse/visualizer/src/components/SendToBackEnd.jsx:72 | the first line: the mode text, then `n:`, then the qubit count in decimal |
| SendToBackEnd.ThetaText | qubitverse/visualizer/src/components/SendToBackEnd.jsx:14 | a gate with no params field sends `-1`; otherwise `params.theta` is sent, and `undefined` when params holds no theta |
| CircuitDataExtractor.AllGates | qubitverse/visualizer/src/components/circuitDataExtractor.jsx:59 | the spread holds one record per input gate |
| CircuitDataExtractor.SortedGates | qubitverse/visualizer/src/components/circuitDataExtractor.jsx:59-61 | `allGates` is a permutation of single ++ cnot ++ cz ++ swap |
| CircuitDataExtractor.SortedGatesOrder | qubitverse/visualizer/src/components/circuitDataExtractor.jsx:59-61 | `allGates` is nondecreasing by position, with ties in concatenation order |
| CircuitDataExtractor.OnQubitFilters | qubitverse/visualizer/src/components/circuitDataExtractor.jsx:66-74 | qubit i's list holds exactly the gates that touch i (single on i, cnot or cz with control or target i, swap with qubit1 or qubit2 i), in position order |
| CircuitDataExtractor.ListedUnderItsQubits | qubitverse/visualizer/src/components/circuitDataExtractor.jsx:68-72 | a two-qubit gate is listed under both its qubits; a single gate under its own qubit and no other |
| CircuitDataExtractor.QubitKeyInjective | qubitverse/visualizer/src/components/circuitDataExtractor.jsx:66 | different qubits have different keys `Q${i}` |
| CircuitDataExtractor.QubitKeysExactly | qubitverse/visualizer/src/components/circuitDataExtractor.jsx:65-66 | the keys of n qubits are exactly Q0..Q(n-1) |
| CircuitDataExtractor.GatesByQubit | qubitverse/visualizer/src/components/circuitDataExtractor.jsx:64-75 | the loop fills exactly the keys Q0..Q(n-1), each with its qubit's list |
| CircuitDataExtractor.StepsFollowGates | qubitverse/visualizer/src/components/circuitDataExtractor.jsx:84-113 | a qubit's steps match its gates one for one: same length and order, each naming gateType, "CNOT", "CZ" or "SWAP" at the gate's position |
| CircuitDataExtractor.ExecutionOrder | qubitverse/visualizer/src/components/circuitDataExtractor.jsx:83-115 | the reduce gives every key of `gatesByQubit` the steps of its gates |
| CircuitDataExtractor.Extract | qubitverse/visualizer/src/components/circuitDataExtractor.jsx:13-117 | numQubits is the parameter; the gates are sorted; gatesByQubit and executionOrder have exactly the keys Q0..Q(n-1), with each qubit's filtered gates and their steps |
| CircuitDataExtractor.OnQubit | qubitverse/visualizer/src/components/circuitDataExtractor.jsx:66-74 | ``gatesByQubit[`Q${i}`]``: the gates of the position-sorted list that touch qubit i, sorted again by position |
| CircuitDataExtractor.QubitKey | qubitverse/visualizer/src/components/circuitDataExtractor.jsx:66 | the key of qubit i: `Q` then i in decimal |
| CircuitDataExtractor.Steps | qubitverse/visualizer/src/components/circuitDataExtractor.jsx:84-113 | the execution order of one qubit: each gate mapped to its step, in order |
| WireProtocol.IntIsRun | qubitverse/simulator/lexer/lexer.cc:51-60 | a rendered integer is one run of number characters |
| WireProtocol.Nodes | qubitverse/simulator/parser/parser.cc:39-97 | one node per gate, in order |
| WireProtocol.FieldTokens | qubitverse/simulator/lexer/lexer.cc:18-65 | each field gives three tokens |
| WireProtocol.LexRowLine | qubitverse/simulator/lexer/lexer.cc:18-65 | a line `key:value` scans to the key, a colon and the value |
| WireProtocol.KeyWords | qubitverse/visualizer/src/components/SendToBackEnd.jsx:10-72 | the keys and kind names the encoder writes are words of letters |
| WireProtocol.LexFieldRows | qubitverse/simulator/lexer/lexer.cc:18-65 | the lines of lexable fields scan to their key, colon and value tokens in order |
| WireProtocol.FieldsLexable | qubitverse/visualizer/src/components/SendToBackEnd.jsx:10-56 | every field of a sendable gate is a word key and a one-run value |
| WireProtocol.LexGateRows | qubitverse/simulator/lexer/lexer.cc:18-65 | a record's lines scan to its field tokens and a SEP |
| WireProtocol.LexBodyRows | qubitverse/simulator/lexer/lexer.cc:18-65 | the lines of all records scan to all their tokens, in list order |
| WireProtocol.LexRequest | qubitverse/simulator/lexer/lexer.cc:16-68 | the request without its mode digit scans successfully, to the header's tokens and then every record's tokens |
| WireProtocol.FieldAt | qubitverse/simulator/parser/parser.cc:31-36 | field i's key and value are tokens 3i and 3i + 2 |
| WireProtocol.RecordOfTokens | qubitverse/simulator/parser/parser.cc:21-100 | the parser reads each record's tokens back as that gate's node, ending at the record's SEP |
| WireProtocol.RecordOfSingle | qubitverse/simulator/parser/parser.cc:24-39 | a single record's tokens give its gate name, qubit and theta |
| WireProtocol.RecordOfPair | qubitverse/simulator/parser/parser.cc:43-84 | a cnot, cz or swap record's tokens give its two qubits in order |
| WireProtocol.RecordOfMeasure | qubitverse/simulator/parser/parser.cc:88-97 | a measurenth record's tokens give its qubit |
| WireProtocol.RecordsPrepend | qubitverse/simulator/parser/parser.cc:19-106 | a sendable record's tokens, followed by any tokens, parse to that gate's node followed by what the rest parses to |
| WireProtocol.ParseAllTokens | qubitverse/simulator/parser/parser.cc:19-108 | the tokens of sendable records parse to one node per gate, in order, and `perform` returns true |
| WireProtocol.DropModeDigit | qubitverse/visualizer/src/components/SendToBackEnd.jsx:72 | dropping the first character of a request leaves the request with an empty mode |
| WireProtocol.RoundTrip | qubitverse/simulator/parser/parser.cc:11-109 | for a circuit whose count and qubit indices have magnitudes below 2^64, whose count as stoul reads it (modulo 2^64) is at most 2^60 - 1, whose gate names are words and whose thetas are single runs that stod converts without invalid_argument or out_of_range: with the mode digit dropped, the request scans, parses with true, has its count read as numQubits modulo 2^64, and gives one node per gate in list order |
| WireProtocol.RoundTripBeyondMaxSize | qubitverse/simulator/parser/parser.cc:17 | a request whose count has magnitude below 2^64 and, read modulo 2^64, is above 2^60 - 1 (`numQubits` = -1 among them), and whose gates scan: with the mode digit dropped it scans and parses to that count and a length_error fault with no nodes |
| WireProtocol.RawRequestRejected | qubitverse/simulator/parser/parser.cc:14-21 | the request as sent: the mode digit is read as the count, and `perform` returns false at `n` with no node |
| WireProtocol.LexModeDigit | qubitverse/simulator/lexer/lexer.cc:51-60 | the raw request scans to the mode digit, then `n`, as two IDEN tokens |
| WireProtocol.ParseDigitFirst | qubitverse/simulator/parser/parser.cc:14-21 | tokens led by a digit and then `n` give that digit as the count and refuse `n` as a record |
| ParseResultData.ParseValueLine | qubitverse/visualizer/src/components/ParseResultData.jsx:1-3 | the pieces, joined at '=', give back the line; a line without '=' is one piece |
| ParseResultData.ValueLineFields | qubitverse/visualizer/src/components/ParseResultData.jsx:1-3 | `key=value` with no other '=' splits into key and value |
| ParseResultData.JsNumberOfNat | qubitverse/visualizer/src/components/ParseResultData.jsx:11 | `Number` reads a rendered index back, taking the digits as their exact integer (exact up to 2^53, see Left out) |
| ParseResultData.QubitEntryOfIndex | qubitverse/visualizer/src/components/ParseResultData.jsx:9-13 | a state line `n=v` becomes the entry `n: \|<n in binary>〉\t` holding v |
| ParseResultData.BlockEnd | qubitverse/visualizer/src/components/ParseResultData.jsx:8 | the first line at or after i that is empty, letters and spaces only, or past the end |
| ParseResultData.QubitValues | qubitverse/visualizer/src/components/ParseResultData.jsx:9-13 | one entry per block line |
| ParseResultData.ProbValues | qubitverse/visualizer/src/components/ParseResultData.jsx:19-22 | one probability per block line |
| ParseResultData.ParseQubitData | qubitverse/visualizer/src/components/ParseResultData.jsx:5-17 | the loop stops at the block's end and returns one entry per consumed line, in line order |
| ParseResultData.ParseProbBlock | qubitverse/visualizer/src/components/ParseResultData.jsx:55-58 | the prob loop stops at the block's end and returns one `{name, Number(value)}` per line, in order |
| ParseResultData.Step | qubitverse/visualizer/src/components/ParseResultData.jsx:29-78 | every pass advances the cursor |
| ParseResultData.ScanStep | qubitverse/visualizer/src/components/ParseResultData.jsx:29-78 | one pass of the cursor loop, with the source's `i = newIndex - 1` then `i++`, is the specified step |
| ParseResultData.PushBlock | qubitverse/visualizer/src/components/ParseResultData.jsx:30-39 | a block branch pushes vertex j + 1 with the block's entries and leaves the cursor on the block's last line |
| ParseResultData.ChainEdges | qubitverse/visualizer/src/components/ParseResultData.jsx:105-107 | the edge loop builds the chain 1 -> 2 -> ... -> n |
| ParseResultData.ParseReply | qubitverse/visualizer/src/components/ParseResultData.jsx:24-113 | the whole decoder gives exactly what the specification hands its setters, or its TypeError |
| ParseResultData.ScanAppends | qubitverse/visualizer/src/components/ParseResultData.jsx:28-79 | the scan only appends vertices and probabilities, keeps ids counting from 1, and changes `measured` only at a `measure` line |
| ParseResultData.DecodeChain | qubitverse/visualizer/src/components/ParseResultData.jsx:28-107 | vertex ids are 1..N and the edges are exactly {k, k + 1} for k = 1..N-1 |
| ParseResultData.DecodeWithoutMeasure | qubitverse/visualizer/src/components/ParseResultData.jsx:81-112 | without `measure`, the scan is handed over as it is, with NaN and the history unchanged |
| ParseResultData.DecodeCollapse | qubitverse/visualizer/src/components/ParseResultData.jsx:81-103 | after `measure` m, prob m is 1 and the others 0 (names kept); the vertices are kept and followed by "Measured State" with id N + 1 and the first vertex's entries one-hot at m; m is appended to the history |
| ParseResultData.DecodeEmpty | qubitverse/visualizer/src/components/ParseResultData.jsx:25-27 | an empty reply gives no vertices, edges or probabilities, and NaN |
| ParseResultData.MeasureWithoutProbFails | qubitverse/visualizer/src/components/ParseResultData.jsx:86 | a reply with an initial state and a `measure` but no `prob` block throws at `prob[measured]` |
| ParseResultData.ReplyLines | qubitverse/visualizer/src/components/ParseResultData.jsx:26 | that reply splits into its six lines |
| ParseResultData.Decode | qubitverse/visualizer/src/components/ParseResultData.jsx:24-113 | what the decoder hands to its setters: without a measure line, the scanned probabilities, the chain of edges and the vertices with the history unchanged; with one, the collapse, which fails when `prob[measured]`, `vertices[0]` or `values[measured]` is missing |
| ParseResultData.ScanFrom | qubitverse/visualizer/src/components/ParseResultData.jsx:29-79 | the decoder's cursor loop from line i on: one step at a time until the cursor passes the last line |
| ParseResultData.JsNumber | qubitverse/visualizer/src/components/ParseResultData.jsx:11 | `Number(s)` on white space, an optional sign and decimal digits: the empty or blank text is 0, a signed digit run is its exact integer (where `Number` rounds above 2^53, see Left out), anything else is NaN (None) |
| ParseResultData.QubitEntry | qubitverse/visualizer/src/components/ParseResultData.jsx:9-13 | a state line `k=v` becomes the label `k: \|<binary of k>〉` with a tab, and the value v (undefined without `=`) |
| ParseResultData.ProbData | qubitverse/visualizer/src/components/ParseResultData.jsx:19-22 | a probability line `name=v` becomes the name and `Number(v)` |
| ParseResultData.EndsBlock | qubitverse/visualizer/src/components/ParseResultData.jsx:8 | a block of value lines stops at an empty line, a line of letters and spaces only, or past the end, where `lines[i]` is undefined and the pattern test reads `undefined` |
| ParseResultData.Collapse | qubitverse/visualizer/src/components/ParseResultData.jsx:83-86 | every probability becomes 0 except the one at the measured index, which becomes 1 |
| ParseResultData.OneHot | qubitverse/visualizer/src/components/ParseResultData.jsx:89-92 | the first vertex's entries with every amplitude `(0,0)` except `(1,0)` at the measured index |
| ParseResultData.Chain | qubitverse/visualizer/src/components/ParseResultData.jsx:105-107 | the edges i to i + 1 for the vertices 1 to n, and none when there is at most one vertex |
| MeasurementChart.ArrayToFreqTable | qubitverse/visualizer/src/components/MeasurementChart.jsx:4-8 | the `forEach` over a `Map` builds exactly the frequency table |
| MeasurementChart.DistinctElements | qubitverse/visualizer/src/components/MeasurementChart.jsx:5-7 | each distinct value has exactly one row, and the rows' values are exactly the input's |
| MeasurementChart.FirstOccurrenceOrder | qubitverse/visualizer/src/components/MeasurementChart.jsx:5-7 | rows are in first-occurrence order (the `Map`'s insertion order) |
| MeasurementChart.FreqCounts | qubitverse/visualizer/src/components/MeasurementChart.jsx:6 | a row's freq is the number of indices holding its value, at least 1 |
| MeasurementChart.CountIsOccurrences | qubitverse/visualizer/src/components/MeasurementChart.jsx:6 | a value's multiplicity is the number of indices holding it |
| MeasurementChart.FreqSum | qubitverse/visualizer/src/components/MeasurementChart.jsx:4-7 | the freqs sum to the input length, and an empty input gives an empty table |
| MeasurementChart.RowsAddOne | qubitverse/visualizer/src/components/MeasurementChart.jsx:6 | one more occurrence adds 1 to the total exactly when the value has a row |
| MeasurementChart.FirstIndex | qubitverse/visualizer/src/components/MeasurementChart.jsx:6 | the index of the first occurrence: it holds the value, and no earlier index does |
| MeasurementChart.FreqTable | qubitverse/visualizer/src/components/MeasurementChart.jsx:4-8 | `array_to_freq_table(a)`: one row per distinct value in order of first occurrence, holding its number of occurrences |
| MeasurementChart.Distinct | qubitverse/visualizer/src/components/MeasurementChart.jsx:5-7 | the values of a, each once, in order of first occurrence, which is the key order of the `Map` |
| NQubitInput.Message | qubitverse/visualizer/src/components/NQubitInput.jsx:19-37 | the message is empty exactly after an ignored or accepted confirm |
| NQubitInput.CountAfter | qubitverse/visualizer/src/components/NQubitInput.jsx:19-37 | blank text keeps the count; an accepted count is set; a refused one sets null |
| NQubitInput.ParseIntOfDigits | qubitverse/visualizer/src/components/NQubitInput.jsx:24 | `parseInt` of a digit string is its decimal value, or Infinity beyond double range |
| NQubitInput.AcceptedExactly | qubitverse/visualizer/src/components/NQubitInput.jsx:24-37 | confirm accepts n if and only if the trimmed text is non-empty digits whose value is n, with 1 <= n below double overflow |
| NQubitInput.InvalidExactly | qubitverse/visualizer/src/components/NQubitInput.jsx:19-29 | the text is refused as invalid if and only if the trimmed text is non-empty and not all digits; it is ignored if and only if it is all white space |
| NQubitInput.AcceptsRendered | qubitverse/visualizer/src/components/NQubitInput.jsx:24-37 | a rendered positive count is accepted as itself |
| NQubitInput.ZeroTooSmall | qubitverse/visualizer/src/components/NQubitInput.jsx:30-33 | zero in any number of digits ("0", "000") is refused as too small |
| NQubitInput.LeadingZero | qubitverse/visualizer/src/components/NQubitInput.jsx:24 | a leading zero does not change the value, so "007" is 7 |
| NQubitInput.ClassifyTrimmed | qubitverse/visualizer/src/components/NQubitInput.jsx:19-26 | confirm looks only at the trimmed text |
| NQubitInput.TrimKeeps | qubitverse/visualizer/src/components/NQubitInput.jsx:19 | text whose ends are not white space trims to itself |
| NQubitInput.QubitInput.constructor | qubitverse/visualizer/src/components/NQubitInput.jsx:5-6 | the prompt starts with empty text and no message |
| NQubitInput.QubitInput.HandleChange | qubitverse/visualizer/src/components/NQubitInput.jsx:13-16 | typing replaces the text and clears the message; the count is kept |
| NQubitInput.QubitInput.HandleConfirm | qubitverse/visualizer/src/components/NQubitInput.jsx:18-38 | the message and the count follow the outcome of the trimmed text; the text is kept; a message is shown only with the count null |
| NQubitInput.QubitInput.HandleKeyDown | qubitverse/visualizer/src/components/NQubitInput.jsx:40-44 | Enter confirms; any other key changes nothing |
| NQubitInput.QubitInput.Reset | qubitverse/visualizer/src/components/NQubitInput.jsx:91-96 | the text and the message are cleared and the count is set to null |
| NQubitInput.ParseInt | qubitverse/visualizer/src/components/NQubitInput.jsx:24 | `parseInt(s, 10)`: white space skipped, an optional sign and the longest digit run; no digit gives NaN, and a magnitude a double cannot hold gives an infinity of that sign |
| NQubitInput.Judge | qubitverse/visualizer/src/components/NQubitInput.jsx:19-37 | Confirm's branches on trimmed text: empty is ignored, text that is not all digits is invalid, a value below 1 or not finite is too small, otherwise the count is accepted |
| NQubitInput.Classify | qubitverse/visualizer/src/components/NQubitInput.jsx:19-37 | Confirm's outcome for the field's text: `Judge` of that text trimmed |

## Left out

- Floating point. Positions and coordinates are integers. The sorts compare integer positions, and `Math.round` is round half up on integers.
- Numbers.IntToString: renders the exact decimal digits of any integer. JavaScript's `"" + n` writes magnitudes of 1e21 and above in exponent form, and a double above 2^53 is already rounded before it is rendered. Editor positions and qubit indices stay far below both.
- Opaque numeric values. Theta is kept as its text, and `Number(...)` of a probability is kept as its text. For `std::stod` the model states which texts it accepts (invalid_argument otherwise) and, for plain decimals `[sign]digits[.digits]`, when the value is out of a double's range (out_of_range). Overflow is a value of at least 2^1024 - 2^970. Underflow is a nonzero value below the smallest normal double after rounding that is not exactly representable, as glibc on x86-64 reports ERANGE.
- Parser.StodOutOfRange: texts with an exponent (`1e400`) or in hexadecimal (`0x1p-2000`) are never reported out of range. The scanner never puts them in one token, because letters and number characters form separate runs, so no theta token can have these forms.
- Text.Upper: only ASCII letters are raised. JavaScript's `toUpperCase` also maps non-ASCII letters (é to É, ß to SS). The simulator's reply lines are ASCII.
- JavaScript `Number` spellings. The decoder reads `measured` and qubit keys through `Number`. Only white space, an optional sign and decimal digits are modelled; decimals, exponents, hexadecimal and `Infinity` read as NaN.
- ParseResultData.JsNumber: a digit run is read as its exact integer. `Number` rounds it to the nearest double above 2^53 (so `9007199254740993` reads as 2^53 and its `toString(2)` label is the binary of 2^53), and gives `Infinity` from 2^1024 - 2^970 on (the label is then `Infinity`). The simulator's state indices and measured qubits stay far below 2^53.
- NQubitInput.ParseIntOfDigits: the exact value of a digit string is used where a double would round it. This matters above 2^53. An implementation may also drop significant digits after the 20th.
- No `gate_type` kind for the measurement node. The parser builds `ast_measure_nth_node`, which `ast.hh` does not declare. It is modelled as the MeasureNth node, reported with no kind.
- I/O:
  - `fetch` and its promise chain (the reply is a parameter of the decoder);
  - the Express backend and the simulator's `main`;
  - clipboard and download;
  - `inputRef.focus()`;
  - `alert`, which is modelled as the `rejected` result;
  - the React setters, which are modelled as the decoder's result and as class fields;
  - all rendering, tooltips and the Bloch-sphere popup (`openModalForQubit`, `closeModal`);
  - `parser::debug_print`;
  - the gate arithmetic in `gates.cc`.
- `lexer::advance` reads one past the end of the string, where `std::string` holds '\0', which ends a run. This is modelled as the run stopping at the end.
- Memory exhaustion. `M_gatelist.reserve(n)` may throw `std::bad_alloc` for a count at or below 2^60 - 1 that the machine cannot hold. The model assumes the allocation succeeds. Only the `std::length_error` above `max_size()` is modelled.
- Parser.Parser.constructor: the count the default constructor leaves indeterminate is modelled as None.
- CircuitDataExtractor.Extract: the only call site (`QuantumCircuit.jsx:558`) passes `gates` and `cnotGates` and leaves `czGates` and `swapGates` undefined, so `czGates.map` (`circuitDataExtractor.jsx:39`) throws a TypeError there. The model describes the function as if all four lists were passed.
- `numQubits` in `circuitDataExtractor.jsx` is imported from a module that does not export it. Here it is a parameter.
- QuantumCircuit.CircuitEditor.CnotDragEnd: the source writes `x` into the CNOT object it shares with the previous state array (aliasing). It is modelled as a value update of the new array.
- ParseResultData.DecodeCollapse: the deep copy through JSON of `vertices[0].values` is modelled as a value copy. Out-of-range or NaN `prob[measured]`, `vertices[0]` and `values[measured]` are modelled as an error result, not as a TypeError thrown mid-way.
- MeasurementChart.ArrayToFreqTable: keys are compared with `==` on the element type. The model does not distinguish `SameValueZero` for NaN and signed zeros.

The `isFinite` branch of the qubit prompt is modelled: a digit string too long for a double gives `parseInt` Infinity and is refused as too small.
