# Cello gate assignment and design assembly, in Dafny

This project models the core of Cello, a genetic-circuit design tool. Cello
takes a Verilog design that Yosys has turned into a NOR/NOT netlist, plus a
User Constraint File (UCF) describing a library of sensors, repressor gates
and output devices. It then:

- assigns one distinct library part to every netlist input, output and gate;
- scores each assignment over the circuit's truth table;
- keeps the best-scoring assignments;
- assembles the DNA design of the winner.

The model covers both copies of the gate-assignment engine. The current one is
in `core_algorithm/`. The older one is the top-level `celloAlgo.py` with
`utils/`; it decodes coordinates differently, treats netlist outputs as gate
predecessors and checks inputs more strictly. Both are modelled side by side
through a small `Rules` / `Setup` record.

One module per source file:

- `Netlist` (utils/netlist_class.py): the Yosys-JSON validity check. It also
  splits ports into inputs and outputs and turns cells into gate records.
- `GateAssignment` (both `gate_assignment.py` copies):
  - the truth-table skeleton (`generate_truth_table`);
  - netlist nodes and gate identity (uid, equality, hash);
  - predecessor lookup (`find_prev`);
  - choice of the best gate variant (`eval_gates`);
  - the recursive analog score (`get_score`).
- `CelloScore` (`score_circuit`): binary propagation through the gates row by
  row, the analog cells, and the min(ON)/max(OFF) reduction with its
  fallbacks.
- `CelloAlgo` (both `celloAlgo.py` copies):
  - the netlist/UCF condition check;
  - the candidate assignments, in `itertools` order;
  - coordinate decoding for the annealing search, and the iteration budget;
  - binding the chosen names onto the netlist;
  - the `CELLO3` best-score accumulator, as a class with `iterCount`,
    `bestScore` and `bestGraphs` fields.
- `CelloHelpers`, `LegacyCelloHelpers`: `permute_count_helper` and
  `query_helper`.
- `Ucf` (all three `ucf_class.py` copies): file paths, validity, collection
  counts, collection queries and parameter lists.
- `DnaDesign` (`dna_design.py`):
  - `hex_to_rgb`;
  - the `DNADesign` object, which attaches circuit rules, expands device
    orders into part orders, copies cassette colours and splits each part
    order into DNA segments.
- `Eugene`, `EugeneEdges`, `EugeneStructs`, `EugeneCassettes`,
  `EugeneHelpers`, `EugeneWrite` (utils/eugene.py): the `EugeneObject` passes
  that build structs, cassettes, sequences and rules, and the text of the
  Eugene file it writes.
- `RunEugene` (py4j_gateway/run_eugene_script.py): the rule augmentation and
  part count around the miniEugene call, conversion of its answer, and the
  selection of at most five orders.
- `ResponsePlot` (`get_table_values`): the bar values and labels of one
  truth-table column.
- `DesignsToOutputs` (bin/designs_to_outputs.py): part-name conversion, the
  name-keyed collection dicts, the binary node evaluation and the final
  ON/OFF ratio.
- `CsvToUcf`, `UcfToCsv` (the two converters in `bin/`): the row parser from
  CSV to UCF collections, and the header flattener from UCF to CSV.
- Support modules:
  - `Wrappers`: `Option`, `Result` and the Python exception kinds.
  - `PyStr`: Python string and list semantics.
  - `PyInt`: `int(s, base)` for bases 10 and 16.
  - `Json`: JSON values.
  - `Dict`: insertion-ordered dicts.

Python exceptions are values: each operation returns a `Result` whose error
names the exception the source raises. Error paths are modelled, not excluded
by preconditions.

The source updates objects in place in several places:

- the `CELLO3` accumulator;
- `DNADesign`;
- `EugeneObject`;
- the caller's rule list in `call_mini_eugene`.

These are Dafny classes or methods with `modifies` clauses. Their `ensures`
clauses tie the new state to a specification function, and lemmas state the
properties of those functions.

The analog transfer functions are written in the UCF as equation strings and
evaluated with `eval`. Here they are the fields of an `Env`: uninterpreted
functions over `real`.

Some behaviours of the code that the model keeps exactly as written:

- `find_prev` on an Output with no driving gate returns a `ValueError` object
  as its result; the caller then fails on it
  (core_algorithm/utils/gate_assignment.py:346-353).
- An annealing coordinate x selects permutation `floor(x)`, which raises
  IndexError at the closed upper bound n; the older copy selects
  `ceil(x) - 1`, which at x = 0 is -1 and wraps to the last permutation
  (core_algorithm/celloAlgo.py:744-747, celloAlgo.py:450-453).
- `best_score` starts at 0, so candidates that score 0 join the tie list and
  candidates below 0 are never kept (core_algorithm/celloAlgo.py:816-828).
- A cyclic netlist fails with the interpreter's depth `RecursionError`. The
  model detects the cycle with an explicit set of nodes on the recursion
  stack and returns the same error.

The netlist code reads a cell's gate type in two different ways. The validity
check reads the second-to-last `_` field of the cell type (utils/netlist_class.py:122).
The gate records read the second field (utils/netlist_class.py:53). Both are
modelled as written.

## Model

| member | source | states |
|---|---|---|
| Netlist.ConnectionBits | utils/netlist_class.py:174-177 | a bit is in the set exactly when some connection among the first m holds it |
| Netlist.CheckCell | utils/netlist_class.py:118-171 | a cell passes exactly when its type's second-to-last `_` field is NOT or NOR, it has no parameters or attributes, it has as many port directions as connections, every connection has at most one bit, every direction is input or output, and there are at most two inputs and one output |
| Netlist.PortsSingleBit | utils/netlist_class.py:110-115 | succeeds exactly when no port has more than one bit |
| Netlist.CellsOk | utils/netlist_class.py:117-171 | succeeds exactly when every cell passes the per-cell check |
| Netlist.CollectUsedPorts | utils/netlist_class.py:173-177 | the used set is the union of the bits of every connection of every cell |
| Netlist.PortsUsed | utils/netlist_class.py:179-189 | IndexError exactly when some port has no bits; otherwise true exactly when every port's first bit is used |
| Netlist.IsValidNetlist | utils/netlist_class.py:101-189 | returns the declarative verdict: false on a multi-bit port or a failing cell, IndexError on a port without bits, otherwise whether every port bit is used |
| Netlist.PortNodesPartition | utils/netlist_class.py:39-42 | when every port is an input or an output, the input and output lists together hold one node per port |
| Netlist.SortNodes | utils/netlist_class.py:28-45 | succeeds exactly when no port raises; then the inputs and outputs in port order; otherwise the error of the first port that raises (IndexError on no bits, ValueError on another direction) |
| Netlist.GateId | utils/netlist_class.py:51-52 | the gate id contains no `$` |
| Netlist.InputPorts | utils/netlist_class.py:63-70 | a port is listed exactly when some direction entry marks it as an input |
| Netlist.GateOf | utils/netlist_class.py:53-90 | on success the gate type is the second `_` field of the cell type, every connection has a first bit, and each connection lands in exactly one of the input and output maps |
| Netlist.Endpoints | utils/netlist_class.py:71-90 | succeeds exactly when every connection has a bit; then the input map holds only input ports, the output map only others, and together they have one entry per connection |
| Netlist.LaterCellWins | utils/netlist_class.py:92 | after `gates.update`, the entry under a cell's gate id is that cell's record, overriding any earlier cell with the same id |
| Netlist.SortedGatesKeys | utils/netlist_class.py:48-93 | the gates dict has each key once, and its keys are exactly the cells' gate ids |
| Netlist.SortGates | utils/netlist_class.py:48-93 | the loop yields the declarative conversion of all cells, with the error of the first cell that fails |
| Netlist.SortedGatesNext | utils/netlist_class.py:50-92 | one more cell either fails the conversion or stores its record under its gate id |
| Netlist.SortedGatesErrorSticks | utils/netlist_class.py:50-93 | once a cell fails, the whole conversion fails with its error |
| Netlist.NewNetlist | utils/netlist_class.py:13-25 | IndexError when there is no module; otherwise the first module's name, and nodes and gates exactly when the netlist is valid, equal to the sorted inputs, outputs and gates |
| Netlist.Count | utils/netlist_class.py:157-167 | a count of entries is at most the number of entries |
| Netlist.Elements | utils/netlist_class.py:174-177 | the set holds exactly the bits of the list |
| Netlist.ConnectionsSingleBit | utils/netlist_class.py:152-155 | the loop passes exactly when no connection of the cell has more than one bit |
| Netlist.CountDirections | utils/netlist_class.py:157-167 | the loop passes exactly when every direction is `input` or `output`, and then counts each kind |
| GateAssignment.Bits | core_algorithm/utils/gate_assignment.py:25 | a row's input cells are n binary digits |
| GateAssignment.BitsAreShifts | core_algorithm/utils/gate_assignment.py:25 | digit p of row i is `(i >> (n - 1 - p)) & 1`, most significant first |
| GateAssignment.BitsRoundTrip | core_algorithm/utils/gate_assignment.py:24-25 | the digits of a row index below 2^n read back as that index |
| GateAssignment.BitsInjective | core_algorithm/utils/gate_assignment.py:24-25 | different row indices below 2^n get different input digits |
| GateAssignment.Suffixed | core_algorithm/utils/gate_assignment.py:28-30 | one `_I/O` label per name, in order |
| GateAssignment.GenerateTruthTable | core_algorithm/utils/gate_assignment.py:12-31 | 2^num_in rows, row i being i's digits followed by None in every other column, and the labels in input, gate, output order |
| GateAssignment.TruthRowShape | core_algorithm/utils/gate_assignment.py:25-30 | each row is as long as the labels (twice the node count); its first cells are the input digits and all others None |
| GateAssignment.LevelOf | core_algorithm/utils/gate_assignment.py:76-84 | state 0 selects the low level and every other state the high one |
| GateAssignment.NewGate | core_algorithm/utils/gate_assignment.py:190-195 | a dict of inputs becomes its list of values and a dict output its first value; an empty output dict raises IndexError; name and type are kept and there are no variants yet |
| GateAssignment.BitStrings | core_algorithm/utils/gate_assignment.py:195 | the `str` of each bit, in order |
| GateAssignment.UidIsIdentity | core_algorithm/utils/gate_assignment.py:195 | with non-negative bits, two gates have the same uid exactly when they have the same inputs and output |
| GateAssignment.JoinedBitsInjective | core_algorithm/utils/gate_assignment.py:195 | the comma-joined rendering of non-negative bit lists determines the list |
| GateAssignment.AddEvalParams | core_algorithm/utils/gate_assignment.py:206-238 | the ports are unchanged; the variant names gain `g_name` once, keep their order and stay distinct |
| GateAssignment.MaxChoiceIsMax | core_algorithm/utils/gate_assignment.py:254 | `max` on (score, name) pairs returns a candidate that no candidate exceeds |
| GateAssignment.VariantScores | core_algorithm/utils/gate_assignment.py:250-252 | one (score, name) pair per variant, in `gate_params` order |
| GateAssignment.EvalGates | core_algorithm/utils/gate_assignment.py:240-266 | TypeError exactly when there is no variant; otherwise a variant whose score is its response, at least every variant's score, and not below any (score, name) pair |
| GateAssignment.EvalGatesTieBreak | core_algorithm/utils/gate_assignment.py:254 | among variants with the top score the greatest name wins |
| GateAssignment.GatesDriving | core_algorithm/utils/gate_assignment.py:357-359 | exactly the gates among the first m whose output is the bit |
| GateAssignment.OutputsWithId | utils/gate_assignment.py:271-304 | exactly the outputs among the first m whose id is the bit (the older copy looks at outputs too) |
| GateAssignment.InputsWithId | core_algorithm/utils/gate_assignment.py:363-365 | exactly the inputs among the first m whose id is the bit |
| GateAssignment.BitPrevs | core_algorithm/utils/gate_assignment.py:356-365 | the nodes found for one input bit are exactly the nodes whose feed bit it is |
| GateAssignment.PrevNodes | core_algorithm/utils/gate_assignment.py:355-365 | every collected predecessor is a node of the graph |
| GateAssignment.PrevNodesMembers | core_algorithm/utils/gate_assignment.py:355-365 | the collected predecessors are exactly the nodes feeding one of the gate's input bits |
| GateAssignment.FirstDriver | core_algorithm/utils/gate_assignment.py:349-351 | the first gate from the given position whose output is the id, or None when no later gate has it |
| GateAssignment.PrevOf | core_algorithm/utils/gate_assignment.py:340-372 | an Output gets at most one node and that a gate; an Input gets the ValueError object; a gate gets a list of several nodes, one node, or IndexError when it has no predecessor |
| GateAssignment.PrevOfGate | core_algorithm/utils/gate_assignment.py:354-369 | for a gate, the nodes named are exactly the nodes feeding its input bits, and IndexError happens exactly when there is none |
| GateAssignment.CollectBitPrevs | core_algorithm/utils/gate_assignment.py:356-365 | the inner loops collect exactly the nodes the declarative predecessor list gives |
| GateAssignment.FindPrev | core_algorithm/utils/gate_assignment.py:340-372 | the loops with their early return compute the declarative predecessor result |
| GateAssignment.GetScore | core_algorithm/utils/gate_assignment.py:375-426 | an Input scores its level's out score; an Output without a driver raises; a gate met again while it is scored raises RecursionError; a scored gate records a variant whose response at the composed input is the score and at least every variant's response |
| GateAssignment.Composed | core_algorithm/utils/gate_assignment.py:403-419 | only NOT and NOR gates compose (others raise Exception); a gate without a predecessor raises IndexError; a composed NOR gate has variants |
| GateAssignment.ScoreEach | core_algorithm/utils/gate_assignment.py:407 | on success one score per predecessor, and one recorded choice slot per gate |
| GateAssignment.OutputScoreOfDriver | core_algorithm/utils/gate_assignment.py:391-396 | an Output's score is its device function applied to the score of the first gate driving it |
| GateAssignment.LoadInputs | core_algorithm/utils/gate_assignment.py:443-452 | one Input per (name, id) pair, in order |
| GateAssignment.LoadOutputs | core_algorithm/utils/gate_assignment.py:455-464 | one Output per (name, id) pair, in order |
| GateAssignment.LoadGates | core_algorithm/utils/gate_assignment.py:467-477 | one Gate per dict entry, in order; IndexError exactly when some entry has an empty output map |
| GateAssignment.ProductGatesLength | core_algorithm/utils/gate_assignment.py:514-517 | there are as many new gates as netlist gates times UCF gates |
| GateAssignment.ProductGatesPorts | core_algorithm/utils/gate_assignment.py:514-517 | every new gate is some netlist gate relabelled with some UCF gate |
| GateAssignment.UidBucket | core_algorithm/utils/gate_assignment.py:520-522 | exactly the gates with the uid, in order |
| GateAssignment.RelabelAll | core_algorithm/utils/gate_assignment.py:514-517 | the first loop yields every netlist gate relabelled with every UCF gate, netlist gate by netlist gate |
| GateAssignment.BucketByUid | core_algorithm/utils/gate_assignment.py:518-522 | the second loop files each gate under its uid |
| GateAssignment.PermuteGates | core_algorithm/utils/gate_assignment.py:507-523 | the new gates, and a dict whose keys are exactly their uids, each holding the gates with that uid in order |
| GateAssignment.BitCells | core_algorithm/utils/gate_assignment.py:25 | one cell per digit, each holding that bit |
| GateAssignment.Nones | core_algorithm/utils/gate_assignment.py:25 | `n` empty cells |
| GateAssignment.FindDriver | core_algorithm/utils/gate_assignment.py:349-351 | the scan returns the first gate whose output is the id, or None |
| GateAssignment.CollectPrevs | core_algorithm/utils/gate_assignment.py:355-365 | the loop over the input bits collects exactly the declarative predecessors |
| GateAssignment.CollectDrivers | core_algorithm/utils/gate_assignment.py:357-359 | the gate loop collects the gates whose output is the bit, in order |
| GateAssignment.CollectOutputs | core_algorithm/utils/gate_assignment.py:360-362 | the output loop collects the outputs on the bit, in order |
| GateAssignment.CollectInputs | core_algorithm/utils/gate_assignment.py:363-365 | the input loop collects the inputs on the bit, in order |
| GateAssignment.GreaterTransitive | core_algorithm/utils/gate_assignment.py:254 | comparing (score, name) pairs with `>` is transitive |
| GateAssignment.NotAboveGreater | core_algorithm/utils/gate_assignment.py:254 | a pair not above `c` is not above anything above `c` |
| GateAssignment.UidBucketSnoc | core_algorithm/utils/gate_assignment.py:520-522 | one more gate joins the end of its uid's bucket only |
| GateAssignment.BucketStep | core_algorithm/utils/gate_assignment.py:520-522 | filing one more gate under its uid keeps every bucket exactly the gates with that uid |
| GateAssignment.BucketGet | core_algorithm/utils/gate_assignment.py:520-522 | looking a uid up gives exactly the gates with that uid, or none |
| CelloScore.IOCol | core_algorithm/celloAlgo.py:992-999 | a node's `_I/O` column lies inside the table |
| CelloScore.NameCol | core_algorithm/celloAlgo.py:1013 | a node's name column lies inside the table |
| CelloScore.ColumnKinds | core_algorithm/utils/gate_assignment.py:28-30 | a node's `_I/O` column is an `_I/O` column and its name column is not |
| CelloScore.ColumnLabels | core_algorithm/utils/gate_assignment.py:28-30 | the label at a node's `_I/O` column is its name plus `_I/O`, and at its name column its name |
| CelloScore.LabelLookupIsPosition | core_algorithm/celloAlgo.py:999 | with distinct labels, `labels.index(name + '_I/O')` and `labels.index(name)` find exactly those two columns |
| CelloScore.FillIO | core_algorithm/celloAlgo.py:1037-1087 | a filled row keeps the table width, and reaching an Input raises NameError |
| CelloScore.Memo | core_algorithm/celloAlgo.py:1050-1054 | a predecessor whose cell is already filled leaves the row as it is |
| CelloScore.FillEach | core_algorithm/celloAlgo.py:1048-1055 | on success one collected value per predecessor, and the row keeps its width |
| CelloScore.ConsistentBits | core_algorithm/celloAlgo.py:1056-1070 | a filled cell of a row that follows the gate logic holds a bit |
| CelloScore.ConsistentFill | core_algorithm/celloAlgo.py:1071-1072 | writing a node's empty cell keeps a consistent row consistent when the node's own rule holds afterwards, and changes no filled cell |
| CelloScore.FillSound | core_algorithm/celloAlgo.py:1037-1087 | filling a node keeps a consistent row consistent, keeps every filled cell, writes only `_I/O` columns and fills the node |
| CelloScore.FillOutputSound | core_algorithm/celloAlgo.py:1074-1082 | filling an output copies its driving gate's bit and keeps the row consistent |
| CelloScore.FillNorSound | core_algorithm/celloAlgo.py:1047-1059 | a NOR gate's cell becomes 1 exactly when it has two predecessors both 0, and the row stays consistent |
| CelloScore.FillNotSound | core_algorithm/celloAlgo.py:1060-1070 | a NOT gate's cell becomes the negation of its predecessor's bit, and the row stays consistent |
| CelloScore.MemoSound | core_algorithm/celloAlgo.py:1050-1054 | the fill-if-empty step keeps the row consistent and leaves the predecessor filled |
| CelloScore.FillEachSound | core_algorithm/celloAlgo.py:1048-1055 | after the NOR loop each predecessor is filled and its collected value is its cell |
| CelloScore.Levels | core_algorithm/celloAlgo.py:1006-1012 | input k of row r is switched to the level of r's digit k |
| CelloScore.FreshRowCells | core_algorithm/utils/gate_assignment.py:25 | a fresh row holds the index's digits in the input columns and None everywhere else |
| CelloScore.SwitchInputsCells | core_algorithm/celloAlgo.py:1006-1015 | switching writes input k's name cell with its out score at its level, and nothing else |
| CelloScore.SwitchedConsistent | core_algorithm/celloAlgo.py:1006-1015 | a switched row follows the gate logic and its inputs hold the row index's digits |
| CelloScore.FillOutputs | core_algorithm/celloAlgo.py:1089-1100 | a failure while filling any output becomes RecursionError |
| CelloScore.FillOutputsSound | core_algorithm/celloAlgo.py:1089-1100 | after the output loop every output holds a bit, the row is consistent and no filled cell changed |
| CelloScore.ScoreOutputs | core_algorithm/celloAlgo.py:1102-1111 | the output-score loop keeps the row width and the recorded choices per gate |
| CelloScore.GateColumnsKeepIO | core_algorithm/celloAlgo.py:1113-1115 | the gate loop writes each gate's name cell with its recorded score and keeps every `_I/O` cell |
| CelloScore.ConsistentIO | core_algorithm/celloAlgo.py:1113-1115 | consistency depends only on the `_I/O` cells |
| CelloScore.ScoreOutputsKeepIO | core_algorithm/celloAlgo.py:1102-1111 | scoring the outputs changes no `_I/O` cell |
| CelloScore.RowStep | core_algorithm/celloAlgo.py:1002-1115 | one row keeps the table width and the recorded choices per gate |
| CelloScore.RowStepSound | core_algorithm/celloAlgo.py:1002-1115 | every row that scores follows the gate logic, every output holds a bit, and the inputs hold the row index's digits |
| CelloScore.NoChoices | core_algorithm/utils/gate_assignment.py:202 | no gate has recorded a best score yet |
| CelloScore.ScoreRows | core_algorithm/celloAlgo.py:1001-1115 | one row per index, each of the table width |
| CelloScore.ScoreRowsSound | core_algorithm/celloAlgo.py:1001-1115 | every scored row follows the gate logic, its outputs hold bits, and its inputs hold its index's digits |
| CelloScore.Partition | core_algorithm/celloAlgo.py:1131-1134 | a KeyError exactly when some row's output cell is not 0 or 1; otherwise every row lands in one of the two lists |
| CelloScore.PartitionMembers | core_algorithm/celloAlgo.py:1131-1134 | the ON list is non-empty exactly when some row's output bit is 1, and the OFF list when some is 0 |
| CelloScore.Scores | core_algorithm/celloAlgo.py:1136-1143 | the values of a column as reals, or TypeError when some cell is not a score |
| CelloScore.MinOf | core_algorithm/celloAlgo.py:1136-1137 | `min` returns an element no greater than any other |
| CelloScore.MaxOf | core_algorithm/celloAlgo.py:1137 | `max` returns an element no smaller than any other |
| CelloScore.OutputScore | core_algorithm/celloAlgo.py:1135-1143 | min(ON)/max(OFF) when both are non-empty and the divisor is not zero; else max(OFF); else max(ON); ValueError only when both are empty |
| CelloScore.RatioIsWorstCase | core_algorithm/celloAlgo.py:1135-1137 | with positive values the ratio score is the worst ON-to-OFF ratio and is attained by one pair |
| CelloScore.OutputValues | core_algorithm/celloAlgo.py:1128-1143 | one score per output in order, or the failure of some output |
| CelloScore.CircuitScore | core_algorithm/celloAlgo.py:1171 | the circuit score is one of the output scores and at most each of them; no output gives ValueError |
| CelloScore.AttachOne | core_algorithm/celloAlgo.py:973-977 | every gate named by the group gets the variant, every other gate is unchanged |
| CelloScore.Attach | core_algorithm/celloAlgo.py:973-977 | attaching keeps the gate count |
| CelloScore.AttachMembers | core_algorithm/celloAlgo.py:973-977 | after attachment a gate keeps its name, type and ports, and its variants are its old ones plus exactly those listed for its group |
| CelloScore.WithVariants | core_algorithm/celloAlgo.py:959-977 | attaching variants keeps the node counts |
| CelloScore.ScoreCircuitSound | core_algorithm/celloAlgo.py:830-1184 | a scored circuit has one row per input combination, each consistent with the gate logic, and a score at most every output's score and equal to one |
| CelloScore.ReductionHasBits | core_algorithm/celloAlgo.py:1131-1134 | a scored table never meets an output `_I/O` value other than 0 or 1, so the reduction raises no KeyError |
| CelloScore.FillOutputsErr | core_algorithm/celloAlgo.py:1089-1100 | once an output fails, the output loop fails |
| CelloScore.ScoreOutputsErr | core_algorithm/celloAlgo.py:1102-1111 | once an output fails to score, the loop ends with that failure |
| CelloScore.ScoreRowsErr | core_algorithm/celloAlgo.py:1002-1115 | once a row fails, the table fails with its error |
| CelloScore.OutputValuesErr | core_algorithm/celloAlgo.py:1128-1143 | once an output fails, the reduction fails with its error |
| CelloScore.AttachVariants | core_algorithm/celloAlgo.py:973-977 | the loop over `gate_ids` attaches each pair's variant to its group's gates |
| CelloScore.SwitchRow | core_algorithm/celloAlgo.py:1006-1015 | the input loop of a row writes the switched row and yields each input's level |
| CelloScore.FillRow | core_algorithm/celloAlgo.py:1089-1100 | the output loop fills every output or fails with RecursionError |
| CelloScore.ScoreRowOutputs | core_algorithm/celloAlgo.py:1102-1111 | the output-score loop gives the declarative output scoring |
| CelloScore.CopyGateScores | core_algorithm/celloAlgo.py:1113-1115 | the gate loop gives the declarative gate columns |
| CelloScore.ScoreRow | core_algorithm/celloAlgo.py:1002-1115 | one row in place gives the declarative row step |
| CelloScore.ReduceOutput | core_algorithm/celloAlgo.py:1128-1143 | one output's reduction gives the declarative output score |
| CelloScore.ScoreRowsStep | core_algorithm/celloAlgo.py:1002-1115 | one more row either fails the table with its error or is appended |
| CelloScore.ScoreTable | core_algorithm/celloAlgo.py:1001-1115 | the row loop over a fresh table gives the declarative rows |
| CelloScore.ReduceAll | core_algorithm/celloAlgo.py:1127-1143 | the loop over the outputs gives the declarative output scores |
| CelloScore.ScoreCircuit | core_algorithm/celloAlgo.py:830-1184 | `score_circuit` step by step gives the declarative circuit score, table, labels and each gate's recorded `best_score` / `gate_in_use` |
| CelloScore.ScoreCircuitInUse | core_algorithm/celloAlgo.py:1101-1115 | the `gate_in_use` and `best_score` left on each gate are the pick of `eval_gates` for that gate, and the last row of the table shows that pick's score in the gate's name column |
| CelloScore.InputNames | core_algorithm/celloAlgo.py:992-999 | one name per input node, in order |
| CelloScore.GateNames | core_algorithm/celloAlgo.py:992-999 | one name per gate node, in order |
| CelloScore.OutputNames | core_algorithm/celloAlgo.py:992-999 | one name per output node, in order |
| CelloScore.IndexOfDistinct | core_algorithm/celloAlgo.py:992-999 | among distinct column names, looking up a column's own name finds that column |
| CelloScore.IOColInjective | core_algorithm/celloAlgo.py:992-999 | two nodes with the same `_I/O` column are the same node |
| CelloScore.NodeConsistentExtends | core_algorithm/celloAlgo.py:1037-1087 | a filled node whose rule holds keeps holding when the row only gains cells |
| CelloScore.FillPostTrans | core_algorithm/celloAlgo.py:1037-1087 | two fills one after another keep every promise of a single fill |
| CelloScore.StackStep | core_algorithm/celloAlgo.py:1037-1087 | filling one more gate from a row that already met the promise with that gate on the stack meets the promise without it |
| CelloScore.ScoreRowsNext | core_algorithm/celloAlgo.py:1002-1115 | one more row either fails the whole table with its error or is appended with its new choices |
| CelloScore.ScoreRowsLast | core_algorithm/celloAlgo.py:1002-1115 | the last row of a scored table is the row step on the choices of the rows before it |
| CelloScore.ScoreRowsKeep | core_algorithm/celloAlgo.py:1002-1115 | a later row never changes an earlier one |
| CelloScore.ScoredRowSound | core_algorithm/celloAlgo.py:1002-1115 | every row of a scored table is sound for its index |
| CelloScore.OutputValuesNext | core_algorithm/celloAlgo.py:1128-1143 | one more output either fails the reduction with its error or appends its score |
| CelloScore.DivMonotone | core_algorithm/celloAlgo.py:1136-1137 | a smaller numerator over a larger positive denominator gives a smaller ratio |
| CelloAlgo.GatesMatch | core_algorithm/celloAlgo.py:482-496 | `max_instances` of the first available gate is read only when structure, model and gate counts agree (IndexError when there is none), and the gates match exactly when the counts agree and it covers the netlist's gates |
| CelloAlgo.CheckConditions | core_algorithm/celloAlgo.py:393-530 | the condition check passes exactly when the netlist is valid and inputs, outputs and gates all match; a count is reported exactly when it passes, and it is the `permute_count_helper` count, within the complexity limit in the core copy |
| CelloAlgo.CheckConditionsErrors | core_algorithm/celloAlgo.py:495-528 | each exception of the condition check, both ways round: IndexError for no available gate, TypeError for formatting None verbosely, RecursionError when the counts do not fit, a bare Exception past ten trillion assignments |
| CelloAlgo.CheckFewerSensorsThanInputs | core_algorithm/celloAlgo.py:420-423 | the input check compares parts, not sensors, with the netlist's inputs, so a UCF with fewer sensors than needed inputs passes it |
| CelloAlgo.Without | core_algorithm/celloAlgo.py:617-622 | dropping one position keeps the other elements in order |
| CelloAlgo.Prepend | core_algorithm/celloAlgo.py:617-622 | each selection gets the chosen element in front |
| CelloAlgo.PermsLength | core_algorithm/utils/cello_helpers.py:85 | `itertools.permutations(xs, k)` yields math.perm(len(xs), k) selections |
| CelloAlgo.PermsFromLength | core_algorithm/utils/cello_helpers.py:85 | the selections starting at position i or later number (len(xs) - i) times math.perm(len(xs) - 1, k - 1) |
| CelloAlgo.PermsFromCount | core_algorithm/celloAlgo.py:617-622 | the selections starting at position i come before those starting later |
| CelloAlgo.PermsShape | core_algorithm/celloAlgo.py:617-622 | every selection has k elements of the list, all different when the list has no repeats |
| CelloAlgo.PermsFromShape | core_algorithm/celloAlgo.py:617-622 | the same for the selections starting at position i or later |
| CelloAlgo.PrependShaped | core_algorithm/celloAlgo.py:617-622 | an element in front of a selection from the rest of the list is a selection from the list |
| CelloAlgo.WithoutShape | core_algorithm/celloAlgo.py:617-622 | the rest of the list holds only its elements and, without repeats, not the dropped one |
| CelloAlgo.Ceil | celloAlgo.py:451-453 | `math.ceil(x)` is the least integer not below x |
| CelloAlgo.Slot | core_algorithm/celloAlgo.py:745-747 | the core copy picks floor(x), the older copy ceil(x) - 1 |
| CelloAlgo.Decode | core_algorithm/celloAlgo.py:741-747 | without permutation lists the probe is used as given; with them each coordinate indexes its list (negative indices included), IndexError off the end, TypeError for a tuple; a decoded candidate's parts come from the lists |
| CelloAlgo.CoreDecodeInRange | core_algorithm/celloAlgo.py:745-747 | a coordinate in [0, n) selects its floor's permutation |
| CelloAlgo.CoreDecodeAtUpperBound | core_algorithm/celloAlgo.py:631-635 | the optimiser's closed bounds include n, where the core decoding raises IndexError |
| CelloAlgo.LegacyDecodeInBounds | celloAlgo.py:450-453 | the older decoding accepts all of [0, n]; a coordinate of 0 wraps to the last permutation |
| CelloAlgo.SetOf | core_algorithm/celloAlgo.py:768 | `set(xs)` holds exactly the elements of xs |
| CelloAlgo.SetOfSize | core_algorithm/celloAlgo.py:768 | `len(set(xs))` is at most `len(xs)`, and equal exactly when xs has no repeats |
| CelloAlgo.CountedIffDistinct | core_algorithm/celloAlgo.py:768 | for a candidate of the netlist's shape the uniqueness filter keeps exactly those with no name chosen twice |
| CelloAlgo.Bind | core_algorithm/celloAlgo.py:776-787 | `map_helper` pairs names with nodes up to the shorter list |
| CelloAlgo.BindNames | core_algorithm/celloAlgo.py:776-787 | a candidate of the netlist's shape names every node in order and keeps ids, gate types and ports |
| CelloAlgo.VariantsKeepWiring | core_algorithm/celloAlgo.py:972-977 | attaching variants keeps the wiring |
| CelloAlgo.GatesDrivingSame | core_algorithm/utils/gate_assignment.py:340-372 | which gates drive a wire depends only on the gates' output wires |
| CelloAlgo.OutputsWithIdSame | core_algorithm/utils/gate_assignment.py:340-372 | which outputs sit on a wire depends only on their ids |
| CelloAlgo.InputsWithIdSame | core_algorithm/utils/gate_assignment.py:340-372 | which inputs sit on a wire depends only on their ids |
| CelloAlgo.PrevNodesSame | core_algorithm/utils/gate_assignment.py:340-372 | the predecessors of a list of wires are the same in two graphs with the same wiring |
| CelloAlgo.FirstDriverSame | core_algorithm/utils/gate_assignment.py:340-372 | the first gate driving a wire is the same in two graphs with the same wiring |
| CelloAlgo.PrevOfSameWiring | core_algorithm/utils/gate_assignment.py:340-372 | `find_prev` gives the same answer for any assignment of names to the same netlist |
| CelloAlgo.Record | core_algorithm/celloAlgo.py:816-824 | recording keeps the count, never lowers the best score, reaches at least the new score and keeps every kept assignment at the best score |
| CelloAlgo.WithScoreNone | core_algorithm/celloAlgo.py:816-824 | when every score is below x none is kept at x |
| CelloAlgo.RecordAllClosedForm | core_algorithm/celloAlgo.py:816-824 | after a sequence of scores the best is the maximum of the old best and those scores, and the kept list is every assignment reaching it, in order, after the old list when the old best still stands |
| CelloAlgo.StepUndecoded | core_algorithm/celloAlgo.py:741-747 | a probe that does not decode raises before anything changes |
| CelloAlgo.StepSkipped | core_algorithm/celloAlgo.py:768 | a candidate that repeats a name returns the negated best and changes nothing |
| CelloAlgo.StepScoreFails | core_algorithm/celloAlgo.py:768-789 | a counted candidate whose scoring raises has already raised the count |
| CelloAlgo.AssessCounted | core_algorithm/celloAlgo.py:776-789 | a counted candidate comes to what scoring its bound graph gives |
| CelloAlgo.AssessDivides | core_algorithm/celloAlgo.py:794 | the progress bar divides by `max_fun`, so a zero budget fails every counted candidate |
| CelloAlgo.AssessScored | core_algorithm/celloAlgo.py:787-789 | a scored candidate is kept with its graph, table, labels and each gate's `gate_in_use`, which is the pick of `eval_gates` for that gate |
| CelloAlgo.AssessPicked | core_algorithm/celloAlgo.py:787-789 | any probe that comes to a scored assignment records the picks of `eval_gates` on its gates |
| CelloAlgo.RunPicked | core_algorithm/celloAlgo.py:816-828 | a run keeps only assignments whose gates record the picks of `eval_gates` |
| CelloAlgo.ApplyScored | core_algorithm/celloAlgo.py:769-828 | a scored assignment raises the count by one and is recorded; the optimiser gets the negated new best |
| CelloAlgo.Outcomes | core_algorithm/celloAlgo.py:719-828 | one outcome per probe |
| CelloAlgo.RunSnoc | core_algorithm/celloAlgo.py:693-697 | one more probe is one more `prep_assign_for_scoring` step after the others, unless they raised |
| CelloAlgo.ReplayAppend | core_algorithm/celloAlgo.py:693-697 | replaying two runs of outcomes is replaying the first and then the second |
| CelloAlgo.RunAppend | core_algorithm/celloAlgo.py:693-697 | running two lists of probes is running the first, then the second unless the first raised |
| CelloAlgo.RunAppendErr | core_algorithm/celloAlgo.py:693-697 | nothing runs after an exception |
| CelloAlgo.RunNext | core_algorithm/celloAlgo.py:693-697 | one more probe either adds its value or ends the loop with its exception |
| CelloAlgo.ReplayRecords | core_algorithm/celloAlgo.py:769-824 | a run without exception counts each scored assignment once and records them in order |
| CelloAlgo.ReplayValues | core_algorithm/celloAlgo.py:828 | the values handed to the optimiser are the negated running best, never rising, the last one the smallest |
| CelloAlgo.RunOptimal | core_algorithm/celloAlgo.py:816-824 | a run without exception ends with the best of the old best and every score reached, keeping every assignment that reaches it, in the order tried |
| CelloAlgo.OptimiserMinimum | core_algorithm/celloAlgo.py:662 | the minimum the optimiser reports is the negated best, so `best_score = -ret.fun` restores it |
| CelloAlgo.ReplayUniform | core_algorithm/celloAlgo.py:816-824 | replaying keeps every kept assignment at the best score |
| CelloAlgo.RunUniform | core_algorithm/celloAlgo.py:816-824 | a run keeps every kept assignment at the best score |
| CelloAlgo.ScoredOfMembers | core_algorithm/celloAlgo.py:787-789 | every scored outcome's assignment is among the scored assignments |
| CelloAlgo.WithScoreMembers | core_algorithm/celloAlgo.py:816-824 | an assignment is among those with its own score |
| CelloAlgo.RunKeepsBest | core_algorithm/celloAlgo.py:816-824 | a run without exception never loses an assignment reaching the final best |
| CelloAlgo.GateRow | core_algorithm/celloAlgo.py:695-697 | the innermost loop tries each gate permutation with the fixed input and output choices |
| CelloAlgo.OutRowsShape | core_algorithm/celloAlgo.py:694-697 | the middle loop tries m times the gate permutations, each pairing the fixed inputs with one of the first m output permutations and any gate permutation |
| CelloAlgo.AllRowsShape | core_algorithm/celloAlgo.py:693-697 | the outer loop tries m times all output and gate pairs, each with one of the first m input permutations |
| CelloAlgo.ExhaustiveCoverage | core_algorithm/celloAlgo.py:693-697 | the exhaustive search tries math.perm(i_ucf, i) times math.perm(o_ucf, o) times math.perm(g_ucf, g) probes, exactly the permutation triples |
| CelloAlgo.ExhaustiveMatchesCheck | core_algorithm/utils/cello_helpers.py:64-86 | when the condition check passes, the exhaustive search tries exactly the count it reported |
| CelloAlgo.ExhaustiveFindsOptimum | core_algorithm/celloAlgo.py:674-702 | without exception no candidate of the netlist's shape scores above the final best, and every one reaching it is kept |
| CelloAlgo.OutRowsPrefix | core_algorithm/celloAlgo.py:694-697 | the probes of the first b output permutations come first |
| CelloAlgo.AllRowsPrefix | core_algorithm/celloAlgo.py:693-697 | the probes of the first b input permutations come first |
| CelloAlgo.OutRowsErr | core_algorithm/celloAlgo.py:694-697 | once an exception is raised the middle loop stops |
| CelloAlgo.AllRowsErr | core_algorithm/celloAlgo.py:693-697 | once an exception is raised the outer loop stops |
| CelloAlgo.OutRowsStep | core_algorithm/celloAlgo.py:694-697 | one more output permutation appends its gate row |
| CelloAlgo.OutRowsNext | core_algorithm/celloAlgo.py:694-697 | one more output permutation either runs its gate row or the loop has ended with an exception |
| CelloAlgo.AllRowsStep | core_algorithm/celloAlgo.py:693-697 | one more input permutation appends its rows |
| CelloAlgo.AllRowsNext | core_algorithm/celloAlgo.py:693-697 | one more input permutation either runs its rows or the loop has ended with an exception |
| CelloAlgo.AnnealBudget | core_algorithm/celloAlgo.py:623 | `max_fun` is the smaller of the count and the iteration cap |
| CelloAlgo.Points | core_algorithm/celloAlgo.py:627-629 | each optimiser point is one call of the objective |
| CelloAlgo.FirstBest | core_algorithm/celloAlgo.py:593-594 | `max(..., key=score)` returns the first assignment with the highest score |
| CelloAlgo.Cello3.constructor | core_algorithm/celloAlgo.py:123-125 | a new run starts with no count, best score 0 and nothing kept |
| CelloAlgo.Cello3.PrepAssignForScoring | core_algorithm/celloAlgo.py:719-828 | one call in place changes the state and returns as the declarative step does |
| CelloAlgo.Cello3.Evaluate | core_algorithm/celloAlgo.py:741-801 | decoding, filtering, scoring and the progress report come to the declarative outcome |
| CelloAlgo.Cello3.ApplyOutcome | core_algorithm/celloAlgo.py:769-828 | the count, best-score update or exception as the declarative step |
| CelloAlgo.Cello3.KeepIfBest | core_algorithm/celloAlgo.py:816-824 | the in-place update is the declarative recording |
| CelloAlgo.Cello3.ScoreGatePerms | core_algorithm/celloAlgo.py:695-697 | the innermost loop in place is the run of its gate row |
| CelloAlgo.Cello3.ScoreOutputPerms | core_algorithm/celloAlgo.py:694-697 | the middle loop in place is the run of its rows |
| CelloAlgo.Cello3.ExhaustiveAssign | core_algorithm/celloAlgo.py:674-702 | `exhaustive_assign` is the run of every permutation triple, keeps the kept list at the best score and returns it, or the exception |
| CelloAlgo.Cello3.ScoreProbes | core_algorithm/celloAlgo.py:639 | the optimiser's calls in place are the run of its probes |
| CelloAlgo.Cello3.SimulatedAnnealingAssign | core_algorithm/celloAlgo.py:596-672 | the run of the optimiser's probes, then the best score reset to the negated minimum, which leaves it unchanged |
| CelloAlgo.Cello3.Techmap | core_algorithm/celloAlgo.py:532-594 | the search the settings choose, then the first assignment with the highest score, whose gates carry the `gate_in_use` picked by `eval_gates`, or an empty result when none was kept |
| CelloAlgo.Cello3.ScoreInputPerms | core_algorithm/celloAlgo.py:693-697 | the outer loop over the input permutations leaves the search state and result the declarative run of all their probes gives |
| CelloAlgo.WithScore | core_algorithm/celloAlgo.py:693-697 | the kept assignments all carry the given score and come from those found |
| CelloAlgo.ConsDistinct | core_algorithm/celloAlgo.py:693-697 | putting a new element in front of distinct elements keeps them distinct |
| DesignsToOutputs.Conversions | bin/designs_to_outputs.py:49-63 | one conversion result per part name, in order |
| DesignsToOutputs.ConvertAllFirstErr | bin/designs_to_outputs.py:49-63 | converting the parts one after another fails with the first failing part, else gives all conversions |
| DesignsToOutputs.AllKeyedSpec | bin/designs_to_outputs.py:68-72 | all collections are keyed exactly when each one is |
| DesignsToOutputs.CollectionDictAllKeyed | bin/designs_to_outputs.py:68-72 | the dict is built exactly when every collection is keyed |
| DesignsToOutputs.RowsNext | bin/designs_to_outputs.py:287-299 | one more input pair sets its roots on the previous nodes and either fails the loop or appends its non-empty row |
| Wrappers.FirstErrSpec | bin/designs_to_outputs.py:49-63 | a run of results succeeds exactly when each does, and then gives each value in order |
| CelloHelpers.Factorial | core_algorithm/utils/cello_helpers.py:77 | n! is at least 1 |
| CelloHelpers.PyFactorial | core_algorithm/utils/cello_helpers.py:77 | the recursive lambda returns n! exactly when n is not negative, and a negative argument ends in RecursionError |
| CelloHelpers.MathPerm | core_algorithm/utils/cello_helpers.py:85 | math.perm(n, k) is 0 when k exceeds n and positive otherwise |
| CelloHelpers.PartialFactorialIsPerm | core_algorithm/utils/cello_helpers.py:78-82 | partial_factorial(n, n-k) equals math.perm(n, k) for every k up to n |
| CelloHelpers.PartialFactorialRatio | core_algorithm/utils/cello_helpers.py:78-84 | partial_factorial(n, m) times m! is n!, so the product and the factorial ratio agree |
| CelloHelpers.PartialFactorialOverrun | core_algorithm/utils/cello_helpers.py:78-82 | with a negative lower bound (netlist needs more than the UCF has) the product runs through 0 and is 0 |
| CelloHelpers.FactorialRatio | core_algorithm/utils/cello_helpers.py:83-84 | factorial(n) / factorial(n-k) is the float of math.perm(n, k) when k <= n, and RecursionError otherwise |
| CelloHelpers.PermuteCountParts | core_algorithm/utils/cello_helpers.py:80-85 | each of the three partial factorials equals the matching math.perm |
| CelloHelpers.PermuteCountHelper | core_algorithm/utils/cello_helpers.py:64-86 | succeeds exactly when every netlist count fits its UCF count (RecursionError otherwise); the total is the product of the three math.perm values and the averaged confirmation equals it |
| CelloHelpers.PermuteCountAllUsed | core_algorithm/utils/cello_helpers.py:64-86 | when the netlist uses every UCF input, gate and output, the total is i! * g! * o! |
| CelloHelpers.PermuteCountExample | core_algorithm/utils/cello_helpers.py:64-86 | the counts (4, 2, 12) against the same UCF counts give 4! * 12! * 2! and the same confirmation |
| CelloHelpers.QueryFilter | core_algorithm/utils/cello_helpers.py:97-101 | a dict is in the result exactly when it is in the input and holds the key with a value among vals; the result is no longer than the input |
| CelloHelpers.QueryFilterAppend | core_algorithm/utils/cello_helpers.py:97-101 | filtering a concatenation is the concatenation of the filtered parts, so input order is kept |
| CelloHelpers.QueryFilterIdempotent | core_algorithm/utils/cello_helpers.py:97-101 | filtering an already filtered list changes nothing |
| CelloHelpers.QueryHelper | core_algorithm/utils/cello_helpers.py:89-104 | the loop returns exactly the matching dicts in input order; the identity test on the empty result never fires |
| LegacyCelloHelpers.PermuteCountHelper | utils/cello_helpers.py:63-85 | the older copy: the same success condition, RecursionError, total and confirmation |
| LegacyCelloHelpers.QueryHelper | utils/cello_helpers.py:88-102 | the older loop keeps exactly the matching dicts, in order |
| CelloHelpers.QueryFilterNext | core_algorithm/utils/cello_helpers.py:97-101 | one more dict joins the end of the result exactly when it matches |
| CelloHelpers.QueryFilterOne | core_algorithm/utils/cello_helpers.py:97-101 | a single dict is kept exactly when it matches |
| PyInt.LStripSpaces | core_algorithm/utils/dna_design.py:51 | the strip before `int` parses removes only whitespace (Python's `isspace` set, Unicode spaces included), and all of the leading whitespace |
| PyInt.RStripSpaces | core_algorithm/utils/dna_design.py:51 | the strip before `int` parses removes only whitespace (Python's `isspace` set, Unicode spaces included), and all of the trailing whitespace |
| PyInt.StripNoSpace | core_algorithm/utils/dna_design.py:51 | stripping a text without any `isspace` character leaves it as it is |
| PyInt.ParseIntChars | core_algorithm/utils/dna_design.py:51 | text that `int` accepts is made only of whitespace, signs, underscores, digits of the base and, in base 16, `x` |
| PyInt.ParseIntRejectsHash | core_algorithm/utils/dna_design.py:50-54 | `int(s, 16)` raises on an empty text and on any text holding `#`, so `#`-prefixed colours take the fallback |
| PyInt.ParseIntEmpty | core_algorithm/utils/dna_design.py:51 | `int("")` raises |
| PyInt.HashNotIntChar | core_algorithm/utils/dna_design.py:51-52 | text `int` accepts holds no `#` |
| PyInt.PlainHex | core_algorithm/utils/dna_design.py:51 | hexadecimal digits without a `0x` prefix parse to their value |
| PyInt.ParseSignedDigits | core_algorithm/utils/py4j_gateway/run_eugene_script.py:61 | decimal digits, with or without a leading `-`, parse to their value or its negation |
| PyInt.ParseIntToString | core_algorithm/utils/py4j_gateway/run_eugene_script.py:61 | `int(str(i)) == i` for every integer |
| PyStr.Split | core_algorithm/utils/py4j_gateway/run_eugene_script.py:57 | `split` gives at least one piece, none holding the separator |
| PyStr.JoinSplit | core_algorithm/utils/py4j_gateway/run_eugene_script.py:57 | joining the pieces of a split with the separator gives the text back |
| PyStr.SplitJoin | core_algorithm/utils/py4j_gateway/run_eugene_script.py:57 | splitting pieces joined by a separator they lack gives the pieces back |
| PyStr.Words | utils/eugene.py:354 | `split()` gives only non-empty words, split at every `isspace` character (ASCII controls, NEL, no-break and Unicode spaces) |
| PyStr.WordsNoSpace | utils/eugene.py:354 | the words of `split()` hold no `isspace` character, Unicode spaces included |
| PyStr.NatToString | utils/eugene.py:458 | `str` of a natural number is non-empty decimal digits with no leading zero |
| PyStr.ParseNatToString | utils/eugene.py:458 | the printed digits of a natural number read back as it |
| PyStr.NatToStringInjective | utils/eugene.py:458 | different numbers print differently |
| PyStr.IntToString | core_algorithm/utils/py4j_gateway/run_eugene_script.py:61 | `str` of an integer is non-empty and made of digits and `-` |
| PyStr.StrLtIrreflexive | core_algorithm/utils/gate_assignment.py:254 | Python's `<` on strings is irreflexive |
| PyStr.StrLtTransitive | core_algorithm/utils/gate_assignment.py:254 | Python's `<` on strings is transitive |
| PyStr.StrLtTotal | core_algorithm/utils/gate_assignment.py:254 | two different strings are ordered one way or the other |
| PyStr.FindFrom | core_algorithm/utils/py4j_gateway/run_eugene_script.py:56 | a match found from a position is one, and none found means there is none from there |
| PyStr.ContainsStr | core_algorithm/utils/py4j_gateway/run_eugene_script.py:56 | `sub in s` holds exactly when `sub` occurs in `s` |
| PyStr.PyIndex | bin/ucf_to_csv.py:88 | `xs[i]` succeeds exactly for `-len(xs) <= i < len(xs)`, counting negative indices from the end |
| PyStr.IndexOf | core_algorithm/celloAlgo.py:1130 | `list.index` gives the first position holding the value, or raises ValueError when there is none |
| PyStr.DistinctSnoc | core_algorithm/utils/ucf_class.py:46 | a list is duplicate-free exactly when its front is and its last item is new |
| Ucf.JoinEndsWith | core_algorithm/utils/ucf_class.py:54 | a joined path ends as its last component does |
| Ucf.JoinKeepsRelative | core_algorithm/utils/ucf_class.py:54 | joining onto a relative name keeps the whole name at the end |
| Ucf.NotRooted | core_algorithm/utils/ucf_class.py:54 | a relative name stays relative when an extension not starting with `/` is added |
| Ucf.TagsPrefixStep | core_algorithm/utils/ucf_class.py:46 | one more entry with a tag keeps the tag scan successful |
| Ucf.PyEqEquivalence | core_algorithm/utils/ucf_class.py:32-33 | Python's `==` on the UCF values is reflexive, symmetric and transitive |
| UcfToCsv.OpensAppend | bin/ucf_to_csv.py:79-88 | the openings of two header runs add up |
| UcfToCsv.OpensPlain | bin/ucf_to_csv.py:68-70 | plain headers open no group |
| UcfToCsv.DictItemsInit | bin/ucf_to_csv.py:79-80 | the items of a list of non-empty dicts stay so without the last |
| UcfToCsv.EncodesAppend | bin/ucf_to_csv.py:87 | header texts encode their headers run by run |
| UcfToCsv.ItemHeadersMarked | bin/ucf_to_csv.py:81-86 | one item's header texts encode its keys, the first opening the item |
| UcfToCsv.EncodesClose | bin/ucf_to_csv.py:88 | appending `;` to the last text closes its header and keeps the others |
| UcfToCsv.MarkedUnmarked | bin/ucf_to_csv.py:81-86 | the decoded header names carry no marker when the keys carry none |
| Ucf.WithJson | core_algorithm/utils/ucf_class.py:54-56 | the name ends in `.json`, starts with the given name, and is unchanged when it already ends in `.json` |
| Ucf.WithJsonIdempotent | core_algorithm/utils/ucf_class.py:54-56 | adding the `.json` suffix twice is adding it once |
| Ucf.CorePaths | core_algorithm/utils/ucf_class.py:54-57 | three paths, each ending in `.json`; a relative UCF file name already ending in `.json` ends the first path |
| Ucf.LegacyPaths | utils/ucf_class.py:44-47 | three paths, ending in `<name>.UCF.json`, `<name>.input.json` and `<name>.output.json` |
| Ucf.OldestPaths | ucf_class.py:33-35 | three paths, ending in the same three library file names |
| Ucf.JoinRelative | core_algorithm/utils/ucf_class.py:54 | os.path.join puts exactly one `/` between a directory without a trailing slash and a relative name |
| Ucf.OldestPathsPlain | ucf_class.py:33-35 | for a directory without a trailing slash and a relative name, the paths are the directory, `/`, and the three file names |
| Ucf.UcfNameStripsSuffix | core_algorithm/utils/ucf_class.py:24 | the UCF name drops a `.UCF` suffix and otherwise keeps the file name |
| Ucf.JoinAllPlain | utils/ucf_class.py:44 | joining non-empty components without `/` one by one is joining them with `/` |
| Ucf.NormalisePlain | utils/ucf_class.py:44 | re-joining the `/`-split of a relative path with no empty component gives it back |
| Ucf.NormaliseDropsRoot | utils/ucf_class.py:44 | the split and re-join drops the leading `/` of an absolute path |
| Ucf.Loaded | core_algorithm/utils/ucf_class.py:58-66 | all paths yield contents exactly when every file parses, and then the contents are the files' own, in path order |
| Ucf.ParseHelper | core_algorithm/utils/ucf_class.py:48-80 | the loop returns the parse specification: FileNotFoundError for a missing file, the three contents when all parse, no contents otherwise |
| Ucf.ParseThree | core_algorithm/utils/ucf_class.py:48-80 | with three paths: an error exactly when a file is missing, contents exactly when all three parse, and those contents are the files' |
| Ucf.Entries | core_algorithm/utils/ucf_class.py:38 | iterating a list gives its items; iterating a number, boolean or null raises TypeError |
| Ucf.TagErrors | core_algorithm/utils/ucf_class.py:39 | `c['collection']` succeeds exactly on a dict with that key and returns its value; otherwise KeyError on a dict and TypeError on anything else |
| Ucf.Tags | core_algorithm/utils/ucf_class.py:46 | the tag list succeeds exactly when every lookup succeeds, and then holds each entry's tag in order |
| Ucf.TagsFirstError | core_algorithm/utils/ucf_class.py:46 | the scan fails with the error of the first entry whose lookup fails |
| Ucf.Collection | core_algorithm/utils/ucf_class.py:114-117 | the collection is no longer than the entries |
| Ucf.CollectionMembers | core_algorithm/utils/ucf_class.py:114-117 | an entry is in the collection exactly when it is among the entries and its tag equals the name |
| Ucf.CollectionStep | core_algorithm/utils/ucf_class.py:114-117 | one more entry scanned grows the collection by that entry exactly when it matches |
| Ucf.CollectionAppend | core_algorithm/utils/ucf_class.py:114-117 | the collection of a concatenation is the concatenation of the collections, so entry order is kept |
| Ucf.CollectionEmpty | core_algorithm/utils/ucf_class.py:114-117 | the collection is empty exactly when no entry has that name |
| Ucf.Query | core_algorithm/utils/ucf_class.py:107-118 | a value that cannot be iterated gives TypeError; otherwise the scan of its entries |
| Ucf.FilterEntries | core_algorithm/utils/ucf_class.py:114-117 | the loop returns the first lookup error, or else the matching entries in order |
| Ucf.QueryTopLevelCollection | core_algorithm/utils/ucf_class.py:107-118 | returns the query of the UCF for the collection name |
| Ucf.CountEntries | core_algorithm/utils/ucf_class.py:37-42 | the counter ends at the size of the collection, or fails as the scan does |
| Ucf.CountCollection | core_algorithm/utils/ucf_class.py:37-42 | the count is the number of entries the query returns, with the query's error otherwise |
| Ucf.Dedup | core_algorithm/utils/ucf_class.py:46 | `set(...)` keeps no two equal values, invents none, and keeps a representative of every input value |
| Ucf.CollectionNames | core_algorithm/utils/ucf_class.py:44-46 | fails as the tag scan does or with TypeError on an unhashable tag; otherwise distinct names, one equal to every entry's tag |
| Ucf.CountsOf | core_algorithm/utils/ucf_class.py:32-33 | the count dict has exactly the names as keys, in order |
| Ucf.NumEqualDistinct | core_algorithm/utils/ucf_class.py:32-33 | among distinct names, a value equals at most one |
| Ucf.SumCountsStep | core_algorithm/utils/ucf_class.py:37-42 | one more entry adds one to the total for each name its tag equals |
| Ucf.CountOfAbsent | core_algorithm/utils/ucf_class.py:37-42 | a name that equals no tag counts nothing |
| Ucf.CountsCoverEntries | core_algorithm/utils/ucf_class.py:31-33 | the counts of the distinct names add up to the number of entries |
| Ucf.CollectionCounts | core_algorithm/utils/ucf_class.py:31-33 | counts exist only when the main file can be iterated and every entry has a tag |
| Ucf.CollectionCountsCover | core_algorithm/utils/ucf_class.py:31-33 | distinct keys, every entry counted under one key, each count the size of its collection, and the counts sum to the number of entries |
| Ucf.NewUcf | core_algorithm/utils/ucf_class.py:19-35 | a missing file raises; an invalid UCF has only the broken count; a valid one holds the three non-null contents and the collection counts of the main file |
| Ucf.NewUcfValid | core_algorithm/utils/ucf_class.py:29-30 | with the three files present, the UCF is valid exactly when each parses to a non-null value |
| Ucf.KeyLists | core_algorithm/utils/ucf_class.py:98-101 | one key list per entry |
| Ucf.KeyListsStep | core_algorithm/utils/ucf_class.py:98-101 | one more entry scanned adds its key list exactly when it matches |
| Ucf.KeyListsMembers | core_algorithm/utils/ucf_class.py:98-101 | a key list appears exactly when some entry has those keys |
| Ucf.Unique | core_algorithm/utils/ucf_class.py:102-103 | `list(set(...))` has no duplicates and the same members as its input |
| Ucf.KeyListsOfEntries | core_algorithm/utils/ucf_class.py:98-101 | the loop returns the key lists of the matching entries, or the scan's error |
| Ucf.ListCollectionParameters | core_algorithm/utils/ucf_class.py:91-104 | returns the parameter lists of the named collection |
| Ucf.ListParamsDistinct | core_algorithm/utils/ucf_class.py:91-104 | no parameter list twice, and a list appears exactly when some entry of the collection has exactly those keys in that order |
| DnaDesign.Slice | core_algorithm/utils/dna_design.py:56 | `s[i:j]` is never longer than j - i and is the plain slice when j is within the string |
| DnaDesign.LStripChar | core_algorithm/utils/dna_design.py:52 | `lstrip('#')` returns a suffix of its input |
| DnaDesign.LStripCharAbsent | core_algorithm/utils/dna_design.py:52 | a value without `#` is left unchanged |
| DnaDesign.HundredthsNearest | core_algorithm/utils/dna_design.py:56 | the rounded hundredths lie strictly within half a hundredth of byte/255 |
| DnaDesign.FracDigitsValue | core_algorithm/utils/dna_design.py:58 | `str` of the rounded float prints one or two decimal digits that denote the hundredths, with no superfluous trailing zero |
| DnaDesign.HexPair | core_algorithm/utils/dna_design.py:56 | two hexadecimal digits parse to 16 * high + low, which is below 256 |
| DnaDesign.ChannelHex | core_algorithm/utils/dna_design.py:56-57 | a channel over two hexadecimal digits is the rendering of their byte |
| DnaDesign.SixHexDigits | core_algorithm/utils/dna_design.py:44-58 | six hexadecimal digits give the three channels, at offsets 0, 2 and 4, joined by `;` |
| DnaDesign.HexToRgbParsed | core_algorithm/utils/dna_design.py:50-58 | once `int(s, 16)` accepts a value without `#`, the result is its three channels joined by `;` |
| DnaDesign.HexRejected | core_algorithm/utils/dna_design.py:50-55 | a non-string, the empty string and anything holding `#` come out black |
| DnaDesign.BlahNotHex | core_algorithm/utils/dna_design.py:51 | `int('blah', 16)` raises |
| DnaDesign.HexBlah | core_algorithm/utils/unit_tests/dna_design_unit_tests.py:25 | 'blah' comes out black |
| DnaDesign.DecimalSmall | core_algorithm/utils/dna_design.py:58 | a value below one prints as `0.` and its fraction digits |
| DnaDesign.FloatStrSmall | core_algorithm/utils/dna_design.py:56-58 | a channel below one prints as `0.` and the digits of its hundredths |
| DnaDesign.BlackWhiteText | core_algorithm/utils/dna_design.py:56-58 | bytes 0 and 255 print as `0.0` and `1.0` |
| DnaDesign.TealText | core_algorithm/utils/dna_design.py:56-58 | bytes 59, 173 and 184 print as `0.23`, `0.68` and `0.72` |
| DnaDesign.HexBlack | core_algorithm/utils/unit_tests/dna_design_unit_tests.py:19 | '000000' gives '0.0;0.0;0.0' |
| DnaDesign.HexWhite | core_algorithm/utils/unit_tests/dna_design_unit_tests.py:20 | 'FFFFFF' gives '1.0;1.0;1.0' |
| DnaDesign.HexTeal | core_algorithm/utils/unit_tests/dna_design_unit_tests.py:21 | '3badb8' gives '0.23;0.68;0.72' |
| DnaDesign.KeepOperands | core_algorithm/utils/dna_design.py:113 | a word is an operand exactly when it is a word of the rule, not a keyword and not starting with `[` |
| DnaDesign.Copies | core_algorithm/utils/dna_design.py:118-124 | n copies of the rule, and nothing else |
| DnaDesign.RepeatedCassette | core_algorithm/utils/dna_design.py:119-120 | appending a rule n times to a cassette appends n copies to its circuit rules and changes nothing else |
| DnaDesign.RepeatedPart | core_algorithm/utils/dna_design.py:121-122 | the same for a part |
| DnaDesign.RepeatedLoc | core_algorithm/utils/dna_design.py:123-124 | the same for a location's rule list |
| DnaDesign.AttachCassettes | core_algorithm/utils/dna_design.py:112-124 | after one rule, each cassette gains the rule once per mention among the operands, only when every operand is known; no cassette appears or vanishes |
| DnaDesign.AttachParts | core_algorithm/utils/dna_design.py:112-124 | the same for parts |
| DnaDesign.AttachLocs | core_algorithm/utils/dna_design.py:112-124 | the same for genetic locations |
| DnaDesign.AttachUnknown | core_algorithm/utils/dna_design.py:117 | a rule naming an unknown device changes nothing |
| DnaDesign.WithLocs | core_algorithm/utils/dna_design.py:143-145 | the rules before the location loop stay as a prefix |
| DnaDesign.ContainsRules | core_algorithm/utils/dna_design.py:144-145 | the `CONTAINS <loc>` rule of each location, position by position |
| DnaDesign.WithLocsCovers | core_algorithm/utils/dna_design.py:143-145 | afterwards every location has its `CONTAINS` rule |
| DnaDesign.WithLocsFresh | core_algorithm/utils/dna_design.py:143-145 | every rule added is a `CONTAINS` rule and differs from all rules before it, so none is added twice |
| DnaDesign.ExpandOrderAppend | core_algorithm/utils/dna_design.py:155-165 | expanding an order split in two is expanding both halves and joining the part lists; the first failure wins |
| DnaDesign.AddCircuitsSound | core_algorithm/utils/dna_design.py:150-167 | earlier part lists are kept, no part list is ever held twice, and on success every order's expansion is among them |
| DnaDesign.PaintOne | core_algorithm/utils/dna_design.py:193 | one colouring step keeps the set of part names |
| DnaDesign.PaintParts | core_algorithm/utils/dna_design.py:190-195 | colouring a list keeps the set of part names |
| DnaDesign.PaintAll | core_algorithm/utils/dna_design.py:187-212 | the cassette loop keeps the set of part names |
| DnaDesign.PaintOneOk | core_algorithm/utils/dna_design.py:193 | a step succeeds exactly when no earlier one failed and the name is a part |
| DnaDesign.PaintOneGet | core_algorithm/utils/dna_design.py:193 | a successful step recolours the named part and nothing else |
| DnaDesign.PaintPartsOk | core_algorithm/utils/dna_design.py:190-195 | colouring a list succeeds exactly when every name is a part |
| DnaDesign.PaintPartsGet | core_algorithm/utils/dna_design.py:190-195 | after success, each listed part has the new colour and every other part is unchanged |
| DnaDesign.PaintAllColors | core_algorithm/utils/dna_design.py:187-212 | after success, each part listed by a cassette has the colour of the last cassette listing it (`000000` for an empty colour) and every other part is unchanged |
| DnaDesign.Header | core_algorithm/utils/dna_design.py:318-323 | the header has one cell more than the order has location pads |
| DnaDesign.DesignRow | core_algorithm/utils/dna_design.py:326-333 | a row has one cell more than the order has location pads |
| DnaDesign.DesignRowDna | core_algorithm/utils/dna_design.py:326-333 | the row succeeds exactly when every non-pad part is a sequence, and its cells read in order are the label followed by the order's DNA |
| DnaDesign.DesignRows | core_algorithm/utils/dna_design.py:325-334 | one row per collected part list |
| DnaDesign.DesignRowsAt | core_algorithm/utils/dna_design.py:325-334 | row k is the design row of part list k, numbered k + 1 |
| DnaDesign.DnaSequencesShape | core_algorithm/utils/dna_design.py:317-334 | the file holds the header of the last part list and then one row per part list, each reading as its label and the list's DNA |
| DnaDesign.DnaSequencesMissing | core_algorithm/utils/dna_design.py:330 | a part list naming a part missing from the sequences means nothing is written |
| DnaDesign.ExpandOrderErrStays | core_algorithm/utils/dna_design.py:165 | once a device lookup fails, the expansion of the whole order is that failure |
| DnaDesign.AddCircuitsErrStays | core_algorithm/utils/dna_design.py:150-167 | once an order fails, the rest of the loop does not run |
| DnaDesign.PaintPartsErrStays | core_algorithm/utils/dna_design.py:190-195 | once a part is missing, the rest of the list is not coloured |
| DnaDesign.PaintAllErrStays | core_algorithm/utils/dna_design.py:187-212 | once a cassette fails, the remaining cassettes are not coloured |
| DnaDesign.DesignRowErrStays | core_algorithm/utils/dna_design.py:328-333 | once a part is missing, the row is that failure |
| DnaDesign.DesignRowsErrStays | core_algorithm/utils/dna_design.py:325-334 | once a row fails, writing fails with it |
| DnaDesign.Design.constructor | core_algorithm/utils/dna_design.py:71-86 | holds the given cassettes, sequences, locations and circuit rules, and no part lists yet |
| DnaDesign.Design.AttachOperand | core_algorithm/utils/dna_design.py:118-124 | the rule is appended to whatever the operand names (cassette, part, location), and nothing else changes |
| DnaDesign.Design.AttachRule | core_algorithm/utils/dna_design.py:112-124 | one pass of the rule loop leaves the holders as the declarative attachment; the rule list is unchanged |
| DnaDesign.Design.AttachToOperands | core_algorithm/utils/dna_design.py:118-124 | the operand loop gives the rule to each named holder once per mention |
| DnaDesign.Design.PrepToGetPartOrders | core_algorithm/utils/dna_design.py:98-145 | the holders are the attachment of every circuit rule (names known at the start decide), and the rule list gains the missing `CONTAINS` rules |
| DnaDesign.Design.PartsOf | core_algorithm/utils/dna_design.py:155-165 | returns the order's expansion: a location's pad, a cassette's inputs and components, or a sequence's part name |
| DnaDesign.Design.GetPartOrders | core_algorithm/utils/dna_design.py:148-173 | the rule list gains the EXACTLY rules; a failed call leaves the part lists; otherwise they become the collected expansions, with the first failure returned |
| DnaDesign.Design.PaintList | core_algorithm/utils/dna_design.py:190-195 | the sequences become the declarative colouring of the list; nothing else changes |
| DnaDesign.Design.TransferPartColors | core_algorithm/utils/dna_design.py:181-212 | the sequences become the declarative colouring of every cassette; nothing else changes |
| DnaDesign.Design.HeaderOf | core_algorithm/utils/dna_design.py:318-323 | returns the header of the order |
| DnaDesign.Design.RowOf | core_algorithm/utils/dna_design.py:326-333 | returns the design row of the order |
| DnaDesign.Design.WriteDnaSequences | core_algorithm/utils/dna_design.py:308-334 | returns the rows of the sequences file, or the error that stops it |
| DnaDesign.ChannelsHex | core_algorithm/utils/dna_design.py:56-58 | six hexadecimal digits give three channel bytes below 256, printed at offsets 0, 2 and 4 and joined by `;` |
| DnaDesign.DigitsPair | core_algorithm/utils/dna_design.py:56 | two hexadecimal digits read as one byte, high digit first, below 256 |
| DnaDesign.DigitCharValue | core_algorithm/utils/dna_design.py:58 | a printed decimal digit reads back as itself, and is `0` only for zero |
| DnaDesign.ParseTwoDigits | core_algorithm/utils/dna_design.py:58 | one or two printed decimal digits read as their value |
| DnaDesign.FloatStrIs | core_algorithm/utils/dna_design.py:56-58 | a byte whose rounded hundredths print as given prints as `0.` followed by them |
| DnaDesign.FracDigitsTwo | core_algorithm/utils/dna_design.py:58 | hundredths with two digits and no trailing zero print as those two digits |
| DnaDesign.PaintAllNext | core_algorithm/utils/dna_design.py:187-212 | one more cassette colours its components and then, unless that failed, its outputs |
| DnaDesign.JoinAppendEmpty | core_algorithm/utils/dna_design.py:331-333 | a pad's new empty cell adds nothing to the row's text |
| DnaDesign.JoinExtendLast | core_algorithm/utils/dna_design.py:329-330 | extending the current cell by a part's sequence extends the row's text by it |
| RunEugene.SplitSpace | core_algorithm/utils/py4j_gateway/run_eugene_script.py:57 | a rule containing a space splits into at least two words, so `split(" ")[1]` never raises |
| RunEugene.Ex | core_algorithm/utils/py4j_gateway/run_eugene_script.py:55-58 | the EXACTLY rules are at most one per rule |
| RunEugene.ExAppend | core_algorithm/utils/py4j_gateway/run_eugene_script.py:55-58 | the EXACTLY rules of a concatenation are those of each part, in order |
| RunEugene.ExactlyShaped | core_algorithm/utils/py4j_gateway/run_eugene_script.py:57 | each appended rule has `EXACTLY` as its second word |
| RunEugene.AppendedRulesInert | core_algorithm/utils/py4j_gateway/run_eugene_script.py:56-57 | the rule appended for an appended rule does not itself contain `CONTAINS `, so the growth stops |
| RunEugene.ThreeRoundsFixedPoint | core_algorithm/utils/py4j_gateway/run_eugene_script.py:55-58 | three rounds of appending leave nothing more to append, so the loop over the growing list ends |
| RunEugene.AugmentedFixedPoint | core_algorithm/utils/py4j_gateway/run_eugene_script.py:55-58 | the final list is the original rules followed by the EXACTLY rules of the final list |
| RunEugene.NoSelfExactly | core_algorithm/utils/py4j_gateway/run_eugene_script.py:57 | an appended rule always differs from the rule it came from |
| RunEugene.AugmentRules | core_algorithm/utils/py4j_gateway/run_eugene_script.py:53-58 | the loop over the growing list ends with the augmented rules, and part_count is the number of rules appended |
| RunEugene.AugmentedKeepsRules | core_algorithm/utils/py4j_gateway/run_eugene_script.py:55-58 | the original rules stay as a prefix and every appended rule is an EXACTLY rule |
| RunEugene.LineEnd | core_algorithm/utils/py4j_gateway/run_eugene_script.py:61 | the end of the line: no newline before it, a newline at it when inside the string |
| RunEugene.LastClose | core_algorithm/utils/py4j_gateway/run_eugene_script.py:61 | the last `]` before the limit, or none when there is none |
| RunEugene.BracketFrom | core_algorithm/utils/py4j_gateway/run_eugene_script.py:61 | a match is the text between some `[` and a later `]` on one line |
| RunEugene.EqualsIndex | core_algorithm/utils/py4j_gateway/run_eugene_script.py:61 | reading the bracketed index fails only with TypeError (no match) or ValueError (not an integer) |
| RunEugene.MaxIndexBound | core_algorithm/utils/py4j_gateway/run_eugene_script.py:59-63 | the maximum starts at 0 and is at least the index of every EQUALS rule |
| RunEugene.MaxIndexAttained | core_algorithm/utils/py4j_gateway/run_eugene_script.py:59-63 | a non-zero maximum is the index of some EQUALS rule |
| RunEugene.MaxIndexStep | core_algorithm/utils/py4j_gateway/run_eugene_script.py:59-63 | one more rule keeps the maximum, raises it to a larger index, or fails with that rule's error |
| RunEugene.MaxEqualsIndex | core_algorithm/utils/py4j_gateway/run_eugene_script.py:59-63 | the loop returns the declarative maximum or the first failure |
| RunEugene.MaxIndexErrStays | core_algorithm/utils/py4j_gateway/run_eugene_script.py:59-63 | once a rule fails, the scan fails with that error |
| RunEugene.Reverse | core_algorithm/utils/py4j_gateway/run_eugene_script.py:67 | reversal keeps the length and mirrors the positions |
| RunEugene.ReverseReverse | core_algorithm/utils/py4j_gateway/run_eugene_script.py:67-85 | reversing twice gives the rules back in their original order |
| RunEugene.KeptRows | core_algorithm/utils/py4j_gateway/run_eugene_script.py:92-97 | the kept rows are no more than the rows; the only failure is IndexError |
| RunEugene.KeptRowsFilter | core_algorithm/utils/py4j_gateway/run_eugene_script.py:92-97 | succeeds exactly when no row is empty; a row is kept exactly when its first element is not None, in order |
| RunEugene.ConvertToListOfLists | core_algorithm/utils/py4j_gateway/run_eugene_script.py:88-105 | returns the conversion: None for a falsy result, otherwise the kept rows |
| RunEugene.KeptRowsErrStays | core_algorithm/utils/py4j_gateway/run_eugene_script.py:92-97 | once an empty row fails the scan, the conversion fails with it |
| RunEugene.SelectedOrders | core_algorithm/utils/py4j_gateway/run_eugene_script.py:117-123 | up to 5 orders come back unchanged; more give exactly 5 |
| RunEugene.SelectedIsSubsequence | core_algorithm/utils/py4j_gateway/run_eugene_script.py:117-121 | with more than 5 orders, the selection starts at the first and takes the orders at cnt * len // 5, strictly increasing |
| RunEugene.SelectedIndexBounds | core_algorithm/utils/py4j_gateway/run_eugene_script.py:120 | each selected index is in range, the first is 0 and they increase |
| RunEugene.SelectOrders | core_algorithm/utils/py4j_gateway/run_eugene_script.py:117-123 | the loop returns the declarative selection |
| RunEugene.CallMiniEugene | core_algorithm/utils/py4j_gateway/run_eugene_script.py:53-123 | the caller's rule list becomes the augmented rules; part_count is the number appended, raised to max + 2 when an EQUALS index exceeds it; the orders are the call's selection or its error |
| RunEugene.TriggersHasSpace | core_algorithm/utils/py4j_gateway/run_eugene_script.py:56-57 | a rule containing `CONTAINS ` contains a space |
| RunEugene.SplitWord | core_algorithm/utils/py4j_gateway/run_eugene_script.py:57 | splitting a space-free word, a space and a rest gives the word followed by the rest's split |
| RunEugene.ShapedSplit | core_algorithm/utils/py4j_gateway/run_eugene_script.py:57 | an appended rule's second word is `EXACTLY` |
| RunEugene.ShapedExactly | core_algorithm/utils/py4j_gateway/run_eugene_script.py:56-57 | an appended rule that itself triggers appends the fixed rule `EXACTLY EXACTLY 1` |
| RunEugene.ExShaped | core_algorithm/utils/py4j_gateway/run_eugene_script.py:55-58 | every rule the loop appends has `EXACTLY` as its second word |
| RunEugene.ExOfShaped | core_algorithm/utils/py4j_gateway/run_eugene_script.py:55-58 | the rules appended for appended rules are all `EXACTLY EXACTLY 1` |
| RunEugene.ExInert | core_algorithm/utils/py4j_gateway/run_eugene_script.py:55-58 | rules none of which contains `CONTAINS ` append nothing |
| RunEugene.ExFull | core_algorithm/utils/py4j_gateway/run_eugene_script.py:55-58 | when every rule appends one, every rule triggers and the first appended is the first rule's |
| RunEugene.TailFixed | core_algorithm/utils/py4j_gateway/run_eugene_script.py:55-58 | the part of the final list after any stable prefix consists of rules that each append one |
| RunEugene.PrefixDone | core_algorithm/utils/py4j_gateway/run_eugene_script.py:55-58 | a prefix of the final list that already holds all its own appended rules is the final list |
| RunEugene.PrefixStep | core_algorithm/utils/py4j_gateway/run_eugene_script.py:55-58 | visiting one more rule keeps the list a prefix of the final list |
| RunEugene.LoopStep | core_algorithm/utils/py4j_gateway/run_eugene_script.py:55-58 | one iteration of the growing loop, appending or not, keeps the list a prefix of the final list with the appends of the rules visited |
| RunEugene.Indexes | core_algorithm/utils/py4j_gateway/run_eugene_script.py:59-61 | one entry per rule: the parsed bracket index of an EQUALS rule, none otherwise |
| RunEugene.RunningMaxAttained | core_algorithm/utils/py4j_gateway/run_eugene_script.py:59-63 | a non-zero running maximum is one of the parsed indices |
| RunEugene.MaxIndexRunning | core_algorithm/utils/py4j_gateway/run_eugene_script.py:59-63 | the maximum loop is a running maximum over the rules' parsed indices |
| ResponsePlot.ColIndexSpec | core_algorithm/utils/response_plot.py:13-16 | the column index is the last header equal to the column name, and there is none exactly when no header is |
| ResponsePlot.LastStore | core_algorithm/utils/response_plot.py:18-28 | the last data row that stores under a label: it stores there and no later row does; none exactly when no row does |
| ResponsePlot.TableValuesGet | core_algorithm/utils/response_plot.py:18-28 | the value under a label is the column cell of the last data row with that label, and a label no row has is absent |
| ResponsePlot.NoColumnNoValues | core_algorithm/utils/response_plot.py:13-28 | with the column missing or among the inputs, the result is empty |
| ResponsePlot.MarksOfBits | core_algorithm/utils/response_plot.py:19-25 | a row of 0/1 inputs gets a dash or a plus for each input, each followed by a space |
| ResponsePlot.FindColumn | core_algorithm/utils/response_plot.py:13-16 | the header loop returns the declarative column index |
| ResponsePlot.ReadRow | core_algorithm/utils/response_plot.py:19-28 | the cell loop returns the row's label and column cell, or nothing |
| ResponsePlot.GetTableValuesLoop | core_algorithm/utils/response_plot.py:9-30 | the loops return the declarative table values, or IndexError on an empty table |
| DesignsToOutputs.DesignOption | bin/designs_to_outputs.py:195-201 | the scored row has one name per part: the raw row when the conversion raises, otherwise each part's own conversion |
| DesignsToOutputs.ConvertAllSpec | bin/designs_to_outputs.py:49-63 | the conversion succeeds exactly when every part converts, and then converts position by position with the same length |
| DesignsToOutputs.LastPromoter | bin/designs_to_outputs.py:39-41 | the last promoter for a gate letter: a promoter with that letter, none later; none exactly when no promoter has it |
| DesignsToOutputs.SuffixesGet | bin/designs_to_outputs.py:36-41 | a letter's suffix is the third character of the last promoter with that letter, and absent when none has it |
| DesignsToOutputs.GateName | bin/designs_to_outputs.py:61-63 | a gate `Xd` becomes `Xd-<s>_<base>`, with KeyError when no promoter gives the suffix or the letter names no repressor |
| DesignsToOutputs.LastNamed | bin/designs_to_outputs.py:68-72 | the last collection with a given name: none later has it; none exactly when no collection has it |
| DesignsToOutputs.CollectionDictGet | bin/designs_to_outputs.py:68-72 | the dict maps each name to the last collection with it and holds no other name |
| DesignsToOutputs.CollectionDictOk | bin/designs_to_outputs.py:68-72 | the conversion fails exactly when some collection has no hashable `name` |
| DesignsToOutputs.CollectionDictStep | bin/designs_to_outputs.py:70-71 | one more collection keeps success exactly when it is keyed |
| DesignsToOutputs.CalcBinary | bin/designs_to_outputs.py:89-146 | every evaluation that succeeds reports only 0 and 1 as bits |
| DesignsToOutputs.LeafBitsNor | bin/designs_to_outputs.py:134-139 | when a gate's input loop succeeds, the sum of bits is 0 exactly when every input bit is 0 |
| DesignsToOutputs.GateIsNor | bin/designs_to_outputs.py:127-144 | a gate reports 1 exactly when every input reports 0: it is a NOR |
| DesignsToOutputs.FirstBitsNor | bin/designs_to_outputs.py:100-104 | when a multi-input promoter's input loop succeeds, every input gave a nested result whose first item is a pair, and the sum is 0 exactly when every one of those first bits is 0 |
| DesignsToOutputs.PromoterIsNor | bin/designs_to_outputs.py:97-117 | a promoter with several inputs, all gates, reports 1 exactly when the first bit of every input's result is 0: it is a NOR |
| DesignsToOutputs.PromoterPassThrough | bin/designs_to_outputs.py:118-121 | a promoter with one input reports the bit of that input gate's own (second) result |
| DesignsToOutputs.OutputTruth | bin/designs_to_outputs.py:294-305 | an output's truth is comparable with 0 and 1 exactly when the node feeding it is not a gate, and then it is a bit, so gate-fed rows are neither ON nor OFF |
| DesignsToOutputs.InputBit | bin/designs_to_outputs.py:90-96 | an input reports 1 for `hi`, 0 for `lo` and raises ValueError otherwise |
| DesignsToOutputs.PermutesCount | bin/designs_to_outputs.py:283-286 | four rows, counting in binary over the two inputs, the first input most significant |
| DesignsToOutputs.SetRoots | bin/designs_to_outputs.py:291-292 | setting the roots keeps the number of nodes |
| DesignsToOutputs.SetRootsAt | bin/designs_to_outputs.py:291-292 | only the root inputs of the listed nodes change |
| DesignsToOutputs.RootAfterListed | bin/designs_to_outputs.py:291-292 | a listed node's root does not depend on what it held before |
| DesignsToOutputs.RootAfterUnlisted | bin/designs_to_outputs.py:291-292 | an unlisted node keeps its root |
| DesignsToOutputs.SetRootsTwice | bin/designs_to_outputs.py:287-292 | a later row's roots replace the earlier row's entirely |
| DesignsToOutputs.SetRootsLinked | bin/designs_to_outputs.py:291-292 | setting the roots keeps the graph's links |
| DesignsToOutputs.NodesAfter | bin/designs_to_outputs.py:287-292 | the node count is kept across rows |
| DesignsToOutputs.NodesAfterLast | bin/designs_to_outputs.py:287-292 | the node state after several rows is set by the last row alone |
| DesignsToOutputs.NodesAfterLinked | bin/designs_to_outputs.py:287-292 | the links survive any number of rows |
| DesignsToOutputs.RowsOwnLevels | bin/designs_to_outputs.py:287-299 | row k is evaluated with the roots of the k-th input pair alone |
| DesignsToOutputs.ScoresWhere | bin/designs_to_outputs.py:304-305 | a score is in the partition exactly when some row with that truth has it |
| DesignsToOutputs.Min | bin/designs_to_outputs.py:304 | the minimum is one of the scores and below all of them |
| DesignsToOutputs.Max | bin/designs_to_outputs.py:305 | the maximum is one of the scores and above all of them |
| DesignsToOutputs.InPartition | bin/designs_to_outputs.py:304-305 | every row's score is in the partition of its truth |
| DesignsToOutputs.FinalScoreOk | bin/designs_to_outputs.py:304-306 | the score is the lowest ON score over the highest OFF score, both scores of actual rows |
| DesignsToOutputs.FinalScoreEmpty | bin/designs_to_outputs.py:304-305 | ValueError exactly when no row is ON or no row is OFF |
| DesignsToOutputs.ConvertPartNamesLoop | bin/designs_to_outputs.py:24-65 | the two loops return the declarative conversion |
| DesignsToOutputs.ConvertAllErrKept | bin/designs_to_outputs.py:49-63 | once a part fails, the conversion fails with that error |
| DesignsToOutputs.CollectionListToDict | bin/designs_to_outputs.py:68-72 | the loop returns the declarative dict or the first lookup error |
| DesignsToOutputs.CollectionDictErrKept | bin/designs_to_outputs.py:70-71 | once a collection fails, the conversion fails with that error |
| DesignsToOutputs.SetRootsLoop | bin/designs_to_outputs.py:291-292 | the root loop sets the roots, with IndexError for more than two inputs |
| DesignsToOutputs.RowLoop | bin/designs_to_outputs.py:293-296 | the output loop returns each output's result in order, or the first error |
| DesignsToOutputs.RowOfErrKept | bin/designs_to_outputs.py:293-296 | once an output fails, the row fails with that error |
| DesignsToOutputs.EvaluateRows | bin/designs_to_outputs.py:287-299 | the row loop returns the four rows' results, each evaluated after its roots were set |
| DesignsToOutputs.RowsErrKept | bin/designs_to_outputs.py:287-299 | once a row fails, the loop fails with that error |
| CsvToUcf.Pow10 | bin/csv_to_ucf.py:73 | a power of ten is positive |
| CsvToUcf.FloatOf | bin/csv_to_ucf.py:73 | `float(value)` gives a float, with ValueError for a string it rejects and TypeError for a list |
| CsvToUcf.ConvertValType | bin/csv_to_ucf.py:64-78 | conversion fails only with ValueError or TypeError |
| CsvToUcf.ConvertValTypeResults | bin/csv_to_ucf.py:64-78 | both `true` and `false` become True; only the key `value` gives a float and fails exactly when `float` rejects the cell; a digit string under any key but `value` and `color` gives an int; every other cell is kept as it is |
| CsvToUcf.ConvertNatToInt | bin/csv_to_ucf.py:75-76 | a natural number written out reads back as that int under any key but `value` and `color` |
| CsvToUcf.ConvertNatToFloat | bin/csv_to_ucf.py:72-73 | a natural number written out reads back as that float under `value` |
| CsvToUcf.NatUnsignedDecimal | bin/csv_to_ucf.py:73 | a natural number written out parses as that decimal |
| CsvToUcf.SplitAtSeparator | bin/csv_to_ucf.py:108-110 | splitting yields more than one part exactly when the separator occurs, and otherwise the string itself |
| CsvToUcf.NonEmptyParts | bin/csv_to_ucf.py:110-112 | every kept part is a non-empty string |
| CsvToUcf.NonEmptyPartsAll | bin/csv_to_ucf.py:110-112 | with no empty part, every part is kept, in order |
| CsvToUcf.NonEmptyPartsFrom | bin/csv_to_ucf.py:110-112 | no kept part contains the separator |
| CsvToUcf.CellValueSpec | bin/csv_to_ucf.py:107-113 | a cell with `;` holds the list of its non-empty parts, none holding `;`; a cell without one holds its text |
| CsvToUcf.CellValueJoin | bin/csv_to_ucf.py:107-113 | joining two or more non-empty, `;`-free parts with `;` gives a cell holding exactly them |
| CsvToUcf.DecodeEncode | bin/csv_to_ucf.py:100-106 | taking the marks off a header undoes putting them on, for a name that neither starts nor ends with `;` |
| CsvToUcf.AppendItem | bin/csv_to_ucf.py:121-122 | `append({})` works exactly on a list, with AttributeError otherwise |
| CsvToUcf.SetField | bin/csv_to_ucf.py:128 | assigning a string key works exactly on a dict, with TypeError otherwise |
| CsvToUcf.SetItemField | bin/csv_to_ucf.py:125 | assigning into an item works exactly on a dict item of a list within range, with TypeError, IndexError or KeyError otherwise |
| CsvToUcf.RowsShape | bin/csv_to_ucf.py:91-136 | a parsed file has no empty row, one collection per row that is not a header row, and ends with the headers of its last header row |
| CsvToUcf.RowStepShape | bin/csv_to_ucf.py:92-136 | a row either replaces the headers or adds one collection |
| CsvToUcf.RowsPrefix | bin/csv_to_ucf.py:91-136 | collections already parsed are never changed by later rows |
| CsvToUcf.CellsPastHeaders | bin/csv_to_ucf.py:98 | cells past the last header take no part |
| CsvToUcf.CellsSkipped | bin/csv_to_ucf.py:98-107 | a row whose cells are all empty or under empty headers yields its collection unchanged |
| CsvToUcf.CellStepUnbound | bin/csv_to_ucf.py:98-132 | the only UnboundLocalError is a non-empty cell under an `a:b` header reached before any header has set `add_entry` |
| CsvToUcf.StoreUnbound | bin/csv_to_ucf.py:121 | storing fails with UnboundLocalError exactly on an `a:b` header while `add_entry` is unassigned |
| CsvToUcf.StorePlain | bin/csv_to_ucf.py:129-131 | a plain header stores the converted cell under its name and changes nothing else |
| CsvToUcf.StoreField | bin/csv_to_ucf.py:114-128 | outside a list group, `a:b` stores the converted cell under `b` in the dict `a`, created when missing; no other key changes |
| CsvToUcf.StoreItem | bin/csv_to_ucf.py:114-125 | inside a list group, `a:b` stores into item `list_item - 1` of list `a`; the list grows by one item exactly when the header opens one; no other key changes |
| CsvToUcf.SplitCell | bin/csv_to_ucf.py:108-113 | the loop keeps the non-empty `;`-parts of a cell |
| CsvToUcf.StoreCell | bin/csv_to_ucf.py:114-131 | storing a cell statement by statement gives the declarative store |
| CsvToUcf.StoreCellInGroup | bin/csv_to_ucf.py:114-128 | storing under `a:b` statement by statement gives the declarative store |
| CsvToUcf.StripMarks | bin/csv_to_ucf.py:99-106 | taking the marks off returns the decoded header |
| CsvToUcf.ReadCell | bin/csv_to_ucf.py:98-135 | one cell statement by statement gives the declarative cell step |
| CsvToUcf.CellsErrKept | bin/csv_to_ucf.py:97-135 | once a cell fails, the row fails with that error |
| CsvToUcf.ReadRow | bin/csv_to_ucf.py:95-136 | the cell loop builds the declarative collection of the row |
| CsvToUcf.RowsErrKept | bin/csv_to_ucf.py:91-136 | once a row fails, the file fails with that error |
| CsvToUcf.ReadCsv | bin/csv_to_ucf.py:80-136 | the row loop returns the declarative collections of the file |
| UcfToCsv.DictHeaders | bin/ucf_to_csv.py:71-74 | a dict field gives `k:key` for each of its keys, in order |
| UcfToCsv.StrFieldsHeaders | bin/ucf_to_csv.py:68-89 | a collection whose fields are all strings adds exactly its keys, in order |
| UcfToCsv.ListHeadersOk | bin/ucf_to_csv.py:75-88 | a list with no string gets headers exactly when it is a non-empty list of non-empty dicts |
| UcfToCsv.ItemsHeadersOk | bin/ucf_to_csv.py:81-87 | the items give headers exactly when they are all non-empty dicts |
| UcfToCsv.PlainHeaders | bin/ucf_to_csv.py:83-84 | the keys after an item's first decode as plain `k:key` names |
| UcfToCsv.ItemMarks | bin/ucf_to_csv.py:83-86 | one decoded header per key of the item |
| UcfToCsv.ItemMarksOpen | bin/ucf_to_csv.py:85-86 | each item opens exactly once, with its first header, and does not close |
| UcfToCsv.MarkedLength | bin/ucf_to_csv.py:81-87 | a list of non-empty dicts decodes as one header per key, one per item opening it, none closing |
| UcfToCsv.ItemsHeadersMarked | bin/ucf_to_csv.py:81-87 | the items' header texts are the encodings of their decoded headers, one by one |
| UcfToCsv.ListHeadersMarked | bin/ucf_to_csv.py:79-88 | a list group has one header per key, exactly one per item opening it, and only the last closing the group |
| UcfToCsv.CloseSpec | bin/ucf_to_csv.py:88 | the closing `;` marks the last header and changes no opening |
| UcfToCsv.ListHeadersDecode | bin/ucf_to_csv.py:79-88 | the CSV reader decodes a list group's headers back to exactly its `k:key` names and marks |
| UcfToCsv.DictGroup | bin/ucf_to_csv.py:71-74 | the loop over a dict's keys returns its headers |
| UcfToCsv.ItemGroup | bin/ucf_to_csv.py:82-86 | one list item gives its headers, the first marked with `;`, or the item's error |
| UcfToCsv.ItemsHeadersErrKept | bin/ucf_to_csv.py:81-87 | once an item fails, the list fails with that error |
| UcfToCsv.ListGroup | bin/ucf_to_csv.py:75-88 | a list field gives `k` when an item is a string, and otherwise the items' headers with the closing `;` |
| UcfToCsv.FieldsErrKept | bin/ucf_to_csv.py:68-89 | once a field fails, the collection fails with that error |
| UcfToCsv.CollectionGroups | bin/ucf_to_csv.py:67-89 | the loop over one collection's fields returns its declarative headers |
| UcfToCsv.CollectionsErrKept | bin/ucf_to_csv.py:63-89 | once a collection fails, the header row fails with that error |
| UcfToCsv.FlattenHeaders | bin/ucf_to_csv.py:58-89 | the collection loop returns the header row of the file |
| Eugene.EugeneObject.constructor | utils/eugene.py:107-124 | a new object holds the maps it was given, empty dicts, no fenceposts, and the part types `spacer` and `scar` |
| Eugene.EugeneObject.GenerateEugeneStructs | utils/eugene.py:127-246 | the pass replaces only the structs dict, by the result of the edge, name, group and enrichment passes, and returns true |
| Eugene.StructsPassSpec | utils/eugene.py:134-246 | the structs pass never raises; a name has a struct exactly when the edges give it one, and that struct is the blank struct with its edge inputs, then its gate group, then enriched as input, gate and output in that order |
| Eugene.EugeneObject.GenerateEugeneCassettes | utils/eugene.py:249-323 | the three `parts` loops always update the part types and sequences; the cassettes are added exactly when every distributed input has a struct with an output, otherwise the call fails with that lookup's error; the structs dict and the rules stay as they were |
| Eugene.PartsPassTypes | utils/eugene.py:274-297 | `parts_types` keeps its old entries in front, never holds a type twice, and gains exactly the types of the parts that are kept (named by the collected names or of type `scar`) |
| Eugene.PartsPassKeys | utils/eugene.py:274-297 | after the three loops a part name has a sequence record exactly when it had one before or some parts file has a part of that name that is collected or a `scar` |
| Eugene.EugeneObject.GenerateEugeneHelpers | utils/eugene.py:326-375 | the fenceposts, the device rules of the parts and the circuit rules of the cassettes change as the helper pass says, its errors are the call's errors, and the two operand dicts are returned unchanged |
| Eugene.EugeneObject.WriteEugene | utils/eugene.py:378-485 | the writes are the part types, sequences, fenceposts, cassettes, device rules, products, devices, circuit rules, loops (each `for` line written with `{} ` as the code does), assignments, circuit and closing blocks in order, or the KeyError of a cassette input that is not a part |
| EugeneEdges.GateNames | utils/eugene.py:136-137 | one name per gate binding, its variant in use, in order |
| EugeneEdges.OutNames | utils/eugene.py:138-139 | one name per output binding, in order |
| EugeneEdges.InputsAtMember | utils/eugene.py:142-144 | a name is appended for an input bit exactly when some input binding has that bit and name |
| EugeneEdges.GatesDrivingMember | utils/eugene.py:145-147 | a variant is appended for a bit exactly when some gate binding outputs that bit and uses that variant |
| EugeneEdges.SourcesOfMember | utils/eugene.py:141-147 | the names feeding a gate are exactly the inputs on one of its bits and the gates driving one of its bits |
| EugeneEdges.GetExtend | utils/eugene.py:144 | appending a list under a key changes only that key, which gains the list at its end |
| EugeneEdges.ExtendConcat | utils/eugene.py:144-147 | appending `a` and then `b` under a key is appending `a + b` |
| EugeneEdges.GetClearKeys | utils/eugene.py:136-139 | after `edges[k] = []` for some names those keys hold the empty list and every other key is unchanged |
| EugeneEdges.GetGateEdges | utils/eugene.py:140-147 | after the gate loop each gate variant holds its old list followed by the sources of the gates using it; other keys are unchanged |
| EugeneEdges.GetOutEdges | utils/eugene.py:148-151 | after the output loop each output name holds its old list followed by the gates driving its bit; other keys are unchanged |
| EugeneEdges.SourcesForAbsent | utils/eugene.py:140-147 | a name that is no gate's variant receives no sources |
| EugeneEdges.DriversForAbsent | utils/eugene.py:148-151 | a name that is no output receives no drivers |
| EugeneEdges.GetCleared | utils/eugene.py:135-139 | after the two clearing loops exactly the gate variants and output names are keys, each with the empty list |
| EugeneEdges.GetAfterGates | utils/eugene.py:135-147 | after the gate loop every key holds the sources of the gates that use it |
| EugeneEdges.EdgesAt | utils/eugene.py:135-151 | `edges` has a key for every gate variant and output name and nothing else; each key holds the sources of its gates followed by the gates driving its output |
| EugeneEdges.SourcesForUnique | utils/eugene.py:140-147 | with one gate per variant, a gate's edge list is the sources of its own input bits |
| EugeneEdges.DriversForUnique | utils/eugene.py:148-151 | with one output per name, an output's edge list is the gates driving its own bit |
| EugeneEdges.EdgesWellformed | utils/eugene.py:135-151 | the edges form a dict: no key appears twice |
| EugeneEdges.ClearLoop | utils/eugene.py:136-139 | the clearing loop gives every named key the empty list, keeping other keys |
| EugeneEdges.AppendInputs | utils/eugene.py:142-144 | the input loop appends, in input-map order, the inputs on the bit |
| EugeneEdges.AppendDrivers | utils/eugene.py:145-147 | the gate loop appends, in gate-map order, the gates driving the bit |
| EugeneEdges.GateLoop | utils/eugene.py:141-147 | one gate's appends are the sources of its input bits, bit by bit |
| EugeneEdges.BuildEdges | utils/eugene.py:134-151 | the loops build exactly the edges described by `EdgesAt` |
| EugeneStructs.GetAddMissing | utils/eugene.py:163-165 | a blank struct is added exactly for a listed name that had none; every other entry is unchanged |
| EugeneStructs.GetStructsFrom | utils/eugene.py:160-165 | an edge key gets a blank struct holding its edge list as inputs; a source with no struct gets a blank one; other names are unchanged |
| EugeneStructs.KeysStructsFrom | utils/eugene.py:160-165 | the structs dict gains an entry for every edge key and every edge source, and nothing else |
| EugeneStructs.SetGroupsErrStays | utils/eugene.py:168-169 | once the group assignment raises for a gate, it raises the same for the whole map |
| EugeneStructs.SetGroupsGet | utils/eugene.py:168-169 | when every variant has a struct, the assignment succeeds, keeps the keys, and sets each variant's group to the id of its last gate |
| EugeneStructs.GroupsNeverFail | utils/eugene.py:160-169 | every gate variant has a struct once the edges are added, so the group assignment never raises a KeyError |
| EugeneStructs.InOutputsSpec | utils/eugene.py:180-182 | only `outputs` changes, to those of the last input structure of that name, or nothing changes when there is none |
| EugeneStructs.AsInputSpec | utils/eugene.py:174-182 | a struct named by no sensor is unchanged; otherwise it becomes an input with the last such sensor's model and structure and that structure's outputs |
| EugeneStructs.InCountPositive | utils/eugene.py:209-218 | a device has a positive `#in` count exactly when one of its components starts with `#in` |
| EugeneStructs.GateCassettesEntries | utils/eugene.py:198-218 | a gate device gives a cassette entry exactly when it is not a `_cassette` device and has an `#in` component; the entry has its name, cassette name and positive count |
| EugeneStructs.GateCassettesComps | utils/eugene.py:199-205 | an entry's components are empty or those of a `_cassette` device named by its cassette name |
| EugeneStructs.OutCasCompsSpec | utils/eugene.py:238-241 | the cassette components of an output device hold no duplicate and are exactly its components containing `_cassette` |
| EugeneStructs.OutCassettesEntries | utils/eugene.py:233-244 | an output device gives an entry exactly when it has an `#in` component, with its name, last cassette name, count and cassette components |
| EugeneStructs.GateFromStructuresSpec | utils/eugene.py:194-219 | a gate struct changes only in outputs and cassettes, which come from the last structure of its name, or not at all when there is none |
| EugeneStructs.AsGateSpec | utils/eugene.py:187-219 | a struct named by no gate device is unchanged; otherwise it becomes a gate with the last device's model, structure and colour and that structure's outputs and cassettes |
| EugeneStructs.OutFromStructuresSpec | utils/eugene.py:230-245 | an output struct changes only in its cassettes, which come from the last structure of its name |
| EugeneStructs.AsOutputSpec | utils/eugene.py:224-245 | a struct named by no output device is unchanged; otherwise it becomes an output with that device's model and structure and that structure's cassettes |
| EugeneStructs.BuildGateCassettes | utils/eugene.py:197-219 | the device loop builds exactly the gate cassette entries described above |
| EugeneStructs.BuildOutCassettes | utils/eugene.py:232-245 | the device loop builds exactly the output cassette entries described above |
| EugeneStructs.EnrichInput | utils/eugene.py:175-182 | the sensor loop gives the enriched input struct |
| EugeneStructs.EnrichGate | utils/eugene.py:188-219 | the gate-device loop gives the enriched gate struct |
| EugeneStructs.EnrichOutput | utils/eugene.py:225-245 | the output-device loop gives the enriched output struct |
| EugeneStructs.AddMissingLoop | utils/eugene.py:163-165 | the loop adds a blank struct for each source without one |
| EugeneStructs.AddStructs | utils/eugene.py:160-165 | the loop over the edges builds the structs described by `GetStructsFrom` |
| EugeneStructs.SetGateGroups | utils/eugene.py:168-169 | the group loop gives the assignment's result, or its KeyError |
| EugeneStructs.MapStructsAt | utils/eugene.py:174 | an enrichment loop keeps every key in place and maps each struct to its image |
| EugeneStructs.MapStructsGet | utils/eugene.py:174 | looking a name up after an enrichment loop gives the image of what it held before |
| EugeneStructs.EnrichInputs | utils/eugene.py:172-182 | the input enrichment maps every struct through the input rule |
| EugeneStructs.EnrichGates | utils/eugene.py:185-219 | the gate enrichment maps every struct through the gate rule |
| EugeneStructs.EnrichOutputs | utils/eugene.py:222-245 | the output enrichment maps every struct through the output rule |
| EugeneCassettes.CollectMember | utils/eugene.py:263-273 | `ins` holds exactly the outputs of the input structs, `mains` the cassette components and outputs of the gate structs, `outs` those of the output structs |
| EugeneCassettes.CollectNames | utils/eugene.py:258-273 | the collecting loop builds those three name lists, in struct order |
| EugeneCassettes.ExtendComps | utils/eugene.py:267-268 | `xs.extend(c[3])` for every cassette entry appends their components in order |
| EugeneCassettes.KeepPartsGet | utils/eugene.py:275-281 | after a parts loop a name holds the record of the last kept part of that name, or what it held before when none is kept |
| EugeneCassettes.LastKeptSome | utils/eugene.py:275-281 | a kept part of a given name exists exactly when some part of that name is kept, and it is one |
| EugeneCassettes.KeepPartsKeys | utils/eugene.py:275-281 | a part is a key after a loop exactly when it was before, or a part of that name is collected or of type `scar` |
| EugeneCassettes.KeepPartsTypes | utils/eugene.py:278-280 | `parts_types` grows only at its end, gains each kept part's type and nothing else, and never holds a type twice |
| EugeneCassettes.KeepLoop | utils/eugene.py:274-281 | one `parts` loop gives exactly the kept types and records described above |
| EugeneCassettes.OutputEach | utils/eugene.py:319 | one lookup result per input name, in order |
| EugeneCassettes.OutputsOfFirstErr | utils/eugene.py:317-321 | looking the names up one after another fails with the first failing lookup, else gives all their outputs |
| EugeneCassettes.OutputsOfSpec | utils/eugene.py:317-321 | the outputs exist exactly when every name's lookup succeeds, and then they are those first outputs, in order |
| EugeneCassettes.OutputsOfConcat | utils/eugene.py:317-321 | the lookups of two runs of names fail with the first run's error, else the second's, else give both runs' outputs joined |
| EugeneCassettes.OutputsOfErrKept | utils/eugene.py:317-321 | once a prefix of the lookups fails, the whole fails with the same error |
| EugeneCassettes.PlacedStep | utils/eugene.py:306-321 | from one entry on, the inputs placed are that entry's share, `min(#in, inputs left)`, followed by those of the remaining entries |
| EugeneCassettes.RecordsFromStep | utils/eugene.py:306-321 | while inputs remain, an entry's cassette is built exactly when its inputs' outputs exist and the rest succeeds, and it comes first |
| EugeneCassettes.RecordsFromHead | utils/eugene.py:306-321 | a successful step's first cassette comes from the first entry with exactly its share of inputs, followed by the rest's cassettes |
| EugeneCassettes.RecordsFromChunkErr | utils/eugene.py:317-320 | an entry whose inputs fail ends the distribution with that lookup's error |
| EugeneCassettes.RecordsFromChunkOk | utils/eugene.py:307-321 | an entry whose inputs succeed puts its cassette in front of the rest's result |
| EugeneCassettes.RecordsFromSkip | utils/eugene.py:307 | once every input is placed, an entry adds no cassette |
| EugeneCassettes.DistributionInputs | utils/eugene.py:303-321 | the distribution succeeds exactly when the placed inputs all have outputs, and the cassettes' inputs, concatenated, are those outputs |
| EugeneCassettes.DistributionLength | utils/eugene.py:306-321 | there is at most one cassette per entry, cassettes only while inputs remain, and entries are left without a cassette only once every input is placed |
| EugeneCassettes.DistributionFirst | utils/eugene.py:306-321 | the first cassette comes from the first entry and gets its full `#in` count unless it is the last |
| EugeneCassettes.DistributionAt | utils/eugene.py:306-321 | the `k`-th cassette comes from the `k`-th entry, with at most that entry's `#in` count of inputs, exactly that many unless it is the last |
| EugeneCassettes.DistributionShape | utils/eugene.py:306-321 | every cassette is built from its entry with at most its `#in` count of inputs, and all but the last are full |
| EugeneCassettes.PlaceInputs | utils/eugene.py:317-321 | the inner loop places `min(c[2], inputs left)` inputs and gives their first outputs or the first lookup error |
| EugeneCassettes.Distribute | utils/eugene.py:304-321 | the entry loop of one struct succeeds exactly when its distribution does and stores each cassette under its variant name, or fails with the distribution's error |
| EugeneCassettes.DistributeStepErr | utils/eugene.py:317-320 | an entry whose inputs fail leaves the loop's result as that error |
| EugeneCassettes.DistributeStepOk | utils/eugene.py:307-321 | an entry whose inputs succeed adds its cassette and moves past its share |
| EugeneCassettes.DistributeStepSkip | utils/eugene.py:307 | an entry met once every input is placed adds nothing |
| EugeneCassettes.PrependStep | utils/eugene.py:309-321 | moving a finished cassette from the rest's result to the done list keeps the result |
| EugeneCassettes.PutAllSnoc | utils/eugene.py:309 | storing one more cassette overwrites its variant name only |
| EugeneCassettes.PutAllConcat | utils/eugene.py:309 | storing two runs of cassettes is storing the first run and then the second |
| EugeneCassettes.PutAllGet | utils/eugene.py:309 | under each variant name the dict ends up holding the last cassette built with that name, or what it held before |
| EugeneCassettes.LastNamedSome | utils/eugene.py:309 | a cassette of a given name is found exactly when one was built, and it is one of them |
| EugeneCassettes.CassettesOfErrKept | utils/eugene.py:303-321 | once one struct's distribution fails, the whole pass fails with the same error |
| EugeneCassettes.AllCassettes | utils/eugene.py:303-321 | the struct loop succeeds exactly when every gate and output struct distributes, and stores all cassettes, or fails with the first error |
| EugeneHelpers.SymbolsOk | utils/eugene.py:336-337 | the symbols are read exactly when every location has a `symbol` key |
| EugeneHelpers.SymbolsValues | utils/eugene.py:336-337 | the symbols read are each location's symbol, in order |
| EugeneHelpers.SymbolsErrKept | utils/eugene.py:336-337 | once a location lacks its symbol, the whole read fails with that error |
| EugeneHelpers.ReadFenceposts | utils/eugene.py:334-337 | the first genetic location's `locations` are read and their symbols collected, or the lookup's error is raised |
| EugeneHelpers.NonKeywords | utils/eugene.py:354 | the operands are exactly the words that are not rule keywords |
| EugeneHelpers.UnwrapSpec | utils/eugene.py:349-350 | the unwrapping ends on a value with no `rules` in it; its only error is a TypeError, raised where `in` does not apply or where a list or string holds `rules` and cannot be indexed by it |
| EugeneHelpers.UnwrapRules | utils/eugene.py:349-350 | the `while 'rules' in v` loop gives the unwrapped value or its error |
| EugeneHelpers.DeviceRuleAllFirstFails | utils/eugene.py:351-354 | a rule loop whose first rule is not a string fails with AttributeError at `split` |
| EugeneHelpers.DeviceRuleExample | utils/eugene.py:349-357 | a `rules` object holding the string `p1 BEFORE p2` leaves the parts unchanged as written, while the corrected pass runs the rule loop on it |
| EugeneHelpers.DeviceRuleAllOk | utils/eugene.py:352-357 | the rule loop succeeds exactly when every rule is a string, and keeps the part names |
| EugeneHelpers.DeviceRuleGet | utils/eugene.py:353-357 | one rule string appends the rule to a part once per occurrence among its operands, when it is not `ALL_FORWARD` and all operands are parts |
| EugeneHelpers.DeviceRuleAllGet | utils/eugene.py:352-357 | after the rule loop every part holds its old device rules followed by its copies of each rule, in order |
| EugeneHelpers.DeviceRulesCorrectedAttach | utils/eugene.py:349-357 | with the check on a rule string instead of a dict, a list of rule strings succeeds and attaches every rule to each of its operand parts |
| EugeneHelpers.DeviceRulesNeverAttach | utils/eugene.py:351-357 | the rule loop only runs when the first rule is a dict, which has no `split`, so device rules are never attached: the parts stay as they were or the pass raises AttributeError |
| EugeneHelpers.DeviceRuleAllErrKept | utils/eugene.py:352-357 | once a rule fails, the whole loop fails with the same error |
| EugeneHelpers.DeviceRulePass | utils/eugene.py:340-357 | the device-rule pass gives the result of the unwrapping, the dict check and the rule loop |
| EugeneHelpers.DeviceRuleLoop | utils/eugene.py:352-357 | the rule loop gives the result of the rule-by-rule pass |
| EugeneHelpers.Copies | utils/eugene.py:365-367 | `n` copies of the rule |
| EugeneHelpers.RepeatedCirRule | utils/eugene.py:365-367 | appending a rule once per operand naming the cassette appends that many copies |
| EugeneHelpers.CircuitRuleAllOk | utils/eugene.py:360-367 | the loop succeeds exactly when every rule is a string, keeps the cassette names, and otherwise raises AttributeError |
| EugeneHelpers.CircuitRuleGet | utils/eugene.py:361-367 | one accepted rule appends to each cassette one copy per operand naming it |
| EugeneHelpers.CircuitRuleAllGet | utils/eugene.py:360-367 | after the loop each cassette holds its old circuit rules followed by the accepted rules naming it, in order |
| EugeneHelpers.UnknownOperandRejected | utils/eugene.py:363-364 | a rule with an operand that is neither a cassette nor a fencepost is not accepted |
| EugeneHelpers.CircuitRuleAllErrKept | utils/eugene.py:360-367 | once a rule fails, the whole loop fails with the same error |
| EugeneHelpers.CircuitRulePass | utils/eugene.py:341-367 | the circuit-rule pass gives the result of the unwrapping and the rule loop |
| EugeneHelpers.CircuitRuleLoop | utils/eugene.py:360-367 | the rule loop gives the result of the rule-by-rule pass |
| EugeneHelpers.GenerateHelpersSpec | utils/eugene.py:326-375 | a successful pass appends the location symbols to the fenceposts, leaves the parts as they were and keeps the cassette names |
| EugeneWrite.SeparatedJoin | utils/eugene.py:410-414 | the separator idiom writes exactly `sep.join('    ' + x for x in items)` |
| EugeneWrite.SeparatedSnoc | utils/eugene.py:410-414 | one more item is written after the separator, except as the first item |
| EugeneWrite.WriteLines | utils/eugene.py:390-391 | `for x in xs: eug.write(f(x))` writes one line per item, in order, after what was written |
| EugeneWrite.WriteSeparated | utils/eugene.py:410-414 | the separator loop writes the separated items after what was written |
| EugeneWrite.ContinueSeparated | utils/eugene.py:446-451 | continuing the separator loop over more items, with `sep` carried over, writes as if all items were in one loop |
| EugeneWrite.WritePrefixed | utils/eugene.py:425-426 | a part's device rules are written each with the same current `sep` |
| EugeneWrite.WriteCassette | utils/eugene.py:407-415 | a gate cassette gets its `cassette` line; every cassette gets its `Device` block with its inputs separated and its cassette name last |
| EugeneWrite.WriteCassettes | utils/eugene.py:406-416 | the cassette blocks of every cassette, in dict order, then a blank line |
| EugeneWrite.CompRulesOk | utils/eugene.py:423-428 | a cassette's rule writes succeed exactly when every input is a part, and otherwise fail with KeyError |
| EugeneWrite.CompRulesOkStep | utils/eugene.py:423-428 | one more input succeeds exactly when the earlier ones did and it is a part; a failure is the earlier one or a KeyError |
| EugeneWrite.CompRulesStep | utils/eugene.py:423-428 | one more input adds its device rules, each after the separator of its position, or raises KeyError if it is not a part |
| EugeneWrite.CompRulesWritten | utils/eugene.py:423-428 | after the writes so far, an input that is a part adds its rules with the separator of its position |
| EugeneWrite.CompRulesMissing | utils/eugene.py:424 | the first input that is not a part raises KeyError for the whole cassette |
| EugeneWrite.CompRulesErrKept | utils/eugene.py:423-428 | once an input fails, the cassette's writes fail with the same error |
| EugeneWrite.WriteCompRules | utils/eugene.py:422-428 | the input loop writes the rules of every input or raises at the first input that is not a part |
| EugeneWrite.DeviceRuleBlockOk | utils/eugene.py:420-430 | the device-rule block is written exactly when every cassette input is a part, and otherwise fails with KeyError |
| EugeneWrite.DeviceRuleBlockStep | utils/eugene.py:420-429 | one more cassette succeeds exactly when the earlier ones and its own inputs do, failing with whichever error comes first |
| EugeneWrite.InputsArePartsSnoc | utils/eugene.py:423-424 | every input is a part for all cassettes exactly when it is for the earlier ones and for the last |
| EugeneWrite.WriteDeviceRules | utils/eugene.py:419-430 | the device-rule loop writes the whole block after what was written, or fails with its KeyError |
| EugeneWrite.OnlyRules | utils/eugene.py:425-426 | one rule per input when every input has exactly one device rule |
| EugeneWrite.PrefixedSingle | utils/eugene.py:425-426 | a single rule is written as the separator, four spaces and the rule |
| EugeneWrite.CompRulesSeparated | utils/eugene.py:422-428 | when every input has exactly one rule, the rule writes are those rules in the separator idiom with `AND` |
| EugeneWrite.CompRulesJoin | utils/eugene.py:422-428 | when every input has exactly one rule, the rule text is the rules joined by ` AND` and newline, each indented |
| EugeneWrite.AllCirRulesNext | utils/eugene.py:447-448 | the circuit rules gathered through one more cassette are the earlier ones followed by its rules |
| EugeneWrite.WriteCircuitRules | utils/eugene.py:446-451 | the circuit rules of every cassette are written with one separator shared across all cassettes |
| EugeneWrite.WriteCircuitRuleSection | utils/eugene.py:443-452 | the rule header, one `CONTAINS` line per cassette, the shared-separator rules and the closing lines |
| EugeneWrite.WriteProducts | utils/eugene.py:433-440 | one `product` line and one `Device` line per cassette, then the `circuit` declaration |
| EugeneWrite.WriteDeclarations | utils/eugene.py:389-430 | the part types, sequences, fenceposts, cassettes and device rules, each block followed by its blank line |
| EugeneWrite.IterDictSpec | utils/eugene.py:455-460 | with distinct cassette names, the loop counters number the cassettes 1, 2, … in order |
| EugeneWrite.WriteForLines | utils/eugene.py:455-460 | one `for` line per cassette with its counter, each ending in the empty body `{} ` as written, and the counter dict |
| EugeneWrite.WriteLoopSection | utils/eugene.py:455-481 | the loop lines as written (each with `{} `), assignment, circuit and closing blocks in order, so the section leaves one `}` unmatched per cassette (EugeneWrite.LoopSectionUnbalanced) |
| EugeneWrite.LoopSectionDepth | utils/eugene.py:455-481 | over brace-free cassette names and fenceposts, the loop section's brace depth is the loop lines' depth per cassette minus one per closing `}` |
| EugeneWrite.LoopSectionUnbalanced | utils/eugene.py:455-481 | for every circuit whose cassette names and fenceposts hold no brace, the section as written has exactly one more `}` than `{` per cassette |
| EugeneWrite.LoopSectionBalanced | utils/eugene.py:455-481 | for the same circuits, the section with one opening `{` per loop line balances its braces exactly |
| EugeneWrite.DepthConcat | utils/eugene.py:458 | brace depth adds up over concatenation |
| EugeneWrite.DepthRepeat | utils/eugene.py:481 | the closing writes lower the brace depth by one per cassette |
| EugeneWrite.LoopLineDepth | utils/eugene.py:458 | a loop line with a brace-free name opens one brace when written with `{`, none as written with `{{}}` |
| EugeneWrite.NumberedLinesDepth | utils/eugene.py:457-460 | lines that each change the depth by `delta` change it by `delta` per cassette |
| EugeneWrite.ForLinesDepth | utils/eugene.py:457-460 | the loop lines open one brace per cassette (corrected) or none (as written) |
| EugeneWrite.LoopsAndClosing | utils/eugene.py:456-481 | with an opening `{` per loop the braces balance exactly; as written every cassette leaves one `}` unmatched |
| EugeneWrite.LoopsUnbalancedExample | utils/eugene.py:456-481 | one cassette named `d` leaves the written text with one more `}` than `{` |
| EugeneCassettes.OutputsOfSnoc | utils/eugene.py:317-321 | one more input name either keeps the earlier failure, fails with its own lookup, or appends its output |
| EugeneCassettes.RecordsFromDone | utils/eugene.py:307 | once every input is placed, the remaining entries build no cassette |
| EugeneEdges.ExtendStep | utils/eugene.py:144-147 | one more append under a key, seen from any key, adds its list only under that key |
| EugeneEdges.GetAppend | utils/eugene.py:144 | one `append` under a key adds the name at the end of that key's list only |
| EugeneEdges.ClearKeysWellformed | utils/eugene.py:136-139 | the clearing loops never make a key appear twice |
| EugeneEdges.ExtendWellformed | utils/eugene.py:144 | appending under a key never makes a key appear twice |
| EugeneEdges.GateEdgesWellformed | utils/eugene.py:140-147 | the gate loop never makes a key appear twice |
| EugeneEdges.OutEdgesWellformed | utils/eugene.py:148-151 | the output loop never makes a key appear twice |
| EugeneWrite.LoopHeadNoBraces | utils/eugene.py:458 | the head of a loop line over a brace-free name holds no brace |
| Dict.Get | utils/eugene.py:164 | a lookup finds a value exactly when the key is present, and the value is stored under it |
| Dict.Put | utils/eugene.py:161 | `d[k] = v` keeps the keys in place when `k` is present, appends `(k, v)` when it is not, and changes no other entry |
| Dict.GetPut | utils/eugene.py:161 | after `d[k] = v` the key `k` gives `v` and every other key what it gave before |
| Dict.KeysPut | utils/eugene.py:161 | after `d[k] = v` the keys are the old keys and `k` |
| Dict.PutPut | utils/eugene.py:161-162 | assigning a key twice is assigning it the second value |
| Dict.PutWellformed | utils/eugene.py:161 | assignment never makes a key appear twice |
| Dict.WellformedSnoc | utils/eugene.py:161 | a dict is its entries without the last followed by the assignment of the last, whose key is new |
| Dict.KeysInit | utils/eugene.py:161 | a key is present exactly when it is among the earlier entries or is the last entry's |
| Dict.AddRule | utils/eugene.py:357 | appending a rule under a key keeps the keys |
| Dict.AddRuleEach | utils/eugene.py:356-357 | appending a rule under each operand keeps the keys |
| Dict.AddRuleGet | utils/eugene.py:357 | appending a rule under an operand changes only that operand's value |
| Dict.AddRuleEachPrefix | utils/eugene.py:356-357 | one more operand appends the rule once more under that operand |
| Dict.AddRuleEachGet | utils/eugene.py:356-357 | after the operand loop every key holds its old value with the rule appended once per occurrence of the key among the operands |
| Dict.AddRuleLoop | utils/eugene.py:356-357 | the operand loop gives exactly those appends |
| Json.Subscript | utils/eugene.py:335 | `v[key]` succeeds exactly on an object holding the key, giving its value; otherwise KeyError on an object and TypeError on anything else |
| Json.Field | utils/eugene.py:176 | `d[key]` on a dict succeeds exactly when the key is present, giving its value, and raises KeyError otherwise |
| Json.SubscriptSmaller | utils/eugene.py:349-350 | a subscript is a strictly smaller value, so unwrapping `rules` ends |
| Json.First | utils/eugene.py:334 | `v[0]` succeeds exactly on a non-empty list or string, giving its first item or character, and raises the error Python raises otherwise |
| Json.Iterate | utils/eugene.py:336 | iterating succeeds exactly on a list, dict or string, giving its items, keys or characters, and raises TypeError otherwise |
| Json.PyIn | utils/eugene.py:349 | `needle in v` tests the keys of a dict, the items of a list and the substrings of a string, and raises TypeError on anything else |

## Left out

- Equation evaluation: `eval` of UCF equation strings (input levels, output devices, gate input composition and response functions) is replaced by the uninterpreted functions of `GateAssignment.Env`. Floating-point arithmetic is modelled as exact `real` arithmetic.
- Tandem-interference scores are not modelled. Variant names are distinct keys of `gate_params`, so the tandem element of the (score, name, tandem) comparison never decides the maximum.
- The annealing optimiser itself (`scipy.optimize.dual_annealing`): the points it probes are a parameter of `CelloAlgo.Cello3.SimulatedAnnealingAssign`. Only the objective, the decoding and the iteration budget are modelled.
- The fields the source updates on its netlist node objects while scoring (`score_in_use`, `best_score`, `gate_in_use`) are explicit values threaded through the recursion, not object fields; the final `best_score` / `gate_in_use` of each gate is returned with the score and kept in the assignment. Aliasing between node objects is not modelled.
- The UCF queries and parameter lookups at the start of `score_circuit` (core_algorithm/celloAlgo.py:873-977) are abstracted into the `gateIds` pairs and the `Env` functions, so their failures are not modelled: `gate_info[0]` and `output_function_json[0]` raise IndexError when the UCF has no gate model or no output function, `gate_params[gate_name]` and `gate_equations[gate_name]` raise KeyError for a gate without a model, and the comprehensions raise KeyError on a model missing `name`, `functions` or `parameters`. The older copy's `score_circuit` (celloAlgo.py:542-607) is abstracted the same way, so its failures are not modelled either: IndexError from the `functions` query's `[0]` (celloAlgo.py:542, :586) and from the `Hill_response` and `linear_input_composition` queries' `[0]` (:572-573), and KeyError in the parameter comprehensions (:548, :565, :585) and at `gate_params[gate_name]` (:607).
- Thread-count environment variables, threadpoolctl, logging, `print` calls, command-line prompts and configuration are not modelled.
- File and directory I/O: `open`, `json.load`, `os.makedirs`, the CSV readers and writers, the zip archive and the activity tables are left out. The Ucf module takes the loaded file contents (or the failure to load them) as a parameter. The file writers are modelled as the sequence of strings they write.
- The state that an exception leaves behind is not modelled, for example rows or fenceposts appended before an IndexError, or a partly written Eugene or CSV file. On an error, a method promises only the error.
- The Java miniEugene permuter (`miniPermute`) and the Py4J gateway are a function parameter of `RunEugene.CallMiniEugene`.
- Logic synthesis (the Yosys subprocess and the `.dot` rewriting), SBOL generation and the matplotlib rendering in `plot_bars` are foreign libraries or subprocesses and are not part of this model.
- Python `set` iteration order: `list(set(xs))` is modelled as keeping first occurrences, in order. CPython's hash order is not specified by the language.
- Python's `int()` and `str.isnumeric()` also accept non-ASCII digits; only ASCII digits are modelled.
- `float()` on strings is modelled for signed decimal literals; exponents, `inf`, `nan`, surrounding whitespace and digit-separating underscores (`float('1_0')` is 10.0 in Python, while `CsvToUcf.FloatOf` gives ValueError) are not.
- The `repr` of floats, lists and dicts is a parameter of the Eugene writer: fencepost symbols are normally strings.
- The regular-expression searches in `run_eugene_script.py` are modelled for single-line rule strings.
- UCF records read by the Eugene passes are typed records holding the fields the code reads. A KeyError from a UCF entry lacking such a field is not modelled there; it is modelled in the Ucf, CsvToUcf and UcfToCsv modules, which work on JSON values.
- The dead `GraphParser.permute_inputs` / `permute_outputs`, `traverse_graph` and the `utils/dna_design.py` stub are not part of this model.
- CelloHelpers.PermuteCountHelper: its second value (the average of a float factorial-ratio product and the exact product) is stated as exactly the exact product, because float rounding of the factorial ratios is not modelled. Float overflow is not modelled either: a factorial ratio or an exact product above the largest float (counts of 171 or more) raises OverflowError in the source, and a factorial deeper than the interpreter's recursion limit raises RecursionError.
- LegacyCelloHelpers.PermuteCountHelper: as for the current copy, the second value is stated without float rounding, OverflowError or the recursion limit.

## Findings

| source | as written | input that shows it | evidently intended | confidence | as-written member | corrected member |
|---|---|---|---|---|---|---|
| utils/eugene.py:456-481 | each cassette's `for(...)` line ends with `{}` (the f-string `{{}}`), which opens and closes an empty loop body, yet the file then ends with one `}` per cassette | a circuit with one cassette: the written file holds one `}` with no matching `{` | each `for(...)` line opens its body with a single `{`, so the closing lines balance it | not executed | EugeneWrite.LoopSectionUnbalanced | EugeneWrite.LoopSectionBalanced |
| utils/eugene.py:351-357 | the rule loop runs only when `device_rules[0]` is a dict, and then calls `r.split()` on that dict | a `rules` object holding the rule string `p1 BEFORE p2`: the loop is skipped and no part gets the rule; a list of rule dicts instead raises AttributeError | the loop runs over a list of rule strings and attaches each rule to its operand parts | not executed | EugeneHelpers.DeviceRulesNeverAttach | EugeneHelpers.DeviceRulesCorrectedAttach |
