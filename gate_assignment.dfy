/**
 * The circuit graph of the gate-assignment engine
 * (core_algorithm/utils/gate_assignment.py): the truth-table skeleton,
 * netlist inputs, outputs and gates, predecessor lookup, the choice of the
 * best gate variant and the recursive analog score of a node.
 *
 * The analog transfer functions the source evaluates with `eval` over UCF
 * equation strings are the fields of an `Env`: uninterpreted functions over
 * `real`, one per sensor, output device, gate group or gate variant.
 * The fields the source updates on its node objects while scoring
 * (`score_in_use`, `best_score`, `gate_in_use`) are explicit state here:
 * the level of each input in the current row, and one recorded `Choice`
 * per gate, threaded through the recursion.
 */
module GateAssignment {
  import opened Wrappers
  import opened PyStr
  import opened Dict
  import Netlist

  // ---------------------------------------------------------------------
  // Truth-table skeleton (generate_truth_table)
  // ---------------------------------------------------------------------

  /** A truth-table cell: a binary value in an `_I/O` column or an analog score. */
  datatype Cell = Bit(b: int) | Score(x: real)

  type Row = seq<Option<Cell>>

  function Pow2(n: nat): (r: nat)
    ensures r >= 1
  {
    if n == 0 then 1 else 2 * Pow2(n - 1)
  }

  /** `i >> j` on a natural number. */
  function Shr(i: nat, j: nat): nat
  {
    if j == 0 then i else Shr(i / 2, j - 1)
  }

  /** The `n` binary digits of `i`, most significant first. */
  function Bits(i: nat, n: nat): (bs: seq<int>)
    ensures |bs| == n
    ensures forall p :: 0 <= p < n ==> bs[p] == 0 || bs[p] == 1
  {
    if n == 0 then [] else Bits(i / 2, n - 1) + [i % 2]
  }

  /** Digit p is `(i >> (n - 1 - p)) & 1`: the comprehension over j = n-1 down to 0. */
  lemma {:induction false} BitsAreShifts(i: nat, n: nat)
    ensures forall p :: 0 <= p < n ==> Bits(i, n)[p] == Shr(i, n - 1 - p) % 2
  {
    if n > 0 {
      BitsAreShifts(i / 2, n - 1);
      forall p | 0 <= p < n
        ensures Bits(i, n)[p] == Shr(i, n - 1 - p) % 2
      {
        if p < n - 1 {
          assert Bits(i, n)[p] == Bits(i / 2, n - 1)[p];
          assert Shr(i, n - 1 - p) == Shr(i / 2, n - 2 - p);
        }
      }
    }
  }

  /** Reads most-significant-first binary digits back as a number. */
  function BitsValue(bs: seq<int>): int
  {
    if |bs| == 0 then 0 else 2 * BitsValue(bs[..|bs| - 1]) + bs[|bs| - 1]
  }

  /** The digits of a row index below 2^n decode back to that index. */
  lemma {:induction false} BitsRoundTrip(i: nat, n: nat)
    requires i < Pow2(n)
    ensures BitsValue(Bits(i, n)) == i
  {
    if n > 0 {
      BitsRoundTrip(i / 2, n - 1);
      assert Bits(i, n)[..n - 1] == Bits(i / 2, n - 1);
    }
  }

  /** Distinct row indices below 2^n have distinct digit strings. */
  lemma BitsInjective(i: nat, j: nat, n: nat)
    requires i < Pow2(n) && j < Pow2(n) && Bits(i, n) == Bits(j, n)
    ensures i == j
  {
    BitsRoundTrip(i, n);
    BitsRoundTrip(j, n);
  }

  function BitCells(bs: seq<int>): (r: Row)
    ensures |r| == |bs|
    ensures forall p :: 0 <= p < |bs| ==> r[p] == Some(Bit(bs[p]))
  {
    seq(|bs|, p requires 0 <= p < |bs| => Some(Bit(bs[p])))
  }

  function Nones(n: nat): (r: Row)
    ensures |r| == n
    ensures forall p :: 0 <= p < n ==> r[p] == None
  {
    seq(n, _ => None)
  }

  /** Row i of a fresh truth table: the input digits, then None in every other column. */
  function TruthRow(i: nat, numIn: nat, numGates: nat, numOut: nat): Row
  {
    BitCells(Bits(i, numIn)) + Nones(numIn + 2 * numGates + 2 * numOut)
  }

  /** `[n + '_I/O' for n in names]`. */
  function Suffixed(names: seq<string>): (r: seq<string>)
    ensures |r| == |names|
    ensures forall k :: 0 <= k < |names| ==> r[k] == names[k] + "_I/O"
  {
    seq(|names|, k requires 0 <= k < |names| => names[k] + "_I/O")
  }

  /** The column labels: input, gate and output `_I/O` columns, each followed by the name columns. */
  function Labels(inNames: seq<string>, gateNames: seq<string>, outNames: seq<string>): seq<string>
  {
    Suffixed(inNames) + inNames + Suffixed(gateNames) + gateNames + Suffixed(outNames) + outNames
  }

  /** `generate_truth_table`: one row per input combination, appended in index order. */
  method GenerateTruthTable(numIn: nat, numGates: nat, numOut: nat,
                            inNames: seq<string>, gateNames: seq<string>, outNames: seq<string>)
    returns (table: seq<Row>, labels: seq<string>)
    ensures |table| == Pow2(numIn)
    ensures forall r :: 0 <= r < |table| ==> table[r] == TruthRow(r, numIn, numGates, numOut)
    ensures labels == Labels(inNames, gateNames, outNames)
  {
    table := [];
    var i := 0;
    while i < Pow2(numIn)
      invariant 0 <= i <= Pow2(numIn)
      invariant |table| == i
      invariant forall r :: 0 <= r < i ==> table[r] == TruthRow(r, numIn, numGates, numOut)
    {
      table := table + [TruthRow(i, numIn, numGates, numOut)];
      i := i + 1;
    }
    labels := Labels(inNames, gateNames, outNames);
  }

  /**
   * Every row is as long as the label list when the counts match the name
   * lists; the first numIn cells are row i's digits, every other cell None.
   */
  lemma TruthRowShape(i: nat, inNames: seq<string>, gateNames: seq<string>, outNames: seq<string>)
    requires i < Pow2(|inNames|)
    ensures |TruthRow(i, |inNames|, |gateNames|, |outNames|)| == |Labels(inNames, gateNames, outNames)|
    ensures |Labels(inNames, gateNames, outNames)| == 2 * (|inNames| + |gateNames| + |outNames|)
    ensures forall p :: 0 <= p < |inNames| ==> TruthRow(i, |inNames|, |gateNames|, |outNames|)[p] == Some(Bit(Bits(i, |inNames|)[p]))
    ensures forall p :: |inNames| <= p < |TruthRow(i, |inNames|, |gateNames|, |outNames|)| ==>
              TruthRow(i, |inNames|, |gateNames|, |outNames|)[p] == None
    ensures BitsValue(Bits(i, |inNames|)) == i
  {
    BitsRoundTrip(i, |inNames|);
  }

  // ---------------------------------------------------------------------
  // Inputs
  // ---------------------------------------------------------------------

  datatype Level = Low | High

  /** `switch_onoff`: state 0 selects 'low', every other state 'high'. */
  function LevelOf(state: int): (l: Level)
    ensures l == Low <==> state == 0
  {
    if state == 0 then Low else High
  }

  // ---------------------------------------------------------------------
  // Gates
  // ---------------------------------------------------------------------

  /**
   * A gate of the graph: its name (the UCF gate group in an assignment),
   * type, input bits, output bit and the variant names of `gate_params`,
   * in the order `add_eval_params` first stored them.
   */
  datatype Gate = Gate(name: string, gateType: string, inputs: seq<int>, output: int, variants: seq<string>)

  /** The `inputs` argument of the constructor: a list of bits or a port-to-bit dict. */
  datatype Ports = PortList(bits: seq<int>) | PortDict(entries: Dict<string, int>)

  /** The `output` argument: a bit or a port-to-bit dict. */
  datatype OutPort = OutBit(bit: int) | OutDict(outs: Dict<string, int>)

  /**
   * `Gate.__init__`: a dict of inputs becomes its list of values, a dict
   * output its first value (IndexError for an empty dict); no variants yet.
   */
  function NewGate(name: string, gateType: string, inputs: Ports, output: OutPort): (r: Result<Gate>)
    ensures r.Ok? <==> !(output.OutDict? && |output.outs| == 0)
    ensures r.Err? ==> r.error == IndexError
    ensures r.Ok? ==> r.value.name == name && r.value.gateType == gateType && r.value.variants == []
    ensures r.Ok? && inputs.PortList? ==> r.value.inputs == inputs.bits
    ensures r.Ok? && inputs.PortDict? ==>
              |r.value.inputs| == |inputs.entries| && forall k :: 0 <= k < |inputs.entries| ==> r.value.inputs[k] == inputs.entries[k].1
    ensures r.Ok? && output.OutBit? ==> r.value.output == output.bit
    ensures r.Ok? && output.OutDict? ==> r.value.output == output.outs[0].1
  {
    var ins := match inputs case PortList(bs) => bs case PortDict(d) => Values(d);
    match output
    case OutBit(b) => Ok(Gate(name, gateType, ins, b, []))
    case OutDict(d) =>
      if |d| == 0 then Err(IndexError) else Ok(Gate(name, gateType, ins, Values(d)[0], []))
  }

  /** The `str` of each bit. */
  function BitStrings(bits: seq<int>): (r: seq<string>)
    ensures |r| == |bits|
    ensures forall k :: 0 <= k < |bits| ==> r[k] == IntToString(bits[k])
  {
    seq(|bits|, k requires 0 <= k < |bits| => IntToString(bits[k]))
  }

  /** `uid`: the comma-joined input bits, a '-', and the output bit. */
  function Uid(g: Gate): string
  {
    Join(BitStrings(g.inputs), ",") + "-" + IntToString(g.output)
  }

  /** `__eq__`: two gates are equal iff they have the same inputs and output. */
  predicate SameGate(a: Gate, b: Gate)
  {
    a.inputs == b.inputs && a.output == b.output
  }

  /**
   * `__hash__` hashes the pair (tuple(inputs), output): the same pair that
   * `SameGate` compares, so equal gates hash alike by construction.
   */
  function HashKey(g: Gate): (seq<int>, int)
  {
    (g.inputs, g.output)
  }

  predicate NonNegativeBits(g: Gate)
  {
    g.output >= 0 && forall k :: 0 <= k < |g.inputs| ==> g.inputs[k] >= 0
  }

  lemma NoCharInNatStrings(bits: seq<int>, c: char)
    requires forall k :: 0 <= k < |bits| ==> bits[k] >= 0
    requires !('0' <= c <= '9')
    ensures forall k :: 0 <= k < |bits| ==> c !in BitStrings(bits)[k]
  {
    forall k | 0 <= k < |bits|
      ensures c !in BitStrings(bits)[k]
    {
      var s := BitStrings(bits)[k];
      assert s == NatToString(bits[k]);
      assert forall i :: 0 <= i < |s| ==> s[i] != c;
    }
  }

  lemma NoCharInJoin(parts: seq<string>, sep: string, c: char)
    requires forall k :: 0 <= k < |parts| ==> c !in parts[k]
    requires c !in sep
    ensures c !in Join(parts, sep)
  {
    if |parts| > 1 {
      NoCharInJoin(parts[1..], sep, c);
    }
  }

  lemma JoinNonEmpty(parts: seq<string>, sep: string)
    requires |parts| > 0 && |parts[0]| > 0
    ensures |Join(parts, sep)| > 0
  {
  }

  /** With non-negative bits, `uid` determines the inputs and the output, and back: it is `__eq__`. */
  lemma UidIsIdentity(a: Gate, b: Gate)
    requires NonNegativeBits(a) && NonNegativeBits(b)
    ensures Uid(a) == Uid(b) <==> SameGate(a, b)
  {
    if Uid(a) == Uid(b) {
      var ja, jb := Join(BitStrings(a.inputs), ","), Join(BitStrings(b.inputs), ",");
      var oa, ob := NatToString(a.output), NatToString(b.output);
      NoCharInNatStrings(a.inputs, '-');
      NoCharInNatStrings(b.inputs, '-');
      NoCharInJoin(BitStrings(a.inputs), ",", '-');
      NoCharInJoin(BitStrings(b.inputs), ",", '-');
      NoDashInNat(a.output);
      NoDashInNat(b.output);
      SplitJoin([ja, oa], '-');
      SplitJoin([jb, ob], '-');
      assert Join([ja, oa], "-") == Uid(a);
      assert Join([jb, ob], "-") == Uid(b);
      assert ja == jb && oa == ob;
      NatToStringInjective(a.output, b.output);
      JoinedBitsInjective(a.inputs, b.inputs);
    }
  }

  lemma NoDashInNat(n: nat)
    ensures '-' !in NatToString(n)
  {
    var s := NatToString(n);
    assert forall i :: 0 <= i < |s| ==> s[i] != '-';
  }

  /** The comma-joined rendering of non-negative bit lists is injective. */
  lemma JoinedBitsInjective(xs: seq<int>, ys: seq<int>)
    requires forall k :: 0 <= k < |xs| ==> xs[k] >= 0
    requires forall k :: 0 <= k < |ys| ==> ys[k] >= 0
    requires Join(BitStrings(xs), ",") == Join(BitStrings(ys), ",")
    ensures xs == ys
  {
    var px, py := BitStrings(xs), BitStrings(ys);
    NoCharInNatStrings(xs, ',');
    NoCharInNatStrings(ys, ',');
    if |xs| == 0 || |ys| == 0 {
      if |xs| > 0 {
        JoinNonEmpty(px, ",");
      }
      if |ys| > 0 {
        JoinNonEmpty(py, ",");
      }
    } else {
      SplitJoin(px, ',');
      SplitJoin(py, ',');
      assert px == py;
      forall k | 0 <= k < |xs|
        ensures xs[k] == ys[k]
      {
        assert NatToString(xs[k]) == px[k] == py[k] == NatToString(ys[k]);
        NatToStringInjective(xs[k], ys[k]);
      }
    }
  }

  /**
   * `add_eval_params`: `gate_params[g_name] = params` adds the variant name
   * once, keeping the order in which variants were first stored.
   */
  function AddEvalParams(g: Gate, gName: string): (r: Gate)
    ensures r.name == g.name && r.gateType == g.gateType && r.inputs == g.inputs && r.output == g.output
    ensures forall v :: v in r.variants <==> v in g.variants || v == gName
    ensures Distinct(g.variants) ==> Distinct(r.variants)
    ensures |r.variants| >= |g.variants| && r.variants[..|g.variants|] == g.variants
  {
    if gName in g.variants then g else g.(variants := g.variants + [gName])
  }

  // ---------------------------------------------------------------------
  // Variant selection (eval_gates)
  // ---------------------------------------------------------------------

  /** A recorded variant choice: `best_score` and `gate_in_use`. */
  datatype Choice = Choice(score: real, variant: string)

  /** Python's `>` on (score, name) tuples. */
  predicate Greater(a: Choice, b: Choice)
  {
    a.score > b.score || (a.score == b.score && StrLt(b.variant, a.variant))
  }

  lemma GreaterTransitive(a: Choice, b: Choice, c: Choice)
    requires Greater(a, b) && Greater(b, c)
    ensures Greater(a, c)
  {
    if a.score == b.score && b.score == c.score {
      StrLtTransitive(c.variant, b.variant, a.variant);
    }
  }

  /** Whatever is not above c is not above anything above c. */
  lemma NotAboveGreater(a: Choice, b: Choice, c: Choice)
    requires !Greater(a, c) && Greater(b, c)
    ensures !Greater(a, b)
  {
    if Greater(a, b) {
      GreaterTransitive(a, b, c);
    }
  }

  /** `max(scores)`: the first element no later element exceeds, scanning left to right. */
  function MaxChoice(cs: seq<Choice>): Choice
    requires |cs| > 0
  {
    if |cs| == 1 then cs[0]
    else
      var m := MaxChoice(cs[..|cs| - 1]);
      if Greater(cs[|cs| - 1], m) then cs[|cs| - 1] else m
  }

  /** The maximum is one of the candidates and no candidate is greater. */
  lemma {:induction false} MaxChoiceIsMax(cs: seq<Choice>)
    requires |cs| > 0
    ensures MaxChoice(cs) in cs
    ensures forall k :: 0 <= k < |cs| ==> !Greater(cs[k], MaxChoice(cs))
  {
    if |cs| > 1 {
      var init := cs[..|cs| - 1];
      MaxChoiceIsMax(init);
      var m := MaxChoice(init);
      var last := cs[|cs| - 1];
      assert MaxChoice(cs) == if Greater(last, m) then last else m;
      assert m in cs by {
        var i :| 0 <= i < |init| && init[i] == m;
        assert cs[i] == m;
      }
      forall k | 0 <= k < |cs|
        ensures !Greater(cs[k], MaxChoice(cs))
      {
        if k < |cs| - 1 {
          assert cs[k] == init[k];
          if Greater(last, m) {
            NotAboveGreater(cs[k], last, m);
          }
        } else if !Greater(last, m) {
          assert MaxChoice(cs) == m;
        } else {
          StrLtIrreflexive(last.variant);
        }
      }
    } else {
      StrLtIrreflexive(cs[0].variant);
    }
  }

  /** The (score, name) pair of every variant, in `gate_params` order. */
  function VariantScores(variants: seq<string>, f: string -> real): (cs: seq<Choice>)
    ensures |cs| == |variants|
    ensures forall k :: 0 <= k < |variants| ==> cs[k] == Choice(f(variants[k]), variants[k])
  {
    seq(|variants|, k requires 0 <= k < |variants| => Choice(f(variants[k]), variants[k]))
  }

  /**
   * `eval_gates`: the lexicographic maximum of (score, variant name) over
   * all variants, whatever the row polarity.  Without a variant the
   * response function was never set, `eval_gates` returns None, and the
   * caller's tuple unpacking raises TypeError.
   */
  function EvalGates(variants: seq<string>, f: string -> real): (r: Result<Choice>)
    ensures r.Ok? <==> |variants| > 0
    ensures r.Err? ==> r.error == TypeError
    ensures r.Ok? ==> r.value.variant in variants && r.value.score == f(r.value.variant)
    ensures r.Ok? ==> forall k :: 0 <= k < |variants| ==> !Greater(Choice(f(variants[k]), variants[k]), r.value)
    ensures r.Ok? ==> forall k :: 0 <= k < |variants| ==> f(variants[k]) <= r.value.score
  {
    if |variants| == 0 then Err(TypeError)
    else
      var cs := VariantScores(variants, f);
      MaxChoiceIsMax(cs);
      var best := MaxChoice(cs);
      assert forall k :: 0 <= k < |cs| ==> !Greater(cs[k], best);
      Ok(best)
  }

  /** Among variants of equal top score, the one with the greater name wins. */
  lemma EvalGatesTieBreak(variants: seq<string>, f: string -> real, v: string)
    requires EvalGates(variants, f).Ok?
    requires v in variants && f(v) == EvalGates(variants, f).value.score
    ensures v == EvalGates(variants, f).value.variant || StrLt(v, EvalGates(variants, f).value.variant)
  {
    var best := EvalGates(variants, f).value;
    var k :| 0 <= k < |variants| && variants[k] == v;
    assert !Greater(Choice(f(variants[k]), variants[k]), best);
    StrLtTotal(v, best.variant);
  }

  // ---------------------------------------------------------------------
  // The graph and predecessor lookup (AssignGraph.find_prev)
  // ---------------------------------------------------------------------

  datatype InputNode = InputNode(name: string, id: int)

  datatype OutputNode = OutputNode(name: string, id: int)

  datatype Graph = Graph(inputs: seq<InputNode>, outputs: seq<OutputNode>, gates: seq<Gate>)

  /** A node of the graph, by kind and position. */
  datatype NodeRef = InRef(i: nat) | GateRef(g: nat) | OutRef(o: nat)

  /**
   * What `find_prev` hands back: one node, a list of several, or the
   * ValueError object it returns (not raises) when there is none.
   */
  datatype Prev = One(node: NodeRef) | Many(nodes: seq<NodeRef>) | NotFound

  /**
   * The behaviours in which the older copy of the engine differs: whether
   * netlist outputs count as gate predecessors, and whether every non-NOR
   * gate is propagated as a NOT.
   */
  datatype Rules = Rules(outputsArePreds: bool, nonNorIsNot: bool)

  const CoreRules := Rules(false, false)

  predicate ValidRef(graph: Graph, n: NodeRef)
  {
    match n
    case InRef(k) => k < |graph.inputs|
    case GateRef(k) => k < |graph.gates|
    case OutRef(k) => k < |graph.outputs|
  }

  /**
   * The bit through which a node can feed a gate: a gate's output bit, an
   * input's id, and (older rules only) an output's id.
   */
  function FeedKey(graph: Graph, rules: Rules, q: NodeRef): Option<int>
    requires ValidRef(graph, q)
  {
    match q
    case GateRef(j) => Some(graph.gates[j].output)
    case InRef(k) => Some(graph.inputs[k].id)
    case OutRef(k) => if rules.outputsArePreds then Some(graph.outputs[k].id) else None
  }

  /** A node that feeds one of `bits`. */
  predicate Feeds(graph: Graph, rules: Rules, bits: seq<int>, q: NodeRef)
  {
    ValidRef(graph, q) && FeedKey(graph, rules, q).Some? && FeedKey(graph, rules, q).value in bits
  }

  /** The gates among the first m whose output bit is `bit`, in order. */
  function GatesDriving(gates: seq<Gate>, bit: int, m: nat): (r: seq<NodeRef>)
    requires m <= |gates|
    ensures forall q :: q in r <==> q.GateRef? && q.g < m && gates[q.g].output == bit
  {
    if m == 0 then []
    else GatesDriving(gates, bit, m - 1) + (if gates[m - 1].output == bit then [GateRef(m - 1)] else [])
  }

  /** The outputs among the first m whose id is `bit`, in order. */
  function OutputsWithId(outputs: seq<OutputNode>, bit: int, m: nat): (r: seq<NodeRef>)
    requires m <= |outputs|
    ensures forall q :: q in r <==> q.OutRef? && q.o < m && outputs[q.o].id == bit
  {
    if m == 0 then []
    else OutputsWithId(outputs, bit, m - 1) + (if outputs[m - 1].id == bit then [OutRef(m - 1)] else [])
  }

  /** The inputs among the first m whose id is `bit`, in order. */
  function InputsWithId(inputs: seq<InputNode>, bit: int, m: nat): (r: seq<NodeRef>)
    requires m <= |inputs|
    ensures forall q :: q in r <==> q.InRef? && q.i < m && inputs[q.i].id == bit
  {
    if m == 0 then []
    else InputsWithId(inputs, bit, m - 1) + (if inputs[m - 1].id == bit then [InRef(m - 1)] else [])
  }

  /**
   * The predecessors found for one input bit: the gates driving it, then
   * (older rules) the outputs, then the inputs with that id.  They are
   * exactly the nodes whose feed bit it is.
   */
  function BitPrevs(graph: Graph, rules: Rules, bit: int): (r: seq<NodeRef>)
    ensures forall q :: q in r <==> ValidRef(graph, q) && FeedKey(graph, rules, q) == Some(bit)
  {
    GatesDriving(graph.gates, bit, |graph.gates|)
    + (if rules.outputsArePreds then OutputsWithId(graph.outputs, bit, |graph.outputs|) else [])
    + InputsWithId(graph.inputs, bit, |graph.inputs|)
  }

  /** The predecessors collected for the first n input bits of a gate. */
  function PrevNodes(graph: Graph, rules: Rules, bits: seq<int>, n: nat): (r: seq<NodeRef>)
    requires n <= |bits|
    ensures forall q :: q in r ==> ValidRef(graph, q)
  {
    if n == 0 then []
    else PrevNodes(graph, rules, bits, n - 1) + BitPrevs(graph, rules, bits[n - 1])
  }

  /** The collected predecessors are exactly the nodes feeding one of the gate's first n input bits. */
  lemma {:induction false} PrevNodesMembers(graph: Graph, rules: Rules, bits: seq<int>, n: nat)
    requires n <= |bits|
    ensures forall q :: q in PrevNodes(graph, rules, bits, n) <==> Feeds(graph, rules, bits[..n], q)
  {
    if n > 0 {
      PrevNodesMembers(graph, rules, bits, n - 1);
      assert bits[..n] == bits[..n - 1] + [bits[n - 1]];
    }
  }

  /** The first gate whose output bit is `id`, from position `from` on. */
  function FirstDriver(gates: seq<Gate>, id: int, from: nat): (r: Option<nat>)
    requires from <= |gates|
    ensures r.Some? ==> from <= r.value < |gates| && gates[r.value].output == id
                        && forall j :: from <= j < r.value ==> gates[j].output != id
    ensures r.None? ==> forall j :: from <= j < |gates| ==> gates[j].output != id
    decreases |gates| - from
  {
    if from == |gates| then None
    else if gates[from].output == id then Some(from)
    else FirstDriver(gates, id, from + 1)
  }

  /**
   * `find_prev`: for an Output, the first gate driving its id, or the
   * returned ValueError object; for a Gate, the nodes feeding its input
   * bits, as a list when there are several, bare when there is one, and
   * IndexError when there is none; for anything else, a ValueError object.
   */
  function PrevOf(graph: Graph, rules: Rules, node: NodeRef): (r: Result<Prev>)
    requires ValidRef(graph, node)
    ensures r.Ok? && r.value.One? ==> ValidRef(graph, r.value.node)
    ensures r.Ok? && r.value.Many? ==> |r.value.nodes| > 1 && forall q :: q in r.value.nodes ==> ValidRef(graph, q)
    ensures node.OutRef? ==> r.Ok? && !r.value.Many? && (r.value.One? ==> r.value.node.GateRef?)
    ensures node.InRef? ==> r == Ok(NotFound)
    ensures r.Err? ==> node.GateRef? && r.error == IndexError
  {
    match node
    case OutRef(k) =>
      (match FirstDriver(graph.gates, graph.outputs[k].id, 0)
       case Some(j) => Ok(One(GateRef(j)))
       case None => Ok(NotFound))
    case GateRef(k) =>
      var ps := PrevNodes(graph, rules, graph.gates[k].inputs, |graph.gates[k].inputs|);
      if |ps| > 1 then Ok(Many(ps))
      else if |ps| == 1 then Ok(One(ps[0]))
      else Err(IndexError)
    case InRef(_) => Ok(NotFound)
  }

  /** The nodes a `find_prev` result names: none, one or several. */
  function PrevList(p: Prev): seq<NodeRef>
  {
    match p
    case One(n) => [n]
    case Many(ns) => ns
    case NotFound => []
  }

  /** For a gate, the nodes `find_prev` names are exactly the nodes feeding its input bits. */
  lemma PrevOfGate(graph: Graph, rules: Rules, j: nat)
    requires j < |graph.gates|
    ensures PrevOf(graph, rules, GateRef(j)).Ok? ==>
              forall q :: q in PrevList(PrevOf(graph, rules, GateRef(j)).value) <==> Feeds(graph, rules, graph.gates[j].inputs, q)
    ensures PrevOf(graph, rules, GateRef(j)).Err? <==> !exists q :: Feeds(graph, rules, graph.gates[j].inputs, q)
  {
    var bits := graph.gates[j].inputs;
    PrevNodesMembers(graph, rules, bits, |bits|);
    assert bits[..|bits|] == bits;
    var ps := PrevNodes(graph, rules, bits, |bits|);
    if |ps| == 1 {
      assert forall q :: q in ps <==> q == ps[0];
    }
    if |ps| > 0 {
      assert ps[0] in ps;
    }
  }

  /** The inner loops of `find_prev` for one input bit. */
  method CollectBitPrevs(graph: Graph, rules: Rules, bit: int) returns (ps: seq<NodeRef>)
    ensures ps == BitPrevs(graph, rules, bit)
  {
    var gs := CollectDrivers(graph.gates, bit);
    var os: seq<NodeRef> := [];
    if rules.outputsArePreds {
      os := CollectOutputs(graph.outputs, bit);
    }
    var ins := CollectInputs(graph.inputs, bit);
    ps := gs + os + ins;
  }

  /** The loop over the gates whose output is `bit`. */
  method CollectDrivers(gates: seq<Gate>, bit: int) returns (gs: seq<NodeRef>)
    ensures gs == GatesDriving(gates, bit, |gates|)
  {
    gs := [];
    var m := 0;
    while m < |gates|
      invariant 0 <= m <= |gates|
      invariant gs == GatesDriving(gates, bit, m)
    {
      if gates[m].output == bit {
        gs := gs + [GateRef(m)];
      }
      m := m + 1;
    }
  }

  /** The loop over the outputs whose id is `bit`. */
  method CollectOutputs(outputs: seq<OutputNode>, bit: int) returns (os: seq<NodeRef>)
    ensures os == OutputsWithId(outputs, bit, |outputs|)
  {
    os := [];
    var m := 0;
    while m < |outputs|
      invariant 0 <= m <= |outputs|
      invariant os == OutputsWithId(outputs, bit, m)
    {
      if outputs[m].id == bit {
        os := os + [OutRef(m)];
      }
      m := m + 1;
    }
  }

  /** The loop over the inputs whose id is `bit`. */
  method CollectInputs(inputs: seq<InputNode>, bit: int) returns (ins: seq<NodeRef>)
    ensures ins == InputsWithId(inputs, bit, |inputs|)
  {
    ins := [];
    var m := 0;
    while m < |inputs|
      invariant 0 <= m <= |inputs|
      invariant ins == InputsWithId(inputs, bit, m)
    {
      if inputs[m].id == bit {
        ins := ins + [InRef(m)];
      }
      m := m + 1;
    }
  }

  /** The loops of `find_prev`, with their early return for an Output. */
  method FindPrev(graph: Graph, rules: Rules, node: NodeRef) returns (r: Result<Prev>)
    requires ValidRef(graph, node)
    ensures r == PrevOf(graph, rules, node)
  {
    match node {
      case OutRef(k) =>
        var j := FindDriver(graph.gates, graph.outputs[k].id);
        if j.Some? {
          return Ok(One(GateRef(j.value)));
        }
        return Ok(NotFound);
      case GateRef(k) =>
        var prevs := CollectPrevs(graph, rules, graph.gates[k].inputs);
        if |prevs| > 1 {
          return Ok(Many(prevs));
        }
        if |prevs| == 0 {
          return Err(IndexError);
        }
        return Ok(One(prevs[0]));
      case InRef(_) =>
        return Ok(NotFound);
    }
  }

  /** The loop over the gates looking for the first one driving an output's id. */
  method FindDriver(gates: seq<Gate>, id: int) returns (r: Option<nat>)
    ensures r == FirstDriver(gates, id, 0)
  {
    var j := 0;
    while j < |gates|
      invariant 0 <= j <= |gates|
      invariant FirstDriver(gates, id, 0) == FirstDriver(gates, id, j)
    {
      if gates[j].output == id {
        return Some(j);
      }
      j := j + 1;
    }
    return None;
  }

  /** The loop over a gate's input bits collecting the nodes feeding each. */
  method CollectPrevs(graph: Graph, rules: Rules, bits: seq<int>) returns (prevs: seq<NodeRef>)
    ensures prevs == PrevNodes(graph, rules, bits, |bits|)
  {
    prevs := [];
    var n := 0;
    while n < |bits|
      invariant 0 <= n <= |bits|
      invariant prevs == PrevNodes(graph, rules, bits, n)
    {
      var ps := CollectBitPrevs(graph, rules, bits[n]);
      prevs := prevs + ps;
      n := n + 1;
    }
  }

  // ---------------------------------------------------------------------
  // Analog scores (AssignGraph.get_score)
  // ---------------------------------------------------------------------

  /** The uninterpreted transfer functions of one assignment. */
  datatype Env = Env(
    inputScore: (string, Level) -> real,   // a sensor's out_scores entry for a level
    outputScore: (string, real) -> real,    // an output device's eval_output
    compose: (string, real, real) -> real,  // a gate group's input_composition of x1, x2
    response: (string, real) -> real)       // a gate variant's response function at x

  /** Every variant's response at the composed input x, as `eval_gate` computes it. */
  function ResponseAt(env: Env, x: real): string -> real
  {
    v => env.response(v, x)
  }

  /** c is what `eval_gates` picks for gate j when its composed input is x. */
  predicate ChosenAt(graph: Graph, env: Env, j: nat, c: Choice, x: real)
  {
    j < |graph.gates| && EvalGates(graph.gates[j].variants, ResponseAt(env, x)) == Ok(c)
  }

  /**
   * Every gate's recorded `best_score` and `gate_in_use` are the pick of
   * `eval_gates` for that gate, at the input it was last evaluated at.
   */
  ghost predicate ChoicesChosen(graph: Graph, env: Env, choices: seq<Option<Choice>>)
  {
    |choices| == |graph.gates| &&
    forall j :: 0 <= j < |choices| && choices[j].Some? ==> exists x :: ChosenAt(graph, env, j, choices[j].value, x)
  }

  /** The position of a node kind in the termination measure of the scoring recursion. */
  function Rank(n: NodeRef): nat
  {
    match n
    case InRef(_) => 0
    case GateRef(_) => 2
    case OutRef(_) => 3
  }

  /** A set of gate positions below n has at most n elements. */
  lemma {:induction false} CardBound(s: set<nat>, n: nat)
    requires forall x :: x in s ==> x < n
    ensures |s| <= n
  {
    if n == 0 {
      assert s == {};
    } else {
      var rest := s - {n - 1};
      CardBound(rest, n - 1);
      if n - 1 in s {
        assert s == rest + {n - 1};
      } else {
        assert s == rest;
      }
    }
  }

  /** The positions in the set are gate positions of the graph. */
  predicate GateSet(graph: Graph, s: set<nat>)
  {
    forall x :: x in s ==> x < |graph.gates|
  }

  /**
   * `get_score` on one node.  An Input gives the out_score of the level
   * `switch_onoff` set for this row; an Output applies its device function
   * to its predecessor gate's score; a gate evaluates every variant's
   * response at its composed input (`Composed`), keeps the best one and
   * records it.  A list or the ValueError object where a node is expected
   * raises Exception; a gate reached again while it is being scored
   * recurses without end (RecursionError).
   */
  function GetScore(graph: Graph, rules: Rules, env: Env, levels: seq<Level>, node: NodeRef,
                    onStack: set<nat>, choices: seq<Option<Choice>>): (r: Result<(real, seq<Option<Choice>>)>)
    requires ValidRef(graph, node)
    requires |levels| == |graph.inputs| && |choices| == |graph.gates|
    requires GateSet(graph, onStack)
    ensures r.Ok? ==> |r.value.1| == |graph.gates|
    ensures node.InRef? ==> r == Ok((env.inputScore(graph.inputs[node.i].name, levels[node.i]), choices))
    ensures node.OutRef? && PrevOf(graph, rules, node) == Ok(NotFound) ==> r == Err(GenericException)
    ensures node.GateRef? && node.g in onStack ==> r == Err(RecursionError)
    ensures node.GateRef? && node.g !in onStack ==>
              (r.Ok? ==> Composed(graph, rules, env, levels, node.g, onStack, choices).Ok?) &&
              (Composed(graph, rules, env, levels, node.g, onStack, choices).Err? ==>
                 r.Err? && r.error == Composed(graph, rules, env, levels, node.g, onStack, choices).error)
    ensures r.Ok? && node.GateRef? ==>
              var x := Composed(graph, rules, env, levels, node.g, onStack, choices).value.0;
              var c := r.value.1[node.g];
              c.Some? && c.value.score == r.value.0 &&
              c.value.variant in graph.gates[node.g].variants &&
              c.value.score == env.response(c.value.variant, x) &&
              forall v :: v in graph.gates[node.g].variants ==> env.response(v, x) <= c.value.score
    ensures r.Ok? && ChoicesChosen(graph, env, choices) ==> ChoicesChosen(graph, env, r.value.1)
    decreases |graph.gates| - |onStack|, Rank(node), 0
  {
    CardBound(onStack, |graph.gates|);
    match node
    case InRef(k) => Ok((env.inputScore(graph.inputs[k].name, levels[k]), choices))
    case OutRef(k) =>
      (match PrevOf(graph, rules, node)
       case Ok(One(p)) =>
         (match GetScore(graph, rules, env, levels, p, onStack, choices)
          case Ok((x, after)) => Ok((env.outputScore(graph.outputs[k].name, x), after))
          case Err(e) => Err(e))
       case _ => Err(GenericException))
    case GateRef(j) =>
      if j in onStack then Err(RecursionError)
      else
        match Composed(graph, rules, env, levels, j, onStack, choices)
        case Err(e) => Err(e)
        case Ok((x, after)) =>
          var variants := graph.gates[j].variants;
          match EvalGates(variants, ResponseAt(env, x))
          case Err(e) => Err(e)
          case Ok(c) =>
            assert forall k :: 0 <= k < |variants| ==> env.response(variants[k], x) <= c.score;
            assert ChosenAt(graph, env, j, c, x);
            Ok((c.score, after[j := Some(c)]))
  }

  /**
   * The value `x` a gate evaluates its variants at: a NOT gate's
   * predecessor score, or a NOR gate's input_composition of the scores of its
   * first two predecessors (all of them are scored, in order).  Gate types
   * other than NOR and NOT raise Exception; a NOR gate with a single
   * predecessor is not iterable (TypeError), and one whose equations were
   * never added evaluates None (TypeError).
   */
  function Composed(graph: Graph, rules: Rules, env: Env, levels: seq<Level>, j: nat,
                    onStack: set<nat>, choices: seq<Option<Choice>>): (r: Result<(real, seq<Option<Choice>>)>)
    requires j < |graph.gates| && j !in onStack
    requires |levels| == |graph.inputs| && |choices| == |graph.gates|
    requires GateSet(graph, onStack)
    ensures r.Ok? ==> |r.value.1| == |graph.gates| && graph.gates[j].gateType in ["NOR", "NOT"]
    ensures graph.gates[j].gateType !in ["NOR", "NOT"] ==> r == Err(GenericException)
    ensures r.Ok? && graph.gates[j].gateType == "NOR" ==> |graph.gates[j].variants| > 0
    ensures PrevOf(graph, rules, GateRef(j)).Err? && graph.gates[j].gateType in ["NOR", "NOT"] ==>
              r == Err(IndexError)
    ensures r.Ok? && ChoicesChosen(graph, env, choices) ==> ChoicesChosen(graph, env, r.value.1)
    decreases |graph.gates| - |onStack|, 1, 0
  {
    var gate := graph.gates[j];
    var inner := onStack + {j};
    CardBound(onStack, |graph.gates|);
    CardBound(inner, |graph.gates|);
    if gate.gateType == "NOT" then
      match PrevOf(graph, rules, GateRef(j))
      case Err(e) => Err(e)
      case Ok(One(p)) => GetScore(graph, rules, env, levels, p, inner, choices)
      case Ok(_) => Err(GenericException)
    else if gate.gateType == "NOR" then
      match PrevOf(graph, rules, GateRef(j))
      case Err(e) => Err(e)
      case Ok(Many(ps)) =>
        (match ScoreEach(graph, rules, env, levels, ps, inner, choices)
         case Err(e) => Err(e)
         case Ok((xs, after)) =>
           if |gate.variants| == 0 then Err(TypeError)
           else Ok((env.compose(gate.name, xs[0], xs[1]), after)))
      case Ok(_) => Err(TypeError)
    else Err(GenericException)
  }

  /** `[get_score(x) for x in prevs]`, threading the recorded choices left to right. */
  function ScoreEach(graph: Graph, rules: Rules, env: Env, levels: seq<Level>, ns: seq<NodeRef>,
                     onStack: set<nat>, choices: seq<Option<Choice>>): (r: Result<(seq<real>, seq<Option<Choice>>)>)
    requires forall q :: q in ns ==> ValidRef(graph, q)
    requires |levels| == |graph.inputs| && |choices| == |graph.gates|
    requires GateSet(graph, onStack)
    ensures r.Ok? ==> |r.value.0| == |ns| && |r.value.1| == |graph.gates|
    ensures r.Ok? && ChoicesChosen(graph, env, choices) ==> ChoicesChosen(graph, env, r.value.1)
    decreases |graph.gates| - |onStack|, 4, |ns|
  {
    CardBound(onStack, |graph.gates|);
    if |ns| == 0 then Ok(([], choices))
    else
      match GetScore(graph, rules, env, levels, ns[0], onStack, choices)
      case Err(e) => Err(e)
      case Ok((x, c1)) =>
        match ScoreEach(graph, rules, env, levels, ns[1..], onStack, c1)
        case Err(e) => Err(e)
        case Ok((xs, c2)) => Ok(([x] + xs, c2))
  }

  /**
   * An Output's score is its device function applied to the score of the
   * gate that drives it.
   */
  lemma OutputScoreOfDriver(graph: Graph, rules: Rules, env: Env, levels: seq<Level>, k: nat,
                            onStack: set<nat>, choices: seq<Option<Choice>>)
    requires k < |graph.outputs|
    requires |levels| == |graph.inputs| && |choices| == |graph.gates|
    requires GateSet(graph, onStack)
    requires GetScore(graph, rules, env, levels, OutRef(k), onStack, choices).Ok?
    ensures FirstDriver(graph.gates, graph.outputs[k].id, 0).Some?
    ensures GetScore(graph, rules, env, levels, GateRef(FirstDriver(graph.gates, graph.outputs[k].id, 0).value), onStack, choices).Ok?
    ensures GetScore(graph, rules, env, levels, OutRef(k), onStack, choices).value.0 ==
              env.outputScore(graph.outputs[k].name,
                GetScore(graph, rules, env, levels, GateRef(FirstDriver(graph.gates, graph.outputs[k].id, 0).value), onStack, choices).value.0)
  {
  }

  // ---------------------------------------------------------------------
  // GraphParser
  // ---------------------------------------------------------------------

  /** `load_inputs`: an Input per (name, id) pair, in order. */
  method LoadInputs(inData: seq<(string, int)>) returns (inputs: seq<InputNode>)
    ensures |inputs| == |inData|
    ensures forall k :: 0 <= k < |inData| ==> inputs[k] == InputNode(inData[k].0, inData[k].1)
  {
    inputs := [];
    var k := 0;
    while k < |inData|
      invariant 0 <= k <= |inData|
      invariant |inputs| == k
      invariant forall j :: 0 <= j < k ==> inputs[j] == InputNode(inData[j].0, inData[j].1)
    {
      inputs := inputs + [InputNode(inData[k].0, inData[k].1)];
      k := k + 1;
    }
  }

  /** `load_outputs`: an Output per (name, id) pair, in order. */
  method LoadOutputs(outData: seq<(string, int)>) returns (outputs: seq<OutputNode>)
    ensures |outputs| == |outData|
    ensures forall k :: 0 <= k < |outData| ==> outputs[k] == OutputNode(outData[k].0, outData[k].1)
  {
    outputs := [];
    var k := 0;
    while k < |outData|
      invariant 0 <= k <= |outData|
      invariant |outputs| == k
      invariant forall j :: 0 <= j < k ==> outputs[j] == OutputNode(outData[j].0, outData[j].1)
    {
      outputs := outputs + [OutputNode(outData[k].0, outData[k].1)];
      k := k + 1;
    }
  }

  /** The gate built from one entry of the netlist's `gates` dict. */
  function GateFromInfo(id: string, info: Netlist.GateInfo): Result<Gate>
  {
    NewGate(id, info.gateType, PortDict(info.inputs), OutDict(info.output))
  }

  /**
   * `load_gates`: a Gate per dict entry, in order; a gate whose output map
   * is empty fails with IndexError.
   */
  method LoadGates(gatesData: Dict<string, Netlist.GateInfo>) returns (r: Result<seq<Gate>>)
    ensures r.Ok? <==> forall k :: 0 <= k < |gatesData| ==> |gatesData[k].1.output| > 0
    ensures r.Err? ==> r.error == IndexError
    ensures r.Ok? ==> |r.value| == |gatesData|
    ensures r.Ok? ==> forall k :: 0 <= k < |gatesData| ==> Ok(r.value[k]) == GateFromInfo(gatesData[k].0, gatesData[k].1)
  {
    var gates: seq<Gate> := [];
    var k := 0;
    while k < |gatesData|
      invariant 0 <= k <= |gatesData|
      invariant |gates| == k
      invariant forall j :: 0 <= j < k ==> |gatesData[j].1.output| > 0
      invariant forall j :: 0 <= j < k ==> Ok(gates[j]) == GateFromInfo(gatesData[j].0, gatesData[j].1)
    {
      var g := GateFromInfo(gatesData[k].0, gatesData[k].1);
      if g.Err? {
        return Err(g.error);
      }
      gates := gates + [g.value];
      k := k + 1;
    }
    return Ok(gates);
  }

  /** A UCF gate entry: its 'name' and 'gate_type'. */
  datatype UcfGate = UcfGate(name: string, gateType: string)

  /** The gate of netlist gate g relabelled with UCF gate u. */
  function Relabel(g: Gate, u: UcfGate): Gate
  {
    Gate(u.name, u.gateType, g.inputs, g.output, [])
  }

  /** `new_gates`: for each netlist gate, one relabelled copy per UCF gate. */
  function ProductGates(gates: seq<Gate>, ucfGates: seq<UcfGate>): seq<Gate>
  {
    if |gates| == 0 then []
    else ProductGates(gates[..|gates| - 1], ucfGates)
         + seq(|ucfGates|, k requires 0 <= k < |ucfGates| => Relabel(gates[|gates| - 1], ucfGates[k]))
  }

  lemma {:induction false} ProductGatesLength(gates: seq<Gate>, ucfGates: seq<UcfGate>)
    ensures |ProductGates(gates, ucfGates)| == |gates| * |ucfGates|
  {
    if |gates| > 0 {
      ProductGatesLength(gates[..|gates| - 1], ucfGates);
      assert (|gates| - 1) * |ucfGates| + |ucfGates| == |gates| * |ucfGates|;
    }
  }

  /** Each relabelled copy keeps its netlist gate's ports, so it shares that gate's uid. */
  lemma {:induction false} ProductGatesPorts(gates: seq<Gate>, ucfGates: seq<UcfGate>)
    ensures forall g :: g in ProductGates(gates, ucfGates) ==>
              exists j, k :: 0 <= j < |gates| && 0 <= k < |ucfGates| && g == Relabel(gates[j], ucfGates[k])
  {
    if |gates| > 0 {
      var init := gates[..|gates| - 1];
      ProductGatesPorts(init, ucfGates);
      var last := seq(|ucfGates|, k requires 0 <= k < |ucfGates| => Relabel(gates[|gates| - 1], ucfGates[k]));
      forall g | g in ProductGates(gates, ucfGates)
        ensures exists j, k :: 0 <= j < |gates| && 0 <= k < |ucfGates| && g == Relabel(gates[j], ucfGates[k])
      {
        if g in ProductGates(init, ucfGates) {
          var j, k :| 0 <= j < |init| && 0 <= k < |ucfGates| && g == Relabel(init[j], ucfGates[k]);
          assert init[j] == gates[j];
        } else {
          assert g in last;
          var k :| 0 <= k < |ucfGates| && last[k] == g;
          assert g == Relabel(gates[|gates| - 1], ucfGates[k]);
        }
      }
    }
  }

  /** The gates of `gs` with the given uid, in order. */
  function UidBucket(gs: seq<Gate>, uid: string): (r: seq<Gate>)
    ensures forall g :: g in r <==> g in gs && Uid(g) == uid
  {
    if |gs| == 0 then []
    else UidBucket(gs[..|gs| - 1], uid) + (if Uid(gs[|gs| - 1]) == uid then [gs[|gs| - 1]] else [])
  }

  /** The dict holds, under each uid that occurs in `gs`, the gates of `gs` with that uid, and nothing else. */
  ghost predicate BucketsOf(d: Dict<string, seq<Gate>>, gs: seq<Gate>)
  {
    forall u :: Get(d, u) == (if UidBucket(gs, u) == [] then None else Some(UidBucket(gs, u)))
  }

  lemma UidBucketSnoc(gs: seq<Gate>, g: Gate, u: string)
    ensures UidBucket(gs + [g], u) == UidBucket(gs, u) + (if Uid(g) == u then [g] else [])
  {
    assert (gs + [g])[..|gs|] == gs;
  }

  lemma BucketStep(d: Dict<string, seq<Gate>>, gs: seq<Gate>, g: Gate)
    requires BucketsOf(d, gs)
    ensures BucketsOf(Put(d, Uid(g), UidBucket(gs, Uid(g)) + [g]), gs + [g])
  {
    var u := Uid(g);
    var d' := Put(d, u, UidBucket(gs, u) + [g]);
    forall v
      ensures Get(d', v) == (if UidBucket(gs + [g], v) == [] then None else Some(UidBucket(gs + [g], v)))
    {
      GetPut(d, u, UidBucket(gs, u) + [g], v);
      UidBucketSnoc(gs, g, v);
      var b := UidBucket(gs + [g], v);
      if v == u {
        assert b == UidBucket(gs, u) + [g];
        assert |b| > 0;
        assert Get(d', v) == Some(b);
      } else {
        assert b == UidBucket(gs, v);
        assert Get(d', v) == Get(d, v);
      }
    }
  }

  /** `gate_dict[uid]` read back as a list, empty for a uid not yet seen. */
  lemma BucketGet(d: Dict<string, seq<Gate>>, gs: seq<Gate>, u: string)
    requires BucketsOf(d, gs)
    ensures (match Get(d, u) case Some(b) => b case None => []) == UidBucket(gs, u)
  {
    assert Get(d, u) == (if UidBucket(gs, u) == [] then None else Some(UidBucket(gs, u)));
  }

  /** The first loop of `permute_gates`: one relabelled copy of each netlist gate per UCF gate. */
  method RelabelAll(gates: seq<Gate>, ucfGates: seq<UcfGate>) returns (newGates: seq<Gate>)
    ensures newGates == ProductGates(gates, ucfGates)
  {
    newGates := [];
    var n := 0;
    while n < |gates|
      invariant 0 <= n <= |gates|
      invariant newGates == ProductGates(gates[..n], ucfGates)
    {
      var row: seq<Gate> := [];
      var k := 0;
      while k < |ucfGates|
        invariant 0 <= k <= |ucfGates|
        invariant |row| == k
        invariant forall i :: 0 <= i < k ==> row[i] == Relabel(gates[n], ucfGates[i])
      {
        row := row + [Relabel(gates[n], ucfGates[k])];
        k := k + 1;
      }
      assert gates[..n + 1][..n] == gates[..n];
      newGates := newGates + row;
      n := n + 1;
    }
    assert gates[..n] == gates;
  }

  /** The second loop of `permute_gates`: append each gate to the list under its uid. */
  method BucketByUid(gs: seq<Gate>) returns (gateDict: Dict<string, seq<Gate>>)
    ensures BucketsOf(gateDict, gs)
  {
    gateDict := [];
    var m := 0;
    while m < |gs|
      invariant 0 <= m <= |gs|
      invariant BucketsOf(gateDict, gs[..m])
    {
      var g := gs[m];
      assert gs[..m + 1] == gs[..m] + [g];
      var u := Uid(g);
      var bucket := match Get(gateDict, u) case Some(b) => b case None => [];
      BucketGet(gateDict, gs[..m], u);
      BucketStep(gateDict, gs[..m], g);
      gateDict := Put(gateDict, u, bucket + [g]);
      m := m + 1;
    }
    assert gs[..m] == gs;
  }

  /**
   * `permute_gates`: the relabelled gates, and the dict from each uid
   * that occurs to the gates sharing it, in order.
   */
  method PermuteGates(gates: seq<Gate>, ucfGates: seq<UcfGate>) returns (newGates: seq<Gate>, gateDict: Dict<string, seq<Gate>>)
    ensures newGates == ProductGates(gates, ucfGates)
    ensures forall u :: u in Keys(gateDict) <==> exists g :: g in newGates && Uid(g) == u
    ensures forall u :: u in Keys(gateDict) ==> Get(gateDict, u) == Some(UidBucket(newGates, u))
  {
    newGates := RelabelAll(gates, ucfGates);
    gateDict := BucketByUid(newGates);
    forall u
      ensures u in Keys(gateDict) <==> exists g :: g in newGates && Uid(g) == u
    {
      if u in Keys(gateDict) {
        var b := UidBucket(newGates, u);
        assert b != [];
        assert b[0] in newGates && Uid(b[0]) == u;
      } else {
        assert UidBucket(newGates, u) == [];
      }
    }
  }
}
