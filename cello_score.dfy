/**
 * `CELLO3.score_circuit` of core_algorithm/celloAlgo.py: the truth table of
 * one assignment is filled row by row (binary propagation through the
 * gates, then analog scores), and the output columns are reduced to one
 * circuit score.
 *
 * Column positions follow the label layout of `generate_truth_table`:
 * input `_I/O` columns, input names, gate `_I/O` columns, gate names,
 * output `_I/O` columns, output names.  The source finds a column with
 * `labels.index`; with pairwise distinct labels that is the position
 * computed here (`LabelLookupIsPosition`).
 */
module CelloScore {
  import opened Wrappers
  import opened PyStr
  import opened GateAssignment

  // ---------------------------------------------------------------------
  // Columns
  // ---------------------------------------------------------------------

  function Width(graph: Graph): nat
  {
    2 * (|graph.inputs| + |graph.gates| + |graph.outputs|)
  }

  /** The `_I/O` column of a node. */
  function IOCol(graph: Graph, q: NodeRef): (c: nat)
    requires ValidRef(graph, q)
    ensures c < Width(graph)
  {
    var ni, ng := |graph.inputs|, |graph.gates|;
    match q
    case InRef(k) => k
    case GateRef(j) => 2 * ni + j
    case OutRef(o) => 2 * ni + 2 * ng + o
  }

  /** The name column of a node. */
  function NameCol(graph: Graph, q: NodeRef): (c: nat)
    requires ValidRef(graph, q)
    ensures c < Width(graph)
  {
    var ni, ng, no := |graph.inputs|, |graph.gates|, |graph.outputs|;
    match q
    case InRef(k) => ni + k
    case GateRef(j) => 2 * ni + ng + j
    case OutRef(o) => 2 * ni + 2 * ng + no + o
  }

  /** Column c holds `_I/O` values. */
  predicate IsIOCol(graph: Graph, c: int)
  {
    var ni, ng, no := |graph.inputs|, |graph.gates|, |graph.outputs|;
    (0 <= c < ni) || (2 * ni <= c < 2 * ni + ng) || (2 * ni + 2 * ng <= c < 2 * ni + 2 * ng + no)
  }

  lemma ColumnKinds(graph: Graph, q: NodeRef)
    requires ValidRef(graph, q)
    ensures IsIOCol(graph, IOCol(graph, q)) && !IsIOCol(graph, NameCol(graph, q))
  {
  }

  function InputNames(graph: Graph): (r: seq<string>)
    ensures |r| == |graph.inputs| && forall k :: 0 <= k < |r| ==> r[k] == graph.inputs[k].name
  {
    seq(|graph.inputs|, k requires 0 <= k < |graph.inputs| => graph.inputs[k].name)
  }

  function GateNames(graph: Graph): (r: seq<string>)
    ensures |r| == |graph.gates| && forall k :: 0 <= k < |r| ==> r[k] == graph.gates[k].name
  {
    seq(|graph.gates|, k requires 0 <= k < |graph.gates| => graph.gates[k].name)
  }

  function OutputNames(graph: Graph): (r: seq<string>)
    ensures |r| == |graph.outputs| && forall k :: 0 <= k < |r| ==> r[k] == graph.outputs[k].name
  {
    seq(|graph.outputs|, k requires 0 <= k < |graph.outputs| => graph.outputs[k].name)
  }

  function TableLabels(graph: Graph): seq<string>
  {
    Labels(InputNames(graph), GateNames(graph), OutputNames(graph))
  }

  function NodeName(graph: Graph, q: NodeRef): string
    requires ValidRef(graph, q)
  {
    match q
    case InRef(k) => graph.inputs[k].name
    case GateRef(j) => graph.gates[j].name
    case OutRef(o) => graph.outputs[o].name
  }

  /** The label at a node's `_I/O` column is its name + '_I/O', and at its name column its name. */
  lemma ColumnLabels(graph: Graph, q: NodeRef)
    requires ValidRef(graph, q)
    ensures |TableLabels(graph)| == Width(graph)
    ensures TableLabels(graph)[IOCol(graph, q)] == NodeName(graph, q) + "_I/O"
    ensures TableLabels(graph)[NameCol(graph, q)] == NodeName(graph, q)
  {
    var i, g, o := InputNames(graph), GateNames(graph), OutputNames(graph);
    var ls := TableLabels(graph);
    assert ls == Suffixed(i) + i + Suffixed(g) + g + Suffixed(o) + o;
  }

  /** `xs.index(x)` finds the only position holding x. */
  lemma IndexOfDistinct(xs: seq<string>, c: nat)
    requires Distinct(xs) && c < |xs|
    ensures IndexOf(xs, xs[c]) == Ok(c)
  {
    var r := IndexOf(xs, xs[c]);
    assert xs[c] in xs;
  }

  /** With pairwise distinct labels, `labels.index(name + '_I/O')` and `labels.index(name)` are the columns used here. */
  lemma LabelLookupIsPosition(graph: Graph, q: NodeRef)
    requires ValidRef(graph, q) && Distinct(TableLabels(graph))
    ensures IndexOf(TableLabels(graph), NodeName(graph, q) + "_I/O") == Ok(IOCol(graph, q))
    ensures IndexOf(TableLabels(graph), NodeName(graph, q)) == Ok(NameCol(graph, q))
  {
    ColumnLabels(graph, q);
    IndexOfDistinct(TableLabels(graph), IOCol(graph, q));
    IndexOfDistinct(TableLabels(graph), NameCol(graph, q));
  }

  /** The `_I/O` cell of a node in a row. */
  function CellOf(graph: Graph, row: Row, q: NodeRef): Option<Cell>
    requires ValidRef(graph, q) && |row| == Width(graph)
  {
    row[IOCol(graph, q)]
  }

  // ---------------------------------------------------------------------
  // Binary propagation (fill_truth_table_IO)
  // ---------------------------------------------------------------------

  /** `1 if len(io_s) == 2 and sum(io_s) == 0 else 0`; a sum over a missing value fails. */
  function NorOf(vals: seq<Option<Cell>>): Result<int>
  {
    if |vals| != 2 then Ok(0)
    else
      match (vals[0], vals[1])
      case (Some(Bit(a)), Some(Bit(b))) => Ok(if a + b == 0 then 1 else 0)
      case _ => Err(TypeError)
  }

  /** A NOT gate: 0 gives 1, 1 gives 0, anything else raises RecursionError. */
  function NotOf(v: Option<Cell>): Result<int>
  {
    if v == Some(Bit(0)) then Ok(1)
    else if v == Some(Bit(1)) then Ok(0)
    else Err(RecursionError)
  }

  /**
   * `fill_truth_table_IO(node)` on one row.  A gate's predecessors are
   * filled first where their `_I/O` cell is still empty (`Memo`); a NOR gate
   * iterates over the list of predecessors, a NOT gate (and, under the
   * older rules, any gate that is not a NOR) reads its single predecessor;
   * an Output copies the value of the gate that drives it.  A gate met
   * again while it is being filled is the interpreter's RecursionError.
   */
  function FillIO(graph: Graph, rules: Rules, row: Row, node: NodeRef, onStack: set<nat>): (r: Result<Row>)
    requires |row| == Width(graph) && ValidRef(graph, node) && GateSet(graph, onStack)
    ensures r.Ok? ==> |r.value| == Width(graph)
    ensures node.InRef? ==> r == Err(NameError)
    decreases |graph.gates| - |onStack|, Rank(node), 0
  {
    CardBound(onStack, |graph.gates|);
    match node
    case InRef(_) => Err(NameError)
    case OutRef(_) =>
      (match PrevOf(graph, rules, node)
       case Ok(One(p)) =>
         (match Memo(graph, rules, row, p, onStack)
          case Err(e) => Err(e)
          case Ok(row1) => Ok(row1[IOCol(graph, node) := CellOf(graph, row1, p)]))
       case _ => Err(ValueError))
    case GateRef(j) =>
      if j in onStack then Err(RecursionError)
      else
        var inner := onStack + {j};
        CardBound(inner, |graph.gates|);
        var gt := graph.gates[j].gateType;
        if gt == "NOR" then
          match PrevOf(graph, rules, node)
          case Err(e) => Err(e)
          case Ok(Many(ps)) =>
            (match FillEach(graph, rules, row, ps, inner)
             case Err(e) => Err(e)
             case Ok((row1, vals)) =>
               match NorOf(vals)
               case Err(e) => Err(e)
               case Ok(b) => Ok(row1[IOCol(graph, node) := Some(Bit(b))]))
          case Ok(_) => Err(TypeError)
        else if gt == "NOT" || rules.nonNorIsNot then
          match PrevOf(graph, rules, node)
          case Err(e) => Err(e)
          case Ok(One(p)) =>
            (match Memo(graph, rules, row, p, inner)
             case Err(e) => Err(e)
             case Ok(row1) =>
               match NotOf(CellOf(graph, row1, p))
               case Err(e) => Err(e)
               case Ok(b) => Ok(row1[IOCol(graph, node) := Some(Bit(b))]))
          case Ok(_) => Err(ValueError)
        else
          // The source calls `find_prev` before this dispatch, so its IndexError
          // would come first; the order is collapsed on purpose, because
          // `FillOutputs` turns either error into RecursionError.
          Err(UnboundLocalError)
  }

  /** `if get_tb_IO_val(p) is None: fill_truth_table_IO(p)`. */
  function Memo(graph: Graph, rules: Rules, row: Row, p: NodeRef, onStack: set<nat>): (r: Result<Row>)
    requires |row| == Width(graph) && ValidRef(graph, p) && GateSet(graph, onStack)
    ensures r.Ok? ==> |r.value| == Width(graph)
    ensures CellOf(graph, row, p).Some? ==> r == Ok(row)
    decreases |graph.gates| - |onStack|, Rank(p), 1
  {
    if CellOf(graph, row, p).Some? then Ok(row) else FillIO(graph, rules, row, p, onStack)
  }

  /** The NOR loop over the predecessors: fill each where needed and collect its value. */
  function FillEach(graph: Graph, rules: Rules, row: Row, ps: seq<NodeRef>, onStack: set<nat>): (r: Result<(Row, seq<Option<Cell>>)>)
    requires |row| == Width(graph) && GateSet(graph, onStack)
    requires forall p :: p in ps ==> ValidRef(graph, p)
    ensures r.Ok? ==> |r.value.0| == Width(graph) && |r.value.1| == |ps|
    decreases |graph.gates| - |onStack|, 5, |ps|
  {
    CardBound(onStack, |graph.gates|);
    if |ps| == 0 then Ok((row, []))
    else
      match Memo(graph, rules, row, ps[0], onStack)
      case Err(e) => Err(e)
      case Ok(row1) =>
        match FillEach(graph, rules, row1, ps[1..], onStack)
        case Err(e) => Err(e)
        case Ok((row2, vals)) => Ok((row2, [CellOf(graph, row1, ps[0])] + vals))
  }

  // ---------------------------------------------------------------------
  // What a filled row satisfies
  // ---------------------------------------------------------------------

  predicate BitCell(c: Option<Cell>)
  {
    c == Some(Bit(0)) || c == Some(Bit(1))
  }

  /** The NOR of the cells of a predecessor list: 1 iff there are exactly two and both are 0. */
  function NorValue(graph: Graph, row: Row, ps: seq<NodeRef>): int
    requires |row| == Width(graph) && forall p :: p in ps ==> ValidRef(graph, p)
  {
    if |ps| == 2 && CellOf(graph, row, ps[0]) == Some(Bit(0)) && CellOf(graph, row, ps[1]) == Some(Bit(0)) then 1 else 0
  }

  /** A filled gate cell is the NOR or NOT of its predecessors' filled cells. */
  predicate GateRule(graph: Graph, rules: Rules, row: Row, j: nat)
    requires j < |graph.gates| && |row| == Width(graph)
  {
    var prev := PrevOf(graph, rules, GateRef(j));
    var gt := graph.gates[j].gateType;
    if gt == "NOR" then
      prev.Ok? && prev.value.Many? &&
      (forall p :: p in prev.value.nodes ==> BitCell(CellOf(graph, row, p))) &&
      CellOf(graph, row, GateRef(j)) == Some(Bit(NorValue(graph, row, prev.value.nodes)))
    else if gt == "NOT" || rules.nonNorIsNot then
      prev.Ok? && prev.value.One? &&
      BitCell(CellOf(graph, row, prev.value.node)) &&
      CellOf(graph, row, GateRef(j)) == Some(Bit(1 - CellOf(graph, row, prev.value.node).value.b))
    else false
  }

  /**
   * An input cell holds its bit; a filled gate cell follows its gate's
   * rule; a filled output cell is the bit of the gate that drives it.
   */
  predicate NodeConsistent(graph: Graph, rules: Rules, row: Row, q: NodeRef)
    requires ValidRef(graph, q) && |row| == Width(graph)
  {
    match q
    case InRef(_) => BitCell(CellOf(graph, row, q))
    case GateRef(j) => CellOf(graph, row, q).Some? ==> GateRule(graph, rules, row, j)
    case OutRef(_) =>
      CellOf(graph, row, q).Some? ==>
        var prev := PrevOf(graph, rules, q);
        prev.Ok? && prev.value.One? && BitCell(CellOf(graph, row, q)) &&
        CellOf(graph, row, prev.value.node) == CellOf(graph, row, q)
  }

  ghost predicate Consistent(graph: Graph, rules: Rules, row: Row)
  {
    |row| == Width(graph) && forall q :: ValidRef(graph, q) ==> NodeConsistent(graph, rules, row, q)
  }

  /** Every filled `_I/O` cell of a consistent row is kept in the later row. */
  ghost predicate Extends(graph: Graph, row: Row, row': Row)
    requires |row| == Width(graph) && |row'| == Width(graph)
  {
    forall q :: ValidRef(graph, q) && CellOf(graph, row, q).Some? ==> CellOf(graph, row', q) == CellOf(graph, row, q)
  }

  /** The gates being filled still have an empty cell. */
  ghost predicate StackClear(graph: Graph, row: Row, onStack: set<nat>)
    requires |row| == Width(graph) && GateSet(graph, onStack)
  {
    forall s :: s in onStack ==> CellOf(graph, row, GateRef(s)) == None
  }

  /** Only `_I/O` columns differ. */
  ghost predicate SameNames(graph: Graph, row: Row, row': Row)
  {
    |row| == |row'| && forall c :: 0 <= c < |row| && !IsIOCol(graph, c) ==> row'[c] == row[c]
  }

  ghost predicate FillPost(graph: Graph, rules: Rules, row: Row, row': Row, onStack: set<nat>)
    requires |row| == Width(graph) && GateSet(graph, onStack)
  {
    |row'| == Width(graph) && Consistent(graph, rules, row') && Extends(graph, row, row') &&
    StackClear(graph, row', onStack) && SameNames(graph, row, row')
  }

  lemma FillPostTrans(graph: Graph, rules: Rules, row: Row, row1: Row, row2: Row, onStack: set<nat>)
    requires |row| == Width(graph) && GateSet(graph, onStack)
    requires FillPost(graph, rules, row, row1, onStack) && FillPost(graph, rules, row1, row2, onStack)
    ensures FillPost(graph, rules, row, row2, onStack)
  {
  }

  /** A filled cell of a consistent row is a bit. */
  lemma ConsistentBits(graph: Graph, rules: Rules, row: Row, q: NodeRef)
    requires Consistent(graph, rules, row) && ValidRef(graph, q) && CellOf(graph, row, q).Some?
    ensures BitCell(CellOf(graph, row, q))
  {
    assert NodeConsistent(graph, rules, row, q);
  }

  /** The rule of a filled node only reads filled cells, so a row that keeps them keeps the rule. */
  lemma NodeConsistentExtends(graph: Graph, rules: Rules, row: Row, row': Row, q: NodeRef)
    requires |row| == Width(graph) && |row'| == Width(graph) && ValidRef(graph, q)
    requires NodeConsistent(graph, rules, row, q) && Extends(graph, row, row')
    requires CellOf(graph, row, q).Some?
    ensures NodeConsistent(graph, rules, row', q)
  {
    if q.GateRef? {
      var prev := PrevOf(graph, rules, q);
      var gt := graph.gates[q.g].gateType;
      if gt == "NOR" {
        var ps := prev.value.nodes;
        assert forall p :: p in ps ==> CellOf(graph, row', p) == CellOf(graph, row, p);
        if |ps| == 2 {
          assert ps[0] in ps && ps[1] in ps;
        }
        assert NorValue(graph, row', ps) == NorValue(graph, row, ps);
      }
    } else if q.OutRef? {
      var prev := PrevOf(graph, rules, q);
      assert CellOf(graph, row', prev.value.node) == CellOf(graph, row, prev.value.node);
    }
  }

  /** Writing a node's empty cell keeps a row consistent when the node's own rule holds afterwards. */
  lemma ConsistentFill(graph: Graph, rules: Rules, row: Row, n: NodeRef, v: Option<Cell>)
    requires Consistent(graph, rules, row) && ValidRef(graph, n) && CellOf(graph, row, n) == None
    requires NodeConsistent(graph, rules, row[IOCol(graph, n) := v], n)
    ensures Consistent(graph, rules, row[IOCol(graph, n) := v])
    ensures Extends(graph, row, row[IOCol(graph, n) := v])
    ensures SameNames(graph, row, row[IOCol(graph, n) := v])
  {
    var row' := row[IOCol(graph, n) := v];
    assert Extends(graph, row, row') by {
      forall q | ValidRef(graph, q) && CellOf(graph, row, q).Some?
        ensures CellOf(graph, row', q) == CellOf(graph, row, q)
      {
        assert IOCol(graph, q) != IOCol(graph, n);
      }
    }
    forall q | ValidRef(graph, q)
      ensures NodeConsistent(graph, rules, row', q)
    {
      if q != n {
        assert NodeConsistent(graph, rules, row, q);
        if CellOf(graph, row, q).Some? {
          NodeConsistentExtends(graph, rules, row, row', q);
        } else {
          assert IOCol(graph, q) != IOCol(graph, n) by {
            if IOCol(graph, q) == IOCol(graph, n) {
              IOColInjective(graph, q, n);
            }
          }
          assert CellOf(graph, row', q) == None;
        }
      }
    }
    ColumnKinds(graph, n);
  }

  lemma IOColInjective(graph: Graph, q: NodeRef, n: NodeRef)
    requires ValidRef(graph, q) && ValidRef(graph, n) && IOCol(graph, q) == IOCol(graph, n)
    ensures q == n
  {
  }

  /**
   * Filling a node where its cell is empty keeps a consistent row
   * consistent, never changes a cell that was already filled, leaves the
   * gates being filled empty, writes only `_I/O` columns, and fills the node.
   */
  lemma {:induction false} FillSound(graph: Graph, rules: Rules, row: Row, node: NodeRef, onStack: set<nat>)
    requires Consistent(graph, rules, row) && ValidRef(graph, node) && GateSet(graph, onStack)
    requires StackClear(graph, row, onStack)
    requires node.GateRef? && node.g !in onStack ==> CellOf(graph, row, node) == None
    ensures FillIO(graph, rules, row, node, onStack).Ok? ==>
              FillPost(graph, rules, row, FillIO(graph, rules, row, node, onStack).value, onStack) &&
              CellOf(graph, FillIO(graph, rules, row, node, onStack).value, node).Some?
    decreases |graph.gates| - |onStack|, Rank(node), 0, 1
  {
    var r := FillIO(graph, rules, row, node, onStack);
    if r.Ok? {
      match node {
        case InRef(_) =>
        case OutRef(_) => FillOutputSound(graph, rules, row, node, onStack);
        case GateRef(j) =>
          if graph.gates[j].gateType == "NOR" {
            FillNorSound(graph, rules, row, j, onStack);
          } else {
            FillNotSound(graph, rules, row, j, onStack);
          }
      }
    }
  }

  lemma {:induction false} FillOutputSound(graph: Graph, rules: Rules, row: Row, node: NodeRef, onStack: set<nat>)
    requires Consistent(graph, rules, row) && ValidRef(graph, node) && node.OutRef? && GateSet(graph, onStack)
    requires StackClear(graph, row, onStack)
    requires FillIO(graph, rules, row, node, onStack).Ok?
    ensures FillPost(graph, rules, row, FillIO(graph, rules, row, node, onStack).value, onStack) &&
            CellOf(graph, FillIO(graph, rules, row, node, onStack).value, node).Some?
    decreases |graph.gates| - |onStack|, Rank(node), 0, 0
  {
    var r := FillIO(graph, rules, row, node, onStack);
    var p := PrevOf(graph, rules, node).value.node;
    MemoSound(graph, rules, row, p, onStack);
    var row1 := Memo(graph, rules, row, p, onStack).value;
    var v := CellOf(graph, row1, p);
    assert r.value == row1[IOCol(graph, node) := v];
    ConsistentBits(graph, rules, row1, p);
    if CellOf(graph, row1, node).Some? {
      assert NodeConsistent(graph, rules, row1, node);
      assert r.value == row1;
    } else {
      assert IOCol(graph, p) != IOCol(graph, node);
      ConsistentFill(graph, rules, row1, node, v);
    }
    FillPostTrans(graph, rules, row, row1, r.value, onStack);
  }

  lemma {:induction false} FillNorSound(graph: Graph, rules: Rules, row: Row, j: nat, onStack: set<nat>)
    requires Consistent(graph, rules, row) && j < |graph.gates| && GateSet(graph, onStack)
    requires graph.gates[j].gateType == "NOR" && j !in onStack
    requires StackClear(graph, row, onStack) && CellOf(graph, row, GateRef(j)) == None
    requires FillIO(graph, rules, row, GateRef(j), onStack).Ok?
    ensures FillPost(graph, rules, row, FillIO(graph, rules, row, GateRef(j), onStack).value, onStack) &&
            CellOf(graph, FillIO(graph, rules, row, GateRef(j), onStack).value, GateRef(j)).Some?
    decreases |graph.gates| - |onStack|, Rank(GateRef(j)), 0, 0
  {
    var node := GateRef(j);
    var inner := onStack + {j};
    CardBound(onStack, |graph.gates|);
    CardBound(inner, |graph.gates|);
    assert StackClear(graph, row, inner);
    var ps := PrevOf(graph, rules, node).value.nodes;
    FillEachSound(graph, rules, row, ps, inner);
    var row1 := FillEach(graph, rules, row, ps, inner).value.0;
    var vals := FillEach(graph, rules, row, ps, inner).value.1;
    var b := NorOf(vals).value;
    var v := Some(Bit(b));
    assert CellOf(graph, row1, node) == None;
    forall p | p in ps
      ensures BitCell(CellOf(graph, row1, p)) && IOCol(graph, p) != IOCol(graph, node)
    {
      var k :| 0 <= k < |ps| && ps[k] == p;
      ConsistentBits(graph, rules, row1, p);
    }
    var row2 := row1[IOCol(graph, node) := v];
    assert row2 == FillIO(graph, rules, row, node, onStack).value;
    assert forall p :: p in ps ==> CellOf(graph, row2, p) == CellOf(graph, row1, p);
    if |ps| == 2 {
      assert ps[0] in ps && ps[1] in ps;
      assert vals[0] == CellOf(graph, row1, ps[0]) && vals[1] == CellOf(graph, row1, ps[1]);
    }
    assert NorValue(graph, row2, ps) == b;
    assert GateRule(graph, rules, row2, j);
    ConsistentFill(graph, rules, row1, node, v);
    StackStep(graph, rules, row, row1, row2, j, onStack);
  }

  lemma {:induction false} FillNotSound(graph: Graph, rules: Rules, row: Row, j: nat, onStack: set<nat>)
    requires Consistent(graph, rules, row) && j < |graph.gates| && GateSet(graph, onStack)
    requires graph.gates[j].gateType != "NOR" && j !in onStack
    requires StackClear(graph, row, onStack) && CellOf(graph, row, GateRef(j)) == None
    requires FillIO(graph, rules, row, GateRef(j), onStack).Ok?
    ensures FillPost(graph, rules, row, FillIO(graph, rules, row, GateRef(j), onStack).value, onStack) &&
            CellOf(graph, FillIO(graph, rules, row, GateRef(j), onStack).value, GateRef(j)).Some?
    decreases |graph.gates| - |onStack|, Rank(GateRef(j)), 0, 0
  {
    var node := GateRef(j);
    var inner := onStack + {j};
    CardBound(onStack, |graph.gates|);
    CardBound(inner, |graph.gates|);
    assert StackClear(graph, row, inner);
    var p := PrevOf(graph, rules, node).value.node;
    MemoSound(graph, rules, row, p, inner);
    var row1 := Memo(graph, rules, row, p, inner).value;
    ConsistentBits(graph, rules, row1, p);
    var b := NotOf(CellOf(graph, row1, p)).value;
    var v := Some(Bit(b));
    assert CellOf(graph, row1, node) == None;
    assert IOCol(graph, p) != IOCol(graph, node);
    var row2 := row1[IOCol(graph, node) := v];
    assert row2 == FillIO(graph, rules, row, node, onStack).value;
    assert CellOf(graph, row2, p) == CellOf(graph, row1, p);
    assert GateRule(graph, rules, row2, j);
    ConsistentFill(graph, rules, row1, node, v);
    StackStep(graph, rules, row, row1, row2, j, onStack);
  }

  /** The cell written for gate j, which is not on the outer stack, leaves the outer stack's cells empty. */
  lemma StackStep(graph: Graph, rules: Rules, row: Row, row1: Row, row2: Row, j: nat, onStack: set<nat>)
    requires |row| == Width(graph) && j < |graph.gates| && j !in onStack && GateSet(graph, onStack + {j})
    requires FillPost(graph, rules, row, row1, onStack + {j})
    requires |row2| == Width(graph) && Consistent(graph, rules, row2) && Extends(graph, row1, row2) && SameNames(graph, row1, row2)
    requires forall c :: 0 <= c < |row1| && c != IOCol(graph, GateRef(j)) ==> row2[c] == row1[c]
    ensures FillPost(graph, rules, row, row2, onStack)
  {
    forall s | s in onStack
      ensures CellOf(graph, row2, GateRef(s)) == None
    {
      assert CellOf(graph, row1, GateRef(s)) == None;
      assert IOCol(graph, GateRef(s)) != IOCol(graph, GateRef(j));
    }
  }

  lemma {:induction false} MemoSound(graph: Graph, rules: Rules, row: Row, p: NodeRef, onStack: set<nat>)
    requires Consistent(graph, rules, row) && ValidRef(graph, p) && GateSet(graph, onStack)
    requires StackClear(graph, row, onStack)
    ensures Memo(graph, rules, row, p, onStack).Ok? ==>
              FillPost(graph, rules, row, Memo(graph, rules, row, p, onStack).value, onStack) &&
              CellOf(graph, Memo(graph, rules, row, p, onStack).value, p).Some?
    decreases |graph.gates| - |onStack|, Rank(p), 1, 0
  {
    if CellOf(graph, row, p).None? {
      FillSound(graph, rules, row, p, onStack);
    }
  }

  lemma {:induction false} FillEachSound(graph: Graph, rules: Rules, row: Row, ps: seq<NodeRef>, onStack: set<nat>)
    requires Consistent(graph, rules, row) && GateSet(graph, onStack)
    requires forall p :: p in ps ==> ValidRef(graph, p)
    requires StackClear(graph, row, onStack)
    ensures FillEach(graph, rules, row, ps, onStack).Ok? ==>
              FillPost(graph, rules, row, FillEach(graph, rules, row, ps, onStack).value.0, onStack) &&
              forall k :: 0 <= k < |ps| ==>
                CellOf(graph, FillEach(graph, rules, row, ps, onStack).value.0, ps[k]).Some? &&
                FillEach(graph, rules, row, ps, onStack).value.1[k] == CellOf(graph, FillEach(graph, rules, row, ps, onStack).value.0, ps[k])
    decreases |graph.gates| - |onStack|, 5, |ps|, 0
  {
    CardBound(onStack, |graph.gates|);
    var r := FillEach(graph, rules, row, ps, onStack);
    if |ps| > 0 && r.Ok? {
      MemoSound(graph, rules, row, ps[0], onStack);
      var row1 := Memo(graph, rules, row, ps[0], onStack).value;
      FillEachSound(graph, rules, row1, ps[1..], onStack);
      var row2 := FillEach(graph, rules, row1, ps[1..], onStack).value.0;
      FillPostTrans(graph, rules, row, row1, row2, onStack);
      var vals := r.value.1;
      forall k | 0 <= k < |ps|
        ensures CellOf(graph, row2, ps[k]).Some? && vals[k] == CellOf(graph, row2, ps[k])
      {
        if k > 0 {
          assert ps[k] == ps[1..][k - 1];
        }
      }
    }
  }

  // ---------------------------------------------------------------------
  // One row of score_circuit
  // ---------------------------------------------------------------------

  /** The level `switch_onoff` gives input k in row r. */
  function Levels(graph: Graph, r: nat): (ls: seq<Level>)
    ensures |ls| == |graph.inputs|
    ensures forall k :: 0 <= k < |ls| ==> ls[k] == LevelOf(Bits(r, |graph.inputs|)[k])
  {
    seq(|graph.inputs|, k requires 0 <= k < |graph.inputs| => LevelOf(Bits(r, |graph.inputs|)[k]))
  }

  function FreshRow(graph: Graph, r: nat): (row: Row)
    ensures |row| == Width(graph)
  {
    TruthRow(r, |graph.inputs|, |graph.gates|, |graph.outputs|)
  }

  /** A fresh row holds the index's digits in the input columns and None everywhere else. */
  lemma FreshRowCells(graph: Graph, r: nat)
    ensures forall c :: 0 <= c < |graph.inputs| ==> FreshRow(graph, r)[c] == Some(Bit(Bits(r, |graph.inputs|)[c]))
    ensures forall c :: |graph.inputs| <= c < Width(graph) ==> FreshRow(graph, r)[c] == None
  {
    var ni := |graph.inputs|;
    var a, b := BitCells(Bits(r, ni)), Nones(ni + 2 * |graph.gates| + 2 * |graph.outputs|);
    assert FreshRow(graph, r) == a + b;
  }

  /** The first n inputs switched: each name cell holds the out_score of the input's level. */
  function SwitchInputs(graph: Graph, env: Env, r: nat, n: nat): (row: Row)
    requires n <= |graph.inputs|
    ensures |row| == Width(graph)
    decreases n
  {
    if n == 0 then FreshRow(graph, r)
    else
      var k := n - 1;
      SwitchInputs(graph, env, r, k)[|graph.inputs| + k :=
        Some(Score(env.inputScore(graph.inputs[k].name, Levels(graph, r)[k])))]
  }

  /** Switching writes name cells only: input k's name cell holds its out_score, every other cell is fresh. */
  lemma {:induction false} SwitchInputsCells(graph: Graph, env: Env, r: nat, n: nat)
    requires n <= |graph.inputs|
    ensures forall k :: 0 <= k < n ==>
              SwitchInputs(graph, env, r, n)[NameCol(graph, InRef(k))] ==
                Some(Score(env.inputScore(graph.inputs[k].name, Levels(graph, r)[k])))
    ensures forall c :: 0 <= c < Width(graph) && !(|graph.inputs| <= c < |graph.inputs| + n) ==>
              SwitchInputs(graph, env, r, n)[c] == FreshRow(graph, r)[c]
    decreases n
  {
    if n > 0 {
      SwitchInputsCells(graph, env, r, n - 1);
    }
  }

  /** A switched row is consistent: inputs hold their digits, and no gate or output is filled yet. */
  lemma SwitchedConsistent(graph: Graph, rules: Rules, env: Env, r: nat)
    ensures Consistent(graph, rules, SwitchInputs(graph, env, r, |graph.inputs|))
    ensures forall k :: 0 <= k < |graph.inputs| ==>
              CellOf(graph, SwitchInputs(graph, env, r, |graph.inputs|), InRef(k)) == Some(Bit(Bits(r, |graph.inputs|)[k]))
  {
    var row := SwitchInputs(graph, env, r, |graph.inputs|);
    SwitchInputsCells(graph, env, r, |graph.inputs|);
    var ni, ng, no := |graph.inputs|, |graph.gates|, |graph.outputs|;
    FreshRowCells(graph, r);
    forall q | ValidRef(graph, q)
      ensures NodeConsistent(graph, rules, row, q)
    {
      assert row[IOCol(graph, q)] == FreshRow(graph, r)[IOCol(graph, q)];
    }
  }

  /** The output loop of a row: any failure while filling becomes RecursionError. */
  function FillOutputs(graph: Graph, rules: Rules, row: Row, n: nat): (r: Result<Row>)
    requires |row| == Width(graph) && n <= |graph.outputs|
    ensures r.Ok? ==> |r.value| == Width(graph)
    ensures r.Err? ==> r.error == RecursionError
    decreases n
  {
    if n == 0 then Ok(row)
    else
      match FillOutputs(graph, rules, row, n - 1)
      case Err(e) => Err(e)
      case Ok(row1) =>
        match FillIO(graph, rules, row1, OutRef(n - 1), {})
        case Err(_) => Err(RecursionError)
        case Ok(row2) => Ok(row2)
  }

  /**
   * After the output loop every output of the row holds a bit, the row is
   * consistent, no bit that was already there changed, and only `_I/O`
   * columns were written.
   */
  lemma {:induction false} FillOutputsSound(graph: Graph, rules: Rules, row: Row, n: nat)
    requires Consistent(graph, rules, row) && n <= |graph.outputs|
    ensures FillOutputs(graph, rules, row, n).Ok? ==>
              var row' := FillOutputs(graph, rules, row, n).value;
              Consistent(graph, rules, row') && Extends(graph, row, row') && SameNames(graph, row, row') &&
              forall o :: 0 <= o < n ==> BitCell(CellOf(graph, row', OutRef(o)))
    decreases n
  {
    if n > 0 && FillOutputs(graph, rules, row, n).Ok? {
      FillOutputsSound(graph, rules, row, n - 1);
      var row1 := FillOutputs(graph, rules, row, n - 1).value;
      FillSound(graph, rules, row1, OutRef(n - 1), {});
      var row2 := FillIO(graph, rules, row1, OutRef(n - 1), {}).value;
      ConsistentBits(graph, rules, row2, OutRef(n - 1));
      forall o | 0 <= o < n
        ensures BitCell(CellOf(graph, row2, OutRef(o)))
      {
        if o < n - 1 {
          assert CellOf(graph, row1, OutRef(o)).Some?;
        }
      }
    }
  }

  /**
   * The output-score loop: an output whose name cell is still empty gets
   * `get_score(output)[0]`, which also records the variant choices made on
   * the way.
   */
  function ScoreOutputs(graph: Graph, rules: Rules, env: Env, levels: seq<Level>, row: Row,
                        choices: seq<Option<Choice>>, n: nat): (r: Result<(Row, seq<Option<Choice>>)>)
    requires |row| == Width(graph) && n <= |graph.outputs|
    requires |levels| == |graph.inputs| && |choices| == |graph.gates|
    ensures r.Ok? ==> |r.value.0| == Width(graph) && |r.value.1| == |graph.gates|
    ensures r.Ok? && ChoicesChosen(graph, env, choices) ==> ChoicesChosen(graph, env, r.value.1)
    decreases n
  {
    if n == 0 then Ok((row, choices))
    else
      match ScoreOutputs(graph, rules, env, levels, row, choices, n - 1)
      case Err(e) => Err(e)
      case Ok((row1, ch1)) =>
        var c := NameCol(graph, OutRef(n - 1));
        if row1[c].None? then
          match GetScore(graph, rules, env, levels, OutRef(n - 1), {}, ch1)
          case Err(e) => Err(e)
          case Ok((x, ch2)) => Ok((row1[c := Some(Score(x))], ch2))
        else Ok((row1, ch1))
  }

  /** What a gate's name column receives: its recorded `best_score`, or None if it never had one. */
  function ChoiceCell(c: Option<Choice>): Option<Cell>
  {
    match c
    case Some(ch) => Some(Score(ch.score))
    case None => None
  }

  /** The gate loop: the first n gates' name cells receive their recorded scores. */
  function GateColumns(graph: Graph, row: Row, choices: seq<Option<Choice>>, n: nat): (r: Row)
    requires |row| == Width(graph) && |choices| == |graph.gates| && n <= |graph.gates|
    ensures |r| == Width(graph)
    decreases n
  {
    if n == 0 then row
    else GateColumns(graph, row, choices, n - 1)[NameCol(graph, GateRef(n - 1)) := ChoiceCell(choices[n - 1])]
  }

  /** Writing name columns keeps the `_I/O` cells, and with them consistency. */
  lemma {:induction false} GateColumnsKeepIO(graph: Graph, row: Row, choices: seq<Option<Choice>>, n: nat)
    requires |row| == Width(graph) && |choices| == |graph.gates| && n <= |graph.gates|
    ensures SameNamesIO(graph, row, GateColumns(graph, row, choices, n))
    ensures forall j :: 0 <= j < n ==> GateColumns(graph, row, choices, n)[NameCol(graph, GateRef(j))] == ChoiceCell(choices[j])
    decreases n
  {
    if n > 0 {
      GateColumnsKeepIO(graph, row, choices, n - 1);
      ColumnKinds(graph, GateRef(n - 1));
    }
  }

  /** Two rows agree on every `_I/O` column. */
  ghost predicate SameNamesIO(graph: Graph, row: Row, row': Row)
  {
    |row| == |row'| && forall c :: 0 <= c < |row| && IsIOCol(graph, c) ==> row'[c] == row[c]
  }

  /** Consistency reads `_I/O` cells only. */
  lemma ConsistentIO(graph: Graph, rules: Rules, row: Row, row': Row)
    requires Consistent(graph, rules, row) && SameNamesIO(graph, row, row')
    ensures Consistent(graph, rules, row')
  {
    assert forall q :: ValidRef(graph, q) ==> CellOf(graph, row', q) == CellOf(graph, row, q) by {
      forall q | ValidRef(graph, q)
        ensures CellOf(graph, row', q) == CellOf(graph, row, q)
      {
        ColumnKinds(graph, q);
      }
    }
    assert Extends(graph, row, row');
    forall q | ValidRef(graph, q)
      ensures NodeConsistent(graph, rules, row', q)
    {
      assert NodeConsistent(graph, rules, row, q);
      if CellOf(graph, row, q).Some? {
        NodeConsistentExtends(graph, rules, row, row', q);
      }
    }
  }

  lemma {:induction false} ScoreOutputsKeepIO(graph: Graph, rules: Rules, env: Env, levels: seq<Level>, row: Row,
                                              choices: seq<Option<Choice>>, n: nat)
    requires |row| == Width(graph) && n <= |graph.outputs|
    requires |levels| == |graph.inputs| && |choices| == |graph.gates|
    ensures ScoreOutputs(graph, rules, env, levels, row, choices, n).Ok? ==>
              SameNamesIO(graph, row, ScoreOutputs(graph, rules, env, levels, row, choices, n).value.0)
    decreases n
  {
    if n > 0 {
      ScoreOutputsKeepIO(graph, rules, env, levels, row, choices, n - 1);
      ColumnKinds(graph, OutRef(n - 1));
    }
  }

  /**
   * One row of the table: switch the inputs to the row's digits, fill the
   * outputs' bits, score the outputs, and copy each gate's recorded score
   * into its name column.
   */
  function RowStep(graph: Graph, rules: Rules, env: Env, r: nat, choices: seq<Option<Choice>>): (res: Result<(Row, seq<Option<Choice>>)>)
    requires |choices| == |graph.gates|
    ensures res.Ok? ==> |res.value.0| == Width(graph) && |res.value.1| == |graph.gates|
    ensures res.Ok? && ChoicesChosen(graph, env, choices) ==> ChoicesChosen(graph, env, res.value.1)
  {
    var row0 := SwitchInputs(graph, env, r, |graph.inputs|);
    match FillOutputs(graph, rules, row0, |graph.outputs|)
    case Err(e) => Err(e)
    case Ok(row1) =>
      match ScoreOutputs(graph, rules, env, Levels(graph, r), row1, choices, |graph.outputs|)
      case Err(e) => Err(e)
      case Ok((row2, ch)) => Ok((GateColumns(graph, row2, ch, |graph.gates|), ch))
  }

  /**
   * Every row that scores is consistent (each gate and output bit follows
   * from the row's input digits), every output holds a bit, and the
   * inputs hold the row index's digits.
   */
  /** Row r follows the gate logic, its outputs hold bits, and its inputs hold r's digits. */
  ghost predicate SoundRow(graph: Graph, rules: Rules, r: nat, row: Row)
    requires |row| == Width(graph)
  {
    Consistent(graph, rules, row) &&
    (forall o :: 0 <= o < |graph.outputs| ==> BitCell(CellOf(graph, row, OutRef(o)))) &&
    forall k :: 0 <= k < |graph.inputs| ==> CellOf(graph, row, InRef(k)) == Some(Bit(Bits(r, |graph.inputs|)[k]))
  }

  lemma RowStepSound(graph: Graph, rules: Rules, env: Env, r: nat, choices: seq<Option<Choice>>)
    requires |choices| == |graph.gates|
    ensures RowStep(graph, rules, env, r, choices).Ok? ==> SoundRow(graph, rules, r, RowStep(graph, rules, env, r, choices).value.0)
  {
    var row0 := SwitchInputs(graph, env, r, |graph.inputs|);
    SwitchedConsistent(graph, rules, env, r);
    FillOutputsSound(graph, rules, row0, |graph.outputs|);
    if RowStep(graph, rules, env, r, choices).Ok? {
      var row1 := FillOutputs(graph, rules, row0, |graph.outputs|).value;
      var levels := Levels(graph, r);
      ScoreOutputsKeepIO(graph, rules, env, levels, row1, choices, |graph.outputs|);
      var (row2, ch) := ScoreOutputs(graph, rules, env, levels, row1, choices, |graph.outputs|).value;
      GateColumnsKeepIO(graph, row2, ch, |graph.gates|);
      var row3 := GateColumns(graph, row2, ch, |graph.gates|);
      ConsistentIO(graph, rules, row1, row2);
      ConsistentIO(graph, rules, row2, row3);
      forall q | ValidRef(graph, q)
        ensures CellOf(graph, row3, q) == CellOf(graph, row1, q)
      {
        ColumnKinds(graph, q);
      }
      forall k | 0 <= k < |graph.inputs|
        ensures CellOf(graph, row1, InRef(k)) == CellOf(graph, row0, InRef(k))
      {
        assert CellOf(graph, row0, InRef(k)).Some?;
      }
    }
  }

  // ---------------------------------------------------------------------
  // The table, the reduction and the circuit score
  // ---------------------------------------------------------------------

  /** No gate has recorded a `best_score` yet. */
  function NoChoices(n: nat): (r: seq<Option<Choice>>)
    ensures |r| == n && forall j :: 0 <= j < n ==> r[j] == None
  {
    seq(n, _ => None)
  }

  /** The first n rows of the table in order, with the gates' recorded choices carried from row to row. */
  function ScoreRows(graph: Graph, rules: Rules, env: Env, n: nat): (res: Result<(seq<Row>, seq<Option<Choice>>)>)
    ensures res.Ok? ==> |res.value.0| == n && |res.value.1| == |graph.gates|
    ensures res.Ok? ==> forall k :: 0 <= k < n ==> |res.value.0[k]| == Width(graph)
    ensures res.Ok? ==> ChoicesChosen(graph, env, res.value.1)
    decreases n
  {
    if n == 0 then Ok(([], NoChoices(|graph.gates|)))
    else
      match ScoreRows(graph, rules, env, n - 1)
      case Err(e) => Err(e)
      case Ok((rows, ch)) =>
        match RowStep(graph, rules, env, n - 1, ch)
        case Err(e) => Err(e)
        case Ok((row, ch')) => Ok((rows + [row], ch'))
  }

  /** Every scored row is consistent, its outputs hold bits, and its inputs hold its index's digits. */
  lemma ScoreRowsSound(graph: Graph, rules: Rules, env: Env, n: nat)
    ensures ScoreRows(graph, rules, env, n).Ok? ==>
              forall k :: 0 <= k < n ==> SoundRow(graph, rules, k, ScoreRows(graph, rules, env, n).value.0[k])
  {
    if ScoreRows(graph, rules, env, n).Ok? {
      forall k | 0 <= k < n
        ensures SoundRow(graph, rules, k, ScoreRows(graph, rules, env, n).value.0[k])
      {
        ScoredRowSound(graph, rules, env, n, k);
      }
    }
  }

  /** Row k of a table of n scored rows is sound. */
  lemma {:induction false} ScoredRowSound(graph: Graph, rules: Rules, env: Env, n: nat, k: nat)
    requires k < n
    ensures ScoreRows(graph, rules, env, n).Ok? ==> SoundRow(graph, rules, k, ScoreRows(graph, rules, env, n).value.0[k])
    decreases n
  {
    if ScoreRows(graph, rules, env, n).Ok? {
      var ch := ScoreRows(graph, rules, env, n - 1).value.1;
      if k == n - 1 {
        RowStepSound(graph, rules, env, n - 1, ch);
        ScoreRowsLast(graph, rules, env, n);
      } else {
        ScoredRowSound(graph, rules, env, n - 1, k);
        ScoreRowsKeep(graph, rules, env, n, k);
      }
    }
  }

  /** The last of n scored rows is the row step of index n - 1. */
  lemma ScoreRowsLast(graph: Graph, rules: Rules, env: Env, n: nat)
    requires n > 0 && ScoreRows(graph, rules, env, n).Ok?
    ensures ScoreRows(graph, rules, env, n - 1).Ok?
    ensures var ch := ScoreRows(graph, rules, env, n - 1).value.1;
            RowStep(graph, rules, env, n - 1, ch).Ok? &&
            ScoreRows(graph, rules, env, n).value.0[n - 1] == RowStep(graph, rules, env, n - 1, ch).value.0
  {
  }

  /** Scoring one more row keeps the earlier rows. */
  lemma ScoreRowsKeep(graph: Graph, rules: Rules, env: Env, n: nat, k: nat)
    requires k < n - 1 && ScoreRows(graph, rules, env, n).Ok?
    ensures ScoreRows(graph, rules, env, n - 1).Ok?
    ensures ScoreRows(graph, rules, env, n).value.0[k] == ScoreRows(graph, rules, env, n - 1).value.0[k]
  {
    var prev := ScoreRows(graph, rules, env, n - 1).value;
    var row := RowStep(graph, rules, env, n - 1, prev.1).value.0;
    assert ScoreRows(graph, rules, env, n).value.0 == prev.0 + [row];
  }

  /** The ON (`_I/O` = 1) and OFF (`_I/O` = 0) values of output o over the first n rows; any other `_I/O` value is a KeyError. */
  function Partition(graph: Graph, table: seq<Row>, o: nat, n: nat): (res: Result<(seq<Option<Cell>>, seq<Option<Cell>>)>)
    requires o < |graph.outputs| && n <= |table|
    requires forall k :: 0 <= k < |table| ==> |table[k]| == Width(graph)
    ensures res.Ok? ==> |res.value.0| + |res.value.1| == n
    ensures res.Ok? <==> forall k :: 0 <= k < n ==> BitCell(CellOf(graph, table[k], OutRef(o)))
    ensures res.Err? ==> res.error == KeyError
    decreases n
  {
    if n == 0 then Ok(([], []))
    else
      match Partition(graph, table, o, n - 1)
      case Err(e) => Err(e)
      case Ok((on, off)) =>
        var io := CellOf(graph, table[n - 1], OutRef(o));
        var v := table[n - 1][NameCol(graph, OutRef(o))];
        if io == Some(Bit(1)) then Ok((on + [v], off))
        else if io == Some(Bit(0)) then Ok((on, off + [v]))
        else Err(KeyError)
  }

  /** A row's value lands in the ON list exactly when its output bit is 1 (and in the OFF list when it is 0). */
  lemma {:induction false} PartitionMembers(graph: Graph, table: seq<Row>, o: nat, n: nat)
    requires o < |graph.outputs| && n <= |table|
    requires forall k :: 0 <= k < |table| ==> |table[k]| == Width(graph)
    requires Partition(graph, table, o, n).Ok?
    ensures |Partition(graph, table, o, n).value.0| > 0 <==> exists k :: 0 <= k < n && CellOf(graph, table[k], OutRef(o)) == Some(Bit(1))
    ensures |Partition(graph, table, o, n).value.1| > 0 <==> exists k :: 0 <= k < n && CellOf(graph, table[k], OutRef(o)) == Some(Bit(0))
    decreases n
  {
    if n > 0 {
      PartitionMembers(graph, table, o, n - 1);
    }
  }

  /** The analog values of a column; a cell that is not a score fails when min/max compare it. */
  function Scores(cells: seq<Option<Cell>>): (r: Result<seq<real>>)
    ensures r.Ok? ==> |r.value| == |cells| && forall k :: 0 <= k < |cells| ==> cells[k] == Some(Score(r.value[k]))
    ensures r.Err? ==> r.error == TypeError && exists k :: 0 <= k < |cells| && !(cells[k].Some? && cells[k].value.Score?)
  {
    if |cells| == 0 then Ok([])
    else
      match cells[0]
      case Some(Score(x)) =>
        (match Scores(cells[1..])
         case Ok(xs) => Ok([x] + xs)
         case Err(e) =>
           var k :| 0 <= k < |cells[1..]| && !(cells[1..][k].Some? && cells[1..][k].value.Score?);
           assert cells[k + 1] == cells[1..][k];
           Err(e))
      case _ => Err(TypeError)
  }

  /** `min(xs)`: the first minimal element. */
  function MinOf(xs: seq<real>): (m: real)
    requires |xs| > 0
    ensures m in xs && forall k :: 0 <= k < |xs| ==> m <= xs[k]
  {
    if |xs| == 1 then xs[0]
    else
      var m := MinOf(xs[1..]);
      assert forall k :: 1 <= k < |xs| ==> xs[k] == xs[1..][k - 1];
      if xs[0] <= m then xs[0] else m
  }

  /** `max(xs)`: the first maximal element. */
  function MaxOf(xs: seq<real>): (m: real)
    requires |xs| > 0
    ensures m in xs && forall k :: 0 <= k < |xs| ==> xs[k] <= m
  {
    if |xs| == 1 then xs[0]
    else
      var m := MaxOf(xs[1..]);
      assert forall k :: 1 <= k < |xs| ==> xs[k] == xs[1..][k - 1];
      if xs[0] >= m then xs[0] else m
  }

  /**
   * An output's score: min(ON) / max(OFF); when that fails (an empty list,
   * or a zero divisor) max(OFF), and failing that max(ON).  Both lists
   * empty is the uncaught ValueError of the last `max`.
   */
  function OutputScore(on: seq<real>, off: seq<real>): (r: Result<real>)
    ensures r.Ok? <==> |on| > 0 || |off| > 0
    ensures r.Err? ==> r.error == ValueError
    ensures |on| > 0 && |off| > 0 && MaxOf(off) != 0.0 ==> r == Ok(MinOf(on) / MaxOf(off))
    ensures |off| > 0 && (|on| == 0 || MaxOf(off) == 0.0) ==> r == Ok(MaxOf(off))
    ensures |off| == 0 && |on| > 0 ==> r == Ok(MaxOf(on))
  {
    if |on| > 0 && |off| > 0 && MaxOf(off) != 0.0 then Ok(MinOf(on) / MaxOf(off))
    else if |off| > 0 then Ok(MaxOf(off))
    else if |on| > 0 then Ok(MaxOf(on))
    else Err(ValueError)
  }

  lemma DivMonotone(a: real, b: real, c: real, d: real)
    requires 0.0 <= a <= c && b >= d > 0.0
    ensures a / b <= c / d
  {
    assert a / b <= a / d by {
      assert a / b == a * (1.0 / b) && a / d == a * (1.0 / d);
      assert 1.0 / b <= 1.0 / d;
    }
    assert a / d <= c / d;
  }

  /**
   * With positive analog values, the ratio score is the worst case over
   * every ON row against every OFF row, and it is attained by one such pair.
   */
  lemma RatioIsWorstCase(on: seq<real>, off: seq<real>)
    requires |on| > 0 && |off| > 0
    requires forall k :: 0 <= k < |on| ==> on[k] > 0.0
    requires forall k :: 0 <= k < |off| ==> off[k] > 0.0
    ensures OutputScore(on, off).Ok?
    ensures forall i, j :: 0 <= i < |on| && 0 <= j < |off| ==> OutputScore(on, off).value <= on[i] / off[j]
    ensures exists i, j :: 0 <= i < |on| && 0 <= j < |off| && OutputScore(on, off).value == on[i] / off[j]
  {
    var lo, hi := MinOf(on), MaxOf(off);
    assert hi > 0.0 by {
      assert off[0] <= hi;
    }
    forall i, j | 0 <= i < |on| && 0 <= j < |off|
      ensures lo / hi <= on[i] / off[j]
    {
      DivMonotone(lo, hi, on[i], off[j]);
    }
    var i :| 0 <= i < |on| && on[i] == lo;
    var j :| 0 <= j < |off| && off[j] == hi;
    assert OutputScore(on, off).value == on[i] / off[j];
  }

  /** The score of output o over the whole table. */
  function OutputValue(graph: Graph, table: seq<Row>, o: nat): (r: Result<real>)
    requires o < |graph.outputs|
    requires forall k :: 0 <= k < |table| ==> |table[k]| == Width(graph)
  {
    match Partition(graph, table, o, |table|)
    case Err(e) => Err(e)
    case Ok((on, off)) =>
      match Scores(on)
      case Err(e) => Err(e)
      case Ok(onVals) =>
        match Scores(off)
        case Err(e) => Err(e)
        case Ok(offVals) => OutputScore(onVals, offVals)
  }

  /** The scores of the first n outputs, in order. */
  function OutputValues(graph: Graph, table: seq<Row>, n: nat): (r: Result<seq<real>>)
    requires n <= |graph.outputs|
    requires forall k :: 0 <= k < |table| ==> |table[k]| == Width(graph)
    ensures r.Ok? ==> |r.value| == n && forall o :: 0 <= o < n ==> OutputValue(graph, table, o) == Ok(r.value[o])
    ensures r.Err? ==> exists o :: 0 <= o < n && OutputValue(graph, table, o).Err?
    decreases n
  {
    if n == 0 then Ok([])
    else
      match OutputValues(graph, table, n - 1)
      case Err(e) => Err(e)
      case Ok(xs) =>
        match OutputValue(graph, table, n - 1)
        case Err(e) => Err(e)
        case Ok(x) => Ok(xs + [x])
  }

  /** The minimum over the per-output scores: the weakest output; no output at all is a ValueError. */
  function CircuitScore(xs: seq<real>): (r: Result<real>)
    ensures r.Ok? <==> |xs| > 0
    ensures r.Err? ==> r.error == ValueError
    ensures r.Ok? ==> r.value in xs && forall k :: 0 <= k < |xs| ==> r.value <= xs[k]
  {
    if |xs| == 0 then Err(ValueError) else Ok(MinOf(xs))
  }

  // ---------------------------------------------------------------------
  // Variant attachment and the whole of score_circuit
  // ---------------------------------------------------------------------

  /** Every gate of the graph named `group` gets the variant `name`. */
  function AttachOne(gates: seq<Gate>, group: string, name: string): (r: seq<Gate>)
    ensures |r| == |gates|
    ensures forall j :: 0 <= j < |gates| ==> r[j] == if gates[j].name == group then AddEvalParams(gates[j], name) else gates[j]
  {
    seq(|gates|, j requires 0 <= j < |gates| => if gates[j].name == group then AddEvalParams(gates[j], name) else gates[j])
  }

  /** The loop over `gate_ids` ((group, variant) pairs), first n pairs. */
  function Attach(gates: seq<Gate>, gateIds: seq<(string, string)>, n: nat): (r: seq<Gate>)
    requires n <= |gateIds|
    ensures |r| == |gates|
    decreases n
  {
    if n == 0 then gates else AttachOne(Attach(gates, gateIds, n - 1), gateIds[n - 1].0, gateIds[n - 1].1)
  }

  /**
   * After attachment a gate keeps its name, type and ports, and its
   * variants are its old ones plus exactly the variants listed for its group.
   */
  lemma {:induction false} AttachMembers(gates: seq<Gate>, gateIds: seq<(string, string)>, n: nat)
    requires n <= |gateIds|
    ensures forall j :: 0 <= j < |gates| ==>
              var g, g' := gates[j], Attach(gates, gateIds, n)[j];
              g'.name == g.name && g'.gateType == g.gateType && g'.inputs == g.inputs && g'.output == g.output
    ensures forall j, v :: 0 <= j < |gates| ==>
              (v in Attach(gates, gateIds, n)[j].variants <==> v in gates[j].variants || (gates[j].name, v) in gateIds[..n])
    decreases n
  {
    if n > 0 {
      AttachMembers(gates, gateIds, n - 1);
      assert gateIds[..n] == gateIds[..n - 1] + [gateIds[n - 1]];
    }
  }

  /** The graph with the UCF variants attached to its gates. */
  function WithVariants(graph: Graph, gateIds: seq<(string, string)>): (g: Graph)
    ensures |g.inputs| == |graph.inputs| && |g.gates| == |graph.gates| && |g.outputs| == |graph.outputs|
  {
    graph.(gates := Attach(graph.gates, gateIds, |gateIds|))
  }

  /**
   * What `score_circuit` leaves behind: the circuit score (the weakest
   * output), the filled truth table, its labels, and each gate's
   * `best_score` and `gate_in_use` as the last row left them on the graph.
   */
  datatype Scoring = Scoring(score: real, table: seq<Row>, labels: seq<string>, inUse: seq<Option<Choice>>)

  /** `score_circuit`. */
  function ScoreCircuitSpec(graph: Graph, rules: Rules, env: Env, gateIds: seq<(string, string)>): (r: Result<Scoring>)
  {
    var g := WithVariants(graph, gateIds);
    match ScoreRows(g, rules, env, Pow2(|g.inputs|))
    case Err(e) => Err(e)
    case Ok((table, choices)) =>
      match OutputValues(g, table, |g.outputs|)
      case Err(e) => Err(e)
      case Ok(xs) =>
        match CircuitScore(xs)
        case Err(e) => Err(e)
        case Ok(score) => Ok(Scoring(score, table, TableLabels(g), choices))
  }

  /**
   * What `score_circuit` promises: one row per input combination, each
   * consistent with the gate logic, a circuit score at most every output's
   * score and equal to one of them, and no KeyError in the reduction.
   */
  lemma ScoreCircuitSound(graph: Graph, rules: Rules, env: Env, gateIds: seq<(string, string)>)
    requires ScoreCircuitSpec(graph, rules, env, gateIds).Ok?
    ensures var Scoring(score, table, labels, _) := ScoreCircuitSpec(graph, rules, env, gateIds).value;
            var g := WithVariants(graph, gateIds);
            |table| == Pow2(|graph.inputs|) && |labels| == Width(g) &&
            (forall k :: 0 <= k < |table| ==> |table[k]| == Width(g) && SoundRow(g, rules, k, table[k])) &&
            (forall o :: 0 <= o < |graph.outputs| ==> OutputValue(g, table, o).Ok? && score <= OutputValue(g, table, o).value) &&
            exists o :: 0 <= o < |graph.outputs| && OutputValue(g, table, o) == Ok(score)
  {
    var g := WithVariants(graph, gateIds);
    ScoreRowsSound(g, rules, env, Pow2(|g.inputs|));
    var Scoring(score, table, labels, _) := ScoreCircuitSpec(graph, rules, env, gateIds).value;
    var xs := OutputValues(g, table, |g.outputs|).value;
    assert |labels| == Width(g) by {
      assert |InputNames(g)| == |g.inputs| && |GateNames(g)| == |g.gates| && |OutputNames(g)| == |g.outputs|;
    }
    var o :| 0 <= o < |xs| && xs[o] == score;
    assert OutputValue(g, table, o) == Ok(score);
  }

  /**
   * The `gate_in_use` and `best_score` that `score_circuit` leaves on each
   * gate are the pick of `eval_gates` for that gate, and the last row of
   * the table shows that pick's score in the gate's name column.
   */
  lemma ScoreCircuitInUse(graph: Graph, rules: Rules, env: Env, gateIds: seq<(string, string)>)
    requires ScoreCircuitSpec(graph, rules, env, gateIds).Ok?
    ensures var sc := ScoreCircuitSpec(graph, rules, env, gateIds).value;
            var g := WithVariants(graph, gateIds);
            ChoicesChosen(g, env, sc.inUse) && |sc.table| > 0 &&
            forall j :: 0 <= j < |g.gates| ==>
              |sc.table[|sc.table| - 1]| == Width(g) &&
              sc.table[|sc.table| - 1][NameCol(g, GateRef(j))] == ChoiceCell(sc.inUse[j])
  {
    var g := WithVariants(graph, gateIds);
    var n := Pow2(|g.inputs|);
    ScoreRowsLast(g, rules, env, n);
    var ch := ScoreRows(g, rules, env, n - 1).value.1;
    var row0 := SwitchInputs(g, env, n - 1, |g.inputs|);
    var row1 := FillOutputs(g, rules, row0, |g.outputs|).value;
    var (row2, ch2) := ScoreOutputs(g, rules, env, Levels(g, n - 1), row1, ch, |g.outputs|).value;
    GateColumnsKeepIO(g, row2, ch2, |g.gates|);
  }

  /** A scored table never meets an output `_I/O` value other than 0 or 1. */
  lemma ReductionHasBits(graph: Graph, rules: Rules, env: Env, o: nat)
    requires o < |graph.outputs| && ScoreRows(graph, rules, env, Pow2(|graph.inputs|)).Ok?
    ensures Partition(graph, ScoreRows(graph, rules, env, Pow2(|graph.inputs|)).value.0, o, Pow2(|graph.inputs|)).Ok?
  {
    ScoreRowsSound(graph, rules, env, Pow2(|graph.inputs|));
  }

  // ---------------------------------------------------------------------
  // The imperative score_circuit
  // ---------------------------------------------------------------------

  lemma {:induction false} FillOutputsErr(graph: Graph, rules: Rules, row: Row, n: nat, m: nat)
    requires |row| == Width(graph) && n <= m <= |graph.outputs| && FillOutputs(graph, rules, row, n).Err?
    ensures FillOutputs(graph, rules, row, m).Err?
    decreases m
  {
    if m > n {
      FillOutputsErr(graph, rules, row, n, m - 1);
    }
  }

  lemma {:induction false} ScoreOutputsErr(graph: Graph, rules: Rules, env: Env, levels: seq<Level>, row: Row,
                                           choices: seq<Option<Choice>>, n: nat, m: nat)
    requires |row| == Width(graph) && n <= m <= |graph.outputs|
    requires |levels| == |graph.inputs| && |choices| == |graph.gates|
    requires ScoreOutputs(graph, rules, env, levels, row, choices, n).Err?
    ensures ScoreOutputs(graph, rules, env, levels, row, choices, m) == ScoreOutputs(graph, rules, env, levels, row, choices, n)
    decreases m
  {
    if m > n {
      ScoreOutputsErr(graph, rules, env, levels, row, choices, n, m - 1);
    }
  }

  lemma {:induction false} ScoreRowsErr(graph: Graph, rules: Rules, env: Env, n: nat, m: nat)
    requires n <= m && ScoreRows(graph, rules, env, n).Err?
    ensures ScoreRows(graph, rules, env, m) == ScoreRows(graph, rules, env, n)
    decreases m
  {
    if m > n {
      ScoreRowsErr(graph, rules, env, n, m - 1);
    }
  }

  lemma {:induction false} OutputValuesErr(graph: Graph, table: seq<Row>, n: nat, m: nat)
    requires n <= m <= |graph.outputs|
    requires forall k :: 0 <= k < |table| ==> |table[k]| == Width(graph)
    requires OutputValues(graph, table, n).Err?
    ensures OutputValues(graph, table, m) == OutputValues(graph, table, n)
    decreases m
  {
    if m > n {
      OutputValuesErr(graph, table, n, m - 1);
    }
  }

  /** The loop over `gate_ids`: each gate named by a pair's group gets that pair's variant. */
  method AttachVariants(gates: seq<Gate>, gateIds: seq<(string, string)>) returns (gs: seq<Gate>)
    ensures gs == Attach(gates, gateIds, |gateIds|)
  {
    gs := gates;
    var n := 0;
    while n < |gateIds|
      invariant 0 <= n <= |gateIds|
      invariant gs == Attach(gates, gateIds, n)
    {
      var (group, name) := gateIds[n];
      var before := gs;
      var j := 0;
      while j < |gs|
        invariant 0 <= j <= |gs| && |gs| == |before|
        invariant forall k :: 0 <= k < j ==> gs[k] == AttachOne(before, group, name)[k]
        invariant forall k :: j <= k < |gs| ==> gs[k] == before[k]
      {
        if gs[j].name == group {
          gs := gs[j := AddEvalParams(gs[j], name)];
        }
        j := j + 1;
      }
      assert gs == AttachOne(before, group, name);
      n := n + 1;
    }
  }

  /** The input loop of a row: `switch_onoff` with the row's digit, then the out_score into the name cell. */
  method SwitchRow(graph: Graph, env: Env, r: nat, row: Row) returns (cur: Row, levels: seq<Level>)
    requires row == FreshRow(graph, r)
    ensures cur == SwitchInputs(graph, env, r, |graph.inputs|) && levels == Levels(graph, r)
  {
    var ni := |graph.inputs|;
    FreshRowCells(graph, r);
    cur := row;
    levels := [];
    var k := 0;
    while k < ni
      invariant 0 <= k <= ni
      invariant cur == SwitchInputs(graph, env, r, k)
      invariant levels == Levels(graph, r)[..k]
    {
      SwitchInputsCells(graph, env, r, k);
      var cell := cur[IOCol(graph, InRef(k))];
      assert cell == Some(Bit(Bits(r, ni)[k]));
      var level := LevelOf(cell.value.b);
      assert Levels(graph, r)[..k + 1] == Levels(graph, r)[..k] + [level];
      levels := levels + [level];
      cur := cur[NameCol(graph, InRef(k)) := Some(Score(env.inputScore(graph.inputs[k].name, level)))];
      k := k + 1;
    }
    assert levels == Levels(graph, r);
  }

  /** The output loop of a row: `fill_truth_table_IO` on each output, any failure re-raised as RecursionError. */
  method FillRow(graph: Graph, rules: Rules, row: Row) returns (res: Result<Row>)
    requires |row| == Width(graph)
    ensures res == FillOutputs(graph, rules, row, |graph.outputs|)
  {
    var cur := row;
    var o := 0;
    while o < |graph.outputs|
      invariant 0 <= o <= |graph.outputs|
      invariant FillOutputs(graph, rules, row, o) == Ok(cur)
    {
      var f := FillIO(graph, rules, cur, OutRef(o), {});
      if f.Err? {
        FillOutputsErr(graph, rules, row, o + 1, |graph.outputs|);
        return Err(RecursionError);
      }
      cur := f.value;
      o := o + 1;
    }
    res := Ok(cur);
  }

  /** The output-score loop of a row. */
  method ScoreRowOutputs(graph: Graph, rules: Rules, env: Env, levels: seq<Level>, row: Row, choices: seq<Option<Choice>>)
    returns (res: Result<(Row, seq<Option<Choice>>)>)
    requires |row| == Width(graph) && |levels| == |graph.inputs| && |choices| == |graph.gates|
    ensures res == ScoreOutputs(graph, rules, env, levels, row, choices, |graph.outputs|)
  {
    var cur := row;
    var ch := choices;
    var o := 0;
    while o < |graph.outputs|
      invariant 0 <= o <= |graph.outputs|
      invariant ScoreOutputs(graph, rules, env, levels, row, choices, o) == Ok((cur, ch))
    {
      var c := NameCol(graph, OutRef(o));
      if cur[c].None? {
        var score := GetScore(graph, rules, env, levels, OutRef(o), {}, ch);
        if score.Err? {
          ScoreOutputsErr(graph, rules, env, levels, row, choices, o + 1, |graph.outputs|);
          return Err(score.error);
        }
        cur := cur[c := Some(Score(score.value.0))];
        ch := score.value.1;
      }
      o := o + 1;
    }
    res := Ok((cur, ch));
  }

  /** The gate loop of a row: each gate's name cell gets its `best_score`. */
  method CopyGateScores(graph: Graph, row: Row, ch: seq<Option<Choice>>) returns (cur: Row)
    requires |row| == Width(graph) && |ch| == |graph.gates|
    ensures cur == GateColumns(graph, row, ch, |graph.gates|)
  {
    cur := row;
    var j := 0;
    while j < |graph.gates|
      invariant 0 <= j <= |graph.gates|
      invariant cur == GateColumns(graph, row, ch, j)
    {
      cur := cur[NameCol(graph, GateRef(j)) := ChoiceCell(ch[j])];
      j := j + 1;
    }
  }

  /** One row of the table, in place: switch, fill, score outputs, copy gate scores. */
  method ScoreRow(graph: Graph, rules: Rules, env: Env, r: nat, row: Row, choices: seq<Option<Choice>>)
    returns (res: Result<(Row, seq<Option<Choice>>)>)
    requires row == FreshRow(graph, r) && |choices| == |graph.gates|
    ensures res == RowStep(graph, rules, env, r, choices)
  {
    var row0, levels := SwitchRow(graph, env, r, row);
    var filled := FillRow(graph, rules, row0);
    if filled.Err? {
      return Err(filled.error);
    }
    var scored := ScoreRowOutputs(graph, rules, env, levels, filled.value, choices);
    if scored.Err? {
      return Err(scored.error);
    }
    var cur := CopyGateScores(graph, scored.value.0, scored.value.1);
    res := Ok((cur, scored.value.1));
  }

  /** The reduction of one output column: partition by `_I/O` value, then min(ON) / max(OFF) with its fallbacks. */
  method ReduceOutput(graph: Graph, table: seq<Row>, o: nat) returns (res: Result<real>)
    requires o < |graph.outputs|
    requires forall k :: 0 <= k < |table| ==> |table[k]| == Width(graph)
    ensures res == OutputValue(graph, table, o)
  {
    var on: seq<Option<Cell>> := [];
    var off: seq<Option<Cell>> := [];
    var k := 0;
    while k < |table|
      invariant 0 <= k <= |table|
      invariant Partition(graph, table, o, k) == Ok((on, off))
    {
      var io := table[k][IOCol(graph, OutRef(o))];
      var v := table[k][NameCol(graph, OutRef(o))];
      if io == Some(Bit(1)) {
        on := on + [v];
      } else if io == Some(Bit(0)) {
        off := off + [v];
      } else {
        assert !BitCell(CellOf(graph, table[k], OutRef(o)));
        return Err(KeyError);
      }
      k := k + 1;
    }
    var onVals := Scores(on);
    if onVals.Err? {
      return Err(onVals.error);
    }
    var offVals := Scores(off);
    if offVals.Err? {
      return Err(offVals.error);
    }
    res := OutputScore(onVals.value, offVals.value);
  }

  lemma ScoreRowsStep(g: Graph, rules: Rules, env: Env, r: nat, rows: seq<Row>, ch: seq<Option<Choice>>)
    requires ScoreRows(g, rules, env, r) == Ok((rows, ch))
    ensures RowStep(g, rules, env, r, ch).Err? ==> ScoreRows(g, rules, env, r + 1) == Err(RowStep(g, rules, env, r, ch).error)
    ensures RowStep(g, rules, env, r, ch).Ok? ==>
              ScoreRows(g, rules, env, r + 1) == Ok((rows + [RowStep(g, rules, env, r, ch).value.0], RowStep(g, rules, env, r, ch).value.1))
  {
  }

  /** One more row of the loop, or the exception that ends it. */
  lemma ScoreRowsNext(g: Graph, rules: Rules, env: Env, r: nat, n: nat, rows: seq<Row>, ch: seq<Option<Choice>>,
                      step: Result<(Row, seq<Option<Choice>>)>)
    requires r < n && ScoreRows(g, rules, env, r) == Ok((rows, ch)) && step == RowStep(g, rules, env, r, ch)
    ensures step.Err? ==> ScoreRows(g, rules, env, n) == Err(step.error)
    ensures step.Ok? ==> ScoreRows(g, rules, env, r + 1) == Ok((rows + [step.value.0], step.value.1))
  {
    ScoreRowsStep(g, rules, env, r, rows, ch);
    if step.Err? {
      ScoreRowsErr(g, rules, env, r + 1, n);
    }
  }

  /** The row loop over a fresh truth table. */
  method ScoreTable(g: Graph, rules: Rules, env: Env, initial: seq<Row>) returns (res: Result<(seq<Row>, seq<Option<Choice>>)>)
    requires |initial| == Pow2(|g.inputs|)
    requires forall k :: 0 <= k < |initial| ==> initial[k] == FreshRow(g, k)
    ensures res == ScoreRows(g, rules, env, Pow2(|g.inputs|))
  {
    ghost var n := |initial|;
    var table := initial;
    var choices := NoChoices(|g.gates|);
    var r := 0;
    while r < |table|
      invariant |table| == n && 0 <= r <= n
      invariant ScoreRows(g, rules, env, r) == Ok((table[..r], choices))
      invariant forall k :: r <= k < n ==> table[k] == FreshRow(g, k)
    {
      var step := ScoreRow(g, rules, env, r, table[r], choices);
      ScoreRowsNext(g, rules, env, r, n, table[..r], choices, step);
      if step.Err? {
        return Err(step.error);
      }
      var prefix := table[..r];
      table := table[r := step.value.0];
      assert table[..r + 1] == prefix + [step.value.0];
      choices := step.value.1;
      r := r + 1;
    }
    assert table[..r] == table;
    res := Ok((table, choices));
  }

  /** One more output of the loop, or the exception that ends it. */
  lemma OutputValuesNext(g: Graph, table: seq<Row>, o: nat, xs: seq<real>)
    requires o < |g.outputs| && forall k :: 0 <= k < |table| ==> |table[k]| == Width(g)
    requires OutputValues(g, table, o) == Ok(xs)
    ensures OutputValue(g, table, o).Err? ==> OutputValues(g, table, |g.outputs|) == Err(OutputValue(g, table, o).error)
    ensures OutputValue(g, table, o).Ok? ==> OutputValues(g, table, o + 1) == Ok(xs + [OutputValue(g, table, o).value])
  {
    if OutputValue(g, table, o).Err? {
      OutputValuesErr(g, table, o + 1, |g.outputs|);
    }
  }

  /** The loop over the outputs collecting each output's score. */
  method ReduceAll(g: Graph, table: seq<Row>) returns (res: Result<seq<real>>)
    requires forall k :: 0 <= k < |table| ==> |table[k]| == Width(g)
    ensures res == OutputValues(g, table, |g.outputs|)
  {
    var outVals: seq<real> := [];
    var o := 0;
    while o < |g.outputs|
      invariant 0 <= o <= |g.outputs|
      invariant OutputValues(g, table, o) == Ok(outVals)
    {
      var v := ReduceOutput(g, table, o);
      OutputValuesNext(g, table, o, outVals);
      if v.Err? {
        return Err(v.error);
      }
      outVals := outVals + [v.value];
      o := o + 1;
    }
    res := Ok(outVals);
  }

  /** `score_circuit`, step by step as the source does it. */
  method ScoreCircuit(graph: Graph, rules: Rules, env: Env, gateIds: seq<(string, string)>)
    returns (res: Result<Scoring>)
    ensures res == ScoreCircuitSpec(graph, rules, env, gateIds)
  {
    var gates := AttachVariants(graph.gates, gateIds);
    var g := graph.(gates := gates);
    assert g == WithVariants(graph, gateIds);
    var initial, labels := GenerateTruthTable(|g.inputs|, |g.gates|, |g.outputs|, InputNames(g), GateNames(g), OutputNames(g));
    var rows := ScoreTable(g, rules, env, initial);
    if rows.Err? {
      return Err(rows.error);
    }
    var table := rows.value.0;
    var outVals := ReduceAll(g, table);
    if outVals.Err? {
      return Err(outVals.error);
    }
    if |outVals.value| == 0 {
      return Err(ValueError);
    }
    res := Ok(Scoring(MinOf(outVals.value), table, labels, rows.value.1));
  }
}
