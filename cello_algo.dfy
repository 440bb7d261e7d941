/**
 * The gate-assignment search of CELLO3 (core_algorithm/celloAlgo.py, and
 * the older top-level celloAlgo.py): the netlist/UCF compatibility check,
 * the candidate assignments in itertools order, their decoding from the
 * optimiser's coordinates, the binding of chosen UCF names onto the
 * netlist graph and the running best-score accumulator that both the
 * exhaustive and the annealing search feed.
 */
module CelloAlgo {
  import opened Wrappers
  import opened PyStr
  import opened CelloHelpers
  import opened GateAssignment
  import opened CelloScore

  /** Which copy of `CELLO3`: core_algorithm/celloAlgo.py or the older top-level celloAlgo.py. */
  datatype Variant = Core | Legacy

  /** The scoring rules each copy's `score_circuit` runs under. */
  function RulesOf(v: Variant): Rules
  {
    if v == Core then CoreRules else Rules(true, true)
  }

  // ---------------------------------------------------------------------
  // check_conditions
  // ---------------------------------------------------------------------

  /** The sizes of the UCF collections that `check_conditions` compares. */
  datatype UcfCounts = UcfCounts(
    inSensors: nat, inStructures: nat, inModels: nat, inParts: nat,
    outDevices: nat, outStructures: nat, outModels: nat, outParts: nat,
    structures: nat, models: nat, gates: nat,
    groups: nat,                 // distinct gate groups
    maxInstances: seq<int>)      // `max_instances` of every available gate, in order

  /** Whether the netlist is valid, and its node counts. */
  datatype NetlistCounts = NetlistCounts(valid: bool, inputs: nat, outputs: nat, gates: nat)

  /** The stand-in count used for every netlist count when the netlist is invalid. */
  const Unchecked: nat := 99999

  /** A netlist count as `check_conditions` sees it. */
  function Needed(net: NetlistCounts, n: nat): nat
  {
    if net.valid then n else Unchecked
  }

  /**
   * Sensors, models and structures agree and there are enough parts; the
   * older copy also demands as many parts as structures.
   */
  predicate InputsMatch(v: Variant, c: UcfCounts, need: nat)
  {
    c.inSensors == c.inModels && c.inModels == c.inStructures
    && (v == Legacy ==> c.inStructures == c.inParts)
    && c.inParts >= need
  }

  predicate OutputsMatch(c: UcfCounts, need: nat)
  {
    c.outDevices == c.outModels && c.outModels == c.outParts && c.outParts == c.outStructures
    && c.outParts >= need
  }

  /**
   * `gates_match`: the first available gate's `max_instances` is read only
   * when the structure, model and gate counts agree, and it must exist.
   */
  function GatesMatch(c: UcfCounts, need: nat): (r: Result<bool>)
    ensures r.Err? <==> c.structures == c.models == c.gates && |c.maxInstances| == 0
    ensures r.Err? ==> r.error == IndexError
    ensures r.Ok? ==> (r.value <==> c.structures == c.models == c.gates && c.maxInstances[0] >= need)
  {
    if c.structures == c.models && c.models == c.gates then
      if |c.maxInstances| == 0 then Err(IndexError) else Ok(c.maxInstances[0] >= need)
    else Ok(false)
  }

  /** The core copy refuses circuits with more than ten trillion assignments. */
  const ComplexityLimit: real := 10000000000000.0

  /** Every count the netlist needs fits within what the UCF offers. */
  predicate Fits(net: NetlistCounts, c: UcfCounts)
  {
    net.inputs <= c.inSensors && net.outputs <= c.outDevices && net.gates <= c.groups
  }

  /** The number of assignments `permute_count_helper` reports. */
  function Assignments(net: NetlistCounts, c: UcfCounts): nat
  {
    Product3(MathPerm(c.inSensors, net.inputs), MathPerm(c.groups, net.gates), MathPerm(c.outDevices, net.outputs))
  }

  /**
   * `check_conditions`: whether the netlist and the UCF are compatible and
   * how many assignments there are to search.  With `verbose` set the core
   * copy formats the count with a thousands separator, which fails on the
   * None reported for an incompatible pair.
   */
  function CheckConditions(v: Variant, net: NetlistCounts, c: UcfCounts, verbose: bool): (r: Result<(bool, Option<int>)>)
    ensures r.Ok? ==> (r.value.0 <==> net.valid && InputsMatch(v, c, net.inputs) && OutputsMatch(c, net.outputs)
                                      && GatesMatch(c, net.gates) == Ok(true))
    ensures r.Ok? ==> (r.value.1.Some? <==> r.value.0)
    ensures r.Ok? && r.value.0 ==> Fits(net, c) && r.value.1.value == Assignments(net, c)
    ensures r.Ok? && r.value.0 && v == Core ==> r.value.1.value as real <= ComplexityLimit
    ensures r.Ok? && !r.value.0 && v == Core ==> !verbose
  {
    var ni, no, ng := Needed(net, net.inputs), Needed(net, net.outputs), Needed(net, net.gates);
    match GatesMatch(c, ng)
    case Err(e) => Err(e)
    case Ok(gm) =>
      var pass := net.valid && InputsMatch(v, c, ni) && OutputsMatch(c, no) && gm;
      if !pass then
        if v == Core && verbose then Err(TypeError) else Ok((false, None))
      else
        match PermuteCountHelper(ni, no, ng, c.inSensors, c.outDevices, c.groups)
        case Err(e) => Err(e)
        case Ok((total, confirm)) =>
          if v == Core && confirm > ComplexityLimit then Err(GenericException)
          else Ok((true, Some(total)))
  }

  /** The ways `check_conditions` raises, each case both ways round. */
  lemma CheckConditionsErrors(v: Variant, net: NetlistCounts, c: UcfCounts, verbose: bool)
    ensures var r := CheckConditions(v, net, c, verbose);
            var pass := net.valid && InputsMatch(v, c, net.inputs) && OutputsMatch(c, net.outputs)
                        && GatesMatch(c, net.gates) == Ok(true);
            (r == Err(IndexError) <==> c.structures == c.models == c.gates && |c.maxInstances| == 0) &&
            (r == Err(TypeError) <==> GatesMatch(c, 0).Ok? && !pass && v == Core && verbose) &&
            (r == Err(RecursionError) <==> pass && !Fits(net, c)) &&
            (r == Err(GenericException) <==> v == Core && pass && Fits(net, c) && Assignments(net, c) as real > ComplexityLimit)
  {
  }

  /**
   * The core input check does not tie the sensor count to the parts count,
   * so a UCF with more parts than sensors passes for a netlist needing more
   * inputs than there are sensors, and the count then fails.
   */
  lemma CheckFewerSensorsThanInputs()
    ensures CheckConditions(Core, NetlistCounts(true, 2, 1, 1),
                            UcfCounts(1, 1, 1, 2, 1, 1, 1, 1, 3, 3, 3, 1, [1]), false) == Err(RecursionError)
    ensures CheckConditions(Legacy, NetlistCounts(true, 2, 1, 1),
                            UcfCounts(1, 1, 1, 2, 1, 1, 1, 1, 3, 3, 3, 1, [1]), false) == Ok((false, None))
  {
  }

  // ---------------------------------------------------------------------
  // itertools.permutations
  // ---------------------------------------------------------------------

  /** `xs` without its element at position i. */
  function Without<T>(xs: seq<T>, i: nat): (r: seq<T>)
    requires i < |xs|
    ensures |r| == |xs| - 1
    ensures forall k :: 0 <= k < |r| ==> r[k] == if k < i then xs[k] else xs[k + 1]
  {
    xs[..i] + xs[i + 1..]
  }

  /** Each of `ps` with `x` in front. */
  function Prepend<T>(x: T, ps: seq<seq<T>>): (r: seq<seq<T>>)
    ensures |r| == |ps|
    ensures forall k :: 0 <= k < |ps| ==> r[k] == [x] + ps[k]
  {
    seq(|ps|, k requires 0 <= k < |ps| => [x] + ps[k])
  }

  /**
   * `itertools.permutations(xs, k)`: the ordered k-selections of positions
   * of `xs`, in lexicographic order of the positions chosen.
   */
  function Perms<T>(xs: seq<T>, k: nat): seq<seq<T>>
    decreases k, |xs| + 1
  {
    if k == 0 then [[]] else PermsFrom(xs, k, 0)
  }

  /** The selections whose first position is i or later. */
  function PermsFrom<T>(xs: seq<T>, k: nat, i: nat): seq<seq<T>>
    requires 0 < k && i <= |xs|
    decreases k, |xs| - i
  {
    if i == |xs| then []
    else Prepend(xs[i], Perms(Without(xs, i), k - 1)) + PermsFrom(xs, k, i + 1)
  }

  lemma MulSucc(a: int, b: int)
    ensures (a + 1) * b == b + a * b
  {
  }

  /** There are math.perm(|xs|, k) of them. */
  lemma {:induction false} PermsLength<T>(xs: seq<T>, k: nat)
    ensures |Perms(xs, k)| == MathPerm(|xs|, k)
    decreases k, |xs| + 1, 0
  {
    if k > 0 {
      if |xs| == 0 {
        assert Perms(xs, k) == PermsFrom(xs, k, 0) == [];
      } else {
        PermsFromLength(xs, k, 0);
      }
    }
  }

  lemma {:induction false} PermsFromLength<T>(xs: seq<T>, k: nat, i: nat)
    requires 0 < k && i <= |xs| && |xs| > 0
    ensures |PermsFrom(xs, k, i)| == (|xs| - i) * MathPerm(|xs| - 1, k - 1)
    decreases k, |xs| - i, 1
  {
    if i < |xs| {
      var n, p := |xs| - i - 1, MathPerm(|xs| - 1, k - 1);
      PermsLength(Without(xs, i), k - 1);
      PermsFromLength(xs, k, i + 1);
      PermsFromCount(xs, k, i);
      MulSucc(n, p);
    }
  }

  /** The selections starting at position i, then those starting later. */
  lemma PermsFromCount<T>(xs: seq<T>, k: nat, i: nat)
    requires 0 < k && i < |xs|
    ensures |PermsFrom(xs, k, i)| == |Perms(Without(xs, i), k - 1)| + |PermsFrom(xs, k, i + 1)|
  {
  }

  /** A selection of k elements of `xs`, all different when `xs` has no repeats. */
  predicate Shaped<T(==)>(xs: seq<T>, k: nat, p: seq<T>)
  {
    |p| == k && (forall e :: e in p ==> e in xs) && (Distinct(xs) ==> Distinct(p))
  }

  /**
   * Every selection has k elements of `xs`, and picks different elements
   * when `xs` has no repeats.
   */
  lemma {:induction false} PermsShape<T>(xs: seq<T>, k: nat)
    ensures forall p :: p in Perms(xs, k) ==> Shaped(xs, k, p)
    decreases k, |xs| + 1, 0
  {
    if k > 0 {
      PermsFromShape(xs, k, 0);
    }
  }

  lemma {:induction false} PermsFromShape<T>(xs: seq<T>, k: nat, i: nat)
    requires 0 < k && i <= |xs|
    ensures forall p :: p in PermsFrom(xs, k, i) ==> Shaped(xs, k, p)
    decreases k, |xs| - i, 1
  {
    if i < |xs| {
      var rest := Without(xs, i);
      var qs := Perms(rest, k - 1);
      var head := Prepend(xs[i], qs);
      PermsShape(rest, k - 1);
      PermsFromShape(xs, k, i + 1);
      assert PermsFrom(xs, k, i) == head + PermsFrom(xs, k, i + 1);
      forall p | p in head
        ensures Shaped(xs, k, p)
      {
        var m :| 0 <= m < |head| && head[m] == p;
        assert qs[m] in qs;
        PrependShaped(xs, k, i, qs[m]);
      }
    }
  }

  /** Position i's element in front of a selection from the rest is a selection from `xs`. */
  lemma PrependShaped<T>(xs: seq<T>, k: nat, i: nat, q: seq<T>)
    requires 0 < k && i < |xs| && Shaped(Without(xs, i), k - 1, q)
    ensures Shaped(xs, k, [xs[i]] + q)
  {
    WithoutShape(xs, i);
    if Distinct(xs) {
      ConsDistinct(xs[i], q);
    }
  }

  /** Dropping a position keeps only elements of `xs`, and leaves out the dropped one when `xs` has no repeats. */
  lemma WithoutShape<T>(xs: seq<T>, i: nat)
    requires i < |xs|
    ensures forall e :: e in Without(xs, i) ==> e in xs
    ensures Distinct(xs) ==> Distinct(Without(xs, i)) && xs[i] !in Without(xs, i)
  {
    var r := Without(xs, i);
    if Distinct(xs) {
      forall a, b | 0 <= a < b < |r| ensures r[a] != r[b] {
        assert r[a] == xs[if a < i then a else a + 1];
        assert r[b] == xs[if b < i then b else b + 1];
      }
      forall a | 0 <= a < |r| ensures r[a] != xs[i] {
        assert r[a] == xs[if a < i then a else a + 1];
      }
    }
  }

  /** A new element in front of a sequence without repeats gives one without repeats. */
  lemma ConsDistinct<T>(x: T, q: seq<T>)
    requires Distinct(q) && x !in q
    ensures Distinct([x] + q)
  {
    var p := [x] + q;
    forall a, b | 0 <= a < b < |p| ensures p[a] != p[b] {
      assert p[b] == q[b - 1];
      if a > 0 {
        assert p[a] == q[a - 1];
      }
    }
  }

  // ---------------------------------------------------------------------
  // Candidates and their decoding
  // ---------------------------------------------------------------------

  /** The UCF names chosen for the netlist's inputs, outputs and gates. */
  datatype Candidate = Candidate(ins: seq<string>, outs: seq<string>, gates: seq<string>)

  /** A point the optimiser asks about, one coordinate per dimension. */
  datatype Point = Point(x0: real, x1: real, x2: real)

  /** The `x` handed to `prep_assign_for_scoring`: chosen names, or optimiser coordinates. */
  datatype Probe = Chosen(c: Candidate) | At(p: Point)

  /** The three permutation lists the optimiser's coordinates index. */
  datatype Domains = Domains(ins: seq<seq<string>>, outs: seq<seq<string>>, gates: seq<seq<string>>)

  /** `args` of `prep_assign_for_scoring`. */
  datatype Args = Args(doms: Option<Domains>, net: Graph, i: nat, o: nat, g: nat, maxFun: int)

  /** `math.ceil`. */
  function Ceil(x: real): (c: int)
    ensures x <= c as real < x + 1.0
  {
    if x.Floor as real == x then x.Floor else x.Floor + 1
  }

  /** The index a coordinate selects: floor(x) in the core copy, ceil(x) - 1 in the older one. */
  function Slot(v: Variant, x: real): (k: int)
    ensures v == Core ==> k as real <= x < k as real + 1.0
    ensures v == Legacy ==> k as real < x <= k as real + 1.0
  {
    if v == Core then x.Floor else Ceil(x) - 1
  }

  /** All three permutation lists are given and nonempty, so coordinates are decoded. */
  predicate Decodes(doms: Option<Domains>)
  {
    doms.Some? && |doms.value.ins| > 0 && |doms.value.outs| > 0 && |doms.value.gates| > 0
  }

  /**
   * The names a probe stands for.  Coordinates index the permutation lists
   * (Python's negative indices included); a tuple where coordinates are
   * expected, or coordinates where names are expected, is a TypeError.
   */
  function Decode(v: Variant, doms: Option<Domains>, x: Probe): (r: Result<Candidate>)
    ensures !Decodes(doms) ==> (r.Ok? <==> x.Chosen?) && (r.Ok? ==> r.value == x.c)
    ensures Decodes(doms) && x.Chosen? ==> r == Err(TypeError)
    ensures Decodes(doms) && x.At? ==>
              (r.Ok? <==> PyIndex(doms.value.ins, Slot(v, x.p.x0)).Ok? && PyIndex(doms.value.outs, Slot(v, x.p.x1)).Ok?
                          && PyIndex(doms.value.gates, Slot(v, x.p.x2)).Ok?)
    ensures Decodes(doms) && r.Ok? ==>
              r.value.ins in doms.value.ins && r.value.outs in doms.value.outs && r.value.gates in doms.value.gates
    ensures r.Err? ==> r.error == TypeError || r.error == IndexError
  {
    if Decodes(doms) then
      match x
      case Chosen(_) => Err(TypeError)
      case At(p) =>
        var d := doms.value;
        match PyIndex(d.ins, Slot(v, p.x0))
        case Err(e) => Err(e)
        case Ok(ins) =>
          match PyIndex(d.outs, Slot(v, p.x1))
          case Err(e) => Err(e)
          case Ok(outs) =>
            match PyIndex(d.gates, Slot(v, p.x2))
            case Err(e) => Err(e)
            case Ok(gates) => Ok(Candidate(ins, outs, gates))
    else
      match x
      case Chosen(c) => Ok(c)
      case At(_) => Err(TypeError)
  }

  /** A coordinate in [0, n) selects position floor(x) in the core copy. */
  lemma CoreDecodeInRange(doms: Domains, p: Point)
    requires Decodes(Some(doms))
    requires 0.0 <= p.x0 < |doms.ins| as real && 0.0 <= p.x1 < |doms.outs| as real && 0.0 <= p.x2 < |doms.gates| as real
    ensures Decode(Core, Some(doms), At(p)) ==
              Ok(Candidate(doms.ins[p.x0.Floor], doms.outs[p.x1.Floor], doms.gates[p.x2.Floor]))
  {
  }

  /** The optimiser's bounds include n itself, where the core decoding runs off the list. */
  lemma CoreDecodeAtUpperBound(doms: Domains, p: Point)
    requires Decodes(Some(doms)) && p.x0 == |doms.ins| as real
    ensures Decode(Core, Some(doms), At(p)) == Err(IndexError)
  {
  }

  /**
   * The older ceil(x) - 1 decoding accepts the whole closed range [0, n]:
   * 0 wraps round to the last permutation, any x in (k, k + 1] selects k.
   */
  lemma LegacyDecodeInBounds(doms: Domains, p: Point)
    requires Decodes(Some(doms))
    requires 0.0 <= p.x0 <= |doms.ins| as real && 0.0 <= p.x1 <= |doms.outs| as real && 0.0 <= p.x2 <= |doms.gates| as real
    ensures Decode(Legacy, Some(doms), At(p)).Ok?
    ensures p.x0 == 0.0 ==> Decode(Legacy, Some(doms), At(p)).value.ins == doms.ins[|doms.ins| - 1]
  {
  }

  // ---------------------------------------------------------------------
  // The uniqueness filter
  // ---------------------------------------------------------------------

  /** `set(xs)`. */
  function SetOf(xs: seq<string>): (s: set<string>)
    ensures forall x :: x in s <==> x in xs
  {
    if |xs| == 0 then {} else SetOf(xs[..|xs| - 1]) + {xs[|xs| - 1]}
  }

  /** `len(set(xs)) == len(xs)` exactly when `xs` has no repeats. */
  lemma {:induction false} SetOfSize(xs: seq<string>)
    ensures |SetOf(xs)| <= |xs|
    ensures |SetOf(xs)| == |xs| <==> Distinct(xs)
  {
    if |xs| > 0 {
      var init, last := xs[..|xs| - 1], xs[|xs| - 1];
      SetOfSize(init);
      DistinctSnoc(xs);
      if last in init {
        assert SetOf(xs) == SetOf(init);
      }
    }
  }

  /** The names of a candidate, in `i_perm + o_perm + g_perm` order. */
  function AllNames(c: Candidate): seq<string>
  {
    c.ins + c.outs + c.gates
  }

  /** The filter: the chosen names are all different and there are i + o + g of them. */
  predicate Counted(c: Candidate, i: nat, o: nat, g: nat)
  {
    |SetOf(AllNames(c))| == i + o + g
  }

  /** For a candidate of the right shape the filter keeps exactly those without a repeated name. */
  lemma CountedIffDistinct(c: Candidate, i: nat, o: nat, g: nat)
    requires |c.ins| == i && |c.outs| == o && |c.gates| == g
    ensures Counted(c, i, o, g) <==> Distinct(AllNames(c))
  {
    SetOfSize(AllNames(c));
  }

  // ---------------------------------------------------------------------
  // Binding names onto the netlist graph
  // ---------------------------------------------------------------------

  function Min(a: nat, b: nat): nat
  {
    if a <= b then a else b
  }

  /**
   * The `map_helper` pairing: the k-th chosen name goes to the k-th netlist
   * node (zip stops at the shorter list), which keeps its id, its type and
   * its ports; gates start without variants.
   */
  function Bind(c: Candidate, net: Graph): (r: Graph)
    ensures |r.inputs| == Min(|c.ins|, |net.inputs|)
    ensures |r.outputs| == Min(|c.outs|, |net.outputs|)
    ensures |r.gates| == Min(|c.gates|, |net.gates|)
  {
    Graph(seq(Min(|c.ins|, |net.inputs|), k requires 0 <= k < Min(|c.ins|, |net.inputs|) =>
                InputNode(c.ins[k], net.inputs[k].id)),
          seq(Min(|c.outs|, |net.outputs|), k requires 0 <= k < Min(|c.outs|, |net.outputs|) =>
                OutputNode(c.outs[k], net.outputs[k].id)),
          seq(Min(|c.gates|, |net.gates|), k requires 0 <= k < Min(|c.gates|, |net.gates|) =>
                Gate(c.gates[k], net.gates[k].gateType, net.gates[k].inputs, net.gates[k].output, [])))
  }

  /** Two graphs with the same node counts, ids, gate types and ports. */
  predicate SameWiring(a: Graph, b: Graph)
  {
    |a.inputs| == |b.inputs| && |a.outputs| == |b.outputs| && |a.gates| == |b.gates|
    && (forall k :: 0 <= k < |a.inputs| ==> a.inputs[k].id == b.inputs[k].id)
    && (forall k :: 0 <= k < |a.outputs| ==> a.outputs[k].id == b.outputs[k].id)
    && (forall k :: 0 <= k < |a.gates| ==>
          a.gates[k].gateType == b.gates[k].gateType && a.gates[k].inputs == b.gates[k].inputs
          && a.gates[k].output == b.gates[k].output)
  }

  /** A candidate of the netlist's shape names every node and changes no wiring. */
  lemma BindNames(c: Candidate, net: Graph)
    requires |c.ins| == |net.inputs| && |c.outs| == |net.outputs| && |c.gates| == |net.gates|
    ensures SameWiring(Bind(c, net), net)
    ensures InputNames(Bind(c, net)) == c.ins && OutputNames(Bind(c, net)) == c.outs
            && GateNames(Bind(c, net)) == c.gates
  {
  }

  /** Attaching variants changes no wiring either. */
  lemma VariantsKeepWiring(graph: Graph, gateIds: seq<(string, string)>)
    ensures SameWiring(WithVariants(graph, gateIds), graph)
  {
    AttachMembers(graph.gates, gateIds, |gateIds|);
  }

  lemma {:induction false} GatesDrivingSame(a: seq<Gate>, b: seq<Gate>, bit: int, m: nat)
    requires m <= |a| == |b| && forall k :: 0 <= k < |a| ==> a[k].output == b[k].output
    ensures GatesDriving(a, bit, m) == GatesDriving(b, bit, m)
  {
    if m > 0 {
      GatesDrivingSame(a, b, bit, m - 1);
    }
  }

  lemma {:induction false} OutputsWithIdSame(a: seq<OutputNode>, b: seq<OutputNode>, bit: int, m: nat)
    requires m <= |a| == |b| && forall k :: 0 <= k < |a| ==> a[k].id == b[k].id
    ensures OutputsWithId(a, bit, m) == OutputsWithId(b, bit, m)
  {
    if m > 0 {
      OutputsWithIdSame(a, b, bit, m - 1);
    }
  }

  lemma {:induction false} InputsWithIdSame(a: seq<InputNode>, b: seq<InputNode>, bit: int, m: nat)
    requires m <= |a| == |b| && forall k :: 0 <= k < |a| ==> a[k].id == b[k].id
    ensures InputsWithId(a, bit, m) == InputsWithId(b, bit, m)
  {
    if m > 0 {
      InputsWithIdSame(a, b, bit, m - 1);
    }
  }

  lemma {:induction false} PrevNodesSame(a: Graph, b: Graph, rules: Rules, bits: seq<int>, n: nat)
    requires SameWiring(a, b) && n <= |bits|
    ensures PrevNodes(a, rules, bits, n) == PrevNodes(b, rules, bits, n)
  {
    if n > 0 {
      PrevNodesSame(a, b, rules, bits, n - 1);
      var bit := bits[n - 1];
      GatesDrivingSame(a.gates, b.gates, bit, |a.gates|);
      OutputsWithIdSame(a.outputs, b.outputs, bit, |a.outputs|);
      InputsWithIdSame(a.inputs, b.inputs, bit, |a.inputs|);
    }
  }

  lemma {:induction false} FirstDriverSame(a: seq<Gate>, b: seq<Gate>, id: int, from: nat)
    requires from <= |a| == |b| && forall k :: 0 <= k < |a| ==> a[k].output == b[k].output
    ensures FirstDriver(a, id, from) == FirstDriver(b, id, from)
    decreases |a| - from
  {
    if from < |a| {
      FirstDriverSame(a, b, id, from + 1);
    }
  }

  /** `find_prev` only looks at the wiring, so renaming the nodes leaves it unchanged. */
  lemma PrevOfSameWiring(a: Graph, b: Graph, rules: Rules, q: NodeRef)
    requires SameWiring(a, b) && ValidRef(a, q)
    ensures ValidRef(b, q) && PrevOf(a, rules, q) == PrevOf(b, rules, q)
  {
    match q
    case OutRef(k) =>
      FirstDriverSame(a.gates, b.gates, a.outputs[k].id, 0);
    case GateRef(k) =>
      var bits := a.gates[k].inputs;
      PrevNodesSame(a, b, rules, bits, |bits|);
    case InRef(_) =>
  }

  // ---------------------------------------------------------------------
  // The running best (iter_count, best_score, best_graphs)
  // ---------------------------------------------------------------------

  /**
   * One scored assignment: `(circuit_score, graph, tb, tb_labels)`, with the
   * `best_score` and `gate_in_use` that scoring left on each gate of the
   * graph.
   */
  datatype Assignment = Assignment(score: real, graph: Graph, table: seq<Row>, labels: seq<string>,
                                   inUse: seq<Option<Choice>>)

  /** Each gate's recorded `gate_in_use` is the pick of `eval_gates` for it. */
  ghost predicate Picked(env: Env, a: Assignment)
  {
    ChoicesChosen(a.graph, env, a.inUse)
  }

  /** Every kept assignment records the picks of `eval_gates`. */
  ghost predicate AllPicked(env: Env, s: Search)
  {
    forall k :: 0 <= k < |s.bestGraphs| ==> Picked(env, s.bestGraphs[k])
  }

  /** The search state that `prep_assign_for_scoring` updates. */
  datatype Search = Search(iterCount: nat, bestScore: real, bestGraphs: seq<Assignment>)

  /** Every kept assignment has the best score. */
  predicate Uniform(s: Search)
  {
    forall k :: 0 <= k < |s.bestGraphs| ==> s.bestGraphs[k].score == s.bestScore
  }

  /** A strictly better score replaces the kept list; an equal one joins it. */
  function Record(s: Search, a: Assignment): (t: Search)
    ensures t.iterCount == s.iterCount
    ensures t.bestScore >= s.bestScore && t.bestScore >= a.score
    ensures Uniform(s) ==> Uniform(t)
  {
    if a.score > s.bestScore then s.(bestScore := a.score, bestGraphs := [a])
    else if a.score == s.bestScore then s.(bestGraphs := s.bestGraphs + [a])
    else s
  }

  /** Recording each of `found` in turn. */
  function RecordAll(s: Search, found: seq<Assignment>): Search
  {
    if |found| == 0 then s else Record(RecordAll(s, found[..|found| - 1]), found[|found| - 1])
  }

  /** The assignments of `found` that score exactly x, in order. */
  function WithScore(found: seq<Assignment>, x: real): (r: seq<Assignment>)
    ensures forall k :: 0 <= k < |r| ==> r[k].score == x && r[k] in found
  {
    if |found| == 0 then []
    else WithScore(found[..|found| - 1], x) + (if found[|found| - 1].score == x then [found[|found| - 1]] else [])
  }

  lemma {:induction false} WithScoreNone(found: seq<Assignment>, x: real)
    requires forall k :: 0 <= k < |found| ==> found[k].score < x
    ensures WithScore(found, x) == []
  {
    if |found| > 0 {
      WithScoreNone(found[..|found| - 1], x);
    }
  }

  /**
   * Recording a sequence keeps the maximum of the starting best and every
   * score, and the kept list is every assignment reaching it, in order,
   * after the starting list when the starting best still stands.
   */
  lemma {:induction false} RecordAllClosedForm(s: Search, found: seq<Assignment>)
    ensures RecordAll(s, found).iterCount == s.iterCount && RecordAll(s, found).bestScore >= s.bestScore
    ensures forall k :: 0 <= k < |found| ==> found[k].score <= RecordAll(s, found).bestScore
    ensures RecordAll(s, found).bestScore == s.bestScore || exists k :: 0 <= k < |found| && found[k].score == RecordAll(s, found).bestScore
    ensures RecordAll(s, found).bestGraphs ==
              (if RecordAll(s, found).bestScore == s.bestScore then s.bestGraphs else []) + WithScore(found, RecordAll(s, found).bestScore)
  {
    if |found| > 0 {
      var init, a := found[..|found| - 1], found[|found| - 1];
      RecordAllClosedForm(s, init);
      var p := RecordAll(s, init);
      assert forall k :: 0 <= k < |init| ==> found[k] == init[k];
      if a.score > p.bestScore {
        WithScoreNone(init, a.score);
      } else if a.score == p.bestScore {
      } else {
      }
    }
  }

  // ---------------------------------------------------------------------
  // prep_assign_for_scoring found a function of the search state
  // ---------------------------------------------------------------------

  /**
   * The settings of one CELLO3 object that the search reads: which copy,
   * `verbose`, `exhaustive` (the older copy's `not simulated_annealing`),
   * the `iterations` budget, and what scoring needs (transfer functions
   * and the UCF's (group, name) gate pairs).
   */
  datatype Setup = Setup(variant: Variant, verbose: bool, exhaustive: bool, totalIters: int,
                         env: Env, gateIds: seq<(string, string)>)

  /**
   * The progress bar divides by `max_fun`: always in the core copy, only
   * when not verbose in the older one.
   */
  predicate ProgressDivides(cfg: Setup)
  {
    cfg.variant == Core || !cfg.verbose
  }

  /** What one probe comes to, independent of the search state so far. */
  datatype Outcome = Skipped | Scored(a: Assignment) | Failed(counted: bool, error: PyError)

  function Assess(cfg: Setup, args: Args, x: Probe): Outcome
  {
    match Decode(cfg.variant, args.doms, x)
    case Err(e) => Failed(false, e)
    case Ok(c) =>
      if !Counted(c, args.i, args.o, args.g) then Skipped
      else Judge(cfg, args, Bind(c, args.net), ScoreCircuitSpec(Bind(c, args.net), RulesOf(cfg.variant), cfg.env, cfg.gateIds))
  }

  /** What a counted candidate comes to, given what scoring its graph gave. */
  function Judge(cfg: Setup, args: Args, graph: Graph, scored: Result<Scoring>): Outcome
  {
    match scored
    case Err(e) => Failed(true, e)
    case Ok(sc) =>
      if ProgressDivides(cfg) && args.maxFun == 0 then Failed(true, ZeroDivisionError)
      else Scored(Assignment(sc.score, WithVariants(graph, cfg.gateIds), sc.table, sc.labels, sc.inUse))
  }

  /** The state change and the returned value for one outcome. */
  function Apply(s: Search, out: Outcome): (Search, Result<real>)
  {
    match out
    case Skipped => (s, Ok(-s.bestScore))
    case Failed(counted, e) => (s.(iterCount := s.iterCount + (if counted then 1 else 0)), Err(e))
    case Scored(a) =>
      var t := Record(s.(iterCount := s.iterCount + 1), a);
      (t, Ok(-t.bestScore))
  }

  /**
   * `prep_assign_for_scoring`: the new search state and the value handed
   * back to the optimiser, the negated best score; an exception leaves the
   * state as it was when raised.
   */
  function PrepStep(cfg: Setup, s: Search, args: Args, x: Probe): (Search, Result<real>)
  {
    Apply(s, Assess(cfg, args, x))
  }

  /** A probe that does not decode raises before anything changes. */
  lemma StepUndecoded(cfg: Setup, s: Search, args: Args, x: Probe)
    requires Decode(cfg.variant, args.doms, x).Err?
    ensures PrepStep(cfg, s, args, x) == (s, Err(Decode(cfg.variant, args.doms, x).error))
  {
  }

  /** A candidate that repeats a node is skipped and not counted. */
  lemma StepSkipped(cfg: Setup, s: Search, args: Args, x: Probe, c: Candidate)
    requires Decode(cfg.variant, args.doms, x) == Ok(c) && !Counted(c, args.i, args.o, args.g)
    ensures PrepStep(cfg, s, args, x) == (s, Ok(-s.bestScore))
  {
  }

  /** A counted candidate whose scoring raises: the count has gone up. */
  lemma StepScoreFails(cfg: Setup, s: Search, args: Args, x: Probe, c: Candidate, e: PyError)
    requires Decode(cfg.variant, args.doms, x) == Ok(c) && Counted(c, args.i, args.o, args.g)
    requires ScoreCircuitSpec(Bind(c, args.net), RulesOf(cfg.variant), cfg.env, cfg.gateIds) == Err(e)
    ensures PrepStep(cfg, s, args, x) == (s.(iterCount := s.iterCount + 1), Err(e))
  {
  }

  /** A counted candidate comes to what scoring its bound graph gives. */
  lemma AssessCounted(cfg: Setup, args: Args, x: Probe, c: Candidate)
    requires Decode(cfg.variant, args.doms, x) == Ok(c) && Counted(c, args.i, args.o, args.g)
    ensures Assess(cfg, args, x) ==
              Judge(cfg, args, Bind(c, args.net), ScoreCircuitSpec(Bind(c, args.net), RulesOf(cfg.variant), cfg.env, cfg.gateIds))
  {
  }

  /** A scored candidate whose progress report divides by zero is counted and fails. */
  lemma AssessDivides(cfg: Setup, args: Args, x: Probe, c: Candidate)
    requires Decode(cfg.variant, args.doms, x) == Ok(c) && Counted(c, args.i, args.o, args.g)
    requires ScoreCircuitSpec(Bind(c, args.net), RulesOf(cfg.variant), cfg.env, cfg.gateIds).Ok?
    requires ProgressDivides(cfg) && args.maxFun == 0
    ensures Assess(cfg, args, x) == Failed(true, ZeroDivisionError)
  {
    AssessCounted(cfg, args, x, c);
  }

  /**
   * A counted candidate that scores is kept with its variants attached, its
   * table, its labels and each gate's `gate_in_use`, which is the pick of
   * `eval_gates` for that gate.
   */
  lemma AssessScored(cfg: Setup, args: Args, x: Probe, c: Candidate, sc: Scoring)
    requires Decode(cfg.variant, args.doms, x) == Ok(c) && Counted(c, args.i, args.o, args.g)
    requires ScoreCircuitSpec(Bind(c, args.net), RulesOf(cfg.variant), cfg.env, cfg.gateIds) == Ok(sc)
    requires !(ProgressDivides(cfg) && args.maxFun == 0)
    ensures Assess(cfg, args, x) == Scored(Assignment(sc.score, WithVariants(Bind(c, args.net), cfg.gateIds), sc.table, sc.labels, sc.inUse))
    ensures Picked(cfg.env, Assess(cfg, args, x).a)
  {
    AssessCounted(cfg, args, x, c);
    ScoreCircuitInUse(Bind(c, args.net), RulesOf(cfg.variant), cfg.env, cfg.gateIds);
  }

  /** Whatever a probe comes to, a scored assignment records the picks of `eval_gates`. */
  lemma AssessPicked(cfg: Setup, args: Args, x: Probe)
    ensures Assess(cfg, args, x).Scored? ==> Picked(cfg.env, Assess(cfg, args, x).a)
  {
    if Assess(cfg, args, x).Scored? {
      var c := Decode(cfg.variant, args.doms, x).value;
      AssessScored(cfg, args, x, c, ScoreCircuitSpec(Bind(c, args.net), RulesOf(cfg.variant), cfg.env, cfg.gateIds).value);
    }
  }

  /** A scored assignment is counted, then recorded; the optimiser gets the negated new best. */
  lemma ApplyScored(s: Search, a: Assignment)
    ensures var t := Record(s.(iterCount := s.iterCount + 1), a);
            Apply(s, Scored(a)) == (t, Ok(-t.bestScore))
  {
  }

  /** The outcomes of the probes `xs`. */
  function Outcomes(cfg: Setup, args: Args, xs: seq<Probe>): (r: seq<Outcome>)
    ensures |r| == |xs| && forall k :: 0 <= k < |xs| ==> r[k] == Assess(cfg, args, xs[k])
  {
    seq(|xs|, k requires 0 <= k < |xs| => Assess(cfg, args, xs[k]))
  }

  /** The outcomes in turn, stopping at the first exception; the values returned so far. */
  function Replay(s: Search, outs: seq<Outcome>): (Search, Result<seq<real>>)
  {
    if |outs| == 0 then (s, Ok([]))
    else
      var p := Replay(s, outs[..|outs| - 1]);
      if p.1.Err? then p
      else
        var q := Apply(p.0, outs[|outs| - 1]);
        (q.0, if q.1.Err? then Err(q.1.error) else Ok(p.1.value + [q.1.value]))
  }

  /** The probes `xs` in turn, as `prep_assign_for_scoring` calls. */
  function Run(cfg: Setup, s: Search, args: Args, xs: seq<Probe>): (Search, Result<seq<real>>)
  {
    Replay(s, Outcomes(cfg, args, xs))
  }

  /** One more probe is one more step of the run. */
  lemma RunSnoc(cfg: Setup, s: Search, args: Args, xs: seq<Probe>, x: Probe)
    ensures var p := Run(cfg, s, args, xs);
            Run(cfg, s, args, xs + [x]) ==
              if p.1.Err? then p
              else
                var q := PrepStep(cfg, p.0, args, x);
                (q.0, if q.1.Err? then Err(q.1.error) else Ok(p.1.value + [q.1.value]))
  {
    var outs := Outcomes(cfg, args, xs + [x]);
    assert outs[..|outs| - 1] == Outcomes(cfg, args, xs);
  }

  /** Replaying `ys` after a replay. */
  function Then(p: (Search, Result<seq<real>>), ys: seq<Outcome>): (Search, Result<seq<real>>)
  {
    if p.1.Err? then p
    else
      var q := Replay(p.0, ys);
      (q.0, if q.1.Err? then q.1 else Ok(p.1.value + q.1.value))
  }

  lemma {:induction false} ReplayAppend(s: Search, xs: seq<Outcome>, ys: seq<Outcome>)
    ensures Replay(s, xs + ys) == Then(Replay(s, xs), ys)
  {
    if |ys| == 0 {
      assert xs + ys == xs;
      var p := Replay(s, xs);
      if p.1.Ok? {
        assert p.1.value + [] == p.1.value;
      }
    } else {
      var init, y := ys[..|ys| - 1], ys[|ys| - 1];
      ReplayAppend(s, xs, init);
      assert (xs + ys)[..|xs + ys| - 1] == xs + init;
      assert (xs + ys)[|xs + ys| - 1] == y;
      var p := Replay(s, xs);
      if p.1.Ok? {
        var q := Replay(p.0, init);
        if q.1.Ok? {
          var v := Apply(q.0, y).1;
          if v.Ok? {
            assert p.1.value + (q.1.value + [v.value]) == (p.1.value + q.1.value) + [v.value];
          }
        }
      }
    }
  }

  /** Running `xs + ys` is running `xs`, then `ys` unless `xs` raised. */
  lemma RunAppend(cfg: Setup, s: Search, args: Args, xs: seq<Probe>, ys: seq<Probe>)
    ensures Run(cfg, s, args, xs + ys) == Then(Run(cfg, s, args, xs), Outcomes(cfg, args, ys))
  {
    assert Outcomes(cfg, args, xs + ys) == Outcomes(cfg, args, xs) + Outcomes(cfg, args, ys);
    ReplayAppend(s, Outcomes(cfg, args, xs), Outcomes(cfg, args, ys));
  }

  /** Nothing runs after an exception. */
  lemma RunAppendErr(cfg: Setup, s: Search, args: Args, xs: seq<Probe>, ys: seq<Probe>)
    requires Run(cfg, s, args, xs).1.Err?
    ensures Run(cfg, s, args, xs + ys) == Run(cfg, s, args, xs)
  {
    RunAppend(cfg, s, args, xs, ys);
  }

  /** One more probe of a loop over `xs`, or the exception that ends the loop. */
  lemma RunNext(cfg: Setup, s: Search, args: Args, xs: seq<Probe>, c: nat,
                mid: Search, r: Result<seq<real>>, after: Search, v: Result<real>)
    requires c < |xs| && r.Ok? && (mid, r) == Run(cfg, s, args, xs[..c])
    requires (after, v) == PrepStep(cfg, mid, args, xs[c])
    ensures v.Ok? ==> Run(cfg, s, args, xs[..c + 1]) == (after, Ok(r.value + [v.value]))
    ensures v.Err? ==> Run(cfg, s, args, xs) == (after, Err(v.error))
  {
    RunSnoc(cfg, s, args, xs[..c], xs[c]);
    assert xs[..c + 1] == xs[..c] + [xs[c]];
    if v.Err? {
      RunAppendErr(cfg, s, args, xs[..c + 1], xs[c + 1..]);
      assert xs[..c + 1] + xs[c + 1..] == xs;
    }
  }

  /** The assignments among some outcomes, in order. */
  function ScoredOf(outs: seq<Outcome>): seq<Assignment>
  {
    if |outs| == 0 then []
    else ScoredOf(outs[..|outs| - 1]) + match outs[|outs| - 1] case Scored(a) => [a] case _ => []
  }

  /**
   * A replay without exception is recording the scored assignments in
   * order, each counted once.
   */
  lemma {:induction false} ReplayRecords(s: Search, outs: seq<Outcome>)
    requires Replay(s, outs).1.Ok?
    ensures Replay(s, outs).0 == RecordAll(s, ScoredOf(outs)).(iterCount := s.iterCount + |ScoredOf(outs)|)
  {
    if |outs| > 0 {
      var init, last := outs[..|outs| - 1], outs[|outs| - 1];
      ReplayRecords(s, init);
      var found := ScoredOf(init);
      var p := Replay(s, init).0;
      assert p == RecordAll(s, found).(iterCount := s.iterCount + |found|);
      match last
      case Scored(a) =>
        assert ScoredOf(outs) == found + [a];
        assert (found + [a])[..|found|] == found;
        assert Record(p.(iterCount := p.iterCount + 1), a) == Record(RecordAll(s, found), a).(iterCount := p.iterCount + 1);
      case Skipped =>
        assert ScoredOf(outs) == found;
      case Failed(_, _) =>
    }
  }

  /**
   * The values returned are the negated running best, which never rises,
   * so the last value is the smallest one and the negated final best.
   */
  lemma {:induction false} ReplayValues(s: Search, outs: seq<Outcome>)
    requires Replay(s, outs).1.Ok?
    ensures var (t, r) := Replay(s, outs);
            |r.value| == |outs| && t.bestScore >= s.bestScore &&
            (forall k :: 0 <= k < |outs| ==> r.value[k] >= -t.bestScore) &&
            (|outs| > 0 ==> r.value[|outs| - 1] == -t.bestScore)
  {
    if |outs| > 0 {
      ReplayValues(s, outs[..|outs| - 1]);
    }
  }

  /**
   * What a whole search comes to when nothing raises: the best score is
   * the maximum of the starting best and every score reached, and the kept
   * list is every assignment reaching it, in the order they were tried.
   */
  lemma RunOptimal(cfg: Setup, s: Search, args: Args, xs: seq<Probe>)
    requires Run(cfg, s, args, xs).1.Ok?
    ensures var found := ScoredOf(Outcomes(cfg, args, xs));
            var t := Run(cfg, s, args, xs).0;
            t.iterCount == s.iterCount + |found| && t.bestScore >= s.bestScore &&
            (forall k :: 0 <= k < |found| ==> found[k].score <= t.bestScore) &&
            (t.bestScore == s.bestScore || exists k :: 0 <= k < |found| && found[k].score == t.bestScore) &&
            t.bestGraphs == (if t.bestScore == s.bestScore then s.bestGraphs else []) + WithScore(found, t.bestScore)
  {
    ReplayRecords(s, Outcomes(cfg, args, xs));
    RecordAllClosedForm(s, ScoredOf(Outcomes(cfg, args, xs)));
  }

  /** The minimum the optimiser reports is the negated best, so `best_score = -ret.fun` changes nothing. */
  lemma OptimiserMinimum(cfg: Setup, s: Search, args: Args, xs: seq<Probe>)
    requires |xs| > 0 && Run(cfg, s, args, xs).1.Ok?
    ensures |Run(cfg, s, args, xs).1.value| > 0
    ensures -MinOf(Run(cfg, s, args, xs).1.value) == Run(cfg, s, args, xs).0.bestScore
  {
    ReplayValues(s, Outcomes(cfg, args, xs));
  }

  lemma {:induction false} ReplayUniform(s: Search, outs: seq<Outcome>)
    requires Uniform(s)
    ensures Uniform(Replay(s, outs).0)
  {
    if |outs| > 0 {
      ReplayUniform(s, outs[..|outs| - 1]);
    }
  }

  lemma {:induction false} ReplayPicked(env: Env, s: Search, outs: seq<Outcome>)
    requires AllPicked(env, s)
    requires forall k :: 0 <= k < |outs| && outs[k].Scored? ==> Picked(env, outs[k].a)
    ensures AllPicked(env, Replay(s, outs).0)
  {
    if |outs| > 0 {
      ReplayPicked(env, s, outs[..|outs| - 1]);
    }
  }

  /** A run keeps only assignments that record the picks of `eval_gates`. */
  lemma RunPicked(cfg: Setup, s: Search, args: Args, xs: seq<Probe>)
    requires AllPicked(cfg.env, s)
    ensures AllPicked(cfg.env, Run(cfg, s, args, xs).0)
  {
    var outs := Outcomes(cfg, args, xs);
    forall k | 0 <= k < |outs| && outs[k].Scored?
      ensures Picked(cfg.env, outs[k].a)
    {
      AssessPicked(cfg, args, xs[k]);
    }
    ReplayPicked(cfg.env, s, outs);
  }

  /** A run keeps every kept assignment at the best score. */
  lemma RunUniform(cfg: Setup, s: Search, args: Args, xs: seq<Probe>)
    requires Uniform(s)
    ensures Uniform(Run(cfg, s, args, xs).0)
  {
    ReplayUniform(s, Outcomes(cfg, args, xs));
  }

  lemma {:induction false} ScoredOfMembers(outs: seq<Outcome>, a: Assignment)
    requires Scored(a) in outs
    ensures a in ScoredOf(outs)
  {
    var init := outs[..|outs| - 1];
    if outs[|outs| - 1] != Scored(a) {
      var k :| 0 <= k < |outs| && outs[k] == Scored(a);
      assert init[k] == Scored(a);
      ScoredOfMembers(init, a);
    }
  }

  lemma {:induction false} WithScoreMembers(found: seq<Assignment>, a: Assignment)
    requires a in found
    ensures a in WithScore(found, a.score)
  {
    var init := found[..|found| - 1];
    if found[|found| - 1] != a {
      var k :| 0 <= k < |found| && found[k] == a;
      assert init[k] == a;
      WithScoreMembers(init, a);
    }
  }

  /** A run without exception never loses an assignment that reaches the best score. */
  lemma RunKeepsBest(cfg: Setup, s: Search, args: Args, xs: seq<Probe>, x: Probe, a: Assignment)
    requires Run(cfg, s, args, xs).1.Ok? && x in xs && Assess(cfg, args, x) == Scored(a)
    ensures a.score <= Run(cfg, s, args, xs).0.bestScore
    ensures a.score == Run(cfg, s, args, xs).0.bestScore ==> a in Run(cfg, s, args, xs).0.bestGraphs
  {
    var outs := Outcomes(cfg, args, xs);
    var k :| 0 <= k < |xs| && xs[k] == x;
    assert outs[k] == Scored(a);
    ScoredOfMembers(outs, a);
    RunOptimal(cfg, s, args, xs);
    var found := ScoredOf(outs);
    if a.score == Run(cfg, s, args, xs).0.bestScore {
      WithScoreMembers(found, a);
    }
  }

  // ---------------------------------------------------------------------
  // The exhaustive order
  // ---------------------------------------------------------------------

  /** The innermost loop: every gate permutation for fixed input and output choices. */
  function GateRow(a: seq<string>, b: seq<string>, gs: seq<seq<string>>): (r: seq<Probe>)
    ensures |r| == |gs| && forall k :: 0 <= k < |gs| ==> r[k] == Chosen(Candidate(a, b, gs[k]))
  {
    seq(|gs|, k requires 0 <= k < |gs| => Chosen(Candidate(a, b, gs[k])))
  }

  /** The middle loop over the first m output permutations. */
  function OutRows(a: seq<string>, os: seq<seq<string>>, gs: seq<seq<string>>, m: nat): seq<Probe>
    requires m <= |os|
  {
    if m == 0 then [] else OutRows(a, os, gs, m - 1) + GateRow(a, os[m - 1], gs)
  }

  /** The outer loop over the first m input permutations. */
  function AllRows(is0: seq<seq<string>>, os: seq<seq<string>>, gs: seq<seq<string>>, m: nat): seq<Probe>
    requires m <= |is0|
  {
    if m == 0 then [] else AllRows(is0, os, gs, m - 1) + OutRows(is0[m - 1], os, gs, |os|)
  }

  /** The probes `exhaustive_assign` tries, in the order of its three nested loops. */
  function ExhaustiveProbes(iList: seq<string>, oList: seq<string>, gList: seq<string>, i: nat, o: nat, g: nat): seq<Probe>
  {
    AllRows(Perms(iList, i), Perms(oList, o), Perms(gList, g), |Perms(iList, i)|)
  }

  /** The arguments `exhaustive_assign` passes: no permutation lists, the whole count as budget. */
  function ExhaustiveArgs(net: Graph, i: nat, o: nat, g: nat, iter: int): Args
  {
    Args(None, net, i, o, g, iter)
  }

  lemma {:induction false} OutRowsShape(a: seq<string>, os: seq<seq<string>>, gs: seq<seq<string>>, m: nat)
    requires m <= |os|
    ensures |OutRows(a, os, gs, m)| == m * |gs|
    ensures forall x :: x in OutRows(a, os, gs, m) <==>
              x.Chosen? && x.c.ins == a && x.c.outs in os[..m] && x.c.gates in gs
  {
    if m > 0 {
      OutRowsShape(a, os, gs, m - 1);
      MulSucc(m - 1, |gs|);
      assert os[..m] == os[..m - 1] + [os[m - 1]];
    }
  }

  lemma {:induction false} AllRowsShape(is0: seq<seq<string>>, os: seq<seq<string>>, gs: seq<seq<string>>, m: nat)
    requires m <= |is0|
    ensures |AllRows(is0, os, gs, m)| == m * (|os| * |gs|)
    ensures forall x :: x in AllRows(is0, os, gs, m) <==>
              x.Chosen? && x.c.ins in is0[..m] && x.c.outs in os && x.c.gates in gs
  {
    if m > 0 {
      var prev, row := AllRows(is0, os, gs, m - 1), OutRows(is0[m - 1], os, gs, |os|);
      AllRowsShape(is0, os, gs, m - 1);
      OutRowsShape(is0[m - 1], os, gs, |os|);
      assert os[..|os|] == os;
      MulSucc(m - 1, |os| * |gs|);
      assert is0[..m] == is0[..m - 1] + [is0[m - 1]];
      assert AllRows(is0, os, gs, m) == prev + row;
      forall x ensures x in AllRows(is0, os, gs, m) <==> x in prev || x in row { }
    }
  }

  /**
   * The exhaustive search tries every input, output and gate permutation
   * triple exactly as often as `permute_count_helper` counts them, and
   * nothing else.
   */
  lemma ExhaustiveCoverage(iList: seq<string>, oList: seq<string>, gList: seq<string>, i: nat, o: nat, g: nat)
    ensures |ExhaustiveProbes(iList, oList, gList, i, o, g)|
            == Product3(MathPerm(|iList|, i), MathPerm(|gList|, g), MathPerm(|oList|, o))
    ensures forall x :: x in ExhaustiveProbes(iList, oList, gList, i, o, g) <==>
              x.Chosen? && x.c.ins in Perms(iList, i) && x.c.outs in Perms(oList, o) && x.c.gates in Perms(gList, g)
  {
    var is0, os, gs := Perms(iList, i), Perms(oList, o), Perms(gList, g);
    AllRowsShape(is0, os, gs, |is0|);
    assert is0[..|is0|] == is0;
    PermsLength(iList, i);
    PermsLength(oList, o);
    PermsLength(gList, g);
    MulAssoc(|is0|, |os|, |gs|);
    Product3Swap(|is0|, |os|, |gs|);
  }

  /** When the condition check passes, the exhaustive search tries exactly the number of assignments it reported. */
  lemma ExhaustiveMatchesCheck(v: Variant, net: NetlistCounts, c: UcfCounts, verbose: bool,
                               iList: seq<string>, oList: seq<string>, gList: seq<string>)
    requires CheckConditions(v, net, c, verbose).Ok? && CheckConditions(v, net, c, verbose).value.0
    requires |iList| == c.inSensors && |oList| == c.outDevices && |gList| == c.groups
    ensures CheckConditions(v, net, c, verbose).value.1 ==
              Some(|ExhaustiveProbes(iList, oList, gList, net.inputs, net.outputs, net.gates)|)
  {
    ExhaustiveCoverage(iList, oList, gList, net.inputs, net.outputs, net.gates);
  }

  /**
   * The optimum of the exhaustive search: no candidate of the netlist's
   * shape that scores is better than the final best, and every candidate
   * that reaches it is kept.
   */
  lemma ExhaustiveFindsOptimum(cfg: Setup, s: Search, iList: seq<string>, oList: seq<string>, gList: seq<string>,
                               i: nat, o: nat, g: nat, net: Graph, iter: int, c: Candidate, a: Assignment)
    requires var run := Run(cfg, s, ExhaustiveArgs(net, i, o, g, iter), ExhaustiveProbes(iList, oList, gList, i, o, g));
             run.1.Ok?
    requires c.ins in Perms(iList, i) && c.outs in Perms(oList, o) && c.gates in Perms(gList, g)
    requires Assess(cfg, ExhaustiveArgs(net, i, o, g, iter), Chosen(c)) == Scored(a)
    ensures var run := Run(cfg, s, ExhaustiveArgs(net, i, o, g, iter), ExhaustiveProbes(iList, oList, gList, i, o, g));
            a.score <= run.0.bestScore && (a.score == run.0.bestScore ==> a in run.0.bestGraphs)
  {
    ExhaustiveCoverage(iList, oList, gList, i, o, g);
    RunKeepsBest(cfg, s, ExhaustiveArgs(net, i, o, g, iter), ExhaustiveProbes(iList, oList, gList, i, o, g), Chosen(c), a);
  }

  /** The first b output permutations' probes come first. */
  lemma {:induction false} OutRowsPrefix(a: seq<string>, os: seq<seq<string>>, gs: seq<seq<string>>, b: nat, m: nat)
    requires b <= m <= |os|
    ensures OutRows(a, os, gs, b) <= OutRows(a, os, gs, m)
    decreases m
  {
    if m > b {
      OutRowsPrefix(a, os, gs, b, m - 1);
    }
  }

  /** The first b input permutations' probes come first. */
  lemma {:induction false} AllRowsPrefix(is0: seq<seq<string>>, os: seq<seq<string>>, gs: seq<seq<string>>, b: nat, m: nat)
    requires b <= m <= |is0|
    ensures AllRows(is0, os, gs, b) <= AllRows(is0, os, gs, m)
    decreases m
  {
    if m > b {
      AllRowsPrefix(is0, os, gs, b, m - 1);
    }
  }

  lemma OutRowsErr(cfg: Setup, s: Search, args: Args, a: seq<string>, os: seq<seq<string>>,
                   gs: seq<seq<string>>, b: nat, m: nat)
    requires b <= m <= |os| && Run(cfg, s, args, OutRows(a, os, gs, b)).1.Err?
    ensures Run(cfg, s, args, OutRows(a, os, gs, m)) == Run(cfg, s, args, OutRows(a, os, gs, b))
  {
    var xs, all := OutRows(a, os, gs, b), OutRows(a, os, gs, m);
    OutRowsPrefix(a, os, gs, b, m);
    assert all == xs + all[|xs|..];
    RunAppendErr(cfg, s, args, xs, all[|xs|..]);
  }

  lemma AllRowsErr(cfg: Setup, s: Search, args: Args, is0: seq<seq<string>>, os: seq<seq<string>>,
                   gs: seq<seq<string>>, b: nat, m: nat)
    requires b <= m <= |is0| && Run(cfg, s, args, AllRows(is0, os, gs, b)).1.Err?
    ensures Run(cfg, s, args, AllRows(is0, os, gs, m)) == Run(cfg, s, args, AllRows(is0, os, gs, b))
  {
    var xs, all := AllRows(is0, os, gs, b), AllRows(is0, os, gs, m);
    AllRowsPrefix(is0, os, gs, b, m);
    assert all == xs + all[|xs|..];
    RunAppendErr(cfg, s, args, xs, all[|xs|..]);
  }

  /** One more output permutation of the middle loop. */
  lemma OutRowsStep(cfg: Setup, s: Search, args: Args, a: seq<string>, os: seq<seq<string>>, gs: seq<seq<string>>,
                    b: nat, mid: Search, r: Result<seq<real>>, after: Search, v: Result<seq<real>>)
    requires b < |os| && r.Ok? && (mid, r) == Run(cfg, s, args, OutRows(a, os, gs, b))
    requires (after, v) == Run(cfg, mid, args, GateRow(a, os[b], gs))
    ensures Run(cfg, s, args, OutRows(a, os, gs, b + 1)) == (after, if v.Err? then v else Ok(r.value + v.value))
  {
    RunAppend(cfg, s, args, OutRows(a, os, gs, b), GateRow(a, os[b], gs));
  }

  /** One more output permutation of the middle loop, or the exception that ends it. */
  lemma OutRowsNext(cfg: Setup, s: Search, args: Args, a: seq<string>, os: seq<seq<string>>, gs: seq<seq<string>>,
                    b: nat, mid: Search, r: Result<seq<real>>, after: Search, v: Result<seq<real>>)
    requires b < |os| && r.Ok? && (mid, r) == Run(cfg, s, args, OutRows(a, os, gs, b))
    requires (after, v) == Run(cfg, mid, args, GateRow(a, os[b], gs))
    ensures v.Ok? ==> Run(cfg, s, args, OutRows(a, os, gs, b + 1)) == (after, Ok(r.value + v.value))
    ensures v.Err? ==> Run(cfg, s, args, OutRows(a, os, gs, |os|)) == (after, v)
  {
    OutRowsStep(cfg, s, args, a, os, gs, b, mid, r, after, v);
    if v.Err? {
      OutRowsErr(cfg, s, args, a, os, gs, b + 1, |os|);
    }
  }

  /** One more input permutation of the outer loop. */
  lemma AllRowsStep(cfg: Setup, s: Search, args: Args, is0: seq<seq<string>>, os: seq<seq<string>>, gs: seq<seq<string>>,
                    b: nat, mid: Search, r: Result<seq<real>>, after: Search, v: Result<seq<real>>)
    requires b < |is0| && r.Ok? && (mid, r) == Run(cfg, s, args, AllRows(is0, os, gs, b))
    requires (after, v) == Run(cfg, mid, args, OutRows(is0[b], os, gs, |os|))
    ensures Run(cfg, s, args, AllRows(is0, os, gs, b + 1)) == (after, if v.Err? then v else Ok(r.value + v.value))
  {
    RunAppend(cfg, s, args, AllRows(is0, os, gs, b), OutRows(is0[b], os, gs, |os|));
  }

  /** One more input permutation of the outer loop, or the exception that ends it. */
  lemma AllRowsNext(cfg: Setup, s: Search, args: Args, is0: seq<seq<string>>, os: seq<seq<string>>, gs: seq<seq<string>>,
                    b: nat, mid: Search, r: Result<seq<real>>, after: Search, v: Result<seq<real>>)
    requires b < |is0| && r.Ok? && (mid, r) == Run(cfg, s, args, AllRows(is0, os, gs, b))
    requires (after, v) == Run(cfg, mid, args, OutRows(is0[b], os, gs, |os|))
    ensures v.Ok? ==> Run(cfg, s, args, AllRows(is0, os, gs, b + 1)) == (after, Ok(r.value + v.value))
    ensures v.Err? ==> Run(cfg, s, args, AllRows(is0, os, gs, |is0|)) == (after, v)
  {
    AllRowsStep(cfg, s, args, is0, os, gs, b, mid, r, after, v);
    if v.Err? {
      AllRowsErr(cfg, s, args, is0, os, gs, b + 1, |is0|);
    }
  }

  // ---------------------------------------------------------------------
  // The annealing budget and the final choice
  // ---------------------------------------------------------------------

  /** The most calls the optimiser may make: the `iterations` option in the core copy, 1000 in the older one. */
  function Cap(cfg: Setup): int
  {
    if cfg.variant == Core then cfg.totalIters else 1000
  }

  /** `max_fun`: the number of assignments, but no more than the cap. */
  function AnnealBudget(cfg: Setup, iter: int): (m: int)
    ensures m <= iter && m <= Cap(cfg) && (m == iter || m == Cap(cfg))
  {
    if iter < Cap(cfg) then iter else Cap(cfg)
  }

  /** The arguments the annealing objective passes: the three permutation lists and the budget. */
  function AnnealArgs(cfg: Setup, iList: seq<string>, oList: seq<string>, gList: seq<string>,
                      i: nat, o: nat, g: nat, net: Graph, iter: int): Args
  {
    Args(Some(Domains(Perms(iList, i), Perms(oList, o), Perms(gList, g))), net, i, o, g, AnnealBudget(cfg, iter))
  }

  /** The optimiser's probes as calls of the objective. */
  function Points(ps: seq<Point>): (r: seq<Probe>)
    ensures |r| == |ps| && forall k :: 0 <= k < |ps| ==> r[k] == At(ps[k])
  {
    seq(|ps|, k requires 0 <= k < |ps| => At(ps[k]))
  }

  /** `max(best_assignments, key=score)`: the first assignment with the highest score. */
  function FirstBest(found: seq<Assignment>): (r: Assignment)
    requires |found| > 0
    ensures forall k :: 0 <= k < |found| ==> found[k].score <= r.score
    ensures exists j :: 0 <= j < |found| && found[j] == r && forall k :: 0 <= k < j ==> found[k].score < r.score
  {
    if |found| == 1 then found[0]
    else
      var m := FirstBest(found[1..]);
      assert forall k :: 1 <= k < |found| ==> found[k] == found[1..][k - 1];
      if found[0].score >= m.score then found[0]
      else
        var j :| 0 <= j < |found[1..]| && found[1..][j] == m && forall k :: 0 <= k < j ==> found[1..][k].score < m.score;
        assert found[j + 1] == m;
        m
  }

  /** The result of a search method: the kept list, or the exception. */
  function Finish(r: Result<seq<real>>, kept: seq<Assignment>): Result<seq<Assignment>>
  {
    if r.Ok? then Ok(kept) else Err(r.error)
  }

  // ---------------------------------------------------------------------
  // The CELLO3 object
  // ---------------------------------------------------------------------

  class Cello3 {
    const setup: Setup
    var iterCount: nat
    var bestScore: real
    var bestGraphs: seq<Assignment>

    function State(): Search
      reads this
    {
      Search(iterCount, bestScore, bestGraphs)
    }

    /** Every kept assignment has the best score and records the gates' picks. */
    ghost predicate Valid()
      reads this
    {
      Uniform(State()) && AllPicked(setup.env, State())
    }

    constructor (setup: Setup)
      ensures this.setup == setup && State() == Search(0, 0.0, []) && Valid()
    {
      this.setup := setup;
      iterCount := 0;
      bestScore := 0.0;
      bestGraphs := [];
    }

    /** `prep_assign_for_scoring`: what the probe comes to, then its effect on the search state. */
    method PrepAssignForScoring(x: Probe, args: Args) returns (r: Result<real>)
      modifies this
      ensures (State(), r) == PrepStep(setup, old(State()), args, x)
    {
      var out := Evaluate(x, args);
      r := ApplyOutcome(out);
    }

    /** Decoding, the uniqueness filter, scoring and the progress report of one probe. */
    method Evaluate(x: Probe, args: Args) returns (out: Outcome)
      ensures out == Assess(setup, args, x)
    {
      var c := Decode(setup.variant, args.doms, x);
      if c.Err? {
        return Failed(false, c.error);
      }
      if |SetOf(c.value.ins + c.value.outs + c.value.gates)| != args.i + args.o + args.g {
        return Skipped;
      }
      var graph := Bind(c.value, args.net);
      var scored := ScoreCircuit(graph, RulesOf(setup.variant), setup.env, setup.gateIds);
      AssessCounted(setup, args, x, c.value);
      if scored.Err? {
        return Failed(true, scored.error);
      }
      var sc := scored.value;
      if ProgressDivides(setup) && args.maxFun == 0 {
        return Failed(true, ZeroDivisionError);
      }
      return Scored(Assignment(sc.score, WithVariants(graph, setup.gateIds), sc.table, sc.labels, sc.inUse));
    }

    /** `iter_count += 1` for a counted probe, then the best-score update or the exception. */
    method ApplyOutcome(out: Outcome) returns (r: Result<real>)
      modifies this
      ensures (State(), r) == Apply(old(State()), out)
    {
      match out {
        case Skipped =>
          r := Ok(-bestScore);
        case Failed(counted, e) =>
          if counted {
            iterCount := iterCount + 1;
          }
          r := Err(e);
        case Scored(a) =>
          iterCount := iterCount + 1;
          KeepIfBest(a);
          r := Ok(-bestScore);
      }
    }

    /** The `best_score` / `best_graphs` update for one scored assignment. */
    method KeepIfBest(a: Assignment)
      modifies this
      ensures State() == Record(old(State()), a)
    {
      if a.score > bestScore {
        bestScore := a.score;
        bestGraphs := [a];
      } else if a.score == bestScore {
        bestGraphs := bestGraphs + [a];
      }
    }

    /** The innermost exhaustive loop, over the gate permutations. */
    method ScoreGatePerms(a: seq<string>, b: seq<string>, gs: seq<seq<string>>, args: Args) returns (r: Result<seq<real>>)
      modifies this
      ensures (State(), r) == Run(setup, old(State()), args, GateRow(a, b, gs))
    {
      ghost var row := GateRow(a, b, gs);
      r := Ok([]);
      var c := 0;
      while c < |gs|
        invariant 0 <= c <= |gs|
        invariant r.Ok? && (State(), r) == Run(setup, old(State()), args, row[..c])
      {
        ghost var before := State();
        var v := PrepAssignForScoring(Chosen(Candidate(a, b, gs[c])), args);
        RunNext(setup, old(State()), args, row, c, before, r, State(), v);
        if v.Err? {
          return Err(v.error);
        }
        r := Ok(r.value + [v.value]);
        c := c + 1;
      }
      assert row[..c] == row;
    }

    /** The middle exhaustive loop, over the output permutations. */
    method ScoreOutputPerms(a: seq<string>, os: seq<seq<string>>, gs: seq<seq<string>>, args: Args)
      returns (r: Result<seq<real>>)
      modifies this
      ensures (State(), r) == Run(setup, old(State()), args, OutRows(a, os, gs, |os|))
    {
      r := Ok([]);
      var b := 0;
      while b < |os|
        invariant 0 <= b <= |os|
        invariant r.Ok? && (State(), r) == Run(setup, old(State()), args, OutRows(a, os, gs, b))
      {
        ghost var before := State();
        var v := ScoreGatePerms(a, os[b], gs, args);
        OutRowsNext(setup, old(State()), args, a, os, gs, b, before, r, State(), v);
        if v.Err? {
          return v;
        }
        r := Ok(r.value + v.value);
        b := b + 1;
      }
    }

    /** `exhaustive_assign`: every permutation triple in turn. */
    method ExhaustiveAssign(iList: seq<string>, oList: seq<string>, gList: seq<string>, i: nat, o: nat, g: nat,
                            net: Graph, iter: int) returns (r: Result<seq<Assignment>>)
      requires Valid()
      modifies this
      ensures Valid()
      ensures var run := Run(setup, old(State()), ExhaustiveArgs(net, i, o, g, iter), ExhaustiveProbes(iList, oList, gList, i, o, g));
              State() == run.0 && r == Finish(run.1, bestGraphs)
    {
      ghost var s0 := State();
      var is0, os, gs := Perms(iList, i), Perms(oList, o), Perms(gList, g);
      var args := ExhaustiveArgs(net, i, o, g, iter);
      RunUniform(setup, s0, args, AllRows(is0, os, gs, |is0|));
      RunPicked(setup, s0, args, AllRows(is0, os, gs, |is0|));
      var done := ScoreInputPerms(is0, os, gs, args);
      if done.Err? {
        return Err(done.error);
      }
      return Ok(bestGraphs);
    }

    /** The outer exhaustive loop, over the input permutations. */
    method ScoreInputPerms(is0: seq<seq<string>>, os: seq<seq<string>>, gs: seq<seq<string>>, args: Args)
      returns (r: Result<seq<real>>)
      modifies this
      ensures (State(), r) == Run(setup, old(State()), args, AllRows(is0, os, gs, |is0|))
    {
      r := Ok([]);
      var a := 0;
      while a < |is0|
        invariant 0 <= a <= |is0|
        invariant r.Ok? && (State(), r) == Run(setup, old(State()), args, AllRows(is0, os, gs, a))
      {
        ghost var before := State();
        var v := ScoreOutputPerms(is0[a], os, gs, args);
        AllRowsNext(setup, old(State()), args, is0, os, gs, a, before, r, State(), v);
        if v.Err? {
          return v;
        }
        r := Ok(r.value + v.value);
        a := a + 1;
      }
    }

    /** The optimiser's calls of the objective, one per probe. */
    method ScoreProbes(xs: seq<Probe>, args: Args) returns (r: Result<seq<real>>)
      modifies this
      ensures (State(), r) == Run(setup, old(State()), args, xs)
    {
      r := Ok([]);
      var c := 0;
      while c < |xs|
        invariant 0 <= c <= |xs|
        invariant r.Ok? && (State(), r) == Run(setup, old(State()), args, xs[..c])
      {
        ghost var before := State();
        var v := PrepAssignForScoring(xs[c], args);
        RunNext(setup, old(State()), args, xs, c, before, r, State(), v);
        if v.Err? {
          return Err(v.error);
        }
        r := Ok(r.value + [v.value]);
        c := c + 1;
      }
      assert xs[..c] == xs;
    }

    /**
     * `simulated_annealing_assign`: the optimiser's probes, then the best
     * score reset to the negated minimum it reports.
     */
    method SimulatedAnnealingAssign(iList: seq<string>, oList: seq<string>, gList: seq<string>, i: nat, o: nat, g: nat,
                                    net: Graph, iter: int, probes: seq<Point>) returns (r: Result<seq<Assignment>>)
      requires Valid() && |probes| > 0
      modifies this
      ensures Valid()
      ensures var run := Run(setup, old(State()), AnnealArgs(setup, iList, oList, gList, i, o, g, net, iter), Points(probes));
              State() == run.0 && r == Finish(run.1, bestGraphs)
    {
      ghost var s0 := State();
      var iPerms, oPerms, gPerms := Perms(iList, i), Perms(oList, o), Perms(gList, g);
      var maxFun := if iter < Cap(setup) then iter else Cap(setup);
      var args := Args(Some(Domains(iPerms, oPerms, gPerms)), net, i, o, g, maxFun);
      assert args == AnnealArgs(setup, iList, oList, gList, i, o, g, net, iter);
      var xs := Points(probes);
      ReplayUniform(s0, Outcomes(setup, args, xs));
      RunPicked(setup, s0, args, xs);
      var vals := ScoreProbes(xs, args);
      if vals.Err? {
        return Err(vals.error);
      }
      OptimiserMinimum(setup, s0, args, xs);
      var retFun := MinOf(vals.value);
      bestScore := -retFun;
      return Ok(bestGraphs);
    }

    /**
     * `techmap`: the search the settings select, then the first assignment
     * with the highest score, or none when nothing was kept.
     */
    method Techmap(iList: seq<string>, oList: seq<string>, gList: seq<string>, i: nat, o: nat, g: nat,
                   net: Graph, iter: int, probes: seq<Point>) returns (r: Result<Option<Assignment>>)
      requires Valid() && (!setup.exhaustive ==> |probes| > 0)
      modifies this
      ensures Valid()
      ensures var run := if setup.exhaustive
                         then Run(setup, old(State()), ExhaustiveArgs(net, i, o, g, iter), ExhaustiveProbes(iList, oList, gList, i, o, g))
                         else Run(setup, old(State()), AnnealArgs(setup, iList, oList, gList, i, o, g, net, iter), Points(probes));
              State() == run.0 &&
              (run.1.Err? ==> r == Err(run.1.error)) &&
              (run.1.Ok? ==> r.Ok? && (r.value.Some? <==> |bestGraphs| > 0)
                             && (r.value.Some? ==> r.value.value == bestGraphs[0] && r.value.value == FirstBest(bestGraphs)
                                                   && Picked(setup.env, r.value.value)))
    {
      var best: Result<seq<Assignment>>;
      if !setup.exhaustive {
        best := SimulatedAnnealingAssign(iList, oList, gList, i, o, g, net, iter, probes);
      } else {
        best := ExhaustiveAssign(iList, oList, gList, i, o, g, net, iter);
      }
      if best.Err? {
        return Err(best.error);
      }
      if |best.value| > 0 {
        var top := FirstBest(best.value);
        var j :| 0 <= j < |best.value| && best.value[j] == top && forall k :: 0 <= k < j ==> best.value[k].score < top.score;
        assert j == 0;
        return Ok(Some(top));
      }
      return Ok(None);
    }
  }
}
