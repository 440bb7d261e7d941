/**
 * `bin/designs_to_outputs.py`: scoring of pre-generated design options.
 * The part-name conversion, the name-keyed collection dicts, the binary
 * half of `Node.calc_score`, the four input rows and the final
 * ON/OFF ratio.
 */
module DesignsToOutputs {
  import opened Wrappers
  import opened PyStr
  import opened Dict
  import opened Json
  import GateAssignment

  // ---------------------------------------------------------------------
  // convert_part_names
  // ---------------------------------------------------------------------

  datatype PartType = Promoter | Input | Output | Gate

  /** The first loop's classification of one part name. */
  function PartTypeOf(part: string): PartType
  {
    if |part| == 3 && StartsWith(part, "P") then Promoter
    else if |part| == 4 && ContainsStr(part, "In") then Input
    else if part == "Y" then Output
    else Gate
  }

  /** `suffixes`: for each promoter `PXs`, `X` maps to `s`; a later promoter overwrites. */
  function Suffixes(design: seq<string>): Dict<char, char>
  {
    if |design| == 0 then []
    else
      var prev := Suffixes(design[..|design| - 1]);
      var part := design[|design| - 1];
      if PartTypeOf(part) == Promoter then Put(prev, part[1], part[2]) else prev
  }

  /** The repressor of each gate letter. */
  const Bases: Dict<char, string> := [('A', "AmtR"), ('B', "BM3R1"), ('H', "HlyIIR"), ('P', "PhlF"), ('S', "SrpR")]

  /** The second loop's conversion of one part: IndexError on an empty gate name, KeyError on an unknown letter. */
  function ConvertOne(name: string, suffixes: Dict<char, char>): Result<string>
  {
    match PartTypeOf(name)
    case Promoter => Ok(name)
    case Input => Ok(if name == "PIn1" then "Xyl_sensor" else "Xyl-tetO_sensor")
    case Output => Ok("GFP_reporter")
    case Gate =>
      if |name| == 0 then Err(IndexError)
      else
        match Get(suffixes, name[0])
        case None => Err(KeyError)
        case Some(s) =>
          match Get(Bases, name[0])
          case None => Err(KeyError)
          case Some(base) => Ok(name + "-" + [s] + "_" + base)
  }

  /** The parts converted in order; the first failing part's error. */
  function ConvertAll(names: seq<string>, suffixes: Dict<char, char>): Result<seq<string>>
  {
    if |names| == 0 then Ok([])
    else
      match ConvertAll(names[..|names| - 1], suffixes)
      case Err(e) => Err(e)
      case Ok(prev) =>
        match ConvertOne(names[|names| - 1], suffixes)
        case Err(e) => Err(e)
        case Ok(x) => Ok(prev + [x])
  }

  /** `convert_part_names(design)`. */
  function ConvertPartNames(design: seq<string>): Result<seq<string>>
  {
    ConvertAll(design, Suffixes(design))
  }

  /**
   * What `main` scores: the converted names, or the raw row when the
   * conversion raises.
   */
  function DesignOption(row: seq<string>): (r: seq<string>)
    ensures |r| == |row|
    ensures ConvertPartNames(row).Err? ==> r == row
    ensures ConvertPartNames(row).Ok? ==> forall i :: 0 <= i < |row| ==> ConvertOne(row[i], Suffixes(row)) == Ok(r[i])
  {
    ConvertAllSpec(row, Suffixes(row));
    match ConvertPartNames(row)
    case Ok(names) => names
    case Err(_) => row
  }

  /** The conversion of each part on its own, in order. */
  function Conversions(names: seq<string>, suffixes: Dict<char, char>): (r: seq<Result<string>>)
    ensures |r| == |names| && forall i :: 0 <= i < |names| ==> r[i] == ConvertOne(names[i], suffixes)
  {
    seq(|names|, i requires 0 <= i < |names| => ConvertOne(names[i], suffixes))
  }

  lemma {:induction false} ConvertAllFirstErr(names: seq<string>, suffixes: Dict<char, char>)
    ensures ConvertAll(names, suffixes) == FirstErr(Conversions(names, suffixes))
  {
    if |names| > 0 {
      var init := names[..|names| - 1];
      ConvertAllFirstErr(init, suffixes);
      assert Conversions(names, suffixes)[..|names| - 1] == Conversions(init, suffixes);
    }
  }

  /** The conversion succeeds exactly when every part does, and then converts position by position. */
  lemma ConvertAllSpec(names: seq<string>, suffixes: Dict<char, char>)
    ensures ConvertAll(names, suffixes).Ok? <==> forall i :: 0 <= i < |names| ==> ConvertOne(names[i], suffixes).Ok?
    ensures ConvertAll(names, suffixes).Ok? ==> |ConvertAll(names, suffixes).value| == |names|
    ensures ConvertAll(names, suffixes).Ok? ==>
      forall i :: 0 <= i < |names| ==> ConvertAll(names, suffixes).value[i] == ConvertOne(names[i], suffixes).value
  {
    ConvertAllFirstErr(names, suffixes);
    FirstErrSpec(Conversions(names, suffixes));
  }

  /** The last promoter naming gate letter `c`, if any. */
  function LastPromoter(design: seq<string>, c: char): (r: Option<nat>)
    ensures r.Some? ==> r.value < |design| && PartTypeOf(design[r.value]) == Promoter && design[r.value][1] == c
    ensures r.Some? ==> forall j :: r.value < j < |design| && PartTypeOf(design[j]) == Promoter ==> design[j][1] != c
    ensures r.None? ==> forall j :: 0 <= j < |design| && PartTypeOf(design[j]) == Promoter ==> design[j][1] != c
  {
    if |design| == 0 then None
    else
      var part := design[|design| - 1];
      if PartTypeOf(part) == Promoter && part[1] == c then Some(|design| - 1)
      else
        var init := design[..|design| - 1];
        assert forall j :: 0 <= j < |init| ==> init[j] == design[j];
        LastPromoter(init, c)
  }

  /** The suffix of a letter is the third character of the last promoter with that letter. */
  lemma {:induction false} SuffixesGet(design: seq<string>, c: char)
    ensures Get(Suffixes(design), c) ==
      match LastPromoter(design, c)
      case None => None
      case Some(i) => Some(design[i][2])
  {
    if |design| > 0 {
      var init := design[..|design| - 1];
      var part := design[|design| - 1];
      if PartTypeOf(part) == Promoter {
        GetPut(Suffixes(init), part[1], part[2], c);
      }
      if !(PartTypeOf(part) == Promoter && part[1] == c) {
        SuffixesGet(init, c);
        var l := LastPromoter(init, c);
        if l.Some? {
          assert init[l.value] == design[l.value];
        }
      }
    }
  }

  /**
   * A gate part `Xd` becomes `Xd-<s>_<base>`, where `s` comes from the last
   * promoter `PX?` of the design; with no such promoter, or a letter that
   * names no repressor, the conversion raises KeyError.
   */
  lemma GateName(design: seq<string>, name: string)
    requires PartTypeOf(name) == Gate && |name| > 0
    ensures var l := LastPromoter(design, name[0]);
      ConvertOne(name, Suffixes(design)) ==
        if l.None? || name[0] !in Keys(Bases) then Err(KeyError)
        else Ok(name + "-" + [design[l.value][2]] + "_" + Get(Bases, name[0]).value)
  {
    SuffixesGet(design, name[0]);
  }

  // ---------------------------------------------------------------------
  // collection_list_to_dict
  // ---------------------------------------------------------------------

  /** A `name` that a dict can be keyed by: lists and dicts are unhashable. */
  predicate Hashable(v: Value)
  {
    !v.Arr? && !v.Obj?
  }

  /** `collection_list_to_dict`: each collection under its `name`, a later one overwriting. */
  function CollectionDict(cs: seq<Value>): Result<Dict<Value, Value>>
  {
    if |cs| == 0 then Ok([])
    else
      match CollectionDict(cs[..|cs| - 1])
      case Err(e) => Err(e)
      case Ok(prev) =>
        var c := cs[|cs| - 1];
        match Subscript(c, "name")
        case Err(e) => Err(e)
        case Ok(key) => if Hashable(key) then Ok(Put(prev, key, c)) else Err(TypeError)
  }

  /** Collection `c` is named `k`. */
  predicate NamedAs(c: Value, k: Value)
  {
    Subscript(c, "name") == Ok(k)
  }

  /** The last collection named `k`, if any. */
  function LastNamed(cs: seq<Value>, k: Value): (r: Option<nat>)
    ensures r.Some? ==> r.value < |cs| && NamedAs(cs[r.value], k)
    ensures r.Some? ==> forall j :: r.value < j < |cs| ==> !NamedAs(cs[j], k)
    ensures r.None? ==> forall j :: 0 <= j < |cs| ==> !NamedAs(cs[j], k)
  {
    if |cs| == 0 then None
    else if NamedAs(cs[|cs| - 1], k) then Some(|cs| - 1)
    else
      var init := cs[..|cs| - 1];
      assert forall j :: 0 <= j < |init| ==> init[j] == cs[j];
      LastNamed(init, k)
  }

  /** The dict maps each name to the last collection carrying it, and holds no other name. */
  lemma {:induction false} CollectionDictGet(cs: seq<Value>, k: Value)
    requires CollectionDict(cs).Ok?
    ensures Get(CollectionDict(cs).value, k) ==
      match LastNamed(cs, k)
      case None => None
      case Some(i) => Some(cs[i])
  {
    if |cs| > 0 {
      var init := cs[..|cs| - 1];
      var c := cs[|cs| - 1];
      var key := Subscript(c, "name").value;
      GetPut(CollectionDict(init).value, key, c, k);
      if !NamedAs(c, k) {
        CollectionDictGet(init, k);
        var l := LastNamed(init, k);
        if l.Some? {
          assert init[l.value] == cs[l.value];
        }
      }
    }
  }

  /** The collection has a `name` a dict can be keyed by. */
  predicate Keyed(c: Value)
  {
    Subscript(c, "name").Ok? && Hashable(Subscript(c, "name").value)
  }

  /** Every collection has a hashable `name`. */
  predicate AllKeyed(cs: seq<Value>)
  {
    |cs| == 0 || (AllKeyed(cs[..|cs| - 1]) && Keyed(cs[|cs| - 1]))
  }

  lemma {:induction false} AllKeyedSpec(cs: seq<Value>)
    ensures AllKeyed(cs) <==> forall i :: 0 <= i < |cs| ==> Keyed(cs[i])
  {
    if |cs| > 0 {
      var init := cs[..|cs| - 1];
      AllKeyedSpec(init);
      assert forall i :: 0 <= i < |init| ==> init[i] == cs[i];
    }
  }

  lemma {:induction false} CollectionDictAllKeyed(cs: seq<Value>)
    ensures CollectionDict(cs).Ok? <==> AllKeyed(cs)
  {
    if |cs| > 0 {
      CollectionDictAllKeyed(cs[..|cs| - 1]);
      CollectionDictStep(cs);
    }
  }

  /** The conversion fails exactly when some collection has no hashable `name`. */
  lemma CollectionDictOk(cs: seq<Value>)
    ensures CollectionDict(cs).Ok? <==> forall i :: 0 <= i < |cs| ==> Keyed(cs[i])
  {
    CollectionDictAllKeyed(cs);
    AllKeyedSpec(cs);
  }

  lemma CollectionDictStep(cs: seq<Value>)
    requires |cs| > 0
    ensures CollectionDict(cs).Ok? <==> CollectionDict(cs[..|cs| - 1]).Ok? && Keyed(cs[|cs| - 1])
  {
  }

  // ---------------------------------------------------------------------
  // Node.calc_score, binary half
  // ---------------------------------------------------------------------

  /**
   * A node of the parts graph; `inputs` are positions in the node list.
   * The analog parameters are not modelled.
   */
  datatype Node = Node(name: string, kind: string, inputs: seq<nat>, rootInput: Option<string>)

  /**
   * The shape of what `calc_score` returns, with the analog score left
   * out: `Pair(b)` is `(score, b)`; `Nested(first, b)` is a gate's
   * `(first, (score, b))`.
   */
  datatype Shape = Pair(bit: int) | Nested(first: Shape, bit: int)

  predicate Linked(nodes: seq<Node>)
  {
    forall i, k :: 0 <= i < |nodes| && 0 <= k < |nodes[i].inputs| ==> nodes[i].inputs[k] < |nodes|
  }

  predicate Within(onStack: set<nat>, n: nat)
  {
    forall x :: x in onStack ==> x < n
  }

  function NorBit(sum: int): int
  {
    if sum == 0 then 1 else 0
  }

  /**
   * `nodes[i].calc_score()` while the nodes in `onStack` are being
   * evaluated; re-entering one of them recurses without end, which Python
   * reports as RecursionError.
   */
  function Calc(nodes: seq<Node>, i: nat, onStack: set<nat>): Result<Shape>
    requires Linked(nodes) && i < |nodes| && Within(onStack, |nodes|)
    decreases |nodes| - |onStack|, 0, 0
  {
    if i in onStack then Err(RecursionError)
    else
      var inner := onStack + {i};
      GateAssignment.CardBound(inner, |nodes|);
      var n := nodes[i];
      if n.kind == "input" then
        if n.rootInput == Some("hi") then Ok(Pair(1))
        else if n.rootInput == Some("lo") then Ok(Pair(0))
        else Err(ValueError)
      else if n.kind == "promoter" then
        if |n.inputs| > 1 then
          match FirstBits(nodes, n.inputs, inner)
          case Err(e) => Err(e)
          case Ok(sum) =>
            if forall k :: 0 <= k < |n.inputs| ==> nodes[n.inputs[k]].kind == "gate" then Ok(Pair(NorBit(sum)))
            else Err(TypeError)
        else if |n.inputs| == 0 then Err(IndexError)
        else
          match Calc(nodes, n.inputs[0], inner)
          case Err(e) => Err(e)
          case Ok(Pair(_)) => Err(TypeError)
          case Ok(Nested(_, b)) => Ok(Pair(b))
      else if n.kind == "output" then
        if |n.inputs| == 0 then Err(IndexError) else Calc(nodes, n.inputs[0], inner)
      else if n.kind == "gate" then
        match LeafBits(nodes, n.inputs, inner)
        case Err(e) => Err(e)
        case Ok(sum) =>
          if |n.inputs| == 1 then
            match Calc(nodes, n.inputs[0], inner)
            case Err(e) => Err(e)
            case Ok(s) => Ok(Nested(s, NorBit(sum)))
          else Ok(Nested(Pair(NorBit(sum)), NorBit(sum)))
      else Err(ValueError)
  }

  /** A gate's input loop: each input must give a `(score, bit)` pair; the bits are summed. */
  function LeafBits(nodes: seq<Node>, ins: seq<nat>, onStack: set<nat>): Result<int>
    requires Linked(nodes) && Within(onStack, |nodes|) && forall k :: 0 <= k < |ins| ==> ins[k] < |nodes|
    decreases |nodes| - |onStack|, 1, |ins|
  {
    if |ins| == 0 then Ok(0)
    else
      match Calc(nodes, ins[0], onStack)
      case Err(e) => Err(e)
      case Ok(Nested(_, _)) => Err(TypeError)
      case Ok(Pair(b)) =>
        match LeafBits(nodes, ins[1..], onStack)
        case Err(e) => Err(e)
        case Ok(rest) => Ok(b + rest)
  }

  /**
   * A multi-input promoter's loop: the first item of each input's result
   * must itself be a `(score, bit)` pair; those bits are summed.
   */
  function FirstBits(nodes: seq<Node>, ins: seq<nat>, onStack: set<nat>): Result<int>
    requires Linked(nodes) && Within(onStack, |nodes|) && forall k :: 0 <= k < |ins| ==> ins[k] < |nodes|
    decreases |nodes| - |onStack|, 1, |ins|
  {
    if |ins| == 0 then Ok(0)
    else
      match Calc(nodes, ins[0], onStack)
      case Err(e) => Err(e)
      case Ok(Pair(_)) => Err(TypeError)
      case Ok(Nested(Nested(_, _), _)) => Err(TypeError)
      case Ok(Nested(Pair(b), _)) =>
        match FirstBits(nodes, ins[1..], onStack)
        case Err(e) => Err(e)
        case Ok(rest) => Ok(b + rest)
  }

  predicate IsBit(b: int)
  {
    b == 0 || b == 1
  }

  /** Every bit a node reports, at the top and nested, is 0 or 1. */
  predicate Binary(s: Shape)
  {
    IsBit(s.bit) && (s.Nested? ==> Binary(s.first))
  }

  /** Every evaluation reports binary values. */
  lemma {:induction false} CalcBinary(nodes: seq<Node>, i: nat, onStack: set<nat>)
    requires Linked(nodes) && i < |nodes| && Within(onStack, |nodes|)
    ensures Calc(nodes, i, onStack).Ok? ==> Binary(Calc(nodes, i, onStack).value)
    decreases |nodes| - |onStack|
  {
    if i !in onStack {
      var inner := onStack + {i};
      GateAssignment.CardBound(inner, |nodes|);
      var n := nodes[i];
      if |n.inputs| > 0 && n.kind in {"promoter", "output", "gate"} {
        CalcBinary(nodes, n.inputs[0], inner);
      }
    }
  }

  /** The bits a gate sums: each input's, in order. */
  function InputBits(nodes: seq<Node>, ins: seq<nat>, onStack: set<nat>): seq<int>
    requires Linked(nodes) && Within(onStack, |nodes|) && forall k :: 0 <= k < |ins| ==> ins[k] < |nodes|
    requires forall k :: 0 <= k < |ins| ==> Calc(nodes, ins[k], onStack).Ok?
  {
    seq(|ins|, k requires 0 <= k < |ins| => Calc(nodes, ins[k], onStack).value.bit)
  }

  /**
   * When a gate's input loop succeeds, every input gave a pair and the sum
   * is 0 exactly when every input bit is 0: the gate reports NOR of its
   * inputs.
   */
  lemma {:induction false} LeafBitsNor(nodes: seq<Node>, ins: seq<nat>, onStack: set<nat>)
    requires Linked(nodes) && Within(onStack, |nodes|) && forall k :: 0 <= k < |ins| ==> ins[k] < |nodes|
    requires LeafBits(nodes, ins, onStack).Ok?
    ensures forall k :: 0 <= k < |ins| ==> Calc(nodes, ins[k], onStack).Ok? && Calc(nodes, ins[k], onStack).value.Pair?
    ensures LeafBits(nodes, ins, onStack).value >= 0
    ensures LeafBits(nodes, ins, onStack).value == 0 <==> forall k :: 0 <= k < |ins| ==> InputBits(nodes, ins, onStack)[k] == 0
    decreases |ins|
  {
    if |ins| > 0 {
      CalcBinary(nodes, ins[0], onStack);
      LeafBitsNor(nodes, ins[1..], onStack);
      assert forall k :: 1 <= k < |ins| ==> ins[1..][k - 1] == ins[k];
      var bits := InputBits(nodes, ins, onStack);
      var tail := InputBits(nodes, ins[1..], onStack);
      assert bits[0] == Calc(nodes, ins[0], onStack).value.bit;
      assert forall k :: 1 <= k < |ins| ==> bits[k] == tail[k - 1];
      assert forall k :: 0 <= k < |ins| - 1 ==> tail[k] == bits[k + 1];
      assert LeafBits(nodes, ins, onStack).value == bits[0] + LeafBits(nodes, ins[1..], onStack).value;
      assert (forall k :: 0 <= k < |ins| ==> bits[k] == 0) <==> bits[0] == 0 && forall k :: 0 <= k < |ins| - 1 ==> tail[k] == 0;
    }
  }

  /** A gate node reports 1 exactly when every input reports 0. */
  lemma GateIsNor(nodes: seq<Node>, i: nat, onStack: set<nat>)
    requires Linked(nodes) && i < |nodes| && Within(onStack, |nodes|)
    requires i !in onStack && nodes[i].kind == "gate"
    requires Calc(nodes, i, onStack).Ok?
    ensures var inner := onStack + {i};
      LeafBits(nodes, nodes[i].inputs, inner).Ok? &&
      (forall k :: 0 <= k < |nodes[i].inputs| ==> Calc(nodes, nodes[i].inputs[k], inner).Ok?) &&
      (Calc(nodes, i, onStack).value.bit == 1 <==> forall k :: 0 <= k < |nodes[i].inputs| ==> InputBits(nodes, nodes[i].inputs, inner)[k] == 0)
  {
    var inner := onStack + {i};
    GateAssignment.CardBound(inner, |nodes|);
    LeafBitsNor(nodes, nodes[i].inputs, inner);
  }

  /** The bits a multi-input promoter sums: the bit in the first item of each input's result, in order. */
  function FirstInputBits(nodes: seq<Node>, ins: seq<nat>, onStack: set<nat>): seq<int>
    requires Linked(nodes) && Within(onStack, |nodes|) && forall k :: 0 <= k < |ins| ==> ins[k] < |nodes|
    requires forall k :: 0 <= k < |ins| ==> Calc(nodes, ins[k], onStack).Ok? && Calc(nodes, ins[k], onStack).value.Nested?
  {
    seq(|ins|, k requires 0 <= k < |ins| => Calc(nodes, ins[k], onStack).value.first.bit)
  }

  /**
   * When a promoter's input loop succeeds, every input gave a nested
   * result whose first item is a pair, and the sum is 0 exactly when every
   * one of those first bits is 0.
   */
  lemma {:induction false} FirstBitsNor(nodes: seq<Node>, ins: seq<nat>, onStack: set<nat>)
    requires Linked(nodes) && Within(onStack, |nodes|) && forall k :: 0 <= k < |ins| ==> ins[k] < |nodes|
    requires FirstBits(nodes, ins, onStack).Ok?
    ensures forall k :: 0 <= k < |ins| ==>
      Calc(nodes, ins[k], onStack).Ok? && Calc(nodes, ins[k], onStack).value.Nested? && Calc(nodes, ins[k], onStack).value.first.Pair?
    ensures FirstBits(nodes, ins, onStack).value >= 0
    ensures FirstBits(nodes, ins, onStack).value == 0 <==> forall k :: 0 <= k < |ins| ==> FirstInputBits(nodes, ins, onStack)[k] == 0
    decreases |ins|
  {
    if |ins| > 0 {
      CalcBinary(nodes, ins[0], onStack);
      FirstBitsNor(nodes, ins[1..], onStack);
      assert forall k :: 1 <= k < |ins| ==> ins[1..][k - 1] == ins[k];
      var bits := FirstInputBits(nodes, ins, onStack);
      var tail := FirstInputBits(nodes, ins[1..], onStack);
      assert bits[0] == Calc(nodes, ins[0], onStack).value.first.bit;
      assert forall k :: 1 <= k < |ins| ==> bits[k] == tail[k - 1];
      assert forall k :: 0 <= k < |ins| - 1 ==> tail[k] == bits[k + 1];
      assert FirstBits(nodes, ins, onStack).value == bits[0] + FirstBits(nodes, ins[1..], onStack).value;
      assert (forall k :: 0 <= k < |ins| ==> bits[k] == 0) <==> bits[0] == 0 && forall k :: 0 <= k < |ins| - 1 ==> tail[k] == 0;
    }
  }

  /**
   * A promoter with several inputs reports 1 exactly when the first bit of
   * every input's result is 0; its inputs are all gates.
   */
  lemma PromoterIsNor(nodes: seq<Node>, i: nat, onStack: set<nat>)
    requires Linked(nodes) && i < |nodes| && Within(onStack, |nodes|)
    requires i !in onStack && nodes[i].kind == "promoter" && |nodes[i].inputs| > 1
    requires Calc(nodes, i, onStack).Ok?
    ensures var inner := onStack + {i};
      FirstBits(nodes, nodes[i].inputs, inner).Ok? &&
      (forall k :: 0 <= k < |nodes[i].inputs| ==> nodes[nodes[i].inputs[k]].kind == "gate") &&
      (forall k :: 0 <= k < |nodes[i].inputs| ==>
        Calc(nodes, nodes[i].inputs[k], inner).Ok? && Calc(nodes, nodes[i].inputs[k], inner).value.Nested?) &&
      (Calc(nodes, i, onStack).value.bit == 1 <==>
        forall k :: 0 <= k < |nodes[i].inputs| ==> FirstInputBits(nodes, nodes[i].inputs, inner)[k] == 0)
  {
    var inner := onStack + {i};
    GateAssignment.CardBound(inner, |nodes|);
    FirstBitsNor(nodes, nodes[i].inputs, inner);
  }

  /**
   * A promoter with one input reports the bit of the second item of that
   * input's result, which must be a nested (gate) result.
   */
  lemma PromoterPassThrough(nodes: seq<Node>, i: nat, onStack: set<nat>)
    requires Linked(nodes) && i < |nodes| && Within(onStack, |nodes|)
    requires i !in onStack && nodes[i].kind == "promoter" && |nodes[i].inputs| == 1
    requires Calc(nodes, i, onStack).Ok?
    ensures var inner := onStack + {i};
      Calc(nodes, nodes[i].inputs[0], inner).Ok? && Calc(nodes, nodes[i].inputs[0], inner).value.Nested? &&
      Calc(nodes, i, onStack).value == Pair(Calc(nodes, nodes[i].inputs[0], inner).value.bit)
  {
    var inner := onStack + {i};
    GateAssignment.CardBound(inner, |nodes|);
  }

  /** An input node reports 1 for `hi`, 0 for `lo`, and raises ValueError for anything else. */
  lemma InputBit(nodes: seq<Node>, i: nat, onStack: set<nat>)
    requires Linked(nodes) && i < |nodes| && Within(onStack, |nodes|)
    requires i !in onStack && nodes[i].kind == "input"
    ensures Calc(nodes, i, onStack).Ok? <==> nodes[i].rootInput in {Some("hi"), Some("lo")}
    ensures Calc(nodes, i, onStack).Ok? ==> Calc(nodes, i, onStack).value == Pair(if nodes[i].rootInput == Some("hi") then 1 else 0)
    ensures Calc(nodes, i, onStack).Err? ==> Calc(nodes, i, onStack).error == ValueError
  {
  }

  // ---------------------------------------------------------------------
  // The four input rows
  // ---------------------------------------------------------------------

  /** The input levels of the four rows, in order. */
  const InputPermutes: seq<(string, string)> := [("lo", "lo"), ("lo", "hi"), ("hi", "lo"), ("hi", "hi")]

  function Level(bit: int): string
  {
    if bit == 0 then "lo" else "hi"
  }

  /** The rows count in binary over the first two inputs, the first input most significant. */
  lemma PermutesCount()
    ensures |InputPermutes| == 4
    ensures forall k :: 0 <= k < 4 ==> InputPermutes[k] == (Level(k / 2), Level(k % 2))
  {
  }

  /** The level the `i`-th input gets in row `p`. */
  function LevelAt(p: (string, string), i: nat): string
  {
    if i == 0 then p.0 else p.1
  }

  /** `for i, input in enumerate(inputs): input.root_input = permute[i]`, for at most two inputs. */
  function SetRoots(nodes: seq<Node>, inputs: seq<nat>, p: (string, string)): (r: seq<Node>)
    requires |inputs| <= 2 && forall k :: 0 <= k < |inputs| ==> inputs[k] < |nodes|
    ensures |r| == |nodes|
  {
    if |inputs| == 0 then nodes
    else
      var prev := SetRoots(nodes, inputs[..|inputs| - 1], p);
      var j := inputs[|inputs| - 1];
      prev[j := prev[j].(rootInput := Some(LevelAt(p, |inputs| - 1)))]
  }

  /** The root input that node `j` holds after `SetRoots`, given what it held before. */
  function RootAfter(inputs: seq<nat>, p: (string, string), j: nat, before: Option<string>): Option<string>
  {
    if |inputs| == 0 then before
    else if inputs[|inputs| - 1] == j then Some(LevelAt(p, |inputs| - 1))
    else RootAfter(inputs[..|inputs| - 1], p, j, before)
  }

  /** Setting the roots changes nothing but the root inputs of the listed nodes. */
  lemma {:induction false} SetRootsAt(nodes: seq<Node>, inputs: seq<nat>, p: (string, string), j: nat)
    requires |inputs| <= 2 && forall k :: 0 <= k < |inputs| ==> inputs[k] < |nodes|
    requires j < |nodes|
    ensures SetRoots(nodes, inputs, p)[j] == nodes[j].(rootInput := RootAfter(inputs, p, j, nodes[j].rootInput))
  {
    if |inputs| > 0 {
      SetRootsAt(nodes, inputs[..|inputs| - 1], p, j);
    }
  }

  /** A listed node's root does not depend on what it held before. */
  lemma {:induction false} RootAfterListed(inputs: seq<nat>, p: (string, string), j: nat, a: Option<string>, b: Option<string>)
    requires j in inputs
    ensures RootAfter(inputs, p, j, a) == RootAfter(inputs, p, j, b)
  {
    if inputs[|inputs| - 1] != j {
      assert j in inputs[..|inputs| - 1] by {
        var k :| 0 <= k < |inputs| && inputs[k] == j;
        assert inputs[..|inputs| - 1][k] == j;
      }
      RootAfterListed(inputs[..|inputs| - 1], p, j, a, b);
    }
  }

  lemma {:induction false} RootAfterUnlisted(inputs: seq<nat>, p: (string, string), j: nat, a: Option<string>)
    requires j !in inputs
    ensures RootAfter(inputs, p, j, a) == a
  {
    if |inputs| > 0 {
      assert j !in inputs[..|inputs| - 1];
      RootAfterUnlisted(inputs[..|inputs| - 1], p, j, a);
    }
  }

  /** A later row's roots replace the earlier row's: the earlier levels leave no trace. */
  lemma SetRootsTwice(nodes: seq<Node>, inputs: seq<nat>, p: (string, string), q: (string, string))
    requires |inputs| <= 2 && forall k :: 0 <= k < |inputs| ==> inputs[k] < |nodes|
    ensures SetRoots(SetRoots(nodes, inputs, p), inputs, q) == SetRoots(nodes, inputs, q)
  {
    var once := SetRoots(nodes, inputs, p);
    forall j | 0 <= j < |nodes|
      ensures SetRoots(once, inputs, q)[j] == SetRoots(nodes, inputs, q)[j]
    {
      SetRootsAt(nodes, inputs, p, j);
      SetRootsAt(once, inputs, q, j);
      SetRootsAt(nodes, inputs, q, j);
      if j in inputs {
        RootAfterListed(inputs, q, j, once[j].rootInput, nodes[j].rootInput);
      } else {
        RootAfterUnlisted(inputs, p, j, nodes[j].rootInput);
      }
    }
  }

  /** Setting roots keeps the graph's links. */
  lemma SetRootsLinked(nodes: seq<Node>, inputs: seq<nat>, p: (string, string))
    requires |inputs| <= 2 && forall k :: 0 <= k < |inputs| ==> inputs[k] < |nodes|
    requires Linked(nodes)
    ensures Linked(SetRoots(nodes, inputs, p))
  {
    forall j | 0 <= j < |nodes|
      ensures SetRoots(nodes, inputs, p)[j].inputs == nodes[j].inputs
    {
      SetRootsAt(nodes, inputs, p, j);
    }
  }

  predicate Indices(ns: seq<nat>, n: nat)
  {
    forall k :: 0 <= k < |ns| ==> ns[k] < n
  }

  /** The row loop: each output's result, in order. */
  function RowOf(nodes: seq<Node>, outputs: seq<nat>): Result<seq<Shape>>
    requires Linked(nodes) && Indices(outputs, |nodes|)
  {
    if |outputs| == 0 then Ok([])
    else
      match RowOf(nodes, outputs[..|outputs| - 1])
      case Err(e) => Err(e)
      case Ok(prev) =>
        match Calc(nodes, outputs[|outputs| - 1], {})
        case Err(e) => Err(e)
        case Ok(s) => Ok(prev + [s])
  }

  /** The nodes after the roots of rows `ps` were set in turn. */
  function NodesAfter(nodes: seq<Node>, inputs: seq<nat>, ps: seq<(string, string)>): (r: seq<Node>)
    requires |inputs| <= 2 && Indices(inputs, |nodes|)
    ensures |r| == |nodes|
  {
    if |ps| == 0 then nodes else SetRoots(NodesAfter(nodes, inputs, ps[..|ps| - 1]), inputs, ps[|ps| - 1])
  }

  /** The node state of a row is set by that row alone. */
  lemma {:induction false} NodesAfterLast(nodes: seq<Node>, inputs: seq<nat>, ps: seq<(string, string)>)
    requires |inputs| <= 2 && Indices(inputs, |nodes|) && |ps| > 0
    ensures NodesAfter(nodes, inputs, ps) == SetRoots(nodes, inputs, ps[|ps| - 1])
  {
    if |ps| > 1 {
      var init := ps[..|ps| - 1];
      NodesAfterLast(nodes, inputs, init);
      SetRootsTwice(nodes, inputs, init[|init| - 1], ps[|ps| - 1]);
    }
  }

  lemma {:induction false} NodesAfterLinked(nodes: seq<Node>, inputs: seq<nat>, ps: seq<(string, string)>)
    requires |inputs| <= 2 && Indices(inputs, |nodes|) && Linked(nodes)
    ensures Linked(NodesAfter(nodes, inputs, ps))
  {
    if |ps| > 0 {
      NodesAfterLinked(nodes, inputs, ps[..|ps| - 1]);
      SetRootsLinked(NodesAfter(nodes, inputs, ps[..|ps| - 1]), inputs, ps[|ps| - 1]);
    }
  }

  /**
   * The output results of rows `ps`, each row evaluated after its roots
   * were set; IndexError for more than two inputs, and for no outputs
   * (the `row_scores[0]` lookup).
   */
  function Rows(nodes: seq<Node>, inputs: seq<nat>, outputs: seq<nat>, ps: seq<(string, string)>): Result<seq<seq<Shape>>>
    requires Linked(nodes) && Indices(inputs, |nodes|) && Indices(outputs, |nodes|)
  {
    if |ps| == 0 then Ok([])
    else if |inputs| > 2 then Err(IndexError)
    else
      match Rows(nodes, inputs, outputs, ps[..|ps| - 1])
      case Err(e) => Err(e)
      case Ok(prev) =>
        NodesAfterLinked(nodes, inputs, ps);
        match RowOf(NodesAfter(nodes, inputs, ps), outputs)
        case Err(e) => Err(e)
        case Ok(row) => if |row| == 0 then Err(IndexError) else Ok(prev + [row])
  }

  /** Row `k` of the four is the outputs evaluated with the roots of `InputPermutes[k]` alone. */
  lemma RowsOwnLevels(nodes: seq<Node>, inputs: seq<nat>, outputs: seq<nat>, k: nat)
    requires Linked(nodes) && Indices(inputs, |nodes|) && Indices(outputs, |nodes|)
    requires |inputs| <= 2 && k < 4
    ensures NodesAfter(nodes, inputs, InputPermutes[..k + 1]) == SetRoots(nodes, inputs, InputPermutes[k])
  {
    NodesAfterLast(nodes, inputs, InputPermutes[..k + 1]);
  }

  // ---------------------------------------------------------------------
  // The final score
  // ---------------------------------------------------------------------

  /** What a row's output 0 reports: its bit, or nothing comparable when it is a nested tuple. */
  function Truth(s: Shape): Option<int>
  {
    if s.Pair? then Some(s.bit) else None
  }

  /**
   * An output reports a comparable truth exactly when the node feeding it
   * is not a gate (a gate's nested result equals neither 0 nor 1), and a
   * comparable truth is a bit: rows fed by a gate count as neither ON nor
   * OFF.
   */
  lemma OutputTruth(nodes: seq<Node>, i: nat, onStack: set<nat>)
    requires Linked(nodes) && i < |nodes| && Within(onStack, |nodes|)
    requires i !in onStack && nodes[i].kind == "output"
    requires Calc(nodes, i, onStack).Ok?
    ensures |nodes[i].inputs| > 0
    ensures var j := nodes[i].inputs[0];
      nodes[j].kind != "output" ==> (Truth(Calc(nodes, i, onStack).value).Some? <==> nodes[j].kind != "gate")
    ensures Truth(Calc(nodes, i, onStack).value).Some? ==> IsBit(Truth(Calc(nodes, i, onStack).value).value)
  {
    CalcBinary(nodes, i, onStack);
  }

  /** The scores of the rows whose output-0 truth is `t`. */
  function ScoresWhere(rows: seq<(real, Option<int>)>, t: int): (r: seq<real>)
    ensures forall x :: x in r <==> exists i :: 0 <= i < |rows| && rows[i].1 == Some(t) && rows[i].0 == x
  {
    if |rows| == 0 then []
    else
      var init := rows[..|rows| - 1];
      var prev := ScoresWhere(init, t);
      assert forall i :: 0 <= i < |init| ==> init[i] == rows[i];
      if rows[|rows| - 1].1 == Some(t) then prev + [rows[|rows| - 1].0] else prev
  }

  function Min(xs: seq<real>): (m: real)
    requires |xs| > 0
    ensures m in xs && forall x :: x in xs ==> m <= x
  {
    if |xs| == 1 then xs[0]
    else
      var rest := Min(xs[1..]);
      assert forall x :: x in xs[1..] ==> x in xs;
      assert forall x :: x in xs ==> x == xs[0] || x in xs[1..];
      if xs[0] <= rest then xs[0] else rest
  }

  function Max(xs: seq<real>): (m: real)
    requires |xs| > 0
    ensures m in xs && forall x :: x in xs ==> x <= m
  {
    if |xs| == 1 then xs[0]
    else
      var rest := Max(xs[1..]);
      assert forall x :: x in xs[1..] ==> x in xs;
      assert forall x :: x in xs ==> x == xs[0] || x in xs[1..];
      if xs[0] >= rest then xs[0] else rest
  }

  /**
   * `min(ON) / max(OFF)` over the rows' (score, truth) pairs: ValueError
   * when either partition is empty, ZeroDivisionError when the highest OFF
   * score is 0.
   */
  function FinalScore(rows: seq<(real, Option<int>)>): Result<real>
  {
    var on := ScoresWhere(rows, 1);
    var off := ScoresWhere(rows, 0);
    if |on| == 0 || |off| == 0 then Err(ValueError)
    else if Max(off) == 0.0 then Err(ZeroDivisionError)
    else Ok(Min(on) / Max(off))
  }

  /** Every row's score is in the partition of its truth. */
  lemma InPartition(rows: seq<(real, Option<int>)>, t: int, k: nat)
    requires k < |rows| && rows[k].1 == Some(t)
    ensures rows[k].0 in ScoresWhere(rows, t)
  {
  }

  /** `r` is ON row `i`'s score, the lowest, over OFF row `j`'s, the highest. */
  predicate Ratio(rows: seq<(real, Option<int>)>, i: int, j: int, r: real)
  {
    && 0 <= i < |rows| && 0 <= j < |rows| && rows[i].1 == Some(1) && rows[j].1 == Some(0)
    && rows[j].0 != 0.0 && r == rows[i].0 / rows[j].0
    && (forall k :: 0 <= k < |rows| && rows[k].1 == Some(1) ==> rows[i].0 <= rows[k].0)
    && (forall k :: 0 <= k < |rows| && rows[k].1 == Some(0) ==> rows[k].0 <= rows[j].0)
  }

  /**
   * The score is the lowest ON score over the highest OFF score: both are
   * scores of actual rows, bounding their partitions.
   */
  lemma FinalScoreOk(rows: seq<(real, Option<int>)>)
    requires FinalScore(rows).Ok?
    ensures exists i, j :: Ratio(rows, i, j, FinalScore(rows).value)
  {
    var on := ScoresWhere(rows, 1);
    var off := ScoresWhere(rows, 0);
    var lo := Min(on);
    var hi := Max(off);
    var i :| 0 <= i < |rows| && rows[i].1 == Some(1) && rows[i].0 == lo;
    var j :| 0 <= j < |rows| && rows[j].1 == Some(0) && rows[j].0 == hi;
    forall k | 0 <= k < |rows| && rows[k].1 == Some(1)
      ensures lo <= rows[k].0
    {
      InPartition(rows, 1, k);
    }
    forall k | 0 <= k < |rows| && rows[k].1 == Some(0)
      ensures rows[k].0 <= hi
    {
      InPartition(rows, 0, k);
    }
    assert Ratio(rows, i, j, FinalScore(rows).value);
  }

  /** ValueError exactly when no row is ON or no row is OFF. */
  lemma FinalScoreEmpty(rows: seq<(real, Option<int>)>)
    ensures FinalScore(rows) == Err(ValueError) <==>
      (forall k :: 0 <= k < |rows| ==> rows[k].1 != Some(1)) || (forall k :: 0 <= k < |rows| ==> rows[k].1 != Some(0))
  {
    var on := ScoresWhere(rows, 1);
    var off := ScoresWhere(rows, 0);
    if |on| > 0 {
      assert on[0] in on;
    }
    if |off| > 0 {
      assert off[0] in off;
    }
    forall k | 0 <= k < |rows| && rows[k].1 == Some(1)
      ensures |on| > 0
    {
      InPartition(rows, 1, k);
    }
    forall k | 0 <= k < |rows| && rows[k].1 == Some(0)
      ensures |off| > 0
    {
      InPartition(rows, 0, k);
    }
  }

  // ---------------------------------------------------------------------
  // The loops
  // ---------------------------------------------------------------------

  /** `convert_part_names`: classify every part and record the suffixes, then convert. */
  method ConvertPartNamesLoop(design: seq<string>) returns (r: Result<seq<string>>)
    ensures r == ConvertPartNames(design)
  {
    var partTypes: seq<PartType> := [];
    var suffixes: Dict<char, char> := [];
    for i := 0 to |design|
      invariant |partTypes| == i && forall j :: 0 <= j < i ==> partTypes[j] == PartTypeOf(design[j])
      invariant suffixes == Suffixes(design[..i])
    {
      assert design[..i + 1][..i] == design[..i];
      var part := design[i];
      if |part| == 3 && StartsWith(part, "P") {
        partTypes := partTypes + [Promoter];
        suffixes := Put(suffixes, part[1], part[2]);
      } else if |part| == 4 && ContainsStr(part, "In") {
        partTypes := partTypes + [Input];
      } else if part == "Y" {
        partTypes := partTypes + [Output];
      } else {
        partTypes := partTypes + [Gate];
      }
    }
    assert design[..|design|] == design;
    var newList: seq<string> := [];
    for i := 0 to |partTypes|
      invariant ConvertAll(design[..i], suffixes) == Ok(newList)
    {
      assert design[..i + 1][..i] == design[..i];
      var name := design[i];
      var x := ConvertOne(name, suffixes);
      if x.Err? {
        ConvertAllErrKept(design, suffixes, i + 1);
        return Err(x.error);
      }
      newList := newList + [x.value];
    }
    return Ok(newList);
  }

  lemma {:induction false} ConvertAllErrKept(names: seq<string>, suffixes: Dict<char, char>, n: nat)
    requires n <= |names| && ConvertAll(names[..n], suffixes).Err?
    ensures ConvertAll(names, suffixes) == ConvertAll(names[..n], suffixes)
    decreases |names| - n
  {
    if n < |names| {
      assert names[..n + 1][..n] == names[..n];
      ConvertAllErrKept(names, suffixes, n + 1);
    } else {
      assert names[..n] == names;
    }
  }

  /** `collection_list_to_dict`. */
  method CollectionListToDict(cs: seq<Value>) returns (r: Result<Dict<Value, Value>>)
    ensures r == CollectionDict(cs)
  {
    var d: Dict<Value, Value> := [];
    for i := 0 to |cs|
      invariant CollectionDict(cs[..i]) == Ok(d)
    {
      assert cs[..i + 1][..i] == cs[..i];
      var key := Subscript(cs[i], "name");
      if key.Err? || !Hashable(key.value) {
        CollectionDictErrKept(cs, i + 1);
        return if key.Err? then Err(key.error) else Err(TypeError);
      }
      d := Put(d, key.value, cs[i]);
    }
    assert cs[..|cs|] == cs;
    return Ok(d);
  }

  lemma {:induction false} CollectionDictErrKept(cs: seq<Value>, n: nat)
    requires n <= |cs| && CollectionDict(cs[..n]).Err?
    ensures CollectionDict(cs) == CollectionDict(cs[..n])
    decreases |cs| - n
  {
    if n < |cs| {
      assert cs[..n + 1][..n] == cs[..n];
      CollectionDictErrKept(cs, n + 1);
    } else {
      assert cs[..n] == cs;
    }
  }

  /** The root-input loop of one row. */
  method SetRootsLoop(nodes: seq<Node>, inputs: seq<nat>, p: (string, string)) returns (r: Result<seq<Node>>)
    requires Indices(inputs, |nodes|)
    ensures r == if |inputs| > 2 then Err(IndexError) else Ok(SetRoots(nodes, inputs, p))
  {
    var cur := nodes;
    for i := 0 to |inputs|
      invariant i <= 2 && cur == SetRoots(nodes, inputs[..i], p)
    {
      if i >= 2 {
        return Err(IndexError);
      }
      assert inputs[..i + 1][..i] == inputs[..i];
      var j := inputs[i];
      cur := cur[j := cur[j].(rootInput := Some(LevelAt(p, i)))];
    }
    assert inputs[..|inputs|] == inputs;
    return Ok(cur);
  }

  /** The outputs loop of one row. */
  method RowLoop(nodes: seq<Node>, outputs: seq<nat>) returns (r: Result<seq<Shape>>)
    requires Linked(nodes) && Indices(outputs, |nodes|)
    ensures r == RowOf(nodes, outputs)
  {
    var row: seq<Shape> := [];
    for i := 0 to |outputs|
      invariant RowOf(nodes, outputs[..i]) == Ok(row)
    {
      assert outputs[..i + 1][..i] == outputs[..i];
      var s := Calc(nodes, outputs[i], {});
      if s.Err? {
        RowOfErrKept(nodes, outputs, i + 1);
        return Err(s.error);
      }
      row := row + [s.value];
    }
    assert outputs[..|outputs|] == outputs;
    return Ok(row);
  }

  lemma {:induction false} RowOfErrKept(nodes: seq<Node>, outputs: seq<nat>, n: nat)
    requires Linked(nodes) && Indices(outputs, |nodes|)
    requires n <= |outputs| && RowOf(nodes, outputs[..n]).Err?
    ensures RowOf(nodes, outputs) == RowOf(nodes, outputs[..n])
    decreases |outputs| - n
  {
    if n < |outputs| {
      assert outputs[..n + 1][..n] == outputs[..n];
      RowOfErrKept(nodes, outputs, n + 1);
    } else {
      assert outputs[..n] == outputs;
    }
  }

  /**
   * `main`'s loop over the four rows: set the roots, evaluate every output,
   * collect the row.
   */
  method EvaluateRows(nodes: seq<Node>, inputs: seq<nat>, outputs: seq<nat>) returns (r: Result<seq<seq<Shape>>>)
    requires Linked(nodes) && Indices(inputs, |nodes|) && Indices(outputs, |nodes|)
    ensures r == Rows(nodes, inputs, outputs, InputPermutes)
  {
    var cur := nodes;
    var rows: seq<seq<Shape>> := [];
    for k := 0 to |InputPermutes|
      invariant Rows(nodes, inputs, outputs, InputPermutes[..k]) == Ok(rows)
      invariant k > 0 ==> |inputs| <= 2
      invariant |inputs| <= 2 ==> cur == NodesAfter(nodes, inputs, InputPermutes[..k])
      invariant |cur| == |nodes| && Linked(cur)
    {
      var rooted := SetRootsLoop(cur, inputs, InputPermutes[k]);
      if rooted.Err? {
        assert InputPermutes[..k + 1][..k] == InputPermutes[..k];
        RowsErrKept(nodes, inputs, outputs, InputPermutes, k + 1);
        return Err(rooted.error);
      }
      RowsNext(nodes, inputs, outputs, InputPermutes, k, rows, rooted.value);
      cur := rooted.value;
      var row := RowLoop(cur, outputs);
      if row.Err? || |row.value| == 0 {
        RowsErrKept(nodes, inputs, outputs, InputPermutes, k + 1);
        return if row.Err? then Err(row.error) else Err(IndexError);
      }
      rows := rows + [row.value];
    }
    assert InputPermutes[..|InputPermutes|] == InputPermutes;
    return Ok(rows);
  }

  /** One more row: its roots set on the previous row's nodes, then its outputs evaluated. */
  lemma RowsNext(nodes: seq<Node>, inputs: seq<nat>, outputs: seq<nat>, ps: seq<(string, string)>, k: nat,
                 prev: seq<seq<Shape>>, cur: seq<Node>)
    requires Linked(nodes) && Indices(inputs, |nodes|) && Indices(outputs, |nodes|)
    requires k < |ps| && |inputs| <= 2 && Rows(nodes, inputs, outputs, ps[..k]) == Ok(prev)
    requires cur == SetRoots(NodesAfter(nodes, inputs, ps[..k]), inputs, ps[k])
    ensures cur == NodesAfter(nodes, inputs, ps[..k + 1]) && Linked(cur)
    ensures Rows(nodes, inputs, outputs, ps[..k + 1]) ==
      match RowOf(cur, outputs)
      case Err(e) => Err(e)
      case Ok(row) => if |row| == 0 then Err(IndexError) else Ok(prev + [row])
  {
    var qs := ps[..k + 1];
    assert qs[..k] == ps[..k] && qs[k] == ps[k];
    NodesAfterLinked(nodes, inputs, qs);
  }

  lemma {:induction false} RowsErrKept(nodes: seq<Node>, inputs: seq<nat>, outputs: seq<nat>, ps: seq<(string, string)>, n: nat)
    requires Linked(nodes) && Indices(inputs, |nodes|) && Indices(outputs, |nodes|)
    requires n <= |ps| && Rows(nodes, inputs, outputs, ps[..n]).Err?
    ensures Rows(nodes, inputs, outputs, ps) == Rows(nodes, inputs, outputs, ps[..n])
    decreases |ps| - n
  {
    if n < |ps| {
      assert ps[..n + 1][..n] == ps[..n];
      RowsErrKept(nodes, inputs, outputs, ps, n + 1);
    } else {
      assert ps[..n] == ps;
    }
  }
}
