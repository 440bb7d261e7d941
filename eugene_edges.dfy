/**
 * The first step of `EugeneObject.generate_eugene_structs`
 * (`utils/eugene.py`): from the chosen circuit's input, gate and output
 * bindings, the `edges` dict that maps each gate variant and each output
 * device to the names of the devices feeding it.
 */
module EugeneEdges {
  import opened Wrappers
  import opened PyStr
  import opened Dict

  // ---------------------------------------------------------------------
  // The chosen circuit
  // ---------------------------------------------------------------------

  /** A netlist input bound to a library input: its bit and the library name. */
  datatype InBinding = InBinding(bit: int, name: string)

  /** A netlist output bound to a library output. */
  datatype OutBinding = OutBinding(bit: int, name: string)

  /** A netlist gate bound to a library gate: the variant in use, its group, its input bits and output bit. */
  datatype GateBinding = GateBinding(gateInUse: string, gateId: string, inputs: seq<int>, output: int)

  function GateNames(gates: seq<GateBinding>): (ns: seq<string>)
    ensures |ns| == |gates| && forall i :: 0 <= i < |gates| ==> ns[i] == gates[i].gateInUse
  {
    if |gates| == 0 then [] else GateNames(gates[..|gates| - 1]) + [gates[|gates| - 1].gateInUse]
  }

  function OutNames(outs: seq<OutBinding>): (ns: seq<string>)
    ensures |ns| == |outs| && forall i :: 0 <= i < |outs| ==> ns[i] == outs[i].name
  {
    if |outs| == 0 then [] else OutNames(outs[..|outs| - 1]) + [outs[|outs| - 1].name]
  }

  // ---------------------------------------------------------------------
  // Edges: which devices feed which (generate_eugene_structs)
  // ---------------------------------------------------------------------

  /** Device name to the names of the devices feeding it. */
  type Edges = Dict<string, seq<string>>

  /** The names of the inputs on bit `b`, in input-map order. */
  function InputsAt(inMap: seq<InBinding>, b: int): seq<string>
  {
    if |inMap| == 0 then []
    else InputsAt(inMap[..|inMap| - 1], b) + (if inMap[|inMap| - 1].bit == b then [inMap[|inMap| - 1].name] else [])
  }

  /** The variants of the gates whose output is bit `b`, in gate-map order. */
  function GatesDriving(gateMap: seq<GateBinding>, b: int): seq<string>
  {
    if |gateMap| == 0 then []
    else
      var g := gateMap[|gateMap| - 1];
      GatesDriving(gateMap[..|gateMap| - 1], b) + (if g.output == b then [g.gateInUse] else [])
  }

  /** For each input bit in turn: the inputs on it, then the gates driving it. */
  function SourcesOf(inMap: seq<InBinding>, gateMap: seq<GateBinding>, bits: seq<int>): seq<string>
  {
    if |bits| == 0 then []
    else SourcesOf(inMap, gateMap, bits[..|bits| - 1]) + InputsAt(inMap, bits[|bits| - 1]) + GatesDriving(gateMap, bits[|bits| - 1])
  }

  lemma {:induction false} InputsAtMember(inMap: seq<InBinding>, b: int, x: string)
    ensures x in InputsAt(inMap, b) <==> exists k :: 0 <= k < |inMap| && inMap[k] == InBinding(b, x)
  {
    if |inMap| > 0 {
      var init := inMap[..|inMap| - 1];
      InputsAtMember(init, b, x);
      if exists k :: 0 <= k < |inMap| && inMap[k] == InBinding(b, x) {
        var k :| 0 <= k < |inMap| && inMap[k] == InBinding(b, x);
        if k < |init| {
          assert init[k] == inMap[k];
        }
      }
      if exists k :: 0 <= k < |init| && init[k] == InBinding(b, x) {
        var k :| 0 <= k < |init| && init[k] == InBinding(b, x);
        assert inMap[k] == init[k];
      }
    }
  }

  lemma {:induction false} GatesDrivingMember(gateMap: seq<GateBinding>, b: int, x: string)
    ensures x in GatesDriving(gateMap, b) <==>
      exists k :: 0 <= k < |gateMap| && gateMap[k].output == b && gateMap[k].gateInUse == x
  {
    if |gateMap| > 0 {
      var init := gateMap[..|gateMap| - 1];
      GatesDrivingMember(init, b, x);
      if exists k :: 0 <= k < |gateMap| && gateMap[k].output == b && gateMap[k].gateInUse == x {
        var k :| 0 <= k < |gateMap| && gateMap[k].output == b && gateMap[k].gateInUse == x;
        if k < |init| {
          assert init[k] == gateMap[k];
        }
      }
      if exists k :: 0 <= k < |init| && init[k].output == b && init[k].gateInUse == x {
        var k :| 0 <= k < |init| && init[k].output == b && init[k].gateInUse == x;
        assert gateMap[k] == init[k];
      }
    }
  }

  /** A source of a gate is an input on, or a gate driving, one of its input bits. */
  predicate FeedsBit(inMap: seq<InBinding>, gateMap: seq<GateBinding>, b: int, x: string)
  {
    (exists k :: 0 <= k < |inMap| && inMap[k] == InBinding(b, x)) ||
    (exists k :: 0 <= k < |gateMap| && gateMap[k].output == b && gateMap[k].gateInUse == x)
  }

  lemma InConcat3<T>(a: seq<T>, b: seq<T>, c: seq<T>, x: T)
    ensures x in a + b + c <==> x in a || x in b || x in c
  {
  }

  /**
   * The names feeding a gate are exactly the netlist inputs whose bit, and
   * the gates whose output bit, is one of the gate's input bits.
   */
  lemma {:induction false} SourcesOfMember(inMap: seq<InBinding>, gateMap: seq<GateBinding>, bits: seq<int>, x: string)
    ensures x in SourcesOf(inMap, gateMap, bits) <==> exists j :: 0 <= j < |bits| && FeedsBit(inMap, gateMap, bits[j], x)
  {
    if |bits| > 0 {
      var init := bits[..|bits| - 1];
      var last := bits[|bits| - 1];
      SourcesOfMember(inMap, gateMap, init, x);
      InputsAtMember(inMap, last, x);
      GatesDrivingMember(gateMap, last, x);
      InConcat3(SourcesOf(inMap, gateMap, init), InputsAt(inMap, last), GatesDriving(gateMap, last), x);
      assert FeedsBit(inMap, gateMap, last, x) <==> x in InputsAt(inMap, last) || x in GatesDriving(gateMap, last);
      if exists j :: 0 <= j < |bits| && FeedsBit(inMap, gateMap, bits[j], x) {
        var j :| 0 <= j < |bits| && FeedsBit(inMap, gateMap, bits[j], x);
        if j < |init| {
          assert init[j] == bits[j];
        }
      }
      if exists j :: 0 <= j < |init| && FeedsBit(inMap, gateMap, init[j], x) {
        var j :| 0 <= j < |init| && FeedsBit(inMap, gateMap, init[j], x);
        assert bits[j] == init[j];
      }
    }
  }

  /** The list stored under `k`, or the empty list. */
  function Lookup(e: Edges, k: string): seq<string>
  {
    match Get(e, k)
    case Some(v) => v
    case None => []
  }

  /** `edges[k] = []` for each name in turn. */
  function ClearKeys(e: Edges, names: seq<string>): Edges
  {
    if |names| == 0 then e else Put(ClearKeys(e, names[..|names| - 1]), names[|names| - 1], [])
  }

  /** `edges[k].append(x)`; a missing key is a KeyError the callers rule out, here an empty list. */
  function Append(e: Edges, k: string, x: string): Edges
  {
    Put(e, k, Lookup(e, k) + [x])
  }

  /** `edges[k].append(x)` for each `x` of `xs` in turn. */
  function Extend(e: Edges, k: string, xs: seq<string>): Edges
  {
    if |xs| == 0 then e else Append(Extend(e, k, xs[..|xs| - 1]), k, xs[|xs| - 1])
  }

  /** The gate loop: each gate's variant gains the sources of its input bits. */
  function GateEdges(e: Edges, inMap: seq<InBinding>, gateMap: seq<GateBinding>, gates: seq<GateBinding>): Edges
  {
    if |gates| == 0 then e
    else
      var g := gates[|gates| - 1];
      Extend(GateEdges(e, inMap, gateMap, gates[..|gates| - 1]), g.gateInUse, SourcesOf(inMap, gateMap, g.inputs))
  }

  /** The output loop: each output gains the gates driving its bit. */
  function OutEdges(e: Edges, gateMap: seq<GateBinding>, outs: seq<OutBinding>): Edges
  {
    if |outs| == 0 then e
    else
      var o := outs[|outs| - 1];
      Extend(OutEdges(e, gateMap, outs[..|outs| - 1]), o.name, GatesDriving(gateMap, o.bit))
  }

  /** The edges `generate_eugene_structs` computes. */
  function EdgesOf(inMap: seq<InBinding>, gateMap: seq<GateBinding>, outMap: seq<OutBinding>): Edges
  {
    OutEdges(GateEdges(Cleared(gateMap, outMap), inMap, gateMap, gateMap), gateMap, outMap)
  }

  /** The sources contributed by every gate whose variant is `k`. */
  function SourcesFor(inMap: seq<InBinding>, gateMap: seq<GateBinding>, gates: seq<GateBinding>, k: string): seq<string>
  {
    if |gates| == 0 then []
    else
      var g := gates[|gates| - 1];
      SourcesFor(inMap, gateMap, gates[..|gates| - 1], k) + (if g.gateInUse == k then SourcesOf(inMap, gateMap, g.inputs) else [])
  }

  /** The gates driving every output named `k`. */
  function DriversFor(gateMap: seq<GateBinding>, outs: seq<OutBinding>, k: string): seq<string>
  {
    if |outs| == 0 then []
    else
      var o := outs[|outs| - 1];
      DriversFor(gateMap, outs[..|outs| - 1], k) + (if o.name == k then GatesDriving(gateMap, o.bit) else [])
  }

  lemma ConcatAssoc<T>(a: seq<T>, b: seq<T>, c: seq<T>)
    ensures a + b + c == a + (b + c)
  {
  }

  lemma ConcatEmpty<T>(a: seq<T>)
    ensures a + [] == a && [] + a == a
  {
  }

  lemma InitLast<T>(xs: seq<T>)
    requires |xs| > 0
    ensures xs[..|xs| - 1] + [xs[|xs| - 1]] == xs
  {
  }

  lemma LookupSome(e: Edges, k: string, v: seq<string>)
    requires Get(e, k) == Some(v)
    ensures Lookup(e, k) == v
  {
  }

  lemma GetAppend(e: Edges, k: string, x: string, k2: string)
    ensures Get(Append(e, k, x), k2) == if k2 == k then Some(Lookup(e, k) + [x]) else Get(e, k2)
  {
    GetPut(e, k, Lookup(e, k) + [x], k2);
  }

  lemma {:induction false} GetExtend(e: Edges, k: string, xs: seq<string>, k2: string)
    ensures Get(Extend(e, k, xs), k2) ==
      if k2 != k || |xs| == 0 then Get(e, k2) else Some(Lookup(e, k) + xs)
  {
    if |xs| > 0 {
      var init := xs[..|xs| - 1];
      var x := xs[|xs| - 1];
      var prev := Extend(e, k, init);
      GetExtend(e, k, init, k2);
      GetAppend(prev, k, x, k2);
      if k2 == k {
        GetExtend(e, k, init, k);
        InitLast(xs);
        if |init| == 0 {
          ConcatEmpty(Lookup(e, k));
          ConcatEmpty([x]);
        } else {
          LookupSome(prev, k, Lookup(e, k) + init);
        }
        ConcatAssoc(Lookup(e, k), init, [x]);
      }
    }
  }

  /** Extending by `a` and then by `b` is extending by `a + b`. */
  lemma {:induction false} ExtendConcat(e: Edges, k: string, a: seq<string>, b: seq<string>)
    ensures Extend(Extend(e, k, a), k, b) == Extend(e, k, a + b)
  {
    if |b| == 0 {
      assert a + b == a;
    } else {
      ExtendConcat(e, k, a, b[..|b| - 1]);
      assert (a + b)[..|a + b| - 1] == a + b[..|b| - 1];
    }
  }

  lemma {:induction false} GetClearKeys(e: Edges, names: seq<string>, k: string)
    ensures Get(ClearKeys(e, names), k) == if k in names then Some([]) else Get(e, k)
  {
    if |names| > 0 {
      var init := names[..|names| - 1];
      GetClearKeys(e, init, k);
      GetPut(ClearKeys(e, init), names[|names| - 1], [], k);
      assert k in names <==> k in init || k == names[|names| - 1];
    }
  }

  /** One extension step, stated on the values alone. */
  lemma ExtendStep(e: Edges, prev: Edges, name: string, src: seq<string>, k: string, seen: bool, before: seq<string>)
    requires Get(prev, k) == if seen then Some(Lookup(e, k) + before) else Get(e, k)
    requires !seen ==> before == []
    requires k == name ==> k in Keys(e)
    ensures Get(Extend(prev, name, src), k) ==
      if seen || k == name then Some(Lookup(e, k) + (before + if k == name then src else [])) else Get(e, k)
  {
    GetExtend(prev, name, src, k);
    ConcatAssoc(Lookup(e, k), before, src);
    ConcatEmpty(before);
    ConcatEmpty(src);
    ConcatEmpty(Lookup(e, k));
  }

  lemma {:induction false} GetGateEdges(e: Edges, inMap: seq<InBinding>, gateMap: seq<GateBinding>, gates: seq<GateBinding>, k: string)
    requires k in GateNames(gates) ==> k in Keys(e)
    ensures Get(GateEdges(e, inMap, gateMap, gates), k) ==
      if k in GateNames(gates) then Some(Lookup(e, k) + SourcesFor(inMap, gateMap, gates, k)) else Get(e, k)
  {
    if |gates| > 0 {
      var init := gates[..|gates| - 1];
      var g := gates[|gates| - 1];
      assert k in GateNames(gates) <==> k in GateNames(init) || k == g.gateInUse;
      GetGateEdges(e, inMap, gateMap, init, k);
      if k !in GateNames(init) {
        SourcesForAbsent(inMap, gateMap, init, k);
      }
      ExtendStep(e, GateEdges(e, inMap, gateMap, init), g.gateInUse, SourcesOf(inMap, gateMap, g.inputs), k,
                 k in GateNames(init), SourcesFor(inMap, gateMap, init, k));
    }
  }

  lemma {:induction false} SourcesForAbsent(inMap: seq<InBinding>, gateMap: seq<GateBinding>, gates: seq<GateBinding>, k: string)
    requires k !in GateNames(gates)
    ensures SourcesFor(inMap, gateMap, gates, k) == []
  {
    if |gates| > 0 {
      var init := gates[..|gates| - 1];
      assert GateNames(gates) == GateNames(init) + [gates[|gates| - 1].gateInUse];
      SourcesForAbsent(inMap, gateMap, init, k);
    }
  }

  lemma {:induction false} DriversForAbsent(gateMap: seq<GateBinding>, outs: seq<OutBinding>, k: string)
    requires k !in OutNames(outs)
    ensures DriversFor(gateMap, outs, k) == []
  {
    if |outs| > 0 {
      var init := outs[..|outs| - 1];
      assert OutNames(outs) == OutNames(init) + [outs[|outs| - 1].name];
      DriversForAbsent(gateMap, init, k);
    }
  }

  lemma {:induction false} GetOutEdges(e: Edges, gateMap: seq<GateBinding>, outs: seq<OutBinding>, k: string)
    requires k in OutNames(outs) ==> k in Keys(e)
    ensures Get(OutEdges(e, gateMap, outs), k) ==
      if k in OutNames(outs) then Some(Lookup(e, k) + DriversFor(gateMap, outs, k)) else Get(e, k)
  {
    if |outs| > 0 {
      var init := outs[..|outs| - 1];
      var o := outs[|outs| - 1];
      assert k in OutNames(outs) <==> k in OutNames(init) || k == o.name;
      GetOutEdges(e, gateMap, init, k);
      if k !in OutNames(init) {
        DriversForAbsent(gateMap, init, k);
      }
      ExtendStep(e, OutEdges(e, gateMap, init), o.name, GatesDriving(gateMap, o.bit), k,
                 k in OutNames(init), DriversFor(gateMap, init, k));
    }
  }

  /** The two clearing loops: every gate variant and output name maps to `[]`. */
  function Cleared(gateMap: seq<GateBinding>, outMap: seq<OutBinding>): Edges
  {
    ClearKeys(ClearKeys([], GateNames(gateMap)), OutNames(outMap))
  }

  lemma GetCleared(gateMap: seq<GateBinding>, outMap: seq<OutBinding>, k: string)
    ensures Get(Cleared(gateMap, outMap), k) == if k in GateNames(gateMap) || k in OutNames(outMap) then Some([]) else None
  {
    GetClearKeys([], GateNames(gateMap), k);
    GetClearKeys(ClearKeys([], GateNames(gateMap)), OutNames(outMap), k);
  }

  /** After the gate loop, every key holds the sources of the gates using it. */
  lemma GetAfterGates(inMap: seq<InBinding>, gateMap: seq<GateBinding>, outMap: seq<OutBinding>, k: string)
    ensures Get(GateEdges(Cleared(gateMap, outMap), inMap, gateMap, gateMap), k) ==
      if k in GateNames(gateMap) || k in OutNames(outMap) then Some(SourcesFor(inMap, gateMap, gateMap, k)) else None
  {
    var c := Cleared(gateMap, outMap);
    var src := SourcesFor(inMap, gateMap, gateMap, k);
    GetCleared(gateMap, outMap, k);
    GetGateEdges(c, inMap, gateMap, gateMap, k);
    if k in GateNames(gateMap) {
      assert Lookup(c, k) == [];
      ConcatEmpty(src);
    } else {
      SourcesForAbsent(inMap, gateMap, gateMap, k);
    }
  }

  /**
   * `edges` has a key for every gate variant and every output name, and
   * nothing else; under each key are the sources of the gates using that
   * variant, then the gates driving the outputs with that name.
   */
  lemma EdgesAt(inMap: seq<InBinding>, gateMap: seq<GateBinding>, outMap: seq<OutBinding>, k: string)
    ensures Get(EdgesOf(inMap, gateMap, outMap), k) ==
      if k in GateNames(gateMap) || k in OutNames(outMap) then
        Some(SourcesFor(inMap, gateMap, gateMap, k) + DriversFor(gateMap, outMap, k))
      else None
  {
    var e2 := GateEdges(Cleared(gateMap, outMap), inMap, gateMap, gateMap);
    GetAfterGates(inMap, gateMap, outMap, k);
    GetOutEdges(e2, gateMap, outMap, k);
    if k !in OutNames(outMap) {
      DriversForAbsent(gateMap, outMap, k);
      ConcatEmpty(SourcesFor(inMap, gateMap, gateMap, k));
    }
  }

  /** With one gate per variant, a gate's edge list is the sources of its own input bits. */
  lemma {:induction false} SourcesForUnique(inMap: seq<InBinding>, gateMap: seq<GateBinding>, gates: seq<GateBinding>, j: int)
    requires Distinct(GateNames(gates)) && 0 <= j < |gates|
    ensures SourcesFor(inMap, gateMap, gates, gates[j].gateInUse) == SourcesOf(inMap, gateMap, gates[j].inputs)
  {
    var init := gates[..|gates| - 1];
    var k := gates[j].gateInUse;
    assert GateNames(gates) == GateNames(init) + [gates[|gates| - 1].gateInUse];
    assert Distinct(GateNames(init)) by {
      forall a, b | 0 <= a < b < |init|
        ensures GateNames(init)[a] != GateNames(init)[b]
      {
        assert GateNames(gates)[a] != GateNames(gates)[b];
      }
    }
    if j < |init| {
      SourcesForUnique(inMap, gateMap, init, j);
      assert GateNames(gates)[j] != GateNames(gates)[|gates| - 1];
    } else {
      assert k !in GateNames(init) by {
        forall a | 0 <= a < |init|
          ensures GateNames(init)[a] != k
        {
          assert GateNames(gates)[a] != GateNames(gates)[j];
        }
      }
      SourcesForAbsent(inMap, gateMap, init, k);
    }
  }

  /** With one output per name, an output's edge list is the gates driving its own bit. */
  lemma {:induction false} DriversForUnique(gateMap: seq<GateBinding>, outs: seq<OutBinding>, j: int)
    requires Distinct(OutNames(outs)) && 0 <= j < |outs|
    ensures DriversFor(gateMap, outs, outs[j].name) == GatesDriving(gateMap, outs[j].bit)
  {
    var init := outs[..|outs| - 1];
    var k := outs[j].name;
    assert OutNames(outs) == OutNames(init) + [outs[|outs| - 1].name];
    assert Distinct(OutNames(init)) by {
      forall a, b | 0 <= a < b < |init|
        ensures OutNames(init)[a] != OutNames(init)[b]
      {
        assert OutNames(outs)[a] != OutNames(outs)[b];
      }
    }
    if j < |init| {
      DriversForUnique(gateMap, init, j);
      assert OutNames(outs)[j] != OutNames(outs)[|outs| - 1];
    } else {
      assert k !in OutNames(init) by {
        forall a | 0 <= a < |init|
          ensures OutNames(init)[a] != k
        {
          assert OutNames(outs)[a] != OutNames(outs)[j];
        }
      }
      DriversForAbsent(gateMap, init, k);
    }
  }

  // ---------------------------------------------------------------------
  // Each key once
  // ---------------------------------------------------------------------

  lemma {:induction false} ClearKeysWellformed(e: Edges, names: seq<string>)
    requires Wellformed(e)
    ensures Wellformed(ClearKeys(e, names))
  {
    if |names| > 0 {
      ClearKeysWellformed(e, names[..|names| - 1]);
      PutWellformed(ClearKeys(e, names[..|names| - 1]), names[|names| - 1], []);
    }
  }

  lemma {:induction false} ExtendWellformed(e: Edges, k: string, xs: seq<string>)
    requires Wellformed(e)
    ensures Wellformed(Extend(e, k, xs))
  {
    if |xs| > 0 {
      var prev := Extend(e, k, xs[..|xs| - 1]);
      ExtendWellformed(e, k, xs[..|xs| - 1]);
      PutWellformed(prev, k, Lookup(prev, k) + [xs[|xs| - 1]]);
    }
  }

  lemma {:induction false} GateEdgesWellformed(e: Edges, inMap: seq<InBinding>, gateMap: seq<GateBinding>, gates: seq<GateBinding>)
    requires Wellformed(e)
    ensures Wellformed(GateEdges(e, inMap, gateMap, gates))
  {
    if |gates| > 0 {
      var g := gates[|gates| - 1];
      GateEdgesWellformed(e, inMap, gateMap, gates[..|gates| - 1]);
      ExtendWellformed(GateEdges(e, inMap, gateMap, gates[..|gates| - 1]), g.gateInUse, SourcesOf(inMap, gateMap, g.inputs));
    }
  }

  lemma {:induction false} OutEdgesWellformed(e: Edges, gateMap: seq<GateBinding>, outs: seq<OutBinding>)
    requires Wellformed(e)
    ensures Wellformed(OutEdges(e, gateMap, outs))
  {
    if |outs| > 0 {
      var o := outs[|outs| - 1];
      OutEdgesWellformed(e, gateMap, outs[..|outs| - 1]);
      ExtendWellformed(OutEdges(e, gateMap, outs[..|outs| - 1]), o.name, GatesDriving(gateMap, o.bit));
    }
  }

  /** `edges` is a dict: no key twice. */
  lemma EdgesWellformed(inMap: seq<InBinding>, gateMap: seq<GateBinding>, outMap: seq<OutBinding>)
    ensures Wellformed(EdgesOf(inMap, gateMap, outMap))
  {
    ClearKeysWellformed([], GateNames(gateMap));
    ClearKeysWellformed(ClearKeys([], GateNames(gateMap)), OutNames(outMap));
    GateEdgesWellformed(Cleared(gateMap, outMap), inMap, gateMap, gateMap);
    OutEdgesWellformed(GateEdges(Cleared(gateMap, outMap), inMap, gateMap, gateMap), gateMap, outMap);
  }

  // ---------------------------------------------------------------------
  // The loops of generate_eugene_structs that build `edges`
  // ---------------------------------------------------------------------

  /** `edges[k] = []` for the names, one after another. */
  method ClearLoop(e0: Edges, names: seq<string>) returns (e: Edges)
    ensures e == ClearKeys(e0, names)
  {
    e := e0;
    for j := 0 to |names|
      invariant e == ClearKeys(e0, names[..j])
    {
      assert names[..j + 1][..j] == names[..j];
      e := Put(e, names[j], []);
    }
    assert names[..|names|] == names;
  }

  /** `edges[k].append(...)` for every input on bit `bit`, in input-map order. */
  method AppendInputs(e0: Edges, k: string, inMap: seq<InBinding>, bit: int) returns (e: Edges)
    ensures e == Extend(e0, k, InputsAt(inMap, bit))
  {
    e := e0;
    ghost var acc: seq<string> := [];
    for m := 0 to |inMap|
      invariant acc == InputsAt(inMap[..m], bit)
      invariant e == Extend(e0, k, acc)
    {
      assert inMap[..m + 1][..m] == inMap[..m];
      if inMap[m].bit == bit {
        e := Append(e, k, inMap[m].name);
        assert (acc + [inMap[m].name])[..|acc|] == acc;
        acc := acc + [inMap[m].name];
      }
    }
    assert inMap[..|inMap|] == inMap;
  }

  /** `edges[k].append(...)` for every gate whose output is bit `bit`, in gate-map order. */
  method AppendDrivers(e0: Edges, k: string, gateMap: seq<GateBinding>, bit: int) returns (e: Edges)
    ensures e == Extend(e0, k, GatesDriving(gateMap, bit))
  {
    e := e0;
    ghost var acc: seq<string> := [];
    for m := 0 to |gateMap|
      invariant acc == GatesDriving(gateMap[..m], bit)
      invariant e == Extend(e0, k, acc)
    {
      assert gateMap[..m + 1][..m] == gateMap[..m];
      if gateMap[m].output == bit {
        e := Append(e, k, gateMap[m].gateInUse);
        assert (acc + [gateMap[m].gateInUse])[..|acc|] == acc;
        acc := acc + [gateMap[m].gateInUse];
      }
    }
    assert gateMap[..|gateMap|] == gateMap;
  }

  /** The appends for one gate: for each input bit, the inputs on it, then the gates driving it. */
  method GateLoop(e0: Edges, inMap: seq<InBinding>, gateMap: seq<GateBinding>, g: GateBinding) returns (e: Edges)
    ensures e == Extend(e0, g.gateInUse, SourcesOf(inMap, gateMap, g.inputs))
  {
    e := e0;
    for b := 0 to |g.inputs|
      invariant e == Extend(e0, g.gateInUse, SourcesOf(inMap, gateMap, g.inputs[..b]))
    {
      var bit := g.inputs[b];
      var prefix := SourcesOf(inMap, gateMap, g.inputs[..b]);
      e := AppendInputs(e, g.gateInUse, inMap, bit);
      ExtendConcat(e0, g.gateInUse, prefix, InputsAt(inMap, bit));
      e := AppendDrivers(e, g.gateInUse, gateMap, bit);
      ExtendConcat(e0, g.gateInUse, prefix + InputsAt(inMap, bit), GatesDriving(gateMap, bit));
      assert g.inputs[..b + 1][..b] == g.inputs[..b];
    }
    assert g.inputs[..|g.inputs|] == g.inputs;
  }

  /** The edge-building loops of `generate_eugene_structs`. */
  method BuildEdges(inMap: seq<InBinding>, gateMap: seq<GateBinding>, outMap: seq<OutBinding>) returns (edges: Edges)
    ensures edges == EdgesOf(inMap, gateMap, outMap)
  {
    edges := ClearLoop([], GateNames(gateMap));
    edges := ClearLoop(edges, OutNames(outMap));
    ghost var cleared := edges;
    for j := 0 to |gateMap|
      invariant edges == GateEdges(cleared, inMap, gateMap, gateMap[..j])
    {
      assert gateMap[..j + 1][..j] == gateMap[..j];
      edges := GateLoop(edges, inMap, gateMap, gateMap[j]);
    }
    assert gateMap[..|gateMap|] == gateMap;
    ghost var gated := edges;
    for j := 0 to |outMap|
      invariant edges == OutEdges(gated, gateMap, outMap[..j])
    {
      assert outMap[..j + 1][..j] == outMap[..j];
      edges := AppendDrivers(edges, outMap[j].name, gateMap, outMap[j].bit);
    }
    assert outMap[..|outMap|] == outMap;
  }
}
