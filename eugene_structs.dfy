/**
 * The structs of the Eugene object (`utils/eugene.py`): one `EugeneStruct`
 * per device of the chosen circuit, keyed by device name, filled in by
 * `generate_eugene_structs` from the edges and from the UCF's sensor, gate
 * and output-device collections.  This module holds the records and the
 * value-level steps; the object's methods apply them to its dict.
 *
 * The UCF collections are given as typed records: each record is the
 * query result with the fields the code reads.
 */
module EugeneStructs {
  import opened Wrappers
  import opened PyStr
  import opened Dict
  import opened EugeneEdges

  // ---------------------------------------------------------------------
  // Records
  // ---------------------------------------------------------------------

  /**
   * One entry of `struct_cassettes`: the variant name (`c[0]`), the
   * cassette name (`c[1]`), the number of `#in` components (`c[2]`) and
   * the cassette's components (`c[3]`).
   */
  datatype StructCassette = StructCassette(varName: string, casName: string, inCount: nat, comps: seq<string>)

  /**
   * `EugeneStruct`.  `outputs` is a list of part names; the dataclass
   * default `""` behaves as the empty list everywhere it is used
   * (`extend`, indexing).
   */
  datatype EugeneStruct = EugeneStruct(
    kind: string,
    gatesName: string,
    gatesGroup: string,
    gatesModel: string,
    gatesStruct: string,
    structCassettes: seq<StructCassette>,
    inputs: seq<string>,
    outputs: seq<string>,
    color: string)

  type Structs = Dict<string, EugeneStruct>

  /** `EugeneStruct(gates_name=name)`. */
  function Blank(name: string): EugeneStruct
  {
    EugeneStruct("", name, "", "", "", [], [], [], "")
  }

  /** An `input_sensors` record. */
  datatype InSensor = InSensor(name: string, model: string, structure: string)

  /** A `structures` record of the input UCF. */
  datatype InStructure = InStructure(name: string, outputs: seq<string>)

  /** A `gates` record of the main UCF. */
  datatype GateDevice = GateDevice(name: string, model: string, structure: string, color: string)

  /** A device of a `structures` record. */
  datatype Device = Device(name: string, components: seq<string>)

  /** A `structures` record of the main UCF. */
  datatype GateStructure = GateStructure(name: string, outputs: seq<string>, devices: seq<Device>)

  /** An `output_devices` record. */
  datatype OutDevice = OutDevice(name: string, model: string, structure: string)

  /** A `structures` record of the output UCF. */
  datatype OutStructure = OutStructure(name: string, devices: seq<Device>)

  // ---------------------------------------------------------------------
  // Names and inputs from the edges
  // ---------------------------------------------------------------------

  /** Every name listed as a source in `edges`, in order. */
  function Sources(edges: Edges): seq<string>
  {
    if |edges| == 0 then [] else Sources(edges[..|edges| - 1]) + edges[|edges| - 1].1
  }

  /** `structs_dict[edge] = EugeneStruct(gates_name=edge)` for each edge not yet a key. */
  function AddMissing(d: Structs, names: seq<string>): Structs
  {
    if |names| == 0 then d
    else
      var p := AddMissing(d, names[..|names| - 1]);
      var x := names[|names| - 1];
      if x in Keys(p) then p else Put(p, x, Blank(x))
  }

  /** One item of `edges`: a fresh struct with its inputs, then its sources. */
  function AddEntry(d: Structs, key: string, val: seq<string>): Structs
  {
    AddMissing(Put(d, key, Blank(key).(inputs := val)), val)
  }

  /** The loop over `edges.items()`. */
  function StructsFrom(d: Structs, edges: Edges): Structs
  {
    if |edges| == 0 then d
    else AddEntry(StructsFrom(d, edges[..|edges| - 1]), edges[|edges| - 1].0, edges[|edges| - 1].1)
  }

  lemma InConcat<T>(a: seq<T>, b: seq<T>, x: T)
    ensures x in a + b <==> x in a || x in b
  {
  }

  lemma {:induction false} GetAddMissing(d: Structs, names: seq<string>, k: string)
    ensures Get(AddMissing(d, names), k) == if k !in Keys(d) && k in names then Some(Blank(k)) else Get(d, k)
  {
    if |names| > 0 {
      var init := names[..|names| - 1];
      var x := names[|names| - 1];
      var p := AddMissing(d, init);
      GetAddMissing(d, init, k);
      GetAddMissing(d, init, x);
      assert k in names <==> k in init || k == x;
      if x !in Keys(p) {
        GetPut(p, x, Blank(x), k);
      }
    }
  }

  lemma {:induction false} GetStructsFrom(d: Structs, edges: Edges, k: string)
    requires Wellformed(edges)
    ensures Get(StructsFrom(d, edges), k) ==
      if k in Keys(edges) then Some(Blank(k).(inputs := Get(edges, k).value))
      else if k !in Keys(d) && k in Sources(edges) then Some(Blank(k))
      else Get(d, k)
  {
    if |edges| > 0 {
      var init := edges[..|edges| - 1];
      var (key, val) := edges[|edges| - 1];
      WellformedSnoc(edges);
      GetStructsFrom(d, init, k);
      var p := StructsFrom(d, init);
      var q := Put(p, key, Blank(key).(inputs := val));
      GetAddMissing(q, val, k);
      GetPut(p, key, Blank(key).(inputs := val), k);
      GetPut(init, key, val, k);
      KeysPut(init, key, val);
      InConcat(Sources(init), val, k);
    }
  }

  /**
   * `structs_dict` gets an entry for every edge key and every edge source,
   * and no other new entry: its keys are the old keys, the edge keys and
   * the edge sources.
   */
  lemma {:induction false} KeysStructsFrom(d: Structs, edges: Edges, k: string)
    ensures k in Keys(StructsFrom(d, edges)) <==> k in Keys(d) || k in Keys(edges) || k in Sources(edges)
  {
    if |edges| > 0 {
      var init := edges[..|edges| - 1];
      var (key, val) := edges[|edges| - 1];
      KeysStructsFrom(d, init, k);
      var p := StructsFrom(d, init);
      var q := Put(p, key, Blank(key).(inputs := val));
      GetAddMissing(q, val, k);
      KeysPut(p, key, Blank(key).(inputs := val));
      KeysInit(edges, k);
      InConcat(Sources(init), val, k);
    }
  }

  // ---------------------------------------------------------------------
  // Gate groups
  // ---------------------------------------------------------------------

  /** `structs_dict[g.gate_in_use].gates_group = g.gate_id` for each gate; a missing key is a KeyError. */
  function SetGroups(d: Structs, gates: seq<GateBinding>): Result<Structs>
  {
    if |gates| == 0 then Ok(d)
    else
      match SetGroups(d, gates[..|gates| - 1])
      case Err(e) => Err(e)
      case Ok(p) =>
        var g := gates[|gates| - 1];
        match Get(p, g.gateInUse)
        case None => Err(KeyError)
        case Some(v) => Ok(Put(p, g.gateInUse, v.(gatesGroup := g.gateId)))
  }

  /** The group of the last gate whose variant is `k`. */
  function LastGroup(gates: seq<GateBinding>, k: string): string
  {
    if |gates| == 0 then ""
    else if gates[|gates| - 1].gateInUse == k then gates[|gates| - 1].gateId
    else LastGroup(gates[..|gates| - 1], k)
  }

  /** A failed assignment stays failed when more gates follow. */
  lemma {:induction false} SetGroupsErrStays(d: Structs, gates: seq<GateBinding>, n: nat)
    requires n <= |gates| && SetGroups(d, gates[..n]).Err?
    ensures SetGroups(d, gates) == SetGroups(d, gates[..n])
    decreases |gates| - n
  {
    if n < |gates| {
      assert gates[..n + 1][..n] == gates[..n];
      SetGroupsErrStays(d, gates, n + 1);
    } else {
      assert gates[..n] == gates;
    }
  }

  /**
   * When every gate variant is a key, the assignment succeeds, keeps the
   * keys, and gives each variant the group of the last gate using it;
   * everything else is unchanged.
   */
  lemma {:induction false} SetGroupsGet(d: Structs, gates: seq<GateBinding>, k: string)
    requires forall i :: 0 <= i < |gates| ==> gates[i].gateInUse in Keys(d)
    ensures SetGroups(d, gates).Ok?
    ensures Keys(SetGroups(d, gates).value) == Keys(d)
    ensures Get(SetGroups(d, gates).value, k) ==
      if k in GateNames(gates) then Some(Get(d, k).value.(gatesGroup := LastGroup(gates, k))) else Get(d, k)
  {
    if |gates| > 0 {
      var init := gates[..|gates| - 1];
      var g := gates[|gates| - 1];
      assert forall i :: 0 <= i < |init| ==> init[i].gateInUse in Keys(d) by {
        assert forall i :: 0 <= i < |init| ==> init[i] == gates[i];
      }
      SetGroupsGet(d, init, k);
      SetGroupsGet(d, init, g.gateInUse);
      var p := SetGroups(d, init).value;
      assert g.gateInUse in Keys(d);
      var v := Get(p, g.gateInUse).value;
      GetPut(p, g.gateInUse, v.(gatesGroup := g.gateId), k);
      assert GateNames(gates) == GateNames(init) + [g.gateInUse];
    }
  }

  /** Every gate variant has a struct once the edges are added, so the group assignment never raises. */
  lemma GroupsNeverFail(d: Structs, inMap: seq<InBinding>, gateMap: seq<GateBinding>, outMap: seq<OutBinding>)
    ensures forall i :: 0 <= i < |gateMap| ==> gateMap[i].gateInUse in Keys(StructsFrom(d, EdgesOf(inMap, gateMap, outMap)))
    ensures SetGroups(StructsFrom(d, EdgesOf(inMap, gateMap, outMap)), gateMap).Ok?
  {
    var edges := EdgesOf(inMap, gateMap, outMap);
    forall i | 0 <= i < |gateMap|
      ensures gateMap[i].gateInUse in Keys(StructsFrom(d, edges))
    {
      var k := gateMap[i].gateInUse;
      assert GateNames(gateMap)[i] == k;
      EdgesAt(inMap, gateMap, outMap, k);
      KeysStructsFrom(d, edges, k);
    }
    if |gateMap| > 0 {
      SetGroupsGet(StructsFrom(d, edges), gateMap, gateMap[0].gateInUse);
    }
  }

  // ---------------------------------------------------------------------
  // Inputs: type, model, structure and outputs from the input UCF
  // ---------------------------------------------------------------------

  /** The last record of `sensors` named `k`. */
  function LastSensor(sensors: seq<InSensor>, k: string): Option<InSensor>
  {
    if |sensors| == 0 then None
    else if sensors[|sensors| - 1].name == k then Some(sensors[|sensors| - 1])
    else LastSensor(sensors[..|sensors| - 1], k)
  }

  /** The last input structure named `name`. */
  function LastInStructure(structures: seq<InStructure>, name: string): Option<InStructure>
  {
    if |structures| == 0 then None
    else if structures[|structures| - 1].name == name then Some(structures[|structures| - 1])
    else LastInStructure(structures[..|structures| - 1], name)
  }

  /** The structure loop for an input: each structure named `v.gates_struct` sets the outputs. */
  function InOutputs(v: EugeneStruct, structures: seq<InStructure>): EugeneStruct
  {
    if |structures| == 0 then v
    else
      var p := InOutputs(v, structures[..|structures| - 1]);
      var st := structures[|structures| - 1];
      if v.gatesStruct == st.name then p.(outputs := st.outputs) else p
  }

  /** The sensor loop for the struct under key `k`. */
  function AsInput(k: string, v: EugeneStruct, sensors: seq<InSensor>, structures: seq<InStructure>): EugeneStruct
  {
    if |sensors| == 0 then v
    else
      var p := AsInput(k, v, sensors[..|sensors| - 1], structures);
      var s := sensors[|sensors| - 1];
      if k == s.name then InOutputs(p.(kind := "input", gatesModel := s.model, gatesStruct := s.structure), structures)
      else p
  }

  lemma {:induction false} InOutputsSpec(v: EugeneStruct, structures: seq<InStructure>)
    ensures InOutputs(v, structures) == v.(outputs := InOutputs(v, structures).outputs)
    ensures LastInStructure(structures, v.gatesStruct).Some? ==>
      InOutputs(v, structures).outputs == LastInStructure(structures, v.gatesStruct).value.outputs
    ensures LastInStructure(structures, v.gatesStruct).None? ==> InOutputs(v, structures) == v
  {
    if |structures| > 0 {
      InOutputsSpec(v, structures[..|structures| - 1]);
    }
  }

  /**
   * A struct whose key names no sensor is unchanged.  Otherwise it becomes
   * an input with the model and structure of the last sensor of that name,
   * takes the outputs of the last structure of that structure name when
   * there is one, and keeps its name, group, inputs, cassettes and color.
   */
  lemma {:induction false} AsInputSpec(k: string, v: EugeneStruct, sensors: seq<InSensor>, structures: seq<InStructure>)
    ensures LastSensor(sensors, k).None? ==> AsInput(k, v, sensors, structures) == v
    ensures LastSensor(sensors, k).Some? ==>
      var s := LastSensor(sensors, k).value;
      var r := AsInput(k, v, sensors, structures);
      && r == v.(kind := "input", gatesModel := s.model, gatesStruct := s.structure, outputs := r.outputs)
      && (LastInStructure(structures, s.structure).Some? ==> r.outputs == LastInStructure(structures, s.structure).value.outputs)
  {
    if |sensors| > 0 {
      var p := AsInput(k, v, sensors[..|sensors| - 1], structures);
      var s := sensors[|sensors| - 1];
      AsInputSpec(k, v, sensors[..|sensors| - 1], structures);
      if k == s.name {
        InOutputsSpec(p.(kind := "input", gatesModel := s.model, gatesStruct := s.structure), structures);
      }
    }
  }

  // ---------------------------------------------------------------------
  // Gates: cassettes from the devices of a gate structure
  // ---------------------------------------------------------------------

  /** The number of `#in` components. */
  function InCount(comps: seq<string>): nat
  {
    if |comps| == 0 then 0
    else InCount(comps[..|comps| - 1]) + if StartsWith(comps[|comps| - 1], "#in") then 1 else 0
  }

  /** The last component ending in `_cassette` that is not an `#in` component, or `""`. */
  function CasName(comps: seq<string>): string
  {
    if |comps| == 0 then ""
    else
      var c := comps[|comps| - 1];
      if !StartsWith(c, "#in") && EndsWith(c, "_cassette") then c else CasName(comps[..|comps| - 1])
  }

  /** `c[3] = components` for each cassette entry whose cassette name is `name`. */
  function SetComps(cs: seq<StructCassette>, name: string, comps: seq<string>): (r: seq<StructCassette>)
  {
    seq(|cs|, i requires 0 <= i < |cs| => if cs[i].casName == name then cs[i].(comps := comps) else cs[i])
  }

  /**
   * The device loop for a gate structure: a `_cassette` device hands its
   * components to the entries naming it; any other device becomes an entry
   * when it has an `#in` component.
   */
  function GateCassettes(devices: seq<Device>): seq<StructCassette>
  {
    if |devices| == 0 then []
    else
      var p := GateCassettes(devices[..|devices| - 1]);
      var d := devices[|devices| - 1];
      if EndsWith(d.name, "_cassette") then SetComps(p, d.name, d.components)
      else if InCount(d.components) > 0 then p + [StructCassette(d.name, CasName(d.components), InCount(d.components), [])]
      else p
  }

  /** The devices that become gate cassette entries, in order. */
  function Entries(devices: seq<Device>): seq<Device>
  {
    if |devices| == 0 then []
    else
      var d := devices[|devices| - 1];
      Entries(devices[..|devices| - 1]) + if !EndsWith(d.name, "_cassette") && InCount(d.components) > 0 then [d] else []
  }

  /** A device has a positive `#in` count exactly when one of its components starts with `#in`. */
  lemma {:induction false} InCountPositive(comps: seq<string>)
    ensures InCount(comps) > 0 <==> exists i :: 0 <= i < |comps| && StartsWith(comps[i], "#in")
  {
    if |comps| > 0 {
      var init := comps[..|comps| - 1];
      InCountPositive(init);
      if exists i :: 0 <= i < |init| && StartsWith(init[i], "#in") {
        var i :| 0 <= i < |init| && StartsWith(init[i], "#in");
        assert comps[i] == init[i];
      }
      if exists i :: 0 <= i < |comps| && StartsWith(comps[i], "#in") {
        var i :| 0 <= i < |comps| && StartsWith(comps[i], "#in");
        if i < |init| {
          assert init[i] == comps[i];
        }
      }
    }
  }

  /**
   * A gate device becomes a cassette entry exactly when it is not a
   * `_cassette` device and has an `#in` component: the entries are those
   * devices in order, each with its `#in` count and cassette name.
   */
  lemma {:induction false} GateCassettesEntries(devices: seq<Device>)
    ensures |GateCassettes(devices)| == |Entries(devices)|
    ensures forall i :: 0 <= i < |Entries(devices)| ==>
      var e := Entries(devices)[i];
      && GateCassettes(devices)[i].varName == e.name
      && GateCassettes(devices)[i].casName == CasName(e.components)
      && GateCassettes(devices)[i].inCount == InCount(e.components)
      && InCount(e.components) > 0
  {
    if |devices| > 0 {
      GateCassettesEntries(devices[..|devices| - 1]);
    }
  }

  /** Each entry's components are empty or those of a `_cassette` device named by its cassette name. */
  lemma {:induction false} GateCassettesComps(devices: seq<Device>)
    ensures forall i :: 0 <= i < |GateCassettes(devices)| ==>
      var c := GateCassettes(devices)[i];
      c.comps == [] ||
      exists j :: 0 <= j < |devices| && devices[j].name == c.casName && EndsWith(devices[j].name, "_cassette") && devices[j].components == c.comps
  {
    if |devices| > 0 {
      var init := devices[..|devices| - 1];
      GateCassettesComps(init);
      var p := GateCassettes(init);
      var r := GateCassettes(devices);
      forall i | 0 <= i < |r|
        ensures r[i].comps == [] ||
          exists j :: 0 <= j < |devices| && devices[j].name == r[i].casName && EndsWith(devices[j].name, "_cassette") && devices[j].components == r[i].comps
      {
        if i < |p| && r[i].comps == p[i].comps && r[i].casName == p[i].casName && p[i].comps != [] {
          var j :| 0 <= j < |init| && init[j].name == p[i].casName && EndsWith(init[j].name, "_cassette") && init[j].components == p[i].comps;
          assert devices[j] == init[j];
        } else if r[i].comps != [] {
          assert devices[|devices| - 1].name == r[i].casName;
        }
      }
    }
  }

  // ---------------------------------------------------------------------
  // Outputs: cassettes from the devices of an output structure
  // ---------------------------------------------------------------------

  /** An output component that names a cassette: not `#in`, containing `_cassette`. */
  predicate IsOutCassette(c: string)
  {
    !StartsWith(c, "#in") && ContainsStr(c, "_cassette")
  }

  /** The last component naming a cassette, or `""`. */
  function OutCasName(comps: seq<string>): string
  {
    if |comps| == 0 then ""
    else if IsOutCassette(comps[|comps| - 1]) then comps[|comps| - 1]
    else OutCasName(comps[..|comps| - 1])
  }

  /** The components naming a cassette, each once, in order of first appearance. */
  function OutCasComps(comps: seq<string>): seq<string>
  {
    if |comps| == 0 then []
    else
      var p := OutCasComps(comps[..|comps| - 1]);
      var c := comps[|comps| - 1];
      if IsOutCassette(c) && c !in p then p + [c] else p
  }

  /** The device loop for an output structure: each device with an `#in` component becomes an entry. */
  function OutCassettes(devices: seq<Device>): seq<StructCassette>
  {
    if |devices| == 0 then []
    else
      var p := OutCassettes(devices[..|devices| - 1]);
      var d := devices[|devices| - 1];
      if InCount(d.components) > 0 then
        p + [StructCassette(d.name, OutCasName(d.components), InCount(d.components), OutCasComps(d.components))]
      else p
  }

  /** The devices that become output cassette entries, in order. */
  function OutEntries(devices: seq<Device>): seq<Device>
  {
    if |devices| == 0 then []
    else
      var d := devices[|devices| - 1];
      OutEntries(devices[..|devices| - 1]) + if InCount(d.components) > 0 then [d] else []
  }

  /** The cassette components of an output device are distinct and are exactly its cassette-naming components. */
  lemma {:induction false} OutCasCompsSpec(comps: seq<string>)
    ensures Distinct(OutCasComps(comps))
    ensures forall x :: x in OutCasComps(comps) <==> x in comps && IsOutCassette(x)
  {
    if |comps| > 0 {
      var init := comps[..|comps| - 1];
      OutCasCompsSpec(init);
      forall x
        ensures x in comps <==> x in init || x == comps[|comps| - 1]
      {
        assert comps == init + [comps[|comps| - 1]];
      }
    }
  }

  /** An output device becomes an entry exactly when it has an `#in` component, with its count, name and components. */
  lemma {:induction false} OutCassettesEntries(devices: seq<Device>)
    ensures |OutCassettes(devices)| == |OutEntries(devices)|
    ensures forall i :: 0 <= i < |OutEntries(devices)| ==>
      var e := OutEntries(devices)[i];
      OutCassettes(devices)[i] == StructCassette(e.name, OutCasName(e.components), InCount(e.components), OutCasComps(e.components))
      && InCount(e.components) > 0
  {
    if |devices| > 0 {
      OutCassettesEntries(devices[..|devices| - 1]);
    }
  }

  // ---------------------------------------------------------------------
  // Gates and outputs: type, model, structure, color and cassettes
  // ---------------------------------------------------------------------

  function LastGateDevice(gates: seq<GateDevice>, k: string): Option<GateDevice>
  {
    if |gates| == 0 then None
    else if gates[|gates| - 1].name == k then Some(gates[|gates| - 1])
    else LastGateDevice(gates[..|gates| - 1], k)
  }

  function LastGateStructure(structures: seq<GateStructure>, name: string): Option<GateStructure>
  {
    if |structures| == 0 then None
    else if structures[|structures| - 1].name == name then Some(structures[|structures| - 1])
    else LastGateStructure(structures[..|structures| - 1], name)
  }

  /** The structure loop for a gate: outputs and cassettes from each structure named `v.gates_struct`. */
  function GateFromStructures(v: EugeneStruct, structures: seq<GateStructure>): EugeneStruct
  {
    if |structures| == 0 then v
    else
      var p := GateFromStructures(v, structures[..|structures| - 1]);
      var st := structures[|structures| - 1];
      if v.gatesStruct == st.name then p.(outputs := st.outputs, structCassettes := GateCassettes(st.devices)) else p
  }

  /** The gate-device loop for the struct under key `k`. */
  function AsGate(k: string, v: EugeneStruct, gates: seq<GateDevice>, structures: seq<GateStructure>): EugeneStruct
  {
    if |gates| == 0 then v
    else
      var p := AsGate(k, v, gates[..|gates| - 1], structures);
      var g := gates[|gates| - 1];
      if k == g.name then
        GateFromStructures(p.(kind := "gate", gatesModel := g.model, gatesStruct := g.structure, color := g.color), structures)
      else p
  }

  lemma {:induction false} GateFromStructuresSpec(v: EugeneStruct, structures: seq<GateStructure>)
    ensures var r := GateFromStructures(v, structures);
      r == v.(outputs := r.outputs, structCassettes := r.structCassettes)
    ensures LastGateStructure(structures, v.gatesStruct).None? ==> GateFromStructures(v, structures) == v
    ensures LastGateStructure(structures, v.gatesStruct).Some? ==>
      var st := LastGateStructure(structures, v.gatesStruct).value;
      GateFromStructures(v, structures) == v.(outputs := st.outputs, structCassettes := GateCassettes(st.devices))
  {
    if |structures| > 0 {
      GateFromStructuresSpec(v, structures[..|structures| - 1]);
    }
  }

  /**
   * A struct whose key names no gate device is unchanged.  Otherwise it
   * becomes a gate with the model, structure and color of the last gate
   * device of that name and, when a structure has that structure name, the
   * outputs and cassettes of the last such structure.
   */
  lemma {:induction false} AsGateSpec(k: string, v: EugeneStruct, gates: seq<GateDevice>, structures: seq<GateStructure>)
    ensures LastGateDevice(gates, k).None? ==> AsGate(k, v, gates, structures) == v
    ensures LastGateDevice(gates, k).Some? ==>
      var g := LastGateDevice(gates, k).value;
      var r := AsGate(k, v, gates, structures);
      && r == v.(kind := "gate", gatesModel := g.model, gatesStruct := g.structure, color := g.color,
                 outputs := r.outputs, structCassettes := r.structCassettes)
      && (LastGateStructure(structures, g.structure).Some? ==>
            var st := LastGateStructure(structures, g.structure).value;
            r.outputs == st.outputs && r.structCassettes == GateCassettes(st.devices))
  {
    if |gates| > 0 {
      var p := AsGate(k, v, gates[..|gates| - 1], structures);
      var g := gates[|gates| - 1];
      AsGateSpec(k, v, gates[..|gates| - 1], structures);
      if k == g.name {
        GateFromStructuresSpec(p.(kind := "gate", gatesModel := g.model, gatesStruct := g.structure, color := g.color), structures);
      }
    }
  }

  function LastOutDevice(outs: seq<OutDevice>, k: string): Option<OutDevice>
  {
    if |outs| == 0 then None
    else if outs[|outs| - 1].name == k then Some(outs[|outs| - 1])
    else LastOutDevice(outs[..|outs| - 1], k)
  }

  function LastOutStructure(structures: seq<OutStructure>, name: string): Option<OutStructure>
  {
    if |structures| == 0 then None
    else if structures[|structures| - 1].name == name then Some(structures[|structures| - 1])
    else LastOutStructure(structures[..|structures| - 1], name)
  }

  /** The structure loop for an output: cassettes from each structure named `v.gates_struct`; outputs are untouched. */
  function OutFromStructures(v: EugeneStruct, structures: seq<OutStructure>): EugeneStruct
  {
    if |structures| == 0 then v
    else
      var p := OutFromStructures(v, structures[..|structures| - 1]);
      var st := structures[|structures| - 1];
      if v.gatesStruct == st.name then p.(structCassettes := OutCassettes(st.devices)) else p
  }

  /** The output-device loop for the struct under key `k`. */
  function AsOutput(k: string, v: EugeneStruct, outs: seq<OutDevice>, structures: seq<OutStructure>): EugeneStruct
  {
    if |outs| == 0 then v
    else
      var p := AsOutput(k, v, outs[..|outs| - 1], structures);
      var o := outs[|outs| - 1];
      if k == o.name then OutFromStructures(p.(kind := "output", gatesModel := o.model, gatesStruct := o.structure), structures)
      else p
  }

  lemma {:induction false} OutFromStructuresSpec(v: EugeneStruct, structures: seq<OutStructure>)
    ensures var r := OutFromStructures(v, structures);
      r == v.(structCassettes := r.structCassettes)
    ensures LastOutStructure(structures, v.gatesStruct).None? ==> OutFromStructures(v, structures) == v
    ensures LastOutStructure(structures, v.gatesStruct).Some? ==>
      OutFromStructures(v, structures) ==
        v.(structCassettes := OutCassettes(LastOutStructure(structures, v.gatesStruct).value.devices))
  {
    if |structures| > 0 {
      OutFromStructuresSpec(v, structures[..|structures| - 1]);
    }
  }

  /**
   * A struct whose key names no output device is unchanged.  Otherwise it
   * becomes an output with the model and structure of the last output
   * device of that name and the cassettes of the last structure of that
   * structure name; its outputs are never set.
   */
  lemma {:induction false} AsOutputSpec(k: string, v: EugeneStruct, outs: seq<OutDevice>, structures: seq<OutStructure>)
    ensures LastOutDevice(outs, k).None? ==> AsOutput(k, v, outs, structures) == v
    ensures LastOutDevice(outs, k).Some? ==>
      var o := LastOutDevice(outs, k).value;
      var r := AsOutput(k, v, outs, structures);
      && r == v.(kind := "output", gatesModel := o.model, gatesStruct := o.structure, structCassettes := r.structCassettes)
      && (LastOutStructure(structures, o.structure).Some? ==>
            r.structCassettes == OutCassettes(LastOutStructure(structures, o.structure).value.devices))
  {
    if |outs| > 0 {
      var p := AsOutput(k, v, outs[..|outs| - 1], structures);
      var o := outs[|outs| - 1];
      AsOutputSpec(k, v, outs[..|outs| - 1], structures);
      if k == o.name {
        OutFromStructuresSpec(p.(kind := "output", gatesModel := o.model, gatesStruct := o.structure), structures);
      }
    }
  }

  // ---------------------------------------------------------------------
  // The loops, on one struct
  // ---------------------------------------------------------------------

  /** The device loop of a gate structure, building the local `cassettes` list. */
  method BuildGateCassettes(devices: seq<Device>) returns (cassettes: seq<StructCassette>)
    ensures cassettes == GateCassettes(devices)
  {
    cassettes := [];
    for j := 0 to |devices|
      invariant cassettes == GateCassettes(devices[..j])
    {
      var d := devices[j];
      assert devices[..j + 1][..j] == devices[..j];
      if EndsWith(d.name, "_cassette") {
        var components := d.components;
        ghost var before := cassettes;
        for i := 0 to |cassettes|
          invariant |cassettes| == |before|
          invariant forall m :: 0 <= m < |before| ==>
            cassettes[m] == if m < i && before[m].casName == d.name then before[m].(comps := components) else before[m]
        {
          if cassettes[i].casName == d.name {
            cassettes := cassettes[i := cassettes[i].(comps := components)];
          }
        }
        assert cassettes == SetComps(before, d.name, components);
      } else {
        var cassette := StructCassette("", "", 0, []);
        for i := 0 to |d.components|
          invariant cassette == StructCassette("", CasName(d.components[..i]), InCount(d.components[..i]), [])
        {
          var c := d.components[i];
          assert d.components[..i + 1][..i] == d.components[..i];
          if StartsWith(c, "#in") {
            cassette := cassette.(inCount := cassette.inCount + 1);
          } else if EndsWith(c, "_cassette") {
            cassette := cassette.(casName := c);
          }
        }
        assert d.components[..|d.components|] == d.components;
        if cassette.inCount > 0 {
          cassette := cassette.(varName := d.name);
          cassettes := cassettes + [cassette];
        }
      }
    }
    assert devices[..|devices|] == devices;
  }

  /** The device loop of an output structure. */
  method BuildOutCassettes(devices: seq<Device>) returns (cassettes: seq<StructCassette>)
    ensures cassettes == OutCassettes(devices)
  {
    cassettes := [];
    for j := 0 to |devices|
      invariant cassettes == OutCassettes(devices[..j])
    {
      var d := devices[j];
      assert devices[..j + 1][..j] == devices[..j];
      var cassette := StructCassette("", "", 0, []);
      for i := 0 to |d.components|
        invariant cassette == StructCassette("", OutCasName(d.components[..i]), InCount(d.components[..i]), OutCasComps(d.components[..i]))
      {
        var c := d.components[i];
        assert d.components[..i + 1][..i] == d.components[..i];
        if StartsWith(c, "#in") {
          cassette := cassette.(inCount := cassette.inCount + 1);
        } else if ContainsStr(c, "_cassette") {
          cassette := cassette.(casName := c);
          if c !in cassette.comps {
            cassette := cassette.(comps := cassette.comps + [c]);
          }
        }
      }
      assert d.components[..|d.components|] == d.components;
      if cassette.inCount > 0 {
        cassette := cassette.(varName := d.name);
        cassettes := cassettes + [cassette];
      }
    }
    assert devices[..|devices|] == devices;
  }

  /** The sensor loop, with its structure loop, for the struct `v` under key `k`. */
  method EnrichInput(k: string, v: EugeneStruct, sensors: seq<InSensor>, structures: seq<InStructure>) returns (r: EugeneStruct)
    ensures r == AsInput(k, v, sensors, structures)
  {
    r := v;
    for i := 0 to |sensors|
      invariant r == AsInput(k, v, sensors[..i], structures)
    {
      var s := sensors[i];
      assert sensors[..i + 1][..i] == sensors[..i];
      if k == s.name {
        r := r.(kind := "input", gatesModel := s.model, gatesStruct := s.structure);
        ghost var base := r;
        for j := 0 to |structures|
          invariant r == InOutputs(base, structures[..j])
          invariant r.gatesStruct == base.gatesStruct
        {
          assert structures[..j + 1][..j] == structures[..j];
          if r.gatesStruct == structures[j].name {
            r := r.(outputs := structures[j].outputs);
          }
        }
        assert structures[..|structures|] == structures;
      }
    }
    assert sensors[..|sensors|] == sensors;
  }

  /** The gate-device loop, with its structure and device loops, for the struct `v` under key `k`. */
  method EnrichGate(k: string, v: EugeneStruct, gates: seq<GateDevice>, structures: seq<GateStructure>) returns (r: EugeneStruct)
    ensures r == AsGate(k, v, gates, structures)
  {
    r := v;
    for i := 0 to |gates|
      invariant r == AsGate(k, v, gates[..i], structures)
    {
      var g := gates[i];
      assert gates[..i + 1][..i] == gates[..i];
      if k == g.name {
        r := r.(kind := "gate", gatesModel := g.model, gatesStruct := g.structure, color := g.color);
        ghost var base := r;
        for j := 0 to |structures|
          invariant r == GateFromStructures(base, structures[..j])
          invariant r.gatesStruct == base.gatesStruct
        {
          assert structures[..j + 1][..j] == structures[..j];
          if r.gatesStruct == structures[j].name {
            var cassettes := BuildGateCassettes(structures[j].devices);
            r := r.(outputs := structures[j].outputs, structCassettes := cassettes);
          }
        }
        assert structures[..|structures|] == structures;
      }
    }
    assert gates[..|gates|] == gates;
  }

  /** The output-device loop, with its structure and device loops, for the struct `v` under key `k`. */
  method EnrichOutput(k: string, v: EugeneStruct, outs: seq<OutDevice>, structures: seq<OutStructure>) returns (r: EugeneStruct)
    ensures r == AsOutput(k, v, outs, structures)
  {
    r := v;
    for i := 0 to |outs|
      invariant r == AsOutput(k, v, outs[..i], structures)
    {
      var o := outs[i];
      assert outs[..i + 1][..i] == outs[..i];
      if k == o.name {
        r := r.(kind := "output", gatesModel := o.model, gatesStruct := o.structure);
        ghost var base := r;
        for j := 0 to |structures|
          invariant r == OutFromStructures(base, structures[..j])
          invariant r.gatesStruct == base.gatesStruct
        {
          assert structures[..j + 1][..j] == structures[..j];
          if r.gatesStruct == structures[j].name {
            var cassettes := BuildOutCassettes(structures[j].devices);
            r := r.(structCassettes := cassettes);
          }
        }
        assert structures[..|structures|] == structures;
      }
    }
    assert outs[..|outs|] == outs;
  }

  // ---------------------------------------------------------------------
  // The loops over the structs dict
  // ---------------------------------------------------------------------

  /** `for edge in val: if edge not in structs_dict.keys(): ...`. */
  method AddMissingLoop(d: Structs, names: seq<string>) returns (d': Structs)
    ensures d' == AddMissing(d, names)
  {
    d' := d;
    for j := 0 to |names|
      invariant d' == AddMissing(d, names[..j])
    {
      assert names[..j + 1][..j] == names[..j];
      if names[j] !in Keys(d') {
        d' := Put(d', names[j], Blank(names[j]));
      }
    }
    assert names[..|names|] == names;
  }

  /** The loop over `edges.items()` that adds each name with its inputs, then its sources. */
  method AddStructs(d: Structs, edges: Edges) returns (d': Structs)
    ensures d' == StructsFrom(d, edges)
  {
    d' := d;
    for i := 0 to |edges|
      invariant d' == StructsFrom(d, edges[..i])
    {
      assert edges[..i + 1][..i] == edges[..i];
      var (key, val) := edges[i];
      d' := Put(d', key, Blank(key).(inputs := val));
      d' := AddMissingLoop(d', val);
    }
    assert edges[..|edges|] == edges;
  }

  /** `for id_, g in self.gate_map: self.structs_dict[g.gate_in_use].gates_group = g.gate_id`. */
  method SetGateGroups(d: Structs, gates: seq<GateBinding>) returns (r: Result<Structs>)
    ensures r == SetGroups(d, gates)
  {
    var acc := d;
    for i := 0 to |gates|
      invariant SetGroups(d, gates[..i]) == Ok(acc)
    {
      assert gates[..i + 1][..i] == gates[..i];
      var v := Get(acc, gates[i].gateInUse);
      if v.None? {
        SetGroupsErrStays(d, gates, i + 1);
        return Err(KeyError);
      }
      acc := Put(acc, gates[i].gateInUse, v.value.(gatesGroup := gates[i].gateId));
    }
    assert gates[..|gates|] == gates;
    return Ok(acc);
  }

  /** Each struct replaced by `f(key, struct)`, keys in place: a loop over `structs_dict.items()` that updates each struct. */
  function MapStructs(d: Structs, f: (string, EugeneStruct) -> EugeneStruct): Structs
  {
    if |d| == 0 then [] else [(d[0].0, f(d[0].0, d[0].1))] + MapStructs(d[1..], f)
  }

  /** Entry by entry, the keys stay and each struct becomes its image. */
  lemma {:induction false} MapStructsAt(d: Structs, f: (string, EugeneStruct) -> EugeneStruct)
    ensures |MapStructs(d, f)| == |d|
    ensures forall i :: 0 <= i < |d| ==> MapStructs(d, f)[i] == (d[i].0, f(d[i].0, d[i].1))
  {
    if |d| > 0 {
      MapStructsAt(d[1..], f);
    }
  }

  /** Looking a key up after the loop gives the image of what it held before. */
  lemma {:induction false} MapStructsGet(d: Structs, f: (string, EugeneStruct) -> EugeneStruct, k: string)
    ensures Get(MapStructs(d, f), k) == match Get(d, k) case None => None case Some(v) => Some(f(k, v))
  {
    if |d| > 0 {
      MapStructsGet(d[1..], f, k);
    }
  }

  /** The loop over `structs_dict.items()` that completes the input structs. */
  method EnrichInputs(d: Structs, sensors: seq<InSensor>, structures: seq<InStructure>) returns (d': Structs)
    ensures d' == MapStructs(d, (k, v) => AsInput(k, v, sensors, structures))
  {
    ghost var f := (k, v) => AsInput(k, v, sensors, structures);
    d' := d;
    for i := 0 to |d|
      invariant |d'| == |d|
      invariant forall j :: 0 <= j < i ==> d'[j] == (d[j].0, f(d[j].0, d[j].1))
      invariant forall j :: i <= j < |d| ==> d'[j] == d[j]
    {
      var (k, v) := d'[i];
      var w := EnrichInput(k, v, sensors, structures);
      d' := d'[i := (k, w)];
    }
    MapStructsAt(d, f);
  }

  /** The loop over `structs_dict.items()` that completes the gate structs. */
  method EnrichGates(d: Structs, gates: seq<GateDevice>, structures: seq<GateStructure>) returns (d': Structs)
    ensures d' == MapStructs(d, (k, v) => AsGate(k, v, gates, structures))
  {
    ghost var f := (k, v) => AsGate(k, v, gates, structures);
    d' := d;
    for i := 0 to |d|
      invariant |d'| == |d|
      invariant forall j :: 0 <= j < i ==> d'[j] == (d[j].0, f(d[j].0, d[j].1))
      invariant forall j :: i <= j < |d| ==> d'[j] == d[j]
    {
      var (k, v) := d'[i];
      var w := EnrichGate(k, v, gates, structures);
      d' := d'[i := (k, w)];
    }
    MapStructsAt(d, f);
  }

  /** The loop over `structs_dict.items()` that completes the output structs. */
  method EnrichOutputs(d: Structs, outs: seq<OutDevice>, structures: seq<OutStructure>) returns (d': Structs)
    ensures d' == MapStructs(d, (k, v) => AsOutput(k, v, outs, structures))
  {
    ghost var f := (k, v) => AsOutput(k, v, outs, structures);
    d' := d;
    for i := 0 to |d|
      invariant |d'| == |d|
      invariant forall j :: 0 <= j < i ==> d'[j] == (d[j].0, f(d[j].0, d[j].1))
      invariant forall j :: i <= j < |d| ==> d'[j] == d[j]
    {
      var (k, v) := d'[i];
      var w := EnrichOutput(k, v, outs, structures);
      d' := d'[i := (k, w)];
    }
    MapStructsAt(d, f);
  }
}
