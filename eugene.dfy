/**
 * `EugeneObject` (`utils/eugene.py`): the object that collects what the
 * Eugene file needs from the UCF and the final circuit, in three passes,
 * and then writes the file.
 */
module Eugene {
  import opened Wrappers
  import opened PyStr
  import opened Dict
  import opened Json
  import opened EugeneEdges
  import opened EugeneStructs
  import opened EugeneCassettes
  import opened EugeneHelpers
  import opened EugeneWrite

  /**
   * The UCF collections the object queries, read once: the `input_sensors`,
   * `structures` and `parts` of the input file; the `gates`, `structures`,
   * `parts`, `genetic_locations`, `device_rules` and `circuit_rules` of the
   * main file; the `output_devices`, `structures` and `parts` of the output
   * file.
   */
  datatype Library = Library(
    inSensors: seq<InSensor>,
    inStructures: seq<InStructure>,
    inParts: seq<UcfPart>,
    gates: seq<GateDevice>,
    gateStructures: seq<GateStructure>,
    mainParts: seq<UcfPart>,
    genLocs: seq<Value>,
    deviceRules: seq<Value>,
    circuitRules: seq<Value>,
    outDevices: seq<OutDevice>,
    outStructures: seq<OutStructure>,
    outParts: seq<UcfPart>)

  // ---------------------------------------------------------------------
  // The passes, as functions of the state before them
  // ---------------------------------------------------------------------

  /** The three enrichment loops: inputs, then gates, then outputs. */
  function Enriched(d: Structs, lib: Library): Structs
  {
    var d1 := MapStructs(d, (k, v) => AsInput(k, v, lib.inSensors, lib.inStructures));
    var d2 := MapStructs(d1, (k, v) => AsGate(k, v, lib.gates, lib.gateStructures));
    MapStructs(d2, (k, v) => AsOutput(k, v, lib.outDevices, lib.outStructures))
  }

  /** `generate_eugene_structs` on the structs dict `d`. */
  function StructsPass(d: Structs, lib: Library, inMap: seq<InBinding>, gateMap: seq<GateBinding>, outMap: seq<OutBinding>): Result<Structs>
  {
    match SetGroups(StructsFrom(d, EdgesOf(inMap, gateMap, outMap)), gateMap)
    case Err(e) => Err(e)
    case Ok(g) => Ok(Enriched(g, lib))
  }

  /** The group a struct gets: the last gate using the name, or the one it had. */
  function GroupOf(gateMap: seq<GateBinding>, k: string, v: EugeneStruct): EugeneStruct
  {
    if k in GateNames(gateMap) then v.(gatesGroup := LastGroup(gateMap, k)) else v
  }

  /**
   * The structs pass never fails; it keeps the names the edges give, and
   * each name's struct is the one the edges give it, with its gate group,
   * then completed as an input, a gate and an output in turn.
   */
  lemma StructsPassSpec(d: Structs, lib: Library, inMap: seq<InBinding>, gateMap: seq<GateBinding>, outMap: seq<OutBinding>, k: string)
    ensures StructsPass(d, lib, inMap, gateMap, outMap).Ok?
    ensures var base := StructsFrom(d, EdgesOf(inMap, gateMap, outMap));
      Get(StructsPass(d, lib, inMap, gateMap, outMap).value, k) ==
        match Get(base, k)
        case None => None
        case Some(v) =>
          var g := GroupOf(gateMap, k, v);
          var i := AsInput(k, g, lib.inSensors, lib.inStructures);
          var t := AsGate(k, i, lib.gates, lib.gateStructures);
          Some(AsOutput(k, t, lib.outDevices, lib.outStructures))
  {
    var base := StructsFrom(d, EdgesOf(inMap, gateMap, outMap));
    GroupsNeverFail(d, inMap, gateMap, outMap);
    SetGroupsGet(base, gateMap, k);
    var g := SetGroups(base, gateMap).value;
    var f1 := (k, v) => AsInput(k, v, lib.inSensors, lib.inStructures);
    var f2 := (k, v) => AsGate(k, v, lib.gates, lib.gateStructures);
    var f3 := (k, v) => AsOutput(k, v, lib.outDevices, lib.outStructures);
    var d1 := MapStructs(g, f1);
    var d2 := MapStructs(d1, f2);
    MapStructsGet(g, f1, k);
    MapStructsGet(d1, f2, k);
    MapStructsGet(d2, f3, k);
  }

  /** The three `parts` loops, with the names the structs mention. */
  function PartsPass(st: PartState, lib: Library, n: PartNames): PartState
  {
    KeepParts(KeepParts(KeepParts(st, lib.inParts, n.ins), lib.mainParts, n.mains), lib.outParts, n.outs)
  }

  /**
   * `parts_types` keeps its old entries in front, never repeats a type, and
   * gains exactly the types of the kept parts of the three files.
   */
  lemma PartsPassTypes(st: PartState, lib: Library, n: PartNames)
    requires Distinct(st.types)
    ensures var ts := PartsPass(st, lib, n).types;
      && Distinct(ts)
      && |st.types| <= |ts| && ts[..|st.types|] == st.types
      && forall t :: t in ts <==>
        || t in st.types
        || (exists i :: 0 <= i < |lib.inParts| && Kept(lib.inParts[i], n.ins) && lib.inParts[i].partType == t)
        || (exists i :: 0 <= i < |lib.mainParts| && Kept(lib.mainParts[i], n.mains) && lib.mainParts[i].partType == t)
        || (exists i :: 0 <= i < |lib.outParts| && Kept(lib.outParts[i], n.outs) && lib.outParts[i].partType == t)
  {
    var s1 := KeepParts(st, lib.inParts, n.ins);
    var s2 := KeepParts(s1, lib.mainParts, n.mains);
    KeepPartsTypes(st, lib.inParts, n.ins);
    KeepPartsTypes(s1, lib.mainParts, n.mains);
    KeepPartsTypes(s2, lib.outParts, n.outs);
    var ts := PartsPass(st, lib, n).types;
    assert ts[..|st.types|] == s1.types[..|st.types|] by {
      assert ts[..|s1.types|] == s1.types;
      assert s2.types[..|s1.types|] == s1.types;
    }
  }

  /**
   * After the three loops a part name is in the dict exactly when it was
   * before or some file has a part of that name that is mentioned by the
   * structs of that file or is a scar.
   */
  lemma PartsPassKeys(st: PartState, lib: Library, n: PartNames, x: string)
    ensures x in Keys(PartsPass(st, lib, n).parts) <==>
      || x in Keys(st.parts)
      || (exists i :: 0 <= i < |lib.inParts| && lib.inParts[i].name == x && (x in n.ins || lib.inParts[i].partType == "scar"))
      || (exists i :: 0 <= i < |lib.mainParts| && lib.mainParts[i].name == x && (x in n.mains || lib.mainParts[i].partType == "scar"))
      || (exists i :: 0 <= i < |lib.outParts| && lib.outParts[i].name == x && (x in n.outs || lib.outParts[i].partType == "scar"))
  {
    var s1 := KeepParts(st, lib.inParts, n.ins);
    var s2 := KeepParts(s1, lib.mainParts, n.mains);
    KeepPartsKeys(st, lib.inParts, n.ins, x);
    KeepPartsKeys(s1, lib.mainParts, n.mains, x);
    KeepPartsKeys(s2, lib.outParts, n.outs, x);
  }

  // ---------------------------------------------------------------------
  // The object
  // ---------------------------------------------------------------------

  class EugeneObject {
    const ucf: Library
    const inMap: seq<InBinding>
    const gateMap: seq<GateBinding>
    const outMap: seq<OutBinding>

    /** `structs_dict`: name of each input, gate and output to its struct. */
    var structsDict: Structs
    /** `parts_seq_dict`: part name to its sequence record. */
    var partsSeqDict: Parts
    /** `structs_cas_dict`: device variant name to its cassette. */
    var structsCasDict: Cassettes
    var partsTypes: seq<string>
    /** The fencepost symbols, as the UCF gives them. */
    var genlocsFenceposts: seq<Value>
    var devRulesOperands: Dict<string, seq<string>>
    var cirRulesOperands: Dict<string, seq<string>>

    constructor(ucf: Library, inMap: seq<InBinding>, gateMap: seq<GateBinding>, outMap: seq<OutBinding>)
      ensures this.ucf == ucf && this.inMap == inMap && this.gateMap == gateMap && this.outMap == outMap
      ensures structsDict == [] && partsSeqDict == [] && structsCasDict == []
      ensures partsTypes == ["spacer", "scar"]
      ensures genlocsFenceposts == [] && devRulesOperands == [] && cirRulesOperands == []
    {
      this.ucf := ucf;
      this.inMap := inMap;
      this.gateMap := gateMap;
      this.outMap := outMap;
      structsDict := [];
      partsSeqDict := [];
      structsCasDict := [];
      partsTypes := ["spacer", "scar"];
      genlocsFenceposts := [];
      devRulesOperands := [];
      cirRulesOperands := [];
    }

    /** `generate_eugene_structs`: only the structs dict changes. */
    method GenerateEugeneStructs() returns (r: Result<bool>)
      modifies this
      ensures r == (match StructsPass(old(structsDict), ucf, inMap, gateMap, outMap) case Ok(_) => Ok(true) case Err(e) => Err(e))
      ensures r.Ok? ==> structsDict == StructsPass(old(structsDict), ucf, inMap, gateMap, outMap).value
      ensures partsSeqDict == old(partsSeqDict) && structsCasDict == old(structsCasDict) && partsTypes == old(partsTypes)
      ensures genlocsFenceposts == old(genlocsFenceposts)
      ensures devRulesOperands == old(devRulesOperands) && cirRulesOperands == old(cirRulesOperands)
    {
      var edges := BuildEdges(inMap, gateMap, outMap);
      var d := AddStructs(structsDict, edges);
      var grouped := SetGateGroups(d, gateMap);
      if grouped.Err? {
        return Err(grouped.error);
      }
      d := EnrichInputs(grouped.value, ucf.inSensors, ucf.inStructures);
      d := EnrichGates(d, ucf.gates, ucf.gateStructures);
      d := EnrichOutputs(d, ucf.outDevices, ucf.outStructures);
      structsDict := d;
      return Ok(true);
    }

    /**
     * `generate_eugene_cassettes`: the three `parts` loops always run; the
     * cassettes are added unless some placed input has no struct or no
     * output.
     */
    method GenerateEugeneCassettes() returns (r: Result<(Structs, Cassettes, Parts)>)
      modifies this
      ensures PartState(partsTypes, partsSeqDict) == PartsPass(old(PartState(partsTypes, partsSeqDict)), ucf, Collect(Values(structsDict)))
      ensures r.Ok? <==> CassettesOf(structsDict, Values(structsDict)).Ok?
      ensures r.Ok? ==> structsCasDict == PutAll(old(structsCasDict), CassettesOf(structsDict, Values(structsDict)).value)
      ensures r.Ok? ==> r.value == (structsDict, structsCasDict, partsSeqDict)
      ensures r.Err? ==> r.error == CassettesOf(structsDict, Values(structsDict)).error
      ensures structsDict == old(structsDict) && genlocsFenceposts == old(genlocsFenceposts)
      ensures devRulesOperands == old(devRulesOperands) && cirRulesOperands == old(cirRulesOperands)
    {
      var names := CollectNames(Values(structsDict));
      var st := KeepLoop(PartState(partsTypes, partsSeqDict), ucf.inParts, names.ins);
      st := KeepLoop(st, ucf.mainParts, names.mains);
      st := KeepLoop(st, ucf.outParts, names.outs);
      partsTypes, partsSeqDict := st.types, st.parts;
      var cas := AllCassettes(structsCasDict, structsDict);
      if cas.Err? {
        return Err(cas.error);
      }
      structsCasDict := cas.value;
      return Ok((structsDict, structsCasDict, partsSeqDict));
    }

    /**
     * `generate_eugene_helpers`: the fenceposts, device rules and circuit
     * rules; the two operand dicts it returns are never filled.
     */
    method GenerateEugeneHelpers() returns (r: Result<(Dict<string, seq<string>>, Dict<string, seq<string>>)>)
      modifies this
      ensures var h := GenerateHelpers(old(HelperState(genlocsFenceposts, partsSeqDict, structsCasDict)), ucf.genLocs, ucf.deviceRules, ucf.circuitRules);
        && (r.Ok? <==> h.Ok?)
        && (r.Ok? ==> HelperState(genlocsFenceposts, partsSeqDict, structsCasDict) == h.value)
        && (r.Err? ==> r.error == h.error)
      ensures r.Ok? ==> r.value == (old(devRulesOperands), old(cirRulesOperands))
      ensures structsDict == old(structsDict) && partsTypes == old(partsTypes)
      ensures devRulesOperands == old(devRulesOperands) && cirRulesOperands == old(cirRulesOperands)
    {
      var syms := ReadFenceposts(ucf.genLocs);
      if syms.Err? {
        return Err(syms.error);
      }
      var fps := genlocsFenceposts + syms.value;
      if |ucf.deviceRules| == 0 || |ucf.circuitRules| == 0 {
        return Err(IndexError);
      }
      var parts := DeviceRulePass(partsSeqDict, ucf.deviceRules[0]);
      if parts.Err? {
        return Err(parts.error);
      }
      var cas := CircuitRulePass(structsCasDict, fps, ucf.circuitRules[0]);
      if cas.Err? {
        return Err(cas.error);
      }
      genlocsFenceposts, partsSeqDict, structsCasDict := fps, parts.value, cas.value;
      return Ok((devRulesOperands, cirRulesOperands));
    }

    /**
     * `write_eugene`: the writes to the Eugene file, in order, or the
     * KeyError of a cassette input that is not a part.  Fenceposts other
     * than strings, integers, booleans and `None` are shown by `repr`.
     */
    method WriteEugene(repr: Value -> string) returns (r: Result<seq<string>>)
      ensures r == EugeneChunks(partsTypes, partsSeqDict, genlocsFenceposts, structsCasDict, repr)
    {
      var out := WriteDeclarations([], partsTypes, partsSeqDict, genlocsFenceposts, structsCasDict, repr);
      var rules := WriteDeviceRules(out, partsSeqDict, structsCasDict);
      if rules.Err? {
        return Err(rules.error);
      }
      ghost var decl := Declarations(partsTypes, partsSeqDict, genlocsFenceposts, structsCasDict, repr);
      ghost var acc := decl + DeviceRuleBlock(partsSeqDict, structsCasDict).value;
      ConcatNil(decl);
      ConcatNil(acc);
      out := WriteProducts(rules.value, Keys(structsCasDict));
      ConcatAssoc3([], acc, Products(Keys(structsCasDict)));
      acc := acc + Products(Keys(structsCasDict));
      out := WriteCircuitRuleSection(out, structsCasDict);
      ConcatAssoc3([], acc, CircuitRuleSection(structsCasDict));
      acc := acc + CircuitRuleSection(structsCasDict);
      out := WriteLoopSection(out, structsCasDict, genlocsFenceposts, repr);
      ConcatAssoc3([], acc, LoopSection(structsCasDict, genlocsFenceposts, repr));
      acc := acc + LoopSection(structsCasDict, genlocsFenceposts, repr);
      return Ok(out);
    }
  }
}
