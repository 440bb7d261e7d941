/**
 * `EugeneObject.generate_eugene_cassettes` (`utils/eugene.py`), value
 * level: the part names the structs mention, the parts and part types
 * kept from the UCF's `parts` collections, and the cassettes built for
 * gates and outputs, with the circuit's inputs distributed over them.
 */
module EugeneCassettes {
  import opened Wrappers
  import opened PyStr
  import opened Dict
  import opened EugeneStructs

  /** `EugeneSequence`: a part to declare in the Eugene file. */
  datatype EugeneSequence = EugeneSequence(partsType: string, partsName: string, partsSequence: string, devRules: seq<string>, color: string)

  /** `EugeneCassette`: a device block of the Eugene file. */
  datatype EugeneCassette = EugeneCassette(
    structVarName: string,
    structCasName: string,
    kind: string,
    inputs: seq<string>,
    comps: seq<string>,
    outputs: seq<string>,
    color: string,
    cirRules: seq<string>)

  /** A `parts` record of a UCF file. */
  datatype UcfPart = UcfPart(name: string, partType: string, dnaSequence: string)

  type Parts = Dict<string, EugeneSequence>
  type Cassettes = Dict<string, EugeneCassette>

  // ---------------------------------------------------------------------
  // Part names mentioned by the structs
  // ---------------------------------------------------------------------

  /** The local lists `ins`, `mains` and `outs`. */
  datatype PartNames = PartNames(ins: seq<string>, mains: seq<string>, outs: seq<string>)

  /** The components of all cassette entries, in order. */
  function AllComps(cs: seq<StructCassette>): seq<string>
  {
    if |cs| == 0 then [] else AllComps(cs[..|cs| - 1]) + cs[|cs| - 1].comps
  }

  /** The part names a gate or output struct mentions: its cassettes' components, then its outputs. */
  function Mentioned(v: EugeneStruct): seq<string>
  {
    AllComps(v.structCassettes) + v.outputs
  }

  /** One struct of the loop over `structs_dict.values()`. */
  function CollectOne(n: PartNames, v: EugeneStruct): PartNames
  {
    var n1 := if v.kind == "input" then n.(ins := n.ins + v.outputs) else n;
    var n2 := if v.kind == "gate" then n1.(mains := n1.mains + Mentioned(v)) else n1;
    if v.kind == "output" then n2.(outs := n2.outs + Mentioned(v)) else n2
  }

  function Collect(vs: seq<EugeneStruct>): PartNames
  {
    if |vs| == 0 then PartNames([], [], []) else CollectOne(Collect(vs[..|vs| - 1]), vs[|vs| - 1])
  }

  lemma InConcat<T>(a: seq<T>, b: seq<T>, x: T)
    ensures x in a + b <==> x in a || x in b
  {
  }

  /**
   * `ins` holds the outputs of the input structs, `mains` the part names of
   * the gate structs, `outs` those of the output structs, and nothing else.
   */
  lemma {:induction false} CollectMember(vs: seq<EugeneStruct>, x: string)
    ensures x in Collect(vs).ins <==> exists i :: 0 <= i < |vs| && vs[i].kind == "input" && x in vs[i].outputs
    ensures x in Collect(vs).mains <==> exists i :: 0 <= i < |vs| && vs[i].kind == "gate" && x in Mentioned(vs[i])
    ensures x in Collect(vs).outs <==> exists i :: 0 <= i < |vs| && vs[i].kind == "output" && x in Mentioned(vs[i])
  {
    if |vs| > 0 {
      var init := vs[..|vs| - 1];
      var v := vs[|vs| - 1];
      var p := Collect(init);
      CollectMember(init, x);
      InConcat(p.ins, v.outputs, x);
      InConcat(p.mains, Mentioned(v), x);
      InConcat(p.outs, Mentioned(v), x);
      assert forall i :: 0 <= i < |init| ==> vs[i] == init[i];
    }
  }

  // ---------------------------------------------------------------------
  // Parts and part types
  // ---------------------------------------------------------------------

  /** The part types and parts dict, threaded through the three `parts` loops. */
  datatype PartState = PartState(types: seq<string>, parts: Parts)

  /** A part is kept when its name was collected or its type is `scar`. */
  predicate Kept(u: UcfPart, names: seq<string>)
  {
    u.name in names || u.partType == "scar"
  }

  /** The sequence record a kept part gets. */
  function SequenceOf(u: UcfPart): EugeneSequence
  {
    EugeneSequence(u.partType, u.name, u.dnaSequence, ["ALL_FORWARD"], "")
  }

  function KeepOne(st: PartState, u: UcfPart, names: seq<string>): PartState
  {
    if Kept(u, names) then
      PartState(if u.partType in st.types then st.types else st.types + [u.partType], Put(st.parts, u.name, SequenceOf(u)))
    else st
  }

  /** One of the three loops over a `parts` collection. */
  function KeepParts(st: PartState, ucf: seq<UcfPart>, names: seq<string>): PartState
  {
    if |ucf| == 0 then st else KeepOne(KeepParts(st, ucf[..|ucf| - 1], names), ucf[|ucf| - 1], names)
  }

  /** The last kept part named `x`. */
  function LastKept(ucf: seq<UcfPart>, names: seq<string>, x: string): Option<UcfPart>
  {
    if |ucf| == 0 then None
    else if ucf[|ucf| - 1].name == x && Kept(ucf[|ucf| - 1], names) then Some(ucf[|ucf| - 1])
    else LastKept(ucf[..|ucf| - 1], names, x)
  }

  /**
   * After a loop, a name maps to the record of the last kept part of that
   * name, or is left as it was when no kept part has that name.
   */
  lemma {:induction false} KeepPartsGet(st: PartState, ucf: seq<UcfPart>, names: seq<string>, x: string)
    ensures Get(KeepParts(st, ucf, names).parts, x) ==
      if LastKept(ucf, names, x).Some? then Some(SequenceOf(LastKept(ucf, names, x).value)) else Get(st.parts, x)
  {
    if |ucf| > 0 {
      var u := ucf[|ucf| - 1];
      var p := KeepParts(st, ucf[..|ucf| - 1], names);
      KeepPartsGet(st, ucf[..|ucf| - 1], names, x);
      if Kept(u, names) {
        GetPut(p.parts, u.name, SequenceOf(u), x);
      }
    }
  }

  /** A kept part of a given name exists exactly when some part of that name is kept. */
  lemma {:induction false} LastKeptSome(ucf: seq<UcfPart>, names: seq<string>, x: string)
    ensures LastKept(ucf, names, x).Some? <==> exists i :: 0 <= i < |ucf| && ucf[i].name == x && Kept(ucf[i], names)
    ensures LastKept(ucf, names, x).Some? ==> LastKept(ucf, names, x).value.name == x && Kept(LastKept(ucf, names, x).value, names)
  {
    if |ucf| > 0 {
      var init := ucf[..|ucf| - 1];
      LastKeptSome(init, names, x);
      assert forall i :: 0 <= i < |init| ==> ucf[i] == init[i];
    }
  }

  /** A part is in the dict after a loop iff it was before, or its name was collected, or its type is `scar`. */
  lemma KeepPartsKeys(st: PartState, ucf: seq<UcfPart>, names: seq<string>, x: string)
    ensures x in Keys(KeepParts(st, ucf, names).parts) <==>
      x in Keys(st.parts) || exists i :: 0 <= i < |ucf| && ucf[i].name == x && (x in names || ucf[i].partType == "scar")
  {
    KeepPartsGet(st, ucf, names, x);
    LastKeptSome(ucf, names, x);
  }

  /**
   * `parts_types` only grows at the end, gains each kept part's type, gains
   * nothing else, and never holds a type twice.
   */
  lemma {:induction false} KeepPartsTypes(st: PartState, ucf: seq<UcfPart>, names: seq<string>)
    requires Distinct(st.types)
    ensures Distinct(KeepParts(st, ucf, names).types)
    ensures |st.types| <= |KeepParts(st, ucf, names).types| && KeepParts(st, ucf, names).types[..|st.types|] == st.types
    ensures forall t :: t in KeepParts(st, ucf, names).types <==>
      t in st.types || exists i :: 0 <= i < |ucf| && Kept(ucf[i], names) && ucf[i].partType == t
  {
    if |ucf| > 0 {
      var init := ucf[..|ucf| - 1];
      var u := ucf[|ucf| - 1];
      KeepPartsTypes(st, init, names);
      var ts := KeepParts(st, init, names).types;
      assert forall i :: 0 <= i < |init| ==> ucf[i] == init[i];
      if Kept(u, names) && u.partType !in ts {
        assert (ts + [u.partType])[..|st.types|] == ts[..|st.types|];
        forall t
          ensures t in ts + [u.partType] <==> t in ts || t == u.partType
        {
          InConcat(ts, [u.partType], t);
        }
      }
    }
  }

  // ---------------------------------------------------------------------
  // Distributing a struct's inputs over its cassettes
  // ---------------------------------------------------------------------

  /** `self.structs_dict[name].outputs[0]`: KeyError for an unknown name, IndexError for empty outputs. */
  function OutputOf(structs: Structs, name: string): Result<string>
  {
    match Get(structs, name)
    case None => Err(KeyError)
    case Some(v) => if |v.outputs| == 0 then Err(IndexError) else Ok(v.outputs[0])
  }

  /** `OutputOf` for each name in turn, stopping at the first error. */
  function OutputsOf(structs: Structs, names: seq<string>): Result<seq<string>>
  {
    if |names| == 0 then Ok([])
    else
      match OutputsOf(structs, names[..|names| - 1])
      case Err(e) => Err(e)
      case Ok(outs) =>
        match OutputOf(structs, names[|names| - 1])
        case Err(e) => Err(e)
        case Ok(o) => Ok(outs + [o])
  }

  /** The outputs exist exactly when each name's does, and then they are those outputs, in order. */
  lemma OutputsOfSpec(structs: Structs, names: seq<string>)
    ensures OutputsOf(structs, names).Ok? <==> forall i :: 0 <= i < |names| ==> OutputOf(structs, names[i]).Ok?
    ensures OutputsOf(structs, names).Ok? ==>
      |OutputsOf(structs, names).value| == |names| &&
      forall i :: 0 <= i < |names| ==> OutputOf(structs, names[i]) == Ok(OutputsOf(structs, names).value[i])
  {
    OutputsOfFirstErr(structs, names);
    FirstErrSpec(OutputEach(structs, names));
  }

  /** The output of each name on its own, in order. */
  function OutputEach(structs: Structs, names: seq<string>): (r: seq<Result<string>>)
    ensures |r| == |names| && forall i :: 0 <= i < |names| ==> r[i] == OutputOf(structs, names[i])
  {
    seq(|names|, i requires 0 <= i < |names| => OutputOf(structs, names[i]))
  }

  lemma {:induction false} OutputsOfFirstErr(structs: Structs, names: seq<string>)
    ensures OutputsOf(structs, names) == FirstErr(OutputEach(structs, names))
  {
    if |names| > 0 {
      var init := names[..|names| - 1];
      OutputsOfFirstErr(structs, init);
      assert OutputEach(structs, names)[..|names| - 1] == OutputEach(structs, init);
    }
  }

  /** The cassette a struct's cassette entry becomes, with the given inputs. */
  function NewCassette(eu: EugeneStruct, c: StructCassette, inputs: seq<string>): EugeneCassette
  {
    EugeneCassette(c.varName, c.casName, eu.kind, inputs, c.comps, eu.outputs, eu.color, [])
  }

  function Min(a: int, b: int): int
  {
    if a <= b then a else b
  }

  /**
   * The cassette loop from entry `cs[0]` on, with `used` inputs already
   * placed: while inputs remain, each entry becomes a cassette taking up
   * to its `#in` count of the next inputs.
   */
  function RecordsFrom(structs: Structs, eu: EugeneStruct, cs: seq<StructCassette>, used: nat): Result<seq<EugeneCassette>>
    requires used <= |eu.inputs|
    decreases |cs|
  {
    if |cs| == 0 then Ok([])
    else if used < |eu.inputs| then
      var t := Min(cs[0].inCount, |eu.inputs| - used);
      match OutputsOf(structs, eu.inputs[used..used + t])
      case Err(e) => Err(e)
      case Ok(outs) =>
        match RecordsFrom(structs, eu, cs[1..], used + t)
        case Err(e) => Err(e)
        case Ok(rs) => Ok([NewCassette(eu, cs[0], outs)] + rs)
    else RecordsFrom(structs, eu, cs[1..], used)
  }

  /** The total `#in` count of the entries. */
  function SumIn(cs: seq<StructCassette>): nat
  {
    if |cs| == 0 then 0 else cs[0].inCount + SumIn(cs[1..])
  }

  /** The inputs of the cassettes, concatenated in order. */
  function Flat(rs: seq<EugeneCassette>): seq<string>
  {
    if |rs| == 0 then [] else rs[0].inputs + Flat(rs[1..])
  }

  lemma InitOfConcat<T>(a: seq<T>, b: seq<T>)
    requires |b| > 0
    ensures (a + b)[..|a + b| - 1] == a + b[..|b| - 1] && (a + b)[|a + b| - 1] == b[|b| - 1]
  {
  }

  lemma ConcatAssoc3<T>(x: seq<T>, y: seq<T>, z: seq<T>)
    ensures x + y + z == x + (y + z)
  {
  }

  lemma ConcatNil<T>(x: seq<T>)
    ensures x + [] == x && [] + x == x
  {
  }

  /** `OutputsOf` on a concatenation: the first error, or the two results joined. */
  lemma {:induction false} OutputsOfConcat(structs: Structs, a: seq<string>, b: seq<string>)
    ensures OutputsOf(structs, a + b) ==
      if OutputsOf(structs, a).Err? then OutputsOf(structs, a)
      else if OutputsOf(structs, b).Err? then OutputsOf(structs, b)
      else Ok(OutputsOf(structs, a).value + OutputsOf(structs, b).value)
  {
    if |b| == 0 {
      ConcatNil(a);
      if OutputsOf(structs, a).Ok? {
        ConcatNil(OutputsOf(structs, a).value);
      }
    } else {
      var binit := b[..|b| - 1];
      OutputsOfConcat(structs, a, binit);
      InitOfConcat(a, b);
      if OutputsOf(structs, a).Ok? && OutputsOf(structs, binit).Ok? && OutputOf(structs, b[|b| - 1]).Ok? {
        ConcatAssoc3(OutputsOf(structs, a).value, OutputsOf(structs, binit).value, [OutputOf(structs, b[|b| - 1]).value]);
      }
    }
  }

  lemma SliceConcat<T>(s: seq<T>, i: nat, j: nat, k: nat)
    requires i <= j <= k <= |s|
    ensures s[i..j] + s[j..k] == s[i..k]
  {
  }

  /** How many inputs a distribution from `used` on places: `min(len(inputs) - used, total #in count)`. */
  function PlacedCount(eu: EugeneStruct, cs: seq<StructCassette>, used: nat): nat
    requires used <= |eu.inputs|
  {
    Min(|eu.inputs| - used, SumIn(cs))
  }

  /** The inputs a distribution from `used` on places. */
  function Placed(eu: EugeneStruct, cs: seq<StructCassette>, used: nat): seq<string>
    requires used <= |eu.inputs|
  {
    eu.inputs[used..used + PlacedCount(eu, cs, used)]
  }

  /** Placing from entry `cs[0]` on splits the placed inputs into those of `cs[0]` and those of the rest. */
  lemma PlacedStep(eu: EugeneStruct, cs: seq<StructCassette>, used: nat, t: nat)
    requires used < |eu.inputs| && |cs| > 0 && t == Min(cs[0].inCount, |eu.inputs| - used)
    ensures PlacedCount(eu, cs, used) == t + PlacedCount(eu, cs[1..], used + t)
    ensures Placed(eu, cs, used) == eu.inputs[used..used + t] + Placed(eu, cs[1..], used + t)
  {
    assert PlacedCount(eu, cs, used) == t + PlacedCount(eu, cs[1..], used + t);
    SliceConcat(eu.inputs, used, used + t, used + PlacedCount(eu, cs, used));
  }

  lemma ConsParts<T>(x: T, s: seq<T>)
    ensures |[x] + s| == |s| + 1 && ([x] + s)[0] == x && ([x] + s)[1..] == s
  {
  }

  /** One step of the distribution at an entry when inputs remain. */
  lemma RecordsFromStep(structs: Structs, eu: EugeneStruct, cs: seq<StructCassette>, used: nat, t: nat)
    requires used < |eu.inputs| && |cs| > 0 && t == Min(cs[0].inCount, |eu.inputs| - used)
    ensures RecordsFrom(structs, eu, cs, used).Ok? <==>
      OutputsOf(structs, eu.inputs[used..used + t]).Ok? && RecordsFrom(structs, eu, cs[1..], used + t).Ok?
    ensures RecordsFrom(structs, eu, cs, used).Ok? ==>
      RecordsFrom(structs, eu, cs, used).value ==
        [NewCassette(eu, cs[0], OutputsOf(structs, eu.inputs[used..used + t]).value)] + RecordsFrom(structs, eu, cs[1..], used + t).value
  {
  }

  /** Once every input is placed, no entry gets a cassette. */
  lemma {:induction false} RecordsFromDone(structs: Structs, eu: EugeneStruct, cs: seq<StructCassette>)
    ensures RecordsFrom(structs, eu, cs, |eu.inputs|) == Ok([])
    decreases |cs|
  {
    if |cs| > 0 {
      RecordsFromDone(structs, eu, cs[1..]);
    }
  }

  /**
   * The distribution succeeds exactly when every input it places has a
   * struct with an output, and the cassettes' inputs, read in order, are
   * the first output of each placed input.
   */
  lemma {:induction false} DistributionInputs(structs: Structs, eu: EugeneStruct, cs: seq<StructCassette>, used: nat)
    requires used <= |eu.inputs|
    ensures RecordsFrom(structs, eu, cs, used).Ok? <==> OutputsOf(structs, Placed(eu, cs, used)).Ok?
    ensures RecordsFrom(structs, eu, cs, used).Ok? ==>
      OutputsOf(structs, Placed(eu, cs, used)) == Ok(Flat(RecordsFrom(structs, eu, cs, used).value))
    decreases |cs|
  {
    if |cs| == 0 || used == |eu.inputs| {
      RecordsFromDone(structs, eu, cs);
      assert Placed(eu, cs, used) == [];
    } else {
      var t := Min(cs[0].inCount, |eu.inputs| - used);
      var rest := cs[1..];
      DistributionInputs(structs, eu, rest, used + t);
      RecordsFromStep(structs, eu, cs, used, t);
      PlacedStep(eu, cs, used, t);
      OutputsOfConcat(structs, eu.inputs[used..used + t], Placed(eu, rest, used + t));
      if RecordsFrom(structs, eu, cs, used).Ok? {
        ConsParts(NewCassette(eu, cs[0], OutputsOf(structs, eu.inputs[used..used + t]).value), RecordsFrom(structs, eu, rest, used + t).value);
      }
    }
  }

  /** The first cassette of a successful step: from the first entry, with `t` inputs, followed by the rest. */
  lemma RecordsFromHead(structs: Structs, eu: EugeneStruct, cs: seq<StructCassette>, used: nat, t: nat, rs: seq<EugeneCassette>)
    requires used < |eu.inputs| && |cs| > 0 && t == Min(cs[0].inCount, |eu.inputs| - used)
    requires RecordsFrom(structs, eu, cs, used) == Ok(rs)
    ensures RecordsFrom(structs, eu, cs[1..], used + t).Ok?
    ensures |rs| > 0 && rs[1..] == RecordsFrom(structs, eu, cs[1..], used + t).value
    ensures rs[0] == NewCassette(eu, cs[0], rs[0].inputs) && |rs[0].inputs| == t
  {
    RecordsFromStep(structs, eu, cs, used, t);
    OutputsOfSpec(structs, eu.inputs[used..used + t]);
    ConsParts(NewCassette(eu, cs[0], OutputsOf(structs, eu.inputs[used..used + t]).value), RecordsFrom(structs, eu, cs[1..], used + t).value);
  }

  /**
   * There is at most one cassette per entry, there are cassettes only when
   * inputs remain, and entries are left without a cassette only once every
   * input is placed.
   */
  lemma {:induction false} DistributionLength(structs: Structs, eu: EugeneStruct, cs: seq<StructCassette>, used: nat, rs: seq<EugeneCassette>)
    requires used <= |eu.inputs|
    requires RecordsFrom(structs, eu, cs, used) == Ok(rs)
    ensures |rs| <= |cs|
    ensures |rs| > 0 ==> used < |eu.inputs|
    ensures |rs| < |cs| ==> used + PlacedCount(eu, cs, used) == |eu.inputs|
    decreases |cs|
  {
    if |cs| == 0 || used == |eu.inputs| {
      RecordsFromDone(structs, eu, cs);
    } else {
      var t := Min(cs[0].inCount, |eu.inputs| - used);
      RecordsFromStep(structs, eu, cs, used, t);
      DistributionLength(structs, eu, cs[1..], used + t, RecordsFrom(structs, eu, cs[1..], used + t).value);
      PlacedStep(eu, cs, used, t);
    }
  }

  /**
   * The `k`-th cassette comes from the `k`-th entry and gets at most that
   * entry's `#in` count of inputs, exactly that many unless it is the last.
   */
  lemma {:induction false} DistributionAt(structs: Structs, eu: EugeneStruct, cs: seq<StructCassette>, used: nat, rs: seq<EugeneCassette>, k: nat)
    requires used <= |eu.inputs|
    requires RecordsFrom(structs, eu, cs, used) == Ok(rs)
    requires k < |rs|
    ensures k < |cs| && rs[k] == NewCassette(eu, cs[k], rs[k].inputs) && |rs[k].inputs| <= cs[k].inCount
    ensures k < |rs| - 1 ==> |rs[k].inputs| == cs[k].inCount
    decreases k
  {
    if k == 0 {
      DistributionFirst(structs, eu, cs, used, rs);
    } else {
      DistributionLength(structs, eu, cs, used, rs);
      var t := Min(cs[0].inCount, |eu.inputs| - used);
      RecordsFromHead(structs, eu, cs, used, t, rs);
      DistributionAt(structs, eu, cs[1..], used + t, rs[1..], k - 1);
      assert rs[k] == rs[1..][k - 1];
    }
  }

  /** The first cassette comes from the first entry, with all of its `#in` count unless it is the last. */
  lemma DistributionFirst(structs: Structs, eu: EugeneStruct, cs: seq<StructCassette>, used: nat, rs: seq<EugeneCassette>)
    requires used <= |eu.inputs|
    requires RecordsFrom(structs, eu, cs, used) == Ok(rs)
    requires 0 < |rs|
    ensures 0 < |cs| && rs[0] == NewCassette(eu, cs[0], rs[0].inputs) && |rs[0].inputs| <= cs[0].inCount
    ensures 1 < |rs| ==> |rs[0].inputs| == cs[0].inCount
  {
    DistributionLength(structs, eu, cs, used, rs);
    var t := Min(cs[0].inCount, |eu.inputs| - used);
    RecordsFromHead(structs, eu, cs, used, t, rs);
    DistributionLength(structs, eu, cs[1..], used + t, rs[1..]);
  }

  /**
   * The cassettes come from the entries in order, one per entry, each
   * getting at most its entry's `#in` count of inputs, and every cassette
   * but the last getting exactly that many.
   */
  lemma DistributionShape(structs: Structs, eu: EugeneStruct, cs: seq<StructCassette>, used: nat, rs: seq<EugeneCassette>)
    requires used <= |eu.inputs|
    requires RecordsFrom(structs, eu, cs, used) == Ok(rs)
    ensures |rs| <= |cs|
    ensures forall k :: 0 <= k < |rs| ==> rs[k] == NewCassette(eu, cs[k], rs[k].inputs) && |rs[k].inputs| <= cs[k].inCount
    ensures forall k :: 0 <= k < |rs| - 1 ==> |rs[k].inputs| == cs[k].inCount
  {
    DistributionLength(structs, eu, cs, used, rs);
    forall k | 0 <= k < |rs|
      ensures rs[k] == NewCassette(eu, cs[k], rs[k].inputs) && |rs[k].inputs| <= cs[k].inCount
      ensures k < |rs| - 1 ==> |rs[k].inputs| == cs[k].inCount
    {
      DistributionAt(structs, eu, cs, used, rs, k);
    }
  }

  // ---------------------------------------------------------------------
  // All cassettes
  // ---------------------------------------------------------------------

  predicate HasCassettes(v: EugeneStruct)
  {
    v.kind == "gate" || v.kind == "output"
  }

  /** The cassettes built for the gate and output structs, in dict order; the first error stops the loop. */
  function CassettesOf(structs: Structs, vs: seq<EugeneStruct>): Result<seq<EugeneCassette>>
  {
    if |vs| == 0 then Ok([])
    else
      match CassettesOf(structs, vs[..|vs| - 1])
      case Err(e) => Err(e)
      case Ok(p) =>
        var v := vs[|vs| - 1];
        if HasCassettes(v) then
          match RecordsFrom(structs, v, v.structCassettes, 0)
          case Err(e) => Err(e)
          case Ok(rs) => Ok(p + rs)
        else Ok(p)
  }

  /** `structs_cas_dict[c.struct_var_name] = c` for each cassette in turn. */
  function PutAll(cas: Cassettes, rs: seq<EugeneCassette>): Cassettes
  {
    if |rs| == 0 then cas else Put(PutAll(cas, rs[..|rs| - 1]), rs[|rs| - 1].structVarName, rs[|rs| - 1])
  }

  /** The last cassette with variant name `k`. */
  function LastNamed(rs: seq<EugeneCassette>, k: string): Option<EugeneCassette>
  {
    if |rs| == 0 then None
    else if rs[|rs| - 1].structVarName == k then Some(rs[|rs| - 1])
    else LastNamed(rs[..|rs| - 1], k)
  }

  /** Under each variant name, the dict ends up holding the last cassette built with that name. */
  lemma {:induction false} PutAllGet(cas: Cassettes, rs: seq<EugeneCassette>, k: string)
    ensures Get(PutAll(cas, rs), k) == if LastNamed(rs, k).Some? then LastNamed(rs, k) else Get(cas, k)
  {
    if |rs| > 0 {
      var r := rs[|rs| - 1];
      PutAllGet(cas, rs[..|rs| - 1], k);
      GetPut(PutAll(cas, rs[..|rs| - 1]), r.structVarName, r, k);
    }
  }

  /** A cassette of a given name is found exactly when one was built, and it is one of them. */
  lemma {:induction false} LastNamedSome(rs: seq<EugeneCassette>, k: string)
    ensures LastNamed(rs, k).Some? <==> exists i :: 0 <= i < |rs| && rs[i].structVarName == k
    ensures LastNamed(rs, k).Some? ==> LastNamed(rs, k).value.structVarName == k && LastNamed(rs, k).value in rs
  {
    if |rs| > 0 {
      var init := rs[..|rs| - 1];
      LastNamedSome(init, k);
      assert forall i :: 0 <= i < |init| ==> rs[i] == init[i];
    }
  }

  // ---------------------------------------------------------------------
  // The loops
  // ---------------------------------------------------------------------

  /** `for c in v.struct_cassettes: xs.extend(c[3])`. */
  method ExtendComps(xs: seq<string>, cs: seq<StructCassette>) returns (ys: seq<string>)
    ensures ys == xs + AllComps(cs)
  {
    ys := xs;
    for j := 0 to |cs|
      invariant ys == xs + AllComps(cs[..j])
    {
      assert cs[..j + 1][..j] == cs[..j];
      ConcatAssoc3(xs, AllComps(cs[..j]), cs[j].comps);
      ys := ys + cs[j].comps;
    }
    assert cs[..|cs|] == cs;
  }

  /** The loop over `structs_dict.values()` filling `ins`, `mains` and `outs`. */
  method CollectNames(vs: seq<EugeneStruct>) returns (n: PartNames)
    ensures n == Collect(vs)
  {
    n := PartNames([], [], []);
    for i := 0 to |vs|
      invariant n == Collect(vs[..i])
    {
      var v := vs[i];
      assert vs[..i + 1][..i] == vs[..i];
      ghost var before := n;
      if v.kind == "input" {
        n := n.(ins := n.ins + v.outputs);
      }
      if v.kind == "gate" {
        var mains := ExtendComps(n.mains, v.structCassettes);
        ConcatAssoc3(n.mains, AllComps(v.structCassettes), v.outputs);
        n := n.(mains := mains + v.outputs);
      }
      if v.kind == "output" {
        var outs := ExtendComps(n.outs, v.structCassettes);
        ConcatAssoc3(n.outs, AllComps(v.structCassettes), v.outputs);
        n := n.(outs := outs + v.outputs);
      }
      assert n == CollectOne(before, v);
    }
    assert vs[..|vs|] == vs;
  }

  lemma {:induction false} OutputsOfErrKept(structs: Structs, names: seq<string>, n: nat)
    requires n <= |names| && OutputsOf(structs, names[..n]).Err?
    ensures OutputsOf(structs, names) == OutputsOf(structs, names[..n])
  {
    OutputsOfConcat(structs, names[..n], names[n..]);
    assert names[..n] + names[n..] == names;
  }

  /**
   * `for i in range(c[2]): if input_ < len(eu.inputs): ...`: the first
   * output of each input placed in one cassette, from input `start` on.
   */
  method PlaceInputs(structs: Structs, eu: EugeneStruct, inCount: nat, start: nat) returns (r: Result<seq<string>>, used: nat)
    requires start <= |eu.inputs|
    ensures used == start + Min(inCount, |eu.inputs| - start)
    ensures r == OutputsOf(structs, eu.inputs[start..used])
  {
    var stop := start + Min(inCount, |eu.inputs| - start);
    ghost var xs := eu.inputs[start..stop];
    var outs: seq<string> := [];
    used := start;
    assert xs[..0] == [];
    for i := 0 to inCount
      invariant used == start + Min(i, |eu.inputs| - start)
      invariant OutputsOf(structs, xs[..used - start]) == Ok(outs)
    {
      if used < |eu.inputs| {
        assert xs[used - start] == eu.inputs[used];
        OutputsOfSnoc(structs, xs, used - start);
        var o := OutputOf(structs, eu.inputs[used]);
        if o.Err? {
          OutputsOfErrKept(structs, xs, used + 1 - start);
          return Err(o.error), stop;
        }
        outs := outs + [o.value];
        used := used + 1;
      }
    }
    assert xs[..used - start] == xs;
    return Ok(outs), used;
  }

  lemma OutputsOfSnoc(structs: Structs, xs: seq<string>, k: nat)
    requires k < |xs|
    ensures OutputsOf(structs, xs[..k + 1]) ==
      match OutputsOf(structs, xs[..k])
      case Err(e) => Err(e)
      case Ok(os) =>
        match OutputOf(structs, xs[k])
        case Err(e) => Err(e)
        case Ok(o) => Ok(os + [o])
  {
    assert xs[..k + 1][..k] == xs[..k];
  }

  /** The cassettes built so far followed by those of the rest of the loop, or the rest's error. */
  function Prepend(done: seq<EugeneCassette>, rest: Result<seq<EugeneCassette>>): Result<seq<EugeneCassette>>
  {
    match rest
    case Ok(rs) => Ok(done + rs)
    case Err(e) => Err(e)
  }

  lemma RecordsFromChunkErr(structs: Structs, eu: EugeneStruct, cs: seq<StructCassette>, used: nat)
    requires used < |eu.inputs| && |cs| > 0
    requires OutputsOf(structs, eu.inputs[used..used + Min(cs[0].inCount, |eu.inputs| - used)]).Err?
    ensures RecordsFrom(structs, eu, cs, used) == Err(OutputsOf(structs, eu.inputs[used..used + Min(cs[0].inCount, |eu.inputs| - used)]).error)
  {
  }

  lemma RecordsFromChunkOk(structs: Structs, eu: EugeneStruct, cs: seq<StructCassette>, used: nat)
    requires used < |eu.inputs| && |cs| > 0
    requires OutputsOf(structs, eu.inputs[used..used + Min(cs[0].inCount, |eu.inputs| - used)]).Ok?
    ensures var t := Min(cs[0].inCount, |eu.inputs| - used);
      var c := NewCassette(eu, cs[0], OutputsOf(structs, eu.inputs[used..used + t]).value);
      RecordsFrom(structs, eu, cs, used) ==
        match RecordsFrom(structs, eu, cs[1..], used + t)
        case Ok(rs) => Ok([c] + rs)
        case Err(e) => Err(e)
  {
  }

  lemma RecordsFromSkip(structs: Structs, eu: EugeneStruct, cs: seq<StructCassette>)
    requires |cs| > 0
    ensures RecordsFrom(structs, eu, cs, |eu.inputs|) == RecordsFrom(structs, eu, cs[1..], |eu.inputs|)
  {
  }

  /**
   * The cassette loop of one gate or output struct: each entry, while
   * inputs remain, becomes a cassette under its variant name, with its
   * share of the inputs.
   */
  method Distribute(cas: Cassettes, structs: Structs, eu: EugeneStruct) returns (r: Result<Cassettes>)
    ensures r.Ok? <==> RecordsFrom(structs, eu, eu.structCassettes, 0).Ok?
    ensures r.Ok? ==> r.value == PutAll(cas, RecordsFrom(structs, eu, eu.structCassettes, 0).value)
    ensures r.Err? ==> r.error == RecordsFrom(structs, eu, eu.structCassettes, 0).error
  {
    var cs := eu.structCassettes;
    var input: nat := 0;
    var acc := cas;
    ghost var done: seq<EugeneCassette> := [];
    assert cs[0..] == cs;
    assert RecordsFrom(structs, eu, cs, 0) == Prepend([], RecordsFrom(structs, eu, cs[0..], 0)) by {
      if RecordsFrom(structs, eu, cs, 0).Ok? {
        ConcatNil(RecordsFrom(structs, eu, cs, 0).value);
      }
    }
    for j := 0 to |cs|
      invariant input <= |eu.inputs|
      invariant acc == PutAll(cas, done)
      invariant RecordsFrom(structs, eu, cs, 0) == Prepend(done, RecordsFrom(structs, eu, cs[j..], input))
    {
      if input < |eu.inputs| {
        var c := cs[j];
        var outs, used := PlaceInputs(structs, eu, c.inCount, input);
        if outs.Err? {
          DistributeStepErr(structs, eu, cs, j, input, done);
          return Err(outs.error);
        }
        var rec := NewCassette(eu, c, outs.value);
        DistributeStepOk(structs, eu, cs, j, input, done, used, rec);
        PutAllSnoc(cas, done, rec);
        acc := Put(acc, c.varName, rec);
        done := done + [rec];
        input := used;
      } else {
        DistributeStepSkip(structs, eu, cs, j, done);
      }
    }
    assert RecordsFrom(structs, eu, cs[|cs|..], input) == Ok([]);
    ConcatNil(done);
    return Ok(acc);
  }

  /** An entry whose inputs fail ends the loop with that error. */
  lemma DistributeStepErr(structs: Structs, eu: EugeneStruct, cs: seq<StructCassette>, j: nat, used: nat, done: seq<EugeneCassette>)
    requires j < |cs| && used < |eu.inputs|
    requires OutputsOf(structs, eu.inputs[used..used + Min(cs[j].inCount, |eu.inputs| - used)]).Err?
    ensures Prepend(done, RecordsFrom(structs, eu, cs[j..], used)) ==
      Err(OutputsOf(structs, eu.inputs[used..used + Min(cs[j].inCount, |eu.inputs| - used)]).error)
  {
    assert cs[j..][0] == cs[j];
    RecordsFromChunkErr(structs, eu, cs[j..], used);
  }

  /** An entry whose inputs succeed adds its cassette and moves past its inputs. */
  lemma DistributeStepOk(structs: Structs, eu: EugeneStruct, cs: seq<StructCassette>, j: nat, used: nat, done: seq<EugeneCassette>,
                          next: nat, rec: EugeneCassette)
    requires j < |cs| && used < |eu.inputs| && next == used + Min(cs[j].inCount, |eu.inputs| - used)
    requires OutputsOf(structs, eu.inputs[used..next]).Ok?
    requires rec == NewCassette(eu, cs[j], OutputsOf(structs, eu.inputs[used..next]).value)
    ensures Prepend(done, RecordsFrom(structs, eu, cs[j..], used)) == Prepend(done + [rec], RecordsFrom(structs, eu, cs[j + 1..], next))
  {
    assert cs[j..][0] == cs[j] && cs[j..][1..] == cs[j + 1..];
    RecordsFromChunkOk(structs, eu, cs[j..], used);
    PrependStep(done, rec, RecordsFrom(structs, eu, cs[j + 1..], next));
  }

  /** An entry met once every input is placed adds nothing. */
  lemma DistributeStepSkip(structs: Structs, eu: EugeneStruct, cs: seq<StructCassette>, j: nat, done: seq<EugeneCassette>)
    requires j < |cs|
    ensures Prepend(done, RecordsFrom(structs, eu, cs[j..], |eu.inputs|)) == Prepend(done, RecordsFrom(structs, eu, cs[j + 1..], |eu.inputs|))
  {
    assert cs[j..][1..] == cs[j + 1..];
    RecordsFromSkip(structs, eu, cs[j..]);
  }

  lemma PutAllSnoc(cas: Cassettes, done: seq<EugeneCassette>, rec: EugeneCassette)
    ensures PutAll(cas, done + [rec]) == Put(PutAll(cas, done), rec.structVarName, rec)
  {
    assert (done + [rec])[..|done|] == done;
  }

  lemma PrependStep(done: seq<EugeneCassette>, rec: EugeneCassette, rest: Result<seq<EugeneCassette>>)
    ensures Prepend(done, match rest case Ok(rs) => Ok([rec] + rs) case Err(e) => Err(e)) == Prepend(done + [rec], rest)
  {
    if rest.Ok? {
      ConcatAssoc3(done, [rec], rest.value);
    }
  }

  /** One loop over a `parts` collection: each kept part adds its type, if new, and its sequence record. */
  method KeepLoop(st: PartState, ucf: seq<UcfPart>, names: seq<string>) returns (st': PartState)
    ensures st' == KeepParts(st, ucf, names)
  {
    var types, parts := st.types, st.parts;
    for i := 0 to |ucf|
      invariant PartState(types, parts) == KeepParts(st, ucf[..i], names)
    {
      assert ucf[..i + 1][..i] == ucf[..i];
      var p, t := ucf[i].name, ucf[i].partType;
      if p in names || t == "scar" {
        if t !in types {
          types := types + [t];
        }
        parts := Put(parts, p, SequenceOf(ucf[i]));
      }
    }
    assert ucf[..|ucf|] == ucf;
    return PartState(types, parts);
  }

  lemma {:induction false} PutAllConcat(cas: Cassettes, a: seq<EugeneCassette>, b: seq<EugeneCassette>)
    ensures PutAll(cas, a + b) == PutAll(PutAll(cas, a), b)
  {
    if |b| == 0 {
      assert a + b == a;
    } else {
      PutAllConcat(cas, a, b[..|b| - 1]);
      assert (a + b)[..|a + b| - 1] == a + b[..|b| - 1];
    }
  }

  lemma {:induction false} CassettesOfErrKept(structs: Structs, vs: seq<EugeneStruct>, n: nat)
    requires n <= |vs| && CassettesOf(structs, vs[..n]).Err?
    ensures CassettesOf(structs, vs) == CassettesOf(structs, vs[..n])
    decreases |vs| - n
  {
    if n < |vs| {
      assert vs[..n + 1][..n] == vs[..n];
      CassettesOfErrKept(structs, vs, n + 1);
    } else {
      assert vs[..n] == vs;
    }
  }

  /** The loop over `structs_dict.values()` building the cassettes of each gate and output struct. */
  method AllCassettes(cas: Cassettes, structs: Structs) returns (r: Result<Cassettes>)
    ensures r.Ok? <==> CassettesOf(structs, Values(structs)).Ok?
    ensures r.Ok? ==> r.value == PutAll(cas, CassettesOf(structs, Values(structs)).value)
    ensures r.Err? ==> r.error == CassettesOf(structs, Values(structs)).error
  {
    var vs := Values(structs);
    var acc := cas;
    for i := 0 to |vs|
      invariant CassettesOf(structs, vs[..i]).Ok?
      invariant acc == PutAll(cas, CassettesOf(structs, vs[..i]).value)
    {
      assert vs[..i + 1][..i] == vs[..i];
      var eu := vs[i];
      if eu.kind == "gate" || eu.kind == "output" {
        var placed := Distribute(acc, structs, eu);
        if placed.Err? {
          CassettesOfErrKept(structs, vs, i + 1);
          return Err(placed.error);
        }
        PutAllConcat(cas, CassettesOf(structs, vs[..i]).value, RecordsFrom(structs, eu, eu.structCassettes, 0).value);
        acc := placed.value;
      }
    }
    assert vs[..|vs|] == vs;
    return Ok(acc);
  }
}
