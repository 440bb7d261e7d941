/**
 * `EugeneObject.write_eugene` (`utils/eugene.py`): the Eugene file as the
 * sequence of strings passed to `write`, block by block, and the loops
 * that write them.
 */
module EugeneWrite {
  import opened Wrappers
  import opened PyStr
  import opened Dict
  import opened Json
  import opened EugeneCassettes

  // ---------------------------------------------------------------------
  // Writes
  // ---------------------------------------------------------------------

  /** The file contents a sequence of writes produces. */
  function Flatten(chunks: seq<string>): string
  {
    if |chunks| == 0 then "" else Flatten(chunks[..|chunks| - 1]) + chunks[|chunks| - 1]
  }

  lemma {:induction false} FlattenConcat(a: seq<string>, b: seq<string>)
    ensures Flatten(a + b) == Flatten(a) + Flatten(b)
  {
    if |b| == 0 {
      assert a + b == a;
    } else {
      FlattenConcat(a, b[..|b| - 1]);
      assert (a + b)[..|a + b| - 1] == a + b[..|b| - 1];
    }
  }

  /** One write per item: `for x in xs: eug.write(f(x))`. */
  function Lines<T>(xs: seq<T>, f: T -> string): (r: seq<string>)
    ensures |r| == |xs|
  {
    if |xs| == 0 then [] else Lines(xs[..|xs| - 1], f) + [f(xs[|xs| - 1])]
  }

  /** One write per item, each `f'{sep}    {x}'` with the same `sep`. */
  function Prefixed(xs: seq<string>, sep: string): (r: seq<string>)
    ensures |r| == |xs|
  {
    if |xs| == 0 then [] else Prefixed(xs[..|xs| - 1], sep) + [sep + "    " + xs[|xs| - 1]]
  }

  /**
   * The separator idiom: each item indented by four spaces, preceded by
   * `sep` from the second item on (`sep` starts empty and is set after the
   * first write).
   */
  function Separated(items: seq<string>, sep: string): (r: seq<string>)
    ensures |r| == |items|
  {
    if |items| == 0 then []
    else
      var init := items[..|items| - 1];
      Separated(init, sep) + [(if |init| == 0 then "" else sep) + "    " + items[|items| - 1]]
  }

  function Indent(x: string): string
  {
    "    " + x
  }

  lemma {:induction false} JoinSnoc(xs: seq<string>, x: string, sep: string)
    requires |xs| > 0
    ensures Join(xs + [x], sep) == Join(xs, sep) + sep + x
  {
    if |xs| == 1 {
      assert xs + [x] == [xs[0], x];
    } else {
      JoinSnoc(xs[1..], x, sep);
      assert (xs + [x])[1..] == xs[1..] + [x];
    }
  }

  /** The separated writes spell `sep.join('    ' + x for x in items)`. */
  lemma {:induction false} SeparatedJoin(items: seq<string>, sep: string)
    ensures Flatten(Separated(items, sep)) == Join(Lines(items, Indent), sep)
  {
    if |items| > 0 {
      var init := items[..|items| - 1];
      SeparatedJoin(init, sep);
      if |init| > 0 {
        JoinSnoc(Lines(init, Indent), Indent(items[|items| - 1]), sep);
      }
    }
  }

  // ---------------------------------------------------------------------
  // The lines of each block
  // ---------------------------------------------------------------------

  function TypeLine(t: string): string
  {
    "PartType " + t + ";\n"
  }

  function SequenceLine(s: EugeneSequence): string
  {
    s.partsType + " " + s.partsName + "(.SEQUENCE(\"" + s.partsSequence + "\"));\n"
  }

  /**
   * `str(v)` of a fencepost symbol for strings, integers, booleans and
   * `None`; other JSON values are rendered by `repr`.
   */
  function Show(v: Value, repr: Value -> string): string
  {
    match v
    case Str(s) => s
    case Int(i) => IntToString(i)
    case Bool(b) => if b then "True" else "False"
    case Null => "None"
    case _ => repr(v)
  }

  function Shown(vs: seq<Value>, repr: Value -> string): (r: seq<string>)
    ensures |r| == |vs|
  {
    if |vs| == 0 then [] else Shown(vs[..|vs| - 1], repr) + [Show(vs[|vs| - 1], repr)]
  }

  function FencepostLine(f: string): string
  {
    "fencepost " + f + "();\n"
  }

  /** The writes for one cassette: its `cassette` line when it is a gate's, then its `Device` block. */
  function CassetteLines(c: EugeneCassette): seq<string>
  {
    (if c.kind == "gate" then ["cassette " + c.structCasName + "();\n"] else []) +
    ["Device " + c.structVarName + "(\n"] +
    Separated(c.inputs, ",\n") +
    [",\n    " + c.structCasName + "\n);\n\n"]
  }

  function CassetteBlock(cs: seq<EugeneCassette>): seq<string>
  {
    if |cs| == 0 then [] else CassetteBlock(cs[..|cs| - 1]) + CassetteLines(cs[|cs| - 1])
  }

  function RuleHeader(device: string): string
  {
    "Rule " + device + "Rule0( ON " + device + ":\n"
  }

  /** The separator before a device rule: set once the first input is done, whether or not it had rules. */
  function CompPrefix(j: nat): string
  {
    if j == 0 then "" else " AND\n"
  }

  /** The device-rule writes for a cassette's inputs; KeyError on an input that is not a part. */
  function CompRules(parts: Parts, comps: seq<string>): Result<seq<string>>
  {
    if |comps| == 0 then Ok([])
    else
      var init := comps[..|comps| - 1];
      match CompRules(parts, init)
      case Err(e) => Err(e)
      case Ok(prev) =>
        match Get(parts, comps[|comps| - 1])
        case None => Err(KeyError)
        case Some(p) => Ok(prev + Prefixed(p.devRules, CompPrefix(|init|)))
  }

  /** The device-rule block: one rule per cassette, in dict order. */
  function DeviceRuleBlock(parts: Parts, cas: Cassettes): Result<seq<string>>
  {
    if |cas| == 0 then Ok([])
    else
      var (device, c) := cas[|cas| - 1];
      match DeviceRuleBlock(parts, cas[..|cas| - 1])
      case Err(e) => Err(e)
      case Ok(prev) =>
        match CompRules(parts, c.inputs)
        case Err(e) => Err(e)
        case Ok(rules) => Ok(prev + [RuleHeader(device)] + rules + ["\n);\n\n"])
  }

  function ProductLine(d: string): string
  {
    d + "_devices = product(" + d + ");\n"
  }

  function DeviceLine(d: string): string
  {
    "Device " + d + "Device();\n"
  }

  function ContainsLine(d: string): string
  {
    "    CONTAINS " + d + " AND\n"
  }

  /** The circuit rules of the named cassettes, in order (`structs_cas_dict[device].cir_rules`). */
  function AllCirRules(cas: Cassettes, keys: seq<string>): seq<string>
  {
    if |keys| == 0 then []
    else
      AllCirRules(cas, keys[..|keys| - 1]) +
        (match Get(cas, keys[|keys| - 1]) case None => [] case Some(c) => c.cirRules)
  }

  lemma AllCirRulesNext(cas: Cassettes, keys: seq<string>, i: nat, c: EugeneCassette)
    requires i < |keys| && Get(cas, keys[i]) == Some(c)
    ensures AllCirRules(cas, keys[..i + 1]) == AllCirRules(cas, keys[..i]) + c.cirRules
  {
    assert keys[..i + 1][..i] == keys[..i];
  }

  /** The loop line as written: the f-string's `{{}}` writes an empty body `{}`. */
  function ForLine(i: nat, d: string): string
  {
    LoopHead(i, d) + "{} \n"
  }

  /** The corrected loop line: `{` opens a body that the closing braces end. */
  function ForLineCorrected(i: nat, d: string): string
  {
    LoopHead(i, d) + "{ \n"
  }

  function LoopHead(i: nat, d: string): string
  {
    var n := NatToString(i);
    "for(num i" + n + " = 0; i" + n + " < sizeof(" + d + "_devices); i" + n + " = i" + n + " + 1) "
  }

  /** One line per device, numbered from 1. */
  function NumberedLines(keys: seq<string>, line: (nat, string) -> string): (r: seq<string>)
    ensures |r| == |keys|
  {
    if |keys| == 0 then [] else NumberedLines(keys[..|keys| - 1], line) + [line(|keys|, keys[|keys| - 1])]
  }

  /** The loop lines as written, counters numbered from 1. */
  function ForLines(keys: seq<string>): seq<string>
  {
    NumberedLines(keys, ForLine)
  }

  /** The corrected loop lines. */
  function ForLinesCorrected(keys: seq<string>): seq<string>
  {
    NumberedLines(keys, ForLineCorrected)
  }

  /** `device_iters_dict`: each device's loop counter. */
  function IterDict(keys: seq<string>): Dict<string, nat>
  {
    if |keys| == 0 then [] else Put<string, nat>(IterDict(keys[..|keys| - 1]), keys[|keys| - 1], |keys|)
  }

  function AssignLine(entry: (string, nat)): string
  {
    entry.0 + "Device = " + entry.0 + "_devices[i" + NatToString(entry.1) + "];\n"
  }

  function CircuitDeviceLine(d: string): string
  {
    "    " + d + "Device,\n"
  }

  /** `s * n`. */
  function Repeat(s: string, n: nat): string
  {
    if n == 0 then "" else Repeat(s, n - 1) + s
  }

  const Permute: string := "\nresult = " + "permute(" + "circuit);\n\n" + "allResults = " + "allResults + " + "result;\n\n"

  /** The whole file: every block in the order `write_eugene` writes them. */
  /** The declarations before the rules: part types, sequences, fenceposts, cassettes. */
  function Declarations(types: seq<string>, parts: Parts, fps: seq<Value>, cas: Cassettes, repr: Value -> string): seq<string>
  {
    Lines(types, TypeLine) + ["\n"] +
    Lines(Values(parts), SequenceLine) + ["\n"] +
    ["PartType fencepost;\n"] + Lines(Shown(fps, repr), FencepostLine) + ["\n"] +
    CassetteBlock(Values(cas)) + ["\n"]
  }

  /** The product of every cassette and the empty circuit device. */
  function Products(keys: seq<string>): seq<string>
  {
    ["\n"] + Lines(keys, ProductLine) + ["\n"] +
    Lines(keys, DeviceLine) + ["\nDevice circuit();\n\n"]
  }

  /** `CircuitRule0`: the `CONTAINS` lines, then every circuit rule. */
  function CircuitRuleSection(cas: Cassettes): seq<string>
  {
    ["Rule CircuitRule0( ON circuit:\n"] + Lines(Keys(cas), ContainsLine) +
    Separated(AllCirRules(cas, Keys(cas)), " AND\n") + ["\n);\nArray allResults;\n\n"]
  }

  /**
   * The nested loops over the device variants (one `line` per cassette),
   * the circuit they build, and the closing braces.
   */
  function LoopSectionWith(cas: Cassettes, fps: seq<Value>, repr: Value -> string, line: (nat, string) -> string): seq<string>
  {
    var keys := Keys(cas);
    NumberedLines(keys, line) + ["\n"] +
    Lines(IterDict(keys), AssignLine) + ["\n"] +
    ["Device circuit(\n"] + Lines(keys, CircuitDeviceLine) +
    Separated(Shown(fps, repr), ",\n") + ["\n);\n\n"] +
    [Permute, Repeat("}\n", |cas|)]
  }

  /** The loop section `write_eugene` writes, with its loop lines as written. */
  function LoopSection(cas: Cassettes, fps: seq<Value>, repr: Value -> string): seq<string>
  {
    LoopSectionWith(cas, fps, repr, ForLine)
  }

  /** The same section with the corrected loop lines. */
  function LoopSectionCorrected(cas: Cassettes, fps: seq<Value>, repr: Value -> string): seq<string>
  {
    LoopSectionWith(cas, fps, repr, ForLineCorrected)
  }

  /** Everything `write_eugene` writes, in order, or the KeyError of its device rules. */
  function EugeneChunks(types: seq<string>, parts: Parts, fps: seq<Value>, cas: Cassettes, repr: Value -> string): Result<seq<string>>
  {
    match DeviceRuleBlock(parts, cas)
    case Err(e) => Err(e)
    case Ok(devRules) =>
      Ok(Declarations(types, parts, fps, cas, repr) + devRules + Products(Keys(cas)) +
        CircuitRuleSection(cas) + LoopSection(cas, fps, repr))
  }

  // ---------------------------------------------------------------------
  // Properties
  // ---------------------------------------------------------------------

  /** Every input of every cassette in the dict is a part. */
  predicate InputsAreParts(parts: Parts, cas: Cassettes)
  {
    forall i, j :: 0 <= i < |cas| && 0 <= j < |cas[i].1.inputs| ==> cas[i].1.inputs[j] in Keys(parts)
  }

  lemma {:induction false} CompRulesOk(parts: Parts, comps: seq<string>)
    ensures CompRules(parts, comps).Ok? <==> forall j :: 0 <= j < |comps| ==> comps[j] in Keys(parts)
    ensures CompRules(parts, comps).Err? ==> CompRules(parts, comps).error == KeyError
  {
    if |comps| > 0 {
      var init := comps[..|comps| - 1];
      CompRulesOk(parts, init);
      CompRulesOkStep(parts, comps, init);
      AllInSnoc(comps, init, Keys(parts));
    }
  }

  lemma AllInSnoc<T>(xs: seq<T>, init: seq<T>, s: seq<T>)
    requires |xs| > 0 && init == xs[..|xs| - 1]
    ensures (forall j :: 0 <= j < |xs| ==> xs[j] in s) <==> (forall j :: 0 <= j < |init| ==> init[j] in s) && xs[|xs| - 1] in s
  {
    assert forall j :: 0 <= j < |init| ==> init[j] == xs[j];
  }

  lemma CompRulesOkStep(parts: Parts, comps: seq<string>, init: seq<string>)
    requires |comps| > 0 && init == comps[..|comps| - 1]
    ensures CompRules(parts, comps).Ok? <==> CompRules(parts, init).Ok? && comps[|comps| - 1] in Keys(parts)
    ensures CompRules(parts, comps).Err? ==>
      CompRules(parts, comps).error == KeyError || CompRules(parts, comps) == CompRules(parts, init)
  {
  }

  lemma CompRulesStep(parts: Parts, comps: seq<string>)
    requires |comps| > 0
    ensures var prev := CompRules(parts, comps[..|comps| - 1]);
      CompRules(parts, comps) ==
        if prev.Err? then prev
        else if comps[|comps| - 1] !in Keys(parts) then Err(KeyError)
        else Ok(prev.value + Prefixed(Get(parts, comps[|comps| - 1]).value.devRules, CompPrefix(|comps| - 1)))
  {
  }

  /**
   * Writing fails, with KeyError, exactly when some cassette input is not a
   * part (the `print(self.parts_seq_dict[comp])` lookup).
   */
  lemma {:induction false} DeviceRuleBlockOk(parts: Parts, cas: Cassettes)
    ensures DeviceRuleBlock(parts, cas).Ok? <==> InputsAreParts(parts, cas)
    ensures DeviceRuleBlock(parts, cas).Err? ==> DeviceRuleBlock(parts, cas).error == KeyError
  {
    if |cas| > 0 {
      var init := cas[..|cas| - 1];
      var c := cas[|cas| - 1].1;
      DeviceRuleBlockOk(parts, init);
      CompRulesOk(parts, c.inputs);
      DeviceRuleBlockStep(parts, cas);
      InputsArePartsSnoc(parts, cas, c);
    }
  }

  lemma DeviceRuleBlockStep(parts: Parts, cas: Cassettes)
    requires |cas| > 0
    ensures DeviceRuleBlock(parts, cas).Ok? <==>
      DeviceRuleBlock(parts, cas[..|cas| - 1]).Ok? && CompRules(parts, cas[|cas| - 1].1.inputs).Ok?
    ensures DeviceRuleBlock(parts, cas).Err? ==>
      (DeviceRuleBlock(parts, cas[..|cas| - 1]).Err? && DeviceRuleBlock(parts, cas).error == DeviceRuleBlock(parts, cas[..|cas| - 1]).error) ||
      (CompRules(parts, cas[|cas| - 1].1.inputs).Err? && DeviceRuleBlock(parts, cas).error == CompRules(parts, cas[|cas| - 1].1.inputs).error)
  {
  }

  lemma InputsArePartsSnoc(parts: Parts, cas: Cassettes, c: EugeneCassette)
    requires |cas| > 0 && c == cas[|cas| - 1].1
    ensures InputsAreParts(parts, cas) <==>
      InputsAreParts(parts, cas[..|cas| - 1]) && forall j :: 0 <= j < |c.inputs| ==> c.inputs[j] in Keys(parts)
  {
    var init := cas[..|cas| - 1];
    assert forall i :: 0 <= i < |init| ==> init[i] == cas[i];
  }

  /** The single device rule of each input, in order. */
  function OnlyRules(parts: Parts, comps: seq<string>): (r: seq<string>)
    requires forall j :: 0 <= j < |comps| ==> Get(parts, comps[j]).Some? && |Get(parts, comps[j]).value.devRules| == 1
    ensures |r| == |comps|
  {
    if |comps| == 0 then []
    else OnlyRules(parts, comps[..|comps| - 1]) + [Get(parts, comps[|comps| - 1]).value.devRules[0]]
  }

  lemma PrefixedSingle(xs: seq<string>, sep: string)
    requires |xs| == 1
    ensures Prefixed(xs, sep) == [sep + "    " + xs[0]]
  {
    assert xs[..0] == [];
  }

  /** When every input has exactly one device rule, the rule writes are those rules in the separator idiom. */
  lemma {:induction false} CompRulesSeparated(parts: Parts, comps: seq<string>)
    requires forall j :: 0 <= j < |comps| ==> Get(parts, comps[j]).Some? && |Get(parts, comps[j]).value.devRules| == 1
    ensures CompRules(parts, comps) == Ok(Separated(OnlyRules(parts, comps), " AND\n"))
  {
    if |comps| > 0 {
      var init := comps[..|comps| - 1];
      var p := Get(parts, comps[|comps| - 1]).value;
      assert forall j :: 0 <= j < |init| ==> init[j] == comps[j];
      CompRulesSeparated(parts, init);
      PrefixedSingle(p.devRules, CompPrefix(|init|));
      var rs := OnlyRules(parts, init);
      assert OnlyRules(parts, comps)[..|init|] == rs;
    }
  }

  /** When every input has exactly one device rule, a device's rule body is those rules joined by ` AND\n`. */
  lemma CompRulesJoin(parts: Parts, comps: seq<string>)
    requires forall j :: 0 <= j < |comps| ==> Get(parts, comps[j]).Some? && |Get(parts, comps[j]).value.devRules| == 1
    ensures CompRules(parts, comps).Ok?
    ensures Flatten(CompRules(parts, comps).value) == Join(Lines(OnlyRules(parts, comps), Indent), " AND\n")
  {
    CompRulesSeparated(parts, comps);
    SeparatedJoin(OnlyRules(parts, comps), " AND\n");
  }

  /** The net count of `{` over `}` in a text. */
  function Depth(s: string): int
  {
    multiset(s)['{'] as int - multiset(s)['}'] as int
  }

  predicate NoBraces(s: string)
  {
    '{' !in s && '}' !in s
  }

  lemma DepthConcat(a: string, b: string)
    ensures Depth(a + b) == Depth(a) + Depth(b)
  {
    assert multiset(a + b) == multiset(a) + multiset(b);
  }

  lemma NoBracesDepth(s: string)
    requires NoBraces(s)
    ensures Depth(s) == 0
  {
  }

  lemma {:induction false} DepthRepeat(n: nat)
    ensures Depth(Repeat("}\n", n)) == -(n as int)
  {
    if n > 0 {
      DepthRepeat(n - 1);
      DepthConcat(Repeat("}\n", n - 1), "}\n");
      BraceLiterals();
    }
  }

  lemma NoBracesConcat(a: string, b: string)
    requires NoBraces(a) && NoBraces(b)
    ensures NoBraces(a + b)
  {
  }

  lemma NatNoBraces(i: nat)
    ensures NoBraces(NatToString(i))
  {
    var n := NatToString(i);
    assert forall k :: 0 <= k < |n| ==> n[k] != '{' && n[k] != '}';
  }

  lemma LoopHeadNoBraces(i: nat, d: string)
    requires NoBraces(d)
    ensures NoBraces(LoopHead(i, d))
  {
    var n := NatToString(i);
    NatNoBraces(i);
    assert NoBraces("for(num i") && NoBraces(" = 0; i") && NoBraces(" < sizeof(") && NoBraces("_devices); i") && NoBraces(" = i") && NoBraces(" + 1) ");
    NoBracesConcat("for(num i", n);
    NoBracesConcat("for(num i" + n, " = 0; i");
    NoBracesConcat("for(num i" + n + " = 0; i", n);
    NoBracesConcat("for(num i" + n + " = 0; i" + n, " < sizeof(");
    NoBracesConcat("for(num i" + n + " = 0; i" + n + " < sizeof(", d);
    NoBracesConcat("for(num i" + n + " = 0; i" + n + " < sizeof(" + d, "_devices); i");
    NoBracesConcat("for(num i" + n + " = 0; i" + n + " < sizeof(" + d + "_devices); i", n);
    NoBracesConcat("for(num i" + n + " = 0; i" + n + " < sizeof(" + d + "_devices); i" + n, " = i");
    NoBracesConcat("for(num i" + n + " = 0; i" + n + " < sizeof(" + d + "_devices); i" + n + " = i", n);
    NoBracesConcat("for(num i" + n + " = 0; i" + n + " < sizeof(" + d + "_devices); i" + n + " = i" + n, " + 1) ");
  }

  lemma BraceLiterals()
    ensures Depth("{ \n") == 1 && Depth("{} \n") == 0 && Depth("}\n") == -1
  {
    assert multiset("{ \n") == multiset{'{', ' ', '\n'};
    assert multiset("{} \n") == multiset{'{', '}', ' ', '\n'};
    assert multiset("}\n") == multiset{'}', '\n'};
  }

  /** Each loop line as written opens and closes one brace; each corrected line opens one. */
  lemma LoopLineDepth(i: nat, d: string)
    requires NoBraces(d)
    ensures Depth(ForLine(i, d)) == 0
    ensures Depth(ForLineCorrected(i, d)) == 1
  {
    LoopHeadNoBraces(i, d);
    NoBracesDepth(LoopHead(i, d));
    BraceLiterals();
    DepthConcat(LoopHead(i, d), "{ \n");
    DepthConcat(LoopHead(i, d), "{} \n");
  }

  /** Lines that each change the depth by `delta` change it by `delta` per device. */
  lemma {:induction false} NumberedLinesDepth(keys: seq<string>, line: (nat, string) -> string, delta: int)
    requires forall i: nat, d: string :: NoBraces(d) ==> Depth(line(i, d)) == delta
    requires forall k :: 0 <= k < |keys| ==> NoBraces(keys[k])
    ensures Depth(Flatten(NumberedLines(keys, line))) == delta * |keys|
  {
    if |keys| > 0 {
      var init := keys[..|keys| - 1];
      NumberedLinesDepth(init, line, delta);
      DepthConcat(Flatten(NumberedLines(init, line)), line(|keys|, keys[|keys| - 1]));
      MulStep(delta, |init|);
    }
  }

  lemma MulStep(a: int, n: nat)
    ensures a * (n + 1) == a * n + a
  {
  }

  /** The loop lines for brace-free device names open no brace (as written) or one per device (corrected). */
  lemma ForLinesDepth(keys: seq<string>)
    requires forall k :: 0 <= k < |keys| ==> NoBraces(keys[k])
    ensures Depth(Flatten(ForLines(keys))) == 0
    ensures Depth(Flatten(ForLinesCorrected(keys))) == |keys|
  {
    LineDepths();
    NumberedLinesDepth(keys, ForLine, 0);
    NumberedLinesDepth(keys, ForLineCorrected, 1);
  }

  lemma LineDepths()
    ensures forall i: nat, d: string :: NoBraces(d) ==> Depth(ForLine(i, d)) == 0
    ensures forall i: nat, d: string :: NoBraces(d) ==> Depth(ForLineCorrected(i, d)) == 1
  {
    forall i: nat, d: string | NoBraces(d)
      ensures Depth(ForLine(i, d)) == 0 && Depth(ForLineCorrected(i, d)) == 1
    {
      LoopLineDepth(i, d);
    }
  }

  /**
   * The loops and the closing braces: with the corrected `{` they balance
   * exactly; as written, every device leaves one `}` unmatched.
   */
  lemma LoopsAndClosing(keys: seq<string>)
    requires forall k :: 0 <= k < |keys| ==> NoBraces(keys[k])
    ensures Depth(Flatten(ForLines(keys)) + Repeat("}\n", |keys|)) == -|keys|
    ensures Depth(Flatten(ForLinesCorrected(keys)) + Repeat("}\n", |keys|)) == 0
  {
    ForLinesDepth(keys);
    DepthRepeat(|keys|);
    DepthConcat(Flatten(ForLines(keys)), Repeat("}\n", |keys|));
    DepthConcat(Flatten(ForLinesCorrected(keys)), Repeat("}\n", |keys|));
  }

  /** Every line of `lines` is free of braces. */
  predicate BraceFree(lines: seq<string>)
  {
    forall k :: 0 <= k < |lines| ==> NoBraces(lines[k])
  }

  lemma {:induction false} FlattenBraceFree(lines: seq<string>)
    requires BraceFree(lines)
    ensures Depth(Flatten(lines)) == 0
  {
    if |lines| > 0 {
      var init := lines[..|lines| - 1];
      assert BraceFree(init) by {
        forall k | 0 <= k < |init| ensures NoBraces(init[k]) { assert init[k] == lines[k]; }
      }
      FlattenBraceFree(init);
      NoBracesDepth(lines[|lines| - 1]);
      DepthConcat(Flatten(init), lines[|lines| - 1]);
    }
  }

  lemma BraceFreeConcat(a: seq<string>, b: seq<string>)
    requires BraceFree(a) && BraceFree(b)
    ensures BraceFree(a + b)
  {
    forall k | 0 <= k < |a + b| ensures NoBraces((a + b)[k]) {
      if k < |a| { assert (a + b)[k] == a[k]; } else { assert (a + b)[k] == b[k - |a|]; }
    }
  }

  lemma {:induction false} LinesAt<T>(xs: seq<T>, f: T -> string, k: nat)
    requires k < |xs|
    ensures Lines(xs, f)[k] == f(xs[k])
  {
    if k < |xs| - 1 {
      LinesAt(xs[..|xs| - 1], f, k);
    }
  }

  lemma {:induction false} SeparatedBraceFree(items: seq<string>, sep: string)
    requires BraceFree(items) && NoBraces(sep)
    ensures BraceFree(Separated(items, sep))
  {
    if |items| > 0 {
      var init := items[..|items| - 1];
      assert BraceFree(init) by {
        forall k | 0 <= k < |init| ensures NoBraces(init[k]) { assert init[k] == items[k]; }
      }
      SeparatedBraceFree(init, sep);
      var last := (if |init| == 0 then "" else sep) + "    " + items[|items| - 1];
      assert NoBraces(last);
      BraceFreeConcat(Separated(init, sep), [last]);
    }
  }

  /** `device_iters_dict` holds only the device names. */
  lemma {:induction false} IterDictKeys(keys: seq<string>)
    ensures forall x :: x in Keys(IterDict(keys)) ==> x in keys
  {
    if |keys| > 0 {
      var init := keys[..|keys| - 1];
      IterDictKeys(init);
      KeysPut<string, nat>(IterDict(init), keys[|keys| - 1], |keys|);
    }
  }

  lemma AssignLineNoBraces(entry: (string, nat))
    requires NoBraces(entry.0)
    ensures NoBraces(AssignLine(entry))
  {
    var d, n := entry.0, NatToString(entry.1);
    NatNoBraces(entry.1);
    assert NoBraces("Device = ") && NoBraces("_devices[i") && NoBraces("];\n");
    NoBracesConcat(d, "Device = ");
    NoBracesConcat(d + "Device = ", d);
    NoBracesConcat(d + "Device = " + d, "_devices[i");
    NoBracesConcat(d + "Device = " + d + "_devices[i", n);
    NoBracesConcat(d + "Device = " + d + "_devices[i" + n, "];\n");
  }

  lemma DeviceLineNoBraces(d: string)
    requires NoBraces(d)
    ensures NoBraces(CircuitDeviceLine(d))
  {
    assert NoBraces("    ") && NoBraces("Device,\n");
    NoBracesConcat("    ", d);
    NoBracesConcat("    " + d, "Device,\n");
  }

  lemma InBraceFree(keys: seq<string>, x: string)
    requires forall k :: 0 <= k < |keys| ==> NoBraces(keys[k])
    requires x in keys
    ensures NoBraces(x)
  {
    var k :| 0 <= k < |keys| && keys[k] == x;
  }

  /** The counter assignments name only brace-free devices. */
  lemma AssignsBraceFree(keys: seq<string>)
    requires forall k :: 0 <= k < |keys| ==> NoBraces(keys[k])
    ensures BraceFree(Lines(IterDict(keys), AssignLine))
  {
    var iters := IterDict(keys);
    IterDictKeys(keys);
    var assigns := Lines(iters, AssignLine);
    forall k | 0 <= k < |assigns| ensures NoBraces(assigns[k]) {
      LinesAt(iters, AssignLine, k);
      var e := iters[k];
      assert Keys(iters)[k] == e.0;
      assert e.0 in Keys(iters);
      InBraceFree(keys, e.0);
      AssignLineNoBraces(e);
    }
  }

  lemma DevicesBraceFree(keys: seq<string>)
    requires forall k :: 0 <= k < |keys| ==> NoBraces(keys[k])
    ensures BraceFree(Lines(keys, CircuitDeviceLine))
  {
    var devices := Lines(keys, CircuitDeviceLine);
    forall k | 0 <= k < |devices| ensures NoBraces(devices[k]) {
      LinesAt(keys, CircuitDeviceLine, k);
      DeviceLineNoBraces(keys[k]);
    }
  }

  /** Everything between the loop lines and the closing braces is free of braces. */
  lemma LoopBodyBraceFree(cas: Cassettes, fps: seq<Value>, repr: Value -> string)
    requires forall k :: 0 <= k < |cas| ==> NoBraces(cas[k].0)
    requires BraceFree(Shown(fps, repr))
    ensures BraceFree(["\n"] + Lines(IterDict(Keys(cas)), AssignLine) + ["\n"] +
      ["Device circuit(\n"] + Lines(Keys(cas), CircuitDeviceLine) +
      Separated(Shown(fps, repr), ",\n") + ["\n);\n\n"] + [Permute])
  {
    var keys := Keys(cas);
    var assigns := Lines(IterDict(keys), AssignLine);
    var devices := Lines(keys, CircuitDeviceLine);
    var seps := Separated(Shown(fps, repr), ",\n");
    AssignsBraceFree(keys);
    DevicesBraceFree(keys);
    SeparatedBraceFree(Shown(fps, repr), ",\n");
    LiteralsBraceFree();
    var x1 := ["\n"] + assigns;
    BraceFreeConcat(["\n"], assigns);
    var x2 := x1 + ["\n"];
    BraceFreeConcat(x1, ["\n"]);
    var x3 := x2 + ["Device circuit(\n"];
    BraceFreeConcat(x2, ["Device circuit(\n"]);
    var x4 := x3 + devices;
    BraceFreeConcat(x3, devices);
    var x5 := x4 + seps;
    BraceFreeConcat(x4, seps);
    var x6 := x5 + ["\n);\n\n"];
    BraceFreeConcat(x5, ["\n);\n\n"]);
    BraceFreeConcat(x6, [Permute]);
  }

  lemma LiteralsBraceFree()
    ensures BraceFree(["\n"]) && BraceFree(["Device circuit(\n"]) && BraceFree(["\n);\n\n"]) && BraceFree([Permute])
  {
    assert NoBraces("\n");
    assert NoBraces("Device circuit(\n");
    assert NoBraces("\n);\n\n");
    PermuteNoBraces();
  }

  lemma PermuteNoBraces()
    ensures NoBraces(Permute)
  {
    var a, b, c, d, e, f := "\nresult = ", "permute(", "circuit);\n\n", "allResults = ", "allResults + ", "result;\n\n";
    assert NoBraces(a);
    assert NoBraces(b);
    assert NoBraces(c);
    assert NoBraces(d);
    assert NoBraces(e);
    assert NoBraces(f);
    NoBracesConcat(a, b);
    NoBracesConcat(a + b, c);
    NoBracesConcat(a + b + c, d);
    NoBracesConcat(a + b + c + d, e);
    NoBracesConcat(a + b + c + d + e, f);
  }


  /**
   * For brace-free device names and fencepost symbols, the loop section's
   * depth is `delta` per device, less one per closing line.
   */
  lemma LoopSectionDepth(cas: Cassettes, fps: seq<Value>, repr: Value -> string, line: (nat, string) -> string, delta: int)
    requires forall i: nat, d: string :: NoBraces(d) ==> Depth(line(i, d)) == delta
    requires forall k :: 0 <= k < |cas| ==> NoBraces(cas[k].0)
    requires BraceFree(Shown(fps, repr))
    ensures Depth(Flatten(LoopSectionWith(cas, fps, repr, line))) == delta * |cas| - |cas|
  {
    var keys := Keys(cas);
    var loops := NumberedLines(keys, line);
    var body := ["\n"] + Lines(IterDict(keys), AssignLine) + ["\n"] +
      ["Device circuit(\n"] + Lines(keys, CircuitDeviceLine) +
      Separated(Shown(fps, repr), ",\n") + ["\n);\n\n"] + [Permute];
    var closing := Repeat("}\n", |cas|);
    assert LoopSectionWith(cas, fps, repr, line) == loops + body + [closing];
    LoopBodyBraceFree(cas, fps, repr);
    NumberedLinesDepth(keys, line, delta);
    FlattenBraceFree(body);
    DepthRepeat(|cas|);
    FlattenConcat(loops + body, [closing]);
    FlattenConcat(loops, body);
    assert Flatten([closing]) == closing by {
      assert [closing][..0] == [];
    }
    DepthConcat(Flatten(loops), Flatten(body));
    DepthConcat(Flatten(loops + body), closing);
  }

  /**
   * As written, the loop section that ends the Eugene file leaves one `}`
   * unmatched per cassette: the loop lines open no body, yet one
   * closing line per cassette follows.
   */
  lemma LoopSectionUnbalanced(cas: Cassettes, fps: seq<Value>, repr: Value -> string)
    requires forall k :: 0 <= k < |cas| ==> NoBraces(cas[k].0)
    requires BraceFree(Shown(fps, repr))
    ensures Depth(Flatten(LoopSection(cas, fps, repr))) == -|cas|
  {
    LineDepths();
    LoopSectionDepth(cas, fps, repr, ForLine, 0);
  }

  /** With the corrected loop lines the section balances exactly. */
  lemma LoopSectionBalanced(cas: Cassettes, fps: seq<Value>, repr: Value -> string)
    requires forall k :: 0 <= k < |cas| ==> NoBraces(cas[k].0)
    requires BraceFree(Shown(fps, repr))
    ensures Depth(Flatten(LoopSectionCorrected(cas, fps, repr))) == 0
  {
    LineDepths();
    LoopSectionDepth(cas, fps, repr, ForLineCorrected, 1);
  }

  /** One cassette named `d` and no fenceposts: the written section holds one `}` with no matching `{`. */
  lemma LoopsUnbalancedExample(c: EugeneCassette, repr: Value -> string)
    ensures Depth(Flatten(LoopSection([("d", c)], [], repr))) == -1
  {
    var cas: Cassettes := [("d", c)];
    assert NoBraces(cas[0].0);
    LoopSectionUnbalanced(cas, [], repr);
  }

  /** Each device's loop counter is its position, counted from 1, when the device names are distinct. */
  lemma {:induction false} IterDictSpec(keys: seq<string>)
    requires Distinct(keys)
    ensures |IterDict(keys)| == |keys|
    ensures forall k :: 0 <= k < |keys| ==> IterDict(keys)[k] == (keys[k], k + 1)
  {
    if |keys| > 0 {
      var init := keys[..|keys| - 1];
      assert Distinct(init);
      IterDictSpec(init);
      var d := IterDict(init);
      assert Keys(d) == init;
      assert keys[|keys| - 1] !in Keys(d);
    }
  }

  // ---------------------------------------------------------------------
  // The writing loops
  // ---------------------------------------------------------------------

  /** The writes so far followed by a block's writes, or the block's error. */
  function Then(out: seq<string>, block: Result<seq<string>>): Result<seq<string>>
  {
    match block
    case Ok(b) => Ok(out + b)
    case Err(e) => Err(e)
  }

  lemma SeparatedSnoc(items: seq<string>, item: string, sep: string)
    ensures Separated(items + [item], sep) == Separated(items, sep) + [(if |items| == 0 then "" else sep) + "    " + item]
  {
    assert (items + [item])[..|items|] == items;
  }

  /** `for x in xs: eug.write(f(x))`. */
  method WriteLines<T>(out: seq<string>, xs: seq<T>, f: T -> string) returns (out': seq<string>)
    ensures out' == out + Lines(xs, f)
  {
    out' := out;
    for i := 0 to |xs|
      invariant out' == out + Lines(xs[..i], f)
    {
      assert xs[..i + 1][..i] == xs[..i];
      out' := out' + [f(xs[i])];
    }
    assert xs[..|xs|] == xs;
  }

  /**
   * Continues the separator idiom over more items: `done` are the items
   * already written after `base` with the separator `s` they left behind.
   */
  method ContinueSeparated(acc: seq<string>, s: string, ghost base: seq<string>, ghost done: seq<string>, items: seq<string>, sep: string)
    returns (acc': seq<string>, s': string)
    requires acc == base + Separated(done, sep)
    requires s == if |done| == 0 then "" else sep
    ensures acc' == base + Separated(done + items, sep)
    ensures s' == if |done + items| == 0 then "" else sep
  {
    acc', s' := acc, s;
    assert done + items[..0] == done;
    for i := 0 to |items|
      invariant acc' == base + Separated(done + items[..i], sep)
      invariant s' == if |done + items[..i]| == 0 then "" else sep
    {
      SeparatedSnoc(done + items[..i], items[i], sep);
      assert done + items[..i + 1] == (done + items[..i]) + [items[i]];
      acc' := acc' + [s' + "    " + items[i]];
      if s' == "" {
        s' := sep;
      }
    }
    assert items[..|items|] == items;
  }

  /** `sep = ""; for x in items: eug.write(f'{sep}    {x}'); if not sep: sep = ...`. */
  method WriteSeparated(out: seq<string>, items: seq<string>, sep: string) returns (out': seq<string>)
    ensures out' == out + Separated(items, sep)
  {
    assert out == out + Separated([], sep);
    assert [] + items == items;
    var last;
    out', last := ContinueSeparated(out, "", out, [], items, sep);
  }

  /** `for rule in rules: eug.write(f'{sep}    {rule}')` with a fixed `sep`. */
  method WritePrefixed(out: seq<string>, rules: seq<string>, sep: string) returns (out': seq<string>)
    ensures out' == out + Prefixed(rules, sep)
  {
    out' := out;
    for i := 0 to |rules|
      invariant out' == out + Prefixed(rules[..i], sep)
    {
      assert rules[..i + 1][..i] == rules[..i];
      out' := out' + [sep + "    " + rules[i]];
    }
    assert rules[..|rules|] == rules;
  }

  /** The cassette block: each cassette's `cassette` line, if a gate's, and its `Device` block. */
  method WriteCassettes(out: seq<string>, cs: seq<EugeneCassette>) returns (out': seq<string>)
    ensures out' == out + CassetteBlock(cs)
  {
    out' := out;
    for i := 0 to |cs|
      invariant out' == out + CassetteBlock(cs[..i])
    {
      assert cs[..i + 1][..i] == cs[..i];
      out' := WriteCassette(out', cs[i]);
    }
    assert cs[..|cs|] == cs;
  }

  method WriteCassette(out: seq<string>, c: EugeneCassette) returns (out': seq<string>)
    ensures out' == out + CassetteLines(c)
  {
    out' := out;
    if c.kind == "gate" {
      out' := out' + ["cassette " + c.structCasName + "();\n"];
    }
    out' := out' + ["Device " + c.structVarName + "(\n"];
    out' := WriteSeparated(out', c.inputs, ",\n");
    out' := out' + [",\n    " + c.structCasName + "\n);\n\n"];
  }

  /** A device's rule writes; KeyError at the first input that is not a part. */
  method WriteCompRules(out: seq<string>, parts: Parts, comps: seq<string>) returns (r: Result<seq<string>>)
    ensures r == Then(out, CompRules(parts, comps))
  {
    var acc := out;
    var sep := "";
    assert comps[..0] == [] && out + [] == out;
    for j := 0 to |comps|
      invariant Then(out, CompRules(parts, comps[..j])) == Ok(acc)
      invariant sep == CompPrefix(j)
    {
      var p := Get(parts, comps[j]);
      if p.None? {
        CompRulesMissing(parts, comps, j);
        return Err(KeyError);
      }
      CompRulesWritten(out, acc, parts, comps, j);
      acc := WritePrefixed(acc, p.value.devRules, sep);
      if sep == "" {
        sep := " AND\n";
      }
    }
    assert comps[..|comps|] == comps;
    return Ok(acc);
  }

  lemma CompRulesWritten(out: seq<string>, acc: seq<string>, parts: Parts, comps: seq<string>, j: nat)
    requires j < |comps| && Get(parts, comps[j]).Some?
    requires Then(out, CompRules(parts, comps[..j])) == Ok(acc)
    ensures Then(out, CompRules(parts, comps[..j + 1])) == Ok(acc + Prefixed(Get(parts, comps[j]).value.devRules, CompPrefix(j)))
  {
    CompRulesStep(parts, comps[..j + 1]);
    assert comps[..j + 1][..j] == comps[..j];
    var prev := CompRules(parts, comps[..j]).value;
    assert out + (prev + Prefixed(Get(parts, comps[j]).value.devRules, CompPrefix(j))) ==
      (out + prev) + Prefixed(Get(parts, comps[j]).value.devRules, CompPrefix(j));
  }

  lemma CompRulesMissing(parts: Parts, comps: seq<string>, j: nat)
    requires j < |comps| && Get(parts, comps[j]).None?
    requires CompRules(parts, comps[..j]).Ok?
    ensures CompRules(parts, comps) == Err(KeyError)
  {
    CompRulesStep(parts, comps[..j + 1]);
    assert comps[..j + 1][..j] == comps[..j];
    CompRulesErrKept(parts, comps, j + 1);
  }

  /** Once a prefix of the inputs fails, the whole fails with the same error. */
  lemma {:induction false} CompRulesErrKept(parts: Parts, comps: seq<string>, j: nat)
    requires j <= |comps|
    requires CompRules(parts, comps[..j]).Err?
    ensures CompRules(parts, comps) == CompRules(parts, comps[..j])
    decreases |comps| - j
  {
    if j < |comps| {
      CompRulesStep(parts, comps[..j + 1]);
      assert comps[..j + 1][..j] == comps[..j];
      CompRulesErrKept(parts, comps, j + 1);
    } else {
      assert comps[..j] == comps;
    }
  }

  /** The device-rule block, one rule per cassette in dict order; KeyError as `WriteCompRules`. */
  method WriteDeviceRules(out: seq<string>, parts: Parts, cas: Cassettes) returns (r: Result<seq<string>>)
    ensures r == Then(out, DeviceRuleBlock(parts, cas))
  {
    var acc := out;
    for i := 0 to |cas|
      invariant DeviceRuleBlock(parts, cas[..i]).Ok?
      invariant acc == out + DeviceRuleBlock(parts, cas[..i]).value
    {
      var (device, c) := cas[i];
      assert cas[..i + 1][..i] == cas[..i];
      var rules := WriteCompRules(acc + [RuleHeader(device)], parts, c.inputs);
      if rules.Err? {
        DeviceRuleBlockOk(parts, cas);
        CompRulesOk(parts, c.inputs);
        return Err(KeyError);
      }
      acc := rules.value + ["\n);\n\n"];
    }
    assert cas[..|cas|] == cas;
    return Ok(acc);
  }

  /** The circuit rules of every cassette, with one separator shared across all cassettes. */
  method WriteCircuitRules(out: seq<string>, cas: Cassettes) returns (out': seq<string>)
    ensures out' == out + Separated(AllCirRules(cas, Keys(cas)), " AND\n")
  {
    var keys := Keys(cas);
    var sep := "";
    out' := out;
    for i := 0 to |keys|
      invariant out' == out + Separated(AllCirRules(cas, keys[..i]), " AND\n")
      invariant sep == if |AllCirRules(cas, keys[..i])| == 0 then "" else " AND\n"
    {
      var c := Get(cas, keys[i]);
      assert c.Some?;
      AllCirRulesNext(cas, keys, i, c.value);
      out', sep := ContinueSeparated(out', sep, out, AllCirRules(cas, keys[..i]), c.value.cirRules, " AND\n");
    }
    assert keys[..|keys|] == keys;
  }

  /** The loop lines, counting `i` from 1, and `device_iters_dict`. */
  method WriteForLines(out: seq<string>, keys: seq<string>) returns (out': seq<string>, iters: Dict<string, nat>)
    ensures out' == out + ForLines(keys)
    ensures iters == IterDict(keys)
  {
    out' := out;
    iters := [];
    var i := 1;
    for j := 0 to |keys|
      invariant i == j + 1
      invariant out' == out + ForLines(keys[..j])
      invariant iters == IterDict(keys[..j])
    {
      assert keys[..j + 1][..j] == keys[..j];
      out' := out' + [ForLine(i, keys[j])];
      iters := Put<string, nat>(iters, keys[j], i);
      i := i + 1;
    }
    assert keys[..|keys|] == keys;
  }

  /** The declarations, written in source order. */
  method WriteDeclarations(out: seq<string>, types: seq<string>, parts: Parts, fps: seq<Value>, cas: Cassettes, repr: Value -> string) returns (out': seq<string>)
    ensures out' == out + Declarations(types, parts, fps, cas, repr)
  {
    var nl := ["\n"];
    out' := WriteLines(out, types, TypeLine);
    ghost var acc := Lines(types, TypeLine);
    ConcatAssoc3(out, acc, nl);
    out', acc := out' + nl, acc + nl;
    ghost var piece := Lines(Values(parts), SequenceLine);
    out' := WriteLines(out', Values(parts), SequenceLine);
    ConcatAssoc3(out, acc, piece);
    acc := acc + piece;
    ConcatAssoc3(out, acc, nl);
    out', acc := out' + nl, acc + nl;
    var lit1 := ["PartType fencepost;\n"];
    ConcatAssoc3(out, acc, lit1);
    out', acc := out' + lit1, acc + lit1;
    piece := Lines(Shown(fps, repr), FencepostLine);
    out' := WriteLines(out', Shown(fps, repr), FencepostLine);
    ConcatAssoc3(out, acc, piece);
    acc := acc + piece;
    ConcatAssoc3(out, acc, nl);
    out', acc := out' + nl, acc + nl;
    piece := CassetteBlock(Values(cas));
    out' := WriteCassettes(out', Values(cas));
    ConcatAssoc3(out, acc, piece);
    acc := acc + piece;
    ConcatAssoc3(out, acc, nl);
    out', acc := out' + nl, acc + nl;
  }

  /** The products and device declarations. */
  method WriteProducts(out: seq<string>, keys: seq<string>) returns (out': seq<string>)
    ensures out' == out + Products(keys)
  {
    var nl := ["\n"];
    ghost var acc := nl;
    out' := out + nl;
    ghost var piece := Lines(keys, ProductLine);
    out' := WriteLines(out', keys, ProductLine);
    ConcatAssoc3(out, acc, piece);
    acc := acc + piece;
    ConcatAssoc3(out, acc, nl);
    out', acc := out' + nl, acc + nl;
    piece := Lines(keys, DeviceLine);
    out' := WriteLines(out', keys, DeviceLine);
    ConcatAssoc3(out, acc, piece);
    acc := acc + piece;
    var lit2 := ["\nDevice circuit();\n\n"];
    ConcatAssoc3(out, acc, lit2);
    out', acc := out' + lit2, acc + lit2;
  }

  /** `CircuitRule0`. */
  method WriteCircuitRuleSection(out: seq<string>, cas: Cassettes) returns (out': seq<string>)
    ensures out' == out + CircuitRuleSection(cas)
  {
    var head := ["Rule CircuitRule0( ON circuit:\n"];
    ghost var acc := head;
    out' := out + head;
    ghost var piece := Lines(Keys(cas), ContainsLine);
    out' := WriteLines(out', Keys(cas), ContainsLine);
    ConcatAssoc3(out, acc, piece);
    acc := acc + piece;
    piece := Separated(AllCirRules(cas, Keys(cas)), " AND\n");
    out' := WriteCircuitRules(out', cas);
    ConcatAssoc3(out, acc, piece);
    acc := acc + piece;
    var lit3 := ["\n);\nArray allResults;\n\n"];
    ConcatAssoc3(out, acc, lit3);
    out', acc := out' + lit3, acc + lit3;
  }

  /** The loops, the circuit device and the closing braces. */
  method WriteLoopSection(out: seq<string>, cas: Cassettes, fps: seq<Value>, repr: Value -> string) returns (out': seq<string>)
    ensures out' == out + LoopSection(cas, fps, repr)
  {
    var keys := Keys(cas);
    var nl := ["\n"];
    var iters;
    out', iters := WriteForLines(out, keys);
    ghost var acc := ForLines(keys);
    ConcatAssoc3(out, acc, nl);
    out', acc := out' + nl, acc + nl;
    ghost var piece := Lines(IterDict(keys), AssignLine);
    out' := WriteLines(out', iters, AssignLine);
    ConcatAssoc3(out, acc, piece);
    acc := acc + piece;
    ConcatAssoc3(out, acc, nl);
    out', acc := out' + nl, acc + nl;
    var lit4 := ["Device circuit(\n"];
    ConcatAssoc3(out, acc, lit4);
    out', acc := out' + lit4, acc + lit4;
    piece := Lines(keys, CircuitDeviceLine);
    out' := WriteLines(out', keys, CircuitDeviceLine);
    ConcatAssoc3(out, acc, piece);
    acc := acc + piece;
    piece := Separated(Shown(fps, repr), ",\n");
    out' := WriteSeparated(out', Shown(fps, repr), ",\n");
    ConcatAssoc3(out, acc, piece);
    acc := acc + piece;
    var lit5 := ["\n);\n\n"];
    ConcatAssoc3(out, acc, lit5);
    out', acc := out' + lit5, acc + lit5;
    var lit6 := [Permute, Repeat("}\n", |cas|)];
    ConcatAssoc3(out, acc, lit6);
    out', acc := out' + lit6, acc + lit6;
  }
}
