/**
 * `EugeneObject.generate_eugene_helpers` (`utils/eugene.py`), value level:
 * the fenceposts read from the UCF's genetic locations, the device-rule
 * pass over the parts and the circuit-rule pass over the cassettes.  The
 * UCF collections are JSON values, so every Python operation on them keeps
 * its error cases (a missing key, a list where a dict is expected, ...).
 */
module EugeneHelpers {
  import opened Wrappers
  import opened PyStr
  import opened Dict
  import opened Json
  import opened EugeneCassettes

  // ---------------------------------------------------------------------
  // Fenceposts
  // ---------------------------------------------------------------------

  /** `location['symbol']` for each location in turn; the first error stops the loop. */
  function Symbols(locs: seq<Value>): Result<seq<Value>>
  {
    if |locs| == 0 then Ok([])
    else
      match Symbols(locs[..|locs| - 1])
      case Err(e) => Err(e)
      case Ok(syms) =>
        match Subscript(locs[|locs| - 1], "symbol")
        case Err(e) => Err(e)
        case Ok(s) => Ok(syms + [s])
  }

  /** The symbols are read exactly when every location has one. */
  lemma {:induction false} SymbolsOk(locs: seq<Value>)
    ensures Symbols(locs).Ok? <==> forall i :: 0 <= i < |locs| ==> Subscript(locs[i], "symbol").Ok?
  {
    if |locs| > 0 {
      var init := locs[..|locs| - 1];
      SymbolsOk(init);
      assert forall i :: 0 <= i < |init| ==> init[i] == locs[i];
    }
  }

  /** The symbols read are each location's symbol, in order. */
  lemma {:induction false} SymbolsValues(locs: seq<Value>)
    requires Symbols(locs).Ok?
    ensures |Symbols(locs).value| == |locs|
    ensures forall i :: 0 <= i < |locs| ==> Subscript(locs[i], "symbol") == Ok(Symbols(locs).value[i])
  {
    if |locs| > 0 {
      var init := locs[..|locs| - 1];
      SymbolsValues(init);
      var syms := Symbols(locs).value;
      assert syms[..|locs| - 1] == Symbols(init).value;
      forall i | 0 <= i < |locs|
        ensures Subscript(locs[i], "symbol") == Ok(syms[i])
      {
        if i < |locs| - 1 {
          assert locs[i] == init[i] && syms[i] == Symbols(init).value[i];
        }
      }
    }
  }

  /**
   * The symbols of `genetic_locations[0]['locations']`: IndexError when the
   * UCF has no genetic-locations record.
   */
  function Fenceposts(genLocs: seq<Value>): Result<seq<Value>>
  {
    if |genLocs| == 0 then Err(IndexError)
    else
      match Subscript(genLocs[0], "locations")
      case Err(e) => Err(e)
      case Ok(locations) =>
        match Iterate(locations)
        case Err(e) => Err(e)
        case Ok(items) => Symbols(items)
  }

  // ---------------------------------------------------------------------
  // Rule words
  // ---------------------------------------------------------------------

  /** `rules_keywords`. */
  const RuleKeywords: seq<string> :=
    ["NOT", "EQUALS", "NEXTTO", "CONTAINS", "STARTSWITH", "ENDSWITH", "BEFORE", "AFTER", "ALL_FORWARD"]

  /** The words of `ws` that are not keywords, in order. */
  function NonKeywords(ws: seq<string>): (ops: seq<string>)
    ensures forall o :: o in ops <==> o in ws && o !in RuleKeywords
  {
    if |ws| == 0 then []
    else NonKeywords(ws[..|ws| - 1]) + (if ws[|ws| - 1] !in RuleKeywords then [ws[|ws| - 1]] else [])
  }

  /** The operands of a rule: its whitespace-separated words that are not keywords. */
  function RuleOperands(r: string): seq<string>
  {
    NonKeywords(Words(r))
  }

  /**
   * `while 'rules' in v: v = v['rules']`.  An object is entered while it
   * has a `rules` key; a list holding the string `rules` or a string
   * containing it passes the test and then fails the subscript, and any
   * other value fails the test.
   */
  function Unwrap(v: Value): (r: Result<Value>)
    decreases v
  {
    match PyIn("rules", v)
    case Err(e) => Err(e)
    case Ok(found) =>
      if !found then Ok(v)
      else
        match Subscript(v, "rules")
        case Err(e) => Err(e)
        case Ok(w) =>
          SubscriptSmaller(v, "rules");
          Unwrap(w)
  }

  /** The loop ends on a value without `rules`: an object without the key, a list without the string, a string without the substring. */
  lemma {:induction false} UnwrapSpec(v: Value)
    ensures Unwrap(v).Ok? ==> PyIn("rules", Unwrap(v).value) == Ok(false)
    ensures Unwrap(v).Err? ==> Unwrap(v).error == TypeError
    ensures !v.Obj? ==> Unwrap(v) == (match PyIn("rules", v) case Err(e) => Err(e) case Ok(b) => if b then Err(TypeError) else Ok(v))
    decreases v
  {
    if PyIn("rules", v) == Ok(true) && Subscript(v, "rules").Ok? {
      SubscriptSmaller(v, "rules");
      UnwrapSpec(Subscript(v, "rules").value);
    }
  }

  // ---------------------------------------------------------------------
  // Device rules
  // ---------------------------------------------------------------------

  function AddDevRule(s: EugeneSequence, r: string): EugeneSequence
  {
    s.(devRules := s.devRules + [r])
  }

  /**
   * One device rule: a string other than `ALL_FORWARD` whose operands are
   * all parts is appended to each operand's part; a rule that is not a
   * string has no `split` (AttributeError).
   */
  function DeviceRule(parts: Parts, r: Value): Result<Parts>
  {
    match r
    case Str(s) =>
      if s != "ALL_FORWARD" && forall o | o in RuleOperands(s) :: o in Keys(parts) then
        Ok(AddRuleEach(parts, RuleOperands(s), s, AddDevRule))
      else Ok(parts)
    case _ => Err(AttributeError)
  }

  function DeviceRuleAll(parts: Parts, rs: seq<Value>): Result<Parts>
  {
    if |rs| == 0 then Ok(parts)
    else
      match DeviceRuleAll(parts, rs[..|rs| - 1])
      case Err(e) => Err(e)
      case Ok(p) => DeviceRule(p, rs[|rs| - 1])
  }

  /**
   * The device-rule pass on `device_rules[0]`: unwrap it, and when its first
   * item is a dict, run the rule loop over it.
   */
  function DeviceRules(parts: Parts, v: Value): Result<Parts>
  {
    match Unwrap(v)
    case Err(e) => Err(e)
    case Ok(w) =>
      match First(w)
      case Err(e) => Err(e)
      case Ok(f) =>
        if f.Obj? then
          match Iterate(w)
          case Err(e) => Err(e)
          case Ok(items) => DeviceRuleAll(parts, items)
        else Ok(parts)
  }

  /** A rule loop whose first item is not a string fails with AttributeError. */
  lemma {:induction false} DeviceRuleAllFirstFails(parts: Parts, rs: seq<Value>)
    requires |rs| > 0 && !rs[0].Str?
    ensures DeviceRuleAll(parts, rs) == Err(AttributeError)
  {
    if |rs| > 1 {
      DeviceRuleAllFirstFails(parts, rs[..|rs| - 1]);
    }
  }

  /**
   * The device-rule loop only runs when the first item is a dict, and a dict
   * has no `split`: the pass never attaches a rule to a part.  It either
   * leaves the parts as they were or fails, with AttributeError exactly
   * when the unwrapped rules are a list starting with a dict.
   */
  lemma DeviceRulesNeverAttach(parts: Parts, v: Value)
    ensures DeviceRules(parts, v).Ok? ==> DeviceRules(parts, v).value == parts
    ensures Unwrap(v).Ok? && Unwrap(v).value.Arr? && |Unwrap(v).value.items| > 0 && Unwrap(v).value.items[0].Obj? ==>
      DeviceRules(parts, v) == Err(AttributeError)
  {
    if Unwrap(v).Ok? && First(Unwrap(v).value).Ok? && First(Unwrap(v).value).value.Obj? {
      DeviceRuleAllFirstFails(parts, Unwrap(v).value.items);
    }
  }

  /**
   * The evidently intended device-rule pass: the rule loop runs when the
   * unwrapped rules start with a rule string, so each rule can be split
   * into its operands.
   */
  function DeviceRulesCorrected(parts: Parts, v: Value): Result<Parts>
  {
    match Unwrap(v)
    case Err(e) => Err(e)
    case Ok(w) =>
      match First(w)
      case Err(e) => Err(e)
      case Ok(f) =>
        if f.Str? then
          match Iterate(w)
          case Err(e) => Err(e)
          case Ok(items) => DeviceRuleAll(parts, items)
        else Ok(parts)
  }

  /** The copies of device rule `s` that part `k` receives. */
  function DevRuleCopies(keys: seq<string>, s: string, k: string): seq<string>
  {
    if s != "ALL_FORWARD" && forall o | o in RuleOperands(s) :: o in keys
    then Copies(s, multiset(RuleOperands(s))[k]) else []
  }

  /** The device rules the loop appends to part `k`, in order. */
  function DevRulesFor(keys: seq<string>, rs: seq<Value>, k: string): seq<string>
  {
    if |rs| == 0 then []
    else
      var r := rs[|rs| - 1];
      DevRulesFor(keys, rs[..|rs| - 1], k) + (if r.Str? then DevRuleCopies(keys, r.s, k) else [])
  }

  lemma {:induction false} RepeatedDevRule(s: EugeneSequence, r: string, n: nat)
    ensures Repeated(s, r, n, AddDevRule) == s.(devRules := s.devRules + Copies(r, n))
  {
    if n > 0 {
      RepeatedDevRule(s, r, n - 1);
      assert s.devRules + Copies(r, n - 1) + [r] == s.devRules + Copies(r, n);
    }
  }

  /** The device-rule loop succeeds exactly when every rule is a string, and it keeps the part names. */
  lemma {:induction false} DeviceRuleAllOk(parts: Parts, rs: seq<Value>)
    ensures DeviceRuleAll(parts, rs).Ok? <==> forall i :: 0 <= i < |rs| ==> rs[i].Str?
    ensures DeviceRuleAll(parts, rs).Ok? ==> Keys(DeviceRuleAll(parts, rs).value) == Keys(parts)
  {
    if |rs| > 0 {
      var init := rs[..|rs| - 1];
      DeviceRuleAllOk(parts, init);
      assert forall i :: 0 <= i < |init| ==> init[i] == rs[i];
    }
  }

  /** One rule string appends its copies to each part it names. */
  lemma DeviceRuleGet(parts: Parts, s: string, k: string)
    ensures Get(DeviceRule(parts, Str(s)).value, k) ==
      match Get(parts, k)
      case None => None
      case Some(p) => Some(p.(devRules := p.devRules + DevRuleCopies(Keys(parts), s, k)))
  {
    if s != "ALL_FORWARD" && forall o | o in RuleOperands(s) :: o in Keys(parts) {
      AddRuleEachGet(parts, RuleOperands(s), s, AddDevRule, k);
      if Get(parts, k).Some? {
        RepeatedDevRule(Get(parts, k).value, s, multiset(RuleOperands(s))[k]);
      }
    } else if Get(parts, k).Some? {
      var p := Get(parts, k).value;
      assert p.devRules + [] == p.devRules;
    }
  }

  /** After a successful loop each part holds its old rules followed by the rules naming it, once per mention. */
  lemma {:induction false} DeviceRuleAllGet(parts: Parts, rs: seq<Value>, k: string)
    requires DeviceRuleAll(parts, rs).Ok?
    ensures Get(DeviceRuleAll(parts, rs).value, k) ==
      match Get(parts, k)
      case None => None
      case Some(p) => Some(p.(devRules := p.devRules + DevRulesFor(Keys(parts), rs, k)))
  {
    if |rs| > 0 {
      var init := rs[..|rs| - 1];
      var r := rs[|rs| - 1];
      DeviceRuleAllOk(parts, rs);
      DeviceRuleAllOk(parts, init);
      DeviceRuleAllGet(parts, init, k);
      var prev := DeviceRuleAll(parts, init).value;
      assert r.Str? && DeviceRuleAll(parts, rs) == DeviceRule(prev, r);
      DeviceRuleGet(prev, r.s, k);
      assert DevRulesFor(Keys(parts), rs, k) == DevRulesFor(Keys(parts), init, k) + DevRuleCopies(Keys(parts), r.s, k);
      assert Keys(prev) == Keys(parts);
      if Get(parts, k).Some? {
        var p := Get(parts, k).value;
        Concat3(p.devRules, DevRulesFor(Keys(parts), init, k), DevRuleCopies(Keys(parts), r.s, k));
      }
    } else if Get(parts, k).Some? {
      var p := Get(parts, k).value;
      assert p.devRules + [] == p.devRules;
    }
  }

  /**
   * The corrected pass on a list of rule strings attaches every rule whose
   * operands are all parts to each part it names, once per mention.
   */
  lemma DeviceRulesCorrectedAttach(parts: Parts, v: Value, k: string)
    requires Unwrap(v).Ok? && Unwrap(v).value.Arr? && |Unwrap(v).value.items| > 0
    requires forall i :: 0 <= i < |Unwrap(v).value.items| ==> Unwrap(v).value.items[i].Str?
    ensures DeviceRulesCorrected(parts, v).Ok?
    ensures Get(DeviceRulesCorrected(parts, v).value, k) ==
      match Get(parts, k)
      case None => None
      case Some(p) => Some(p.(devRules := p.devRules + DevRulesFor(Keys(parts), Unwrap(v).value.items, k)))
  {
    var items := Unwrap(v).value.items;
    DeviceRuleAllOk(parts, items);
    assert DeviceRulesCorrected(parts, v) == DeviceRuleAll(parts, items);
    DeviceRuleAllGet(parts, items, k);
  }

  /**
   * A concrete case: a `rules` object holding the rule string
   * `p1 BEFORE p2`.  As written the pass skips it, because the first rule
   * is not a dict; the corrected pass runs the rule loop on it.
   */
  lemma DeviceRuleExample(s: EugeneSequence)
    ensures var parts: Parts := [("p1", s), ("p2", s)];
      var v := Obj([("rules", Arr([Str("p1 BEFORE p2")]))]);
      && DeviceRules(parts, v) == Ok(parts)
      && DeviceRulesCorrected(parts, v) == DeviceRuleAll(parts, [Str("p1 BEFORE p2")])
  {
    var parts: Parts := [("p1", s), ("p2", s)];
    var rules := Arr([Str("p1 BEFORE p2")]);
    var v := Obj([("rules", rules)]);
    assert Keys(v.fields) == ["rules"];
    assert Subscript(v, "rules") == Ok(rules);
    assert "rules" != "p1 BEFORE p2";
    assert PyIn("rules", rules) == Ok(false);
    assert Unwrap(rules) == Ok(rules);
    assert Unwrap(v) == Ok(rules);
  }

  // ---------------------------------------------------------------------
  // Circuit rules
  // ---------------------------------------------------------------------

  function AddCirRule(c: EugeneCassette, r: string): EugeneCassette
  {
    c.(cirRules := c.cirRules + [r])
  }

  /** An operand is known when it names a cassette or is a fencepost symbol. */
  predicate Known(keys: seq<string>, fps: seq<Value>, o: string)
  {
    o in keys || Str(o) in fps
  }

  /** A circuit rule is attached when it is not `ALL_FORWARD` and all its operands are known. */
  predicate Accepted(keys: seq<string>, fps: seq<Value>, s: string)
  {
    s != "ALL_FORWARD" && forall o | o in RuleOperands(s) :: Known(keys, fps, o)
  }

  /** One circuit rule: an accepted rule is appended to each operand that names a cassette. */
  function CircuitRule(cas: Cassettes, fps: seq<Value>, r: Value): Result<Cassettes>
  {
    match r
    case Str(s) =>
      if Accepted(Keys(cas), fps, s) then Ok(AddRuleEach(cas, RuleOperands(s), s, AddCirRule)) else Ok(cas)
    case _ => Err(AttributeError)
  }

  function CircuitRuleAll(cas: Cassettes, fps: seq<Value>, rs: seq<Value>): Result<Cassettes>
  {
    if |rs| == 0 then Ok(cas)
    else
      match CircuitRuleAll(cas, fps, rs[..|rs| - 1])
      case Err(e) => Err(e)
      case Ok(c) => CircuitRule(c, fps, rs[|rs| - 1])
  }

  /** The circuit-rule pass on `circuit_rules[0]`: unwrap it and run the rule loop over what it holds. */
  function CircuitRules(cas: Cassettes, fps: seq<Value>, v: Value): Result<Cassettes>
  {
    match Unwrap(v)
    case Err(e) => Err(e)
    case Ok(w) =>
      match Iterate(w)
      case Err(e) => Err(e)
      case Ok(items) => CircuitRuleAll(cas, fps, items)
  }

  /** `n` copies of `r`. */
  function Copies(r: string, n: nat): (rs: seq<string>)
    ensures |rs| == n && forall i :: 0 <= i < n ==> rs[i] == r
  {
    if n == 0 then [] else Copies(r, n - 1) + [r]
  }

  /** The rules the loop appends to cassette `k`, in order: an accepted rule once per occurrence of `k` among its operands. */
  function RulesFor(keys: seq<string>, fps: seq<Value>, rs: seq<Value>, k: string): seq<string>
  {
    if |rs| == 0 then []
    else
      var r := rs[|rs| - 1];
      RulesFor(keys, fps, rs[..|rs| - 1], k) + (if r.Str? then RuleCopies(keys, fps, r.s, k) else [])
  }

  lemma {:induction false} RepeatedCirRule(c: EugeneCassette, r: string, n: nat)
    ensures Repeated(c, r, n, AddCirRule) == c.(cirRules := c.cirRules + Copies(r, n))
  {
    if n > 0 {
      RepeatedCirRule(c, r, n - 1);
      assert c.cirRules + Copies(r, n - 1) + [r] == c.cirRules + Copies(r, n);
    }
  }

  /** The loop succeeds exactly when every rule is a string, and it keeps the cassette names. */
  lemma {:induction false} CircuitRuleAllOk(cas: Cassettes, fps: seq<Value>, rs: seq<Value>)
    ensures CircuitRuleAll(cas, fps, rs).Ok? <==> forall i :: 0 <= i < |rs| ==> rs[i].Str?
    ensures CircuitRuleAll(cas, fps, rs).Ok? ==> Keys(CircuitRuleAll(cas, fps, rs).value) == Keys(cas)
    ensures CircuitRuleAll(cas, fps, rs).Err? ==> CircuitRuleAll(cas, fps, rs).error == AttributeError
  {
    if |rs| > 0 {
      var init := rs[..|rs| - 1];
      CircuitRuleAllOk(cas, fps, init);
      assert forall i :: 0 <= i < |init| ==> init[i] == rs[i];
    }
  }

  /** The rules one accepted-or-not rule appends to cassette `k`. */
  function RuleCopies(keys: seq<string>, fps: seq<Value>, s: string, k: string): seq<string>
  {
    if Accepted(keys, fps, s) then Copies(s, multiset(RuleOperands(s))[k]) else []
  }

  lemma Concat3<T>(a: seq<T>, b: seq<T>, c: seq<T>)
    ensures a + b + c == a + (b + c)
  {
  }

  /** One rule appends its copies to each cassette it names. */
  lemma CircuitRuleGet(cas: Cassettes, fps: seq<Value>, s: string, k: string)
    ensures Get(CircuitRule(cas, fps, Str(s)).value, k) ==
      match Get(cas, k)
      case None => None
      case Some(c) => Some(c.(cirRules := c.cirRules + RuleCopies(Keys(cas), fps, s, k)))
  {
    if Accepted(Keys(cas), fps, s) {
      AddRuleEachGet(cas, RuleOperands(s), s, AddCirRule, k);
      if Get(cas, k).Some? {
        RepeatedCirRule(Get(cas, k).value, s, multiset(RuleOperands(s))[k]);
      }
    } else if Get(cas, k).Some? {
      var c := Get(cas, k).value;
      assert c.cirRules + [] == c.cirRules;
    }
  }

  /**
   * After the loop each cassette holds its old circuit rules followed by
   * the accepted rules naming it (once per mention); no cassette is added
   * or removed.
   */
  lemma {:induction false} CircuitRuleAllGet(cas: Cassettes, fps: seq<Value>, rs: seq<Value>, k: string)
    requires CircuitRuleAll(cas, fps, rs).Ok?
    ensures Get(CircuitRuleAll(cas, fps, rs).value, k) ==
      match Get(cas, k)
      case None => None
      case Some(c) => Some(c.(cirRules := c.cirRules + RulesFor(Keys(cas), fps, rs, k)))
  {
    if |rs| > 0 {
      var init := rs[..|rs| - 1];
      var r := rs[|rs| - 1];
      CircuitRuleAllOk(cas, fps, rs);
      CircuitRuleAllOk(cas, fps, init);
      CircuitRuleAllGet(cas, fps, init, k);
      var prev := CircuitRuleAll(cas, fps, init).value;
      assert r.Str? && CircuitRuleAll(cas, fps, rs) == CircuitRule(prev, fps, r);
      CircuitRuleGet(prev, fps, r.s, k);
      assert RulesFor(Keys(cas), fps, rs, k) == RulesFor(Keys(cas), fps, init, k) + RuleCopies(Keys(cas), fps, r.s, k);
      assert Keys(prev) == Keys(cas);
      if Get(cas, k).Some? {
        var c := Get(cas, k).value;
        Concat3(c.cirRules, RulesFor(Keys(cas), fps, init, k), RuleCopies(Keys(cas), fps, r.s, k));
      }
    } else if Get(cas, k).Some? {
      var c := Get(cas, k).value;
      assert c.cirRules + [] == c.cirRules;
    }
  }

  /** A rule with an operand that is neither a cassette nor a fencepost reaches no cassette. */
  lemma UnknownOperandRejected(keys: seq<string>, fps: seq<Value>, s: string, o: string)
    requires o in RuleOperands(s) && !Known(keys, fps, o)
    ensures !Accepted(keys, fps, s)
  {
  }

  // ---------------------------------------------------------------------
  // The whole pass
  // ---------------------------------------------------------------------

  /** What `generate_eugene_helpers` leaves behind. */
  datatype HelperState = HelperState(fenceposts: seq<Value>, parts: Parts, cassettes: Cassettes)

  /**
   * The pass in source order: fenceposts, then `device_rules[0]` and
   * `circuit_rules[0]` (IndexError when a collection is missing), then the
   * device-rule pass and the circuit-rule pass, which sees the new
   * fenceposts.
   */
  function GenerateHelpers(st: HelperState, genLocs: seq<Value>, devRules: seq<Value>, cirRules: seq<Value>): Result<HelperState>
  {
    match Fenceposts(genLocs)
    case Err(e) => Err(e)
    case Ok(syms) =>
      var fps := st.fenceposts + syms;
      if |devRules| == 0 || |cirRules| == 0 then Err(IndexError)
      else
        match DeviceRules(st.parts, devRules[0])
        case Err(e) => Err(e)
        case Ok(parts) =>
          match CircuitRules(st.cassettes, fps, cirRules[0])
          case Err(e) => Err(e)
          case Ok(cas) => Ok(HelperState(fps, parts, cas))
  }

  /**
   * A successful pass appends the location symbols to the fenceposts,
   * leaves the parts as they were, and keeps the cassette names.
   */
  lemma GenerateHelpersSpec(st: HelperState, genLocs: seq<Value>, devRules: seq<Value>, cirRules: seq<Value>)
    requires GenerateHelpers(st, genLocs, devRules, cirRules).Ok?
    ensures var r := GenerateHelpers(st, genLocs, devRules, cirRules).value;
      && r.fenceposts == st.fenceposts + Fenceposts(genLocs).value
      && r.parts == st.parts
      && Keys(r.cassettes) == Keys(st.cassettes)
  {
    DeviceRulesNeverAttach(st.parts, devRules[0]);
    var w := Unwrap(cirRules[0]).value;
    CircuitRuleAllOk(st.cassettes, st.fenceposts + Fenceposts(genLocs).value, Iterate(w).value);
  }

  // ---------------------------------------------------------------------
  // The loops
  // ---------------------------------------------------------------------

  lemma {:induction false} SymbolsErrKept(locs: seq<Value>, n: nat)
    requires n <= |locs| && Symbols(locs[..n]).Err?
    ensures Symbols(locs) == Symbols(locs[..n])
    decreases |locs| - n
  {
    if n < |locs| {
      assert locs[..n + 1][..n] == locs[..n];
      SymbolsErrKept(locs, n + 1);
    } else {
      assert locs[..n] == locs;
    }
  }

  /** `genetic_locations[0]['locations']` and the loop appending each `location['symbol']`. */
  method ReadFenceposts(genLocs: seq<Value>) returns (r: Result<seq<Value>>)
    ensures r == Fenceposts(genLocs)
  {
    if |genLocs| == 0 {
      return Err(IndexError);
    }
    var locations := Subscript(genLocs[0], "locations");
    if locations.Err? {
      return Err(locations.error);
    }
    var items := Iterate(locations.value);
    if items.Err? {
      return Err(items.error);
    }
    var locs := items.value;
    var syms: seq<Value> := [];
    for i := 0 to |locs|
      invariant Symbols(locs[..i]) == Ok(syms)
    {
      assert locs[..i + 1][..i] == locs[..i];
      var sym := Subscript(locs[i], "symbol");
      if sym.Err? {
        SymbolsErrKept(locs, i + 1);
        return Err(sym.error);
      }
      syms := syms + [sym.value];
    }
    assert locs[..|locs|] == locs;
    return Ok(syms);
  }

  /** `while 'rules' in v: v = v['rules']`. */
  method UnwrapRules(v: Value) returns (r: Result<Value>)
    ensures r == Unwrap(v)
  {
    var w := v;
    while true
      invariant Unwrap(w) == Unwrap(v)
      decreases w
    {
      var found := PyIn("rules", w);
      if found.Err? {
        return Err(found.error);
      }
      if !found.value {
        return Ok(w);
      }
      var next := Subscript(w, "rules");
      if next.Err? {
        return Err(next.error);
      }
      SubscriptSmaller(w, "rules");
      w := next.value;
    }
  }

  lemma {:induction false} DeviceRuleAllErrKept(parts: Parts, rs: seq<Value>, n: nat)
    requires n <= |rs| && DeviceRuleAll(parts, rs[..n]).Err?
    ensures DeviceRuleAll(parts, rs) == DeviceRuleAll(parts, rs[..n])
    decreases |rs| - n
  {
    if n < |rs| {
      assert rs[..n + 1][..n] == rs[..n];
      DeviceRuleAllErrKept(parts, rs, n + 1);
    } else {
      assert rs[..n] == rs;
    }
  }

  /** The device-rule pass on `device_rules[0]`, with its rule loop and operand loop. */
  method DeviceRulePass(parts: Parts, v: Value) returns (r: Result<Parts>)
    ensures r == DeviceRules(parts, v)
  {
    var w := UnwrapRules(v);
    if w.Err? {
      return Err(w.error);
    }
    var first := First(w.value);
    if first.Err? {
      return Err(first.error);
    }
    if !first.value.Obj? {
      return Ok(parts);
    }
    assert w.value.Arr?;
    r := DeviceRuleLoop(parts, w.value.items);
  }

  /** `for r in device_rules: ...`: the rule loop with its operand loop. */
  method DeviceRuleLoop(parts: Parts, rs: seq<Value>) returns (r: Result<Parts>)
    ensures r == DeviceRuleAll(parts, rs)
  {
    var acc := parts;
    for i := 0 to |rs|
      invariant DeviceRuleAll(parts, rs[..i]) == Ok(acc)
    {
      assert rs[..i + 1][..i] == rs[..i];
      if !rs[i].Str? {
        DeviceRuleAllErrKept(parts, rs, i + 1);
        return Err(AttributeError);
      }
      var rule := rs[i].s;
      if rule != "ALL_FORWARD" {
        var operands := RuleOperands(rule);
        if forall o | o in operands :: o in Keys(acc) {
          acc := AddRuleLoop(acc, operands, rule, AddDevRule);
        }
      }
    }
    assert rs[..|rs|] == rs;
    return Ok(acc);
  }

  lemma {:induction false} CircuitRuleAllErrKept(cas: Cassettes, fps: seq<Value>, rs: seq<Value>, n: nat)
    requires n <= |rs| && CircuitRuleAll(cas, fps, rs[..n]).Err?
    ensures CircuitRuleAll(cas, fps, rs) == CircuitRuleAll(cas, fps, rs[..n])
    decreases |rs| - n
  {
    if n < |rs| {
      assert rs[..n + 1][..n] == rs[..n];
      CircuitRuleAllErrKept(cas, fps, rs, n + 1);
    } else {
      assert rs[..n] == rs;
    }
  }

  /** The circuit-rule pass on `circuit_rules[0]`, with its rule loop and operand loop. */
  method CircuitRulePass(cas: Cassettes, fps: seq<Value>, v: Value) returns (r: Result<Cassettes>)
    ensures r == CircuitRules(cas, fps, v)
  {
    var w := UnwrapRules(v);
    if w.Err? {
      return Err(w.error);
    }
    var items := Iterate(w.value);
    if items.Err? {
      return Err(items.error);
    }
    r := CircuitRuleLoop(cas, fps, items.value);
  }

  /** `for r in circuit_rules: ...`: the rule loop with its operand loop. */
  method CircuitRuleLoop(cas: Cassettes, fps: seq<Value>, rs: seq<Value>) returns (r: Result<Cassettes>)
    ensures r == CircuitRuleAll(cas, fps, rs)
  {
    var acc := cas;
    for i := 0 to |rs|
      invariant CircuitRuleAll(cas, fps, rs[..i]) == Ok(acc)
    {
      assert rs[..i + 1][..i] == rs[..i];
      if !rs[i].Str? {
        CircuitRuleAllErrKept(cas, fps, rs, i + 1);
        return Err(AttributeError);
      }
      var rule := rs[i].s;
      if rule != "ALL_FORWARD" {
        var operands := RuleOperands(rule);
        if forall o | o in operands :: o in Keys(acc) || Str(o) in fps {
          acc := AddRuleLoop(acc, operands, rule, AddCirRule);
        }
      }
    }
    assert rs[..|rs|] == rs;
    return Ok(acc);
  }
}
