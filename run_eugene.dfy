/**
 * The Python side of the miniEugene call in
 * core_algorithm/utils/py4j_gateway/run_eugene_script.py: the circuit rules
 * are augmented with `<part> EXACTLY 1` rules, a part count is derived from
 * them and from the largest `[n]` of an EQUALS rule, the rules are handed
 * reversed to the Java permuter, and its answer is converted and thinned
 * to at most five orders.  The Java `miniPermute` itself is a parameter.
 */
module RunEugene {
  import opened Wrappers
  import opened PyStr
  import opened PyInt

  // ---------------------------------------------------------------------
  // Rule augmentation
  // ---------------------------------------------------------------------

  /** `'CONTAINS ' in rule`. */
  predicate Triggers(r: string)
  {
    ContainsStr(r, "CONTAINS ")
  }

  /** A string holding a space splits on ' ' into at least two parts. */
  lemma {:induction false} SplitSpace(s: string)
    requires ' ' in s
    ensures |Split(s, ' ')| >= 2
  {
    if s[0] != ' ' {
      SplitSpace(s[1..]);
    }
  }

  lemma TriggersHasSpace(r: string)
    requires Triggers(r)
    ensures ' ' in r
  {
    var i :| MatchAt(r, "CONTAINS ", i);
    assert r[i + 8] == "CONTAINS "[8];
  }

  /** `f'{rule.split(" ")[1]} EXACTLY 1'`. */
  function Exactly(r: string): (e: string)
    requires Triggers(r)
  {
    TriggersHasSpace(r);
    SplitSpace(r);
    Split(r, ' ')[1] + " EXACTLY 1"
  }

  /** The rules appended for the triggering rules of `xs`, in order. */
  function Ex(xs: seq<string>): (r: seq<string>)
    ensures |r| <= |xs|
  {
    if |xs| == 0 then []
    else
      var last := xs[|xs| - 1];
      Ex(xs[..|xs| - 1]) + (if Triggers(last) then [Exactly(last)] else [])
  }

  lemma {:induction false} ExAppend(a: seq<string>, b: seq<string>)
    ensures Ex(a + b) == Ex(a) + Ex(b)
    decreases |b|
  {
    if |b| > 0 {
      assert (a + b)[..|a + b| - 1] == a + b[..|b| - 1];
      ExAppend(a, b[..|b| - 1]);
    } else {
      assert a + b == a;
    }
  }

  /**
   * The list the augmentation loop ends with: the rules, the EXACTLY rules
   * for them, and the EXACTLY rules for those.
   */
  function Augmented(rules: seq<string>): seq<string>
  {
    rules + Ex(rules) + Ex(Ex(rules))
  }

  const ExactlyExactly: string := "EXACTLY EXACTLY 1"

  /** An appended rule: a space-free word followed by " EXACTLY 1". */
  predicate Shaped(y: string)
  {
    |y| >= 10 && y[|y| - 10..] == " EXACTLY 1" && ' ' !in y[..|y| - 10]
  }

  lemma ExactlyShaped(r: string)
    requires Triggers(r)
    ensures Shaped(Exactly(r))
  {
    TriggersHasSpace(r);
    SplitSpace(r);
    var x := Split(r, ' ')[1];
    var y := Exactly(r);
    assert y[..|y| - 10] == x;
    assert y[|y| - 10..] == " EXACTLY 1";
  }

  lemma {:induction false} SplitWord(x: string, rest: string)
    requires ' ' !in x
    ensures Split(x + " " + rest, ' ') == [x] + Split(rest, ' ')
    decreases |x|
  {
    var s := x + " " + rest;
    if |x| == 0 {
      assert s == [' '] + rest;
      assert s[0] == ' ' && s[1..] == rest;
      assert Split(s, ' ') == [""] + Split(rest, ' ');
    } else {
      assert x[0] != ' ' && ' ' !in x[1..];
      SplitWord(x[1..], rest);
      assert s[0] == x[0] && s[1..] == x[1..] + " " + rest;
      assert [x[0]] + x[1..] == x;
    }
  }

  /** The second word of an appended rule is "EXACTLY". */
  lemma ShapedSplit(y: string)
    requires Shaped(y)
    ensures |Split(y, ' ')| >= 2 && Split(y, ' ')[1] == "EXACTLY"
  {
    var x := y[..|y| - 10];
    assert y == x + " " + "EXACTLY 1";
    SplitWord(x, "EXACTLY 1");
    SplitWord("EXACTLY", "1");
    assert "EXACTLY 1" == "EXACTLY" + " " + "1";
  }

  lemma AppendedRulesInert()
    ensures !Triggers(ExactlyExactly)
  {
    var s := ExactlyExactly;
    assert forall k :: 0 <= k < |s| ==> s[k] != 'O';
    assert forall i :: MatchAt(s, "CONTAINS ", i) ==> s[i + 1] == 'O';
  }

  /** Re-augmenting an appended rule gives "EXACTLY EXACTLY 1", which adds nothing more. */
  lemma ShapedExactly(y: string)
    requires Shaped(y) && Triggers(y)
    ensures Exactly(y) == ExactlyExactly
  {
    ShapedSplit(y);
  }

  lemma {:induction false} ExShaped(xs: seq<string>)
    ensures forall k :: 0 <= k < |Ex(xs)| ==> Shaped(Ex(xs)[k])
  {
    if |xs| > 0 {
      ExShaped(xs[..|xs| - 1]);
      var last := xs[|xs| - 1];
      if Triggers(last) {
        ExactlyShaped(last);
      }
    }
  }

  /** The third generation is empty. */
  lemma {:induction false} ThreeRoundsFixedPoint(rules: seq<string>)
    ensures Ex(Ex(Ex(rules))) == []
  {
    var g1 := Ex(rules);
    var g2 := Ex(g1);
    ExShaped(rules);
    ExOfShaped(g1);
    AppendedRulesInert();
    assert forall k :: 0 <= k < |g2| ==> !Triggers(g2[k]);
    ExInert(g2);
  }

  /** Re-augmenting appended rules gives only "EXACTLY EXACTLY 1". */
  lemma {:induction false} ExOfShaped(xs: seq<string>)
    requires forall k :: 0 <= k < |xs| ==> Shaped(xs[k])
    ensures forall k :: 0 <= k < |Ex(xs)| ==> Ex(xs)[k] == ExactlyExactly
  {
    if |xs| > 0 {
      ExOfShaped(xs[..|xs| - 1]);
      var last := xs[|xs| - 1];
      if Triggers(last) {
        ShapedExactly(last);
      }
    }
  }

  lemma {:induction false} ExInert(xs: seq<string>)
    requires forall k :: 0 <= k < |xs| ==> !Triggers(xs[k])
    ensures Ex(xs) == []
  {
    if |xs| > 0 {
      ExInert(xs[..|xs| - 1]);
    }
  }

  /** `Augmented(rules)` is a fixed point of the loop: processing all of it adds itself. */
  lemma AugmentedFixedPoint(rules: seq<string>)
    ensures Augmented(rules) == rules + Ex(Augmented(rules))
  {
    ExAppend(rules, Ex(rules));
    ExAppend(rules + Ex(rules), Ex(Ex(rules)));
    ThreeRoundsFixedPoint(rules);
  }

  lemma {:induction false} ExFull(t: seq<string>)
    requires |Ex(t)| == |t|
    ensures forall k :: 0 <= k < |t| ==> Triggers(t[k])
    ensures |t| > 0 ==> Ex(t)[0] == Exactly(t[0])
  {
    if |t| > 0 {
      var init := t[..|t| - 1];
      assert |Ex(init)| <= |init|;
      assert Triggers(t[|t| - 1]);
      ExFull(init);
      if |init| == 0 {
        assert Ex(init) == [];
      }
    }
  }

  /** No triggering rule is its own EXACTLY rule. */
  lemma NoSelfExactly(r: string)
    requires Triggers(r)
    ensures Exactly(r) != r
  {
    if Exactly(r) == r {
      ExactlyShaped(r);
      ShapedExactly(r);
      AppendedRulesInert();
    }
  }

  lemma SuffixCancel<T>(a: seq<T>, t: seq<T>, u: seq<T>)
    requires a + t == a + u
    ensures t == u
  {
    assert (a + t)[|a|..] == t;
    assert (a + u)[|a|..] == u;
  }

  lemma CancelPrefix<T>(rules: seq<T>, cur: seq<T>, t: seq<T>, ec: seq<T>, et: seq<T>)
    requires cur + t == rules + (ec + et)
    requires cur == rules + ec
    ensures t == et
  {
    assert cur + t == cur + et;
    SuffixCancel(cur, t, et);
  }

  /** Against any fixed point `f` of the step, the part of `f` after a self-consistent prefix is its own image. */
  lemma TailFixed(rules: seq<string>, cur: seq<string>, f: seq<string>)
    requires f == rules + Ex(f)
    requires cur <= f && cur == rules + Ex(cur)
    ensures Ex(f[|cur|..]) == f[|cur|..]
  {
    var t := f[|cur|..];
    assert f == cur + t;
    ExAppend(cur, t);
    CancelPrefix(rules, cur, t, Ex(cur), Ex(t));
  }

  /** A prefix of the final list that has processed all of itself is the whole list. */
  lemma PrefixDone(rules: seq<string>, cur: seq<string>)
    requires cur <= Augmented(rules)
    requires cur == rules + Ex(cur)
    ensures cur == Augmented(rules)
  {
    var f := Augmented(rules);
    AugmentedFixedPoint(rules);
    TailFixed(rules, cur, f);
    var t := f[|cur|..];
    if |t| > 0 {
      ExFull(t);
      NoSelfExactly(t[0]);
    }
    assert f == cur + t;
  }

  /** One loop step keeps the processed list a prefix of the final list. */
  lemma PrefixStep(rules: seq<string>, cur: seq<string>, n: nat)
    requires n < |cur| && cur <= Augmented(rules)
    requires cur == rules + Ex(cur[..n])
    ensures rules + Ex(cur[..n + 1]) <= Augmented(rules)
  {
    var f := Augmented(rules);
    AugmentedFixedPoint(rules);
    assert cur[..n + 1] == f[..n + 1];
    assert f == f[..n + 1] + f[n + 1..];
    ExAppend(f[..n + 1], f[n + 1..]);
  }

  /** The loop invariant of `AugmentRules` survives visiting `cur[n]`. */
  lemma LoopStep(rules: seq<string>, cur: seq<string>, n: nat)
    requires n < |cur| && cur <= Augmented(rules)
    requires cur == rules + Ex(cur[..n])
    ensures var next := if Triggers(cur[n]) then cur + [Exactly(cur[n])] else cur;
      n + 1 <= |next| && next <= Augmented(rules) && next == rules + Ex(next[..n + 1])
  {
    PrefixStep(rules, cur, n);
    var next := if Triggers(cur[n]) then cur + [Exactly(cur[n])] else cur;
    assert next[..n + 1] == cur[..n + 1];
    assert cur[..n + 1][..n] == cur[..n];
  }

  /**
   * The first loop of `call_mini_eugene`: it walks the list while appending
   * to it, so appended rules are visited too.  Returns the final list and
   * the number of triggering rules seen.
   */
  method AugmentRules(rules: seq<string>) returns (cur: seq<string>, partCount: nat)
    ensures cur == Augmented(rules)
    ensures partCount == |Ex(cur)| == |cur| - |rules|
  {
    cur := rules;
    partCount := 0;
    var n := 0;
    assert cur[..n] == [];
    while n < |cur|
      invariant n <= |cur| && cur <= Augmented(rules)
      invariant cur == rules + Ex(cur[..n])
      invariant partCount == |cur| - |rules|
      decreases |Augmented(rules)| - n
    {
      var rule := cur[n];
      LoopStep(rules, cur, n);
      if Triggers(rule) {
        cur := cur + [Exactly(rule)];
        partCount := partCount + 1;
      }
      n := n + 1;
    }
    assert cur[..n] == cur;
    PrefixDone(rules, cur);
  }

  /** The caller's list keeps its rules, in order, and gains only EXACTLY rules. */
  lemma AugmentedKeepsRules(rules: seq<string>)
    ensures rules <= Augmented(rules)
    ensures forall k :: |rules| <= k < |Augmented(rules)| ==> Shaped(Augmented(rules)[k])
  {
    var g1 := Ex(rules);
    ExShaped(rules);
    ExShaped(g1);
    var f := Augmented(rules);
    assert f[..|rules|] == rules;
    forall k | |rules| <= k < |f|
      ensures Shaped(f[k])
    {
      if k < |rules| + |g1| {
        assert f[k] == g1[k - |rules|];
      } else {
        assert f[k] == Ex(g1)[k - |rules| - |g1|];
      }
    }
  }

  // ---------------------------------------------------------------------
  // The EQUALS index: re.search('(?<=\[)(.*)(?=\])', rule)[0]
  // ---------------------------------------------------------------------

  /** The first position at or after `from` holding a newline, or `|s|`. */
  function LineEnd(s: string, from: nat): (e: nat)
    requires from <= |s|
    ensures from <= e <= |s|
    ensures e < |s| ==> s[e] == '\n'
    ensures forall k :: from <= k < e ==> s[k] != '\n'
    decreases |s| - from
  {
    if from == |s| || s[from] == '\n' then from else LineEnd(s, from + 1)
  }

  /** The last ']' in `s[from..to]`, if any. */
  function LastClose(s: string, from: nat, stop: nat): (q: Option<nat>)
    requires from <= stop <= |s|
    ensures q.Some? ==> from <= q.value < stop && s[q.value] == ']'
    ensures q.Some? ==> (forall k :: q.value < k < stop ==> s[k] != ']')
    ensures q.None? ==> (forall k :: from <= k < stop ==> s[k] != ']')
    decreases stop
  {
    if stop == from then None
    else if s[stop - 1] == ']' then Some(stop - 1)
    else LastClose(s, from, stop - 1)
  }

  /**
   * The leftmost match of `(?<=\[)(.*)(?=\])`, searched from `p`: a position
   * preceded by '[' from which the greedy `.*` (no newlines) can stop right
   * before a ']'; it stops before the last such ']' on that line.
   */
  function BracketFrom(s: string, p: nat): (m: Option<string>)
    requires 1 <= p <= |s| + 1
    ensures m.Some? ==> exists i :: BracketAt(s, i, m.value)
    ensures m.Some? ==> '\n' !in m.value
    decreases |s| + 1 - p
  {
    if p > |s| then None
    else if s[p - 1] == '[' then
      match LastClose(s, p, LineEnd(s, p))
      case Some(q) =>
        assert BracketAt(s, p, s[p..q]);
        Some(s[p..q])
      case None => BracketFrom(s, p + 1)
    else BracketFrom(s, p + 1)
  }

  /** `m` sits at position `i` of `s` between a '[' and a ']'. */
  predicate BracketAt(s: string, i: int, m: string)
  {
    1 <= i && i + |m| < |s| && s[i - 1] == '[' && s[i..i + |m|] == m && s[i + |m|] == ']'
  }

  function Bracket(s: string): Option<string>
  {
    BracketFrom(s, 1)
  }

  /** `' EQUALS ' in rule`. */
  predicate IsEquals(r: string)
  {
    ContainsStr(r, " EQUALS ")
  }

  /**
   * `int(re.search(...)[0])`: a missing match is `None[0]`, a TypeError;
   * an unparsable match a ValueError.
   */
  function EqualsIndex(r: string): (k: Result<int>)
    ensures k.Err? ==> k.error == TypeError || k.error == ValueError
  {
    match Bracket(r)
    case None => Err(TypeError)
    case Some(m) =>
      match ParseInt(m, 10)
      case None => Err(ValueError)
      case Some(k) => Ok(k)
  }

  /** The running `max` of the second loop over `xs`, from 0; the first failing rule stops it. */
  function MaxIndex(xs: seq<string>): (r: Result<int>)
  {
    if |xs| == 0 then Ok(0)
    else
      match MaxIndex(xs[..|xs| - 1])
      case Err(e) => Err(e)
      case Ok(m) =>
        var last := xs[|xs| - 1];
        if !IsEquals(last) then Ok(m)
        else match EqualsIndex(last)
          case Err(e) => Err(e)
          case Ok(k) => Ok(if k > m then k else m)
  }

  /** The running max is never below 0 and bounds every EQUALS index. */
  lemma {:induction false} MaxIndexBound(xs: seq<string>)
    requires MaxIndex(xs).Ok?
    ensures MaxIndex(xs).value >= 0
    ensures forall k :: 0 <= k < |xs| && IsEquals(xs[k]) ==>
              EqualsIndex(xs[k]).Ok? && EqualsIndex(xs[k]).value <= MaxIndex(xs).value
  {
    if |xs| > 0 {
      var init := xs[..|xs| - 1];
      MaxIndexBound(init);
      assert forall k :: 0 <= k < |init| ==> xs[k] == init[k];
    }
  }

  /** What each rule contributes to the running max: its EQUALS index, or nothing. */
  function Indexes(xs: seq<string>): (r: seq<Option<Result<int>>>)
    ensures |r| == |xs|
    ensures forall k :: 0 <= k < |xs| ==> r[k] == if IsEquals(xs[k]) then Some(EqualsIndex(xs[k])) else None
  {
    seq(|xs|, k requires 0 <= k < |xs| => if IsEquals(xs[k]) then Some(EqualsIndex(xs[k])) else None)
  }

  /** The running max over the contributions, from 0; the first error stops it. */
  function RunningMax(rs: seq<Option<Result<int>>>): Result<int>
  {
    if |rs| == 0 then Ok(0)
    else
      match RunningMax(rs[..|rs| - 1])
      case Err(e) => Err(e)
      case Ok(m) =>
        match rs[|rs| - 1]
        case None => Ok(m)
        case Some(Err(e)) => Err(e)
        case Some(Ok(k)) => Ok(if k > m then k else m)
  }

  lemma {:induction false} RunningMaxAttained(rs: seq<Option<Result<int>>>)
    requires RunningMax(rs).Ok? && RunningMax(rs).value != 0
    ensures exists k :: 0 <= k < |rs| && rs[k] == Some(RunningMax(rs))
  {
    var n := |rs| - 1;
    var init := rs[..n];
    if rs[n] != Some(RunningMax(rs)) {
      RunningMaxAttained(init);
      var k :| 0 <= k < |init| && init[k] == Some(RunningMax(init));
      assert rs[k] == init[k];
    }
  }

  lemma {:induction false} MaxIndexRunning(xs: seq<string>)
    ensures MaxIndex(xs) == RunningMax(Indexes(xs))
  {
    if |xs| > 0 {
      var init := xs[..|xs| - 1];
      MaxIndexRunning(init);
      assert Indexes(xs)[..|xs| - 1] == Indexes(init);
    }
  }

  /** A positive running max is the index of some EQUALS rule. */
  lemma MaxIndexAttained(xs: seq<string>)
    requires MaxIndex(xs).Ok? && MaxIndex(xs).value != 0
    ensures exists k :: 0 <= k < |xs| && IsEquals(xs[k]) && EqualsIndex(xs[k]) == MaxIndex(xs)
  {
    MaxIndexRunning(xs);
    RunningMaxAttained(Indexes(xs));
    var k :| 0 <= k < |xs| && Indexes(xs)[k] == Some(MaxIndex(xs));
    assert IsEquals(xs[k]) && EqualsIndex(xs[k]) == MaxIndex(xs);
  }

  /** One more rule for the running max. */
  lemma MaxIndexStep(xs: seq<string>, n: nat, m: int)
    requires n < |xs| && MaxIndex(xs[..n]) == Ok(m)
    ensures !IsEquals(xs[n]) ==> MaxIndex(xs[..n + 1]) == Ok(m)
    ensures IsEquals(xs[n]) && EqualsIndex(xs[n]).Err? ==>
              MaxIndex(xs[..n + 1]) == Err(EqualsIndex(xs[n]).error)
    ensures IsEquals(xs[n]) && EqualsIndex(xs[n]).Ok? ==>
              MaxIndex(xs[..n + 1]) == Ok(if EqualsIndex(xs[n]).value > m then EqualsIndex(xs[n]).value else m)
  {
    assert xs[..n + 1][..n] == xs[..n];
  }

  /** The second loop, which stops at the first rule whose index cannot be read. */
  method MaxEqualsIndex(rules: seq<string>) returns (r: Result<int>)
    ensures r == MaxIndex(rules)
  {
    var max := 0;
    var n := 0;
    while n < |rules|
      invariant n <= |rules|
      invariant MaxIndex(rules[..n]) == Ok(max)
    {
      var rule := rules[n];
      MaxIndexStep(rules, n, max);
      if IsEquals(rule) {
        var index := EqualsIndex(rule);
        if index.Err? {
          MaxIndexErrStays(rules, n + 1);
          return Err(index.error);
        }
        if index.value > max {
          max := index.value;
        }
      }
      n := n + 1;
    }
    assert rules[..n] == rules;
    return Ok(max);
  }

  /** Once the running max fails on a prefix, it fails the same way on the whole list. */
  lemma {:induction false} MaxIndexErrStays(xs: seq<string>, n: nat)
    requires n <= |xs| && MaxIndex(xs[..n]).Err?
    ensures MaxIndex(xs) == MaxIndex(xs[..n])
    decreases |xs| - n
  {
    if n < |xs| {
      assert xs[..n + 1][..n] == xs[..n];
      MaxIndexErrStays(xs, n + 1);
    } else {
      assert xs[..n] == xs;
    }
  }

  /** `part_count` after the EQUALS adjustment. */
  function AdjustedCount(partCount: nat, max: int): nat
  {
    if max > partCount then max + 2 else partCount
  }

  // ---------------------------------------------------------------------
  // Reversal around the Java call
  // ---------------------------------------------------------------------

  function Reverse<T>(s: seq<T>): (r: seq<T>)
    ensures |r| == |s|
    ensures forall i :: 0 <= i < |s| ==> r[i] == s[|s| - 1 - i]
  {
    if |s| == 0 then [] else [s[|s| - 1]] + Reverse(s[..|s| - 1])
  }

  /** `rules.reverse()` twice restores the list. */
  lemma ReverseReverse<T>(s: seq<T>)
    ensures Reverse(Reverse(s)) == s
  {
  }

  // ---------------------------------------------------------------------
  // Converting and thinning the Java answer
  // ---------------------------------------------------------------------

  /** A Java part order: a list of names, any of which may be null. */
  type Row = seq<Option<string>>

  /**
   * The rows `convert_to_list_of_lists` keeps: those whose first element is
   * not None.  An empty row fails on `component[0]`.
   */
  function KeptRows(rows: seq<Row>): (r: Result<seq<Row>>)
    ensures r.Err? ==> r.error == IndexError
    ensures r.Ok? ==> |r.value| <= |rows|
  {
    if |rows| == 0 then Ok([])
    else
      match KeptRows(rows[..|rows| - 1])
      case Err(e) => Err(e)
      case Ok(kept) =>
        var last := rows[|rows| - 1];
        if |last| == 0 then Err(IndexError)
        else if last[0].Some? then Ok(kept + [last])
        else Ok(kept)
  }

  /**
   * Conversion succeeds iff no row is empty; then the kept rows are exactly
   * the rows with a non-None first element.
   */
  lemma {:induction false} KeptRowsFilter(rows: seq<Row>)
    ensures KeptRows(rows).Ok? <==> forall k :: 0 <= k < |rows| ==> |rows[k]| > 0
    ensures KeptRows(rows).Ok? ==>
      (forall j :: 0 <= j < |KeptRows(rows).value| ==>
         |KeptRows(rows).value[j]| > 0 && KeptRows(rows).value[j][0].Some? &&
         KeptRows(rows).value[j] in rows) &&
      (forall k :: 0 <= k < |rows| && rows[k][0].Some? ==> rows[k] in KeptRows(rows).value)
  {
    if |rows| > 0 {
      var init := rows[..|rows| - 1];
      KeptRowsFilter(init);
      assert forall k :: 0 <= k < |init| ==> init[k] == rows[k];
      assert forall x :: x in init ==> x in rows;
    }
  }

  /** What `convert_to_list_of_lists` gives: None for a falsy Java answer. */
  function Converted(javaOrders: Option<seq<Row>>): Result<Option<seq<Row>>>
  {
    if javaOrders.None? || |javaOrders.value| == 0 then Ok(None)
    else match KeptRows(javaOrders.value)
      case Ok(kept) => Ok(Some(kept))
      case Err(e) => Err(e)
  }

  method ConvertToListOfLists(javaOrders: Option<seq<Row>>) returns (r: Result<Option<seq<Row>>>)
    ensures r == Converted(javaOrders)
  {
    if javaOrders.None? || |javaOrders.value| == 0 {
      return Ok(None);
    }
    var rows := javaOrders.value;
    var validOrders: seq<Row> := [];
    var n := 0;
    while n < |rows|
      invariant n <= |rows|
      invariant KeptRows(rows[..n]) == Ok(validOrders)
    {
      var component := rows[n];
      assert rows[..n + 1][..n] == rows[..n];
      assert rows[..n + 1][n] == component;
      if |component| == 0 {
        KeptRowsErrStays(rows, n + 1);
        return Err(IndexError);
      }
      if component[0].Some? {
        var order: Row := [];
        var m := 0;
        while m < |component|
          invariant m <= |component| && order == component[..m]
        {
          order := order + [component[m]];
          m := m + 1;
        }
        assert order == component;
        validOrders := validOrders + [order];
      }
      n := n + 1;
    }
    assert rows[..n] == rows;
    return Ok(Some(validOrders));
  }

  lemma {:induction false} KeptRowsErrStays(rows: seq<Row>, n: nat)
    requires n <= |rows| && KeptRows(rows[..n]).Err?
    ensures KeptRows(rows) == KeptRows(rows[..n])
    decreases |rows| - n
  {
    if n < |rows| {
      assert rows[..n + 1][..n] == rows[..n];
      KeptRowsErrStays(rows, n + 1);
    } else {
      assert rows[..n] == rows;
    }
  }

  /** The orders kept when there are more than five: positions `cnt*len//5`. */
  method SelectOrders(valid: seq<Row>) returns (selected: seq<Row>)
    ensures selected == SelectedOrders(valid)
  {
    if |valid| > 5 {
      selected := [];
      var cnt := 0;
      while cnt < 5
        invariant cnt <= 5 && |selected| == cnt
        invariant forall c :: 0 <= c < cnt ==> selected[c] == valid[SelectedIndex(c, |valid|)]
      {
        SelectedIndexBounds(cnt, |valid|);
        selected := selected + [valid[cnt * |valid| / 5]];
        cnt := cnt + 1;
      }
      assert selected == SelectedOrders(valid);
    } else {
      selected := valid;
    }
  }

  function SelectedIndex(c: nat, len: nat): nat
  {
    c * len / 5
  }

  /** Five evenly spaced orders out of more than five; all of them otherwise. */
  function SelectedOrders(valid: seq<Row>): (r: seq<Row>)
    ensures |valid| <= 5 ==> r == valid
    ensures |valid| > 5 ==> |r| == 5
  {
    if |valid| > 5 then
      seq(5, c requires 0 <= c < 5 =>
        SelectedIndexBounds(c, |valid|);
        valid[SelectedIndex(c, |valid|)])
    else valid
  }

  /** The five kept orders appear in the same relative order as in the answer, the first one first. */
  lemma SelectedIsSubsequence(valid: seq<Row>)
    requires |valid| > 5
    ensures SelectedOrders(valid)[0] == valid[0]
    ensures forall c, d :: 0 <= c < d < 5 ==> SelectedIndex(c, |valid|) < SelectedIndex(d, |valid|) < |valid|
    ensures forall c :: 0 <= c < 5 ==> SelectedOrders(valid)[c] == valid[SelectedIndex(c, |valid|)]
  {
    SelectedIndexBounds(0, |valid|);
    SelectedIndexBounds(1, |valid|);
    SelectedIndexBounds(2, |valid|);
    SelectedIndexBounds(3, |valid|);
    SelectedIndexBounds(4, |valid|);
  }

  /** The five positions are in range, start at 0 and strictly increase. */
  lemma SelectedIndexBounds(c: nat, len: nat)
    requires c < 5 && len > 5
    ensures SelectedIndex(c, len) < len
    ensures c == 0 ==> SelectedIndex(c, len) == 0
    ensures c + 1 < 5 ==> SelectedIndex(c, len) < SelectedIndex(c + 1, len)
  {
    assert c * len < 5 * len;
    assert (c + 1) * len == c * len + len;
  }

  // ---------------------------------------------------------------------
  // The whole call
  // ---------------------------------------------------------------------

  /** The Java `miniPermute(rules, part_count, orders_count)`; None is a null answer. */
  type Permuter = (seq<string>, int, int) -> Option<seq<Row>>

  /**
   * The orders `call_mini_eugene` returns: a falsy Java answer makes
   * `len(None)` raise TypeError.
   */
  function Selected(rows: Result<Option<seq<Row>>>): Result<seq<Row>>
  {
    match rows
    case Err(e) => Err(e)
    case Ok(None) => Err(TypeError)
    case Ok(Some(valid)) => Ok(SelectedOrders(valid))
  }

  /** The orders `call_mini_eugene(rules, orders_count)` returns, or the exception it raises. */
  function CallOrders(rules: seq<string>, miniPermute: Permuter, ordersCount: int): Result<seq<Row>>
  {
    var newRules := Augmented(rules);
    match MaxIndex(newRules)
    case Err(e) => Err(e)
    case Ok(max) =>
      Selected(Converted(miniPermute(Reverse(newRules), AdjustedCount(|newRules| - |rules|, max), ordersCount)))
  }

  /**
   * `call_mini_eugene`: the caller's list ends up augmented (also when an
   * exception is raised after the augmentation), and the part count passed
   * to the permuter is the number of EXACTLY rules added, or the largest
   * EQUALS index plus two when that is larger.
   */
  method CallMiniEugene(rules: seq<string>, miniPermute: Permuter, ordersCount: int)
    returns (newRules: seq<string>, orders: Result<seq<Row>>, partCount: nat)
    ensures newRules == Augmented(rules)
    ensures orders == CallOrders(rules, miniPermute, ordersCount)
    ensures MaxIndex(newRules).Err? ==> orders == Err(MaxIndex(newRules).error)
    ensures MaxIndex(newRules).Ok? ==>
      partCount == AdjustedCount(|newRules| - |rules|, MaxIndex(newRules).value)
  {
    newRules, partCount := AugmentRules(rules);
    var max := MaxEqualsIndex(newRules);
    if max.Err? {
      return newRules, Err(max.error), partCount;
    }
    if max.value > partCount {
      partCount := max.value + 2;
    }
    ghost var aug := newRules;
    assert partCount == AdjustedCount(|aug| - |rules|, max.value);
    newRules := Reverse(newRules);
    var javaPartOrders := miniPermute(newRules, partCount, ordersCount);
    assert CallOrders(rules, miniPermute, ordersCount) == Selected(Converted(javaPartOrders));
    newRules := Reverse(newRules);
    ReverseReverse(Augmented(rules));
    var validOrders := ConvertToListOfLists(javaPartOrders);
    match validOrders {
      case Err(e) =>
        orders := Err(e);
      case Ok(None) =>
        orders := Err(TypeError);
      case Ok(Some(valid)) =>
        var selected := SelectOrders(valid);
        orders := Ok(selected);
    }
    assert orders == Selected(Converted(javaPartOrders));
  }
}
