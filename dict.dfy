/**
 * A Python dict as an association list: keys in insertion order, each key
 * once.  Assigning to an existing key keeps its position, as in Python.
 */
module Dict {
  import opened Wrappers

  type Dict<K, V> = seq<(K, V)>

  function Keys<K, V>(d: Dict<K, V>): (ks: seq<K>)
    ensures |ks| == |d|
    ensures forall i :: 0 <= i < |d| ==> ks[i] == d[i].0
  {
    if |d| == 0 then [] else [d[0].0] + Keys(d[1..])
  }

  function Values<K, V>(d: Dict<K, V>): (vs: seq<V>)
    ensures |vs| == |d|
    ensures forall i :: 0 <= i < |d| ==> vs[i] == d[i].1
  {
    if |d| == 0 then [] else [d[0].1] + Values(d[1..])
  }

  /** Each key appears once. */
  predicate Wellformed<K(==), V>(d: Dict<K, V>)
  {
    forall i, j :: 0 <= i < j < |d| ==> d[i].0 != d[j].0
  }

  /** `d.get(k)`: the value stored under `k`, if any. */
  function Get<K(==), V>(d: Dict<K, V>, k: K): (r: Option<V>)
    ensures r.None? <==> k !in Keys(d)
    ensures r.Some? ==> exists i :: 0 <= i < |d| && d[i] == (k, r.value)
  {
    if |d| == 0 then None
    else if d[0].0 == k then Some(d[0].1)
    else
      var r := Get(d[1..], k);
      assert r.Some? ==> exists i :: 1 <= i < |d| && d[i] == (k, r.value) by {
        if r.Some? {
          var i :| 0 <= i < |d[1..]| && d[1..][i] == (k, r.value);
          assert d[i + 1] == (k, r.value);
        }
      }
      r
  }

  /** `d[k] = v`: overwrite in place when `k` is present, otherwise append. */
  function Put<K(==), V>(d: Dict<K, V>, k: K, v: V): (r: Dict<K, V>)
    ensures k in Keys(d) ==> |r| == |d| && Keys(r) == Keys(d)
    ensures k !in Keys(d) ==> r == d + [(k, v)]
    ensures forall i :: 0 <= i < |d| && d[i].0 != k ==> r[i] == d[i]
  {
    if |d| == 0 then [(k, v)]
    else if d[0].0 == k then [(k, v)] + d[1..]
    else [d[0]] + Put(d[1..], k, v)
  }

  lemma {:induction false} GetPut<K, V>(d: Dict<K, V>, k: K, v: V, k2: K)
    ensures Get(Put(d, k, v), k2) == if k2 == k then Some(v) else Get(d, k2)
  {
    if |d| == 0 {
    } else if d[0].0 == k {
      assert Put(d, k, v)[1..] == d[1..];
    } else {
      GetPut(d[1..], k, v, k2);
      assert Put(d, k, v)[1..] == Put(d[1..], k, v);
    }
  }

  lemma {:induction false} PutWellformed<K, V>(d: Dict<K, V>, k: K, v: V)
    requires Wellformed(d)
    ensures Wellformed(Put(d, k, v))
  {
    var r := Put(d, k, v);
    if k in Keys(d) {
      assert forall i :: 0 <= i < |r| ==> r[i].0 == Keys(r)[i] == Keys(d)[i] == d[i].0;
    } else {
      assert forall i :: 0 <= i < |d| ==> d[i].0 != k;
    }
  }

  /** After `d[k] = v` the keys are the old keys plus `k`. */
  lemma KeysPut<K, V>(d: Dict<K, V>, k: K, v: V)
    ensures forall x :: x in Keys(Put(d, k, v)) <==> x == k || x in Keys(d)
  {
    forall x
      ensures x in Keys(Put(d, k, v)) <==> x == k || x in Keys(d)
    {
      GetPut(d, k, v, x);
    }
  }

  /** Assigning twice to the same key leaves only the second value. */
  lemma {:induction false} PutPut<K, V>(d: Dict<K, V>, k: K, v1: V, v2: V)
    ensures Put(Put(d, k, v1), k, v2) == Put(d, k, v2)
  {
    if |d| > 0 && d[0].0 != k {
      PutPut(d[1..], k, v1, v2);
      assert Put(d, k, v1)[1..] == Put(d[1..], k, v1);
    }
  }

  /** A dict is its last entry assigned after the others. */
  lemma WellformedSnoc<K, V>(d: Dict<K, V>)
    requires Wellformed(d) && |d| > 0
    ensures Wellformed(d[..|d| - 1])
    ensures d[|d| - 1].0 !in Keys(d[..|d| - 1])
    ensures d == Put(d[..|d| - 1], d[|d| - 1].0, d[|d| - 1].1)
  {
    var init := d[..|d| - 1];
    assert forall i :: 0 <= i < |init| ==> Keys(init)[i] == d[i].0;
  }

  /** The keys of a dict are the keys of all but its last entry, and that entry's key. */
  lemma {:induction false} KeysInit<K, V>(d: Dict<K, V>, k: K)
    requires |d| > 0
    ensures k in Keys(d) <==> k in Keys(d[..|d| - 1]) || k == d[|d| - 1].0
  {
    if |d| > 1 {
      var tail := d[1..];
      KeysInit(tail, k);
      assert d[..|d| - 1][1..] == tail[..|tail| - 1];
      assert Keys(d[..|d| - 1]) == [d[0].0] + Keys(tail[..|tail| - 1]);
    }
  }

  /** `d[o]` updated by `add(d[o], r)` when `o` is a key (a rule appended to an entry's rule list); nothing otherwise. */
  function AddRule<K(==), V, R>(d: Dict<K, V>, o: K, r: R, add: (V, R) -> V): (d': Dict<K, V>)
    ensures Keys(d') == Keys(d)
  {
    match Get(d, o)
    case None => d
    case Some(v) => Put(d, o, add(v, r))
  }

  /** `AddRule` for each operand in turn. */
  function AddRuleEach<K(==), V, R>(d: Dict<K, V>, ops: seq<K>, r: R, add: (V, R) -> V): (d': Dict<K, V>)
    ensures Keys(d') == Keys(d)
  {
    if |ops| == 0 then d
    else AddRule(AddRuleEach(d, ops[..|ops| - 1], r, add), ops[|ops| - 1], r, add)
  }

  /** One more operand of a prefix is one more `AddRule`. */
  lemma AddRuleEachPrefix<K, V, R>(d: Dict<K, V>, ops: seq<K>, j: nat, r: R, add: (V, R) -> V)
    requires j < |ops|
    ensures AddRuleEach(d, ops[..j + 1], r, add) == AddRule(AddRuleEach(d, ops[..j], r, add), ops[j], r, add)
  {
    assert ops[..j + 1][..j] == ops[..j];
  }

  /** `add(.., r)` applied `n` times. */
  function Repeated<V, R>(v: V, r: R, n: nat, add: (V, R) -> V): V
  {
    if n == 0 then v else add(Repeated(v, r, n - 1, add), r)
  }

  /** One `AddRule` changes only the value under `o`. */
  lemma AddRuleGet<K, V, R>(d: Dict<K, V>, o: K, r: R, add: (V, R) -> V, k: K)
    ensures Get(AddRule(d, o, r, add), k) ==
      match Get(d, k)
      case None => None
      case Some(v) => Some(if k == o then add(v, r) else v)
  {
    if Get(d, o).Some? {
      GetPut(d, o, add(Get(d, o).value, r), k);
    }
  }

  /** Each key gains the rule once per occurrence among the operands; other keys are untouched. */
  lemma {:induction false} AddRuleEachGet<K, V, R>(d: Dict<K, V>, ops: seq<K>, r: R, add: (V, R) -> V, k: K)
    ensures Get(AddRuleEach(d, ops, r, add), k) ==
      match Get(d, k)
      case None => None
      case Some(v) => Some(Repeated(v, r, multiset(ops)[k], add))
  {
    if |ops| > 0 {
      var init := ops[..|ops| - 1];
      var last := ops[|ops| - 1];
      assert multiset(ops) == multiset(init) + multiset{last} by {
        assert ops == init + [last];
      }
      var d1 := AddRuleEach(d, init, r, add);
      assert AddRuleEach(d, ops, r, add) == AddRule(d1, last, r, add);
      AddRuleEachGet(d, init, r, add, k);
      AddRuleGet(d1, last, r, add, k);
      if Get(d, k).Some? {
        var v := Get(d, k).value;
        var m := multiset(init)[k];
        if k == last {
          assert multiset(ops)[k] == m + 1;
          assert Repeated(v, r, m + 1, add) == add(Repeated(v, r, m, add), r);
        } else {
          assert multiset(ops)[k] == m;
        }
      }
    }
  }

  /** `for o in ops: if o in d: d[o] = add(d[o], r)`: the operand loop that attaches a rule. */
  method AddRuleLoop<K(==), V, R>(d: Dict<K, V>, ops: seq<K>, r: R, add: (V, R) -> V) returns (d': Dict<K, V>)
    ensures d' == AddRuleEach(d, ops, r, add)
  {
    d' := d;
    for j := 0 to |ops|
      invariant d' == AddRuleEach(d, ops[..j], r, add)
    {
      assert ops[..j + 1][..j] == ops[..j];
      var v := Get(d', ops[j]);
      if v.Some? {
        d' := Put(d', ops[j], add(v.value, r));
      }
    }
    assert ops[..|ops|] == ops;
  }
}
