/**
 * The counting and querying helpers of the gate-assignment engine
 * (core_algorithm/utils/cello_helpers.py): how many input, output and
 * gate-group assignments a netlist admits, and the order-preserving
 * filter over lists of UCF dicts.
 */
module CelloHelpers {
  import opened Wrappers
  import opened Dict
  import opened Json

  /** n! for a natural number. */
  function Factorial(n: nat): (r: nat)
    ensures r >= 1
  {
    if n == 0 then 1 else n * Factorial(n - 1)
  }

  /**
   * The recursive `factorial` lambda on a Python int: it only stops at 0,
   * so a negative argument recurses until the interpreter's depth limit.
   */
  function PyFactorial(n: int): (r: Result<nat>)
    ensures r.Ok? <==> n >= 0
    ensures r.Ok? ==> r.value == Factorial(n)
    ensures r.Err? ==> r.error == RecursionError
  {
    if n < 0 then Err(RecursionError) else Ok(Factorial(n))
  }

  /** The `partial_factorial` lambda: n * (n-1) * ... * (k+1), and 1 once n <= k. */
  function PartialFactorial(n: int, k: int): int
    decreases n - k
  {
    if n <= k then 1 else n * PartialFactorial(n - 1, k)
  }

  /** `math.perm(n, k)`: the number of ordered k-selections from n items, 0 when k > n. */
  function MathPerm(n: nat, k: nat): (r: nat)
    ensures k > n ==> r == 0
    ensures k <= n ==> r >= 1
  {
    if k == 0 then 1 else if n == 0 then 0 else n * MathPerm(n - 1, k - 1)
  }

  /** partial_factorial(n, n-k) is the number of k-permutations of n items. */
  lemma {:induction false} PartialFactorialIsPerm(n: nat, k: nat)
    requires k <= n
    ensures PartialFactorial(n, n - k) == MathPerm(n, k)
    decreases k
  {
    if k > 0 {
      PartialFactorialIsPerm(n - 1, k - 1);
    }
  }

  lemma MulAssoc(a: int, b: int, c: int)
    ensures (a * b) * c == a * (b * c)
  {
  }

  /** ... and it equals the factorial ratio n! / (n-k)!. */
  lemma {:induction false} PartialFactorialRatio(n: nat, m: nat)
    requires m <= n
    ensures PartialFactorial(n, m) * Factorial(m) == Factorial(n)
    decreases n - m
  {
    if n > m {
      PartialFactorialRatio(n - 1, m);
      var p := PartialFactorial(n - 1, m);
      assert PartialFactorial(n, m) == n * p;
      MulAssoc(n, p, Factorial(m));
    }
  }

  /**
   * When the netlist needs more items than the UCF has, the partial
   * factorial runs through 0 and the product is 0 (the lambda still stops).
   */
  lemma {:induction false} PartialFactorialOverrun(n: nat, k: int)
    requires k < 0
    ensures PartialFactorial(n, k) == 0
    decreases n
  {
    if n > 0 {
      PartialFactorialOverrun(n - 1, k);
    } else {
      assert PartialFactorial(0, k) == 0 * PartialFactorial(-1, k);
    }
  }

  /** The float ratio factorial(n) / factorial(n - k) that the confirmation uses. */
  function FactorialRatio(n: nat, k: nat): (r: Result<real>)
    ensures k <= n ==> r == Ok(MathPerm(n, k) as real)
    ensures k > n ==> r == Err(RecursionError)
  {
    match PyFactorial(n - k)
    case Err(e) => Err(e)
    case Ok(d) =>
      var p := MathPerm(n, k);
      assert Factorial(n) == p * d by {
        PartialFactorialRatio(n, n - k);
        PartialFactorialIsPerm(n, k);
      }
      DivExact(Factorial(n), p, d);
      Ok((Factorial(n) as real) / (d as real))
  }

  lemma DivExact(f: int, p: int, d: int)
    requires d >= 1 && f == p * d
    ensures (f as real) / (d as real) == p as real
  {
    assert (f as real) == (p as real) * (d as real);
  }

  lemma CastMul3(a: int, b: int, c: int)
    ensures ((a * b * c) as real) == (a as real) * (b as real) * (c as real)
  {
    assert ((a * b) as real) == (a as real) * (b as real);
    assert (((a * b) * c) as real) == ((a * b) as real) * (c as real);
  }

  /** The three parts of the count and of its confirmation agree with math.perm. */
  lemma PermuteCountParts(iNetlist: nat, oNetlist: nat, gNetlist: nat, iUcf: nat, oUcf: nat, gUcf: nat)
    requires iNetlist <= iUcf && oNetlist <= oUcf && gNetlist <= gUcf
    ensures PartialFactorial(iUcf, iUcf - iNetlist) == MathPerm(iUcf, iNetlist)
    ensures PartialFactorial(oUcf, oUcf - oNetlist) == MathPerm(oUcf, oNetlist)
    ensures PartialFactorial(gUcf, gUcf - gNetlist) == MathPerm(gUcf, gNetlist)
  {
    PartialFactorialIsPerm(iUcf, iNetlist);
    PartialFactorialIsPerm(oUcf, oNetlist);
    PartialFactorialIsPerm(gUcf, gNetlist);
  }

  lemma AverageOfEqual(x: real, c: int, t: int)
    requires x == c as real && c == t
    ensures (x + c as real) / 2.0 == t as real
  {
  }

  /** The product of three counts, in Python's left-to-right order. */
  function Product3(a: int, b: int, c: int): int { a * b * c }

  lemma Product3Swap(a: int, b: int, c: int)
    ensures Product3(a, b, c) == Product3(a, c, b)
  {
    assert a * b * c == a * (b * c) == a * (c * b) == a * c * b;
  }

  function RealProduct3(x: real, y: real, z: real): real { x * y * z }

  lemma Product3Real(a: int, b: int, c: int)
    ensures (Product3(a, b, c) as real) == RealProduct3(a as real, b as real, c as real)
  {
    CastMul3(a, b, c);
  }

  /**
   * `permute_count_helper`: the total number of assignments and the
   * average of two independent confirmations of it (the product of
   * factorial ratios and the product of math.perm values).
   */
  function PermuteCountHelper(iNetlist: nat, oNetlist: nat, gNetlist: nat,
                              iUcf: nat, oUcf: nat, gUcf: nat): (r: Result<(int, real)>)
    ensures r.Ok? <==> iNetlist <= iUcf && oNetlist <= oUcf && gNetlist <= gUcf
    ensures r.Err? ==> r.error == RecursionError
    ensures r.Ok? ==> r.value.0 == Product3(MathPerm(iUcf, iNetlist), MathPerm(gUcf, gNetlist), MathPerm(oUcf, oNetlist))
    ensures r.Ok? ==> r.value.1 == r.value.0 as real
  {
    var total := Product3(PartialFactorial(iUcf, iUcf - iNetlist), PartialFactorial(gUcf, gUcf - gNetlist),
                          PartialFactorial(oUcf, oUcf - oNetlist));
    var fi := FactorialRatio(iUcf, iNetlist);
    var fo := FactorialRatio(oUcf, oNetlist);
    var fg := FactorialRatio(gUcf, gNetlist);
    if fi.Err? || fo.Err? || fg.Err? then Err(RecursionError)
    else
      PermuteCountParts(iNetlist, oNetlist, gNetlist, iUcf, oUcf, gUcf);
      var pi, po, pg := MathPerm(iUcf, iNetlist), MathPerm(oUcf, oNetlist), MathPerm(gUcf, gNetlist);
      var confirm1 := RealProduct3(fi.value, fo.value, fg.value);
      var confirm2 := Product3(pi, po, pg);
      Product3Real(pi, po, pg);
      Product3Swap(pi, po, pg);
      AverageOfEqual(confirm1, confirm2, total);
      Ok((total, (confirm1 + confirm2 as real) / 2.0))
  }

  /** With every netlist count equal to the UCF count, the total is i! * g! * o!. */
  lemma {:induction false} PermuteCountAllUsed(i: nat, o: nat, g: nat)
    ensures PermuteCountHelper(i, o, g, i, o, g).Ok?
    ensures PermuteCountHelper(i, o, g, i, o, g).value.0 == Factorial(i) * Factorial(g) * Factorial(o)
  {
    PartialFactorialRatio(i, 0);
    PartialFactorialRatio(o, 0);
    PartialFactorialRatio(g, 0);
    PartialFactorialIsPerm(i, i);
    PartialFactorialIsPerm(o, o);
    PartialFactorialIsPerm(g, g);
  }

  /** The example (4, 2, 12, 4, 2, 12) counts 4! * 2! * 12! assignments. */
  lemma PermuteCountExample()
    ensures PermuteCountHelper(4, 2, 12, 4, 2, 12) == Ok((24 * 479001600 * 2, (24 * 479001600 * 2) as real))
  {
    PermuteCountAllUsed(4, 2, 12);
    assert Factorial(4) == 24;
    assert Factorial(12) == 479001600 by {
      assert Factorial(6) == 720;
      assert Factorial(9) == 362880;
    }
  }

  // ---------------------------------------------------------------------
  // query_helper
  // ---------------------------------------------------------------------

  /** `key in d and d[key] in vals`. */
  predicate Matches(d: Object, key: string, vals: seq<Value>)
  {
    Get(d, key).Some? && InList(Get(d, key).value, vals)
  }

  /** The dicts of `ds` that match, in their original order. */
  function QueryFilter(ds: seq<Object>, key: string, vals: seq<Value>): (r: seq<Object>)
    ensures |r| <= |ds|
    ensures forall d :: d in r <==> d in ds && Matches(d, key, vals)
  {
    if |ds| == 0 then []
    else (if Matches(ds[0], key, vals) then [ds[0]] else []) + QueryFilter(ds[1..], key, vals)
  }

  /** Filtering distributes over concatenation, so the original order is kept. */
  lemma {:induction false} QueryFilterAppend(a: seq<Object>, b: seq<Object>, key: string, vals: seq<Value>)
    ensures QueryFilter(a + b, key, vals) == QueryFilter(a, key, vals) + QueryFilter(b, key, vals)
  {
    if |a| > 0 {
      assert (a + b)[1..] == a[1..] + b;
      QueryFilterAppend(a[1..], b, key, vals);
    } else {
      assert a + b == b;
    }
  }

  /** Filtering twice is filtering once. */
  lemma {:induction false} QueryFilterIdempotent(ds: seq<Object>, key: string, vals: seq<Value>)
    ensures QueryFilter(QueryFilter(ds, key, vals), key, vals) == QueryFilter(ds, key, vals)
  {
    if |ds| > 0 {
      QueryFilterIdempotent(ds[1..], key, vals);
      var head := if Matches(ds[0], key, vals) then [ds[0]] else [];
      QueryFilterAppend(head, QueryFilter(ds[1..], key, vals), key, vals);
      if Matches(ds[0], key, vals) {
        assert QueryFilter(head, key, vals) == head by {
          assert head[1..] == [];
        }
      }
    }
  }

  lemma QueryFilterNext(ds: seq<Object>, n: nat, key: string, vals: seq<Value>)
    requires n < |ds|
    ensures QueryFilter(ds[..n + 1], key, vals) ==
      QueryFilter(ds[..n], key, vals) + (if Matches(ds[n], key, vals) then [ds[n]] else [])
  {
    QueryFilterAppend(ds[..n], [ds[n]], key, vals);
    PrefixSnoc(ds, n);
    QueryFilterOne(ds[n], key, vals);
  }

  lemma PrefixSnoc<T>(s: seq<T>, n: nat)
    requires n < |s|
    ensures s[..n + 1] == s[..n] + [s[n]]
  {
  }

  lemma QueryFilterOne(d: Object, key: string, vals: seq<Value>)
    ensures QueryFilter([d], key, vals) == if Matches(d, key, vals) then [d] else []
  {
    assert [d][1..] == [];
  }

  /**
   * `query_helper`: the loop appends every matching dict in turn.  The
   * guard on an empty result can never fire (`out_temp is []` compares
   * identity with a fresh list), so an empty result is simply returned.
   */
  method QueryHelper(dictList: seq<Object>, key: string, vals: seq<Value>) returns (outTemp: seq<Object>)
    ensures outTemp == QueryFilter(dictList, key, vals)
  {
    outTemp := [];
    var n := 0;
    while n < |dictList|
      invariant 0 <= n <= |dictList|
      invariant outTemp == QueryFilter(dictList[..n], key, vals)
    {
      var d := dictList[n];
      QueryFilterNext(dictList, n, key, vals);
      if Get(d, key).Some? {
        if InList(Get(d, key).value, vals) {
          outTemp := outTemp + [d];
        }
      }
      n := n + 1;
    }
    assert dictList[..n] == dictList;
  }
}
