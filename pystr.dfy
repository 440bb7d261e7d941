/**
 * The pieces of Python's string and list semantics that the Cello code
 * relies on: `str.split(sep)`, `str.split()`, `sep.join`, `str(int)`,
 * lexicographic string comparison, `in` on strings and negative list
 * indexing.  Strings are sequences of code points.
 */
module PyStr {
  import opened Wrappers

  // ---------------------------------------------------------------------
  // str.split(c) and c.join(parts)
  // ---------------------------------------------------------------------

  /** `s.split(c)` for a one-character separator: never empty, no part holds `c`. */
  function Split(s: string, c: char): (r: seq<string>)
    ensures |r| > 0
    ensures forall k :: 0 <= k < |r| ==> c !in r[k]
    decreases |s|
  {
    if |s| == 0 then [""]
    else if s[0] == c then [""] + Split(s[1..], c)
    else
      var rest := Split(s[1..], c);
      [[s[0]] + rest[0]] + rest[1..]
  }

  /** `sep.join(parts)`. */
  function Join(parts: seq<string>, sep: string): string
  {
    if |parts| == 0 then ""
    else if |parts| == 1 then parts[0]
    else parts[0] + sep + Join(parts[1..], sep)
  }

  lemma {:induction false} JoinSplit(s: string, c: char)
    ensures Join(Split(s, c), [c]) == s
    decreases |s|
  {
    if |s| == 0 {
    } else if s[0] == c {
      JoinSplit(s[1..], c);
      var rest := Split(s[1..], c);
      assert Split(s, c) == [""] + rest;
      assert ([""] + rest)[1..] == rest;
    } else {
      JoinSplit(s[1..], c);
      var rest := Split(s[1..], c);
      var r := [[s[0]] + rest[0]] + rest[1..];
      assert Split(s, c) == r;
      if |rest| == 1 {
        assert Join(r, [c]) == [s[0]] + rest[0];
      } else {
        assert r[1..] == rest[1..];
        assert Join(rest, [c]) == rest[0] + [c] + Join(rest[1..], [c]);
        assert Join(r, [c]) == [s[0]] + rest[0] + [c] + Join(rest[1..], [c]);
      }
      assert s == [s[0]] + s[1..];
    }
  }

  /** Splitting a join on a separator that no part contains gives the parts back. */
  lemma {:induction false} SplitJoin(parts: seq<string>, c: char)
    requires |parts| > 0
    requires forall k :: 0 <= k < |parts| ==> c !in parts[k]
    ensures Split(Join(parts, [c]), c) == parts
    decreases |parts|, |parts[0]|
  {
    if |parts[0]| == 0 {
      if |parts| == 1 {
      } else {
        SplitJoin(parts[1..], c);
        assert Join(parts, [c]) == [c] + Join(parts[1..], [c]);
        assert ([c] + Join(parts[1..], [c]))[1..] == Join(parts[1..], [c]);
        assert parts == [""] + parts[1..];
      }
    } else {
      var p0 := parts[0];
      var tail := [p0[1..]] + parts[1..];
      forall k | 0 <= k < |tail| ensures c !in tail[k] {
        if k == 0 { assert forall x :: x in p0[1..] ==> x in p0; }
        else { assert tail[k] == parts[k]; }
      }
      SplitJoin(tail, c);
      var j := Join(parts, [c]);
      if |parts| == 1 {
        assert j == p0;
        assert Join(tail, [c]) == p0[1..];
      } else {
        assert j == p0 + [c] + Join(parts[1..], [c]);
        assert tail[1..] == parts[1..];
        assert Join(tail, [c]) == p0[1..] + [c] + Join(parts[1..], [c]);
      }
      assert j[0] == p0[0] && p0[0] != c;
      assert j[1..] == Join(tail, [c]);
      var rest := Split(j[1..], c);
      assert rest == tail;
      assert [p0[0]] + p0[1..] == p0;
      assert Split(j, c) == [[p0[0]] + rest[0]] + rest[1..];
    }
  }

  // ---------------------------------------------------------------------
  // str.split() with no argument: whitespace-separated words
  // ---------------------------------------------------------------------

  /**
   * `ch.isspace()`: the characters `split()`, `strip()` and `int()` treat
   * as whitespace -- the ASCII controls 0x09-0x0D and 0x1C-0x1F, the space,
   * NEL, the no-break space and the Unicode space separators, line and
   * paragraph separators.
   */
  predicate IsSpace(ch: char)
  {
    || ('\U{0009}' <= ch <= '\U{000D}') || ('\U{001C}' <= ch <= '\U{001F}') || ch == ' '
    || ch == '\U{0085}' || ch == '\U{00A0}' || ch == '\U{1680}' || ('\U{2000}' <= ch <= '\U{200A}')
    || ch == '\U{2028}' || ch == '\U{2029}' || ch == '\U{202F}' || ch == '\U{205F}' || ch == '\U{3000}'
  }

  /**
   * `s.split()`: the maximal runs of non-whitespace characters, in order.
   * `cur` is the word being read so far.
   */
  function WordsFrom(s: string, cur: string): (r: seq<string>)
    ensures forall k :: 0 <= k < |r| ==> |r[k]| > 0
    decreases |s|
  {
    if |s| == 0 then (if cur == [] then [] else [cur])
    else if IsSpace(s[0]) then (if cur == [] then [] else [cur]) + WordsFrom(s[1..], [])
    else WordsFrom(s[1..], cur + [s[0]])
  }

  function Words(s: string): (r: seq<string>)
    ensures forall k :: 0 <= k < |r| ==> |r[k]| > 0
  {
    WordsFrom(s, [])
  }

  lemma {:induction false} WordsFromNoSpace(s: string, cur: string)
    requires forall i :: 0 <= i < |cur| ==> !IsSpace(cur[i])
    ensures forall k, i :: 0 <= k < |WordsFrom(s, cur)| && 0 <= i < |WordsFrom(s, cur)[k]| ==>
              !IsSpace(WordsFrom(s, cur)[k][i])
    decreases |s|
  {
    if |s| == 0 {
    } else if IsSpace(s[0]) {
      WordsFromNoSpace(s[1..], []);
    } else {
      WordsFromNoSpace(s[1..], cur + [s[0]]);
    }
  }

  /** No word returned by `str.split()` contains whitespace. */
  lemma WordsNoSpace(s: string)
    ensures forall k, i :: 0 <= k < |Words(s)| && 0 <= i < |Words(s)[k]| ==> !IsSpace(Words(s)[k][i])
  {
    WordsFromNoSpace(s, []);
  }

  // ---------------------------------------------------------------------
  // str(int)
  // ---------------------------------------------------------------------

  function DigitChar(d: nat): (ch: char)
    requires d < 10
    ensures '0' <= ch <= '9'
  {
    "0123456789"[d]
  }

  /** The decimal rendering `str(n)` of a natural number: digits only, no leading zero. */
  function NatToString(n: nat): (s: string)
    ensures |s| > 0
    ensures forall i :: 0 <= i < |s| ==> '0' <= s[i] <= '9'
    ensures |s| > 1 ==> s[0] != '0'
    decreases n
  {
    if n < 10 then [DigitChar(n)] else NatToString(n / 10) + [DigitChar(n % 10)]
  }

  function DigitValue(ch: char): nat
  {
    if '0' <= ch <= '9' then (ch as int) - ('0' as int) else 0
  }

  /** Reads a string of decimal digits back as a number. */
  function ParseDigits(s: string): nat
  {
    if |s| == 0 then 0 else ParseDigits(s[..|s| - 1]) * 10 + DigitValue(s[|s| - 1])
  }

  lemma {:induction false} ParseNatToString(n: nat)
    ensures ParseDigits(NatToString(n)) == n
    decreases n
  {
    var s := NatToString(n);
    if n < 10 {
      assert s[..0] == [];
    } else {
      ParseNatToString(n / 10);
      assert s[..|s| - 1] == NatToString(n / 10);
    }
  }

  /** `str(n)` is injective: distinct numbers render differently. */
  lemma NatToStringInjective(a: nat, b: nat)
    requires NatToString(a) == NatToString(b)
    ensures a == b
  {
    ParseNatToString(a);
    ParseNatToString(b);
  }

  /** `str(i)` for a Python int: a leading '-' for negative values. */
  function IntToString(i: int): (s: string)
    ensures |s| > 0
    ensures forall k :: 0 <= k < |s| ==> s[k] == '-' || '0' <= s[k] <= '9'
  {
    if i < 0 then "-" + NatToString(-i) else NatToString(i)
  }

  // ---------------------------------------------------------------------
  // Lexicographic order on strings (Python's `<` on str)
  // ---------------------------------------------------------------------

  /** `a < b` for Python strings: code-point-wise, a proper prefix is smaller. */
  predicate StrLt(a: string, b: string)
    decreases |a|
  {
    if |a| == 0 then |b| > 0
    else if |b| == 0 then false
    else if a[0] != b[0] then a[0] < b[0]
    else StrLt(a[1..], b[1..])
  }

  lemma {:induction false} StrLtIrreflexive(a: string)
    ensures !StrLt(a, a)
    decreases |a|
  {
    if |a| > 0 { StrLtIrreflexive(a[1..]); }
  }

  lemma {:induction false} StrLtTransitive(a: string, b: string, c: string)
    requires StrLt(a, b) && StrLt(b, c)
    ensures StrLt(a, c)
    decreases |a|
  {
    if |a| > 0 && |b| > 0 && |c| > 0 && a[0] == b[0] && b[0] == c[0] {
      StrLtTransitive(a[1..], b[1..], c[1..]);
    }
  }

  lemma {:induction false} StrLtTotal(a: string, b: string)
    ensures a == b || StrLt(a, b) || StrLt(b, a)
    decreases |a|
  {
    if |a| > 0 && |b| > 0 && a[0] == b[0] {
      StrLtTotal(a[1..], b[1..]);
      if a[1..] == b[1..] {
        assert a == [a[0]] + a[1..] && b == [b[0]] + b[1..];
      }
    }
  }

  // ---------------------------------------------------------------------
  // Prefixes, suffixes, substrings
  // ---------------------------------------------------------------------

  predicate StartsWith(s: string, p: string) { |p| <= |s| && s[..|p|] == p }

  predicate EndsWith(s: string, t: string) { |t| <= |s| && s[|s| - |t|..] == t }

  /** `sub` occurs in `s` at position `i`. */
  predicate MatchAt(s: string, sub: string, i: int)
  {
    0 <= i && i + |sub| <= |s| && s[i..i + |sub|] == sub
  }

  /** `sub in s` for strings. */
  ghost predicate Contains(s: string, sub: string)
  {
    exists i :: MatchAt(s, sub, i)
  }

  /** A search for `sub` in `s`, starting at `from`. */
  function FindFrom(s: string, sub: string, from: nat): (r: Option<nat>)
    requires from <= |s|
    ensures r.Some? ==> from <= r.value && MatchAt(s, sub, r.value)
    ensures r.None? ==> forall i :: from <= i ==> !MatchAt(s, sub, i)
    decreases |s| - from
  {
    if from + |sub| > |s| then None
    else if s[from..from + |sub|] == sub then Some(from)
    else FindFrom(s, sub, from + 1)
  }

  /** `sub in s`, computed by searching from the start. */
  function ContainsStr(s: string, sub: string): (b: bool)
    ensures b <==> Contains(s, sub)
  {
    var r := FindFrom(s, sub, 0);
    assert r.Some? ==> MatchAt(s, sub, r.value);
    r.Some?
  }

  // ---------------------------------------------------------------------
  // Lists
  // ---------------------------------------------------------------------

  /** `xs[i]` with Python's negative indices; IndexError outside `-|xs| .. |xs|-1`. */
  function PyIndex<T>(xs: seq<T>, i: int): (r: Result<T>)
    ensures r.Ok? <==> -|xs| <= i < |xs|
    ensures r.Ok? && i >= 0 ==> r.value == xs[i]
    ensures r.Ok? && i < 0 ==> r.value == xs[|xs| + i]
  {
    if 0 <= i < |xs| then Ok(xs[i])
    else if -|xs| <= i < 0 then Ok(xs[|xs| + i])
    else Err(IndexError)
  }

  /** `xs.index(x)`: the first position holding `x`, or ValueError. */
  function IndexOf<T(==)>(xs: seq<T>, x: T): (r: Result<nat>)
    ensures r.Ok? ==> r.value < |xs| && xs[r.value] == x && forall j :: 0 <= j < r.value ==> xs[j] != x
    ensures r.Err? ==> x !in xs && r.error == ValueError
  {
    if |xs| == 0 then Err(ValueError)
    else if xs[0] == x then Ok(0)
    else match IndexOf(xs[1..], x)
      case Ok(k) => Ok(k + 1)
      case Err(e) => Err(e)
  }

  /** Every element of the sequence is different from every other. */
  predicate Distinct<T(==)>(xs: seq<T>)
  {
    forall i, j :: 0 <= i < j < |xs| ==> xs[i] != xs[j]
  }

  /** A sequence has no repeats when its front has none and its last element is new. */
  lemma DistinctSnoc<T>(xs: seq<T>)
    requires |xs| > 0
    ensures Distinct(xs) <==> Distinct(xs[..|xs| - 1]) && xs[|xs| - 1] !in xs[..|xs| - 1]
  {
    var init := xs[..|xs| - 1];
    if Distinct(init) && xs[|xs| - 1] !in init {
      forall a, b | 0 <= a < b < |xs| ensures xs[a] != xs[b] {
        assert xs[a] == init[a];
        if b < |xs| - 1 {
          assert xs[b] == init[b];
        }
      }
    }
    if Distinct(xs) {
      forall a, b | 0 <= a < b < |init| ensures init[a] != init[b] {
        assert init[a] == xs[a] && init[b] == xs[b];
      }
      forall k | 0 <= k < |init| ensures init[k] != xs[|xs| - 1] {
        assert init[k] == xs[k];
      }
    }
  }
}
