/**
 * JSON values as Python's `json` module produces them, with objects as
 * insertion-ordered dicts.  UCF files, Yosys netlists and the CSV/UCF
 * converters all work on these.
 */
module Json {
  import opened Wrappers
  import opened Dict
  import PyStr

  datatype Value =
    | Null
    | Bool(b: bool)
    | Int(i: int)
    | Float(x: real)
    | Str(s: string)
    | Arr(items: seq<Value>)
    | Obj(fields: Dict<string, Value>)

  type Object = Dict<string, Value>

  /** The numeric value Python uses when comparing bools, ints and floats. */
  function NumericValue(v: Value): Option<real>
  {
    match v
    case Bool(b) => Some(if b then 1.0 else 0.0)
    case Int(i) => Some(i as real)
    case Float(x) => Some(x)
    case _ => None
  }

  /**
   * Python's `==` on JSON scalars: numbers compare by value across bool,
   * int and float; everything else compares structurally.
   */
  predicate PyEq(a: Value, b: Value)
  {
    if NumericValue(a).Some? && NumericValue(b).Some? then NumericValue(a) == NumericValue(b)
    else a == b
  }

  /** `v in vals` for a list of JSON values. */
  predicate InList(v: Value, vals: seq<Value>)
  {
    exists k :: 0 <= k < |vals| && PyEq(v, vals[k])
  }

  /** `d[key]` on a JSON object: KeyError when the key is absent. */
  function Field(d: Object, key: string): (r: Result<Value>)
    ensures r.Ok? <==> key in Keys(d)
    ensures r.Err? ==> r.error == KeyError
    ensures r.Ok? ==> Get(d, key) == Some(r.value)
  {
    match Get(d, key)
    case Some(v) => Ok(v)
    case None => Err(KeyError)
  }

  /** `v[key]` with a string key: the field of an object, KeyError when it lacks the key, TypeError on any other value. */
  function Subscript(v: Value, key: string): (r: Result<Value>)
    ensures r.Ok? <==> v.Obj? && key in Keys(v.fields)
    ensures r.Err? ==> r.error == (if v.Obj? then KeyError else TypeError)
    ensures r.Ok? ==> Get(v.fields, key) == Some(r.value)
  {
    match v
    case Obj(f) => Field(f, key)
    case _ => Err(TypeError)
  }

  /** A value found by `Subscript` is part of the value it was found in. */
  lemma SubscriptSmaller(v: Value, key: string)
    requires Subscript(v, key).Ok?
    ensures Subscript(v, key).value < v
  {
    var f := v.fields;
    var i :| 0 <= i < |f| && f[i] == (key, Subscript(v, key).value);
    assert f[i] in f;
  }

  /**
   * `v[0]`: the first item of a list or the first character of a string
   * (IndexError when empty), KeyError on an object (its keys are strings),
   * TypeError on any other value.
   */
  function First(v: Value): (r: Result<Value>)
    ensures r.Ok? <==> (v.Arr? && |v.items| > 0) || (v.Str? && |v.s| > 0)
    ensures r.Ok? && v.Arr? ==> r.value == v.items[0]
    ensures r.Ok? && v.Str? ==> r.value == Str([v.s[0]])
    ensures r.Err? ==> r.error == (if v.Arr? || v.Str? then IndexError else if v.Obj? then KeyError else TypeError)
  {
    match v
    case Arr(items) => if |items| == 0 then Err(IndexError) else Ok(items[0])
    case Obj(_) => Err(KeyError)
    case Str(s) => if |s| == 0 then Err(IndexError) else Ok(Str([s[0]]))
    case _ => Err(TypeError)
  }

  /**
   * What `for x in v` visits: a list's items, an object's keys, a string's
   * characters; iterating any other value is a TypeError.
   */
  function Iterate(v: Value): (r: Result<seq<Value>>)
    ensures r.Ok? <==> v.Arr? || v.Obj? || v.Str?
    ensures r.Err? ==> r.error == TypeError
    ensures v.Arr? ==> r == Ok(v.items)
    ensures v.Obj? ==> |r.value| == |v.fields| && forall i :: 0 <= i < |v.fields| ==> r.value[i] == Str(v.fields[i].0)
    ensures v.Str? ==> |r.value| == |v.s| && forall i :: 0 <= i < |v.s| ==> r.value[i] == Str([v.s[i]])
  {
    match v
    case Arr(items) => Ok(items)
    case Obj(f) => Ok(seq(|f|, i requires 0 <= i < |f| => Str(f[i].0)))
    case Str(s) => Ok(seq(|s|, i requires 0 <= i < |s| => Str([s[i]])))
    case _ => Err(TypeError)
  }

  /**
   * `needle in v` for a string needle: a key of an object, an item of a
   * list, a substring of a string; TypeError on any other value.
   */
  function PyIn(needle: string, v: Value): (r: Result<bool>)
    ensures r.Err? <==> !(v.Arr? || v.Obj? || v.Str?)
    ensures r.Err? ==> r.error == TypeError
    ensures v.Obj? ==> r == Ok(needle in Keys(v.fields))
    ensures v.Arr? ==> r == Ok(Str(needle) in v.items)
    ensures v.Str? ==> r == Ok(PyStr.Contains(v.s, needle))
  {
    match v
    case Obj(f) => Ok(needle in Keys(f))
    case Arr(items) => Ok(Str(needle) in items)
    case Str(s) => Ok(PyStr.ContainsStr(s, needle))
    case _ => Err(TypeError)
  }
}
