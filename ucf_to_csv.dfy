/**
 * `bin/ucf_to_csv.py`: the header row a UCF file's collections flatten
 * into.  Every collection but the motif library adds the headers of its
 * fields in order: a string field its key `k`, a dict field `k:key` per
 * key, a list holding a string `k`, a list of dicts the `k:key` headers of
 * each item, with a `;` in front of each item's first header and a `;`
 * behind the group's last one.  A field of any other type repeats the
 * previous field's headers.
 */
module UcfToCsv {
  import opened Wrappers
  import opened Dict
  import opened Json
  import CsvToUcf

  /** The headers `k:key` of the keys of a dict, in order. */
  function DictHeaders(k: string, keys: seq<string>): (g: seq<string>)
    ensures |g| == |keys|
    ensures forall i :: 0 <= i < |keys| ==> g[i] == k + ":" + keys[i]
  {
    if |keys| == 0 then [] else DictHeaders(k, keys[..|keys| - 1]) + [k + ":" + keys[|keys| - 1]]
  }

  /**
   * The headers of one list item: AttributeError unless it is a dict,
   * IndexError when the dict is empty, otherwise its `k:key` headers with a
   * `;` in front of the first.
   */
  function ItemHeaders(k: string, item: Value): Result<seq<string>>
  {
    if !item.Obj? then Err(AttributeError)
    else if |item.fields| == 0 then Err(IndexError)
    else
      var g := DictHeaders(k, Keys(item.fields));
      Ok([";" + g[0]] + g[1..])
  }

  /** The headers of the items of a list, item after item. */
  function ItemsHeaders(k: string, items: seq<Value>): Result<seq<string>>
  {
    if |items| == 0 then Ok([])
    else
      var prev := ItemsHeaders(k, items[..|items| - 1]);
      var g := ItemHeaders(k, items[|items| - 1]);
      if prev.Err? then prev
      else if g.Err? then g
      else Ok(prev.value + g.value)
  }

  /** `any(True for item in v if type(item) == str)` */
  predicate HasStr(items: seq<Value>)
  {
    exists i :: 0 <= i < |items| && items[i].Str?
  }

  /**
   * The headers of a list field: `k` when it holds a string; otherwise the
   * items' headers with a `;` behind the last (IndexError for an empty
   * list, as the `all(...)` guard over a filtered generator always holds).
   */
  function ListHeaders(k: string, items: seq<Value>): Result<seq<string>>
  {
    if HasStr(items) then Ok([k])
    else
      var g := ItemsHeaders(k, items);
      if g.Err? then g
      else if |g.value| == 0 then Err(IndexError)
      else Ok(g.value[..|g.value| - 1] + [g.value[|g.value| - 1] + ";"])
  }

  /** The headers of field `k` with value `v`; any other type keeps `header_group`, unassigned at first. */
  function HeaderGroup(k: string, v: Value, prev: Option<seq<string>>): Result<seq<string>>
  {
    match v
    case Str(_) => Ok([k])
    case Obj(d) => Ok(DictHeaders(k, Keys(d)))
    case Arr(items) => ListHeaders(k, items)
    case _ => if prev.None? then Err(UnboundLocalError) else Ok(prev.value)
  }

  /** What the loop carries: the header row so far and `header_group`, if assigned. */
  datatype Flattener = Flattener(headers: seq<string>, group: Option<seq<string>>)

  /** The fields of one collection, in order. */
  function Fields(fl: Flattener, fields: Object): Result<Flattener>
  {
    if |fields| == 0 then Ok(fl)
    else
      var prev := Fields(fl, fields[..|fields| - 1]);
      if prev.Err? then prev
      else
        var (k, v) := fields[|fields| - 1];
        var g := HeaderGroup(k, v, prev.value.group);
        if g.Err? then Err(g.error) else Ok(Flattener(prev.value.headers + g.value, Some(g.value)))
  }

  /** One collection: KeyError without a `collection` field, nothing for the motif library. */
  function CollectionStep(fl: Flattener, c: Value): Result<Flattener>
  {
    var name := Subscript(c, "collection");
    if name.Err? then Err(name.error)
    else if name.value == Str("motif_library") then Ok(fl)
    else Fields(fl, c.fields)
  }

  function Collections(fl: Flattener, cs: seq<Value>): Result<Flattener>
  {
    if |cs| == 0 then Ok(fl)
    else
      var prev := Collections(fl, cs[..|cs| - 1]);
      if prev.Err? then prev else CollectionStep(prev.value, cs[|cs| - 1])
  }

  /** The one header row written for a UCF file's JSON data. */
  function UcfHeaders(data: Value): Result<seq<string>>
  {
    var cs := Iterate(data);
    if cs.Err? then Err(cs.error)
    else
      var fl := Collections(Flattener([], None), cs.value);
      if fl.Err? then Err(fl.error) else Ok(fl.value.headers)
  }

  // ---------------------------------------------------------------------
  // Properties
  // ---------------------------------------------------------------------

  /** A collection whose fields are all strings adds exactly its keys, in order. */
  lemma {:induction false} StrFieldsHeaders(fl: Flattener, fields: Object)
    requires forall i :: 0 <= i < |fields| ==> fields[i].1.Str?
    ensures Fields(fl, fields).Ok?
    ensures Fields(fl, fields).value.headers == fl.headers + Keys(fields)
  {
    if |fields| > 0 {
      var init := fields[..|fields| - 1];
      StrFieldsHeaders(fl, init);
      assert Keys(fields) == Keys(init) + [fields[|fields| - 1].0];
    }
  }

  /** The list items are dicts, none of them empty. */
  predicate DictItems(items: seq<Value>)
  {
    forall i :: 0 <= i < |items| ==> items[i].Obj? && |items[i].fields| > 0
  }

  /** A list without strings gets headers exactly when it is a non-empty list of non-empty dicts. */
  lemma ListHeadersOk(k: string, items: seq<Value>)
    requires !HasStr(items)
    ensures ListHeaders(k, items).Ok? <==> |items| > 0 && DictItems(items)
  {
    ItemsHeadersOk(k, items);
    if |items| > 0 && DictItems(items) {
      ListHeadersMarked(k, items);
    }
  }

  lemma {:induction false} ItemsHeadersOk(k: string, items: seq<Value>)
    ensures ItemsHeaders(k, items).Ok? <==> DictItems(items)
  {
    if |items| > 0 {
      var init := items[..|items| - 1];
      ItemsHeadersOk(k, init);
      assert forall i :: 0 <= i < |init| ==> init[i] == items[i];
    }
  }

  // The headers of a list group as the CSV reader decodes them.

  /** The decoded headers of the keys after an item's first: plain `k:key`, no marks. */
  function PlainHeaders(k: string, keys: seq<string>): (hs: seq<CsvToUcf.Header>)
    ensures |hs| == |keys|
    ensures forall i :: 0 <= i < |keys| ==> hs[i] == CsvToUcf.Header(k + ":" + keys[i], false, false)
  {
    if |keys| == 0 then [] else PlainHeaders(k, keys[..|keys| - 1]) + [CsvToUcf.Header(k + ":" + keys[|keys| - 1], false, false)]
  }

  /** The decoded headers of one dict item: its first key opens the item. */
  function ItemMarks(k: string, item: Value): (hs: seq<CsvToUcf.Header>)
    requires item.Obj? && |item.fields| > 0
    ensures |hs| == |item.fields|
  {
    var keys := Keys(item.fields);
    [CsvToUcf.Header(k + ":" + keys[0], true, false)] + PlainHeaders(k, keys[1..])
  }

  /** The decoded headers of a list of dicts, item after item; nothing closes yet. */
  function Marked(k: string, items: seq<Value>): seq<CsvToUcf.Header>
    requires DictItems(items)
  {
    if |items| == 0 then [] else Marked(k, items[..|items| - 1]) + ItemMarks(k, items[|items| - 1])
  }

  /** The last decoded header closes the group. */
  function Close(hs: seq<CsvToUcf.Header>): seq<CsvToUcf.Header>
    requires |hs| > 0
  {
    hs[..|hs| - 1] + [hs[|hs| - 1].(closes := true)]
  }

  /** How many decoded headers open a list item. */
  function Opens(hs: seq<CsvToUcf.Header>): nat
  {
    if |hs| == 0 then 0 else Opens(hs[..|hs| - 1]) + (if hs[|hs| - 1].opens then 1 else 0)
  }

  lemma {:induction false} OpensAppend(a: seq<CsvToUcf.Header>, b: seq<CsvToUcf.Header>)
    ensures Opens(a + b) == Opens(a) + Opens(b)
    decreases |b|
  {
    if |b| > 0 {
      OpensAppend(a, b[..|b| - 1]);
      assert (a + b)[..|a + b| - 1] == a + b[..|b| - 1];
    } else {
      assert a + b == a;
    }
  }

  lemma {:induction false} OpensPlain(k: string, keys: seq<string>)
    ensures Opens(PlainHeaders(k, keys)) == 0
  {
    if |keys| > 0 {
      OpensPlain(k, keys[..|keys| - 1]);
    }
  }

  /** Each item opens exactly once, with its first header, and does not close. */
  lemma ItemMarksOpen(k: string, item: Value)
    requires item.Obj? && |item.fields| > 0
    ensures Opens(ItemMarks(k, item)) == 1
    ensures forall j :: 0 <= j < |ItemMarks(k, item)| ==> !ItemMarks(k, item)[j].closes
  {
    var keys := Keys(item.fields);
    OpensPlain(k, keys[1..]);
    OpensAppend([CsvToUcf.Header(k + ":" + keys[0], true, false)], PlainHeaders(k, keys[1..]));
  }

  lemma DictItemsInit(items: seq<Value>)
    requires DictItems(items) && |items| > 0
    ensures DictItems(items[..|items| - 1])
  {
    var init := items[..|items| - 1];
    assert forall i :: 0 <= i < |init| ==> init[i] == items[i];
  }

  /** A list of non-empty dicts decodes as one header per key, exactly one per item opening it, none closing. */
  lemma {:induction false} MarkedLength(k: string, items: seq<Value>)
    requires DictItems(items)
    ensures |items| > 0 ==> |Marked(k, items)| > 0
    ensures Opens(Marked(k, items)) == |items|
    ensures forall j :: 0 <= j < |Marked(k, items)| ==> !Marked(k, items)[j].closes
  {
    if |items| > 0 {
      var init := items[..|items| - 1];
      DictItemsInit(items);
      MarkedLength(k, init);
      ItemMarksOpen(k, items[|items| - 1]);
      OpensAppend(Marked(k, init), ItemMarks(k, items[|items| - 1]));
    }
  }

  /** Header texts that are the encodings of decoded headers, one by one. */
  predicate EncodesAs(g: seq<string>, hs: seq<CsvToUcf.Header>)
  {
    |g| == |hs| && forall j :: 0 <= j < |g| ==> g[j] == CsvToUcf.EncodeHeader(hs[j])
  }

  lemma EncodesAppend(g1: seq<string>, hs1: seq<CsvToUcf.Header>, g2: seq<string>, hs2: seq<CsvToUcf.Header>)
    requires EncodesAs(g1, hs1) && EncodesAs(g2, hs2)
    ensures EncodesAs(g1 + g2, hs1 + hs2)
  {
  }

  lemma ItemHeadersMarked(k: string, item: Value)
    requires item.Obj? && |item.fields| > 0
    ensures ItemHeaders(k, item).Ok? && EncodesAs(ItemHeaders(k, item).value, ItemMarks(k, item))
  {
    var keys := Keys(item.fields);
    var g := DictHeaders(k, keys);
    var ig := [";" + g[0]] + g[1..];
    var ms := ItemMarks(k, item);
    forall j | 0 <= j < |ms|
      ensures ig[j] == CsvToUcf.EncodeHeader(ms[j])
    {
      if j > 0 {
        assert ms[j] == CsvToUcf.Header(k + ":" + keys[j], false, false);
      }
    }
  }

  /** The items' headers are the encodings of their decoded headers, one by one. */
  lemma {:induction false} ItemsHeadersMarked(k: string, items: seq<Value>)
    requires DictItems(items)
    ensures ItemsHeaders(k, items).Ok?
    ensures EncodesAs(ItemsHeaders(k, items).value, Marked(k, items))
  {
    if |items| > 0 {
      var init := items[..|items| - 1];
      DictItemsInit(items);
      ItemsHeadersMarked(k, init);
      ItemHeadersMarked(k, items[|items| - 1]);
      EncodesAppend(ItemsHeaders(k, init).value, Marked(k, init),
        ItemHeaders(k, items[|items| - 1]).value, ItemMarks(k, items[|items| - 1]));
    }
  }

  /** Adding the closing `;` to the last header text closes its decoded header. */
  lemma EncodesClose(g: seq<string>, hs: seq<CsvToUcf.Header>)
    requires EncodesAs(g, hs) && |hs| > 0 && !hs[|hs| - 1].closes
    ensures EncodesAs(g[..|g| - 1] + [g[|g| - 1] + ";"], Close(hs))
  {
  }

  /**
   * The headers of a non-empty list of non-empty dicts: one per key, each
   * the encoding of its decoded header, exactly one per item opening an
   * item, and only the last closing the group.
   */
  lemma ListHeadersMarked(k: string, items: seq<Value>)
    requires !HasStr(items) && |items| > 0 && DictItems(items)
    ensures ListHeaders(k, items).Ok?
    ensures EncodesAs(ListHeaders(k, items).value, Close(Marked(k, items)))
    ensures Opens(Close(Marked(k, items))) == |items|
    ensures forall j :: 0 <= j < |Marked(k, items)| ==> (Close(Marked(k, items))[j].closes <==> j == |Marked(k, items)| - 1)
  {
    ItemsHeadersMarked(k, items);
    MarkedLength(k, items);
    var m := Marked(k, items);
    EncodesClose(ItemsHeaders(k, items).value, m);
    CloseSpec(m);
  }

  /** Closing marks the last header and changes no opening. */
  lemma CloseSpec(hs: seq<CsvToUcf.Header>)
    requires |hs| > 0
    ensures Opens(Close(hs)) == Opens(hs)
    ensures forall j :: 0 <= j < |hs| ==> Close(hs)[j].closes == (j == |hs| - 1 || hs[j].closes)
  {
    var c := Close(hs);
    OpensAppend(hs[..|hs| - 1], [hs[|hs| - 1]]);
    OpensAppend(hs[..|hs| - 1], [c[|hs| - 1]]);
    assert hs[..|hs| - 1] + [hs[|hs| - 1]] == hs;
  }

  /** A name the CSV reader's mark stripping leaves alone. */
  predicate Unmarked(name: string)
  {
    |name| > 0 && name[0] != ';' && name[|name| - 1] != ';'
  }

  /**
   * Reading the headers of a list group back: when the field name does not
   * start with `;` and no key ends with one, the CSV reader decodes them to
   * exactly the group's `k:key` names and marks.
   */
  lemma ListHeadersDecode(k: string, items: seq<Value>)
    requires !HasStr(items) && |items| > 0 && DictItems(items)
    requires |k| > 0 && k[0] != ';'
    requires forall i, j :: 0 <= i < |items| && 0 <= j < |items[i].fields| ==> Unmarked(k + ":" + items[i].fields[j].0)
    ensures ListHeaders(k, items).Ok? && |ListHeaders(k, items).value| == |Marked(k, items)|
    ensures forall j :: 0 <= j < |Marked(k, items)| ==>
      CsvToUcf.DecodeHeader(ListHeaders(k, items).value[j]) == Close(Marked(k, items))[j]
  {
    ListHeadersMarked(k, items);
    MarkedUnmarked(k, items);
    var c := Close(Marked(k, items));
    forall j | 0 <= j < |c|
      ensures CsvToUcf.DecodeHeader(ListHeaders(k, items).value[j]) == c[j]
    {
      CsvToUcf.DecodeEncode(c[j]);
    }
  }

  lemma {:induction false} MarkedUnmarked(k: string, items: seq<Value>)
    requires DictItems(items)
    requires forall i, j :: 0 <= i < |items| && 0 <= j < |items[i].fields| ==> Unmarked(k + ":" + items[i].fields[j].0)
    ensures forall j :: 0 <= j < |Marked(k, items)| ==> Unmarked(Marked(k, items)[j].name)
  {
    if |items| > 0 {
      var init := items[..|items| - 1];
      assert forall i :: 0 <= i < |init| ==> init[i] == items[i];
      DictItemsInit(items);
      MarkedUnmarked(k, init);
      var item := items[|items| - 1];
      var keys := Keys(item.fields);
      var ms := ItemMarks(k, item);
      forall j | 0 <= j < |ms|
        ensures Unmarked(ms[j].name)
      {
        assert ms[j].name == k + ":" + item.fields[j].0;
      }
    }
  }

  // ---------------------------------------------------------------------
  // The loops
  // ---------------------------------------------------------------------

  /** The loop over a dict's keys appending `k:key`. */
  method DictGroup(k: string, d: Object) returns (g: seq<string>)
    ensures g == DictHeaders(k, Keys(d))
  {
    var keys := Keys(d);
    g := [];
    for i := 0 to |keys|
      invariant g == DictHeaders(k, keys[..i])
    {
      assert keys[..i + 1][..i] == keys[..i];
      g := g + [k + ":" + keys[i]];
    }
    assert keys[..|keys|] == keys;
  }

  /** One list item: its `header_dicts`, the first marked with `;`. */
  method ItemGroup(k: string, item: Value) returns (r: Result<seq<string>>)
    ensures r == ItemHeaders(k, item)
  {
    if !item.Obj? {
      return Err(AttributeError);
    }
    var headerDicts := DictGroup(k, item.fields);
    if |headerDicts| == 0 {
      return Err(IndexError);
    }
    var temp := headerDicts[0];
    headerDicts := headerDicts[0 := ";" + temp];
    assert headerDicts == [";" + temp] + DictHeaders(k, Keys(item.fields))[1..];
    return Ok(headerDicts);
  }

  lemma {:induction false} ItemsHeadersErrKept(k: string, items: seq<Value>, n: nat)
    requires n <= |items| && ItemsHeaders(k, items[..n]).Err?
    ensures ItemsHeaders(k, items) == ItemsHeaders(k, items[..n])
    decreases |items| - n
  {
    if n < |items| {
      assert items[..n + 1][..n] == items[..n];
      ItemsHeadersErrKept(k, items, n + 1);
    } else {
      assert items[..n] == items;
    }
  }

  /** A list field: `k` when any item is a string, else every item's headers and the closing `;`. */
  method ListGroup(k: string, items: seq<Value>) returns (r: Result<seq<string>>)
    ensures r == ListHeaders(k, items)
  {
    if HasStr(items) {
      return Ok([k]);
    }
    var headerGroup: seq<string> := [];
    for i := 0 to |items|
      invariant ItemsHeaders(k, items[..i]) == Ok(headerGroup)
    {
      assert items[..i + 1][..i] == items[..i];
      var headerDicts := ItemGroup(k, items[i]);
      if headerDicts.Err? {
        ItemsHeadersErrKept(k, items, i + 1);
        return Err(headerDicts.error);
      }
      headerGroup := headerGroup + headerDicts.value;
    }
    assert items[..|items|] == items;
    if |headerGroup| == 0 {
      return Err(IndexError);
    }
    headerGroup := headerGroup[|headerGroup| - 1 := headerGroup[|headerGroup| - 1] + ";"];
    assert headerGroup == ItemsHeaders(k, items).value[..|headerGroup| - 1] + [ItemsHeaders(k, items).value[|headerGroup| - 1] + ";"];
    return Ok(headerGroup);
  }

  lemma {:induction false} FieldsErrKept(fl: Flattener, fields: Object, n: nat)
    requires n <= |fields| && Fields(fl, fields[..n]).Err?
    ensures Fields(fl, fields) == Fields(fl, fields[..n])
    decreases |fields| - n
  {
    if n < |fields| {
      assert fields[..n + 1][..n] == fields[..n];
      FieldsErrKept(fl, fields, n + 1);
    } else {
      assert fields[..n] == fields;
    }
  }

  /** The loop over one collection's fields. */
  method CollectionGroups(fl: Flattener, c: Value) returns (r: Result<Flattener>)
    ensures r == CollectionStep(fl, c)
  {
    var name := Subscript(c, "collection");
    if name.Err? {
      return Err(name.error);
    }
    if name.value == Str("motif_library") {
      return Ok(fl);
    }
    var fields := c.fields;
    var headers := fl.headers;
    var headerGroup := fl.group;
    for i := 0 to |fields|
      invariant Fields(fl, fields[..i]) == Ok(Flattener(headers, headerGroup))
    {
      assert fields[..i + 1][..i] == fields[..i];
      var (k, v) := fields[i];
      var g: Result<seq<string>>;
      match v {
        case Str(_) =>
          g := Ok([k]);
        case Obj(d) =>
          var dg := DictGroup(k, d);
          g := Ok(dg);
        case Arr(items) =>
          g := ListGroup(k, items);
        case _ =>
          g := if headerGroup.None? then Err(UnboundLocalError) else Ok(headerGroup.value);
      }
      if g.Err? {
        FieldsErrKept(fl, fields, i + 1);
        return Err(g.error);
      }
      headerGroup := Some(g.value);
      headers := headers + g.value;
    }
    assert fields[..|fields|] == fields;
    return Ok(Flattener(headers, headerGroup));
  }

  lemma {:induction false} CollectionsErrKept(fl: Flattener, cs: seq<Value>, n: nat)
    requires n <= |cs| && Collections(fl, cs[..n]).Err?
    ensures Collections(fl, cs) == Collections(fl, cs[..n])
    decreases |cs| - n
  {
    if n < |cs| {
      assert cs[..n + 1][..n] == cs[..n];
      CollectionsErrKept(fl, cs, n + 1);
    } else {
      assert cs[..n] == cs;
    }
  }

  /** The collection loop of `main`: the header row of a UCF file. */
  method FlattenHeaders(data: Value) returns (r: Result<seq<string>>)
    ensures r == UcfHeaders(data)
  {
    var cs := Iterate(data);
    if cs.Err? {
      return Err(cs.error);
    }
    var collections := cs.value;
    var fl := Flattener([], None);
    for n := 0 to |collections|
      invariant Collections(Flattener([], None), collections[..n]) == Ok(fl)
    {
      assert collections[..n + 1][..n] == collections[..n];
      var next := CollectionGroups(fl, collections[n]);
      if next.Err? {
        CollectionsErrKept(Flattener([], None), collections, n + 1);
        return Err(next.error);
      }
      fl := next.value;
    }
    assert collections[..|collections|] == collections;
    return Ok(fl.headers);
  }
}
