/**
 * `bin/csv_to_ucf.py`: reading the rows of a CSV file into UCF collections.
 * A row whose first cell is `collection` supplies the headers for the rows
 * after it; every other row becomes one collection, each non-empty cell
 * stored under the key its header names.  A header `a:b` stores into the
 * dict `a`; a `;` in front of a header opens a new item of the list `a`,
 * and a `;` behind one closes the list group.
 */
module CsvToUcf {
  import opened Wrappers
  import opened Dict
  import opened Json
  import opened PyStr

  // ---------------------------------------------------------------------
  // convert_val_type
  // ---------------------------------------------------------------------

  predicate AllDigits(s: string)
  {
    forall i :: 0 <= i < |s| ==> '0' <= s[i] <= '9'
  }

  /** `str.isnumeric()` for decimal digits: non-empty and digits only. */
  predicate IsNumeric(s: string)
  {
    |s| > 0 && AllDigits(s)
  }

  function Pow10(n: nat): (p: nat)
    ensures p > 0
  {
    if n == 0 then 1 else 10 * Pow10(n - 1)
  }

  /** An unsigned decimal `digits`, `digits.`, `.digits` or `digits.digits`. */
  function UnsignedDecimal(t: string): Option<real>
  {
    var parts := Split(t, '.');
    if |parts| == 1 && IsNumeric(t) then Some(ParseDigits(t) as real)
    else if |parts| == 2 && |parts[0]| + |parts[1]| > 0 && AllDigits(parts[0]) && AllDigits(parts[1]) then
      Some(ParseDigits(parts[0]) as real + (ParseDigits(parts[1]) as real) / (Pow10(|parts[1]|) as real))
    else None
  }

  /** `float(value)`: a signed decimal string; ValueError for any other string, TypeError for a list. */
  function FloatOf(value: Value): (r: Result<Value>)
    ensures r.Ok? ==> r.value.Float?
    ensures r.Err? ==> r.error == (if value.Str? then ValueError else TypeError)
  {
    if !value.Str? then Err(TypeError)
    else
      var s := value.s;
      var signed := |s| > 0 && (s[0] == '-' || s[0] == '+');
      var x := UnsignedDecimal(if signed then s[1..] else s);
      if x.None? then Err(ValueError)
      else if signed && s[0] == '-' then Ok(Float(-x.value))
      else Ok(Float(x.value))
  }

  /** `convert_val_type(value, key)`: the typed value of a cell stored under `key`. */
  function ConvertValType(value: Value, key: string): (r: Result<Value>)
    ensures r.Err? ==> r.error == ValueError || r.error == TypeError
  {
    if value == Str("true") || value == Str("false") then Ok(Bool(true))
    else if key == "value" then FloatOf(value)
    else if value.Str? && IsNumeric(value.s) && key != "color" then Ok(Int(ParseDigits(value.s)))
    else Ok(value)
  }

  /** A cell as the parser holds it: its text, or the list of its `;`-parts. */
  predicate IsCellValue(v: Value)
  {
    v.Str? || (v.Arr? && forall i :: 0 <= i < |v.items| ==> v.items[i].Str?)
  }

  /**
   * What a cell becomes.  Both `true` and `false` become True; only the key
   * `value` gives a float, and a list under it is a TypeError; a digit
   * string under any key but `value` and `color` gives an int; every other
   * cell is kept as it is.
   */
  lemma ConvertValTypeResults(value: Value, key: string)
    requires IsCellValue(value)
    ensures var r := ConvertValType(value, key);
      && (r.Err? <==> key == "value" && value != Str("true") && value != Str("false") && FloatOf(value).Err?)
      && (r.Ok? && r.value.Bool? <==> value == Str("true") || value == Str("false"))
      && (r.Ok? && r.value.Bool? ==> r.value == Bool(true))
      && (r.Ok? && r.value.Float? ==> key == "value")
      && (r.Ok? && r.value.Int? <==> value.Str? && IsNumeric(value.s) && key != "value" && key != "color")
      && (r.Ok? && (r.value.Str? || r.value.Arr?) ==> r.value == value && key != "value")
      && (value.Arr? ==> r == (if key == "value" then Err(TypeError) else Ok(value)))
  {
    var r := ConvertValType(value, key);
    if key == "value" && value != Str("true") && value != Str("false") && FloatOf(value).Ok? {
      assert FloatOf(value).value.Float?;
    }
  }

  /** Splitting on a character gives more than one part exactly when the character occurs; with one part, the part is the string. */
  lemma SplitAtSeparator(s: string, c: char)
    ensures |Split(s, c)| > 1 <==> c in s
    ensures |Split(s, c)| == 1 ==> Split(s, c) == [s]
  {
    var parts := Split(s, c);
    JoinSplit(s, c);
    if |parts| > 1 {
      assert Join(parts, [c]) == parts[0] + [c] + Join(parts[1..], [c]);
      assert s[|parts[0]|] == c;
    }
  }

  /** A natural number written out reads back as that int under any key but `value` and `color`. */
  lemma ConvertNatToInt(n: nat, key: string)
    requires key != "value" && key != "color"
    ensures ConvertValType(Str(NatToString(n)), key) == Ok(Int(n))
  {
    var s := NatToString(n);
    ParseNatToString(n);
    assert s[0] != 't' && s[0] != 'f';
  }

  /** A natural number written out reads back as that float under the key `value`. */
  lemma ConvertNatToFloat(n: nat)
    ensures ConvertValType(Str(NatToString(n)), "value") == Ok(Float(n as real))
  {
    var s := NatToString(n);
    assert s[0] != 't' && s[0] != 'f' && s[0] != '-' && s[0] != '+';
    NatUnsignedDecimal(n);
  }

  lemma NatUnsignedDecimal(n: nat)
    ensures UnsignedDecimal(NatToString(n)) == Some(n as real)
  {
    var s := NatToString(n);
    ParseNatToString(n);
    assert '.' !in s;
    SplitAtSeparator(s, '.');
  }

  // ---------------------------------------------------------------------
  // Cells
  // ---------------------------------------------------------------------

  /** The non-empty parts, as strings. */
  function NonEmptyParts(parts: seq<string>): (r: seq<Value>)
    ensures forall i :: 0 <= i < |r| ==> r[i].Str? && r[i].s != ""
  {
    if |parts| == 0 then []
    else NonEmptyParts(parts[..|parts| - 1]) + (if parts[|parts| - 1] != "" then [Str(parts[|parts| - 1])] else [])
  }

  /** The value a non-empty cell holds before conversion: its `;`-parts when it has a `;`, its text otherwise. */
  function CellValue(cell: string): Value
  {
    if ';' in cell then Arr(NonEmptyParts(Split(cell, ';'))) else Str(cell)
  }

  lemma {:induction false} NonEmptyPartsAll(parts: seq<string>)
    requires forall i :: 0 <= i < |parts| ==> parts[i] != ""
    ensures |NonEmptyParts(parts)| == |parts|
    ensures forall i :: 0 <= i < |parts| ==> NonEmptyParts(parts)[i] == Str(parts[i])
  {
    if |parts| > 0 {
      NonEmptyPartsAll(parts[..|parts| - 1]);
    }
  }

  lemma {:induction false} NonEmptyPartsFrom(parts: seq<string>, c: char)
    requires forall i :: 0 <= i < |parts| ==> c !in parts[i]
    ensures forall i :: 0 <= i < |NonEmptyParts(parts)| ==> c !in NonEmptyParts(parts)[i].s
  {
    if |parts| > 0 {
      NonEmptyPartsFrom(parts[..|parts| - 1], c);
    }
  }

  /**
   * A cell with a `;` holds the list of its non-empty parts, none holding a
   * `;`; a cell without one holds its text.
   */
  lemma CellValueSpec(cell: string)
    ensures ';' !in cell ==> CellValue(cell) == Str(cell)
    ensures ';' in cell ==> IsCellValue(CellValue(cell))
    ensures ';' in cell ==> forall i :: 0 <= i < |CellValue(cell).items| ==>
      CellValue(cell).items[i].s != "" && ';' !in CellValue(cell).items[i].s
  {
    if ';' in cell {
      NonEmptyPartsFrom(Split(cell, ';'), ';');
    }
  }

  /** Joining two or more non-empty, `;`-free parts with `;` gives a cell holding exactly them. */
  lemma CellValueJoin(parts: seq<string>)
    requires |parts| > 1
    requires forall i :: 0 <= i < |parts| ==> parts[i] != "" && ';' !in parts[i]
    ensures CellValue(Join(parts, ";")) == Arr(seq(|parts|, i requires 0 <= i < |parts| => Str(parts[i])))
  {
    SplitJoin(parts, ';');
    SplitAtSeparator(Join(parts, ";"), ';');
    NonEmptyPartsAll(parts);
  }

  // ---------------------------------------------------------------------
  // Headers
  // ---------------------------------------------------------------------

  /** A header with its list-group marks taken off: a `;` in front opens an item, a `;` behind closes the group. */
  datatype Header = Header(name: string, opens: bool, closes: bool)

  function DecodeHeader(header: string): Header
  {
    var opens := StartsWith(header, ";");
    var rest := if opens then header[1..] else header;
    var closes := EndsWith(rest, ";");
    Header(if closes then rest[..|rest| - 1] else rest, opens, closes)
  }

  /** The header text that carries a name and its marks. */
  function EncodeHeader(h: Header): string
  {
    (if h.opens then ";" else "") + h.name + (if h.closes then ";" else "")
  }

  /** Decoding undoes the marks of any name that neither starts nor ends with `;`. */
  lemma DecodeEncode(h: Header)
    requires |h.name| > 0 && h.name[0] != ';' && h.name[|h.name| - 1] != ';'
    ensures DecodeHeader(EncodeHeader(h)) == h
  {
    var s := EncodeHeader(h);
    var rest := h.name + (if h.closes then ";" else "");
    if h.opens {
      assert s == ";" + rest;
      assert s[1..] == rest;
    } else {
      assert s == rest;
      assert s[0] == h.name[0];
    }
    if h.closes {
      assert rest[..|rest| - 1] == h.name;
    } else {
      assert rest[|rest| - 1] == h.name[|h.name| - 1];
    }
  }

  // ---------------------------------------------------------------------
  // Storing one cell
  // ---------------------------------------------------------------------

  /** `target.append({})`: only a list has `append`. */
  function AppendItem(target: Value): (r: Result<Value>)
    ensures r.Err? <==> !target.Arr?
    ensures r.Err? ==> r.error == AttributeError
  {
    match target
    case Arr(xs) => Ok(Arr(xs + [Obj([])]))
    case _ => Err(AttributeError)
  }

  /** `target[key] = v`: only a dict takes a string key. */
  function SetField(target: Value, key: string, v: Value): (r: Result<Value>)
    ensures r.Err? <==> !target.Obj?
    ensures r.Err? ==> r.error == TypeError
  {
    match target
    case Obj(d) => Ok(Obj(Put(d, key, v)))
    case _ => Err(TypeError)
  }

  /**
   * `target[i][key] = v`: item `i` of a list (IndexError past its end),
   * KeyError on a dict, whose keys are strings, a character of a string
   * that then takes no assignment, TypeError on anything else.
   */
  function SetItemField(target: Value, i: nat, key: string, v: Value): (r: Result<Value>)
    ensures r.Ok? <==> target.Arr? && i < |target.items| && target.items[i].Obj?
    ensures r.Err? ==> r.error in {TypeError, IndexError, KeyError}
  {
    match target
    case Arr(xs) =>
      if i < |xs| then
        var item := SetField(xs[i], key, v);
        if item.Ok? then Ok(Arr(xs[i := item.value])) else Err(item.error)
      else Err(IndexError)
    case Obj(_) => Err(KeyError)
    case Str(s) => if i < |s| then Err(TypeError) else Err(IndexError)
    case _ => Err(TypeError)
  }

  /** The value a missing dict or list group starts from. */
  function Fresh(listItem: nat): Value
  {
    if listItem > 0 then Arr([]) else Obj([])
  }

  /** `collection[a]` once a missing group `a` has been created. */
  function GroupTarget(collection: Object, a: string, listItem: nat): Value
  {
    if a in Keys(collection) then Get(collection, a).value else Fresh(listItem)
  }

  /** The two keys of a header `a:b` (anything after a second `:` is dropped). */
  function Keys2(name: string): (r: (string, string))
    requires ':' in name
  {
    SplitAtSeparator(name, ':');
    var keys := Split(name, ':');
    (keys[0], keys[1])
  }

  /**
   * Storing a non-empty cell under the header name `name`: into the group
   * `a` for `a:b` (a list item when inside a list group, appending a fresh
   * item first when `addEntry` says so), into the collection otherwise.
   * `addEntry` is None while `add_entry` is still unassigned.
   */
  function Store(collection: Object, name: string, listItem: nat, addEntry: Option<bool>, cell: Value): Result<Object>
  {
    if ':' in name then
      var (a, b) := Keys2(name);
      StoreInGroup(collection, a, b, listItem, addEntry, cell)
    else
      var v := ConvertValType(cell, name);
      if v.Err? then Err(v.error) else Ok(Put(collection, name, v.value))
  }

  /** Storing a non-empty cell under the header `a:b`. */
  function StoreInGroup(collection: Object, a: string, b: string, listItem: nat, addEntry: Option<bool>, cell: Value): Result<Object>
  {
    var target := GroupTarget(collection, a, listItem);
    var prepared := if addEntry.None? then Err(UnboundLocalError) else if addEntry.value then AppendItem(target) else Ok(target);
    var v := ConvertValType(cell, b);
    if prepared.Err? then Err(prepared.error)
    else if v.Err? then Err(v.error)
    else
      var stored := if listItem > 0 then SetItemField(prepared.value, listItem - 1, b, v.value) else SetField(prepared.value, b, v.value);
      if stored.Err? then Err(stored.error) else Ok(Put(collection, a, stored.value))
  }

  /**
   * What the cell loop carries from cell to cell: the collection built so
   * far, `list_item`, and whether `add_entry` has been assigned (from then
   * on it is False at the start of every cell).
   */
  datatype RowState = RowState(collection: Object, listItem: nat, bound: bool)

  /** One cell under a non-empty header. */
  function CellStep(st: RowState, header: string, cell: string): Result<RowState>
  {
    var h := DecodeHeader(header);
    var listItem := if h.opens then st.listItem + 1 else st.listItem;
    var addEntry := if h.opens then Some(true) else if st.bound then Some(false) else None;
    var after := if h.closes then 0 else listItem;
    if cell == "" then Ok(RowState(st.collection, after, true))
    else
      var c := Store(st.collection, h.name, listItem, addEntry, CellValue(cell));
      if c.Err? then Err(c.error) else Ok(RowState(c.value, after, true))
  }

  /** The cell loop over a row: only cells under a non-empty header take part. */
  function Cells(headers: seq<string>, row: seq<string>, st: RowState): Result<RowState>
  {
    if |row| == 0 then Ok(st)
    else
      var prev := Cells(headers, row[..|row| - 1], st);
      var index := |row| - 1;
      if prev.Err? then prev
      else if index < |headers| && headers[index] != "" then CellStep(prev.value, headers[index], row[index])
      else prev
  }

  // ---------------------------------------------------------------------
  // Rows
  // ---------------------------------------------------------------------

  /** What the row loop carries: the current headers, the collections so far, whether `add_entry` is assigned. */
  datatype Reader = Reader(headers: seq<string>, collections: seq<Value>, bound: bool)

  /** A row: IndexError when empty, new headers when it starts with `collection`, one more collection otherwise. */
  function RowStep(rd: Reader, row: seq<string>): Result<Reader>
  {
    if |row| == 0 then Err(IndexError)
    else if row[0] == "collection" then Ok(Reader(row, rd.collections, rd.bound))
    else
      var st := Cells(rd.headers, row, RowState([], 0, rd.bound));
      if st.Err? then Err(st.error)
      else Ok(Reader(rd.headers, rd.collections + [Obj(st.value.collection)], st.value.bound))
  }

  function Rows(data: seq<seq<string>>): Result<Reader>
  {
    if |data| == 0 then Ok(Reader([], [], false))
    else
      var prev := Rows(data[..|data| - 1]);
      if prev.Err? then prev else RowStep(prev.value, data[|data| - 1])
  }

  /** The collections a CSV file's rows turn into. */
  function CsvToUcf(data: seq<seq<string>>): Result<seq<Value>>
  {
    var rd := Rows(data);
    if rd.Err? then Err(rd.error) else Ok(rd.value.collections)
  }

  // ---------------------------------------------------------------------
  // Properties
  // ---------------------------------------------------------------------

  predicate IsHeaderRow(row: seq<string>)
  {
    |row| > 0 && row[0] == "collection"
  }

  /** How many rows are not header rows. */
  function DataRowCount(data: seq<seq<string>>): nat
  {
    if |data| == 0 then 0
    else DataRowCount(data[..|data| - 1]) + (if IsHeaderRow(data[|data| - 1]) then 0 else 1)
  }

  /** The last header row, or no headers. */
  function LastHeaderRow(data: seq<seq<string>>): seq<string>
  {
    if |data| == 0 then []
    else if IsHeaderRow(data[|data| - 1]) then data[|data| - 1]
    else LastHeaderRow(data[..|data| - 1])
  }

  /**
   * A file that parses has no empty row, yields one collection per row that
   * is not a header row, and ends with the headers of its last header row.
   */
  lemma {:induction false} RowsShape(data: seq<seq<string>>)
    requires Rows(data).Ok?
    ensures forall i :: 0 <= i < |data| ==> |data[i]| > 0
    ensures |Rows(data).value.collections| == DataRowCount(data)
    ensures Rows(data).value.headers == LastHeaderRow(data)
  {
    if |data| > 0 {
      var init := data[..|data| - 1];
      RowsShape(init);
      RowStepShape(Rows(init).value, data[|data| - 1]);
      assert forall i :: 0 <= i < |init| ==> init[i] == data[i];
    }
  }

  lemma RowStepShape(rd: Reader, row: seq<string>)
    requires RowStep(rd, row).Ok?
    ensures |row| > 0
    ensures |RowStep(rd, row).value.collections| == |rd.collections| + (if IsHeaderRow(row) then 0 else 1)
    ensures RowStep(rd, row).value.headers == if IsHeaderRow(row) then row else rd.headers
  {
  }

  /** The collections parsed so far are never changed by later rows. */
  lemma {:induction false} RowsPrefix(data: seq<seq<string>>, n: nat)
    requires n <= |data| && Rows(data).Ok?
    ensures Rows(data[..n]).Ok?
    ensures Rows(data[..n]).value.collections <= Rows(data).value.collections
    decreases |data| - n
  {
    if n < |data| {
      RowsPrefix(data, n + 1);
      assert data[..n + 1][..n] == data[..n];
    } else {
      assert data[..n] == data;
    }
  }

  /** Cells past the last header take no part. */
  lemma {:induction false} CellsPastHeaders(headers: seq<string>, row: seq<string>, st: RowState)
    requires |headers| <= |row|
    ensures Cells(headers, row, st) == Cells(headers, row[..|headers|], st)
  {
    if |row| > |headers| {
      var init := row[..|row| - 1];
      assert Cells(headers, row, st) == Cells(headers, init, st);
      CellsPastHeaders(headers, init, st);
      assert init[..|headers|] == row[..|headers|];
    } else {
      assert row[..|headers|] == row;
    }
  }

  /** A cell left out: empty, or under an empty header, or past the last header. */
  predicate Skipped(headers: seq<string>, row: seq<string>, index: nat)
    requires index < |row|
  {
    index >= |headers| || headers[index] == "" || row[index] == ""
  }

  /** A row whose cells are all left out yields its collection unchanged. */
  lemma {:induction false} CellsSkipped(headers: seq<string>, row: seq<string>, st: RowState)
    requires forall i :: 0 <= i < |row| ==> Skipped(headers, row, i)
    ensures Cells(headers, row, st).Ok?
    ensures Cells(headers, row, st).value.collection == st.collection
  {
    if |row| > 0 {
      var init := row[..|row| - 1];
      forall i | 0 <= i < |init|
        ensures Skipped(headers, init, i)
      {
        assert Skipped(headers, row, i);
        assert init[i] == row[i];
      }
      CellsSkipped(headers, init, st);
      assert Skipped(headers, row, |row| - 1);
    }
  }

  /**
   * The only UnboundLocalError: a first cell that reaches `if add_entry`
   * before any cell has assigned it, i.e. a non-empty cell under an `a:b`
   * header that opens no item.
   */
  lemma CellStepUnbound(st: RowState, header: string, cell: string)
    ensures var h := DecodeHeader(header);
      CellStep(st, header, cell) == Err(UnboundLocalError) <==> !st.bound && cell != "" && !h.opens && ':' in h.name
    ensures CellStep(st, header, cell).Ok? ==> CellStep(st, header, cell).value.bound
  {
    var h := DecodeHeader(header);
    var listItem := if h.opens then st.listItem + 1 else st.listItem;
    var addEntry := if h.opens then Some(true) else if st.bound then Some(false) else None;
    if cell != "" {
      StoreUnbound(st.collection, h.name, listItem, addEntry, CellValue(cell));
    }
  }

  /** Storing fails with UnboundLocalError exactly on an `a:b` header while `add_entry` is unassigned. */
  lemma StoreUnbound(collection: Object, name: string, listItem: nat, addEntry: Option<bool>, cell: Value)
    ensures Store(collection, name, listItem, addEntry, cell) == Err(UnboundLocalError) <==> ':' in name && addEntry.None?
  {
  }

  /** A plain header `k` stores the converted cell under `k`, and nothing else changes. */
  lemma StorePlain(collection: Object, name: string, listItem: nat, addEntry: Option<bool>, cell: Value, k: string)
    requires ':' !in name
    requires Store(collection, name, listItem, addEntry, cell).Ok?
    ensures Get(Store(collection, name, listItem, addEntry, cell).value, k) ==
      if k == name then Some(ConvertValType(cell, name).value) else Get(collection, k)
  {
    GetPut(collection, name, ConvertValType(cell, name).value, k);
  }

  /**
   * Outside a list group, a header `a:b` stores the converted cell under
   * `b` in the dict `a` (created when missing); no other key of the
   * collection changes.
   */
  lemma StoreField(collection: Object, name: string, addEntry: Option<bool>, cell: Value, k: string)
    requires ':' in name
    requires Store(collection, name, 0, addEntry, cell).Ok?
    ensures var (a, b) := Keys2(name);
      var c := Store(collection, name, 0, addEntry, cell).value;
      && (k != a ==> Get(c, k) == Get(collection, k))
      && Get(c, a).Some? && Get(c, a).value.Obj?
      && Get(Get(c, a).value.fields, b) == Some(ConvertValType(cell, b).value)
  {
    var (a, b) := Keys2(name);
    var target := if a in Keys(collection) then Get(collection, a).value else Fresh(0);
    var prepared := if addEntry.None? then Err(UnboundLocalError) else if addEntry.value then AppendItem(target) else Ok(target);
    var v := ConvertValType(cell, b).value;
    var stored := SetField(prepared.value, b, v).value;
    GetPut(collection, a, stored, k);
    GetPut(collection, a, stored, a);
    GetPut(prepared.value.fields, b, v, b);
  }

  /**
   * Inside a list group (`list_item` > 0), a header `a:b` stores the
   * converted cell under `b` in item `list_item - 1` of the list `a`; the
   * list grows by one item exactly when the header opens one, and no other
   * key of the collection changes.
   */
  lemma StoreItem(collection: Object, name: string, listItem: nat, addEntry: Option<bool>, cell: Value, k: string)
    requires ':' in name && listItem > 0
    requires Store(collection, name, listItem, addEntry, cell).Ok?
    ensures var (a, b) := Keys2(name);
      var c := Store(collection, name, listItem, addEntry, cell).value;
      var before := if a in Keys(collection) then Get(collection, a).value.items else [];
      && (k != a ==> Get(c, k) == Get(collection, k))
      && Get(c, a).Some? && Get(c, a).value.Arr?
      && |Get(c, a).value.items| == |before| + (if addEntry == Some(true) then 1 else 0)
      && listItem - 1 < |Get(c, a).value.items|
      && Get(c, a).value.items[listItem - 1].Obj?
      && Get(Get(c, a).value.items[listItem - 1].fields, b) == Some(ConvertValType(cell, b).value)
  {
    var (a, b) := Keys2(name);
    var target := if a in Keys(collection) then Get(collection, a).value else Fresh(listItem);
    var prepared := if addEntry.None? then Err(UnboundLocalError) else if addEntry.value then AppendItem(target) else Ok(target);
    var v := ConvertValType(cell, b).value;
    var xs := prepared.value.items;
    var item := SetField(xs[listItem - 1], b, v).value;
    var stored := Arr(xs[listItem - 1 := item]);
    assert SetItemField(prepared.value, listItem - 1, b, v) == Ok(stored);
    GetPut(collection, a, stored, k);
    GetPut(collection, a, stored, a);
    GetPut(xs[listItem - 1].fields, b, v, b);
  }

  // ---------------------------------------------------------------------
  // The loops
  // ---------------------------------------------------------------------

  /** The loop keeping the non-empty `;`-parts of a cell. */
  method SplitCell(cell: string) returns (temp: seq<Value>)
    ensures temp == NonEmptyParts(Split(cell, ';'))
  {
    var vals := Split(cell, ';');
    temp := [];
    for i := 0 to |vals|
      invariant temp == NonEmptyParts(vals[..i])
    {
      assert vals[..i + 1][..i] == vals[..i];
      if vals[i] != "" {
        temp := temp + [Str(vals[i])];
      }
    }
    assert vals[..|vals|] == vals;
  }

  /** Storing a non-empty cell, statement by statement. */
  method StoreCell(collection: Object, name: string, listItem: nat, addEntry: Option<bool>, value: Value) returns (r: Result<Object>)
    ensures r == Store(collection, name, listItem, addEntry, value)
  {
    if ':' in name {
      var (a, b) := Keys2(name);
      r := StoreCellInGroup(collection, a, b, listItem, addEntry, value);
    } else {
      var v := ConvertValType(value, name);
      if v.Err? {
        return Err(v.error);
      }
      r := Ok(Put(collection, name, v.value));
    }
  }

  /** Storing a non-empty cell under the header `a:b`, statement by statement. */
  method StoreCellInGroup(collection0: Object, a: string, b: string, listItem: nat, addEntry: Option<bool>, value: Value)
    returns (r: Result<Object>)
    ensures r == StoreInGroup(collection0, a, b, listItem, addEntry, value)
  {
    var collection := collection0;
    if a !in Keys(collection) {
      collection := Put(collection, a, Fresh(listItem));
      GetPut(collection0, a, Fresh(listItem), a);
    }
    var target := Get(collection, a).value;
    assert target == GroupTarget(collection0, a, listItem);
    if addEntry.None? {
      return Err(UnboundLocalError);
    }
    if addEntry.value {
      var appended := AppendItem(target);
      if appended.Err? {
        return Err(appended.error);
      }
      target := appended.value;
    }
    var v := ConvertValType(value, b);
    if v.Err? {
      return Err(v.error);
    }
    var stored := if listItem > 0 then SetItemField(target, listItem - 1, b, v.value) else SetField(target, b, v.value);
    if stored.Err? {
      return Err(stored.error);
    }
    PutPut(collection0, a, Fresh(listItem), stored.value);
    collection := Put(collection, a, stored.value);
    return Ok(collection);
  }

  /** Taking the list-group marks off a header, statement by statement. */
  method StripMarks(header: string) returns (name: string, opening: bool, lastEntry: bool)
    ensures DecodeHeader(header) == Header(name, opening, lastEntry)
  {
    name := header;
    opening := false;
    lastEntry := false;
    if StartsWith(name, ";") {
      opening := true;
      name := name[1..];
    }
    if EndsWith(name, ";") {
      lastEntry := true;
      name := name[..|name| - 1];
    }
  }

  /** One cell under a non-empty header, statement by statement. */
  method ReadCell(st: RowState, header: string, cell: string) returns (r: Result<RowState>)
    ensures r == CellStep(st, header, cell)
  {
    var collection := st.collection;
    var listItem := st.listItem;
    var addEntry: Option<bool> := if st.bound then Some(false) else None;
    var name, opening, lastEntry := StripMarks(header);
    if opening {
      listItem := listItem + 1;
      addEntry := Some(true);
    }
    if cell != "" {
      var value := Str(cell);
      if ';' in cell {
        var temp := SplitCell(cell);
        value := Arr(temp);
      }
      assert value == CellValue(cell);
      var stored := StoreCell(collection, name, listItem, addEntry, value);
      if stored.Err? {
        return Err(stored.error);
      }
      collection := stored.value;
    }
    addEntry := Some(false);
    if lastEntry {
      listItem := 0;
    }
    return Ok(RowState(collection, listItem, addEntry.Some?));
  }

  lemma {:induction false} CellsErrKept(headers: seq<string>, row: seq<string>, st: RowState, n: nat)
    requires n <= |row| && Cells(headers, row[..n], st).Err?
    ensures Cells(headers, row, st) == Cells(headers, row[..n], st)
    decreases |row| - n
  {
    if n < |row| {
      assert row[..n + 1][..n] == row[..n];
      CellsErrKept(headers, row, st, n + 1);
    } else {
      assert row[..n] == row;
    }
  }

  /** The loop over one row's cells, building one collection. */
  method ReadRow(headers: seq<string>, row: seq<string>, bound: bool) returns (r: Result<RowState>)
    ensures r == Cells(headers, row, RowState([], 0, bound))
  {
    var st := RowState([], 0, bound);
    for index := 0 to |row|
      invariant Cells(headers, row[..index], RowState([], 0, bound)) == Ok(st)
    {
      assert row[..index + 1][..index] == row[..index];
      if index < |headers| && headers[index] != "" {
        var next := ReadCell(st, headers[index], row[index]);
        if next.Err? {
          CellsErrKept(headers, row, RowState([], 0, bound), index + 1);
          return Err(next.error);
        }
        st := next.value;
      }
    }
    assert row[..|row|] == row;
    return Ok(st);
  }

  lemma {:induction false} RowsErrKept(data: seq<seq<string>>, n: nat)
    requires n <= |data| && Rows(data[..n]).Err?
    ensures Rows(data) == Rows(data[..n])
    decreases |data| - n
  {
    if n < |data| {
      assert data[..n + 1][..n] == data[..n];
      RowsErrKept(data, n + 1);
    } else {
      assert data[..n] == data;
    }
  }

  /** The row loop of `main`: the collections a CSV file's rows turn into. */
  method ReadCsv(data: seq<seq<string>>) returns (r: Result<seq<Value>>)
    ensures r == CsvToUcf(data)
  {
    var headers: seq<string> := [];
    var ucfList: seq<Value> := [];
    var bound := false;
    for n := 0 to |data|
      invariant Rows(data[..n]) == Ok(Reader(headers, ucfList, bound))
    {
      assert data[..n + 1][..n] == data[..n];
      var row := data[n];
      if |row| == 0 {
        RowsErrKept(data, n + 1);
        return Err(IndexError);
      }
      if row[0] == "collection" {
        headers := row;
      } else {
        var st := ReadRow(headers, row, bound);
        if st.Err? {
          RowsErrKept(data, n + 1);
          return Err(st.error);
        }
        ucfList := ucfList + [Obj(st.value.collection)];
        bound := st.value.bound;
      }
    }
    assert data[..|data|] == data;
    return Ok(ucfList);
  }
}
