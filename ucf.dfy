/**
 * The User Constraint File (UCF) layer: locating the three JSON files of a
 * library (the main UCF, the input sensors and the output devices),
 * loading them, counting the entries of each top-level collection and
 * querying collections by name.
 *
 * The three copies of the UCF class in the repository (the current one
 * and the two older ones) share the query, count and validity logic and
 * differ only in how the three file paths are built; each way of building
 * them is a function below.  Opening and parsing files is modelled by a
 * file system map from path to what `json.load` gives.
 */
module Ucf {
  import opened Wrappers
  import opened Dict
  import opened Json
  import opened PyStr

  // ---------------------------------------------------------------------
  // File paths
  // ---------------------------------------------------------------------

  /** `os.path.join(a, b)` on POSIX: an absolute `b` replaces `a`. */
  function PathJoin(a: string, b: string): string
  {
    if |b| > 0 && b[0] == '/' then b
    else if |a| == 0 || a[|a| - 1] == '/' then a + b
    else a + "/" + b
  }

  /** `os.path.join(first, *rest)`. */
  function PathJoinAll(first: string, rest: seq<string>): string
    decreases |rest|
  {
    if |rest| == 0 then first else PathJoinAll(PathJoin(first, rest[0]), rest[1..])
  }

  /** `os.path.join(*p.split('/'))`, the normalisation of the older copy. */
  function Normalise(p: string): string
  {
    var parts := Split(p, '/');
    PathJoinAll(parts[0], parts[1..])
  }

  /** A path whose `/`-separated components are all non-empty. */
  predicate PlainPath(p: string)
  {
    forall k :: 0 <= k < |Split(p, '/')| ==> |Split(p, '/')[k]| > 0
  }

  /** The file name with '.json' appended unless it already ends so. */
  function WithJson(f: string): (r: string)
    ensures EndsWith(r, ".json")
    ensures |f| <= |r| && r[..|f|] == f
    ensures EndsWith(f, ".json") ==> r == f
  {
    if EndsWith(f, ".json") then f else f + ".json"
  }

  /** The UCF name: the file name without a trailing '.UCF'. */
  function UcfName(ucfFile: string): string
  {
    if EndsWith(ucfFile, ".UCF") then ucfFile[..|ucfFile| - 4] else ucfFile
  }

  /** The current copy: each of the three file names gains '.json' if it lacks it. */
  function CorePaths(filepath: string, ucfFile: string, inFile: string, outFile: string): (r: seq<string>)
    ensures |r| == 3
    ensures forall k :: 0 <= k < 3 ==> EndsWith(r[k], ".json")
    ensures EndsWith(ucfFile, ".json") && !StartsWith(ucfFile, "/") ==> EndsWith(r[0], ucfFile)
  {
    var u := WithJson(ucfFile);
    var i := WithJson(inFile);
    var o := WithJson(outFile);
    JoinEndsWith(filepath, u, ".json");
    JoinEndsWith(filepath, i, ".json");
    JoinEndsWith(filepath, o, ".json");
    JoinKeepsRelative(filepath, u);
    [PathJoin(filepath, u), PathJoin(filepath, i), PathJoin(filepath, o)]
  }

  /** The three names `<name>.UCF.json`, `<name>.input.json` and `<name>.output.json`. */
  function LibraryFiles(name: string): seq<string>
  {
    [name + ".UCF.json", name + ".input.json", name + ".output.json"]
  }

  /** The older copy: the directory is first normalised by splitting on '/' and re-joining. */
  function LegacyPaths(filepath: string, name: string): (r: seq<string>)
    ensures |r| == 3
    ensures forall k :: 0 <= k < 3 ==> EndsWith(r[k], LibraryFiles(name)[k])
  {
    var base := Normalise(filepath);
    var fs := LibraryFiles(name);
    JoinEndsWith(base, fs[0], fs[0]);
    JoinEndsWith(base, fs[1], fs[1]);
    JoinEndsWith(base, fs[2], fs[2]);
    [PathJoin(base, fs[0]), PathJoin(base, fs[1]), PathJoin(base, fs[2])]
  }

  /** The oldest copy: the directory is joined as given. */
  function OldestPaths(filepath: string, name: string): (r: seq<string>)
    ensures |r| == 3
    ensures forall k :: 0 <= k < 3 ==> EndsWith(r[k], LibraryFiles(name)[k])
  {
    var fs := LibraryFiles(name);
    JoinEndsWith(filepath, fs[0], fs[0]);
    JoinEndsWith(filepath, fs[1], fs[1]);
    JoinEndsWith(filepath, fs[2], fs[2]);
    [PathJoin(filepath, fs[0]), PathJoin(filepath, fs[1]), PathJoin(filepath, fs[2])]
  }

  lemma JoinEndsWith(a: string, b: string, t: string)
    requires EndsWith(b, t)
    ensures EndsWith(PathJoin(a, b), t)
  {
    var r := PathJoin(a, b);
    assert r[|r| - |b|..] == b;
    assert r[|r| - |t|..] == b[|b| - |t|..];
  }

  lemma JoinKeepsRelative(a: string, b: string)
    ensures !StartsWith(b, "/") ==> EndsWith(PathJoin(a, b), b)
  {
    if |b| > 0 {
      assert b[..1] == [b[0]];
    }
    var r := PathJoin(a, b);
    assert r[|r| - |b|..] == b;
  }

  /** A relative name below a directory without a trailing '/' gets one separator. */
  lemma JoinRelative(a: string, b: string)
    requires |a| > 0 && a[|a| - 1] != '/'
    requires !StartsWith(b, "/")
    ensures PathJoin(a, b) == a + "/" + b
  {
    if |b| > 0 {
      assert b[..1] == [b[0]];
    }
  }

  /** The oldest copy puts the three library files directly below the given directory. */
  lemma OldestPathsPlain(filepath: string, name: string)
    requires |filepath| > 0 && filepath[|filepath| - 1] != '/'
    requires !StartsWith(name, "/")
    ensures OldestPaths(filepath, name) ==
      [filepath + "/" + name + ".UCF.json", filepath + "/" + name + ".input.json", filepath + "/" + name + ".output.json"]
  {
    NotRooted(name, ".UCF.json");
    NotRooted(name, ".input.json");
    NotRooted(name, ".output.json");
    JoinRelative(filepath, name + ".UCF.json");
    JoinRelative(filepath, name + ".input.json");
    JoinRelative(filepath, name + ".output.json");
    var fs := LibraryFiles(name);
    assert fs[0] == name + ".UCF.json" && fs[1] == name + ".input.json" && fs[2] == name + ".output.json";
    assert OldestPaths(filepath, name) == [PathJoin(filepath, fs[0]), PathJoin(filepath, fs[1]), PathJoin(filepath, fs[2])];
    assert filepath + "/" + (name + ".UCF.json") == filepath + "/" + name + ".UCF.json";
    assert filepath + "/" + (name + ".input.json") == filepath + "/" + name + ".input.json";
    assert filepath + "/" + (name + ".output.json") == filepath + "/" + name + ".output.json";
  }

  lemma NotRooted(name: string, ext: string)
    requires !StartsWith(name, "/")
    requires |ext| > 0 && ext[0] != '/'
    ensures !StartsWith(name + ext, "/")
  {
    var f := name + ext;
    if |name| > 0 {
      assert name[..1] == [name[0]];
      assert f[0] == name[0];
    } else {
      assert f[0] == ext[0];
    }
    assert f[..1] == [f[0]];
  }

  /** The '.UCF' suffix is dropped from the name and nothing else. */
  lemma UcfNameStripsSuffix(name: string)
    ensures UcfName(name + ".UCF") == name
    ensures !EndsWith(name, ".UCF") ==> UcfName(name) == name
  {
    var f := name + ".UCF";
    assert f[|f| - 4..] == ".UCF";
    assert f[..|f| - 4] == name;
  }

  /** Appending '.json' is idempotent. */
  lemma WithJsonIdempotent(f: string)
    ensures WithJson(WithJson(f)) == WithJson(f)
  {
  }

  /** Joining component by component, when none is empty, is joining with '/'. */
  lemma {:induction false} JoinAllPlain(acc: string, rest: seq<string>)
    requires |acc| > 0 && acc[|acc| - 1] != '/'
    requires forall k :: 0 <= k < |rest| ==> |rest[k]| > 0 && '/' !in rest[k]
    ensures PathJoinAll(acc, rest) == Join([acc] + rest, "/")
    decreases |rest|
  {
    if |rest| > 0 {
      var r0 := rest[0];
      assert r0[0] != '/' by { assert r0[0] in r0; }
      assert r0[|r0| - 1] != '/' by { assert r0[|r0| - 1] in r0; }
      var next := acc + "/" + r0;
      assert PathJoin(acc, r0) == next;
      JoinAllPlain(next, rest[1..]);
      assert ([next] + rest[1..])[1..] == rest[1..];
      assert ([acc] + rest)[1..] == rest;
      assert rest == [r0] + rest[1..];
      if |rest| == 1 {
        assert Join(rest, "/") == r0;
      } else {
        assert Join(rest, "/") == r0 + "/" + Join(rest[1..], "/");
      }
    }
  }

  /** A relative path with no empty component comes back unchanged. */
  lemma NormalisePlain(p: string)
    requires PlainPath(p)
    ensures Normalise(p) == p
  {
    var parts := Split(p, '/');
    JoinAllPlain(parts[0], parts[1..]);
    assert parts[0][|parts[0]| - 1] in parts[0];
    assert [parts[0]] + parts[1..] == parts;
    JoinSplit(p, '/');
  }

  /** An absolute path loses its leading '/': the normalisation makes it relative. */
  lemma NormaliseDropsRoot(q: string)
    requires PlainPath(q)
    ensures Normalise("/" + q) == q
  {
    var p := "/" + q;
    assert p[0] == '/' && p[1..] == q;
    var parts := Split(q, '/');
    assert Split(p, '/') == [""] + parts;
    assert ([""] + parts)[1..] == parts;
    assert parts[0][0] in parts[0];
    assert PathJoin("", parts[0]) == parts[0];
    assert parts == [parts[0]] + parts[1..];
    NormalisePlain(q);
  }

  // ---------------------------------------------------------------------
  // Loading the three files
  // ---------------------------------------------------------------------

  /** What `json.load` makes of an existing file. */
  datatype FileState = Unparsable | Parsed(content: Value)

  /** The files that exist, by path. */
  type FileSystem = map<string, FileState>

  predicate Parses(fs: FileSystem, p: string)
  {
    p in fs && fs[p].Parsed?
  }

  /** The loaded contents, in path order, skipping files that failed to parse. */
  function Loaded(fs: FileSystem, paths: seq<string>): (out: seq<Value>)
    requires forall k :: 0 <= k < |paths| ==> paths[k] in fs
    ensures |out| <= |paths|
    ensures |out| == |paths| <==> forall k :: 0 <= k < |paths| ==> Parses(fs, paths[k])
    ensures |out| == |paths| ==> forall k :: 0 <= k < |paths| ==> out[k] == fs[paths[k]].content
  {
    if |paths| == 0 then []
    else
      var init := paths[..|paths| - 1];
      var p := paths[|paths| - 1];
      assert forall k :: 0 <= k < |init| ==> init[k] == paths[k];
      Loaded(fs, init) + (if fs[p].Parsed? then [fs[p].content] else [])
  }

  /**
   * `__parse_helper`: opening a missing file raises; otherwise the contents
   * when exactly three files parsed, and no contents at all when some did not.
   */
  function ParseSpec(fs: FileSystem, paths: seq<string>): Result<Option<seq<Value>>>
  {
    if exists k :: 0 <= k < |paths| && paths[k] !in fs then Err(FileNotFoundError)
    else
      var out := Loaded(fs, paths);
      if |out| == 3 then Ok(Some(out)) else Ok(None)
  }

  method ParseHelper(fs: FileSystem, paths: seq<string>) returns (r: Result<Option<seq<Value>>>)
    ensures r == ParseSpec(fs, paths)
  {
    var out: seq<Value> := [];
    var n := 0;
    while n < |paths|
      invariant 0 <= n <= |paths|
      invariant forall k :: 0 <= k < n ==> paths[k] in fs
      invariant out == Loaded(fs, paths[..n])
    {
      var f := paths[n];
      if f !in fs {
        return Err(FileNotFoundError);
      }
      assert paths[..n + 1][..n] == paths[..n];
      if fs[f].Parsed? {
        out := out + [fs[f].content];
      }
      n := n + 1;
    }
    assert paths[..n] == paths;
    if |out| == 3 {
      r := Ok(Some(out));
    } else {
      r := Ok(None);
    }
  }

  /** With three paths that all exist, the contents come back exactly when all three parse. */
  lemma ParseThree(fs: FileSystem, paths: seq<string>)
    requires |paths| == 3
    ensures ParseSpec(fs, paths).Err? <==> exists k :: 0 <= k < 3 && paths[k] !in fs
    ensures ParseSpec(fs, paths).Ok? && ParseSpec(fs, paths).value.Some? <==>
      forall k :: 0 <= k < 3 ==> Parses(fs, paths[k])
    ensures ParseSpec(fs, paths).Ok? && ParseSpec(fs, paths).value.Some? ==>
      forall k :: 0 <= k < 3 ==> ParseSpec(fs, paths).value.value[k] == fs[paths[k]].content
  {
  }

  // ---------------------------------------------------------------------
  // Top-level entries and their collection names
  // ---------------------------------------------------------------------

  /** `for c in v`: a list yields its items, a dict its keys, a string its characters. */
  function Entries(v: Value): (r: Result<seq<Value>>)
    ensures r.Err? <==> !(v.Arr? || v.Obj? || v.Str?)
    ensures r.Err? ==> r.error == TypeError
    ensures v.Arr? ==> r == Ok(v.items)
  {
    match v
    case Arr(items) => Ok(items)
    case Obj(fields) => Ok(seq(|fields|, k requires 0 <= k < |fields| => Str(fields[k].0)))
    case Str(s) => Ok(seq(|s|, k requires 0 <= k < |s| => Str([s[k]])))
    case _ => Err(TypeError)
  }

  /** `c['collection']`: a KeyError on a dict without it, a TypeError on anything but a dict. */
  function Tag(c: Value): Result<Value>
  {
    if c.Obj? then Field(c.fields, "collection") else Err(TypeError)
  }

  lemma TagErrors(c: Value)
    ensures Tag(c).Ok? <==> c.Obj? && "collection" in Keys(c.fields)
    ensures Tag(c).Err? ==> Tag(c).error == (if c.Obj? then KeyError else TypeError)
    ensures Tag(c).Ok? ==> Get(c.fields, "collection") == Some(Tag(c).value)
  {
  }

  /** `[c['collection'] for c in es]`: the first failing lookup ends the scan. */
  function Tags(es: seq<Value>): (r: Result<seq<Value>>)
    ensures r.Ok? <==> forall k :: 0 <= k < |es| ==> Tag(es[k]).Ok?
    ensures r.Ok? ==> |r.value| == |es| && forall k :: 0 <= k < |es| ==> r.value[k] == Tag(es[k]).value
  {
    if |es| == 0 then Ok([])
    else
      var init := es[..|es| - 1];
      assert forall k :: 0 <= k < |init| ==> init[k] == es[k];
      match Tags(init)
      case Err(e) => Err(e)
      case Ok(ts) =>
        match Tag(es[|es| - 1])
        case Err(e) => Err(e)
        case Ok(t) => Ok(ts + [t])
  }

  /** The scan fails with the error of the first entry whose lookup fails. */
  lemma {:induction false} TagsFirstError(es: seq<Value>, n: nat)
    requires n < |es| && Tags(es[..n]).Ok? && Tag(es[n]).Err?
    ensures Tags(es) == Err(Tag(es[n]).error)
  {
    var init := es[..|es| - 1];
    if n < |es| - 1 {
      assert init[..n] == es[..n];
      assert init[n] == es[n];
      TagsFirstError(init, n);
    } else {
      assert init == es[..n];
    }
  }

  lemma TagsPrefixStep(es: seq<Value>, n: nat)
    requires n < |es| && Tags(es[..n]).Ok? && Tag(es[n]).Ok?
    ensures Tags(es[..n + 1]).Ok?
  {
    assert es[..n + 1][..n] == es[..n];
  }

  /** Entry `c` belongs to the collection called `name` (Python `==`). */
  predicate InCollection(c: Value, name: Value)
  {
    Tag(c).Ok? && PyEq(Tag(c).value, name)
  }

  /** The entries of the collection `name`, in their original order. */
  function Collection(es: seq<Value>, name: Value): (r: seq<Value>)
    ensures |r| <= |es|
  {
    if |es| == 0 then []
    else
      var c := es[|es| - 1];
      Collection(es[..|es| - 1], name) + (if InCollection(c, name) then [c] else [])
  }

  /** The collection holds exactly the entries with that name. */
  lemma {:induction false} CollectionMembers(es: seq<Value>, name: Value)
    ensures forall c :: c in Collection(es, name) <==> c in es && InCollection(c, name)
  {
    if |es| > 0 {
      var init := es[..|es| - 1];
      CollectionMembers(init, name);
      assert es == init + [es[|es| - 1]];
    }
  }

  /** One more entry scanned: the collection grows by that entry when it matches. */
  lemma CollectionStep(es: seq<Value>, n: nat, name: Value)
    requires n < |es|
    ensures Collection(es[..n + 1], name) ==
      Collection(es[..n], name) + (if InCollection(es[n], name) then [es[n]] else [])
  {
    assert es[..n + 1][..n] == es[..n];
  }

  /** Filtering distributes over concatenation: the entries keep their order. */
  lemma {:induction false} CollectionAppend(a: seq<Value>, b: seq<Value>, name: Value)
    ensures Collection(a + b, name) == Collection(a, name) + Collection(b, name)
    decreases |b|
  {
    if |b| == 0 {
      assert a + b == a;
    } else {
      var b0 := b[..|b| - 1];
      assert (a + b)[..|a + b| - 1] == a + b0;
      CollectionAppend(a, b0, name);
    }
  }

  /** The collection is empty exactly when no entry has that name. */
  lemma CollectionEmpty(es: seq<Value>, name: Value)
    ensures |Collection(es, name)| == 0 <==> forall k :: 0 <= k < |es| ==> !InCollection(es[k], name)
  {
    CollectionMembers(es, name);
    if |Collection(es, name)| > 0 {
      assert Collection(es, name)[0] in Collection(es, name);
    }
  }

  /** The scan of a list of entries: it fails as the tag list does, otherwise the collection. */
  function QueryEntries(es: seq<Value>, name: Value): (r: Result<seq<Value>>)
  {
    match Tags(es)
    case Err(e) => Err(e)
    case Ok(_) => Ok(Collection(es, name))
  }

  /** `for c in ucf: if c['collection'] == name`, over any JSON value. */
  function Query(ucf: Value, name: Value): (r: Result<seq<Value>>)
    ensures Entries(ucf).Err? ==> r == Err(TypeError)
    ensures Entries(ucf).Ok? ==> r == QueryEntries(Entries(ucf).value, name)
  {
    match Entries(ucf)
    case Err(e) => Err(e)
    case Ok(es) => QueryEntries(es, name)
  }

  /** The loop of `query_top_level_collection`. */
  method FilterEntries(entries: seq<Value>, name: Value) returns (r: Result<seq<Value>>)
    ensures r == QueryEntries(entries, name)
  {
    var matches: seq<Value> := [];
    var n := 0;
    while n < |entries|
      invariant 0 <= n <= |entries|
      invariant Tags(entries[..n]).Ok?
      invariant matches == Collection(entries[..n], name)
    {
      var c := entries[n];
      if Tag(c).Err? {
        TagsFirstError(entries, n);
        return Err(Tag(c).error);
      }
      TagsPrefixStep(entries, n);
      CollectionStep(entries, n, name);
      if InCollection(c, name) {
        matches := matches + [c];
      }
      n := n + 1;
    }
    assert entries[..n] == entries;
    r := Ok(matches);
  }

  /** `query_top_level_collection(ucf, c_name)`. */
  method QueryTopLevelCollection(ucf: Value, cName: string) returns (r: Result<seq<Value>>)
    ensures r == Query(ucf, Str(cName))
  {
    var es := Entries(ucf);
    if es.Err? {
      return Err(es.error);
    }
    r := FilterEntries(es.value, Str(cName));
  }

  /** The loop of `__count_collection`: a counter over the same scan. */
  method CountEntries(entries: seq<Value>, name: Value) returns (r: Result<nat>)
    ensures QueryEntries(entries, name).Ok? ==> r == Ok(|QueryEntries(entries, name).value|)
    ensures QueryEntries(entries, name).Err? ==> r == Err(QueryEntries(entries, name).error)
  {
    var internalNodes := 0;
    var n := 0;
    while n < |entries|
      invariant 0 <= n <= |entries|
      invariant Tags(entries[..n]).Ok?
      invariant internalNodes == |Collection(entries[..n], name)|
    {
      var c := entries[n];
      if Tag(c).Err? {
        TagsFirstError(entries, n);
        return Err(Tag(c).error);
      }
      TagsPrefixStep(entries, n);
      CollectionStep(entries, n, name);
      if InCollection(c, name) {
        internalNodes := internalNodes + 1;
      }
      n := n + 1;
    }
    assert entries[..n] == entries;
    r := Ok(internalNodes);
  }

  /** `__count_collection(c_name)`: the number of entries the query would return. */
  method CountCollection(ucfMain: Value, cName: Value) returns (r: Result<nat>)
    ensures Query(ucfMain, cName).Ok? ==> r == Ok(|Query(ucfMain, cName).value|)
    ensures Query(ucfMain, cName).Err? ==> r == Err(Query(ucfMain, cName).error)
  {
    var es := Entries(ucfMain);
    if es.Err? {
      return Err(es.error);
    }
    r := CountEntries(es.value, cName);
  }

  /** Python `==` on JSON values is an equivalence. */
  lemma PyEqEquivalence(a: Value, b: Value, c: Value)
    ensures PyEq(a, a)
    ensures PyEq(a, b) ==> PyEq(b, a)
    ensures PyEq(a, b) && PyEq(b, c) ==> PyEq(a, c)
  {
  }

  // ---------------------------------------------------------------------
  // Distinct collection names and their counts
  // ---------------------------------------------------------------------

  /** No two values are `==` in Python. */
  predicate PyDistinct(xs: seq<Value>)
  {
    forall i, j :: 0 <= i < |xs| && 0 <= j < |xs| && i != j ==> !PyEq(xs[i], xs[j])
  }

  /** `set(xs)`: one representative per class of equal values, the first met. */
  function Dedup(xs: seq<Value>): (r: seq<Value>)
    ensures PyDistinct(r)
    ensures forall x :: x in r ==> x in xs
    ensures forall k :: 0 <= k < |xs| ==> InList(xs[k], r)
  {
    if |xs| == 0 then []
    else
      var init := xs[..|xs| - 1];
      var x := xs[|xs| - 1];
      var d := Dedup(init);
      assert forall k :: 0 <= k < |init| ==> init[k] == xs[k];
      assert forall y :: y in init ==> y in xs;
      if InList(x, d) then d
      else
        PyEqEquivalence(x, x, x);
        assert forall k :: 0 <= k < |d| ==> !PyEq(d[k], x) by {
          forall k | 0 <= k < |d| ensures !PyEq(d[k], x) {
            PyEqEquivalence(d[k], x, x);
          }
        }
        var r := d + [x];
        assert forall k :: 0 <= k < |init| ==> InList(init[k], r) by {
          forall k | 0 <= k < |init| ensures InList(init[k], r) {
            var j :| 0 <= j < |d| && PyEq(init[k], d[j]);
            assert r[j] == d[j];
          }
        }
        assert PyEq(x, r[|d|]);
        r
  }

  /** A value is hashable unless it is a list or a dict. */
  predicate Hashable(v: Value)
  {
    !(v.Arr? || v.Obj?)
  }

  /** `list(set([c['collection'] for c in es]))`. */
  function CollectionNames(es: seq<Value>): (r: Result<seq<Value>>)
    ensures Tags(es).Err? ==> r == Err(Tags(es).error)
    ensures Tags(es).Ok? && r.Err? ==> r.error == TypeError
    ensures r.Ok? ==> PyDistinct(r.value)
    ensures r.Ok? ==> forall k :: 0 <= k < |es| ==> Tag(es[k]).Ok? && InList(Tag(es[k]).value, r.value)
  {
    match Tags(es)
    case Err(e) => Err(e)
    case Ok(ts) =>
      if forall k :: 0 <= k < |ts| ==> Hashable(ts[k]) then Ok(Dedup(ts)) else Err(TypeError)
  }

  /** `{name: __count_collection(name) for name in names}`. */
  function CountsOf(es: seq<Value>, names: seq<Value>): (cc: Dict<Value, nat>)
    ensures Keys(cc) == names
  {
    seq(|names|, k requires 0 <= k < |names| => (names[k], |Collection(es, names[k])|))
  }

  /** The total of the counts over a list of names. */
  function SumCounts(cc: Dict<Value, nat>): nat
  {
    if |cc| == 0 then 0 else SumCounts(cc[..|cc| - 1]) + cc[|cc| - 1].1
  }

  /** The number of names equal to `t`. */
  function NumEqual(names: seq<Value>, t: Value): nat
  {
    if |names| == 0 then 0
    else NumEqual(names[..|names| - 1], t) + (if PyEq(t, names[|names| - 1]) then 1 else 0)
  }

  /** Among distinct names, a value equal to one of them is equal to exactly one. */
  lemma {:induction false} NumEqualDistinct(names: seq<Value>, t: Value)
    requires PyDistinct(names)
    ensures NumEqual(names, t) == (if InList(t, names) then 1 else 0)
  {
    if |names| > 0 {
      var init := names[..|names| - 1];
      var last := names[|names| - 1];
      assert PyDistinct(init) by {
        assert forall k :: 0 <= k < |init| ==> init[k] == names[k];
      }
      NumEqualDistinct(init, t);
      if PyEq(t, last) {
        forall k | 0 <= k < |init| ensures !PyEq(t, init[k]) {
          assert init[k] == names[k];
          PyEqEquivalence(init[k], t, last);
          PyEqEquivalence(t, init[k], t);
        }
      } else {
        if InList(t, names) {
          var j :| 0 <= j < |names| && PyEq(t, names[j]);
          assert init[j] == names[j];
        }
      }
    }
  }

  /** One more entry adds one to the count of each name it equals. */
  lemma {:induction false} SumCountsStep(es: seq<Value>, c: Value, names: seq<Value>)
    requires Tag(c).Ok?
    ensures SumCounts(CountsOf(es + [c], names)) == SumCounts(CountsOf(es, names)) + NumEqual(names, Tag(c).value)
  {
    if |names| > 0 {
      var init := names[..|names| - 1];
      var n := names[|names| - 1];
      SumCountsStep(es, c, init);
      assert CountsOf(es + [c], names)[..|names| - 1] == CountsOf(es + [c], init);
      assert CountsOf(es, names)[..|names| - 1] == CountsOf(es, init);
      assert (es + [c])[..|es + [c]| - 1] == es;
      assert |Collection(es + [c], n)| == |Collection(es, n)| + (if PyEq(Tag(c).value, n) then 1 else 0);
    }
  }

  /** No entry counted under a name that none of the tags equals. */
  lemma CountOfAbsent(es: seq<Value>, ts: seq<Value>, t: Value)
    requires Tags(es) == Ok(ts)
    requires !InList(t, Dedup(ts))
    ensures |Collection(es, t)| == 0
  {
    forall k | 0 <= k < |es| ensures !InCollection(es[k], t) {
      var j :| 0 <= j < |Dedup(ts)| && PyEq(ts[k], Dedup(ts)[j]);
      if PyEq(ts[k], t) {
        PyEqEquivalence(t, ts[k], Dedup(ts)[j]);
        PyEqEquivalence(ts[k], t, t);
      }
    }
    CollectionEmpty(es, t);
  }

  /** The counts of the distinct collection names add up to the number of entries. */
  lemma {:induction false} CountsCoverEntries(es: seq<Value>)
    requires Tags(es).Ok?
    ensures SumCounts(CountsOf(es, Dedup(Tags(es).value))) == |es|
    decreases |es|
  {
    if |es| > 0 {
      var init := es[..|es| - 1];
      var c := es[|es| - 1];
      assert es == init + [c];
      assert Tags(init).Ok?;
      var ts := Tags(init).value;
      var t := Tag(c).value;
      assert Tags(es).value == ts + [t];
      assert (ts + [t])[..|ts + [t]| - 1] == ts;
      var d := Dedup(ts);
      CountsCoverEntries(init);
      SumCountsStep(init, c, d);
      NumEqualDistinct(d, t);
      if !InList(t, d) {
        var d2 := d + [t];
        assert Dedup(ts + [t]) == d2;
        assert CountsOf(es, d2)[..|d2| - 1] == CountsOf(es, d);
        CountOfAbsent(init, ts, t);
        assert |Collection(es, t)| == |Collection(init, t)| + 1 by {
          PyEqEquivalence(t, t, t);
        }
      }
    }
  }

  // ---------------------------------------------------------------------
  // The UCF object
  // ---------------------------------------------------------------------

  /** A loaded UCF: the three file contents (JSON `null` stands for None) and its summary. */
  datatype UcfObject = UcfObject(
    ucfMain: Value,
    ucfIn: Value,
    ucfOut: Value,
    valid: bool,
    collectionCount: Dict<Value, nat>)

  /** The summary of an invalid UCF. */
  const BrokenCount: Dict<Value, nat> := [(Str("broken UCF"), 0)]

  /** The collection counts of a valid UCF's main file. */
  function CollectionCounts(ucfMain: Value): (r: Result<Dict<Value, nat>>)
    ensures r.Ok? ==> Entries(ucfMain).Ok? && Tags(Entries(ucfMain).value).Ok?
  {
    match Entries(ucfMain)
    case Err(e) => Err(e)
    case Ok(es) =>
      match CollectionNames(es)
      case Err(e) => Err(e)
      case Ok(names) => Ok(CountsOf(es, names))
  }

  /**
   * `collection_count` has one key per distinct collection name, each entry
   * of the main file is counted under exactly one key, each count is the
   * size of that collection, and the counts add up to the number of entries.
   */
  lemma CollectionCountsCover(ucfMain: Value)
    requires CollectionCounts(ucfMain).Ok?
    ensures var cc := CollectionCounts(ucfMain).value;
      var es := Entries(ucfMain).value;
      PyDistinct(Keys(cc)) &&
      (forall k :: 0 <= k < |es| ==> Tag(es[k]).Ok? && InList(Tag(es[k]).value, Keys(cc))) &&
      (forall k :: 0 <= k < |cc| ==> cc[k].1 == |Collection(es, cc[k].0)|) &&
      SumCounts(cc) == |es|
  {
    var es := Entries(ucfMain).value;
    CountsCoverEntries(es);
  }

  /**
   * `UCF.__init__`, given the three paths: valid exactly when all three
   * files parsed to something other than null.
   */
  function NewUcf(fs: FileSystem, paths: seq<string>): (r: Result<UcfObject>)
    ensures ParseSpec(fs, paths).Err? ==> r.Err?
    ensures r.Ok? && !r.value.valid ==> r.value.collectionCount == BrokenCount
    ensures r.Ok? && r.value.valid ==>
      r.value.ucfMain != Null && r.value.ucfIn != Null && r.value.ucfOut != Null &&
      ParseSpec(fs, paths) == Ok(Some([r.value.ucfMain, r.value.ucfIn, r.value.ucfOut])) &&
      CollectionCounts(r.value.ucfMain) == Ok(r.value.collectionCount)
    ensures ParseSpec(fs, paths) == Ok(None) ==>
      r == Ok(UcfObject(Null, Null, Null, false, BrokenCount))
  {
    match ParseSpec(fs, paths)
    case Err(e) => Err(e)
    case Ok(None) => Ok(UcfObject(Null, Null, Null, false, BrokenCount))
    case Ok(Some(out)) =>
      var u := out[0];
      var i := out[1];
      var o := out[2];
      assert out == [u, i, o];
      if u != Null && i != Null && o != Null then
        match CollectionCounts(u)
        case Err(e) => Err(e)
        case Ok(cc) => Ok(UcfObject(u, i, o, true, cc))
      else Ok(UcfObject(u, i, o, false, BrokenCount))
  }

  /** With three existing files, the UCF is valid exactly when all three parse to non-null values. */
  lemma NewUcfValid(fs: FileSystem, paths: seq<string>)
    requires |paths| == 3
    requires forall k :: 0 <= k < 3 ==> paths[k] in fs
    requires NewUcf(fs, paths).Ok?
    ensures NewUcf(fs, paths).value.valid <==>
      forall k :: 0 <= k < 3 ==> Parses(fs, paths[k]) && fs[paths[k]].content != Null
  {
    ParseThree(fs, paths);
  }

  /** `list(c.keys())` for a dict entry. */
  function KeysOf(c: Value): seq<string>
  {
    if c.Obj? then Keys(c.fields) else []
  }

  /** The key lists of the entries, in order. */
  function KeyLists(cs: seq<Value>): (r: seq<seq<string>>)
    ensures |r| == |cs|
  {
    if |cs| == 0 then [] else KeyLists(cs[..|cs| - 1]) + [KeysOf(cs[|cs| - 1])]
  }

  lemma KeyListsStep(es: seq<Value>, n: nat, name: Value)
    requires n < |es|
    ensures KeyLists(Collection(es[..n + 1], name)) ==
      KeyLists(Collection(es[..n], name)) + (if InCollection(es[n], name) then [KeysOf(es[n])] else [])
  {
    CollectionStep(es, n, name);
    var before := Collection(es[..n], name);
    if InCollection(es[n], name) {
      assert (before + [es[n]])[..|before|] == before;
    } else {
      assert before + [] == before;
    }
  }

  /** Every key list comes from one of the entries and every entry contributes one. */
  lemma {:induction false} KeyListsMembers(cs: seq<Value>)
    ensures forall p :: p in KeyLists(cs) <==> exists c :: c in cs && KeysOf(c) == p
  {
    if |cs| > 0 {
      var init := cs[..|cs| - 1];
      KeyListsMembers(init);
      assert cs == init + [cs[|cs| - 1]];
    }
  }

  /** `list(set(xs))` on hashable values, first occurrences kept. */
  function Unique<T(==,!new)>(xs: seq<T>): (r: seq<T>)
    ensures Distinct(r)
    ensures forall x :: x in r <==> x in xs
  {
    if |xs| == 0 then []
    else
      var init := xs[..|xs| - 1];
      var x := xs[|xs| - 1];
      assert xs == init + [x];
      var d := Unique(init);
      if x in d then d else d + [x]
  }

  /** `list_collection_parameters(c_name)` on the main file. */
  function ListParams(ucfMain: Value, cName: string): Result<seq<seq<string>>>
  {
    match Query(ucfMain, Str(cName))
    case Err(e) => Err(e)
    case Ok(m) => Ok(Unique(KeyLists(m)))
  }

  /** The loop of `list_collection_parameters`: the key lists of the matching entries. */
  method KeyListsOfEntries(entries: seq<Value>, name: Value) returns (r: Result<seq<seq<string>>>)
    ensures QueryEntries(entries, name).Ok? ==> r == Ok(KeyLists(QueryEntries(entries, name).value))
    ensures QueryEntries(entries, name).Err? ==> r == Err(QueryEntries(entries, name).error)
  {
    var params: seq<seq<string>> := [];
    var n := 0;
    while n < |entries|
      invariant 0 <= n <= |entries|
      invariant Tags(entries[..n]).Ok?
      invariant params == KeyLists(Collection(entries[..n], name))
    {
      var c := entries[n];
      if Tag(c).Err? {
        TagsFirstError(entries, n);
        return Err(Tag(c).error);
      }
      TagsPrefixStep(entries, n);
      KeyListsStep(entries, n, name);
      if InCollection(c, name) {
        params := params + [KeysOf(c)];
      }
      n := n + 1;
    }
    assert entries[..n] == entries;
    r := Ok(params);
  }

  method ListCollectionParameters(ucfMain: Value, cName: string) returns (r: Result<seq<seq<string>>>)
    ensures r == ListParams(ucfMain, cName)
  {
    var es := Entries(ucfMain);
    if es.Err? {
      return Err(es.error);
    }
    var params := KeyListsOfEntries(es.value, Str(cName));
    if params.Err? {
      return Err(params.error);
    }
    r := Ok(Unique(params.value));
  }

  /**
   * The parameters of a collection are the distinct key lists of its
   * entries: no list twice, and a list appears exactly when some entry of
   * the collection has those keys in that order.
   */
  lemma ListParamsDistinct(ucfMain: Value, cName: string)
    requires ListParams(ucfMain, cName).Ok?
    ensures Distinct(ListParams(ucfMain, cName).value)
    ensures forall p :: p in ListParams(ucfMain, cName).value <==>
      exists c :: c in Query(ucfMain, Str(cName)).value && c.Obj? && Keys(c.fields) == p
  {
    var m := Query(ucfMain, Str(cName)).value;
    KeyListsMembers(m);
    var es := Entries(ucfMain).value;
    CollectionMembers(es, Str(cName));
    forall c | c in m ensures c.Obj? {
      assert InCollection(c, Str(cName));
    }
  }
}
