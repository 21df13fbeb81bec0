/** `cloudize-workflow.py`, the first version of the cloudize script: a `Workflow` object tracks
    the File dicts of an inputs YAML and builds rewritten inputs from a deep copy of them. */
module CloudizeLegacy {
  import opened Text
  import opened Json
  import opened PyPath
  import opened YamlTree
  import CloudizeWorkflow

  // ---- get / get_in / update_in ----------------------------------------

  /** `get(coll, k)`: `coll[k]`, with KeyError and IndexError turned into None (`Null`). A string
      index picks a one-character string; every subscript Python refuses (a string key on a list
      or a string, any key on None or a number) raises TypeError. */
  function Get(coll: Json, k: Key): (r: Result<Json>)
    ensures r.Err? <==> !(coll.Obj? || ((coll.Arr? || coll.Str?) && k.I?))
    ensures r.Err? ==> r.fault == TypeError
    ensures r.Ok? && !coll.Str? ==> r.value == match Step(coll, k) case Some(v) => v case None => Null
    ensures r.Ok? && coll.Str? ==> r.value == Null || (r.value.Str? && |r.value.s| == 1)
  {
    match (coll, k)
    case (Obj(fields), K(name)) => Ok(match Lookup(fields, name) case Some(v) => v case None => Null)
    case (Obj(_), I(_)) => Ok(Null)
    case (Arr(items), I(i)) => Ok(if i < |items| then items[i] else Null)
    case (Str(s), I(i)) => Ok(if i < |s| then Str([s[i]]) else Null)
    case _ => Err(TypeError)
  }

  /** On dicts and on lists indexed by position this `get` is the later script's; it differs in
      indexing into strings and in raising TypeError on None and numbers, where the later one
      returns None. */
  lemma GetAgainstLater(coll: Json, k: Key)
    ensures coll.Obj? || (coll.Arr? && k.I?) ==> Get(coll, k) == CloudizeWorkflow.Get(coll, k)
    ensures !(coll.Obj? || coll.Arr? || coll.Str?) ==>
      Get(coll, k) == Err(TypeError) && CloudizeWorkflow.Get(coll, k) == Ok(Null)
  {
  }

  /** `get_in(coll, path)`: `coll` for an empty path, None for a falsy `coll`, otherwise one `get`
      per step. Below a string only strings and None are found; any other value found is the node
      at that path. */
  function GetIn(coll: Json, path: NodePath): (r: Result<Json>)
    ensures |path| == 0 ==> r == Ok(coll)
    ensures |path| > 0 && !Truthy(coll) ==> r == Ok(Null)
    ensures r.Ok? && coll.Str? ==> r.value == Null || r.value.Str?
    ensures r.Ok? && r.value != Null && !r.value.Str? ==> Sub(coll, path) == Some(r.value)
    decreases |path|
  {
    if |path| == 0 then Ok(coll)
    else if !Truthy(coll) then Ok(Null)
    else
      var v :- Get(coll, path[0]);
      GetIn(v, path[1..])
  }

  /** `get_in` reaches every node that is there. */
  lemma {:induction false} GetInReaches(coll: Json, path: NodePath, v: Json)
    requires Sub(coll, path) == Some(v)
    ensures GetIn(coll, path) == Ok(v)
    decreases |path|
  {
    if |path| > 0 {
      var c := Step(coll, path[0]).value;
      assert Truthy(coll);
      GetInReaches(c, path[1..], v);
    }
  }

  /** One more step after a path is one more `get` on what the path gave. */
  lemma {:induction false} GetInSnoc(coll: Json, path: NodePath, k: Key)
    ensures GetIn(coll, path + [k]) == match GetIn(coll, path) case Ok(v) => GetIn(v, [k]) case Err(e) => Err(e)
    decreases |path|
  {
    if |path| == 0 {
      assert path + [k] == [k];
    } else if Truthy(coll) {
      assert (path + [k])[0] == path[0] && (path + [k])[1..] == path[1..] + [k];
      match Get(coll, path[0]) {
        case Ok(v) => GetInSnoc(v, path[1..], k);
        case Err(_) =>
      }
    }
  }

  /** After `coll[k] = v`, `get(coll, k)` is `v` and every other key reads as before. */
  lemma AssignThenGet(coll: Json, k: Key, v: Json, k': Key)
    requires Assign(coll, k, v).Ok?
    ensures Get(Assign(coll, k, v).value, k') == if k' == k then Ok(v) else Get(coll, k')
  {
    match coll {
      case Obj(fields) =>
        if k'.K? {
          LookupPut(fields, k.name, v, k'.name);
        }
      case Arr(items) =>
    }
  }

  /** A missing or falsy value is replaced by `{}`. */
  function Filled(v: Json): (r: Json)
    ensures Truthy(v) ==> r == v
    ensures !Truthy(v) ==> r == Obj([])
  {
    if Truthy(v) then v else Obj([])
  }

  /** `update_in(coll, path, func)`, on values: each step replaces a falsy child by `{}` before
      descending, and the last step stores `func` of the child. An empty path leaves `prev`
      unbound. */
  function UpdateIn(coll: Json, path: NodePath, f: Json -> Result<Json>): (r: Result<Json>)
  {
    if |path| == 0 then Err(UnboundLocalError) else UpdateFrom(coll, path, f)
  }

  function UpdateFrom(coll: Json, path: NodePath, f: Json -> Result<Json>): (r: Result<Json>)
    requires |path| > 0
    ensures r.Ok? ==> Truthy(r.value) && r.value.Obj? == coll.Obj?
    decreases |path|
  {
    var x := path[0];
    var child :- Get(coll, x);
    var coll1 :- if Truthy(child) then Ok(coll) else Assign(coll, x, Obj([]));
    var stored :- if |path| == 1 then f(Filled(child)) else UpdateFrom(Filled(child), path[1..], f);
    Assign(coll1, x, stored)
  }

  /** The first step of `update_in`, taken apart. */
  lemma UpdateFromStep(coll: Json, path: NodePath, f: Json -> Result<Json>)
    requires |path| > 0 && UpdateFrom(coll, path, f).Ok?
    ensures Get(coll, path[0]).Ok?
    ensures var child := Get(coll, path[0]).value;
      var coll1 := if Truthy(child) then coll else Assign(coll, path[0], Obj([])).value;
      (Truthy(child) || Assign(coll, path[0], Obj([])).Ok?)
      && (|path| == 1 ==> f(Filled(child)).Ok?)
      && (|path| > 1 ==> UpdateFrom(Filled(child), path[1..], f).Ok?)
  {
  }

  /** After `update_in`, `get_in` at the path yields `func` of what was there, a missing or falsy
      value counting as `{}`. */
  lemma {:induction false} UpdateInThenGetIn(coll: Json, path: NodePath, f: Json -> Result<Json>)
    requires UpdateIn(coll, path, f).Ok?
    ensures GetIn(coll, path).Ok? && f(Filled(GetIn(coll, path).value)).Ok?
    ensures GetIn(UpdateIn(coll, path, f).value, path) == f(Filled(GetIn(coll, path).value))
    decreases |path|
  {
    var x := path[0];
    UpdateFromStep(coll, path, f);
    var child := Get(coll, x).value;
    var coll1 := if Truthy(child) then coll else Assign(coll, x, Obj([])).value;
    var stored := if |path| == 1 then f(Filled(child)).value else UpdateFrom(Filled(child), path[1..], f).value;
    var r := UpdateIn(coll, path, f).value;
    assert r == Assign(coll1, x, stored).value;
    AssignThenGet(coll1, x, stored, x);
    assert GetIn(r, path) == GetIn(stored, path[1..]);
    if !Truthy(coll) {
      assert coll == Obj([]);
      assert child == Null;
    }
    if |path| == 1 {
      assert GetIn(coll, path) == Ok(if Truthy(coll) then child else Null);
    } else {
      UpdateInThenGetIn(Filled(child), path[1..], f);
      if Truthy(coll) && Truthy(child) {
        assert GetIn(coll, path) == GetIn(child, path[1..]);
      } else {
        assert GetIn(coll, path) == Ok(Null);
        assert GetIn(Obj([]), path[1..]) == Ok(Null);
      }
    }
  }

  /** `update_in` changes nothing that `get_in` sees along a path that parts from its own. */
  lemma {:induction false} UpdateInKeepsOthers(coll: Json, path: NodePath, f: Json -> Result<Json>, q: NodePath, j: nat)
    requires UpdateIn(coll, path, f).Ok? && PartAt(path, q, j)
    ensures GetIn(UpdateIn(coll, path, f).value, q) == GetIn(coll, q)
    decreases |path|
  {
    var x := path[0];
    UpdateFromStep(coll, path, f);
    var child := Get(coll, x).value;
    var coll1 := if Truthy(child) then coll else Assign(coll, x, Obj([])).value;
    var stored := if |path| == 1 then f(Filled(child)).value else UpdateFrom(Filled(child), path[1..], f).value;
    var r := UpdateIn(coll, path, f).value;
    assert r == Assign(coll1, x, stored).value;
    if !Truthy(coll) {
      assert coll == Obj([]);
    }
    if j == 0 {
      AssignThenGet(coll1, x, stored, q[0]);
      if !Truthy(child) {
        AssignThenGet(coll, x, Obj([]), q[0]);
      }
      if Truthy(coll) {
        assert GetIn(r, q) == GetIn(coll, q);
      } else {
        assert Get(coll1, q[0]) == Ok(Null);
        assert GetIn(r, q) == GetIn(Null, q[1..]);
      }
    } else {
      assert q[0] == x by {
        assert path[..j][0] == path[0] && q[..j][0] == q[0];
      }
      AssignThenGet(coll1, x, stored, x);
      assert PartAt(path[1..], q[1..], j - 1) by {
        assert path[1..][..j - 1] == path[..j][1..] && q[1..][..j - 1] == q[..j][1..];
      }
      UpdateInKeepsOthers(Filled(child), path[1..], f, q[1..], j - 1);
      assert GetIn(r, q) == GetIn(Filled(child), q[1..]);
      if Truthy(coll) {
        assert GetIn(coll, q) == GetIn(child, q[1..]);
      }
    }
  }

  // ---- secondary files --------------------------------------------------

  /** `secondary_file_path(basepath, suffix)`: a leading `^` recurses on the stem, which is a
      string, so the directory is dropped and a second caret asks a string for `.stem`
      (AttributeError); without a caret the suffix is appended to the text of the path. */
  function SecondaryFilePath(base: Path, suffix: string): (r: Result<Path>)
  {
    if StartsWith(suffix, "^") then CloudizeWorkflow.SecondaryFilePathOfText(Stem(base), suffix[1..])
    else Ok(Parse(ToStr(base) + suffix))
  }

  /** One caret gives the stem and the rest of the suffix, as a path relative to the working
      directory rather than to the file's own directory; two carets fail. */
  lemma SecondaryFilePathCaret(base: Path, rest: string)
    ensures |rest| > 0 && rest[0] == '^' ==> SecondaryFilePath(base, "^" + rest) == Err(AttributeError)
    ensures IsSegment(Stem(base) + rest) && !StartsWith(rest, "^") ==>
      SecondaryFilePath(base, "^" + rest) == Ok(Path(false, [Stem(base) + rest]))
  {
    assert StartsWith("^" + rest, "^") && ("^" + rest)[1..] == rest;
    var name := Stem(base) + rest;
    if IsSegment(name) {
      SplitNoSep(name, '/');
      PyPath.SegmentsKeep([name]);
      assert name[0] != '/';
    }
  }

  /** `secondary_file_paths(base_path, suffixes)`: one path for a single string, one per item
      otherwise. */
  function SecondaryFilePaths(base: Path, suffixes: Json): (r: Result<seq<Path>>)
    ensures suffixes.Str? ==> r == (var p :- SecondaryFilePath(base, suffixes.s); Ok([p]))
  {
    match suffixes
    case Str(s) =>
      var p :- SecondaryFilePath(base, s);
      Ok([p])
    case _ =>
      var items :- Iter(suffixes);
      PathsFor(base, items)
  }

  function PathsFor(base: Path, items: seq<Json>): (r: Result<seq<Path>>)
    ensures r.Ok? <==> forall i :: 0 <= i < |items| ==> items[i].Str? && SecondaryFilePath(base, items[i].s).Ok?
    ensures r.Err? ==> r.fault == AttributeError
    ensures r.Ok? ==> |r.value| == |items|
    ensures r.Ok? ==> forall i :: 0 <= i < |items| ==> Ok(r.value[i]) == SecondaryFilePath(base, items[i].s)
  {
    if |items| == 0 then Ok([])
    else
      assert forall i :: 1 <= i < |items| ==> items[i] == items[1..][i - 1];
      match items[0]
      case Str(s) =>
        var p :- SecondaryFilePath(base, s);
        var rest :- PathsFor(base, items[1..]);
        Ok([p] + rest)
      case _ => Err(AttributeError)
  }

  // ---- FileInput and Workflow ---------------------------------------------

  /** `FileInput`: the file as written in the inputs, where it sits there, and its secondary files. */
  datatype FileInput = FileInput(filePath: Path, yamlPath: NodePath, secondaryFiles: seq<Path>)

  /** `FileInput(file_path, yaml_path, secondary_file_suffixes)`. */
  function NewFileInput(filePath: Path, yamlPath: NodePath, suffixes: Json): (r: Result<FileInput>)
    ensures r.Ok? ==> r.value.filePath == filePath && r.value.yamlPath == yamlPath
    ensures r.Ok? <==> SecondaryFilePaths(filePath, suffixes).Ok?
    ensures r.Ok? ==> r.value.secondaryFiles == SecondaryFilePaths(filePath, suffixes).value
  {
    var secondary :- SecondaryFilePaths(filePath, suffixes);
    Ok(FileInput(filePath, yamlPath, secondary))
  }

  /** The nodes `process_node` tracks: dicts whose `class` is `File`. */
  predicate IsFileDict(node: Json) {
    node.Obj? && DictGet(node, "class", Null) == Ok(Str("File"))
  }

  /** `_track_file_node(node, node_path)`: the node's `path` as a path, with the secondary files the
      definition declares for the input named by the last step. `Path(None)` and a non-string
      path raise TypeError, and the root node has no last step (IndexError). */
  function Tracked(definition: Json, node: Json, nodePath: NodePath): (r: Result<FileInput>)
  {
    var v :- DictGet(node, "path", Null);
    var filePath :- if v.Str? then Ok(Parse(v.s)) else Err(TypeError);
    if |nodePath| == 0 then Err(IndexError)
    else
      var suffixes :- GetIn(definition, [K("inputs"), nodePath[|nodePath| - 1], K("secondaryFiles")]);
      NewFileInput(filePath, nodePath, if Truthy(suffixes) then suffixes else Arr([]))
  }

  /** A tracked dict is recorded at its own path with its own `path` string; without declared
      secondary files it has none. */
  lemma TrackedRecords(definition: Json, node: Json, nodePath: NodePath)
    requires node.Obj?
    ensures Tracked(definition, node, nodePath).Ok? ==>
      Lookup(node.fields, "path").Some? && Lookup(node.fields, "path").value.Str?
      && Tracked(definition, node, nodePath).value.filePath == Parse(Lookup(node.fields, "path").value.s)
      && Tracked(definition, node, nodePath).value.yamlPath == nodePath
    ensures Tracked(definition, node, nodePath).Ok? && !Truthy(GetIn(definition, [K("inputs"), nodePath[|nodePath| - 1], K("secondaryFiles")]).value) ==>
      Tracked(definition, node, nodePath).value.secondaryFiles == []
    ensures Lookup(node.fields, "path").Some? && Lookup(node.fields, "path").value.Str? && |nodePath| == 0 ==>
      Tracked(definition, node, nodePath) == Err(IndexError)
  {
  }

  /** The records `_track_file_inputs` appends over a sequence of `process_node` calls, and the
      exception that ends the walk early, if any. */
  function Track(definition: Json, calls: seq<(Json, NodePath)>): (r: (seq<FileInput>, Option<Fault>))
  {
    if |calls| == 0 then ([], None)
    else if !IsFileDict(calls[0].0) then Track(definition, calls[1..])
    else match Tracked(definition, calls[0].0, calls[0].1)
      case Err(e) => ([], Some(e))
      case Ok(fi) => var rest := Track(definition, calls[1..]); ([fi] + rest.0, rest.1)
  }

  /** The calls that are on File dicts, in order. */
  function FileNodes(calls: seq<(Json, NodePath)>): (r: seq<(Json, NodePath)>)
  {
    if |calls| == 0 then []
    else (if IsFileDict(calls[0].0) then [calls[0]] else []) + FileNodes(calls[1..])
  }

  /** Only the calls on File dicts are kept, and all of them. */
  lemma {:induction false} FileNodesAre(calls: seq<(Json, NodePath)>, c: (Json, NodePath))
    ensures c in FileNodes(calls) <==> c in calls && IsFileDict(c.0)
  {
    if |calls| > 0 {
      FileNodesAre(calls[1..], c);
      assert c in calls <==> c == calls[0] || c in calls[1..];
    }
  }

  /** A walk that raises nothing records one input per File dict, in walk order. */
  lemma {:induction false} TrackIsFileNodes(definition: Json, calls: seq<(Json, NodePath)>)
    requires Track(definition, calls).1.None?
    ensures |Track(definition, calls).0| == |FileNodes(calls)|
    ensures forall k :: 0 <= k < |FileNodes(calls)| ==>
      Tracked(definition, FileNodes(calls)[k].0, FileNodes(calls)[k].1) == Ok(Track(definition, calls).0[k])
  {
    if |calls| > 0 {
      var rest := calls[1..];
      TrackIsFileNodes(definition, rest);
      var fs, fr := FileNodes(calls), FileNodes(rest);
      var ts, tr := Track(definition, calls).0, Track(definition, rest).0;
      if IsFileDict(calls[0].0) {
        var t := Tracked(definition, calls[0].0, calls[0].1);
        assert t.Ok? && ts == [t.value] + tr;
        assert fs == [calls[0]] + fr;
        forall k | 0 <= k < |fs| ensures Tracked(definition, fs[k].0, fs[k].1) == Ok(ts[k]) {
          if k > 0 {
            assert fs[k] == fr[k - 1] && ts[k] == tr[k - 1];
          }
        }
      } else {
        assert ts == tr && fs == fr;
      }
    }
  }

  /** The File dicts of the walk over the inputs are exactly the File dicts in the inputs, each
      with the path leading to it. */
  lemma FileNodesOfInputs(inputs: Json, n: Json, p: NodePath)
    requires DistinctKeys(inputs)
    ensures (n, p) in FileNodes(Visits(inputs, [])) <==> IsFileDict(n) && Sub(inputs, p) == Some(n)
  {
    FileNodesAre(Visits(inputs, []), (n, p));
    VisitedIffReached(inputs, [], n, p);
    assert p[..0] == [] && p[0..] == p;
  }

  /** The records of a walk that has made `acc` so far and still has `rest` to go. */
  function Then(acc: seq<FileInput>, rest: (seq<FileInput>, Option<Fault>)): (seq<FileInput>, Option<Fault>) {
    (acc + rest.0, rest.1)
  }

  /** One more call of `process_node`. */
  lemma TrackStep(definition: Json, calls: seq<(Json, NodePath)>, i: nat, acc: seq<FileInput>)
    requires i < |calls|
    ensures var here := calls[i];
      Then(acc, Track(definition, calls[i..])) ==
        if !IsFileDict(here.0) then Then(acc, Track(definition, calls[i + 1..]))
        else if Tracked(definition, here.0, here.1).Err? then (acc, Some(Tracked(definition, here.0, here.1).fault))
        else Then(acc + [Tracked(definition, here.0, here.1).value], Track(definition, calls[i + 1..]))
  {
    assert calls[i..][0] == calls[i] && calls[i..][1..] == calls[i + 1..];
    var here := calls[i];
    if IsFileDict(here.0) {
      match Tracked(definition, here.0, here.1) {
        case Ok(fi) =>
          var rest := Track(definition, calls[i + 1..]);
          assert acc + ([fi] + rest.0) == (acc + [fi]) + rest.0;
        case Err(_) =>
          assert acc + [] == acc;
      }
    }
  }

  /** The edit `_generate_new_yaml` makes at a tracked path: `x['path'] = text`, then `x` itself.
      Only a dict takes a string key. */
  function AddKeys(text: string): Json -> Result<Json> {
    (x: Json) => if x.Obj? then Ok(Obj(Put(x.fields, "path", Str(text)))) else Err(TypeError)
  }

  /** `add_keys` succeeds exactly on a dict; it sets `path` and leaves every other key alone. */
  lemma AddKeysSetsPath(text: string, x: Json, k: string)
    ensures AddKeys(text)(x).Ok? <==> x.Obj?
    ensures x.Obj? ==> Get(AddKeys(text)(x).value, K("path")) == Ok(Str(text))
    ensures x.Obj? && k != "path" ==> Get(AddKeys(text)(x).value, K(k)) == Get(x, K(k))
  {
    if x.Obj? {
      LookupPut(x.fields, "path", Str(text), "path");
      LookupPut(x.fields, "path", Str(text), k);
    }
  }

  /** After one `update_in` with `add_keys`, the node at the path has the new `path`. */
  lemma UpdateSetsPath(coll: Json, path: NodePath, text: string)
    requires UpdateIn(coll, path, AddKeys(text)).Ok?
    ensures GetIn(UpdateIn(coll, path, AddKeys(text)).value, path + [K("path")]) == Ok(Str(text))
  {
    var r := UpdateIn(coll, path, AddKeys(text)).value;
    UpdateInThenGetIn(coll, path, AddKeys(text));
    var node := AddKeys(text)(Filled(GetIn(coll, path).value)).value;
    AddKeysSetsPath(text, Filled(GetIn(coll, path).value), "path");
    GetInSnoc(r, path, K("path"));
    assert GetIn(node, [K("path")]) == Get(node, K("path"));
  }

  /** The deep copy after each `update_in` of `_generate_new_yaml`, in order. */
  function NewYaml(yaml: Json, fis: seq<FileInput>): Result<Json>
    decreases |fis|
  {
    if |fis| == 0 then Ok(yaml)
    else
      var next :- UpdateIn(yaml, fis[0].yamlPath, AddKeys(ToStr(fis[0].filePath)));
      NewYaml(next, fis[1..])
  }

  /** `q` parts from `path` somewhere. */
  predicate Parts(path: NodePath, q: NodePath) {
    exists j :: 0 <= j < |path| && PartAt(path, q, j)
  }

  /** `path` leads to a node that holds `q` under a key other than `path`, as a File dict holds
      the File dicts of its `secondaryFiles`. */
  predicate Encloses(path: NodePath, q: NodePath) {
    |path| < |q| && q[..|path|] == path && q[|path|] != K("path")
  }

  /** `get_in` along a path and then along more steps is `get_in` along both. */
  lemma {:induction false} GetInAppend(coll: Json, p: NodePath, rest: NodePath)
    ensures GetIn(coll, p + rest) == match GetIn(coll, p) case Ok(v) => GetIn(v, rest) case Err(e) => Err(e)
    decreases |p|
  {
    if |p| == 0 {
      assert p + rest == rest;
    } else {
      assert (p + rest)[0] == p[0] && (p + rest)[1..] == p[1..] + rest;
      if Truthy(coll) {
        match Get(coll, p[0]) {
          case Ok(v) => GetInAppend(v, p[1..], rest);
          case Err(_) =>
        }
      }
    }
  }

  /** `add_keys` on a node hides nothing below a key other than `path`: `get_in` from the edited
      node (a falsy node counting as `{}`) finds what it found before. */
  lemma AddKeysKeepsBelow(text: string, n: Json, rest: NodePath)
    requires Filled(n).Obj? && |rest| > 0 && rest[0] != K("path")
    ensures GetIn(Obj(Put(Filled(n).fields, "path", Str(text))), rest) == GetIn(n, rest)
  {
    var fields := Filled(n).fields;
    if rest[0].K? {
      LookupPut(fields, "path", Str(text), rest[0].name);
    }
    if !Truthy(n) {
      assert Get(Obj([]), rest[0]) == Ok(Null);
    }
  }

  /** `update_in` with `add_keys` at an enclosing node leaves what `get_in` finds at `q`. */
  lemma UpdateInKeepsBelow(coll: Json, path: NodePath, text: string, q: NodePath)
    requires UpdateIn(coll, path, AddKeys(text)).Ok? && Encloses(path, q)
    ensures GetIn(UpdateIn(coll, path, AddKeys(text)).value, q) == GetIn(coll, q)
  {
    var r := UpdateIn(coll, path, AddKeys(text)).value;
    var rest := q[|path|..];
    assert q == path + rest;
    UpdateInThenGetIn(coll, path, AddKeys(text));
    var n := GetIn(coll, path).value;
    AddKeysSetsPath(text, Filled(n), "path");
    assert GetIn(r, path) == Ok(Obj(Put(Filled(n).fields, "path", Str(text))));
    GetInAppend(r, path, rest);
    GetInAppend(coll, path, rest);
    AddKeysKeepsBelow(text, n, rest);
  }

  /** Updates along paths that part from `q`, or that lead to a node enclosing it, leave what
      `get_in` finds at `q`. */
  lemma {:induction false} NewYamlKeeps(yaml: Json, fis: seq<FileInput>, q: NodePath)
    requires NewYaml(yaml, fis).Ok?
    requires forall i :: 0 <= i < |fis| ==> Parts(fis[i].yamlPath, q) || Encloses(fis[i].yamlPath, q)
    ensures GetIn(NewYaml(yaml, fis).value, q) == GetIn(yaml, q)
    decreases |fis|
  {
    if |fis| > 0 {
      var f := AddKeys(ToStr(fis[0].filePath));
      if Parts(fis[0].yamlPath, q) {
        var j :| PartAt(fis[0].yamlPath, q, j);
        UpdateInKeepsOthers(yaml, fis[0].yamlPath, f, q, j);
      } else {
        UpdateInKeepsBelow(yaml, fis[0].yamlPath, ToStr(fis[0].filePath), q);
      }
      assert forall i :: 0 <= i < |fis| - 1 ==> fis[1..][i] == fis[i + 1];
      NewYamlKeeps(UpdateIn(yaml, fis[0].yamlPath, f).value, fis[1..], q);
    }
  }

  /** In the new inputs an input's `path` is the text of its file path, when every later input
      either parts from it or is a File dict enclosing it (the walk is post-order, so a File dict
      listed under `secondaryFiles` comes before the one holding it). */
  lemma {:induction false} NewYamlSetsPath(yaml: Json, fis: seq<FileInput>, k: nat)
    requires NewYaml(yaml, fis).Ok? && k < |fis|
    requires forall i :: k < i < |fis| ==>
      Parts(fis[i].yamlPath, fis[k].yamlPath + [K("path")]) || Encloses(fis[i].yamlPath, fis[k].yamlPath + [K("path")])
    ensures GetIn(NewYaml(yaml, fis).value, fis[k].yamlPath + [K("path")]) == Ok(Str(ToStr(fis[k].filePath)))
    decreases |fis|
  {
    var f := AddKeys(ToStr(fis[0].filePath));
    var next := UpdateIn(yaml, fis[0].yamlPath, f).value;
    assert forall i :: 0 <= i < |fis| - 1 ==> fis[1..][i] == fis[i + 1];
    if k == 0 {
      UpdateSetsPath(yaml, fis[0].yamlPath, ToStr(fis[0].filePath));
      NewYamlKeeps(next, fis[1..], fis[0].yamlPath + [K("path")]);
    } else {
      NewYamlSetsPath(next, fis[1..], k - 1);
    }
  }

  /** `Workflow`: the inputs file's path, its loaded inputs and the loaded CWL definition
      (loading is done by the caller), and the file inputs tracked so far. */
  class Workflow {
    const inputsPath: Path
    const inputs: Json
    const definition: Json
    var fileInputs: seq<FileInput>

    constructor(inputsFile: string, inputs: Json, definition: Json)
      ensures inputsPath == Parse(inputsFile) && this.inputs == inputs && this.definition == definition
      ensures fileInputs == []
    {
      inputsPath := Parse(inputsFile);
      this.inputs := inputs;
      this.definition := definition;
      fileInputs := [];
    }

    /** `_track_file_node`: append the node's record; an exception appends nothing. */
    method TrackFileNode(node: Json, nodePath: NodePath) returns (r: Result<()>)
      modifies this
      ensures r.Ok? <==> Tracked(definition, node, nodePath).Ok?
      ensures r.Ok? ==> fileInputs == old(fileInputs) + [Tracked(definition, node, nodePath).value]
      ensures r.Err? ==> r.fault == Tracked(definition, node, nodePath).fault && fileInputs == old(fileInputs)
    {
      match Tracked(definition, node, nodePath) {
        case Ok(fi) =>
          fileInputs := fileInputs + [fi];
          r := Ok(());
        case Err(e) =>
          r := Err(e);
      }
    }

    /** `_track_file_inputs`: the walk over the inputs, tracking every File dict in walk order,
        until an exception ends it. */
    method TrackFileInputs() returns (r: Result<()>)
      modifies this
      ensures fileInputs == old(fileInputs) + Track(definition, Visits(inputs, [])).0
      ensures r.Err? <==> Track(definition, Visits(inputs, [])).1.Some?
      ensures r.Err? ==> r.fault == Track(definition, Visits(inputs, [])).1.value
    {
      var calls := Visits(inputs, []);
      ghost var acc: seq<FileInput> := [];
      var i := 0;
      assert calls[0..] == calls;
      assert Then([], Track(definition, calls)).0 == Track(definition, calls).0;
      while i < |calls|
        invariant i <= |calls|
        invariant fileInputs == old(fileInputs) + acc
        invariant Track(definition, calls) == Then(acc, Track(definition, calls[i..]))
      {
        TrackStep(definition, calls, i, acc);
        var (node, path) := calls[i];
        if IsFileDict(node) {
          var t := TrackFileNode(node, path);
          if t.Err? {
            assert fileInputs == old(fileInputs) + Track(definition, calls).0;
            return t;
          }
          acc := acc + [Tracked(definition, node, path).value];
        }
        i := i + 1;
      }
      assert calls[i..] == [];
      assert Track(definition, calls).0 == acc + [];
      r := Ok(());
    }

    /** `_generate_new_yaml`: the deep copy of the inputs with `path` set at each tracked input,
        in tracking order. The inputs themselves are not changed. */
    method GenerateNewYaml() returns (r: Result<Json>)
      ensures r == NewYaml(inputs, fileInputs)
    {
      var newYaml := inputs;
      var i := 0;
      assert fileInputs[0..] == fileInputs;
      while i < |fileInputs|
        invariant i <= |fileInputs|
        invariant NewYaml(inputs, fileInputs) == NewYaml(newYaml, fileInputs[i..])
      {
        var fi := fileInputs[i];
        assert fileInputs[i..][0] == fi && fileInputs[i..][1..] == fileInputs[i + 1..];
        var next := UpdateIn(newYaml, fi.yamlPath, AddKeys(ToStr(fi.filePath)));
        if next.Err? {
          return Err(next.fault);
        }
        newYaml := next.value;
        i := i + 1;
      }
      r := Ok(newYaml);
    }
  }
}
