/** `scripts/cloudize-workflow.py`: finding the local files an inputs YAML names, working out
    where each goes in the bucket, and rewriting the inputs to point there. */
module CloudizeWorkflow {
  import opened Text
  import opened Json
  import opened PyPath
  import opened YamlTree

  // ---- get / get_in / set_in -------------------------------------------

  /** The child a key or index leads to, or `None`. */
  function Child(coll: Json, k: Key): Json {
    match Step(coll, k) case Some(v) => v case None => Null
  }

  /** `get(coll, k)`: the child, or None (`Null`) for a missing key, an index out of range or a
      non-collection. A string key on a list raises TypeError, which `get` does not catch. A loaded
      dict has string keys only, so an integer key is missing from it. */
  function Get(coll: Json, k: Key): (r: Result<Json>)
    ensures r.Err? <==> coll.Arr? && k.K?
    ensures r.Err? ==> r.fault == TypeError
    ensures r.Ok? ==> r.value == Child(coll, k)
  {
    match (coll, k)
    case (Obj(fields), K(name)) => Ok(match Lookup(fields, name) case Some(v) => v case None => Null)
    case (Obj(_), I(_)) => Ok(Null)
    case (Arr(items), I(i)) => Ok(if i < |items| then items[i] else Null)
    case (Arr(_), K(_)) => Err(TypeError)
    case _ => Ok(Null)
  }

  /** `get_in(coll, path)`: `coll` itself for an empty path, None for a falsy `coll`, and otherwise
      one `get` per step. Whatever it yields besides None is the node at that path. */
  function GetIn(coll: Json, path: NodePath): (r: Result<Json>)
    ensures |path| == 0 ==> r == Ok(coll)
    ensures |path| > 0 && !Truthy(coll) ==> r == Ok(Null)
    ensures r.Ok? && r.value != Null ==> Sub(coll, path) == Some(r.value)
    decreases |path|
  {
    if |path| == 0 then Ok(coll)
    else if !Truthy(coll) then Ok(Null)
    else
      var v :- Get(coll, path[0]);
      GetIn(v, path[1..])
  }

  /** `get_in` reaches every node that is there. */
  lemma {:induction false} GetInReaches(coll: Json, path: NodePath, v: Json)
    requires Sub(coll, path) == Some(v)
    ensures GetIn(coll, path) == Ok(v)
    decreases |path|
  {
    if |path| > 0 {
      var c := Step(coll, path[0]).value;
      assert Truthy(coll);
      GetInReaches(c, path[1..], v);
    }
  }

  /** A falsy value has nothing under it. */
  lemma GetInFalsy(coll: Json, path: NodePath)
    requires !Truthy(coll) && |path| > 0
    ensures GetIn(coll, path) == Ok(Null)
  {
  }

  /** After `coll[k] = v`, `get(coll, k)` is `v` and every other key reads as before. */
  lemma AssignThenGet(coll: Json, k: Key, v: Json, k': Key)
    requires Assign(coll, k, v).Ok?
    ensures Get(Assign(coll, k, v).value, k') == if k' == k then Ok(v) else Get(coll, k')
  {
    var r := Assign(coll, k, v).value;
    match coll {
      case Obj(fields) =>
        if k'.K? {
          LookupPut(fields, k.name, v, k'.name);
        }
      case Arr(items) =>
    }
  }

  /** `set_in(coll, path, val)`, on values: each step replaces a falsy child by `{}` before
      descending, and the last step stores `val`. An empty path leaves `prev` unbound. */
  function SetIn(coll: Json, path: NodePath, val: Json): (r: Result<Json>)
  {
    if |path| == 0 then Err(UnboundLocalError) else SetFrom(coll, path, val)
  }

  function SetFrom(coll: Json, path: NodePath, val: Json): (r: Result<Json>)
    requires |path| > 0
    ensures r.Ok? ==> Truthy(r.value) && r.value.Obj? == coll.Obj?
    decreases |path|
  {
    var x := path[0];
    var child :- Get(coll, x);
    var coll1 :- if Truthy(child) then Ok(coll) else Assign(coll, x, Obj([]));
    var child1 := if Truthy(child) then child else Obj([]);
    if |path| == 1 then Assign(coll1, x, val)
    else
      var newChild :- SetFrom(child1, path[1..], val);
      Assign(coll1, x, newChild)
  }

  /** The first step of `set_in`: the collection after a falsy child is replaced, and the child
      the walk descends into. */
  lemma SetFromStep(coll: Json, path: NodePath, val: Json)
    requires |path| > 0 && SetFrom(coll, path, val).Ok?
    ensures Get(coll, path[0]).Ok?
    ensures var child := Get(coll, path[0]).value;
      Truthy(child) || Assign(coll, path[0], Obj([])).Ok?
  {
  }

  /** After `set_in`, `get_in` at the path yields `val`. */
  lemma {:induction false} SetInThenGetIn(coll: Json, path: NodePath, val: Json)
    requires SetIn(coll, path, val).Ok?
    ensures GetIn(SetIn(coll, path, val).value, path) == Ok(val)
    decreases |path|
  {
    var x := path[0];
    var child := Get(coll, x).value;
    var coll1 := if Truthy(child) then coll else Assign(coll, x, Obj([])).value;
    var child1 := if Truthy(child) then child else Obj([]);
    var r := SetIn(coll, path, val).value;
    if |path| == 1 {
      AssignThenGet(coll1, x, val, x);
      assert GetIn(val, path[1..]) == Ok(val);
    } else {
      var newChild := SetFrom(child1, path[1..], val).value;
      assert r == Assign(coll1, x, newChild).value;
      AssignThenGet(coll1, x, newChild, x);
      SetInThenGetIn(child1, path[1..], val);
    }
  }

  /** Where the path passes a missing or falsy child, `set_in` leaves a dict. */
  lemma {:induction false} SetInFillsFalsy(coll: Json, path: NodePath, val: Json, j: nat)
    requires SetIn(coll, path, val).Ok?
    requires 0 < j < |path| && GetIn(coll, path[..j]).Ok? && !Truthy(GetIn(coll, path[..j]).value)
    ensures GetIn(SetIn(coll, path, val).value, path[..j]).Ok?
    ensures GetIn(SetIn(coll, path, val).value, path[..j]).value.Obj?
    decreases |path|
  {
    var x := path[0];
    var child := Get(coll, x).value;
    var coll1 := if Truthy(child) then coll else Assign(coll, x, Obj([])).value;
    var child1 := if Truthy(child) then child else Obj([]);
    var r := SetIn(coll, path, val).value;
    var newChild := SetFrom(child1, path[1..], val).value;
    assert r == Assign(coll1, x, newChild).value;
    AssignThenGet(coll1, x, newChild, x);
    assert path[..j][0] == x && path[..j][1..] == path[1..][..j - 1];
    assert GetIn(r, path[..j]) == GetIn(newChild, path[1..][..j - 1]);
    if j == 1 {
      if Truthy(coll) {
        assert GetIn(coll, path[..j]) == GetIn(child, []);
      }
      assert !Truthy(child);
    } else {
      if Truthy(coll) && Truthy(child) {
        assert GetIn(coll, path[..j]) == GetIn(child, path[1..][..j - 1]);
      }
      SetInFillsFalsy(child1, path[1..], val, j - 1);
    }
  }

  /** `set_in` changes nothing that `get_in` sees along a path that parts from its own. */
  lemma {:induction false} SetInKeepsOthers(coll: Json, path: NodePath, val: Json, q: NodePath, j: nat)
    requires SetIn(coll, path, val).Ok? && PartAt(path, q, j)
    ensures GetIn(SetIn(coll, path, val).value, q) == GetIn(coll, q)
    decreases |path|
  {
    var x := path[0];
    var child := Get(coll, x).value;
    var coll1 := if Truthy(child) then coll else Assign(coll, x, Obj([])).value;
    var child1 := if Truthy(child) then child else Obj([]);
    var r := SetIn(coll, path, val).value;
    var stored := if |path| == 1 then val else SetFrom(child1, path[1..], val).value;
    assert r == Assign(coll1, x, stored).value;
    if j == 0 {
      AssignThenGet(coll1, x, stored, q[0]);
      if Truthy(child) {
        assert GetIn(r, q) == GetIn(coll, q);
      } else {
        AssignThenGet(coll, x, Obj([]), q[0]);
        if Truthy(coll) {
          assert GetIn(r, q) == GetIn(coll, q);
        } else {
          assert coll == Obj([]);
          assert Get(coll1, q[0]) == Ok(Null);
          assert GetIn(r, q) == GetIn(Null, q[1..]);
          assert GetIn(Null, q[1..]) == Ok(Null);
        }
      }
    } else {
      assert q[0] == x by {
        assert path[..j][0] == path[0] && q[..j][0] == q[0];
      }
      AssignThenGet(coll1, x, stored, x);
      assert PartAt(path[1..], q[1..], j - 1) by {
        assert path[1..][..j - 1] == path[..j][1..] && q[1..][..j - 1] == q[..j][1..];
      }
      SetInKeepsOthers(child1, path[1..], val, q[1..], j - 1);
      assert GetIn(r, q) == GetIn(child1, q[1..]);
      if Truthy(coll) && Truthy(child) {
        assert GetIn(coll, q) == GetIn(child, q[1..]);
      } else if Truthy(coll) {
        assert GetIn(coll, q) == GetIn(child, q[1..]);
        GetInFalsy(child, q[1..]);
      } else {
        GetInFalsy(coll, q);
      }
    }
  }

  // ---- pathlib helpers -------------------------------------------------

  /** `expand_relative(path, base_path)`: an absolute path as it is, otherwise `Path(f"{base_path}/{path}")`. */
  function ExpandRelative(path: Path, base: Path): (r: Path)
    ensures path.absolute ==> r == path
    ensures Normal(path) ==> Normal(r)
  {
    if path.absolute then path else Parse(ToStr(base) + "/" + ToStr(path))
  }

  /** A relative path is appended to the base directory's segments. */
  lemma ExpandRelativeAppends(path: Path, base: Path)
    requires Normal(path) && Normal(base) && !path.absolute
    ensures ExpandRelative(path, base) == Path(base.absolute, base.parts + path.parts)
  {
    if !base.absolute && |base.parts| > 0 {
      JoinStartsWithFirst(base.parts, '/');
    }
    ParseJoined(ToStr(base), ToStr(path));
    ParsePrinted(base);
    ParsePrinted(path);
  }

  /** `is_ancestor(path, ancestor)`: `ancestor` is one of the resolved path's parents. */
  predicate IsAncestor(cwd: Path, path: Path, ancestor: Path) {
    ancestor in Parents(Resolve(cwd, path))
  }

  /** `strip_ancestor(path, ancestor)`: the resolved path relative to `ancestor`, or the resolved
      path itself when `ancestor` is not above it. */
  function StripAncestor(cwd: Path, path: Path, ancestor: Path): (r: Path)
    ensures Resolved(cwd) && Normal(path) ==> Normal(r)
  {
    var resolved := Resolve(cwd, path);
    if IsAncestor(cwd, path, ancestor) then Path(false, resolved.parts[|ancestor.parts|..])
    else resolved
  }

  /** The result is relative exactly when `ancestor` is a proper ancestor; then it is not empty,
      and appending it to `ancestor` gives the resolved path back. */
  lemma StripAncestorRejoins(cwd: Path, path: Path, ancestor: Path)
    requires Resolved(cwd) && Normal(path)
    ensures var resolved := Resolve(cwd, path);
      var r := StripAncestor(cwd, path, ancestor);
      (!r.absolute <==> ancestor.absolute && |ancestor.parts| < |resolved.parts| && resolved.parts[..|ancestor.parts|] == ancestor.parts)
      && (!r.absolute ==> |r.parts| > 0 && ancestor.parts + r.parts == resolved.parts)
      && (r.absolute ==> r == resolved)
  {
    var resolved := Resolve(cwd, path);
    ParentsAre(resolved, ancestor);
    if IsAncestor(cwd, path, ancestor) {
      assert resolved.parts == resolved.parts[..|ancestor.parts|] + resolved.parts[|ancestor.parts|..];
    }
  }

  /** Length of the longest common prefix. */
  function CommonPrefix(a: seq<string>, b: seq<string>): (n: nat)
    ensures n <= |a| && n <= |b| && a[..n] == b[..n]
    ensures n < |a| && n < |b| ==> a[n] != b[n]
  {
    if |a| == 0 || |b| == 0 || a[0] != b[0] then 0
    else
      var m := CommonPrefix(a[1..], b[1..]);
      assert a[..m + 1] == [a[0]] + a[1..][..m];
      assert b[..m + 1] == [b[0]] + b[1..][..m];
      m + 1
  }

  /** How deep an ancestor of `base` may lie and still be an ancestor of `parts`. */
  function Bound(base: seq<string>, parts: seq<string>): nat
    requires |parts| > 0
  {
    if CommonPrefix(base, parts) < |parts| then CommonPrefix(base, parts) else |parts| - 1
  }

  /** The depth of the deepest ancestor of `base` that is also one of every resolved path's. */
  function SharedDepth(base: seq<string>, resolved: seq<Path>): (d: nat)
    requires |base| > 0 && forall i :: 0 <= i < |resolved| ==> |resolved[i].parts| > 0
    ensures d <= |base| - 1
    ensures forall i :: 0 <= i < |resolved| ==> d <= Bound(base, resolved[i].parts)
  {
    if |resolved| == 0 then |base| - 1
    else
      var rest := SharedDepth(base, resolved[1..]);
      var here := Bound(base, resolved[0].parts);
      if here < rest then here else rest
  }

  /** Every depth within all the bounds is within the shared depth. */
  lemma {:induction false} SharedDepthGreatest(base: seq<string>, resolved: seq<Path>, k: int)
    requires |base| > 0 && forall i :: 0 <= i < |resolved| ==> |resolved[i].parts| > 0
    requires k <= |base| - 1 && forall i :: 0 <= i < |resolved| ==> k <= Bound(base, resolved[i].parts)
    ensures k <= SharedDepth(base, resolved)
  {
    if |resolved| > 0 {
      assert forall i :: 0 <= i < |resolved| - 1 ==> resolved[1..][i] == resolved[i + 1];
      SharedDepthGreatest(base, resolved[1..], k);
    }
  }

  /** `[p.resolve() for p in paths]`. */
  function ResolveAll(cwd: Path, paths: seq<Path>): (r: seq<Path>)
    ensures |r| == |paths| && forall i :: 0 <= i < |paths| ==> r[i] == Resolve(cwd, paths[i])
  {
    if |paths| == 0 then [] else [Resolve(cwd, paths[0])] + ResolveAll(cwd, paths[1..])
  }

  /** The deepest parent shared by paths that are already resolved. */
  function DeepestOf(resolved: seq<Path>): (r: Result<Path>)
  {
    if |resolved| == 0 then Err(IndexError)
    else if exists i :: 0 <= i < |resolved| && |resolved[i].parts| == 0 then Err(ValueError)
    else
      var base := resolved[0].parts;
      Ok(Path(true, base[..SharedDepth(base, resolved)]))
  }

  /** `deepest_shared_ancestor(paths)`: the longest path (as text) among the parents every resolved
      path has. No paths raise IndexError (`ancestors[0]`); a path that resolves to `/` has no
      parents, so `max` of an empty set raises ValueError. */
  function DeepestSharedAncestor(cwd: Path, paths: seq<Path>): (r: Result<Path>)
    ensures |paths| == 0 ==> r == Err(IndexError)
    ensures r.Err? && |paths| > 0 ==> r.fault == ValueError
  {
    DeepestOf(ResolveAll(cwd, paths))
  }

  /** An ancestor every resolved path has. */
  predicate SharedBy(resolved: seq<Path>, a: Path) {
    forall i :: 0 <= i < |resolved| ==> a in Parents(resolved[i])
  }

  /** An ancestor every path has once resolved. */
  predicate Shared(cwd: Path, paths: seq<Path>, a: Path) {
    forall i :: 0 <= i < |paths| ==> a in Parents(Resolve(cwd, paths[i]))
  }

  /** The shared ancestors are the result and the result's own parents: so the result is shared
      and every other shared ancestor is shorter as text. Without a result nothing is shared. */
  lemma DeepestSharedAncestorIsDeepest(cwd: Path, paths: seq<Path>, a: Path)
    requires Resolved(cwd) && forall i :: 0 <= i < |paths| ==> Normal(paths[i])
    ensures DeepestSharedAncestor(cwd, paths).Ok? ==> Shared(cwd, paths, DeepestSharedAncestor(cwd, paths).value)
    ensures DeepestSharedAncestor(cwd, paths).Ok? ==>
      (Shared(cwd, paths, a) <==> a == DeepestSharedAncestor(cwd, paths).value || a in Parents(DeepestSharedAncestor(cwd, paths).value))
    ensures DeepestSharedAncestor(cwd, paths).Ok? && Shared(cwd, paths, a) && a != DeepestSharedAncestor(cwd, paths).value ==>
      |ToStr(a)| < |ToStr(DeepestSharedAncestor(cwd, paths).value)|
    ensures DeepestSharedAncestor(cwd, paths).Err? && |paths| > 0 ==> !Shared(cwd, paths, a)
  {
    var resolved := ResolveAll(cwd, paths);
    var r := DeepestOf(resolved);
    assert Shared(cwd, paths, a) == SharedBy(resolved, a);
    if r.Ok? {
      assert Shared(cwd, paths, r.value) == SharedBy(resolved, r.value);
    }
    DeepestOfIsDeepest(resolved, a);
  }

  lemma DeepestOfIsDeepest(resolved: seq<Path>, a: Path)
    requires forall i :: 0 <= i < |resolved| ==> Normal(resolved[i])
    ensures DeepestOf(resolved).Ok? ==> SharedBy(resolved, DeepestOf(resolved).value)
    ensures DeepestOf(resolved).Ok? ==>
      (SharedBy(resolved, a) <==> a == DeepestOf(resolved).value || a in Parents(DeepestOf(resolved).value))
    ensures DeepestOf(resolved).Ok? && SharedBy(resolved, a) && a != DeepestOf(resolved).value ==>
      |ToStr(a)| < |ToStr(DeepestOf(resolved).value)|
    ensures DeepestOf(resolved).Err? && |resolved| > 0 ==> !SharedBy(resolved, a)
  {
    var r := DeepestOf(resolved);
    if |resolved| > 0 {
      if r.Err? {
        var i :| 0 <= i < |resolved| && |resolved[i].parts| == 0;
        ParentsAre(resolved[i], a);
      } else {
        var base := resolved[0].parts;
        var d := SharedDepth(base, resolved);
        SharedIffPrefix(resolved, base, d, r.value);
        SharedIffPrefix(resolved, base, d, a);
        ParentsAre(r.value, a);
        if SharedBy(resolved, a) && a != r.value {
          assert |a.parts| < d;
          assert base[..d][..|a.parts|] == base[..|a.parts|];
          DeeperIsLonger(base, |a.parts|, d);
        }
      }
    }
  }

  /** A path is a shared ancestor exactly when it is an absolute prefix of the first resolved path
      no deeper than the shared depth. */
  lemma SharedIffPrefix(resolved: seq<Path>, base: seq<string>, d: nat, a: Path)
    requires |resolved| > 0 && base == resolved[0].parts
    requires forall i :: 0 <= i < |resolved| ==> |resolved[i].parts| > 0
    requires d == SharedDepth(base, resolved)
    ensures SharedBy(resolved, a) <==> a.absolute && |a.parts| <= d && a.parts == base[..|a.parts|]
  {
    if SharedBy(resolved, a) {
      SharedIsPrefix(resolved, base, a);
    }
    if a.absolute && |a.parts| <= d && a.parts == base[..|a.parts|] {
      PrefixIsShared(resolved, base, a);
    }
  }

  lemma SharedIsPrefix(resolved: seq<Path>, base: seq<string>, a: Path)
    requires |resolved| > 0 && base == resolved[0].parts
    requires forall i :: 0 <= i < |resolved| ==> |resolved[i].parts| > 0
    requires SharedBy(resolved, a)
    ensures a.absolute && |a.parts| <= SharedDepth(base, resolved) && a.parts == base[..|a.parts|]
  {
    var k := |a.parts|;
    ParentsAre(resolved[0], a);
    forall i | 0 <= i < |resolved| ensures k <= Bound(base, resolved[i].parts) {
      ParentsAre(resolved[i], a);
    }
    SharedDepthGreatest(base, resolved, k);
  }

  lemma PrefixIsShared(resolved: seq<Path>, base: seq<string>, a: Path)
    requires |resolved| > 0 && base == resolved[0].parts
    requires forall i :: 0 <= i < |resolved| ==> |resolved[i].parts| > 0
    requires a.absolute && |a.parts| <= SharedDepth(base, resolved) && a.parts == base[..|a.parts|]
    ensures SharedBy(resolved, a)
  {
    var k := |a.parts|;
    forall i | 0 <= i < |resolved| ensures a in Parents(resolved[i]) {
      var ps := resolved[i].parts;
      var n := CommonPrefix(base, ps);
      assert k <= Bound(base, ps);
      assert ps[..k] == base[..k] by {
        assert ps[..n][..k] == ps[..k];
        assert base[..n][..k] == base[..k];
      }
      ParentsAre(resolved[i], a);
    }
  }

  // ---- YAML specific ----------------------------------------------------

  /** What `input_name` returns (the `node_parent` of `is_file_input`): the empty list for the root path, otherwise a key or an index. */
  datatype NodeParent = NoInput | Named(key: Key)

  /** `input_name(node_path)`: the last step, or the one before it when the last is a list index.
      A root-level list index has no step before it (IndexError). */
  function InputName(p: NodePath): (r: Result<NodeParent>)
    ensures r.Err? <==> |p| == 1 && p[0].I?
  {
    if |p| == 0 then Ok(NoInput)
    else if p[|p| - 1].K? then Ok(Named(p[|p| - 1]))
    else if |p| >= 2 then Ok(Named(p[|p| - 2]))
    else Err(IndexError)
  }

  /** An input's name is its key, whether the node is the value under the key or an item of the
      list stored there. */
  lemma InputNameOfEntry(base: NodePath, key: string, i: nat)
    ensures InputName(base + [K(key)]) == Ok(Named(K(key)))
    ensures InputName(base + [K(key), I(i)]) == Ok(Named(K(key)))
  {
  }

  /** `is_file_input`: a dict whose `class` is `File`, or a string, not itself under a `path` key,
      naming a file that exists once taken relative to the inputs file's directory. */
  predicate IsFileInput(node: Json, parent: NodeParent, inputsDir: Path, fileExists: Path -> bool) {
    (node.Obj? && DictGet(node, "class", Null) == Ok(Str("File")))
    || (node.Str? && parent != Named(K("path")) && fileExists(ExpandRelative(Parse(node.s), inputsDir)))
  }

  /** `get_path`: a dict's `path` entry, or the string itself, as a path. `Path(None)` and a
      non-string raise TypeError. */
  function GetPath(node: Json): (r: Result<Path>)
    ensures node.Str? ==> r == Ok(Parse(node.s))
    ensures r.Ok? <==> node.Str? || (node.Obj? && Lookup(node.fields, "path").Some? && Lookup(node.fields, "path").value.Str?)
  {
    match node
    case Obj(fields) =>
      (match DictGet(node, "path", Null) case Ok(Str(s)) => Ok(Parse(s)) case _ => Err(TypeError))
    case Str(s) => Ok(Parse(s))
    case _ => Err(TypeError)
  }

  /** `set_path(yaml, file_input, new_value)`: the `path` entry of a File dict that has a truthy one,
      otherwise the node itself. */
  function SetPath(yaml: Json, inputPath: NodePath, newValue: Json): (r: Result<Json>)
  {
    var probe :- GetIn(yaml, inputPath + [K("path")]);
    if Truthy(probe) then SetIn(yaml, inputPath + [K("path")], newValue)
    else SetIn(yaml, inputPath, newValue)
  }

  /** Where `set_path` writes. */
  function PathTarget(yaml: Json, inputPath: NodePath): NodePath
    requires GetIn(yaml, inputPath + [K("path")]).Ok?
  {
    if Truthy(GetIn(yaml, inputPath + [K("path")]).value) then inputPath + [K("path")] else inputPath
  }

  /** After `set_path`, the new value is at its target, and every path that parts from the
      target reads as before. */
  lemma SetPathStores(yaml: Json, inputPath: NodePath, newValue: Json, q: NodePath, j: nat)
    requires SetPath(yaml, inputPath, newValue).Ok?
    ensures GetIn(yaml, inputPath + [K("path")]).Ok?
    ensures GetIn(SetPath(yaml, inputPath, newValue).value, PathTarget(yaml, inputPath)) == Ok(newValue)
    ensures PartAt(PathTarget(yaml, inputPath), q, j) ==>
      GetIn(SetPath(yaml, inputPath, newValue).value, q) == GetIn(yaml, q)
  {
    var t := PathTarget(yaml, inputPath);
    SetInThenGetIn(yaml, t, newValue);
    if PartAt(t, q, j) {
      SetInKeepsOthers(yaml, t, newValue, q, j);
    }
  }

  // ---- WDL specific -----------------------------------------------------

  /** `idempotent_prepend(s, prefix)`: `prefix.s` when splitting at `.` leaves one piece. */
  function IdempotentPrepend(s: string, prefix: string): string {
    if |Split(s, '.')| == 1 then prefix + "." + s else s
  }

  /** The prefix is added exactly to the names that hold no dot, and every result holds one. */
  lemma IdempotentPrependAddsOnce(s: string, prefix: string)
    ensures IdempotentPrepend(s, prefix) == if '.' in s then s else prefix + "." + s
    ensures '.' in IdempotentPrepend(s, prefix)
  {
    SplitSingle(s, '.');
    assert (prefix + "." + s)[|prefix|] == '.';
  }

  /** The dict comprehension of `prepend_workflow_name`: one assignment per item in order, so a
      renamed key that collides keeps the first position and the last value. */
  function Prepended(fields: seq<(string, Json)>, wfName: string): seq<(string, Json)> {
    if |fields| == 0 then []
    else
      var last := fields[|fields| - 1];
      Put(Prepended(fields[..|fields| - 1], wfName), IdempotentPrepend(last.0, wfName), last.1)
  }

  /** `prepend_workflow_name(obj, wdl_definition)`: only a dict has `items()`. */
  function PrependWorkflowName(obj: Json, wfName: string): (r: Result<Json>)
    ensures r.Ok? <==> obj.Obj?
    ensures r.Ok? ==> r.value.Obj?
  {
    match obj
    case Obj(fields) => Ok(Obj(Prepended(fields, wfName)))
    case _ => Err(AttributeError)
  }

  /** The renamed keys: each holds a dot, none repeats, and they are the renamed source keys. */
  lemma {:induction false} PrependedKeys(fields: seq<(string, Json)>, wfName: string, k: string)
    ensures UniqueKeys(Prepended(fields, wfName))
    ensures forall x :: x in Keys(Prepended(fields, wfName)) ==> '.' in x
    ensures k in Keys(Prepended(fields, wfName)) <==>
      exists i :: 0 <= i < |fields| && k == IdempotentPrepend(fields[i].0, wfName)
  {
    if |fields| > 0 {
      var init := fields[..|fields| - 1];
      var last := fields[|fields| - 1];
      PrependedKeys(init, wfName, k);
      KeysPut(Prepended(init, wfName), IdempotentPrepend(last.0, wfName), last.1);
      IdempotentPrependAddsOnce(last.0, wfName);
      if exists i :: 0 <= i < |fields| && k == IdempotentPrepend(fields[i].0, wfName) {
        var i :| 0 <= i < |fields| && k == IdempotentPrepend(fields[i].0, wfName);
        if i < |fields| - 1 {
          assert init[i] == fields[i];
        }
      }
      if exists i :: 0 <= i < |init| && k == IdempotentPrepend(init[i].0, wfName) {
        var i :| 0 <= i < |init| && k == IdempotentPrepend(init[i].0, wfName);
        assert init[i] == fields[i];
      }
    }
  }

  /** Distinct keys that all hold a dot come through unchanged. */
  lemma {:induction false} PrependedKeepsDotted(fields: seq<(string, Json)>, wfName: string)
    requires UniqueKeys(fields)
    requires forall x :: x in Keys(fields) ==> '.' in x
    ensures Prepended(fields, wfName) == fields
  {
    if |fields| > 0 {
      var init := fields[..|fields| - 1];
      var last := fields[|fields| - 1];
      KeysInit(fields);
      PrependedKeepsDotted(init, wfName);
      IdempotentPrependAddsOnce(last.0, wfName);
      KeysAt(fields, |fields| - 1);
      assert fields == init + [last];
    }
  }

  /** Prefixing twice is prefixing once. */
  lemma PrependWorkflowNameIdempotent(obj: Json, wfName: string)
    requires obj.Obj?
    ensures PrependWorkflowName(PrependWorkflowName(obj, wfName).value, wfName) == PrependWorkflowName(obj, wfName)
  {
    var once := Prepended(obj.fields, wfName);
    PrependedKeys(obj.fields, wfName, "");
    PrependedKeepsDotted(once, wfName);
  }

  // ---- CWL specific -----------------------------------------------------

  /** `secondary_file_suffixes(cwl_definition, name)`: the input's `secondaryFiles` entry, or `[]`
      when it is missing or falsy. The root path's name is a list, which a dict or list rejects as
      a key (TypeError). */
  function SecondaryFileSuffixes(cwl: Json, name: NodeParent): (r: Result<Json>)
    ensures name.Named? && r.Ok? && Truthy(r.value) ==>
      Sub(cwl, [K("inputs"), name.key, K("secondaryFiles")]) == Some(r.value)
    ensures r.Ok? && !Truthy(r.value) ==> r.value == Arr([])
  {
    match name
    case Named(k) =>
      var v :- GetIn(cwl, [K("inputs"), k, K("secondaryFiles")]);
      Ok(if Truthy(v) then v else Arr([]))
    case NoInput =>
      if !Truthy(cwl) then Ok(Arr([]))
      else
        var inputs :- Get(cwl, K("inputs"));
        if Truthy(inputs) && (inputs.Obj? || inputs.Arr?) then Err(TypeError) else Ok(Arr([]))
  }

  /** A declared list of suffixes is what the input gets. */
  lemma SecondaryFileSuffixesDeclared(cwl: Json, key: Key, v: Json)
    requires Sub(cwl, [K("inputs"), key, K("secondaryFiles")]) == Some(v) && Truthy(v)
    ensures SecondaryFileSuffixes(cwl, Named(key)) == Ok(v)
  {
    GetInReaches(cwl, [K("inputs"), key, K("secondaryFiles")], v);
  }

  /** `secondary_file_path(basepath, suffix)` as the CWL rule has it: each leading `^` replaces the
      path by `Path(f"{parent}/{stem}")`, then the rest of the suffix is appended to the text. */
  function SecondaryFilePath(base: Path, suffix: string): (r: Path)
    ensures Normal(r)
    decreases |suffix|
  {
    if StartsWith(suffix, "^") then SecondaryFilePath(Parse(ToStr(Parent(base)) + "/" + Stem(base)), suffix[1..])
    else Parse(ToStr(base) + suffix)
  }

  /** A caret strips one extension from the name and keeps the directory. */
  lemma SecondaryFilePathCaret(base: Path, rest: string)
    requires Normal(base) && |base.parts| > 0 && Stem(base) != "."
    ensures SecondaryFilePath(base, "^" + rest) ==
      SecondaryFilePath(Path(base.absolute, Parent(base).parts + [Stem(base)]), rest)
  {
    StemAndSuffix(base);
    ParseChild(Parent(base), Stem(base));
    assert ("^" + rest)[1..] == rest;
    assert StartsWith("^" + rest, "^");
  }

  /** A suffix without a caret is appended to the name, in the same directory. */
  lemma SecondaryFilePathAppends(base: Path, suffix: string)
    requires Normal(base) && |base.parts| > 0
    requires |suffix| > 0 && suffix[0] != '^' && '/' !in suffix
    ensures SecondaryFilePath(base, suffix) == Path(base.absolute, Parent(base).parts + [Name(base) + suffix])
  {
    var n := |base.parts|;
    var name := base.parts[n - 1];
    var longer := Path(base.absolute, base.parts[..n - 1] + [name + suffix]);
    assert !StartsWith(suffix, "^");
    ToStrExtendsLast(base, suffix);
    assert '/' !in name + suffix by {
      forall k | 0 <= k < |name + suffix| ensures (name + suffix)[k] != '/' {
        if k >= |name| {
          assert (name + suffix)[k] == suffix[k - |name|];
        }
      }
    }
    ParsePrinted(longer);
  }

  /** `secondary_file_path` as written: the recursive call is given the text
      `f"{basepath.parent}/{basepath.stem}"` rather than a path, so one caret works and a second one
      asks a string for `.parent` (AttributeError). */
  function SecondaryFilePathAsWritten(base: Path, suffix: string): (r: Result<Path>)
  {
    if StartsWith(suffix, "^") then SecondaryFilePathOfText(ToStr(Parent(base)) + "/" + Stem(base), suffix[1..])
    else Ok(Parse(ToStr(base) + suffix))
  }

  function SecondaryFilePathOfText(base: string, suffix: string): (r: Result<Path>)
  {
    if StartsWith(suffix, "^") then Err(AttributeError) else Ok(Parse(base + suffix))
  }

  /** Two carets always fail as written. */
  lemma SecondaryFilePathTwoCaretsFail(base: Path, rest: string)
    ensures SecondaryFilePathAsWritten(base, "^^" + rest) == Err(AttributeError)
  {
    assert StartsWith("^^" + rest, "^");
    assert ("^^" + rest)[1..] == "^" + rest;
    assert StartsWith("^" + rest, "^");
  }

  /** `secondary_file_paths(base_path, suffixes)`: one path for a single string, one per item
      otherwise; an item that is not a string has no `startswith` (AttributeError), and a value
      that cannot be iterated raises TypeError. */
  function SecondaryFilePaths(base: Path, suffixes: Json): (r: Result<seq<Path>>)
    ensures suffixes.Str? ==> r == Ok([SecondaryFilePath(base, suffixes.s)])
  {
    match suffixes
    case Str(s) => Ok([SecondaryFilePath(base, s)])
    case _ =>
      var items :- Iter(suffixes);
      PathsFor(base, items)
  }

  function PathsFor(base: Path, items: seq<Json>): (r: Result<seq<Path>>)
    ensures r.Ok? <==> forall i :: 0 <= i < |items| ==> items[i].Str?
    ensures r.Err? ==> r.fault == AttributeError
    ensures r.Ok? ==> |r.value| == |items|
    ensures r.Ok? ==> forall i :: 0 <= i < |items| ==> r.value[i] == SecondaryFilePath(base, items[i].s)
  {
    if |items| == 0 then Ok([])
    else
      match items[0]
      case Str(s) =>
        var rest :- PathsFor(base, items[1..]);
        assert forall i :: 1 <= i < |items| ==> items[i] == items[1..][i - 1];
        Ok([SecondaryFilePath(base, s)] + rest)
      case _ => Err(AttributeError)
  }

  // ---- finding the file inputs ----------------------------------------

  /** Which `find_file_inputs_*` runs; a CWL run carries the loaded workflow definition. */
  datatype Language = Wdl | Cwl(definition: Json)

  /** What `process_node` records for a file input: its expanded path, where it sits in the
      inputs, and its secondary files. */
  datatype Found = Found(path: Path, inputPath: NodePath, secondary: seq<Path>)

  predicate FoundNormal(f: Found) {
    Normal(f.path) && forall k :: 0 <= k < |f.secondary| ==> Normal(f.secondary[k])
  }

  /** The node at `p` is a file input. */
  predicate IsFile(inputsDir: Path, fileExists: Path -> bool, node: Json, p: NodePath) {
    InputName(p).Ok? && IsFileInput(node, InputName(p).value, inputsDir, fileExists)
  }

  /** `process_node(node, node_path)`: records a file input, with its secondary files for CWL. */
  function ProcessNode(lang: Language, inputsDir: Path, fileExists: Path -> bool, node: Json, p: NodePath): (r: Result<Option<Found>>)
    requires Normal(inputsDir)
    ensures r.Ok? && r.value.Some? ==> FoundNormal(r.value.value)
  {
    var name :- InputName(p);
    if !IsFileInput(node, name, inputsDir, fileExists) then Ok(None)
    else
      var local :- GetPath(node);
      var path := ExpandRelative(local, inputsDir);
      match lang
      case Wdl => Ok(Some(Found(path, p, [])))
      case Cwl(definition) =>
        var suffixes :- SecondaryFileSuffixes(definition, name);
        var secondary :- SecondaryFilePaths(path, suffixes);
        Ok(Some(Found(path, p, secondary)))
  }

  /** A record is made exactly for a file input, at its own path, with the node's path expanded
      (and no secondary files for WDL); an exception comes only from a root-level list index or
      from a file input. */
  lemma ProcessNodeRecords(lang: Language, inputsDir: Path, fileExists: Path -> bool, node: Json, p: NodePath)
    requires Normal(inputsDir)
    ensures var r := ProcessNode(lang, inputsDir, fileExists, node, p);
      r.Ok? ==> (r.value.Some? <==> IsFile(inputsDir, fileExists, node, p))
    ensures var r := ProcessNode(lang, inputsDir, fileExists, node, p);
      r.Err? ==> InputName(p).Err? || IsFile(inputsDir, fileExists, node, p)
    ensures var r := ProcessNode(lang, inputsDir, fileExists, node, p);
      r.Ok? && r.value.Some? ==> r.value.value.inputPath == p && GetPath(node).Ok?
    ensures var r := ProcessNode(lang, inputsDir, fileExists, node, p);
      r.Ok? && r.value.Some? && GetPath(node).Ok? ==> r.value.value.path == ExpandRelative(GetPath(node).value, inputsDir)
    ensures var r := ProcessNode(lang, inputsDir, fileExists, node, p);
      lang.Wdl? && r.Ok? && r.value.Some? ==> r.value.value.secondary == []
  {
  }

  /** The records `process_node` appends over a sequence of calls; the first exception ends the walk. */
  function FoundIn(lang: Language, inputsDir: Path, fileExists: Path -> bool, calls: seq<(Json, NodePath)>): (r: Result<seq<Found>>)
    requires Normal(inputsDir)
  {
    if |calls| == 0 then Ok([])
    else
      var here :- ProcessNode(lang, inputsDir, fileExists, calls[0].0, calls[0].1);
      var rest :- FoundIn(lang, inputsDir, fileExists, calls[1..]);
      Ok((if here.Some? then [here.value] else []) + rest)
  }

  /** A finished walk recorded exactly what `process_node` returned for some call. */
  lemma {:induction false} FoundInMembers(lang: Language, inputsDir: Path, fileExists: Path -> bool, calls: seq<(Json, NodePath)>, f: Found)
    requires Normal(inputsDir) && FoundIn(lang, inputsDir, fileExists, calls).Ok?
    ensures forall j :: 0 <= j < |calls| ==> ProcessNode(lang, inputsDir, fileExists, calls[j].0, calls[j].1).Ok?
    ensures f in FoundIn(lang, inputsDir, fileExists, calls).value <==>
      exists j :: 0 <= j < |calls| && ProcessNode(lang, inputsDir, fileExists, calls[j].0, calls[j].1) == Ok(Some(f))
  {
    if |calls| > 0 {
      FoundInMembers(lang, inputsDir, fileExists, calls[1..], f);
      assert forall j :: 1 <= j < |calls| ==> calls[j] == calls[1..][j - 1];
      if exists j :: 0 <= j < |calls| && ProcessNode(lang, inputsDir, fileExists, calls[j].0, calls[j].1) == Ok(Some(f)) {
        var j :| 0 <= j < |calls| && ProcessNode(lang, inputsDir, fileExists, calls[j].0, calls[j].1) == Ok(Some(f));
        if j > 0 {
          assert calls[1..][j - 1] == calls[j];
        }
      }
    }
  }

  /** The walk over the inputs records a file input for every node that is one, and nothing else. */
  lemma FindsFileInputs(lang: Language, inputsDir: Path, fileExists: Path -> bool, inputs: Json, f: Found, n: Json, p: NodePath)
    requires Normal(inputsDir) && DistinctKeys(inputs)
    requires FoundIn(lang, inputsDir, fileExists, Visits(inputs, [])).Ok?
    ensures f in FoundIn(lang, inputsDir, fileExists, Visits(inputs, [])).value ==>
      Sub(inputs, f.inputPath).Some? && IsFile(inputsDir, fileExists, Sub(inputs, f.inputPath).value, f.inputPath)
    ensures Sub(inputs, p) == Some(n) && IsFile(inputsDir, fileExists, n, p) ==>
      exists g :: g in FoundIn(lang, inputsDir, fileExists, Visits(inputs, [])).value && g.inputPath == p
  {
    var calls := Visits(inputs, []);
    FoundInMembers(lang, inputsDir, fileExists, calls, f);
    if f in FoundIn(lang, inputsDir, fileExists, calls).value {
      var j :| 0 <= j < |calls| && ProcessNode(lang, inputsDir, fileExists, calls[j].0, calls[j].1) == Ok(Some(f));
      ProcessNodeRecords(lang, inputsDir, fileExists, calls[j].0, calls[j].1);
      VisitedIffReached(inputs, [], calls[j].0, calls[j].1);
      assert calls[j].1[0..] == calls[j].1;
    }
    if Sub(inputs, p) == Some(n) && IsFile(inputsDir, fileExists, n, p) {
      assert p[0..] == p && p[..0] == [];
      VisitedIffReached(inputs, [], n, p);
      var j :| 0 <= j < |calls| && calls[j] == (n, p);
      ProcessNodeRecords(lang, inputsDir, fileExists, n, p);
      var g := ProcessNode(lang, inputsDir, fileExists, n, p).value.value;
      FoundInMembers(lang, inputsDir, fileExists, calls, g);
    }
  }

  // ---- FilePath, FileInput, parse_file_inputs ---------------------------

  /** `UNIQUE_PATH`: the bucket folder of this run, from the user name and today's date. */
  function UniquePath(user: string, date: string): string {
    "input_data/" + user + "/" + date
  }

  /** The bucket name `set_cloud` gives a path relative to the shared ancestor. */
  function CloudName(uniquePath: string, cloud: Path): string {
    uniquePath + "/" + ToStr(cloud)
  }

  /** A local file: its resolved path, and the bucket name it is uploaded to once known. */
  class FilePath {
    const local: Path
    var cloud: Option<string>

    constructor(cwd: Path, p: Path)
      ensures local == Resolve(cwd, p) && cloud == None
    {
      local := Resolve(cwd, p);
      cloud := None;
    }

    method SetCloud(uniquePath: string, c: Path)
      modifies this
      ensures cloud == Some(CloudName(uniquePath, c))
    {
      cloud := Some(CloudName(uniquePath, c));
    }
  }

  /** `FileInput`: the input's own file, where it sits in the inputs, and its secondary files. */
  datatype FileInput = FileInput(filePath: FilePath, inputPath: NodePath, secondaryFiles: seq<FilePath>) {
    function AllFilePaths(): seq<FilePath> {
      [filePath] + secondaryFiles
    }
  }

  /** Every `file_path` of every input, in the order `parse_file_inputs` visits them. */
  function AllPaths(fis: seq<FileInput>): seq<FilePath> {
    if |fis| == 0 then [] else AllPaths(fis[..|fis| - 1]) + fis[|fis| - 1].AllFilePaths()
  }

  function Locals(xs: seq<FilePath>): (r: seq<Path>)
    ensures |r| == |xs| && forall i :: 0 <= i < |xs| ==> r[i] == xs[i].local
  {
    if |xs| == 0 then [] else [xs[0].local] + Locals(xs[1..])
  }

  /** `fi` holds the resolved paths of a record. */
  predicate Describes(cwd: Path, fi: FileInput, f: Found) {
    FoundNormal(f) && fi.filePath.local == Resolve(cwd, f.path) && fi.inputPath == f.inputPath
    && |fi.secondaryFiles| == |f.secondary|
    && forall k :: 0 <= k < |f.secondary| ==> fi.secondaryFiles[k].local == Resolve(cwd, f.secondary[k])
  }

  /** Each input holds the resolved paths of the record at its position. */
  predicate DescribesAll(cwd: Path, fis: seq<FileInput>, fs: seq<Found>) {
    |fis| == |fs| && forall j :: 0 <= j < |fis| ==> Describes(cwd, fis[j], fs[j])
  }

  /** `[FilePath(f) for f in paths]`. */
  method NewFilePaths(cwd: Path, paths: seq<Path>) returns (xs: seq<FilePath>)
    requires Resolved(cwd) && forall k :: 0 <= k < |paths| ==> Normal(paths[k])
    ensures |xs| == |paths| && forall k :: 0 <= k < |paths| ==> xs[k].local == Resolve(cwd, paths[k])
    ensures forall k :: 0 <= k < |xs| ==> fresh(xs[k])
  {
    xs := [];
    var k := 0;
    while k < |paths|
      invariant k <= |paths| && |xs| == k
      invariant forall m :: 0 <= m < k ==> xs[m].local == Resolve(cwd, paths[m]) && fresh(xs[m])
    {
      var x := new FilePath(cwd, paths[k]);
      xs := xs + [x];
      k := k + 1;
    }
  }

  /** The records of a walk that has found `acc` so far and still has `rest` to go. */
  function Prefixed(acc: seq<Found>, rest: Result<seq<Found>>): Result<seq<Found>> {
    match rest
    case Ok(t) => Ok(acc + t)
    case Err(e) => Err(e)
  }

  /** One more call of `process_node`: it raises, or it adds its record to those already found. */
  lemma FoundInStep(lang: Language, inputsDir: Path, fileExists: Path -> bool, calls: seq<(Json, NodePath)>, i: nat, acc: seq<Found>)
    requires Normal(inputsDir) && i < |calls|
    ensures var here := ProcessNode(lang, inputsDir, fileExists, calls[i].0, calls[i].1);
      Prefixed(acc, FoundIn(lang, inputsDir, fileExists, calls[i..])) ==
        if here.Err? then Err(here.fault)
        else Prefixed(acc + (if here.value.Some? then [here.value.value] else []), FoundIn(lang, inputsDir, fileExists, calls[i + 1..]))
  {
    assert calls[i..][0] == calls[i] && calls[i..][1..] == calls[i + 1..];
    var here := ProcessNode(lang, inputsDir, fileExists, calls[i].0, calls[i].1);
    if here.Ok? {
      var one := if here.value.Some? then [here.value.value] else [];
      match FoundIn(lang, inputsDir, fileExists, calls[i + 1..]) {
        case Ok(t) => assert acc + (one + t) == (acc + one) + t;
        case Err(_) =>
      }
    }
  }

  /** `FileInput(file_path, node_path, secondary_files)` for one record. */
  method NewFileInput(cwd: Path, f: Found) returns (fi: FileInput)
    requires Resolved(cwd) && FoundNormal(f)
    ensures Describes(cwd, fi, f)
    ensures forall x :: x in fi.AllFilePaths() ==> fresh(x) && Resolved(x.local)
  {
    var main := new FilePath(cwd, f.path);
    var secondary := NewFilePaths(cwd, f.secondary);
    fi := FileInput(main, f.inputPath, secondary);
  }

  /** One step of the walk: a record, if any, becomes a new `FileInput`. */
  method AddRecord(cwd: Path, fis: seq<FileInput>, acc: seq<Found>, here: Option<Found>)
    returns (fis': seq<FileInput>, acc': seq<Found>)
    requires Resolved(cwd) && DescribesAll(cwd, fis, acc) && (here.Some? ==> FoundNormal(here.value))
    ensures acc' == acc + (if here.Some? then [here.value] else [])
    ensures DescribesAll(cwd, fis', acc')
    ensures forall x :: x in AllPaths(fis') ==> x in AllPaths(fis) || (fresh(x) && Resolved(x.local))
  {
    if here.Some? {
      var fi := NewFileInput(cwd, here.value);
      assert (fis + [fi])[..|fis|] == fis;
      fis' := fis + [fi];
      acc' := acc + [here.value];
    } else {
      fis', acc' := fis, acc + [];
    }
  }

  /** The callback of `find_file_inputs_wdl` / `find_file_inputs_cwl` over the calls the walk
      makes: one `FileInput` per record, in call order, each with fresh `FilePath`s. */
  method RecordCalls(cwd: Path, lang: Language, inputsDir: Path, fileExists: Path -> bool, calls: seq<(Json, NodePath)>)
    returns (r: Result<seq<FileInput>>)
    requires Resolved(cwd) && Normal(inputsDir)
    ensures r.Ok? <==> FoundIn(lang, inputsDir, fileExists, calls).Ok?
    ensures r.Ok? ==> DescribesAll(cwd, r.value, FoundIn(lang, inputsDir, fileExists, calls).value)
    ensures r.Ok? ==> forall x :: x in AllPaths(r.value) ==> fresh(x) && Resolved(x.local)
  {
    var acc: seq<Found> := [];
    var fis: seq<FileInput> := [];
    var i := 0;
    assert calls[0..] == calls;
    match FoundIn(lang, inputsDir, fileExists, calls) {
      case Ok(t) => assert [] + t == t;
      case Err(_) =>
    }
    while i < |calls|
      invariant i <= |calls|
      invariant FoundIn(lang, inputsDir, fileExists, calls) == Prefixed(acc, FoundIn(lang, inputsDir, fileExists, calls[i..]))
      invariant DescribesAll(cwd, fis, acc)
      invariant forall x :: x in AllPaths(fis) ==> fresh(x) && Resolved(x.local)
    {
      FoundInStep(lang, inputsDir, fileExists, calls, i, acc);
      var here := ProcessNode(lang, inputsDir, fileExists, calls[i].0, calls[i].1);
      if here.Err? {
        return Err(here.fault);
      }
      fis, acc := AddRecord(cwd, fis, acc, here.value);
      i := i + 1;
    }
    assert calls[i..] == [];
    return Ok(fis);
  }

  /** `find_file_inputs_wdl` / `find_file_inputs_cwl`: walk the inputs and record every file input. */
  method FindFileInputs(cwd: Path, lang: Language, inputsDir: Path, fileExists: Path -> bool, inputs: Json)
    returns (r: Result<seq<FileInput>>)
    requires Resolved(cwd) && Normal(inputsDir)
    ensures r.Ok? <==> FoundIn(lang, inputsDir, fileExists, Visits(inputs, [])).Ok?
    ensures r.Ok? ==> DescribesAll(cwd, r.value, FoundIn(lang, inputsDir, fileExists, Visits(inputs, [])).value)
    ensures r.Ok? ==> forall x :: x in AllPaths(r.value) ==> fresh(x) && Resolved(x.local)
  {
    r := RecordCalls(cwd, lang, inputsDir, fileExists, Visits(inputs, []));
  }

  /** The bucket name of a local file, given the shared ancestor. */
  function CloudFor(cwd: Path, uniquePath: string, ancestor: Path, local: Path): string {
    CloudName(uniquePath, StripAncestor(cwd, local, ancestor))
  }

  /** The inner loop of `parse_file_inputs`: `set_cloud` on each of one input's paths. */
  method SetClouds(cwd: Path, uniquePath: string, ancestor: Path, xs: seq<FilePath>)
    requires Resolved(cwd) && forall x :: x in xs ==> Resolved(x.local)
    modifies set x | x in xs
    ensures forall x :: x in xs ==> Resolved(x.local) && x.cloud == Some(CloudFor(cwd, uniquePath, ancestor, x.local))
  {
    var k := 0;
    while k < |xs|
      invariant k <= |xs|
      invariant forall x :: x in xs[..k] ==> Resolved(x.local) && x.cloud == Some(CloudFor(cwd, uniquePath, ancestor, x.local))
    {
      xs[k].SetCloud(uniquePath, StripAncestor(cwd, xs[k].local, ancestor));
      assert xs[..k + 1] == xs[..k] + [xs[k]];
      k := k + 1;
    }
    assert xs[..k] == xs;
  }

  /** The outer loop of `parse_file_inputs`. */
  method SetAllClouds(cwd: Path, uniquePath: string, ancestor: Path, fis: seq<FileInput>)
    requires Resolved(cwd) && forall x :: x in AllPaths(fis) ==> Resolved(x.local)
    modifies set x | x in AllPaths(fis)
    ensures forall x :: x in AllPaths(fis) ==> Resolved(x.local) && x.cloud == Some(CloudFor(cwd, uniquePath, ancestor, x.local))
  {
    var i := 0;
    while i < |fis|
      invariant i <= |fis|
      invariant forall x :: x in AllPaths(fis[..i]) ==> Resolved(x.local) && x.cloud == Some(CloudFor(cwd, uniquePath, ancestor, x.local))
    {
      AllPathsPrefix(fis, i);
      var here := fis[i].AllFilePaths();
      SetClouds(cwd, uniquePath, ancestor, here);
      forall x | x in AllPaths(fis[..i + 1])
        ensures Resolved(x.local) && x.cloud == Some(CloudFor(cwd, uniquePath, ancestor, x.local))
      {
        if x !in here {
          assert x in AllPaths(fis[..i]);
          var j := AllPathsFrom(fis, x);
          assert x in fis[j].AllFilePaths();
        }
      }
      i := i + 1;
    }
    assert fis[..i] == fis;
  }

  /** The paths of a prefix of the inputs, one more input at a time. */
  lemma AllPathsPrefix(fis: seq<FileInput>, i: nat)
    requires i < |fis|
    ensures AllPaths(fis[..i + 1]) == AllPaths(fis[..i]) + fis[i].AllFilePaths()
    ensures forall x :: x in AllPaths(fis[..i + 1]) ==> x in AllPaths(fis)
  {
    assert fis[..i + 1][..i] == fis[..i];
    AllPathsIn(fis, i + 1);
  }

  /** A path of the inputs is a path of one of them. */
  lemma {:induction false} AllPathsFrom(fis: seq<FileInput>, x: FilePath) returns (j: nat)
    requires x in AllPaths(fis)
    ensures j < |fis| && x in fis[j].AllFilePaths()
  {
    var init := fis[..|fis| - 1];
    if x in AllPaths(init) {
      j := AllPathsFrom(init, x);
      assert init[j] == fis[j];
    } else {
      j := |fis| - 1;
    }
  }

  lemma {:induction false} AllPathsIn(fis: seq<FileInput>, n: nat)
    requires n <= |fis|
    ensures forall x :: x in AllPaths(fis[..n]) ==> x in AllPaths(fis)
    decreases |fis| - n
  {
    if n < |fis| {
      AllPathsIn(fis, n + 1);
      assert fis[..n + 1][..n] == fis[..n];
    } else {
      assert fis[..n] == fis;
    }
  }

  /** CWL when the workflow file's suffix is `.cwl`, WDL otherwise. */
  function WorkflowLanguage(wfPath: Path, cwlDefinition: Json): Language {
    if Suffix(wfPath) == ".cwl" then Cwl(cwlDefinition) else Wdl
  }

  /** `parse_file_inputs`: find the file inputs (CWL when the workflow file's suffix is `.cwl`),
      then give every file a bucket name below this run's folder, relative to the deepest
      directory all of them share. */
  method ParseFileInputs(cwd: Path, wfPath: Path, cwlDefinition: Json, inputs: Json, inputsDir: Path,
                         fileExists: Path -> bool, uniquePath: string)
    returns (r: Result<seq<FileInput>>)
    requires Resolved(cwd) && Normal(inputsDir)
    ensures r.Ok? ==> FoundIn(WorkflowLanguage(wfPath, cwlDefinition), inputsDir, fileExists, Visits(inputs, [])).Ok?
    ensures r.Ok? ==> DescribesAll(cwd, r.value, FoundIn(WorkflowLanguage(wfPath, cwlDefinition), inputsDir, fileExists, Visits(inputs, [])).value)
    ensures r.Ok? ==> forall x :: x in AllPaths(r.value) ==> Resolved(x.local)
    ensures r.Ok? ==> DeepestSharedAncestor(cwd, Locals(AllPaths(r.value))).Ok?
    ensures r.Ok? ==> forall x :: x in AllPaths(r.value) ==>
      x.cloud == Some(CloudFor(cwd, uniquePath, DeepestSharedAncestor(cwd, Locals(AllPaths(r.value))).value, x.local))
  {
    var lang := WorkflowLanguage(wfPath, cwlDefinition);
    var fis :- FindFileInputs(cwd, lang, inputsDir, fileExists, inputs);
    var locals := Locals(AllPaths(fis));
    assert forall k :: 0 <= k < |locals| ==> Normal(locals[k]) by {
      forall k | 0 <= k < |locals| ensures Normal(locals[k]) {
        assert AllPaths(fis)[k] in AllPaths(fis);
      }
    }
    var ancestor :- DeepestSharedAncestor(cwd, locals);
    SetAllClouds(cwd, uniquePath, ancestor, fis);
    return Ok(fis);
  }

  /** Every bucket name is the run's folder followed by the file's path below the shared
      ancestor, so two different files never get the same name. */
  lemma CloudNamesBelowAncestor(cwd: Path, uniquePath: string, paths: seq<Path>, i: nat, j: nat)
    requires Resolved(cwd) && forall k :: 0 <= k < |paths| ==> Normal(paths[k])
    requires DeepestSharedAncestor(cwd, paths).Ok? && i < |paths| && j < |paths|
    ensures var a := DeepestSharedAncestor(cwd, paths).value;
      var s := StripAncestor(cwd, paths[i], a);
      !s.absolute && a.parts + s.parts == Resolve(cwd, paths[i]).parts
    ensures var a := DeepestSharedAncestor(cwd, paths).value;
      CloudFor(cwd, uniquePath, a, paths[i]) == CloudFor(cwd, uniquePath, a, paths[j]) ==>
        Resolve(cwd, paths[i]) == Resolve(cwd, paths[j])
  {
    var a := DeepestSharedAncestor(cwd, paths).value;
    DeepestSharedAncestorIsDeepest(cwd, paths, a);
    StripAncestorRejoins(cwd, paths[i], a);
    StripAncestorRejoins(cwd, paths[j], a);
    var si := StripAncestor(cwd, paths[i], a);
    var sj := StripAncestor(cwd, paths[j], a);
    if CloudFor(cwd, uniquePath, a, paths[i]) == CloudFor(cwd, uniquePath, a, paths[j]) {
      var n := |uniquePath| + 1;
      assert (uniquePath + "/" + ToStr(si))[n..] == ToStr(si);
      assert (uniquePath + "/" + ToStr(sj))[n..] == ToStr(sj);
      ParsePrinted(si);
      ParsePrinted(sj);
    }
  }

  // ---- command line ---------------------------------------------------

  /** `default_output(inputs_filename)`: `<parent>/<stem>_cloud<suffix>`. */
  function DefaultOutput(inputsFilename: string): string {
    var p := Parse(inputsFilename);
    ToStr(Parent(p)) + "/" + Stem(p) + "_cloud" + Suffix(p)
  }

  /** The default output sits beside the inputs file, named by its stem with `_cloud` added and
      its suffix kept. */
  lemma DefaultOutputBeside(inputsFilename: string)
    requires |Parse(inputsFilename).parts| > 0
    ensures var p := Parse(inputsFilename);
      Parse(DefaultOutput(inputsFilename)) == Path(p.absolute, Parent(p).parts + [Stem(p) + "_cloud" + Suffix(p)])
    ensures var p := Parse(inputsFilename);
      Suffix(p) != "" ==> Suffix(Parse(DefaultOutput(inputsFilename))) == Suffix(p)
    ensures var p := Parse(inputsFilename);
      Suffix(p) != "" ==> Stem(Parse(DefaultOutput(inputsFilename))) == Stem(p) + "_cloud"
  {
    var p := Parse(inputsFilename);
    var name := Stem(p) + "_cloud" + Suffix(p);
    TaggedIsSegment(p);
    assert DefaultOutput(inputsFilename) == ToStr(Parent(p)) + "/" + name;
    ParseChild(Parent(p), name);
    if Suffix(p) != "" {
      TaggedKeepsSuffix(p, Parse(DefaultOutput(inputsFilename)));
    }
  }

  /** A segment's stem, `_cloud` and its suffix make a segment. */
  lemma TaggedIsSegment(p: Path)
    requires Normal(p) && |p.parts| > 0
    ensures IsSegment(Stem(p) + "_cloud" + Suffix(p))
  {
    var n := Name(p);
    var stem, suffix := Stem(p), Suffix(p);
    var name := stem + "_cloud" + suffix;
    StemAndSuffix(p);
    assert '/' !in n;
    assert name[|stem|] == '_';
    forall k | 0 <= k < |name| ensures name[k] != '/' {
      if k >= |stem| + 6 {
        assert name[k] == n[k - 6];
      } else if k < |stem| {
        assert name[k] == n[k];
      }
    }
  }

  /** The dot that starts a non-empty suffix stays the last one once `_cloud` goes before it. */
  lemma TaggedKeepsSuffix(p: Path, q: Path)
    requires Suffix(p) != "" && Name(q) == Stem(p) + "_cloud" + Suffix(p)
    ensures Suffix(q) == Suffix(p) && Stem(q) == Stem(p) + "_cloud"
  {
    var stem, suffix := Stem(p), Suffix(p);
    var name := Name(q);
    StemAndSuffix(p);
    var i := |stem| + 6;
    assert name[i] == '.' && name[i..] == suffix && name[..i] == stem + "_cloud";
    forall j | i < j < |name| ensures name[j] != '.' {
      assert name[j] == suffix[1..][j - i - 1];
    }
    LastIndexOfAt(name, '.', i);
  }
}
