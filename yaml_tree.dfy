/** The post-order walk over a loaded YAML value that both cloudize scripts use
    (`walk_object`), and the node paths it hands to its callback. */
module YamlTree {
  import opened Text
  import opened Json

  /** One step of a node path: a dict key or a list index. */
  datatype Key = K(name: string) | I(index: nat)

  type NodePath = seq<Key>

  /** `walk_object(obj, node_fn, path)`: the children are walked first, each with its key or
      index appended to the path, then `node_fn` gets the rebuilt node and its path. A rebuilt
      dict keeps its keys in order (a loaded dict repeats no key, so the comprehension drops none). */
  function Walk(obj: Json, fn: (Json, NodePath) -> Json, path: NodePath): Json
    decreases obj, 1
  {
    match obj
    case Obj(_) => fn(Obj(WalkFields(obj, fn, path, 0)), path)
    case Arr(_) => fn(Arr(WalkItems(obj, fn, path, 0)), path)
    case _ => fn(obj, path)
  }

  function WalkFields(obj: Json, fn: (Json, NodePath) -> Json, path: NodePath, from: nat): (r: seq<(string, Json)>)
    requires obj.Obj? && from <= |obj.fields|
    decreases obj, 0, |obj.fields| - from
  {
    if from == |obj.fields| then []
    else
      var (k, v) := obj.fields[from];
      [(k, Walk(v, fn, path + [K(k)]))] + WalkFields(obj, fn, path, from + 1)
  }

  function WalkItems(obj: Json, fn: (Json, NodePath) -> Json, path: NodePath, from: nat): (r: seq<Json>)
    requires obj.Arr? && from <= |obj.items|
    decreases obj, 0, |obj.items| - from
  {
    if from == |obj.items| then []
    else [Walk(obj.items[from], fn, path + [I(from)])] + WalkItems(obj, fn, path, from + 1)
  }

  /** A callback that returns its node, as every callback in the scripts does. */
  function Keep(node: Json, path: NodePath): Json {
    node
  }

  /** Walking with a callback that returns its node gives back an equal structure. */
  lemma {:induction false} WalkKeeps(obj: Json, path: NodePath)
    ensures Walk(obj, Keep, path) == obj
    decreases obj, 1
  {
    match obj {
      case Obj(fields) =>
        WalkFieldsKeep(obj, path, 0);
        assert fields[0..] == fields;
      case Arr(items) =>
        WalkItemsKeep(obj, path, 0);
        assert items[0..] == items;
      case _ =>
    }
  }

  lemma {:induction false} WalkFieldsKeep(obj: Json, path: NodePath, from: nat)
    requires obj.Obj? && from <= |obj.fields|
    ensures WalkFields(obj, Keep, path, from) == obj.fields[from..]
    decreases obj, 0, |obj.fields| - from
  {
    if from < |obj.fields| {
      var (k, v) := obj.fields[from];
      WalkKeeps(v, path + [K(k)]);
      WalkFieldsKeep(obj, path, from + 1);
      assert obj.fields[from..] == [obj.fields[from]] + obj.fields[from + 1..];
    }
  }

  lemma {:induction false} WalkItemsKeep(obj: Json, path: NodePath, from: nat)
    requires obj.Arr? && from <= |obj.items|
    ensures WalkItems(obj, Keep, path, from) == obj.items[from..]
    decreases obj, 0, |obj.items| - from
  {
    if from < |obj.items| {
      WalkKeeps(obj.items[from], path + [I(from)]);
      WalkItemsKeep(obj, path, from + 1);
      assert obj.items[from..] == [obj.items[from]] + obj.items[from + 1..];
    }
  }

  // ---- the calls a node-returning callback receives -------------------

  /** The `(node, path)` pairs `walk_object` passes to a callback that returns its node, in call
      order: a container's children (in order) before the container. */
  function Visits(obj: Json, path: NodePath): seq<(Json, NodePath)>
    decreases obj, 1
  {
    match obj
    case Obj(_) => FieldVisits(obj, path, 0) + [(obj, path)]
    case Arr(_) => ItemVisits(obj, path, 0) + [(obj, path)]
    case _ => [(obj, path)]
  }

  function FieldVisits(obj: Json, path: NodePath, from: nat): seq<(Json, NodePath)>
    requires obj.Obj? && from <= |obj.fields|
    decreases obj, 0, |obj.fields| - from
  {
    if from == |obj.fields| then []
    else Visits(obj.fields[from].1, path + [K(obj.fields[from].0)]) + FieldVisits(obj, path, from + 1)
  }

  function ItemVisits(obj: Json, path: NodePath, from: nat): seq<(Json, NodePath)>
    requires obj.Arr? && from <= |obj.items|
    decreases obj, 0, |obj.items| - from
  {
    if from == |obj.items| then []
    else Visits(obj.items[from], path + [I(from)]) + ItemVisits(obj, path, from + 1)
  }

  /** The child one key or index leads to. */
  function Step(obj: Json, k: Key): Option<Json> {
    match (obj, k)
    case (Obj(fields), K(name)) => Lookup(fields, name)
    case (Arr(items), I(i)) => if i < |items| then Some(items[i]) else None
    case _ => None
  }

  /** The node a path leads to: keys into dicts, indices into lists. */
  function Sub(obj: Json, keys: NodePath): Option<Json>
    decreases |keys|
  {
    if |keys| == 0 then Some(obj)
    else match Step(obj, keys[0])
      case Some(c) => Sub(c, keys[1..])
      case None => None
  }

  /** `coll[k] = v`: a dict key is set in place (a new key goes last), a list index must exist. */
  function Assign(coll: Json, k: Key, v: Json): (r: Result<Json>)
    ensures r.Ok? ==> Truthy(r.value) && r.value.Obj? == coll.Obj?
  {
    match (coll, k)
    case (Obj(fields), K(name)) => Ok(Obj(Put(fields, name, v)))
    case (Obj(_), I(_)) => Err(Unmodelled)
    case (Arr(items), I(i)) => if i < |items| then Ok(Arr(items[i := v])) else Err(IndexError)
    case _ => Err(TypeError)
  }

  /** `path` and `q` part at step `j`: equal before it, different at it. */
  predicate PartAt(path: NodePath, q: NodePath, j: nat) {
    j < |path| && j < |q| && path[..j] == q[..j] && path[j] != q[j]
  }

  /** No dict anywhere in the value repeats a key, as for every loaded value. */
  predicate DistinctKeys(obj: Json)
    decreases obj
  {
    match obj
    case Obj(fields) =>
      UniqueKeys(fields) && forall i :: 0 <= i < |fields| ==> DistinctKeys(fields[i].1)
    case Arr(items) => forall i :: 0 <= i < |items| ==> DistinctKeys(items[i])
    case _ => true
  }

  /** The callback is called once with every node and the path leading to it from the root,
      and with nothing else. */
  lemma VisitedIffReached(obj: Json, base: NodePath, n: Json, p: NodePath)
    requires DistinctKeys(obj)
    ensures (n, p) in Visits(obj, base) <==>
      (|base| <= |p| && p[..|base|] == base && Sub(obj, p[|base|..]) == Some(n))
  {
    if (n, p) in Visits(obj, base) {
      VisitedIsReached(obj, base, n, p);
    }
    if |base| <= |p| && p[..|base|] == base && Sub(obj, p[|base|..]) == Some(n) {
      ReachedIsVisited(obj, base, p[|base|..], n);
      assert base + p[|base|..] == p;
    }
  }

  lemma {:induction false} VisitedIsReached(obj: Json, base: NodePath, n: Json, p: NodePath)
    requires DistinctKeys(obj) && (n, p) in Visits(obj, base)
    ensures |base| <= |p| && p[..|base|] == base && Sub(obj, p[|base|..]) == Some(n)
    decreases obj, 1
  {
    if (n, p) == (obj, base) {
      assert p[|base|..] == [];
    } else {
      match obj {
        case Obj(fields) =>
          var k := FieldVisited(obj, base, 0, n, p);
          VisitedIsReached(fields[k].1, base + [K(fields[k].0)], n, p);
          LookupUnique(fields, k);
          ReachedThrough(obj, base, K(fields[k].0), fields[k].1, n, p);
        case Arr(items) =>
          var k := ItemVisited(obj, base, 0, n, p);
          VisitedIsReached(items[k], base + [I(k)], n, p);
          ReachedThrough(obj, base, I(k), items[k], n, p);
      }
    }
  }

  /** A node reached from a child is reached from its parent, one step longer. */
  lemma ReachedThrough(obj: Json, base: NodePath, k: Key, child: Json, n: Json, p: NodePath)
    requires Step(obj, k) == Some(child)
    requires |base| + 1 <= |p| && p[..|base| + 1] == base + [k] && Sub(child, p[|base| + 1..]) == Some(n)
    ensures |base| <= |p| && p[..|base|] == base && Sub(obj, p[|base|..]) == Some(n)
  {
    assert p[..|base| + 1][..|base|] == p[..|base|];
    var rest := p[|base|..];
    assert rest[0] == k && rest[1..] == p[|base| + 1..];
  }

  /** In a dict without repeated keys, each field's key looks up its own value. */
  lemma {:induction false} LookupUnique(fields: seq<(string, Json)>, k: nat)
    requires UniqueKeys(fields) && k < |fields|
    ensures Lookup(fields, fields[k].0) == Some(fields[k].1)
  {
    if k > 0 {
      assert fields[0].0 != fields[k].0;
      assert UniqueKeys(fields[1..]) by {
        forall i, j | 0 <= i < j < |fields| - 1 ensures fields[1..][i].0 != fields[1..][j].0 {
          assert fields[1..][i] == fields[i + 1] && fields[1..][j] == fields[j + 1];
        }
      }
      LookupUnique(fields[1..], k - 1);
    }
  }

  lemma {:induction false} FieldVisited(obj: Json, base: NodePath, from: nat, n: Json, p: NodePath) returns (k: nat)
    requires obj.Obj? && from <= |obj.fields| && (n, p) in FieldVisits(obj, base, from)
    ensures from <= k < |obj.fields| && (n, p) in Visits(obj.fields[k].1, base + [K(obj.fields[k].0)])
    decreases |obj.fields| - from
  {
    if (n, p) in Visits(obj.fields[from].1, base + [K(obj.fields[from].0)]) {
      k := from;
    } else {
      k := FieldVisited(obj, base, from + 1, n, p);
    }
  }

  lemma {:induction false} ItemVisited(obj: Json, base: NodePath, from: nat, n: Json, p: NodePath) returns (k: nat)
    requires obj.Arr? && from <= |obj.items| && (n, p) in ItemVisits(obj, base, from)
    ensures from <= k < |obj.items| && (n, p) in Visits(obj.items[k], base + [I(k)])
    decreases |obj.items| - from
  {
    if (n, p) in Visits(obj.items[from], base + [I(from)]) {
      k := from;
    } else {
      k := ItemVisited(obj, base, from + 1, n, p);
    }
  }

  lemma {:induction false} ReachedIsVisited(obj: Json, base: NodePath, q: NodePath, n: Json)
    requires Sub(obj, q) == Some(n)
    ensures (n, base + q) in Visits(obj, base)
    decreases |q|
  {
    if |q| == 0 {
      assert base + q == base && n == obj;
    } else {
      assert base + q == (base + [q[0]]) + q[1..];
      match obj {
        case Obj(fields) =>
          var k := LookupIndex(fields, q[0].name);
          ReachedIsVisited(fields[k].1, base + [q[0]], q[1..], n);
          FieldVisitContributes(obj, base, 0, k, n, base + q);
        case Arr(items) =>
          ReachedIsVisited(items[q[0].index], base + [q[0]], q[1..], n);
          ItemVisitContributes(obj, base, 0, q[0].index, n, base + q);
      }
    }
  }

  /** The field a successful lookup found. */
  lemma {:induction false} LookupIndex(fields: seq<(string, Json)>, key: string) returns (k: nat)
    requires Lookup(fields, key).Some?
    ensures k < |fields| && fields[k].0 == key && Lookup(fields, key) == Some(fields[k].1)
  {
    if fields[0].0 == key {
      k := 0;
    } else {
      var j := LookupIndex(fields[1..], key);
      k := j + 1;
    }
  }

  lemma {:induction false} FieldVisitContributes(obj: Json, base: NodePath, from: nat, k: nat, n: Json, p: NodePath)
    requires obj.Obj? && from <= k < |obj.fields|
    requires (n, p) in Visits(obj.fields[k].1, base + [K(obj.fields[k].0)])
    ensures (n, p) in FieldVisits(obj, base, from)
    decreases k - from
  {
    if from < k {
      FieldVisitContributes(obj, base, from + 1, k, n, p);
    }
  }

  lemma {:induction false} ItemVisitContributes(obj: Json, base: NodePath, from: nat, k: nat, n: Json, p: NodePath)
    requires obj.Arr? && from <= k < |obj.items|
    requires (n, p) in Visits(obj.items[k], base + [I(k)])
    ensures (n, p) in ItemVisits(obj, base, from)
    decreases k - from
  {
    if from < k {
      ItemVisitContributes(obj, base, from + 1, k, n, p);
    }
  }
}
