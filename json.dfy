/** JSON/YAML values as the scripts see them after `json.load` or a YAML load,
    and the dynamically typed Python operations the scripts apply to them.
    An object keeps its keys in insertion order, as a Python `dict` does. */
module Json {
  import opened Text

  datatype Json =
    | Null
    | Bool(b: bool)
    | Int(i: int)
    | Num(r: real)
    | Str(s: string)
    | Arr(items: seq<Json>)
    | Obj(fields: seq<(string, Json)>)

  /** The Python exception a step raises; the scripts never catch these. */
  datatype Fault =
    | KeyError | IndexError | TypeError | ValueError | AttributeError
    | StopIteration | AssertionError | NotImplementedError | UnboundLocalError
    | FileNotFoundError
    | RecursionLimit
    | Unmodelled  // a Python behaviour of dynamic typing this model does not reproduce

  datatype Result<T> = Ok(value: T) | Err(fault: Fault) {
    predicate IsFailure() { Err? }
    function PropagateFailure<U>(): Result<U> requires Err? { Err(fault) }
    function Extract(): T requires Ok? { value }
  }

  // ---- dict fields ---------------------------------------------------

  function Keys<V>(fs: seq<(string, V)>): (ks: seq<string>)
    ensures |ks| == |fs|
  {
    if |fs| == 0 then [] else [fs[0].0] + Keys(fs[1..])
  }

  /** The keys of a dict are its fields' names, in order. */
  lemma {:induction false} KeysAt<V>(fs: seq<(string, V)>, i: nat)
    requires i < |fs|
    ensures Keys(fs)[i] == fs[i].0
  {
    if i > 0 {
      KeysAt(fs[1..], i - 1);
    }
  }

  predicate UniqueKeys<V>(fs: seq<(string, V)>) {
    forall i, j :: 0 <= i < j < |fs| ==> fs[i].0 != fs[j].0
  }

  /** Dropping the last field keeps the other keys; in a dict they stay distinct and the last key
      is not among them. */
  lemma KeysInit<V>(fs: seq<(string, V)>)
    requires |fs| > 0
    ensures forall x :: x in Keys(fs[..|fs| - 1]) ==> x in Keys(fs)
    ensures UniqueKeys(fs) ==> UniqueKeys(fs[..|fs| - 1]) && fs[|fs| - 1].0 !in Keys(fs[..|fs| - 1])
  {
    var init := fs[..|fs| - 1];
    forall i | 0 <= i < |init| ensures Keys(init)[i] == Keys(fs)[i] && Keys(init)[i] == fs[i].0 {
      KeysAt(init, i);
      KeysAt(fs, i);
    }
    if UniqueKeys(fs) {
      forall i, j | 0 <= i < j < |init| ensures init[i].0 != init[j].0 {
        assert init[i] == fs[i] && init[j] == fs[j];
      }
    }
  }

  /** `d[k]` on a dict: the value under the first field named `k`. */
  function Lookup<V>(fs: seq<(string, V)>, k: string): (r: Option<V>)
    ensures r.None? <==> k !in Keys(fs)
  {
    if |fs| == 0 then None
    else if fs[0].0 == k then Some(fs[0].1)
    else
      assert Keys(fs) == [fs[0].0] + Keys(fs[1..]);
      Lookup(fs[1..], k)
  }

  /** `d[k] = v` on a dict: an existing key keeps its position, a new key goes last. */
  function Put<V>(fs: seq<(string, V)>, k: string, v: V): (r: seq<(string, V)>)
    ensures k !in Keys(fs) ==> r == fs + [(k, v)]
    ensures k in Keys(fs) ==> |r| == |fs| && Keys(r) == Keys(fs)
  {
    if |fs| == 0 then [(k, v)]
    else if fs[0].0 == k then
      var r := [(k, v)] + fs[1..];
      assert r[1..] == fs[1..];
      r
    else
      assert Keys(fs) == [fs[0].0] + Keys(fs[1..]);
      var rest := Put(fs[1..], k, v);
      var r := [fs[0]] + rest;
      assert r[1..] == rest;
      r
  }

  /** After `d[k] = v`, `d[k]` is `v` and every other key reads as before. */
  lemma {:induction false} LookupPut<V>(fs: seq<(string, V)>, k: string, v: V, k': string)
    ensures Lookup(Put(fs, k, v), k') == if k' == k then Some(v) else Lookup(fs, k')
  {
    if |fs| > 0 && fs[0].0 != k {
      LookupPut(fs[1..], k, v, k');
      assert Put(fs, k, v)[1..] == Put(fs[1..], k, v);
    }
  }

  /** `d[k] = v` adds exactly `k` to the keys, so dict keys stay distinct. */
  lemma {:induction false} KeysPut<V>(fs: seq<(string, V)>, k: string, v: V)
    ensures forall x :: x in Keys(Put(fs, k, v)) <==> x == k || x in Keys(fs)
    ensures UniqueKeys(fs) ==> UniqueKeys(Put(fs, k, v))
  {
    if |fs| > 0 {
      assert Keys(fs) == [fs[0].0] + Keys(fs[1..]);
      if fs[0].0 != k {
        KeysPut(fs[1..], k, v);
        var r := Put(fs, k, v);
        assert r == [fs[0]] + Put(fs[1..], k, v);
        assert Keys(r) == [fs[0].0] + Keys(Put(fs[1..], k, v));
        if UniqueKeys(fs) {
          assert UniqueKeys(fs[1..]);
          assert fs[0].0 !in Keys(fs[1..]) by {
            forall i | 0 <= i < |fs| - 1 ensures Keys(fs[1..])[i] != fs[0].0 { KeysAt(fs[1..], i); }
          }
          forall i, j | 0 <= i < j < |r| ensures r[i].0 != r[j].0 {
            if i == 0 {
              assert r[j].0 in Keys(Put(fs[1..], k, v)) by {
                assert r[j] == Put(fs[1..], k, v)[j - 1];
                KeysAt(Put(fs[1..], k, v), j - 1);
              }
            } else {
              assert r[i] == Put(fs[1..], k, v)[i - 1] && r[j] == Put(fs[1..], k, v)[j - 1];
            }
          }
        }
      } else {
        var r := Put(fs, k, v);
        assert Keys(r) == [k] + Keys(fs[1..]);
        if UniqueKeys(fs) {
          forall i, j | 0 <= i < j < |r| ensures r[i].0 != r[j].0 {
            assert r[j] == fs[j];
            if i > 0 { assert r[i] == fs[i]; }
          }
        }
      }
    }
  }

  // ---- Python semantics of single operations -------------------------

  /** Truth value of a value in an `if` or `not`. */
  predicate Truthy(j: Json) {
    match j
    case Null => false
    case Bool(b) => b
    case Int(i) => i != 0
    case Num(r) => r != 0.0
    case Str(s) => |s| > 0
    case Arr(xs) => |xs| > 0
    case Obj(fs) => |fs| > 0
  }

  /** `j[k]` with a string key: a missing key raises KeyError; anything but a dict rejects a string index. */
  function Subscript(j: Json, k: string): (r: Result<Json>)
    ensures r.Ok? <==> j.Obj? && k in Keys(j.fields)
    ensures r.Ok? ==> Lookup(j.fields, k) == Some(r.value)
  {
    match j
    case Obj(fs) => (match Lookup(fs, k) case Some(v) => Ok(v) case None => Err(KeyError))
    case _ => Err(TypeError)
  }

  /** `k in j`: key test on a dict, element test on a list, substring test on a str. */
  function Includes(j: Json, k: string): (r: Result<bool>)
    ensures j.Obj? ==> r == Ok(k in Keys(j.fields))
  {
    match j
    case Obj(fs) => Ok(k in Keys(fs))
    case Arr(xs) => Ok(Str(k) in xs)
    case Str(s) => Ok(Text.Contains(s, k))
    case _ => Err(TypeError)
  }

  /** The values a `for` loop over `j` visits: list items, dict keys, or one-character strings. */
  function Iter(j: Json): (r: Result<seq<Json>>)
    ensures j.Arr? ==> r == Ok(j.items)
  {
    match j
    case Arr(xs) => Ok(xs)
    case Obj(fs) => Ok(seq(|fs|, i requires 0 <= i < |fs| => Str(fs[i].0)))
    case Str(s) => Ok(seq(|s|, i requires 0 <= i < |s| => Str([s[i]])))
    case _ => Err(TypeError)
  }

  /** `j.items()`: only a dict has it. */
  function Items(j: Json): (r: Result<seq<(string, Json)>>)
    ensures r.Ok? <==> j.Obj?
  {
    if j.Obj? then Ok(j.fields) else Err(AttributeError)
  }

  /** `j.get(k, default)`: only a dict has it. */
  function DictGet(j: Json, k: string, default: Json): (r: Result<Json>)
    ensures r.Ok? <==> j.Obj?
    ensures j.Obj? && k !in Keys(j.fields) ==> r == Ok(default)
  {
    match j
    case Obj(fs) => (match Lookup(fs, k) case Some(v) => Ok(v) case None => Ok(default))
    case _ => Err(AttributeError)
  }

  /** A value a `str` method (`startswith`, `split`, ...) is called on. */
  function AsStr(j: Json): (r: Result<string>)
    ensures r.Ok? <==> j.Str?
  {
    if j.Str? then Ok(j.s) else Err(AttributeError)
  }

  /** Python `int(j)`: floats truncate toward zero, strings parse as decimal integers. */
  function IntOf(j: Json): (r: Result<int>)
    ensures j.Int? ==> r == Ok(j.i)
  {
    match j
    case Int(i) => Ok(i)
    case Bool(b) => Ok(if b then 1 else 0)
    case Num(x) => Ok(if x >= 0.0 then x.Floor else -((-x).Floor))
    case Str(s) => (match ParseInt(s) case Some(n) => Ok(n) case None => Err(ValueError))
    case _ => Err(TypeError)
  }

  /** Python `j == n` for an integer `n` (a bool or a float can equal an int). */
  predicate EqualsInt(j: Json, n: int) {
    match j
    case Int(i) => i == n
    case Bool(b) => (if b then 1 else 0) == n
    case Num(x) => x == n as real
    case _ => false
  }

  /** The text an f-string prints for a value. Floats and containers are not modelled. */
  function Format(j: Json): (r: Result<string>)
    ensures j.Str? ==> r == Ok(j.s)
  {
    match j
    case Str(s) => Ok(s)
    case Int(i) => Ok(IntToString(i))
    case Bool(b) => Ok(if b then "True" else "False")
    case Null => Ok("None")
    case _ => Err(Unmodelled)
  }
}
