/** `pathlib` paths on POSIX as the cloudize scripts use them: an absolute flag and the name
    segments, with `Path(s)` parsing and `str(p)` printing. Symlinks are not consulted:
    resolving a path only makes it absolute and collapses `..` segments. */
module PyPath {
  import opened Text

  datatype Path = Path(absolute: bool, parts: seq<string>)

  /** A segment `Path(s)` keeps: not empty, not `.`, no `/`. */
  predicate IsSegment(s: string) {
    s != "" && s != "." && '/' !in s
  }

  /** Every `pathlib` path value is normal. */
  predicate Normal(p: Path) {
    forall i :: 0 <= i < |p.parts| ==> IsSegment(p.parts[i])
  }

  /** `Path.resolve()` gives an absolute path without `..`. */
  predicate Resolved(p: Path) {
    p.absolute && Normal(p) && forall i :: 0 <= i < |p.parts| ==> p.parts[i] != ".."
  }

  /** The pieces between separators that `Path(s)` keeps. */
  function Segments(pieces: seq<string>): (r: seq<string>)
    requires forall k :: 0 <= k < |pieces| ==> '/' !in pieces[k]
    ensures forall i :: 0 <= i < |r| ==> IsSegment(r[i])
  {
    if |pieces| == 0 then []
    else if pieces[0] == "" || pieces[0] == "." then Segments(pieces[1..])
    else [pieces[0]] + Segments(pieces[1..])
  }

  lemma {:induction false} SegmentsConcat(a: seq<string>, b: seq<string>)
    requires forall k :: 0 <= k < |a| ==> '/' !in a[k]
    requires forall k :: 0 <= k < |b| ==> '/' !in b[k]
    ensures Segments(a + b) == Segments(a) + Segments(b)
  {
    if |a| > 0 {
      assert (a + b)[1..] == a[1..] + b;
      SegmentsConcat(a[1..], b);
    } else {
      assert a + b == b;
    }
  }

  lemma {:induction false} SegmentsKeep(parts: seq<string>)
    requires forall k :: 0 <= k < |parts| ==> parts[k] != "" && parts[k] != "." && '/' !in parts[k]
    ensures Segments(parts) == parts
  {
    if |parts| > 0 {
      SegmentsKeep(parts[1..]);
    }
  }

  /** `Path(s)`: absolute when `s` starts with `/`; empty and `.` segments are dropped. */
  function Parse(s: string): (p: Path)
    ensures Normal(p)
  {
    Path(|s| > 0 && s[0] == '/', Segments(Split(s, '/')))
  }

  /** `str(p)`. */
  function ToStr(p: Path): string {
    if p.absolute then "/" + Join(p.parts, '/')
    else if |p.parts| == 0 then "."
    else Join(p.parts, '/')
  }

  /** Printing a path and parsing the text gives the path back. */
  lemma {:induction false} ParsePrinted(p: Path)
    requires Normal(p)
    ensures Parse(ToStr(p)) == p
  {
    var j := Join(p.parts, '/');
    if |p.parts| > 0 {
      SplitJoin(p.parts, '/');
      SegmentsKeep(p.parts);
    }
    if p.absolute {
      assert ("/" + j)[1..] == j;
      assert Split("/" + j, '/') == [""] + Split(j, '/');
    } else if |p.parts| == 0 {
      SplitNoSep(".", '/');
    } else {
      JoinStartsWithFirst(p.parts, '/');
      assert j[0] == p.parts[0][0];
    }
  }

  /** `Path(f"{a}/{b}")` for a non-empty `a`: the segments of `a`, then those of `b`. */
  lemma {:induction false} ParseJoined(a: string, b: string)
    requires |a| > 0
    ensures Parse(a + "/" + b) == Path(Parse(a).absolute, Parse(a).parts + Parse(b).parts)
  {
    assert a + "/" + b == a + ['/'] + b;
    SplitConcat(a, '/', b);
    SegmentsConcat(Split(a, '/'), Split(b, '/'));
    assert (a + "/" + b)[0] == a[0];
  }

  /** `Path(f"{p}/{name}")` for a segment `name` appends it. */
  lemma ParseChild(p: Path, name: string)
    requires Normal(p) && IsSegment(name)
    ensures Parse(ToStr(p) + "/" + name) == Path(p.absolute, p.parts + [name])
  {
    if !p.absolute && |p.parts| > 0 {
      JoinStartsWithFirst(p.parts, '/');
    }
    assert |ToStr(p)| > 0;
    ParseJoined(ToStr(p), name);
    ParsePrinted(p);
    SplitNoSep(name, '/');
    SegmentsKeep([name]);
  }

  /** Text appended to a printed path extends its last segment. */
  lemma {:induction false} ToStrExtendsLast(p: Path, suffix: string)
    requires |p.parts| > 0
    ensures ToStr(p) + suffix ==
      ToStr(Path(p.absolute, p.parts[..|p.parts| - 1] + [p.parts[|p.parts| - 1] + suffix]))
  {
    var init := p.parts[..|p.parts| - 1];
    var name := p.parts[|p.parts| - 1];
    assert p.parts == init + [name];
    var j := Join(p.parts, '/');
    var j' := Join(init + [name + suffix], '/');
    assert j + suffix == j' by {
      if |init| > 0 {
        JoinSnoc(init, '/', name);
        JoinSnoc(init, '/', name + suffix);
      } else {
        assert init + [name + suffix] == [name + suffix];
      }
    }
    if p.absolute {
      assert "/" + j + suffix == "/" + (j + suffix);
    }
  }

  // ---- name, parent, stem, suffix -------------------------------------

  /** `p.name`: the last segment, or `""` for `/` and `.`. */
  function Name(p: Path): string {
    if |p.parts| == 0 then "" else p.parts[|p.parts| - 1]
  }

  /** `p.parent`: the path without its last segment; `/` and `.` are their own parents. */
  function Parent(p: Path): (r: Path)
    ensures Normal(p) ==> Normal(r)
  {
    if |p.parts| == 0 then p else Path(p.absolute, p.parts[..|p.parts| - 1])
  }

  /** The position of the dot that starts `p.suffix`: the last dot, unless it is the first or
      the last character of the name. */
  function SuffixDot(name: string): (r: Option<nat>)
    ensures r.Some? ==> 0 < r.value < |name| - 1 && name[r.value] == '.'
  {
    match LastIndexOf(name, '.')
    case Some(i) => if 0 < i < |name| - 1 then Some(i) else None
    case None => None
  }

  /** `p.suffix`. */
  function Suffix(p: Path): string {
    var n := Name(p);
    match SuffixDot(n)
    case Some(i) => n[i..]
    case None => ""
  }

  /** `p.stem`. */
  function Stem(p: Path): string {
    var n := Name(p);
    match SuffixDot(n)
    case Some(i) => n[..i]
    case None => n
  }

  /** The stem and the suffix make up the name; the suffix is a dot and dot-free text; the stem
      of a segment is not empty and holds no `/`. */
  lemma StemAndSuffix(p: Path)
    ensures Stem(p) + Suffix(p) == Name(p)
    ensures |Suffix(p)| > 0 ==> Suffix(p)[0] == '.' && '.' !in Suffix(p)[1..]
    ensures Normal(p) && |p.parts| > 0 ==> Stem(p) != "" && '/' !in Stem(p)
  {
    var n := Name(p);
    match SuffixDot(n) {
      case Some(i) =>
        assert LastIndexOf(n, '.') == Some(i);
        assert Suffix(p)[1..] == n[i + 1..];
        assert n[..i] + n[i..] == n;
      case None =>
    }
  }

  /** `p.is_absolute()`. */
  predicate IsAbsolute(p: Path) {
    p.absolute
  }

  // ---- resolve, parents, relative_to ----------------------------------

  /** Lexical `..` removal: `..` drops the segment before it, and stays at the root. */
  function Collapse(parts: seq<string>): (r: seq<string>)
    ensures forall i :: 0 <= i < |r| ==> r[i] != ".."
    ensures (forall k :: 0 <= k < |parts| ==> IsSegment(parts[k])) ==> forall i :: 0 <= i < |r| ==> IsSegment(r[i])
  {
    if |parts| == 0 then []
    else
      var init := Collapse(parts[..|parts| - 1]);
      var last := parts[|parts| - 1];
      if last == ".." then (if |init| > 0 then init[..|init| - 1] else [])
      else init + [last]
  }

  /** Without `..` there is nothing to collapse. */
  lemma {:induction false} CollapseKeeps(parts: seq<string>)
    requires forall i :: 0 <= i < |parts| ==> parts[i] != ".."
    ensures Collapse(parts) == parts
  {
    if |parts| > 0 {
      CollapseKeeps(parts[..|parts| - 1]);
    }
  }

  /** `p.resolve()` from the working directory `cwd`. */
  function Resolve(cwd: Path, p: Path): (r: Path)
    ensures r.absolute
    ensures Resolved(cwd) && Normal(p) ==> Resolved(r)
  {
    Path(true, Collapse(if p.absolute then p.parts else cwd.parts + p.parts))
  }

  /** Resolving a resolved path changes nothing. */
  lemma ResolveResolved(cwd: Path, p: Path)
    requires Resolved(cwd) && Resolved(p)
    ensures Resolve(cwd, p) == p
  {
    CollapseKeeps(p.parts);
  }

  /** `set(p.parents)` of a resolved path: each proper prefix, down to `/`. */
  function Parents(p: Path): set<Path> {
    set k | 0 <= k < |p.parts| :: Path(true, p.parts[..k])
  }

  /** A path's parents are the absolute paths whose segments are a proper prefix of its own. */
  lemma ParentsAre(p: Path, a: Path)
    ensures a in Parents(p) <==>
      (a.absolute && |a.parts| < |p.parts| && p.parts[..|a.parts|] == a.parts)
  {
    if a.absolute && |a.parts| < |p.parts| && p.parts[..|a.parts|] == a.parts {
      assert a == Path(true, p.parts[..|a.parts|]);
    }
  }

  /** The text of an ancestor gets longer the deeper it lies. */
  lemma {:induction false} DeeperIsLonger(parts: seq<string>, k: nat, m: nat)
    requires k < m <= |parts| && forall i :: 0 <= i < |parts| ==> IsSegment(parts[i])
    ensures |ToStr(Path(true, parts[..k]))| < |ToStr(Path(true, parts[..m]))|
    decreases m - k
  {
    if k + 1 < m {
      DeeperIsLonger(parts, k, m - 1);
    }
    var q := parts[..m - 1];
    assert parts[..m] == q + [parts[m - 1]];
    if |q| > 0 {
      JoinSnoc(q, '/', parts[m - 1]);
    } else {
      assert parts[..m] == [parts[m - 1]];
    }
  }
}
