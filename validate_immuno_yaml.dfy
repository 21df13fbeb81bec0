/** Checks of an immuno workflow's YAML input: FASTQ mate naming, read-group fields, the file
    paths it mentions, and line scans of its text for list items that were commented out in a
    way that leaves a key empty or active. */
module ValidateImmunoYaml {
  import opened Text
  import opened Json

  // ---- paths -------------------------------------------------------------

  predicate IsGsPath(path: string) { StartsWith(path, "gs://") }

  /** A string the path check collects: a bucket path or an absolute local path. */
  predicate IsFilePath(s: string) { StartsWith(s, "gs://") || StartsWith(s, "/") }

  /** `os.path.basename`: the text after the last `/`. */
  function Basename(path: string): (r: string)
    ensures '/' !in r
  {
    LastPiece(path, '/')
  }

  /** A name inside a directory has that name as its basename. */
  lemma BasenameOf(dir: string, name: string)
    requires '/' !in name
    ensures Basename(dir + "/" + name) == name
    ensures Basename(name) == name
  {
    LastPieceAfter(dir, '/', name);
  }

  // ---- FASTQ mates -------------------------------------------------------

  /** The mate suffixes tried in order, read 1 with read 2. */
  const MateSuffixes: seq<(string, string)> := [
    ("_1.fastq.gz", "_2.fastq.gz"),
    ("_1.fq.gz", "_2.fq.gz"),
    (".R1.fastq.gz", ".R2.fastq.gz"),
    (".R1.fq.gz", ".R2.fq.gz"),
    ("-1.fastq.gz", "-2.fastq.gz"),
    ("-1.fq.gz", "-2.fq.gz")
  ]

  /** Both names end with their suffix, and removing every occurrence of it (not only the
      trailing one) leaves the same stem. */
  predicate SuffixPairMatch(b1: string, b2: string, pair: (string, string))
  {
    |pair.0| > 0 && |pair.1| > 0 && EndsWith(b1, pair.0) && EndsWith(b2, pair.1)
    && Replace(b1, pair.0, "") == Replace(b2, pair.1, "")
  }

  /** Replacing every read-1 marker of the first name by its read-2 marker gives the second. */
  predicate MarkerSwapMatch(b1: string, b2: string)
  {
    Replace(b1, "_1", "_2") == b2 || Replace(b1, "R1", "R2") == b2 || Replace(b1, "-1", "-2") == b2
  }

  /** The loop over the suffix pairs, from the `k`-th on. */
  function SuffixPairFrom(b1: string, b2: string, k: nat): (r: bool)
    requires k <= |MateSuffixes|
    ensures r <==> exists m :: k <= m < |MateSuffixes| && SuffixPairMatch(b1, b2, MateSuffixes[m])
    decreases |MateSuffixes| - k
  {
    if k == |MateSuffixes| then false
    else if EndsWith(b1, MateSuffixes[k].0) && EndsWith(b2, MateSuffixes[k].1)
            && Replace(b1, MateSuffixes[k].0, "") == Replace(b2, MateSuffixes[k].1, "") then true
    else SuffixPairFrom(b1, b2, k + 1)
  }

  /** `is_proper_fastq_pair`: only the basenames are compared. */
  function IsProperFastqPair(fq1: string, fq2: string): (r: bool)
    ensures r <==> (exists m :: 0 <= m < |MateSuffixes| && SuffixPairMatch(Basename(fq1), Basename(fq2), MateSuffixes[m]))
                   || MarkerSwapMatch(Basename(fq1), Basename(fq2))
  {
    var b1 := Basename(fq1);
    var b2 := Basename(fq2);
    SuffixPairFrom(b1, b2, 0) || Replace(b1, "_1", "_2") == b2 || Replace(b1, "R1", "R2") == b2
    || Replace(b1, "-1", "-2") == b2
  }

  /** The directories the mates are in play no part. */
  lemma DirectoriesIgnored(d1: string, b1: string, d2: string, b2: string)
    requires '/' !in b1 && '/' !in b2
    ensures IsProperFastqPair(d1 + "/" + b1, d2 + "/" + b2) == IsProperFastqPair(b1, b2)
  {
    BasenameOf(d1, b1);
    BasenameOf(d2, b2);
  }

  // ---- read-group fields -------------------------------------------------

  /** The characters `[^\t\\]` excludes. */
  predicate IsRgStop(c: char) { c == '\t' || c == '\\' }

  /** `tag` occurs at `i` and is followed by at least one character the group accepts. */
  predicate RgMatchAt(s: string, tag: string, i: nat)
  {
    OccursAt(s, tag, i) && i + |tag| < |s| && !IsRgStop(s[i + |tag|])
  }

  /** The greedy run of accepted characters from `j`. */
  function RgRun(s: string, j: nat): (r: string)
    requires j <= |s|
    ensures j + |r| <= |s| && r == s[j..j + |r|]
    ensures forall k :: 0 <= k < |r| ==> !IsRgStop(r[k])
    ensures j + |r| == |s| || IsRgStop(s[j + |r|])
    decreases |s| - j
  {
    if j == |s| || IsRgStop(s[j]) then "" else [s[j]] + RgRun(s, j + 1)
  }

  /** `re.search` tries the positions from the left: the first one where the pattern matches. */
  function FirstRgMatch(s: string, tag: string, from: nat): (r: Option<nat>)
    ensures r.Some? ==> from <= r.value && RgMatchAt(s, tag, r.value)
    ensures r.Some? ==> forall i :: from <= i < r.value ==> !RgMatchAt(s, tag, i)
    ensures r.None? ==> forall i :: from <= i ==> !RgMatchAt(s, tag, i)
    decreases |s| - from
  {
    if from >= |s| then None
    else if RgMatchAt(s, tag, from) then Some(from)
    else FirstRgMatch(s, tag, from + 1)
  }

  /** `extract_rg_field`: the group of the first match of `FIELD:([^\t\\]+)`. */
  function ExtractRgField(rg: string, field: string): Option<string>
  {
    var tag := field + ":";
    match FirstRgMatch(rg, tag, 0)
    case None => None
    case Some(i) => Some(RgRun(rg, i + |tag|))
  }

  /** The field is None exactly when no `FIELD:` is followed by an accepted character. */
  lemma {:induction false} ExtractRgFieldNone(rg: string, field: string)
    ensures ExtractRgField(rg, field).None? <==> forall i :: !RgMatchAt(rg, field + ":", i)
  {
    var f := FirstRgMatch(rg, field + ":", 0);
    if f.Some? { assert RgMatchAt(rg, field + ":", f.value); }
  }

  /** A field found is the non-empty text after the first such `FIELD:`, up to the next tab or
      backslash. */
  lemma {:induction false} ExtractRgFieldSome(rg: string, field: string)
    requires ExtractRgField(rg, field).Some?
    ensures var v := ExtractRgField(rg, field).value;
      |v| > 0 && (forall k :: 0 <= k < |v| ==> !IsRgStop(v[k]))
      && exists i: nat :: FieldAt(rg, field + ":", i, v)
  {
    var tag := field + ":";
    var i := FirstRgMatch(rg, tag, 0).value;
    var v := RgRun(rg, i + |tag|);
    TagThenRun(rg, tag, i, v);
    assert FieldAt(rg, tag, i, v);
  }

  /** `tag + v` occurs at `i`, and `i` is the first place `tag` matches. */
  predicate FieldAt(rg: string, tag: string, i: nat, v: string)
  {
    RgMatchAt(rg, tag, i) && OccursAt(rg, tag + v, i)
    && forall i' :: 0 <= i' < i ==> !RgMatchAt(rg, tag, i')
  }

  lemma {:induction false} TagThenRun(s: string, tag: string, i: nat, v: string)
    requires RgMatchAt(s, tag, i) && v == RgRun(s, i + |tag|)
    ensures |v| > 0 && OccursAt(s, tag + v, i)
  {
    assert s[i + |tag|] == v[0];
    assert s[i..i + |tag| + |v|] == s[i..i + |tag|] + s[i + |tag|..i + |tag| + |v|];
  }

  /** The run from `j` is `v` when `v` is accepted text that ends at a stop or at the end. */
  lemma {:induction false} RgRunIs(s: string, j: nat, v: string)
    requires j + |v| <= |s| && s[j..j + |v|] == v
    requires forall k :: 0 <= k < |v| ==> !IsRgStop(v[k])
    requires j + |v| == |s| || IsRgStop(s[j + |v|])
    ensures RgRun(s, j) == v
  {
    var r := RgRun(s, j);
    assert forall k :: j <= k < j + |v| ==> !IsRgStop(s[k]) by {
      forall k | j <= k < j + |v| ensures !IsRgStop(s[k]) { assert s[k] == v[k - j]; }
    }
    assert forall k :: j <= k < j + |r| ==> !IsRgStop(s[k]) by {
      forall k | j <= k < j + |r| ensures !IsRgStop(s[k]) { assert s[k] == r[k - j]; }
    }
    assert |r| == |v|;
  }

  /** A read group whose field appears once, in the usual tab-separated form, yields its value. */
  lemma {:induction false} ExtractFromReadGroup(rg: string, pre: string, field: string, value: string, post: string)
    requires rg == pre + field + ":" + value + post
    requires !Contains(pre + field, field + ":")
    requires |value| > 0 && forall k :: 0 <= k < |value| ==> !IsRgStop(value[k])
    requires |post| == 0 || IsRgStop(post[0])
    ensures ExtractRgField(rg, field) == Some(value)
  {
    var tag := field + ":";
    NoMatchBefore(rg, pre, field, value + post);
    ReadGroupLayout(rg, pre, tag, value, post);
    ExtractFirst(rg, field, tag, |pre|, value);
  }

  /** Where the tag and the value sit in the read group. */
  lemma {:induction false} ReadGroupLayout(rg: string, pre: string, tag: string, value: string, post: string)
    requires rg == pre + tag + value + post
    requires |post| == 0 || IsRgStop(post[0])
    ensures OccursAt(rg, tag, |pre|)
    ensures |pre| + |tag| + |value| <= |rg| && rg[|pre| + |tag|..|pre| + |tag| + |value|] == value
    ensures |pre| + |tag| + |value| == |rg| || IsRgStop(rg[|pre| + |tag| + |value|])
  {
    var j := |pre| + |tag|;
    assert rg[|pre|..j] == tag;
    assert rg[j..j + |value|] == value;
    if |post| > 0 { assert rg[j + |value|] == post[0]; }
  }

  /** The value after the first `FIELD:`, when nothing before it matches. */
  lemma {:induction false} ExtractFirst(s: string, field: string, tag: string, at: nat, value: string)
    requires tag == field + ":" && OccursAt(s, tag, at)
    requires forall i :: 0 <= i < at ==> !OccursAt(s, tag, i)
    requires at + |tag| + |value| <= |s| && s[at + |tag|..at + |tag| + |value|] == value
    requires |value| > 0 && forall k :: 0 <= k < |value| ==> !IsRgStop(value[k])
    requires at + |tag| + |value| == |s| || IsRgStop(s[at + |tag| + |value|])
    ensures ExtractRgField(s, field) == Some(value)
  {
    assert s[at + |tag|] == value[0];
    FirstMatchIs(s, tag, at);
    RgRunIs(s, at + |tag|, value);
    ExtractAt(s, field, tag, at);
  }

  lemma {:induction false} ExtractAt(rg: string, field: string, tag: string, i: nat)
    requires tag == field + ":" && FirstRgMatch(rg, tag, 0) == Some(i)
    ensures i + |tag| <= |rg| && ExtractRgField(rg, field) == Some(RgRun(rg, i + |tag|))
  {
  }

  /** No `FIELD:` starts inside the text before the field's own occurrence. */
  lemma {:induction false} NoMatchBefore(s: string, pre: string, field: string, rest: string)
    requires s == pre + field + ":" + rest
    requires !Contains(pre + field, field + ":")
    ensures forall i :: 0 <= i < |pre| ==> !OccursAt(s, field + ":", i)
  {
    var x := pre + field;
    var tag := field + ":";
    assert s == x + ":" + rest;
    forall i | 0 <= i < |pre| ensures !OccursAt(s, tag, i) {
      assert !OccursAt(x, tag, i);
      if i + |tag| <= |s| {
        assert s[i..i + |tag|] == x[i..i + |tag|];
      }
    }
  }

  lemma {:induction false} FirstMatchIs(s: string, tag: string, at: nat)
    requires RgMatchAt(s, tag, at)
    requires forall i :: 0 <= i < at ==> !OccursAt(s, tag, i)
    ensures FirstRgMatch(s, tag, 0) == Some(at)
  {
    var f := FirstRgMatch(s, tag, 0);
    assert f.Some? && f.value <= at;
    assert !(f.value < at) by { assert RgMatchAt(s, tag, f.value); }
  }

  // ---- the keys of the immuno section ----------------------------------

  const ImmunoPrefix := "immuno."

  /** The top-level keys that start with `immuno.`, with that prefix removed, in order; a later
      key overwrites an earlier one that strips to the same name. */
  function StripPrefixed(fields: seq<(string, Json)>): (r: seq<(string, Json)>)
  {
    if |fields| == 0 then []
    else
      var (k, v) := fields[|fields| - 1];
      var before := StripPrefixed(fields[..|fields| - 1]);
      if StartsWith(k, ImmunoPrefix) then Put(before, k[|ImmunoPrefix|..], v) else before
  }

  /** The dict comprehension over `data.items()`: only a dict has items. */
  function ImmunoSection(data: Json): (r: Result<seq<(string, Json)>>)
    ensures r.Ok? <==> data.Obj?
  {
    if data.Obj? then Ok(StripPrefixed(data.fields)) else Err(AttributeError)
  }

  /** The section holds exactly the prefixed keys, stripped, each with its own value (top-level
      keys of a loaded document are distinct). */
  lemma {:induction false} StripPrefixedLookup(fields: seq<(string, Json)>, name: string)
    requires UniqueKeys(fields)
    ensures Lookup(StripPrefixed(fields), name) == Lookup(fields, ImmunoPrefix + name)
    ensures UniqueKeys(StripPrefixed(fields))
  {
    if |fields| > 0 {
      var n := |fields| - 1;
      var (k, v) := fields[n];
      var pre := fields[..n];
      assert UniqueKeys(pre);
      StripPrefixedLookup(pre, name);
      LookupSnoc(pre, k, v, ImmunoPrefix + name);
      assert fields == pre + [(k, v)];
      if StartsWith(k, ImmunoPrefix) {
        LookupPut(StripPrefixed(pre), k[|ImmunoPrefix|..], v, name);
        KeysPut(StripPrefixed(pre), k[|ImmunoPrefix|..], v);
        assert k == ImmunoPrefix + k[|ImmunoPrefix|..];
      } else {
        assert k != ImmunoPrefix + name by { assert (ImmunoPrefix + name)[..|ImmunoPrefix|] == ImmunoPrefix; }
      }
      if ImmunoPrefix + name in Keys(pre) {
        LookupNotLast(pre, k, ImmunoPrefix + name);
      }
    }
  }

  /** Looking a key up in a dict with one more field at the end. */
  lemma {:induction false} LookupSnoc(fs: seq<(string, Json)>, k: string, v: Json, q: string)
    ensures Lookup(fs + [(k, v)], q) == if q in Keys(fs) then Lookup(fs, q) else if q == k then Some(v) else None
  {
    if |fs| > 0 {
      assert (fs + [(k, v)])[1..] == fs[1..] + [(k, v)];
      assert Keys(fs) == [fs[0].0] + Keys(fs[1..]);
      LookupSnoc(fs[1..], k, v, q);
    } else {
      assert Keys(fs) == [];
    }
  }

  /** With distinct keys, a key already present is not the last one. */
  lemma LookupNotLast(fs: seq<(string, Json)>, k: string, q: string)
    requires UniqueKeys(fs + [(k, Null)]) && q in Keys(fs)
    ensures q != k
  {
    var i :| 0 <= i < |fs| && Keys(fs)[i] == q;
    KeysAt(fs, i);
    assert (fs + [(k, Null)])[i] == fs[i] && (fs + [(k, Null)])[|fs|] == (k, Null);
  }

  // ---- duplicates --------------------------------------------------------

  /** `set(p for p in paths if paths.count(p) > 1)`. */
  function Duplicates(paths: seq<string>): set<string>
  {
    set p | p in paths && multiset(paths)[p] > 1
  }

  /** A path is a duplicate exactly when it occurs at two different positions. */
  lemma {:induction false} DuplicatesAreRepeats(paths: seq<string>, p: string)
    ensures p in Duplicates(paths) <==> exists i, j :: 0 <= i < j < |paths| && paths[i] == p && paths[j] == p
  {
    if exists i, j :: 0 <= i < j < |paths| && paths[i] == p && paths[j] == p {
      var i, j :| 0 <= i < j < |paths| && paths[i] == p && paths[j] == p;
      assert paths == paths[..i] + [p] + paths[i + 1..j] + [p] + paths[j + 1..];
      assert multiset(paths)[p] >= 2;
    }
    if p in Duplicates(paths) {
      TwoPositions(paths, p);
    }
  }

  lemma {:induction false} TwoPositions(s: seq<string>, p: string)
    requires multiset(s)[p] > 1
    ensures exists i, j :: 0 <= i < j < |s| && s[i] == p && s[j] == p
  {
    assert s == [s[0]] + s[1..];
    if s[0] == p {
      assert multiset(s[1..])[p] > 0;
      var j :| 0 <= j < |s[1..]| && s[1..][j] == p;
      assert s[j + 1] == p;
    } else {
      TwoPositions(s[1..], p);
      var i, j :| 0 <= i < j < |s[1..]| && s[1..][i] == p && s[1..][j] == p;
      assert s[i + 1] == p && s[j + 1] == p;
    }
  }

  // ---- line checks -------------------------------------------------------

  /** `len(line) - len(line.lstrip())`, the width of the leading whitespace. */
  function Indent(line: string): nat { SkipSpaces(line, 0) }

  /** `^\s*immuno\.`. */
  predicate ImmunoLine(line: string) { OccursAt(line, ImmunoPrefix, Indent(line)) }

  /** `^\s*-\s+\S`: a dash, then whitespace, then something that is not whitespace. */
  predicate ItemLine(line: string)
  {
    var i := Indent(line);
    i + 1 < |line| && line[i] == '-' && IsSpace(line[i + 1]) && SkipSpaces(line, i + 1) < |line|
  }

  /** `^\s*\w`. */
  predicate StartsWordChar(line: string)
  {
    Indent(line) < |line| && IsWordChar(line[Indent(line)])
  }

  const AminoKey := "immuno.problematic_amino_acids"

  /** `#\s*immuno\.problematic_amino_acids\s*:` at the start of the line. */
  predicate CommentedAminoKey(line: string)
  {
    |line| > 0 && line[0] == '#' &&
    var i := SkipSpaces(line, 1);
    OccursAt(line, AminoKey, i) && var k := SkipSpaces(line, i + |AminoKey|); k < |line| && line[k] == ':'
  }

  /** The end of the run of word characters that starts at `from`. */
  function WordEnd(s: string, from: nat): (n: nat)
    requires from <= |s|
    ensures from <= n <= |s|
    decreases |s| - from
  {
    if from < |s| && IsWordChar(s[from]) then WordEnd(s, from + 1) else from
  }

  /** `^\s*immuno\.\w+:\s*$`: an active key with nothing after its colon. */
  predicate BareKeyLine(line: string)
  {
    var i := Indent(line);
    OccursAt(line, ImmunoPrefix, i) &&
    var w := WordEnd(line, i + |ImmunoPrefix|);
    i + |ImmunoPrefix| < w < |line| && line[w] == ':' && SkipSpaces(line, w + 1) == |line|
  }

  // `check_commenting_issues`

  /** The first line at or after `j` that starts with `immuno.` after its indentation, or `|lines|`. */
  function NextImmunoLine(lines: seq<string>, j: nat): (e: nat)
    requires j <= |lines|
    ensures j <= e <= |lines| && (e < |lines| ==> ImmunoLine(lines[e]))
    ensures forall m :: j <= m < e ==> !ImmunoLine(lines[m])
    decreases |lines| - j
  {
    if j == |lines| || ImmunoLine(lines[j]) then j else NextImmunoLine(lines, j + 1)
  }

  /** The inner loop: the first list item from `j` on, before the next `immuno.` line. */
  function FirstItemBefore(lines: seq<string>, j: nat): (r: Option<nat>)
    requires j <= |lines|
    ensures r.Some? ==> j <= r.value < |lines|
    decreases |lines| - j
  {
    if j == |lines| || ImmunoLine(lines[j]) then None
    else if ItemLine(lines[j]) then Some(j)
    else FirstItemBefore(lines, j + 1)
  }

  /** The item found is the first list item before the next `immuno.` line; none is found when
      there is no list item before it. */
  lemma {:induction false} FirstItemBeforeIs(lines: seq<string>, j: nat)
    requires j <= |lines|
    ensures var r := FirstItemBefore(lines, j);
      (r.Some? ==> j <= r.value < NextImmunoLine(lines, j) && ItemLine(lines[r.value])
                   && forall m :: j <= m < r.value ==> !ItemLine(lines[m]))
      && (r.None? ==> forall m :: j <= m < NextImmunoLine(lines, j) ==> !ItemLine(lines[m]))
    decreases |lines| - j
  {
    if j < |lines| && !ImmunoLine(lines[j]) && !ItemLine(lines[j]) {
      FirstItemBeforeIs(lines, j + 1);
    }
  }

  /** One printed complaint: the commented key's line number (from 1) and the stripped item. */
  datatype CommentIssue = CommentIssue(keyLine: nat, item: string)

  /** What line `i` adds to the complaints. */
  function IssuesAt(lines: seq<string>, i: nat): seq<CommentIssue>
    requires i < |lines|
  {
    if CommentedAminoKey(lines[i]) then
      match FirstItemBefore(lines, i + 1)
      case Some(j) => [CommentIssue(i + 1, Strip(lines[j]))]
      case None => []
    else []
  }

  /** The complaints about the first `n` lines, in order. */
  function CommentIssues(lines: seq<string>, n: nat): seq<CommentIssue>
    requires n <= |lines|
  {
    if n == 0 then [] else CommentIssues(lines, n - 1) + IssuesAt(lines, n - 1)
  }

  /** `check_commenting_issues`, returning what it prints. */
  method CheckCommentingIssues(yamlText: string) returns (issues: seq<CommentIssue>)
    ensures issues == CommentIssues(SplitLines(yamlText), |SplitLines(yamlText)|)
  {
    var lines := SplitLines(yamlText);
    issues := [];
    var i := 0;
    while i < |lines|
      invariant i <= |lines|
      invariant issues == CommentIssues(lines, i)
    {
      if CommentedAminoKey(lines[i]) {
        var item := FindItem(lines, i + 1);
        if item.Some? {
          issues := issues + [CommentIssue(i + 1, Strip(lines[item.value]))];
        }
      }
      i := i + 1;
    }
  }

  /** The inner `while` of `check_commenting_issues`. */
  method FindItem(lines: seq<string>, start: nat) returns (item: Option<nat>)
    requires start <= |lines|
    ensures item == FirstItemBefore(lines, start)
  {
    var j := start;
    while j < |lines| && !ImmunoLine(lines[j])
      invariant start <= j <= |lines|
      invariant FirstItemBefore(lines, j) == FirstItemBefore(lines, start)
    {
      if ItemLine(lines[j]) {
        return Some(j);
      }
      j := j + 1;
    }
    return None;
  }

  /** A complaint names a commented key exactly when a list item follows it before the next
      `immuno.` line, and then it quotes the first such item. */
  lemma {:induction false} CommentIssuesAre(lines: seq<string>, n: nat, i: nat, item: string)
    requires n <= |lines|
    ensures CommentIssue(i + 1, item) in CommentIssues(lines, n) <==>
      i < n && CommentedAminoKey(lines[i]) && FirstItemBefore(lines, i + 1).Some?
      && item == Strip(lines[FirstItemBefore(lines, i + 1).value])
  {
    CommentIssuesHas(lines, n, i, item);
  }

  lemma {:induction false} CommentIssuesHas(lines: seq<string>, n: nat, i: nat, item: string)
    requires n <= |lines|
    ensures CommentIssue(i + 1, item) in CommentIssues(lines, n) <==>
      i < n && CommentIssue(i + 1, item) in IssuesAt(lines, i)
  {
    if n > 0 {
      var x := CommentIssue(i + 1, item);
      CommentIssuesSnoc(lines, n, x);
      CommentIssuesHas(lines, n - 1, i, item);
      if i == n - 1 {
        CommentIssueLines(lines, n - 1);
        NotBeyond(CommentIssues(lines, n - 1), n - 1, x);
      } else {
        OnlyItsLine(lines, n - 1, x);
      }
    }
  }

  lemma {:induction false} CommentIssuesSnoc(lines: seq<string>, n: nat, x: CommentIssue)
    requires 0 < n <= |lines|
    ensures x in CommentIssues(lines, n) <==> x in CommentIssues(lines, n - 1) || x in IssuesAt(lines, n - 1)
  {
    assert CommentIssues(lines, n) == CommentIssues(lines, n - 1) + IssuesAt(lines, n - 1);
  }

  lemma NotBeyond(issues: seq<CommentIssue>, n: nat, x: CommentIssue)
    requires forall t :: 0 <= t < |issues| ==> issues[t].keyLine <= n
    requires x.keyLine > n
    ensures x !in issues
  {
  }

  lemma {:induction false} OnlyItsLine(lines: seq<string>, i: nat, x: CommentIssue)
    requires i < |lines| && x.keyLine != i + 1
    ensures x !in IssuesAt(lines, i)
  {
  }

  /** The complaints come in line order, so a key gets at most one. */
  lemma {:induction false} CommentIssueLines(lines: seq<string>, n: nat)
    requires n <= |lines|
    ensures forall t :: 0 <= t < |CommentIssues(lines, n)| ==> 1 <= CommentIssues(lines, n)[t].keyLine <= n
    ensures forall s, t :: 0 <= s < t < |CommentIssues(lines, n)| ==>
      CommentIssues(lines, n)[s].keyLine < CommentIssues(lines, n)[t].keyLine
  {
    if n > 0 {
      CommentIssueLines(lines, n - 1);
    }
  }

  // `check_empty_active_keys_with_commented_lists`

  /** A line that ends a key's block: indented no deeper than the key, starting with a word
      character. */
  predicate ClosesBlock(line: string, keyIndent: nat)
  {
    Indent(line) <= keyIndent && StartsWordChar(line)
  }

  /** The first line at or after `j` that closes the block, or `|lines|`. */
  function NextClosing(lines: seq<string>, keyIndent: nat, j: nat): (e: nat)
    requires j <= |lines|
    ensures j <= e <= |lines| && (e < |lines| ==> ClosesBlock(lines[e], keyIndent))
    ensures forall m :: j <= m < e ==> !ClosesBlock(lines[m], keyIndent)
    decreases |lines| - j
  {
    if j == |lines| || ClosesBlock(lines[j], keyIndent) then j else NextClosing(lines, keyIndent, j + 1)
  }

  /** The inner loop: whether a list item comes before the block closes. */
  predicate HasActiveItem(lines: seq<string>, keyIndent: nat, j: nat)
    requires j <= |lines|
    decreases |lines| - j
  {
    if j == |lines| || ClosesBlock(lines[j], keyIndent) then false
    else ItemLine(lines[j]) || HasActiveItem(lines, keyIndent, j + 1)
  }

  /** A list item is found exactly when one comes before the block closes. */
  lemma {:induction false} HasActiveItemIs(lines: seq<string>, keyIndent: nat, j: nat)
    requires j <= |lines|
    ensures HasActiveItem(lines, keyIndent, j) <==>
      exists m :: j <= m < NextClosing(lines, keyIndent, j) && ItemLine(lines[m])
    decreases |lines| - j
  {
    if j < |lines| && !ClosesBlock(lines[j], keyIndent) {
      HasActiveItemIs(lines, keyIndent, j + 1);
    }
  }

  /** Line `i` is a bare active key whose block holds no list item. */
  predicate EmptyActiveKey(lines: seq<string>, i: nat)
    requires i < |lines|
  {
    BareKeyLine(lines[i]) && !HasActiveItem(lines, Indent(lines[i]), i + 1)
  }

  /** The indices, among the first `n` lines, of the keys that are reported. */
  function EmptyActiveKeys(lines: seq<string>, n: nat): (r: seq<nat>)
    requires n <= |lines|
    ensures forall t :: 0 <= t < |r| ==> r[t] < n
  {
    if n == 0 then [] else EmptyActiveKeys(lines, n - 1) + (if EmptyActiveKey(lines, n - 1) then [n - 1] else [])
  }

  /** The stripped text of the lines `ks`. */
  function KeyTexts(lines: seq<string>, ks: seq<nat>): (r: seq<string>)
    requires forall t :: 0 <= t < |ks| ==> ks[t] < |lines|
    ensures |r| == |ks| && forall t :: 0 <= t < |ks| ==> r[t] == Strip(lines[ks[t]])
  {
    seq(|ks|, t requires 0 <= t < |ks| => Strip(lines[ks[t]]))
  }

  /** `check_empty_active_keys_with_commented_lists`, returning the stripped key lines it prints. */
  method CheckEmptyActiveKeys(yamlText: string) returns (keys: seq<string>)
    ensures var lines := SplitLines(yamlText); keys == KeyTexts(lines, EmptyActiveKeys(lines, |lines|))
  {
    var lines := SplitLines(yamlText);
    keys := [];
    var i := 0;
    while i < |lines|
      invariant i <= |lines|
      invariant keys == KeyTexts(lines, EmptyActiveKeys(lines, i))
    {
      var report := CheckKey(lines, i);
      keys := keys + report;
      i := i + 1;
    }
  }

  /** One pass of the outer loop. */
  method CheckKey(lines: seq<string>, i: nat) returns (report: seq<string>)
    requires i < |lines|
    ensures report == if EmptyActiveKey(lines, i) then [Strip(lines[i])] else []
  {
    report := [];
    var line := lines[i];
    if BareKeyLine(line) {
      var keyLine := Strip(line);
      var keyIndent := |line| - |LStrip(line)|;
      LStripSkips(line);
      var hasActiveItem := ScanBlock(lines, keyIndent, i + 1);
      if !hasActiveItem {
        report := [keyLine];
      }
    }
  }

  /** The inner `while`: stops at a closing line or at the first list item. */
  method ScanBlock(lines: seq<string>, keyIndent: nat, start: nat) returns (hasActiveItem: bool)
    requires start <= |lines|
    ensures hasActiveItem == HasActiveItem(lines, keyIndent, start)
  {
    hasActiveItem := false;
    var j := start;
    while j < |lines|
      invariant start <= j <= |lines|
      invariant HasActiveItem(lines, keyIndent, j) == HasActiveItem(lines, keyIndent, start)
    {
      var nextLine := lines[j];
      if Indent(nextLine) <= keyIndent && StartsWordChar(nextLine) {
        break;
      }
      if ItemLine(nextLine) {
        hasActiveItem := true;
        break;
      }
      j := j + 1;
    }
  }

  /** A key line is reported exactly when it is a bare active key and no list item comes before
      the next line at its indentation or shallower that starts with a word character. */
  lemma {:induction false} EmptyActiveKeysAre(lines: seq<string>, n: nat, i: nat)
    requires n <= |lines|
    ensures i in EmptyActiveKeys(lines, n) <==>
      i < n && BareKeyLine(lines[i])
      && !exists m :: i + 1 <= m < NextClosing(lines, Indent(lines[i]), i + 1) && ItemLine(lines[m])
  {
    EmptyActiveKeysHas(lines, n, i);
    if i < n {
      EmptyActiveKeyIs(lines, i);
    }
  }

  lemma {:induction false} EmptyActiveKeyIs(lines: seq<string>, i: nat)
    requires i < |lines|
    ensures EmptyActiveKey(lines, i) <==>
      (BareKeyLine(lines[i])
       && !exists m :: i + 1 <= m < NextClosing(lines, Indent(lines[i]), i + 1) && ItemLine(lines[m]))
  {
    HasActiveItemIs(lines, Indent(lines[i]), i + 1);
  }

  lemma {:induction false} EmptyActiveKeysHas(lines: seq<string>, n: nat, i: nat)
    requires n <= |lines|
    ensures i in EmptyActiveKeys(lines, n) <==> i < n && EmptyActiveKey(lines, i)
  {
    if n > 0 {
      EmptyActiveKeysHas(lines, n - 1, i);
    }
  }

  // `check_commented_blocks`

  /** One entry of the `checks` table. */
  datatype BlockCheck = BlockCheck(name: string, keyword: string, noTextMessage: string, hasTextMessage: string)

  const BlockChecks: seq<BlockCheck> := [
    BlockCheck("problematic_amino_acids", "immuno.problematic_amino_acids:",
               "No problematic amino acids in this run", "Problematic amino acids selected:"),
    BlockCheck("clinical_mhc_classI_alleles", "immuno.clinical_mhc_classI_alleles:",
               "Class I HLA alleles commented out", "Class I HLA alleles selected:"),
    BlockCheck("clinical_mhc_classII_alleles", "immuno.clinical_mhc_classII_alleles:",
               "Class II HLA alleles commented out", "Class II HLA alleles selected:")
  ]

  function NotFoundMessage(c: BlockCheck): string { c.name + " not found in YAML" }

  /** The first line from `from` on that contains the keyword. */
  function FirstLineWith(lines: seq<string>, keyword: string, from: nat): (r: Option<nat>)
    requires from <= |lines|
    ensures r.Some? ==> from <= r.value < |lines| && Contains(lines[r.value], keyword)
                        && forall m :: from <= m < r.value ==> !Contains(lines[m], keyword)
    ensures r.None? ==> forall m :: from <= m < |lines| ==> !Contains(lines[m], keyword)
    decreases |lines| - from
  {
    if from == |lines| then None
    else if Contains(lines[from], keyword) then Some(from)
    else FirstLineWith(lines, keyword, from + 1)
  }

  /** A stripped line that ends the listing. */
  predicate EndsListing(stripped: string) { StartsWith(stripped, "#") || StartsWith(stripped, ImmunoPrefix) }

  /** The first line at or after `j` whose stripped text ends the listing, or `|lines|`. */
  function ListingEnd(lines: seq<string>, j: nat): (e: nat)
    requires j <= |lines|
    ensures j <= e <= |lines| && (e < |lines| ==> EndsListing(Strip(lines[e])))
    ensures forall m :: j <= m < e ==> !EndsListing(Strip(lines[m]))
    decreases |lines| - j
  {
    if j == |lines| || EndsListing(Strip(lines[j])) then j else ListingEnd(lines, j + 1)
  }

  /** The inner `while`: the non-empty stripped lines from `j` on, indented by two spaces. */
  function Listing(lines: seq<string>, j: nat): seq<string>
    requires j <= |lines|
    decreases |lines| - j
  {
    if j == |lines| then []
    else
      var next := Strip(lines[j]);
      if EndsListing(next) then []
      else (if |next| > 0 then ["  " + next] else []) + Listing(lines, j + 1)
  }

  /** What one check adds to the results. */
  function BlockReport(lines: seq<string>, c: BlockCheck): seq<string>
  {
    match FirstLineWith(lines, c.keyword, 0)
    case None => [NotFoundMessage(c)]
    case Some(i) =>
      if StartsWith(Strip(lines[i]), "#") then [c.noTextMessage]
      else [c.hasTextMessage] + Listing(lines, i + 1)
  }

  /** The results of the checks from `c` on, in table order. */
  function BlockReports(lines: seq<string>, checks: seq<BlockCheck>, c: nat): seq<string>
    requires c <= |checks|
    decreases |checks| - c
  {
    if c == |checks| then [] else BlockReport(lines, checks[c]) + BlockReports(lines, checks, c + 1)
  }

  /** `check_commented_blocks`. */
  method CheckCommentedBlocks(yamlText: string) returns (results: seq<string>)
    ensures results == BlockReports(SplitLines(yamlText), BlockChecks, 0)
  {
    results := RunChecks(SplitLines(yamlText), BlockChecks);
  }

  /** The outer `for` over the table. */
  method RunChecks(lines: seq<string>, checks: seq<BlockCheck>) returns (results: seq<string>)
    ensures results == BlockReports(lines, checks, 0)
  {
    results := [];
    var c := 0;
    while c < |checks|
      invariant c <= |checks|
      invariant results + BlockReports(lines, checks, c) == BlockReports(lines, checks, 0)
    {
      var report := ReportBlock(lines, checks[c]);
      results := results + report;
      c := c + 1;
    }
  }

  /** One pass of the outer loop: the scan for the first line holding the keyword. */
  method ReportBlock(lines: seq<string>, check: BlockCheck) returns (report: seq<string>)
    ensures report == BlockReport(lines, check)
  {
    var idx := 0;
    while idx < |lines|
      invariant idx <= |lines|
      invariant FirstLineWith(lines, check.keyword, idx) == FirstLineWith(lines, check.keyword, 0)
    {
      var line := lines[idx];
      if Contains(line, check.keyword) {
        if StartsWith(Strip(line), "#") {
          return [check.noTextMessage];
        }
        var listed := ListBlock(lines, idx + 1);
        return [check.hasTextMessage] + listed;
      }
      idx := idx + 1;
    }
    return [NotFoundMessage(check)];
  }

  /** The innermost `while`: the stripped lines after an active keyword. */
  method ListBlock(lines: seq<string>, start: nat) returns (listed: seq<string>)
    requires start <= |lines|
    ensures listed == Listing(lines, start)
  {
    listed := [];
    var j := start;
    while j < |lines|
      invariant start <= j <= |lines|
      invariant listed + Listing(lines, j) == Listing(lines, start)
    {
      var nextLine := Strip(lines[j]);
      if EndsListing(nextLine) {
        break;
      }
      if |nextLine| > 0 {
        listed := listed + ["  " + nextLine];
      }
      j := j + 1;
    }
  }

  /** The listing holds, indented, exactly the non-empty stripped lines before the first one that
      starts with `#` or `immuno.`. */
  lemma {:induction false} ListingIs(lines: seq<string>, j: nat, x: string)
    requires j <= |lines|
    ensures x in Listing(lines, j) <==>
      exists m :: j <= m < ListingEnd(lines, j) && |Strip(lines[m])| > 0 && x == "  " + Strip(lines[m])
    decreases |lines| - j
  {
    if j < |lines| && !EndsListing(Strip(lines[j])) {
      ListingIs(lines, j + 1, x);
    }
  }

  /** Each check yields one headline, chosen by the first line that mentions its keyword, followed
      only by indented lines, and only an active first mention lists anything. */
  lemma BlockReportShape(lines: seq<string>, c: BlockCheck)
    requires c in BlockChecks
    ensures var r := BlockReport(lines, c);
      |r| >= 1
      && (r[0] == NotFoundMessage(c) <==> forall m :: 0 <= m < |lines| ==> !Contains(lines[m], c.keyword))
      && (r[0] == c.noTextMessage <==>
            exists i :: FirstLineWith(lines, c.keyword, 0) == Some(i) && StartsWith(Strip(lines[i]), "#"))
      && (|r| > 1 ==> r[0] == c.hasTextMessage)
      && forall t :: 1 <= t < |r| ==> StartsWith(r[t], "  ")
  {
    var f := FirstLineWith(lines, c.keyword, 0);
    if f.Some? {
      var i := f.value;
      assert Contains(lines[i], c.keyword);
      if !StartsWith(Strip(lines[i]), "#") {
        ListingIndented(lines, i + 1);
      }
    }
  }

  lemma {:induction false} ListingIndented(lines: seq<string>, j: nat)
    requires j <= |lines|
    ensures forall t :: 0 <= t < |Listing(lines, j)| ==> StartsWith(Listing(lines, j)[t], "  ")
    decreases |lines| - j
  {
    if j < |lines| && !EndsListing(Strip(lines[j])) {
      ListingIndented(lines, j + 1);
      var next := Strip(lines[j]);
      if |next| > 0 { assert ("  " + next)[..2] == "  "; }
    }
  }

  // ---- flatten_file_paths ------------------------------------------------

  /** The string leaves that look like file paths, depth first: dict values and list items in
      order, keys never. */
  function FilePaths(j: Json): seq<string>
    decreases j, 1
  {
    match j
    case Obj(_) => FieldPaths(j, 0)
    case Arr(_) => ItemPaths(j, 0)
    case Str(s) => if IsFilePath(s) then [s] else []
    case _ => []
  }

  /** The paths under the values of a dict from field `from` on. */
  function FieldPaths(j: Json, from: nat): seq<string>
    requires j.Obj? && from <= |j.fields|
    decreases j, 0, |j.fields| - from
  {
    if from == |j.fields| then [] else FilePaths(j.fields[from].1) + FieldPaths(j, from + 1)
  }

  /** The paths under the items of a list from item `from` on. */
  function ItemPaths(j: Json, from: nat): seq<string>
    requires j.Arr? && from <= |j.items|
    decreases j, 0, |j.items| - from
  {
    if from == |j.items| then [] else FilePaths(j.items[from]) + ItemPaths(j, from + 1)
  }

  /** The `paths` list that the nested `recurse` appends to. */
  class PathCollector {
    var paths: seq<string>

    constructor ()
      ensures paths == []
    {
      paths := [];
    }

    /** `recurse(obj)`. */
    method Recurse(obj: Json)
      modifies this
      ensures paths == old(paths) + FilePaths(obj)
      decreases obj, 1
    {
      match obj {
        case Obj(fields) =>
          var k := 0;
          while k < |fields|
            invariant k <= |fields|
            invariant old(paths) + FilePaths(obj) == paths + FieldPaths(obj, k)
          {
            ghost var before := paths;
            Recurse(fields[k].1);
            assert before + FieldPaths(obj, k) == paths + FieldPaths(obj, k + 1);
            k := k + 1;
          }
        case Arr(items) =>
          var k := 0;
          while k < |items|
            invariant k <= |items|
            invariant old(paths) + FilePaths(obj) == paths + ItemPaths(obj, k)
          {
            ghost var before := paths;
            Recurse(items[k]);
            assert before + ItemPaths(obj, k) == paths + ItemPaths(obj, k + 1);
            k := k + 1;
          }
        case Str(s) =>
          if StartsWith(s, "gs://") || StartsWith(s, "/") {
            paths := paths + [s];
          }
        case _ =>
      }
    }
  }

  /** `flatten_file_paths`. */
  method FlattenFilePaths(yamlDict: Json) returns (paths: seq<string>)
    ensures paths == FilePaths(yamlDict)
  {
    var collector := new PathCollector();
    collector.Recurse(yamlDict);
    paths := collector.paths;
  }

  /** Following child positions (a value's position among a dict's fields, or an item's index)
      from the root. */
  function At(j: Json, path: seq<nat>): Option<Json>
    decreases |path|
  {
    if |path| == 0 then Some(j)
    else match j
      case Obj(fields) => if path[0] < |fields| then At(fields[path[0]].1, path[1..]) else None
      case Arr(items) => if path[0] < |items| then At(items[path[0]], path[1..]) else None
      case _ => None
  }

  /** A string is collected exactly when it looks like a file path and some position holds it. */
  lemma CollectedIffLeaf(j: Json, x: string)
    ensures x in FilePaths(j) <==> IsFilePath(x) && exists path :: At(j, path) == Some(Str(x))
  {
    if x in FilePaths(j) {
      CollectedIsLeaf(j, x);
    }
    if IsFilePath(x) && exists path :: At(j, path) == Some(Str(x)) {
      var path :| At(j, path) == Some(Str(x));
      LeafIsCollected(j, path, x);
    }
  }

  lemma {:induction false} CollectedIsLeaf(j: Json, x: string)
    requires x in FilePaths(j)
    ensures IsFilePath(x) && exists path :: At(j, path) == Some(Str(x))
    decreases j, 1
  {
    match j {
      case Obj(fields) =>
        var k := FieldHolding(j, 0, x);
        CollectedIsLeaf(fields[k].1, x);
        var path :| At(fields[k].1, path) == Some(Str(x));
        assert ([k] + path)[1..] == path;
        assert At(j, [k] + path) == Some(Str(x));
      case Arr(items) =>
        var k := ItemHolding(j, 0, x);
        CollectedIsLeaf(items[k], x);
        var path :| At(items[k], path) == Some(Str(x));
        assert ([k] + path)[1..] == path;
        assert At(j, [k] + path) == Some(Str(x));
      case Str(s) =>
        assert At(j, []) == Some(Str(x));
      case _ =>
    }
  }

  /** The field whose value contributed `x`. */
  lemma {:induction false} FieldHolding(j: Json, from: nat, x: string) returns (k: nat)
    requires j.Obj? && from <= |j.fields| && x in FieldPaths(j, from)
    ensures from <= k < |j.fields| && x in FilePaths(j.fields[k].1)
    decreases |j.fields| - from
  {
    if x in FilePaths(j.fields[from].1) {
      k := from;
    } else {
      k := FieldHolding(j, from + 1, x);
    }
  }

  /** The item that contributed `x`. */
  lemma {:induction false} ItemHolding(j: Json, from: nat, x: string) returns (k: nat)
    requires j.Arr? && from <= |j.items| && x in ItemPaths(j, from)
    ensures from <= k < |j.items| && x in FilePaths(j.items[k])
    decreases |j.items| - from
  {
    if x in FilePaths(j.items[from]) {
      k := from;
    } else {
      k := ItemHolding(j, from + 1, x);
    }
  }

  lemma {:induction false} LeafIsCollected(j: Json, path: seq<nat>, x: string)
    requires IsFilePath(x) && At(j, path) == Some(Str(x))
    ensures x in FilePaths(j)
    decreases |path|
  {
    if |path| == 0 {
      assert j == Str(x);
    } else {
      match j {
        case Obj(fields) =>
          LeafIsCollected(fields[path[0]].1, path[1..], x);
          FieldContributes(j, 0, path[0], x);
        case Arr(items) =>
          LeafIsCollected(items[path[0]], path[1..], x);
          ItemContributes(j, 0, path[0], x);
      }
    }
  }

  lemma {:induction false} FieldContributes(j: Json, from: nat, k: nat, x: string)
    requires j.Obj? && from <= k < |j.fields| && x in FilePaths(j.fields[k].1)
    ensures x in FieldPaths(j, from)
    decreases k - from
  {
    if from < k {
      FieldContributes(j, from + 1, k, x);
    }
  }

  lemma {:induction false} ItemContributes(j: Json, from: nat, k: nat, x: string)
    requires j.Arr? && from <= k < |j.items| && x in FilePaths(j.items[k])
    ensures x in ItemPaths(j, from)
    decreases k - from
  {
    if from < k {
      ItemContributes(j, from + 1, k, x);
    }
  }

  /** Keys play no part: a dict yields what the list of its values yields. */
  lemma KeysIgnored(fields: seq<(string, Json)>)
    ensures FilePaths(Obj(fields)) == FilePaths(Arr(seq(|fields|, k requires 0 <= k < |fields| => fields[k].1)))
  {
    var values := seq(|fields|, k requires 0 <= k < |fields| => fields[k].1);
    SameFromHere(Obj(fields), Arr(values), 0);
  }

  lemma {:induction false} SameFromHere(d: Json, l: Json, from: nat)
    requires d.Obj? && l.Arr? && |d.fields| == |l.items| && from <= |d.fields|
    requires forall k :: 0 <= k < |d.fields| ==> d.fields[k].1 == l.items[k]
    ensures FieldPaths(d, from) == ItemPaths(l, from)
    decreases |d.fields| - from
  {
    if from < |d.fields| {
      SameFromHere(d, l, from + 1);
    }
  }
}
