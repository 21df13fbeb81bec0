/** `scripts/pull_outputs.py`: the local files the outputs of a finished workflow are
    downloaded to, and when a download actually runs `gsutil cp`. */
module PullOutputs {
  import opened Text
  import opened Json

  const DefaultOutputsDir := "./outputs"
  const GsScheme := "gs://"

  /** `filename`: the last `/`-separated piece of a path (see `Text.LastPieceAfterLast`). */
  function Filename(path: string): (r: string)
    ensures '/' !in r
  {
    LastPiece(path, '/')
  }

  /** The directory an output is downloaded to: the segment of its key after the last `.`. */
  function OutputName(key: string): (r: string)
    ensures '.' !in r
  {
    LastPiece(key, '.')
  }

  // ---- what `download` finds -------------------------------------------

  /** A `gs://` string `download` reached, with the local directory `path` it was reached with. */
  datatype Leaf = Leaf(dir: string, url: string)

  /** The `gs://` strings under `value` in the order `download` visits them: list items keep the
      directory, dict values extend it with `/<key>`, other strings and values yield nothing. */
  function Leaves(path: string, value: Json): seq<Leaf>
    decreases value, 1
  {
    match value
    case Arr(_) => ItemLeaves(path, value, 0)
    case Obj(_) => FieldLeaves(path, value, 0)
    case Str(s) => if StartsWith(s, GsScheme) then [Leaf(path, s)] else []
    case _ => []
  }

  function ItemLeaves(path: string, value: Json, from: nat): seq<Leaf>
    requires value.Arr? && from <= |value.items|
    decreases value, 0, |value.items| - from
  {
    if from == |value.items| then []
    else Leaves(path, value.items[from]) + ItemLeaves(path, value, from + 1)
  }

  function FieldLeaves(path: string, value: Json, from: nat): seq<Leaf>
    requires value.Obj? && from <= |value.fields|
    decreases value, 0, |value.fields| - from
  {
    if from == |value.fields| then []
    else Leaves(path + "/" + value.fields[from].0, value.fields[from].1) + FieldLeaves(path, value, from + 1)
  }

  /** Following child positions from the root (an item's index, or a value's position among a
      dict's fields), with the text `/<key>` that each dict step adds to the directory. */
  function Reach(value: Json, steps: seq<nat>): Option<(string, Json)>
    decreases |steps|
  {
    if |steps| == 0 then Some(("", value))
    else match value
      case Arr(items) => if steps[0] < |items| then Reach(items[steps[0]], steps[1..]) else None
      case Obj(fields) =>
        if steps[0] < |fields| then
          match Reach(fields[steps[0]].1, steps[1..])
          case Some(found) => Some(("/" + fields[steps[0]].0 + found.0, found.1))
          case None => None
        else None
      case _ => None
  }

  /** `download` reaches a URL with a directory exactly when the URL is a `gs://` string somewhere
      in the value and the directory is `path` followed by the keys of the dicts on the way. */
  lemma LeafIffReached(path: string, value: Json, l: Leaf)
    ensures l in Leaves(path, value) <==>
      (StartsWith(l.url, GsScheme) &&
       exists steps, sub :: Reach(value, steps) == Some((sub, Str(l.url))) && l.dir == path + sub)
  {
    if l in Leaves(path, value) {
      LeafIsReached(path, value, l);
    }
    if StartsWith(l.url, GsScheme) && exists steps, sub :: Reach(value, steps) == Some((sub, Str(l.url))) && l.dir == path + sub {
      var steps, sub :| Reach(value, steps) == Some((sub, Str(l.url))) && l.dir == path + sub;
      ReachedIsLeaf(path, value, steps, sub, l);
    }
  }

  lemma {:induction false} LeafIsReached(path: string, value: Json, l: Leaf)
    requires l in Leaves(path, value)
    ensures StartsWith(l.url, GsScheme)
    ensures exists steps, sub :: Reach(value, steps) == Some((sub, Str(l.url))) && l.dir == path + sub
    decreases value, 1
  {
    match value {
      case Arr(items) =>
        var k := ItemHolding(path, value, 0, l);
        LeafIsReached(path, items[k], l);
        var steps, sub :| Reach(items[k], steps) == Some((sub, Str(l.url))) && l.dir == path + sub;
        assert ([k] + steps)[1..] == steps;
        assert Reach(value, [k] + steps) == Some((sub, Str(l.url)));
      case Obj(fields) =>
        var k := FieldHolding(path, value, 0, l);
        var p := path + "/" + fields[k].0;
        LeafIsReached(p, fields[k].1, l);
        var steps, sub :| Reach(fields[k].1, steps) == Some((sub, Str(l.url))) && l.dir == p + sub;
        assert ([k] + steps)[1..] == steps;
        assert Reach(value, [k] + steps) == Some(("/" + fields[k].0 + sub, Str(l.url)));
        assert l.dir == path + ("/" + fields[k].0 + sub);
      case Str(s) =>
        assert Reach(value, []) == Some(("", Str(l.url)));
        assert l.dir == path + "";
    }
  }

  /** The item whose leaves hold `l`. */
  lemma {:induction false} ItemHolding(path: string, value: Json, from: nat, l: Leaf) returns (k: nat)
    requires value.Arr? && from <= |value.items| && l in ItemLeaves(path, value, from)
    ensures from <= k < |value.items| && l in Leaves(path, value.items[k])
    decreases |value.items| - from
  {
    if l in Leaves(path, value.items[from]) {
      k := from;
    } else {
      k := ItemHolding(path, value, from + 1, l);
    }
  }

  /** The field whose leaves hold `l`. */
  lemma {:induction false} FieldHolding(path: string, value: Json, from: nat, l: Leaf) returns (k: nat)
    requires value.Obj? && from <= |value.fields| && l in FieldLeaves(path, value, from)
    ensures from <= k < |value.fields| && l in Leaves(path + "/" + value.fields[k].0, value.fields[k].1)
    decreases |value.fields| - from
  {
    if l in Leaves(path + "/" + value.fields[from].0, value.fields[from].1) {
      k := from;
    } else {
      k := FieldHolding(path, value, from + 1, l);
    }
  }

  lemma {:induction false} ReachedIsLeaf(path: string, value: Json, steps: seq<nat>, sub: string, l: Leaf)
    requires StartsWith(l.url, GsScheme)
    requires Reach(value, steps) == Some((sub, Str(l.url))) && l.dir == path + sub
    ensures l in Leaves(path, value)
    decreases |steps|
  {
    if |steps| == 0 {
      assert value == Str(l.url) && sub == "";
      assert l == Leaf(path, l.url);
    } else {
      match value {
        case Arr(items) =>
          ReachedIsLeaf(path, items[steps[0]], steps[1..], sub, l);
          ItemContributes(path, value, 0, steps[0], l);
        case Obj(fields) =>
          var found := Reach(fields[steps[0]].1, steps[1..]).value;
          var p := path + "/" + fields[steps[0]].0;
          assert sub == "/" + fields[steps[0]].0 + found.0;
          assert l.dir == p + found.0;
          ReachedIsLeaf(p, fields[steps[0]].1, steps[1..], found.0, l);
          FieldContributes(path, value, 0, steps[0], l);
      }
    }
  }

  lemma {:induction false} ItemContributes(path: string, value: Json, from: nat, k: nat, l: Leaf)
    requires value.Arr? && from <= k < |value.items| && l in Leaves(path, value.items[k])
    ensures l in ItemLeaves(path, value, from)
    decreases k - from
  {
    if from < k {
      ItemContributes(path, value, from + 1, k, l);
    }
  }

  lemma {:induction false} FieldContributes(path: string, value: Json, from: nat, k: nat, l: Leaf)
    requires value.Obj? && from <= k < |value.fields|
    requires l in Leaves(path + "/" + value.fields[k].0, value.fields[k].1)
    ensures l in FieldLeaves(path, value, from)
    decreases k - from
  {
    if from < k {
      FieldContributes(path, value, from + 1, k, l);
    }
  }

  // ---- the copy each leaf asks for ---------------------------------------

  /** One `gsutil -q cp -n src dest` request. */
  datatype Copy = Copy(src: string, dest: string)

  /** The destination `<path>/<filename(value)>` of a leaf. */
  function Dest(l: Leaf): string {
    l.dir + "/" + Filename(l.url)
  }

  /** The request as written: the directory is passed as the source. */
  function AsWrittenCopy(l: Leaf): Copy {
    Copy(l.dir, Dest(l))
  }

  /** The request `download` evidently means: the URL is the source. */
  function IntendedCopy(l: Leaf): Copy {
    Copy(l.url, Dest(l))
  }

  /** The intended requests for a sequence of leaves, in order. */
  function Copies(ls: seq<Leaf>): (cs: seq<Copy>)
    ensures |cs| == |ls|
    ensures forall i :: 0 <= i < |ls| ==> cs[i] == IntendedCopy(ls[i])
  {
    if |ls| == 0 then [] else [IntendedCopy(ls[0])] + Copies(ls[1..])
  }

  lemma {:induction false} CopiesConcat(a: seq<Leaf>, b: seq<Leaf>)
    ensures Copies(a + b) == Copies(a) + Copies(b)
  {
  }

  /** The request as written copies a local directory onto a file inside it: for an output
      `bam` holding `gs://b/x.bam` the source is `./outputs/bam`, not the URL. */
  lemma AsWrittenSourceIsLocal()
    ensures var l := Leaf("./outputs/bam", "gs://b/x.bam");
      && Leaves(l.dir, Str(l.url)) == [l]
      && AsWrittenCopy(l) == Copy(l.dir, l.dir + "/" + "x.bam")
      && !StartsWith(AsWrittenCopy(l).src, GsScheme)
  {
    var l := Leaf("./outputs/bam", "gs://b/x.bam");
    GsLeaf(l);
    SampleFilename();
    assert l.dir[0] != GsScheme[0];
  }

  lemma GsLeaf(l: Leaf)
    requires l.url == "gs://b/x.bam"
    ensures Leaves(l.dir, Str(l.url)) == [l]
  {
    assert l.url[..5] == GsScheme;
  }

  lemma SampleFilename()
    ensures Filename("gs://b/x.bam") == "x.bam"
  {
    assert "gs://b/x.bam" == "gs://b" + ['/'] + "x.bam";
    LastPieceAfter("gs://b", '/', "x.bam");
  }

  /** Every intended request fetches a `gs://` URL found in the outputs into the directory it was
      reached with, under the URL's own file name. */
  lemma {:induction false} IntendedCopiesFetchUrls(path: string, value: Json)
    ensures forall c :: c in Copies(Leaves(path, value)) ==>
      StartsWith(c.src, GsScheme) && Filename(c.dest) == Filename(c.src) &&
      exists l :: l in Leaves(path, value) && c.src == l.url && StartsWith(c.dest, l.dir + "/")
  {
    var ls := Leaves(path, value);
    forall c | c in Copies(ls)
      ensures StartsWith(c.src, GsScheme) && Filename(c.dest) == Filename(c.src)
      ensures exists l :: l in ls && c.src == l.url && StartsWith(c.dest, l.dir + "/")
    {
      var i :| 0 <= i < |ls| && Copies(ls)[i] == c;
      var l := ls[i];
      LeafIsReached(path, value, l);
      LastPieceAfter(l.dir, '/', Filename(l.url));
      assert c.dest == l.dir + ['/'] + Filename(l.url);
      assert (l.dir + "/" + Filename(l.url))[..|l.dir + "/"|] == l.dir + "/";
    }
  }

  // ---- download_from_gcs over a sequence of requests ---------------------

  /** The files that exist locally and the `gsutil cp` commands run so far. */
  datatype Disk = Disk(files: set<string>, copies: seq<Copy>)

  /** `download_from_gcs`: copy only when `dest` is not a file yet and this is not a dry run.
      The copy is taken to succeed and leave `dest` in place; the exit status of the command is
      not modelled. */
  function Step(d: Disk, c: Copy, dryRun: bool): Disk {
    if c.dest in d.files || dryRun then d else Disk(d.files + {c.dest}, d.copies + [c])
  }

  function Run(d: Disk, cs: seq<Copy>, dryRun: bool): Disk
    decreases |cs|
  {
    if |cs| == 0 then d else Run(Step(d, cs[0], dryRun), cs[1..], dryRun)
  }

  lemma {:induction false} RunConcat(d: Disk, a: seq<Copy>, b: seq<Copy>, dryRun: bool)
    ensures Run(d, a + b, dryRun) == Run(Run(d, a, dryRun), b, dryRun)
    decreases |a|
  {
    if |a| > 0 {
      assert (a + b)[1..] == a[1..] + b;
      RunConcat(Step(d, a[0], dryRun), a[1..], b, dryRun);
    } else {
      assert a + b == b;
    }
  }

  /** A dry run copies nothing and creates nothing. */
  lemma {:induction false} DryRunCopiesNothing(d: Disk, cs: seq<Copy>)
    ensures Run(d, cs, true) == d
    decreases |cs|
  {
    if |cs| > 0 {
      DryRunCopiesNothing(d, cs[1..]);
    }
  }

  function DestSet(cs: seq<Copy>): set<string> {
    set c | c in cs :: c.dest
  }

  predicate DistinctDests(cs: seq<Copy>) {
    forall i, j :: 0 <= i < j < |cs| ==> cs[i].dest != cs[j].dest
  }

  /** The commands a run outside dry-run mode issues from files `files`: each request whose
      destination is not a file yet, which then is one. */
  function NewCopies(files: set<string>, cs: seq<Copy>): seq<Copy>
    decreases |cs|
  {
    if |cs| == 0 then []
    else if cs[0].dest in files then NewCopies(files, cs[1..])
    else [cs[0]] + NewCopies(files + {cs[0].dest}, cs[1..])
  }

  /** Outside a dry run, every requested destination ends up a file and the new commands are
      those of `NewCopies`. */
  lemma {:induction false} RunIssuesNewCopies(d: Disk, cs: seq<Copy>)
    ensures Run(d, cs, false) == Disk(d.files + DestSet(cs), d.copies + NewCopies(d.files, cs))
    decreases |cs|
  {
    if |cs| == 0 {
      assert DestSet(cs) == {};
    } else {
      RunIssuesNewCopies(Step(d, cs[0], false), cs[1..]);
      assert DestSet(cs) == {cs[0].dest} + DestSet(cs[1..]) by {
        assert cs == [cs[0]] + cs[1..];
      }
      if cs[0].dest !in d.files {
        assert d.copies + [cs[0]] + NewCopies(d.files + {cs[0].dest}, cs[1..])
          == d.copies + ([cs[0]] + NewCopies(d.files + {cs[0].dest}, cs[1..]));
      }
    }
  }

  /** The new commands are requests whose destination was not a file before, one per such
      destination, and every such destination gets one. */
  lemma {:induction false} NewCopiesOncePerMissing(files: set<string>, cs: seq<Copy>)
    ensures forall c :: c in NewCopies(files, cs) ==> c in cs && c.dest !in files
    ensures forall x :: x in DestSet(NewCopies(files, cs)) <==> x in DestSet(cs) && x !in files
    ensures DistinctDests(NewCopies(files, cs))
    decreases |cs|
  {
    if |cs| > 0 {
      assert cs == [cs[0]] + cs[1..];
      assert DestSet(cs) == {cs[0].dest} + DestSet(cs[1..]);
      if cs[0].dest in files {
        NewCopiesOncePerMissing(files, cs[1..]);
      } else {
        var rest := NewCopies(files + {cs[0].dest}, cs[1..]);
        NewCopiesOncePerMissing(files + {cs[0].dest}, cs[1..]);
        FreshStep(files + {cs[0].dest}, cs[0], rest, cs[1..]);
      }
    } else {
      assert DestSet(cs) == {};
    }
  }

  /** Putting a request for a new destination ahead of commands that avoid it keeps the
      destinations distinct and adds that destination. */
  lemma FreshStep(files: set<string>, c: Copy, rest: seq<Copy>, cs: seq<Copy>)
    requires c.dest in files
    requires forall x :: x in rest ==> x in cs && x.dest !in files
    requires DistinctDests(rest)
    ensures DistinctDests([c] + rest)
    ensures DestSet([c] + rest) == {c.dest} + DestSet(rest)
  {
    var s := [c] + rest;
    forall i, j | 0 <= i < j < |s| ensures s[i].dest != s[j].dest {
      assert s[j] == rest[j - 1];
      if i > 0 {
        assert s[i] == rest[i - 1];
      }
    }
    assert s == [c] + rest;
  }

  /** The downloader's view of the local disk. `files` stands for `Path(dest).is_file()`. */
  class Downloader {
    var files: set<string>
    var copies: seq<Copy>
    /** `DRYRUN`. */
    const dryRun: bool

    constructor (existing: set<string>, dryRun: bool)
      ensures files == existing && copies == [] && this.dryRun == dryRun
    {
      files := existing;
      copies := [];
      this.dryRun := dryRun;
    }

    function State(): Disk
      reads this
    {
      Disk(files, copies)
    }

    /** `download_from_gcs(src, dest)`. */
    method DownloadFromGcs(src: string, dest: string)
      modifies this
      ensures State() == Step(old(State()), Copy(src, dest), dryRun)
    {
      if dest !in files {
        if !dryRun {
          copies := copies + [Copy(src, dest)];
          files := files + {dest};
        }
      }
    }

    /** `download(path, value)`, with the intended source for each `gs://` string. */
    method Download(path: string, value: Json)
      modifies this
      ensures State() == Run(old(State()), Copies(Leaves(path, value)), dryRun)
      decreases value, 1
    {
      match value {
        case Arr(_) => DownloadItems(path, value);
        case Obj(_) => DownloadFields(path, value);
        case Str(s) =>
          if StartsWith(s, GsScheme) {
            DownloadFromGcs(s, path + "/" + Filename(s));
          }
        case _ =>
      }
    }

    /** The loop over a list's items, each downloaded with the same path. */
    method DownloadItems(path: string, value: Json)
      requires value.Arr?
      modifies this
      ensures State() == Run(old(State()), Copies(ItemLeaves(path, value, 0)), dryRun)
      decreases value, 0
    {
      var k := 0;
      while k < |value.items|
        invariant k <= |value.items|
        invariant Run(old(State()), Copies(ItemLeaves(path, value, 0)), dryRun)
          == Run(State(), Copies(ItemLeaves(path, value, k)), dryRun)
      {
        ghost var before := State();
        Download(path, value.items[k]);
        CopiesConcat(Leaves(path, value.items[k]), ItemLeaves(path, value, k + 1));
        RunConcat(before, Copies(Leaves(path, value.items[k])), Copies(ItemLeaves(path, value, k + 1)), dryRun);
        k := k + 1;
      }
    }

    /** The loop over a dict's items, each value downloaded under `<path>/<key>`. */
    method DownloadFields(path: string, value: Json)
      requires value.Obj?
      modifies this
      ensures State() == Run(old(State()), Copies(FieldLeaves(path, value, 0)), dryRun)
      decreases value, 0
    {
      var k := 0;
      while k < |value.fields|
        invariant k <= |value.fields|
        invariant Run(old(State()), Copies(FieldLeaves(path, value, 0)), dryRun)
          == Run(State(), Copies(FieldLeaves(path, value, k)), dryRun)
      {
        ghost var before := State();
        var sub := path + "/" + value.fields[k].0;
        Download(sub, value.fields[k].1);
        CopiesConcat(Leaves(sub, value.fields[k].1), FieldLeaves(path, value, k + 1));
        RunConcat(before, Copies(Leaves(sub, value.fields[k].1)), Copies(FieldLeaves(path, value, k + 1)), dryRun);
        k := k + 1;
      }
    }

    /** `download_outputs(response, outputs_dir)`: `response['outputs'].items()`, each output
        going to `<outputs_dir>/<name after the last '.'>`. */
    method DownloadOutputs(response: Json, outputsDir: string) returns (r: Result<()>)
      modifies this
      ensures r.Ok? <==> Subscript(response, "outputs").Ok? && Subscript(response, "outputs").value.Obj?
      ensures r.Ok? ==> State() == Run(old(State()), Copies(OutputLeaves(outputsDir, Subscript(response, "outputs").value, 0)), dryRun)
      ensures r.Err? ==> State() == old(State())
    {
      var outputs :- Subscript(response, "outputs");
      var fields :- Items(outputs);
      var k := 0;
      while k < |fields|
        invariant k <= |fields|
        invariant Run(old(State()), Copies(OutputLeaves(outputsDir, outputs, 0)), dryRun)
          == Run(State(), Copies(OutputLeaves(outputsDir, outputs, k)), dryRun)
      {
        ghost var before := State();
        var dir := outputsDir + "/" + OutputName(fields[k].0);
        Download(dir, fields[k].1);
        CopiesConcat(Leaves(dir, fields[k].1), OutputLeaves(outputsDir, outputs, k + 1));
        RunConcat(before, Copies(Leaves(dir, fields[k].1)), Copies(OutputLeaves(outputsDir, outputs, k + 1)), dryRun);
        k := k + 1;
      }
      return Ok(());
    }
  }

  /** The leaves of the outputs from field `from` on, each output's under its own directory. */
  function OutputLeaves(outputsDir: string, outputs: Json, from: nat): seq<Leaf>
    requires outputs.Obj? && from <= |outputs.fields|
    decreases |outputs.fields| - from
  {
    if from == |outputs.fields| then []
    else
      Leaves(outputsDir + "/" + OutputName(outputs.fields[from].0), outputs.fields[from].1)
        + OutputLeaves(outputsDir, outputs, from + 1)
  }

  /** Each output's downloads go under `<outputs_dir>/<name after the last '.'>`: a leaf is planned
      exactly when it is a leaf of some output under that output's directory. */
  lemma {:induction false} OutputLeavesByKey(outputsDir: string, outputs: Json, from: nat, l: Leaf)
    requires outputs.Obj? && from <= |outputs.fields|
    ensures l in OutputLeaves(outputsDir, outputs, from) <==>
      exists k :: from <= k < |outputs.fields| &&
        l in Leaves(outputsDir + "/" + OutputName(outputs.fields[k].0), outputs.fields[k].1)
    decreases |outputs.fields| - from
  {
    if from < |outputs.fields| {
      OutputLeavesByKey(outputsDir, outputs, from + 1, l);
    }
  }
}
