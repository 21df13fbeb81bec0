/** The per-task cost summary: a tab-separated table of priced calls is read line by line, shard
    suffixes are removed from the call names, the header row is dropped, the cost columns are
    summed per call name and the sums are ordered by total cost, largest first. */
module CostScript {
  import opened Text
  import opened Json

  /** One line of the file split at tabs; the last field keeps the line terminator. */
  type Row = seq<string>

  datatype Costs = Costs(total: real, cpu: real, memory: real, disk: real)

  const NoCosts := Costs(0.0, 0.0, 0.0, 0.0)

  function Add(a: Costs, b: Costs): (r: Costs)
    ensures r.total == a.total + b.total && r.cpu == a.cpu + b.cpu
    ensures r.memory == a.memory + b.memory && r.disk == a.disk + b.disk
  {
    Costs(a.total + b.total, a.cpu + b.cpu, a.memory + b.memory, a.disk + b.disk)
  }

  // ---- reading the table -------------------------------------------------

  /** The table is the file's lines, each split at tabs. */
  method ReadTable(lines: seq<string>) returns (table: array<Row>)
    ensures fresh(table) && table.Length == |lines|
    ensures forall k :: 0 <= k < |lines| ==> table[k] == Split(lines[k], '\t')
  {
    table := new Row[|lines|];
    var k := 0;
    while k < |lines|
      invariant 0 <= k <= |lines|
      invariant forall m :: 0 <= m < k ==> table[m] == Split(lines[m], '\t')
    {
      table[k] := Split(lines[k], '\t');
      k := k + 1;
    }
  }

  // ---- shard suffixes ----------------------------------------------------

  /** `_shard-` followed by `n` digits starts `s`. */
  predicate ShardAt(s: string, n: nat)
  {
    StartsWith(s, "_shard-") && 7 + n <= |s| && AllDigits(s[7..7 + n])
  }

  /** `re.sub('_shard-' + n digits, '', s)`: every match, scanning left to right, is removed and the
      scan goes on after it. */
  function StripShard(s: string, n: nat): (r: string)
    ensures |r| <= |s|
    decreases |s|
  {
    if |s| == 0 then ""
    else if ShardAt(s, n) then StripShard(s[7 + n..], n)
    else [s[0]] + StripShard(s[1..], n)
  }

  /** A call name as the loop leaves it: a name mentioning `shard` loses its two-digit shard
      suffixes and then its one-digit ones. The branch for names that mention `retry` applies the
      same two substitutions as the other, so it is not told apart. */
  function NormaliseName(name: string): (r: string)
    ensures !Contains(name, "shard") ==> r == name
    ensures Contains(name, "shard") ==> r == StripShard(StripShard(name, 2), 1)
    ensures |r| <= |name|
  {
    if Contains(name, "shard") then StripShard(StripShard(name, 2), 1) else name
  }

  /** The loop over the table: only the first field of each row is rewritten. */
  method NormaliseNames(table: array<Row>)
    requires forall k :: 0 <= k < table.Length ==> |table[k]| >= 1
    modifies table
    ensures forall k :: 0 <= k < table.Length ==>
              table[k] == old(table[k])[0 := NormaliseName(old(table[k])[0])]
  {
    var k := 0;
    while k < table.Length
      invariant 0 <= k <= table.Length
      invariant forall m :: 0 <= m < k ==> table[m] == old(table[m])[0 := NormaliseName(old(table[m])[0])]
      invariant forall m :: k <= m < table.Length ==> table[m] == old(table[m])
    {
      var row := table[k];
      table[k] := row[0 := NormaliseName(row[0])];
      k := k + 1;
    }
  }

  /** Text without `-` holds no match, so nothing is removed from it. */
  lemma {:induction false} StripNoDash(t: string, n: nat)
    requires '-' !in t
    ensures StripShard(t, n) == t
    decreases |t|
  {
    if |t| > 0 {
      assert !StartsWith(t, "_shard-") by {
        if |t| >= 7 { assert t[6] in t; assert t[..7][6] != "_shard-"[6]; }
      }
      assert '-' !in t[1..] by { forall i | 0 <= i < |t| - 1 ensures t[1..][i] != '-' { assert t[1..][i] == t[i + 1]; } }
      StripNoDash(t[1..], n);
      assert t == [t[0]] + t[1..];
    }
  }

  /** Text without `_` starts no match, so it is kept as it is before the rest is scanned. */
  lemma {:induction false} StripNoUnderscorePrefix(p: string, t: string, n: nat)
    requires '_' !in p
    ensures StripShard(p + t, n) == p + StripShard(t, n)
    decreases |p|
  {
    if |p| > 0 {
      var s := p + t;
      assert s[0] == p[0] != '_';
      assert !ShardAt(s, n);
      assert s[1..] == p[1..] + t;
      assert StripShard(s, n) == [s[0]] + StripShard(s[1..], n);
      assert '_' !in p[1..] by { forall i | 0 <= i < |p| - 1 ensures p[1..][i] != '_' { assert p[1..][i] == p[i + 1]; } }
      StripNoUnderscorePrefix(p[1..], t, n);
      assert p + StripShard(t, n) == [p[0]] + (p[1..] + StripShard(t, n));
    } else {
      assert p + t == t && p + StripShard(t, n) == StripShard(t, n);
    }
  }

  /** A name part without `-` keeps its place, when what follows it cannot complete a match that
      starts inside it: `_shard-` has no proper prefix that is also a suffix. */
  lemma {:induction false} StripAfterName(x: string, y: string, n: nat)
    requires '-' !in x
    requires |y| == 0 || y[0] !in "shard-"
    ensures StripShard(x + y, n) == x + StripShard(y, n)
    decreases |x|
  {
    if |x| > 0 {
      var s := x + y;
      NoMatchInName(x, y);
      assert s[1..] == x[1..] + y;
      assert StripShard(s, n) == [s[0]] + StripShard(s[1..], n);
      DashFreeTail(x);
      StripAfterName(x[1..], y, n);
      assert x + StripShard(y, n) == [x[0]] + (x[1..] + StripShard(y, n));
    } else {
      assert x + y == y && x + StripShard(y, n) == StripShard(y, n);
    }
  }

  /** No match starts inside a name part without `-` that is followed by what cannot go on
      with `_shard-`. */
  lemma NoMatchInName(x: string, y: string)
    requires |x| > 0 && '-' !in x
    requires |y| == 0 || y[0] !in "shard-"
    ensures !StartsWith(x + y, "_shard-")
  {
    var s := x + y;
    if |s| >= 7 {
      if |x| > 6 {
        assert x[6] in x;
        assert s[..7][6] != "_shard-"[6];
      } else {
        assert "_shard-"[|x|] == "shard-"[|x| - 1];
        assert s[..7][|x|] != "_shard-"[|x|];
      }
    }
  }

  lemma DashFreeTail(x: string)
    requires |x| > 0 && '-' !in x
    ensures '-' !in x[1..]
  {
    forall i | 0 <= i < |x| - 1 ensures x[1..][i] != '-' { assert x[1..][i] == x[i + 1]; }
  }

  /** A name with a shard suffix mentions `shard`. */
  lemma MentionsShard(base: string, rest: string)
    ensures Contains(base + "_shard-" + rest, "shard")
  {
    var s := base + "_shard-" + rest;
    assert s[|base| + 1..|base| + 6] == "shard";
    assert OccursAt(s, "shard", |base| + 1);
  }

  /** A shard suffix of exactly `n` digits is a match and is removed. */
  lemma ShardRemoved(d: string, tail: string, n: nat)
    requires |d| == n && AllDigits(d) && '-' !in tail
    ensures StripShard("_shard-" + d + tail, n) == tail
  {
    var y := "_shard-" + d + tail;
    assert y[..7] == "_shard-" && y[7..7 + n] == d;
    assert y[7 + n..] == tail;
    StripNoDash(tail, n);
  }

  lemma NotTwoDigits(d: string, tail: string)
    requires |d| == 1 && (|tail| == 0 || !IsDigit(tail[0]))
    ensures !ShardAt("_shard-" + d + tail, 2)
  {
    var y := "_shard-" + d + tail;
    assert |y| == 8 + |tail|;
    if |tail| > 0 { assert y[8] == tail[0]; assert y[7..9][1] == y[8]; }
  }

  /** A one-digit shard suffix not followed by a digit is no match for two digits. */
  lemma OneDigitShardKept(d: string, tail: string)
    requires |d| == 1 && AllDigits(d) && '-' !in tail
    requires |tail| == 0 || !IsDigit(tail[0])
    ensures StripShard("_shard-" + d + tail, 2) == "_shard-" + d + tail
  {
    var rest := d + tail;
    assert '-' !in rest by { assert d[0] != '-'; }
    StripNoDash(rest, 2);
    var word := "shard-";
    StripNoUnderscorePrefix(word, rest, 2);
    var y := ['_'] + (word + rest);
    assert "_shard-" == ['_'] + word;
    Regroup(['_'], word, d, tail);
    NotTwoDigits(d, tail);
    assert y[1..] == word + rest;
  }

  lemma Regroup<T>(a: seq<T>, b: seq<T>, c: seq<T>, e: seq<T>)
    ensures (a + b) + c + e == a + (b + (c + e))
  {
  }

  /** A call name of word characters and dots (no `-`) with a one- or two-digit shard suffix,
      followed by anything without `-` that does not start with a digit (a `_retryM` suffix, say),
      loses exactly the shard suffix. */
  lemma ShardSuffixRemoved(base: string, d: string, tail: string)
    requires '-' !in base && '-' !in tail
    requires 1 <= |d| <= 2 && AllDigits(d)
    requires |tail| == 0 || !IsDigit(tail[0])
    ensures NormaliseName(base + "_shard-" + d + tail) == base + tail
  {
    var y := "_shard-" + d + tail;
    assert base + "_shard-" + d + tail == base + y;
    MentionsShard(base, d + tail);
    assert base + "_shard-" + (d + tail) == base + y;
    StripAfterName(base, y, 2);
    assert '-' !in base + tail;
    if |d| == 2 {
      ShardRemoved(d, tail, 2);
      StripNoDash(base + tail, 1);
    } else {
      OneDigitShardKept(d, tail);
      StripAfterName(base, y, 1);
      ShardRemoved(d, tail, 1);
    }
  }

  /** A three-digit shard suffix keeps its last digit: `_shard-123` leaves `3`, so such calls are
      not merged with their base name. */
  lemma ThreeDigitShardKeepsLastDigit(base: string, a: char, b: char, c: char, tail: string)
    requires '-' !in base && '-' !in tail
    requires IsDigit(a) && IsDigit(b) && IsDigit(c)
    ensures NormaliseName(base + "_shard-" + [a, b, c] + tail) == base + [c] + tail
  {
    var m := "_shard-";
    var y := m + [a, b] + ([c] + tail);
    assert [a, b, c] == [a, b] + [c];
    Regroup5(base, m, [a, b], [c], tail);
    MentionsShard(base, [a, b, c] + tail);
    assert base + m + ([a, b, c] + tail) == base + m + [a, b, c] + tail;
    StripAfterName(base, y, 2);
    assert '-' !in [c] + tail;
    ShardRemoved([a, b], [c] + tail, 2);
    assert '-' !in base + [c] + tail;
    StripNoDash(base + [c] + tail, 1);
  }

  lemma Regroup5<T>(p: seq<T>, q: seq<T>, r: seq<T>, t: seq<T>, u: seq<T>)
    ensures p + q + (r + t) + u == p + (q + r + (t + u))
    ensures p + (t + u) == p + t + u
  {
  }

  // ---- the frame ---------------------------------------------------------

  /** The first column with this name. */
  function ColumnIndex(header: Row, name: string): (r: Option<nat>)
    ensures r.Some? ==> r.value < |header| && header[r.value] == name
    ensures r.Some? ==> forall k :: 0 <= k < r.value ==> header[k] != name
    ensures r.None? ==> name !in header
  {
    if |header| == 0 then None
    else if header[0] == name then Some(0)
    else match ColumnIndex(header[1..], name)
      case None => None
      case Some(k) => Some(k + 1)
  }

  /** The positions of the five columns kept. */
  datatype Columns = Columns(name: nat, total: nat, cpu: nat, memory: nat, disk: nat)

  /** Selecting the five columns by name: a missing one raises KeyError. */
  function SelectColumns(header: Row): (r: Result<Columns>)
    ensures r.Ok? <==> "callName" in header && "totalCost" in header && "cpuCost" in header
                       && "memoryCost" in header && "diskCost" in header
    ensures r.Ok? ==> var c := r.value;
      c.name < |header| && header[c.name] == "callName" && c.total < |header| && header[c.total] == "totalCost"
      && c.cpu < |header| && header[c.cpu] == "cpuCost" && c.memory < |header| && header[c.memory] == "memoryCost"
      && c.disk < |header| && header[c.disk] == "diskCost"
  {
    match (ColumnIndex(header, "callName"), ColumnIndex(header, "totalCost"), ColumnIndex(header, "cpuCost"),
           ColumnIndex(header, "memoryCost"), ColumnIndex(header, "diskCost"))
    case (Some(n), Some(t), Some(c), Some(m), Some(d)) => Ok(Columns(n, t, c, m, d))
    case _ => Err(KeyError)
  }

  /** `float(text)`, supplied by the caller; None for text that is not a number. */
  type Parser = string -> Option<real>

  /** One data row: the call name and its four costs; a cost that is not a number raises
      ValueError. A row that is not as long as the header is not modelled. */
  function ReadRecord(row: Row, width: nat, cols: Columns, parse: Parser): (r: Result<(string, Costs)>)
    requires cols.name < width && cols.total < width && cols.cpu < width && cols.memory < width && cols.disk < width
    ensures r.Ok? ==> |row| == width && r.value.0 == row[cols.name]
    ensures r.Ok? ==> parse(row[cols.total]) == Some(r.value.1.total) && parse(row[cols.cpu]) == Some(r.value.1.cpu)
                      && parse(row[cols.memory]) == Some(r.value.1.memory) && parse(row[cols.disk]) == Some(r.value.1.disk)
  {
    if |row| != width then Err(Unmodelled)
    else match (parse(row[cols.total]), parse(row[cols.cpu]), parse(row[cols.memory]), parse(row[cols.disk]))
      case (Some(t), Some(c), Some(m), Some(d)) => Ok((row[cols.name], Costs(t, c, m, d)))
      case _ => Err(ValueError)
  }

  function ReadRecords(rows: seq<Row>, width: nat, cols: Columns, parse: Parser): (r: Result<seq<(string, Costs)>>)
    requires cols.name < width && cols.total < width && cols.cpu < width && cols.memory < width && cols.disk < width
    ensures r.Ok? ==> |r.value| == |rows|
    ensures r.Ok? ==> forall k :: 0 <= k < |rows| ==> ReadRecord(rows[k], width, cols, parse) == Ok(r.value[k])
  {
    if |rows| == 0 then Ok([])
    else
      var first :- ReadRecord(rows[0], width, cols, parse);
      var rest :- ReadRecords(rows[1..], width, cols, parse);
      assert forall k :: 1 <= k < |rows| ==> rows[k] == rows[1..][k - 1];
      Ok([first] + rest)
  }

  /** The frame: the first row names the columns and, being a row of the table as well, is
      dropped; an empty file has no first row. */
  function Frame(table: seq<Row>, parse: Parser): (r: Result<seq<(string, Costs)>>)
    ensures |table| == 0 ==> r == Err(IndexError)
    ensures |table| > 0 && SelectColumns(table[0]).Err? ==> r == Err(KeyError)
    ensures r.Ok? ==> |r.value| == |table| - 1 && SelectColumns(table[0]).Ok?
    ensures r.Ok? ==> forall k :: 0 <= k < |r.value| ==>
              ReadRecord(table[k + 1], |table[0]|, SelectColumns(table[0]).value, parse) == Ok(r.value[k])
  {
    if |table| == 0 then Err(IndexError)
    else
      var header := table[0];
      var cols :- SelectColumns(header);
      ReadRecords(table[1..], |header|, cols, parse)
  }

  // ---- group by name -----------------------------------------------------

  /** The sum of the costs of the records named `name`. */
  function SumFor(records: seq<(string, Costs)>, name: string): Costs
  {
    if |records| == 0 then NoCosts
    else
      var last := records[|records| - 1];
      var before := SumFor(records[..|records| - 1], name);
      if last.0 == name then Add(before, last.1) else before
  }

  predicate Named(records: seq<(string, Costs)>, name: string)
  {
    exists k :: 0 <= k < |records| && records[k].0 == name
  }

  /** `groupby("callName").sum()`: one entry per name, in order of first appearance, holding the
      sums of that name's costs. */
  method SumByName(records: seq<(string, Costs)>) returns (groups: seq<(string, Costs)>)
    ensures UniqueKeys(groups)
    ensures forall name :: name in Keys(groups) <==> Named(records, name)
    ensures forall name :: name in Keys(groups) ==> Lookup(groups, name) == Some(SumFor(records, name))
  {
    groups := [];
    var k := 0;
    while k < |records|
      invariant 0 <= k <= |records|
      invariant UniqueKeys(groups)
      invariant forall name :: name in Keys(groups) <==> Named(records[..k], name)
      invariant forall name :: name in Keys(groups) ==> Lookup(groups, name) == Some(SumFor(records[..k], name))
    {
      var (name, costs) := records[k];
      var sofar := match Lookup(groups, name) case Some(c) => c case None => NoCosts;
      SumForStep(records, k, groups);
      KeysPut(groups, name, Add(sofar, costs));
      forall n ensures Lookup(Put(groups, name, Add(sofar, costs)), n) == if n == name then Some(Add(sofar, costs)) else Lookup(groups, n) {
        LookupPut(groups, name, Add(sofar, costs), n);
      }
      groups := Put(groups, name, Add(sofar, costs));
      k := k + 1;
    }
    assert records[..k] == records;
  }

  /** One more record: its name becomes named, its sum grows by its costs, and nothing else
      changes. A name not yet seen had sum zero. */
  lemma SumForStep(records: seq<(string, Costs)>, k: nat, groups: seq<(string, Costs)>)
    requires k < |records|
    requires forall name :: name in Keys(groups) <==> Named(records[..k], name)
    ensures var pre := records[..k + 1];
      pre[..k] == records[..k] && pre[k] == records[k] &&
      (forall n :: Named(pre, n) <==> Named(records[..k], n) || n == records[k].0) &&
      (forall n :: SumFor(pre, n) == if n == records[k].0 then Add(SumFor(records[..k], n), records[k].1) else SumFor(records[..k], n)) &&
      (records[k].0 !in Keys(groups) ==> SumFor(records[..k], records[k].0) == NoCosts)
  {
    var pre := records[..k + 1];
    assert pre[..k] == records[..k];
    forall n ensures Named(pre, n) <==> Named(records[..k], n) || n == records[k].0 {
      if Named(records[..k], n) {
        var j :| 0 <= j < k && records[..k][j].0 == n;
        assert pre[j] == records[..k][j];
      }
      forall j | 0 <= j < k + 1 && pre[j].0 == n ensures Named(records[..k], n) || n == records[k].0 {
        if j < k { assert records[..k][j] == pre[j]; }
      }
      assert pre[k] == records[k];
    }
    if records[k].0 !in Keys(groups) {
      UnnamedSumsToZero(records[..k], records[k].0);
    }
  }

  lemma {:induction false} UnnamedSumsToZero(records: seq<(string, Costs)>, name: string)
    requires !Named(records, name)
    ensures SumFor(records, name) == NoCosts
  {
    if |records| > 0 {
      var pre := records[..|records| - 1];
      assert !Named(pre, name) by {
        forall j | 0 <= j < |pre| ensures pre[j].0 != name { assert records[j] == pre[j]; }
      }
      assert records[|records| - 1].0 != name;
      UnnamedSumsToZero(pre, name);
    }
  }

  // ---- sort by total -----------------------------------------------------

  predicate NonIncreasing(rows: seq<(string, Costs)>)
  {
    forall i, j :: 0 <= i < j < |rows| ==> rows[i].1.total >= rows[j].1.total
  }

  /** `sort_values(by=['totalCost'], ascending=False)`. */
  function SortByTotal(rows: seq<(string, Costs)>): seq<(string, Costs)>
  {
    if |rows| == 0 then [] else Insert(rows[0], SortByTotal(rows[1..]))
  }

  /** Put `x` in front of the first row whose total is not larger. */
  function Insert(x: (string, Costs), rows: seq<(string, Costs)>): seq<(string, Costs)>
  {
    if |rows| == 0 || rows[0].1.total <= x.1.total then [x] + rows
    else [rows[0]] + Insert(x, rows[1..])
  }

  /** Every row's total is at most `b`. */
  predicate AtMost(rows: seq<(string, Costs)>, b: real)
  {
    forall k :: 0 <= k < |rows| ==> rows[k].1.total <= b
  }

  lemma {:induction false} InsertKeepsOrder(x: (string, Costs), rows: seq<(string, Costs)>)
    requires NonIncreasing(rows)
    ensures NonIncreasing(Insert(x, rows))
  {
    if |rows| > 0 && rows[0].1.total > x.1.total {
      var rest := rows[1..];
      assert NonIncreasing(rest) by {
        forall i, j | 0 <= i < j < |rest| ensures rest[i].1.total >= rest[j].1.total {
          assert rest[i] == rows[i + 1] && rest[j] == rows[j + 1];
        }
      }
      InsertKeepsOrder(x, rest);
      assert AtMost(rest, rows[0].1.total) by {
        forall k | 0 <= k < |rest| ensures rest[k].1.total <= rows[0].1.total { assert rest[k] == rows[k + 1]; }
      }
      InsertAtMost(x, rest, rows[0].1.total);
      ConsNonIncreasing(rows[0], Insert(x, rest));
    } else {
      assert AtMost(rows, x.1.total) by {
        forall k | 0 <= k < |rows| ensures rows[k].1.total <= x.1.total { assert rows[0].1.total >= rows[k].1.total; }
      }
      ConsNonIncreasing(x, rows);
    }
  }

  /** Inserting a row with total at most `b` among rows with totals at most `b` keeps the bound. */
  lemma {:induction false} InsertAtMost(x: (string, Costs), rows: seq<(string, Costs)>, b: real)
    requires AtMost(rows, b) && x.1.total <= b
    ensures AtMost(Insert(x, rows), b)
  {
    if |rows| > 0 && rows[0].1.total > x.1.total {
      assert AtMost(rows[1..], b) by {
        forall k | 0 <= k < |rows| - 1 ensures rows[1..][k].1.total <= b { assert rows[1..][k] == rows[k + 1]; }
      }
      InsertAtMost(x, rows[1..], b);
    }
  }

  lemma ConsNonIncreasing(h: (string, Costs), t: seq<(string, Costs)>)
    requires NonIncreasing(t) && AtMost(t, h.1.total)
    ensures NonIncreasing([h] + t)
  {
    var r := [h] + t;
    forall i, j | 0 <= i < j < |r| ensures r[i].1.total >= r[j].1.total {
      assert r[j] == t[j - 1];
      if i > 0 { assert r[i] == t[i - 1]; }
    }
  }

  /** Inserting adds exactly `x` to the rows. */
  lemma {:induction false} InsertPermutes(x: (string, Costs), rows: seq<(string, Costs)>)
    ensures multiset(Insert(x, rows)) == multiset(rows) + multiset{x}
  {
    if |rows| > 0 && rows[0].1.total > x.1.total {
      InsertPermutes(x, rows[1..]);
      assert rows == [rows[0]] + rows[1..];
    }
  }

  /** The sorted rows are the rows, reordered, with totals non-increasing. */
  lemma {:induction false} SortedByTotal(rows: seq<(string, Costs)>)
    ensures NonIncreasing(SortByTotal(rows))
    ensures multiset(SortByTotal(rows)) == multiset(rows)
  {
    if |rows| > 0 {
      SortedByTotal(rows[1..]);
      InsertKeepsOrder(rows[0], SortByTotal(rows[1..]));
      InsertPermutes(rows[0], SortByTotal(rows[1..]));
      assert rows == [rows[0]] + rows[1..];
    }
  }

  // ---- the whole script --------------------------------------------------

  /** The table after the renaming loop. */
  function Normalised(lines: seq<string>): seq<Row>
  {
    seq(|lines|, k requires 0 <= k < |lines| =>
      var row := Split(lines[k], '\t'); row[0 := NormaliseName(row[0])])
  }

  /** The script from its input lines to the summary rows: the summary holds one row per call
      name of the data, with its cost sums, ordered by total cost, largest first. */
  method Summarise(lines: seq<string>, parse: Parser) returns (r: Result<seq<(string, Costs)>>)
    ensures r.Err? <==> Frame(Normalised(lines), parse).Err?
    ensures r.Ok? ==> var records := Frame(Normalised(lines), parse).value;
      NonIncreasing(r.value) && UniqueKeys(r.value)
      && (forall name :: name in Keys(r.value) <==> Named(records, name))
      && (forall k :: 0 <= k < |r.value| ==> r.value[k].1 == SumFor(records, r.value[k].0))
  {
    var table := ReadTable(lines);
    NormaliseNames(table);
    assert table[..] == Normalised(lines);
    var frame := Frame(table[..], parse);
    if frame.Err? {
      return Err(frame.fault);
    }
    var groups := SumByName(frame.value);
    var sorted := SortByTotal(groups);
    SortedByTotal(groups);
    SummaryRows(groups, sorted, frame.value);
    return Ok(sorted);
  }

  /** Reordering the groups keeps them distinct, with the same names and sums. */
  lemma SummaryRows(groups: seq<(string, Costs)>, sorted: seq<(string, Costs)>, records: seq<(string, Costs)>)
    requires multiset(sorted) == multiset(groups) && UniqueKeys(groups)
    requires forall name :: name in Keys(groups) <==> Named(records, name)
    requires forall name :: name in Keys(groups) ==> Lookup(groups, name) == Some(SumFor(records, name))
    ensures UniqueKeys(sorted)
    ensures forall name :: name in Keys(sorted) <==> Named(records, name)
    ensures forall k :: 0 <= k < |sorted| ==> sorted[k].1 == SumFor(records, sorted[k].0)
  {
    forall x | x in sorted ensures x in groups { assert x in multiset(groups); }
    forall x | x in groups ensures x in sorted { assert x in multiset(sorted); }
    forall k | 0 <= k < |sorted| ensures sorted[k].0 in Keys(groups) && sorted[k].1 == SumFor(records, sorted[k].0) {
      assert sorted[k] in sorted;
      var m :| 0 <= m < |groups| && groups[m] == sorted[k];
      LookupUnique(groups, m);
      KeysAt(groups, m);
    }
    forall name ensures name in Keys(sorted) <==> name in Keys(groups) {
      if name in Keys(sorted) {
        var k := KeyPosition(sorted, name);
        assert sorted[k] in sorted;
        var m :| 0 <= m < |groups| && groups[m] == sorted[k];
        KeysAt(groups, m);
      }
      if name in Keys(groups) {
        var m := KeyPosition(groups, name);
        assert groups[m] in groups;
        var k :| 0 <= k < |sorted| && sorted[k] == groups[m];
        KeysAt(sorted, k);
      }
    }
    forall x ensures multiset(sorted)[x] <= 1 {
      if x in groups {
        var a :| 0 <= a < |groups| && groups[a] == x;
        MultisetCountUnique(groups, a);
      }
    }
    AtMostOnceDistinct(sorted);
    forall i, j | 0 <= i < j < |sorted| ensures sorted[i].0 != sorted[j].0 {
      assert sorted[i] in sorted && sorted[j] in sorted;
      var a :| 0 <= a < |groups| && groups[a] == sorted[i];
      var b :| 0 <= b < |groups| && groups[b] == sorted[j];
      assert a != b;
    }
  }

  /** A sequence in which nothing occurs twice has distinct elements. */
  lemma {:induction false} AtMostOnceDistinct<T>(s: seq<T>)
    requires forall x :: multiset(s)[x] <= 1
    ensures forall i, j :: 0 <= i < j < |s| ==> s[i] != s[j]
  {
    if |s| > 0 {
      var rest := s[1..];
      assert s == [s[0]] + rest;
      assert multiset(s) == multiset{s[0]} + multiset(rest);
      forall x ensures multiset(rest)[x] <= 1 { assert multiset(s)[x] == multiset{s[0]}[x] + multiset(rest)[x]; }
      assert multiset(s)[s[0]] == 1 + multiset(rest)[s[0]];
      AtMostOnceDistinct(rest);
      forall i, j | 0 <= i < j < |s| ensures s[i] != s[j] {
        assert s[j] == rest[j - 1];
        if i > 0 { assert s[i] == rest[i - 1]; }
      }
    }
  }

  /** The index at which a key occurs. */
  lemma {:induction false} KeyPosition(fs: seq<(string, Costs)>, name: string) returns (k: nat)
    requires name in Keys(fs)
    ensures k < |fs| && fs[k].0 == name
  {
    if fs[0].0 == name {
      k := 0;
    } else {
      assert Keys(fs) == [fs[0].0] + Keys(fs[1..]);
      var m := KeyPosition(fs[1..], name);
      k := m + 1;
    }
  }

  /** With distinct keys, the lookup of a field's key gives that field's value. */
  lemma {:induction false} LookupUnique(fs: seq<(string, Costs)>, m: nat)
    requires m < |fs| && UniqueKeys(fs)
    ensures Lookup(fs, fs[m].0) == Some(fs[m].1)
  {
    if m > 0 {
      assert fs[0].0 != fs[m].0;
      assert fs[1..][m - 1] == fs[m];
      assert UniqueKeys(fs[1..]) by {
        forall i, j | 0 <= i < j < |fs| - 1 ensures fs[1..][i].0 != fs[1..][j].0 { assert fs[1..][i] == fs[i + 1] && fs[1..][j] == fs[j + 1]; }
      }
      LookupUnique(fs[1..], m - 1);
    }
  }

  /** With distinct keys, each field occurs once. */
  lemma {:induction false} MultisetCountUnique(fs: seq<(string, Costs)>, a: nat)
    requires a < |fs| && UniqueKeys(fs)
    ensures multiset(fs)[fs[a]] == 1
  {
    var x := fs[a];
    assert fs == fs[..a] + [x] + fs[a + 1..];
    forall i | 0 <= i < |fs| && i != a ensures fs[i] != x { }
    assert x !in fs[..a];
    assert x !in fs[a + 1..];
    assert multiset(fs[..a])[x] == 0 && multiset(fs[a + 1..])[x] == 0;
  }
}
