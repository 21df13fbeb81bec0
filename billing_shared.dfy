/** What the two billing estimators share: the price arithmetic, the key a
    call's cost is stored under, the parser for a cache-hit reference, the
    event search used to find machine time, and the cost tree they build
    (`CostNode`), with the consistency every tree they return keeps. */
module Billing {
  import opened Text
  import opened Json

  const SecondsPerHour: real := 3600.0
  const SecondsPerMonth: real := 30.0 * 24.0 * 3600.0

  /** Dollars per vCPU-hour and per GB-hour. */
  datatype MachinePrice = MachinePrice(memory: real, cpu: real)

  /** Dollars per GB-month, by disk type. */
  datatype DiskPrice = DiskPrice(ssd: real, hdd: real)

  datatype MachineCost = MachineCost(cpu: real, memory: real)

  /** Machine time is billed per second with a one-minute minimum: `max(60, seconds)`. */
  function BilledSeconds(seconds: real): (b: real)
    ensures b >= 60.0 && b >= seconds
    ensures b == 60.0 || b == seconds
  {
    if seconds < 60.0 then 60.0 else seconds
  }

  /** The cpu and memory charge of `vcpus` cpus and `memoryGb` GB held for `seconds`. */
  function PriceMachine(vcpus: real, memoryGb: real, seconds: real, price: MachinePrice): MachineCost
  {
    MachineCost(BilledSeconds(seconds) * vcpus * price.cpu / SecondsPerHour,
                BilledSeconds(seconds) * memoryGb * price.memory / SecondsPerHour)
  }

  /** Any run of a minute or less costs exactly one minute. */
  lemma MachineMinimumMinute(vcpus: real, memoryGb: real, seconds: real, price: MachinePrice)
    requires seconds <= 60.0
    ensures PriceMachine(vcpus, memoryGb, seconds, price) == PriceMachine(vcpus, memoryGb, 60.0, price)
  {
  }

  /** Past the first minute the charge is proportional to the time used. */
  lemma MachineProportional(vcpus: real, memoryGb: real, s1: real, s2: real, price: MachinePrice)
    requires 60.0 <= s1 && 60.0 <= s2
    ensures PriceMachine(vcpus, memoryGb, s1, price).cpu * s2 == PriceMachine(vcpus, memoryGb, s2, price).cpu * s1
    ensures PriceMachine(vcpus, memoryGb, s1, price).memory * s2 == PriceMachine(vcpus, memoryGb, s2, price).memory * s1
  {
    var c := vcpus * price.cpu / SecondsPerHour;
    var m := memoryGb * price.memory / SecondsPerHour;
    assert PriceMachine(vcpus, memoryGb, s1, price).cpu == s1 * c;
    assert PriceMachine(vcpus, memoryGb, s2, price).cpu == s2 * c;
    assert PriceMachine(vcpus, memoryGb, s1, price).memory == s1 * m;
    assert PriceMachine(vcpus, memoryGb, s2, price).memory == s2 * m;
  }

  function DiskRate(kind: string, table: DiskPrice): Option<real>
  {
    if kind == "SSD" then Some(table.ssd) else if kind == "HDD" then Some(table.hdd) else None
  }

  /** GB-seconds at a per-GB-month rate. */
  function DiskCharge(seconds: real, gb: int, rate: real): real
  {
    seconds * gb as real * rate / SecondsPerMonth
  }

  /** The disk charge for `disks` (Cromwell's `"<mount> <GB> <SSD|HDD>"`) held for `seconds`:
      anything but exactly three space-separated fields, or another disk type, is not handled.
      Unlike machine time, disks have no minimum. */
  function CostDisks(disks: Json, seconds: real, table: DiskPrice): (r: Result<real>)
    ensures r.Ok? ==> disks.Str? && |Split(disks.s, ' ')| == 3 && DiskRate(Split(disks.s, ' ')[2], table).Some?
    ensures !disks.Str? ==> r == Err(AttributeError)
    ensures disks.Str? && |Split(disks.s, ' ')| != 3 ==> r == Err(NotImplementedError)
  {
    var text :- AsStr(disks);
    var fields := Split(text, ' ');
    if |fields| != 3 then Err(NotImplementedError)
    else
      match DiskRate(fields[2], table)
      case None => Err(NotImplementedError)
      case Some(rate) =>
        match ParseInt(fields[1])
        case None => Err(ValueError)
        case Some(gb) => Ok(DiskCharge(seconds, gb, rate))
  }

  /** For a well-formed single-disk description the charge is GB-seconds at the monthly rate. */
  lemma DiskFormula(mount: string, gb: nat, kind: string, seconds: real, table: DiskPrice)
    requires ' ' !in mount && DiskRate(kind, table).Some?
    ensures CostDisks(Str(mount + " " + DecimalString(gb) + " " + kind), seconds, table)
         == Ok(DiskCharge(seconds, gb, DiskRate(kind, table).value))
  {
    var digits := DecimalString(gb);
    var text := mount + " " + digits + " " + kind;
    assert Split(text, ' ') == [mount, digits, kind] by {
      var parts := [mount, digits, kind];
      NonDigitAbsent(digits, ' ');
      SplitJoin(parts, ' ');
      assert Join(parts[2..], ' ') == kind;
      assert Join(parts[1..], ' ') == digits + " " + kind;
      assert Join(parts, ' ') == text;
    }
    ParseIntOfString(gb);
    assert ParseInt(digits) == Some(gb);
  }

  /** The disk charge is proportional to the time, down to zero: no one-minute floor. */
  lemma DiskProportional(disks: Json, s1: real, s2: real, table: DiskPrice)
    requires CostDisks(disks, s1, table).Ok?
    ensures CostDisks(disks, s2, table).Ok?
    ensures CostDisks(disks, s1, table).value * s2 == CostDisks(disks, s2, table).value * s1
  {
    var fields := Split(disks.s, ' ');
    var rate := DiskRate(fields[2], table).value;
    var gb := ParseInt(fields[1]).value;
    var k := gb as real * rate / SecondsPerMonth;
    assert CostDisks(disks, s1, table).value == DiskCharge(s1, gb, rate) == s1 * k;
    assert CostDisks(disks, s2, table).value == DiskCharge(s2, gb, rate) == s2 * k;
  }

  // ---- the key a call's cost is stored under ----------------------------

  /** `name`, then `_shard-<i>` unless the shard index is -1, then `_retry<n>` for attempt n + 1 > 1. */
  function Key(name: string, shard: int, attempt: int): string
  {
    name + Suffix(shard, attempt)
  }

  function Suffix(shard: int, attempt: int): string
  {
    ShardSuffix(shard) + RetrySuffix(attempt)
  }

  function ShardSuffix(shard: int): string
  {
    if shard != -1 then "_shard-" + IntToString(shard) else ""
  }

  function RetrySuffix(attempt: int): string
  {
    if attempt > 1 then "_retry" + IntToString(attempt - 1) else ""
  }

  /** The number Python compares with `attempt > 1` and subtracts from. */
  function AttemptNumber(attempt: Json): Result<int>
  {
    match attempt
    case Int(i) => Ok(i)
    case Bool(b) => Ok(if b then 1 else 0)
    case Num(_) => Err(Unmodelled)
    case _ => Err(TypeError)
  }

  /** The key of `call` in its workflow's `callCosts`, read from its `shardIndex` and `attempt`. */
  function CallKey(name: string, call: Json): (r: Result<string>)
    ensures !call.Obj? ==> r == Err(TypeError)
    ensures r.Ok? ==> StartsWith(r.value, name)
  {
    var shard :- Subscript(call, "shardIndex");
    var shardPart :- if EqualsInt(shard, -1) then Ok("") else
                       var text :- Format(shard); Ok("_shard-" + text);
    var attemptJ :- Subscript(call, "attempt");
    var attempt :- AttemptNumber(attemptJ);
    Ok(name + (shardPart + RetrySuffix(attempt)))
  }

  /** For integer fields the Json-level key is `Key`. */
  lemma CallKeyOfInts(name: string, call: Json, shard: int, attempt: int)
    requires call.Obj?
    requires Lookup(call.fields, "shardIndex") == Some(Int(shard)) && Lookup(call.fields, "attempt") == Some(Int(attempt))
    ensures CallKey(name, call) == Ok(Key(name, shard, attempt))
  {
  }

  /** Decimal digit strings ending two strings that are each closed by a non-digit are equal. */
  lemma {:induction false} TrailingDigits(a: string, d1: string, b: string, d2: string)
    requires a + d1 == b + d2
    requires AllDigits(d1) && AllDigits(d2)
    requires |a| > 0 && !IsDigit(a[|a| - 1]) && |b| > 0 && !IsDigit(b[|b| - 1])
    ensures d1 == d2 && a == b
  {
    var s := a + d1;
    assert s == b + d2;
    assert forall p :: |a| <= p < |s| ==> IsDigit(s[p]) by {
      forall p | |a| <= p < |s| ensures IsDigit(s[p]) { assert s[p] == d1[p - |a|]; }
    }
    assert forall p :: |b| <= p < |s| ==> IsDigit(s[p]) by {
      forall p | |b| <= p < |s| ensures IsDigit(s[p]) { assert s[p] == d2[p - |b|]; }
    }
    assert s[|a| - 1] == a[|a| - 1] && s[|b| - 1] == b[|b| - 1];
    assert d1 == s[|a|..] && d2 == s[|b|..];
    assert a == s[..|a|] && b == s[..|b|];
  }

  lemma ShardSuffixShape(shard: int)
    requires shard >= -1 && shard != -1
    ensures ShardSuffix(shard) == "_shard-" + DecimalString(shard)
  {
  }

  /** Within one call name, distinct (shard, attempt) pairs get distinct keys. */
  lemma KeyInjective(name: string, s1: int, a1: int, s2: int, a2: int)
    requires s1 >= -1 && s2 >= -1 && a1 >= 1 && a2 >= 1
    requires Key(name, s1, a1) == Key(name, s2, a2)
    ensures s1 == s2 && a1 == a2
  {
    CancelLeft(name, Suffix(s1, a1), Suffix(s2, a2));
    SuffixInjective(s1, a1, s2, a2);
  }

  lemma SuffixInjective(s1: int, a1: int, s2: int, a2: int)
    requires s1 >= -1 && s2 >= -1 && a1 >= 1 && a2 >= 1
    requires Suffix(s1, a1) == Suffix(s2, a2)
    ensures s1 == s2 && a1 == a2
  {
    if a1 > 1 && a2 > 1 {
      BothRetried(s1, a1, s2, a2);
    } else if a1 > 1 {
      ShardThenRetry(s1, a1, s2);
    } else if a2 > 1 {
      ShardThenRetry(s2, a2, s1);
    } else {
      assert RetrySuffix(a1) == [] && RetrySuffix(a2) == [];
      assert ShardSuffix(s1) + [] == ShardSuffix(s1) && ShardSuffix(s2) + [] == ShardSuffix(s2);
      ShardSuffixEqual(s1, s2);
    }
  }

  lemma BothRetried(s1: int, a1: int, s2: int, a2: int)
    requires s1 >= -1 && s2 >= -1 && a1 > 1 && a2 > 1
    requires ShardSuffix(s1) + RetrySuffix(a1) == ShardSuffix(s2) + RetrySuffix(a2)
    ensures s1 == s2 && a1 == a2
  {
    RetryShape(a1);
    RetryShape(a2);
    RetryCancel(ShardSuffix(s1), DecimalString(a1 - 1), ShardSuffix(s2), DecimalString(a2 - 1));
    DecimalStringInjective(a1 - 1, a2 - 1);
    ShardSuffixEqual(s1, s2);
  }

  lemma RetryShape(a: int)
    requires a > 1
    ensures RetrySuffix(a) == "_retry" + DecimalString(a - 1)
  {
  }

  lemma ShardShape(s: int)
    requires s >= 0
    ensures ShardSuffix(s) == "_shard-" + DecimalString(s)
  {
  }

  lemma RetryCancel(x1: string, d1: string, x2: string, d2: string)
    requires x1 + ("_retry" + d1) == x2 + ("_retry" + d2)
    requires AllDigits(d1) && AllDigits(d2)
    ensures x1 == x2 && d1 == d2
  {
    var p1 := x1 + "_retry";
    var p2 := x2 + "_retry";
    assert p1 + d1 == x1 + ("_retry" + d1);
    assert p2 + d2 == x2 + ("_retry" + d2);
    assert p1[|p1| - 1] == 'y' && p2[|p2| - 1] == 'y';
    TrailingDigits(p1, d1, p2, d2);
    CancelRight(x1, x2, "_retry");
  }

  lemma CancelLeft(z: string, x: string, y: string)
    requires z + x == z + y
    ensures x == y
  {
    assert x == (z + x)[|z|..] && y == (z + y)[|z|..];
  }

  lemma CancelRight(x: string, y: string, z: string)
    requires x + z == y + z
    ensures x == y
  {
    assert x == (x + z)[..|x|] && y == (y + z)[..|y|];
  }

  lemma ShardSuffixEqual(s1: int, s2: int)
    requires s1 >= -1 && s2 >= -1 && ShardSuffix(s1) == ShardSuffix(s2)
    ensures s1 == s2
  {
    if s1 != -1 && s2 != -1 {
      ShardShape(s1);
      ShardShape(s2);
      CancelLeft("_shard-", DecimalString(s1), DecimalString(s2));
      DecimalStringInjective(s1, s2);
    } else if s1 != -1 {
      ShardShape(s1);
    } else if s2 != -1 {
      ShardShape(s2);
    }
  }

  /** A key with a retry suffix never equals one without. */
  lemma ShardThenRetry(s1: int, a1: int, s2: int)
    requires s1 >= -1 && s2 >= -1 && a1 > 1
    ensures ShardSuffix(s1) + RetrySuffix(a1) != ShardSuffix(s2)
  {
    RetryShape(a1);
    var p1 := ShardSuffix(s1) + "_retry";
    var d1 := DecimalString(a1 - 1);
    assert ShardSuffix(s1) + RetrySuffix(a1) == p1 + d1;
    assert p1[|p1| - 1] == 'y';
    if s2 != -1 {
      ShardShape(s2);
      if p1 + d1 == "_shard-" + DecimalString(s2) {
        TrailingDigits(p1, d1, "_shard-", DecimalString(s2));
        assert false;
      }
    }
  }

  // ---- the cache-hit reference ------------------------------------------

  /** A resolved `"Cache Hit: <execution id>:<call name>:<shard index>"`. */
  datatype CacheRef = CacheRef(executionId: string, callName: string, shardIndex: int)

  const CacheHitPrefix: string := "Cache Hit: "

  /** Characters of the regex class `[-0-9a-f]`. */
  predicate IsIdChar(c: char) { c == '-' || IsDigit(c) || ('a' <= c <= 'f') }

  predicate IsExecutionId(s: string) { |s| > 0 && forall i :: 0 <= i < |s| ==> IsIdChar(s[i]) }

  /** Text the group `(-1|[0-9]+)` matches. */
  predicate IsShardText(s: string) { s == "-1" || (|s| > 0 && AllDigits(s)) }

  function ShardValue(s: string): int
    requires IsShardText(s)
  {
    if s == "-1" then -1 else DigitsValue(s)
  }

  /** Python `re.match("^Cache Hit: ([-0-9a-f]+):(.+):(-1|[0-9]+)$", s)`. The id ends at the
      first colon (it cannot hold one), the shard follows the last colon (it cannot hold one
      either), `.` excludes a newline, and `$` also matches before one final newline. */
  function MatchCacheResult(s: string): Option<CacheRef>
  {
    if !StartsWith(s, CacheHitPrefix) then None
    else MatchFields(DropFinalNewline(s[|CacheHitPrefix|..]))
  }

  /** Where `$` may match: the end, or before one final newline. */
  function DropFinalNewline(t: string): (r: string)
    ensures |r| <= |t| && r == t[..|r|]
  {
    if |t| > 0 && t[|t| - 1] == '\n' then t[..|t| - 1] else t
  }

  /** The three groups, on the text after `"Cache Hit: "` up to where `$` matches. */
  function MatchFields(t: string): Option<CacheRef>
  {
    match IndexOf(t, ':')
    case None => None
    case Some(c) =>
      var id := t[..c];
      var rest := t[c + 1..];
      match LastIndexOf(rest, ':')
      case None => None
      case Some(l) =>
        var name := rest[..l];
        var shard := rest[l + 1..];
        if IsExecutionId(id) && |name| > 0 && '\n' !in name && IsShardText(shard) then
          Some(CacheRef(id, name, ShardValue(shard)))
        else None
  }

  /** Whatever parses has a well-formed id, a one-line call name and a shard index of -1 or more,
      and the text starts with exactly those fields. */
  lemma MatchCacheResultSound(s: string)
    requires MatchCacheResult(s).Some?
    ensures var r := MatchCacheResult(s).value;
      IsExecutionId(r.executionId) && |r.callName| > 0 && '\n' !in r.callName && r.shardIndex >= -1
      && StartsWith(s, CacheHitPrefix + r.executionId + ":" + r.callName + ":")
  {
    MatchAfterSound(CacheHitPrefix, s);
  }

  /** The same after any fixed prefix. */
  lemma MatchAfterSound(p: string, s: string)
    requires StartsWith(s, p) && MatchFields(DropFinalNewline(s[|p|..])).Some?
    ensures var r := MatchFields(DropFinalNewline(s[|p|..])).value;
      IsExecutionId(r.executionId) && |r.callName| > 0 && '\n' !in r.callName && r.shardIndex >= -1
      && StartsWith(s, p + r.executionId + ":" + r.callName + ":")
  {
    var t0 := s[|p|..];
    var t := DropFinalNewline(t0);
    var r := MatchFields(t).value;
    var q := r.executionId + ":" + r.callName + ":";
    MatchFieldsSound(t);
    PrefixOfPrefix(t, t0, q);
    assert s == p + t0;
    PrefixExtend(p, t0, q);
    assert p + q == p + r.executionId + ":" + r.callName + ":";
  }

  lemma MatchFieldsSound(t: string)
    requires MatchFields(t).Some?
    ensures var r := MatchFields(t).value;
      IsExecutionId(r.executionId) && |r.callName| > 0 && '\n' !in r.callName && r.shardIndex >= -1
      && StartsWith(t, r.executionId + ":" + r.callName + ":")
  {
    var c := IndexOf(t, ':').value;
    var id := t[..c];
    var rest := t[c + 1..];
    var l := LastIndexOf(rest, ':').value;
    var name := rest[..l];
    var shard := rest[l + 1..];
    CutAt(t, c);
    CutAt(rest, l);
    TwoFieldPrefix(id, name, shard);
  }

  lemma CutAt(s: string, i: nat)
    requires i < |s|
    ensures s == s[..i] + [s[i]] + s[i + 1..]
  {
  }

  lemma TwoFieldPrefix(id: string, name: string, shard: string)
    ensures StartsWith(id + [':'] + (name + [':'] + shard), id + ":" + name + ":")
  {
    var q := id + ":" + name + ":";
    assert id + [':'] + (name + [':'] + shard) == q + shard;
  }

  lemma PrefixOfPrefix(t: string, t0: string, q: string)
    requires |t| <= |t0| && t == t0[..|t|] && StartsWith(t, q)
    ensures StartsWith(t0, q)
  {
    assert t0[..|q|] == t[..|q|];
  }

  lemma PrefixExtend(p: string, t: string, q: string)
    requires StartsWith(t, q)
    ensures StartsWith(p + t, p + q)
  {
    assert (p + t)[..|p + q|] == p + t[..|q|];
  }

  /** `parse_cache_result`: a result that is not a string is a TypeError; one that does not
      match leaves `match` as None, and `match.groups()` raises AttributeError. */
  function ParseCacheResult(call: Json): (r: Result<CacheRef>)
    ensures r.Ok? ==> IsExecutionId(r.value.executionId) && r.value.shardIndex >= -1
  {
    var caching :- Subscript(call, "callCaching");
    var result :- Subscript(caching, "result");
    if !result.Str? then Err(TypeError)
    else match MatchCacheResult(result.s)
      case None => Err(AttributeError)
      case Some(ref) => MatchCacheResultSound(result.s); Ok(ref)
  }

  function CacheResultText(ref: CacheRef): string
  {
    CacheHitPrefix + ref.executionId + ":" + ref.callName + ":" + IntToString(ref.shardIndex)
  }

  /** The text Cromwell writes for a reference parses back to that reference,
      whatever colons the call name holds. */
  lemma MatchCacheResultRoundTrip(ref: CacheRef)
    requires IsExecutionId(ref.executionId) && |ref.callName| > 0 && '\n' !in ref.callName
    requires ref.shardIndex >= -1
    ensures MatchCacheResult(CacheResultText(ref)) == Some(ref)
  {
    var id, name := ref.executionId, ref.callName;
    var st := IntToString(ref.shardIndex);
    ShardTextOfInt(ref.shardIndex);
    var rest := name + ":" + st;
    var t := id + ":" + rest;
    var s := CacheResultText(ref);
    assert s == CacheHitPrefix + t;
    assert s[|CacheHitPrefix|..] == t;
    assert t[|t| - 1] == st[|st| - 1];
    assert DropFinalNewline(t) == t;
    MatchFieldsOf(id, name, st);
  }

  lemma MatchFieldsOf(id: string, name: string, st: string)
    requires IsExecutionId(id) && |name| > 0 && '\n' !in name && IsShardText(st) && ':' !in st
    ensures MatchFields(id + ":" + (name + ":" + st)) == Some(CacheRef(id, name, ShardValue(st)))
  {
    var rest := name + ":" + st;
    var t := id + ":" + rest;
    forall i | 0 <= i < |id| ensures id[i] != ':' { assert IsIdChar(id[i]); }
    FirstColon(id, rest);
    LastColon(name, st);
    assert t[|id| + 1..] == rest;
    assert rest[..|name|] == name && rest[|name| + 1..] == st;
  }

  lemma FirstColon(head: string, tail: string)
    requires ':' !in head
    ensures IndexOf(head + ":" + tail, ':') == Some(|head|)
    ensures (head + ":" + tail)[..|head|] == head
  {
    var t := head + ":" + tail;
    ColonAfter(head, tail);
    IndexOfAt(t, ':', |head|);
  }

  lemma LastColon(head: string, tail: string)
    requires ':' !in tail
    ensures LastIndexOf(head + ":" + tail, ':') == Some(|head|)
  {
    var t := head + ":" + tail;
    ColonBefore(head, tail);
    LastIndexOfAt(t, ':', |head|);
  }

  lemma ColonAfter(head: string, tail: string)
    requires ':' !in head
    ensures var t := head + ":" + tail;
      |head| < |t| && t[|head|] == ':' && t[..|head|] == head && forall j :: 0 <= j < |head| ==> t[j] != ':'
  {
    var t := head + ":" + tail;
    forall j | 0 <= j < |head| ensures t[j] != ':' { assert t[j] == head[j]; }
  }

  lemma ColonBefore(head: string, tail: string)
    requires ':' !in tail
    ensures var t := head + ":" + tail;
      |head| < |t| && t[|head|] == ':' && forall j :: |head| < j < |t| ==> t[j] != ':'
  {
    var t := head + ":" + tail;
    forall j | |head| < j < |t| ensures t[j] != ':' { assert t[j] == tail[j - |head| - 1]; }
  }

  lemma ShardTextOfInt(shard: int)
    requires shard >= -1
    ensures IsShardText(IntToString(shard)) && ShardValue(IntToString(shard)) == shard
    ensures ':' !in IntToString(shard) && '\n' !in IntToString(shard)
    ensures IsDigit(IntToString(shard)[|IntToString(shard)| - 1])
  {
    var s := IntToString(shard);
    if shard == -1 {
      assert s == "-1";
    } else {
      DigitsValueOfDecimal(shard);
      NonDigitAbsent(s, ':');
      NonDigitAbsent(s, '\n');
    }
  }

  // ---- machine time -----------------------------------------------------

  /** A datetime parser: seconds since some epoch for an ISO-8601 text, or None when the text
      is rejected. `datetime.fromisoformat` is not modelled; callers supply it. */
  type Clock = string -> Option<real>

  /** `fromisoformat(s.rstrip('Z'))`: a non-string has no `rstrip`, a rejected text is a ValueError. */
  function FromIso(clock: Clock, j: Json): (r: Result<real>)
    ensures !j.Str? ==> r == Err(AttributeError)
  {
    var s :- AsStr(j);
    match clock(RStripChar(s, 'Z'))
    case None => Err(ValueError)
    case Some(t) => Ok(t)
  }

  /** The events whose times bound a task's machine time. */
  datatype Window = Window(start: Json, end: Json)

  /** The events `task["executionEvents"]` iterates over. */
  function TaskEvents(task: Json): Result<seq<Json>>
  {
    var events :- Subscript(task, "executionEvents");
    Iter(events)
  }

  /** `from_iso(end) - from_iso(start)`: the end is converted first. */
  function Elapsed(clock: Clock, start: Json, end: Json): (r: Result<real>)
    ensures r.Ok? ==> FromIso(clock, start).Ok? && FromIso(clock, end).Ok?
                      && r.value == FromIso(clock, end).value - FromIso(clock, start).value
  {
    var e :- FromIso(clock, end);
    var s :- FromIso(clock, start);
    Ok(e - s)
  }

  /** `next(event for event in events if event["description"] == desc)`: the first event with that
      description; an event without one before it raises, and no such event is StopIteration. */
  function FindEvent(events: seq<Json>, desc: string): (r: Result<Json>)
    ensures r.Ok? ==> r.value in events && Subscript(r.value, "description") == Ok(Str(desc))
    ensures r.Ok? ==> exists i :: 0 <= i < |events| && events[i] == r.value
                        && forall j :: 0 <= j < i ==> OtherDescription(events[j], desc)
    ensures (forall i :: 0 <= i < |events| ==> OtherDescription(events[i], desc)) ==> r == Err(StopIteration)
  {
    if |events| == 0 then Err(StopIteration)
    else
      var d :- Subscript(events[0], "description");
      if d == Str(desc) then Ok(events[0])
      else
        assert forall i :: 0 <= i < |events| - 1 ==> events[1..][i] == events[i + 1];
        FindEvent(events[1..], desc)
  }

  /** An event that has a description, and not `desc`. */
  predicate OtherDescription(event: Json, desc: string)
  {
    Subscript(event, "description").Ok? && Subscript(event, "description").value != Str(desc)
  }

  /** `next(x for x in attempts if x["shardIndex"] == shard)`: the first attempt of that shard. */
  function FindShard(attempts: seq<Json>, shard: int): (r: Result<Json>)
    ensures r.Ok? ==> r.value in attempts && Subscript(r.value, "shardIndex").Ok?
                      && EqualsInt(Subscript(r.value, "shardIndex").value, shard)
    ensures r.Ok? ==> exists i :: 0 <= i < |attempts| && attempts[i] == r.value
                        && forall j :: 0 <= j < i ==> OtherShard(attempts[j], shard)
    ensures (forall i :: 0 <= i < |attempts| ==> OtherShard(attempts[i], shard)) ==> r == Err(StopIteration)
  {
    if |attempts| == 0 then Err(StopIteration)
    else
      var x :- Subscript(attempts[0], "shardIndex");
      if EqualsInt(x, shard) then Ok(attempts[0])
      else
        assert forall i :: 0 <= i < |attempts| - 1 ==> attempts[1..][i] == attempts[i + 1];
        FindShard(attempts[1..], shard)
  }

  /** An attempt that has a shard index, and not `shard`. */
  predicate OtherShard(attempt: Json, shard: int)
  {
    Subscript(attempt, "shardIndex").Ok? && !EqualsInt(Subscript(attempt, "shardIndex").value, shard)
  }

  /** Python `[int(x) for x in fields]`: the first field that is not an integer raises ValueError. */
  function ParseInts(fields: seq<string>): (r: Result<seq<int>>)
    ensures r.Ok? <==> forall i :: 0 <= i < |fields| ==> ParseInt(fields[i]).Some?
    ensures r.Ok? ==> |r.value| == |fields| && forall i :: 0 <= i < |fields| ==> ParseInt(fields[i]) == Some(r.value[i])
    ensures r.Err? ==> r == Err(ValueError)
  {
    if |fields| == 0 then Ok([])
    else match ParseInt(fields[0])
      case None => Err(ValueError)
      case Some(n) =>
        var rest := ParseInts(fields[1..]);
        assert forall i :: 1 <= i < |fields| ==> fields[i] == fields[1..][i - 1];
        if rest.Err? then Err(ValueError) else Ok([n] + rest.value)
  }

  /** The metadata directory: the parsed `<dir>/<id>.json` of every execution, by id. */
  type Store = map<string, Json>

  /** Reading `<dir>/<id>.json`; an id with no file raises FileNotFoundError. */
  function ReadMetadata(store: Store, id: Json): (r: Result<Json>)
    ensures id.Str? && id.s in store ==> r == Ok(store[id.s])
    ensures id.Str? && id.s !in store ==> r == Err(FileNotFoundError)
  {
    var name :- Format(id);
    if name in store then Ok(store[name]) else Err(FileNotFoundError)
  }

  /** The attempts listed under the referenced call name in the metadata of the referenced
      execution; a missing metadata file raises FileNotFoundError. */
  function ReferencedAttempts(store: Store, ref: CacheRef): (r: Result<seq<Json>>)
    ensures ref.executionId !in store ==> r == Err(FileNotFoundError)
    ensures r.Ok? ==> ref.executionId in store && Subscript(store[ref.executionId], "calls").Ok?
                      && Subscript(Subscript(store[ref.executionId], "calls").value, ref.callName).Ok?
                      && Iter(Subscript(Subscript(store[ref.executionId], "calls").value, ref.callName).value) == Ok(r.value)
  {
    var metadata :- ReadMetadata(store, Str(ref.executionId));
    var calls :- Subscript(metadata, "calls");
    var named :- Subscript(calls, ref.callName);
    Iter(named)
  }

  /** How an estimator prices a call. */
  datatype CallKind = RunTask | CacheHit | Subworkflow | Unpriced

  // ---- the cost tree ----------------------------------------------------

  /** The cost record of one task attempt. `machineType` is reported by the first estimator only. */
  datatype TaskCost = TaskCost(
    durationSeconds: real,
    startTime: Json, endTime: Json,
    machineStartTime: Json, machineEndTime: Json,
    machineType: Option<Json>,
    memoryCost: real, cpuCost: real, diskCost: real,
    disks: Json,
    totalCost: real,
    attempt: Json, preemptible: Json, backendStatus: Json)

  /** A workflow's costs: one entry per priced call, keyed by `CallKey`, plus the totals. */
  datatype CostNode =
    | Task(cost: TaskCost)
    | Workflow(callCosts: seq<(string, CostNode)>,
               totalCost: real, diskCost: real, cpuCost: real, memoryCost: real,
               startTime: Json, endTime: Json, durationSeconds: real, workflowId: Json)
  {
    function Total(): real { if Task? then cost.totalCost else totalCost }
    function Cpu(): real { if Task? then cost.cpuCost else cpuCost }
    function Memory(): real { if Task? then cost.memoryCost else memoryCost }
    function Disk(): real { if Task? then cost.diskCost else diskCost }
  }

  function SumTotal(cc: seq<(string, CostNode)>): real
  {
    if |cc| == 0 then 0.0 else cc[0].1.Total() + SumTotal(cc[1..])
  }

  function SumCpu(cc: seq<(string, CostNode)>): real
  {
    if |cc| == 0 then 0.0 else cc[0].1.Cpu() + SumCpu(cc[1..])
  }

  function SumMemory(cc: seq<(string, CostNode)>): real
  {
    if |cc| == 0 then 0.0 else cc[0].1.Memory() + SumMemory(cc[1..])
  }

  function SumDisk(cc: seq<(string, CostNode)>): real
  {
    if |cc| == 0 then 0.0 else cc[0].1.Disk() + SumDisk(cc[1..])
  }

  /** A workflow node whose totals are the sums over its call costs. */
  function MakeWorkflow(cc: seq<(string, CostNode)>, start: Json, end: Json, seconds: real, id: Json): (n: CostNode)
    ensures n.Workflow? && n.callCosts == cc && n.Total() == SumTotal(cc) && n.Cpu() == SumCpu(cc)
            && n.Memory() == SumMemory(cc) && n.Disk() == SumDisk(cc)
  {
    Workflow(cc, SumTotal(cc), SumDisk(cc), SumCpu(cc), SumMemory(cc), start, end, seconds, id)
  }

  /** The workflow record around its call costs: the totals are the sums over the calls, the
      duration is `from_iso(end) - from_iso(start)` with the end converted first. */
  function FinishWorkflow(clock: Clock, metadata: Json, cc: seq<(string, CostNode)>, id: Json): (r: Result<CostNode>)
    ensures r.Ok? ==> r.value.Workflow? && r.value.callCosts == cc && r.value.workflowId == id
    ensures r.Ok? && AllConsistent(cc) ==> Consistent(r.value)
    ensures r.Ok? ==> r.value.Total() == SumTotal(cc) && r.value.Cpu() == SumCpu(cc)
                      && r.value.Memory() == SumMemory(cc) && r.value.Disk() == SumDisk(cc)
  {
    var end :- Subscript(metadata, "end");
    var e :- FromIso(clock, end);
    var start :- Subscript(metadata, "start");
    var s :- FromIso(clock, start);
    Ok(MakeWorkflow(cc, start, end, e - s, id))
  }

  /** A task's total is its cpu, memory and disk charge; a workflow's four totals are the sums
      over its calls, and every call below is consistent in turn. */
  predicate Consistent(n: CostNode)
    decreases n
  {
    match n
    case Task(t) => t.totalCost == t.cpuCost + t.memoryCost + t.diskCost
    case Workflow(cc, total, disk, cpu, memory, _, _, _, _) =>
      total == SumTotal(cc) && disk == SumDisk(cc) && cpu == SumCpu(cc) && memory == SumMemory(cc)
      && forall i :: 0 <= i < |cc| ==> Consistent(cc[i].1)
  }

  predicate AllConsistent(cc: seq<(string, CostNode)>)
  {
    forall i :: 0 <= i < |cc| ==> Consistent(cc[i].1)
  }

  /** At every level a consistent tree's total is its cpu, memory and disk charge. */
  lemma {:induction false} ConsistentTotal(n: CostNode)
    requires Consistent(n)
    ensures n.Total() == n.Cpu() + n.Memory() + n.Disk()
    decreases n, 1
  {
    if n.Workflow? {
      SumsAgree(n.callCosts, n);
    }
  }

  lemma {:induction false} SumsAgree(cc: seq<(string, CostNode)>, parent: CostNode)
    requires AllConsistent(cc)
    requires forall i :: 0 <= i < |cc| ==> cc[i].1 < parent
    ensures SumTotal(cc) == SumCpu(cc) + SumMemory(cc) + SumDisk(cc)
    decreases parent, 0, |cc|
  {
    if |cc| > 0 {
      ConsistentTotal(cc[0].1);
      assert forall i :: 0 <= i < |cc| - 1 ==> cc[1..][i] == cc[i + 1];
      SumsAgree(cc[1..], parent);
    }
  }

  /** `d[k] = v` on call costs keeps every entry consistent when `v` is. */
  lemma {:induction false} PutConsistent(cc: seq<(string, CostNode)>, k: string, v: CostNode)
    requires AllConsistent(cc) && Consistent(v)
    ensures AllConsistent(Put(cc, k, v))
  {
    if |cc| > 0 && cc[0].0 != k {
      assert AllConsistent(cc[1..]) by { assert forall i :: 0 <= i < |cc| - 1 ==> cc[1..][i] == cc[i + 1]; }
      PutConsistent(cc[1..], k, v);
      var r := Put(cc, k, v);
      assert r == [cc[0]] + Put(cc[1..], k, v);
      assert forall i :: 1 <= i < |r| ==> r[i] == Put(cc[1..], k, v)[i - 1];
    } else if |cc| > 0 {
      var r := Put(cc, k, v);
      assert forall i :: 1 <= i < |r| ==> r[i] == cc[i];
    }
  }
}
