/** Persisting a finished workflow's Cromwell responses: the timing and outputs pages, and the
    metadata of the workflow and, recursively, of every subworkflow and cached execution its
    calls refer to. The Cromwell server is a map from endpoint to the parsed body of an OK
    response (an endpoint that is absent answers non-OK); the HTTP requests and the file saves
    are recorded, in order, in a log. */
module PersistArtifacts {
  import opened Text
  import opened Json
  import opened Billing

  /** OK responses by endpoint (`<id>/metadata`, `<id>/timing`, ...). */
  type Api = map<string, Json>

  /** One effect: a request to an endpoint, or the body of a response written locally as `file`
      and copied to `dest`. */
  datatype Event = Request(endpoint: string) | Save(file: string, dest: string, body: Json)

  /** The effects of a step, and the exception that ended it, if one did. */
  datatype Outcome = Outcome(events: seq<Event>, fault: Option<Fault>)

  /** The effects of `a` and then, unless `a` raised, those of `b`. */
  function Then(a: Outcome, b: Outcome): (r: Outcome)
    ensures a.fault.Some? ==> r == a
    ensures a.fault.None? ==> r.events == a.events + b.events && r.fault == b.fault
  {
    if a.fault.Some? then a else Outcome(a.events + b.events, b.fault)
  }

  function Raise(f: Fault): Outcome { Outcome([], Some(f)) }

  /** Effects already done, then `a`, then `b`: the same as the effects and the fault of `a`
      followed by `b`. */
  lemma ThenPrefix(done: seq<Event>, a: Outcome, b: Outcome)
    ensures Then(Outcome(done, None), Then(a, b)) == Then(Outcome(done + a.events, a.fault), b)
  {
    if a.fault.None? {
      assert done + (a.events + b.events) == done + a.events + b.events;
    }
  }

  lemma AppendAssoc<T>(a: seq<T>, b: seq<T>, c: seq<T>)
    ensures (a + b) + c == a + (b + c)
  {
  }

  // ---- timing and outputs -----------------------------------------------

  /** `_persist_endpoint`: request the endpoint; on an OK response save it as `filename` and copy
      it to `<dir>/<filename>`. */
  function PersistEndpoint(api: Api, endpoint: string, dir: string, filename: string): (r: seq<Event>)
    ensures |r| >= 1 && r[0] == Request(endpoint)
    ensures endpoint in api ==> r == [Request(endpoint), Save(filename, dir + "/" + filename, api[endpoint])]
    ensures endpoint !in api ==> r == [Request(endpoint)]
    ensures SavesResponses(api, r)
  {
    [Request(endpoint)] + (if endpoint in api then [Save(filename, dir + "/" + filename, api[endpoint])] else [])
  }

  /** Every file saved holds the OK response to the request just before it. */
  predicate SavesResponses(api: Api, events: seq<Event>)
  {
    forall i :: 0 <= i < |events| && events[i].Save? ==>
      0 < i && events[i - 1].Request? && events[i - 1].endpoint in api && events[i].body == api[events[i - 1].endpoint]
  }

  /** Effects that each save only responses still do so one after the other. */
  lemma SavesResponsesConcat(api: Api, a: seq<Event>, b: seq<Event>)
    requires SavesResponses(api, a) && SavesResponses(api, b)
    ensures SavesResponses(api, a + b)
  {
    forall i | 0 <= i < |a + b| && (a + b)[i].Save?
      ensures 0 < i && (a + b)[i - 1].Request? && (a + b)[i - 1].endpoint in api && (a + b)[i].body == api[(a + b)[i - 1].endpoint]
    {
      if i < |a| {
        assert (a + b)[i] == a[i] && (a + b)[i - 1] == a[i - 1];
      } else {
        assert (a + b)[i] == b[i - |a|];
        assert (a + b)[i - 1] == b[i - |a| - 1];
      }
    }
  }

  lemma ThenSaves(api: Api, a: Outcome, b: Outcome)
    requires SavesResponses(api, a.events) && SavesResponses(api, b.events)
    ensures SavesResponses(api, Then(a, b).events)
  {
    if a.fault.None? {
      SavesResponsesConcat(api, a.events, b.events);
    }
  }

  // ---- reading a call ---------------------------------------------------

  /** `is_cache_hit`: false without a caching record or without a `hit` in it; otherwise the
      truth of `hit`. */
  function IsCacheHit(call: Json): (r: Result<bool>)
    ensures call.Obj? && "callCaching" !in Keys(call.fields) ==> r == Ok(false)
    ensures call.Obj? && Subscript(call, "callCaching").Ok? && Subscript(call, "callCaching").value.Obj? ==>
              r == Ok(HitFlag(call).Ok? && Truthy(HitFlag(call).value))
  {
    var cached :- Includes(call, "callCaching");
    if !cached then Ok(false)
    else
      var caching :- Subscript(call, "callCaching");
      var hasHit :- Includes(caching, "hit");
      if !hasHit then Ok(false)
      else
        var hit :- Subscript(caching, "hit");
        Ok(Truthy(hit))
  }

  /** A call's `callCaching.hit`. */
  function HitFlag(call: Json): Result<Json>
  {
    var caching :- Subscript(call, "callCaching");
    Subscript(caching, "hit")
  }

  /** The start of the group `(-1|[0-9]+)`: nothing after it is required. */
  predicate ShardStart(x: string)
  {
    StartsWith(x, "-1") || (|x| > 0 && IsDigit(x[0]))
  }

  /** `(.+):(-1|[0-9]+)` matches a prefix of `r`: a colon after at least one character, none of
      them a newline, and the start of a shard index after it. */
  predicate NameThenShard(r: string)
  {
    exists j :: 1 <= j < |r| && r[j] == ':' && '\n' !in r[..j] && ShardStart(r[j + 1..])
  }

  /** `re.match("Cache Hit: ([-0-9a-f]+):(.+):(-1|[0-9]+)", s)`, group 1: no `$`, so whatever
      follows the shard index is accepted. The id is the text up to the first colon. */
  function MatchCachedId(s: string): (r: Option<string>)
    ensures r.Some? ==> IsExecutionId(r.value) && StartsWith(s, CacheHitPrefix + r.value + ":")
  {
    if !StartsWith(s, CacheHitPrefix) then None
    else
      var t := s[|CacheHitPrefix|..];
      match IndexOf(t, ':')
      case None => None
      case Some(c) =>
        if IsExecutionId(t[..c]) && NameThenShard(t[c + 1..]) then
          IdPrefix(s, t, c);
          Some(t[..c])
        else None
  }

  lemma IdPrefix(s: string, t: string, c: nat)
    requires StartsWith(s, CacheHitPrefix) && t == s[|CacheHitPrefix|..] && c < |t| && t[c] == ':'
    ensures StartsWith(s, CacheHitPrefix + t[..c] + ":")
  {
    assert s == CacheHitPrefix + t;
    assert t[..c + 1] == t[..c] + ":";
    assert s[..|CacheHitPrefix| + c + 1] == CacheHitPrefix + t[..c + 1];
  }

  /** `cached_id`: a result that is not a string cannot be matched, and text that does not match
      leaves `match` as None, whose `groups` raises AttributeError. */
  function CachedId(call: Json): (r: Result<string>)
    ensures r.Ok? ==> IsExecutionId(r.value)
    ensures r.Err? ==> r.fault in {KeyError, TypeError, AttributeError}
  {
    var caching :- Subscript(call, "callCaching");
    var result :- Subscript(caching, "result");
    if !result.Str? then Err(TypeError)
    else match MatchCachedId(result.s)
      case None => Err(AttributeError)
      case Some(id) => Ok(id)
  }

  /** The text Cromwell writes for a cache hit gives its execution id, whatever follows it. */
  lemma TrailingTextTolerated(ref: CacheRef, tail: string)
    requires IsExecutionId(ref.executionId) && |ref.callName| > 0 && '\n' !in ref.callName
    requires ref.shardIndex >= -1
    ensures MatchCachedId(CacheResultText(ref) + tail) == Some(ref.executionId)
  {
    var id, name := ref.executionId, ref.callName;
    var st := IntToString(ref.shardIndex);
    ShardTextOfInt(ref.shardIndex);
    var rest := name + ":" + (st + tail);
    var t := id + ":" + rest;
    var s := CacheResultText(ref) + tail;
    assert s == CacheHitPrefix + t;
    assert s[|CacheHitPrefix|..] == t;
    forall i | 0 <= i < |id| ensures id[i] != ':' { assert IsIdChar(id[i]); }
    FirstColon(id, rest);
    assert t[|id| + 1..] == rest;
    NameWitness(name, st, tail);
  }

  lemma NameWitness(name: string, st: string, tail: string)
    requires |name| > 0 && '\n' !in name && IsShardText(st)
    ensures NameThenShard(name + ":" + (st + tail))
  {
    var r := name + ":" + (st + tail);
    var j := |name|;
    assert r[..j] == name && r[j] == ':';
    assert r[j + 1..] == st + tail;
    assert (st + tail)[..|st|] == st;
    assert st != "-1" ==> (st + tail)[0] == st[0] && IsDigit(st[0]);
  }

  /** Text that is a cache-hit reference followed by anything gives the same id: for example
      `Cache Hit: ab:c:1 x` gives `ab`, which the anchored pattern of the estimators rejects. */
  lemma CachedIdExample()
    ensures MatchCachedId("Cache Hit: ab:c:1 x") == Some("ab")
  {
    var ref := CacheRef("ab", "c", 1);
    assert IsExecutionId("ab") by { assert IsIdChar('a') && IsIdChar('b'); }
    TrailingTextTolerated(ref, " x");
    assert IntToString(1) == "1";
    assert CacheResultText(ref) + " x" == "Cache Hit: ab:c:1 x";
  }

  // ---- the reference walk -----------------------------------------------

  /** The id a call refers to and whether it has one: a subworkflow id first, even for a cache
      hit, then a cache hit's execution id. */
  function Reference(call: Json): (r: Result<Option<string>>)
    ensures call.Obj? && "subWorkflowId" in Keys(call.fields) ==>
              r == (var f := Format(Subscript(call, "subWorkflowId").value);
                    if f.Ok? then Ok(Some(f.value)) else Err(f.fault))
    ensures call.Obj? && "subWorkflowId" !in Keys(call.fields) && IsCacheHit(call) == Ok(false) ==> r == Ok(None)
    ensures call.Obj? && "subWorkflowId" !in Keys(call.fields) && IsCacheHit(call) == Ok(true) ==>
              r == (if CachedId(call).Ok? then Ok(Some(CachedId(call).value)) else Err(CachedId(call).fault))
  {
    var sub :- Includes(call, "subWorkflowId");
    if sub then
      var j :- Subscript(call, "subWorkflowId");
      var id :- Format(j);
      Ok(Some(id))
    else
      var hit :- IsCacheHit(call);
      if hit then
        var id :- CachedId(call);
        Ok(Some(id))
      else Ok(None)
  }

  /** `save_metadata` for one id: the metadata request; on an OK response, `<id>.json` is saved
      and then every call's reference is followed in call order; a non-OK response ends there.
      `fuel` bounds the depth of references, as Python's recursion limit does. */
  function Visit(api: Api, id: string, dir: string, fuel: nat): Outcome
    decreases fuel, 3
  {
    var endpoint := id + "/metadata";
    if endpoint !in api then Outcome([Request(endpoint)], None)
    else
      var saved := Outcome([Request(endpoint), Save(id + ".json", dir + "/" + id + ".json", api[endpoint])], None);
      Then(saved, VisitMetadata(api, api[endpoint], dir, fuel))
  }

  /** Every walk starts with the metadata request; a non-OK response ends it with nothing else
      done, and an OK one is saved before any reference is followed. */
  lemma VisitEffects(api: Api, id: string, dir: string, fuel: nat)
    ensures var r := Visit(api, id, dir, fuel);
      |r.events| >= 1 && r.events[0] == Request(id + "/metadata") &&
      (id + "/metadata" !in api ==> r == Outcome([Request(id + "/metadata")], None)) &&
      (id + "/metadata" in api ==> |r.events| >= 2 && r.events[1] == Save(id + ".json", dir + "/" + id + ".json", api[id + "/metadata"]))
  {
  }

  /** The loops over `metadata.get("calls", {})`. */
  function VisitMetadata(api: Api, metadata: Json, dir: string, fuel: nat): Outcome
    decreases fuel, 2
  {
    match DictGet(metadata, "calls", Obj([]))
    case Err(f) => Raise(f)
    case Ok(calls) =>
      match Items(calls)
      case Err(f) => Raise(f)
      case Ok(groups) => VisitGroups(api, groups, dir, fuel)
  }

  function VisitGroups(api: Api, groups: seq<(string, Json)>, dir: string, fuel: nat): Outcome
    decreases fuel, 2, |groups|
  {
    if |groups| == 0 then Outcome([], None)
    else Then(VisitGroup(api, groups[0].1, dir, fuel), VisitGroups(api, groups[1..], dir, fuel))
  }

  /** The calls under one call name: a value that cannot be iterated raises. */
  function VisitGroup(api: Api, calls: Json, dir: string, fuel: nat): Outcome
    decreases fuel, 2, 0
  {
    match Iter(calls)
    case Err(f) => Raise(f)
    case Ok(cs) => VisitRefs(api, References(cs), dir, fuel)
  }

  /** The reference of each call. A reference is computed from its call alone, so computing them
      all first and following them in order has the effects of the loop, which computes each one
      just before following it. */
  function References(calls: seq<Json>): seq<Result<Option<string>>>
  {
    seq(|calls|, i requires 0 <= i < |calls| => Reference(calls[i]))
  }

  function VisitRefs(api: Api, refs: seq<Result<Option<string>>>, dir: string, fuel: nat): Outcome
    decreases fuel, 1, |refs|
  {
    if |refs| == 0 then Outcome([], None)
    else Then(VisitRef(api, refs[0], dir, fuel), VisitRefs(api, refs[1..], dir, fuel))
  }

  /** One call: follow its reference, if it has one; an exception computing it ends the walk. */
  function VisitRef(api: Api, ref: Result<Option<string>>, dir: string, fuel: nat): Outcome
    decreases fuel, 0
  {
    match ref
    case Err(f) => Raise(f)
    case Ok(None) => Outcome([], None)
    case Ok(Some(id)) => if fuel == 0 then Raise(RecursionLimit) else Visit(api, id, dir, fuel - 1)
  }

  /** Every file the metadata walk saves holds the response to the request just before it: the
      metadata of the execution requested. */
  lemma {:induction false} VisitSaves(api: Api, id: string, dir: string, fuel: nat)
    ensures SavesResponses(api, Visit(api, id, dir, fuel).events)
    decreases fuel, 3
  {
    var endpoint := id + "/metadata";
    if endpoint in api {
      var saved := Outcome([Request(endpoint), Save(id + ".json", dir + "/" + id + ".json", api[endpoint])], None);
      assert SavesResponses(api, saved.events);
      MetadataSaves(api, api[endpoint], dir, fuel);
      ThenSaves(api, saved, VisitMetadata(api, api[endpoint], dir, fuel));
    } else {
      assert Visit(api, id, dir, fuel).events == [Request(endpoint)];
    }
  }

  lemma {:induction false} MetadataSaves(api: Api, metadata: Json, dir: string, fuel: nat)
    ensures SavesResponses(api, VisitMetadata(api, metadata, dir, fuel).events)
    decreases fuel, 2
  {
    match DictGet(metadata, "calls", Obj([]))
    case Err(f) =>
    case Ok(calls) =>
      match Items(calls)
      case Err(f) =>
      case Ok(groups) => GroupsSaves(api, groups, dir, fuel);
  }

  lemma {:induction false} GroupsSaves(api: Api, groups: seq<(string, Json)>, dir: string, fuel: nat)
    ensures SavesResponses(api, VisitGroups(api, groups, dir, fuel).events)
    decreases fuel, 2, |groups|
  {
    if |groups| > 0 {
      GroupSaves(api, groups[0].1, dir, fuel);
      GroupsSaves(api, groups[1..], dir, fuel);
      ThenSaves(api, VisitGroup(api, groups[0].1, dir, fuel), VisitGroups(api, groups[1..], dir, fuel));
    }
  }

  lemma {:induction false} GroupSaves(api: Api, calls: Json, dir: string, fuel: nat)
    ensures SavesResponses(api, VisitGroup(api, calls, dir, fuel).events)
    decreases fuel, 2, 0
  {
    match Iter(calls)
    case Err(f) =>
    case Ok(cs) => RefsSaves(api, References(cs), dir, fuel);
  }

  lemma {:induction false} RefsSaves(api: Api, refs: seq<Result<Option<string>>>, dir: string, fuel: nat)
    ensures SavesResponses(api, VisitRefs(api, refs, dir, fuel).events)
    decreases fuel, 1, |refs|
  {
    if |refs| > 0 {
      RefSaves(api, refs[0], dir, fuel);
      RefsSaves(api, refs[1..], dir, fuel);
      ThenSaves(api, VisitRef(api, refs[0], dir, fuel), VisitRefs(api, refs[1..], dir, fuel));
    }
  }

  lemma {:induction false} RefSaves(api: Api, ref: Result<Option<string>>, dir: string, fuel: nat)
    ensures SavesResponses(api, VisitRef(api, ref, dir, fuel).events)
    decreases fuel, 0
  {
    match ref
    case Err(f) =>
    case Ok(None) =>
    case Ok(Some(id)) => if fuel > 0 { VisitSaves(api, id, dir, fuel - 1); }
  }

  /** One turn of the loop over calls: the walk of `refs[j..]` after `done` is the first call's
      effects, and then, unless it raised, the walk of the rest. */
  lemma CallsStep(api: Api, refs: seq<Result<Option<string>>>, j: nat, done: seq<Event>, dir: string, fuel: nat)
    requires j < |refs|
    ensures var step := VisitRef(api, refs[j], dir, fuel);
      var walk := VisitRefs(api, refs[j..], dir, fuel);
      var rest := VisitRefs(api, refs[j + 1..], dir, fuel);
      (step.fault.Some? ==> walk == step) &&
      (step.fault.None? ==> done + walk.events == (done + step.events) + rest.events && walk.fault == rest.fault)
  {
    assert refs[j..][0] == refs[j] && refs[j..][1..] == refs[j + 1..];
  }

  /** One turn of the loop over call names. */
  lemma GroupsStep(api: Api, groups: seq<(string, Json)>, i: nat, done: seq<Event>, dir: string, fuel: nat)
    requires i < |groups|
    ensures var first := VisitGroup(api, groups[i].1, dir, fuel);
      var walk := VisitGroups(api, groups[i..], dir, fuel);
      var rest := VisitGroups(api, groups[i + 1..], dir, fuel);
      (first.fault.Some? ==> walk == first) &&
      (first.fault.None? ==> done + walk.events == (done + first.events) + rest.events && walk.fault == rest.fault)
  {
    assert groups[i..][0] == groups[i] && groups[i..][1..] == groups[i + 1..];
  }

  /** Nothing is remembered between references: a call list naming the same subworkflow twice
      requests and saves it twice. */
  lemma RepeatedReferenceVisitedTwice(api: Api, call: Json, dir: string, fuel: nat)
    requires Reference(call).Ok? && Reference(call).value.Some? && fuel > 0
    requires Visit(api, Reference(call).value.value, dir, fuel - 1).fault.None?
    ensures var once := Visit(api, Reference(call).value.value, dir, fuel - 1);
      VisitRefs(api, References([call, call]), dir, fuel) == Outcome(once.events + once.events, None)
  {
    var once := Visit(api, Reference(call).value.value, dir, fuel - 1);
    var refs := References([call, call]);
    assert VisitRef(api, refs[0], dir, fuel) == once;
    assert refs[1..] == [refs[1]];
    assert VisitRefs(api, [refs[1]], dir, fuel) == Then(once, Outcome([], None));
    assert once.events + [] == once.events;
  }

  /** What the script writes: the requests and saves, in order. */
  class Archive {
    var log: seq<Event>

    constructor ()
      ensures log == []
    {
      log := [];
    }

    /** `save_timing`: the timing page, saved as `timing.html`. */
    method SaveTiming(api: Api, id: string, dir: string)
      modifies this
      ensures log == old(log) + PersistEndpoint(api, id + "/timing", dir, "timing.html")
    {
      log := log + PersistEndpoint(api, id + "/timing", dir, "timing.html");
    }

    /** `save_outputs`: the outputs page, saved as `outputs.html`. */
    method SaveOutputs(api: Api, id: string, dir: string)
      modifies this
      ensures log == old(log) + PersistEndpoint(api, id + "/outputs", dir, "outputs.html")
    {
      log := log + PersistEndpoint(api, id + "/outputs", dir, "outputs.html");
    }

    /** `save_metadata`: the effects happen in the order of `Visit`, and an exception stops the walk
        with the effects before it already done. */
    method SaveMetadata(api: Api, id: string, dir: string, fuel: nat) returns (fault: Option<Fault>)
      modifies this
      ensures log == old(log) + Visit(api, id, dir, fuel).events && fault == Visit(api, id, dir, fuel).fault
      decreases fuel, 3
    {
      var endpoint := id + "/metadata";
      log := log + [Request(endpoint)];
      if endpoint !in api {
        return None;
      }
      log := log + [Save(id + ".json", dir + "/" + id + ".json", api[endpoint])];
      fault := SaveReferences(api, api[endpoint], dir, fuel);
    }

    /** The loop over the call names of a metadata record. */
    method SaveReferences(api: Api, metadata: Json, dir: string, fuel: nat) returns (fault: Option<Fault>)
      modifies this
      ensures log == old(log) + VisitMetadata(api, metadata, dir, fuel).events
      ensures fault == VisitMetadata(api, metadata, dir, fuel).fault
      decreases fuel, 2
    {
      var calls := DictGet(metadata, "calls", Obj([]));
      if calls.Err? {
        return Some(calls.fault);
      }
      var items := Items(calls.value);
      if items.Err? {
        return Some(items.fault);
      }
      var groups := items.value;
      assert VisitMetadata(api, metadata, dir, fuel) == VisitGroups(api, groups, dir, fuel);
      var i := 0;
      ghost var done: seq<Event> := [];
      while i < |groups|
        invariant 0 <= i <= |groups| && log == old(log) + done
        invariant VisitGroups(api, groups, dir, fuel).events == done + VisitGroups(api, groups[i..], dir, fuel).events
        invariant VisitGroups(api, groups, dir, fuel).fault == VisitGroups(api, groups[i..], dir, fuel).fault
      {
        ghost var first := VisitGroup(api, groups[i].1, dir, fuel);
        GroupsStep(api, groups, i, done, dir, fuel);
        AppendAssoc(old(log), done, first.events);
        fault := SaveGroup(api, groups[i].1, dir, fuel);
        done := done + first.events;
        if fault.Some? {
          return;
        }
        i := i + 1;
      }
      assert done + [] == done;
      return None;
    }

    /** The calls under one call name. */
    method SaveGroup(api: Api, calls: Json, dir: string, fuel: nat) returns (fault: Option<Fault>)
      modifies this
      ensures log == old(log) + VisitGroup(api, calls, dir, fuel).events
      ensures fault == VisitGroup(api, calls, dir, fuel).fault
      decreases fuel, 2, 0
    {
      var iter := Iter(calls);
      if iter.Err? {
        assert log + [] == log;
        return Some(iter.fault);
      }
      fault := SaveCalls(api, References(iter.value), dir, fuel);
    }

    /** The loop over the calls of one name, given their references. */
    method SaveCalls(api: Api, refs: seq<Result<Option<string>>>, dir: string, fuel: nat) returns (fault: Option<Fault>)
      modifies this
      ensures log == old(log) + VisitRefs(api, refs, dir, fuel).events
      ensures fault == VisitRefs(api, refs, dir, fuel).fault
      decreases fuel, 1, |refs|
    {
      var j := 0;
      ghost var done: seq<Event> := [];
      while j < |refs|
        invariant 0 <= j <= |refs| && log == old(log) + done
        invariant VisitRefs(api, refs, dir, fuel).events == done + VisitRefs(api, refs[j..], dir, fuel).events
        invariant VisitRefs(api, refs, dir, fuel).fault == VisitRefs(api, refs[j..], dir, fuel).fault
      {
        ghost var step := VisitRef(api, refs[j], dir, fuel);
        CallsStep(api, refs, j, done, dir, fuel);
        AppendAssoc(old(log), done, step.events);
        fault := SaveCall(api, refs[j], dir, fuel);
        done := done + step.events;
        if fault.Some? {
          return;
        }
        j := j + 1;
      }
      assert done + [] == done;
      return None;
    }

    /** One call, given its reference: follow it, if there is one. */
    method SaveCall(api: Api, ref: Result<Option<string>>, dir: string, fuel: nat) returns (fault: Option<Fault>)
      modifies this
      ensures log == old(log) + VisitRef(api, ref, dir, fuel).events
      ensures fault == VisitRef(api, ref, dir, fuel).fault
      decreases fuel, 0
    {
      if ref.Err? {
        assert log + [] == log;
        return Some(ref.fault);
      }
      if ref.value.None? {
        assert log + [] == log;
        return None;
      }
      if fuel == 0 {
        assert log + [] == log;
        return Some(RecursionLimit);
      }
      fault := SaveMetadata(api, ref.value.value, dir, fuel - 1);
    }
  }
}
