/** The second billing estimator. It prices the same cost tree as the first, with newer prices
    and other rules: only a call whose `executionStatus` is `Done` is priced; such a call is a
    cache hit when its `callCaching.hit` is True, a subworkflow when it has a `subWorkflowId`,
    and a task otherwise. A task's memory is read from its runtime attributes, and its machine
    time always runs from the `RunningJob` event to the `UpdatingJobStore` event. */
module GbEstimateBilling {
  import opened Text
  import opened Json
  import opened Billing

  const OnDemandPrice: MachinePrice := MachinePrice(0.004906, 0.036602)
  const PreemptiblePrice: MachinePrice := MachinePrice(0.000939, 0.00702)
  const DiskPrices: DiskPrice := DiskPrice(0.204, 0.048)

  /** The price table a task uses: preemptible when its `preemptible` field is truthy. */
  function MachineTable(preemptible: Json): MachinePrice
  {
    if Truthy(preemptible) then PreemptiblePrice else OnDemandPrice
  }

  // ---- classification ---------------------------------------------------

  /** `get_calls`: the metadata's `calls`, or an empty dict when it has none. */
  function GetCalls(metadata: Json): (r: Result<Json>)
    ensures r.Ok? <==> metadata.Obj?
    ensures metadata.Obj? && "calls" !in Keys(metadata.fields) ==> r == Ok(Obj([]))
    ensures metadata.Obj? && "calls" in Keys(metadata.fields) ==> r == Subscript(metadata, "calls")
  {
    DictGet(metadata, "calls", Obj([]))
  }

  /** The `hit` flag of a call's caching record, when the call has one. */
  function HitFlag(call: Json): Result<Json>
  {
    var caching :- Subscript(call, "callCaching");
    Subscript(caching, "hit")
  }

  /** `is_cached_task`: false without a caching record; with one, whether `hit == True`, so a
      hit of 1 or 1.0 counts and any other value, or a missing `hit`, does not. */
  function IsCachedTask(call: Json): (r: Result<bool>)
    ensures call.Obj? && "callCaching" !in Keys(call.fields) ==> r == Ok(false)
    ensures r == Ok(true) <==> HitFlag(call).Ok? && EqualsInt(HitFlag(call).value, 1)
    ensures call.Obj? && "callCaching" in Keys(call.fields) ==>
              (r == Ok(false) <==> HitFlag(call).Ok? && !EqualsInt(HitFlag(call).value, 1))
  {
    var cached :- Includes(call, "callCaching");
    if cached then
      var hit :- HitFlag(call);
      Ok(EqualsInt(hit, 1))
    else Ok(false)
  }

  /** `is_subworkflow`: the call has a `subWorkflowId`. */
  function IsSubworkflow(call: Json): (r: Result<bool>)
    ensures call.Obj? ==> r == Ok("subWorkflowId" in Keys(call.fields))
  {
    Includes(call, "subWorkflowId")
  }

  /** `is_task_completed`: the call's `executionStatus` is `Done`; a call without one raises. */
  function IsTaskCompleted(call: Json): (r: Result<bool>)
    ensures r.Ok? <==> Subscript(call, "executionStatus").Ok?
    ensures r == Ok(true) <==> Subscript(call, "executionStatus") == Ok(Str("Done"))
  {
    var status :- Subscript(call, "executionStatus");
    Ok(status == Str("Done"))
  }

  /** A call whose status is Done. */
  predicate Done(call: Json)
  {
    Subscript(call, "executionStatus") == Ok(Str("Done"))
  }

  /** The classification of `get_workflow_cost`, tried in this order: completion, then a cache
      hit, then a subworkflow, and a task otherwise. */
  function Classify(call: Json): (r: Result<CallKind>)
    ensures r == Ok(Unpriced) <==> Subscript(call, "executionStatus").Ok? && !Done(call)
    ensures r == Ok(CacheHit) <==> Done(call) && IsCachedTask(call) == Ok(true)
    ensures r == Ok(Subworkflow) <==>
              (Done(call) && IsCachedTask(call) == Ok(false) && "subWorkflowId" in Keys(call.fields))
    ensures r == Ok(RunTask) <==>
              (Done(call) && IsCachedTask(call) == Ok(false) && "subWorkflowId" !in Keys(call.fields))
  {
    var done :- IsTaskCompleted(call);
    if !done then Ok(Unpriced)
    else
      var cached :- IsCachedTask(call);
      if cached then Ok(CacheHit)
      else
        if IsSubworkflow(call).value then Ok(Subworkflow) else Ok(RunTask)
  }

  // ---- machine time -----------------------------------------------------

  /** `get_machine_duration`: the start time of the first `RunningJob` event and the end time of
      the first `UpdatingJobStore` event; a missing event raises StopIteration. */
  function MachineDuration(task: Json): (r: Result<Window>)
    ensures r.Ok? ==> (TaskEvents(task).Ok?
              && FindEvent(TaskEvents(task).value, "RunningJob").Ok?
              && FindEvent(TaskEvents(task).value, "UpdatingJobStore").Ok?
              && Subscript(FindEvent(TaskEvents(task).value, "RunningJob").value, "startTime") == Ok(r.value.start)
              && Subscript(FindEvent(TaskEvents(task).value, "UpdatingJobStore").value, "endTime") == Ok(r.value.end))
    ensures TaskEvents(task).Ok?
            && (forall i :: 0 <= i < |TaskEvents(task).value| ==> OtherDescription(TaskEvents(task).value[i], "RunningJob"))
            ==> r == Err(StopIteration)
    ensures TaskEvents(task).Ok? && FindEvent(TaskEvents(task).value, "RunningJob").Ok?
            && (forall i :: 0 <= i < |TaskEvents(task).value| ==> OtherDescription(TaskEvents(task).value[i], "UpdatingJobStore"))
            ==> r == Err(StopIteration)
  {
    var events :- TaskEvents(task);
    var startEvent :- FindEvent(events, "RunningJob");
    var endEvent :- FindEvent(events, "UpdatingJobStore");
    if !(Truthy(startEvent) && Truthy(endEvent)) then Err(NotImplementedError)
    else
      var start :- Subscript(startEvent, "startTime");
      var end :- Subscript(endEvent, "endTime");
      Ok(Window(start, end))
  }

  // ---- machine and memory -----------------------------------------------

  /** The memory size in GB of a `memory` attribute: the first run of digits, taken as GB when
      the text contains `GB` and as MB (1000 to the GB) otherwise. A non-string cannot be
      searched and a text without digits has no match. */
  function MemoryAmount(memory: Json): (r: Result<real>)
    ensures !memory.Str? ==> r == Err(TypeError)
    ensures memory.Str? ==> (r.Err? <==> forall i :: 0 <= i < |memory.s| ==> !IsDigit(memory.s[i]))
    ensures r.Err? ==> r == Err(TypeError) || r == Err(AttributeError)
    ensures r.Ok? ==> r.value >= 0.0
  {
    if !memory.Str? then Err(TypeError)
    else
      match FirstDigitRun(memory.s)
      case None => Err(AttributeError)
      case Some(digits) =>
        var value := DigitsValue(digits);
        Ok(if Contains(memory.s, "GB") then value as real else value as real / 1000.0)
  }

  /** `<n> GB` is n GB. */
  lemma MemoryInGb(n: nat)
    ensures MemoryAmount(Str(DecimalString(n) + " GB")) == Ok(n as real)
  {
    var d := DecimalString(n);
    MemoryDigits(d, " GB");
    UnitGb(d);
    DigitsValueOfDecimal(n);
  }

  /** `<n> MB` is n / 1000 GB. */
  lemma MemoryInMb(n: nat)
    ensures MemoryAmount(Str(DecimalString(n) + " MB")) == Ok(n as real / 1000.0)
  {
    var d := DecimalString(n);
    MemoryDigits(d, " MB");
    UnitMb(d);
    DigitsValueOfDecimal(n);
  }

  /** Only the digits before a decimal point are read: `6.5 GB` is 6 GB. */
  lemma FractionDropped()
    ensures MemoryAmount(Str("6.5 GB")) == Ok(6.0)
  {
    MemoryDigits("6", ".5 GB");
    assert DigitsValue("6") == 6;
    assert OccursAt("6.5 GB", "GB", 4);
  }

  lemma MemoryDigits(d: string, unit: string)
    requires |d| > 0 && AllDigits(d) && |unit| > 0 && !IsDigit(unit[0])
    ensures FirstDigitRun(d + unit) == Some(d)
  {
    FirstDigitRunOf("", d, unit);
    assert "" + d + unit == d + unit;
  }

  lemma UnitGb(d: string)
    ensures Contains(d + " GB", "GB")
  {
    assert OccursAt(d + " GB", "GB", |d| + 1);
  }

  lemma UnitMb(d: string)
    requires AllDigits(d)
    ensures !Contains(d + " MB", "GB")
  {
    var s := d + " MB";
    forall j: nat ensures !OccursAt(s, "GB", j) {
      if j < |s| {
        assert j < |d| ==> IsDigit(s[j]);
        assert s[j] != 'G';
      }
    }
  }

  /** `get_machine_cost`: cpu count `int(cpu)` and the memory size, priced over the machine
      time with its one-minute minimum. */
  function CostMachine(task: Json, seconds: real, preemptible: Json): (r: Result<MachineCost>)
    ensures r.Ok? ==> Subscript(task, "runtimeAttributes").Ok?
    ensures r.Ok? ==> var attributes := Subscript(task, "runtimeAttributes").value;
              Subscript(attributes, "cpu").Ok? && IntOf(Subscript(attributes, "cpu").value).Ok?
              && Subscript(attributes, "memory").Ok? && MemoryAmount(Subscript(attributes, "memory").value).Ok?
              && r.value == PriceMachine(IntOf(Subscript(attributes, "cpu").value).value as real,
                                         MemoryAmount(Subscript(attributes, "memory").value).value,
                                         seconds, MachineTable(preemptible))
  {
    var attributes :- Subscript(task, "runtimeAttributes");
    var cpuField :- Subscript(attributes, "cpu");
    var cpu :- IntOf(cpuField);
    var memoryField :- Subscript(attributes, "memory");
    var gb :- MemoryAmount(memoryField);
    Ok(PriceMachine(cpu as real, gb, seconds, MachineTable(preemptible)))
  }

  /** A task with `cpu` cpus and `<n> GB` of memory costs the per-hour rates of its table for
      `cpu` cpus and n GB. */
  lemma MachineFormula(cpu: int, n: nat, seconds: real, preemptible: Json)
    ensures var task := Obj([("runtimeAttributes", Obj([("cpu", Int(cpu)), ("memory", Str(DecimalString(n) + " GB"))]))]);
      CostMachine(task, seconds, preemptible) == Ok(PriceMachine(cpu as real, n as real, seconds, MachineTable(preemptible)))
  {
    var memory := Str(DecimalString(n) + " GB");
    var attributes := Obj([("cpu", Int(cpu)), ("memory", memory)]);
    var task := Obj([("runtimeAttributes", attributes)]);
    assert Subscript(task, "runtimeAttributes") == Ok(attributes);
    assert Subscript(attributes, "cpu") == Ok(Int(cpu));
    assert attributes.fields[1..] == [("memory", memory)];
    assert Lookup(attributes.fields[1..], "memory") == Some(memory);
    assert "cpu" != "memory";
    assert Lookup(attributes.fields, "memory") == Some(memory);
    assert Subscript(attributes, "memory") == Ok(memory);
    MemoryInGb(n);
  }

  // ---- one call ---------------------------------------------------------

  /** `get_task_cost`: machine and disk priced over the machine time; the total is their sum. */
  function CostTask(clock: Clock, task: Json): (r: Result<TaskCost>)
    ensures r.Ok? ==> MachineDuration(task).Ok?
    ensures r.Ok? ==> var w := MachineDuration(task).value;
              r.value.machineStartTime == w.start && r.value.machineEndTime == w.end
              && Elapsed(clock, w.start, w.end) == Ok(r.value.durationSeconds)
    ensures r.Ok? ==> r.value.machineType.None?
    ensures r.Ok? ==> Subscript(task, "preemptible") == Ok(r.value.preemptible)
    ensures r.Ok? ==> CostMachine(task, r.value.durationSeconds, r.value.preemptible)
                      == Ok(MachineCost(r.value.cpuCost, r.value.memoryCost))
    ensures r.Ok? ==> CostDisks(r.value.disks, r.value.durationSeconds, DiskPrices) == Ok(r.value.diskCost)
    ensures r.Ok? ==> Subscript(task, "runtimeAttributes").Ok?
                      && Subscript(Subscript(task, "runtimeAttributes").value, "disks") == Ok(r.value.disks)
    ensures r.Ok? ==> r.value.totalCost == r.value.cpuCost + r.value.memoryCost + r.value.diskCost
  {
    var w :- MachineDuration(task);
    var seconds :- Elapsed(clock, w.start, w.end);
    var preemptible :- Subscript(task, "preemptible");
    var attributes :- Subscript(task, "runtimeAttributes");
    var disks :- Subscript(attributes, "disks");
    var machine :- CostMachine(task, seconds, preemptible);
    var disk :- CostDisks(disks, seconds, DiskPrices);
    var start :- Subscript(task, "start");
    var end :- Subscript(task, "end");
    var attempt :- Subscript(task, "attempt");
    var backendStatus :- Subscript(task, "backendStatus");
    Ok(TaskCost(seconds, start, end, w.start, w.end, None,
                machine.memory, machine.cpu, disk, disks, machine.cpu + machine.memory + disk,
                attempt, preemptible, backendStatus))
  }

  /** `get_cached_cost`: the cost of the first attempt, under the same call name in the execution
      the cache-hit text names, whose shard index is the one named. */
  function CostCachedCall(store: Store, clock: Clock, call: Json): (r: Result<TaskCost>)
    ensures r.Ok? ==> ParseCacheResult(call).Ok?
    ensures r.Ok? ==> var ref := ParseCacheResult(call).value;
              ReferencedAttempts(store, ref).Ok? && FindShard(ReferencedAttempts(store, ref).value, ref.shardIndex).Ok?
              && r == CostTask(clock, FindShard(ReferencedAttempts(store, ref).value, ref.shardIndex).value)
    ensures r.Ok? ==> r.value.totalCost == r.value.cpuCost + r.value.memoryCost + r.value.diskCost
  {
    var ref :- ParseCacheResult(call);
    var attempts :- ReferencedAttempts(store, ref);
    var data :- FindShard(attempts, ref.shardIndex);
    CostTask(clock, data)
  }

  /** The referenced attempt is priced as if it ran here. */
  lemma CachedCallIsReferencedTask(store: Store, clock: Clock, call: Json, attempts: seq<Json>)
    requires ParseCacheResult(call).Ok?
    requires var ref := ParseCacheResult(call).value;
      ref.executionId in store && Subscript(store[ref.executionId], "calls").Ok?
      && Subscript(Subscript(store[ref.executionId], "calls").value, ref.callName) == Ok(Arr(attempts))
    ensures var ref := ParseCacheResult(call).value;
      FindShard(attempts, ref.shardIndex).Ok? ==>
        CostCachedCall(store, clock, call) == CostTask(clock, FindShard(attempts, ref.shardIndex).value)
    ensures var ref := ParseCacheResult(call).value;
      (forall i :: 0 <= i < |attempts| ==> OtherShard(attempts[i], ref.shardIndex))
        ==> CostCachedCall(store, clock, call) == Err(StopIteration)
  {
  }

  /** The cost of one call: `Some` record, or None for a call that has not completed. */
  function CostCall(store: Store, clock: Clock, call: Json, fuel: nat): Result<Option<CostNode>>
    decreases fuel, 0
  {
    var kind :- Classify(call);
    match kind
    case CacheHit => var t :- CostCachedCall(store, clock, call); Ok(Some(Task(t)))
    case Subworkflow =>
      var id := Subscript(call, "subWorkflowId").value;
      if fuel == 0 then Err(RecursionLimit)
      else
        var w :- CostWorkflow(store, clock, id, fuel - 1);
        Ok(Some(w))
    case RunTask => var t :- CostTask(clock, call); Ok(Some(Task(t)))
    case Unpriced => Ok(None)
  }

  /** Which calls are left out, and that a call priced as a task gives a consistent record. */
  lemma CostCallShape(store: Store, clock: Clock, call: Json, fuel: nat)
    ensures var r := CostCall(store, clock, call, fuel);
      (r == Ok(None) <==> Subscript(call, "executionStatus").Ok? && !Done(call)) &&
      (r.Ok? && r.value.Some? && Classify(call) != Ok(Subworkflow) ==> r.value.value.Task? && Consistent(r.value.value)) &&
      (r.Ok? && r.value.Some? && Classify(call) == Ok(Subworkflow) ==>
         fuel > 0 && Subscript(call, "subWorkflowId").Ok? &&
         CostWorkflow(store, clock, Subscript(call, "subWorkflowId").value, fuel - 1) == Ok(r.value.value))
  {
  }

  /** A completed call whose caching record reports no hit, and that is not a subworkflow, is
      priced as a task of its own. */
  lemma CacheMissIsPricedAsTask(store: Store, clock: Clock, call: Json, fuel: nat)
    requires Done(call) && HitFlag(call) == Ok(Bool(false)) && "subWorkflowId" !in Keys(call.fields)
    ensures CostCall(store, clock, call, fuel)
            == (if CostTask(clock, call).Ok? then Ok(Some(Task(CostTask(clock, call).value)))
                else Err(CostTask(clock, call).fault))
  {
    assert Classify(call) == Ok(RunTask);
  }

  // ---- one workflow -----------------------------------------------------

  /** The calls of one name, in order, each priced and stored under its key; a later call with
      the same key replaces the earlier one. */
  function CostCalls(store: Store, clock: Clock, name: string, calls: seq<Json>,
                     acc: seq<(string, CostNode)>, fuel: nat): Result<seq<(string, CostNode)>>
    decreases fuel, 1, |calls|
  {
    if |calls| == 0 then Ok(acc)
    else
      var key :- CallKey(name, calls[0]);
      var entry :- CostCall(store, clock, calls[0], fuel);
      CostCalls(store, clock, name, calls[1..], if entry.Some? then Put(acc, key, entry.value) else acc, fuel)
  }

  /** One turn of the loop over the calls of one name. */
  lemma CostCallsStep(store: Store, clock: Clock, name: string, calls: seq<Json>,
                      acc: seq<(string, CostNode)>, fuel: nat)
    requires |calls| > 0
    ensures CallKey(name, calls[0]).Err? ==> CostCalls(store, clock, name, calls, acc, fuel) == Err(CallKey(name, calls[0]).fault)
    ensures CallKey(name, calls[0]).Ok? && CostCall(store, clock, calls[0], fuel).Err? ==>
      CostCalls(store, clock, name, calls, acc, fuel) == Err(CostCall(store, clock, calls[0], fuel).fault)
    ensures CallKey(name, calls[0]).Ok? && CostCall(store, clock, calls[0], fuel).Ok? ==>
      var entry := CostCall(store, clock, calls[0], fuel).value;
      CostCalls(store, clock, name, calls, acc, fuel)
      == CostCalls(store, clock, name, calls[1..], if entry.Some? then Put(acc, CallKey(name, calls[0]).value, entry.value) else acc, fuel)
  {
  }

  /** A call that has not completed leaves the call costs as they were. */
  lemma UnfinishedCallLeftOut(store: Store, clock: Clock, name: string, call: Json, rest: seq<Json>,
                              acc: seq<(string, CostNode)>, fuel: nat)
    requires CallKey(name, call).Ok? && Subscript(call, "executionStatus").Ok? && !Done(call)
    ensures CostCalls(store, clock, name, [call] + rest, acc, fuel) == CostCalls(store, clock, name, rest, acc, fuel)
  {
    assert ([call] + rest)[1..] == rest;
  }

  /** Every call name of the metadata in order. */
  function CostGroups(store: Store, clock: Clock, groups: seq<(string, Json)>,
                      acc: seq<(string, CostNode)>, fuel: nat): Result<seq<(string, CostNode)>>
    decreases fuel, 2, |groups|
  {
    if |groups| == 0 then Ok(acc)
    else
      var calls :- Iter(groups[0].1);
      var next :- CostCalls(store, clock, groups[0].0, calls, acc, fuel);
      CostGroups(store, clock, groups[1..], next, fuel)
  }

  /** `get_workflow_cost`: the specification the method below computes. `fuel` bounds the depth
      of subworkflows, as Python's recursion limit does. */
  function CostWorkflow(store: Store, clock: Clock, id: Json, fuel: nat): (r: Result<CostNode>)
    ensures r.Ok? ==> r.value.Workflow? && r.value.workflowId == id
    decreases fuel, 4
  {
    var metadata :- ReadMetadata(store, id);
    var cc :- WorkflowCalls(store, clock, metadata, fuel);
    FinishWorkflow(clock, metadata, cc, id)
  }

  /** The call-cost dict of one workflow's metadata; a metadata without calls has none. */
  function WorkflowCalls(store: Store, clock: Clock, metadata: Json, fuel: nat): Result<seq<(string, CostNode)>>
    decreases fuel, 3
  {
    var callsJ :- GetCalls(metadata);
    var groups :- Items(callsJ);
    CostGroups(store, clock, groups, [], fuel)
  }

  /** `get_workflow_cost` as the script runs it: a loop over call names, a loop over each name's
      calls, filling the call-cost dict and recursing into subworkflows. */
  method ComputeWorkflowCost(store: Store, clock: Clock, id: Json, fuel: nat) returns (r: Result<CostNode>)
    ensures r == CostWorkflow(store, clock, id, fuel)
    decreases fuel, 4
  {
    var metadata :- ReadMetadata(store, id);
    var cc :- ComputeCalls(store, clock, metadata, fuel);
    r := FinishWorkflow(clock, metadata, cc, id);
  }

  /** The outer loop, over call names in metadata order. */
  method ComputeCalls(store: Store, clock: Clock, metadata: Json, fuel: nat) returns (r: Result<seq<(string, CostNode)>>)
    ensures r == WorkflowCalls(store, clock, metadata, fuel)
    decreases fuel, 3
  {
    var callsJ :- GetCalls(metadata);
    var groups :- Items(callsJ);
    var cc: seq<(string, CostNode)> := [];
    var i := 0;
    while i < |groups|
      invariant 0 <= i <= |groups|
      invariant CostGroups(store, clock, groups[i..], cc, fuel) == CostGroups(store, clock, groups, [], fuel)
    {
      assert groups[i..][0] == groups[i] && groups[i..][1..] == groups[i + 1..];
      var calls :- Iter(groups[i].1);
      cc :- ComputeNamedCalls(store, clock, groups[i].0, calls, cc, fuel);
      i := i + 1;
    }
    assert groups[i..] == [];
    return Ok(cc);
  }

  /** The inner loop, over the calls of one name, storing each priced call under its key. */
  method ComputeNamedCalls(store: Store, clock: Clock, name: string, calls: seq<Json>,
                           cc: seq<(string, CostNode)>, fuel: nat) returns (r: Result<seq<(string, CostNode)>>)
    ensures r == CostCalls(store, clock, name, calls, cc, fuel)
    decreases fuel, 1
  {
    var acc := cc;
    var j := 0;
    while j < |calls|
      invariant 0 <= j <= |calls|
      invariant CostCalls(store, clock, name, calls[j..], acc, fuel) == CostCalls(store, clock, name, calls, cc, fuel)
    {
      assert calls[j..][0] == calls[j] && calls[j..][1..] == calls[j + 1..];
      CostCallsStep(store, clock, name, calls[j..], acc, fuel);
      var key :- CallKey(name, calls[j]);
      var entry :- ComputeCallCost(store, clock, calls[j], fuel);
      if entry.Some? {
        acc := Put(acc, key, entry.value);
      }
      j := j + 1;
    }
    assert calls[j..] == [];
    return Ok(acc);
  }

  method ComputeCallCost(store: Store, clock: Clock, call: Json, fuel: nat) returns (r: Result<Option<CostNode>>)
    ensures r == CostCall(store, clock, call, fuel)
    decreases fuel, 0
  {
    var kind :- Classify(call);
    match kind
    case CacheHit =>
      var t :- CostCachedCall(store, clock, call);
      return Ok(Some(Task(t)));
    case Subworkflow =>
      var id := Subscript(call, "subWorkflowId").value;
      if fuel == 0 {
        return Err(RecursionLimit);
      }
      var w :- ComputeWorkflowCost(store, clock, id, fuel - 1);
      return Ok(Some(w));
    case RunTask =>
      var t :- CostTask(clock, call);
      return Ok(Some(Task(t)));
    case Unpriced =>
      return Ok(None);
  }

  // ---- what every estimate satisfies ----------------------------------

  /** Every tree the estimator returns is consistent: each task's total is its cpu, memory and
      disk charge, and each workflow's totals are the sums over its calls, all the way down. */
  lemma {:induction false} WorkflowConsistent(store: Store, clock: Clock, id: Json, fuel: nat)
    requires CostWorkflow(store, clock, id, fuel).Ok?
    ensures Consistent(CostWorkflow(store, clock, id, fuel).value)
    ensures var n := CostWorkflow(store, clock, id, fuel).value; n.Total() == n.Cpu() + n.Memory() + n.Disk()
    decreases fuel, 4
  {
    var metadata := ReadMetadata(store, id).value;
    var groups := Items(GetCalls(metadata).value).value;
    GroupsConsistent(store, clock, groups, [], fuel);
    assert AllConsistent(WorkflowCalls(store, clock, metadata, fuel).value);
    ConsistentTotal(CostWorkflow(store, clock, id, fuel).value);
  }

  lemma {:induction false} GroupsConsistent(store: Store, clock: Clock, groups: seq<(string, Json)>,
                                            acc: seq<(string, CostNode)>, fuel: nat)
    requires AllConsistent(acc) && CostGroups(store, clock, groups, acc, fuel).Ok?
    ensures AllConsistent(CostGroups(store, clock, groups, acc, fuel).value)
    decreases fuel, 2, |groups|
  {
    if |groups| > 0 {
      var calls := Iter(groups[0].1).value;
      CallsConsistent(store, clock, groups[0].0, calls, acc, fuel);
      GroupsConsistent(store, clock, groups[1..], CostCalls(store, clock, groups[0].0, calls, acc, fuel).value, fuel);
    }
  }

  lemma {:induction false} CallsConsistent(store: Store, clock: Clock, name: string, calls: seq<Json>,
                                           acc: seq<(string, CostNode)>, fuel: nat)
    requires AllConsistent(acc) && CostCalls(store, clock, name, calls, acc, fuel).Ok?
    ensures AllConsistent(CostCalls(store, clock, name, calls, acc, fuel).value)
    decreases fuel, 1, |calls|
  {
    if |calls| > 0 {
      var key := CallKey(name, calls[0]).value;
      var entry := CostCall(store, clock, calls[0], fuel).value;
      var next := if entry.Some? then Put(acc, key, entry.value) else acc;
      if entry.Some? {
        CallConsistent(store, clock, calls[0], fuel);
        PutConsistent(acc, key, entry.value);
      }
      CallsConsistent(store, clock, name, calls[1..], next, fuel);
    }
  }

  lemma {:induction false} CallConsistent(store: Store, clock: Clock, call: Json, fuel: nat)
    requires CostCall(store, clock, call, fuel).Ok? && CostCall(store, clock, call, fuel).value.Some?
    ensures Consistent(CostCall(store, clock, call, fuel).value.value)
    decreases fuel, 0
  {
    CostCallShape(store, clock, call, fuel);
    if Classify(call) == Ok(Subworkflow) {
      WorkflowConsistent(store, clock, Subscript(call, "subWorkflowId").value, fuel - 1);
    }
  }
}
