/** The first billing estimator: the cost of one Cromwell workflow execution
    from its metadata file and the files of the executions it refers to.
    A call with a `jes` record is priced from its own machine, a call with a
    `callCaching` record is priced as the attempt its cache-hit text names,
    a call with a `subWorkflowId` is priced as that whole workflow, and any
    other call is left out. */
module EstimateBilling {
  import opened Text
  import opened Json
  import opened Billing

  const PreemptiblePrice: MachinePrice := MachinePrice(0.00094, 0.00698)
  const OnDemandPrice: MachinePrice := MachinePrice(0.004446, 0.033174)
  const DiskPrices: DiskPrice := DiskPrice(0.170, 0.040)

  /** The price table a task uses: preemptible when its `preemptible` field is truthy. */
  function MachineTable(preemptible: Json): MachinePrice
  {
    if Truthy(preemptible) then PreemptiblePrice else OnDemandPrice
  }

  /** `cost_machine_type`: only `custom-<vcpus>-<memory MB>` machines are priced; memory is
      converted to GB by dividing by 1024. */
  function CostMachineType(machineType: Json, seconds: real, preemptible: Json): (r: Result<MachineCost>)
    ensures !machineType.Str? ==> r == Err(AttributeError)
    ensures machineType.Str? && !StartsWith(machineType.s, "custom-") ==> r == Err(NotImplementedError)
    ensures r.Ok? ==> machineType.Str? && StartsWith(machineType.s, "custom-")
  {
    var text :- AsStr(machineType);
    if !StartsWith(text, "custom-") then Err(NotImplementedError)
    else
      var numbers :- ParseInts(Split(text, '-')[1..]);
      if |numbers| != 2 then Err(ValueError)
      else Ok(PriceMachine(numbers[0] as real, MemoryGb(numbers[1]), seconds, MachineTable(preemptible)))
  }

  /** `memory_mb / 2**10`. */
  function MemoryGb(mb: int): real
  {
    mb as real / 1024.0
  }

  /** A custom machine with `vcpus` cpus and `memoryMb` MB costs the per-hour rates of its table. */
  lemma CustomMachineFormula(vcpus: nat, memoryMb: nat, seconds: real, preemptible: Json)
    ensures CostMachineType(Str("custom-" + DecimalString(vcpus) + "-" + DecimalString(memoryMb)), seconds, preemptible)
         == Ok(PriceMachine(vcpus as real, MemoryGb(memoryMb), seconds, MachineTable(preemptible)))
  {
    var c, m := DecimalString(vcpus), DecimalString(memoryMb);
    CustomFields(c, m);
    ParseIntOfString(vcpus);
    ParseIntOfString(memoryMb);
    assert IntToString(vcpus) == c && IntToString(memoryMb) == m;
    assert ParseInts([c, m]).value == [vcpus, memoryMb];
    var text := "custom-" + c + "-" + m;
    assert ParseInts(Split(text, '-')[1..]) == Ok([vcpus as int, memoryMb as int]);
  }

  lemma CustomFields(c: string, m: string)
    requires AllDigits(c) && AllDigits(m)
    ensures var text := "custom-" + c + "-" + m;
      StartsWith(text, "custom-") && Split(text, '-')[1..] == [c, m]
  {
    var text := "custom-" + c + "-" + m;
    assert text[..7] == "custom-";
    var parts := ["custom", c, m];
    NonDigitAbsent(c, '-');
    NonDigitAbsent(m, '-');
    SplitJoin(parts, '-');
    assert Join(parts[2..], '-') == m;
    assert Join(parts[1..], '-') == c + "-" + m;
    assert Join(parts, '-') == text;
  }

  // ---- machine time -----------------------------------------------------

  predicate SucceededAndDone(task: Json)
  {
    Subscript(task, "backendStatus") == Ok(Str("Success")) && Subscript(task, "executionStatus") == Ok(Str("Done"))
  }

  /** `is_start`: a description of the form `Worker ... machine`. */
  predicate IsWorkerStart(desc: string)
  {
    StartsWith(desc, "Worker ") && EndsWith(desc, "machine")
  }

  /** The first event whose description is `Worker ... machine`; a description that is not a
      string has no `startswith`. */
  function FindWorkerStart(events: seq<Json>): (r: Result<Json>)
    ensures r.Ok? ==> r.value in events && Subscript(r.value, "description").Ok?
                      && Subscript(r.value, "description").value.Str?
                      && IsWorkerStart(Subscript(r.value, "description").value.s)
    ensures r.Ok? ==> exists i :: 0 <= i < |events| && events[i] == r.value
                        && forall j :: 0 <= j < i ==> OtherStart(events[j])
    ensures (forall i :: 0 <= i < |events| ==> OtherStart(events[i])) ==> r == Err(StopIteration)
  {
    if |events| == 0 then Err(StopIteration)
    else
      var d :- Subscript(events[0], "description");
      var desc :- AsStr(d);
      if IsWorkerStart(desc) then Ok(events[0])
      else
        assert forall i :: 0 <= i < |events| - 1 ==> events[1..][i] == events[i + 1];
        FindWorkerStart(events[1..])
  }

  /** An event whose description is text that does not name a worker machine start. */
  predicate OtherStart(event: Json)
  {
    Subscript(event, "description").Ok? && Subscript(event, "description").value.Str?
    && !IsWorkerStart(Subscript(event, "description").value.s)
  }

  /** The events that bound machine time: for a task that succeeded and is done, the first
      `Worker ... machine` event and the first `Worker released` event; otherwise the first
      `RunningJob` and the first `UpdatingJobStore` event. Both statuses are read before the
      events are iterated. */
  function MachineEvents(task: Json): (r: Result<Window>)
    ensures Subscript(task, "executionEvents").Ok? && Subscript(task, "backendStatus").Err? ==>
              r == Err(Subscript(task, "backendStatus").fault)
    ensures Subscript(task, "executionEvents").Ok? && Subscript(task, "backendStatus").Ok? && Subscript(task, "executionStatus").Err? ==>
              r == Err(Subscript(task, "executionStatus").fault)
    ensures r.Ok? ==> Subscript(task, "backendStatus").Ok? && Subscript(task, "executionStatus").Ok?
    ensures r.Ok? ==> TaskEvents(task).Ok? && r.value.start in TaskEvents(task).value
                      && r.value.end in TaskEvents(task).value
    ensures r.Ok? && SucceededAndDone(task) ==>
              Subscript(r.value.start, "description").Ok? && Subscript(r.value.start, "description").value.Str?
              && IsWorkerStart(Subscript(r.value.start, "description").value.s)
              && Subscript(r.value.end, "description") == Ok(Str("Worker released"))
    ensures r.Ok? && !SucceededAndDone(task) ==>
              Subscript(r.value.start, "description") == Ok(Str("RunningJob"))
              && Subscript(r.value.end, "description") == Ok(Str("UpdatingJobStore"))
    ensures r.Ok? && SucceededAndDone(task) ==>
              FindWorkerStart(TaskEvents(task).value) == Ok(r.value.start)
              && FindEvent(TaskEvents(task).value, "Worker released") == Ok(r.value.end)
    ensures r.Ok? && !SucceededAndDone(task) ==>
              FindEvent(TaskEvents(task).value, "RunningJob") == Ok(r.value.start)
              && FindEvent(TaskEvents(task).value, "UpdatingJobStore") == Ok(r.value.end)
  {
    var ev :- Subscript(task, "executionEvents");
    var bStatus :- Subscript(task, "backendStatus");
    var eStatus :- Subscript(task, "executionStatus");
    var events :- Iter(ev);
    if bStatus == Str("Success") && eStatus == Str("Done") then
      var start :- FindWorkerStart(events);
      var end :- FindEvent(events, "Worker released");
      Ok(Window(start, end))
    else
      var start :- FindEvent(events, "RunningJob");
      var end :- FindEvent(events, "UpdatingJobStore");
      Ok(Window(start, end))
  }

  /** `machine_duration`: the start time of the first event and the end time of the second. */
  function MachineDuration(task: Json): (r: Result<Window>)
    ensures r.Ok? ==> MachineEvents(task).Ok? && task.Obj?
                      && Subscript(MachineEvents(task).value.start, "startTime") == Ok(r.value.start)
                      && Subscript(MachineEvents(task).value.end, "endTime") == Ok(r.value.end)
  {
    var w :- MachineEvents(task);
    if !(Truthy(w.start) && Truthy(w.end)) then Err(NotImplementedError)
    else
      var start :- Subscript(w.start, "startTime");
      var end :- Subscript(w.end, "endTime");
      Ok(Window(start, end))
  }

  // ---- one call ---------------------------------------------------------

  /** `cost_task`: a call without a `jes` record fails the assertion; otherwise machine and disk
      are priced over the machine time and the total is their sum. */
  function CostTask(clock: Clock, task: Json): (r: Result<TaskCost>)
    ensures task.Obj? && "jes" !in Keys(task.fields) ==> r == Err(AssertionError)
    ensures r.Ok? ==> task.Obj? && "jes" in Keys(task.fields) && MachineDuration(task).Ok?
    ensures r.Ok? ==> var w := MachineDuration(task).value;
              r.value.machineStartTime == w.start && r.value.machineEndTime == w.end
              && Elapsed(clock, w.start, w.end) == Ok(r.value.durationSeconds)
    ensures r.Ok? ==> r.value.totalCost == r.value.cpuCost + r.value.memoryCost + r.value.diskCost
    ensures r.Ok? ==> CostDisks(r.value.disks, r.value.durationSeconds, DiskPrices) == Ok(r.value.diskCost)
    ensures r.Ok? ==> Subscript(task, "runtimeAttributes").Ok?
                      && Subscript(Subscript(task, "runtimeAttributes").value, "disks") == Ok(r.value.disks)
    ensures r.Ok? ==> Subscript(task, "preemptible") == Ok(r.value.preemptible)
    ensures r.Ok? ==> r.value.machineType.Some?
                      && Subscript(Subscript(task, "jes").value, "machineType") == Ok(r.value.machineType.value)
                      && CostMachineType(r.value.machineType.value, r.value.durationSeconds, r.value.preemptible)
                         == Ok(MachineCost(r.value.cpuCost, r.value.memoryCost))
  {
    var isTask :- Includes(task, "jes");
    if !isTask then Err(AssertionError)
    else
      var w :- MachineDuration(task);
      var seconds :- Elapsed(clock, w.start, w.end);
      var jes := Subscript(task, "jes").value;
      var machineType :- Subscript(jes, "machineType");
      var preemptible :- Subscript(task, "preemptible");
      var attributes :- Subscript(task, "runtimeAttributes");
      var disks :- Subscript(attributes, "disks");
      var machine :- CostMachineType(machineType, seconds, preemptible);
      var disk :- CostDisks(disks, seconds, DiskPrices);
      var start :- Subscript(task, "start");
      var end :- Subscript(task, "end");
      var attempt :- Subscript(task, "attempt");
      var backendStatus := Subscript(task, "backendStatus").value;
      Ok(TaskCost(seconds, start, end, w.start, w.end, Some(machineType),
                  machine.memory, machine.cpu, disk, disks, machine.cpu + machine.memory + disk,
                  attempt, preemptible, backendStatus))
  }

  /** `cost_cached_call`: the cost of the first attempt, under the same call name in the execution
      the cache-hit text names, whose shard index is the one named. */
  function CostCachedCall(store: Store, clock: Clock, call: Json): (r: Result<TaskCost>)
    ensures r.Ok? ==> ParseCacheResult(call).Ok?
    ensures r.Ok? ==> var ref := ParseCacheResult(call).value;
              ReferencedAttempts(store, ref).Ok? && FindShard(ReferencedAttempts(store, ref).value, ref.shardIndex).Ok?
              && r == CostTask(clock, FindShard(ReferencedAttempts(store, ref).value, ref.shardIndex).value)
    ensures r.Ok? ==> r.value.totalCost == r.value.cpuCost + r.value.memoryCost + r.value.diskCost
  {
    var ref :- ParseCacheResult(call);
    var attempts :- ReferencedAttempts(store, ref);
    var data :- FindShard(attempts, ref.shardIndex);
    CostTask(clock, data)
  }

  /** The referenced attempt is priced as if it ran here. */
  lemma CachedCallIsReferencedTask(store: Store, clock: Clock, call: Json, attempts: seq<Json>)
    requires ParseCacheResult(call).Ok?
    requires var ref := ParseCacheResult(call).value;
      ref.executionId in store && Subscript(store[ref.executionId], "calls").Ok?
      && Subscript(Subscript(store[ref.executionId], "calls").value, ref.callName) == Ok(Arr(attempts))
    ensures var ref := ParseCacheResult(call).value;
      FindShard(attempts, ref.shardIndex).Ok? ==>
        CostCachedCall(store, clock, call) == CostTask(clock, FindShard(attempts, ref.shardIndex).value)
    ensures var ref := ParseCacheResult(call).value;
      (forall i :: 0 <= i < |attempts| ==> OtherShard(attempts[i], ref.shardIndex))
        ==> CostCachedCall(store, clock, call) == Err(StopIteration)
  {
  }

  /** The classification of `cost_workflow`, tried in this order: `jes`, then `callCaching`
      (whatever its `hit` says), then `subWorkflowId`. */
  function Classify(call: Json): (r: Result<CallKind>)
    ensures call.Obj? ==> r.Ok?
    ensures call.Obj? ==> (r.value == RunTask <==> "jes" in Keys(call.fields))
    ensures call.Obj? ==> (r.value == CacheHit <==> "jes" !in Keys(call.fields) && "callCaching" in Keys(call.fields))
    ensures call.Obj? ==> (r.value == Subworkflow <==>
              ("jes" !in Keys(call.fields) && "callCaching" !in Keys(call.fields) && "subWorkflowId" in Keys(call.fields)))
    ensures call.Obj? ==> (r.value == Unpriced <==>
              ("jes" !in Keys(call.fields) && "callCaching" !in Keys(call.fields) && "subWorkflowId" !in Keys(call.fields)))
  {
    var isTask :- Includes(call, "jes");
    if isTask then Ok(RunTask)
    else
      var isCached :- Includes(call, "callCaching");
      if isCached then Ok(CacheHit)
      else
        var isSubworkflow :- Includes(call, "subWorkflowId");
        if isSubworkflow then Ok(Subworkflow) else Ok(Unpriced)
  }

  /** A call without `jes` whose caching record reports a miss is still read as a cache hit,
      so its estimate fails on the miss text. */
  lemma CacheMissIsNotPriced(store: Store, clock: Clock, fuel: nat)
    ensures var call := Obj([("callCaching", Obj([("hit", Bool(false)), ("result", Str("Cache Miss"))]))]);
      CostCall(store, clock, call, fuel) == Err(AttributeError)
  {
    var call := Obj([("callCaching", Obj([("hit", Bool(false)), ("result", Str("Cache Miss"))]))]);
    assert !StartsWith("Cache Miss", CacheHitPrefix);
    assert Classify(call) == Ok(CacheHit);
  }

  /** The cost of one call: `Some` record, or None for a call that is left out. */
  function CostCall(store: Store, clock: Clock, call: Json, fuel: nat): Result<Option<CostNode>>
    decreases fuel, 0
  {
    var kind :- Classify(call);
    match kind
    case RunTask => var t :- CostTask(clock, call); Ok(Some(Task(t)))
    case CacheHit => var t :- CostCachedCall(store, clock, call); Ok(Some(Task(t)))
    case Subworkflow =>
      var id :- Subscript(call, "subWorkflowId");
      if fuel == 0 then Err(RecursionLimit)
      else
        var w :- CostWorkflow(store, clock, id, fuel - 1);
        Ok(Some(w))
    case Unpriced => Ok(None)
  }

  /** Which calls are left out, and that a call priced as a task gives a consistent record. */
  lemma CostCallShape(store: Store, clock: Clock, call: Json, fuel: nat)
    ensures var r := CostCall(store, clock, call, fuel);
      (r == Ok(None) <==> Classify(call) == Ok(Unpriced)) &&
      (r.Ok? && r.value.Some? && Classify(call) != Ok(Subworkflow) ==> r.value.value.Task? && Consistent(r.value.value)) &&
      (r.Ok? && r.value.Some? && Classify(call) == Ok(Subworkflow) ==>
         fuel > 0 && Subscript(call, "subWorkflowId").Ok? &&
         CostWorkflow(store, clock, Subscript(call, "subWorkflowId").value, fuel - 1) == Ok(r.value.value))
  {
  }

  // ---- one workflow -----------------------------------------------------

  /** The calls of one name, in order, each priced and stored under its key; a later call with
      the same key replaces the earlier one. */
  function CostCalls(store: Store, clock: Clock, name: string, calls: seq<Json>,
                     acc: seq<(string, CostNode)>, fuel: nat): Result<seq<(string, CostNode)>>
    decreases fuel, 1, |calls|
  {
    if |calls| == 0 then Ok(acc)
    else
      var key :- CallKey(name, calls[0]);
      var entry :- CostCall(store, clock, calls[0], fuel);
      CostCalls(store, clock, name, calls[1..], if entry.Some? then Put(acc, key, entry.value) else acc, fuel)
  }

  /** Every call name of the metadata in order. */
  function CostGroups(store: Store, clock: Clock, groups: seq<(string, Json)>,
                      acc: seq<(string, CostNode)>, fuel: nat): Result<seq<(string, CostNode)>>
    decreases fuel, 2, |groups|
  {
    if |groups| == 0 then Ok(acc)
    else
      var calls :- Iter(groups[0].1);
      var next :- CostCalls(store, clock, groups[0].0, calls, acc, fuel);
      CostGroups(store, clock, groups[1..], next, fuel)
  }

  /** `cost_workflow`: the specification the method below computes. `fuel` bounds the depth of
      subworkflows, as Python's recursion limit does. */
  function CostWorkflow(store: Store, clock: Clock, id: Json, fuel: nat): (r: Result<CostNode>)
    ensures r.Ok? ==> r.value.Workflow? && r.value.workflowId == id
    decreases fuel, 4
  {
    var metadata :- ReadMetadata(store, id);
    var cc :- WorkflowCalls(store, clock, metadata, fuel);
    FinishWorkflow(clock, metadata, cc, id)
  }

  /** The call-cost dict of one workflow's metadata. */
  function WorkflowCalls(store: Store, clock: Clock, metadata: Json, fuel: nat): Result<seq<(string, CostNode)>>
    decreases fuel, 3
  {
    var callsJ :- Subscript(metadata, "calls");
    var groups :- Items(callsJ);
    CostGroups(store, clock, groups, [], fuel)
  }

  /** `cost_workflow` as the script runs it: a loop over call names, a loop over each name's calls,
      filling the call-cost dict and recursing into subworkflows. */
  method ComputeWorkflowCost(store: Store, clock: Clock, id: Json, fuel: nat) returns (r: Result<CostNode>)
    ensures r == CostWorkflow(store, clock, id, fuel)
    decreases fuel, 4
  {
    var metadata :- ReadMetadata(store, id);
    var cc :- ComputeCalls(store, clock, metadata, fuel);
    r := FinishWorkflow(clock, metadata, cc, id);
  }

  /** The outer loop, over call names in metadata order. */
  method ComputeCalls(store: Store, clock: Clock, metadata: Json, fuel: nat) returns (r: Result<seq<(string, CostNode)>>)
    ensures r == WorkflowCalls(store, clock, metadata, fuel)
    decreases fuel, 3
  {
    var callsJ :- Subscript(metadata, "calls");
    var groups :- Items(callsJ);
    var cc: seq<(string, CostNode)> := [];
    var i := 0;
    while i < |groups|
      invariant 0 <= i <= |groups|
      invariant CostGroups(store, clock, groups[i..], cc, fuel) == CostGroups(store, clock, groups, [], fuel)
    {
      assert groups[i..][0] == groups[i] && groups[i..][1..] == groups[i + 1..];
      var calls :- Iter(groups[i].1);
      cc :- ComputeNamedCalls(store, clock, groups[i].0, calls, cc, fuel);
      i := i + 1;
    }
    assert groups[i..] == [];
    return Ok(cc);
  }

  /** The inner loop, over the calls of one name, storing each priced call under its key. */
  method ComputeNamedCalls(store: Store, clock: Clock, name: string, calls: seq<Json>,
                           cc: seq<(string, CostNode)>, fuel: nat) returns (r: Result<seq<(string, CostNode)>>)
    ensures r == CostCalls(store, clock, name, calls, cc, fuel)
    decreases fuel, 1
  {
    var acc := cc;
    var j := 0;
    while j < |calls|
      invariant 0 <= j <= |calls|
      invariant CostCalls(store, clock, name, calls[j..], acc, fuel) == CostCalls(store, clock, name, calls, cc, fuel)
    {
      assert calls[j..][0] == calls[j] && calls[j..][1..] == calls[j + 1..];
      var key :- CallKey(name, calls[j]);
      var entry :- ComputeCallCost(store, clock, calls[j], fuel);
      if entry.Some? {
        acc := Put(acc, key, entry.value);
      }
      j := j + 1;
    }
    assert calls[j..] == [];
    return Ok(acc);
  }

  method ComputeCallCost(store: Store, clock: Clock, call: Json, fuel: nat) returns (r: Result<Option<CostNode>>)
    ensures r == CostCall(store, clock, call, fuel)
    decreases fuel, 0
  {
    var kind :- Classify(call);
    match kind
    case RunTask =>
      var t :- CostTask(clock, call);
      return Ok(Some(Task(t)));
    case CacheHit =>
      var t :- CostCachedCall(store, clock, call);
      return Ok(Some(Task(t)));
    case Subworkflow =>
      var id :- Subscript(call, "subWorkflowId");
      if fuel == 0 {
        return Err(RecursionLimit);
      }
      var w :- ComputeWorkflowCost(store, clock, id, fuel - 1);
      return Ok(Some(w));
    case Unpriced =>
      return Ok(None);
  }

  // ---- what every estimate satisfies ----------------------------------

  /** Every tree the estimator returns is consistent: each task's total is its cpu, memory and
      disk charge, and each workflow's totals are the sums over its calls, all the way down. */
  lemma {:induction false} WorkflowConsistent(store: Store, clock: Clock, id: Json, fuel: nat)
    requires CostWorkflow(store, clock, id, fuel).Ok?
    ensures Consistent(CostWorkflow(store, clock, id, fuel).value)
    ensures var n := CostWorkflow(store, clock, id, fuel).value; n.Total() == n.Cpu() + n.Memory() + n.Disk()
    decreases fuel, 4
  {
    var metadata := ReadMetadata(store, id).value;
    var groups := Items(Subscript(metadata, "calls").value).value;
    GroupsConsistent(store, clock, groups, [], fuel);
    assert AllConsistent(WorkflowCalls(store, clock, metadata, fuel).value);
    ConsistentTotal(CostWorkflow(store, clock, id, fuel).value);
  }

  lemma {:induction false} GroupsConsistent(store: Store, clock: Clock, groups: seq<(string, Json)>,
                                            acc: seq<(string, CostNode)>, fuel: nat)
    requires AllConsistent(acc) && CostGroups(store, clock, groups, acc, fuel).Ok?
    ensures AllConsistent(CostGroups(store, clock, groups, acc, fuel).value)
    decreases fuel, 2, |groups|
  {
    if |groups| > 0 {
      var calls := Iter(groups[0].1).value;
      CallsConsistent(store, clock, groups[0].0, calls, acc, fuel);
      GroupsConsistent(store, clock, groups[1..], CostCalls(store, clock, groups[0].0, calls, acc, fuel).value, fuel);
    }
  }

  lemma {:induction false} CallsConsistent(store: Store, clock: Clock, name: string, calls: seq<Json>,
                                           acc: seq<(string, CostNode)>, fuel: nat)
    requires AllConsistent(acc) && CostCalls(store, clock, name, calls, acc, fuel).Ok?
    ensures AllConsistent(CostCalls(store, clock, name, calls, acc, fuel).value)
    decreases fuel, 1, |calls|
  {
    if |calls| > 0 {
      var key := CallKey(name, calls[0]).value;
      var entry := CostCall(store, clock, calls[0], fuel).value;
      var next := if entry.Some? then Put(acc, key, entry.value) else acc;
      if entry.Some? {
        CallConsistent(store, clock, calls[0], fuel);
        PutConsistent(acc, key, entry.value);
      }
      CallsConsistent(store, clock, name, calls[1..], next, fuel);
    }
  }

  lemma {:induction false} CallConsistent(store: Store, clock: Clock, call: Json, fuel: nat)
    requires CostCall(store, clock, call, fuel).Ok? && CostCall(store, clock, call, fuel).value.Some?
    ensures Consistent(CostCall(store, clock, call, fuel).value.value)
    decreases fuel, 0
  {
    CostCallShape(store, clock, call, fuel);
    if Classify(call) == Ok(Subworkflow) {
      WorkflowConsistent(store, clock, Subscript(call, "subWorkflowId").value, fuel - 1);
    }
  }
}
