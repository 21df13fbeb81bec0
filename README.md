# Cromwell workflow utilities, modelled in Dafny

These scripts sit around the Cromwell workflow engine and work on what it produces:

- **Billing estimators.** `scripts/estimate_billing.py` and `scripts/gb_estimate_billing.py` price a workflow run from its Cromwell metadata.
  - Each call is priced as a task that ran, as a cache hit (the referenced earlier attempt is priced instead) or as a subworkflow (priced recursively).
  - Machine time is billed with a one-minute minimum. Disk time is billed per GB-second at a monthly rate.
  - The result is a cost tree whose workflow totals are the sums over its call costs.
- **Cost rows.** `scripts/costs_json_to_csv.py` flattens such a tree into one row per task, using a stack.
- **Cost summary.** `scripts/cost_script.py` works on a TSV of task costs. It strips shard suffixes from call names, sums the costs per call name and sorts the sums by total cost.
- **Artifact persistence.** `scripts/persist_artifacts.py` saves workflow metadata, timing and outputs pages. It follows subworkflow and cache-hit references to the executions they name.
- **Immuno YAML validator.** `scripts/validate_immuno_yaml.py` checks an immuno workflow's YAML input:
  - the file paths it mentions;
  - repeated paths;
  - FASTQ mate naming;
  - read-group `SM`/`CN` fields;
  - three line scans for list items that were commented out.
- **Cloudize.** `scripts/cloudize-workflow.py` and its predecessor `cloudize-workflow.py` rewrite a workflow's inputs to refer to uploaded copies.
  - They walk the inputs YAML to find File inputs and their secondary files.
  - The later script names each upload after the file's path below the files' deepest shared ancestor. It rewrites a deep copy of the inputs and writes that copy to a new inputs file, as the legacy script's `_generate_new_yaml` also works on a deep copy.
- **Output download.** `scripts/pull_outputs.py` plans the `gsutil cp` commands that download a workflow's outputs into per-output directories.

## How the system is represented

- **Values.** JSON and YAML values are the datatype `Json.Json`. Dicts are ordered field lists, so iteration order is the source's insertion order. Python `None` is `Null`.
- **Exceptions.** A Python exception is a `Fault` in a `Result`. An operation returns the exception the script raises on the same input, with three kinds of exception to this: the two corrected operations named under "## Findings" (and the operations built on them, listed under "## Left out"), and inputs outside the model, which give the fault `Unmodelled`.
- **Injected I/O.** Everything the scripts read from outside is a parameter:
  - the metadata files (`Store`);
  - the clock that parses ISO timestamps (`Clock`);
  - the HTTP responses of the Cromwell API;
  - file existence;
  - the user name and date;
  - the workflow's name in its WDL definition.
- **Effects as logs.** What the scripts write is recorded as a log of effects: requests and saves, or `gsutil cp` commands.
- **Imperative code stays imperative.** Loops that fill a dict or a list are methods with loop invariants, each proved equal to a recursive specification function. Objects whose fields the source updates are classes:
  - `FilePath`;
  - the legacy `Workflow`;
  - the `paths` list of `flatten_file_paths`;
  - the archive of `persist_artifacts`;
  - the download log.
- **Depth bound.** Where the source recurses with no bound but Python's recursion limit, a `fuel` parameter bounds the depth. Running out gives `RecursionLimit`.

## Model

| member | source | states |
|---|---|---|
| Billing.BilledSeconds | scripts/estimate_billing.py:95-96 | the seconds billed are the larger of 60 and the seconds used |
| Billing.MachineMinimumMinute | scripts/gb_estimate_billing.py:120-121 | any run of a minute or less costs exactly as much as one minute |
| Billing.MachineProportional | scripts/estimate_billing.py:95-96 | past the first minute the cpu and memory charges are proportional to the time used |
| Billing.CostDisks | scripts/estimate_billing.py:101-116 | a disks value that is not a string raises AttributeError; anything but three space-separated fields raises NotImplementedError; success means three fields and a known disk type |
| Billing.DiskFormula | scripts/estimate_billing.py:111-116 | a well-formed single disk `<mount> <GB> <type>` costs seconds times GB times the monthly rate, divided by the seconds in a month |
| Billing.DiskProportional | scripts/gb_estimate_billing.py:124-135 | the disk charge is proportional to the time, with no one-minute floor |
| Billing.CallKey | scripts/estimate_billing.py:206-212 | a call that is not a dict raises TypeError; a key always starts with the call name |
| Billing.CallKeyOfInts | scripts/gb_estimate_billing.py:201-207 | for integer shard and attempt the key is the name, `_shard-<n>` unless the shard is -1, and `_retry<attempt-1>` when the attempt is above 1 |
| Billing.KeyInjective | scripts/estimate_billing.py:206-212 | within one call name, distinct (shard, attempt) pairs get distinct keys, so no priced call overwrites another |
| Billing.ShardThenRetry | scripts/estimate_billing.py:208-211 | a key with a retry suffix never equals a key without one |
| Billing.DropFinalNewline | scripts/estimate_billing.py:186 | where `$` may match: at the end, or before one final newline |
| Billing.MatchCacheResultSound | scripts/estimate_billing.py:185-196 | whatever the cache-hit pattern accepts has a hexadecimal-and-dash id, a one-line call name and a shard of -1 or more, and the text starts with exactly those fields |
| Billing.MatchAfterSound | scripts/gb_estimate_billing.py:138-155 | the same soundness after the fixed `Cache Hit: ` prefix |
| Billing.ParseCacheResult | scripts/estimate_billing.py:181-196 | a result that is not a string raises TypeError; a non-match raises AttributeError from `match.groups()`; a parsed reference has a well-formed id and a shard of -1 or more |
| Billing.MatchCacheResultRoundTrip | scripts/estimate_billing.py:182-186 | the text Cromwell writes for a cache hit parses back to that reference, whatever colons the call name contains |
| Billing.ShardTextOfInt | scripts/estimate_billing.py:196 | a shard index of -1 or more prints as text the pattern's shard group accepts, and `int` of that text gives the index back |
| Billing.FromIso | scripts/estimate_billing.py:78-79 | a timestamp that is not a string raises AttributeError (it has no `rstrip`) |
| Billing.Elapsed | scripts/estimate_billing.py:151 | a duration exists only when both timestamps convert |
| Billing.FindEvent | scripts/estimate_billing.py:124-125 | the event found has the requested description and is the first such: every event before it has a different description; when no event has it, StopIteration is raised |
| Billing.FindShard | scripts/estimate_billing.py:202 | the attempt found has that shard index and is the first such: every attempt before it has another shard index; when none has it, StopIteration is raised |
| Billing.ParseInts | scripts/estimate_billing.py:92 | the integers of `[int(x) for x in fields]`, one per field; the first field that is not an integer raises ValueError |
| Billing.ReadMetadata | scripts/estimate_billing.py:221 | the metadata stored for an id; an id without a file raises FileNotFoundError |
| Billing.ReferencedAttempts | scripts/estimate_billing.py:199-202 | the attempts under the referenced call name in the referenced execution's metadata; an execution without a metadata file raises FileNotFoundError |
| Billing.MakeWorkflow | scripts/estimate_billing.py:235-242 | a workflow node whose four totals are the sums over its call costs |
| Billing.FinishWorkflow | scripts/estimate_billing.py:234-248 | the workflow record keeps its call costs and id, its totals are the sums over the calls, and it is consistent when its calls are |
| Billing.ConsistentTotal | scripts/estimate_billing.py:160 | on a consistent tree every total is its cpu, memory and disk charge added up, at every level |
| Billing.SumsAgree | scripts/estimate_billing.py:235-242 | over consistent call costs, the sum of totals equals the sum of cpu, memory and disk sums |
| Billing.PutConsistent | scripts/estimate_billing.py:227-231 | storing a consistent cost under a key keeps every entry of the call-cost dict consistent |
| EstimateBilling.CostMachineType | scripts/estimate_billing.py:82-98 | a machine type that does not start with `custom-` raises NotImplementedError; a custom type is priced from its vcpus and memory, with memory in GB by dividing by 1024 |
| EstimateBilling.CustomMachineFormula | scripts/estimate_billing.py:91-96 | `custom-<vcpus>-<MB>` costs the billed seconds times vcpus times the cpu rate, plus the billed seconds times MB/1024 times the memory rate, per hour, from the preemptible or the standard table |
| EstimateBilling.FindWorkerStart | scripts/estimate_billing.py:128-130 | the event found is the first whose description is text starting with `Worker ` and ending with `machine`: every event before it has another text description; when none has one, StopIteration is raised |
| EstimateBilling.MachineEvents | scripts/estimate_billing.py:119-137 | a missing `backendStatus` or `executionStatus` raises its KeyError before the events are iterated; for a successful, done task the bounds are the first worker-machine start and the first `Worker released` event, otherwise the first `RunningJob` and the first `UpdatingJobStore` event, each as the search functions find them |
| EstimateBilling.MachineDuration | scripts/estimate_billing.py:119-139 | the machine time runs from the start event's start time to the end event's end time |
| EstimateBilling.CostTask | scripts/estimate_billing.py:142-178 | a call without `jes` fails the assertion; cpu and memory are what `cost_machine_type` charges for `jes.machineType` over the machine time, with the task's `preemptible`; the disk charge is `cost_disks` over the same time; the total is the three added up |
| EstimateBilling.CostCachedCall | scripts/estimate_billing.py:199-203 | a cache hit is priced as `cost_task` prices the first attempt with the referenced shard among the attempts of the referenced call name in the execution its text names |
| EstimateBilling.CachedCallIsReferencedTask | scripts/estimate_billing.py:199-203 | a cache hit costs exactly what the referenced attempt would cost as a task |
| EstimateBilling.Classify | scripts/estimate_billing.py:226-233 | the order of the tests: `jes` first, then `callCaching`, then `subWorkflowId`, else the call is skipped |
| EstimateBilling.CacheMissIsNotPriced | scripts/estimate_billing.py:74-75 | a call without `jes` whose caching record reports a miss is still treated as a cache hit, so its estimate fails on the miss text |
| EstimateBilling.CostCallShape | scripts/estimate_billing.py:226-233 | a call has no cost exactly when it is not priced; a task call gives a consistent task record; a subworkflow call costs what its subworkflow does |
| EstimateBilling.CostWorkflow | scripts/estimate_billing.py:215-248 | a priced workflow is a workflow node carrying the requested id |
| EstimateBilling.ComputeWorkflowCost | scripts/estimate_billing.py:215-248 | the loops compute exactly `CostWorkflow` |
| EstimateBilling.ComputeCalls | scripts/estimate_billing.py:223-233 | the loop over call names computes the call-cost dict of the specification |
| EstimateBilling.ComputeNamedCalls | scripts/estimate_billing.py:224-233 | the loop over one name's calls stores each priced call under its key, as the specification does |
| EstimateBilling.ComputeCallCost | scripts/estimate_billing.py:225-233 | one call is priced as the specification prices it |
| EstimateBilling.WorkflowConsistent | scripts/estimate_billing.py:160 | every tree the estimator returns is consistent: each task's total is its charges added up, and each workflow's totals are its calls' sums |
| EstimateBilling.GroupsConsistent | scripts/estimate_billing.py:223-233 | the call-cost dict built over call names holds only consistent entries |
| EstimateBilling.CallsConsistent | scripts/estimate_billing.py:224-233 | the same for the calls of one name |
| EstimateBilling.CallConsistent | scripts/estimate_billing.py:226-231 | a priced call is consistent, down to its subworkflows |
| GbEstimateBilling.GetCalls | scripts/gb_estimate_billing.py:67-68 | the metadata's `calls`, or an empty dict when there are none |
| GbEstimateBilling.IsCachedTask | scripts/gb_estimate_billing.py:71-74 | false without a caching record; with one, whether `hit == True`, so only a hit equal to 1 counts |
| GbEstimateBilling.IsSubworkflow | scripts/gb_estimate_billing.py:77-78 | the call has a `subWorkflowId` |
| GbEstimateBilling.IsTaskCompleted | scripts/gb_estimate_billing.py:81-82 | the status is `Done`; a call without `executionStatus` raises KeyError |
| GbEstimateBilling.Classify | scripts/gb_estimate_billing.py:218-229 | the order of the tests: completion, a cache hit, a subworkflow, else a task |
| GbEstimateBilling.MachineDuration | scripts/gb_estimate_billing.py:89-104 | the machine time runs from the first `RunningJob` start to the first `UpdatingJobStore` end; a missing event raises StopIteration |
| GbEstimateBilling.MemoryAmount | scripts/gb_estimate_billing.py:113-117 | a value that is not text raises TypeError; text fails exactly when it holds no digit; the only errors are TypeError and AttributeError; a size is never negative |
| GbEstimateBilling.MemoryInGb | scripts/gb_estimate_billing.py:113-115 | `<n> GB` is n GB |
| GbEstimateBilling.MemoryInMb | scripts/gb_estimate_billing.py:116-117 | `<n> MB` is n/1000 GB |
| GbEstimateBilling.FractionDropped | scripts/gb_estimate_billing.py:113 | only the digits before a decimal point are read: `6.5 GB` counts as 6 GB |
| GbEstimateBilling.CostMachine | scripts/gb_estimate_billing.py:107-121 | cpu is `int(cpu)` and memory its size in GB, priced over the machine time with a one-minute minimum |
| GbEstimateBilling.MachineFormula | scripts/gb_estimate_billing.py:118-121 | `cpu` cpus and `<n> GB` cost the billed seconds times cpu and times n at the per-hour rates |
| GbEstimateBilling.CostTask | scripts/gb_estimate_billing.py:168-198 | a priced task's total is its cpu, memory and disk charge added up, over the machine time |
| GbEstimateBilling.CostCachedCall | scripts/gb_estimate_billing.py:158-165 | a cache hit is priced as `get_task_cost` prices the first attempt with the referenced shard among the attempts of the referenced call name in the execution its text names |
| GbEstimateBilling.CachedCallIsReferencedTask | scripts/gb_estimate_billing.py:158-165 | a cache hit costs exactly what the referenced attempt costs as a task |
| GbEstimateBilling.CostCallShape | scripts/gb_estimate_billing.py:218-229 | a call has no cost exactly when it is not done; a task call gives a consistent task record; a subworkflow call costs what its subworkflow does |
| GbEstimateBilling.CacheMissIsPricedAsTask | scripts/gb_estimate_billing.py:222-229 | a completed call that is not a cache hit (including a reported miss) and not a subworkflow is priced as a task of its own |
| GbEstimateBilling.UnfinishedCallLeftOut | scripts/gb_estimate_billing.py:220-221 | a call that has not completed leaves the call costs as they were |
| GbEstimateBilling.CostWorkflow | scripts/gb_estimate_billing.py:210-244 | a priced workflow is a workflow node carrying the requested id |
| GbEstimateBilling.ComputeWorkflowCost | scripts/gb_estimate_billing.py:210-244 | the loops compute exactly `CostWorkflow` |
| GbEstimateBilling.ComputeCalls | scripts/gb_estimate_billing.py:218-229 | the loop over call names computes the call-cost dict of the specification |
| GbEstimateBilling.ComputeNamedCalls | scripts/gb_estimate_billing.py:219-229 | the loop over one name's calls stores each priced call under its key |
| GbEstimateBilling.ComputeCallCost | scripts/gb_estimate_billing.py:220-229 | one call is priced as the specification prices it |
| GbEstimateBilling.WorkflowConsistent | scripts/gb_estimate_billing.py:181 | every tree the estimator returns is consistent at every level |
| GbEstimateBilling.GroupsConsistent | scripts/gb_estimate_billing.py:218-229 | the call-cost dict built over call names holds only consistent entries |
| GbEstimateBilling.CallsConsistent | scripts/gb_estimate_billing.py:219-229 | the same for the calls of one name |
| GbEstimateBilling.CallConsistent | scripts/gb_estimate_billing.py:222-229 | a priced call is consistent, down to its subworkflows |
| CostsCsv.TaskCosts | scripts/costs_json_to_csv.py:9-21 | a root without `callCosts` raises KeyError; otherwise the rows the stack produces are the flattening of the call costs |
| CostsCsv.SizeOfPop | scripts/costs_json_to_csv.py:16-18 | popping the last item and pushing its calls shrinks the frontier's size, so the loop stops |
| CostsCsv.FlattenIsReversedLeaves | scripts/costs_json_to_csv.py:13-20 | the stack emits the leaves in exactly the reverse of depth-first order: one row per task at any depth, and none for a workflow |
| CostsCsv.RowsAreLeaves | scripts/costs_json_to_csv.py:13-20 | the rows are the tree's tasks, counted with multiplicity |
| CostsCsv.LastItemFirst | scripts/costs_json_to_csv.py:16-20 | when the last call on the frontier is a task, its row comes first |
| CostsCsv.WorkflowLeaves | scripts/costs_json_to_csv.py:17-18 | a workflow's tasks are those of its calls, in order |
| CostsCsv.WorkflowSize | scripts/costs_json_to_csv.py:17-18 | a workflow counts itself plus the nodes of its calls |
| CostsCsv.TreeLeavesTotal | scripts/costs_json_to_csv.py:20 | on a consistent tree the tasks' totals add up to the tree's total |
| CostsCsv.RowsAddUpToRoot | scripts/costs_json_to_csv.py:9-21 | for a tree the estimators build, the rows' totals add up to the root's total cost |
| CostsCsv.Reverse | scripts/costs_json_to_csv.py:16 | popping from the end visits a list in reverse; the reverse has the same length and the mirrored items |
| PersistArtifacts.ThenPrefix | scripts/persist_artifacts.py:84-92 | effects already done, then two steps: the same as the first step's effects and fault followed by the second |
| PersistArtifacts.PersistEndpoint | scripts/persist_artifacts.py:26-32 | the endpoint is requested first; an OK response's body is saved under its file name and copied to `<dir>/<file name>`; any other response saves nothing; every save holds the response to the request before it |
| PersistArtifacts.IsCacheHit | scripts/persist_artifacts.py:48-55 | false without a caching record or without a `hit` in it; otherwise the truth of `hit` |
| PersistArtifacts.MatchCachedId | scripts/persist_artifacts.py:58-73 | the unanchored pattern's first group: the id is the text after `Cache Hit: ` up to the first colon, followed by a non-empty call name and a shard |
| PersistArtifacts.CachedId | scripts/persist_artifacts.py:58-73 | an id found is a well-formed execution id; the only errors are KeyError, TypeError and AttributeError |
| PersistArtifacts.TrailingTextTolerated | scripts/persist_artifacts.py:60-73 | the text Cromwell writes for a cache hit gives its execution id, whatever text follows it |
| PersistArtifacts.CachedIdExample | scripts/persist_artifacts.py:60-73 | `Cache Hit: ab:c:1 x` gives the id `ab`, which the estimators' anchored pattern rejects |
| PersistArtifacts.Reference | scripts/persist_artifacts.py:84-92 | the id a call refers to: a subworkflow id first, even on a cache hit, then a cache hit's execution id |
| PersistArtifacts.VisitEffects | scripts/persist_artifacts.py:76-94 | every walk starts by requesting the metadata; a non-OK response ends it with nothing else done; an OK one is saved before any reference is followed |
| PersistArtifacts.VisitSaves | scripts/persist_artifacts.py:76-94 | every file the metadata walk saves holds the OK response to the request just before it |
| PersistArtifacts.SavesResponsesConcat | scripts/persist_artifacts.py:76-94 | logs that each save only responses still do so one after the other |
| PersistArtifacts.CallsStep | scripts/persist_artifacts.py:85-92 | one turn of the loop over calls: the call's effects, then, unless it raised, the rest |
| PersistArtifacts.GroupsStep | scripts/persist_artifacts.py:84-92 | one turn of the loop over call names |
| PersistArtifacts.RepeatedReferenceVisitedTwice | scripts/persist_artifacts.py:84-92 | nothing is remembered between references: the same subworkflow listed twice is requested and saved twice |
| PersistArtifacts.Archive.constructor | scripts/persist_artifacts.py:13-19 | the archive starts with no effects |
| PersistArtifacts.Archive.SaveTiming | scripts/persist_artifacts.py:35-37 | the timing page is requested and saved as `timing.html` |
| PersistArtifacts.Archive.SaveOutputs | scripts/persist_artifacts.py:40-42 | the outputs page is requested and saved as `outputs.html` |
| PersistArtifacts.Archive.SaveMetadata | scripts/persist_artifacts.py:76-94 | the effects are those of the walk specification, in order, and an exception stops the walk after the effects before it |
| PersistArtifacts.Archive.SaveReferences | scripts/persist_artifacts.py:84-92 | the loop over call names has the effects of the specification |
| PersistArtifacts.Archive.SaveGroup | scripts/persist_artifacts.py:85-92 | the calls under one name have the effects of the specification |
| PersistArtifacts.Archive.SaveCalls | scripts/persist_artifacts.py:85-92 | the loop over one name's calls has the effects of the specification |
| PersistArtifacts.Archive.SaveCall | scripts/persist_artifacts.py:86-92 | one call follows its reference, if it has one |
| CostScript.ReadTable | scripts/cost_script.py:16-20 | the table has one row per line, each the line split at tabs |
| CostScript.StripShard | scripts/cost_script.py:28-34 | `re.sub('_shard-' + n digits, '', s)` removes every match, scanning left to right and resuming after each one |
| CostScript.NormaliseName | scripts/cost_script.py:24-34 | a name that does not mention `shard` is kept, and no name gets longer; what a shard suffix becomes is stated by the ShardSuffixRemoved, OneDigitShardKept and ThreeDigitShardKeepsLastDigit rows |
| CostScript.NormaliseNames | scripts/cost_script.py:24-34 | only the first field of each row is rewritten, and the table keeps its shape |
| CostScript.StripNoDash | scripts/cost_script.py:28-34 | text without `-` contains no match and is kept unchanged |
| CostScript.MentionsShard | scripts/cost_script.py:25 | a name with a shard suffix mentions `shard`, so it takes the rewriting branch |
| CostScript.ShardRemoved | scripts/cost_script.py:28-29 | a shard suffix of exactly n digits is a match and is removed |
| CostScript.OneDigitShardKept | scripts/cost_script.py:28 | a one-digit shard suffix not followed by a digit is no match for the two-digit pattern |
| CostScript.ShardSuffixRemoved | scripts/cost_script.py:24-34 | a call name with a one- or two-digit shard suffix becomes its base name, and any `_retryN` after it survives, so all shards of a call are summed together |
| CostScript.ThreeDigitShardKeepsLastDigit | scripts/cost_script.py:22-34 | `_shard-123` leaves the name followed by `3`, so such shards are not merged with their base name |
| CostScript.ColumnIndex | scripts/cost_script.py:39-40 | the first column with this name |
| CostScript.SelectColumns | scripts/cost_script.py:40 | the five named columns are selected; a missing one raises KeyError |
| CostScript.ReadRecord | scripts/cost_script.py:44 | a row read has the header's width; the record holds its name field and the four parsed cost fields |
| CostScript.ReadRecords | scripts/cost_script.py:41-44 | one record per data row, each the one that row reads as |
| CostScript.Frame | scripts/cost_script.py:39-41 | an empty table raises IndexError and a header missing one of the five columns raises KeyError; otherwise record k is what ReadRecord reads from row k + 1 under the header's columns |
| CostScript.SumByName | scripts/cost_script.py:47 | one entry per call name, holding the sums of that name's costs (group order: see Left out) |
| CostScript.SumForStep | scripts/cost_script.py:47 | one more record: its name becomes named, its sums grow by its costs, nothing else changes, and a new name starts from zero |
| CostScript.UnnamedSumsToZero | scripts/cost_script.py:47 | a name that does not occur has no entry and sums of zero |
| CostScript.InsertKeepsOrder | scripts/cost_script.py:50 | inserting a row into rows ordered by descending total keeps them ordered |
| CostScript.InsertAtMost | scripts/cost_script.py:50 | inserting a row with total at most b among rows with totals at most b keeps the bound |
| CostScript.InsertPermutes | scripts/cost_script.py:50 | inserting adds exactly that row to the multiset of rows |
| CostScript.SortedByTotal | scripts/cost_script.py:50 | the sorted rows are a permutation of the rows, with totals non-increasing |
| CostScript.Summarise | scripts/cost_script.py:16-50 | from the file's lines to the summary: one row per call name of the data with its sums, ordered by descending total |
| CostScript.SummaryRows | scripts/cost_script.py:47-50 | the summary's names are distinct and are the data's names, each with its own sums |
| ValidateImmunoYaml.Basename | scripts/validate_immuno_yaml.py:76-77 | a basename contains no `/` |
| ValidateImmunoYaml.BasenameOf | scripts/validate_immuno_yaml.py:76-77 | a name without `/`, inside any directory, has itself as basename |
| ValidateImmunoYaml.SuffixPairFrom | scripts/validate_immuno_yaml.py:86-89 | the loop over suffix pairs succeeds exactly when some remaining pair matches |
| ValidateImmunoYaml.IsProperFastqPair | scripts/validate_immuno_yaml.py:75-96 | a pair is proper exactly when some suffix pair matches the basenames or one of the three marker swaps turns the first basename into the second |
| ValidateImmunoYaml.DirectoriesIgnored | scripts/validate_immuno_yaml.py:76-77 | the mates' directories play no part in the verdict |
| ValidateImmunoYaml.RgRun | scripts/validate_immuno_yaml.py:40 | the greedy run of characters other than tab and backslash |
| ValidateImmunoYaml.FirstRgMatch | scripts/validate_immuno_yaml.py:41 | `re.search` finds the leftmost position where the pattern matches |
| ValidateImmunoYaml.ExtractRgFieldNone | scripts/validate_immuno_yaml.py:39-42 | the field is None exactly when no `FIELD:` is followed by an accepted character |
| ValidateImmunoYaml.ExtractRgFieldSome | scripts/validate_immuno_yaml.py:39-42 | a field found is the non-empty text after the first such `FIELD:`, up to the next tab or backslash |
| ValidateImmunoYaml.ExtractFromReadGroup | scripts/validate_immuno_yaml.py:187-203 | a read group with the field once, in tab-separated form, gives its value, as the SM and CN checks read it |
| ValidateImmunoYaml.ImmunoSection | scripts/validate_immuno_yaml.py:151 | only a dict has items; anything else raises AttributeError |
| ValidateImmunoYaml.StripPrefixedLookup | scripts/validate_immuno_yaml.py:151 | the section holds exactly the `immuno.` keys, stripped, each with its own value, and its keys are distinct |
| ValidateImmunoYaml.DuplicatesAreRepeats | scripts/validate_immuno_yaml.py:167 | a path is a duplicate exactly when it occurs at two different positions |
| ValidateImmunoYaml.WordEnd | scripts/validate_immuno_yaml.py:58 | the end of the `\w+` run, never before its start nor past the line |
| ValidateImmunoYaml.NextImmunoLine | scripts/validate_immuno_yaml.py:49 | the first line at or after j that starts with `immuno.` after its indentation, or the end |
| ValidateImmunoYaml.FirstItemBefore | scripts/validate_immuno_yaml.py:48-53 | an item found lies between line j and the end of the file |
| ValidateImmunoYaml.FirstItemBeforeIs | scripts/validate_immuno_yaml.py:48-53 | the item found is the first list item before the next `immuno.` line, and there is none exactly when no list item comes before it |
| ValidateImmunoYaml.CheckCommentingIssues | scripts/validate_immuno_yaml.py:44-53 | the complaints printed are exactly those of the specification, in line order |
| ValidateImmunoYaml.FindItem | scripts/validate_immuno_yaml.py:48-53 | the inner `while` finds `FirstItemBefore` |
| ValidateImmunoYaml.CommentIssuesAre | scripts/validate_immuno_yaml.py:46-52 | a complaint names a commented key line exactly when a list item follows it before the next `immuno.` line, and it quotes the first such item, stripped |
| ValidateImmunoYaml.CommentIssueLines | scripts/validate_immuno_yaml.py:46-52 | the complaints are in increasing line order, so a key gets at most one |
| ValidateImmunoYaml.NextClosing | scripts/validate_immuno_yaml.py:63-67 | the first line at or after j that is indented no deeper than the key and starts with a word character, or the end |
| ValidateImmunoYaml.HasActiveItemIs | scripts/validate_immuno_yaml.py:62-71 | an active item is found exactly when a list item comes before the block closes |
| ValidateImmunoYaml.EmptyActiveKeys | scripts/validate_immuno_yaml.py:57-73 | every reported index is among the first n lines |
| ValidateImmunoYaml.KeyTexts | scripts/validate_immuno_yaml.py:59 | one stripped text per reported line |
| ValidateImmunoYaml.CheckEmptyActiveKeys | scripts/validate_immuno_yaml.py:55-73 | the key lines printed are those of the specification, in order |
| ValidateImmunoYaml.CheckKey | scripts/validate_immuno_yaml.py:58-73 | one pass of the outer loop reports what the specification reports for that line |
| ValidateImmunoYaml.ScanBlock | scripts/validate_immuno_yaml.py:62-71 | the inner `while` decides `HasActiveItem` |
| ValidateImmunoYaml.EmptyActiveKeysAre | scripts/validate_immuno_yaml.py:57-73 | a line is reported exactly when it is a bare active key and no list item comes before its block closes |
| ValidateImmunoYaml.FirstLineWith | scripts/validate_immuno_yaml.py:120-122 | the first line from a position on that contains the keyword |
| ValidateImmunoYaml.ListingEnd | scripts/validate_immuno_yaml.py:128-131 | the first line at or after j whose stripped text starts with `#` or `immuno.`, or the end |
| ValidateImmunoYaml.CheckCommentedBlocks | scripts/validate_immuno_yaml.py:98-138 | the results are the three checks' reports, in table order |
| ValidateImmunoYaml.RunChecks | scripts/validate_immuno_yaml.py:118-137 | the loop over the checks gives the specification's reports |
| ValidateImmunoYaml.ReportBlock | scripts/validate_immuno_yaml.py:119-137 | one check's report as the specification gives it |
| ValidateImmunoYaml.ListBlock | scripts/validate_immuno_yaml.py:127-134 | the innermost `while` lists the stripped lines of the specification |
| ValidateImmunoYaml.ListingIs | scripts/validate_immuno_yaml.py:127-134 | the listing holds, indented, exactly the non-empty stripped lines before the first one starting with `#` or `immuno.` |
| ValidateImmunoYaml.BlockReportShape | scripts/validate_immuno_yaml.py:119-137 | each check gives one headline, chosen by the first line with its keyword (`not found`, commented or selected); only a selected block is followed by indented lines |
| ValidateImmunoYaml.ListingIndented | scripts/validate_immuno_yaml.py:132-133 | every listed line starts with two spaces |
| ValidateImmunoYaml.PathCollector.constructor | scripts/validate_immuno_yaml.py:24 | the collected list starts empty |
| ValidateImmunoYaml.PathCollector.Recurse | scripts/validate_immuno_yaml.py:26-34 | the list grows by exactly the file paths of the value, in visiting order |
| ValidateImmunoYaml.FlattenFilePaths | scripts/validate_immuno_yaml.py:23-37 | the paths are the value's file paths, in visiting order |
| ValidateImmunoYaml.CollectedIffLeaf | scripts/validate_immuno_yaml.py:26-34 | a string is collected exactly when it starts with `gs://` or `/` and is held somewhere in the value |
| ValidateImmunoYaml.KeysIgnored | scripts/validate_immuno_yaml.py:27-29 | the paths collected from a dict are those collected from the list of its values, so keys are never collected |
| PyPath.Segments | scripts/cloudize-workflow.py:104-108 | the segments `Path(s)` keeps: none empty, none `.`, none containing `/` |
| PyPath.Parse | scripts/cloudize-workflow.py:106-108 | `Path(s)` is always normal |
| PyPath.ParsePrinted | scripts/cloudize-workflow.py:129-143 | parsing the printed text of a path gives the path back |
| PyPath.ParseJoined | scripts/cloudize-workflow.py:108 | `Path(f"{a}/{b}")` has the segments of a, then those of b, and a's absoluteness |
| PyPath.ParseChild | scripts/cloudize-workflow.py:187 | `Path(f"{parent}/{stem}")` appends a segment to the parent |
| PyPath.ToStrExtendsLast | scripts/cloudize-workflow.py:189 | text appended to a printed path extends its last segment |
| PyPath.Parent | scripts/cloudize-workflow.py:187 | the parent of a normal path is normal |
| PyPath.SuffixDot | scripts/cloudize-workflow.py:187 | the suffix starts at a dot that is neither the first nor the last character of the name |
| PyPath.StemAndSuffix | scripts/cloudize-workflow.py:283-285 | stem plus suffix is the name; the suffix is a dot followed by dot-free text; the stem of a segment is non-empty and contains no `/` |
| PyPath.Collapse | scripts/cloudize-workflow.py:88 | after collapsing no `..` remains, and segments stay segments |
| PyPath.CollapseKeeps | scripts/cloudize-workflow.py:88 | without `..` there is nothing to collapse |
| PyPath.Resolve | scripts/cloudize-workflow.py:88 | a resolved path is absolute and, from a resolved working directory, normal and free of `..` |
| PyPath.ResolveResolved | scripts/cloudize-workflow.py:97-101 | resolving a resolved path changes nothing |
| PyPath.ParentsAre | scripts/cloudize-workflow.py:88 | a path's parents are exactly the absolute paths whose segments are a proper prefix of its own |
| PyPath.DeeperIsLonger | scripts/cloudize-workflow.py:90 | a deeper ancestor has longer text, so `max` by text length picks the deepest |
| Text.FindFrom | scripts/validate_immuno_yaml.py:121 | `t in s`: the first occurrence at or after a position |
| Text.Split | scripts/pull_outputs.py:23 | `s.split(sep)` gives at least one piece and no piece holds the separator |
| Text.JoinSplit | scripts/pull_outputs.py:23 | joining the pieces of a split gives the string back |
| Text.SplitJoin | scripts/cloudize-workflow.py:106 | splitting a join of separator-free pieces gives the pieces back |
| Text.SplitAppend | scripts/pull_outputs.py:59 | splitting at a separator followed by separator-free text adds that text as the last piece |
| Text.SplitConcat | scripts/cloudize-workflow.py:108 | splitting around a separator splits each side separately |
| Text.SplitSingle | scripts/estimate_billing.py:108 | `s.split(sep)` has one piece exactly when `s` contains no separator |
| Text.JoinSnoc | scripts/cloudize-workflow.py:189 | joining one more piece adds a separator and the piece |
| Text.JoinStartsWithFirst | scripts/cloudize-workflow.py:108 | a join starts with its first piece |
| Text.LastPieceAfter | scripts/pull_outputs.py:23 | the last piece is what follows the last separator |
| Text.LastPieceAfterLast | scripts/pull_outputs.py:23 | `s.split(sep)[-1]` is the text after the last separator, or all of s without one |
| Text.ReplaceSkipsPrefix | scripts/cost_script.py:28-34 | a prefix in which the pattern starts nowhere passes through unchanged |
| Text.SkipSpaces | scripts/validate_immuno_yaml.py:60 | the first non-whitespace index at or after a position |
| Text.SkipSpacesIs | scripts/validate_immuno_yaml.py:60 | what is skipped is whitespace, and it stops at the end or at a non-whitespace character |
| Text.LStripSkips | scripts/validate_immuno_yaml.py:60 | `lstrip` drops exactly the leading whitespace, so `len(line) - len(line.lstrip())` is the indentation |
| Text.RStripChar | scripts/estimate_billing.py:79 | `s.rstrip(c)` is a prefix of s that does not end in c, and everything dropped is c |
| Text.LastIndexOf | scripts/cloudize-workflow.py:187 | the last occurrence of a character |
| Text.IndexOf | scripts/estimate_billing.py:186 | the first occurrence of a character |
| Text.IndexOfAt | scripts/estimate_billing.py:186 | the first c is at i when s[i] is c and none comes before |
| Text.LastIndexOfAt | scripts/estimate_billing.py:186 | the last c is at i when s[i] is c and none comes after |
| Text.DecimalString | scripts/estimate_billing.py:209-211 | `str(n)` of a natural number is a non-empty digit string, one digit long exactly when n < 10 |
| Text.ParseIntOfString | scripts/estimate_billing.py:196 | `int(str(i)) == i` |
| Text.DecimalStringInjective | scripts/estimate_billing.py:209-211 | different numbers print differently |
| Text.DigitPrefix | scripts/gb_estimate_billing.py:114 | the longest prefix of digits |
| Text.FirstDigitRun | scripts/gb_estimate_billing.py:114 | `re.search(r"(\d+)")`: the leftmost run of digits, taken whole; None without a digit |
| Text.FirstDigitRunOf | scripts/gb_estimate_billing.py:114 | the run found is the one after a digit-free prefix, up to the next non-digit |
| Text.LineLength | scripts/validate_immuno_yaml.py:45 | the next line boundary at or after a position |
| Json.KeysAt | scripts/estimate_billing.py:223 | a dict's keys are its fields' names, in order |
| Json.KeysInit | scripts/validate_immuno_yaml.py:151 | dropping the last field keeps the other keys distinct and drops that key |
| Json.Lookup | scripts/estimate_billing.py:227 | `d[k]` has a value exactly when k is a key |
| Json.Put | scripts/estimate_billing.py:227 | `d[k] = v` with a new key appends it last; with an existing key the keys keep their order and positions |
| Json.LookupPut | scripts/estimate_billing.py:227 | after `d[k] = v`, `d[k]` is v and every other key reads as before |
| Json.KeysPut | scripts/estimate_billing.py:227 | `d[k] = v` adds exactly k to the keys, so keys stay distinct |
| Json.Subscript | scripts/estimate_billing.py:120-122 | `j[k]` succeeds exactly on a dict holding k, and gives that key's value |
| Json.Includes | scripts/estimate_billing.py:66-75 | `k in j` on a dict tells whether k is among its keys |
| Json.Iter | scripts/cloudize-workflow.py:192-196 | a `for` loop over a list visits its items |
| Json.Items | scripts/pull_outputs.py:58 | only a dict has `items()` |
| Json.DictGet | scripts/cloudize-workflow.py:121-126 | only a dict has `get`; the default is given for a missing key |
| Json.AsStr | scripts/estimate_billing.py:91 | a `str` method on anything but a string raises AttributeError |
| Json.IntOf | scripts/gb_estimate_billing.py:112 | `int(j)` of an integer is that integer |
| Json.Format | scripts/estimate_billing.py:209-211 | an f-string of a string is the string itself |
| YamlTree.WalkKeeps | scripts/cloudize-workflow.py:37-51 | a walk whose callback returns each node unchanged rebuilds an equal structure |
| YamlTree.Assign | scripts/cloudize-workflow.py:55-61 | a successful `coll[k] = v` leaves a truthy collection, and a dict stays a dict |
| YamlTree.VisitedIffReached | scripts/cloudize-workflow.py:37-51 | the callback is called on a node with a path exactly when that path leads to that node |
| YamlTree.VisitedIsReached | scripts/cloudize-workflow.py:37-51 | every call the walk makes is at a path leading to its node |
| YamlTree.ReachedIsVisited | scripts/cloudize-workflow.py:37-51 | every node at every path gets a call |
| CloudizeWorkflow.Get | scripts/cloudize-workflow.py:64-72 | raises TypeError exactly for a string key on a list; otherwise the child (None when missing) |
| CloudizeWorkflow.GetIn | scripts/cloudize-workflow.py:75-82 | the root for an empty path, None under a falsy value; anything found besides None is the node at that path |
| CloudizeWorkflow.GetInReaches | scripts/cloudize-workflow.py:75-82 | `get_in` finds every node that is there |
| CloudizeWorkflow.GetInFalsy | scripts/cloudize-workflow.py:79-80 | a falsy value has nothing under it |
| CloudizeWorkflow.AssignThenGet | scripts/cloudize-workflow.py:55-72 | after `coll[k] = v`, `get(coll, k)` is v and every other key reads as before |
| CloudizeWorkflow.SetFromStep | scripts/cloudize-workflow.py:55-61 | the first step of `set_in`: a falsy child is replaced by `{}` and the walk descends into it |
| CloudizeWorkflow.SetInThenGetIn | scripts/cloudize-workflow.py:55-61 | after `set_in`, `get_in` at the path gives the value stored |
| CloudizeWorkflow.SetInFillsFalsy | scripts/cloudize-workflow.py:57-59 | where the path passes a missing or falsy child, `set_in` leaves a dict |
| CloudizeWorkflow.SetInKeepsOthers | scripts/cloudize-workflow.py:55-61 | `set_in` changes nothing that `get_in` sees along a path that branches off from its own |
| CloudizeWorkflow.ExpandRelative | scripts/cloudize-workflow.py:104-108 | an absolute path is kept, and a normal path stays normal |
| CloudizeWorkflow.ExpandRelativeAppends | scripts/cloudize-workflow.py:104-108 | a relative path's segments are appended to the base directory's |
| CloudizeWorkflow.StripAncestor | scripts/cloudize-workflow.py:97-101 | from a resolved working directory, a normal path gives a normal result |
| CloudizeWorkflow.StripAncestorRejoins | scripts/cloudize-workflow.py:97-101 | the result is relative exactly when the ancestor is a proper ancestor; then it is non-empty and appended to the ancestor gives the resolved path |
| CloudizeWorkflow.CommonPrefix | scripts/cloudize-workflow.py:88-89 | the length of the longest common prefix of two segment lists |
| CloudizeWorkflow.SharedDepth | scripts/cloudize-workflow.py:88-89 | the depth stays below the first path's length and within every path's bound |
| CloudizeWorkflow.SharedDepthGreatest | scripts/cloudize-workflow.py:88-89 | every depth within all the paths' bounds is within the shared depth |
| CloudizeWorkflow.ResolveAll | scripts/cloudize-workflow.py:88 | one resolved path per path, in order |
| CloudizeWorkflow.DeepestSharedAncestor | scripts/cloudize-workflow.py:87-90 | no paths raise IndexError; any other failure is ValueError |
| CloudizeWorkflow.DeepestSharedAncestorIsDeepest | scripts/cloudize-workflow.py:87-90 | the shared ancestors are the result and its own parents, so the result is shared and every other shared ancestor is shorter as text |
| CloudizeWorkflow.SharedIffPrefix | scripts/cloudize-workflow.py:88-89 | a path is a shared ancestor exactly when it is an absolute prefix of the first resolved path no deeper than the shared depth |
| CloudizeWorkflow.InputName | scripts/cloudize-workflow.py:114-118 | fails exactly for a path that is a single list index |
| CloudizeWorkflow.InputNameOfEntry | scripts/cloudize-workflow.py:114-118 | an input's name is its key, whether the node is the value under the key or an item of the list stored there |
| CloudizeWorkflow.GetPath | scripts/cloudize-workflow.py:129-134 | a string is parsed as a path; succeeds exactly on a string or a dict whose `path` is a string |
| CloudizeWorkflow.SetPathStores | scripts/cloudize-workflow.py:137-143 | after `set_path` the new value is at its target, and every path that branches off from the target reads as before |
| CloudizeWorkflow.IdempotentPrependAddsOnce | scripts/cloudize-workflow.py:154-159 | the prefix is added exactly to names without a dot, and every result contains one |
| CloudizeWorkflow.PrependWorkflowName | scripts/cloudize-workflow.py:153-161 | succeeds exactly on a dict and gives a dict |
| CloudizeWorkflow.PrependedKeys | scripts/cloudize-workflow.py:153-161 | the renamed keys each contain a dot, none repeats, and they are the renamed source keys |
| CloudizeWorkflow.PrependedKeepsDotted | scripts/cloudize-workflow.py:153-161 | distinct keys that all contain a dot come through unchanged |
| CloudizeWorkflow.PrependWorkflowNameIdempotent | scripts/cloudize-workflow.py:153-161 | prefixing twice is the same as prefixing once |
| CloudizeWorkflow.SecondaryFileSuffixes | scripts/cloudize-workflow.py:181-182 | a truthy result is the input's declared `secondaryFiles`; a falsy one is `[]` |
| CloudizeWorkflow.SecondaryFileSuffixesDeclared | scripts/cloudize-workflow.py:181-182 | a declared list of suffixes is what the input gets |
| CloudizeWorkflow.SecondaryFilePath | scripts/cloudize-workflow.py:185-189 | the intended rule always gives a normal path (its caret and plain-suffix cases are the two lemmas below) |
| CloudizeWorkflow.SecondaryFilePathCaret | scripts/cloudize-workflow.py:185-187 | a caret strips one extension from the name and keeps the directory |
| CloudizeWorkflow.SecondaryFilePathAppends | scripts/cloudize-workflow.py:188-189 | a suffix without a caret is appended to the name, in the same directory |
| CloudizeWorkflow.SecondaryFilePathTwoCaretsFail | scripts/cloudize-workflow.py:185-189 | as written, a suffix with two carets always raises AttributeError |
| CloudizeWorkflow.SecondaryFilePaths | scripts/cloudize-workflow.py:192-196 | a single string gives the one path built for it (with the corrected caret rule; see Left out) |
| CloudizeWorkflow.PathsFor | scripts/cloudize-workflow.py:196 | the paths exist exactly when every item is a string, one per item, in order (with the corrected caret rule; see Left out) |
| CloudizeWorkflow.ProcessNode | scripts/cloudize-workflow.py:204-210 | a record made for a file input holds only normal paths (secondary files by the corrected caret rule; see Left out) |
| CloudizeWorkflow.ProcessNodeRecords | scripts/cloudize-workflow.py:164-176 | a record is made exactly for a file input, at its own path, with the node's path expanded (no secondary files for WDL) |
| CloudizeWorkflow.FoundInMembers | scripts/cloudize-workflow.py:164-213 | a finished walk records exactly what `process_node` returned for some call |
| CloudizeWorkflow.FindsFileInputs | scripts/cloudize-workflow.py:164-213 | the walk over the inputs records a file input for every node that is one, and nothing else |
| CloudizeWorkflow.FilePath.constructor | scripts/cloudize-workflow.py:218-222 | a file's resolved path, with no bucket name yet |
| CloudizeWorkflow.FilePath.SetCloud | scripts/cloudize-workflow.py:223-224 | sets the bucket name from the ancestor and the folder, leaving the local path |
| CloudizeWorkflow.Locals | scripts/cloudize-workflow.py:240 | the local paths of a sequence of file paths |
| CloudizeWorkflow.NewFilePaths | scripts/cloudize-workflow.py:227-232 | one fresh file path per path, each resolved from its path |
| CloudizeWorkflow.FoundInStep | scripts/cloudize-workflow.py:164-213 | one more `process_node` call raises, or adds its record to those found |
| CloudizeWorkflow.NewFileInput | scripts/cloudize-workflow.py:227-232 | a `FileInput` keeps its node path and holds the file and its secondary files |
| CloudizeWorkflow.AddRecord | scripts/cloudize-workflow.py:164-213 | one step of the walk turns a record, if any, into a new `FileInput` |
| CloudizeWorkflow.RecordCalls | scripts/cloudize-workflow.py:164-213 | one `FileInput` per record, in call order (with the corrected caret rule; see Left out) |
| CloudizeWorkflow.FindFileInputs | scripts/cloudize-workflow.py:164-213 | the walk's inputs are those of the specification, in walk order (with the corrected caret rule; see Left out) |
| CloudizeWorkflow.SetClouds | scripts/cloudize-workflow.py:244-246 | `set_cloud` on each of one input's paths |
| CloudizeWorkflow.SetAllClouds | scripts/cloudize-workflow.py:243-246 | every path of every input gets its bucket name |
| CloudizeWorkflow.AllPathsPrefix | scripts/cloudize-workflow.py:240 | the paths of a prefix of the inputs, one input at a time |
| CloudizeWorkflow.AllPathsFrom | scripts/cloudize-workflow.py:240 | a path of the inputs is a path of one of them |
| CloudizeWorkflow.AllPathsIn | scripts/cloudize-workflow.py:240 | every path of an input is among the inputs' paths |
| CloudizeWorkflow.ParseFileInputs | scripts/cloudize-workflow.py:235-250 | the inputs found are those the walk of the inputs describes, their paths are resolved, and each path gets the bucket name below the deepest ancestor all paths share (with the corrected caret rule; see Left out) |
| CloudizeWorkflow.CloudNamesBelowAncestor | scripts/cloudize-workflow.py:235-250 | every bucket name is the run's folder followed by the file's path below the shared ancestor, so different files get different names |
| CloudizeWorkflow.DefaultOutputBeside | scripts/cloudize-workflow.py:283-285 | the default output sits beside the inputs file, named by its stem plus `_cloud`, with its suffix kept |
| CloudizeWorkflow.TaggedIsSegment | scripts/cloudize-workflow.py:285 | a segment's stem, `_cloud` and its suffix make a segment |
| CloudizeWorkflow.TaggedKeepsSuffix | scripts/cloudize-workflow.py:285 | the dot that starts a suffix stays the last one once `_cloud` goes before it |
| CloudizeLegacy.Get | cloudize-workflow.py:58-63 | raises TypeError except on a dict, or on a list or string with an integer index; otherwise the child or None, and on a string None or one character |
| CloudizeLegacy.GetAgainstLater | cloudize-workflow.py:58-63 | on dicts and indexed lists the legacy `get` is the later one; on None and numbers it raises where the later returns None |
| CloudizeLegacy.GetIn | cloudize-workflow.py:66-70 | the root for an empty path, None under a falsy value; anything found besides None and strings is the node at that path |
| CloudizeLegacy.GetInReaches | cloudize-workflow.py:66-70 | `get_in` finds every node that is there |
| CloudizeLegacy.GetInSnoc | cloudize-workflow.py:66-70 | one more step after a path is one more `get` on what the path gave |
| CloudizeLegacy.AssignThenGet | cloudize-workflow.py:53-55 | after `coll[k] = v`, `get(coll, k)` is v and every other key reads as before |
| CloudizeLegacy.Filled | cloudize-workflow.py:52-53 | a missing or falsy value is replaced by `{}` |
| CloudizeLegacy.UpdateFrom | cloudize-workflow.py:49-55 | a successful update returns a truthy value, and a dict stays a dict |
| CloudizeLegacy.UpdateFromStep | cloudize-workflow.py:51-54 | the first step of `update_in`: the child is read and a falsy one is replaced before descending |
| CloudizeLegacy.UpdateInThenGetIn | cloudize-workflow.py:49-55 | after `update_in`, `get_in` at the path gives `func` of what was there, with a missing or falsy value counting as `{}` |
| CloudizeLegacy.UpdateInKeepsOthers | cloudize-workflow.py:49-55 | `update_in` changes nothing that `get_in` sees along a path that branches off from its own |
| CloudizeLegacy.SecondaryFilePathCaret | cloudize-workflow.py:83-87 | one caret gives the stem plus the rest as a path relative to the working directory, not the file's own directory; two carets raise AttributeError |
| CloudizeLegacy.SecondaryFilePaths | cloudize-workflow.py:90-94 | a single string gives the one path built for it, or that path's error |
| CloudizeLegacy.PathsFor | cloudize-workflow.py:94 | the paths exist exactly when every item is a string whose path can be built, one per item, in order |
| CloudizeLegacy.NewFileInput | cloudize-workflow.py:97-101 | a `FileInput` keeps its file and YAML path and holds the secondary paths of its suffixes |
| CloudizeLegacy.TrackedRecords | cloudize-workflow.py:114-120 | a tracked dict is recorded at its own path with its own `path` string; without declared secondary files it has none; at the root `node_path[-1]` raises IndexError |
| CloudizeLegacy.FileNodesAre | cloudize-workflow.py:123-126 | only calls on File dicts are kept, and all of them |
| CloudizeLegacy.TrackIsFileNodes | cloudize-workflow.py:122-127 | a walk that raises nothing records one input per File dict, in walk order |
| CloudizeLegacy.FileNodesOfInputs | cloudize-workflow.py:122-127 | the File dicts of the walk are exactly the File dicts in the inputs, each with the path leading to it |
| CloudizeLegacy.TrackStep | cloudize-workflow.py:123-126 | one more `process_node` call skips a non-File node, raises, or appends a record |
| CloudizeLegacy.AddKeysSetsPath | cloudize-workflow.py:142-144 | `add_keys` succeeds exactly on a dict; it sets `path` and leaves every other key alone |
| CloudizeLegacy.UpdateSetsPath | cloudize-workflow.py:145 | after one update with `add_keys` the node at the path has the new `path` |
| CloudizeLegacy.GetInAppend | cloudize-workflow.py:66-70 | `get_in` along two paths in turn is `get_in` along their concatenation |
| CloudizeLegacy.AddKeysKeepsBelow | cloudize-workflow.py:142-144 | below any key other than `path`, the node `add_keys` returns holds what the old node held |
| CloudizeLegacy.UpdateInKeepsBelow | cloudize-workflow.py:145 | an `update_in` with `add_keys` at a node enclosing q leaves what `get_in` finds at q |
| CloudizeLegacy.NewYamlKeeps | cloudize-workflow.py:140-146 | updates along paths that branch off from q, or that lead to a node enclosing q, leave what `get_in` finds at q |
| CloudizeLegacy.NewYamlSetsPath | cloudize-workflow.py:140-146 | in the new inputs an input's `path` is the text of its file path whenever every later input branches off from it or encloses it, which covers File dicts nested in `secondaryFiles` |
| CloudizeLegacy.Workflow.constructor | cloudize-workflow.py:105-111 | the inputs path is parsed, the loaded inputs and definition are kept, and no file inputs are tracked |
| CloudizeLegacy.Workflow.TrackFileNode | cloudize-workflow.py:114-120 | appends the node's record; an exception appends nothing |
| CloudizeLegacy.Workflow.TrackFileInputs | cloudize-workflow.py:122-127 | the tracked inputs grow by those of the walk specification; an exception ends the walk |
| CloudizeLegacy.Workflow.GenerateNewYaml | cloudize-workflow.py:138-146 | the new inputs are the updates of the specification applied in tracking order; the inputs themselves are unchanged |
| PullOutputs.Filename | scripts/pull_outputs.py:21-23 | the file name contains no `/` |
| PullOutputs.OutputName | scripts/pull_outputs.py:59 | the output's directory name contains no `.` |
| PullOutputs.LeafIffReached | scripts/pull_outputs.py:40-53 | `download` reaches a URL with a directory exactly when the URL is a `gs://` string in the value and the directory is the path followed by the dict keys leading to it |
| PullOutputs.AsWrittenSourceIsLocal | scripts/pull_outputs.py:50-51 | as written, the copy's source is the local directory, not the URL |
| PullOutputs.Copies | scripts/pull_outputs.py:47-51 | the intended requests for a sequence of URLs, one per URL, in order |
| PullOutputs.IntendedCopiesFetchUrls | scripts/pull_outputs.py:47-51 | every intended request fetches a `gs://` URL found in the outputs into the directory it was reached with, under the URL's own file name |
| PullOutputs.DryRunCopiesNothing | scripts/pull_outputs.py:28-35 | a dry run issues no copy command and leaves the file system as it was |
| PullOutputs.RunIssuesNewCopies | scripts/pull_outputs.py:28-35 | outside a dry run every requested destination ends up a file (copies assumed to succeed; see Left out), and the new commands are exactly those for missing destinations |
| PullOutputs.NewCopiesOncePerMissing | scripts/pull_outputs.py:30-33 | each new command is for a destination that was not a file, one per such destination, and every such destination gets one |
| PullOutputs.FreshStep | scripts/pull_outputs.py:30-33 | a request for a new destination placed before commands that avoid it keeps the destinations distinct |
| PullOutputs.Downloader.constructor | scripts/pull_outputs.py:13 | the dry-run flag and file system are kept, and no command is issued yet |
| PullOutputs.Downloader.DownloadFromGcs | scripts/pull_outputs.py:28-35 | a destination that is already a file is skipped; otherwise the copy is logged, and outside a dry run it is issued and the file is taken to appear (see Left out) |
| PullOutputs.Downloader.Download | scripts/pull_outputs.py:40-53 | one `download_from_gcs` per `gs://` string, in visiting order; other values are only logged (each the corrected copy from the URL; see Left out) |
| PullOutputs.Downloader.DownloadItems | scripts/pull_outputs.py:41-43 | each item is downloaded with the same path, in order (corrected copies; see Left out) |
| PullOutputs.Downloader.DownloadFields | scripts/pull_outputs.py:44-46 | each value is downloaded under `<path>/<key>`, in order (corrected copies; see Left out) |
| PullOutputs.Downloader.DownloadOutputs | scripts/pull_outputs.py:56-60 | `response['outputs']` must be a dict; each output goes to `<outputs_dir>/<name after the last '.'>` (corrected copies; see Left out) |
| PullOutputs.OutputLeavesByKey | scripts/pull_outputs.py:56-60 | a URL is planned exactly when it is a `gs://` string of some output, under that output's directory |

## Left out

- Reading files. `read_json` (estimate_billing.py:50-63), `load_metadata` (gb_estimate_billing.py:50-64), `yaml.load`/`yaml.dump` and `json.load` are not modelled. The model takes the parsed value, or a `Store` from workflow id to metadata.
  - The `gs://` branch of `read_json` (a `gsutil cp` into `TMPDIR`) is not modelled either, for the same reason.
- The network and subprocesses. These are parameters, or entries in an effects log, and are never performed:
  - the HTTP requests of `persist_artifacts`;
  - the `gsutil` calls of every script;
  - `upload_to_gcs` in both cloudize scripts;
  - the legacy `_upload_files`;
  - `os.system` in `pull_outputs`.
- Whole-script drivers. `cloudize()` in both cloudize scripts, the `__main__` blocks, argument parsing and `print`/`logging` output are left out. Their input/output order is not modelled.
- `write_csv` and `to_csv`. CSV formatting is library code.
- Output formatting. `str(duration)` and `"%.3f" % seconds` in the estimators are not modelled. The duration is kept as seconds.
- ISO timestamp parsing. `datetime.fromisoformat` is the injected `Clock`. Only the `rstrip('Z')` before it and its failure cases are modelled.
- Floating point. Costs are Dafny `real`, so rounding is not modelled.
- The file system. What the model leaves out or injects:
  - `file_exists` in the validator, and the missing-path report built on it (validate_immuno_yaml.py:12-21, 158-164); these call `gsutil stat` and `os.path.exists`;
  - symlinks in `Path.resolve()`: the working directory is a parameter and `..` is collapsed lexically;
  - the `makedirs` in `pull_outputs`;
  - the normalisation `Path(dest)` applies to destinations;
  - `getpass.getuser()` and the date in the cloudize bucket folder, which are parameters.
- `validate_yaml` (validate_immuno_yaml.py:140-217) as a whole. The model covers the pieces it is built from, but not its printed report:
  - the `immuno.` section;
  - the path flattening and duplicates;
  - the FASTQ pair test;
  - read-group field extraction;
  - the three line checks.
  The loops over `tumor_sequence`/`normal_sequence`/`rna_sequence` and their `print`s are not modelled.
- `load_wdl_definition`. The WDL parser is a foreign library, so the workflow's name is a parameter of `prepend_workflow_name`.
- The legacy `deepest_shared_ancestor` (cloudize-workflow.py:75-78). It has the same text as the later script's function, which is modelled as `CloudizeWorkflow.DeepestSharedAncestor`.
- In-place updates. `set_in` in the later script and `update_in` in the legacy one are modelled on values, each returning the new structure. Aliasing between the parts of a YAML value is not modelled.
  - An integer key on a dict is `Unmodelled`.
  - A lone `..` that climbs above a relative path's start is collapsed at the root.
- CostScript.SortedByTotal: claims only that the rows are sorted by descending total and are a permutation of the groups. How pandas orders rows with equal totals is not modelled; the model sorts by stable insertion.
- CostScript.ReadRecord: a data row whose width differs from the header's is not modelled. pandas would pad such a row or reject it.
- Recursion depth. The estimators' `cost_workflow`/`get_workflow_cost` recurse on subworkflows, bounded by a `fuel` parameter. Running out of fuel stands for Python's recursion limit (`RecursionLimit`); the exact depth is not modelled. `persist_artifacts`' `save_metadata` is bounded the same way.
- YamlTree.Walk: the post-order call sequence is stated for callbacks that return the node they are given, which is what every callback in the scripts does. A callback that rebuilds nodes is not described beyond its result.
- CloudizeWorkflow.SecondaryFilePaths: builds each path with the corrected caret rule `SecondaryFilePath` (see "## Findings"). A suffix with two or more carets gives a path here, where scripts/cloudize-workflow.py:187 raises AttributeError.
- CloudizeWorkflow.PathsFor: uses the corrected caret rule for the same reason, so a `^^` suffix in a list gives a path rather than the script's AttributeError.
- CloudizeWorkflow.ProcessNode: a CWL input's secondary files follow the corrected caret rule; for a `^^` suffix the script raises AttributeError instead.
- CloudizeWorkflow.RecordCalls: the records come from ProcessNode, so they follow the corrected caret rule rather than raising on `^^` suffixes.
- CloudizeWorkflow.FindFileInputs: equals the walk built on ProcessNode, with the corrected caret rule.
- CloudizeWorkflow.ParseFileInputs: the inputs it finds follow the corrected caret rule; the script as written stops with AttributeError on a `^^` suffix. The as-written rule is `SecondaryFilePathAsWritten`.
- PullOutputs.Downloader.Download: issues the corrected copy from the output's URL (see "## Findings"). scripts/pull_outputs.py:51 passes the local directory `path` as the source; that command is modelled as `AsWrittenCopy` only.
- PullOutputs.Downloader.DownloadItems: its copies use the corrected URL source, not the script's `path`.
- PullOutputs.Downloader.DownloadFields: its copies use the corrected URL source, not the script's `path`.
- PullOutputs.Downloader.DownloadOutputs: the whole run issues the corrected copies, not the commands the script builds.
- CostScript.SumByName: the groups keep the order in which call names first appear, whereas `groupby("callName")` sorts them by call name. This order reaches the output only through rows with equal totals, whose order under `sort_values` is not modelled either (see CostScript.SortedByTotal).
- Regular expressions. `\d` and `\w` are ASCII digits and word characters in the model; Python's `re` also matches other Unicode digits and letters.
- `int()` of text. The model accepts an optional sign and ASCII digits only; Python's `int` also accepts surrounding whitespace, `_` between digits and other Unicode digits.
- Json.Lookup: with a repeated key the first field is read, whereas `json.load` keeps the last value; loaded dicts are taken to have distinct keys.
- CostScript.ColumnIndex: with repeated header names the first column is selected, whereas pandas selects every column with that name.
- PyPath.Parse: a leading `//`, which POSIX and `pathlib` keep as a distinct root, is read as `/`.
- PullOutputs.Downloader.DownloadFromGcs: an issued `gsutil cp` is taken to create its destination. The script ignores the status `os.system` returns (scripts/pull_outputs.py:33), so after a failed copy the destination is still missing and a later leaf with the same destination copies again; the model skips that leaf. PullOutputs.RunIssuesNewCopies rests on the same assumption.
- Repository files outside these scripts are not part of this model: the server start-up scripts and `script.py`.

## Findings

| source | as written | input that shows it | evidently intended | confidence | as-written member | corrected member |
|---|---|---|---|---|---|---|
| scripts/pull_outputs.py:50-51 | `download_from_gcs(path, ...)` passes the local directory `path` as the copy's source | an output `bam` holding `gs://b/x.bam`: the command copies `./outputs/bam` to `./outputs/bam/x.bam` | the source is the URL `value` | not executed | PullOutputs.AsWrittenSourceIsLocal | PullOutputs.IntendedCopiesFetchUrls |
| scripts/cloudize-workflow.py:185-189 | the recursive call passes `f"{basepath.parent}/{basepath.stem}"`, a `str`, so a second caret asks that string for `.parent` and fails | the suffix `^^.bai` raises AttributeError | each leading `^` strips one extension from the path | not executed | CloudizeWorkflow.SecondaryFilePathTwoCaretsFail | CloudizeWorkflow.SecondaryFilePathCaret |
