# contextworker core, modelled in Dafny

This project models the core of `contextworker`, the background-work side of ContextUnity.

- **Module registry and worker bootstrap.** Worker modules register a task queue, workflows
  and activities. Enabled modules are grouped by queue, and one worker per queue runs them all,
  with a service-discovery heartbeat alongside.
- **Sub-agent execution.** A security gate comes first. Then come an isolated environment,
  step recordings sent to the Brain service as episodes, a status monitor, and local-compute
  model selection.
- **Schedules.** Default cron schedules are created on the workflow engine.
- **Retention job.** It distils old episodes into per-user facts, then cleans them up.
- **Harvester.** This covers its supplier registry and the orchestrator that fetches,
  transforms and saves supplier products.
- **Background-agent registry.**
- **gRPC service.** It routes a request to one workflow.
- **Catalogue activities.**

Each core source file becomes one Dafny module:

| Dafny file | module | source file |
|---|---|---|
| common.dfy | `Common` | shared helpers: `Option`, `Result`, the JSON-like `Value`, Python-style string operations |
| core_registry.dfy | `CoreRegistry` | src/contextworker/core/registry.py |
| core_worker.dfy | `CoreWorker` | src/contextworker/core/worker.py |
| isolation.dfy | `Isolation` | src/contextworker/subagents/isolation.py |
| subagent_types.dfy | `SubAgentTypes` | src/contextworker/subagents/types.py |
| brain_integration.dfy | `BrainIntegration` | src/contextworker/subagents/brain_integration.py |
| executor.dfy | `Executor` | src/contextworker/subagents/executor.py |
| monitor.dfy | `Monitor` | src/contextworker/subagents/monitor.py |
| local_compute.dfy | `LocalCompute` | src/contextworker/subagents/local_compute.py |
| schedules.dfy | `Schedules` | src/contextworker/schedules.py |
| retention.dfy | `Retention` | src/contextworker/jobs/retention.py |
| harvester_registry.dfy | `Harvester` | src/contextworker/harvester/registry.py |
| orchestrator.dfy | `Orchestrator` | src/contextworker/harvester/orchestrator.py |
| agent_registry.dfy | `Agents` | src/contextworker/registry.py |
| service.dfy | `Service` | src/contextworker/service.py |
| activities_advanced.dfy | `Activities` | src/contextworker/activities_advanced.py |

**How state is modelled.**
- The source updates some objects in place: the worker registry, the sub-agent executor and
  monitor, the harvester registry, the orchestrator, the agent table and base agent, and the
  gRPC service. Each is a `class` whose methods are proved against specification functions.
- Loops become methods with invariants.
- Everything else is datatypes, functions and lemmas.

**How the outside world is modelled.**
- The Temporal engine, the Brain service, Redis, the clock, UUIDs and the process
  environment appear as parameters. Their answers are given to the model, or the model keeps
  a trace of the effects it causes on them.
- `str()` and `json.dumps` of structured values are an abstract `Render` parameter. The
  conversion of strings and `None` is modelled exactly.

## Model

| member | source | states |
|---|---|---|
| CoreRegistry.Values | src/contextworker/core/registry.py:66-68 | `get_all_modules` lists one stored module per registered name, in registration order |
| CoreRegistry.RegisterWellFormed | src/contextworker/core/registry.py:42-60 | a `register` call keeps names unique, makes names and entries agree, and never drops or alters an existing entry |
| CoreRegistry.RegisterAllWellFormed | src/contextworker/core/registry.py:114-116 | any sequence of registrations, as `register_all` makes, keeps the table well formed |
| CoreRegistry.FirstRegistrationWins | src/contextworker/core/registry.py:50-52 | a second registration under a taken name changes nothing; the first one's entry stays |
| CoreRegistry.NewModuleDefaults | src/contextworker/core/registry.py:54-59 | a new module is appended to the order, enabled, and an omitted workflow or activity list is stored empty |
| CoreRegistry.EnabledOfMembers | src/contextworker/core/registry.py:70-72 | the enabled modules are exactly the stored modules whose flag is set |
| CoreRegistry.GroupByQueueSpec | src/contextworker/core/registry.py:74-81 | the queue grouping has distinct queues; a queue is present iff some module uses it; each queue holds exactly its modules in their original order |
| CoreRegistry.ExactlyOneGroup | src/contextworker/core/registry.py:74-81 | a module sits in a queue's group iff it is bound to that queue |
| CoreRegistry.OnQueueMembers | src/contextworker/core/registry.py:78-80 | the members collected for a queue are exactly the modules on it |
| CoreRegistry.SetEnabled | src/contextworker/core/registry.py:83-91 | enabling or disabling rewrites only that module's flag, and nothing when the name is unknown |
| CoreRegistry.FirstProvider | src/contextworker/core/registry.py:110-120 | probing picks the first package that imports and exposes `register_all`; every earlier one fails that test, and none passes when it returns nothing |
| CoreRegistry.Probe | src/contextworker/core/registry.py:110-120 | no more `register_all` calls are made than packages are probed |
| CoreRegistry.AllRegisteredKeeps | src/contextworker/core/registry.py:50-59 | a run of registrations keeps the table well formed and never drops or alters an entry already present |
| CoreRegistry.ProbeKeeps | src/contextworker/core/registry.py:110-120 | probing keeps the table well formed and every earlier entry as it was; `register_all` is called at all iff some package imports and exposes it |
| CoreRegistry.FailedProviderKeepsPartial | src/contextworker/core/registry.py:111-119 | when a package's `register_all` raises `ImportError` part-way, the registrations it completed stay in the table whatever later packages do, and probing goes on |
| CoreRegistry.ProbeWithoutFaults | src/contextworker/core/registry.py:110-120 | when no `register_all` raises, only the first usable package's `register_all` runs, in full, or nothing is registered when there is none |
| CoreRegistry.WorkerRegistry.constructor | src/contextworker/core/registry.py:38-40 | a new registry is empty and not yet discovered |
| CoreRegistry.WorkerRegistry.Register | src/contextworker/core/registry.py:42-60 | the table becomes `Registered(old table, r)` and stays well formed |
| CoreRegistry.WorkerRegistry.GetModule | src/contextworker/core/registry.py:62-64 | the entry stored under the name, or nothing iff the name was never registered |
| CoreRegistry.WorkerRegistry.GetAllModules | src/contextworker/core/registry.py:66-68 | one module per registered name, in registration order |
| CoreRegistry.WorkerRegistry.GetEnabledModules | src/contextworker/core/registry.py:70-72 | exactly the registered modules that are enabled |
| CoreRegistry.WorkerRegistry.GetQueues | src/contextworker/core/registry.py:74-81 | the loop builds the grouping of the enabled modules, so each queue maps to exactly its enabled modules in order |
| CoreRegistry.WorkerRegistry.DisableModule | src/contextworker/core/registry.py:83-86 | the new table is the old one with that flag cleared, if the name is known |
| CoreRegistry.WorkerRegistry.EnableModule | src/contextworker/core/registry.py:88-91 | the new table is the old one with that flag set, if the name is known |
| CoreRegistry.WorkerRegistry.DiscoverPlugins | src/contextworker/core/registry.py:93-122 | over the two known packages in order, a second call does nothing; a first call sets the flag before probing and leaves exactly the table and the number of `register_all` calls that `Probe` gives |
| CoreRegistry.WorkerRegistry.RunRegisterAll | src/contextworker/core/registry.py:114-116 | the registrations are applied in order |
| CoreRegistry.GlobalRegistry.GetRegistry | src/contextworker/core/registry.py:126-134 | the first call creates an empty registry and every later call returns that same instance |
| CoreRegistry.Registered | src/contextworker/core/registry.py:42-60 | the table after one `register` call: a taken name leaves it as it is; a new name is appended, enabled, with missing lists stored empty |
| CoreRegistry.AllRegistered | src/contextworker/core/registry.py:42-60 | the table after several `register` calls, in order, as a `register_all` makes them |
| CoreRegistry.EnabledOf | src/contextworker/core/registry.py:70-72 | `get_enabled_modules`: the modules whose flag is set, in registration order |
| CoreRegistry.GroupByQueue | src/contextworker/core/registry.py:74-81 | `get_queues`: the task queues in order of first use, each with its modules in order |
| CoreRegistry.Performed | src/contextworker/core/registry.py:111-119 | the registrations a `register_all` call completes: all of them, or those made before it raises `ImportError` |
| CoreWorker.SelectedMembers | src/contextworker/core/worker.py:81-84 | with a non-empty filter, a queue keeps exactly its modules named in the filter |
| CoreWorker.UnknownNameOnlyWarns | src/contextworker/core/worker.py:62-65 | adding a name no module carries to the filter changes no queue's selection |
| CoreWorker.UnknownFilterSelectsNothing | src/contextworker/core/worker.py:81-84 | a filter of only unknown names selects no module, so no worker is built |
| CoreWorker.MissingNames | src/contextworker/core/worker.py:62-65 | a warning is issued for a name iff the filter is non-empty, contains it and no registered module carries it |
| CoreWorker.PlanForShape | src/contextworker/core/worker.py:86-95 | a queue yields at most one worker, on that queue, and only one that serves something |
| CoreWorker.PlanQueuesMembers | src/contextworker/core/worker.py:79-95 | every planned worker is on one of the queues and serves a workflow or an activity |
| CoreWorker.PlanQueuesDistinct | src/contextworker/core/worker.py:79-95 | over distinct queues, no two planned workers share a queue |
| CoreWorker.OneWorkerPerQueue | src/contextworker/core/worker.py:68-95 | over the queue grouping, at most one worker per queue, each serving something on a queue some module uses |
| CoreWorker.ParseTenantsSpec | src/contextworker/core/worker.py:113-114 | every announced tenant is non-empty, comma-free and stripped, where whitespace is exactly what Python's `str.isspace()` accepts |
| CoreWorker.ParseTenantsControlIsBlank | src/contextworker/core/worker.py:113-114 | an entry made only of a control character Python counts as whitespace is dropped: `"a,\x1c"` announces only `a` |
| CoreWorker.Announce | src/contextworker/core/worker.py:111-124 | the heartbeat announces the instance name (default `default`) and the endpoint (argument, else `TEMPORAL_HOST`, else `localhost:7233`), plus the queues and the worker count; the tenants are `WORKER_TENANTS` parsed by `ParseTenants`, none when it is unset |
| CoreWorker.GroupByQueueEmpty | src/contextworker/core/worker.py:68-72 | the grouping is empty iff there are no enabled modules |
| CoreWorker.NoEnabledModulesNoConnect | src/contextworker/core/worker.py:68-72 | with no enabled module the call reports that there is nothing to run and never connects |
| CoreWorker.TailHeartbeat | src/contextworker/core/worker.py:100-134 | workers run iff queues exist, the connection succeeds and a worker was planned. The heartbeat is registered iff they run and registration succeeds, and it is then cancelled as the last step, right after the joint run |
| CoreWorker.RunHeartbeat | src/contextworker/core/worker.py:46-134 | the warnings come first, one per unknown filter name; the heartbeat properties hold for the whole call |
| CoreWorker.SingleModuleScenario | src/contextworker/core/worker.py:46-134 | with one enabled module and no filter, the call connects, builds one worker with that module's workflow and activity, and runs it |
| CoreWorker.Aggregate | src/contextworker/core/worker.py:87-91 | the loop concatenates the modules' workflows and activities, in order |
| CoreWorker.PlanWorkers | src/contextworker/core/worker.py:78-98 | the planning loop yields exactly the plan, which the planning lemmas above constrain |
| CoreWorker.WarnUnknown | src/contextworker/core/worker.py:62-65 | the warning loop warns for exactly the missing names |
| CoreWorker.CreateWorkers | src/contextworker/core/worker.py:93-95 | one worker is created per plan, in order |
| CoreWorker.Launch | src/contextworker/core/worker.py:68-134 | the effects and outcome after the warnings are those of `Tail`, whose heartbeat order `TailHeartbeat` proves |
| CoreWorker.RunWorkers | src/contextworker/core/worker.py:46-134 | discovery runs first: it leaves an already discovered registry unchanged, and on a first call the registry's table and `register_all` call count become those of `Probe` over the old table and the providers; the call's effects and outcome are `RunSpec` of the registered modules |
| CoreWorker.Selected | src/contextworker/core/worker.py:81-84 | the members of one queue that a worker serves: all of them without a filter, else those named in it, in order |
| CoreWorker.PlanFor | src/contextworker/core/worker.py:86-95 | the worker planned for one queue: the selected modules' workflows and activities, and no worker when both are empty |
| CoreWorker.Plan | src/contextworker/core/worker.py:78-98 | the workers planned over the grouping's queues, in queue order |
| CoreWorker.ParseTenants | src/contextworker/core/worker.py:113-114 | the stripped (by Python's whitespace set), non-blank entries of the comma-separated tenant list; none for an empty string |
| CoreWorker.Tail | src/contextworker/core/worker.py:68-134 | everything after the warnings: nothing to run without queues; otherwise the connection; if it fails, nothing more; if no worker is planned, that report; else the workers created, the heartbeat registered when that succeeds, the joint run, and the heartbeat cancelled last |
| CoreWorker.RunSpec | src/contextworker/core/worker.py:46-134 | `run_workers` after discovery: one warning per unknown filter name, then `Tail` over the grouping of the enabled modules and its plan |
| Isolation.ToDict | src/contextworker/subagents/isolation.py:33-41 | the dictionary form has exactly the five context keys |
| Isolation.FromDict | src/contextworker/subagents/isolation.py:22-31 | reads the five context keys and ignores any other key; the model reports a value the typed context cannot hold, naming its key (where the source would store it as it is) |
| Isolation.FromDictToDict | src/contextworker/subagents/isolation.py:22-41 | reading back a context's dictionary form gives the same context |
| Isolation.ToDictFromDict | src/contextworker/subagents/isolation.py:22-41 | a dictionary that reads as a context agrees with that context's dictionary form on every key it holds; each missing key reads as its default (`None` or `""`) |
| Isolation.FromDictDefaults | src/contextworker/subagents/isolation.py:25-31 | an empty dictionary reads as the all-default context |
| Isolation.CreateIsolatedEnvironment | src/contextworker/subagents/isolation.py:69-105 | the environment keeps its context and always has a non-empty schema |
| Isolation.PrefixIsThread | src/contextworker/subagents/isolation.py:81-90 | the cache prefix is the checkpoint thread plus a colon; the thread is the session when it is non-empty, else the sub-agent id |
| Isolation.DistinctThreadsDistinctPrefixes | src/contextworker/subagents/isolation.py:81-90 | runs with different checkpoint threads never share a cache prefix |
| Isolation.SchemaIsTenant | src/contextworker/subagents/isolation.py:86-87 | the schema is the tenant when it is non-empty, else `public`; different tenants get different schemas |
| SubAgentTypes.ParseDataType | src/contextworker/subagents/types.py:12-24 | a string parses as a data type only when it is that type's value |
| SubAgentTypes.ParseDataTypeValue | src/contextworker/subagents/types.py:12-24 | every data type's value parses back to that type |
| SubAgentTypes.DataTypeValueInjective | src/contextworker/subagents/types.py:12-24 | no two data types share a value |
| SubAgentTypes.NewResult | src/contextworker/subagents/types.py:27-48 | a new result has the given id, status, type and data; no stream or file fields, empty metadata and text modality |
| SubAgentTypes.ResultToDict | src/contextworker/subagents/types.py:50-63 | the dictionary has exactly the ten result keys; the data type and modality appear as their string values |
| SubAgentTypes.ResultRoundTrip | src/contextworker/subagents/types.py:50-63 | the dictionary form loses nothing: every result is read back from it unchanged |
| SubAgentTypes.OptStringRoundTrip | src/contextworker/subagents/types.py:57-60 | an optional string field, stored as a string or null, reads back as the same option |
| SubAgentTypes.ToContextUnit | src/contextworker/subagents/types.py:65-103 | the unit's provenance is `subagent:<id>`, its trace id the context's, its modality the result's |
| SubAgentTypes.PayloadKeys | src/contextworker/subagents/types.py:69-96 | the payload has the three common keys, the data type's own keys, and `metadata` iff the metadata is non-empty |
| SubAgentTypes.PayloadValues | src/contextworker/subagents/types.py:69-96 | each key holds what its branch stores: the data for text, JSON and code; the media reference and kind for image, audio and video; the stream fields for streaming; the metadata |
| SubAgentTypes.MediaRefPrefersUrl | src/contextworker/subagents/types.py:83-89 | a media reference is the file URL when it is non-empty, else the file path |
| SubAgentTypes.DataTypeValue | src/contextworker/subagents/types.py:12-24 | the string value of each of the ten data types |
| SubAgentTypes.ResultFromDict | src/contextworker/subagents/types.py:50-63 | a result read back from the dictionary `to_dict` produces; none when a key is missing, holds the wrong kind of value, or names no data type |
| SubAgentTypes.MediaRef | src/contextworker/subagents/types.py:83-89 | a media result's file reference: `file_url or file_path` |
| SubAgentTypes.Payload | src/contextworker/subagents/types.py:69-96 | the context unit's payload: the common keys, the keys of the result's data type, and `metadata` when non-empty |
| BrainIntegration.ContentBody | src/contextworker/subagents/brain_integration.py:124-139 | the rendering by data type fails iff the result is JSON data the serialiser rejects |
| BrainIntegration.FormatEpisodeContent | src/contextworker/subagents/brain_integration.py:122-139 | formatting fails iff the result is JSON data the serialiser rejects |
| BrainIntegration.FormatEpisodeContentSpec | src/contextworker/subagents/brain_integration.py:122-139 | every episode text is the bracketed step name followed by the type's rendering: the text for text, the status for spatial, binary and file results; a media text ends with its URL when one is set |
| BrainIntegration.EpisodeMetadata | src/contextworker/subagents/brain_integration.py:75-82 | the metadata holds the five step keys plus the result's metadata keys, and the result's metadata wins on a clash |
| BrainIntegration.EpisodeMetadataDefaults | src/contextworker/subagents/brain_integration.py:75-82 | a step key the result's metadata does not set keeps the step's own value |
| BrainIntegration.EpisodeUnit | src/contextworker/subagents/brain_integration.py:92-102 | the unit's user is the sub-agent, its tenant the context's (else `default`), its session the context's; provenance is `subagent:<id>:step:<step>` and the trace id the context's |
| BrainIntegration.RecordSubagentStep | src/contextworker/subagents/brain_integration.py:49-120 | a step counts as delivered only when a backend call was made |
| BrainIntegration.RecordReturnsLocalId | src/contextworker/subagents/brain_integration.py:84-120 | once the content formats, the caller gets the locally generated id, whether the call succeeds or fails |
| BrainIntegration.RecordOutcome | src/contextworker/subagents/brain_integration.py:69-120 | a recording returns its fresh id iff the content formats, and otherwise raises the serialisation error |
| BrainIntegration.RecordCallsBackend | src/contextworker/subagents/brain_integration.py:84-111 | a backend call is made iff there is a client with a stub and the content formats. The unit then carries that content, the metadata and the sub-agent as user |
| Executor.ValidateSecurityIff | src/contextworker/subagents/executor.py:218-256 | the gate admits a request iff a token, when given, is unexpired and grants `worker:execute`, and a scoped request has a token that can write or runs with security disabled; an unscoped request without a token always passes |
| Executor.PlaceholderOutput | src/contextworker/subagents/executor.py:276-283 | the placeholder answers with exactly a message, the task and the sub-agent id from its context |
| Executor.WrapPlain | src/contextworker/subagents/executor.py:170-177 | a plain run's value becomes a completed text result, kept as is when it is a string or dictionary and rendered with `str` otherwise |
| Executor.EpisodeIdInjective | src/contextworker/subagents/brain_integration.py:69 | distinct recordings get distinct episode ids |
| Executor.RecordAttemptOutcome | src/contextworker/subagents/brain_integration.py:69-120 | the executor's view of a recording returns exactly what `record_subagent_step` returns for the same arguments |
| Executor.RecordSteps | src/contextworker/subagents/executor.py:157-167 | the callback records every step when none raises; otherwise it stops at the first raising step, which uses an id but records nothing; every recording hangs under the start episode |
| Executor.RecordStepsInOrder | src/contextworker/subagents/executor.py:157-167 | the recorded steps are the agent's own steps, in the agent's order, with consecutive episode ids |
| Executor.RunAgent | src/contextworker/subagents/executor.py:86-100 | a failed lookup records nothing and becomes the run's error; all recordings of a run hang under the start episode |
| Executor.CompletedReadsBack | src/contextworker/subagents/executor.py:113-117 | a completed answer has exactly status, result and id, and its `result` reads back as the agent's own result |
| Executor.Failed | src/contextworker/subagents/executor.py:136-140 | a failed answer has exactly status `failed`, the error message and the id |
| Executor.FailWith | src/contextworker/subagents/executor.py:119-140 | the `except` branch records one `error` step under the start episode and answers with the failure |
| Executor.Finish | src/contextworker/subagents/executor.py:102-140 | the `complete` step is recorded iff the run succeeded and its result formats, and the answer is then the completed dictionary; otherwise one `error` step is recorded and the answer is a failure, carrying the run's own error when the run raised |
| Executor.Body | src/contextworker/subagents/executor.py:84-140 | the `try` body never lets an error escape, records only under the start episode, and ends with a `complete` or `error` step |
| Executor.SecurityFirst | src/contextworker/subagents/executor.py:64-66 | a call fails iff a unit is given and the gate refuses it, and a refused call records nothing and creates no environment |
| Executor.StartRecorded | src/contextworker/subagents/executor.py:68-79 | the `start` step always formats, so it is recorded with the first id and no parent |
| Executor.AdmittedOrder | src/contextworker/subagents/executor.py:68-144 | an admitted call records `start`, creates the environment, runs the body, and cleans up that same environment last |
| Executor.SingleCleanup | src/contextworker/subagents/executor.py:142-144 | the environment is cleaned up exactly once, as the very last step |
| Executor.ExecutionOrder | src/contextworker/subagents/executor.py:62-144 | any call the gate admits behaves as the admitted execution |
| Executor.ExecutionOutcome | src/contextworker/subagents/executor.py:84-140 | an admitted call always answers. It completes, with the agent's own result, iff the lookup and run succeed and the result formats; otherwise it fails, with the lookup's error when the lookup failed |
| Executor.UnregisteredTypeFailsAsWritten | src/contextworker/subagents/executor.py:197-216 | as written, every call without a request unit for an unregistered agent type answers failed with the import error |
| Executor.UnregisteredTypeRunsPlaceholder | src/contextworker/subagents/executor.py:197-212 | with the corrected lookup, a call without a request unit for an unregistered agent type completes with the placeholder's answer |
| Executor.SubAgentExecutor.constructor | src/contextworker/subagents/executor.py:20-33 | a new executor has an empty agent table, no recordings and the first episode id next |
| Executor.SubAgentExecutor.RegisterAgentType | src/contextworker/subagents/executor.py:258-266 | the type now maps to the class, replacing any earlier one; nothing else changes |
| Executor.SubAgentExecutor.RecordStep | src/contextworker/subagents/brain_integration.py:49-120 | one recording uses the next id and appends its effect, exactly as `RecordAttempt` describes |
| Executor.SubAgentExecutor.RunRecording | src/contextworker/subagents/executor.py:157-167 | the callback loop has exactly the effects and id use of `RecordSteps` |
| Executor.SubAgentExecutor.RunLookedUp | src/contextworker/subagents/executor.py:146-177 | running the looked-up agent has exactly the outcome and effects of `RunAgent` |
| Executor.SubAgentExecutor.FinishRun | src/contextworker/subagents/executor.py:102-140 | the completion or `except` branch has exactly the answer and effects of `Finish` |
| Executor.SubAgentExecutor.RunBody | src/contextworker/subagents/executor.py:84-140 | the `try` body has exactly the answer and effects of `Body` |
| Executor.SubAgentExecutor.OpenEnvironment | src/contextworker/subagents/executor.py:68-82 | the `start` step is recorded, then the context's isolated environment is created |
| Executor.SubAgentExecutor.RunAdmitted | src/contextworker/subagents/executor.py:68-144 | everything after the gate has exactly the answer and effects of `Admitted` |
| Executor.SubAgentExecutor.ExecuteSubagent | src/contextworker/subagents/executor.py:35-216 | a call has exactly the answer and effects of `ExecSpec` with the lookup as shipped (registry import failing) or as intended, and leaves the agent table unchanged. With no request unit, an unregistered agent type answers failed with the import error as shipped, and completes with the placeholder's answer as intended |
| Executor.ValidateSecurity | src/contextworker/subagents/executor.py:218-256 | `_validate_security`: no refusal, or the first failed test in the source's order: an expired token, a token without `worker:execute`, a token that may not write to a scoped request, a scoped request without a token while security is on |
| Executor.LookupAgentAsWritten | src/contextworker/subagents/executor.py:179-216 | `_get_agent_instance` as shipped: a registered type is constructed from the config, or raises its constructor's error; any other type raises the failed `get_registry` import |
| Executor.LookupAgent | src/contextworker/subagents/executor.py:197-212 | `_get_agent_instance` as intended: an unregistered type falls back to `PlaceholderAgent` with the config and the isolation context |
| Executor.Lookup | src/contextworker/subagents/executor.py:179-216 | the agent lookup of one call: the shipped lookup when the registry import fails, the intended one when it succeeds |
| Executor.EpisodeId | src/contextworker/subagents/brain_integration.py:69 | the episode id of the n-th recording |
| Executor.RecordAttempt | src/contextworker/subagents/brain_integration.py:49-120 | one recording as the executor sees it: the fresh episode id and one recorded step when the content formats, otherwise the serialisation error and nothing recorded |
| Executor.Completed | src/contextworker/subagents/executor.py:113-117 | the completed answer: status `completed`, the result's dictionary form and the sub-agent id |
| Executor.StartResult | src/contextworker/subagents/executor.py:68-79 | the `start` step's result: status `running` and the text `Starting sub-agent <id>` |
| Executor.Admitted | src/contextworker/subagents/executor.py:68-144 | everything after the gate: the `start` recording, the isolated environment, the `try` body, and the cleanup in `finally`, in that order |
| Executor.ExecSpec | src/contextworker/subagents/executor.py:35-144 | `execute_subagent` for a given lookup outcome: a refused request unit escapes as `PermissionError` with no effect; any other call is the admitted execution |
| Monitor.Entry | src/contextworker/subagents/monitor.py:51-57 | a stored entry has exactly the five keys, with the given status, id, error and time; its result is null iff none was given |
| Monitor.Unknown | src/contextworker/subagents/monitor.py:28-34 | the default for an unseen id has exactly status `unknown` and the id |
| Monitor.StatusIn | src/contextworker/subagents/monitor.py:28-34 | an id's status entry is the stored one, or the `unknown` default when none is stored |
| Monitor.ApplyAllKeeps | src/contextworker/subagents/monitor.py:51-57 | writes for other ids neither add, remove nor change an id's entry |
| Monitor.ApplyKeeps | src/contextworker/subagents/monitor.py:51-57 | one write for another id leaves an id's entry as it was |
| Monitor.ApplyAllUntouched | src/contextworker/subagents/monitor.py:28-57 | after writes for other ids, an id reads the same status as before |
| Monitor.StatusOf | src/contextworker/subagents/monitor.py:76-77 | an id with no entry reads as `unknown` |
| Monitor.BudgetDecreases | src/contextworker/subagents/monitor.py:75-99 | each poll that continues uses up time, so the loop ends |
| Monitor.WatchOutcome | src/contextworker/subagents/monitor.py:73-107 | every run ends in a completed, failed or timeout report naming the sub-agent. A completed report carries the stored result and a failed one the stored error; a timeout is also written to the store with its message |
| Monitor.SettledAtOnce | src/contextworker/subagents/monitor.py:75-91 | a sub-agent already completed or failed is reported at the first poll, and the store is untouched |
| Monitor.UnsettledTimesOut | src/contextworker/subagents/monitor.py:75-107 | an entry that is not settled and that no one writes again ends in a timeout report |
| Monitor.CancelledRunTimesOut | src/contextworker/subagents/monitor.py:109-116 | cancelling does not end monitoring: a cancelled sub-agent nobody writes again is reported as timed out |
| Monitor.SubAgentMonitor.constructor | src/contextworker/subagents/monitor.py:16-17 | a new monitor has an empty store |
| Monitor.SubAgentMonitor.GetStatus | src/contextworker/subagents/monitor.py:19-34 | the stored entry for the id, or the `unknown` default |
| Monitor.SubAgentMonitor.SetStatus | src/contextworker/subagents/monitor.py:36-57 | the id's entry is replaced by the new one; every other entry is unchanged |
| Monitor.SubAgentMonitor.CancelSubagent | src/contextworker/subagents/monitor.py:109-116 | the id's entry becomes `cancelled` with the cancellation message |
| Monitor.SubAgentMonitor.Interleave | src/contextworker/subagents/monitor.py:36-57 | the writes made by other tasks during a sleep are applied in order |
| Monitor.SubAgentMonitor.MonitorSubagent | src/contextworker/subagents/monitor.py:59-107 | the polling loop returns exactly the report of `Watch` and leaves the store `Watch` describes |
| Monitor.Apply | src/contextworker/subagents/monitor.py:51-57 | the store after one `set_status` call: that id's entry replaced, every other kept |
| Monitor.CompletedReport | src/contextworker/subagents/monitor.py:80-84 | the completed report: status, the stored result and the id |
| Monitor.FailedReport | src/contextworker/subagents/monitor.py:86-91 | the failed report: status, the stored error and the id |
| Monitor.TimeoutReport | src/contextworker/subagents/monitor.py:102-107 | the timeout report: status, the timeout message and the id |
| Monitor.Watch | src/contextworker/subagents/monitor.py:73-107 | `monitor_subagent` from one loop test on: while time remains, a completed or failed entry ends the run with its report, and any other status sleeps while other writes land; when time is up the timeout is stored and reported |
| LocalCompute.AnyStartsWith | src/contextworker/subagents/local_compute.py:49 | true iff some listed model name starts with the prefix |
| LocalCompute.ProbeResults | src/contextworker/subagents/local_compute.py:24-28 | the check reports exactly the three known models: the Ollama model iff a listed tag starts with `llama3.2`, vLLM iff its health probe answered 200, RLM iff the package is installed |
| LocalCompute.Available | src/contextworker/subagents/local_compute.py:95 | a model is available iff it is listed and flagged true; an unlisted key counts as unavailable |
| LocalCompute.GetModelSpec | src/contextworker/subagents/local_compute.py:92-126 | the call fails iff the model is unavailable, or is not cached and its creation raises; a failure caches nothing. An unavailable model gets the not-available error, and a failed creation's error escapes unchanged. Otherwise the model is served from the cache when present, else a client for that key and config is created and cached, with the local environment iff it is the RLM key. The unknown-key error is never reached |
| LocalCompute.KeyPrefixes | src/contextworker/subagents/local_compute.py:24-28 | the Ollama and vLLM keys take the first creation branch and the RLM key the second |
| LocalCompute.GetModelCached | src/contextworker/subagents/local_compute.py:98-100 | after a successful first request, a second one for the same key returns the very client the first returned, whatever its config and whether or not a creation would raise; after a failed first request, the second behaves as if the first had not been made |
| LocalCompute.LocalComputeManager.constructor | src/contextworker/subagents/local_compute.py:14-17 | a new manager has no availability, no clients and has not checked |
| LocalCompute.LocalComputeManager.CheckLocalModels | src/contextworker/subagents/local_compute.py:19-35 | the first call probes and merges the three results; later calls return the stored map without probing |
| LocalCompute.LocalComputeManager.IsLocalModelAvailable | src/contextworker/subagents/local_compute.py:128-130 | true iff the key is listed and flagged available |
| LocalCompute.LocalComputeManager.GetLocalModel | src/contextworker/subagents/local_compute.py:75-126 | the availability check runs first, then the answer and the new cache are those of `GetModel`. A failure leaves the cache unchanged, and it is either the not-available error, for a model that is not available, or the creation's own error, for an available model that was not cached |
| LocalCompute.OllamaHas | src/contextworker/subagents/local_compute.py:38-53 | `_check_ollama`: the tag list answered and some listed name starts with the model name |
| LocalCompute.GetModel | src/contextworker/subagents/local_compute.py:92-126 | `get_local_model` after the availability check: refusal, the cached client, a client created and cached, the creation's escaping error with nothing cached, or the unknown-key error |
| Schedules.DefaultCronsHaveFiveFields | src/contextworker/schedules.py:45-64 | each default schedule's cron expression splits into exactly five fields |
| Schedules.WorkflowArgsShape | src/contextworker/schedules.py:97-106 | the gardener gets the tenant, a batch size of 50 and at most 10 batches; the harvest gets `all` then the tenant, or its configured arguments with the tenant appended; a known workflow always receives the tenant |
| Schedules.ScheduleIdInjective | src/contextworker/schedules.py:108 | for one tenant the schedule id determines the configuration's id, and for one configuration it determines the tenant |
| Schedules.CreationRequest | src/contextworker/schedules.py:84-124 | a request is made only when both workflow modules import and the workflow is known, and it starts that workflow |
| Schedules.CreateScheduleSpec | src/contextworker/schedules.py:74-131 | a failed import of the harvest module, or else of the gardener module, raises that error before anything else, and no request is made. With both imported, an unknown workflow is refused before the engine is called. Otherwise one schedule is requested, under the tenant-suffixed id, starting the tenant-suffixed workflow on the configured queue with the one cron expression. The id is returned unless the engine raised something other than "already exists", which propagates unchanged |
| Schedules.AlreadyExistsIsIdempotent | src/contextworker/schedules.py:127-130 | re-creating an existing schedule returns the same id and makes the same request as a creation the engine accepted |
| Schedules.AlreadyExistsIgnoresCase | src/contextworker/schedules.py:128 | the "already exists" test ignores case |
| Schedules.LowerContains | src/contextworker/schedules.py:128 | lower-casing keeps every occurrence of a substring, lower-cased |
| Schedules.CreatedIdsStep | src/contextworker/schedules.py:151-156 | one more configuration adds its id exactly when its creation returned one |
| Schedules.Requests | src/contextworker/schedules.py:150-158 | the engine receives at most one request per configuration |
| Schedules.RequestsStep | src/contextworker/schedules.py:151-156 | one more configuration adds `create_schedule`'s request for it, exactly when that call makes one: both workflow modules import and its workflow is known |
| Schedules.RequestsKnown | src/contextworker/schedules.py:93-95 | every request the loop sends starts a known workflow |
| Schedules.RequestsComplete | src/contextworker/schedules.py:150-158 | when both workflow modules import and every configured workflow is known, each configuration sends exactly one request |
| Schedules.CreatedIdsSpec | src/contextworker/schedules.py:150-158 | at most one id per configuration, and each is the tenant-suffixed id of one of them |
| Schedules.DefaultSchedulesCreated | src/contextworker/schedules.py:134-158 | when the engine accepts every default, or says each exists, both default schedules are reported, harvest first, if both workflow modules import; if either import fails, none is reported |
| Schedules.DefaultArgs | src/contextworker/schedules.py:45-64 | the default harvest runs with `all` and the tenant; the default gardener with the tenant, 50 and 10 |
| Schedules.CreateAll | src/contextworker/schedules.py:150-158 | the loop returns exactly the ids `CreatedIds` describes and sends exactly the requests `Requests` describes: the request `create_schedule` makes for each configuration, in order, none when a workflow module fails to import |
| Schedules.CreateDefaultSchedules | src/contextworker/schedules.py:134-158 | the ids and requests of `CreateAll`, for the tenant given, else `TENANT_ID`, else `default` |
| Schedules.HandleOperation | src/contextworker/schedules.py:176-222 | deleting, pausing or unpausing reports success iff the engine raised nothing |
| Schedules.WorkflowArgs | src/contextworker/schedules.py:97-106 | the arguments the scheduled workflow receives: the gardener's tenant, 50 and 10; the harvest's `all` then the tenant, or its arguments with the tenant appended |
| Schedules.ScheduleId | src/contextworker/schedules.py:108 | the schedule id, `<schedule_id>-<tenant>` |
| Schedules.ScheduledWorkflowId | src/contextworker/schedules.py:117 | the id of each workflow the schedule starts: the lower-cased workflow name, `-scheduled-`, the tenant |
| Schedules.ImportFailure | src/contextworker/schedules.py:84-85 | the error the two workflow imports let escape: the harvest module's when it fails, otherwise the gardener module's |
| Schedules.CreationResult | src/contextworker/schedules.py:74-131 | what `create_schedule` returns or raises: an import error, the unknown-workflow `ValueError`, the schedule id, or the engine's error unless it says "already exists" |
| Schedules.CreateSchedule | src/contextworker/schedules.py:74-131 | one `create_schedule` call: its outcome together with the request it makes of the engine |
| Schedules.CreatedIds | src/contextworker/schedules.py:150-158 | the ids `create_default_schedules` collects: one for each creation that returns, in order; a creation that raises is skipped |
| Schedules.ImportFailureStopsAll | src/contextworker/schedules.py:84-158 | when a workflow module fails to import, every creation raises, so no request reaches the engine and no id is reported |
| Schedules.DefaultTenant | src/contextworker/schedules.py:146-147 | the tenant given, else `TENANT_ID`, else `default` |
| Retention.LexTotal | src/contextworker/jobs/retention.py:209-210 | any two strings are ordered one way or the other, as Python compares them |
| Retention.LexTrans | src/contextworker/jobs/retention.py:209-210 | the string order is transitive |
| Retention.MinOf | src/contextworker/jobs/retention.py:209 | `min` returns one of the dates, and no date is smaller |
| Retention.MaxOf | src/contextworker/jobs/retention.py:210 | `max` returns one of the dates, and no date is larger |
| Retention.Dates | src/contextworker/jobs/retention.py:207 | the dates collected are exactly the non-empty `created_at` values |
| Retention.FactsOf | src/contextworker/jobs/retention.py:201-218 | the facts hold the interaction count always, the first and last dates iff a range exists, and the session count iff one exists |
| Retention.ExtractFactsTotal | src/contextworker/jobs/retention.py:204 | the interaction count is always present, all digits, and reads back as the number of episodes |
| Retention.ExtractFactsDates | src/contextworker/jobs/retention.py:207-210 | the first and last dates are present iff some episode has a non-empty date; they are then such dates, the earliest and the latest |
| Retention.ExtractFactsSessions | src/contextworker/jobs/retention.py:213-216 | the session count is present iff some episode has a session id, and it is the number of distinct ones |
| Retention.ExtractFactsEmpty | src/contextworker/jobs/retention.py:201-218 | no episodes yields only the interaction count `0` |
| Retention.ExtractFactsBare | src/contextworker/jobs/retention.py:207-216 | episodes without dates or sessions yield only the interaction count |
| Retention.Present | src/contextworker/jobs/retention.py:178 | every fact listed is held, with its value |
| Retention.OrderedFacts | src/contextworker/jobs/retention.py:178 | the facts walked are facts of the dictionary, with their values |
| Retention.PresentCount | src/contextworker/jobs/retention.py:178 | over distinct keys, the facts listed are exactly the keys both named and held |
| Retention.FactsOfCount | src/contextworker/jobs/retention.py:178-188 | the fact loop visits every extracted fact exactly once |
| Retention.OrderedCount | src/contextworker/jobs/retention.py:178 | any dictionary over the four fact keys is walked whole |
| Retention.FactOrderKeys | src/contextworker/jobs/retention.py:201-218 | the walk order lists the four fact keys, each once |
| Retention.OrderedFactsCount | src/contextworker/jobs/retention.py:165-188 | every fact a user's episodes yield is walked once |
| Retention.OfUser | src/contextworker/jobs/retention.py:159-162 | a user's episodes are exactly the episodes grouped under that user |
| Retention.GroupStep | src/contextworker/jobs/retention.py:160-162 | the next episode joins its user's group, or opens a new one at the end of the user order |
| Retention.GroupKeys | src/contextworker/jobs/retention.py:159-162 | there is a group for every user with an episode and for no other, and the user order lists exactly the groups |
| Retention.GroupContents | src/contextworker/jobs/retention.py:159-162 | each group is exactly its user's episodes, in order, with a missing user id grouped as `unknown` |
| Retention.GroupDistinct | src/contextworker/jobs/retention.py:159-165 | each user is walked once |
| Retention.Tag | src/contextworker/jobs/retention.py:178-187 | one upsert per fact |
| Retention.Accepted | src/contextworker/jobs/retention.py:188-190 | the accepted count never exceeds the attempts |
| Retention.DryRunPredictsPlan | src/contextworker/jobs/retention.py:165-176 | the dry-run total equals the number of upserts a real run plans |
| Retention.AcceptedAll | src/contextworker/jobs/retention.py:179-190 | if every upsert succeeds all are counted, and any failure lowers the count |
| Retention.PlanStep | src/contextworker/jobs/retention.py:165-190 | one more user adds exactly that user's upserts and fact count |
| Retention.AcceptedStep | src/contextworker/jobs/retention.py:179-190 | one more upsert adds one to the count iff it succeeds |
| Retention.UpsertUserFacts | src/contextworker/jobs/retention.py:178-190 | the fact loop attempts every fact in order and counts exactly those accepted; a failure does not stop the rest |
| Retention.DistillUser | src/contextworker/jobs/retention.py:166-190 | a dry run adds the user's fact count and upserts nothing; a real run upserts all the user's facts and counts the accepted ones |
| Retention.GroupEpisodes | src/contextworker/jobs/retention.py:159-162 | the grouping loop builds exactly `Group` |
| Retention.DistillEpisodes | src/contextworker/jobs/retention.py:142-192 | the distillation loops compute exactly `Distill` |
| Retention.DryRunPredictsRealRun | src/contextworker/jobs/retention.py:142-192 | a dry run upserts nothing and reports as many facts as a real run attempts; a real run reports no more, and as many when all succeed |
| Retention.ProcessedIds | src/contextworker/jobs/retention.py:96 | the processed ids are empty iff no distilled episode has a non-empty id |
| Retention.UpsertCalls | src/contextworker/jobs/retention.py:180-187 | one upsert call per planned upsert |
| Retention.Report | src/contextworker/jobs/retention.py:122-131 | a completed run reports exactly the eight keys |
| Retention.ZeroShortCircuits | src/contextworker/jobs/retention.py:59-76 | with no episodes the job only reads the statistics and reports zero deletions and facts |
| Retention.DryRunMutatesNothing | src/contextworker/jobs/retention.py:82-118 | a dry run makes only reading calls, deletes nothing and reports the dry-run fact count |
| Retention.DryRetain | src/contextworker/jobs/retention.py:82-118 | a dry run with no upserts planned makes only reading calls and deletes nothing |
| Retention.CleanupChoice | src/contextworker/jobs/retention.py:103-118 | a real run cleans up once, as its last call. It deletes by id iff distillation ran on episodes some of which have an id, and then exactly those ids; otherwise it deletes by age |
| Retention.DistillPhase | src/contextworker/jobs/retention.py:79-101 | the distillation phase computes exactly `DistillStep` of the distilled old episodes |
| Retention.RunRetentionJob | src/contextworker/jobs/retention.py:29-139 | the job's result and calls are exactly `RunRetention` |
| Retention.ExtractFacts | src/contextworker/jobs/retention.py:195-218 | `_extract_facts_simple`: the interaction count always, the date range when some episode has a date, the session count when some has a session |
| Retention.UserKey | src/contextworker/jobs/retention.py:161 | the group an episode falls in: its user id, or `unknown` |
| Retention.Group | src/contextworker/jobs/retention.py:159-162 | the `by_user` dictionary: users in order of first appearance, each with their episodes in order |
| Retention.Plan | src/contextworker/jobs/retention.py:165-190 | every upsert a real distillation attempts, user by user and fact by fact |
| Retention.Distill | src/contextworker/jobs/retention.py:142-192 | `_distill_episodes`: a dry run counts the facts and upserts nothing; a real run attempts every planned upsert and counts those that succeed |
| Retention.ShortCircuit | src/contextworker/jobs/retention.py:68-76 | the report for a tenant with no episodes: zero counts and the dry-run flag |
| Retention.DistillStep | src/contextworker/jobs/retention.py:79-101 | the distillation phase: nothing when distillation is off; otherwise the fetch of old episodes, then their upserts and processed ids |
| Retention.CleanupStep | src/contextworker/jobs/retention.py:103-118 | the cleanup: none in a dry run; otherwise one deletion, by the processed ids when there are any and by age otherwise |
| Retention.Retain | src/contextworker/jobs/retention.py:59-139 | the job for a given distillation outcome: the statistics read, the early return when there are no episodes, then distillation, cleanup and the report |
| Retention.RunRetention | src/contextworker/jobs/retention.py:29-139 | `run_retention`: `Retain` with the distillation of the old episodes |
| Harvester.PutSpec | src/contextworker/harvester/registry.py:57 | storing a class makes the key map to it and leaves every other entry as it was. A new key goes to the end of the listing order; a known key keeps its place |
| Harvester.PutAllWellFormed | src/contextworker/harvester/registry.py:146-181 | any series of registrations keeps the listing and the entries in agreement |
| Harvester.PutAllSpec | src/contextworker/harvester/registry.py:146-181 | after a series of registrations every registered key is present and no entry is lost; a key never registered keeps its old entry |
| Harvester.Capitalize | src/contextworker/harvester/registry.py:194 | `capitalize` keeps the length, leaves no lower-case first letter and no upper-case letter after it |
| Harvester.CapitalizeLower | src/contextworker/harvester/registry.py:194 | capitalising changes only case |
| Harvester.CodeToClassnameSpec | src/contextworker/harvester/registry.py:187-194 | the class name ends with the suffix, and apart from case its stem is the code's parts run together without underscores |
| Harvester.SplitTwo | src/contextworker/harvester/registry.py:193 | a code with one underscore splits into the two parts around it |
| Harvester.TwoPartClassname | src/contextworker/harvester/registry.py:187-194 | a two-part code names the class made of both parts, capitalised, then the suffix |
| Harvester.NovaPoshtaFetcher | src/contextworker/harvester/registry.py:189-192 | the code `nova_poshta` names `NovaPoshtaFetcher` |
| Harvester.FirstSuffixed | src/contextworker/harvester/registry.py:172-181 | the fallback finds a class iff the module has a public class whose name ends with the suffix, and then it is one of the module's attributes |
| Harvester.Attribute | src/contextworker/harvester/registry.py:165-166 | the expected class is found iff the module has an attribute of that name, and it is that attribute's value |
| Harvester.FoundSpec | src/contextworker/harvester/registry.py:134-185 | at most one registration per file, each under a file's lower-cased stem with the class that file yields |
| Harvester.PrivateFilesSkipped | src/contextworker/harvester/registry.py:147-148 | a file whose name starts with `_` registers nothing |
| Harvester.ExpectedClassWins | src/contextworker/harvester/registry.py:165-168 | a loaded module that defines the expected class registers exactly that class, under the lower-cased stem |
| Harvester.AlreadyDiscovered | src/contextworker/harvester/registry.py:106-108 | a path already discovered returns 0 and changes nothing |
| Harvester.MissingDirNotRecorded | src/contextworker/harvester/registry.py:110-112 | a missing directory returns 0 and is not recorded, so a later call tries it again |
| Harvester.DiscoverSpec | src/contextworker/harvester/registry.py:103-132 | discovery records the path and returns the number of classes registered. Fetchers land among the fetchers and transformers among the transformers. A second discovery of the same path does nothing |
| Harvester.HarvesterRegistry.constructor | src/contextworker/harvester/registry.py:38-41 | a new registry has no fetchers, no transformers and no discovered paths |
| Harvester.HarvesterRegistry.RegisterFetcher | src/contextworker/harvester/registry.py:47-61 | the class is stored under the lower-cased code and returned unchanged; the transformers and paths are untouched |
| Harvester.HarvesterRegistry.RegisterTransformer | src/contextworker/harvester/registry.py:63-77 | the same, for transformers |
| Harvester.HarvesterRegistry.DiscoverFromDir | src/contextworker/harvester/registry.py:134-185 | the loop registers exactly `Found`, in file order, into the chosen table only, and returns their number |
| Harvester.HarvesterRegistry.DiscoverPlugins | src/contextworker/harvester/registry.py:83-132 | the new state and the count are exactly those of `Discover` |
| Harvester.HarvesterRegistry.GetFetcher | src/contextworker/harvester/registry.py:200-214 | a class registered under the lower-cased code wins; otherwise the fallback import of `fetchers.<code>` decides |
| Harvester.HarvesterRegistry.GetTransformer | src/contextworker/harvester/registry.py:216-223 | the same, for transformers |
| Harvester.HarvesterRegistry.ListFetchers | src/contextworker/harvester/registry.py:242-244 | exactly the registered fetcher codes, each once |
| Harvester.HarvesterRegistry.ListTransformers | src/contextworker/harvester/registry.py:246-248 | exactly the registered transformer codes, each once |
| Harvester.RegisteredLookupIgnoresCase | src/contextworker/harvester/registry.py:207-211 | since registration stores the lower-cased code, a class registered under a code is found under the same code in any case |
| Harvester.LaterRegistrationOverwrites | src/contextworker/harvester/registry.py:57 | a later registration under the same code, in any case, replaces the class without moving the code in the listing |
| Harvester.Put | src/contextworker/harvester/registry.py:57 | `d[key] = cls` on an insertion-ordered dictionary: a new key goes last, an existing key keeps its place and takes the class |
| Harvester.PutAll | src/contextworker/harvester/registry.py:146-181 | several registrations, in order |
| Harvester.CodeToClassname | src/contextworker/harvester/registry.py:187-194 | `_code_to_classname`: the code's underscore-separated parts, each capitalised, joined, then the suffix |
| Harvester.FileClass | src/contextworker/harvester/registry.py:146-181 | the class one plugin file contributes: none for a private file or one that fails to load; the attribute named after the code when present; else the first public class with the suffix |
| Harvester.Found | src/contextworker/harvester/registry.py:134-185 | the registrations `_discover_from_dir` makes, in file order, each under the lower-cased stem |
| Harvester.Discover | src/contextworker/harvester/registry.py:83-132 | `discover_plugins`: a known or missing directory changes nothing and counts 0; otherwise the path is recorded and the fetchers and transformers found are registered and counted |
| Orchestrator.TitleFrom | src/contextworker/harvester/orchestrator.py:144 | title-casing keeps the length |
| Orchestrator.LowerTitleFrom | src/contextworker/harvester/orchestrator.py:144 | title-casing changes only the case of letters |
| Orchestrator.Remove | src/contextworker/harvester/orchestrator.py:144 | removing a character leaves none of it and never lengthens the text |
| Orchestrator.LowerRemove | src/contextworker/harvester/orchestrator.py:144-146 | removing underscores and lower-casing commute |
| Orchestrator.ClassNameMatches | src/contextworker/harvester/orchestrator.py:144-146 | since names are compared lower-cased, a class matches iff its lower-cased name is the lower-cased code without underscores followed by the suffix |
| Orchestrator.FirstMatch | src/contextworker/harvester/orchestrator.py:145-146 | the scan finds a name iff some exported name equals the target ignoring case, and then the first such name |
| Orchestrator.FindPluginSpec | src/contextworker/harvester/orchestrator.py:138-172 | a package that cannot be imported, or exports no matching name, yields no plugin; a plugin found is an exported class whose name matches the code |
| Orchestrator.SaveDefaults | src/contextworker/harvester/orchestrator.py:174-200 | saving fails iff the data has no `sku` or there is no supplier configuration. Otherwise the `sku` is taken out of the data; absent quantity, currency and name default to 0, `UAH` and the empty string; the status is always `raw` |
| Orchestrator.ItemError | src/contextworker/harvester/orchestrator.py:119-125 | every item failure, whether in the transform, the save preparation or the upsert, is a `Transform error` entry |
| Orchestrator.ItemsBalance | src/contextworker/harvester/orchestrator.py:118-128 | every item is either saved or leaves exactly one `Transform error` entry |
| Orchestrator.SingleOutcomes | src/contextworker/harvester/orchestrator.py:87-136 | a missing fetcher leaves one error, no counts and no `finished_at`. An unfinished run has one error and nothing transformed. An exception after the fetch leaves one `Harvest error`. A fully transformed run accounts for every item |
| Orchestrator.CompleteRunBalances | src/contextworker/harvester/orchestrator.py:98-136 | with both classes found and the items fetched, everything is transformed, and successes plus error entries equal the fetched count |
| Orchestrator.ResultsSpec | src/contextworker/harvester/orchestrator.py:78-82 | the results are keyed by exactly the supplier codes, each holding that supplier's own run with its configuration |
| Orchestrator.AllCountsSuppliers | src/contextworker/harvester/orchestrator.py:69-85 | `total_suppliers` counts the configured suppliers, and since their codes are dictionary keys, there is exactly one result per supplier |
| Orchestrator.Harvest | src/contextworker/harvester/orchestrator.py:51-67 | the code `all` runs every supplier; any other code runs that supplier alone |
| Orchestrator.HarvestOrchestrator.constructor | src/contextworker/harvester/orchestrator.py:30-41 | a new orchestrator holds its code, endpoint and tenant, and no configuration yet |
| Orchestrator.HarvestOrchestrator.TransformItems | src/contextworker/harvester/orchestrator.py:118-128 | the loop counts exactly the saved items and collects exactly the error entries, in item order |
| Orchestrator.HarvestOrchestrator.RunSingle | src/contextworker/harvester/orchestrator.py:87-136 | a single run's result is exactly `HarvestSingle` for the current supplier |
| Orchestrator.HarvestOrchestrator.TransformPhase | src/contextworker/harvester/orchestrator.py:107-128 | after the fetch, the result is exactly `AfterFetch` for the transformer lookup |
| Orchestrator.HarvestOrchestrator.RunAll | src/contextworker/harvester/orchestrator.py:69-85 | the result is exactly `HarvestAll`; the last supplier and its configuration stay current |
| Orchestrator.HarvestOrchestrator.Run | src/contextworker/harvester/orchestrator.py:51-67 | the result is exactly `Harvest` for the code the orchestrator was created with |
| Orchestrator.RunHarvest | src/contextworker/harvester/orchestrator.py:209-222 | a fresh orchestrator for the code gives exactly `Harvest`, a run over all suppliers iff the code is `all` |
| Orchestrator.RunAllHarvests | src/contextworker/harvester/orchestrator.py:225-235 | the per-supplier results of a run over all suppliers, keyed by exactly the supplier codes |
| Orchestrator.Title | src/contextworker/harvester/orchestrator.py:144 | ASCII `title()`: a letter is upper-cased after a non-letter and lower-cased after a letter |
| Orchestrator.ClassName | src/contextworker/harvester/orchestrator.py:144 | the class name looked for: the title-cased code without underscores, then `Fetcher` or `Transformer` |
| Orchestrator.FindPlugin | src/contextworker/harvester/orchestrator.py:138-172 | `_get_fetcher`/`_get_transformer`: missing when the package does not import or exports no matching name; otherwise the first match is instantiated, is missing on an `ImportError`, or raises |
| Orchestrator.SaveRequest | src/contextworker/harvester/orchestrator.py:174-200 | `_save_product_via_brain` up to the Brain call: `sku` is popped (a `KeyError` when absent), the dealer name comes from the configuration (an `AttributeError` when there is none), other fields take their defaults |
| Orchestrator.ItemErrors | src/contextworker/harvester/orchestrator.py:118-128 | the `Transform error` entries of the item loop, in item order |
| Orchestrator.SavedCount | src/contextworker/harvester/orchestrator.py:118-128 | the number of items transformed and saved |
| Orchestrator.AfterFetch | src/contextworker/harvester/orchestrator.py:107-136 | `_run_single` after a successful fetch, for the transformer lookup's outcome |
| Orchestrator.HarvestSingle | src/contextworker/harvester/orchestrator.py:87-136 | `_run_single`: early returns for a missing fetcher or transformer, one `Harvest error` entry for a raising lookup or fetch, otherwise the transform loop |
| Orchestrator.Results | src/contextworker/harvester/orchestrator.py:78-82 | the `suppliers` dictionary after running the codes in order |
| Orchestrator.HarvestAll | src/contextworker/harvester/orchestrator.py:69-85 | `_run_all` without timestamps: the supplier count and one result per code |
| Agents.Registered | src/contextworker/registry.py:19-22 | a new name goes last in key order; an existing name keeps its place and gets the new class |
| Agents.RegisterSpec | src/contextworker/registry.py:16-24 | registering stores the class under the name, overwrites any earlier class, leaves every other name unchanged, and keeps the keys unique and in step with the dictionary |
| Agents.NamesRepr | src/contextworker/registry.py:30 | the list of names is rendered between brackets |
| Agents.Quoted | src/contextworker/registry.py:30 | each name in the list is rendered between single quotes, one per name |
| Agents.UnknownAgent | src/contextworker/registry.py:30 | the error message starts with `Unknown agent: ` and the name |
| Agents.GetAgent | src/contextworker/registry.py:27-31 | the lookup succeeds iff the name is registered, returning its class; otherwise it gives the `Unknown agent` error |
| Agents.ListAgents | src/contextworker/registry.py:34-36 | the list holds exactly the registered names, each once |
| Agents.LastFor | src/contextworker/registry.py:19-22 | a name has a last registration iff some registration used that name |
| Agents.RegisterAllWellFormed | src/contextworker/registry.py:16-24 | any sequence of registrations keeps the registry well formed |
| Agents.RegisterAllLookup | src/contextworker/registry.py:19-22 | after several registrations, a name maps to the class registered last under it; a name never registered is as before |
| Agents.GetAfterRegistrations | src/contextworker/registry.py:27-31 | after several registrations, `get_agent` returns the class registered last under the name |
| Agents.RegisteredIsFoundAndListed | src/contextworker/registry.py:16-36 | a registered agent is found by `get_agent` and listed by `list_agents` |
| Agents.AgentTable.constructor | src/contextworker/registry.py:13 | the registry starts empty |
| Agents.AgentTable.Register | src/contextworker/registry.py:19-22 | the decorator returns the class unchanged and updates the table as `Registered` does, so `get_agent` then finds the class |
| Agents.StartEscapes | src/contextworker/registry.py:62-72 | nothing escapes `start` iff `run` returned or raised `KeyboardInterrupt`; otherwise the exception `run` raised escapes |
| Agents.BaseAgent.constructor | src/contextworker/registry.py:48-52 | the name is `base`, the configuration is the one given or empty for `None`, and the agent is not running |
| Agents.BaseAgent.Stop | src/contextworker/registry.py:74-76 | the running flag is lowered and the configuration is unchanged |
| Agents.BaseAgent.Run | src/contextworker/registry.py:78-80 | the base class's `run` raises `NotImplementedError` |
| Agents.BaseAgent.Start | src/contextworker/registry.py:54-72 | the flag is up while `run` runs; a `KeyboardInterrupt` is swallowed and any other exception escapes; the flag is down on every exit |
| Agents.StartBaseAgent | src/contextworker/registry.py:54-80 | starting the base agent itself lets `NotImplementedError` escape |
| Agents.RegisterAll | src/contextworker/registry.py:19-22 | the table after several decorated classes register, in import order |
| Service.TenantOf | src/contextworker/service.py:40 | the tenant is the payload's `tenant_id` when present and `default` otherwise |
| Service.RouteTable | src/contextworker/service.py:39-85 | a workflow starts iff the type is `harvest`, `gardener` or `sync` and that workflow's module imports; each type goes to its own task queue and receives the tenant among its arguments |
| Service.WorkflowImportEscapes | src/contextworker/service.py:43-63 | the exception escapes the handler iff the type is `harvest` or `gardener` and that module fails to import, and then it is that module's `ImportError`: nothing starts and no status is set |
| Service.HarvestRoute | src/contextworker/service.py:43-52 | with the harvest module importing, `harvest` passes the supplier code and the tenant, and its ID names both; a missing supplier code is passed as null and its ID begins `harvest-None-` |
| Service.GardenerRoute | src/contextworker/service.py:54-63 | with the gardener module importing, `gardener` starts `GardenerWorkflow` with an ID naming only the tenant; the batch size defaults to 50 |
| Service.SyncRoute | src/contextworker/service.py:65-80 | without the sync module the call ends UNAVAILABLE with `Sync module not installed`; with it, the defaults give channel `horoshop`, tenant `default` and ID `sync-horoshop-default` |
| Service.UnknownTypeRejected | src/contextworker/service.py:82-85 | any other type ends INVALID_ARGUMENT with `Unknown workflow type: `; a missing type reads `None` |
| Service.Answer | src/contextworker/service.py:43-89 | an escaping import error is passed on. A status answers with the request unchanged and sets that status. A start answers with the payload plus exactly `workflow_id` and `run_id`, keeping every other entry |
| Service.CallContext.constructor | src/contextworker/service.py:33 | a call starts with no status code and no details |
| Service.WorkerService.constructor | src/contextworker/service.py:24-26 | a new service holds its engine address and no client |
| Service.WorkerService.GetClient | src/contextworker/service.py:28-31 | the first call connects and keeps the client; later calls return the same client without connecting |
| Service.WorkerService.StartWorkflow | src/contextworker/service.py:33-89 | the client is obtained first, whatever the type. The call then ends exactly as `Answer` says for the route: the answer with the status it sets, or the escaping exception with the call's status untouched |
| Service.WorkerService.GetTaskStatus | src/contextworker/service.py:91-95 | the call ends UNIMPLEMENTED and the request comes back unchanged |
| Service.ConnectsOnce | src/contextworker/service.py:28-31 | two calls on a fresh service connect once and get the same client |
| Service.WorkflowType | src/contextworker/service.py:39 | `payload.get("workflow_type")`, null when absent |
| Service.Route | src/contextworker/service.py:39-85 | the workflow a payload starts, the status the call ends with, or the import error that escapes |
| Activities.LastSegment | src/contextworker/activities_advanced.py:32 | the last segment holds no `/`, and is the whole URL when the URL has none |
| Activities.JoinLast | src/contextworker/activities_advanced.py:32 | joining puts the last part after the last separator |
| Activities.SegmentAfterSeparator | src/contextworker/activities_advanced.py:32 | a text that follows a separator ends the whole text, with the separator just before it |
| Activities.LastOfJoin | src/contextworker/activities_advanced.py:32 | the last joined part ends the string, either as the whole string or just after a separator |
| Activities.LastSegmentSpec | src/contextworker/activities_advanced.py:32 | the last segment ends the URL and is either the whole URL or follows a `/` |
| Activities.ProcessedPathSpec | src/contextworker/activities_advanced.py:32 | a processed path is `processed/` followed by a name that has no `/` and ends the URL |
| Activities.ProcessProductImages | src/contextworker/activities_advanced.py:19-34 | one processed path per URL, in the same order |
| Activities.ProductName | src/contextworker/activities_advanced.py:47 | the name defaults to `Product`, and a string name is used as it is |
| Activities.GenerateSeoContent | src/contextworker/activities_advanced.py:38-53 | the result holds exactly `meta_title` and `meta_description` |
| Activities.SeoContentSpec | src/contextworker/activities_advanced.py:47-53 | the title is `Buy <name> Online` and the description `Best price for <name> at Traverse.`, with the name recoverable from either; without a name the title is `Buy Product Online` |
| Activities.ProcessedPath | src/contextworker/activities_advanced.py:32 | the path one image URL is processed to: `processed/` and the URL's last segment |

## Left out

- **Workflow engine.** The Temporal client, `Client.connect`, the `Worker` objects and the joint run under `asyncio.gather` are not modelled. The worker bootstrap records them as effects, so the concurrency of the workers is not modelled. `get_temporal_client`, `list_schedules` and the schedule handles' own behaviour are outside the model; the engine's answers are parameters.
- **Memory backend.** The Brain client calls (`AddEpisode`, statistics, episode queries, fact upserts, cleanup) and their protobuf conversion are not modelled. The backend's answers are parameters, and the model returns the calls it makes as data.
- **Capability token and context unit.** `ContextToken` is a record of its expiry, its permissions and whether it may write to the request's scopes. `ContextUnit` is its payload dictionary, and `Modality` is its string value.
- Executor.ValidateSecurity: the refusal messages leave out the token-permission and write-scope details that the source appends after the fixed text.
- **Clocks and identifiers.** `uuid4` ids come from a counter or are parameters. Monitor time is integer clock readings, not float seconds, and `asyncio.sleep` is the store updates made while the monitor sleeps. Retention timestamps and `datetime` arithmetic are strings given to the model. Of the harvester's timestamps, only the presence of `finished_at` is modelled.
- **Floating point.** The `confidence=0.8` that retention attaches to each fact is not modelled.
- **Rendering.** `str()` of structured values and `json.dumps` are an abstract `Render` parameter, which may fail as `json.dumps` does. Strings and `None` are rendered exactly.
- Isolation.FromDict: a value the typed context cannot hold (a null or non-string id, a non-string tenant or session) is reported with its key; the source stores whatever the dictionary holds, since the dataclass does not check types.
- Executor.UnregisteredTypeFailsAsWritten: the import error's message leaves out the ` (<path of the module file>)` that Python appends to this `ImportError`.
- CoreRegistry.WorkerRegistry.DiscoverPlugins: a `register_all` that raises an exception other than `ImportError` lets it escape `discover_plugins` and `run_workers`; the model's packages raise only `ImportError`.
- Agents.NamesRepr: names are quoted without Python's escaping of quotes and backslashes inside a name.
- **Case conversion.** `lower`, `title` and `capitalize` are modelled for ASCII letters only. Python's Unicode case mapping is not modelled.
- **Dynamic imports and the filesystem.** Imports, `sys.modules` entries and directory globbing are parameters. The two workflow imports of `create_schedule` are given by the error each raises, if it does.
  - A plugin directory is its list of files, in the order the glob returns them, with what loading each one yields. Resolution of relative paths is not modelled.
  - The worker registry probes the two known packages. Each is given by whether it imports, whether it exposes `register_all`, the registrations that `register_all` makes, and how many of them complete when it raises `ImportError`.
  - The orchestrator's plugin lookup is a map from package to its exported names and classes.
  - `_load_agents`, which imports the three agent modules for their registrations, is not modelled.
- **Agent runs.** A subclass's `run` is given by its outcome, whether it returns or raises. A synchronous `run` and one run by `asyncio.run` are treated alike.
- **Local compute.** The HTTP probes of Ollama and vLLM and the RLM module lookup are parameters. The router's `create_llm` is represented by the request it receives and by the error it raises, if it does.
- **Sub-agent helpers.** `rlm_tool`, the sync-image pool, the harvester scheduler, and the lexicon and harvester polling agents are not part of this model.
- **Harvester orchestrator.**
  - The Brain client's creation and `close`, the unused settings, and the supplier-configuration loader are not modelled; the configurations are given.
  - Exception messages (`str(e)`) are given strings.
  - A fetcher or transformer counts as missing only when it is absent; Python truthiness of the object is not modelled.
- **Retention.**
  - `user_id` is taken as a string, so a null `user_id` is not distinguished from `"unknown"`.
  - A fact's `source_id` (`retention:` followed by the date of the upsert) and its `confidence` are not modelled; an upsert carries the tenant, the user, the key and the value.
  - Log output is not modelled.
- **Retention schedule.** The retention tests expect a default retention schedule (tests/test_retention.py:59-68) that `DEFAULT_SCHEDULES` does not contain (src/contextworker/schedules.py:45-64). The model follows the code: there is no retention schedule.
- **Configuration and entry points.** `get_config` is imported by src/contextworker/core/worker.py:25 but not defined by src/contextworker/config.py. The host, port and switches are therefore parameters. Configuration loading, the command-line entry points, `workflow_class` and the `__init__` re-exports are not part of this model.
- **gRPC service.**
  - The server bootstrap (`serve`, the gRPC server, TLS, interceptors) is not modelled.
  - Protobuf conversion of the request and the answer is not modelled.
  - An exception raised by `start_workflow` itself is not modelled.
  - The engine's run ids are a function of the started workflow.
- **Catalogue activities.** The placeholder image processing and the log lines are not modelled. Only the paths and the texts the activities return are.
- **Logging.** No log line anywhere is modelled.

## Findings

| source | as written | input that shows it | evidently intended | confidence | as-written member | corrected member |
|---|---|---|---|---|---|---|
| src/contextworker/subagents/executor.py:202-216 | the fallback for an agent type missing from the executor's table imports `get_registry` from `contextworker.registry`, which does not define it; the import error is re-raised and reported as a failed execution | any `agent_type` never passed to `register_agent_type`, with no security refusal | an unregistered agent type runs `PlaceholderAgent` and completes with its answer | not executed | Executor.UnregisteredTypeFailsAsWritten | Executor.UnregisteredTypeRunsPlaceholder |
