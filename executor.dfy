/** Running a sub-agent: the security gate, the "start" episode, the isolated environment,
    agent lookup and execution (with step recording for agents that support it), the
    terminal "complete" or "error" episode, and cleanup. Episode ids come from a counter;
    the backend client, its availability and the JSON serialiser are fixed per executor. */
module Executor {
  import opened Common
  import opened Isolation
  import opened SubAgentTypes
  import opened BrainIntegration

  // ------------------------------------------------------------------ security

  /** The caller's capability token, as far as the gate looks at it. */
  datatype Token = Token(expired: bool, permissions: set<string>, canWrite: bool)

  /** The incoming request unit, as far as the gate looks at it: whether it carries scopes. */
  datatype RequestUnit = RequestUnit(hasSecurityScopes: bool)

  /** `_validate_security`: the reason for refusal, if any. `securityEnabled` is the core
      configuration's switch, consulted only for scoped requests without a token. */
  function ValidateSecurity(unit: RequestUnit, token: Option<Token>, securityEnabled: bool): Option<string> {
    if token.Some? && token.value.expired then Some("ContextToken has expired")
    else if token.Some? && "worker:execute" !in token.value.permissions then
      Some("ContextToken does not have 'worker:execute' permission")
    else if unit.hasSecurityScopes then
      if token.Some? then
        if !token.value.canWrite then Some("ContextToken cannot write to SecurityScopes") else None
      else if securityEnabled then Some("Security scopes present but no ContextToken provided. Execution denied.")
      else None
    else None
  }

  /** The gate admits a request exactly when any token is live and grants execution, and a
      scoped request either has a token that may write or runs with security disabled. */
  lemma ValidateSecurityIff(unit: RequestUnit, token: Option<Token>, securityEnabled: bool)
    ensures ValidateSecurity(unit, token, securityEnabled).None? <==>
            (token.Some? ==> !token.value.expired && "worker:execute" in token.value.permissions) &&
            (unit.hasSecurityScopes && token.Some? ==> token.value.canWrite) &&
            (unit.hasSecurityScopes && token.None? ==> !securityEnabled)
    ensures !unit.hasSecurityScopes && token.None? ==> ValidateSecurity(unit, token, securityEnabled).None?
  {
  }

  // ------------------------------------------------------------------ agents

  /** One step an agent asks to have recorded. */
  datatype StepCall = StepCall(name: string, result: SubAgentResult)

  /** What an agent does when run: a plain `run` that returns a value or raises, or a
      `run_with_recording` that records steps through the callback, then returns or raises. */
  datatype AgentBehaviour =
    | PlainRun(returned: Result<Value, string>)
    | RecordingRun(steps: seq<StepCall>, finished: Result<SubAgentResult, string>)

  /** A registered agent class: whether constructing it from a config raises, and how its
      instances behave. */
  datatype AgentClass = AgentClass(constructError: Option<string>, behaviour: AgentBehaviour)

  datatype AgentInstance =
    | Constructed(behaviour: AgentBehaviour, config: map<string, Value>)
    | Placeholder(config: map<string, Value>, context: IsolationContext)

  function Construct(cls: AgentClass, config: map<string, Value>): Result<AgentInstance, string> {
    match cls.constructError
    case Some(e) => Err(e)
    case None => Ok(Constructed(cls.behaviour, config))
  }

  /** The message of the import failure on the fallback path. */
  const ImportFailure := "cannot import name 'get_registry' from 'contextworker.registry'"

  /** `_get_agent_instance` as written: a registered type is constructed from the config;
      for any other type the fallback first imports a function the agent registry module
      does not define, so the lookup raises instead of reaching the placeholder. */
  function LookupAgentAsWritten(registry: map<string, AgentClass>, agentType: string,
                                config: map<string, Value>, ctx: IsolationContext): Result<AgentInstance, string>
  {
    if agentType in registry then Construct(registry[agentType], config) else Err(ImportFailure)
  }

  /** `_get_agent_instance` as intended: an unregistered type falls back to the placeholder. */
  function LookupAgent(registry: map<string, AgentClass>, agentType: string,
                       config: map<string, Value>, ctx: IsolationContext): Result<AgentInstance, string>
  {
    if agentType in registry then Construct(registry[agentType], config) else Ok(Placeholder(config, ctx))
  }

  /** The agent lookup, as written when the registry import fails (the shipped case) and as
      intended when it succeeds. */
  function Lookup(registryImportOk: bool, registry: map<string, AgentClass>, agentType: string,
                  config: map<string, Value>, ctx: IsolationContext): Result<AgentInstance, string>
  {
    if registryImportOk then LookupAgent(registry, agentType, config, ctx)
    else LookupAgentAsWritten(registry, agentType, config, ctx)
  }

  /** `PlaceholderAgent.run`. */
  function PlaceholderOutput(task: map<string, Value>, ctx: IsolationContext): (v: Value)
    ensures v.VDict? && v.entries.Keys == {"message", "task", "subagent_id"}
    ensures v.entries["subagent_id"] == VStr(ctx.subagentId) && v.entries["task"] == VDict(task)
  {
    VDict(map["message" := VStr("Placeholder agent executed"),
              "task" := VDict(task),
              "subagent_id" := VStr(ctx.subagentId)])
  }

  /** A plain run's value as a result: completed text, kept if a string or dictionary,
      otherwise rendered with `str`. */
  function WrapPlain(subagentId: string, v: Value, render: Render): (r: SubAgentResult)
    ensures r.status == "completed" && r.dataType == Text && r.subagentId == subagentId
    ensures v.VStr? || v.VDict? ==> r.data == v
    ensures !(v.VStr? || v.VDict?) ==> r.data == VStr(PyStr(v, render))
  {
    NewResult(subagentId, "completed", Text, if v.VStr? || v.VDict? then v else VStr(PyStr(v, render)))
  }

  // ------------------------------------------------------------------ the pipeline

  /** The environment an executor runs in. */
  datatype World = World(client: BrainClient, backendUp: bool, render: Render)

  /** The observable steps of one execution. */
  datatype ExecEffect =
    | Record(step: string, episodeId: string, parent: Option<string>, result: SubAgentResult)
    | EnvCreated(env: IsolatedEnvironment)
    | EnvCleaned(env: IsolatedEnvironment)

  /** Episode ids: one fresh id per recording attempt. */
  function EpisodeId(n: nat): string {
    "episode-" + NatToString(n)
  }

  lemma EpisodeIdInjective(m: nat, n: nat)
    requires EpisodeId(m) == EpisodeId(n)
    ensures m == n
  {
    AppendPrefixInjective("episode-", NatToString(m), NatToString(n));
    NatToStringInjective(m, n);
  }

  lemma AppendPrefixInjective(p: string, a: string, b: string)
    ensures p + a == p + b ==> a == b
  {
    if p + a == p + b {
      assert a == (p + a)[|p|..];
      assert b == (p + b)[|p|..];
    }
  }
  /** One recording attempt: its outcome and, when it returned, its effect. */
  datatype Attempt = Attempt(outcome: Result<string, string>, effects: seq<ExecEffect>)

  /** One recording with id number `n`, as `record_subagent_step` behaves towards its caller
      (see `RecordAttemptOutcome`): it returns that id and records the step exactly when the
      content formats, and otherwise raises and records nothing. What reaches the backend for
      a recorded step is `RecordSubagentStep` of the same arguments. */
  function RecordAttempt(w: World, n: nat, step: string, r: SubAgentResult, parent: Option<string>): Attempt {
    if Formattable(r, w.render) then Attempt(Ok(EpisodeId(n)), [Record(step, EpisodeId(n), parent, r)])
    else Attempt(Err(NotSerialisable), [])
  }

  lemma RecordAttemptOutcome(w: World, n: nat, subagentId: string, step: string, r: SubAgentResult,
                             ctx: IsolationContext, parent: Option<string>)
    ensures RecordAttempt(w, n, step, r, parent).outcome ==
            RecordSubagentStep(w.client, EpisodeId(n), subagentId, step, r, ctx, parent, w.render, w.backendUp).outcome
  {
    RecordOutcome(w.client, EpisodeId(n), subagentId, step, r, ctx, parent, w.render, w.backendUp);
  }

  /** The agent's step recordings through the callback: the error that ended them, if any,
      their effects and the number of ids used. */
  datatype Steps = Steps(error: Option<string>, effects: seq<ExecEffect>, used: nat)

  /** Recording an agent's steps with ids from `first` on; a recording that raises ends the
      run with that error. The effects are the steps' recordings, in order, each under the
      parent episode, and each step uses one id. */
  function RecordSteps(w: World, first: nat, subagentId: string, steps: seq<StepCall>,
                       ctx: IsolationContext, parent: string): (s: Steps)
    ensures s.used <= |steps|
    ensures s.error.None? ==> s.used == |steps| && |s.effects| == |steps|
    ensures s.error.Some? ==> 1 <= s.used && |s.effects| == s.used - 1
    ensures forall e :: e in s.effects ==> e.Record? && e.parent == Some(parent)
    decreases |steps|
  {
    if steps == [] then Steps(None, [], 0)
    else
      var a := RecordAttempt(w, first, steps[0].name, steps[0].result, Some(parent));
      if a.outcome.Err? then Steps(Some(a.outcome.error), [], 1)
      else
        var s := RecordSteps(w, first + 1, subagentId, steps[1..], ctx, parent);
        Steps(s.error, a.effects + s.effects, s.used + 1)
  }

  /** The callback records the agent's steps in the order the agent reports them, with
      consecutive episode ids, until the first one that fails. */
  lemma {:induction false} RecordStepsInOrder(w: World, first: nat, subagentId: string, steps: seq<StepCall>,
                                              ctx: IsolationContext, parent: string)
    ensures var s := RecordSteps(w, first, subagentId, steps, ctx, parent);
            forall i :: 0 <= i < |s.effects| ==>
              s.effects[i] == Record(steps[i].name, EpisodeId(first + i), Some(parent), steps[i].result)
    decreases |steps|
  {
    if steps != [] {
      var s := RecordSteps(w, first, subagentId, steps, ctx, parent);
      var rest := RecordSteps(w, first + 1, subagentId, steps[1..], ctx, parent);
      RecordStepsInOrder(w, first + 1, subagentId, steps[1..], ctx, parent);
      if Formattable(steps[0].result, w.render) {
        var head := Record(steps[0].name, EpisodeId(first), Some(parent), steps[0].result);
        assert s.effects == [head] + rest.effects;
        forall i | 0 <= i < |s.effects|
          ensures s.effects[i] == Record(steps[i].name, EpisodeId(first + i), Some(parent), steps[i].result)
        {
          if i == 0 {
            assert s.effects[0] == head;
          } else {
            assert s.effects[i] == rest.effects[i - 1];
            assert steps[1..][i - 1] == steps[i];
            assert first + 1 + (i - 1) == first + i;
          }
        }
      }
    }
  }

  /** What running the looked-up agent produced. */
  datatype Run = Run(outcome: Result<SubAgentResult, string>, effects: seq<ExecEffect>, used: nat)

  /** The agent lookup's failure, or `_execute_with_recording` on the agent found. */
  function RunAgent(w: World, first: nat, lookup: Result<AgentInstance, string>, task: map<string, Value>,
                    subagentId: string, ctx: IsolationContext, parent: string): (run: Run)
    ensures forall e :: e in run.effects ==> e.Record? && e.parent == Some(parent)
    ensures lookup.Err? ==> run == Run(Err(lookup.error), [], 0)
  {
    match lookup
    case Err(e) => Run(Err(e), [], 0)
    case Ok(Placeholder(_, c)) => Run(Ok(WrapPlain(subagentId, PlaceholderOutput(task, c), w.render)), [], 0)
    case Ok(Constructed(PlainRun(ret), _)) =>
      Run(match ret case Ok(v) => Ok(WrapPlain(subagentId, v, w.render)) case Err(e) => Err(e), [], 0)
    case Ok(Constructed(RecordingRun(steps, finished), _)) =>
      var s := RecordSteps(w, first, subagentId, steps, ctx, parent);
      Run(if s.error.Some? then Err(s.error.value) else finished, s.effects, s.used)
  }

  /** The caller-facing dictionary of a completed run. */
  function Completed(subagentId: string, r: SubAgentResult): map<string, Value> {
    map["status" := VStr("completed"), "result" := VDict(ResultToDict(r)), "subagent_id" := VStr(subagentId)]
  }

  /** A completed dictionary names the sub-agent and its status, and its `result` reads back
      as the agent's own result. */
  lemma CompletedReadsBack(subagentId: string, r: SubAgentResult)
    ensures var d := Completed(subagentId, r);
            d.Keys == {"status", "result", "subagent_id"} &&
            d["status"] == VStr("completed") && d["subagent_id"] == VStr(subagentId) &&
            d["result"].VDict? && ResultFromDict(d["result"].entries) == Some(r)
  {
    ResultRoundTrip(r);
  }

  /** The shape of a failed run's dictionary. */
  predicate IsFailure(d: map<string, Value>, subagentId: string) {
    d.Keys == {"status", "error", "subagent_id"} && d["status"] == VStr("failed") &&
    d["error"].VStr? && d["subagent_id"] == VStr(subagentId)
  }

  function Failed(subagentId: string, e: string): (d: map<string, Value>)
    ensures IsFailure(d, subagentId) && d["error"] == VStr(e)
  {
    map["status" := VStr("failed"), "error" := VStr(e), "subagent_id" := VStr(subagentId)]
  }

  /** The outcome of a whole execution or of one of its stages: what the caller gets (a
      refusal escapes as an error), the effects in order, and the number of ids used. */
  datatype Execution = Execution(result: Result<map<string, Value>, string>, effects: seq<ExecEffect>, used: nat)

  /** The `except` branch: the error recording (text, so it always succeeds) and the failed
      dictionary. `used` counts the ids of this stage including the error recording. */
  function FailWith(w: World, n: nat, e: string, subagentId: string, ctx: IsolationContext, startId: string,
                    used: nat): (x: Execution)
    ensures x.result == Ok(Failed(subagentId, e)) && x.used == used
    ensures |x.effects| == 1 && x.effects[0].Record? && x.effects[0].step == "error" &&
            x.effects[0].episodeId == EpisodeId(n) && x.effects[0].parent == Some(startId)
  {
    var a := RecordAttempt(w, n, "error", NewResult(subagentId, "failed", Text, VStr(e)), Some(startId));
    Execution(Ok(Failed(subagentId, e)), a.effects, used)
  }

  /** After the run: the "complete" recording and the completed dictionary, or, when the run
      or that recording raised, the error recording and the failed dictionary. */
  function Finish(w: World, n: nat, ran: Result<SubAgentResult, string>, subagentId: string,
                  ctx: IsolationContext, startId: string): (x: Execution)
    ensures x.result.Ok? && |x.effects| == 1 && x.effects[0].Record? && x.effects[0].parent == Some(startId)
    ensures x.effects[0].step == "complete" <==>
              ran.Ok? && Formattable(ran.value, w.render)
    ensures x.effects[0].step == "complete" ==> x.result.value == Completed(subagentId, ran.value)
    ensures x.effects[0].step != "complete" ==> x.effects[0].step == "error" && IsFailure(x.result.value, subagentId)
    ensures ran.Err? ==> x.result.value == Failed(subagentId, ran.error)
  {
    match ran
    case Ok(r) =>
      var a := RecordAttempt(w, n, "complete", r, Some(startId));
      if a.outcome.Ok? then Execution(Ok(Completed(subagentId, r)), a.effects, 1)
      else FailWith(w, n + 1, a.outcome.error, subagentId, ctx, startId, 2)
    case Err(e) => FailWith(w, n, e, subagentId, ctx, startId, 1)
  }

  /** The body inside `try`, up to and including the `except` branch. */
  function Body(w: World, first: nat, lookup: Result<AgentInstance, string>, subagentId: string,
                task: map<string, Value>, ctx: IsolationContext, startId: string): (x: Execution)
    ensures x.result.Ok? && |x.effects| >= 1
    ensures forall e :: e in x.effects ==> e.Record? && e.parent == Some(startId)
    ensures x.effects[|x.effects| - 1].step in {"complete", "error"}
  {
    var run := RunAgent(w, first, lookup, task, subagentId, ctx, startId);
    var fin := Finish(w, first + run.used, run.outcome, subagentId, ctx, startId);
    var effects := run.effects + fin.effects;
    Execution(fin.result, effects, run.used + fin.used)
  }

  /** The "start" episode's result. */
  function StartResult(subagentId: string): SubAgentResult {
    NewResult(subagentId, "running", Text, VStr("Starting sub-agent " + subagentId))
  }

  /** An admitted execution: the "start" recording, the environment, the body, and cleanup
      in `finally`. */
  function Admitted(w: World, first: nat, lookup: Result<AgentInstance, string>, subagentId: string,
                    task: map<string, Value>, ctx: IsolationContext): Execution
  {
    var start := RecordAttempt(w, first, "start", StartResult(subagentId), None);
    var env := CreateIsolatedEnvironment(ctx);
    var body := Body(w, first + 1, lookup, subagentId, task, ctx, EpisodeId(first));
    Execution(body.result, start.effects + [EnvCreated(env)] + body.effects + [EnvCleaned(env)], 1 + body.used)
  }

  /** `execute_subagent`, given the outcome of the agent lookup: the security gate, then the
      admitted execution. */
  function ExecSpec(w: World, first: nat, lookup: Result<AgentInstance, string>, subagentId: string,
                    task: map<string, Value>, ctx: IsolationContext, unit: Option<RequestUnit>,
                    token: Option<Token>, securityEnabled: bool): Execution
  {
    if unit.Some? && ValidateSecurity(unit.value, token, securityEnabled).Some? then
      Execution(Err("PermissionError: " + ValidateSecurity(unit.value, token, securityEnabled).value), [], 0)
    else Admitted(w, first, lookup, subagentId, task, ctx)
  }

  // ------------------------------------------------------------------ properties

  /** A refused request escapes as an error before anything is recorded or created; an
      admitted request always returns a dictionary (no failure after the gate escapes). */
  lemma SecurityFirst(w: World, first: nat, lookup: Result<AgentInstance, string>, subagentId: string,
                      task: map<string, Value>, ctx: IsolationContext, unit: Option<RequestUnit>,
                      token: Option<Token>, securityEnabled: bool)
    ensures var x := ExecSpec(w, first, lookup, subagentId, task, ctx, unit, token, securityEnabled);
            (x.result.Err? <==> unit.Some? && ValidateSecurity(unit.value, token, securityEnabled).Some?) &&
            (x.result.Err? ==> x.effects == [] && x.used == 0)
  {
  }

  /** The "start" recording always formats, so it is always made, with no parent. */
  lemma StartRecorded(w: World, first: nat, subagentId: string)
    ensures RecordAttempt(w, first, "start", StartResult(subagentId), None) ==
            Attempt(Ok(EpisodeId(first)), [Record("start", EpisodeId(first), None, StartResult(subagentId))])
  {
  }

  /** The order of an admitted execution: the start episode (with no parent), the
      environment, then the body's recordings (by `Body`'s contract all under the start
      episode, ending in the terminal "complete" or "error" one), and cleanup of that same
      environment last. */
  lemma AdmittedOrder(w: World, first: nat, lookup: Result<AgentInstance, string>, subagentId: string,
                      task: map<string, Value>, ctx: IsolationContext)
    ensures var body := Body(w, first + 1, lookup, subagentId, task, ctx, EpisodeId(first));
            var env := CreateIsolatedEnvironment(ctx);
            Admitted(w, first, lookup, subagentId, task, ctx) ==
              Execution(body.result,
                        [Record("start", EpisodeId(first), None, StartResult(subagentId))] + [EnvCreated(env)] +
                        body.effects + [EnvCleaned(env)],
                        1 + body.used)
  {
    StartRecorded(w, first, subagentId);
  }

  /** The environment is cleaned up once, as the very last step: no earlier step is a
      cleanup. */
  lemma SingleCleanup(w: World, first: nat, lookup: Result<AgentInstance, string>, subagentId: string,
                      task: map<string, Value>, ctx: IsolationContext)
    ensures var es := Admitted(w, first, lookup, subagentId, task, ctx).effects;
            |es| >= 4 && es[|es| - 1] == EnvCleaned(CreateIsolatedEnvironment(ctx)) &&
            forall e :: e in es[..|es| - 1] ==> !e.EnvCleaned?
  {
    AdmittedOrder(w, first, lookup, subagentId, task, ctx);
    var es := Admitted(w, first, lookup, subagentId, task, ctx).effects;
    var body := Body(w, first + 1, lookup, subagentId, task, ctx, EpisodeId(first)).effects;
    var head := [Record("start", EpisodeId(first), None, StartResult(subagentId))] + [EnvCreated(CreateIsolatedEnvironment(ctx))];
    assert es[..|es| - 1] == head + body;
  }

  /** The same, for any request the gate admits. */
  lemma ExecutionOrder(w: World, first: nat, lookup: Result<AgentInstance, string>, subagentId: string,
                       task: map<string, Value>, ctx: IsolationContext, unit: Option<RequestUnit>,
                       token: Option<Token>, securityEnabled: bool)
    requires !(unit.Some? && ValidateSecurity(unit.value, token, securityEnabled).Some?)
    ensures ExecSpec(w, first, lookup, subagentId, task, ctx, unit, token, securityEnabled) ==
            Admitted(w, first, lookup, subagentId, task, ctx)
  {
  }

  /** How an admitted execution ends: completed, with the agent's own result, exactly when
      the lookup and the run succeed and the "complete" recording formats; failed otherwise. */
  lemma ExecutionOutcome(w: World, first: nat, lookup: Result<AgentInstance, string>, subagentId: string,
                         task: map<string, Value>, ctx: IsolationContext, unit: Option<RequestUnit>,
                         token: Option<Token>, securityEnabled: bool)
    requires !(unit.Some? && ValidateSecurity(unit.value, token, securityEnabled).Some?)
    ensures var x := ExecSpec(w, first, lookup, subagentId, task, ctx, unit, token, securityEnabled);
            var run := RunAgent(w, first + 1, lookup, task, subagentId, ctx, EpisodeId(first));
            var ok := run.outcome.Ok? && Formattable(run.outcome.value, w.render);
            x.result.Ok? &&
            (ok ==> x.result.value == Completed(subagentId, run.outcome.value)) &&
            (!ok ==> IsFailure(x.result.value, subagentId)) &&
            (lookup.Err? ==> x.result.value == Failed(subagentId, lookup.error))
  {
    var run := RunAgent(w, first + 1, lookup, task, subagentId, ctx, EpisodeId(first));
    var fin := Finish(w, first + 1 + run.used, run.outcome, subagentId, ctx, EpisodeId(first));
    assert Body(w, first + 1, lookup, subagentId, task, ctx, EpisodeId(first)).result == fin.result;
  }

  /** The lookup bug: as written, every execution of an unregistered agent type is reported
      as failed with the import error, although the placeholder agent exists for it. */
  lemma UnregisteredTypeFailsAsWritten(w: World, first: nat, registry: map<string, AgentClass>, agentType: string,
                                       config: map<string, Value>, subagentId: string, task: map<string, Value>,
                                       ctx: IsolationContext, token: Option<Token>, securityEnabled: bool)
    requires agentType !in registry
    ensures ExecSpec(w, first, LookupAgentAsWritten(registry, agentType, config, ctx), subagentId, task, ctx,
                     None, token, securityEnabled).result == Ok(Failed(subagentId, ImportFailure))
  {
    ExecutionOutcome(w, first, LookupAgentAsWritten(registry, agentType, config, ctx), subagentId, task, ctx,
                     None, token, securityEnabled);
  }

  /** Corrected: an unregistered agent type runs the placeholder, and the execution
      completes with the placeholder's answer as text data. */
  lemma UnregisteredTypeRunsPlaceholder(w: World, first: nat, registry: map<string, AgentClass>, agentType: string,
                                        config: map<string, Value>, subagentId: string, task: map<string, Value>,
                                        ctx: IsolationContext, token: Option<Token>, securityEnabled: bool)
    requires agentType !in registry
    ensures ExecSpec(w, first, LookupAgent(registry, agentType, config, ctx), subagentId, task, ctx,
                     None, token, securityEnabled).result ==
            Ok(Completed(subagentId, NewResult(subagentId, "completed", Text, PlaceholderOutput(task, ctx))))
  {
    ExecutionOutcome(w, first, LookupAgent(registry, agentType, config, ctx), subagentId, task, ctx,
                     None, token, securityEnabled);
  }

  // ------------------------------------------------------------------ the executor

  class SubAgentExecutor {
    const world: World
    var agentRegistry: map<string, AgentClass>
    var nextEpisode: nat
    ghost var trace: seq<ExecEffect>

    constructor(world: World)
      ensures this.world == world
      ensures agentRegistry == map[] && nextEpisode == 0 && trace == []
    {
      this.world := world;
      agentRegistry := map[];
      nextEpisode := 0;
      trace := [];
    }

    /** `register_agent_type`: the type now maps to the class, replacing any earlier one. */
    method RegisterAgentType(agentType: string, cls: AgentClass)
      modifies this
      ensures agentRegistry == old(agentRegistry)[agentType := cls]
      ensures nextEpisode == old(nextEpisode) && trace == old(trace)
    {
      agentRegistry := agentRegistry[agentType := cls];
    }

    /** `record_subagent_step` with the next episode id. */
    method RecordStep(subagentId: string, step: string, r: SubAgentResult, ctx: IsolationContext,
                      parent: Option<string>) returns (out: Result<string, string>)
      modifies this
      ensures var a := RecordAttempt(world, old(nextEpisode), step, r, parent);
              out == a.outcome && trace == old(trace) + a.effects
      ensures nextEpisode == old(nextEpisode) + 1 && agentRegistry == old(agentRegistry)
    {
      var rec := RecordSubagentStep(world.client, EpisodeId(nextEpisode), subagentId, step, r, ctx, parent,
                                    world.render, world.backendUp);
      RecordAttemptOutcome(world, nextEpisode, subagentId, step, r, ctx, parent);
      out := rec.outcome;
      if out.Ok? {
        trace := trace + [Record(step, out.value, parent, r)];
      }
      nextEpisode := nextEpisode + 1;
    }

    /** The recording callback, called once per step of a recording agent, until a step's
        recording raises. */
    method RunRecording(subagentId: string, steps: seq<StepCall>, ctx: IsolationContext, parent: string)
      returns (err: Option<string>)
      modifies this
      ensures var s := RecordSteps(world, old(nextEpisode), subagentId, steps, ctx, parent);
              err == s.error && trace == old(trace) + s.effects && nextEpisode == old(nextEpisode) + s.used
      ensures agentRegistry == old(agentRegistry)
      decreases |steps|
    {
      if steps == [] {
        return None;
      }
      ghost var t0 := trace;
      var out := RecordStep(subagentId, steps[0].name, steps[0].result, ctx, Some(parent));
      if out.Err? {
        return Some(out.error);
      }
      ghost var a := RecordAttempt(world, old(nextEpisode), steps[0].name, steps[0].result, Some(parent)).effects;
      err := RunRecording(subagentId, steps[1..], ctx, parent);
      AppendAssoc3(t0, a, RecordSteps(world, old(nextEpisode) + 1, subagentId, steps[1..], ctx, parent).effects);
    }

    /** Running the looked-up agent. */
    method RunLookedUp(lookup: Result<AgentInstance, string>, task: map<string, Value>, subagentId: string,
                       ctx: IsolationContext, parent: string) returns (outcome: Result<SubAgentResult, string>)
      modifies this
      ensures var run := RunAgent(world, old(nextEpisode), lookup, task, subagentId, ctx, parent);
              outcome == run.outcome && trace == old(trace) + run.effects && nextEpisode == old(nextEpisode) + run.used
      ensures agentRegistry == old(agentRegistry)
    {
      match lookup {
        case Err(e) => outcome := Err(e);
        case Ok(Placeholder(_, c)) => outcome := Ok(WrapPlain(subagentId, PlaceholderOutput(task, c), world.render));
        case Ok(Constructed(PlainRun(ret), _)) =>
          match ret {
            case Ok(v) => outcome := Ok(WrapPlain(subagentId, v, world.render));
            case Err(e) => outcome := Err(e);
          }
        case Ok(Constructed(RecordingRun(steps, finished), _)) =>
          var err := RunRecording(subagentId, steps, ctx, parent);
          outcome := if err.Some? then Err(err.value) else finished;
      }
    }

    /** The "complete" recording, or the `except` branch. */
    method FinishRun(ran: Result<SubAgentResult, string>, subagentId: string, ctx: IsolationContext, startId: string)
      returns (result: map<string, Value>)
      modifies this
      ensures var x := Finish(world, old(nextEpisode), ran, subagentId, ctx, startId);
              x.result == Ok(result) && trace == old(trace) + x.effects && nextEpisode == old(nextEpisode) + x.used
      ensures agentRegistry == old(agentRegistry)
    {
      var error: string;
      match ran {
        case Ok(r) =>
          var out := RecordStep(subagentId, "complete", r, ctx, Some(startId));
          if out.Ok? {
            return Completed(subagentId, r);
          }
          error := out.error;
        case Err(e) =>
          error := e;
      }
      var _ := RecordStep(subagentId, "error", NewResult(subagentId, "failed", Text, VStr(error)), ctx, Some(startId));
      result := Failed(subagentId, error);
    }

    /** The body inside `try`, with its `except` branch. */
    method RunBody(subagentId: string, task: map<string, Value>, lookup: Result<AgentInstance, string>,
                   ctx: IsolationContext, startId: string) returns (result: map<string, Value>)
      modifies this
      ensures var x := Body(world, old(nextEpisode), lookup, subagentId, task, ctx, startId);
              x.result == Ok(result) && trace == old(trace) + x.effects && nextEpisode == old(nextEpisode) + x.used
      ensures agentRegistry == old(agentRegistry)
    {
      ghost var t0 := trace;
      ghost var run := RunAgent(world, nextEpisode, lookup, task, subagentId, ctx, startId);
      var ran := RunLookedUp(lookup, task, subagentId, ctx, startId);
      assert nextEpisode == old(nextEpisode) + run.used;
      ghost var fin := Finish(world, old(nextEpisode) + run.used, ran, subagentId, ctx, startId);
      result := FinishRun(ran, subagentId, ctx, startId);
      AppendAssoc3(t0, run.effects, fin.effects);
    }

    /** The "start" recording, which always formats, then the isolated environment. */
    method OpenEnvironment(subagentId: string, ctx: IsolationContext) returns (env: IsolatedEnvironment)
      modifies this
      ensures env == CreateIsolatedEnvironment(ctx)
      ensures trace == old(trace) + [Record("start", EpisodeId(old(nextEpisode)), None, StartResult(subagentId))] +
                       [EnvCreated(env)]
      ensures nextEpisode == old(nextEpisode) + 1 && agentRegistry == old(agentRegistry)
    {
      StartRecorded(world, nextEpisode, subagentId);
      var _ := RecordStep(subagentId, "start", StartResult(subagentId), ctx, None);
      env := CreateIsolatedEnvironment(ctx);
      trace := trace + [EnvCreated(env)];
    }

    /** Everything after the security gate. */
    method RunAdmitted(subagentId: string, task: map<string, Value>, lookup: Result<AgentInstance, string>,
                       ctx: IsolationContext) returns (result: map<string, Value>)
      modifies this
      ensures var x := Admitted(world, old(nextEpisode), lookup, subagentId, task, ctx);
              x.result == Ok(result) && trace == old(trace) + x.effects && nextEpisode == old(nextEpisode) + x.used
      ensures agentRegistry == old(agentRegistry)
    {
      var first := nextEpisode;
      var env := OpenEnvironment(subagentId, ctx);
      result := RunBody(subagentId, task, lookup, ctx, EpisodeId(first));
      trace := trace + [EnvCleaned(env)];
      AdmittedOrder(world, first, lookup, subagentId, task, ctx);
      AppendAssoc4(old(trace), [Record("start", EpisodeId(first), None, StartResult(subagentId))], [EnvCreated(env)],
                   Body(world, first + 1, lookup, subagentId, task, ctx, EpisodeId(first)).effects, [EnvCleaned(env)]);
    }

    /** `execute_subagent`. `registryImportOk` says whether the fallback lookup's registry
        import succeeds: as shipped it does not, and an unregistered agent type fails. */
    method ExecuteSubagent(subagentId: string, task: map<string, Value>, agentType: string,
                           ctx: IsolationContext, config: map<string, Value>, unit: Option<RequestUnit>,
                           token: Option<Token>, securityEnabled: bool, registryImportOk: bool)
      returns (result: Result<map<string, Value>, string>)
      modifies this
      ensures var x := ExecSpec(world, old(nextEpisode), Lookup(registryImportOk, old(agentRegistry), agentType, config, ctx),
                                subagentId, task, ctx, unit, token, securityEnabled);
              result == x.result && trace == old(trace) + x.effects && nextEpisode == old(nextEpisode) + x.used
      ensures agentRegistry == old(agentRegistry)
      ensures agentType !in old(agentRegistry) && unit.None? ==>
                result == Ok(if registryImportOk
                             then Completed(subagentId, NewResult(subagentId, "completed", Text, PlaceholderOutput(task, ctx)))
                             else Failed(subagentId, ImportFailure))
    {
      if unit.Some? {
        var refusal := ValidateSecurity(unit.value, token, securityEnabled);
        if refusal.Some? {
          return Err("PermissionError: " + refusal.value);
        }
      }
      var first := nextEpisode;
      var finished := RunAdmitted(subagentId, task, Lookup(registryImportOk, agentRegistry, agentType, config, ctx), ctx);
      result := Ok(finished);
      if agentType !in agentRegistry && unit.None? {
        if registryImportOk {
          UnregisteredTypeRunsPlaceholder(world, first, agentRegistry, agentType, config, subagentId, task, ctx,
                                          token, securityEnabled);
        } else {
          UnregisteredTypeFailsAsWritten(world, first, agentRegistry, agentType, config, subagentId, task, ctx,
                                         token, securityEnabled);
        }
      }
    }
  }
}
