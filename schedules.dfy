/** Engine schedules for the worker's workflows: the schedule configurations shipped by
    default, how one configuration becomes a schedule request for a tenant (ids and workflow
    arguments), the tolerance of "already exists", creating all defaults, and the handle
    operations. The engine's answer to each call is a parameter: `None` when it accepts,
    otherwise the text of the exception it raises. */
module Schedules {
  import opened Common

  /** `ScheduleConfig`, without the workflow class (left unset and resolved by name). */
  datatype ScheduleConfig = ScheduleConfig(
    scheduleId: string,
    workflowName: string,
    taskQueue: string,
    cron: string,
    args: Option<seq<Value>>,
    description: string)

  const HarvesterDaily := ScheduleConfig("harvester-daily", "HarvestWorkflow", "harvest-tasks",
                                         "0 6 * * *", Some([VStr("all")]), "Daily harvest of all suppliers")
  const GardenerEvery5Min := ScheduleConfig("gardener-every-5min", "GardenerWorkflow", "gardener-tasks",
                                            "*/5 * * * *", Some([]), "Enrich pending products every 5 minutes")

  /** `DEFAULT_SCHEDULES`, in order. */
  const DefaultSchedules: seq<ScheduleConfig> := [HarvesterDaily, GardenerEvery5Min]

  /** The workflows `create_schedule` knows by name. */
  const KnownWorkflows: set<string> := {"HarvestWorkflow", "GardenerWorkflow"}

  // ---------------------------------------------------------------- cron fields

  /** Length of the run of non-whitespace characters `s` starts with. */
  function WordLength(s: string): (n: nat)
    ensures n <= |s|
    ensures forall i :: 0 <= i < n ==> !IsSpace(s[i])
    ensures n < |s| ==> IsSpace(s[n])
  {
    if s == [] || IsSpace(s[0]) then 0 else 1 + WordLength(s[1..])
  }

  /** Python's `s.split()` with no separator: the maximal runs of non-whitespace. */
  function Fields(s: string): (ws: seq<string>)
    decreases |s|
  {
    var t := s[LeadingSpaces(s)..];
    if t == [] then []
    else
      assert !IsSpace(t[0]);
      var n := WordLength(t);
      [t[..n]] + Fields(t[n..])
  }

  lemma {:induction false} WordLengthOf(w: string, rest: string)
    requires forall c :: c in w ==> !IsSpace(c)
    requires rest == [] || IsSpace(rest[0])
    ensures WordLength(w + rest) == |w|
    decreases |w|
  {
    if w != [] {
      assert (w + rest)[1..] == w[1..] + rest;
      WordLengthOf(w[1..], rest);
    }
  }

  /** A word followed by a space-led (or empty) rest splits off as the first field. */
  lemma FieldsCons(w: string, rest: string)
    requires w != [] && forall c :: c in w ==> !IsSpace(c)
    requires rest == [] || IsSpace(rest[0])
    ensures Fields(w + rest) == [w] + Fields(rest)
  {
    assert !IsSpace((w + rest)[0]);
    assert LeadingSpaces(w + rest) == 0;
    assert (w + rest)[0..] == w + rest;
    WordLengthOf(w, rest);
    assert (w + rest)[..|w|] == w && (w + rest)[|w|..] == rest;
  }

  /** A leading space is skipped. */
  lemma FieldsSpace(rest: string)
    ensures Fields(" " + rest) == Fields(rest)
  {
    var s := " " + rest;
    assert s[1..] == rest;
    assert LeadingSpaces(s) == 1 + LeadingSpaces(rest);
    assert s[LeadingSpaces(s)..] == rest[LeadingSpaces(rest)..];
  }

  predicate IsWord(w: string) {
    w != [] && forall c :: c in w ==> !IsSpace(c)
  }

  lemma FieldsJoinStep(ws: seq<string>)
    requires |ws| >= 2 && IsWord(ws[0])
    requires Fields(Join(ws[1..], " ")) == ws[1..]
    ensures Fields(Join(ws, " ")) == ws
  {
    var w, rest := ws[0], Join(ws[1..], " ");
    assert Join(ws, " ") == w + " " + rest;
    assert w + " " + rest == w + (" " + rest);
    FieldsCons(w, " " + rest);
    FieldsSpace(rest);
    assert ws == [w] + ws[1..];
  }

  /** Words joined by single spaces split back into the same words. */
  lemma {:induction false} FieldsJoin(ws: seq<string>)
    requires forall k :: 0 <= k < |ws| ==> IsWord(ws[k])
    ensures Fields(Join(ws, " ")) == ws
    decreases |ws|
  {
    if ws == [] {
      assert Fields("") == [];
    } else if |ws| == 1 {
      FieldsCons(ws[0], "");
      assert ws[0] + "" == ws[0];
      assert Fields("") == [];
    } else {
      assert forall k :: 0 <= k < |ws| - 1 ==> ws[1..][k] == ws[k + 1];
      FieldsJoin(ws[1..]);
      FieldsJoinStep(ws);
    }
  }

  /** A cron line made of five words split by single spaces has five fields. */
  lemma FiveFieldCron(cron: string, words: seq<string>)
    requires |words| == 5 && forall k :: 0 <= k < 5 ==> IsWord(words[k])
    requires cron == Join(words, " ")
    ensures |Fields(cron)| == 5
  {
    FieldsJoin(words);
  }

  /** Both default schedules' cron expressions have the five fields of a standard cron
      line. */
  lemma DefaultCronsHaveFiveFields(c: ScheduleConfig)
    requires c in DefaultSchedules
    ensures |Fields(c.cron)| == 5
  {
    var daily := ["0", "6", "*", "*", "*"];
    var every5 := ["*/5", "*", "*", "*", "*"];
    assert forall k :: 0 <= k < 5 ==> IsWord(daily[k]) && IsWord(every5[k]);
    if c == HarvesterDaily {
      FiveFieldCron(c.cron, daily);
    } else {
      FiveFieldCron(c.cron, every5);
    }
  }

  // ---------------------------------------------------------------- one schedule

  /** The workflow arguments for a tenant: the gardener always gets the tenant, a batch size
      of 50 and at most 10 batches; the harvest keeps `"all"` followed by the tenant, or
      appends the tenant to its configured arguments. */
  function WorkflowArgs(config: ScheduleConfig, tenantId: string): seq<Value> {
    var args := if config.args.Some? && config.args.value != [] then config.args.value else [];
    if config.workflowName == "GardenerWorkflow" then [VStr(tenantId), VInt(50), VInt(10)]
    else if config.workflowName == "HarvestWorkflow" then
      if args != [] && args[0] == VStr("all") then [VStr("all"), VStr(tenantId)]
      else args + [VStr(tenantId)]
    else args
  }

  /** The three argument shapes, as the schedule's workflow receives them. */
  lemma WorkflowArgsShape(config: ScheduleConfig, tenantId: string)
    ensures config.workflowName == "GardenerWorkflow" ==>
              WorkflowArgs(config, tenantId) == [VStr(tenantId), VInt(50), VInt(10)]
    ensures config.workflowName == "HarvestWorkflow" && config.args.Some? && config.args.value != [] &&
            config.args.value[0] == VStr("all") ==>
              WorkflowArgs(config, tenantId) == [VStr("all"), VStr(tenantId)]
    ensures config.workflowName == "HarvestWorkflow" &&
            !(config.args.Some? && config.args.value != [] && config.args.value[0] == VStr("all")) ==>
              WorkflowArgs(config, tenantId) == config.args.GetOr([]) + [VStr(tenantId)]
    ensures config.workflowName in KnownWorkflows ==> VStr(tenantId) in WorkflowArgs(config, tenantId)
  {
  }

  /** The id the schedule is created under. */
  function ScheduleId(config: ScheduleConfig, tenantId: string): string {
    config.scheduleId + "-" + tenantId
  }

  /** The id of the workflow each firing starts. */
  function ScheduledWorkflowId(config: ScheduleConfig, tenantId: string): string {
    Lower(config.workflowName) + "-scheduled-" + tenantId
  }

  /** For one tenant, the schedule id determines the configuration's id; for one
      configuration, it determines the tenant. */
  lemma {:induction false} ScheduleIdInjective(c1: ScheduleConfig, c2: ScheduleConfig, t1: string, t2: string)
    ensures t1 == t2 && ScheduleId(c1, t1) == ScheduleId(c2, t2) ==> c1.scheduleId == c2.scheduleId
    ensures c1.scheduleId == c2.scheduleId && ScheduleId(c1, t1) == ScheduleId(c2, t2) ==> t1 == t2
  {
    if t1 == t2 && ScheduleId(c1, t1) == ScheduleId(c2, t2) {
      AppendInjective(c1.scheduleId + "-", c2.scheduleId + "-", t1);
      AppendInjective(c1.scheduleId, c2.scheduleId, "-");
    }
    if c1.scheduleId == c2.scheduleId && ScheduleId(c1, t1) == ScheduleId(c2, t2) {
      var p := c1.scheduleId + "-";
      assert ScheduleId(c1, t1) == p + t1 && ScheduleId(c2, t2) == p + t2;
      assert t1 == (p + t1)[|p|..];
      assert t2 == (p + t2)[|p|..];
    }
  }

  /** What `create_schedule` asks the engine for. */
  datatype ScheduleRequest = ScheduleRequest(
    scheduleId: string,
    workflowName: string,
    args: seq<Value>,
    workflowId: string,
    taskQueue: string,
    cronExpressions: seq<string>)

  /** A `create_schedule` call: the id returned or the error raised, and the request made
      (none when the workflow name is unknown). */
  datatype Creation = Creation(result: Result<string, string>, request: Option<ScheduleRequest>)

  function UnknownWorkflow(name: string): string {
    "ValueError: Unknown workflow: " + name
  }

  /** Whether an engine error is the "already exists" one, case-insensitively. */
  function AlreadyExists(message: string): bool {
    HasSubstring(Lower(message), "already exists")
  }

  /** The two workflow modules `create_schedule` imports before anything else, outside any
      handler: the error each import raises, if it fails. */
  datatype WorkflowImports = WorkflowImports(harvestError: Option<string>, gardenerError: Option<string>)

  /** The error those imports let escape: the harvest module's when it fails (the gardener
      import is then never reached), otherwise the gardener module's. */
  function ImportFailure(imports: WorkflowImports): Option<string> {
    if imports.harvestError.Some? then imports.harvestError else imports.gardenerError
  }

  /** What `create_schedule` returns or raises, given the imports and the engine's answer. */
  function CreationResult(imports: WorkflowImports, config: ScheduleConfig, tenantId: string,
                          engineError: Option<string>): Result<string, string> {
    if ImportFailure(imports).Some? then Err(ImportFailure(imports).value)
    else if config.workflowName !in KnownWorkflows then Err(UnknownWorkflow(config.workflowName))
    else
      match engineError
      case None => Ok(ScheduleId(config, tenantId))
      case Some(e) => if AlreadyExists(e) then Ok(ScheduleId(config, tenantId)) else Err(e)
  }

  /** The request `create_schedule` makes of the engine, if it gets that far. */
  function CreationRequest(imports: WorkflowImports, config: ScheduleConfig, tenantId: string): (r: Option<ScheduleRequest>)
    ensures r.Some? ==> ImportFailure(imports).None? &&
                        r.value.workflowName == config.workflowName && config.workflowName in KnownWorkflows
  {
    if ImportFailure(imports).Some? || config.workflowName !in KnownWorkflows then None
    else Some(ScheduleRequest(ScheduleId(config, tenantId), config.workflowName, WorkflowArgs(config, tenantId),
                              ScheduledWorkflowId(config, tenantId), config.taskQueue, [config.cron]))
  }

  /** `create_schedule`. */
  function CreateSchedule(imports: WorkflowImports, config: ScheduleConfig, tenantId: string,
                          engineError: Option<string>): Creation {
    Creation(CreationResult(imports, config, tenantId, engineError), CreationRequest(imports, config, tenantId))
  }

  /** A workflow module that fails to import makes every call raise that import's error
      (the harvest module's first) before anything else, with no request. Otherwise an
      unknown workflow is refused before the engine is called, and a known one has the
      engine asked for exactly one schedule under the tenant-suffixed id, starting the
      tenant-suffixed workflow on the configured queue with the one cron expression; the
      call returns that id unless the engine raised something other than
      "already exists", which propagates unchanged. */
  lemma CreateScheduleSpec(imports: WorkflowImports, config: ScheduleConfig, tenantId: string,
                           engineError: Option<string>)
    ensures var c := CreateSchedule(imports, config, tenantId, engineError);
            imports.harvestError.Some? ==> c.result == Err(imports.harvestError.value) && c.request.None?
    ensures var c := CreateSchedule(imports, config, tenantId, engineError);
            imports.harvestError.None? && imports.gardenerError.Some? ==>
              c.result == Err(imports.gardenerError.value) && c.request.None?
    ensures var c := CreateSchedule(imports, config, tenantId, engineError);
            imports.harvestError.None? && imports.gardenerError.None? ==>
              (config.workflowName !in KnownWorkflows <==> c.request.None?) &&
              (config.workflowName !in KnownWorkflows ==> c.result == Err(UnknownWorkflow(config.workflowName)))
    ensures var c := CreateSchedule(imports, config, tenantId, engineError);
            c.request.Some? ==>
              c.request.value.scheduleId == config.scheduleId + "-" + tenantId &&
              c.request.value.workflowId == Lower(config.workflowName) + "-scheduled-" + tenantId &&
              c.request.value.taskQueue == config.taskQueue &&
              c.request.value.cronExpressions == [config.cron] &&
              c.request.value.args == WorkflowArgs(config, tenantId) &&
              (c.result.Ok? <==> engineError.None? || AlreadyExists(engineError.value)) &&
              (c.result.Ok? ==> c.result.value == c.request.value.scheduleId) &&
              (c.result.Err? ==> c.result == Err(engineError.value))
  {
  }

  /** Re-creating a schedule that exists is not an error: it returns the same id, and
      makes the same request, as a creation the engine accepted. */
  lemma AlreadyExistsIsIdempotent(imports: WorkflowImports, config: ScheduleConfig, tenantId: string, e: string)
    requires AlreadyExists(e)
    ensures CreateSchedule(imports, config, tenantId, Some(e)) == CreateSchedule(imports, config, tenantId, None)
  {
  }

  /** The test ignores case: a message and its lower-cased form are judged alike, and any
      message containing the lower-cased phrase, in whatever case, is recognised. */
  lemma AlreadyExistsIgnoresCase(e: string, sub: string)
    ensures AlreadyExists(Lower(e)) == AlreadyExists(e)
    ensures HasSubstring(e, sub) && Lower(sub) == "already exists" ==> AlreadyExists(e)
  {
    LowerIdempotent(e);
    LowerContains(e, sub);
  }

  /** Lowering keeps every occurrence, lowered. */
  lemma LowerContains(s: string, sub: string)
    ensures HasSubstring(s, sub) ==> HasSubstring(Lower(s), Lower(sub))
  {
    if HasSubstring(s, sub) {
      var i :| OccursAt(s, sub, i);
      forall k | 0 <= k < |sub|
        ensures Lower(s)[i..i + |sub|][k] == Lower(sub)[k]
      {
        assert s[i + k] == sub[k];
      }
      assert Lower(s)[i..i + |sub|] == Lower(sub);
      assert OccursAt(Lower(s), Lower(sub), i);
    }
  }

  // ---------------------------------------------------------------- all defaults

  /** `create_default_schedules` over a list of configurations: the ids of those created,
      in order; a configuration whose creation raised is skipped. */
  function CreatedIds(imports: WorkflowImports, configs: seq<ScheduleConfig>, tenantId: string, answers: nat -> Option<string>): seq<string>
    decreases |configs|
  {
    if configs == [] then []
    else
      var k := |configs| - 1;
      var earlier := CreatedIds(imports, configs[..k], tenantId, answers);
      match CreationResult(imports, configs[k], tenantId, answers(k))
      case Ok(id) => earlier + [id]
      case Err(_) => earlier
  }

  /** The requests the engine receives while the configurations are created, in order: one
      for each configuration whose workflow is known. */
  function Requests(imports: WorkflowImports, configs: seq<ScheduleConfig>, tenantId: string): (rs: seq<ScheduleRequest>)
    ensures |rs| <= |configs|
    decreases |configs|
  {
    if configs == [] then []
    else
      var k := |configs| - 1;
      var earlier := Requests(imports, configs[..k], tenantId);
      match CreationRequest(imports, configs[k], tenantId)
      case Some(r) => earlier + [r]
      case None => earlier
  }

  /** Every request is for a known workflow. */
  lemma {:induction false} RequestsKnown(imports: WorkflowImports, configs: seq<ScheduleConfig>, tenantId: string)
    ensures forall r :: r in Requests(imports, configs, tenantId) ==> r.workflowName in KnownWorkflows
    decreases |configs|
  {
    if configs != [] {
      var k := |configs| - 1;
      RequestsKnown(imports, configs[..k], tenantId);
      RequestsStep(imports, configs, tenantId, k, CreationRequest(imports, configs[k], tenantId));
      assert configs[..k + 1] == configs;
    }
  }

  /** Every configuration makes one request when both workflow modules import and all the
      configured workflows are known. */
  lemma {:induction false} RequestsComplete(imports: WorkflowImports, configs: seq<ScheduleConfig>, tenantId: string)
    requires ImportFailure(imports).None?
    requires forall i :: 0 <= i < |configs| ==> configs[i].workflowName in KnownWorkflows
    ensures |Requests(imports, configs, tenantId)| == |configs|
    decreases |configs|
  {
    if configs != [] {
      var k := |configs| - 1;
      assert forall i :: 0 <= i < k ==> configs[..k][i] == configs[i];
      RequestsComplete(imports, configs[..k], tenantId);
      RequestsStep(imports, configs, tenantId, k, CreationRequest(imports, configs[k], tenantId));
      assert configs[..k + 1] == configs;
    }
  }

  /** One more configuration adds `create_schedule`'s request for it, if that call makes one
      (both workflow modules import and its workflow is known). */
  lemma RequestsStep(imports: WorkflowImports, configs: seq<ScheduleConfig>, tenantId: string, k: nat,
                     r: Option<ScheduleRequest>)
    requires k < |configs| && r == CreationRequest(imports, configs[k], tenantId)
    ensures Requests(imports, configs[..k + 1], tenantId) ==
            Requests(imports, configs[..k], tenantId) + (if r.Some? then [r.value] else [])
  {
    assert configs[..k + 1][..k] == configs[..k] && configs[..k + 1][k] == configs[k];
  }

  /** One more configuration adds its id exactly when its creation returned one. */
  lemma CreatedIdsStep(imports: WorkflowImports, configs: seq<ScheduleConfig>, tenantId: string,
                       answers: nat -> Option<string>, k: nat, r: Result<string, string>)
    requires k < |configs| && r == CreationResult(imports, configs[k], tenantId, answers(k))
    ensures CreatedIds(imports, configs[..k + 1], tenantId, answers) ==
            CreatedIds(imports, configs[..k], tenantId, answers) + (if r.Ok? then [r.value] else [])
  {
    assert configs[..k + 1][..k] == configs[..k] && configs[..k + 1][k] == configs[k];
  }

  /** Every id returned is the tenant-suffixed id of a configuration, in configuration
      order, and there are at most as many as configurations. */
  lemma {:induction false} CreatedIdsSpec(imports: WorkflowImports, configs: seq<ScheduleConfig>, tenantId: string,
                                          answers: nat -> Option<string>)
    ensures |CreatedIds(imports, configs, tenantId, answers)| <= |configs|
    ensures forall id :: id in CreatedIds(imports, configs, tenantId, answers) ==>
              exists k :: 0 <= k < |configs| && id == ScheduleId(configs[k], tenantId)
    decreases |configs|
  {
    if configs != [] {
      var k := |configs| - 1;
      CreatedIdsSpec(imports, configs[..k], tenantId, answers);
      forall id | id in CreatedIds(imports, configs, tenantId, answers)
        ensures exists j :: 0 <= j < |configs| && id == ScheduleId(configs[j], tenantId)
      {
        if id in CreatedIds(imports, configs[..k], tenantId, answers) {
          var j :| 0 <= j < k && id == ScheduleId(configs[..k][j], tenantId);
          assert configs[..k][j] == configs[j];
        }
      }
    }
  }

  /** A workflow module that fails to import makes every creation raise, so no request
      reaches the engine and no id is reported, whatever the configurations. */
  lemma {:induction false} ImportFailureStopsAll(imports: WorkflowImports, configs: seq<ScheduleConfig>,
                                                 tenantId: string, answers: nat -> Option<string>)
    requires ImportFailure(imports).Some?
    ensures CreatedIds(imports, configs, tenantId, answers) == []
    ensures Requests(imports, configs, tenantId) == []
    decreases |configs|
  {
    if configs != [] {
      var k := |configs| - 1;
      ImportFailureStopsAll(imports, configs[..k], tenantId, answers);
    }
  }

  /** When both workflow modules import and the engine accepts every default (or says each
      already exists), both default schedules are reported, harvest first; when either
      module fails to import, none is. */
  lemma DefaultSchedulesCreated(imports: WorkflowImports, tenantId: string, answers: nat -> Option<string>)
    requires forall k: nat :: answers(k).None? || AlreadyExists(answers(k).value)
    ensures ImportFailure(imports).None? ==>
              CreatedIds(imports, DefaultSchedules, tenantId, answers) ==
              [ScheduleId(HarvesterDaily, tenantId), ScheduleId(GardenerEvery5Min, tenantId)]
    ensures ImportFailure(imports).Some? ==> CreatedIds(imports, DefaultSchedules, tenantId, answers) == []
  {
    if ImportFailure(imports).Some? {
      ImportFailureStopsAll(imports, DefaultSchedules, tenantId, answers);
      return;
    }
    assert DefaultSchedules[..1] == [HarvesterDaily];
    assert [HarvesterDaily][..0] == [];
    assert CreatedIds(imports, [], tenantId, answers) == [];
    assert CreationResult(imports, HarvesterDaily, tenantId, answers(0)) == Ok(ScheduleId(HarvesterDaily, tenantId));
    assert CreationResult(imports, GardenerEvery5Min, tenantId, answers(1)) == Ok(ScheduleId(GardenerEvery5Min, tenantId));
    assert CreatedIds(imports, [HarvesterDaily], tenantId, answers) == [ScheduleId(HarvesterDaily, tenantId)];
  }

  /** The requests made for the defaults carry the per-workflow arguments. */
  lemma DefaultArgs(tenantId: string)
    ensures WorkflowArgs(HarvesterDaily, tenantId) == [VStr("all"), VStr(tenantId)]
    ensures WorkflowArgs(GardenerEvery5Min, tenantId) == [VStr(tenantId), VInt(50), VInt(10)]
  {
  }

  /** The tenant `create_default_schedules` uses: the argument, else the environment's
      `TENANT_ID`, else `default`. */
  function DefaultTenant(tenantId: Option<string>, envTenant: Option<string>): string {
    if tenantId.Some? then tenantId.value else envTenant.GetOr("default")
  }

  /** The creation loop for one tenant. */
  method CreateAll(imports: WorkflowImports, configs: seq<ScheduleConfig>, tenant: string, answers: nat -> Option<string>)
    returns (ids: seq<string>, requests: seq<ScheduleRequest>)
    ensures ids == CreatedIds(imports, configs, tenant, answers)
    ensures requests == Requests(imports, configs, tenant)
  {
    ids, requests := [], [];
    var k := 0;
    while k < |configs|
      invariant 0 <= k <= |configs|
      invariant ids == CreatedIds(imports, configs[..k], tenant, answers)
      invariant requests == Requests(imports, configs[..k], tenant)
    {
      var result := CreationResult(imports, configs[k], tenant, answers(k));
      var request := CreationRequest(imports, configs[k], tenant);
      CreatedIdsStep(imports, configs, tenant, answers, k, result);
      RequestsStep(imports, configs, tenant, k, request);
      ids := ids + (if result.Ok? then [result.value] else []);
      requests := requests + (if request.Some? then [request.value] else []);
      k := k + 1;
    }
    assert configs[..k] == configs;
  }

  /** `create_default_schedules`: one creation per configuration, in order, keeping the ids
      of those that did not raise. The requests the engine received are returned too. */
  method CreateDefaultSchedules(imports: WorkflowImports, configs: seq<ScheduleConfig>, tenantId: Option<string>,
                                envTenant: Option<string>, answers: nat -> Option<string>)
    returns (ids: seq<string>, requests: seq<ScheduleRequest>)
    ensures ids == CreatedIds(imports, configs, DefaultTenant(tenantId, envTenant), answers)
    ensures requests == Requests(imports, configs, DefaultTenant(tenantId, envTenant))
  {
    ids, requests := CreateAll(imports, configs, DefaultTenant(tenantId, envTenant), answers);
  }

  // ---------------------------------------------------------------- handle operations

  datatype HandleAction = Delete | Pause | Unpause

  /** `delete_schedule`, `pause_schedule` and `unpause_schedule`: the operation is attempted
      on the schedule's handle, and the flag reports whether it raised. */
  function HandleOperation(action: HandleAction, scheduleId: string, engineError: Option<string>): (ok: bool)
    ensures ok <==> engineError.None?
  {
    match engineError
    case None => true
    case Some(_) => false
  }
}
