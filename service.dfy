/** The worker's gRPC service: `StartWorkflow` reads a workflow type from the request's
    payload, routes it to one workflow with its arguments, its workflow ID and its task
    queue, starts it on the engine through a client connected on first use, and answers
    with the payload extended by the workflow and run IDs; an unknown type or a missing
    optional module sets an error status on the call and answers with the request as it
    came, while a harvest or gardener module that fails to import lets its exception escape. The
    engine is a parameter: the run ID it assigns to a started workflow. */
module Service {
  import opened Common

  /** The gRPC status codes the service sets. */
  datatype StatusCode = InvalidArgument | Unavailable | Unimplemented

  /** How a call is refused: a status set on the call, with its details text, or an
      exception that escapes the handler. */
  datatype Failure = Failure(code: StatusCode, details: string) | Raised(error: string)

  /** A `start_workflow` call: the workflow's `run`, its arguments, its ID and its queue. */
  datatype Start = Start(workflow: string, args: seq<Value>, id: string, queue: string)

  /** Whether the workflow modules import. The harvest and gardener imports are not guarded,
      so their `ImportError` (its message given here) escapes the handler; the sync module
      is optional and its absence is answered with a status. */
  datatype Modules = Modules(harvestError: Option<string>, gardenerError: Option<string>, syncInstalled: bool)

  /** `payload.get("workflow_type")`. */
  function WorkflowType(payload: map<string, Value>): Value {
    Get(payload, "workflow_type", VNull)
  }

  /** `payload.get("tenant_id", "default")`. */
  function TenantOf(payload: map<string, Value>): (t: Value)
    ensures "tenant_id" !in payload ==> t == VStr("default")
    ensures "tenant_id" in payload ==> t == payload["tenant_id"]
  {
    Get(payload, "tenant_id", VStr("default"))
  }

  /** The workflow a payload selects, or how the call is refused. Identifiers are formatted
      with `str()` of the payload values. */
  function Route(payload: map<string, Value>, render: Render, mods: Modules): Result<Start, Failure> {
    var wt := WorkflowType(payload);
    var tenant := TenantOf(payload);
    if wt == VStr("harvest") then
      if mods.harvestError.Some? then Err(Raised(mods.harvestError.value))
      else
        var supplier := Get(payload, "supplier_code", VNull);
        Ok(Start("HarvestWorkflow", [supplier, tenant],
                 "harvest-" + PyStr(supplier, render) + "-" + PyStr(tenant, render), "harvest-tasks"))
    else if wt == VStr("gardener") then
      if mods.gardenerError.Some? then Err(Raised(mods.gardenerError.value))
      else
        var batch := Get(payload, "batch_size", VInt(50));
        Ok(Start("GardenerWorkflow", [tenant, batch], "gardener-" + PyStr(tenant, render), "gardener-tasks"))
    else if wt == VStr("sync") then
      if !mods.syncInstalled then Err(Failure(Unavailable, "Sync module not installed"))
      else
        var channel := Get(payload, "channel", VStr("horoshop"));
        Ok(Start("SyncWorkflow", [channel, tenant],
                 "sync-" + PyStr(channel, render) + "-" + PyStr(tenant, render), "sync-tasks"))
    else
      Err(Failure(InvalidArgument, "Unknown workflow type: " + PyStr(wt, render)))
  }

  /** Exactly three workflow types start a workflow, each only when its module imports;
      each goes to its own queue. */
  lemma RouteTable(payload: map<string, Value>, render: Render, mods: Modules)
    ensures var wt := WorkflowType(payload);
            Route(payload, render, mods).Ok? <==>
              || (wt == VStr("harvest") && mods.harvestError.None?)
              || (wt == VStr("gardener") && mods.gardenerError.None?)
              || (wt == VStr("sync") && mods.syncInstalled)
    ensures var r := Route(payload, render, mods);
            r.Ok? ==>
              && (WorkflowType(payload) == VStr("harvest") <==> r.value.queue == "harvest-tasks")
              && (WorkflowType(payload) == VStr("gardener") <==> r.value.queue == "gardener-tasks")
              && (WorkflowType(payload) == VStr("sync") <==> r.value.queue == "sync-tasks")
              && TenantOf(payload) in r.value.args
  {
  }

  /** A harvest or gardener module that fails to import lets its `ImportError` escape: no
      workflow starts and no status is set; only the sync module's absence is answered. */
  lemma WorkflowImportEscapes(payload: map<string, Value>, render: Render, mods: Modules)
    ensures var wt := WorkflowType(payload);
            var r := Route(payload, render, mods);
            (r.Err? && r.error.Raised?) <==>
              || (wt == VStr("harvest") && mods.harvestError.Some?)
              || (wt == VStr("gardener") && mods.gardenerError.Some?)
    ensures var wt := WorkflowType(payload);
            wt == VStr("harvest") && mods.harvestError.Some? ==>
              Route(payload, render, mods) == Err(Raised(mods.harvestError.value))
    ensures var wt := WorkflowType(payload);
            wt == VStr("gardener") && mods.gardenerError.Some? ==>
              Route(payload, render, mods) == Err(Raised(mods.gardenerError.value))
  {
  }

  /** `harvest` passes the supplier and the tenant, and its ID names both; a missing
      supplier code is passed as null and reads `None` in the ID. */
  lemma HarvestRoute(payload: map<string, Value>, render: Render, mods: Modules)
    requires WorkflowType(payload) == VStr("harvest") && mods.harvestError.None?
    ensures var supplier := Get(payload, "supplier_code", VNull);
            var tenant := TenantOf(payload);
            && Route(payload, render, mods).Ok?
            && Route(payload, render, mods).value.args == [supplier, tenant]
            && Route(payload, render, mods).value.id ==
               "harvest-" + PyStr(supplier, render) + "-" + PyStr(tenant, render)
            && ("supplier_code" !in payload ==>
                  StartsWith(Route(payload, render, mods).value.id, "harvest-None-"))
  {
    var supplier := Get(payload, "supplier_code", VNull);
    var id := Route(payload, render, mods).value.id;
    if "supplier_code" !in payload {
      assert id == "harvest-None-" + PyStr(TenantOf(payload), render);
      assert id[..|"harvest-None-"|] == "harvest-None-";
    }
  }

  /** `gardener` defaults the batch size to 50 and its ID names only the tenant. */
  lemma GardenerRoute(payload: map<string, Value>, render: Render, mods: Modules)
    requires WorkflowType(payload) == VStr("gardener") && mods.gardenerError.None?
    ensures var r := Route(payload, render, mods);
            && r.Ok? && r.value.workflow == "GardenerWorkflow"
            && r.value.id == "gardener-" + PyStr(TenantOf(payload), render)
            && ("batch_size" !in payload ==> r.value.args == [TenantOf(payload), VInt(50)])
  {
  }

  /** `sync` defaults the channel to `horoshop` (the tenant to `default`), and without the
      sync module the call ends UNAVAILABLE. */
  lemma SyncRoute(payload: map<string, Value>, render: Render, mods: Modules)
    requires WorkflowType(payload) == VStr("sync")
    ensures !mods.syncInstalled ==> Route(payload, render, mods) == Err(Failure(Unavailable, "Sync module not installed"))
    ensures mods.syncInstalled && "channel" !in payload && "tenant_id" !in payload ==>
              Route(payload, render, mods) ==
              Ok(Start("SyncWorkflow", [VStr("horoshop"), VStr("default")], "sync-horoshop-default", "sync-tasks"))
  {
    assert "sync-" + "horoshop" + "-" + "default" == "sync-horoshop-default";
  }

  /** Any other workflow type, including a missing one, ends INVALID_ARGUMENT. */
  lemma UnknownTypeRejected(payload: map<string, Value>, render: Render, mods: Modules)
    requires WorkflowType(payload) !in {VStr("harvest"), VStr("gardener"), VStr("sync")}
    ensures var r := Route(payload, render, mods);
            && r.Err? && r.error.Failure? && r.error.code == InvalidArgument
            && StartsWith(r.error.details, "Unknown workflow type: ")
            && ("workflow_type" !in payload ==> r.error.details == "Unknown workflow type: None")
  {
    var d := Route(payload, render, mods).error.details;
    assert d[..|"Unknown workflow type: "|] == "Unknown workflow type: ";
  }

  /** How `StartWorkflow` ends: it answers, with a status set on the call or not, or an
      exception escapes it. */
  datatype Reply = Answered(answer: map<string, Value>, status: Option<Failure>) | Escaped(error: string)

  /** The reply of `StartWorkflow`: on a start, the payload with the workflow ID and the
      engine's run ID added; on a status, the request unchanged; otherwise the exception. */
  function Answer(payload: map<string, Value>, route: Result<Start, Failure>, runIdOf: Start -> string)
    : (a: Reply)
    ensures route.Err? && route.error.Raised? ==> a == Escaped(route.error.error)
    ensures route.Err? && route.error.Failure? ==> a == Answered(payload, Some(route.error))
    ensures route.Ok? ==> a.Answered? && a.status.None? && a.answer.Keys == payload.Keys + {"workflow_id", "run_id"}
    ensures route.Ok? ==> a.Answered? && a.answer["workflow_id"] == VStr(route.value.id) &&
                          a.answer["run_id"] == VStr(runIdOf(route.value))
    ensures route.Ok? ==> a.Answered? &&
                          forall k :: k in payload && k != "workflow_id" && k != "run_id" ==> a.answer[k] == payload[k]
  {
    match route
    case Err(Raised(e)) => Escaped(e)
    case Err(f) => Answered(payload, Some(f))
    case Ok(s) => Answered(payload["workflow_id" := VStr(s.id)]["run_id" := VStr(runIdOf(s))], None)
  }

  /** The call context: the status code and details set on it, if any. */
  class CallContext {
    var code: Option<StatusCode>
    var details: Option<string>

    constructor ()
      ensures code.None? && details.None?
    {
      code, details := None, None;
    }
  }

  /** A connected engine client; `serial` tells connections apart. */
  datatype Client = Client(host: string, serial: nat)

  class WorkerService {
    const temporalHost: string
    var client: Option<Client>
    /** How many times the service has connected to the engine. */
    var connections: nat

    constructor (temporalHost: string)
      ensures this.temporalHost == temporalHost && client.None? && connections == 0
    {
      this.temporalHost := temporalHost;
      client := None;
      connections := 0;
    }

    /** `get_client`: connects on the first call only, and returns the same client after. */
    method GetClient() returns (c: Client)
      modifies this
      ensures old(client).Some? ==> c == old(client).value && connections == old(connections)
      ensures old(client).None? ==> c == Client(temporalHost, old(connections)) && connections == old(connections) + 1
      ensures client == Some(c)
    {
      if client.None? {
        client := Some(Client(temporalHost, connections));
        connections := connections + 1;
      }
      c := client.value;
    }

    /** `StartWorkflow`: the client is obtained before routing, whatever the type. The
        result is the answer, or the exception that escapes the handler. */
    method StartWorkflow(payload: map<string, Value>, ctx: CallContext, render: Render, mods: Modules,
                         runIdOf: Start -> string) returns (r: Result<map<string, Value>, string>)
      modifies this, ctx
      ensures match Answer(payload, Route(payload, render, mods), runIdOf)
              case Escaped(e) => r == Err(e) && ctx.code == old(ctx.code) && ctx.details == old(ctx.details)
              case Answered(a, status) =>
                && r == Ok(a)
                && (status.None? ==> ctx.code == old(ctx.code) && ctx.details == old(ctx.details))
                && (status.Some? ==> ctx.code == Some(status.value.code) && ctx.details == Some(status.value.details))
      ensures client.Some? && connections == old(connections) + (if old(client).None? then 1 else 0)
    {
      var c := GetClient();
      var route := Route(payload, render, mods);
      if route.Err? {
        match route.error {
          case Raised(e) =>
            r := Err(e);
          case Failure(code, details) =>
            ctx.code := Some(code);
            ctx.details := Some(details);
            r := Ok(payload);
        }
        return;
      }
      var start := route.value;
      var runId := runIdOf(start);
      r := Ok(payload["workflow_id" := VStr(start.id)]["run_id" := VStr(runId)]);
    }

    /** `GetTaskStatus`: not implemented; the request comes back unchanged. */
    method GetTaskStatus(payload: map<string, Value>, ctx: CallContext) returns (answer: map<string, Value>)
      modifies ctx
      ensures answer == payload && ctx.code == Some(Unimplemented) && ctx.details == old(ctx.details)
    {
      ctx.code := Some(Unimplemented);
      answer := payload;
    }
  }

  /** Two calls on a fresh service connect once and use the same client. */
  method ConnectsOnce(host: string) returns (c1: Client, c2: Client, connections: nat)
    ensures c1 == c2 && c1.host == host && connections == 1
  {
    var s := new WorkerService(host);
    c1 := s.GetClient();
    c2 := s.GetClient();
    connections := s.connections;
  }
}
