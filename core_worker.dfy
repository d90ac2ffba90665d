/** Worker bootstrap: from the registry's queue groups and an optional module-name filter,
    plan one worker per task queue, then connect, run the workers jointly and keep a
    service-discovery heartbeat for as long as they run. The engine connection, the
    heartbeat service and the joint run are effects recorded in a list; the process
    environment is a parameter. */
module CoreWorker {
  import opened Common
  import opened CoreRegistry

  /** A worker to build: its queue and the workflows and activities it serves. */
  datatype WorkerPlan = WorkerPlan(queue: string, workflows: seq<string>, activities: seq<string>)

  /** What the heartbeat registration announces. */
  datatype Announcement = Announcement(instance: string, endpoint: string, tenants: seq<string>,
                                       queues: seq<string>, workerCount: nat)

  /** The externally visible steps of `run_workers`, in the order they happen. */
  datatype Effect =
    | WarnMissing(name: string)
    | ReportNothingToRun
    | Connect(host: Option<string>)
    | CreateWorker(plan: WorkerPlan)
    | ReportNoWorkers
    | RegisterHeartbeat(announcement: Announcement)
    | RunAll(count: nat)
    | CancelHeartbeat

  /** How `run_workers` ends: the two "valid empty" returns, a connection failure that
      propagates, or the joint run, which propagates a worker's fault when `raised`. */
  datatype RunOutcome = NothingToRun | ConnectFailed | NoWorkers | Ran(raised: bool)

  /** A filter restricts the modules only when it is a non-empty list. */
  predicate FilterActive(filter: Option<seq<string>>) {
    filter.Some? && filter.value != []
  }

  /** The filtered members of one queue, in order. */
  function Selected(ms: seq<ModuleConfig>, filter: Option<seq<string>>): seq<ModuleConfig>
    decreases |ms|
  {
    if !FilterActive(filter) || ms == [] then ms
    else
      var k := |ms| - 1;
      Selected(ms[..k], filter) + (if ms[k].name in filter.value then [ms[k]] else [])
  }

  /** The concatenated workflows of a list of modules. */
  function AllWorkflows(ms: seq<ModuleConfig>): seq<string>
    decreases |ms|
  {
    if ms == [] then [] else AllWorkflows(ms[..|ms| - 1]) + ms[|ms| - 1].workflows
  }

  /** The concatenated activities of a list of modules. */
  function AllActivities(ms: seq<ModuleConfig>): seq<string>
    decreases |ms|
  {
    if ms == [] then [] else AllActivities(ms[..|ms| - 1]) + ms[|ms| - 1].activities
  }

  /** The worker planned for one queue, if it would serve anything. */
  function PlanFor(q: string, ms: seq<ModuleConfig>, filter: Option<seq<string>>): seq<WorkerPlan> {
    var sel := Selected(ms, filter);
    if AllWorkflows(sel) != [] || AllActivities(sel) != []
    then [WorkerPlan(q, AllWorkflows(sel), AllActivities(sel))]
    else []
  }

  /** The members of queue `q` (every queue of a grouping has an entry). */
  function MembersOf(g: QueueMap, q: string): seq<ModuleConfig> {
    if q in g.members then g.members[q] else []
  }

  /** The workers planned for the queues `qs` of grouping `g`, in their order. */
  function PlanQueues(g: QueueMap, qs: seq<string>, filter: Option<seq<string>>): seq<WorkerPlan>
    decreases |qs|
  {
    if qs == [] then []
    else
      var k := |qs| - 1;
      PlanQueues(g, qs[..k], filter) + PlanFor(qs[k], MembersOf(g, qs[k]), filter)
  }

  function Plan(g: QueueMap, filter: Option<seq<string>>): seq<WorkerPlan> {
    PlanQueues(g, g.queues, filter)
  }

  function QueuesOf(plans: seq<WorkerPlan>): (qs: seq<string>)
    ensures |qs| == |plans| && forall i :: 0 <= i < |plans| ==> qs[i] == plans[i].queue
  {
    if plans == [] then [] else QueuesOf(plans[..|plans| - 1]) + [plans[|plans| - 1].queue]
  }

  /** The names in an active filter that no registered module carries, in filter order. */
  function MissingNames(filter: Option<seq<string>>, registered: seq<string>): (r: seq<string>)
    ensures forall n :: n in r <==> FilterActive(filter) && n in filter.value && n !in registered
  {
    if !FilterActive(filter) then [] else MissingFrom(filter.value, registered)
  }

  function MissingFrom(names: seq<string>, registered: seq<string>): (r: seq<string>)
    ensures forall n :: n in r <==> n in names && n !in registered
    decreases |names|
  {
    if names == [] then []
    else
      var k := |names| - 1;
      MissingFrom(names[..k], registered) + (if names[k] in registered then [] else [names[k]])
  }

  function Warnings(names: seq<string>): (es: seq<Effect>)
    ensures |es| == |names|
    ensures forall i :: 0 <= i < |es| ==> es[i] == WarnMissing(names[i])
  {
    if names == [] then [] else Warnings(names[..|names| - 1]) + [WarnMissing(names[|names| - 1])]
  }

  function Creations(plans: seq<WorkerPlan>): (es: seq<Effect>)
    ensures |es| == |plans|
    ensures forall i :: 0 <= i < |es| ==> es[i] == CreateWorker(plans[i])
  {
    if plans == [] then [] else Creations(plans[..|plans| - 1]) + [CreateWorker(plans[|plans| - 1])]
  }

  function NamesOf(ms: seq<ModuleConfig>): (ns: seq<string>)
    ensures |ns| == |ms| && forall i :: 0 <= i < |ms| ==> ns[i] == ms[i].name
  {
    if ms == [] then [] else NamesOf(ms[..|ms| - 1]) + [ms[|ms| - 1].name]
  }

  // ------------------------------------------------------------------ the heartbeat

  /** The non-blank, stripped entries of a comma-separated list; an empty string gives none. */
  function ParseTenants(raw: string): seq<string> {
    if raw == "" then [] else KeepNonBlank(Split(raw, ','))
  }

  function KeepNonBlank(parts: seq<string>): seq<string>
    decreases |parts|
  {
    if parts == [] then []
    else
      var k := |parts| - 1;
      KeepNonBlank(parts[..k]) + (if Strip(parts[k]) != "" then [Strip(parts[k])] else [])
  }

  /** Every announced tenant is a non-empty, comma-free name without surrounding blanks. */
  lemma {:induction false} KeepNonBlankSpec(parts: seq<string>)
    requires forall k :: 0 <= k < |parts| ==> ',' !in parts[k]
    ensures forall t :: t in KeepNonBlank(parts) ==>
              t != "" && ',' !in t && !IsSpace(t[0]) && !IsSpace(t[|t| - 1])
    decreases |parts|
  {
    if parts != [] {
      var k := |parts| - 1;
      KeepNonBlankSpec(parts[..k]);
    }
  }

  lemma ParseTenantsSpec(raw: string)
    ensures forall t :: t in ParseTenants(raw) ==>
              t != "" && ',' !in t && !IsSpace(t[0]) && !IsSpace(t[|t| - 1])
  {
    if raw != "" {
      KeepNonBlankSpec(Split(raw, ','));
    }
  }

  /** A part holding only a file-separator control character is blank to `str.strip()`,
      so `"a,\x1c"` announces the one tenant `a`. */
  lemma ParseTenantsControlIsBlank()
    ensures ParseTenants(['a', ',', 28 as char]) == ["a"]
  {
    var raw := ['a', ',', 28 as char];
    assert IndexOf(raw, ',') == 1;
    assert raw[..1] == "a" && raw[2..] == [28 as char];
    assert ',' !in [28 as char];
    assert Split([28 as char], ',') == [[28 as char]];
    assert Split(raw, ',') == ["a", [28 as char]];
    assert LeadingSpaces([28 as char]) == 1;
    assert Strip([28 as char]) == [];
    assert LeadingSpaces("a") == 0 && TrailingSpaces("a") == 0;
    assert Strip("a") == "a";
    var parts := ["a", [28 as char]];
    assert parts[..1] == ["a"] && ["a"][..0] == [];
    assert KeepNonBlank(["a"]) == ["a"];
    assert KeepNonBlank(parts) == KeepNonBlank(["a"]);
  }

  /** The heartbeat's announcement: instance name and tenants from the environment, the
      endpoint from the argument, else the environment, else the engine's default port. */
  function Announce(env: map<string, string>, host: Option<string>, queues: seq<string>, count: nat): (a: Announcement)
    ensures a.queues == queues && a.workerCount == count
    ensures a.instance == (if "WORKER_INSTANCE_NAME" in env then env["WORKER_INSTANCE_NAME"] else "default")
    ensures Truthy(host) ==> a.endpoint == host.value
    ensures !Truthy(host) && "TEMPORAL_HOST" !in env ==> a.endpoint == "localhost:7233"
    ensures "WORKER_TENANTS" !in env ==> a.tenants == []
    ensures "WORKER_TENANTS" in env ==> a.tenants == ParseTenants(env["WORKER_TENANTS"])
  {
    var instance := if "WORKER_INSTANCE_NAME" in env then env["WORKER_INSTANCE_NAME"] else "default";
    var endpoint := if Truthy(host) then host.value
                    else if "TEMPORAL_HOST" in env then env["TEMPORAL_HOST"] else "localhost:7233";
    var raw := if "WORKER_TENANTS" in env then env["WORKER_TENANTS"] else "";
    Announcement(instance, endpoint, ParseTenants(raw), queues, count)
  }

  // ------------------------------------------------------------------ the whole call

  /** Everything after the warnings, given the queue names of the grouping and the plan. */
  function Tail(queues: seq<string>, plans: seq<WorkerPlan>, host: Option<string>, env: map<string, string>,
                connectOk: bool, heartbeatOk: bool, workersFault: bool): (RunOutcome, seq<Effect>)
  {
    if queues == [] then (NothingToRun, [ReportNothingToRun])
    else if !connectOk then (ConnectFailed, [Connect(host)])
    else if plans == [] then (NoWorkers, [Connect(host), ReportNoWorkers])
    else
      var beat := RegisterHeartbeat(Announce(env, host, queues, |plans|));
      (Ran(workersFault),
       [Connect(host)] + Creations(plans)
       + (if heartbeatOk then [beat] else [])
       + [RunAll(|plans|)]
       + (if heartbeatOk then [CancelHeartbeat] else []))
  }

  /** `run_workers` after discovery, over the registered modules `all`, the filter, the
      endpoint and environment, and the outside world's answers: whether the engine accepts
      the connection, whether heartbeat registration succeeds, whether a worker faults. */
  function RunSpec(all: seq<ModuleConfig>, filter: Option<seq<string>>, host: Option<string>,
                   env: map<string, string>, connectOk: bool, heartbeatOk: bool,
                   workersFault: bool): (RunOutcome, seq<Effect>)
  {
    var g := GroupByQueue(EnabledOf(all));
    var t := Tail(g.queues, Plan(g, filter), host, env, connectOk, heartbeatOk, workersFault);
    (t.0, Warnings(MissingNames(filter, NamesOf(all))) + t.1)
  }

  // ------------------------------------------------------------------ properties

  lemma {:induction false} GroupByQueueEmpty(ms: seq<ModuleConfig>)
    ensures GroupByQueue(ms).queues == [] <==> ms == []
  {
    GroupByQueueSpec(ms);
    if ms != [] {
      assert ms[0] in ms;
      assert ms[0].queue in GroupByQueue(ms).queues;
    }
  }

  lemma {:induction false} EnabledOfNone(ms: seq<ModuleConfig>)
    requires forall m :: m in ms ==> !m.enabled
    ensures EnabledOf(ms) == []
    decreases |ms|
  {
    if ms != [] {
      var k := |ms| - 1;
      assert forall m :: m in ms[..k] ==> m in ms;
      assert ms[k] in ms;
      EnabledOfNone(ms[..k]);
    }
  }

  /** With no enabled module the call returns before any connection is made. */
  lemma NoEnabledModulesNoConnect(all: seq<ModuleConfig>, filter: Option<seq<string>>, host: Option<string>,
                                  env: map<string, string>, connectOk: bool, heartbeatOk: bool, workersFault: bool)
    requires forall m :: m in all ==> !m.enabled
    ensures var (o, es) := RunSpec(all, filter, host, env, connectOk, heartbeatOk, workersFault);
            o == NothingToRun && forall e :: e in es ==> !e.Connect?
  {
    EnabledOfNone(all);
  }

  /** The heartbeat is registered exactly when the workers run and registration succeeds,
      and a registered heartbeat is cancelled as the very last step, right after the run. */
  lemma TailHeartbeat(queues: seq<string>, plans: seq<WorkerPlan>, host: Option<string>, env: map<string, string>,
                      connectOk: bool, heartbeatOk: bool, workersFault: bool)
    ensures var (o, es) := Tail(queues, plans, host, env, connectOk, heartbeatOk, workersFault);
            (o.Ran? <==> queues != [] && connectOk && plans != []) &&
            ((exists i :: 0 <= i < |es| && es[i].RegisterHeartbeat?) <==> o.Ran? && heartbeatOk) &&
            (CancelHeartbeat in es <==> o.Ran? && heartbeatOk) &&
            (o.Ran? && heartbeatOk ==> |es| >= 2 && es[|es| - 1] == CancelHeartbeat && es[|es| - 2] == RunAll(|plans|))
  {
    var (o, es) := Tail(queues, plans, host, env, connectOk, heartbeatOk, workersFault);
    if o.Ran? {
      var creates := Creations(plans);
      var beat := RegisterHeartbeat(Announce(env, host, queues, |plans|));
      if heartbeatOk {
        assert es == [Connect(host)] + creates + [beat] + [RunAll(|plans|)] + [CancelHeartbeat];
        assert es[1 + |creates|] == beat;
      } else {
        assert es == [Connect(host)] + creates + [RunAll(|plans|)];
        assert forall i :: 0 <= i < |es| ==> es[i] == Connect(host) || es[i] == RunAll(|plans|) || es[i].CreateWorker? by {
          forall i | 0 <= i < |es|
            ensures es[i] == Connect(host) || es[i] == RunAll(|plans|) || es[i].CreateWorker?
          {
            if 1 <= i < 1 + |creates| { assert es[i] == creates[i - 1]; }
          }
        }
      }
    }
  }

  /** Warnings in front of a tail hide none of the tail's heartbeat steps and add none. */
  lemma WarningsThenTail(warned: seq<Effect>, tail: seq<Effect>)
    requires forall i :: 0 <= i < |warned| ==> warned[i].WarnMissing?
    ensures (exists i :: 0 <= i < |warned + tail| && (warned + tail)[i].RegisterHeartbeat?) <==>
            (exists i :: 0 <= i < |tail| && tail[i].RegisterHeartbeat?)
    ensures CancelHeartbeat in warned + tail <==> CancelHeartbeat in tail
    ensures |tail| >= 2 ==> (warned + tail)[|warned + tail| - 1] == tail[|tail| - 1] &&
                            (warned + tail)[|warned + tail| - 2] == tail[|tail| - 2]
  {
    var es := warned + tail;
    if exists i :: 0 <= i < |es| && es[i].RegisterHeartbeat? {
      var i :| 0 <= i < |es| && es[i].RegisterHeartbeat?;
      assert es[i] == tail[i - |warned|];
    }
    if exists i :: 0 <= i < |tail| && tail[i].RegisterHeartbeat? {
      var i :| 0 <= i < |tail| && tail[i].RegisterHeartbeat?;
      assert es[|warned| + i] == tail[i];
    }
    if CancelHeartbeat in es {
      var i :| 0 <= i < |es| && es[i] == CancelHeartbeat;
      assert es[i] == tail[i - |warned|];
    }
  }

  /** The whole call: warnings come first, one per unknown filter name, and the heartbeat is
      cancelled after the run exactly when it was registered. */
  lemma RunHeartbeat(all: seq<ModuleConfig>, filter: Option<seq<string>>, host: Option<string>,
                     env: map<string, string>, connectOk: bool, heartbeatOk: bool, workersFault: bool)
    ensures var (o, es) := RunSpec(all, filter, host, env, connectOk, heartbeatOk, workersFault);
            var missing := MissingNames(filter, NamesOf(all));
            |missing| <= |es| &&
            (forall i :: 0 <= i < |missing| ==> es[i] == WarnMissing(missing[i])) &&
            ((exists i :: 0 <= i < |es| && es[i].RegisterHeartbeat?) <==> o.Ran? && heartbeatOk) &&
            (CancelHeartbeat in es <==> o.Ran? && heartbeatOk) &&
            (o.Ran? && heartbeatOk ==> es[|es| - 1] == CancelHeartbeat && es[|es| - 2].RunAll?)
  {
    var g := GroupByQueue(EnabledOf(all));
    var plans := Plan(g, filter);
    var (o, tail) := Tail(g.queues, plans, host, env, connectOk, heartbeatOk, workersFault);
    TailHeartbeat(g.queues, plans, host, env, connectOk, heartbeatOk, workersFault);
    var warned := Warnings(MissingNames(filter, NamesOf(all)));
    WarningsThenTail(warned, tail);
    assert RunSpec(all, filter, host, env, connectOk, heartbeatOk, workersFault) == (o, warned + tail);
  }

  lemma {:induction false} SelectedMembers(ms: seq<ModuleConfig>, filter: Option<seq<string>>)
    requires FilterActive(filter)
    ensures forall m :: m in Selected(ms, filter) <==> m in ms && m.name in filter.value
    decreases |ms|
  {
    if ms != [] {
      var k := |ms| - 1;
      SelectedMembers(ms[..k], filter);
      assert ms == ms[..k] + [ms[k]];
    }
  }

  /** Adding a name no module carries to an active filter changes only the warnings:
      the same members are selected, hence the same workers planned. */
  lemma {:induction false} UnknownNameOnlyWarns(ms: seq<ModuleConfig>, f: seq<string>, u: string)
    requires f != []
    requires forall m :: m in ms ==> m.name != u
    ensures Selected(ms, Some(f + [u])) == Selected(ms, Some(f))
    decreases |ms|
  {
    if ms != [] {
      var k := |ms| - 1;
      assert ms[k] in ms;
      assert forall m :: m in ms[..k] ==> m in ms;
      UnknownNameOnlyWarns(ms[..k], f, u);
      assert (ms[k].name in f + [u]) == (ms[k].name in f);
    }
  }

  /** A filter naming only unknown modules still restricts: nothing is selected (so the call
      connects and then reports that no worker was created). */
  lemma {:induction false} UnknownFilterSelectsNothing(ms: seq<ModuleConfig>, f: seq<string>)
    requires f != []
    requires forall m, n :: m in ms && n in f ==> m.name != n
    ensures Selected(ms, Some(f)) == []
    decreases |ms|
  {
    if ms != [] {
      var k := |ms| - 1;
      assert ms[k] in ms;
      assert forall m :: m in ms[..k] ==> m in ms;
      UnknownFilterSelectsNothing(ms[..k], f);
    }
  }

  /** The worker of one queue: at most one, on that queue, serving something. */
  lemma PlanForShape(q: string, ms: seq<ModuleConfig>, filter: Option<seq<string>>)
    ensures |PlanFor(q, ms, filter)| <= 1
    ensures forall p :: p in PlanFor(q, ms, filter) ==>
              p.queue == q && (p.workflows != [] || p.activities != [])
  {
  }

  /** Every planned worker is on one of the planned queues and serves something. */
  lemma {:induction false} PlanQueuesMembers(g: QueueMap, qs: seq<string>, filter: Option<seq<string>>)
    ensures forall p :: p in PlanQueues(g, qs, filter) ==>
              p.queue in qs && (p.workflows != [] || p.activities != [])
    decreases |qs|
  {
    if qs != [] {
      var k := |qs| - 1;
      PlanQueuesMembers(g, qs[..k], filter);
      PlanForShape(qs[k], MembersOf(g, qs[k]), filter);
      assert forall q :: q in qs[..k] ==> q in qs;
    }
  }

  lemma QueuesOfAppend(a: seq<WorkerPlan>, b: seq<WorkerPlan>)
    ensures QueuesOf(a + b) == QueuesOf(a) + QueuesOf(b)
  {
    var l, r := QueuesOf(a + b), QueuesOf(a) + QueuesOf(b);
    assert |l| == |r|;
    forall i | 0 <= i < |l| ensures l[i] == r[i] {
      if i < |a| {
        assert (a + b)[i] == a[i];
      } else {
        assert (a + b)[i] == b[i - |a|];
      }
    }
  }

  lemma DistinctSnoc(s: seq<string>, x: string, whole: seq<string>)
    requires Distinct(s) && x !in s && whole == s + [x]
    ensures Distinct(whole)
  {
  }

  /** Every planned queue is one of the queues planned over. */
  lemma PlannedQueuesAmong(g: QueueMap, qs: seq<string>, filter: Option<seq<string>>)
    ensures forall q :: q in QueuesOf(PlanQueues(g, qs, filter)) ==> q in qs
  {
    var plans := PlanQueues(g, qs, filter);
    PlanQueuesMembers(g, qs, filter);
    forall q | q in QueuesOf(plans) ensures q in qs {
      var i :| 0 <= i < |plans| && QueuesOf(plans)[i] == q;
      assert plans[i] in plans;
    }
  }

  /** At most one worker per queue: for pairwise distinct queues, the planned queues are
      pairwise distinct. */
  lemma {:induction false} PlanQueuesDistinct(g: QueueMap, qs: seq<string>, filter: Option<seq<string>>)
    requires Distinct(qs)
    ensures Distinct(QueuesOf(PlanQueues(g, qs, filter)))
    decreases |qs|
  {
    if qs != [] {
      var k := |qs| - 1;
      var pre := PlanQueues(g, qs[..k], filter);
      var last := PlanFor(qs[k], MembersOf(g, qs[k]), filter);
      assert Distinct(qs[..k]);
      PlanQueuesDistinct(g, qs[..k], filter);
      PlanQueuesMembers(g, qs[..k], filter);
      PlanForShape(qs[k], MembersOf(g, qs[k]), filter);
      QueuesOfAppend(pre, last);
      if last == [] {
        assert pre + last == pre;
      } else {
        var Q := QueuesOf(pre);
        PlannedQueuesAmong(g, qs[..k], filter);
        assert qs[k] !in qs[..k];
        assert qs[k] !in Q;
        assert last[0] in last;
        assert QueuesOf(last) == [qs[k]];
        DistinctSnoc(Q, qs[k], QueuesOf(pre + last));
      }
    }
  }

  /** Over the grouping `get_queues` builds, at most one worker is planned per queue, and
      every planned worker's queue is the queue of some module. */
  lemma OneWorkerPerQueue(ms: seq<ModuleConfig>, filter: Option<seq<string>>)
    ensures Distinct(QueuesOf(Plan(GroupByQueue(ms), filter)))
    ensures forall p :: p in Plan(GroupByQueue(ms), filter) ==>
              (p.workflows != [] || p.activities != []) && exists m :: m in ms && m.queue == p.queue
  {
    var g := GroupByQueue(ms);
    GroupByQueueSpec(ms);
    PlanQueuesDistinct(g, g.queues, filter);
    PlanQueuesMembers(g, g.queues, filter);
  }

  /** The end-to-end scenario: one enabled module on "harvest-tasks", no filter, heartbeat
      unavailable — exactly one worker is built for that queue, carrying the module's
      workflow and activity, and the call runs it. */
  lemma SingleModuleScenario(wf: string, act: string, env: map<string, string>)
    ensures var m := ModuleConfig("harvest", "harvest-tasks", [wf], [act], true);
            var (o, es) := RunSpec([m], None, None, env, true, false, false);
            o == Ran(false) &&
            es == [Connect(None), CreateWorker(WorkerPlan("harvest-tasks", [wf], [act])), RunAll(1)]
  {
    var m := ModuleConfig("harvest", "harvest-tasks", [wf], [act], true);
    assert [m][..0] == [];
    assert EnabledOf([m]) == [m];
    var g := GroupByQueue([m]);
    assert GroupByQueue([]) == QueueMap([], map[]);
    assert [m][0] == m;
    assert g == AddToQueues(QueueMap([], map[]), m);
    assert g.queues == ["harvest-tasks"] && MembersOf(g, "harvest-tasks") == [m];
    assert g.queues[..0] == [];
    assert AllWorkflows([m]) == [wf];
    assert AllActivities([m]) == [act];
    assert PlanFor("harvest-tasks", [m], None) == [WorkerPlan("harvest-tasks", [wf], [act])];
    assert PlanQueues(g, g.queues[..0], None) == [];
    assert Plan(g, None) == [WorkerPlan("harvest-tasks", [wf], [act])];
  }

  // ------------------------------------------------------------------ the operation

  /** The aggregation loop of one queue. */
  method Aggregate(ms: seq<ModuleConfig>) returns (workflows: seq<string>, activities: seq<string>)
    ensures workflows == AllWorkflows(ms) && activities == AllActivities(ms)
  {
    workflows, activities := [], [];
    var j := 0;
    while j < |ms|
      invariant 0 <= j <= |ms|
      invariant workflows == AllWorkflows(ms[..j])
      invariant activities == AllActivities(ms[..j])
    {
      assert ms[..j + 1][..j] == ms[..j];
      workflows := workflows + ms[j].workflows;
      activities := activities + ms[j].activities;
      j := j + 1;
    }
    assert ms[..j] == ms;
  }

  /** The planning loop: per queue, filter its members, concatenate their workflows and
      activities, and keep the worker only when it would serve something. */
  method PlanWorkers(g: QueueMap, filter: Option<seq<string>>) returns (plans: seq<WorkerPlan>)
    ensures plans == Plan(g, filter)
  {
    plans := [];
    var i := 0;
    while i < |g.queues|
      invariant 0 <= i <= |g.queues|
      invariant plans == PlanQueues(g, g.queues[..i], filter)
    {
      var q := g.queues[i];
      var queueModules := MembersOf(g, q);
      assert g.queues[..i + 1][..i] == g.queues[..i];
      if FilterActive(filter) {
        queueModules := Selected(queueModules, filter);
        if queueModules == [] {
          i := i + 1;
          continue;
        }
      }
      var workflows, activities := Aggregate(queueModules);
      if workflows != [] || activities != [] {
        plans := plans + [WorkerPlan(q, workflows, activities)];
      }
      i := i + 1;
    }
    assert g.queues[..i] == g.queues;
  }

  /** The warning loop over an active filter. */
  method WarnUnknown(filter: Option<seq<string>>, names: seq<string>) returns (effects: seq<Effect>)
    ensures effects == Warnings(MissingNames(filter, names))
  {
    effects := [];
    if FilterActive(filter) {
      var i := 0;
      while i < |filter.value|
        invariant 0 <= i <= |filter.value|
        invariant effects == Warnings(MissingFrom(filter.value[..i], names))
      {
        assert filter.value[..i + 1][..i] == filter.value[..i];
        if filter.value[i] !in names {
          effects := effects + [WarnMissing(filter.value[i])];
        }
        i := i + 1;
      }
      assert filter.value[..i] == filter.value;
    }
  }

  /** The worker-creation loop, after the connection. */
  method CreateWorkers(plans: seq<WorkerPlan>) returns (effects: seq<Effect>)
    ensures effects == Creations(plans)
  {
    effects := [];
    var k := 0;
    while k < |plans|
      invariant 0 <= k <= |plans|
      invariant effects == Creations(plans[..k])
    {
      assert plans[..k + 1][..k] == plans[..k];
      effects := effects + [CreateWorker(plans[k])];
      k := k + 1;
    }
    assert plans[..k] == plans;
  }

  /** The part of `run_workers` after the warnings: the "nothing registered" return, the
      connection, worker creation, the "no workers" return, the heartbeat and the joint run. */
  method Launch(g: QueueMap, filter: Option<seq<string>>, host: Option<string>, env: map<string, string>,
                connectOk: bool, heartbeatOk: bool, workersFault: bool)
    returns (outcome: RunOutcome, tail: seq<Effect>)
    ensures (outcome, tail) == Tail(g.queues, Plan(g, filter), host, env, connectOk, heartbeatOk, workersFault)
  {
    if g.queues == [] {
      outcome := NothingToRun;
      tail := [ReportNothingToRun];
      return;
    }
    tail := [Connect(host)];
    if !connectOk {
      outcome := ConnectFailed;
      return;
    }
    var plans := PlanWorkers(g, filter);
    var created := CreateWorkers(plans);
    tail := tail + created;
    if plans == [] {
      outcome := NoWorkers;
      tail := tail + [ReportNoWorkers];
      assert tail == [Connect(host), ReportNoWorkers];
      return;
    }
    var beat := RegisterHeartbeat(Announce(env, host, g.queues, |plans|));
    if heartbeatOk {
      tail := tail + [beat];
    }
    tail := tail + [RunAll(|plans|)];
    outcome := Ran(workersFault);
    if heartbeatOk {
      tail := tail + [CancelHeartbeat];
      assert tail == [Connect(host)] + created + [beat] + [RunAll(|plans|)] + [CancelHeartbeat];
    } else {
      assert tail == [Connect(host)] + created + [] + [RunAll(|plans|)] + [];
    }
  }

  /** `run_workers`: discovery, a warning per unknown filter name, then the launch. */
  method RunWorkers(registry: WorkerRegistry, providers: seq<Provider>, filter: Option<seq<string>>,
                    host: Option<string>, env: map<string, string>,
                    connectOk: bool, heartbeatOk: bool, workersFault: bool)
    returns (outcome: RunOutcome, effects: seq<Effect>)
    requires registry.Valid() && ProbesKnownPackages(providers)
    modifies registry
    ensures registry.Valid() && registry.discovered
    ensures old(registry.discovered) ==> registry.State() == old(registry.State())
    ensures !old(registry.discovered) ==>
              registry.State() == Probe(old(registry.State()), providers).0 &&
              registry.registerAllCalls == old(registry.registerAllCalls) + Probe(old(registry.State()), providers).1
    ensures (outcome, effects) ==
            RunSpec(registry.GetAllModules(), filter, host, env, connectOk, heartbeatOk, workersFault)
  {
    registry.DiscoverPlugins(providers);
    var all := registry.GetAllModules();
    var warned := WarnUnknown(filter, NamesOf(all));
    var g := registry.GetQueues();
    assert g == GroupByQueue(EnabledOf(all));
    var tail;
    outcome, tail := Launch(g, filter, host, env, connectOk, heartbeatOk, workersFault);
    effects := warned + tail;
  }
}
