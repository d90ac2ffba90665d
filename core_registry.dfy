/** The worker module registry: a name-keyed, insertion-ordered table of modules, each bound
    to one task queue with its workflows and activities; enabled modules are grouped by queue
    so that one worker per queue can serve every module that shares it. */
module CoreRegistry {
  import opened Common

  /** A registered module; workflows and activities are identified by name. */
  datatype ModuleConfig = ModuleConfig(
    name: string,
    queue: string,
    workflows: seq<string>,
    activities: seq<string>,
    enabled: bool)

  /** The `_modules` dictionary: its keys in insertion order and the entries. */
  datatype Table = Table(names: seq<string>, modules: map<string, ModuleConfig>)

  /** One `register(name, queue, workflows, activities)` call; `None` is an omitted list. */
  datatype Registration = Registration(
    name: string,
    queue: string,
    workflows: Option<seq<string>>,
    activities: Option<seq<string>>)

  /** A package that discovery probes: whether it imports, whether it exposes
      `register_all`, the registrations that `register_all` performs and, when
      `register_all` raises `ImportError`, how many of them it completes first. */
  datatype Provider = Provider(
    package: string,
    importable: bool,
    hasRegisterAll: bool,
    registrations: seq<Registration>,
    failsAfter: Option<nat>)

  /** The packages probed, in order. */
  const KnownPackages: seq<string> := ["modules", "contextcommerce.modules"]

  /** The providers stand for the known packages, in the order they are probed. */
  predicate ProbesKnownPackages(ps: seq<Provider>) {
    |ps| == |KnownPackages| && forall i :: 0 <= i < |ps| ==> ps[i].package == KnownPackages[i]
  }

  /** A package whose `register_all` is called. */
  predicate Usable(p: Provider) {
    p.importable && p.hasRegisterAll
  }

  /** The registrations a `register_all` call completes before it returns or raises. */
  function Performed(p: Provider): seq<Registration> {
    match p.failsAfter
    case None => p.registrations
    case Some(n) => if n < |p.registrations| then p.registrations[..n] else p.registrations
  }

  /** The ordered dictionary of queue groups built by `get_queues`. */
  datatype QueueMap = QueueMap(queues: seq<string>, members: map<string, seq<ModuleConfig>>)

  ghost predicate Distinct(s: seq<string>) {
    forall i, j :: 0 <= i < j < |s| ==> s[i] != s[j]
  }

  ghost predicate WellFormed(t: Table) {
    && Distinct(t.names)
    && (forall n :: n in t.modules <==> n in t.names)
    && (forall n :: n in t.modules ==> t.modules[n].name == n)
  }

  /** The stored modules in registration order (`get_all_modules`). */
  function Values(t: Table): (ms: seq<ModuleConfig>)
    requires forall n :: n in t.names ==> n in t.modules
    ensures |ms| == |t.names|
    ensures forall i :: 0 <= i < |ms| ==> ms[i] == t.modules[t.names[i]]
    decreases |t.names|
  {
    if t.names == [] then []
    else
      var k := |t.names| - 1;
      Values(Table(t.names[..k], t.modules)) + [t.modules[t.names[k]]]
  }

  /** The table after one `register` call: the first registration of a name wins. */
  function Registered(t: Table, r: Registration): Table {
    if r.name in t.modules then t
    else
      Table(t.names + [r.name],
            t.modules[r.name := ModuleConfig(r.name, r.queue,
                                             r.workflows.GetOr([]), r.activities.GetOr([]), true)])
  }

  /** The table after a provider's `register_all`. */
  function AllRegistered(t: Table, rs: seq<Registration>): Table
    decreases |rs|
  {
    if rs == [] then t else AllRegistered(Registered(t, rs[0]), rs[1..])
  }

  /** Registration keeps the table well formed and never drops or alters an entry. */
  lemma RegisterWellFormed(t: Table, r: Registration)
    requires WellFormed(t)
    ensures WellFormed(Registered(t, r))
    ensures forall n :: n in t.modules ==>
              n in Registered(t, r).modules && Registered(t, r).modules[n] == t.modules[n]
  {
  }

  lemma {:induction false} RegisterAllWellFormed(t: Table, rs: seq<Registration>)
    requires WellFormed(t)
    ensures WellFormed(AllRegistered(t, rs))
    decreases |rs|
  {
    if rs != [] {
      RegisterWellFormed(t, rs[0]);
      RegisterAllWellFormed(Registered(t, rs[0]), rs[1..]);
    }
  }

  /** A second registration under a name already present changes nothing. */
  lemma FirstRegistrationWins(t: Table, r1: Registration, r2: Registration)
    requires r1.name == r2.name
    ensures Registered(Registered(t, r1), r2) == Registered(t, r1)
    ensures Registered(t, r1).modules[r1.name] ==
            if r1.name in t.modules then t.modules[r1.name]
            else ModuleConfig(r1.name, r1.queue, r1.workflows.GetOr([]), r1.activities.GetOr([]), true)
  {
  }

  /** A newly registered module is enabled and an omitted list is stored empty. */
  lemma NewModuleDefaults(t: Table, r: Registration)
    requires r.name !in t.modules
    ensures Registered(t, r).names == t.names + [r.name]
    ensures Registered(t, r).modules[r.name].enabled
    ensures r.workflows.None? ==> Registered(t, r).modules[r.name].workflows == []
    ensures r.activities.None? ==> Registered(t, r).modules[r.name].activities == []
  {
  }

  /** `get_enabled_modules`: the modules whose flag is set, in order. */
  function EnabledOf(ms: seq<ModuleConfig>): seq<ModuleConfig>
    decreases |ms|
  {
    if ms == [] then []
    else
      var k := |ms| - 1;
      EnabledOf(ms[..k]) + (if ms[k].enabled then [ms[k]] else [])
  }

  /** `EnabledOf` keeps exactly the enabled modules. */
  lemma {:induction false} EnabledOfMembers(ms: seq<ModuleConfig>)
    ensures forall m :: m in EnabledOf(ms) <==> m in ms && m.enabled
    decreases |ms|
  {
    if ms != [] {
      var k := |ms| - 1;
      EnabledOfMembers(ms[..k]);
      assert ms == ms[..k] + [ms[k]];
    }
  }

  /** The modules of `ms` bound to queue `q`, in order. */
  function OnQueue(ms: seq<ModuleConfig>, q: string): seq<ModuleConfig>
    decreases |ms|
  {
    if ms == [] then []
    else
      var k := |ms| - 1;
      OnQueue(ms[..k], q) + (if ms[k].queue == q then [ms[k]] else [])
  }

  /** One step of the `get_queues` loop. */
  function AddToQueues(g: QueueMap, m: ModuleConfig): QueueMap {
    var g1 := if m.queue !in g.members
              then QueueMap(g.queues + [m.queue], g.members[m.queue := []])
              else g;
    QueueMap(g1.queues, g1.members[m.queue := g1.members[m.queue] + [m]])
  }

  /** The grouping `get_queues` computes over a list of modules. */
  function GroupByQueue(ms: seq<ModuleConfig>): QueueMap
    decreases |ms|
  {
    if ms == [] then QueueMap([], map[])
    else AddToQueues(GroupByQueue(ms[..|ms| - 1]), ms[|ms| - 1])
  }

  /** Grouping is exact: the queues are distinct, a queue is present iff some module uses it,
      and each queue's members are exactly the modules bound to it, in their original order. */
  lemma {:induction false} GroupByQueueSpec(ms: seq<ModuleConfig>)
    ensures Distinct(GroupByQueue(ms).queues)
    ensures forall q :: q in GroupByQueue(ms).members <==> q in GroupByQueue(ms).queues
    ensures forall q :: q in GroupByQueue(ms).queues <==> exists m :: m in ms && m.queue == q
    ensures forall q :: q in GroupByQueue(ms).members ==> GroupByQueue(ms).members[q] == OnQueue(ms, q)
    decreases |ms|
  {
    if ms != [] {
      var k := |ms| - 1;
      var prefix := ms[..k];
      GroupByQueueSpec(prefix);
      assert ms == prefix + [ms[k]];
      forall q ensures q in GroupByQueue(ms).queues <==> exists m :: m in ms && m.queue == q {
        if q in GroupByQueue(ms).queues && q != ms[k].queue {
          var m :| m in prefix && m.queue == q;
          assert m in ms;
        }
        if q == ms[k].queue {
          assert ms[k] in ms;
        }
      }
      var q := ms[k].queue;
      if q !in GroupByQueue(prefix).members {
        OnQueueAbsent(prefix, q);
      }
    }
  }

  /** Every module of the list sits in exactly one group, the one of its queue. */
  lemma ExactlyOneGroup(ms: seq<ModuleConfig>, m: ModuleConfig, q: string)
    requires q in GroupByQueue(ms).members
    ensures m in GroupByQueue(ms).members[q] <==> m in ms && m.queue == q
  {
    GroupByQueueSpec(ms);
    OnQueueMembers(ms, q);
  }

  lemma {:induction false} OnQueueAbsent(ms: seq<ModuleConfig>, q: string)
    requires forall m :: m in ms ==> m.queue != q
    ensures OnQueue(ms, q) == []
    decreases |ms|
  {
    if ms != [] {
      var k := |ms| - 1;
      assert ms[k] in ms;
      assert forall m :: m in ms[..k] ==> m in ms;
      OnQueueAbsent(ms[..k], q);
    }
  }

  lemma {:induction false} OnQueueMembers(ms: seq<ModuleConfig>, q: string)
    ensures forall m :: m in OnQueue(ms, q) <==> m in ms && m.queue == q
    decreases |ms|
  {
    if ms != [] {
      var k := |ms| - 1;
      OnQueueMembers(ms[..k], q);
      assert ms == ms[..k] + [ms[k]];
    }
  }

  /** Enabling and disabling rewrite one flag, or nothing when the name is unknown. */
  function SetEnabled(t: Table, name: string, flag: bool): (r: Table)
    ensures r.names == t.names && r.modules.Keys == t.modules.Keys
    ensures name !in t.modules ==> r == t
    ensures forall n :: n in t.modules && n != name ==> r.modules[n] == t.modules[n]
    ensures name in t.modules ==> r.modules[name] == t.modules[name].(enabled := flag)
  {
    if name in t.modules then Table(t.names, t.modules[name := t.modules[name].(enabled := flag)])
    else t
  }

  /** Index of the first provider that imports and exposes `register_all`. */
  function FirstProvider(ps: seq<Provider>): (r: Option<nat>)
    ensures r.Some? ==> r.value < |ps| && ps[r.value].importable && ps[r.value].hasRegisterAll
    ensures r.Some? ==> forall j :: 0 <= j < r.value ==> !(ps[j].importable && ps[j].hasRegisterAll)
    ensures r.None? ==> forall j :: 0 <= j < |ps| ==> !(ps[j].importable && ps[j].hasRegisterAll)
    decreases |ps|
  {
    if ps == [] then None
    else if ps[0].importable && ps[0].hasRegisterAll then Some(0)
    else match FirstProvider(ps[1..])
         case None => None
         case Some(i) => Some(i + 1)
  }

  /** The probing loop of `discover_plugins`: the table it leaves and how many
      `register_all` calls it makes. A package that does not import, or has no
      `register_all`, is passed over. A `register_all` that returns ends the loop; one that
      raises `ImportError` keeps the registrations it completed and probing goes on. */
  function Probe(t: Table, ps: seq<Provider>): (r: (Table, nat))
    ensures r.1 <= |ps|
    decreases |ps|
  {
    if ps == [] then (t, 0)
    else if !Usable(ps[0]) then Probe(t, ps[1..])
    else
      var t' := AllRegistered(t, Performed(ps[0]));
      if ps[0].failsAfter.None? then (t', 1)
      else (Probe(t', ps[1..]).0, Probe(t', ps[1..]).1 + 1)
  }

  /** Registrations never drop or alter an entry already in the table. */
  lemma {:induction false} AllRegisteredKeeps(t: Table, rs: seq<Registration>)
    requires WellFormed(t)
    ensures WellFormed(AllRegistered(t, rs))
    ensures forall n :: n in t.modules ==>
              n in AllRegistered(t, rs).modules && AllRegistered(t, rs).modules[n] == t.modules[n]
    decreases |rs|
  {
    if rs != [] {
      RegisterWellFormed(t, rs[0]);
      AllRegisteredKeeps(Registered(t, rs[0]), rs[1..]);
    }
  }

  /** Probing keeps the table well formed, never drops or alters an entry, and calls
      `register_all` at all iff some package is usable. */
  lemma {:induction false} ProbeKeeps(t: Table, ps: seq<Provider>)
    requires WellFormed(t)
    ensures WellFormed(Probe(t, ps).0)
    ensures forall n :: n in t.modules ==>
              n in Probe(t, ps).0.modules && Probe(t, ps).0.modules[n] == t.modules[n]
    ensures Probe(t, ps).1 == 0 <==> forall j :: 0 <= j < |ps| ==> !Usable(ps[j])
    decreases |ps|
  {
    if ps != [] {
      if !Usable(ps[0]) {
        ProbeKeeps(t, ps[1..]);
        assert forall j :: 1 <= j < |ps| ==> ps[j] == ps[1..][j - 1];
      } else {
        var t' := AllRegistered(t, Performed(ps[0]));
        AllRegisteredKeeps(t, Performed(ps[0]));
        if ps[0].failsAfter.Some? {
          ProbeKeeps(t', ps[1..]);
        }
      }
    }
  }

  /** A package whose `register_all` raises `ImportError` part-way keeps the registrations
      it completed, whatever the later packages do. */
  lemma FailedProviderKeepsPartial(t: Table, ps: seq<Provider>)
    requires WellFormed(t) && ps != [] && Usable(ps[0]) && ps[0].failsAfter.Some?
    ensures var partial := AllRegistered(t, Performed(ps[0]));
            forall n :: n in partial.modules ==>
              n in Probe(t, ps).0.modules && Probe(t, ps).0.modules[n] == partial.modules[n]
    ensures Probe(t, ps).1 >= 1
  {
    AllRegisteredKeeps(t, Performed(ps[0]));
    ProbeKeeps(AllRegistered(t, Performed(ps[0])), ps[1..]);
  }

  /** When no `register_all` raises, probing runs only the first usable package's
      `register_all`, in full, or nothing at all. */
  lemma {:induction false} ProbeWithoutFaults(t: Table, ps: seq<Provider>)
    requires forall j :: 0 <= j < |ps| ==> ps[j].failsAfter.None?
    ensures Probe(t, ps) == match FirstProvider(ps)
                            case None => (t, 0)
                            case Some(i) => (AllRegistered(t, ps[i].registrations), 1)
    decreases |ps|
  {
    if ps != [] && !Usable(ps[0]) {
      assert forall j :: 0 <= j < |ps[1..]| ==> ps[1..][j] == ps[j + 1];
      ProbeWithoutFaults(t, ps[1..]);
    }
  }

  class WorkerRegistry {
    var names: seq<string>
    var modules: map<string, ModuleConfig>
    var discovered: bool
    /** How many times a provider's `register_all` has been invoked. */
    ghost var registerAllCalls: nat

    function State(): Table reads this {
      Table(names, modules)
    }

    ghost predicate Valid() reads this {
      WellFormed(State())
    }

    constructor ()
      ensures Valid() && State() == Table([], map[]) && !discovered && registerAllCalls == 0
    {
      names, modules, discovered := [], map[], false;
      registerAllCalls := 0;
    }

    method Register(r: Registration)
      requires Valid()
      modifies this
      ensures Valid()
      ensures State() == Registered(old(State()), r)
      ensures discovered == old(discovered) && registerAllCalls == old(registerAllCalls)
    {
      if r.name in modules {
        return;
      }
      var workflows := if r.workflows.Some? then r.workflows.value else [];
      var activities := if r.activities.Some? then r.activities.value else [];
      modules := modules[r.name := ModuleConfig(r.name, r.queue, workflows, activities, true)];
      names := names + [r.name];
    }

    function GetModule(name: string): (r: Option<ModuleConfig>)
      reads this
      requires Valid()
      ensures r.None? <==> name !in names
      ensures r.Some? ==> r.value == modules[name] && r.value.name == name
    {
      if name in modules then Some(modules[name]) else None
    }

    function GetAllModules(): (ms: seq<ModuleConfig>)
      reads this
      requires Valid()
      ensures |ms| == |names|
      ensures forall i :: 0 <= i < |ms| ==> ms[i].name == names[i]
    {
      Values(State())
    }

    function GetEnabledModules(): (ms: seq<ModuleConfig>)
      reads this
      requires Valid()
      ensures forall m :: m in ms <==> m in GetAllModules() && m.enabled
    {
      EnabledOfMembers(GetAllModules());
      EnabledOf(GetAllModules())
    }

    /** `get_queues`: one loop over the enabled modules filling an ordered dictionary. */
    method GetQueues() returns (g: QueueMap)
      requires Valid()
      ensures g == GroupByQueue(GetEnabledModules())
      ensures forall q :: q in g.members ==> g.members[q] == OnQueue(GetEnabledModules(), q)
    {
      var enabled := GetEnabledModules();
      g := QueueMap([], map[]);
      var i := 0;
      while i < |enabled|
        invariant 0 <= i <= |enabled|
        invariant g == GroupByQueue(enabled[..i])
      {
        var m := enabled[i];
        if m.queue !in g.members {
          g := QueueMap(g.queues + [m.queue], g.members[m.queue := []]);
        }
        g := QueueMap(g.queues, g.members[m.queue := g.members[m.queue] + [m]]);
        assert enabled[..i + 1][..i] == enabled[..i];
        i := i + 1;
      }
      assert enabled[..i] == enabled;
      GroupByQueueSpec(enabled);
    }

    method DisableModule(name: string)
      requires Valid()
      modifies this
      ensures Valid()
      ensures State() == SetEnabled(old(State()), name, false)
      ensures discovered == old(discovered) && registerAllCalls == old(registerAllCalls)
    {
      if name in modules {
        modules := modules[name := modules[name].(enabled := false)];
      }
    }

    method EnableModule(name: string)
      requires Valid()
      modifies this
      ensures Valid()
      ensures State() == SetEnabled(old(State()), name, true)
      ensures discovered == old(discovered) && registerAllCalls == old(registerAllCalls)
    {
      if name in modules {
        modules := modules[name := modules[name].(enabled := true)];
      }
    }

    /** `discover_plugins` over the known packages `ps` (the import machinery abstracted):
        the flag is set before probing, so later calls do nothing; a first call probes as
        `Probe` says. */
    method DiscoverPlugins(ps: seq<Provider>)
      requires Valid() && ProbesKnownPackages(ps)
      modifies this
      ensures Valid() && discovered
      ensures old(discovered) ==> State() == old(State()) && registerAllCalls == old(registerAllCalls)
      ensures !old(discovered) ==> State() == Probe(old(State()), ps).0 &&
                                   registerAllCalls == old(registerAllCalls) + Probe(old(State()), ps).1
    {
      if discovered {
        return;
      }
      discovered := true;
      var i := 0;
      while i < |ps|
        invariant 0 <= i <= |ps|
        invariant Valid() && discovered
        invariant Probe(old(State()), ps).0 == Probe(State(), ps[i..]).0
        invariant old(registerAllCalls) + Probe(old(State()), ps).1 == registerAllCalls + Probe(State(), ps[i..]).1
      {
        assert ps[i..][0] == ps[i] && ps[i..][1..] == ps[i + 1..];
        if Usable(ps[i]) {
          registerAllCalls := registerAllCalls + 1;
          RunRegisterAll(Performed(ps[i]));
          if ps[i].failsAfter.None? {
            return;
          }
        }
        i := i + 1;
      }
    }

    /** A provider's `register_all(self)`: its registrations in order. */
    method RunRegisterAll(rs: seq<Registration>)
      requires Valid()
      modifies this
      ensures Valid()
      ensures State() == AllRegistered(old(State()), rs)
      ensures discovered == old(discovered) && registerAllCalls == old(registerAllCalls)
    {
      var k := 0;
      while k < |rs|
        invariant 0 <= k <= |rs|
        invariant Valid()
        invariant AllRegistered(old(State()), rs) == AllRegistered(State(), rs[k..])
        invariant discovered == old(discovered) && registerAllCalls == old(registerAllCalls)
      {
        assert rs[k..][1..] == rs[k + 1..];
        Register(rs[k]);
        k := k + 1;
      }
    }
  }

  /** The process-wide registry, created on first access. */
  class GlobalRegistry {
    var instance: WorkerRegistry?

    constructor ()
      ensures instance == null
    {
      instance := null;
    }

    /** `get_registry`: the same instance on every call. */
    method GetRegistry() returns (r: WorkerRegistry)
      modifies this
      ensures instance == r
      ensures old(instance) != null ==> r == old(instance)
      ensures old(instance) == null ==> fresh(r) && r.Valid() && r.State() == Table([], map[]) && !r.discovered
    {
      if instance == null {
        instance := new WorkerRegistry();
      }
      r := instance;
    }
  }
}
