/** The background-agent registry: a process-wide, insertion-ordered dictionary from agent
    name to agent class, filled by the `register(name)` decorator; and the `BaseAgent` every
    agent derives from, whose only state is its configuration and a running flag that
    `start` raises for the duration of `run` and always lowers on exit. */
module Agents {
  import opened Common

  /** An agent class, identified by the module that defines it and its name. */
  datatype AgentClass = AgentClass(home: string, name: string)

  /** The `_agents` dictionary: its keys in insertion order and the classes. */
  datatype Registry = Registry(names: seq<string>, agents: map<string, AgentClass>)

  ghost predicate WellFormed(r: Registry) {
    && (forall i, j :: 0 <= i < j < |r.names| ==> r.names[i] != r.names[j])
    && (forall n :: n in r.names <==> n in r.agents)
  }

  /** `_agents[name] = cls`: a new name goes last, an existing one keeps its place. */
  function Registered(r: Registry, name: string, cls: AgentClass): Registry {
    if name in r.agents then Registry(r.names, r.agents[name := cls])
    else Registry(r.names + [name], r.agents[name := cls])
  }

  /** Registering stores the class under the name, overwriting, leaves every other name as
      it was, and keeps the dictionary well formed. */
  lemma RegisterSpec(r: Registry, name: string, cls: AgentClass)
    requires WellFormed(r)
    ensures var r' := Registered(r, name, cls);
            && WellFormed(r')
            && name in r'.agents && r'.agents[name] == cls
            && (forall n :: n != name ==> (n in r'.agents <==> n in r.agents))
            && (forall n :: n != name && n in r.agents ==> r'.agents[n] == r.agents[n])
            && r'.names == (if name in r.agents then r.names else r.names + [name])
  {
  }

  /** Python's `repr` of a list of names (names are rendered between single quotes). */
  function NamesRepr(names: seq<string>): (s: string)
    ensures |s| >= 2 && s[0] == '[' && s[|s| - 1] == ']'
  {
    "[" + Join(Quoted(names), ", ") + "]"
  }

  function Quoted(names: seq<string>): (qs: seq<string>)
    ensures |qs| == |names|
    ensures forall i :: 0 <= i < |qs| ==> qs[i] == "'" + names[i] + "'"
  {
    if names == [] then [] else ["'" + names[0] + "'"] + Quoted(names[1..])
  }

  /** The `ValueError` message of `get_agent` for an absent name. */
  function UnknownAgent(name: string, r: Registry): (msg: string)
    ensures StartsWith(msg, "Unknown agent: " + name)
  {
    "Unknown agent: " + name + ". Available: " + NamesRepr(r.names)
  }

  /** `get_agent(name)`: the stored class, or the `ValueError` for an absent name. */
  function GetAgent(r: Registry, name: string): (res: Result<AgentClass, string>)
    ensures res.Ok? <==> name in r.agents
    ensures res.Ok? ==> res.value == r.agents[name]
    ensures res.Err? ==> res.error == UnknownAgent(name, r) && StartsWith(res.error, "Unknown agent")
  {
    if name !in r.agents then Err(UnknownAgent(name, r)) else Ok(r.agents[name])
  }

  /** `list_agents()`: exactly the registered names, each once, in insertion order. */
  function ListAgents(r: Registry): (ns: seq<string>)
    requires WellFormed(r)
    ensures forall n :: n in ns <==> n in r.agents
    ensures forall i, j :: 0 <= i < j < |ns| ==> ns[i] != ns[j]
  {
    r.names
  }

  /** The registrations a sequence of decorated classes performs, in import order. */
  function RegisterAll(r: Registry, regs: seq<(string, AgentClass)>): Registry
    decreases |regs|
  {
    if regs == [] then r
    else
      var k := |regs| - 1;
      Registered(RegisterAll(r, regs[..k]), regs[k].0, regs[k].1)
  }

  /** The class registered last under `name`, if any. */
  function LastFor(regs: seq<(string, AgentClass)>, name: string): (c: Option<AgentClass>)
    ensures c.Some? <==> exists i :: 0 <= i < |regs| && regs[i].0 == name
    decreases |regs|
  {
    if regs == [] then None
    else
      var k := |regs| - 1;
      if regs[k].0 == name then Some(regs[k].1) else LastFor(regs[..k], name)
  }

  lemma {:induction false} RegisterAllWellFormed(r: Registry, regs: seq<(string, AgentClass)>)
    requires WellFormed(r)
    ensures WellFormed(RegisterAll(r, regs))
    decreases |regs|
  {
    if regs != [] {
      var k := |regs| - 1;
      RegisterAllWellFormed(r, regs[..k]);
      RegisterSpec(RegisterAll(r, regs[..k]), regs[k].0, regs[k].1);
    }
  }

  /** After several registrations, a name maps to the class registered last under it, and
      a name never registered maps as before. */
  lemma {:induction false} RegisterAllLookup(r: Registry, regs: seq<(string, AgentClass)>, name: string)
    ensures var all := RegisterAll(r, regs).agents;
            LastFor(regs, name).Some? ==> name in all && all[name] == LastFor(regs, name).value
    ensures var all := RegisterAll(r, regs).agents;
            LastFor(regs, name).None? ==> (name in all <==> name in r.agents) &&
                                          (name in r.agents ==> all[name] == r.agents[name])
    decreases |regs|
  {
    if regs != [] {
      var k := |regs| - 1;
      RegisterAllLookup(r, regs[..k], name);
    }
  }

  /** So `get_agent` after the registrations returns the class registered last. */
  lemma GetAfterRegistrations(r: Registry, regs: seq<(string, AgentClass)>, name: string)
    requires LastFor(regs, name).Some?
    ensures GetAgent(RegisterAll(r, regs), name) == Ok(LastFor(regs, name).value)
  {
    RegisterAllLookup(r, regs, name);
  }

  /** A registered agent is found by `get_agent` and listed by `list_agents`. */
  lemma RegisteredIsFoundAndListed(r: Registry, name: string, cls: AgentClass)
    requires WellFormed(r)
    ensures GetAgent(Registered(r, name, cls), name) == Ok(cls)
    ensures WellFormed(Registered(r, name, cls)) && name in ListAgents(Registered(r, name, cls))
  {
    RegisterSpec(r, name, cls);
  }

  /** The process-wide registry. */
  class AgentTable {
    var names: seq<string>
    var agents: map<string, AgentClass>

    function Contents(): Registry reads this {
      Registry(names, agents)
    }

    constructor ()
      ensures Contents() == Registry([], map[])
    {
      names, agents := [], map[];
    }

    /** The `register(name)` decorator applied to `cls`: the class is stored and returned
        unchanged. */
    method Register(name: string, cls: AgentClass) returns (c: AgentClass)
      modifies this
      ensures c == cls
      ensures Contents() == Registered(old(Contents()), name, cls)
      ensures GetAgent(Contents(), name) == Ok(cls)
    {
      if name !in agents {
        names := names + [name];
      }
      agents := agents[name := cls];
      c := cls;
    }
  }

  /** Exceptions that `run` can raise; `KeyboardInterrupt` is the one `start` catches. */
  datatype Exception = KeyboardInterrupt | NotImplementedError | Other(kind: string)

  /** How a `run` call ends: it returns, or it raises. Sync and async agents end alike,
      since `asyncio.run` passes the coroutine's exception on. */
  datatype RunOutcome = Returned | Raised(e: Exception)

  /** What escapes `start` for a run that ends with `o`. */
  function StartEscapes(o: RunOutcome): (e: Option<Exception>)
    ensures e.None? <==> (o.Returned? || o == Raised(KeyboardInterrupt))
    ensures e.Some? ==> o == Raised(e.value)
  {
    match o
    case Returned => None
    case Raised(KeyboardInterrupt) => None
    case Raised(x) => Some(x)
  }

  /** `BaseAgent`. */
  class BaseAgent {
    /** The `name` class attribute. */
    const name: string
    var config: map<string, Value>
    var running: bool

    /** `BaseAgent(config)`: `config or {}` stores an empty dictionary for `None` and, by
        value, the given one otherwise; the agent is not running. */
    constructor (cfg: Option<map<string, Value>>)
      ensures name == "base"
      ensures config == (if cfg.Some? then cfg.value else map[])
      ensures !running
    {
      name := "base";
      config := if cfg.Some? && cfg.value != map[] then cfg.value else map[];
      running := false;
    }

    /** `stop()`. */
    method Stop()
      modifies this
      ensures !running && config == old(config)
    {
      running := false;
    }

    /** `run()` on the base class. */
    method Run() returns (o: RunOutcome)
      ensures o == Raised(NotImplementedError)
    {
      o := Raised(NotImplementedError);
    }

    /** `start()` for a `run` that ends with `o`: the flag is raised before `run` is called
        (`seen` is its value then), a `KeyboardInterrupt` is swallowed, any other exception
        escapes, and the flag is lowered on every exit. */
    method Start(o: RunOutcome) returns (seen: bool, escaped: Option<Exception>)
      modifies this
      ensures seen
      ensures escaped == StartEscapes(o)
      ensures !running && config == old(config)
    {
      running := true;
      seen := running;
      match o {
        case Returned => escaped := None;
        case Raised(x) =>
          if x == KeyboardInterrupt {
            escaped := None;
          } else {
            escaped := Some(x);
          }
      }
      running := false;
    }
  }

  /** Starting the base agent itself lets `NotImplementedError` escape and leaves it stopped. */
  method StartBaseAgent(cfg: Option<map<string, Value>>) returns (escaped: Option<Exception>)
    ensures escaped == Some(NotImplementedError)
  {
    var a := new BaseAgent(cfg);
    var o := a.Run();
    var seen;
    seen, escaped := a.Start(o);
    assert !a.running;
  }
}
