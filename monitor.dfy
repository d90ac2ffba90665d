/** The sub-agent monitor: an in-memory store of status entries keyed by sub-agent id, and
    a polling loop that waits for a sub-agent to complete or fail. Wall-clock readings are
    a parameter (one reading per poll), and what other tasks write to the store while the
    monitor sleeps is a parameter too (the updates made during each sleep). */
module Monitor {
  import opened Common

  type Store = map<string, map<string, Value>>

  /** A status written by some task: the arguments of one `set_status` call and the time
      it read. */
  datatype StatusUpdate = StatusUpdate(
    subagentId: string,
    status: string,
    result: Option<map<string, Value>>,
    error: Option<string>,
    at: int)

  const EntryKeys: set<string> := {"status", "subagent_id", "result", "error", "updated_at"}
  const TimeoutError := "Sub-agent execution timeout"
  const CancelError := "Sub-agent cancelled"

  function OptDict(o: Option<map<string, Value>>): Value {
    match o
    case None => VNull
    case Some(d) => VDict(d)
  }

  /** The entry `set_status` stores: every field given, `None` as null, and the time. */
  function Entry(id: string, status: string, result: Option<map<string, Value>>,
                 error: Option<string>, at: int): (e: map<string, Value>)
    ensures e.Keys == EntryKeys
    ensures e["status"] == VStr(status) && e["subagent_id"] == VStr(id)
    ensures e["error"] == OptValue(error) && e["updated_at"] == VInt(at)
    ensures result.None? <==> e["result"] == VNull
    ensures result.Some? ==> e["result"] == VDict(result.value)
  {
    map["status" := VStr(status), "subagent_id" := VStr(id), "result" := OptDict(result),
        "error" := OptValue(error), "updated_at" := VInt(at)]
  }

  /** What `get_status` answers for an id nobody has written. */
  function Unknown(id: string): (d: map<string, Value>)
    ensures d.Keys == {"status", "subagent_id"}
    ensures d["status"] == VStr("unknown") && d["subagent_id"] == VStr(id)
  {
    map["status" := VStr("unknown"), "subagent_id" := VStr(id)]
  }

  /** `get_status` on a store: the stored entry, or the unknown answer (which is not stored). */
  function StatusIn(store: Store, id: string): (d: map<string, Value>)
    ensures id in store ==> d == store[id]
    ensures id !in store ==> d == Unknown(id)
  {
    if id in store then store[id] else Unknown(id)
  }

  /** The store after one `set_status` call. */
  function Apply(store: Store, u: StatusUpdate): Store {
    store[u.subagentId := Entry(u.subagentId, u.status, u.result, u.error, u.at)]
  }

  /** The store after a sequence of `set_status` calls, in order. */
  function ApplyAll(store: Store, us: seq<StatusUpdate>): Store
    decreases |us|
  {
    if us == [] then store else Apply(ApplyAll(store, us[..|us| - 1]), us[|us| - 1])
  }

  /** Writes to other ids leave an id's entry as it was (and an unwritten id unstored). */
  lemma {:induction false} ApplyAllKeeps(store: Store, us: seq<StatusUpdate>, id: string)
    requires forall k :: 0 <= k < |us| ==> us[k].subagentId != id
    ensures id in ApplyAll(store, us) <==> id in store
    ensures id in store ==> ApplyAll(store, us)[id] == store[id]
    decreases |us|
  {
    if us != [] {
      var n := |us| - 1;
      var prefix := us[..n];
      assert forall k :: 0 <= k < |prefix| ==> prefix[k].subagentId != id by {
        forall k | 0 <= k < |prefix| ensures prefix[k].subagentId != id {
          assert prefix[k] == us[k];
        }
      }
      ApplyAllKeeps(store, prefix, id);
      ApplyKeeps(ApplyAll(store, prefix), us[n], id);
    }
  }

  lemma ApplyKeeps(store: Store, u: StatusUpdate, id: string)
    requires u.subagentId != id
    ensures id in Apply(store, u) <==> id in store
    ensures id in store ==> Apply(store, u)[id] == store[id]
  {
  }

  /** So the status `get_status` answers for such an id is unchanged too. */
  lemma ApplyAllUntouched(store: Store, us: seq<StatusUpdate>, id: string)
    requires forall k :: 0 <= k < |us| ==> us[k].subagentId != id
    ensures id in ApplyAll(store, us) <==> id in store
    ensures StatusIn(ApplyAll(store, us), id) == StatusIn(store, id)
  {
    ApplyAllKeeps(store, us, id);
  }

  /** The status the monitor reads for an id: the stored entry's, or `"unknown"`. */
  function StatusOf(store: Store, id: string): (v: Value)
    ensures id !in store ==> v == VStr("unknown")
  {
    Get(StatusIn(store, id), "status", VNull)
  }

  /** The clock as the monitor sees it: reading `i` is taken at the `i`-th loop test, and
      each poll sleeps a second, so every reading is at least a second after the one
      before. Reading 0 is also the start time. */
  ghost predicate Ticking(clock: nat -> int) {
    forall i: nat :: clock(i) + 1 <= clock(i + 1)
  }

  /** The time the monitor still has at the `i`-th loop test. */
  function Budget(clock: nat -> int, timeout: int, i: nat): nat {
    var left := clock(0) + timeout - clock(i);
    if left < 0 then 0 else left
  }

  lemma BudgetDecreases(clock: nat -> int, timeout: int, i: nat)
    requires Ticking(clock)
    requires clock(i) - clock(0) < timeout
    ensures Budget(clock, timeout, i + 1) < Budget(clock, timeout, i)
  {
    assert clock(i) + 1 <= clock(i + 1);
  }

  /** What a monitoring run returns and the store it leaves behind. */
  datatype Watched = Watched(result: map<string, Value>, store: Store)

  function CompletedReport(id: string, info: map<string, Value>): map<string, Value> {
    map["status" := VStr("completed"), "result" := Get(info, "result", VNull), "subagent_id" := VStr(id)]
  }

  function FailedReport(id: string, info: map<string, Value>): map<string, Value> {
    map["status" := VStr("failed"), "error" := Get(info, "error", VNull), "subagent_id" := VStr(id)]
  }

  function TimeoutReport(id: string): map<string, Value> {
    map["status" := VStr("timeout"), "error" := VStr(TimeoutError), "subagent_id" := VStr(id)]
  }

  /** `monitor_subagent` from its `i`-th loop test on: while time remains, a completed or
      failed entry ends the run with a report; any other status (running, cancelled,
      unknown, anything else) sleeps, during which the other tasks' writes land. When the
      time is up, the monitor itself records the timeout. */
  function Watch(store: Store, id: string, timeout: int, clock: nat -> int,
                 during: nat -> seq<StatusUpdate>, i: nat): Watched
    requires Ticking(clock)
    decreases Budget(clock, timeout, i)
  {
    if clock(i) - clock(0) < timeout then
      var info := StatusIn(store, id);
      var status := StatusOf(store, id);
      if status == VStr("completed") then Watched(CompletedReport(id, info), store)
      else if status == VStr("failed") then Watched(FailedReport(id, info), store)
      else
        BudgetDecreases(clock, timeout, i);
        Watch(ApplyAll(store, during(i)), id, timeout, clock, during, i + 1)
    else
      Watched(TimeoutReport(id), store[id := Entry(id, "timeout", None, Some(TimeoutError), clock(i))])
  }

  /** Every run ends in one of three reports, each naming the sub-agent. A completed report
      carries the result stored in the entry it saw and a failed one its error; neither
      writes to the store. A timeout is also recorded in the store, with its message. */
  lemma {:induction false} WatchOutcome(store: Store, id: string, timeout: int, clock: nat -> int,
                                        during: nat -> seq<StatusUpdate>, i: nat)
    requires Ticking(clock)
    ensures var w := Watch(store, id, timeout, clock, during, i);
            "status" in w.result && "subagent_id" in w.result && w.result["subagent_id"] == VStr(id) &&
            w.result["status"] in {VStr("completed"), VStr("failed"), VStr("timeout")}
    ensures var w := Watch(store, id, timeout, clock, during, i);
            w.result["status"] == VStr("completed") ==>
              w.result.Keys == {"status", "result", "subagent_id"} &&
              StatusOf(w.store, id) == VStr("completed") &&
              w.result["result"] == Get(StatusIn(w.store, id), "result", VNull)
    ensures var w := Watch(store, id, timeout, clock, during, i);
            w.result["status"] == VStr("failed") ==>
              w.result.Keys == {"status", "error", "subagent_id"} &&
              StatusOf(w.store, id) == VStr("failed") &&
              w.result["error"] == Get(StatusIn(w.store, id), "error", VNull)
    ensures var w := Watch(store, id, timeout, clock, during, i);
            w.result["status"] == VStr("timeout") ==>
              w.result == TimeoutReport(id) &&
              id in w.store && StatusOf(w.store, id) == VStr("timeout") &&
              Get(w.store[id], "error", VNull) == VStr(TimeoutError)
    decreases Budget(clock, timeout, i)
  {
    if clock(i) - clock(0) < timeout {
      var info := StatusIn(store, id);
      var status := Get(info, "status", VNull);
      if status != VStr("completed") && status != VStr("failed") {
        BudgetDecreases(clock, timeout, i);
        WatchOutcome(ApplyAll(store, during(i)), id, timeout, clock, during, i + 1);
      }
    }
  }

  /** A status that is already settled when the monitor starts is reported at once, with
      the store untouched. */
  lemma SettledAtOnce(store: Store, id: string, timeout: int, clock: nat -> int,
                      during: nat -> seq<StatusUpdate>)
    requires Ticking(clock)
    requires 0 < timeout
    requires StatusOf(store, id) in {VStr("completed"), VStr("failed")}
    ensures Watch(store, id, timeout, clock, during, 0).store == store
    ensures "status" in Watch(store, id, timeout, clock, during, 0).result
    ensures Watch(store, id, timeout, clock, during, 0).result["status"] == StatusOf(store, id)
  {
  }

  /** Cancellation does not end a monitoring run: if the sub-agent's entry is not settled
      and no other task ever writes to it again (as after `cancel_subagent`), the monitor
      keeps polling until its time is up and reports a timeout, overwriting the entry. */
  lemma {:induction false} UnsettledTimesOut(store: Store, id: string, timeout: int, clock: nat -> int,
                                             during: nat -> seq<StatusUpdate>, i: nat)
    requires Ticking(clock)
    requires StatusOf(store, id) !in {VStr("completed"), VStr("failed")}
    requires forall n: nat, k :: 0 <= k < |during(n)| ==> during(n)[k].subagentId != id
    ensures Watch(store, id, timeout, clock, during, i).result == TimeoutReport(id)
    decreases Budget(clock, timeout, i)
  {
    if clock(i) - clock(0) < timeout {
      var next := ApplyAll(store, during(i));
      ApplyAllUntouched(store, during(i), id);
      BudgetDecreases(clock, timeout, i);
      UnsettledTimesOut(next, id, timeout, clock, during, i + 1);
    }
  }

  /** A cancelled sub-agent that nobody writes to again is still watched until the time is
      up, and the monitor then reports (and records) a timeout, not the cancellation. */
  lemma CancelledRunTimesOut(store: Store, id: string, now: int, timeout: int, clock: nat -> int,
                             during: nat -> seq<StatusUpdate>)
    requires Ticking(clock)
    requires forall n: nat, k :: 0 <= k < |during(n)| ==> during(n)[k].subagentId != id
    ensures var cancelled := store[id := Entry(id, "cancelled", None, Some(CancelError), now)];
            Watch(cancelled, id, timeout, clock, during, 0).result == TimeoutReport(id)
  {
    var cancelled := store[id := Entry(id, "cancelled", None, Some(CancelError), now)];
    assert StatusOf(cancelled, id) == VStr("cancelled");
    UnsettledTimesOut(cancelled, id, timeout, clock, during, 0);
  }

  /** `SubAgentMonitor`: the status store, updated in place. */
  class SubAgentMonitor {
    var store: Store

    constructor ()
      ensures store == map[]
    {
      store := map[];
    }

    /** `get_status`: the stored entry, or an unknown answer that is not stored. */
    function GetStatus(id: string): (d: map<string, Value>)
      reads this
      ensures id in store ==> d == store[id]
      ensures id !in store ==> d == Unknown(id)
    {
      StatusIn(store, id)
    }

    /** `set_status`: replaces the entry of `id` and touches no other. */
    method SetStatus(id: string, status: string, result: Option<map<string, Value>>,
                     error: Option<string>, now: int)
      modifies this
      ensures store == old(store)[id := Entry(id, status, result, error, now)]
      ensures forall k :: k in old(store) && k != id ==> k in store && store[k] == old(store)[k]
    {
      store := store[id := Entry(id, status, result, error, now)];
    }

    /** `cancel_subagent`: records the cancellation and its message. */
    method CancelSubagent(id: string, now: int)
      modifies this
      ensures store == old(store)[id := Entry(id, "cancelled", None, Some(CancelError), now)]
    {
      SetStatus(id, "cancelled", None, Some(CancelError), now);
    }

    /** The writes other tasks make while the monitor sleeps, one `set_status` each. */
    method Interleave(us: seq<StatusUpdate>)
      modifies this
      ensures store == ApplyAll(old(store), us)
    {
      var k := 0;
      while k < |us|
        invariant 0 <= k <= |us|
        invariant store == ApplyAll(old(store), us[..k])
      {
        SetStatus(us[k].subagentId, us[k].status, us[k].result, us[k].error, us[k].at);
        assert us[..k + 1][..k] == us[..k];
        k := k + 1;
      }
      assert us[..k] == us;
    }

    /** `monitor_subagent`: polls the store once per second until the sub-agent completes
      or fails, or the timeout runs out. */
    method MonitorSubagent(id: string, timeout: int, clock: nat -> int,
                           during: nat -> seq<StatusUpdate>) returns (r: map<string, Value>)
      requires Ticking(clock)
      modifies this
      ensures Watched(r, store) == Watch(old(store), id, timeout, clock, during, 0)
    {
      var i: nat := 0;
      while clock(i) - clock(0) < timeout
        invariant Watch(old(store), id, timeout, clock, during, 0) == Watch(store, id, timeout, clock, during, i)
        decreases Budget(clock, timeout, i)
      {
        var info := GetStatus(id);
        var status := Get(info, "status", VNull);
        assert status == StatusOf(store, id);
        if status == VStr("completed") {
          return CompletedReport(id, info);
        } else if status == VStr("failed") {
          return FailedReport(id, info);
        }
        Interleave(during(i));
        BudgetDecreases(clock, timeout, i);
        i := i + 1;
      }
      SetStatus(id, "timeout", None, Some(TimeoutError), clock(i));
      r := TimeoutReport(id);
    }
  }
}
