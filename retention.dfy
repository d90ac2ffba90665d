/** The episodic-memory retention job: the heuristic fact extractor, the distillation of
    old episodes into per-user facts, and the job's control flow around the memory
    backend (statistics, old episodes, fact upserts, cleanup). The backend's answers are a
    parameter, and the calls the job makes are returned in order. */
module Retention {
  import opened Common

  /** An episode as the backend returns it; `None` stands for a missing key. */
  datatype Episode = Episode(
    id: Option<string>,
    userId: Option<string>,
    createdAt: Option<string>,
    sessionId: Option<string>)

  // ---------------------------------------------------------------- string order

  /** Python's ordering of strings: by code point, a proper prefix first. */
  predicate LexLe(a: string, b: string)
    decreases |a|
  {
    a == [] || (b != [] && (a[0] < b[0] || (a[0] == b[0] && LexLe(a[1..], b[1..]))))
  }

  lemma {:induction false} LexTotal(a: string, b: string)
    ensures LexLe(a, b) || LexLe(b, a)
    decreases |a|
  {
    if a != [] && b != [] && a[0] == b[0] {
      LexTotal(a[1..], b[1..]);
    }
  }

  lemma {:induction false} LexRefl(a: string)
    ensures LexLe(a, a)
    decreases |a|
  {
    if a != [] {
      LexRefl(a[1..]);
    }
  }

  lemma {:induction false} LexTrans(a: string, b: string, c: string)
    requires LexLe(a, b) && LexLe(b, c)
    ensures LexLe(a, c)
    decreases |a|
  {
    if a != [] && a[0] == b[0] && b[0] == c[0] {
      LexTrans(a[1..], b[1..], c[1..]);
    }
  }

  /** `min` of a non-empty list of strings. */
  function MinOf(ds: seq<string>): (m: string)
    requires ds != []
    ensures m in ds
    ensures forall d :: d in ds ==> LexLe(m, d)
    decreases |ds|
  {
    LexRefl(ds[|ds| - 1]);
    if |ds| == 1 then ds[0]
    else
      var n := |ds| - 1;
      var m := MinOf(ds[..n]);
      LexTotal(m, ds[n]);
      assert forall d :: d in ds ==> d in ds[..n] || d == ds[n];
      if LexLe(m, ds[n]) then m
      else
        assert forall d :: d in ds[..n] ==> LexLe(ds[n], d) by {
          forall d | d in ds[..n] ensures LexLe(ds[n], d) { LexTrans(ds[n], m, d); }
        }
        ds[n]
  }

  /** `max` of a non-empty list of strings. */
  function MaxOf(ds: seq<string>): (m: string)
    requires ds != []
    ensures m in ds
    ensures forall d :: d in ds ==> LexLe(d, m)
    decreases |ds|
  {
    LexRefl(ds[|ds| - 1]);
    if |ds| == 1 then ds[0]
    else
      var n := |ds| - 1;
      var m := MaxOf(ds[..n]);
      LexTotal(m, ds[n]);
      assert forall d :: d in ds ==> d in ds[..n] || d == ds[n];
      if LexLe(ds[n], m) then m
      else
        assert forall d :: d in ds[..n] ==> LexLe(d, ds[n]) by {
          forall d | d in ds[..n] ensures LexLe(d, ds[n]) { LexTrans(d, m, ds[n]); }
        }
        ds[n]
  }

  // ---------------------------------------------------------------- fact extraction

  /** The non-empty `created_at` values, in episode order. */
  function Dates(eps: seq<Episode>): (ds: seq<string>)
    ensures forall d :: d in ds <==> exists e :: e in eps && Truthy(e.createdAt) && e.createdAt.value == d
    decreases |eps|
  {
    if eps == [] then []
    else
      var n := |eps| - 1;
      var e := eps[n];
      assert forall x :: x in eps <==> x in eps[..n] || x == e;
      Dates(eps[..n]) + (if Truthy(e.createdAt) then [e.createdAt.value] else [])
  }

  /** The distinct session ids that are present (an empty one counts; a missing one does not). */
  function Sessions(eps: seq<Episode>): set<string> {
    set e | e in eps && e.sessionId.Some? :: e.sessionId.value
  }

  /** The earliest and the latest non-empty date, when there is one. */
  function DateRange(eps: seq<Episode>): Option<(string, string)> {
    var ds := Dates(eps);
    if ds == [] then None else Some((MinOf(ds), MaxOf(ds)))
  }

  /** The number of distinct session ids, when there is one. */
  function SessionCount(eps: seq<Episode>): Option<nat> {
    var ss := Sessions(eps);
    if ss == {} then None else Some(|ss|)
  }

  const Total := "total_interactions"
  const First := "first_interaction"
  const Last := "last_interaction"
  const SessionKey := "session_count"

  /** The facts dictionary, built in the order the extractor inserts its keys. */
  function FactsOf(total: nat, range: Option<(string, string)>, sessions: Option<nat>): (f: map<string, string>)
    ensures f.Keys == {Total} + (if range.Some? then {First, Last} else {}) +
                      (if sessions.Some? then {SessionKey} else {})
  {
    var base := map[Total := NatToString(total)];
    var withDates := if range.Some? then base[First := range.value.0][Last := range.value.1] else base;
    if sessions.Some? then withDates[SessionKey := NatToString(sessions.value)] else withDates
  }

  /** `_extract_facts_simple`. */
  function ExtractFacts(eps: seq<Episode>): map<string, string> {
    FactsOf(|eps|, DateRange(eps), SessionCount(eps))
  }

  /** The interaction count is always there and reads back as the number of episodes. */
  lemma ExtractFactsTotal(eps: seq<Episode>)
    ensures var f := ExtractFacts(eps);
            Total in f &&
            (forall i :: 0 <= i < |f[Total]| ==> IsDigit(f[Total][i])) &&
            ParseNat(f[Total]) == |eps|
  {
    ParseNatToString(|eps|);
  }

  /** The date range is there exactly when some episode has a non-empty date, and then it
      is the earliest and the latest such date. */
  lemma ExtractFactsDates(eps: seq<Episode>)
    ensures var f := ExtractFacts(eps);
            (First in f <==> exists e :: e in eps && Truthy(e.createdAt)) &&
            (Last in f <==> First in f)
    ensures var f := ExtractFacts(eps);
            First in f ==>
              (exists e :: e in eps && Truthy(e.createdAt) && e.createdAt.value == f[First]) &&
              (exists e :: e in eps && Truthy(e.createdAt) && e.createdAt.value == f[Last]) &&
              (forall e :: e in eps && Truthy(e.createdAt) ==>
                 LexLe(f[First], e.createdAt.value) && LexLe(e.createdAt.value, f[Last]))
  {
    var ds := Dates(eps);
    assert ExtractFacts(eps) == FactsOf(|eps|, DateRange(eps), SessionCount(eps));
    if ds != [] {
      assert ds[0] in ds;
    }
    if exists e :: e in eps && Truthy(e.createdAt) {
      var e :| e in eps && Truthy(e.createdAt);
      assert e.createdAt.value in ds;
    }
  }

  /** The session count is there exactly when some episode has a session id, and then it
      is the number of distinct ones. */
  lemma ExtractFactsSessions(eps: seq<Episode>)
    ensures var f := ExtractFacts(eps);
            (SessionKey in f <==> exists e :: e in eps && e.sessionId.Some?) &&
            (SessionKey in f ==> |Sessions(eps)| >= 1 &&
                                 (forall i :: 0 <= i < |f[SessionKey]| ==> IsDigit(f[SessionKey][i])) &&
                                 ParseNat(f[SessionKey]) == |Sessions(eps)|)
  {
    if exists e :: e in eps && e.sessionId.Some? {
      var e :| e in eps && e.sessionId.Some?;
      assert e.sessionId.value in Sessions(eps);
    }
    ParseNatToString(|Sessions(eps)|);
  }

  /** An empty history yields only the interaction count, `"0"`. */
  lemma ExtractFactsEmpty()
    ensures ExtractFacts([]) == map[Total := "0"]
  {
    assert Sessions([]) == {};
  }

  /** Episodes without a date or a session id give neither a date range nor a session count. */
  lemma ExtractFactsBare(eps: seq<Episode>)
    requires forall e :: e in eps ==> !Truthy(e.createdAt) && e.sessionId.None?
    ensures ExtractFacts(eps).Keys == {Total}
  {
    ExtractFactsDates(eps);
    ExtractFactsSessions(eps);
  }

  const FactOrder: seq<string> := [Total, First, Last, SessionKey]

  datatype Fact = Fact(key: string, value: string)

  /** The facts of `keys` that `f` holds, in the order of `keys`. */
  function Present(keys: seq<string>, f: map<string, string>): (fs: seq<Fact>)
    ensures forall x :: x in fs ==> x.key in f && f[x.key] == x.value
  {
    if keys == [] then []
    else if keys[0] in f then [Fact(keys[0], f[keys[0]])] + Present(keys[1..], f)
    else Present(keys[1..], f)
  }

  /** The facts in the order `_extract_facts_simple` inserts them. */
  function OrderedFacts(f: map<string, string>): (fs: seq<Fact>)
    ensures forall x :: x in fs ==> x.key in f && f[x.key] == x.value
  {
    Present(FactOrder, f)
  }

  /** Over distinct keys, the present facts are exactly the keys both listed and held. */
  lemma {:induction false} PresentCount(keys: seq<string>, f: map<string, string>)
    requires forall i, j :: 0 <= i < j < |keys| ==> keys[i] != keys[j]
    ensures |Present(keys, f)| == |f.Keys * (set k | k in keys)|
  {
    if keys != [] {
      var rest := keys[1..];
      PresentCount(rest, f);
      var r := f.Keys * (set k | k in rest);
      var all := f.Keys * (set k | k in keys);
      assert keys[0] !in r;
      if keys[0] in f {
        assert all == r + {keys[0]};
      } else {
        assert all == r;
      }
    }
  }

  /** Every fact is visited once: the ordered facts are as many as the facts. */
  lemma FactsOfCount(total: nat, range: Option<(string, string)>, sessions: Option<nat>)
    ensures |OrderedFacts(FactsOf(total, range, sessions))| == |FactsOf(total, range, sessions)|
  {
    OrderedCount(FactsOf(total, range, sessions));
  }

  /** Any dictionary over the four fact keys is listed whole by the fact order. */
  lemma OrderedCount(f: map<string, string>)
    requires f.Keys <= {Total, First, Last, SessionKey}
    ensures |OrderedFacts(f)| == |f|
  {
    FactOrderKeys();
    PresentCount(FactOrder, f);
    assert f.Keys * (set k | k in FactOrder) == f.Keys;
  }

  /** The fact order lists the four fact keys, each once. */
  lemma FactOrderKeys()
    ensures forall i, j :: 0 <= i < j < |FactOrder| ==> FactOrder[i] != FactOrder[j]
    ensures (set k | k in FactOrder) == {Total, First, Last, SessionKey}
  {
  }

  lemma OrderedFactsCount(eps: seq<Episode>)
    ensures |OrderedFacts(ExtractFacts(eps))| == |ExtractFacts(eps)|
  {
    FactsOfCount(|eps|, DateRange(eps), SessionCount(eps));
  }

  // ---------------------------------------------------------------- distillation

  /** The group an episode falls in: its user id, or `"unknown"` when it has none. */
  function UserKey(e: Episode): string {
    if e.userId.Some? then e.userId.value else "unknown"
  }

  /** The episodes of one user, in order. */
  function OfUser(eps: seq<Episode>, u: string): (r: seq<Episode>)
    ensures forall e :: e in r <==> e in eps && UserKey(e) == u
    ensures (forall e :: e in eps ==> UserKey(e) != u) ==> r == []
    decreases |eps|
  {
    if eps == [] then []
    else
      var n := |eps| - 1;
      assert forall x :: x in eps <==> x in eps[..n] || x == eps[n];
      OfUser(eps[..n], u) + (if UserKey(eps[n]) == u then [eps[n]] else [])
  }

  /** The users in order of first appearance, and each one's episodes. */
  datatype Grouping = Grouping(users: seq<string>, groups: map<string, seq<Episode>>)

  /** The `by_user` dictionary built with `setdefault(...).append(...)`. */
  function Group(eps: seq<Episode>): Grouping
    decreases |eps|
  {
    if eps == [] then Grouping([], map[])
    else
      var n := |eps| - 1;
      var g := Group(eps[..n]);
      var u := UserKey(eps[n]);
      if u in g.groups then Grouping(g.users, g.groups[u := g.groups[u] + [eps[n]]])
      else Grouping(g.users + [u], g.groups[u := [eps[n]]])
  }

  /** One step of `Group`: the next episode joins its user's group, or opens a new one. */
  lemma GroupStep(eps: seq<Episode>)
    requires eps != []
    ensures var g := Group(eps[..|eps| - 1]);
            var e := eps[|eps| - 1];
            var u := UserKey(e);
            Group(eps) == if u in g.groups then Grouping(g.users, g.groups[u := g.groups[u] + [e]])
                          else Grouping(g.users + [u], g.groups[u := [e]])
  {
  }

  /** There is a group for every user that has an episode and for no other, and the users
      listed are exactly those with a group. */
  lemma {:induction false} GroupKeys(eps: seq<Episode>)
    ensures forall u :: u in Group(eps).users <==> u in Group(eps).groups
    ensures forall u :: u in Group(eps).groups <==> exists e :: e in eps && UserKey(e) == u
    decreases |eps|
  {
    if eps != [] {
      var n := |eps| - 1;
      GroupKeys(eps[..n]);
      GroupStep(eps);
      assert forall x :: x in eps <==> x in eps[..n] || x == eps[n];
    }
  }

  /** The group of each user is precisely that user's episodes, in order; so every episode
      lands in exactly one group. */
  lemma {:induction false} GroupContents(eps: seq<Episode>)
    ensures forall u :: u in Group(eps).groups ==> Group(eps).groups[u] == OfUser(eps, u)
    decreases |eps|
  {
    if eps != [] {
      var n := |eps| - 1;
      GroupContents(eps[..n]);
      GroupKeys(eps[..n]);
      GroupStep(eps);
      var g := Group(eps[..n]);
      forall u | u in Group(eps).groups
        ensures Group(eps).groups[u] == OfUser(eps, u)
      {
      }
    }
  }

  /** Each user is listed once, in order of first appearance. */
  lemma {:induction false} GroupDistinct(eps: seq<Episode>)
    ensures forall i, j :: 0 <= i < j < |Group(eps).users| ==> Group(eps).users[i] != Group(eps).users[j]
    decreases |eps|
  {
    if eps != [] {
      var n := |eps| - 1;
      GroupDistinct(eps[..n]);
      GroupKeys(eps[..n]);
      GroupStep(eps);
    }
  }

  /** One fact upsert: the tenant, the user, the fact's key and value. */
  datatype Upsert = Upsert(tenantId: string, userId: string, key: string, value: string)

  /** The upserts for a list of facts of one user. */
  function Tag(tenantId: string, u: string, fs: seq<Fact>): (us: seq<Upsert>)
    ensures |us| == |fs|
  {
    seq(|fs|, i requires 0 <= i < |fs| => Upsert(tenantId, u, fs[i].key, fs[i].value))
  }

  /** The upserts for one user's facts, in fact order. */
  function UserUpserts(tenantId: string, u: string, eps: seq<Episode>): seq<Upsert> {
    Tag(tenantId, u, OrderedFacts(ExtractFacts(eps)))
  }

  /** Every upsert a distillation would make, user by user. */
  function Plan(tenantId: string, users: seq<string>, groups: map<string, seq<Episode>>): seq<Upsert>
    requires forall u :: u in users ==> u in groups
    decreases |users|
  {
    if users == [] then []
    else
      var n := |users| - 1;
      Plan(tenantId, users[..n], groups) + UserUpserts(tenantId, users[n], groups[users[n]])
  }

  /** The sum of the users' fact counts, as a dry run reports it. */
  function FactTotal(users: seq<string>, groups: map<string, seq<Episode>>): nat
    requires forall u :: u in users ==> u in groups
    decreases |users|
  {
    if users == [] then 0
    else
      var n := |users| - 1;
      FactTotal(users[..n], groups) + |ExtractFacts(groups[users[n]])|
  }

  /** How many of the upserts the backend accepted. */
  function Accepted(us: seq<Upsert>, accepts: Upsert -> bool): (n: nat)
    ensures n <= |us|
    decreases |us|
  {
    if us == [] then 0
    else
      var n := |us| - 1;
      Accepted(us[..n], accepts) + (if accepts(us[n]) then 1 else 0)
  }

  /** A dry run reports exactly the count a real run would reach if every upsert succeeded. */
  lemma {:induction false} DryRunPredictsPlan(tenantId: string, users: seq<string>, groups: map<string, seq<Episode>>)
    requires forall u :: u in users ==> u in groups
    ensures FactTotal(users, groups) == |Plan(tenantId, users, groups)|
    decreases |users|
  {
    if users != [] {
      var n := |users| - 1;
      DryRunPredictsPlan(tenantId, users[..n], groups);
      OrderedFactsCount(groups[users[n]]);
    }
  }

  /** Accepting everything accepts every upsert; a failed upsert costs exactly itself. */
  lemma {:induction false} AcceptedAll(us: seq<Upsert>, accepts: Upsert -> bool)
    ensures (forall u :: u in us ==> accepts(u)) ==> Accepted(us, accepts) == |us|
    ensures (exists u :: u in us && !accepts(u)) ==> Accepted(us, accepts) < |us|
    decreases |us|
  {
    if us != [] {
      var n := |us| - 1;
      assert forall x :: x in us <==> x in us[..n] || x == us[n];
      AcceptedAll(us[..n], accepts);
    }
  }

  /** What a distillation reports and the upserts it attempts. */
  datatype Distilled = Distilled(count: nat, upserts: seq<Upsert>)

  /** `_distill_episodes`: a dry run counts the facts and upserts nothing; otherwise every
      planned upsert is attempted, and the count is the number that succeeded. */
  function Distill(tenantId: string, eps: seq<Episode>, dryRun: bool, accepts: Upsert -> bool): Distilled {
    var g := Group(eps);
    GroupKeys(eps);
    var plan := Plan(tenantId, g.users, g.groups);
    if dryRun then Distilled(FactTotal(g.users, g.groups), [])
    else Distilled(Accepted(plan, accepts), plan)
  }

  lemma PlanStep(tenantId: string, users: seq<string>, groups: map<string, seq<Episode>>, j: nat)
    requires j < |users|
    requires forall u :: u in users ==> u in groups
    ensures forall u :: u in users[..j] ==> u in groups
    ensures Plan(tenantId, users[..j + 1], groups) ==
            Plan(tenantId, users[..j], groups) + UserUpserts(tenantId, users[j], groups[users[j]])
    ensures FactTotal(users[..j + 1], groups) == FactTotal(users[..j], groups) + |ExtractFacts(groups[users[j]])|
  {
    assert users[..j + 1][..j] == users[..j] && users[..j + 1][j] == users[j];
  }

  lemma AcceptedStep(us: seq<Upsert>, x: Upsert, accepts: Upsert -> bool)
    ensures Accepted(us + [x], accepts) == Accepted(us, accepts) + (if accepts(x) then 1 else 0)
  {
    assert (us + [x])[..|us|] == us;
  }

  /** The fact loop for one user: each fact is upserted in turn, and a failure is counted
      out without stopping the rest. */
  method UpsertUserFacts(tenantId: string, u: string, facts: seq<Fact>, accepts: Upsert -> bool,
                         count0: nat, done0: seq<Upsert>)
    returns (count: nat, done: seq<Upsert>)
    requires count0 == Accepted(done0, accepts)
    ensures done == done0 + Tag(tenantId, u, facts)
    ensures count == Accepted(done, accepts)
  {
    ghost var all := Tag(tenantId, u, facts);
    count, done := count0, done0;
    var k := 0;
    while k < |facts|
      invariant 0 <= k <= |facts|
      invariant done == done0 + all[..k]
      invariant count == Accepted(done, accepts)
    {
      var up := Upsert(tenantId, u, facts[k].key, facts[k].value);
      assert all[..k + 1] == all[..k] + [up];
      AcceptedStep(done, up, accepts);
      if accepts(up) {
        count := count + 1;
      }
      done := done + [up];
      k := k + 1;
    }
    assert all[..k] == all;
  }

  /** The body of the per-user loop of `_distill_episodes`: extract the user's facts, then
      count them (dry run) or upsert them one by one. */
  method DistillUser(tenantId: string, u: string, eps: seq<Episode>, dryRun: bool, accepts: Upsert -> bool,
                     count0: nat, done0: seq<Upsert>)
    returns (count: nat, done: seq<Upsert>)
    requires !dryRun ==> count0 == Accepted(done0, accepts)
    ensures dryRun ==> count == count0 + |ExtractFacts(eps)| && done == done0
    ensures !dryRun ==> done == done0 + UserUpserts(tenantId, u, eps) && count == Accepted(done, accepts)
  {
    var facts := ExtractFacts(eps);
    if dryRun {
      return count0 + |facts|, done0;
    }
    count, done := UpsertUserFacts(tenantId, u, OrderedFacts(facts), accepts, count0, done0);
  }

  /** The grouping loop of `_distill_episodes`. */
  method GroupEpisodes(eps: seq<Episode>) returns (users: seq<string>, groups: map<string, seq<Episode>>)
    ensures Grouping(users, groups) == Group(eps)
  {
    users, groups := [], map[];
    var i := 0;
    while i < |eps|
      invariant 0 <= i <= |eps|
      invariant Grouping(users, groups) == Group(eps[..i])
    {
      var u := UserKey(eps[i]);
      assert eps[..i + 1][..i] == eps[..i] && eps[..i + 1][i] == eps[i];
      if u in groups {
        groups := groups[u := groups[u] + [eps[i]]];
      } else {
        users := users + [u];
        groups := groups[u := [eps[i]]];
      }
      i := i + 1;
    }
    assert eps[..i] == eps;
  }

  /** `_distill_episodes`: group the episodes, then walk the users; a dry run only counts
      each user's facts, a real run upserts them one by one. */
  method DistillEpisodes(tenantId: string, eps: seq<Episode>, dryRun: bool, accepts: Upsert -> bool)
    returns (d: Distilled)
    ensures d == Distill(tenantId, eps, dryRun, accepts)
  {
    var users, groups := GroupEpisodes(eps);
    GroupKeys(eps);
    var count: nat := 0;
    var done: seq<Upsert> := [];
    var j := 0;
    while j < |users|
      invariant 0 <= j <= |users|
      invariant dryRun ==> count == FactTotal(users[..j], groups) && done == []
      invariant !dryRun ==> done == Plan(tenantId, users[..j], groups) && count == Accepted(done, accepts)
    {
      PlanStep(tenantId, users, groups, j);
      count, done := DistillUser(tenantId, users[j], groups[users[j]], dryRun, accepts, count, done);
      j := j + 1;
    }
    assert users[..j] == users;
    d := Distilled(count, done);
  }

  /** A dry run reports the number of upserts a real run attempts, and as many as a real run
      in which every upsert succeeds; a real run never reports more. */
  lemma DryRunPredictsRealRun(tenantId: string, eps: seq<Episode>, accepts: Upsert -> bool)
    ensures var dry := Distill(tenantId, eps, true, accepts);
            var actual := Distill(tenantId, eps, false, accepts);
            dry.upserts == [] && dry.count == |actual.upserts| && actual.count <= dry.count &&
            ((forall u :: u in actual.upserts ==> accepts(u)) ==> actual.count == dry.count)
  {
    var g := Group(eps);
    GroupKeys(eps);
    DryRunPredictsPlan(tenantId, g.users, g.groups);
    AcceptedAll(Plan(tenantId, g.users, g.groups), accepts);
  }

  // ---------------------------------------------------------------- the job

  /** A call the job makes on the memory backend. */
  datatype BrainCall =
    | GetEpisodeStats(tenantId: string)
    | GetOldEpisodes(tenantId: string, olderThanDays: int, limit: int)
    | UpsertFact(upsert: Upsert)
    | CleanupByIds(tenantId: string, olderThanDays: int, episodeIds: seq<string>)
    | CleanupByAge(tenantId: string, olderThanDays: int)

  /** What the backend answers: the statistics, the old episodes, which upserts succeed, and
      the count a cleanup reports. */
  datatype Backend = Backend(
    stats: map<string, Value>,
    oldEpisodes: seq<Episode>,
    accepts: Upsert -> bool,
    cleanupCount: int)

  /** The job's arguments, with the clock's readings (elapsed milliseconds, finish time). */
  datatype Job = Job(tenantId: string, retentionDays: int, batchSize: int, distill: bool, dryRun: bool,
                     durationMs: int, timestamp: string)

  /** What the job returns and the calls it made, in order. */
  datatype Outcome = Outcome(result: map<string, Value>, calls: seq<BrainCall>)

  /** The ids of the distilled episodes that have a non-empty id. */
  function ProcessedIds(eps: seq<Episode>): (ids: seq<string>)
    ensures ids == [] <==> forall e :: e in eps ==> !Truthy(e.id)
    decreases |eps|
  {
    if eps == [] then []
    else
      var n := |eps| - 1;
      assert forall x :: x in eps <==> x in eps[..n] || x == eps[n];
      ProcessedIds(eps[..n]) + (if Truthy(eps[n].id) then [eps[n].id.value] else [])
  }

  function UpsertCalls(us: seq<Upsert>): (cs: seq<BrainCall>)
    ensures |cs| == |us| && forall c :: c in cs ==> c.UpsertFact?
  {
    seq(|us|, i requires 0 <= i < |us| => UpsertFact(us[i]))
  }

  /** Whether the statistics report no episodes (`total_before == 0`). */
  predicate NoEpisodes(total: Value) {
    total == VInt(0) || total == VBool(false)
  }

  function ShortCircuit(job: Job): map<string, Value> {
    map["tenant_id" := VStr(job.tenantId), "total_before" := VInt(0), "deleted_count" := VInt(0),
        "distilled_facts" := VInt(0), "duration_ms" := VInt(0), "dry_run" := VBool(job.dryRun)]
  }

  /** The distillation step, given what distilling the old episodes yields: its count, the
      ids it processed, and its calls. */
  datatype Distillation = Distillation(count: nat, processed: seq<string>, calls: seq<BrainCall>)

  function DistillStep(job: Job, b: Backend, d: Distilled): Distillation {
    if !job.distill then Distillation(0, [], [])
    else
      var fetch := GetOldEpisodes(job.tenantId, job.retentionDays, job.batchSize);
      if b.oldEpisodes == [] then Distillation(0, [], [fetch])
      else Distillation(d.count, ProcessedIds(b.oldEpisodes), [fetch] + UpsertCalls(d.upserts))
  }

  /** The cleanup step: the deleted count and the call made, if any. */
  function CleanupStep(job: Job, b: Backend, processed: seq<string>): (Value, seq<BrainCall>) {
    if job.dryRun then (VInt(0), [])
    else if processed != [] then (VInt(b.cleanupCount), [CleanupByIds(job.tenantId, job.retentionDays, processed)])
    else (VInt(b.cleanupCount), [CleanupByAge(job.tenantId, job.retentionDays)])
  }

  /** The dictionary a completed run returns. */
  function Report(job: Job, total: Value, deleted: Value, distilled: nat): (r: map<string, Value>)
    ensures r.Keys == {"tenant_id", "retention_days", "total_before", "deleted_count", "distilled_facts",
                       "duration_ms", "dry_run", "timestamp"}
  {
    map["tenant_id" := VStr(job.tenantId), "retention_days" := VInt(job.retentionDays),
        "total_before" := total, "deleted_count" := deleted,
        "distilled_facts" := VInt(distilled), "duration_ms" := VInt(job.durationMs),
        "dry_run" := VBool(job.dryRun), "timestamp" := VStr(job.timestamp)]
  }

  /** The job once the outcome of distilling the old episodes is known. */
  function Retain(job: Job, b: Backend, d: Distilled): Outcome {
    var total := Get(b.stats, "total", VInt(0));
    var stats := [GetEpisodeStats(job.tenantId)];
    if NoEpisodes(total) then Outcome(ShortCircuit(job), stats)
    else
      var ds := DistillStep(job, b, d);
      var (deleted, cleanup) := CleanupStep(job, b, ds.processed);
      Outcome(Report(job, total, deleted, ds.count), stats + ds.calls + cleanup)
  }

  /** `run_retention`. */
  function RunRetention(job: Job, b: Backend): Outcome {
    Retain(job, b, Distill(job.tenantId, b.oldEpisodes, job.dryRun, b.accepts))
  }

  /** With no episodes the job stops after the statistics call and reports zeros. */
  lemma ZeroShortCircuits(job: Job, b: Backend)
    requires NoEpisodes(Get(b.stats, "total", VInt(0)))
    ensures RunRetention(job, b).calls == [GetEpisodeStats(job.tenantId)]
    ensures var r := RunRetention(job, b).result;
            r.Keys == {"tenant_id", "total_before", "deleted_count", "distilled_facts", "duration_ms", "dry_run"} &&
            r["deleted_count"] == VInt(0) && r["distilled_facts"] == VInt(0) && r["dry_run"] == VBool(job.dryRun)
  {
  }

  /** A dry run mutates nothing: it makes no upsert and no cleanup call and reports zero
      deletions; its distilled count is what distilling in dry-run mode counts. */
  lemma DryRunMutatesNothing(job: Job, b: Backend)
    requires job.dryRun
    ensures forall c :: c in RunRetention(job, b).calls ==> c.GetEpisodeStats? || c.GetOldEpisodes?
    ensures !NoEpisodes(Get(b.stats, "total", VInt(0))) ==>
              RunRetention(job, b).result["deleted_count"] == VInt(0) &&
              RunRetention(job, b).result["distilled_facts"] ==
                VInt(if job.distill then Distill(job.tenantId, b.oldEpisodes, true, b.accepts).count else 0)
  {
    var d := Distill(job.tenantId, b.oldEpisodes, true, b.accepts);
    DryRetain(job, b, d);
    if b.oldEpisodes == [] {
      assert d.count == 0;
    }
  }

  /** A dry run with no upserts planned makes only the two reading calls and deletes nothing. */
  lemma DryRetain(job: Job, b: Backend, d: Distilled)
    requires job.dryRun && d.upserts == []
    ensures forall c :: c in Retain(job, b, d).calls ==> c.GetEpisodeStats? || c.GetOldEpisodes?
    ensures !NoEpisodes(Get(b.stats, "total", VInt(0))) ==>
              Retain(job, b, d).result["deleted_count"] == VInt(0) &&
              Retain(job, b, d).result["distilled_facts"] ==
                VInt(if job.distill && b.oldEpisodes != [] then d.count else 0)
  {
    assert UpsertCalls(d.upserts) == [];
  }

  /** A real run deletes by id exactly when distillation ran on episodes of which some had
      a non-empty id, and then deletes precisely those ids; otherwise it deletes by age.
      Cleanup is the last call, made once. This holds whatever distilling yields. */
  lemma CleanupChoice(job: Job, b: Backend, d: Distilled)
    requires !job.dryRun && !NoEpisodes(Get(b.stats, "total", VInt(0)))
    ensures var cs := Retain(job, b, d).calls;
            |cs| >= 2 && cs[0] == GetEpisodeStats(job.tenantId) &&
            (cs[|cs| - 1].CleanupByIds? || cs[|cs| - 1].CleanupByAge?) &&
            (forall k :: 0 <= k < |cs| - 1 ==> !cs[k].CleanupByIds? && !cs[k].CleanupByAge?)
    ensures var cs := Retain(job, b, d).calls;
            cs[|cs| - 1].CleanupByIds? <==>
              job.distill && exists e :: e in b.oldEpisodes && Truthy(e.id)
    ensures var cs := Retain(job, b, d).calls;
            cs[|cs| - 1].CleanupByIds? ==> cs[|cs| - 1].episodeIds == ProcessedIds(b.oldEpisodes)
  {
    var ds := DistillStep(job, b, d);
    assert forall c :: c in ds.calls ==> c.GetOldEpisodes? || c.UpsertFact?;
  }

  /** The distillation phase of `run_retention`: fetch the old episodes, distil them if
      there are any, and collect their ids. */
  method DistillPhase(job: Job, b: Backend) returns (ds: Distillation)
    ensures ds == DistillStep(job, b, Distill(job.tenantId, b.oldEpisodes, job.dryRun, b.accepts))
  {
    if !job.distill {
      return Distillation(0, [], []);
    }
    var fetch := GetOldEpisodes(job.tenantId, job.retentionDays, job.batchSize);
    if b.oldEpisodes == [] {
      return Distillation(0, [], [fetch]);
    }
    var d := DistillEpisodes(job.tenantId, b.oldEpisodes, job.dryRun, b.accepts);
    ds := Distillation(d.count, ProcessedIds(b.oldEpisodes), [fetch] + UpsertCalls(d.upserts));
  }

  /** `run_retention` as the sequence of steps it takes. */
  method RunRetentionJob(job: Job, b: Backend) returns (o: Outcome)
    ensures o == RunRetention(job, b)
  {
    var calls := [GetEpisodeStats(job.tenantId)];
    var total := Get(b.stats, "total", VInt(0));
    if NoEpisodes(total) {
      return Outcome(ShortCircuit(job), calls);
    }
    var ds := DistillPhase(job, b);
    calls := calls + ds.calls;
    var deleted := VInt(0);
    if !job.dryRun {
      if ds.processed != [] {
        calls := calls + [CleanupByIds(job.tenantId, job.retentionDays, ds.processed)];
      } else {
        calls := calls + [CleanupByAge(job.tenantId, job.retentionDays)];
      }
      deleted := VInt(b.cleanupCount);
    }
    o := Outcome(Report(job, total, deleted, ds.count), calls);
  }
}
