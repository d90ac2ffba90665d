/** Per-sub-agent isolation: the context that names a sub-agent run (tenant, session,
    trace, parent and own id), its dictionary form, and the isolated environment derived
    from it (cache-key prefix, database schema, checkpoint thread). */
module Isolation {
  import opened Common

  datatype IsolationContext = IsolationContext(
    tenantId: Option<string>,
    sessionId: Option<string>,
    traceId: string,
    parentAgentId: string,
    subagentId: string)

  datatype IsolatedEnvironment = IsolatedEnvironment(
    redisKeyPrefix: string,
    dbSchema: string,
    checkpointThreadId: string,
    context: IsolationContext)

  /** The five keys of a context's dictionary form. */
  const ContextKeys: set<string> := {"tenant_id", "session_id", "trace_id", "parent_agent_id", "subagent_id"}

  /** `to_dict`: one entry per field, `None` as null. */
  function ToDict(c: IsolationContext): (d: map<string, Value>)
    ensures d.Keys == ContextKeys
  {
    map["tenant_id" := OptValue(c.tenantId),
        "session_id" := OptValue(c.sessionId),
        "trace_id" := VStr(c.traceId),
        "parent_agent_id" := VStr(c.parentAgentId),
        "subagent_id" := VStr(c.subagentId)]
  }

  /** An optional string field: absent or null reads as `None`. */
  function OptionalField(d: map<string, Value>, k: string): Result<Option<string>, string> {
    if k !in d then Ok(None)
    else match d[k]
      case VNull => Ok(None)
      case VStr(s) => Ok(Some(s))
      case _ => Err(k)
  }

  /** A string field: absent reads as `""`. */
  function StringField(d: map<string, Value>, k: string): Result<string, string> {
    if k !in d then Ok("")
    else match d[k]
      case VStr(s) => Ok(s)
      case _ => Err(k)
  }

  /** `from_dict`: missing ids default to `""`, missing tenant and session to `None`; a value
      of the wrong type is reported with its key. Keys other than the five are ignored. */
  function FromDict(d: map<string, Value>): (r: Result<IsolationContext, string>)
    ensures r.Err? ==> r.error in ContextKeys && r.error in d
  {
    match (OptionalField(d, "tenant_id"), OptionalField(d, "session_id"), StringField(d, "trace_id"),
           StringField(d, "parent_agent_id"), StringField(d, "subagent_id"))
    case (Ok(t), Ok(s), Ok(tr), Ok(p), Ok(id)) => Ok(IsolationContext(t, s, tr, p, id))
    case (Err(k), _, _, _, _) => Err(k)
    case (_, Err(k), _, _, _) => Err(k)
    case (_, _, Err(k), _, _) => Err(k)
    case (_, _, _, Err(k), _) => Err(k)
    case (_, _, _, _, Err(k)) => Err(k)
  }

  /** Reading back the dictionary form gives the same context. */
  lemma FromDictToDict(c: IsolationContext)
    ensures FromDict(ToDict(c)) == Ok(c)
  {
  }

  /** Conversely, a dictionary that reads as a context agrees with that context's dictionary
      form on every context key it holds, and lacks only keys whose value is the default. */
  lemma ToDictFromDict(d: map<string, Value>, c: IsolationContext)
    requires FromDict(d) == Ok(c)
    ensures forall k :: k in ContextKeys && k in d ==> (k in ToDict(c) && ToDict(c)[k] == d[k])
    ensures "tenant_id" !in d ==> c.tenantId == None
    ensures "session_id" !in d ==> c.sessionId == None
    ensures "trace_id" !in d ==> c.traceId == ""
    ensures "parent_agent_id" !in d ==> c.parentAgentId == ""
    ensures "subagent_id" !in d ==> c.subagentId == ""
  {
  }

  /** An empty dictionary reads as the all-default context. */
  lemma FromDictDefaults()
    ensures FromDict(map[]) == Ok(IsolationContext(None, None, "", "", ""))
  {
  }

  /** `create_isolated_environment`. */
  function CreateIsolatedEnvironment(c: IsolationContext): (e: IsolatedEnvironment)
    ensures e.context == c
    ensures e.dbSchema != ""
  {
    var prefix := if Truthy(c.sessionId) then c.sessionId.value + ":" else c.subagentId + ":";
    var schema := if Truthy(c.tenantId) then c.tenantId.value else "public";
    var thread := if Truthy(c.sessionId) then c.sessionId.value else c.subagentId;
    IsolatedEnvironment(prefix, schema, thread, c)
  }

  /** The cache prefix is always the checkpoint thread followed by a colon, and the thread is
      the session when there is one, otherwise the sub-agent's own id. */
  lemma PrefixIsThread(c: IsolationContext)
    ensures var e := CreateIsolatedEnvironment(c);
            e.redisKeyPrefix == e.checkpointThreadId + ":" &&
            (Truthy(c.sessionId) ==> e.checkpointThreadId == c.sessionId.value) &&
            (!Truthy(c.sessionId) ==> e.checkpointThreadId == c.subagentId)
  {
  }

  /** Runs with different checkpoint threads never share a cache prefix: each prefix is its
      thread followed by a colon, so distinct threads give distinct prefixes. */
  lemma {:induction false} DistinctThreadsDistinctPrefixes(c1: IsolationContext, c2: IsolationContext)
    requires CreateIsolatedEnvironment(c1).checkpointThreadId != CreateIsolatedEnvironment(c2).checkpointThreadId
    ensures CreateIsolatedEnvironment(c1).redisKeyPrefix != CreateIsolatedEnvironment(c2).redisKeyPrefix
  {
    var e1, e2 := CreateIsolatedEnvironment(c1), CreateIsolatedEnvironment(c2);
    PrefixIsThread(c1);
    PrefixIsThread(c2);
    AppendInjective(e1.checkpointThreadId, e2.checkpointThreadId, ":");
  }

  /** The schema is the tenant when there is one and the shared `"public"` schema otherwise;
      different tenants get different schemas. */
  lemma SchemaIsTenant(c1: IsolationContext, c2: IsolationContext)
    ensures Truthy(c1.tenantId) ==> CreateIsolatedEnvironment(c1).dbSchema == c1.tenantId.value
    ensures !Truthy(c1.tenantId) ==> CreateIsolatedEnvironment(c1).dbSchema == "public"
    ensures Truthy(c1.tenantId) && Truthy(c2.tenantId) && c1.tenantId != c2.tenantId ==>
              CreateIsolatedEnvironment(c1).dbSchema != CreateIsolatedEnvironment(c2).dbSchema
  {
  }
}
