/** Recording a sub-agent step as an episode in the memory backend: the episode text, its
    metadata and the unit submitted. The fresh episode id, the backend's availability and
    the outcome of the remote call are parameters; the call itself is returned as data. */
module BrainIntegration {
  import opened Common
  import opened Isolation
  import opened SubAgentTypes

  /** The backend client as constructed: missing when the client library is absent, and
      otherwise with or without a live stub. */
  datatype BrainClient = NoClient | Client(hasStub: bool)

  /** What one recording did: the id returned to the caller (or the error that escaped),
      the unit submitted to the backend if a call was made, and whether it was accepted. */
  datatype Recording = Recording(outcome: Result<string, string>, call: Option<ContextUnit>, delivered: bool)

  /** The rendering of a result by data type, which follows its bracketed step name in the
      episode text. Only the JSON branch can fail, when the data cannot be serialised. */
  function ContentBody(r: SubAgentResult, render: Render): (b: Option<string>)
    ensures b.None? <==> r.dataType == Json && render.dumps(r.data).None?
  {
    match r.dataType
    case Text => Some(PyStr(r.data, render))
    case Json => render.dumps(r.data)
    case Code => Some("Generated code:\n" + PyStr(r.data, render))
    case Image => Some("Generated image: " + OptStr(OrElse(r.fileUrl, r.filePath)))
    case Audio => Some("Generated audio: " + OptStr(OrElse(r.fileUrl, r.filePath)))
    case Video => Some("Generated video: " + OptStr(OrElse(r.fileUrl, r.filePath)))
    case StreamingText => Some("Streaming response: " + OptStr(r.streamUrl))
    case _ => Some(r.status)
  }

  /** `_format_episode_content`: the step name in brackets, then the result's rendering. */
  function FormatEpisodeContent(step: string, r: SubAgentResult, render: Render): (c: Option<string>)
    ensures c.None? <==> r.dataType == Json && render.dumps(r.data).None?
  {
    match ContentBody(r, render)
    case Some(b) => Some("[" + step + "] " + b)
    case None => None
  }

  /** Every episode text starts with the bracketed step name, followed by the type's body:
      the text itself for text, the media reference for media, the status for the kinds
      with no rendering. */
  lemma FormatEpisodeContentSpec(step: string, r: SubAgentResult, render: Render)
    ensures var c := FormatEpisodeContent(step, r, render);
            var b := ContentBody(r, render);
            c.Some? <==> b.Some?
    ensures var c := FormatEpisodeContent(step, r, render);
            c.Some? ==> StartsWith(c.value, "[" + step + "] ") &&
                        c.value == "[" + step + "] " + ContentBody(r, render).value
    ensures r.dataType == Text && r.data.VStr? ==>
              FormatEpisodeContent(step, r, render) == Some("[" + step + "] " + r.data.s)
    ensures r.dataType in {Spatial, Binary, File} ==>
              FormatEpisodeContent(step, r, render) == Some("[" + step + "] " + r.status)
    ensures r.dataType in {Image, Audio, Video} && Truthy(r.fileUrl) ==>
              EndsWith(FormatEpisodeContent(step, r, render).value, r.fileUrl.value)
  {
    var head := "[" + step + "] ";
    var c := FormatEpisodeContent(step, r, render);
    if c.Some? {
      assert c.value == head + ContentBody(r, render).value;
      assert (head + ContentBody(r, render).value)[..|head|] == head;
    }
  }

  /** The episode metadata: the step's own fields, overridden by the result's metadata. */
  function EpisodeMetadata(subagentId: string, step: string, r: SubAgentResult,
                           parentStepId: Option<string>): (m: map<string, Value>)
    ensures m.Keys == {"subagent_id", "step_name", "data_type", "status", "parent_step_id"} + r.metadata.Keys
    ensures forall k :: k in r.metadata ==> m[k] == r.metadata[k]
  {
    map["subagent_id" := VStr(subagentId),
        "step_name" := VStr(step),
        "data_type" := VStr(DataTypeValue(r.dataType)),
        "status" := VStr(r.status),
        "parent_step_id" := OptValue(parentStepId)] + r.metadata
  }

  /** Keys the result's metadata does not set keep the step's own values. */
  lemma EpisodeMetadataDefaults(subagentId: string, step: string, r: SubAgentResult, parentStepId: Option<string>)
    ensures var m := EpisodeMetadata(subagentId, step, r, parentStepId);
            ("subagent_id" !in r.metadata ==> m["subagent_id"] == VStr(subagentId)) &&
            ("step_name" !in r.metadata ==> m["step_name"] == VStr(step)) &&
            ("data_type" !in r.metadata ==> m["data_type"] == VStr(DataTypeValue(r.dataType))) &&
            ("status" !in r.metadata ==> m["status"] == VStr(r.status)) &&
            ("parent_step_id" !in r.metadata ==> m["parent_step_id"] == OptValue(parentStepId))
  {
  }

  /** The unit submitted to the backend for one step. */
  function EpisodeUnit(subagentId: string, step: string, ctx: IsolationContext, content: string,
                       metadata: map<string, Value>): (u: ContextUnit)
    ensures u.payload.Keys == {"user_id", "tenant_id", "session_id", "content", "metadata"}
    ensures u.payload["user_id"] == VStr(ctx.subagentId)
    ensures u.payload["tenant_id"] == VStr(if Truthy(ctx.tenantId) then ctx.tenantId.value else "default")
    ensures u.payload["session_id"] == OptValue(ctx.sessionId)
    ensures u.provenance == ["subagent:" + subagentId + ":step:" + step]
    ensures u.traceId == ctx.traceId
  {
    var tenant := if Truthy(ctx.tenantId) then ctx.tenantId.value else "default";
    ContextUnit(
      map["user_id" := VStr(ctx.subagentId),
          "tenant_id" := VStr(tenant),
          "session_id" := OptValue(ctx.sessionId),
          "content" := VStr(content),
          "metadata" := VDict(metadata)],
      TextModality,
      ["subagent:" + subagentId + ":step:" + step],
      ctx.traceId)
  }

  /** The error a recording raises when its data cannot be serialised. */
  const NotSerialisable := "TypeError: data is not serialisable"

  /** Whether a result's episode content can be formatted: everything but JSON data the
      serialiser rejects. */
  predicate Formattable(r: SubAgentResult, render: Render) {
    r.dataType != Json || render.dumps(r.data).Some?
  }

  /** `record_subagent_step`, given the fresh episode id and whether the remote call would
      be accepted. Formatting comes first, so a serialisation failure escapes; a missing
      client or stub skips the call; a failed call is swallowed. */
  function RecordSubagentStep(client: BrainClient, freshId: string, subagentId: string, step: string,
                              r: SubAgentResult, ctx: IsolationContext, parentStepId: Option<string>,
                              render: Render, callOk: bool): (rec: Recording)
    ensures rec.delivered ==> rec.call.Some?
  {
    match FormatEpisodeContent(step, r, render)
    case None => Recording(Err(NotSerialisable), None, false)
    case Some(content) =>
      if client.NoClient? || !client.hasStub then Recording(Ok(freshId), None, false)
      else
        var unit := EpisodeUnit(subagentId, step, ctx, content, EpisodeMetadata(subagentId, step, r, parentStepId));
        Recording(Ok(freshId), Some(unit), callOk)
  }

  /** The id handed back is the locally generated one whether the client is missing, the
      call succeeds or the call fails: a backend failure never reaches the caller. */
  lemma RecordReturnsLocalId(client: BrainClient, freshId: string, subagentId: string, step: string,
                             r: SubAgentResult, ctx: IsolationContext, parentStepId: Option<string>,
                             render: Render, callOk: bool)
    requires FormatEpisodeContent(step, r, render).Some?
    ensures RecordSubagentStep(client, freshId, subagentId, step, r, ctx, parentStepId, render, callOk).outcome == Ok(freshId)
    ensures RecordSubagentStep(client, freshId, subagentId, step, r, ctx, parentStepId, render, callOk).outcome ==
            RecordSubagentStep(client, freshId, subagentId, step, r, ctx, parentStepId, render, !callOk).outcome
  {
  }

  /** A recording returns its fresh id exactly when the content formats, and otherwise
      raises the serialisation error. */
  lemma RecordOutcome(client: BrainClient, freshId: string, subagentId: string, step: string,
                      r: SubAgentResult, ctx: IsolationContext, parentStepId: Option<string>,
                      render: Render, callOk: bool)
    ensures RecordSubagentStep(client, freshId, subagentId, step, r, ctx, parentStepId, render, callOk).outcome ==
            if Formattable(r, render) then Ok(freshId) else Err(NotSerialisable)
  {
  }

  /** A backend call is made exactly when there is a client with a stub and the content could
      be formatted, and the unit submitted carries the formatted content and the metadata. */
  lemma RecordCallsBackend(client: BrainClient, freshId: string, subagentId: string, step: string,
                           r: SubAgentResult, ctx: IsolationContext, parentStepId: Option<string>,
                           render: Render, callOk: bool)
    ensures var rec := RecordSubagentStep(client, freshId, subagentId, step, r, ctx, parentStepId, render, callOk);
            rec.call.Some? <==> client == Client(true) && FormatEpisodeContent(step, r, render).Some?
    ensures var rec := RecordSubagentStep(client, freshId, subagentId, step, r, ctx, parentStepId, render, callOk);
            rec.call.Some? ==>
              rec.call.value.payload["content"] == VStr(FormatEpisodeContent(step, r, render).value) &&
              rec.call.value.payload["metadata"] == VDict(EpisodeMetadata(subagentId, step, r, parentStepId)) &&
              rec.call.value.payload["user_id"] == VStr(ctx.subagentId)
  {
  }
}
