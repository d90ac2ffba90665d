/** The result a sub-agent produces: its data type, its data and the optional stream and
    file references, with the two shapes it is converted to — a flat dictionary and the
    payload of the context unit stored in the memory backend. */
module SubAgentTypes {
  import opened Common
  import opened Isolation

  /** The ten kinds of data a sub-agent can produce. */
  datatype DataType = Text | StreamingText | Image | Video | Audio | Spatial | Binary | Json | Code | File

  /** The string value of each kind. */
  function DataTypeValue(t: DataType): string {
    match t
    case Text => "text"
    case StreamingText => "streaming_text"
    case Image => "image"
    case Video => "video"
    case Audio => "audio"
    case Spatial => "spatial"
    case Binary => "binary"
    case Json => "json"
    case Code => "code"
    case File => "file"
  }

  /** Looking a kind up by its value, as the enumeration's constructor does. */
  function ParseDataType(s: string): (r: Option<DataType>)
    ensures r.Some? ==> DataTypeValue(r.value) == s
  {
    if s == "text" then Some(Text)
    else if s == "streaming_text" then Some(StreamingText)
    else if s == "image" then Some(Image)
    else if s == "video" then Some(Video)
    else if s == "audio" then Some(Audio)
    else if s == "spatial" then Some(Spatial)
    else if s == "binary" then Some(Binary)
    else if s == "json" then Some(Json)
    else if s == "code" then Some(Code)
    else if s == "file" then Some(File)
    else None
  }

  /** Every kind is found again from its value, so the values are pairwise distinct. */
  lemma ParseDataTypeValue(t: DataType)
    ensures ParseDataType(DataTypeValue(t)) == Some(t)
  {
  }

  lemma DataTypeValueInjective(t1: DataType, t2: DataType)
    requires DataTypeValue(t1) == DataTypeValue(t2)
    ensures t1 == t2
  {
    ParseDataTypeValue(t1);
    ParseDataTypeValue(t2);
  }

  /** The content modality of a context unit, by its string value. */
  datatype Modality = Modality(value: string)

  const TextModality := Modality("text")

  /** A sub-agent's result. `data` is a string, a dictionary or null. */
  datatype SubAgentResult = SubAgentResult(
    subagentId: string,
    status: string,
    dataType: DataType,
    data: Value,
    streamUrl: Option<string>,
    streamToken: Option<string>,
    filePath: Option<string>,
    fileUrl: Option<string>,
    metadata: map<string, Value>,
    modality: Modality)

  /** A result with only the required fields given, the rest at their defaults. */
  function NewResult(subagentId: string, status: string, dataType: DataType, data: Value): (r: SubAgentResult)
    ensures r.subagentId == subagentId && r.status == status && r.dataType == dataType && r.data == data
    ensures r.streamUrl == None && r.streamToken == None && r.filePath == None && r.fileUrl == None
    ensures r.metadata == map[] && r.modality == TextModality
  {
    SubAgentResult(subagentId, status, dataType, data, None, None, None, None, map[], TextModality)
  }

  const ResultKeys: set<string> :=
    {"subagent_id", "status", "data_type", "data", "stream_url", "stream_token",
     "file_path", "file_url", "metadata", "modality"}

  /** `to_dict`: the ten fields, the data type and modality as their string values. */
  function ResultToDict(r: SubAgentResult): (d: map<string, Value>)
    ensures d.Keys == ResultKeys
    ensures d["data_type"] == VStr(DataTypeValue(r.dataType))
    ensures d["modality"] == VStr(r.modality.value)
  {
    map["subagent_id" := VStr(r.subagentId),
        "status" := VStr(r.status),
        "data_type" := VStr(DataTypeValue(r.dataType)),
        "data" := r.data,
        "stream_url" := OptValue(r.streamUrl),
        "stream_token" := OptValue(r.streamToken),
        "file_path" := OptValue(r.filePath),
        "file_url" := OptValue(r.fileUrl),
        "metadata" := VDict(r.metadata),
        "modality" := VStr(r.modality.value)]
  }

  function AsString(v: Value): Option<string> {
    if v.VStr? then Some(v.s) else None
  }

  function AsOptString(v: Value): Option<Option<string>> {
    match v
    case VNull => Some(None)
    case VStr(s) => Some(Some(s))
    case _ => None
  }

  /** Reading a result back from its dictionary form (the inverse `to_dict` implies). */
  function ResultFromDict(d: map<string, Value>): Option<SubAgentResult> {
    if !(ResultKeys <= d.Keys) then None
    else
      match (AsString(d["subagent_id"]), AsString(d["status"]), AsString(d["data_type"]),
             AsOptString(d["stream_url"]), AsOptString(d["stream_token"]),
             AsOptString(d["file_path"]), AsOptString(d["file_url"]), d["metadata"],
             AsString(d["modality"]))
      case (Some(id), Some(st), Some(tv), Some(su), Some(sk), Some(fp), Some(fu), VDict(md), Some(mv)) =>
        (match ParseDataType(tv)
         case Some(t) => Some(SubAgentResult(id, st, t, d["data"], su, sk, fp, fu, md, Modality(mv)))
         case None => None)
      case _ => None
  }

  /** `to_dict` loses nothing: every result is recovered from its dictionary. */
  lemma ResultRoundTrip(r: SubAgentResult)
    ensures ResultFromDict(ResultToDict(r)) == Some(r)
  {
    var d := ResultToDict(r);
    ParseDataTypeValue(r.dataType);
    assert AsString(d["subagent_id"]) == Some(r.subagentId) && AsString(d["status"]) == Some(r.status);
    assert AsString(d["data_type"]) == Some(DataTypeValue(r.dataType));
    OptStringRoundTrip(r.streamUrl);
    OptStringRoundTrip(r.streamToken);
    OptStringRoundTrip(r.filePath);
    OptStringRoundTrip(r.fileUrl);
    assert d["metadata"] == VDict(r.metadata) && AsString(d["modality"]) == Some(r.modality.value);
  }

  lemma OptStringRoundTrip(o: Option<string>)
    ensures AsOptString(OptValue(o)) == Some(o)
  {
  }

  // ------------------------------------------------------------------ the context unit

  datatype ContextUnit = ContextUnit(
    payload: map<string, Value>,
    modality: Modality,
    provenance: seq<string>,
    traceId: string)

  /** The keys a payload carries for each data type, besides the three common ones. */
  function DataKeys(t: DataType): set<string> {
    match t
    case Text => {"text"}
    case Json => {"json"}
    case Code => {"code"}
    case Image => {"image_url", "modality"}
    case Audio => {"audio_url", "modality"}
    case Video => {"video_url", "modality"}
    case StreamingText => {"stream_url", "stream_token"}
    case _ => {}
  }

  /** The file reference of a media result: the URL when it is set, else the path. */
  function MediaRef(r: SubAgentResult): Value {
    OptValue(OrElse(r.fileUrl, r.filePath))
  }

  /** The payload, built by branching on the data type. */
  function Payload(r: SubAgentResult): map<string, Value> {
    var base := map["subagent_id" := VStr(r.subagentId),
                    "status" := VStr(r.status),
                    "data_type" := VStr(DataTypeValue(r.dataType))];
    var withData :=
      match r.dataType
      case Text => base["text" := r.data]
      case Json => base["json" := r.data]
      case Code => base["code" := r.data]
      case Image => base["image_url" := MediaRef(r)]["modality" := VStr("image")]
      case Audio => base["audio_url" := MediaRef(r)]["modality" := VStr("audio")]
      case Video => base["video_url" := MediaRef(r)]["modality" := VStr("video")]
      case StreamingText => base["stream_url" := OptValue(r.streamUrl)]["stream_token" := OptValue(r.streamToken)]
      case _ => base;
    if r.metadata != map[] then withData["metadata" := VDict(r.metadata)] else withData
  }

  /** `to_context_unit`. */
  function ToContextUnit(r: SubAgentResult, ctx: IsolationContext): (u: ContextUnit)
    ensures u.provenance == ["subagent:" + r.subagentId]
    ensures u.traceId == ctx.traceId
    ensures u.modality == r.modality
  {
    ContextUnit(Payload(r), r.modality, ["subagent:" + r.subagentId], ctx.traceId)
  }

  /** The payload's keys are exactly the three common ones, the data type's own keys, and
      `metadata` precisely when the result's metadata is non-empty. */
  lemma PayloadKeys(r: SubAgentResult)
    ensures Payload(r).Keys ==
            {"subagent_id", "status", "data_type"} + DataKeys(r.dataType)
            + (if r.metadata != map[] then {"metadata"} else {})
  {
  }

  /** What each key holds: the common fields, the data under the type's own key, the media
      reference and kind for media, the stream fields for streaming, and the metadata. */
  lemma PayloadValues(r: SubAgentResult)
    ensures var p := Payload(r);
            p["subagent_id"] == VStr(r.subagentId) && p["status"] == VStr(r.status) &&
            p["data_type"] == VStr(DataTypeValue(r.dataType)) &&
            (r.dataType == Text ==> p["text"] == r.data) &&
            (r.dataType == Json ==> p["json"] == r.data) &&
            (r.dataType == Code ==> p["code"] == r.data) &&
            (r.dataType == Image ==> p["image_url"] == MediaRef(r) && p["modality"] == VStr("image")) &&
            (r.dataType == Audio ==> p["audio_url"] == MediaRef(r) && p["modality"] == VStr("audio")) &&
            (r.dataType == Video ==> p["video_url"] == MediaRef(r) && p["modality"] == VStr("video")) &&
            (r.dataType == StreamingText ==>
               p["stream_url"] == OptValue(r.streamUrl) && p["stream_token"] == OptValue(r.streamToken)) &&
            (r.metadata != map[] ==> p["metadata"] == VDict(r.metadata))
  {
    match r.dataType {
      case Text =>
      case Json =>
      case Code =>
      case Image =>
      case Audio =>
      case Video =>
      case StreamingText =>
      case _ =>
    }
  }

  /** A media result refers to its URL when it has one and falls back to its path. */
  lemma MediaRefPrefersUrl(r: SubAgentResult)
    ensures Truthy(r.fileUrl) ==> MediaRef(r) == VStr(r.fileUrl.value)
    ensures !Truthy(r.fileUrl) ==> MediaRef(r) == OptValue(r.filePath)
  {
  }
}
