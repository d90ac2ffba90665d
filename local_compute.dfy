/** Local model management: which of the three known local models are available (probed
    once), and a cache of model clients created on first use. The probes (an HTTP call to
    the Ollama tag list, a health call to the vLLM server, a module lookup for RLM) are a
    parameter; the router's model factory is represented by the request it receives and by
    the error it raises, if it does. */
module LocalCompute {
  import opened Common

  /** What the three probes would observe: the model names Ollama lists when its tag list
      answers with 200 (`None` when it is unreachable or answers otherwise), whether the
      vLLM health call answers 200, and whether the RLM package can be found. */
  datatype Probes = Probes(ollamaTags: Option<seq<string>>, vllmHealthy: bool, rlmInstalled: bool)

  const OllamaKey := "local/llama3.2"
  const VllmKey := "local-vllm/llama"
  const RlmKey := "rlm/gpt-5-mini"
  const ModelKeys: set<string> := {OllamaKey, VllmKey, RlmKey}

  /** Whether some listed name starts with the model name (`any(... startswith ...)`). */
  function AnyStartsWith(names: seq<string>, prefix: string): (b: bool)
    ensures b <==> exists k :: 0 <= k < |names| && StartsWith(names[k], prefix)
  {
    if names == [] then false
    else StartsWith(names[0], prefix) || AnyStartsWith(names[1..], prefix)
  }

  /** `_check_ollama("llama3.2")`. */
  function OllamaHas(p: Probes, model: string): bool {
    p.ollamaTags.Some? && AnyStartsWith(p.ollamaTags.value, model)
  }

  /** The dictionary one round of checks produces. */
  function ProbeResults(p: Probes): (m: map<string, bool>)
    ensures m.Keys == ModelKeys
    ensures m[OllamaKey] <==>
              p.ollamaTags.Some? &&
              (exists k :: 0 <= k < |p.ollamaTags.value| && StartsWith(p.ollamaTags.value[k], "llama3.2"))
    ensures m[VllmKey] == p.vllmHealthy && m[RlmKey] == p.rlmInstalled
  {
    map[OllamaKey := OllamaHas(p, "llama3.2"), VllmKey := p.vllmHealthy, RlmKey := p.rlmInstalled]
  }

  /** A client as the model factory creates it: the key, the configuration passed, and the
      environment argument (`"local"` for RLM models, none otherwise). */
  datatype ModelClient = ModelClient(key: string, config: map<string, Value>, environment: Option<string>)

  function NotAvailable(key: string): string {
    "ValueError: Local model " + key + " not available"
  }

  function UnknownKey(key: string): string {
    "ValueError: Unknown local model key: " + key
  }

  /** `is_local_model_available` on an availability dictionary: missing keys are false. */
  function Available(available: map<string, bool>, key: string): (b: bool)
    ensures b <==> key in available && available[key]
  {
    key in available && available[key]
  }

  /** What `get_local_model` does once the availability check has run: the answer and the
      client cache afterwards. */
  datatype Lookup = Lookup(answer: Result<ModelClient, string>, clients: map<string, ModelClient>)

  /** `createError` is what importing `model_registry` or calling `create_llm` raises when a
      client is created, if either fails; the exception escapes before the cache is
      written. */
  function GetModel(available: map<string, bool>, clients: map<string, ModelClient>,
                    key: string, config: map<string, Value>, createError: Option<string>): Lookup
  {
    if !Available(available, key) then Lookup(Err(NotAvailable(key)), clients)
    else if key in clients then Lookup(Ok(clients[key]), clients)
    else if StartsWith(key, "local/") || StartsWith(key, "local-vllm/") then
      if createError.Some? then Lookup(Err(createError.value), clients)
      else
        var m := ModelClient(key, config, None);
        Lookup(Ok(m), clients[key := m])
    else if StartsWith(key, "rlm/") then
      if createError.Some? then Lookup(Err(createError.value), clients)
      else
        var m := ModelClient(key, config, Some("local"));
        Lookup(Ok(m), clients[key := m])
    else Lookup(Err(UnknownKey(key)), clients)
  }

  /** The cache only holds clients for available keys, each under its own key. */
  ghost predicate CacheWellFormed(available: map<string, bool>, clients: map<string, ModelClient>) {
    forall k :: k in clients ==> Available(available, k) && clients[k].key == k
  }

  /** An unavailable model is refused and the cache is untouched; an available one is served
      from the cache when it is there (the configuration of the first request wins), and
      otherwise a client for that key and configuration is created and cached, unless the
      creation raises, in which case that error escapes and nothing is cached. Since every
      available key is one of the three known ones, the unknown-key error is never raised. */
  lemma GetModelSpec(available: map<string, bool>, clients: map<string, ModelClient>,
                     key: string, config: map<string, Value>, createError: Option<string>)
    requires available.Keys <= ModelKeys
    requires CacheWellFormed(available, clients)
    ensures var l := GetModel(available, clients, key, config, createError);
            (l.answer.Err? <==> !Available(available, key) || (key !in clients && createError.Some?)) &&
            (l.answer.Err? ==> l.clients == clients) &&
            (!Available(available, key) ==> l.answer == Err(NotAvailable(key))) &&
            (Available(available, key) && key !in clients && createError.Some? ==>
               l.answer == Err(createError.value)) &&
            (l.answer.Ok? && key in clients ==> l.answer.value == clients[key] && l.clients == clients) &&
            (l.answer.Ok? && key !in clients ==>
               l.answer.value.key == key && l.answer.value.config == config &&
               (l.answer.value.environment == Some("local") <==> key == RlmKey) &&
               l.clients == clients[key := l.answer.value]) &&
            CacheWellFormed(available, l.clients)
  {
    if Available(available, key) && key !in clients {
      assert key in ModelKeys;
      KeyPrefixes();
    }
  }

  /** Which dispatch prefix each known key carries. */
  lemma KeyPrefixes()
    ensures StartsWith(OllamaKey, "local/") && StartsWith(VllmKey, "local-vllm/")
    ensures !StartsWith(RlmKey, "local/") && !StartsWith(RlmKey, "local-vllm/") && StartsWith(RlmKey, "rlm/")
  {
    assert OllamaKey[..6] == "local/";
    assert VllmKey[..11] == "local-vllm/";
    assert RlmKey[0] == 'r';
    assert RlmKey[..4] == "rlm/";
  }

  /** A second request for the same key returns the very client the first one returned,
      whatever configuration it passes and whatever its own creation would do; after a first
      request that raised, the second behaves as if the first had never been made. */
  lemma GetModelCached(available: map<string, bool>, clients: map<string, ModelClient>,
                       key: string, config1: map<string, Value>, config2: map<string, Value>,
                       createError1: Option<string>, createError2: Option<string>)
    requires available.Keys <= ModelKeys
    requires CacheWellFormed(available, clients)
    ensures var first := GetModel(available, clients, key, config1, createError1);
            var second := GetModel(available, first.clients, key, config2, createError2);
            (first.answer.Ok? ==> second == Lookup(first.answer, first.clients)) &&
            (first.answer.Err? ==> second == GetModel(available, clients, key, config2, createError2))
  {
    GetModelSpec(available, clients, key, config1, createError1);
  }

  /** `LocalComputeManager`. */
  class LocalComputeManager {
    var available: map<string, bool>
    var clients: map<string, ModelClient>
    var checked: bool

    /** Availability only ever names the known models: none before the check, all three
        after it; and the cache only holds clients of available models. */
    ghost predicate Valid() reads this {
      (!checked ==> available == map[] && clients == map[]) &&
      (checked ==> available.Keys == ModelKeys) &&
      CacheWellFormed(available, clients)
    }

    constructor ()
      ensures Valid() && available == map[] && clients == map[] && !checked
    {
      available, clients, checked := map[], map[], false;
    }

    /** `check_local_models`: the probes run on the first call only; later calls return the
        recorded availability without probing. */
    method CheckLocalModels(p: Probes) returns (m: map<string, bool>)
      requires Valid()
      modifies this
      ensures Valid() && checked && clients == old(clients)
      ensures old(checked) ==> m == available == old(available)
      ensures !old(checked) ==> m == ProbeResults(p) && available == old(available) + m
    {
      if checked {
        return available;
      }
      m := ProbeResults(p);
      available := available + m;
      checked := true;
    }

    /** `is_local_model_available`. */
    function IsLocalModelAvailable(key: string): (b: bool)
      reads this
      ensures b <==> key in available && available[key]
    {
      Available(available, key)
    }

    /** `get_local_model`: checks availability (probing on the first call), then serves the
        model from the cache or creates and caches it; a creation that raises leaves the
        cache as it was. */
    method GetLocalModel(key: string, config: map<string, Value>, p: Probes, createError: Option<string>)
      returns (r: Result<ModelClient, string>)
      requires Valid()
      modifies this
      ensures Valid() && checked
      ensures available == (if old(checked) then old(available) else old(available) + ProbeResults(p))
      ensures Lookup(r, clients) == GetModel(available, old(clients), key, config, createError)
      ensures r.Err? ==> clients == old(clients) &&
                         ((r == Err(NotAvailable(key)) && !IsLocalModelAvailable(key)) ||
                          (IsLocalModelAvailable(key) && key !in clients && r == Err(createError.value)))
    {
      var _ := CheckLocalModels(p);
      GetModelSpec(available, clients, key, config, createError);
      if !Available(available, key) {
        return Err(NotAvailable(key));
      }
      if key in clients {
        return Ok(clients[key]);
      }
      var m: ModelClient;
      if StartsWith(key, "local/") || StartsWith(key, "local-vllm/") {
        m := ModelClient(key, config, None);
      } else if StartsWith(key, "rlm/") {
        m := ModelClient(key, config, Some("local"));
      } else {
        return Err(UnknownKey(key));
      }
      if createError.Some? {
        return Err(createError.value);
      }
      clients := clients[key := m];
      r := Ok(m);
    }
  }
}
