/** The harvest orchestrator: for a supplier, find its fetcher and transformer classes among
    the names the plugin packages export, fetch the raw items, transform each one and save
    it through the Brain, counting successes and collecting one error entry per failure; or
    do this for every configured supplier. Everything outside the process is a parameter
    (`Env`): the exported class names and what importing them yields, the fetch, the
    transform, the Brain upsert and the supplier configuration. */
module Orchestrator {
  import opened Common

  // ---------------------------------------------------------------- class names

  /** `s.title()` on ASCII text: a letter is upper-cased when it starts a run of letters
      and lower-cased otherwise; other characters are kept. */
  function TitleFrom(s: string, afterLetter: bool): (r: string)
    ensures |r| == |s|
    decreases |s|
  {
    if s == [] then []
    else [if afterLetter then LowerChar(s[0]) else UpperChar(s[0])] + TitleFrom(s[1..], IsLetter(s[0]))
  }

  function Title(s: string): string {
    TitleFrom(s, false)
  }

  /** Title-casing changes only the case of letters. */
  lemma {:induction false} LowerTitleFrom(s: string, afterLetter: bool)
    ensures Lower(TitleFrom(s, afterLetter)) == Lower(s)
    decreases |s|
  {
    if s != [] {
      LowerTitleFrom(s[1..], IsLetter(s[0]));
      LowerUpperChar(s[0]);
      var c := if afterLetter then LowerChar(s[0]) else UpperChar(s[0]);
      assert LowerChar(c) == LowerChar(s[0]);
      LowerAppend([c], TitleFrom(s[1..], IsLetter(s[0])));
      LowerAppend([s[0]], s[1..]);
      assert s == [s[0]] + s[1..];
    }
  }

  /** `s.replace(c, "")`. */
  function Remove(s: string, c: char): (r: string)
    ensures c !in r
    ensures |r| <= |s|
    decreases |s|
  {
    if s == [] then []
    else (if s[0] == c then [] else [s[0]]) + Remove(s[1..], c)
  }

  /** Removing underscores and lower-casing commute. */
  lemma {:induction false} LowerRemove(s: string)
    ensures Lower(Remove(s, '_')) == Remove(Lower(s), '_')
    decreases |s|
  {
    if s != [] {
      LowerRemove(s[1..]);
      assert Lower(s) == [LowerChar(s[0])] + Lower(s[1..]);
      assert Lower(s)[1..] == Lower(s[1..]);
      var head := if s[0] == '_' then [] else [s[0]];
      LowerAppend(head, Remove(s[1..], '_'));
      assert Lower(head) == (if LowerChar(s[0]) == '_' then [] else [LowerChar(s[0])]);
    }
  }

  /** The class name looked for: the title-cased code without underscores, then the suffix
      (`"Fetcher"` or `"Transformer"`). */
  function ClassName(code: string, suffix: string): string {
    Remove(Title(code), '_') + suffix
  }

  /** Since names are compared lower-cased, the title-casing is immaterial: the name a class
      must have, lower-cased, is the code lower-cased without underscores plus the suffix. */
  lemma ClassNameMatches(code: string, suffix: string)
    ensures Lower(ClassName(code, suffix)) == Remove(Lower(code), '_') + Lower(suffix)
  {
    LowerAppend(Remove(Title(code), '_'), suffix);
    LowerRemove(Title(code));
    LowerTitleFrom(code, false);
  }

  /** The first name of `names` equal to `target` ignoring case. */
  function FirstMatch(names: seq<string>, target: string): (r: Option<string>)
    ensures r.None? <==> forall n :: n in names ==> Lower(n) != Lower(target)
    ensures r.Some? ==> r.value in names && Lower(r.value) == Lower(target)
    ensures r.Some? ==> exists i :: 0 <= i < |names| && names[i] == r.value &&
                          forall j :: 0 <= j < i ==> Lower(names[j]) != Lower(target)
    decreases |names|
  {
    if names == [] then None
    else if Lower(names[0]) == Lower(target) then
      assert names[0] in names;
      Some(names[0])
    else
      var r := FirstMatch(names[1..], target);
      if r.Some? then
        var i :| 0 <= i < |names[1..]| && names[1..][i] == r.value &&
                 forall j :: 0 <= j < i ==> Lower(names[1..][j]) != Lower(target);
        assert names[i + 1] == r.value && names[i + 1] in names;
        r
      else
        assert forall n :: n in names ==> n == names[0] || n in names[1..];
        r
  }

  // ---------------------------------------------------------------- plugin lookup

  /** What importing `<package>.<code>` and instantiating the class yields: the instance, an
      `ImportError` (caught), or another exception (it escapes the lookup). */
  datatype LoadResult = Loaded | ImportFailed | LoadFailed(msg: string)

  /** A plugin package: its `__all__` (`None` when the package cannot be imported) and the
      result of loading a class from one of its modules. */
  datatype Plugins = Plugins(exported: Option<seq<string>>, load: (string, string) -> LoadResult)

  /** The outcome of `_get_fetcher`/`_get_transformer`. */
  datatype Lookup = Missing | Instance(cls: string) | Raises(msg: string)

  /** The lookup: only the first exported name that matches is tried. */
  function FindPlugin(p: Plugins, package: string, code: string, suffix: string): Lookup {
    match p.exported
    case None => Missing
    case Some(names) =>
      match FirstMatch(names, ClassName(code, suffix))
      case None => Missing
      case Some(c) =>
        match p.load(package + "." + code, c)
        case Loaded => Instance(c)
        case ImportFailed => Missing
        case LoadFailed(m) => Raises(m)
  }

  /** A package that cannot be imported, or that exports no matching name, yields no
      plugin; a plugin found is an exported class whose name, ignoring case, is the code
      without underscores followed by the suffix. */
  lemma FindPluginSpec(p: Plugins, package: string, code: string, suffix: string)
    ensures p.exported.None? ==> FindPlugin(p, package, code, suffix) == Missing
    ensures (p.exported.Some? && forall n :: n in p.exported.value ==> Lower(n) != Lower(ClassName(code, suffix)))
            ==> FindPlugin(p, package, code, suffix) == Missing
    ensures var l := FindPlugin(p, package, code, suffix);
            l.Instance? ==> p.exported.Some? && l.cls in p.exported.value &&
                            Lower(l.cls) == Remove(Lower(code), '_') + Lower(suffix)
  {
    ClassNameMatches(code, suffix);
  }

  // ---------------------------------------------------------------- saving

  datatype SupplierConfig = SupplierConfig(name: string)

  /** The arguments of the Brain's `upsert_dealer_product`. */
  datatype DealerProduct = DealerProduct(
    tenantId: string,
    dealerCode: string,
    dealerName: string,
    sku: Value,
    name: Value,
    category: Value,
    brandName: Value,
    quantity: Value,
    priceRetail: Value,
    currency: Value,
    params: Value,
    status: string)

  /** `_save_product_via_brain` up to the Brain call: `sku` is popped from the transformed
      data (a `KeyError` when absent), the dealer name comes from the supplier
      configuration, and the other fields are read from what remains, with defaults. The
      second component is the data after the pop. */
  function SaveRequest(tenantId: string, code: string, config: Option<SupplierConfig>,
                       data: map<string, Value>): Result<(DealerProduct, map<string, Value>), string>
  {
    if "sku" !in data then Err("'sku'")
    else if config.None? then Err("'NoneType' object has no attribute 'name'")
    else
      var rest := data - {"sku"};
      Ok((DealerProduct(tenantId, code, config.value.name, data["sku"],
                        Get(rest, "name", VStr("")),
                        Get(rest, "category", VStr("")),
                        Get(rest, "brand_name", VStr("")),
                        Get(rest, "quantity", VInt(0)),
                        Get(rest, "price_retail", VNull),
                        Get(rest, "currency", VStr("UAH")),
                        Get(rest, "extra_attrs", VDict(map[])),
                        "raw"), rest))
  }

  /** Saving fails exactly without a `sku` or a configuration; otherwise the `sku` is taken
      out of the data, an absent quantity is 0, an absent currency is `"UAH"`, an absent
      name is empty, and the status is always `"raw"`. */
  lemma SaveDefaults(tenantId: string, code: string, config: Option<SupplierConfig>, data: map<string, Value>)
    ensures SaveRequest(tenantId, code, config, data).Ok? <==> "sku" in data && config.Some?
    ensures SaveRequest(tenantId, code, config, data).Ok? ==>
              var (p, rest) := SaveRequest(tenantId, code, config, data).value;
              && p.sku == data["sku"] && "sku" !in rest
              && (forall k :: k != "sku" ==> (k in rest <==> k in data))
              && p.status == "raw" && p.tenantId == tenantId && p.dealerCode == code
              && p.dealerName == config.value.name
              && ("quantity" !in data ==> p.quantity == VInt(0))
              && ("quantity" in data ==> p.quantity == data["quantity"])
              && ("currency" !in data ==> p.currency == VStr("UAH"))
              && ("currency" in data ==> p.currency == data["currency"])
              && ("name" !in data ==> p.name == VStr(""))
  {
  }

  // ---------------------------------------------------------------- one supplier

  /** The supplier codes: the keys of the supplier-configuration dictionary, each once. */
  type SupplierCodes = s: seq<string> | forall i, j :: 0 <= i < j < |s| ==> s[i] != s[j] witness []

  /** The world the orchestrator runs against. */
  datatype Env = Env(
    fetchers: Plugins,
    transformers: Plugins,
    fetch: string -> Result<seq<Value>, string>,
    transform: (string, Value) -> Result<map<string, Value>, string>,
    upsert: DealerProduct -> Option<string>,
    configs: string -> SupplierConfig,
    suppliers: SupplierCodes)

  /** The supplier a single run is for. */
  datatype Context = Context(code: string, tenantId: string, config: Option<SupplierConfig>)

  /** The error entry one raw item produces, if any: a failed transform, a failed save
      preparation or a failed upsert, each as a `"Transform error"` entry. */
  function ItemError(env: Env, ctx: Context, item: Value): (e: Option<string>)
    ensures e.Some? ==> StartsWith(e.value, "Transform error: ")
  {
    match env.transform(ctx.code, item)
    case Err(m) => Some("Transform error: " + m)
    case Ok(data) =>
      match SaveRequest(ctx.tenantId, ctx.code, ctx.config, data)
      case Err(m) => Some("Transform error: " + m)
      case Ok(req) =>
        match env.upsert(req.0)
        case None => None
        case Some(m) => Some("Transform error: " + m)
  }

  /** The error entries of the transform loop, in item order. */
  function ItemErrors(env: Env, ctx: Context, items: seq<Value>): seq<string>
    decreases |items|
  {
    if items == [] then []
    else
      var k := |items| - 1;
      var e := ItemError(env, ctx, items[k]);
      ItemErrors(env, ctx, items[..k]) + (if e.Some? then [e.value] else [])
  }

  /** The number of items saved. */
  function SavedCount(env: Env, ctx: Context, items: seq<Value>): nat
    decreases |items|
  {
    if items == [] then 0
    else
      var k := |items| - 1;
      SavedCount(env, ctx, items[..k]) + (if ItemError(env, ctx, items[k]).None? then 1 else 0)
  }

  /** Every item is either saved or leaves exactly one `"Transform error"` entry. */
  lemma {:induction false} ItemsBalance(env: Env, ctx: Context, items: seq<Value>)
    ensures SavedCount(env, ctx, items) + |ItemErrors(env, ctx, items)| == |items|
    ensures forall e :: e in ItemErrors(env, ctx, items) ==> StartsWith(e, "Transform error: ")
    decreases |items|
  {
    if items != [] {
      ItemsBalance(env, ctx, items[..|items| - 1]);
    }
  }

  /** The result dictionary of `_run_single`, without its timestamps: `finished` says
      whether `finished_at` was set. */
  datatype SingleResult = SingleResult(
    supplier: string,
    fetched: nat,
    transformed: nat,
    success: nat,
    errors: seq<string>,
    finished: bool)

  /** The part of `_run_single` after a successful fetch of `items`, given the outcome of
      the transformer lookup. */
  function AfterFetch(env: Env, ctx: Context, items: seq<Value>, transformer: Lookup): SingleResult {
    var fetched := SingleResult(ctx.code, |items|, 0, 0, [], false);
    match transformer
    case Missing => fetched.(errors := ["No transformer found for " + ctx.code])
    case Raises(m) => fetched.(errors := ["Harvest error: " + m], finished := true)
    case Instance(_) =>
      fetched.(transformed := |items|, success := SavedCount(env, ctx, items),
               errors := ItemErrors(env, ctx, items), finished := true)
  }

  /** `_run_single`. A missing fetcher or transformer returns early; any exception raised
      by a lookup or by the fetch becomes one `"Harvest error"` entry. */
  function HarvestSingle(env: Env, ctx: Context): SingleResult {
    var code := ctx.code;
    var none := SingleResult(code, 0, 0, 0, [], false);
    match FindPlugin(env.fetchers, "fetchers", code, "Fetcher")
    case Missing => none.(errors := ["No fetcher found for " + code])
    case Raises(m) => none.(errors := ["Harvest error: " + m], finished := true)
    case Instance(_) =>
      match env.fetch(code)
      case Err(m) => none.(errors := ["Harvest error: " + m], finished := true)
      case Ok(items) => AfterFetch(env, ctx, items, FindPlugin(env.transformers, "transformers", code, "Transformer"))
  }

  /** How a single run ends: a missing fetcher leaves one error, no counts and no
      `finished_at`; a missing transformer leaves one error and only the fetch counted; a
      complete run has every fetched item transformed and either saved or reported; an
      exception leaves one `"Harvest error"` entry and the run finished. */
  lemma SingleOutcomes(env: Env, ctx: Context)
    ensures var r := HarvestSingle(env, ctx);
            && r.supplier == ctx.code
            && r.transformed <= r.fetched && r.success <= r.transformed
            && (FindPlugin(env.fetchers, "fetchers", ctx.code, "Fetcher").Missing? ==>
                  r == SingleResult(ctx.code, 0, 0, 0, ["No fetcher found for " + ctx.code], false))
            && (!r.finished ==> |r.errors| == 1 && r.success == 0 && r.transformed == 0)
            && (r.finished && r.transformed == 0 && r.fetched != 0 ==>
                  |r.errors| == 1 && StartsWith(r.errors[0], "Harvest error: "))
            && (r.transformed == r.fetched ==> r.success + |r.errors| == r.fetched || |r.errors| == 1)
  {
    var code := ctx.code;
    match FindPlugin(env.fetchers, "fetchers", code, "Fetcher")
    case Missing =>
    case Raises(m) =>
    case Instance(_) =>
      match env.fetch(code)
      case Err(m) =>
      case Ok(items) =>
        ItemsBalance(env, ctx, items);
  }

  /** A run that found both classes and fetched `items`: everything fetched is transformed,
      and the successes and the error entries add up to what was fetched. */
  lemma CompleteRunBalances(env: Env, ctx: Context, items: seq<Value>)
    requires FindPlugin(env.fetchers, "fetchers", ctx.code, "Fetcher").Instance?
    requires env.fetch(ctx.code) == Ok(items)
    requires FindPlugin(env.transformers, "transformers", ctx.code, "Transformer").Instance?
    ensures var r := HarvestSingle(env, ctx);
            && r.fetched == |items| && r.transformed == r.fetched && r.finished
            && r.success + |r.errors| == r.fetched
            && forall e :: e in r.errors ==> StartsWith(e, "Transform error: ")
  {
    ItemsBalance(env, ctx, items);
  }

  // ---------------------------------------------------------------- all suppliers

  /** The `suppliers` dictionary after running the codes in order. */
  function Results(env: Env, tenantId: string, codes: seq<string>): map<string, SingleResult>
    decreases |codes|
  {
    if codes == [] then map[]
    else
      var k := |codes| - 1;
      var code := codes[k];
      Results(env, tenantId, codes[..k])[code := HarvestSingle(env, Context(code, tenantId, Some(env.configs(code))))]
  }

  /** The results are keyed by exactly the supplier codes, each holding that supplier's run. */
  lemma {:induction false} ResultsSpec(env: Env, tenantId: string, codes: seq<string>)
    ensures forall c :: c in Results(env, tenantId, codes) <==> c in codes
    ensures forall c :: c in Results(env, tenantId, codes) ==>
              Results(env, tenantId, codes)[c] == HarvestSingle(env, Context(c, tenantId, Some(env.configs(c))))
    decreases |codes|
  {
    if codes != [] {
      var k := |codes| - 1;
      ResultsSpec(env, tenantId, codes[..k]);
      assert codes == codes[..k] + [codes[k]];
    }
  }

  /** The result dictionary of `_run_all`, without its timestamps. */
  datatype AllResult = AllResult(totalSuppliers: nat, suppliers: map<string, SingleResult>, finished: bool)

  function HarvestAll(env: Env, tenantId: string): AllResult {
    AllResult(|env.suppliers|, Results(env, tenantId, env.suppliers), true)
  }

  /** `total_suppliers` counts the configured suppliers, and every supplier has exactly one
      result. */
  lemma AllCountsSuppliers(env: Env, tenantId: string)
    ensures HarvestAll(env, tenantId).totalSuppliers == |env.suppliers|
    ensures forall c :: c in HarvestAll(env, tenantId).suppliers <==> c in env.suppliers
    ensures |HarvestAll(env, tenantId).suppliers| == |env.suppliers|
  {
    ResultsSpec(env, tenantId, env.suppliers);
    var keys := HarvestAll(env, tenantId).suppliers.Keys;
    assert keys == set c | c in env.suppliers;
    SetOfSeqSize(env.suppliers);
  }

  /** A sequence has at most as many distinct elements as entries, and exactly as many
      when no entry repeats. */
  lemma {:induction false} SetOfSeqSize(s: seq<string>)
    ensures |set c | c in s| <= |s|
    ensures (forall i, j :: 0 <= i < j < |s| ==> s[i] != s[j]) ==> |set c | c in s| == |s|
    decreases |s|
  {
    if s != [] {
      var k := |s| - 1;
      SetOfSeqSize(s[..k]);
      assert (set c | c in s) == (set c | c in s[..k]) + {s[k]} by {
        assert s == s[..k] + [s[k]];
      }
      if forall i, j :: 0 <= i < j < |s| ==> s[i] != s[j] {
        assert s[k] !in s[..k];
      }
    }
  }

  /** What `run` returns. */
  datatype RunResult = Single(single: SingleResult) | All(all: AllResult)

  /** `run`: the code `"all"` runs every supplier, any other code runs that one with its
      configuration. */
  function Harvest(env: Env, code: string, tenantId: string): (r: RunResult)
    ensures code == "all" <==> r.All?
  {
    if code == "all" then All(HarvestAll(env, tenantId))
    else Single(HarvestSingle(env, Context(code, tenantId, Some(env.configs(code)))))
  }

  // ---------------------------------------------------------------- the orchestrator

  class HarvestOrchestrator {
    var supplierCode: string
    const brainUrl: string
    const tenantId: string
    var supplierConfig: Option<SupplierConfig>

    function Ctx(): Context reads this {
      Context(supplierCode, tenantId, supplierConfig)
    }

    constructor (code: string, brainUrl: string, tenantId: string)
      ensures supplierCode == code && this.brainUrl == brainUrl && this.tenantId == tenantId
      ensures supplierConfig.None?
    {
      supplierCode := code;
      this.brainUrl := brainUrl;
      this.tenantId := tenantId;
      supplierConfig := None;
    }

    /** The transform-and-save loop of `_run_single`. */
    method TransformItems(env: Env, items: seq<Value>) returns (success: nat, errors: seq<string>)
      ensures success == SavedCount(env, Ctx(), items)
      ensures errors == ItemErrors(env, Ctx(), items)
    {
      success, errors := 0, [];
      var i := 0;
      while i < |items|
        invariant 0 <= i <= |items|
        invariant success == SavedCount(env, Ctx(), items[..i])
        invariant errors == ItemErrors(env, Ctx(), items[..i])
      {
        assert items[..i + 1][..i] == items[..i];
        var e := ItemError(env, Ctx(), items[i]);
        if e.None? {
          success := success + 1;
        } else {
          errors := errors + [e.value];
        }
        i := i + 1;
      }
      assert items[..i] == items;
    }

    /** `_run_single`. */
    method RunSingle(env: Env) returns (r: SingleResult)
      ensures r == HarvestSingle(env, Ctx())
    {
      r := SingleResult(supplierCode, 0, 0, 0, [], false);
      var fetcher := FindPlugin(env.fetchers, "fetchers", supplierCode, "Fetcher");
      if fetcher.Missing? {
        r := r.(errors := r.errors + ["No fetcher found for " + supplierCode]);
        return;
      }
      if fetcher.Raises? {
        r := r.(errors := r.errors + ["Harvest error: " + fetcher.msg], finished := true);
        return;
      }
      var raw := env.fetch(supplierCode);
      if raw.Err? {
        r := r.(errors := r.errors + ["Harvest error: " + raw.error], finished := true);
        return;
      }
      r := TransformPhase(env, raw.value);
    }

    /** `_run_single` from the fetched items on. */
    method TransformPhase(env: Env, items: seq<Value>) returns (r: SingleResult)
      ensures r == AfterFetch(env, Ctx(), items, FindPlugin(env.transformers, "transformers", supplierCode, "Transformer"))
    {
      r := SingleResult(supplierCode, |items|, 0, 0, [], false);
      var transformer := FindPlugin(env.transformers, "transformers", supplierCode, "Transformer");
      if transformer.Missing? {
        r := r.(errors := r.errors + ["No transformer found for " + supplierCode]);
        return;
      }
      if transformer.Raises? {
        r := r.(errors := r.errors + ["Harvest error: " + transformer.msg], finished := true);
        return;
      }
      var success, errors := TransformItems(env, items);
      r := r.(transformed := |items|, success := success, errors := r.errors + errors, finished := true);
    }

    /** `_run_all`: each supplier in turn becomes the current one, with its configuration. */
    method RunAll(env: Env) returns (r: AllResult)
      modifies this
      ensures r == HarvestAll(env, tenantId)
      ensures env.suppliers != [] ==>
                supplierCode == env.suppliers[|env.suppliers| - 1] &&
                supplierConfig == Some(env.configs(supplierCode))
      ensures env.suppliers == [] ==> supplierCode == old(supplierCode) && supplierConfig == old(supplierConfig)
    {
      var results: map<string, SingleResult> := map[];
      var i := 0;
      while i < |env.suppliers|
        invariant 0 <= i <= |env.suppliers|
        invariant results == Results(env, tenantId, env.suppliers[..i])
        invariant i > 0 ==> supplierCode == env.suppliers[i - 1] && supplierConfig == Some(env.configs(supplierCode))
        invariant i == 0 ==> supplierCode == old(supplierCode) && supplierConfig == old(supplierConfig)
      {
        var code := env.suppliers[i];
        assert env.suppliers[..i + 1][..i] == env.suppliers[..i];
        supplierCode := code;
        supplierConfig := Some(env.configs(code));
        var single := RunSingle(env);
        results := results[code := single];
        i := i + 1;
      }
      assert env.suppliers[..i] == env.suppliers;
      r := AllResult(|env.suppliers|, results, true);
    }

    /** `run`. */
    method Run(env: Env) returns (r: RunResult)
      modifies this
      ensures r == Harvest(env, old(supplierCode), tenantId)
    {
      if supplierCode != "all" {
        supplierConfig := Some(env.configs(supplierCode));
      }
      if supplierCode == "all" {
        var a := RunAll(env);
        r := All(a);
      } else {
        var s := RunSingle(env);
        r := Single(s);
      }
    }
  }

  /** `run_harvest`: a fresh orchestrator for the code, run once. */
  method RunHarvest(env: Env, code: string, brainUrl: string, tenantId: string) returns (r: RunResult)
    ensures r == Harvest(env, code, tenantId)
    ensures code == "all" <==> r.All?
  {
    var o := new HarvestOrchestrator(code, brainUrl, tenantId);
    r := o.Run(env);
  }

  /** `run_all_harvests`: the per-supplier results of a run over every supplier. */
  method RunAllHarvests(env: Env, brainUrl: string, tenantId: string) returns (results: map<string, SingleResult>)
    ensures results == HarvestAll(env, tenantId).suppliers
    ensures forall c :: c in results <==> c in env.suppliers
  {
    var o := new HarvestOrchestrator("all", brainUrl, tenantId);
    var r := o.Run(env);
    results := r.all.suppliers;
    AllCountsSuppliers(env, tenantId);
  }
}
