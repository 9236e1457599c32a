/** The vendors served through `openaiBase`: each is the pass-through
    adapter with its own name, required environment, model list and, for
    some, a `pre` rewrite of the request. Azure, Ollama, OpenRouter and
    Bailian read their model list from the environment; Groq and Cerebras
    translate model aliases; DeepSeek, Moonshot, Grok and Lingyiwanwu are
    constant data. */
module Providers {
  import opened Wrappers
  import opened JsString
  import opened Contract

  // ---------------------------------------------------------------- shared pieces

  /** `env.X ?? ''`. */
  function EnvOrEmpty(env: Env, key: string): string {
    if key in env then env[key] else ""
  }

  /** The `pre` of the Azure and Ollama adapters: the model id's second
      `/`-segment (`model.split('/')[1]`) with `stream` set to false. `None`
      stands for the request whose model becomes `undefined`, which happens
      exactly when the id has no `/`. */
  function SlashPre(req: ChatRequest): (r: Option<ChatRequest>)
    ensures r.None? <==> '/' !in req.model
    ensures r.Some? ==> !r.value.stream && '/' !in r.value.model
    ensures r.Some? ==> r.value == req.(model := r.value.model, stream := false)
  {
    var parts := Split(req.model, '/');
    if |parts| < 2 then None else Some(req.(model := parts[1], stream := false))
  }

  /** A prefixed id `p/m` loses its prefix and everything after a second
      `/`; an `m` without `/` comes back whole. */
  lemma {:induction false} SlashPrePrefix(req: ChatRequest, p: string, m: string)
    requires '/' !in p
    ensures SlashPre(req.(model := p + "/" + m)) == Some(req.(model := Split(m, '/')[0], stream := false))
    ensures '/' !in m ==> SlashPre(req.(model := p + "/" + m)) == Some(req.(model := m, stream := false))
  {
    assert p + "/" + m == p + ['/'] + m;
    SplitAtFirst(p, m, '/');
    if '/' !in m {
      SplitWithoutSeparator(m, '/');
    }
  }

  /** `env.X?.split(',').map(it => it.trim()) ?? defaults`: the trimmed
      comma-separated entries of `X` when it is set (an empty value gives
      one empty entry), the defaults otherwise. */
  function EnvList(env: Env, key: string, defaults: seq<string>): (r: seq<string>)
    ensures key !in env ==> r == defaults
    ensures key in env ==> |r| == |Split(env[key], ',')| >= 1
    ensures key in env ==> forall i :: 0 <= i < |r| ==> r[i] == Trim(Split(env[key], ',')[i])
  {
    if key in env then
      var parts := Split(env[key], ',');
      seq(|parts|, i requires 0 <= i < |parts| => Trim(parts[i]))
    else defaults
  }

  /** Every entry read from the environment is already trimmed. */
  lemma {:induction false} EnvListTrimmed(env: Env, key: string, defaults: seq<string>)
    requires key in env
    ensures forall i :: 0 <= i < |EnvList(env, key, defaults)| ==> Trim(EnvList(env, key, defaults)[i]) == EnvList(env, key, defaults)[i]
  {
    var parts := Split(env[key], ',');
    forall i | 0 <= i < |parts| ensures Trim(Trim(parts[i])) == Trim(parts[i]) {
      TrimIdempotent(parts[i]);
    }
  }

  /** Writing a list of trimmed ids without commas into the variable, joined
      by commas, gives back exactly that list. */
  lemma {:induction false} EnvListRoundTrip(env: Env, key: string, defaults: seq<string>, ids: seq<string>)
    requires |ids| >= 1
    requires forall i :: 0 <= i < |ids| ==> ',' !in ids[i]
    requires forall i :: 0 <= i < |ids| ==> Trim(ids[i]) == ids[i]
    ensures EnvList(env[key := Join(ids, ',')], key, defaults) == ids
  {
    SplitJoin(ids, ',');
    EnvListOfSplit(env, key, defaults, Join(ids, ','), ids);
  }

  lemma {:induction false} EnvListOfSplit(env: Env, key: string, defaults: seq<string>, v: string, ids: seq<string>)
    requires Split(v, ',') == ids
    requires forall i :: 0 <= i < |ids| ==> Trim(ids[i]) == ids[i]
    ensures EnvList(env[key := v], key, defaults) == ids
  {
    var r := EnvList(env[key := v], key, defaults);
    assert |r| == |ids|;
    forall i | 0 <= i < |r| ensures r[i] == ids[i] {
    }
  }

  /** Trimming already trimmed entries changes nothing. */
  lemma {:induction false} TrimmedAll(parts: seq<string>)
    requires forall i :: 0 <= i < |parts| ==> Trim(parts[i]) == parts[i]
    ensures seq(|parts|, i requires 0 <= i < |parts| => Trim(parts[i])) == parts
  {
  }

  // ---------------------------------------------------------------- azure

  const AzureModelsKey := "AZURE_DEPLOYMENT_MODELS"

  /** The entries of `AZURE_DEPLOYMENT_MODELS`, `[""]` when it is unset. */
  function AzureEntries(env: Env): (r: seq<string>)
    ensures |r| >= 1
    ensures AzureModelsKey !in env ==> r == [""]
  {
    Split(EnvOrEmpty(env, AzureModelsKey), ',')
  }

  /** The model an entry declares: the text before the first `:` of a
      `model:deployment` entry, the whole entry otherwise. */
  function EntryModel(entry: string): (m: string)
    ensures ':' !in m
    ensures ':' !in entry ==> m == entry
    ensures ':' in entry ==> |m| < |entry| && entry[..|m|] == m && entry[|m|] == ':'
  {
    if ':' in entry then FirstSeparated(entry, ':') else entry
  }

  /** The text before the first `sep` of `s`, which is the first part of its
      split. */
  function FirstSeparated(s: string, sep: char): (m: string)
    requires sep in s
    ensures m == Split(s, sep)[0]
    ensures |m| < |s| && s[..|m|] == m && s[|m|] == sep
    decreases |s|
  {
    if s[0] == sep then "" else [s[0]] + FirstSeparated(s[1..], sep)
  }

  /** `supportModels`: `azure/` and the model of each entry, in order. */
  function AzureModelIds(entries: seq<string>): (r: seq<string>)
    ensures |r| == |entries|
    ensures forall i :: 0 <= i < |r| ==> r[i] == "azure/" + EntryModel(entries[i])
  {
    seq(|entries|, i requires 0 <= i < |entries| => "azure/" + EntryModel(entries[i]))
  }

  /** The model-to-deployment map the entries build: each `model:deployment`
      entry sets `map[model]` to the entry's second `:`-segment, a later
      entry overwriting an earlier one. */
  function Deployments(entries: seq<string>): map<string, string>
    decreases |entries|
  {
    if |entries| == 0 then map[]
    else
      var m := Deployments(entries[..|entries| - 1]);
      var e := entries[|entries| - 1];
      if ':' in e then m[EntryModel(e) := Split(e, ':')[1]] else m
  }

  /** The `.map` over the entries, which fills the deployment map as a side
      effect while it builds the model ids. */
  method AzureSupportModels(env: Env) returns (ids: seq<string>, deployments: map<string, string>)
    ensures ids == AzureModelIds(AzureEntries(env))
    ensures deployments == Deployments(AzureEntries(env))
  {
    var entries := Split(EnvOrEmpty(env, AzureModelsKey), ',');
    ghost var expected := AzureModelIds(entries);
    ids, deployments := [], map[];
    var i := 0;
    while i < |entries|
      invariant 0 <= i <= |entries|
      invariant ids == expected[..i]
      invariant deployments == Deployments(entries[..i])
    {
      var it := entries[i];
      DeploymentsStep(entries, i);
      var model := it;
      if ':' in it {
        var parts := Split(it, ':');
        model := parts[0];
        deployments := deployments[model := parts[1]];
      }
      assert model == EntryModel(it);
      ids := ids + ["azure/" + model];
      TakeOneMore(expected, i);
      i := i + 1;
    }
    assert entries[..i] == entries;
    assert expected[..i] == expected;
  }

  /** Entry `e` is a `model:deployment` entry for model `k`. */
  predicate Declares(e: string, k: string) {
    ':' in e && EntryModel(e) == k
  }

  /** Deployments of `init + [last]`, one entry at a time. */
  lemma {:induction false} DeploymentsSnoc(entries: seq<string>, k: string)
    requires |entries| > 0
    ensures var init := entries[..|entries| - 1];
      k in Deployments(entries) <==> k in Deployments(init) || Declares(entries[|entries| - 1], k)
  {
  }

  /** One more entry of the `.map`: a `model:deployment` entry sets the
      deployment of its model, any other entry leaves the map alone. */
  lemma {:induction false} DeploymentsStep(entries: seq<string>, i: nat)
    requires i < |entries|
    ensures ':' in entries[i] ==>
      Deployments(entries[..i + 1]) == Deployments(entries[..i])[Split(entries[i], ':')[0] := Split(entries[i], ':')[1]]
    ensures ':' !in entries[i] ==> Deployments(entries[..i + 1]) == Deployments(entries[..i])
  {
    assert entries[..i + 1][..i] == entries[..i];
    assert entries[..i + 1][i] == entries[i];
  }

  /** A model has a deployment exactly when some `model:deployment` entry
      names it. */
  lemma {:induction false} DeploymentKeys(entries: seq<string>, k: string)
    ensures k in Deployments(entries) <==> exists i :: 0 <= i < |entries| && Declares(entries[i], k)
  {
    if k in Deployments(entries) {
      var i := DeployedBy(entries, k);
    }
    if exists i :: 0 <= i < |entries| && Declares(entries[i], k) {
      var i :| 0 <= i < |entries| && Declares(entries[i], k);
      NamedIsDeployed(entries, k, i);
    }
  }

  /** An entry naming a deployed model. */
  lemma {:induction false} DeployedBy(entries: seq<string>, k: string) returns (i: nat)
    requires k in Deployments(entries)
    ensures i < |entries| && Declares(entries[i], k)
    decreases |entries|
  {
    var n := |entries| - 1;
    DeploymentsSnoc(entries, k);
    if Declares(entries[n], k) {
      i := n;
    } else {
      i := DeployedBy(entries[..n], k);
      assert entries[..n][i] == entries[i];
    }
  }

  /** A named model is deployed. */
  lemma {:induction false} NamedIsDeployed(entries: seq<string>, k: string, i: nat)
    requires i < |entries| && Declares(entries[i], k)
    ensures k in Deployments(entries)
    decreases |entries|
  {
    var n := |entries| - 1;
    DeploymentsSnoc(entries, k);
    if i < n {
      assert entries[..n][i] == entries[i];
      NamedIsDeployed(entries[..n], k, i);
    }
  }

  /** The deployment of a model comes from the last entry that names it. */
  lemma {:induction false} DeploymentLastWins(entries: seq<string>, i: nat)
    requires i < |entries| && ':' in entries[i]
    requires forall j :: i < j < |entries| && ':' in entries[j] ==> EntryModel(entries[j]) != EntryModel(entries[i])
    ensures EntryModel(entries[i]) in Deployments(entries)
    ensures Deployments(entries)[EntryModel(entries[i])] == Split(entries[i], ':')[1]
    decreases |entries|
  {
    var init := entries[..|entries| - 1];
    if i < |entries| - 1 {
      assert init[i] == entries[i];
      forall j | i < j < |init| && ':' in init[j] ensures EntryModel(init[j]) != EntryModel(init[i]) {
        assert init[j] == entries[j];
      }
      DeploymentLastWins(init, i);
    }
  }

  /** Without `AZURE_DEPLOYMENT_MODELS` the adapter lists the one id
      `azure/` and has no deployment. */
  lemma {:induction false} AzureUnset(env: Env)
    requires AzureModelsKey !in env
    ensures AzureModelIds(AzureEntries(env)) == ["azure/"]
    ensures Deployments(AzureEntries(env)) == map[]
  {
    assert AzureEntries(env) == [""];
    assert ':' !in "";
    assert "azure/" + "" == "azure/";
    assert Deployments([""]) == Deployments([]);
  }

  /** A request for a listed id reaches the vendor under the entry's model
      name (when it has no `/`), and that name is the key `createClient`
      looks the deployment up by. */
  lemma {:induction false} AzureRoute(req: ChatRequest, entries: seq<string>, i: nat)
    requires i < |entries| && '/' !in EntryModel(entries[i])
    ensures SlashPre(req.(model := AzureModelIds(entries)[i])) == Some(req.(model := EntryModel(entries[i]), stream := false))
    ensures ':' in entries[i] ==> EntryModel(entries[i]) in Deployments(entries)
  {
    var m := EntryModel(entries[i]);
    var id := AzureModelIds(entries)[i];
    assert id == "azure/" + m;
    assert '/' !in "azure";
    assert id == "azure" + "/" + m by {
      assert "azure/" == "azure" + "/";
    }
    SlashPrePrefix(req, "azure", m);
    if ':' in entries[i] {
      NamedIsDeployed(entries, m, i);
    }
  }

  function Azure(env: Env): Adapter {
    Adapter("azure-openai", ["AZURE_OPENAI_API_KEY", "AZURE_OPENAI_ENDPOINT", "AZURE_API_VERSION", AzureModelsKey],
            AzureModelIds(AzureEntries(env)))
  }

  // ---------------------------------------------------------------- ollama

  /** `supportModels`: `ollama/` and each entry of `OLLAMA_MODELS`, which
      is not a required variable; unset, it lists the one id `ollama/`. */
  function OllamaModels(env: Env): (r: seq<string>)
    ensures "OLLAMA_MODELS" !in env ==> r == ["ollama/"]
    ensures |r| == |Split(EnvOrEmpty(env, "OLLAMA_MODELS"), ',')|
    ensures forall i :: 0 <= i < |r| ==> r[i] == "ollama/" + Split(EnvOrEmpty(env, "OLLAMA_MODELS"), ',')[i]
  {
    var entries := Split(EnvOrEmpty(env, "OLLAMA_MODELS"), ',');
    assert "OLLAMA_MODELS" !in env ==> entries == [""] && "ollama/" + entries[0] == "ollama/";
    seq(|entries|, i requires 0 <= i < |entries| => "ollama/" + entries[i])
  }

  /** Each listed id goes back, through `pre`, to the entry it came from. */
  lemma {:induction false} OllamaRoundTrip(env: Env, req: ChatRequest, i: nat)
    requires i < |OllamaModels(env)|
    ensures var entry := Split(EnvOrEmpty(env, "OLLAMA_MODELS"), ',')[i];
      '/' !in entry ==> SlashPre(req.(model := OllamaModels(env)[i])) == Some(req.(model := entry, stream := false))
  {
    var entry := Split(EnvOrEmpty(env, "OLLAMA_MODELS"), ',')[i];
    assert OllamaModels(env)[i] == "ollama" + "/" + entry;
    SlashPrePrefix(req, "ollama", entry);
  }

  function Ollama(env: Env): Adapter {
    Adapter("ollama", ["OLLAMA_BASE_URL"], OllamaModels(env))
  }

  // ---------------------------------------------------------------- groq and cerebras

  /** A model alias object, as its entries in declaration order. */
  type Aliases = seq<(string, string)>

  /** `Object.keys(map)`. */
  function Keys(aliases: Aliases): (r: seq<string>)
    ensures |r| == |aliases|
    ensures forall i :: 0 <= i < |r| ==> r[i] == aliases[i].0
  {
    seq(|aliases|, i requires 0 <= i < |aliases| => aliases[i].0)
  }

  /** `map[m]`: the target of alias `m`, `None` (undefined) for a model
      that is not an alias. */
  function AliasOf(aliases: Aliases, m: string): (r: Option<string>)
    ensures r.Some? <==> m in Keys(aliases)
    ensures r.Some? ==> (m, r.value) in aliases
    decreases |aliases|
  {
    if |aliases| == 0 then None
    else if aliases[0].0 == m then Some(aliases[0].1)
    else
      KeysCons(aliases);
      AliasOf(aliases[1..], m)
  }

  lemma {:induction false} KeysCons(aliases: Aliases)
    requires |aliases| > 0
    ensures Keys(aliases) == [aliases[0].0] + Keys(aliases[1..])
  {
  }

  /** The in-place `pre` of Groq and Cerebras: the request's model is
      replaced by its alias target and the same request object is returned.
      The router only picks the adapter for a listed model, so the model is
      an alias key. */
  method AliasPre(aliases: Aliases, r: RequestObject) returns (out: RequestObject)
    requires AliasOf(aliases, r.value.model).Some?
    modifies r
    ensures out == r
    ensures r.value == old(r.value).(model := AliasOf(aliases, old(r.value).model).value)
  {
    r.value := r.value.(model := AliasOf(aliases, r.value.model).value);
    out := r;
  }

  /** When every alias of `aliases` is its target behind `prefix`, the
      rewrite only drops the prefix. */
  lemma {:induction false} AliasDropsPrefix(aliases: Aliases, prefix: string, m: string)
    requires forall i :: 0 <= i < |aliases| ==> aliases[i].0 == prefix + aliases[i].1
    requires AliasOf(aliases, m).Some?
    ensures m == prefix + AliasOf(aliases, m).value
  {
  }

  /** Groq's alias object, in declaration order; each key is spelled as
      `groq/` followed by its target. */
  const GroqAliases: Aliases := [
    ("groq/" + "distil-whisper-large-v3-en", "distil-whisper-large-v3-en"),
    ("groq/" + "gemma2-9b-it", "gemma2-9b-it"),
    ("groq/" + "gemma-7b-it", "gemma-7b-it"),
    ("groq/" + "llama-3.1-70b-versatile", "llama-3.1-70b-versatile"),
    ("groq/" + "llama-3.1-8b-instant", "llama-3.1-8b-instant"),
    ("groq/" + "llama3-70b-8192", "llama3-70b-8192"),
    ("groq/" + "llama3-8b-8192", "llama3-8b-8192"),
    ("groq/" + "llama3-groq-70b-8192-tool-use-preview", "llama3-groq-70b-8192-tool-use-preview"),
    ("groq/" + "llama3-groq-8b-8192-tool-use-preview", "llama3-groq-8b-8192-tool-use-preview"),
    ("groq/" + "llama-guard-3-8b", "llama-guard-3-8b"),
    ("groq/" + "mixtral-8x7b-32768", "mixtral-8x7b-32768"),
    ("groq/" + "whisper-large-v3", "whisper-large-v3")
  ]

  /** Groq's `pre` sends a listed model to the vendor without its `groq/`
      prefix. */
  lemma {:induction false} GroqPreDropsPrefix(m: string)
    requires m in Keys(GroqAliases)
    ensures AliasOf(GroqAliases, m).Some? && m == "groq/" + AliasOf(GroqAliases, m).value
  {
    AliasDropsPrefix(GroqAliases, "groq/", m);
  }

  function Groq(): Adapter {
    Adapter("groq", ["GROQ_API_KEY"], Keys(GroqAliases))
  }

  const CerebrasAliases: Aliases := [
    ("cerebras/llama-3.1-70b", "llama-3-70b"),
    ("cerebras/llama-3.1-8b", "llama-3-8b")]

  /** The two Cerebras models go to two different vendor models. */
  lemma {:induction false} CerebrasTargets()
    ensures AliasOf(CerebrasAliases, "cerebras/llama-3.1-70b") == Some("llama-3-70b")
    ensures AliasOf(CerebrasAliases, "cerebras/llama-3.1-8b") == Some("llama-3-8b")
  {
  }

  const Cerebras: Adapter :=
    Adapter("cerebras", ["CEREBRAS_API_KEY"], Keys(CerebrasAliases))

  // ---------------------------------------------------------------- openrouter and bailian

  const OpenRouterDefaults: seq<string> := [
    "anthropic/claude-opus-4.1", "anthropic/claude-opus-4", "anthropic/claude-sonnet-4",
    "anthropic/claude-3.5-sonnet", "anthropic/claude-3.5-haiku"]

  function OpenRouter(env: Env): Adapter {
    Adapter("OpenRouter", ["OPENROUTER_API_KEY"], EnvList(env, "OPENROUTER_MODELS", OpenRouterDefaults))
  }

  function Bailian(env: Env): Adapter {
    Adapter("Bailian", ["ALIYUN_BAILIAN_API_KEY"], EnvList(env, "ALIYUN_BAILIAN_MODELS", ["qwen-max"]))
  }

  // ---------------------------------------------------------------- constant vendors

  const DeepSeek: Adapter :=
    Adapter("deepseek", ["DEEPSEEK_API_KEY"], ["deepseek-reasoner", "deepseek-chat", "deepseek-coder"])

  const Moonshot: Adapter :=
    Adapter("moonshot", ["MOONSHOT_API_KEY"], ["moonshot-v1-128k", "moonshot-v1-8k", "moonshot-v1-32k"])

  const Grok: Adapter :=
    Adapter("grok", ["GROK_API_KEY"], ["grok-3-latest", "grok-3-fast-latest", "grok-3-mini-latest", "grok-3-mini-fast-latest"])

  const Lingyiwanwu: Adapter :=
    Adapter("lingyiwanwu", ["LINGYIWANWU_API_KEY"],
            ["yi-large", "yi-medium", "yi-vision", "yi-medium-200k", "yi-spark", "yi-large-rag", "yi-large-fc",
             "yi-large-turbo", "yi-large-preview"])
}
