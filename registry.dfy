/** The adapter registry of the `/openai` and `/ollama` routers, and the
    decisions every router makes the same way: which adapters the
    environment activates, which one serves a model id, whether a key
    authorizes a request, and how the active adapters' model ids are listed
    and deduplicated. */
module Registry {
  import opened Wrappers
  import opened JsString
  import opened Contract
  import OpenAi
  import Anthropic
  import Google
  import Cohere
  import Providers

  // ---------------------------------------------------------------- registry

  /** The fifteen adapters in registration order. Only Azure, Bailian,
      Ollama and OpenRouter read the environment, and only for their
      model lists. */
  function Registered(env: Env): (r: seq<Adapter>)
    ensures |r| == 15
  {
    [ OpenAi.Descriptor, Anthropic.Descriptor, Anthropic.VertexDescriptor, Google.Descriptor,
      Providers.DeepSeek, Providers.Moonshot, Providers.Lingyiwanwu, Providers.Groq(),
      Providers.Azure(env), Cohere.Descriptor, Providers.Bailian(env), Providers.Ollama(env),
      Providers.Grok, Providers.OpenRouter(env), Providers.Cerebras ]
  }

  /** The adapter names in registration order. */
  const RegisteredNames: seq<string> := [
    "openai", "anthropic", "vertex-anthropic", "google", "deepseek", "moonshot", "lingyiwanwu", "groq",
    "azure-openai", "cohere", "Bailian", "ollama", "grok", "OpenRouter", "cerebras" ]

  /** The environment does not decide the adapters' names: they are fixed
      per position. */
  lemma {:induction false} RegisteredNamesFixed(env: Env)
    ensures forall i :: 0 <= i < 15 ==> Registered(env)[i].name == RegisteredNames[i]
  {
  }

  /** The variables each adapter needs, in registration order. */
  const RegisteredEnv: seq<seq<string>> := [
    ["OPENAI_API_KEY"], ["ANTROPIC_API_KEY"],
    [ "VERTEX_ANTROPIC_GOOGLE_SA_CLIENT_EMAIL", "VERTEX_ANTROPIC_GOOGLE_SA_PRIVATE_KEY",
      "VERTEX_ANTROPIC_REGION", "VERTEX_ANTROPIC_PROJECTID" ],
    ["GOOGLE_GEN_AI_API_KEY"], ["DEEPSEEK_API_KEY"], ["MOONSHOT_API_KEY"], ["LINGYIWANWU_API_KEY"],
    ["GROQ_API_KEY"], ["AZURE_OPENAI_API_KEY", "AZURE_OPENAI_ENDPOINT", "AZURE_API_VERSION", "AZURE_DEPLOYMENT_MODELS"],
    ["COHERE_API_KEY"], ["ALIYUN_BAILIAN_API_KEY"], ["OLLAMA_BASE_URL"], ["GROK_API_KEY"],
    ["OPENROUTER_API_KEY"], ["CEREBRAS_API_KEY"] ]

  /** Nor the variables each adapter needs; every adapter needs at least
      one. */
  lemma {:induction false} RequiredEnvFixed(env: Env)
    ensures forall i :: 0 <= i < 15 ==> Registered(env)[i].requiredEnv == RegisteredEnv[i]
    ensures forall i :: 0 <= i < 15 ==> |RegisteredEnv[i]| >= 1
  {
  }

  /** The filter `requiredEnv.every((it) => it in env)`. */
  function Active(env: Env): Adapter -> bool {
    a => Configured(a, env)
  }

  /** `getModels`: the registered adapters whose variables are all set, in
      registration order. */
  function GetModels(env: Env): (r: seq<Adapter>)
    ensures IsSubsequence(r, Registered(env))
    ensures forall a :: a in r <==> a in Registered(env) && Configured(a, env)
  {
    FilterIsSubsequence(Registered(env), Active(env));
    Filter(Registered(env), Active(env))
  }

  function Names(adapters: seq<Adapter>): (r: seq<string>)
    ensures |r| == |adapters|
    ensures forall i :: 0 <= i < |r| ==> r[i] == adapters[i].name
    decreases |adapters|
  {
    if |adapters| == 0 then [] else [adapters[0].name] + Names(adapters[1..])
  }

  /** Filtering two position-wise matching lists, where the second filter
      keeps at least what the first keeps, gives names in subsequence. */
  lemma {:induction false} FilterNamesMonotone(xs: seq<Adapter>, ys: seq<Adapter>, p: Adapter -> bool, q: Adapter -> bool)
    requires |xs| == |ys|
    requires forall i :: 0 <= i < |xs| ==> xs[i].name == ys[i].name
    requires forall i :: 0 <= i < |xs| && p(xs[i]) ==> q(ys[i])
    ensures IsSubsequence(Names(Filter(xs, p)), Names(Filter(ys, q)))
    decreases |xs|
  {
    if |xs| > 0 {
      FilterNamesMonotone(xs[1..], ys[1..], p, q);
      var a, b := Names(Filter(xs[1..], p)), Names(Filter(ys[1..], q));
      if p(xs[0]) {
        assert Names(Filter(xs, p)) == [xs[0].name] + a;
        assert Names(Filter(ys, q)) == [ys[0].name] + b;
        assert ([xs[0].name] + a)[1..] == a;
        assert ([ys[0].name] + b)[1..] == b;
      } else if q(ys[0]) {
        assert Names(Filter(xs, p)) == a;
        assert Names(Filter(ys, q)) == [ys[0].name] + b;
        assert ([ys[0].name] + b)[1..] == b;
        SubsequenceOfTail(a, [ys[0].name] + b);
      }
    }
  }

  /** Setting more variables never deactivates an adapter: the active names
      under `env` are a subsequence of those under a larger `env'`. */
  lemma {:induction false} GetModelsMonotone(env: Env, env': Env)
    requires env.Keys <= env'.Keys
    ensures IsSubsequence(Names(GetModels(env)), Names(GetModels(env')))
  {
    var xs, ys := Registered(env), Registered(env');
    RegisteredNamesFixed(env);
    RegisteredNamesFixed(env');
    RequiredEnvFixed(env);
    RequiredEnvFixed(env');
    forall i | 0 <= i < |xs| && Active(env)(xs[i]) ensures Active(env')(ys[i]) {
      assert xs[i].requiredEnv == ys[i].requiredEnv;
    }
    FilterNamesMonotone(xs, ys, Active(env), Active(env'));
  }

  /** An environment that sets none of the variables any adapter needs
      activates nothing. */
  lemma {:induction false} GetModelsEmpty(env: Env)
    requires forall k :: k in env ==> forall i :: 0 <= i < 15 ==> k !in Registered(env)[i].requiredEnv
    ensures GetModels(env) == []
  {
    var xs := Registered(env);
    RequiredEnvFixed(env);
    forall i | 0 <= i < |xs| ensures xs[i].requiredEnv[0] !in env {
      assert xs[i].requiredEnv[0] in xs[i].requiredEnv;
    }
    NoneConfigured(xs, env);
  }

  lemma {:induction false} NoneConfigured(xs: seq<Adapter>, env: Env)
    requires forall i :: 0 <= i < |xs| ==> |xs[i].requiredEnv| >= 1 && xs[i].requiredEnv[0] !in env
    ensures Filter(xs, Active(env)) == []
    decreases |xs|
  {
    if |xs| > 0 {
      assert !Active(env)(xs[0]);
      NoneConfigured(xs[1..], env);
    }
  }

  // ---------------------------------------------------------------- dispatch

  /** `list.find((it) => it.supportModels.includes(model))`. */
  function Find(list: seq<Adapter>, model: string): (r: Option<Adapter>)
    ensures r.None? <==> forall i :: 0 <= i < |list| ==> model !in list[i].supportModels
    ensures r.Some? ==> exists i :: 0 <= i < |list| && list[i] == r.value && model in r.value.supportModels &&
                          forall j :: 0 <= j < i ==> model !in list[j].supportModels
    decreases |list|
  {
    if |list| == 0 then None
    else if model in list[0].supportModels then Some(list[0])
    else
      var r := Find(list[1..], model);
      assert forall i :: 1 <= i < |list| ==> list[i] == list[1..][i - 1];
      if r.Some? then
        var i :| 0 <= i < |list[1..]| && list[1..][i] == r.value && model in r.value.supportModels &&
                 forall j :: 0 <= j < i ==> model !in list[1..][j].supportModels;
        assert list[i + 1] == r.value;
        r
      else r
  }

  /** The 400 reply for a model no active adapter serves. */
  function Unsupported(model: string): Error {
    Error(HttpStatus(400), "Model " + model + " not supported")
  }

  /** The adapter that serves `req`, or the unsupported-model error. */
  function Dispatch(list: seq<Adapter>, model: string): (r: Result<Adapter, Error>)
    ensures r.Failure? <==> forall i :: 0 <= i < |list| ==> model !in list[i].supportModels
    ensures r.Failure? ==> r.error == Unsupported(model)
    ensures r.Success? ==> r.value in list && model in r.value.supportModels
  {
    match Find(list, model)
    case None => Failure(Unsupported(model))
    case Some(a) => Success(a)
  }

  /** When dispatch picks Groq or Cerebras, the model is one of their alias
      keys, which is what their in-place `pre` needs. */
  lemma {:induction false} DispatchedAliasResolves(list: seq<Adapter>, model: string)
    requires Dispatch(list, model) == Success(Providers.Groq()) ||
             Dispatch(list, model) == Success(Providers.Cerebras)
    ensures Dispatch(list, model) == Success(Providers.Groq()) ==>
              Providers.AliasOf(Providers.GroqAliases, model).Some?
    ensures Dispatch(list, model) == Success(Providers.Cerebras) ==>
              Providers.AliasOf(Providers.CerebrasAliases, model).Some?
  {
  }

  // ---------------------------------------------------------------- auth

  /** The configured gateway key: `API_KEY` when it is set and not empty
      (`!c.env.API_KEY` rejects both). */
  function ApiKey(env: Env): (r: Option<string>)
    ensures r.Some? <==> "API_KEY" in env && env["API_KEY"] != ""
    ensures r.Some? ==> r.value == env["API_KEY"]
  {
    if "API_KEY" in env && env["API_KEY"] != "" then Some(env["API_KEY"]) else None
  }

  /** The header check of the OpenAI-style routes: `Authorization` must be
      exactly `Bearer ` followed by the key. */
  predicate BearerAuthorized(env: Env, authorization: Option<string>) {
    ApiKey(env).Some? && authorization == Some("Bearer " + ApiKey(env).value)
  }

  /** An accepted header carries the configured key after `Bearer `, and
      it is the only header accepted. */
  lemma {:induction false} BearerCarriesKey(env: Env, header: string, other: string)
    requires BearerAuthorized(env, Some(header))
    ensures ApiKey(env).Some? && StartsWith(header, "Bearer ") && header[7..] == env["API_KEY"]
    ensures BearerAuthorized(env, Some(other)) <==> other == header
  {
    assert header == "Bearer " + env["API_KEY"];
    assert |"Bearer "| == 7;
    assert header[..7] == "Bearer ";
  }

  /** The body of a 401 reply. */
  const UnauthorizedMessage := "Unauthorized"

  // ---------------------------------------------------------------- listing

  /** `flatMap((it) => it.supportModels)`. */
  function AllModels(list: seq<Adapter>): (r: seq<string>)
    ensures forall m :: m in r <==> exists i :: 0 <= i < |list| && m in list[i].supportModels
    decreases |list|
  {
    if |list| == 0 then []
    else
      var rest := AllModels(list[1..]);
      assert forall i :: 1 <= i < |list| ==> list[i] == list[1..][i - 1];
      list[0].supportModels + rest
  }

  /** The `flatMap` of a concatenation is the concatenation of the
      `flatMap`s. */
  lemma {:induction false} AllModelsAppend(a: seq<Adapter>, b: seq<Adapter>)
    ensures AllModels(a + b) == AllModels(a) + AllModels(b)
    decreases |a|
  {
    if |a| == 0 {
      assert a + b == b;
    } else {
      assert (a + b)[0] == a[0];
      assert (a + b)[1..] == a[1..] + b;
      AllModelsAppend(a[1..], b);
    }
  }

  /** The listing holds every adapter's models, repeats included, in
      adapter order: the models of adapter `k` come whole, after those of
      the adapters before it and before those after it. */
  lemma {:induction false} AllModelsAt(list: seq<Adapter>, k: nat)
    requires k < |list|
    ensures AllModels(list) == AllModels(list[..k]) + list[k].supportModels + AllModels(list[k + 1..])
  {
    assert list == list[..k] + ([list[k]] + list[k + 1..]);
    AllModelsAppend(list[..k], [list[k]] + list[k + 1..]);
    AllModelsAppend([list[k]], list[k + 1..]);
    assert [list[k]][1..] == [];
    assert AllModels([list[k]]) == list[k].supportModels + [];
  }

  /** A model is listed exactly when dispatch finds an adapter for it. */
  lemma {:induction false} ListedIffDispatched(list: seq<Adapter>)
    ensures forall m :: m in AllModels(list) <==> Dispatch(list, m).Success?
  {
    forall m ensures m in AllModels(list) <==> Dispatch(list, m).Success? {
      if Dispatch(list, m).Success? {
        var i :| 0 <= i < |list| && m in list[i].supportModels;
      }
    }
  }

  /** One entry of a `/models` listing. */
  datatype ModelEntry = ModelEntry(id: string, ownedBy: string, created: int)

  /** The entries for `ids`, all owned by `owner` and stamped `created`. */
  function Entries(ids: seq<string>, owner: string, created: int): (r: seq<ModelEntry>)
    ensures |r| == |ids|
    ensures forall i :: 0 <= i < |r| ==> r[i] == ModelEntry(ids[i], owner, created)
  {
    seq(|ids|, i requires 0 <= i < |ids| => ModelEntry(ids[i], owner, created))
  }

  predicate Distinct(xs: seq<string>) {
    forall i, j :: 0 <= i < j < |xs| ==> xs[i] != xs[j]
  }

  /** lodash `uniq`: every value once, at its first occurrence, the values
      ordered by where they first occur. */
  function Uniq(xs: seq<string>): (r: seq<string>)
    ensures Distinct(r)
    ensures forall x :: x in r <==> x in xs
    ensures forall i, k :: 0 <= i < k < |r| ==> FirstPos(xs, r[i]) < FirstPos(xs, r[k])
    decreases |xs|
  {
    if |xs| == 0 then []
    else
      var init, x := xs[..|xs| - 1], xs[|xs| - 1];
      var u := Uniq(init);
      assert xs == init + [x];
      assert forall y :: y in xs <==> y in init || y == x;
      assert forall y :: y in init ==> FirstPos(xs, y) == FirstPos(init, y) by {
        forall y | y in init ensures FirstPos(xs, y) == FirstPos(init, y) {
          FirstPosAppend(init, [x], y);
        }
      }
      if x in u then u
      else
        assert FirstPos(xs, x) == |init|;
        u + [x]
  }

  /** `uniq` keeps first occurrences in order: it is a subsequence of its
      input. */
  lemma {:induction false} UniqIsSubsequence(xs: seq<string>)
    ensures IsSubsequence(Uniq(xs), xs)
    decreases |xs|
  {
    if |xs| > 0 {
      var init, x := xs[..|xs| - 1], xs[|xs| - 1];
      UniqIsSubsequence(init);
      assert xs == init + [x];
      if x !in Uniq(init) {
        SubsequenceAppend(Uniq(init), init, x);
      } else {
        SubsequenceExtend(Uniq(init), init, [x]);
      }
    }
  }

  lemma {:induction false} SubsequenceAppend(sub: seq<string>, xs: seq<string>, x: string)
    requires IsSubsequence(sub, xs)
    ensures IsSubsequence(sub + [x], xs + [x])
    decreases |xs|
  {
    if |sub| == 0 {
      assert sub + [x] == [x];
      SubsequenceOfSingleton(xs, x);
    } else {
      assert |xs| > 0;
      assert (sub + [x])[1..] == sub[1..] + [x];
      assert (xs + [x])[1..] == xs[1..] + [x];
      if sub[0] == xs[0] {
        SubsequenceAppend(sub[1..], xs[1..], x);
      } else {
        SubsequenceAppend(sub, xs[1..], x);
      }
    }
  }

  lemma {:induction false} SubsequenceOfSingleton(xs: seq<string>, x: string)
    ensures IsSubsequence([x], xs + [x])
    decreases |xs|
  {
    if |xs| > 0 {
      assert (xs + [x])[1..] == xs[1..] + [x];
      SubsequenceOfSingleton(xs[1..], x);
      if xs[0] == x {
        assert IsSubsequence([x][1..], (xs + [x])[1..]);
      }
    } else {
      assert IsSubsequence([x][1..], [x][1..]);
    }
  }

  lemma {:induction false} SubsequenceExtend(sub: seq<string>, xs: seq<string>, ys: seq<string>)
    requires IsSubsequence(sub, xs)
    ensures IsSubsequence(sub, xs + ys)
    decreases |xs|
  {
    if |sub| > 0 {
      assert |xs| > 0;
      assert (xs + ys)[1..] == xs[1..] + ys;
      if sub[0] == xs[0] {
        SubsequenceExtend(sub[1..], xs[1..], ys);
      } else {
        SubsequenceExtend(sub, xs[1..], ys);
      }
    }
  }

  /** On a list without repeats `uniq` changes nothing. */
  lemma {:induction false} UniqOfDistinct(xs: seq<string>)
    requires Distinct(xs)
    ensures Uniq(xs) == xs
    decreases |xs|
  {
    if |xs| > 0 {
      var init, x := xs[..|xs| - 1], xs[|xs| - 1];
      UniqOfDistinct(init);
      assert x !in init;
      assert init + [x] == xs;
    }
  }
}
