/** The top-level application: a bearer-key check, `/v1/chat/completions`
    dispatching to the first active adapter that lists the model, and a
    deduplicated `/v1/models` listing. It has its own, shorter registry of
    five adapters. */
module Gateway {
  import opened Wrappers
  import opened Contract
  import Registry
  import OpenAi
  import Anthropic
  import Google
  import Providers

  /** The five adapters of this application, in registration order. */
  const Registered: seq<Adapter> := [
    OpenAi.Descriptor, Anthropic.Descriptor, Anthropic.VertexDescriptor, Google.Descriptor, Providers.DeepSeek ]

  /** `getModels`: the configured adapters, in registration order. */
  function GetModels(env: Env): (r: seq<Adapter>)
    ensures IsSubsequence(r, Registered)
    ensures forall a :: a in r <==> a in Registered && Configured(a, env)
  {
    FilterIsSubsequence(Registered, Registry.Active(env));
    Filter(Registered, Registry.Active(env))
  }

  datatype Route = ChatCompletions(req: ChatRequest) | ListModels

  /** What the application answers: `c.json({ error }, status)`, an
      `HTTPException` raised by the error middleware, a completion, an
      event stream of chunks, or a model page. */
  datatype Reply =
    | JsonError(status: int, error: string)
    | Thrown(thrownStatus: Status, message: string)
    | CompletionJson(completion: Completion)
    | EventStream(chunks: seq<Chunk>)
    | ModelsPage(data: seq<Registry.ModelEntry>)

  /** `(c.error as any)?.status ?? 500`: an error keeps its own status, one
      without a status becomes a 500. */
  function ThrownStatus(e: Error): (s: Status)
    ensures s != NoStatus
    ensures e.status != NoStatus ==> s == e.status
  {
    if e.status == NoStatus then HttpStatus(500) else e.status
  }

  /** `uniq(getModels(env).flatMap((it) => it.supportModels))`: each model of
      an active adapter once, in the order of first occurrence. */
  function ModelIds(env: Env): (ids: seq<string>)
    ensures Registry.Distinct(ids)
    ensures IsSubsequence(ids, Registry.AllModels(GetModels(env)))
    ensures forall m :: m in ids <==> Registry.Dispatch(GetModels(env), m).Success?
  {
    var all := Registry.AllModels(GetModels(env));
    Registry.UniqIsSubsequence(all);
    Registry.ListedIffDispatched(GetModels(env));
    Registry.Uniq(all)
  }

  /** The listing holds every model of an active adapter, ordered by where
      each first occurs among the adapters' models. */
  lemma {:induction false} ModelIdsOrder(env: Env)
    ensures var all := Registry.AllModels(GetModels(env));
      (forall m :: m in ModelIds(env) <==> m in all) &&
      forall i, k :: 0 <= i < k < |ModelIds(env)| ==> FirstPos(all, ModelIds(env)[i]) < FirstPos(all, ModelIds(env)[k])
  {
    var all := Registry.AllModels(GetModels(env));
    assert ModelIds(env) == Registry.Uniq(all);
  }

  /** The application on one request. `invoke` and `stream` stand for the
      chosen adapter's two entry points; `nowSeconds` is the clock. */
  function Handle(env: Env, authorization: Option<string>, route: Route,
                  invoke: (Adapter, ChatRequest) -> Result<Completion, Error>,
                  stream: (Adapter, ChatRequest) -> Outcome, nowSeconds: int): (r: Reply)
    ensures !Registry.BearerAuthorized(env, authorization) ==> r == JsonError(401, Registry.UnauthorizedMessage)
    ensures Registry.BearerAuthorized(env, authorization) && route.ChatCompletions? ==>
              match Registry.Dispatch(GetModels(env), route.req.model)
              case Failure(e) => r == JsonError(400, e.message)
              case Success(a) =>
                if route.req.stream then r == EventStream(stream(a, route.req).chunks)
                else match invoke(a, route.req)
                  case Success(c) => r == CompletionJson(c)
                  case Failure(e) => r == Thrown(ThrownStatus(e), e.message)
    ensures Registry.BearerAuthorized(env, authorization) && route.ListModels? ==>
              r == ModelsPage(Registry.Entries(ModelIds(env), "system", nowSeconds))
  {
    if !Registry.BearerAuthorized(env, authorization) then JsonError(401, Registry.UnauthorizedMessage)
    else match route
      case ListModels => ModelsPage(Registry.Entries(ModelIds(env), "system", nowSeconds))
      case ChatCompletions(req) =>
        match Registry.Dispatch(GetModels(env), req.model)
        case Failure(e) => JsonError(400, e.message)
        case Success(a) =>
          if req.stream then EventStream(stream(a, req).chunks)
          else match invoke(a, req)
            case Success(c) => CompletionJson(c)
            case Failure(e) => Thrown(ThrownStatus(e), e.message)
  }

  /** A model appears in `/v1/models` exactly when a chat request for it,
      with the same key, is not refused as unsupported. */
  lemma {:induction false} ListedIffServed(env: Env, authorization: Option<string>, req: ChatRequest,
                        invoke: (Adapter, ChatRequest) -> Result<Completion, Error>,
                        stream: (Adapter, ChatRequest) -> Outcome, nowSeconds: int)
    requires Registry.BearerAuthorized(env, authorization)
    ensures var page := Handle(env, authorization, ListModels, invoke, stream, nowSeconds).data;
            (exists i :: 0 <= i < |page| && page[i].id == req.model) <==>
            Handle(env, authorization, ChatCompletions(req), invoke, stream, nowSeconds) != JsonError(400, Registry.Unsupported(req.model).message)
  {
    var ids := ModelIds(env);
    var page := Registry.Entries(ids, "system", nowSeconds);
    assert Handle(env, authorization, ListModels, invoke, stream, nowSeconds).data == page;
    var d := Registry.Dispatch(GetModels(env), req.model);
    assert Handle(env, authorization, ChatCompletions(req), invoke, stream, nowSeconds) == JsonError(400, Registry.Unsupported(req.model).message)
      <==> d.Failure?;
    EntriesHold(ids, "system", nowSeconds, req.model);
  }

  /** A page built from `ids` has an entry for `m` exactly when `m` is one
      of `ids`. */
  lemma {:induction false} EntriesHold(ids: seq<string>, owner: string, created: int, m: string)
    ensures var page := Registry.Entries(ids, owner, created);
            (exists i :: 0 <= i < |page| && page[i].id == m) <==> m in ids
  {
    var page := Registry.Entries(ids, owner, created);
    if m in ids {
      var i :| 0 <= i < |ids| && ids[i] == m;
      assert page[i].id == m;
    }
    if exists i :: 0 <= i < |page| && page[i].id == m {
      var i :| 0 <= i < |page| && page[i].id == m;
      assert ids[i] == m;
    }
  }

  /** With only `API_KEY` set no adapter is active and the listing is empty. */
  lemma {:induction false} OnlyApiKeyListsNothing(key: string, invoke: (Adapter, ChatRequest) -> Result<Completion, Error>,
                               stream: (Adapter, ChatRequest) -> Outcome, nowSeconds: int)
    requires key != ""
    ensures Handle(map["API_KEY" := key], Some("Bearer " + key), ListModels, invoke, stream, nowSeconds) == ModelsPage([])
  {
    var env := map["API_KEY" := key];
    assert forall i :: 0 <= i < 5 ==> Registered[i].requiredEnv[0] != "API_KEY";
    Registry.NoneConfigured(Registered, env);
  }

  /** With `API_KEY` and the Anthropic key only the Anthropic adapter is
      active. */
  lemma {:induction false} AnthropicKeyActivatesAnthropic(key: string, anthropicKey: string)
    ensures GetModels(map["API_KEY" := key, "ANTROPIC_API_KEY" := anthropicKey]) == [Anthropic.Descriptor]
  {
    var env := map["API_KEY" := key, "ANTROPIC_API_KEY" := anthropicKey];
    var p := Registry.Active(env);
    assert forall i :: 2 <= i < 5 ==> Registered[i].requiredEnv[0] != "API_KEY" && Registered[i].requiredEnv[0] != "ANTROPIC_API_KEY";
    Registry.NoneConfigured(Registered[2..], env);
    assert Registered[1..][1..] == Registered[2..];
    assert Registered[0].requiredEnv[0] !in env;
    assert Registered[1].requiredEnv == ["ANTROPIC_API_KEY"];
    assert !p(Registered[0]) && p(Registered[1]);
    assert Filter(Registered[1..], p) == [Anthropic.Descriptor];
  }

  /** The ids of an authorized listing are `ModelIds`, in order. */
  lemma {:induction false} PageIds(env: Env, authorization: Option<string>,
                invoke: (Adapter, ChatRequest) -> Result<Completion, Error>,
                stream: (Adapter, ChatRequest) -> Outcome, nowSeconds: int)
    requires Registry.BearerAuthorized(env, authorization)
    ensures var page := Handle(env, authorization, ListModels, invoke, stream, nowSeconds).data;
            |page| == |ModelIds(env)| && forall i :: 0 <= i < |page| ==> page[i].id == ModelIds(env)[i]
  {
  }

  /** With `API_KEY` and the Anthropic key the listing is the Anthropic
      adapter's models, in its order. */
  lemma {:induction false} AnthropicKeyListsAnthropic(key: string, anthropicKey: string,
                                   invoke: (Adapter, ChatRequest) -> Result<Completion, Error>,
                                   stream: (Adapter, ChatRequest) -> Outcome, nowSeconds: int)
    requires key != ""
    ensures var page := Handle(map["API_KEY" := key, "ANTROPIC_API_KEY" := anthropicKey], Some("Bearer " + key),
                               ListModels, invoke, stream, nowSeconds).data;
            |page| == |Anthropic.Descriptor.supportModels| &&
            forall i :: 0 <= i < |page| ==> page[i].id == Anthropic.Descriptor.supportModels[i]
  {
    var env := map["API_KEY" := key, "ANTROPIC_API_KEY" := anthropicKey];
    var models := Anthropic.Descriptor.supportModels;
    assert ModelIds(env) == models by {
      AnthropicKeyActivatesAnthropic(key, anthropicKey);
      assert Registry.AllModels([Anthropic.Descriptor]) == models by {
        assert [Anthropic.Descriptor][1..] == [];
      }
      Anthropic.DescriptorModelsDistinct();
      Registry.UniqOfDistinct(models);
    }
    assert Registry.BearerAuthorized(env, Some("Bearer " + key)) by {
      assert Registry.ApiKey(env) == Some(key);
    }
    PageIds(env, Some("Bearer " + key), invoke, stream, nowSeconds);
  }
}
