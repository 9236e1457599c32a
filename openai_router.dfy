/** The OpenAI-compatible router: a preflight answer that needs no key, the
    bearer-key check for every other route, `/chat/completions` dispatching
    over the full registry, and a `/models` listing in which every model of
    every active adapter appears, owned by that adapter. */
module OpenAiRouter {
  import opened Wrappers
  import opened Contract
  import Registry

  /** The requests the router tells apart. `OtherRoute` is any method and
      path it has no handler for. */
  datatype Route = Preflight | ChatCompletions(req: ChatRequest) | ListModels | OtherRoute

  /** One server-sent event of a streamed reply: a chunk, or the
      `{ error: message }` frame written when the stream throws. */
  datatype Frame = ChunkFrame(chunk: Chunk) | ErrorFrame(message: string)

  /** What the router answers. `Escaped` is an error that a non-streaming
      `invoke` rejects with: the handler does not catch it, so it leaves the
      router. */
  datatype Reply =
    | JsonOk(body: string)
    | JsonError(status: int, error: string)
    | NotFound
    | Escaped(thrown: Error)
    | CompletionJson(completion: Completion)
    | EventStream(frames: seq<Frame>)
    | ModelsPage(data: seq<Registry.ModelEntry>)

  /** The events written for a stream outcome: one frame per chunk, then,
      when the generator threw, a single error frame before the stream is
      closed. */
  function Frames(o: Outcome): (r: seq<Frame>)
    ensures |r| == |o.chunks| + (if o.failure.Some? then 1 else 0)
    ensures forall i :: 0 <= i < |o.chunks| ==> r[i] == ChunkFrame(o.chunks[i])
    ensures o.failure.Some? ==> r[|r| - 1] == ErrorFrame(o.failure.value.message)
    ensures forall i :: 0 <= i < |r| && r[i].ErrorFrame? ==> i == |r| - 1 && o.failure.Some?
  {
    var chunks := seq(|o.chunks|, i requires 0 <= i < |o.chunks| => ChunkFrame(o.chunks[i]));
    match o.failure
    case None => chunks
    case Some(e) => chunks + [ErrorFrame(e.message)]
  }

  /** What a client reads back from the frames: the chunks up to the first
      error frame, and that frame's message. */
  function Received(frames: seq<Frame>): (r: (seq<Chunk>, Option<string>))
    decreases |frames|
  {
    if |frames| == 0 then ([], None)
    else match frames[0]
      case ErrorFrame(m) => ([], Some(m))
      case ChunkFrame(c) =>
        var rest := Received(frames[1..]);
        ([c] + rest.0, rest.1)
  }

  /** A client recovers every chunk and the error message from the frames. */
  lemma {:induction false} FramesRoundTrip(o: Outcome)
    ensures Received(Frames(o)) == (o.chunks, if o.failure.Some? then Some(o.failure.value.message) else None)
    decreases |o.chunks|
  {
    var fs := Frames(o);
    if |o.chunks| == 0 {
      if o.failure.Some? {
        assert fs == [ErrorFrame(o.failure.value.message)];
      } else {
        assert fs == [];
      }
    } else {
      var tail := Outcome(o.chunks[1..], o.failure);
      FramesRoundTrip(tail);
      assert fs[1..] == Frames(tail);
      assert fs[0] == ChunkFrame(o.chunks[0]);
      assert [o.chunks[0]] + o.chunks[1..] == o.chunks;
    }
  }

  /** `flatMap` over the active adapters of one entry per supported model,
      owned by the adapter's name and stamped `created`. Nothing is
      deduplicated. */
  function ModelEntries(list: seq<Adapter>, created: int): (r: seq<Registry.ModelEntry>)
    ensures |r| == |Registry.AllModels(list)|
    ensures forall i :: 0 <= i < |r| ==> r[i].id == Registry.AllModels(list)[i] && r[i].created == created
    decreases |list|
  {
    if |list| == 0 then []
    else Registry.Entries(list[0].supportModels, list[0].name, created) + ModelEntries(list[1..], created)
  }

  lemma {:induction false} ModelEntriesAppend(a: seq<Adapter>, b: seq<Adapter>, created: int)
    ensures ModelEntries(a + b, created) == ModelEntries(a, created) + ModelEntries(b, created)
    decreases |a|
  {
    if |a| == 0 {
      assert a + b == b;
    } else {
      assert (a + b)[0] == a[0];
      assert (a + b)[1..] == a[1..] + b;
      ModelEntriesAppend(a[1..], b, created);
    }
  }

  lemma {:induction false} ModelEntriesSplit(list: seq<Adapter>, created: int, k: nat)
    requires k < |list|
    ensures ModelEntries(list, created) ==
              ModelEntries(list[..k], created) + Registry.Entries(list[k].supportModels, list[k].name, created)
              + ModelEntries(list[k + 1..], created)
  {
    assert list == list[..k] + ([list[k]] + list[k + 1..]);
    ModelEntriesAppend(list[..k], [list[k]] + list[k + 1..], created);
    ModelEntriesAppend([list[k]], list[k + 1..], created);
    assert [list[k]][1..] == [];
  }

  /** Model `j` of adapter `k` is listed after the models of the adapters
      before `k`, owned by adapter `k`'s name. */
  lemma {:induction false} ModelEntriesAt(list: seq<Adapter>, created: int, k: nat, j: nat)
    requires k < |list| && j < |list[k].supportModels|
    ensures var at := |Registry.AllModels(list[..k])| + j;
      at < |ModelEntries(list, created)| &&
      ModelEntries(list, created)[at] == Registry.ModelEntry(list[k].supportModels[j], list[k].name, created)
  {
    ModelEntriesSplit(list, created, k);
    var before := ModelEntries(list[..k], created);
    var head := Registry.Entries(list[k].supportModels, list[k].name, created);
    var after := ModelEntries(list[k + 1..], created);
    assert |before| == |Registry.AllModels(list[..k])|;
    assert (before + head + after)[|before| + j] == head[j];
  }

  /** Some adapter of `list` is named `e.ownedBy` and supports `e.id`. */
  predicate OwnedBySupporter(e: Registry.ModelEntry, list: seq<Adapter>) {
    exists k :: 0 <= k < |list| && e.ownedBy == list[k].name && e.id in list[k].supportModels
  }

  /** Every entry is owned by an active adapter that supports its model. */
  lemma {:induction false} EntriesOwnedBySupporter(list: seq<Adapter>, created: int)
    ensures forall i :: 0 <= i < |ModelEntries(list, created)| ==> OwnedBySupporter(ModelEntries(list, created)[i], list)
    decreases |list|
  {
    if |list| > 0 {
      var head := Registry.Entries(list[0].supportModels, list[0].name, created);
      var rest := ModelEntries(list[1..], created);
      var r := head + rest;
      assert ModelEntries(list, created) == r;
      EntriesOwnedBySupporter(list[1..], created);
      forall i | 0 <= i < |r| ensures OwnedBySupporter(r[i], list) {
        if i < |head| {
          assert r[i] == head[i];
          assert r[i].ownedBy == list[0].name && r[i].id in list[0].supportModels;
        } else {
          var j := i - |head|;
          assert r[i] == rest[j];
          assert OwnedBySupporter(rest[j], list[1..]);
          var k :| 0 <= k < |list[1..]| && rest[j].ownedBy == list[1..][k].name && rest[j].id in list[1..][k].supportModels;
          assert list[1..][k] == list[k + 1];
        }
      }
    }
  }

  /** `r[i]` is the first entry for `model`, and `name` owns it. */
  predicate FirstOwnedAt(r: seq<Registry.ModelEntry>, model: string, name: string, i: int) {
    0 <= i < |r| && r[i].id == model && r[i].ownedBy == name && forall j :: 0 <= j < i ==> r[j].id != model
  }

  /** The first entry for a model that dispatch serves is owned by the
      adapter dispatch picks: the listing and the chat route agree on who
      serves it. */
  lemma {:induction false} FirstEntryOwnedByDispatched(list: seq<Adapter>, model: string, created: int)
    requires Registry.Dispatch(list, model).Success?
    ensures exists i :: FirstOwnedAt(ModelEntries(list, created), model, Registry.Dispatch(list, model).value.name, i)
    decreases |list|
  {
    var head := Registry.Entries(list[0].supportModels, list[0].name, created);
    var rest := ModelEntries(list[1..], created);
    assert ModelEntries(list, created) == head + rest;
    if model in list[0].supportModels {
      HeadOwned(list[0], model, created);
      var i :| FirstOwnedAt(head, model, list[0].name, i);
      FirstOwnedBeforeRest(head, rest, model, list[0].name, i);
    } else {
      var name := Registry.Dispatch(list, model).value.name;
      assert Registry.Dispatch(list[1..], model).value.name == name;
      FirstEntryOwnedByDispatched(list[1..], model, created);
      var i :| FirstOwnedAt(rest, model, name, i);
      FirstOwnedAfterHead(head, rest, model, name, i);
    }
  }

  /** An adapter's own entries hold a first entry for each of its models. */
  lemma {:induction false} HeadOwned(a: Adapter, model: string, created: int)
    requires model in a.supportModels
    ensures exists i :: FirstOwnedAt(Registry.Entries(a.supportModels, a.name, created), model, a.name, i)
  {
    var ids := a.supportModels;
    var i := FirstPos(ids, model);
    assert FirstOwnedAt(Registry.Entries(ids, a.name, created), model, a.name, i);
  }

  lemma {:induction false} FirstOwnedBeforeRest(head: seq<Registry.ModelEntry>, rest: seq<Registry.ModelEntry>, model: string, name: string, i: int)
    requires FirstOwnedAt(head, model, name, i)
    ensures FirstOwnedAt(head + rest, model, name, i)
  {
    assert forall j :: 0 <= j <= i ==> (head + rest)[j] == head[j];
  }

  lemma {:induction false} FirstOwnedAfterHead(head: seq<Registry.ModelEntry>, rest: seq<Registry.ModelEntry>, model: string, name: string, i: int)
    requires forall j :: 0 <= j < |head| ==> head[j].id != model
    requires FirstOwnedAt(rest, model, name, i)
    ensures FirstOwnedAt(head + rest, model, name, |head| + i)
  {
    var r := head + rest;
    assert forall j :: 0 <= j < |head| ==> r[j] == head[j];
    assert forall j :: |head| <= j < |r| ==> r[j] == rest[j - |head|];
  }

  /** The router on one request. `invoke` and `stream` stand for the chosen
      adapter's two entry points; `nowSeconds` is the clock. */
  function Handle(env: Env, authorization: Option<string>, route: Route,
                  invoke: (Adapter, ChatRequest) -> Result<Completion, Error>,
                  stream: (Adapter, ChatRequest) -> Outcome, nowSeconds: int): (r: Reply)
    ensures route.Preflight? ==> r == JsonOk("ok")
    ensures !route.Preflight? && !Registry.BearerAuthorized(env, authorization) ==>
              r == JsonError(401, Registry.UnauthorizedMessage)
    ensures Registry.BearerAuthorized(env, authorization) && route.ChatCompletions? ==>
              match Registry.Dispatch(Registry.GetModels(env), route.req.model)
              case Failure(e) => r == JsonError(400, e.message)
              case Success(a) =>
                if route.req.stream then r == EventStream(Frames(stream(a, route.req)))
                else match invoke(a, route.req)
                  case Success(c) => r == CompletionJson(c)
                  case Failure(e) => r == Escaped(e)
    ensures Registry.BearerAuthorized(env, authorization) && route.ListModels? ==>
              r == ModelsPage(ModelEntries(Registry.GetModels(env), nowSeconds))
    ensures Registry.BearerAuthorized(env, authorization) && route.OtherRoute? ==> r == NotFound
  {
    if route.Preflight? then JsonOk("ok")
    else if !Registry.BearerAuthorized(env, authorization) then JsonError(401, Registry.UnauthorizedMessage)
    else match route
      case ListModels => ModelsPage(ModelEntries(Registry.GetModels(env), nowSeconds))
      case OtherRoute => NotFound
      case ChatCompletions(req) =>
        match Registry.Dispatch(Registry.GetModels(env), req.model)
        case Failure(e) => JsonError(400, e.message)
        case Success(a) =>
          if req.stream then EventStream(Frames(stream(a, req)))
          else match invoke(a, req)
            case Success(c) => CompletionJson(c)
            case Failure(e) => Escaped(e)
  }

  /** A model has an entry exactly when dispatch finds an adapter for it. */
  lemma {:induction false} EntryIffDispatched(list: seq<Adapter>, model: string, created: int)
    ensures (exists i :: 0 <= i < |ModelEntries(list, created)| && ModelEntries(list, created)[i].id == model)
            <==> Registry.Dispatch(list, model).Success?
  {
    var all := Registry.AllModels(list);
    Registry.ListedIffDispatched(list);
    assert model in all <==> Registry.Dispatch(list, model).Success?;
    if model in all {
      var i :| 0 <= i < |all| && all[i] == model;
      assert ModelEntries(list, created)[i].id == model;
    }
    if exists i :: 0 <= i < |ModelEntries(list, created)| && ModelEntries(list, created)[i].id == model {
      var i :| 0 <= i < |ModelEntries(list, created)| && ModelEntries(list, created)[i].id == model;
      assert all[i] == model;
    }
  }

  /** A model is listed exactly when a chat request for it, with the same
      key, is not refused as unsupported. */
  lemma {:induction false} ListingAgreesWithDispatch(env: Env, authorization: Option<string>, req: ChatRequest,
                                  invoke: (Adapter, ChatRequest) -> Result<Completion, Error>,
                                  stream: (Adapter, ChatRequest) -> Outcome, nowSeconds: int)
    requires Registry.BearerAuthorized(env, authorization)
    ensures var page := Handle(env, authorization, ListModels, invoke, stream, nowSeconds).data;
            (exists i :: 0 <= i < |page| && page[i].id == req.model) <==>
            Handle(env, authorization, ChatCompletions(req), invoke, stream, nowSeconds) != JsonError(400, Registry.Unsupported(req.model).message)
  {
    var list := Registry.GetModels(env);
    assert Handle(env, authorization, ListModels, invoke, stream, nowSeconds).data == ModelEntries(list, nowSeconds);
    assert Handle(env, authorization, ChatCompletions(req), invoke, stream, nowSeconds) == JsonError(400, Registry.Unsupported(req.model).message)
      <==> Registry.Dispatch(list, req.model).Failure?;
    EntryIffDispatched(list, req.model, nowSeconds);
  }

  /** The preflight answer needs neither a key nor a header. */
  lemma {:induction false} PreflightIgnoresKey(env: Env, env': Env, authorization: Option<string>, authorization': Option<string>,
                            invoke: (Adapter, ChatRequest) -> Result<Completion, Error>,
                            stream: (Adapter, ChatRequest) -> Outcome, nowSeconds: int)
    ensures Handle(env, authorization, Preflight, invoke, stream, nowSeconds)
         == Handle(env', authorization', Preflight, invoke, stream, nowSeconds)
  {
  }
}
