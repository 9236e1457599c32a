/** The Ollama-compatible router: the gateway key travels as the first path
    segment, `/v1/api/chat` dispatches over the full registry and answers in
    Ollama's message shape, and `/v1/api/tags` lists every model of every
    active adapter. */
module OllamaRouter {
  import opened Wrappers
  import opened Contract
  import Registry

  /** The requests the router tells apart, after the `/:apiKey` segment.
      `OtherRoute` is any method and path it has no handler for. */
  datatype Route = Health | Chat(req: ChatRequest) | Tags | OtherRoute

  /** The key check: the path segment must be the configured `API_KEY`, and
      one must be configured (`!c.env.API_KEY` rejects a missing or empty
      key). */
  predicate PathAuthorized(env: Env, pathKey: string) {
    Registry.ApiKey(env).Some? && pathKey == Registry.ApiKey(env).value
  }

  /** The path segment is accepted exactly when it is the configured key. */
  lemma {:induction false} PathAuthorizedIsKey(env: Env, pathKey: string)
    ensures PathAuthorized(env, pathKey) <==> "API_KEY" in env && env["API_KEY"] != "" && env["API_KEY"] == pathKey
  {
  }

  /** An Ollama chat message (always `role: 'assistant'`) with the fields
      the converters fill. `createdAt` is the number handed to `new Date`,
      in milliseconds; its ISO rendering is left to the library. */
  datatype OllamaReply = OllamaReply(
    model: string,
    createdAt: int,
    content: Option<string>,
    toolCalls: Option<seq<ToolCall>>,
    doneReason: Option<FinishReason>,
    done: bool,
    promptEvalCount: Option<int>,
    evalCount: Option<int>)

  /** `choices[0]` of an empty choice list is `undefined`, and reading a
      field of it throws. */
  const NoFirstChoice := ReadOfUndefined("delta")
  const NoFirstMessage := ReadOfUndefined("message")

  /** `convertOpenaiChunkToOllama`: content and tool calls come from the
      first choice's delta, `done` is whether that choice finished with
      `'stop'`, the counts are the usage's prompt and completion tokens. The
      chunk's `created` goes to `new Date` unscaled. A chunk without choices
      (the usage-only chunk some adapters end with) makes it throw. */
  function ConvertChunk(c: Chunk): (r: Result<OllamaReply, Error>)
    ensures r.Failure? <==> |c.choices| == 0
    ensures r.Failure? ==> r.error == NoFirstChoice
    ensures r.Success? ==>
      && r.value.model == c.model
      && r.value.createdAt == c.created
      && r.value.content == c.choices[0].delta.content
      && r.value.toolCalls == c.choices[0].delta.toolCalls
      && r.value.doneReason == c.choices[0].finishReason
      && (r.value.done <==> c.choices[0].finishReason == Some(Stop))
      && (r.value.promptEvalCount.Some? <==> c.usage.Some?)
      && (c.usage.Some? ==>
            r.value.promptEvalCount == Some(c.usage.value.promptTokens) && r.value.evalCount == Some(c.usage.value.completionTokens))
  {
    if |c.choices| == 0 then Failure(NoFirstChoice)
    else
      var first := c.choices[0];
      var usage := c.usage;
      Success(OllamaReply(c.model, c.created, first.delta.content, first.delta.toolCalls, first.finishReason,
                          first.finishReason == Some(Stop),
                          if usage.Some? then Some(usage.value.promptTokens) else None,
                          if usage.Some? then Some(usage.value.completionTokens) else None))
  }

  /** `convertOpenaiToOllama`: the same rules on the first choice's message,
      with `created` (seconds) scaled by 1000 before it reaches `new Date`.
      A completion without choices makes it throw. */
  function ConvertCompletion(c: Completion): (r: Result<OllamaReply, Error>)
    ensures r.Failure? <==> |c.choices| == 0
    ensures r.Failure? ==> r.error == NoFirstMessage
    ensures r.Success? ==>
      && r.value.model == c.model
      && r.value.createdAt == c.created * 1000
      && r.value.content == c.choices[0].message.content
      && r.value.toolCalls == c.choices[0].message.toolCalls
      && r.value.doneReason == Some(c.choices[0].finishReason)
      && (r.value.done <==> c.choices[0].finishReason == Stop)
      && (r.value.promptEvalCount.Some? <==> c.usage.Some?)
      && (c.usage.Some? ==>
            r.value.promptEvalCount == Some(c.usage.value.promptTokens) && r.value.evalCount == Some(c.usage.value.completionTokens))
  {
    if |c.choices| == 0 then Failure(NoFirstMessage)
    else
      var first := c.choices[0];
      var usage := c.usage;
      Success(OllamaReply(c.model, c.created * 1000, first.message.content, first.message.toolCalls, Some(first.finishReason),
                          first.finishReason == Stop,
                          if usage.Some? then Some(usage.value.promptTokens) else None,
                          if usage.Some? then Some(usage.value.completionTokens) else None))
  }

  /** A chunk and a completion that carry the same first choice, usage and
      model convert to the same Ollama message, except for the time scale. */
  lemma {:induction false} ChunkAndCompletionAgree(c: Completion, k: Chunk)
    requires |c.choices| > 0 && |k.choices| > 0
    requires k.model == c.model && k.usage == c.usage
    requires k.choices[0].delta.content == c.choices[0].message.content
    requires k.choices[0].delta.toolCalls == c.choices[0].message.toolCalls
    requires k.choices[0].finishReason == Some(c.choices[0].finishReason)
    ensures ConvertChunk(k).Success? && ConvertCompletion(c).Success?
    ensures ConvertChunk(k).value.(createdAt := 0) == ConvertCompletion(c).value.(createdAt := 0)
    ensures ConvertChunk(k).value.createdAt == k.created && ConvertCompletion(c).value.createdAt == 1000 * c.created
  {
  }

  /** One written piece of a streamed reply: a newline-terminated Ollama
      message, or the `{ error: message }` event written when the stream
      throws. */
  datatype Frame = Line(reply: OllamaReply) | ErrorFrame(message: string)

  /** The loop `for await (it of llm.stream(...)) write(convert(it))` and its
      error handler: each chunk is converted and written in order; the
      first error, the adapter's or the conversion's, is written as one
      error event and ends the stream. */
  function Frames(o: Outcome): (r: seq<Frame>)
    ensures |r| <= |o.chunks| + 1
    ensures forall i :: 0 <= i < |r| - 1 ==> r[i].Line?
    decreases |o.chunks|
  {
    if |o.chunks| == 0 then
      (if o.failure.Some? then [ErrorFrame(o.failure.value.message)] else [])
    else
      match ConvertChunk(o.chunks[0])
      case Failure(e) => [ErrorFrame(e.message)]
      case Success(reply) => [Line(reply)] + Frames(Outcome(o.chunks[1..], o.failure))
  }

  /** When every chunk has a choice, each is written as its conversion, in
      order, followed by the error event only if the adapter threw. */
  lemma {:induction false} FramesOfChoiceChunks(o: Outcome)
    requires forall i :: 0 <= i < |o.chunks| ==> |o.chunks[i].choices| > 0
    ensures |Frames(o)| == |o.chunks| + (if o.failure.Some? then 1 else 0)
    ensures forall i :: 0 <= i < |o.chunks| ==> Frames(o)[i] == Line(ConvertChunk(o.chunks[i]).value)
    ensures o.failure.Some? ==> Frames(o)[|o.chunks|] == ErrorFrame(o.failure.value.message)
    decreases |o.chunks|
  {
    if |o.chunks| > 0 {
      var tail := Outcome(o.chunks[1..], o.failure);
      FramesOfChoiceChunks(tail);
      var fs := Frames(o);
      assert fs == [Line(ConvertChunk(o.chunks[0]).value)] + Frames(tail);
      forall i | 0 <= i < |o.chunks| ensures fs[i] == Line(ConvertChunk(o.chunks[i]).value) {
        if i > 0 {
          assert fs[i] == Frames(tail)[i - 1];
          assert o.chunks[i] == tail.chunks[i - 1];
        }
      }
    }
  }

  /** A chunk without choices ends the written stream: the chunks before it
      are written, then the conversion's error event, and nothing after. */
  lemma {:induction false} ChoicelessChunkEndsStream(o: Outcome, k: nat)
    requires k < |o.chunks| && |o.chunks[k].choices| == 0
    requires forall i :: 0 <= i < k ==> |o.chunks[i].choices| > 0
    ensures |Frames(o)| == k + 1
    ensures Frames(o)[k] == ErrorFrame(NoFirstChoice.message)
    decreases k
  {
    if k > 0 {
      var tail := Outcome(o.chunks[1..], o.failure);
      ChoicelessChunkEndsStream(tail, k - 1);
      assert Frames(o) == [Line(ConvertChunk(o.chunks[0]).value)] + Frames(tail);
    }
  }

  /** One `/api/tags` entry: `name` and `model` are both the model id, and
      `created` and `modified_at` are the same clock reading. */
  datatype Tag = Tag(name: string, model: string, created: int, modifiedAt: int)

  /** The `flatMap` of the active adapters' models into tags; nothing is
      deduplicated. */
  function TagList(list: seq<Adapter>, nowSeconds: int): (r: seq<Tag>)
    ensures |r| == |Registry.AllModels(list)|
    ensures forall i :: 0 <= i < |r| ==>
      r[i] == Tag(Registry.AllModels(list)[i], Registry.AllModels(list)[i], nowSeconds, nowSeconds)
    decreases |list|
  {
    if |list| == 0 then []
    else
      var ms := list[0].supportModels;
      seq(|ms|, i requires 0 <= i < |ms| => Tag(ms[i], ms[i], nowSeconds, nowSeconds)) + TagList(list[1..], nowSeconds)
  }

  /** A model has a tag exactly when a chat request for it finds an
      adapter. */
  lemma {:induction false} TagIffDispatched(list: seq<Adapter>, model: string, nowSeconds: int)
    ensures (exists i :: 0 <= i < |TagList(list, nowSeconds)| && TagList(list, nowSeconds)[i].name == model)
            <==> Registry.Dispatch(list, model).Success?
  {
    var all := Registry.AllModels(list);
    Registry.ListedIffDispatched(list);
    assert model in all <==> Registry.Dispatch(list, model).Success?;
    if model in all {
      var i :| 0 <= i < |all| && all[i] == model;
      assert TagList(list, nowSeconds)[i].name == model;
    }
    if exists i :: 0 <= i < |TagList(list, nowSeconds)| && TagList(list, nowSeconds)[i].name == model {
      var i :| 0 <= i < |TagList(list, nowSeconds)| && TagList(list, nowSeconds)[i].name == model;
      assert all[i] == model;
    }
  }

  /** What the router answers. `Escaped` is an error that the non-streaming
      path raises (the adapter's, or the conversion's): the handler does not
      catch it, so it leaves the router. */
  datatype Reply =
    | PlainText(text: string)
    | JsonError(status: int, error: string)
    | NotFound
    | Escaped(thrown: Error)
    | ChatJson(reply: OllamaReply)
    | ChatStream(frames: seq<Frame>)
    | TagsPage(models: seq<Tag>)

  /** The router on one request. `invoke` and `stream` stand for the chosen
      adapter's two entry points; `nowSeconds` is the clock. */
  function Handle(env: Env, pathKey: string, route: Route,
                  invoke: (Adapter, ChatRequest) -> Result<Completion, Error>,
                  stream: (Adapter, ChatRequest) -> Outcome, nowSeconds: int): (r: Reply)
    ensures !PathAuthorized(env, pathKey) ==> r == JsonError(401, Registry.UnauthorizedMessage)
    ensures PathAuthorized(env, pathKey) && route.Health? ==> r == PlainText("Ollama is running")
    ensures PathAuthorized(env, pathKey) && route.Chat? ==>
              match Registry.Dispatch(Registry.GetModels(env), route.req.model)
              case Failure(e) => r == JsonError(400, e.message)
              case Success(a) =>
                if route.req.stream then r == ChatStream(Frames(stream(a, route.req)))
                else match invoke(a, route.req)
                  case Failure(e) => r == Escaped(e)
                  case Success(c) =>
                    match ConvertCompletion(c)
                    case Failure(e) => r == Escaped(e)
                    case Success(reply) => r == ChatJson(reply)
    ensures PathAuthorized(env, pathKey) && route.Tags? ==> r == TagsPage(TagList(Registry.GetModels(env), nowSeconds))
    ensures PathAuthorized(env, pathKey) && route.OtherRoute? ==> r == NotFound
  {
    if !PathAuthorized(env, pathKey) then JsonError(401, Registry.UnauthorizedMessage)
    else match route
      case Health => PlainText("Ollama is running")
      case Tags => TagsPage(TagList(Registry.GetModels(env), nowSeconds))
      case OtherRoute => NotFound
      case Chat(req) =>
        match Registry.Dispatch(Registry.GetModels(env), req.model)
        case Failure(e) => JsonError(400, e.message)
        case Success(a) =>
          if req.stream then ChatStream(Frames(stream(a, req)))
          else match invoke(a, req)
            case Failure(e) => Escaped(e)
            case Success(c) =>
              match ConvertCompletion(c)
              case Failure(e) => Escaped(e)
              case Success(reply) => ChatJson(reply)
  }

  /** A wrong path key gets the 401 reply whatever the route. */
  lemma {:induction false} WrongKeyUnauthorized(env: Env, pathKey: string, route: Route,
                             invoke: (Adapter, ChatRequest) -> Result<Completion, Error>,
                             stream: (Adapter, ChatRequest) -> Outcome, nowSeconds: int)
    requires Registry.ApiKey(env) != Some(pathKey)
    ensures Handle(env, pathKey, route, invoke, stream, nowSeconds) == JsonError(401, "Unauthorized")
  {
  }

  /** With only `API_KEY` set, the right key lists no tags. */
  lemma {:induction false} OnlyApiKeyListsNoTags(key: string, invoke: (Adapter, ChatRequest) -> Result<Completion, Error>,
                              stream: (Adapter, ChatRequest) -> Outcome, nowSeconds: int)
    requires key != ""
    ensures Handle(map["API_KEY" := key], key, Tags, invoke, stream, nowSeconds) == TagsPage([])
  {
    var env := map["API_KEY" := key];
    Registry.RequiredEnvFixed(env);
    Registry.GetModelsEmpty(env);
  }
}
