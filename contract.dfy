/** The OpenAI chat-completions shapes that every adapter of the gateway
    accepts and produces: the request with its messages, content parts, tools
    and options; the completion and the stream chunk; the adapter descriptor;
    and the errors an adapter raises. JSON objects that the gateway only
    passes along (tool parameters, tool arguments, schemas) are kept as
    uninterpreted text. `undefined` and `null` are both `None`. */
module Contract {
  import opened Wrappers

  /** A JSON value the gateway forwards without looking inside. */
  type Json = string

  /** The process environment: variable name to value. */
  type Env = map<string, string>

  datatype Role = System | User | Assistant | Tool | Function | Developer

  /** One element of an array-valued message content. `OtherPart` stands for
      every part type the gateway does not translate (`input_audio`,
      `refusal`, ...), with its `type` tag. */
  datatype ContentPart =
    | TextPart(text: string)
    | ImageUrlPart(url: string, detail: Option<string>)
    | FilePart(fileId: Option<string>, filename: Option<string>, fileData: Option<string>)
    | OtherPart(kind: string)
  {
    /** The part's `type` tag. */
    function Kind(): string {
      match this
      case TextPart(_) => "text"
      case ImageUrlPart(_, _) => "image_url"
      case FilePart(_, _, _) => "file"
      case OtherPart(k) => k
    }
  }

  /** A message's `content`: missing, a string, or an array of parts. */
  datatype Content = Absent | Text(text: string) | Parts(parts: seq<ContentPart>) {
    /** JavaScript truthiness: the empty string and a missing value are
        falsy, every array (even an empty one) is truthy. */
    predicate Truthy() {
      Parts? || (Text? && |text| > 0)
    }
  }

  datatype Message = Message(role: Role, content: Content)

  /** The position of the first system message, as `messages.find` finds it. */
  function FirstSystem(ms: seq<Message>): (r: Option<nat>)
    ensures r.Some? ==> r.value < |ms| && ms[r.value].role == System
    ensures r.Some? ==> forall j :: 0 <= j < r.value ==> ms[j].role != System
    ensures r.None? ==> forall j :: 0 <= j < |ms| ==> ms[j].role != System
    decreases |ms|
  {
    if |ms| == 0 then None
    else if ms[0].role == System then Some(0)
    else match FirstSystem(ms[1..])
      case None => None
      case Some(i) => Some(i + 1)
  }

  /** `messages.find(m => m.role === 'system')?.content`: the content of the
      first system message, `Absent` when there is none. */
  function SystemContent(ms: seq<Message>): Content {
    match FirstSystem(ms)
    case None => Absent
    case Some(i) => ms[i].content
  }

  /** A `tools[i].function` declaration. */
  datatype ToolDef = ToolDef(name: string, description: Option<string>, parameters: Option<Json>)

  /** `tool_choice`: `'auto'`, `'required'`, `'none'` or a named function. */
  datatype ToolChoice = AutoChoice | RequiredChoice | NoneChoice | NamedChoice(name: string)

  /** `stop`: one string or an array of strings. */
  datatype Stop = StopText(text: string) | StopList(items: seq<string>)

  /** `response_format` by its `type`. */
  datatype ResponseFormat = FormatText | FormatJsonObject | FormatJsonSchema(schema: Json)

  /** A chat-completions request. `stream` and `includeUsage` are the
      truthiness of `stream` and of `stream_options.include_usage`. */
  datatype ChatRequest = ChatRequest(
    model: string,
    messages: seq<Message>,
    temperature: Option<real>,
    topP: Option<real>,
    maxCompletionTokens: Option<int>,
    stop: Option<Stop>,
    tools: Option<seq<ToolDef>>,
    toolChoice: Option<ToolChoice>,
    responseFormat: Option<ResponseFormat>,
    user: Option<string>,
    stream: bool,
    includeUsage: bool)

  datatype FinishReason = Stop | Length | ContentFilter | ToolCalls

  /** A tool call of the reply; a field the vendor did not supply is `None`. */
  datatype ToolCall = ToolCall(id: Option<string>, name: Option<string>, arguments: Option<Json>)

  datatype Usage = Usage(promptTokens: int, completionTokens: int, totalTokens: int)

  /** The assistant message of a completion choice. */
  datatype ReplyMessage = ReplyMessage(content: Option<string>, toolCalls: Option<seq<ToolCall>>)

  datatype Choice = Choice(index: int, message: ReplyMessage, finishReason: FinishReason)

  /** A `chat.completion` object. */
  datatype Completion = Completion(id: string, created: int, model: string, choices: seq<Choice>, usage: Option<Usage>)

  /** The `delta` of a chunk choice; `assistantRole` is whether it carries
      `role: 'assistant'`. */
  datatype Delta = Delta(assistantRole: bool, content: Option<string>, toolCalls: Option<seq<ToolCall>>)

  datatype ChunkChoice = ChunkChoice(index: int, delta: Delta, finishReason: Option<FinishReason>)

  /** A `chat.completion.chunk` object. */
  datatype Chunk = Chunk(id: string, created: int, model: string, choices: seq<ChunkChoice>, usage: Option<Usage>)

  /** The `status` an error carries: none (a plain `Error` or a `TypeError`),
      an HTTP code, or a vendor's error code string. */
  datatype Status = NoStatus | HttpStatus(code: int) | CodeStatus(text: string)

  datatype Error = Error(status: Status, message: string)

  /** The `TypeError` the JavaScript engine raises when a property is read
      from `undefined`. */
  function ReadOfUndefined(property: string): (e: Error)
    ensures e.status == NoStatus
  {
    Error(NoStatus, "Cannot read properties of undefined (reading '" + property + "')")
  }

  /** What a stream generator does: the chunks it yields, then either normal
      completion (`failure == None`) or the error it throws. */
  datatype Outcome = Outcome(chunks: seq<Chunk>, failure: Option<Error>)

  /** The outcome `o` after `cs` were yielded first. */
  function Prepend(cs: seq<Chunk>, o: Outcome): (r: Outcome)
    ensures r.failure == o.failure && |r.chunks| == |cs| + |o.chunks|
  {
    Outcome(cs + o.chunks, o.failure)
  }

  /** Yielding `a` and then `b` is yielding `a + b`. */
  lemma {:induction false} PrependTwice(a: seq<Chunk>, b: seq<Chunk>, o: Outcome)
    ensures Prepend(a, Prepend(b, o)) == Prepend(a + b, o)
  {
    assert a + (b + o.chunks) == (a + b) + o.chunks;
  }

  /** What a client reads from one chunk: `choices[0]?.delta.content ?? ''`. */
  function ChunkText(c: Chunk): string {
    if |c.choices| > 0 then c.choices[0].delta.content.GetOr("") else ""
  }

  /** The text a client assembles from a stream by joining `ChunkText`. */
  function StreamedText(cs: seq<Chunk>): string
    decreases |cs|
  {
    if |cs| == 0 then "" else ChunkText(cs[0]) + StreamedText(cs[1..])
  }

  lemma {:induction false} StreamedTextAppend(a: seq<Chunk>, b: seq<Chunk>)
    ensures StreamedText(a + b) == StreamedText(a) + StreamedText(b)
    decreases |a|
  {
    if |a| > 0 {
      StreamedTextAppend(a[1..], b);
      assert (a + b)[1..] == a[1..] + b;
    } else {
      assert a + b == b;
    }
  }

  /** The descriptor every adapter exposes: its name, the environment
      variables it needs, and the model ids it serves. */
  datatype Adapter = Adapter(name: string, requiredEnv: seq<string>, supportModels: seq<string>)

  /** An adapter is configured when every variable it needs is present
      (key presence, whatever the value). */
  predicate Configured(a: Adapter, env: Env) {
    forall i :: 0 <= i < |a.requiredEnv| ==> a.requiredEnv[i] in env
  }

  /** The request object an adapter receives. It is shared by reference with
      the router, so an adapter that assigns to its fields changes the
      router's request too. */
  class RequestObject {
    var value: ChatRequest

    constructor(v: ChatRequest)
      ensures value == v
    {
      value := v;
    }
  }
}
