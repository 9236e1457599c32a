/** The Google Gemini adapter: the generation config and the
    `GenerateContentRequest` built from a chat-completions request, the
    completion built from a `generateContent` reply, and the chunk stream
    built from `generateContentStream`. */
module Google {
  import opened Wrappers
  import opened JsString
  import opened Contract

  // ---------------------------------------------------------------- client

  /** The `generationConfig` of the model handle, with the model id. */
  datatype GenerationConfig = GenerationConfig(
    model: string,
    temperature: Option<real>,
    maxOutputTokens: Option<int>,
    responseSchema: Option<Json>,
    topP: Option<real>)

  const UnsupportedFormat := Error(NoStatus, "Unsupported response format, only json_schema is supported")

  /** `createClient`: a `response_format` other than `json_schema` is
      refused; a `json_schema` one becomes the `responseSchema`. */
  function ClientConfig(req: ChatRequest): (r: Result<GenerationConfig, Error>)
    ensures r.Failure? <==> req.responseFormat.Some? && !req.responseFormat.value.FormatJsonSchema?
    ensures r.Failure? ==> r.error == UnsupportedFormat
    ensures r.Success? ==> (r.value.responseSchema.Some? <==> req.responseFormat.Some?)
    ensures r.Success? && req.responseFormat.Some? ==> r.value.responseSchema == Some(req.responseFormat.value.schema)
    ensures r.Success? ==> r.value.model == req.model && r.value.maxOutputTokens == req.maxCompletionTokens
    ensures r.Success? ==> r.value.temperature == req.temperature && r.value.topP == req.topP
  {
    match req.responseFormat
    case None => Success(GenerationConfig(req.model, req.temperature, req.maxCompletionTokens, None, req.topP))
    case Some(FormatJsonSchema(schema)) => Success(GenerationConfig(req.model, req.temperature, req.maxCompletionTokens, Some(schema), req.topP))
    case Some(_) => Failure(UnsupportedFormat)
  }

  // ---------------------------------------------------------------- request

  /** A Gemini content part: text, or a `fileData` reference. A field the
      request leaves undefined is `None`. */
  datatype GooglePart = GoogleText(text: string) | FileData(fileUri: Option<string>, mimeType: Option<string>)

  datatype GoogleRole = ModelRole | UserRole

  datatype GoogleContent = GoogleContent(role: GoogleRole, parts: seq<GooglePart>)

  /** A `functionDeclarations` tool. */
  datatype GoogleTool = GoogleTool(functionDeclarations: seq<ToolDef>)

  datatype GoogleRequest = GoogleRequest(
    systemInstruction: Option<string>,
    contents: seq<GoogleContent>,
    tools: Option<seq<GoogleTool>>)

  /** The text of a part list as `parts.map(s => s.text).join('')` reads it:
      a part without `text` contributes nothing. */
  function PartsText(parts: seq<ContentPart>): string
    decreases |parts|
  {
    if |parts| == 0 then ""
    else (if parts[0].TextPart? then parts[0].text else "") + PartsText(parts[1..])
  }

  lemma {:induction false} PartsTextOfTexts(texts: seq<string>)
    ensures PartsText(seq(|texts|, i requires 0 <= i < |texts| => TextPart(texts[i]))) == Concat(texts)
    decreases |texts|
  {
    var parts := seq(|texts|, i requires 0 <= i < |texts| => TextPart(texts[i]));
    if |texts| > 0 {
      PartsTextOfTexts(texts[1..]);
      assert parts[1..] == seq(|texts[1..]|, i requires 0 <= i < |texts[1..]| => TextPart(texts[1..][i]));
    }
  }

  /** The strings of `texts`, joined with nothing between them. */
  function Concat(texts: seq<string>): string
    decreases |texts|
  {
    if |texts| == 0 then "" else texts[0] + Concat(texts[1..])
  }

  /** `systemInstruction`: undefined when the first system message is
      missing or its content is falsy; the string itself; or the texts of
      its parts joined. */
  function SystemInstruction(ms: seq<Message>): (r: Option<string>)
    ensures r.None? <==> !SystemContent(ms).Truthy()
    ensures SystemContent(ms).Text? && r.Some? ==> r.value == SystemContent(ms).text && |r.value| > 0
    ensures SystemContent(ms).Parts? ==> r == Some(PartsText(SystemContent(ms).parts))
  {
    var system := SystemContent(ms);
    if !system.Truthy() then None
    else match system
      case Text(t) => Some(t)
      case Parts(ps) => Some(PartsText(ps))
  }

  /** One content part. An `image_url` is referenced as a PNG file; a `file`
      part by its `file_data`, with the MIME type `mimeOf` gives its file
      name; any other part type throws. */
  function PartOf(p: ContentPart, mimeOf: string -> Option<string>): (r: Result<GooglePart, Error>)
    ensures r.Failure? <==> p.OtherPart?
    ensures p.OtherPart? ==> r.error == Error(NoStatus, "Unsupported content type: " + p.kind)
    ensures p.TextPart? ==> r == Success(GoogleText(p.text))
    ensures p.ImageUrlPart? ==> r == Success(FileData(Some(p.url), Some("image/png")))
    ensures p.FilePart? ==> r.Success? && r.value.FileData? && r.value.fileUri == p.fileData
    ensures p.FilePart? && p.filename.None? ==> r == Success(FileData(p.fileData, None))
    ensures p.FilePart? && p.filename.Some? ==> r == Success(FileData(p.fileData, mimeOf(p.filename.value)))
  {
    match p
    case TextPart(t) => Success(GoogleText(t))
    case ImageUrlPart(url, _) => Success(FileData(Some(url), Some("image/png")))
    case FilePart(_, name, data) => Success(FileData(data, if name.Some? then mimeOf(name.value) else None))
    case OtherPart(k) => Failure(Error(NoStatus, "Unsupported content type: " + k))
  }

  /** `'model'` for the assistant, `'user'` for every other role. */
  function RoleOf(role: Role): (r: GoogleRole)
    ensures r == ModelRole <==> role == Assistant
  {
    if role == Assistant then ModelRole else UserRole
  }

  /** One message: string content becomes one text part, even when empty;
      parts are mapped in order; a missing content fails on `content!.map`. */
  function ContentOf(m: Message, mimeOf: string -> Option<string>): (r: Result<GoogleContent, Error>)
    ensures r.Success? ==> r.value.role == RoleOf(m.role)
    ensures m.content.Absent? ==> r == Failure(ReadOfUndefined("map"))
    ensures m.content.Text? ==> r == Success(GoogleContent(RoleOf(m.role), [GoogleText(m.content.text)]))
    ensures m.content.Parts? ==>
      (r.Success? <==> forall i :: 0 <= i < |m.content.parts| ==> !m.content.parts[i].OtherPart?)
    ensures m.content.Parts? && r.Success? ==>
      && |r.value.parts| == |m.content.parts|
      && forall i :: 0 <= i < |m.content.parts| ==> PartOf(m.content.parts[i], mimeOf) == Success(r.value.parts[i])
  {
    match m.content
    case Absent => Failure(ReadOfUndefined("map"))
    case Text(t) => Success(GoogleContent(RoleOf(m.role), [GoogleText(t)]))
    case Parts(ps) =>
      var f := (p: ContentPart) => PartOf(p, mimeOf);
      match MapAll(ps, f)
      case Failure(e) => Failure(e)
      case Success(parts) => Success(GoogleContent(RoleOf(m.role), parts))
  }

  /** `tools`: undefined without tools, otherwise one tool declaring every
      function of the request in order (an empty list included). */
  function ToolsOf(tools: Option<seq<ToolDef>>): (r: Option<seq<GoogleTool>>)
    ensures r.None? <==> tools.None?
    ensures tools.Some? ==> r == Some([GoogleTool(tools.value)])
  {
    match tools
    case None => None
    case Some(ts) => Some([GoogleTool(ts)])
  }

  /** `parseRequest`: every message, system messages included, becomes one
      content entry in order; the first system message also becomes the
      system instruction. */
  function ParseRequest(req: ChatRequest, mimeOf: string -> Option<string>): (r: Result<GoogleRequest, Error>)
    ensures r.Success? <==> forall i :: 0 <= i < |req.messages| ==> ContentOf(req.messages[i], mimeOf).Success?
    ensures r.Success? ==>
      && r.value.systemInstruction == SystemInstruction(req.messages)
      && r.value.tools == ToolsOf(req.tools)
      && |r.value.contents| == |req.messages|
      && (forall i :: 0 <= i < |req.messages| ==> ContentOf(req.messages[i], mimeOf) == Success(r.value.contents[i]))
    ensures r.Failure? ==> exists i :: 0 <= i < |req.messages| && ContentOf(req.messages[i], mimeOf) == Failure(r.error)
  {
    var f := (m: Message) => ContentOf(m, mimeOf);
    match MapAll(req.messages, f)
    case Failure(e) => Failure(e)
    case Success(contents) => Success(GoogleRequest(SystemInstruction(req.messages), contents, ToolsOf(req.tools)))
  }

  /** A system message with non-empty string content reaches Gemini twice:
      as the system instruction and as a `'user'` content entry. */
  lemma {:induction false} SystemSentTwice(req: ChatRequest, mimeOf: string -> Option<string>, i: nat)
    requires i < |req.messages| && FirstSystem(req.messages) == Some(i)
    requires req.messages[i].content.Text? && |req.messages[i].content.text| > 0
    requires ParseRequest(req, mimeOf).Success?
    ensures var g := ParseRequest(req, mimeOf).value;
      && g.systemInstruction == Some(req.messages[i].content.text)
      && g.contents[i] == GoogleContent(UserRole, [GoogleText(req.messages[i].content.text)])
  {
    assert ContentOf(req.messages[i], mimeOf).Success?;
  }

  // ---------------------------------------------------------------- response

  /** A function call of a Gemini reply. */
  datatype FunctionCall = FunctionCall(name: string, args: Json)

  datatype UsageMetadata = UsageMetadata(promptTokenCount: int, candidatesTokenCount: int, totalTokenCount: int)

  /** A Gemini reply (or stream chunk) as its accessors present it:
      `text()`, `functionCalls()` and `usageMetadata`. */
  datatype GoogleReply = GoogleReply(text: string, functionCalls: Option<seq<FunctionCall>>, usageMetadata: Option<UsageMetadata>)

  /** The tool calls of a reply, numbered by the counter `index` in call
      order: ids `"0"`, `"1"`, ... */
  function NumberedCalls(calls: seq<FunctionCall>): (r: seq<ToolCall>)
    ensures |r| == |calls|
    ensures forall i :: 0 <= i < |r| ==> r[i].name == Some(calls[i].name) && r[i].arguments == Some(calls[i].args)
    ensures forall i :: 0 <= i < |r| ==> r[i].id == Some(Decimal(i))
    ensures forall i, j :: 0 <= i < |r| && 0 <= j < |r| && i != j ==> r[i].id != r[j].id
  {
    var r := seq(|calls|, i requires 0 <= i < |calls| => ToolCall(Some(Decimal(i)), Some(calls[i].name), Some(calls[i].args)));
    forall i, j | 0 <= i < |r| && 0 <= j < |r| && r[i].id == r[j].id ensures i == j {
      DecimalInjective(i, j);
    }
    r
  }

  /** The `map` with `id: toString(index++)`. */
  method NumberCalls(calls: seq<FunctionCall>) returns (r: seq<ToolCall>)
    ensures r == NumberedCalls(calls)
  {
    var index := 0;
    r := [];
    while index < |calls|
      invariant 0 <= index <= |calls|
      invariant r == NumberedCalls(calls)[..index]
    {
      r := r + [ToolCall(Some(Decimal(index)), Some(calls[index].name), Some(calls[index].args))];
      index := index + 1;
    }
  }

  /** `parseResponse`: one choice at index 0 finished with `'stop'`, with
      the reply's text and its numbered tool calls; usage copies the three
      counts, and a reply without `usageMetadata` fails on reading it. */
  function ParseResponse(resp: GoogleReply, model: string, uuid: string, now: int): (r: Result<Completion, Error>)
    ensures r.Failure? <==> resp.usageMetadata.None?
    ensures r.Failure? ==> r.error == ReadOfUndefined("promptTokenCount")
    ensures r.Success? ==>
      var u := resp.usageMetadata.value;
      && r.value.id == "chatcmpl-" + uuid && r.value.model == model && r.value.created == now
      && r.value.usage == Some(Usage(u.promptTokenCount, u.candidatesTokenCount, u.totalTokenCount))
      && |r.value.choices| == 1
      && r.value.choices[0].index == 0 && r.value.choices[0].finishReason == Stop
      && r.value.choices[0].message.content == Some(resp.text)
      && (r.value.choices[0].message.toolCalls.Some? <==> resp.functionCalls.Some?)
      && (resp.functionCalls.Some? ==> r.value.choices[0].message.toolCalls == Some(NumberedCalls(resp.functionCalls.value)))
  {
    match resp.usageMetadata
    case None => Failure(ReadOfUndefined("promptTokenCount"))
    case Some(u) =>
      var calls := match resp.functionCalls
        case None => None
        case Some(cs) => Some(NumberedCalls(cs));
      Success(Completion("chatcmpl-" + uuid, now, model, [Choice(0, ReplyMessage(Some(resp.text), calls), Stop)],
                         Some(Usage(u.promptTokenCount, u.candidatesTokenCount, u.totalTokenCount))))
  }

  /** `invoke`: the config check, then the request, then the reply. */
  function Invoke(req: ChatRequest, mimeOf: string -> Option<string>, resp: GoogleReply, uuid: string, now: int): (r: Result<Completion, Error>)
    ensures ClientConfig(req).Failure? ==> r == Failure(UnsupportedFormat)
    ensures ClientConfig(req).Success? && ParseRequest(req, mimeOf).Failure? ==> r == Failure(ParseRequest(req, mimeOf).error)
    ensures ClientConfig(req).Success? && ParseRequest(req, mimeOf).Success? ==> r == ParseResponse(resp, req.model, uuid, now)
  {
    match ClientConfig(req)
    case Failure(e) => Failure(e)
    case Success(_) =>
      match ParseRequest(req, mimeOf)
      case Failure(e) => Failure(e)
      case Success(_) => ParseResponse(resp, req.model, uuid, now)
  }

  // ---------------------------------------------------------------- stream

  /** The chunk yielded for one vendor chunk: index 0, no finish reason,
      the chunk's text and its raw function calls (which carry no id). */
  function VendorChunk(id: string, now: int, model: string, g: GoogleReply): Chunk {
    var calls := match g.functionCalls
      case None => None
      case Some(cs) => Some(seq(|cs|, i requires 0 <= i < |cs| => ToolCall(None, Some(cs[i].name), Some(cs[i].args))));
    Chunk(id, now, model, [ChunkChoice(0, Delta(false, Some(g.text), calls), None)], None)
  }

  const NoResponse := Error(NoStatus, "No response from google")

  /** What follows the loop, given the last vendor chunk: a usage-only
      chunk with `include_usage` (failing when the last chunk has no
      `usageMetadata`), otherwise a `'stop'` chunk. */
  function Terminal(includeUsage: bool, id: string, now: int, model: string, last: GoogleReply): Outcome {
    if includeUsage then
      match last.usageMetadata
      case None => Outcome([], Some(ReadOfUndefined("promptTokenCount")))
      case Some(u) => Outcome([Chunk(id, now, model, [], Some(Usage(u.promptTokenCount, u.candidatesTokenCount, u.totalTokenCount)))], None)
    else
      Outcome([Chunk(id, now, model, [ChunkChoice(0, Delta(false, None, None), Some(Stop))], None)], None)
  }

  /** The outcome of `stream` after the request was accepted. */
  function StreamOutcome(includeUsage: bool, id: string, now: int, model: string, vendor: seq<GoogleReply>): Outcome {
    if |vendor| == 0 then Outcome([], Some(NoResponse))
    else
      Prepend(seq(|vendor|, i requires 0 <= i < |vendor| => VendorChunk(id, now, model, vendor[i])),
              Terminal(includeUsage, id, now, model, vendor[|vendor| - 1]))
  }

  /** `stream`: the config check and the request, then the `for await` loop
      over the vendor's chunks; the id is `chatcmpl-` and a random UUID. */
  method Stream(req: ChatRequest, mimeOf: string -> Option<string>, uuid: string, now: int, vendor: seq<GoogleReply>) returns (o: Outcome)
    ensures ClientConfig(req).Failure? ==> o == Outcome([], Some(UnsupportedFormat))
    ensures ClientConfig(req).Success? && ParseRequest(req, mimeOf).Failure? ==> o == Outcome([], Some(ParseRequest(req, mimeOf).error))
    ensures ClientConfig(req).Success? && ParseRequest(req, mimeOf).Success? ==>
      o == StreamOutcome(req.includeUsage, "chatcmpl-" + uuid, now, req.model, vendor)
  {
    var config := ClientConfig(req);
    if config.Failure? {
      return Outcome([], Some(config.error));
    }
    var parsed := ParseRequest(req, mimeOf);
    if parsed.Failure? {
      return Outcome([], Some(parsed.error));
    }
    o := StreamLoop(req.includeUsage, "chatcmpl-" + uuid, now, req.model, vendor);
  }

  /** The loop, remembering the `last` vendor chunk, and the branch after
      it. */
  method StreamLoop(includeUsage: bool, id: string, now: int, model: string, vendor: seq<GoogleReply>) returns (o: Outcome)
    ensures o == StreamOutcome(includeUsage, id, now, model, vendor)
  {
    var last: Option<GoogleReply> := None;
    var chunks: seq<Chunk> := [];
    var i := 0;
    while i < |vendor|
      invariant 0 <= i <= |vendor|
      invariant |chunks| == i
      invariant forall k :: 0 <= k < i ==> chunks[k] == VendorChunk(id, now, model, vendor[k])
      invariant last == if i == 0 then None else Some(vendor[i - 1])
    {
      last := Some(vendor[i]);
      chunks := chunks + [VendorChunk(id, now, model, vendor[i])];
      i := i + 1;
    }
    if last.None? {
      return Outcome(chunks, Some(NoResponse));
    }
    assert chunks == seq(|vendor|, k requires 0 <= k < |vendor| => VendorChunk(id, now, model, vendor[k]));
    var tail := Terminal(includeUsage, id, now, model, last.value);
    return Outcome(chunks + tail.chunks, tail.failure);
  }

  /** The texts of the vendor chunks, joined. */
  function VendorText(vendor: seq<GoogleReply>): string
    decreases |vendor|
  {
    if |vendor| == 0 then "" else vendor[0].text + VendorText(vendor[1..])
  }

  lemma {:induction false} VendorChunksText(id: string, now: int, model: string, vendor: seq<GoogleReply>)
    ensures StreamedText(seq(|vendor|, i requires 0 <= i < |vendor| => VendorChunk(id, now, model, vendor[i]))) == VendorText(vendor)
    decreases |vendor|
  {
    var cs := seq(|vendor|, i requires 0 <= i < |vendor| => VendorChunk(id, now, model, vendor[i]));
    if |vendor| > 0 {
      VendorChunksText(id, now, model, vendor[1..]);
      assert cs[1..] == seq(|vendor[1..]|, i requires 0 <= i < |vendor[1..]| => VendorChunk(id, now, model, vendor[1..][i]));
    }
  }

  /** The shape of a Gemini stream: it fails exactly when the vendor sent
      nothing or, with `include_usage`, when the last chunk has no usage;
      otherwise it has one chunk per vendor chunk, without finish reason,
      then exactly one more: with `include_usage` a usage-only chunk whose
      three counts are the last vendor chunk's `usageMetadata` counts as
      they are, without it a `'stop'` chunk. All chunks share the stream id, and a client joining
      the chunk texts reads the vendor's texts. */
  lemma {:induction false} StreamShape(includeUsage: bool, id: string, now: int, model: string, vendor: seq<GoogleReply>)
    ensures var o := StreamOutcome(includeUsage, id, now, model, vendor);
      o.failure.Some? <==> |vendor| == 0 || (includeUsage && vendor[|vendor| - 1].usageMetadata.None?)
    ensures var o := StreamOutcome(includeUsage, id, now, model, vendor);
      |vendor| == 0 ==> o == Outcome([], Some(NoResponse))
    ensures var o := StreamOutcome(includeUsage, id, now, model, vendor);
      forall c :: c in o.chunks ==> c.id == id
    ensures var o := StreamOutcome(includeUsage, id, now, model, vendor);
      o.failure.None? ==> |o.chunks| == |vendor| + 1
    ensures var o := StreamOutcome(includeUsage, id, now, model, vendor);
      o.failure.None? ==> forall k :: 0 <= k < |vendor| ==> o.chunks[k].choices[0].finishReason.None?
    ensures var o := StreamOutcome(includeUsage, id, now, model, vendor);
      o.failure.None? ==> forall k :: 0 <= k < |vendor| ==> o.chunks[k] == VendorChunk(id, now, model, vendor[k])
    ensures var o := StreamOutcome(includeUsage, id, now, model, vendor);
      o.failure.None? && includeUsage ==>
        var u := vendor[|vendor| - 1].usageMetadata.value;
        o.chunks[|vendor|] == Chunk(id, now, model, [], Some(Usage(u.promptTokenCount, u.candidatesTokenCount, u.totalTokenCount)))
    ensures var o := StreamOutcome(includeUsage, id, now, model, vendor);
      o.failure.None? && !includeUsage ==>
        o.chunks[|vendor|] == Chunk(id, now, model, [ChunkChoice(0, Delta(false, None, None), Some(Stop))], None)
    ensures var o := StreamOutcome(includeUsage, id, now, model, vendor);
      o.failure.None? ==> StreamedText(o.chunks) == VendorText(vendor)
  {
    var o := StreamOutcome(includeUsage, id, now, model, vendor);
    if |vendor| > 0 {
      var cs := seq(|vendor|, i requires 0 <= i < |vendor| => VendorChunk(id, now, model, vendor[i]));
      var tail := Terminal(includeUsage, id, now, model, vendor[|vendor| - 1]);
      assert o.chunks == cs + tail.chunks;
      VendorChunksText(id, now, model, vendor);
      StreamedTextAppend(cs, tail.chunks);
      if tail.failure.None? {
        assert StreamedText(tail.chunks) == ChunkText(tail.chunks[0]) + StreamedText([]);
      }
    }
  }

  // ---------------------------------------------------------------- descriptor

  /** The `google` adapter. */
  const Descriptor: Adapter :=
    Adapter("google", ["GOOGLE_GEN_AI_API_KEY"],
            [ "gemini-2.5-flash-preview-05-20", "gemini-2.5-flash-preview-native-audio-dialog",
              "gemini-2.5-flash-exp-native-audio-thinking-dialog", "gemini-2.5-flash-preview-tts",
              "gemini-2.5-pro-preview-05-06", "gemini-2.5-pro-preview-tts", "gemini-2.0-flash",
              "gemini-2.0-flash-preview-image-generation", "gemini-2.0-flash-lite", "gemini-1.5-flash",
              "gemini-1.5-flash-8b", "gemini-1.5-pro", "gemini-embedding-exp", "gemini-2.0-flash-live-001" ])
}
