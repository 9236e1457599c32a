/** The Anthropic adapter: translation of a chat-completions request into a
    Messages API request, of a Messages API reply into a completion, and of
    the Messages API event stream into completion chunks. */
module Anthropic {
  import opened Wrappers
  import opened JsString
  import opened Base64
  import opened Contract

  // ---------------------------------------------------------------- tool choice

  datatype AnthropicToolChoice = ChooseAuto | ChooseAny | ChooseTool(name: string)

  /** `convertToolChoice`: a missing choice and `'none'` give no Anthropic
      choice; `'auto'`, `'required'` and a named function give `auto`, `any`
      and `tool`. */
  function ConvertToolChoice(choice: Option<ToolChoice>): (r: Option<AnthropicToolChoice>)
    ensures r.None? <==> choice.None? || choice == Some(NoneChoice)
  {
    match choice
    case None => None
    case Some(AutoChoice) => Some(ChooseAuto)
    case Some(RequiredChoice) => Some(ChooseAny)
    case Some(NoneChoice) => None
    case Some(NamedChoice(n)) => Some(ChooseTool(n))
  }

  /** The OpenAI option an Anthropic choice stands for. */
  function ChoiceOrigin(c: AnthropicToolChoice): ToolChoice {
    match c
    case ChooseAuto => AutoChoice
    case ChooseAny => RequiredChoice
    case ChooseTool(n) => NamedChoice(n)
  }

  /** Every Anthropic choice the translation produces comes from exactly the
      OpenAI option `ChoiceOrigin` names, and every one is produced. */
  lemma {:induction false} ConvertToolChoiceOrigin(choice: Option<ToolChoice>, c: AnthropicToolChoice)
    ensures ConvertToolChoice(choice) == Some(c) <==> choice == Some(ChoiceOrigin(c))
  {
  }

  // ---------------------------------------------------------------- images

  /** A base64 image source; `data` is `None` when a data URL has no comma. */
  datatype ImageSource = ImageSource(mediaType: string, data: Option<string>)

  /** What `fetch` returns for an image URL: the `content-type` header and
      the body bytes. */
  datatype Fetched = Fetched(contentType: Option<string>, body: seq<Byte>)

  lemma {:induction false} DataUrlHeader(url: string)
    requires StartsWith(url, "data:")
    ensures |Split(Split(url, ',')[0], ':')| >= 2
  {
    var rest := url[5..];
    assert url == "data:" + rest;
    SplitFirstPart("data:", rest, ',');
    var header := Split(url, ',')[0];
    assert header == "data" + [':'] + Split(rest, ',')[0];
    SplitAtFirst("data", Split(rest, ',')[0], ':');
  }

  /** The data-URL branch of `getImageAsBase64`: the media type is the header
      text between the first `:` and the next `;`, the data is the text
      between the first and the second comma. */
  function DataUrlSource(url: string): (r: ImageSource)
    requires StartsWith(url, "data:")
    ensures r.data.Some? <==> ',' in url
    ensures r.data.Some? ==> ',' !in r.data.value
  {
    var parts := Split(url, ',');
    DataUrlHeader(url);
    var mediaType := Split(Split(parts[0], ':')[1], ';')[0];
    ImageSource(mediaType, if |parts| >= 2 then Some(parts[1]) else None)
  }

  /** A data URL built from a media type and base64 data gives both back. */
  lemma {:induction false} DataUrlRoundTrip(mediaType: string, data: string)
    requires ',' !in mediaType && ':' !in mediaType && ';' !in mediaType
    requires ',' !in data
    ensures StartsWith("data:" + mediaType + ";base64," + data, "data:")
    ensures DataUrlSource("data:" + mediaType + ";base64," + data) == ImageSource(mediaType, Some(data))
  {
    var url := "data:" + mediaType + ";base64," + data;
    var header := "data:" + mediaType + ";base64";
    assert url[..5] == "data:";
    assert url == header + [','] + data;
    assert ',' !in header by {
      assert header == "data:" + mediaType + ";base64";
    }
    SplitAtFirst(header, data, ',');
    SplitWithoutSeparator(data, ',');
    assert Split(url, ',') == [header, data];
    var tail := mediaType + ";base64";
    assert header == "data" + [':'] + tail;
    assert ':' !in tail by {
      assert tail == mediaType + ";base64";
    }
    SplitAtFirst("data", tail, ':');
    SplitWithoutSeparator(tail, ':');
    assert Split(header, ':') == ["data", tail];
    assert tail == mediaType + [';'] + "base64";
    SplitAtFirst(mediaType, "base64", ';');
  }

  /** `arrayBufferToBase64`: appends the character of every byte to a string
      and applies `btoa` to it. */
  method ArrayBufferToBase64(bytes: seq<Byte>) returns (r: string)
    ensures r == Encode(bytes)
    ensures Decode(r) == Some(bytes)
  {
    var binary := "";
    for i := 0 to |bytes|
      invariant |binary| == i
      invariant forall k :: 0 <= k < i ==> binary[k] as int == bytes[k]
    {
      binary := binary + [bytes[i] as char];
    }
    assert binary == Latin1(bytes);
    BtoaLatin1(bytes);
    var encoded := Btoa(binary);
    r := encoded.value;
    DecodeEncode(bytes);
  }

  /** `getImageAsBase64`: a data URL is taken apart without any fetch;
      any other URL is fetched, its bytes base64-encoded, and its media
      type is the `content-type` header or `image/jpeg` when that is missing
      or empty. */
  function ImageSourceOf(url: string, fetch: string -> Result<Fetched, Error>): (r: Result<ImageSource, Error>)
    ensures StartsWith(url, "data:") ==> r == Success(DataUrlSource(url))
    ensures !StartsWith(url, "data:") ==> (r.Success? <==> fetch(url).Success?)
    ensures !StartsWith(url, "data:") && r.Success? ==>
      r.value.data.Some? && Decode(r.value.data.value) == Some(fetch(url).value.body) &&
      |r.value.mediaType| > 0
  {
    if StartsWith(url, "data:") then Success(DataUrlSource(url))
    else
      match fetch(url)
      case Failure(e) => Failure(e)
      case Success(f) =>
        DecodeEncode(f.body);
        var mediaType := if f.contentType.Some? && |f.contentType.value| > 0 then f.contentType.value else "image/jpeg";
        Success(ImageSource(mediaType, Some(Encode(f.body))))
  }

  // ---------------------------------------------------------------- messages

  datatype Block = TextBlock(text: string) | ImageBlock(source: ImageSource)

  /** A message's content: a string passed through, or content blocks. */
  datatype AnthropicContent = PlainText(text: string) | Blocks(blocks: seq<Block>)

  datatype AnthropicMessage = AnthropicMessage(role: Role, content: AnthropicContent)

  function UnsupportedPart(p: ContentPart): Error {
    Error(HttpStatus(400), "Unsupported message content type " + p.Kind())
  }

  /** One content part: text to a text block, an image URL to a base64
      image block, anything else a 400 error naming the part's type. */
  function ConvertPart(p: ContentPart, fetch: string -> Result<Fetched, Error>): (r: Result<Block, Error>)
    ensures p.TextPart? ==> r == Success(TextBlock(p.text))
    ensures p.ImageUrlPart? ==> (r.Success? <==> ImageSourceOf(p.url, fetch).Success?)
    ensures p.ImageUrlPart? && r.Success? ==> r.value == ImageBlock(ImageSourceOf(p.url, fetch).value)
    ensures !p.TextPart? && !p.ImageUrlPart? ==> r == Failure(UnsupportedPart(p))
  {
    match p
    case TextPart(t) => Success(TextBlock(t))
    case ImageUrlPart(url, _) =>
      (match ImageSourceOf(url, fetch)
       case Failure(e) => Failure(e)
       case Success(src) => Success(ImageBlock(src)))
    case _ => Failure(UnsupportedPart(p))
  }

  /** One message: falsy content is a 400 error, string content passes
      through, parts are converted in order and the first failing part's
      error is the message's. */
  function ConvertMessage(m: Message, fetch: string -> Result<Fetched, Error>): (r: Result<AnthropicMessage, Error>)
    ensures !m.content.Truthy() ==> r == Failure(Error(HttpStatus(400), "content is required"))
    ensures m.content.Text? && m.content.Truthy() ==> r == Success(AnthropicMessage(m.role, PlainText(m.content.text)))
    ensures r.Success? ==> r.value.role == m.role
    ensures m.content.Parts? ==>
      (r.Success? <==> forall i :: 0 <= i < |m.content.parts| ==> ConvertPart(m.content.parts[i], fetch).Success?)
    ensures m.content.Parts? && r.Success? ==>
      r.value.content.Blocks? && |r.value.content.blocks| == |m.content.parts| &&
      forall i :: 0 <= i < |m.content.parts| ==> ConvertPart(m.content.parts[i], fetch) == Success(r.value.content.blocks[i])
  {
    if !m.content.Truthy() then Failure(Error(HttpStatus(400), "content is required"))
    else
      match m.content
      case Text(t) => Success(AnthropicMessage(m.role, PlainText(t)))
      case Parts(ps) =>
        match MapAll(ps, (p: ContentPart) => ConvertPart(p, fetch))
        case Failure(e) => Failure(e)
        case Success(blocks) => Success(AnthropicMessage(m.role, Blocks(blocks)))
  }

  /** `convertMessages`: every message in order; the first failing message's
      error is the result. */
  function ConvertMessages(ms: seq<Message>, fetch: string -> Result<Fetched, Error>): (r: Result<seq<AnthropicMessage>, Error>)
    ensures r.Success? <==> forall i :: 0 <= i < |ms| ==> ConvertMessage(ms[i], fetch).Success?
    ensures r.Success? ==> |r.value| == |ms|
    ensures r.Success? ==> forall i :: 0 <= i < |ms| ==> ConvertMessage(ms[i], fetch) == Success(r.value[i])
    ensures r.Failure? ==> exists i :: 0 <= i < |ms| && ConvertMessage(ms[i], fetch) == Failure(r.error)
  {
    MapAll(ms, (m: Message) => ConvertMessage(m, fetch))
  }

  // ---------------------------------------------------------------- request

  /** `getModelMaxTokens`: Claude 3 models get 4096 tokens, all others 8192. */
  function ModelMaxTokens(model: string): (r: int)
    ensures r == 4096 || r == 8192
    ensures r == 4096 <==> StartsWith(model, "claude-3-")
  {
    if StartsWith(model, "claude-3-") then 4096 else 8192
  }

  /** A message the Messages API takes as conversation (user or assistant). */
  predicate Conversational(m: Message) {
    m.role == User || m.role == Assistant
  }

  /** `stop_sequences`: a string becomes a one-element array, an array is
      kept, anything else is dropped. */
  function StopSequences(stop: Option<Stop>): (r: Option<seq<string>>)
    ensures stop.None? <==> r.None?
    ensures stop.Some? && stop.value.StopText? ==> r == Some([stop.value.text])
    ensures stop.Some? && stop.value.StopList? ==> r == Some(stop.value.items)
  {
    match stop
    case None => None
    case Some(StopText(s)) => Some([s])
    case Some(StopList(items)) => Some(items)
  }

  datatype AnthropicTool = AnthropicTool(name: string, description: Option<string>, inputSchema: Option<Json>)

  function ToolOf(t: ToolDef): AnthropicTool {
    AnthropicTool(t.name, t.description, t.parameters)
  }

  datatype AnthropicRequest = AnthropicRequest(
    stream: bool,
    stopSequences: Option<seq<string>>,
    system: Content,
    model: string,
    messages: seq<AnthropicMessage>,
    maxTokens: int,
    temperature: Option<real>,
    userId: Option<string>,
    tools: Option<seq<AnthropicTool>>,
    toolChoice: Option<AnthropicToolChoice>)

  /** `parseRequest`: the Messages API request for `req`. It fails exactly
      when one of the user and assistant messages fails to convert. */
  function ParseRequest(req: ChatRequest, fetch: string -> Result<Fetched, Error>): (r: Result<AnthropicRequest, Error>)
    ensures var conv := Filter(req.messages, Conversational);
      r.Success? <==> forall i :: 0 <= i < |conv| ==> ConvertMessage(conv[i], fetch).Success?
    ensures r.Success? ==>
      var a := r.value;
      var conv := Filter(req.messages, Conversational);
      && a.stream == req.stream
      && a.model == req.model
      && a.system == SystemContent(req.messages)
      && a.maxTokens == (if req.maxCompletionTokens.Some? then req.maxCompletionTokens.value else ModelMaxTokens(req.model))
      && a.stopSequences == StopSequences(req.stop)
      && a.toolChoice == ConvertToolChoice(req.toolChoice)
      && a.temperature == req.temperature
      && a.userId == req.user
      && |a.messages| == |conv|
      && (forall i :: 0 <= i < |conv| ==> ConvertMessage(conv[i], fetch) == Success(a.messages[i]))
      && (forall i :: 0 <= i < |a.messages| ==> a.messages[i].role == User || a.messages[i].role == Assistant)
      && (req.tools.None? <==> a.tools.None?)
      && (req.tools.Some? ==> |a.tools.value| == |req.tools.value|)
      && (req.tools.Some? ==> forall i :: 0 <= i < |req.tools.value| ==> a.tools.value[i] == ToolOf(req.tools.value[i]))
  {
    var conv := Filter(req.messages, Conversational);
    match ConvertMessages(conv, fetch)
    case Failure(e) => Failure(e)
    case Success(messages) =>
      assert forall i :: 0 <= i < |messages| ==> messages[i].role == conv[i].role;
      var tools := match req.tools
        case None => None
        case Some(ts) => Some(seq(|ts|, i requires 0 <= i < |ts| => ToolOf(ts[i])));
      var maxTokens := match req.maxCompletionTokens
        case Some(n) => n
        case None => ModelMaxTokens(req.model);
      Success(AnthropicRequest(
        req.stream, StopSequences(req.stop), SystemContent(req.messages), req.model, messages,
        maxTokens, req.temperature, req.user, tools, ConvertToolChoice(req.toolChoice)))
  }

  /** The user and assistant messages of the request, in order, are the
      translated conversation: it is a subsequence of the original. */
  lemma {:induction false} ConversationIsSubsequence(req: ChatRequest)
    ensures IsSubsequence(Filter(req.messages, Conversational), req.messages)
  {
    FilterIsSubsequence(req.messages, Conversational);
  }

  // ---------------------------------------------------------------- response

  /** A content block of a Messages API reply. */
  datatype ReplyBlock = TextContent(text: string) | ToolUse(id: string, name: string, input: Json) | OtherBlock(kind: string)

  datatype AnthropicReply = AnthropicReply(id: string, model: string, content: seq<ReplyBlock>, inputTokens: int, outputTokens: int)

  /** A non-text block becomes a tool call; fields a block lacks are `None`. */
  function BlockChoice(b: ReplyBlock): Choice {
    match b
    case TextContent(t) => Choice(0, ReplyMessage(Some(t), None), Stop)
    case ToolUse(id, name, input) => Choice(0, ReplyMessage(None, Some([ToolCall(Some(id), Some(name), Some(input))])), Stop)
    case OtherBlock(_) => Choice(0, ReplyMessage(None, Some([ToolCall(None, None, None)])), Stop)
  }

  /** `parseResponse`: one choice per content block, each at index 0 and
      finished with `'stop'`; usage totals input and output tokens. */
  function ParseResponse(resp: AnthropicReply, now: int): (c: Completion)
    ensures c.id == resp.id && c.model == resp.model && c.created == now
    ensures c.usage == Some(Usage(resp.inputTokens, resp.outputTokens, resp.inputTokens + resp.outputTokens))
    ensures |c.choices| == |resp.content|
    ensures forall i :: 0 <= i < |c.choices| ==> c.choices[i].index == 0 && c.choices[i].finishReason == Stop
    ensures forall i :: 0 <= i < |c.choices| ==>
      (resp.content[i].TextContent? <==> c.choices[i].message.toolCalls.None?)
    ensures forall i :: 0 <= i < |c.choices| && resp.content[i].TextContent? ==>
      c.choices[i].message.content == Some(resp.content[i].text)
    ensures forall i :: 0 <= i < |c.choices| && resp.content[i].ToolUse? ==>
      c.choices[i].message == ReplyMessage(None, Some([ToolCall(Some(resp.content[i].id), Some(resp.content[i].name), Some(resp.content[i].input))]))
  {
    var choices := seq(|resp.content|, i requires 0 <= i < |resp.content| => BlockChoice(resp.content[i]));
    Completion(resp.id, now, resp.model, choices, Some(Usage(resp.inputTokens, resp.outputTokens, resp.inputTokens + resp.outputTokens)))
  }

  /** `invoke`: the translated request goes to the vendor, whose reply is
      translated back; a request that fails to translate fails the call
      before anything is sent. */
  function Invoke(req: ChatRequest, fetch: string -> Result<Fetched, Error>, reply: AnthropicReply, now: int): (r: Result<Completion, Error>)
    ensures r.Failure? <==> ParseRequest(req, fetch).Failure?
    ensures r.Failure? ==> r.error == ParseRequest(req, fetch).error
    ensures r.Success? ==> r.value == ParseResponse(reply, now)
  {
    match ParseRequest(req, fetch)
    case Failure(e) => Failure(e)
    case Success(_) => Success(ParseResponse(reply, now))
  }

  // ---------------------------------------------------------------- stream

  /** The `message` of `message_start`: id, model and input token count. */
  datatype StartInfo = StartInfo(id: string, model: string, inputTokens: int)

  datatype BlockDelta = TextDelta(text: string) | OtherDelta(kind: string)

  /** A Messages API stream event; `OtherEvent` is every event the adapter
      ignores (`content_block_start`, `content_block_stop`, `message_stop`,
      `ping`). */
  datatype StreamEvent =
    | MessageStart(message: StartInfo)
    | ContentBlockDelta(index: int, delta: BlockDelta)
    | MessageDelta(outputTokens: int)
    | OtherEvent(kind: string)

  /** The chunks one event yields and the new `start`, or the error it
      throws. A delta read before `message_start` fails on `start!.id`. */
  function Step(includeUsage: bool, now: int, start: Option<StartInfo>, e: StreamEvent): Result<(Option<StartInfo>, seq<Chunk>), Error> {
    match e
    case MessageStart(m) => Success((Some(m), []))
    case ContentBlockDelta(index, d) =>
      if !d.TextDelta? then Failure(Error(NoStatus, "Unsupported delta type"))
      else if start.None? then Failure(ReadOfUndefined("id"))
      else Success((start, [Chunk(start.value.id, now, start.value.model, [ChunkChoice(index, Delta(false, Some(d.text), None), None)], None)]))
    case MessageDelta(out) =>
      if start.None? then Failure(ReadOfUndefined("id"))
      else if includeUsage then
        var s := start.value;
        Success((start, [Chunk(s.id, now, s.model, [], Some(Usage(s.inputTokens, out, s.inputTokens + out)))]))
      else
        Success((start, [Chunk(start.value.id, now, start.value.model, [ChunkChoice(0, Delta(false, None, None), Some(Stop))], None)]))
    case OtherEvent(_) => Success((start, []))
  }

  /** The outcome of translating `events` from state `start` on. */
  function Translate(includeUsage: bool, now: int, start: Option<StartInfo>, events: seq<StreamEvent>): Outcome
    decreases |events|
  {
    if |events| == 0 then Outcome([], None)
    else
      match Step(includeUsage, now, start, events[0])
      case Failure(e) => Outcome([], Some(e))
      case Success((next, out)) => Prepend(out, Translate(includeUsage, now, next, events[1..]))
  }

  /** `stream`: translates the request, then walks the vendor's reply
      events. */
  method Stream(req: ChatRequest, fetch: string -> Result<Fetched, Error>, now: int, events: seq<StreamEvent>) returns (o: Outcome)
    ensures ParseRequest(req, fetch).Failure? ==> o == Outcome([], Some(ParseRequest(req, fetch).error))
    ensures ParseRequest(req, fetch).Success? ==> o == Translate(req.includeUsage, now, None, events)
  {
    var parsed := ParseRequest(req, fetch);
    if parsed.Failure? {
      return Outcome([], Some(parsed.error));
    }
    o := TranslateEvents(req.includeUsage, now, events);
  }

  /** One step of the fold, at position `i` of the events. */
  lemma {:induction false} Unfold(includeUsage: bool, now: int, start: Option<StartInfo>, events: seq<StreamEvent>, i: nat)
    requires i < |events|
    ensures var step := Step(includeUsage, now, start, events[i]);
      Translate(includeUsage, now, start, events[i..])
        == if step.Failure? then Outcome([], Some(step.error))
           else Prepend(step.value.1, Translate(includeUsage, now, step.value.0, events[i + 1..]))
  {
    assert events[i..][1..] == events[i + 1..];
  }

  /** The event loop of `stream`, remembering the `message_start` message
      in `start`. */
  method TranslateEvents(includeUsage: bool, now: int, events: seq<StreamEvent>) returns (o: Outcome)
    ensures o == Translate(includeUsage, now, None, events)
  {
    var start: Option<StartInfo> := None;
    var chunks: seq<Chunk> := [];
    var i := 0;
    while i < |events|
      invariant 0 <= i <= |events|
      invariant Translate(includeUsage, now, None, events) == Prepend(chunks, Translate(includeUsage, now, start, events[i..]))
    {
      var e := events[i];
      Unfold(includeUsage, now, start, events, i);
      ghost var before, rest := chunks, events[i + 1..];
      match e {
        case MessageStart(m) =>
          start := Some(m);
          PrependTwice(before, [], Translate(includeUsage, now, start, rest));
          assert before + [] == before;
        case ContentBlockDelta(index, d) =>
          if !d.TextDelta? {
            assert chunks + [] == chunks;
            return Outcome(chunks, Some(Error(NoStatus, "Unsupported delta type")));
          }
          if start.None? {
            assert chunks + [] == chunks;
            return Outcome(chunks, Some(ReadOfUndefined("id")));
          }
          var c := Chunk(start.value.id, now, start.value.model, [ChunkChoice(index, Delta(false, Some(d.text), None), None)], None);
          chunks := chunks + [c];
          PrependTwice(before, [c], Translate(includeUsage, now, start, rest));
        case MessageDelta(out) =>
          if start.None? {
            assert chunks + [] == chunks;
            return Outcome(chunks, Some(ReadOfUndefined("id")));
          }
          var c;
          if includeUsage {
            c := Chunk(start.value.id, now, start.value.model, [], Some(Usage(start.value.inputTokens, out, start.value.inputTokens + out)));
          } else {
            c := Chunk(start.value.id, now, start.value.model, [ChunkChoice(0, Delta(false, None, None), Some(Stop))], None);
          }
          chunks := chunks + [c];
          PrependTwice(before, [c], Translate(includeUsage, now, start, rest));
        case OtherEvent(_) =>
          PrependTwice(before, [], Translate(includeUsage, now, start, rest));
          assert before + [] == before;
      }
      i := i + 1;
    }
    assert events[i..] == [];
    return Outcome(chunks, None);
  }

  /** The text the stream carries: the text deltas, joined. */
  function DeltaText(events: seq<StreamEvent>): string
    decreases |events|
  {
    if |events| == 0 then ""
    else
      var head := if events[0].ContentBlockDelta? && events[0].delta.TextDelta? then events[0].delta.text else "";
      head + DeltaText(events[1..])
  }

  /** How many chunks a stream that does not fail yields: one per delta
      event. */
  function EmittingEvents(events: seq<StreamEvent>): nat
    decreases |events|
  {
    if |events| == 0 then 0
    else (if events[0].ContentBlockDelta? || events[0].MessageDelta? then 1 else 0) + EmittingEvents(events[1..])
  }

  /** A stream that completes yields one chunk per `content_block_delta` and
      `message_delta` event, and a client joining the chunk texts reads
      exactly the text deltas. */
  lemma {:induction false} TranslateText(includeUsage: bool, now: int, start: Option<StartInfo>, events: seq<StreamEvent>)
    ensures var o := Translate(includeUsage, now, start, events);
      o.failure.None? ==> StreamedText(o.chunks) == DeltaText(events) && |o.chunks| == EmittingEvents(events)
    decreases |events|
  {
    if |events| > 0 {
      match Step(includeUsage, now, start, events[0]) {
        case Failure(_) =>
        case Success((next, out)) =>
          TranslateText(includeUsage, now, next, events[1..]);
          var rest := Translate(includeUsage, now, next, events[1..]);
          StreamedTextAppend(out, rest.chunks);
          if out != [] {
            assert StreamedText(out) == ChunkText(out[0]) + StreamedText([]);
          }
      }
    }
  }

  /** With `include_usage` a chunk carries no finish reason (the final
      chunk is usage-only); without it a chunk carries no usage. A usage
      chunk has no choices and totals the input tokens of `message_start`
      and the output tokens of `message_delta`. */
  predicate UsageRule(includeUsage: bool, c: Chunk) {
    && (includeUsage ==> forall j :: 0 <= j < |c.choices| ==> c.choices[j].finishReason.None?)
    && (!includeUsage ==> c.usage.None?)
    && (c.usage.Some? ==> c.choices == [] && c.usage.value.totalTokens == c.usage.value.promptTokens + c.usage.value.completionTokens)
  }

  lemma {:induction false} TranslateFinishAndUsage(includeUsage: bool, now: int, start: Option<StartInfo>, events: seq<StreamEvent>)
    ensures forall c :: c in Translate(includeUsage, now, start, events).chunks ==> UsageRule(includeUsage, c)
    decreases |events|
  {
    if |events| > 0 {
      match Step(includeUsage, now, start, events[0]) {
        case Failure(_) =>
        case Success((next, out)) =>
          TranslateFinishAndUsage(includeUsage, now, next, events[1..]);
          var rest := Translate(includeUsage, now, next, events[1..]);
          var all := Translate(includeUsage, now, start, events).chunks;
          assert all == out + rest.chunks;
          assert forall k :: 0 <= k < |out| ==> UsageRule(includeUsage, out[k]);
          assert forall c :: c in out ==> UsageRule(includeUsage, c);
      }
    }
  }

  /** A delta event that arrives before `message_start` makes the stream
      throw before yielding anything. */
  lemma {:induction false} DeltaBeforeStart(includeUsage: bool, now: int, events: seq<StreamEvent>)
    requires |events| > 0
    requires events[0].MessageDelta? || (events[0].ContentBlockDelta? && events[0].delta.TextDelta?)
    ensures Translate(includeUsage, now, None, events) == Outcome([], Some(ReadOfUndefined("id")))
  {
  }

  /** The `message_start` message the loop holds after `events`, having
      held `start` before them. */
  function StartAfter(start: Option<StartInfo>, events: seq<StreamEvent>): Option<StartInfo>
    decreases |events|
  {
    if |events| == 0 then start
    else StartAfter(if events[0].MessageStart? then Some(events[0].message) else start, events[1..])
  }

  /** Events without a `message_start` leave the held message as it was. */
  lemma {:induction false} StartAfterNoStart(start: Option<StartInfo>, events: seq<StreamEvent>)
    requires forall l :: 0 <= l < |events| ==> !events[l].MessageStart?
    ensures StartAfter(start, events) == start
    decreases |events|
  {
    if |events| > 0 {
      assert forall l :: 0 <= l < |events[1..]| ==> events[1..][l] == events[l + 1];
      StartAfterNoStart(start, events[1..]);
    }
  }

  /** After the events the loop holds the latest `message_start` message. */
  lemma {:induction false} StartAfterLatest(start: Option<StartInfo>, events: seq<StreamEvent>, j: nat)
    requires j < |events| && events[j].MessageStart?
    requires forall l :: j < l < |events| ==> !events[l].MessageStart?
    ensures StartAfter(start, events) == Some(events[j].message)
    decreases |events|
  {
    var next := if events[0].MessageStart? then Some(events[0].message) else start;
    assert forall l :: 0 <= l < |events[1..]| ==> events[1..][l] == events[l + 1];
    if j == 0 {
      StartAfterNoStart(next, events[1..]);
    } else {
      StartAfterLatest(next, events[1..], j - 1);
    }
  }

  /** Translating `a + b` translates `a`; when that does not throw, `b`
      follows from the `message_start` that `a` leaves behind. */
  lemma {:induction false} TranslateAppend(includeUsage: bool, now: int, start: Option<StartInfo>, a: seq<StreamEvent>, b: seq<StreamEvent>)
    ensures var oa := Translate(includeUsage, now, start, a);
      oa.failure.Some? ==> Translate(includeUsage, now, start, a + b) == oa
    ensures var oa := Translate(includeUsage, now, start, a);
      oa.failure.None? ==>
        Translate(includeUsage, now, start, a + b) == Prepend(oa.chunks, Translate(includeUsage, now, StartAfter(start, a), b))
    decreases |a|
  {
    if |a| == 0 {
      assert a + b == b;
      var ob := Translate(includeUsage, now, start, b);
      assert [] + ob.chunks == ob.chunks;
    } else {
      assert (a + b)[0] == a[0];
      assert (a + b)[1..] == a[1..] + b;
      match Step(includeUsage, now, start, a[0]) {
        case Failure(_) =>
        case Success((next, out)) =>
          TranslateAppend(includeUsage, now, next, a[1..], b);
          var rest := Translate(includeUsage, now, next, a[1..]);
          if rest.failure.None? {
            PrependTwice(out, rest.chunks, Translate(includeUsage, now, StartAfter(next, a[1..]), b));
          }
      }
    }
  }

  /** What event `k` does once the events before it have been translated
      without a throw: the chunk it adds, or the error it throws, given the
      `message_start` held at that point. */
  lemma {:induction false} EventChunks(includeUsage: bool, now: int, start: Option<StartInfo>, events: seq<StreamEvent>, k: nat)
    requires k < |events|
    requires Translate(includeUsage, now, start, events[..k]).failure.None?
    ensures var before := Translate(includeUsage, now, start, events[..k]).chunks;
      var after := Translate(includeUsage, now, start, events[..k + 1]);
      var held := StartAfter(start, events[..k]);
      var e := events[k];
      && (e.MessageStart? || e.OtherEvent? ==> after == Outcome(before, None))
      && (e.ContentBlockDelta? && !e.delta.TextDelta? ==>
            after == Outcome(before, Some(Error(NoStatus, "Unsupported delta type"))))
      && ((e.ContentBlockDelta? && e.delta.TextDelta?) || e.MessageDelta? ==>
            held.None? ==> after == Outcome(before, Some(ReadOfUndefined("id"))))
      && (e.ContentBlockDelta? && e.delta.TextDelta? && held.Some? ==>
            after == Outcome(before + [Chunk(held.value.id, now, held.value.model,
                                             [ChunkChoice(e.index, Delta(false, Some(e.delta.text), None), None)], None)], None))
      && (e.MessageDelta? && held.Some? && includeUsage ==>
            var m := held.value;
            after == Outcome(before + [Chunk(m.id, now, m.model, [],
                                             Some(Usage(m.inputTokens, e.outputTokens, m.inputTokens + e.outputTokens)))], None))
      && (e.MessageDelta? && held.Some? && !includeUsage ==>
            after == Outcome(before + [Chunk(held.value.id, now, held.value.model,
                                             [ChunkChoice(0, Delta(false, None, None), Some(Stop))], None)], None))
  {
    assert events[..k + 1] == events[..k] + [events[k]];
    TranslateAppend(includeUsage, now, start, events[..k], [events[k]]);
    var before := Translate(includeUsage, now, start, events[..k]).chunks;
    var held := StartAfter(start, events[..k]);
    assert [events[k]][1..] == [];
    match Step(includeUsage, now, held, events[k]) {
      case Failure(_) =>
        assert before + [] == before;
      case Success((_, out)) =>
    }
  }

  /** With `include_usage`, the chunk of a `message_delta` event sits after
      one chunk per earlier delta event and carries the usage of the latest
      `message_start` and of the delta: prompt tokens are the message's input
      tokens, completion tokens the delta's output tokens, and the total
      their sum. */
  lemma {:induction false} MessageDeltaUsage(now: int, events: seq<StreamEvent>, j: nat, k: nat)
    requires j < k < |events| && events[j].MessageStart? && events[k].MessageDelta?
    requires forall l :: j < l < k ==> !events[l].MessageStart?
    requires Translate(true, now, None, events[..k]).failure.None?
    ensures var o := Translate(true, now, None, events);
      var m := events[j].message;
      var n := EmittingEvents(events[..k]);
      var out := events[k].outputTokens;
      n < |o.chunks| && o.chunks[n] == Chunk(m.id, now, m.model, [], Some(Usage(m.inputTokens, out, m.inputTokens + out)))
  {
    var m := events[j].message;
    var out := events[k].outputTokens;
    var c := Chunk(m.id, now, m.model, [], Some(Usage(m.inputTokens, out, m.inputTokens + out)));
    UsageChunkEnds(now, events, j, k);
    var before := Translate(true, now, None, events[..k]).chunks;
    TranslateAppend(true, now, None, events[..k + 1], events[k + 1..]);
    assert events[..k + 1] + events[k + 1..] == events;
    assert (before + [c] + Translate(true, now, StartAfter(None, events[..k + 1]), events[k + 1..]).chunks)[|before|] == c;
  }

  /** The step of `MessageDeltaUsage` up to the delta itself: the stream
      through event `k` ends with the usage chunk. */
  lemma {:induction false} UsageChunkEnds(now: int, events: seq<StreamEvent>, j: nat, k: nat)
    requires j < k < |events| && events[j].MessageStart? && events[k].MessageDelta?
    requires forall l :: j < l < k ==> !events[l].MessageStart?
    requires Translate(true, now, None, events[..k]).failure.None?
    ensures var m := events[j].message;
      var out := events[k].outputTokens;
      var before := Translate(true, now, None, events[..k]).chunks;
      |before| == EmittingEvents(events[..k]) &&
      Translate(true, now, None, events[..k + 1]) ==
        Outcome(before + [Chunk(m.id, now, m.model, [], Some(Usage(m.inputTokens, out, m.inputTokens + out)))], None)
  {
    var prefix := events[..k];
    assert forall l :: 0 <= l < |prefix| ==> prefix[l] == events[l];
    StartAfterLatest(None, prefix, j);
    EventChunks(true, now, None, events, k);
    TranslateText(true, now, None, prefix);
  }

  // ---------------------------------------------------------------- descriptors

  /** The `anthropic` adapter: the Messages API with an API key. */
  const Descriptor: Adapter :=
    Adapter("anthropic", ["ANTROPIC_API_KEY"],
            [ "claude-opus-4-20250514", "claude-sonnet-4-20250514", "claude-3-7-sonnet-20250219",
              "claude-3-5-sonnet-20241022", "claude-3-5-haiku-20241022", "claude-3-5-sonnet-20240620",
              "claude-3-opus-20240229", "claude-3-sonnet-20240229", "claude-3-haiku-20240307" ])

  /** The `vertex-anthropic` adapter: the same translation over a Vertex AI
      service account. */
  const VertexDescriptor: Adapter :=
    Adapter("vertex-anthropic",
            [ "VERTEX_ANTROPIC_GOOGLE_SA_CLIENT_EMAIL", "VERTEX_ANTROPIC_GOOGLE_SA_PRIVATE_KEY",
              "VERTEX_ANTROPIC_REGION", "VERTEX_ANTROPIC_PROJECTID" ],
            [ "claude-opus-4@20250514", "claude-sonnet-4@20250514", "claude-3-7-sonnet@20250219",
              "claude-3-5-sonnet-v2@20241022", "claude-3-5-haiku@20241022", "claude-3-5-sonnet@20240620",
              "claude-3-haiku@20240307", "claude-3-opus@20240229", "claude-3-sonnet@20240229" ])

  /** Of the listed models, the two Claude 4 models default to 8192 tokens
      and the seven Claude 3 models (3.7 included) to 4096, on both the
      Anthropic and the Vertex AI adapter. */
  lemma {:induction false} ListedMaxTokens()
    ensures forall i :: 0 <= i < |Descriptor.supportModels| ==>
              ModelMaxTokens(Descriptor.supportModels[i]) == if i < 2 then 8192 else 4096
    ensures forall i :: 0 <= i < |VertexDescriptor.supportModels| ==>
              ModelMaxTokens(VertexDescriptor.supportModels[i]) == if i < 2 then 8192 else 4096
  {
    var ms, vs := Descriptor.supportModels, VertexDescriptor.supportModels;
    forall i | 0 <= i < |ms| ensures ModelMaxTokens(ms[i]) == if i < 2 then 8192 else 4096 {
      if i < 2 {
        assert ms[i][..9][7] != "claude-3-"[7];
      } else {
        assert ms[i][..9] == "claude-3-";
      }
    }
    forall i | 0 <= i < |vs| ensures ModelMaxTokens(vs[i]) == if i < 2 then 8192 else 4096 {
      if i < 2 {
        assert vs[i][..9][7] != "claude-3-"[7];
      } else {
        assert vs[i][..9] == "claude-3-";
      }
    }
  }

  /** The Anthropic adapter lists every model once. */
  lemma {:induction false} DescriptorModelsDistinct()
    ensures forall i, j :: 0 <= i < j < |Descriptor.supportModels| ==> Descriptor.supportModels[i] != Descriptor.supportModels[j]
  {
  }
}
