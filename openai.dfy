/** The OpenAI adapters: `openaiBase`, the pass-through adapter for every
    chat-completions compatible vendor; `openaiResponse`, which speaks the
    Responses API; and `openai`, which picks one of the two by model id. */
module OpenAi {
  import opened Wrappers
  import opened Contract

  // ---------------------------------------------------------------- openaiBase

  /** The request `openaiBase` sends: the request after `pre` (the identity
      when the adapter has none) with `stream` forced to the call's mode,
      `false` from `invoke` and `true` from `stream`. */
  function SentRequest(pre: Option<ChatRequest -> ChatRequest>, req: ChatRequest, streaming: bool): (r: ChatRequest)
    ensures r.stream == streaming
    ensures pre.None? ==> r == req.(stream := streaming)
    ensures pre.Some? ==> r == pre.value(req).(stream := streaming)
  {
    match pre
    case Some(f) => f(req).(stream := streaming)
    case None => req.(stream := streaming)
  }

  /** What the pass-through stream yields when the abort signal is first seen
      set before element `abortAt` (counting from `pos`): the vendor's
      chunks unchanged and in order, until the check throws `'Aborted'`. */
  function PassThrough(chunks: seq<Chunk>, abortAt: Option<nat>, pos: nat): Outcome
    decreases |chunks|
  {
    if |chunks| == 0 then Outcome([], None)
    else if abortAt == Some(pos) then Outcome([], Some(Error(NoStatus, "Aborted")))
    else Prepend([chunks[0]], PassThrough(chunks[1..], abortAt, pos + 1))
  }

  /** The `for await` loop of `openaiBase.stream`. */
  method PassThroughStream(chunks: seq<Chunk>, abortAt: Option<nat>) returns (o: Outcome)
    ensures o == PassThrough(chunks, abortAt, 0)
  {
    var out: seq<Chunk> := [];
    var i := 0;
    while i < |chunks|
      invariant 0 <= i <= |chunks|
      invariant out == chunks[..i]
      invariant PassThrough(chunks, abortAt, 0) == Prepend(out, PassThrough(chunks[i..], abortAt, i))
    {
      assert chunks[i..][1..] == chunks[i + 1..];
      if abortAt == Some(i) {
        return Outcome(out, Some(Error(NoStatus, "Aborted")));
      }
      assert PassThrough(chunks[i..], abortAt, i) == Prepend([chunks[i]], PassThrough(chunks[i + 1..], abortAt, i + 1));
      PrependTwice(out, [chunks[i]], PassThrough(chunks[i + 1..], abortAt, i + 1));
      TakeOneMore(chunks, i);
      out := out + [chunks[i]];
      i := i + 1;
    }
    assert chunks[i..] == [];
    return Outcome(out, None);
  }

  /** The pass-through yields exactly the vendor's chunks up to the abort
      point: all of them when the signal is not seen, and the `k` before it
      followed by `'Aborted'` when it is first seen at element `k`. */
  lemma {:induction false} PassThroughPrefix(chunks: seq<Chunk>, abortAt: Option<nat>, pos: nat)
    ensures var o := PassThrough(chunks, abortAt, pos);
      if abortAt.Some? && pos <= abortAt.value < pos + |chunks| then
        o == Outcome(chunks[..abortAt.value - pos], Some(Error(NoStatus, "Aborted")))
      else
        o == Outcome(chunks, None)
    decreases |chunks|
  {
    if |chunks| > 0 && abortAt != Some(pos) {
      PassThroughPrefix(chunks[1..], abortAt, pos + 1);
      assert [chunks[0]] + chunks[1..] == chunks;
      if abortAt.Some? && pos + 1 <= abortAt.value < pos + |chunks| {
        assert [chunks[0]] + chunks[1..][..abortAt.value - pos - 1] == chunks[..abortAt.value - pos];
      }
    }
  }

  // ---------------------------------------------------------------- Responses request

  /** A Responses API input content part. */
  datatype InputPart =
    | InputText(text: string)
    | InputImage(imageUrl: string, detail: string)
    | InputFile(fileId: Option<string>, filename: Option<string>, fileData: Option<string>)

  datatype InputContent = InputString(text: string) | InputParts(parts: seq<InputPart>)

  datatype InputMessage = InputMessage(role: Role, content: InputContent)

  datatype ResponsesRequest = ResponsesRequest(
    input: seq<InputMessage>,
    model: string,
    temperature: Option<real>,
    maxOutputTokens: Option<int>,
    topP: Option<real>)

  /** One content part: text, image URL (detail `'auto'` by default) and
      file map to their Responses counterparts; anything else throws. */
  function InputPartOf(p: ContentPart): (r: Result<InputPart, Error>)
    ensures r.Failure? <==> p.OtherPart?
    ensures p.OtherPart? ==> r.error == Error(NoStatus, "Unsupported content type: " + p.kind)
    ensures p.TextPart? ==> r == Success(InputText(p.text))
    ensures p.ImageUrlPart? ==> r == Success(InputImage(p.url, p.detail.GetOr("auto")))
    ensures p.FilePart? ==> r == Success(InputFile(p.fileId, p.filename, p.fileData))
  {
    match p
    case TextPart(t) => Success(InputText(t))
    case ImageUrlPart(url, detail) => Success(InputImage(url, detail.GetOr("auto")))
    case FilePart(id, name, data) => Success(InputFile(id, name, data))
    case OtherPart(k) => Failure(Error(NoStatus, "Unsupported content type: " + k))
  }

  /** One message: its role is kept, string content passes through, parts
      are mapped in order, and a missing content fails on `content!.map`. */
  function InputMessageOf(m: Message): (r: Result<InputMessage, Error>)
    ensures r.Success? ==> r.value.role == m.role
    ensures m.content.Text? ==> r == Success(InputMessage(m.role, InputString(m.content.text)))
    ensures m.content.Absent? ==> r == Failure(ReadOfUndefined("map"))
    ensures m.content.Parts? ==>
      (r.Success? <==> forall i :: 0 <= i < |m.content.parts| ==> !m.content.parts[i].OtherPart?)
    ensures m.content.Parts? && r.Success? ==>
      && r.value.content.InputParts? && |r.value.content.parts| == |m.content.parts|
      && forall i :: 0 <= i < |m.content.parts| ==> InputPartOf(m.content.parts[i]) == Success(r.value.content.parts[i])
  {
    match m.content
    case Absent => Failure(ReadOfUndefined("map"))
    case Text(t) => Success(InputMessage(m.role, InputString(t)))
    case Parts(ps) =>
      match MapAll(ps, InputPartOf)
      case Failure(e) => Failure(e)
      case Success(parts) => Success(InputMessage(m.role, InputParts(parts)))
  }

  /** `openaiResponse`'s `pre`: the Responses request for a chat request.
      `max_completion_tokens` becomes `max_output_tokens`. */
  function ResponsesPre(req: ChatRequest): (r: Result<ResponsesRequest, Error>)
    ensures r.Success? <==> forall i :: 0 <= i < |req.messages| ==> InputMessageOf(req.messages[i]).Success?
    ensures r.Success? ==>
      && |r.value.input| == |req.messages|
      && (forall i :: 0 <= i < |req.messages| ==> InputMessageOf(req.messages[i]) == Success(r.value.input[i]))
      && r.value.model == req.model
      && r.value.maxOutputTokens == req.maxCompletionTokens
      && r.value.temperature == req.temperature
      && r.value.topP == req.topP
  {
    match MapAll(req.messages, InputMessageOf)
    case Failure(e) => Failure(e)
    case Success(input) => Success(ResponsesRequest(input, req.model, req.temperature, req.maxCompletionTokens, req.topP))
  }

  /** Message roles survive the Responses translation, in order. */
  lemma {:induction false} ResponsesPreKeepsRoles(req: ChatRequest)
    ensures var r := ResponsesPre(req);
      r.Success? ==> forall i :: 0 <= i < |req.messages| ==> r.value.input[i].role == req.messages[i].role
  {
  }

  // ---------------------------------------------------------------- Responses reply

  datatype ResponseUsage = ResponseUsage(inputTokens: int, outputTokens: int, totalTokens: int)

  /** A Responses API `response` object. */
  datatype ResponseObject = ResponseObject(
    id: string,
    createdAt: int,
    model: string,
    outputText: Option<string>,
    usage: Option<ResponseUsage>)

  /** `openaiResponse.invoke`: one choice at index 0, finished with
      `'stop'`, whose assistant content is the response's `output_text`. */
  function ResponsesCompletion(resp: ResponseObject): (c: Completion)
    ensures c.id == resp.id && c.created == resp.createdAt && c.model == resp.model
    ensures c.choices == [Choice(0, ReplyMessage(resp.outputText, None), Stop)]
    ensures c.usage.None?
  {
    Completion(resp.id, resp.createdAt, resp.model, [Choice(0, ReplyMessage(resp.outputText, None), Stop)], None)
  }

  /** `openaiResponse.invoke`: the translated request goes to the vendor,
      whose response becomes the completion; a request that fails to
      translate fails the call before anything is sent. */
  function ResponsesInvoke(req: ChatRequest, resp: ResponseObject): (r: Result<Completion, Error>)
    ensures r.Failure? <==> ResponsesPre(req).Failure?
    ensures r.Failure? ==> r.error == ResponsesPre(req).error
    ensures r.Success? ==> r.value == ResponsesCompletion(resp)
  {
    match ResponsesPre(req)
    case Failure(e) => Failure(e)
    case Success(_) => Success(ResponsesCompletion(resp))
  }

  // ---------------------------------------------------------------- Responses stream

  /** A Responses API stream event with its `sequence_number`; `OtherEvent`
      is every event type the adapter ignores. */
  datatype ResponsesEvent =
    | ResponseCreated(sequenceNumber: int, response: ResponseObject)
    | OutputTextDelta(sequenceNumber: int, itemId: string, delta: string)
    | ResponseCompleted(sequenceNumber: int, response: ResponseObject)
    | ErrorEvent(sequenceNumber: int, code: Option<string>, message: string)
    | OtherEvent(sequenceNumber: int, kind: string)

  /** The `status` of the `HTTPException` an `error` event raises. */
  function ErrorStatus(code: Option<string>): Status {
    match code
    case Some(c) => CodeStatus(c)
    case None => NoStatus
  }

  /** The chunks one event yields and the remembered `response`, or the
      error it throws. */
  function ResponsesStep(response: Option<ResponseObject>, e: ResponsesEvent): Result<(Option<ResponseObject>, seq<Chunk>), Error> {
    match e
    case ResponseCreated(n, r) =>
      Success((Some(r), [Chunk(r.id, r.createdAt, r.model, [ChunkChoice(n, Delta(true, Some(r.outputText.GetOr("")), None), None)], None)]))
    case OutputTextDelta(n, item, d) =>
      if response.None? then Failure(ReadOfUndefined("created_at"))
      else Success((response, [Chunk(item, response.value.createdAt, response.value.model, [ChunkChoice(n, Delta(true, Some(d), None), None)], None)]))
    case ResponseCompleted(n, r) =>
      if r.usage.None? then Failure(ReadOfUndefined("input_tokens"))
      else
        var u := r.usage.value;
        Success((response, [Chunk(r.id, r.createdAt, r.model, [ChunkChoice(n, Delta(true, Some(r.outputText.GetOr("")), None), Some(Stop))],
                                  Some(Usage(u.inputTokens, u.outputTokens, u.totalTokens)))]))
    case ErrorEvent(_, code, message) => Failure(Error(ErrorStatus(code), message))
    case OtherEvent(_, _) => Success((response, []))
  }

  /** The outcome of the Responses stream loop over `events` from position
      `pos` on, the abort signal being first seen set at event `abortAt`. */
  function ResponsesTranslate(response: Option<ResponseObject>, events: seq<ResponsesEvent>, abortAt: Option<nat>, pos: nat): Outcome
    decreases |events|
  {
    if |events| == 0 then Outcome([], None)
    else if abortAt == Some(pos) then Outcome([], Some(Error(NoStatus, "Aborted")))
    else
      match ResponsesStep(response, events[0])
      case Failure(e) => Outcome([], Some(e))
      case Success((next, out)) => Prepend(out, ResponsesTranslate(next, events[1..], abortAt, pos + 1))
  }

  /** `openaiResponse.stream`: translates the request, then walks the
      vendor's events. */
  method ResponsesStream(req: ChatRequest, events: seq<ResponsesEvent>, abortAt: Option<nat>) returns (o: Outcome)
    ensures ResponsesPre(req).Failure? ==> o == Outcome([], Some(ResponsesPre(req).error))
    ensures ResponsesPre(req).Success? ==> o == ResponsesTranslate(None, events, abortAt, 0)
  {
    var sent := ResponsesPre(req);
    if sent.Failure? {
      return Outcome([], Some(sent.error));
    }
    o := ResponsesEvents(events, abortAt);
  }

  /** The event loop of `openaiResponse.stream`, remembering the
      `response.created` response. */
  method ResponsesEvents(events: seq<ResponsesEvent>, abortAt: Option<nat>) returns (o: Outcome)
    ensures o == ResponsesTranslate(None, events, abortAt, 0)
  {
    var response: Option<ResponseObject> := None;
    var chunks: seq<Chunk> := [];
    var i := 0;
    while i < |events|
      invariant 0 <= i <= |events|
      invariant ResponsesTranslate(None, events, abortAt, 0) == Prepend(chunks, ResponsesTranslate(response, events[i..], abortAt, i))
    {
      if abortAt == Some(i) {
        return Outcome(chunks, Some(Error(NoStatus, "Aborted")));
      }
      ResponsesUnfold(response, events, abortAt, i);
      var step := ResponsesStep(response, events[i]);
      if step.Failure? {
        return Outcome(chunks, Some(step.error));
      }
      var (next, out) := step.value;
      PrependTwice(chunks, out, ResponsesTranslate(next, events[i + 1..], abortAt, i + 1));
      response, chunks := next, chunks + out;
      i := i + 1;
    }
    assert events[i..] == [];
    return Outcome(chunks, None);
  }

  /** One step of `ResponsesTranslate` at position `i` of `events`. */
  lemma {:induction false} ResponsesUnfold(response: Option<ResponseObject>, events: seq<ResponsesEvent>, abortAt: Option<nat>, i: nat)
    requires i < |events| && abortAt != Some(i)
    ensures var step := ResponsesStep(response, events[i]);
      ResponsesTranslate(response, events[i..], abortAt, i)
        == if step.Failure? then Outcome([], Some(step.error))
           else Prepend(step.value.1, ResponsesTranslate(step.value.0, events[i + 1..], abortAt, i + 1))
  {
    assert events[i..][1..] == events[i + 1..];
  }

  /** The `sequence_number`s of the events that yield a chunk, in order. */
  function EmittingNumbers(events: seq<ResponsesEvent>): seq<int>
    decreases |events|
  {
    if |events| == 0 then []
    else
      var e := events[0];
      (if e.ResponseCreated? || e.OutputTextDelta? || e.ResponseCompleted? then [e.sequenceNumber] else [])
      + EmittingNumbers(events[1..])
  }

  /** Every chunk of the Responses stream has exactly one choice, whose index
      is the `sequence_number` of the event it comes from; on a stream that
      completes these are all the emitting events' numbers, in order. */
  lemma {:induction false} ResponsesChoiceIndices(response: Option<ResponseObject>, events: seq<ResponsesEvent>, abortAt: Option<nat>, pos: nat)
    ensures var o := ResponsesTranslate(response, events, abortAt, pos);
      && (forall c :: c in o.chunks ==> |c.choices| == 1)
      && (o.failure.None? ==> |o.chunks| == |EmittingNumbers(events)|)
      && (o.failure.None? ==> forall k :: 0 <= k < |o.chunks| ==> o.chunks[k].choices[0].index == EmittingNumbers(events)[k])
    decreases |events|
  {
    if |events| > 0 && abortAt != Some(pos) {
      match ResponsesStep(response, events[0]) {
        case Failure(_) =>
        case Success((next, out)) =>
          ResponsesChoiceIndices(next, events[1..], abortAt, pos + 1);
          var rest := ResponsesTranslate(next, events[1..], abortAt, pos + 1);
          var all := out + rest.chunks;
          assert ResponsesTranslate(response, events, abortAt, pos).chunks == all;
          var nums := EmittingNumbers(events);
          var restNums := EmittingNumbers(events[1..]);
          if rest.failure.None? {
            forall k | 0 <= k < |all| ensures all[k].choices[0].index == nums[k] {
              if k >= |out| {
                assert all[k] == rest.chunks[k - |out|];
              }
            }
          }
      }
    }
  }

  /** The `response` the loop holds after `events`, having held `response`
      before them. */
  function ResponseAfter(response: Option<ResponseObject>, events: seq<ResponsesEvent>): Option<ResponseObject>
    decreases |events|
  {
    if |events| == 0 then response
    else ResponseAfter(if events[0].ResponseCreated? then Some(events[0].response) else response, events[1..])
  }

  /** Events without a `response.created` leave the held response as it was. */
  lemma {:induction false} ResponseAfterNoCreated(response: Option<ResponseObject>, events: seq<ResponsesEvent>)
    requires forall l :: 0 <= l < |events| ==> !events[l].ResponseCreated?
    ensures ResponseAfter(response, events) == response
    decreases |events|
  {
    if |events| > 0 {
      assert forall l :: 0 <= l < |events[1..]| ==> events[1..][l] == events[l + 1];
      ResponseAfterNoCreated(response, events[1..]);
    }
  }

  /** After the events the loop holds the latest `response.created` response. */
  lemma {:induction false} ResponseAfterLatest(response: Option<ResponseObject>, events: seq<ResponsesEvent>, j: nat)
    requires j < |events| && events[j].ResponseCreated?
    requires forall l :: j < l < |events| ==> !events[l].ResponseCreated?
    ensures ResponseAfter(response, events) == Some(events[j].response)
    decreases |events|
  {
    var next := if events[0].ResponseCreated? then Some(events[0].response) else response;
    assert forall l :: 0 <= l < |events[1..]| ==> events[1..][l] == events[l + 1];
    if j == 0 {
      ResponseAfterNoCreated(next, events[1..]);
    } else {
      ResponseAfterLatest(next, events[1..], j - 1);
    }
  }

  /** One step of `ResponsesTranslate` at the front of `events`, and the
      response it leaves held. */
  lemma {:induction false} ResponsesCons(response: Option<ResponseObject>, events: seq<ResponsesEvent>, abortAt: Option<nat>, pos: nat)
    requires |events| > 0 && abortAt != Some(pos)
    ensures var step := ResponsesStep(response, events[0]);
      ResponsesTranslate(response, events, abortAt, pos)
        == if step.Failure? then Outcome([], Some(step.error))
           else Prepend(step.value.1, ResponsesTranslate(step.value.0, events[1..], abortAt, pos + 1))
    ensures var step := ResponsesStep(response, events[0]);
      step.Success? ==> ResponseAfter(response, events) == ResponseAfter(step.value.0, events[1..])
  {
  }

  /** Translating `a + b` translates `a`; when that does not throw, `b`
      follows from the response `a` leaves behind, at the positions after
      `a`. */
  lemma {:induction false} ResponsesAppend(response: Option<ResponseObject>, a: seq<ResponsesEvent>, b: seq<ResponsesEvent>,
                                           abortAt: Option<nat>, pos: nat)
    ensures var oa := ResponsesTranslate(response, a, abortAt, pos);
      oa.failure.Some? ==> ResponsesTranslate(response, a + b, abortAt, pos) == oa
    ensures var oa := ResponsesTranslate(response, a, abortAt, pos);
      oa.failure.None? ==>
        ResponsesTranslate(response, a + b, abortAt, pos)
          == Prepend(oa.chunks, ResponsesTranslate(ResponseAfter(response, a), b, abortAt, pos + |a|))
    decreases |a|
  {
    if |a| == 0 {
      assert a + b == b;
      var ob := ResponsesTranslate(response, b, abortAt, pos);
      assert [] + ob.chunks == ob.chunks;
    } else if abortAt != Some(pos) {
      assert (a + b)[0] == a[0];
      assert (a + b)[1..] == a[1..] + b;
      ResponsesCons(response, a, abortAt, pos);
      ResponsesCons(response, a + b, abortAt, pos);
      var step := ResponsesStep(response, a[0]);
      if step.Success? {
        var (next, out) := step.value;
        ResponsesAppend(next, a[1..], b, abortAt, pos + 1);
        var rest := ResponsesTranslate(next, a[1..], abortAt, pos + 1);
        if rest.failure.None? {
          PrependTwice(out, rest.chunks, ResponsesTranslate(ResponseAfter(next, a[1..]), b, abortAt, pos + |a|));
        }
      }
    }
  }

  /** What event `k` does once the events before it have been translated
      without a throw: the abort check comes first; then the chunk the event
      adds, or the error it throws, given the response held at that point. */
  lemma {:induction false} ResponsesEventChunks(events: seq<ResponsesEvent>, abortAt: Option<nat>, k: nat)
    requires k < |events|
    requires ResponsesTranslate(None, events[..k], abortAt, 0).failure.None?
    ensures var before := ResponsesTranslate(None, events[..k], abortAt, 0).chunks;
      var after := ResponsesTranslate(None, events[..k + 1], abortAt, 0);
      var held := ResponseAfter(None, events[..k]);
      var e := events[k];
      && (abortAt == Some(k) ==> after == Outcome(before, Some(Error(NoStatus, "Aborted"))))
      && (abortAt != Some(k) && e.ResponseCreated? ==>
            var r := e.response;
            after == Outcome(before + [Chunk(r.id, r.createdAt, r.model,
                                             [ChunkChoice(e.sequenceNumber, Delta(true, Some(r.outputText.GetOr("")), None), None)], None)], None))
      && (abortAt != Some(k) && e.OutputTextDelta? && held.None? ==>
            after == Outcome(before, Some(ReadOfUndefined("created_at"))))
      && (abortAt != Some(k) && e.OutputTextDelta? && held.Some? ==>
            after == Outcome(before + [Chunk(e.itemId, held.value.createdAt, held.value.model,
                                             [ChunkChoice(e.sequenceNumber, Delta(true, Some(e.delta), None), None)], None)], None))
      && (abortAt != Some(k) && e.ResponseCompleted? && e.response.usage.None? ==>
            after == Outcome(before, Some(ReadOfUndefined("input_tokens"))))
      && (abortAt != Some(k) && e.ResponseCompleted? && e.response.usage.Some? ==>
            var r := e.response;
            var u := r.usage.value;
            after == Outcome(before + [Chunk(r.id, r.createdAt, r.model,
                                             [ChunkChoice(e.sequenceNumber, Delta(true, Some(r.outputText.GetOr("")), None), Some(Stop))],
                                             Some(Usage(u.inputTokens, u.outputTokens, u.totalTokens)))], None))
      && (abortAt != Some(k) && e.ErrorEvent? ==> after == Outcome(before, Some(Error(ErrorStatus(e.code), e.message))))
      && (abortAt != Some(k) && e.OtherEvent? ==> after == Outcome(before, None))
  {
    assert events[..k + 1] == events[..k] + [events[k]];
    ResponsesAppend(None, events[..k], [events[k]], abortAt, 0);
    var before := ResponsesTranslate(None, events[..k], abortAt, 0).chunks;
    var held := ResponseAfter(None, events[..k]);
    assert [events[k]][1..] == [];
    if abortAt == Some(k) {
      assert before + [] == before;
    } else {
      match ResponsesStep(held, events[k]) {
        case Failure(_) =>
          assert before + [] == before;
        case Success((_, out)) =>
      }
    }
  }

  /** The `response.completed` chunk of a stream sits after the chunks of
      the events before it, with finish reason `'stop'`, the response's
      `output_text` as content and the response's three usage counts as
      they are. */
  lemma {:induction false} CompletedChunk(events: seq<ResponsesEvent>, abortAt: Option<nat>, k: nat)
    requires k < |events| && events[k].ResponseCompleted? && events[k].response.usage.Some?
    requires abortAt != Some(k)
    requires ResponsesTranslate(None, events[..k], abortAt, 0).failure.None?
    ensures var o := ResponsesTranslate(None, events, abortAt, 0);
      var n := |ResponsesTranslate(None, events[..k], abortAt, 0).chunks|;
      var r := events[k].response;
      var u := r.usage.value;
      n < |o.chunks| &&
      o.chunks[n] == Chunk(r.id, r.createdAt, r.model,
                           [ChunkChoice(events[k].sequenceNumber, Delta(true, Some(r.outputText.GetOr("")), None), Some(Stop))],
                           Some(Usage(u.inputTokens, u.outputTokens, u.totalTokens)))
  {
    ResponsesEventChunks(events, abortAt, k);
    ResponsesAppend(None, events[..k + 1], events[k + 1..], abortAt, 0);
    assert events[..k + 1] + events[k + 1..] == events;
  }

  /** The text of the events as the adapter forwards it: each
      `response.created` and `response.completed` response's `output_text`
      and each delta, in order. */
  function ResponsesText(events: seq<ResponsesEvent>): string
    decreases |events|
  {
    if |events| == 0 then ""
    else
      var e := events[0];
      (if e.ResponseCreated? || e.ResponseCompleted? then e.response.outputText.GetOr("")
       else if e.OutputTextDelta? then e.delta
       else "")
      + ResponsesText(events[1..])
  }

  /** A client joining the chunk texts of a Responses stream that completes
      reads `ResponsesText` of its events. */
  lemma {:induction false} ResponsesStreamedText(response: Option<ResponseObject>, events: seq<ResponsesEvent>, abortAt: Option<nat>, pos: nat)
    ensures var o := ResponsesTranslate(response, events, abortAt, pos);
      o.failure.None? ==> StreamedText(o.chunks) == ResponsesText(events)
    decreases |events|
  {
    if |events| > 0 && abortAt != Some(pos) {
      match ResponsesStep(response, events[0]) {
        case Failure(_) =>
        case Success((next, out)) =>
          ResponsesStreamedText(next, events[1..], abortAt, pos + 1);
          var rest := ResponsesTranslate(next, events[1..], abortAt, pos + 1);
          StreamedTextAppend(out, rest.chunks);
          if out != [] {
            assert StreamedText(out) == ChunkText(out[0]) + StreamedText([]);
          }
      }
    }
  }

  /** The `response.completed` chunk repeats the whole `output_text` after
      the deltas that already carried it, so a client that joins the chunk
      texts reads the reply twice. */
  lemma {:induction false} CompletedRepeatsText(r: ResponseObject, text: string)
    requires r.outputText == Some(text) && r.usage.Some?
    ensures var events := [ResponseCreated(0, r.(outputText := Some(""))), OutputTextDelta(1, "item", text), ResponseCompleted(2, r)];
      var o := ResponsesTranslate(None, events, None, 0);
      o.failure.None? && StreamedText(o.chunks) == text + text
  {
    var r0 := r.(outputText := Some(""));
    var events := [ResponseCreated(0, r0), OutputTextDelta(1, "item", text), ResponseCompleted(2, r)];
    var u := r.usage.value;
    var c0 := Chunk(r.id, r.createdAt, r.model, [ChunkChoice(0, Delta(true, Some(""), None), None)], None);
    var c1 := Chunk("item", r.createdAt, r.model, [ChunkChoice(1, Delta(true, Some(text), None), None)], None);
    var c2 := Chunk(r.id, r.createdAt, r.model, [ChunkChoice(2, Delta(true, Some(text), None), Some(Stop))],
                    Some(Usage(u.inputTokens, u.outputTokens, u.totalTokens)));
    assert events[1..] == [OutputTextDelta(1, "item", text), ResponseCompleted(2, r)];
    assert events[1..][1..] == [ResponseCompleted(2, r)];
    assert events[1..][1..][1..] == [];
    assert ResponsesTranslate(Some(r0), [], None, 3) == Outcome([], None);
    assert [c2] + [] == [c2];
    var o2 := ResponsesTranslate(Some(r0), events[1..][1..], None, 2);
    assert ResponsesStep(Some(r0), ResponseCompleted(2, r)) == Success((Some(r0), [c2]));
    assert o2 == Outcome([c2], None);
    var o1 := ResponsesTranslate(Some(r0), events[1..], None, 1);
    assert ResponsesStep(Some(r0), OutputTextDelta(1, "item", text)) == Success((Some(r0), [c1]));
    assert o1 == Outcome([c1, c2], None);
    var o := ResponsesTranslate(None, events, None, 0);
    assert ResponsesStep(None, ResponseCreated(0, r0)) == Success((Some(r0), [c0]));
    assert o == Outcome([c0, c1, c2], None);
    assert [c0, c1, c2][1..] == [c1, c2];
    assert [c1, c2][1..] == [c2];
    assert [c2][1..] == [];
    assert StreamedText([c2]) == text;
    assert StreamedText([c1, c2]) == text + text;
    assert StreamedText([c0, c1, c2]) == "" + (text + text);
  }

  // ---------------------------------------------------------------- openai

  /** The models served through chat completions (`oldModels`). */
  const OldModels: seq<string> :=
    [ "chatgpt-4o-latest", "codex-mini-latest", "computer-use-preview", "computer-use-preview-2025-03-11",
      "gpt-3.5-turbo", "gpt-3.5-turbo-0125", "gpt-3.5-turbo-1106", "gpt-3.5-turbo-16k",
      "gpt-3.5-turbo-instruct", "gpt-3.5-turbo-instruct-0914", "gpt-4", "gpt-4-0125-preview",
      "gpt-4-0613", "gpt-4-1106-preview", "gpt-4-turbo", "gpt-4-turbo-2024-04-09",
      "gpt-4-turbo-preview", "gpt-4o", "gpt-4o-2024-05-13", "gpt-4o-2024-08-06",
      "gpt-4o-2024-11-20", "gpt-4o-audio-preview", "gpt-4o-audio-preview-2024-10-01", "gpt-4o-audio-preview-2024-12-17",
      "gpt-4o-mini", "gpt-4o-mini-2024-07-18", "gpt-4o-mini-audio-preview", "gpt-4o-mini-audio-preview-2024-12-17",
      "gpt-4o-mini-realtime-preview", "gpt-4o-mini-realtime-preview-2024-12-17", "gpt-4o-mini-search-preview", "gpt-4o-mini-search-preview-2025-03-11",
      "gpt-4o-mini-transcribe", "gpt-4o-mini-tts", "gpt-4o-realtime-preview", "gpt-4o-realtime-preview-2024-10-01",
      "gpt-4o-realtime-preview-2024-12-17", "gpt-4o-search-preview", "gpt-4o-search-preview-2025-03-11", "gpt-4o-transcribe",
      "gpt-image-1", "o1-mini", "o1-mini-2024-09-12", "omni-moderation-2024-09-26",
      "omni-moderation-latest" ]

  /** The models served through the Responses API (`newModels`). */
  const NewModels: seq<string> :=
    [ "gpt-5-nano", "gpt-5", "gpt-5-mini-2025-08-07", "gpt-5-mini",
      "gpt-5-nano-2025-08-07", "o1-2024-12-17", "o1", "o3-mini",
      "o3-mini-2025-01-31", "o1-pro-2025-03-19", "o1-pro", "o3-2025-04-16",
      "o4-mini-2025-04-16", "o3", "o4-mini", "gpt-4.1-2025-04-14",
      "gpt-4.1", "gpt-4.1-mini-2025-04-14", "gpt-4.1-mini", "gpt-4.1-nano-2025-04-14",
      "gpt-4.1-nano", "o3-pro", "gpt-4o-realtime-preview-2025-06-03", "gpt-4o-audio-preview-2025-06-03",
      "o3-pro-2025-06-10", "o4-mini-deep-research", "o3-deep-research", "o3-deep-research-2025-06-26",
      "o4-mini-deep-research-2025-06-26", "gpt-5-chat-latest", "gpt-5-2025-08-07" ]

  datatype Api = ChatCompletionsApi | ResponsesApi

  /** `client_builder`: a model of `oldModels` goes to chat completions,
      every other model to the Responses API. */
  function RouteModel(model: string): (api: Api)
    ensures api == ChatCompletionsApi <==> model in OldModels
  {
    if model in OldModels then ChatCompletionsApi else ResponsesApi
  }

  /** The `openai` descriptor: `oldModels` then `newModels`. */
  const Descriptor: Adapter :=
    Adapter("openai", ["OPENAI_API_KEY"], OldModels + NewModels)

  /** `openai(env).invoke`: a chat-completions model gets the vendor's
      completion `chatReply` unchanged; every other model goes through the
      Responses API, whose response is `resp`. */
  function Invoke(req: ChatRequest, chatReply: Completion, resp: ResponseObject): (r: Result<Completion, Error>)
    ensures req.model in OldModels ==> r == Success(chatReply)
    ensures req.model !in OldModels ==> r == ResponsesInvoke(req, resp)
  {
    match RouteModel(req.model)
    case ChatCompletionsApi => Success(chatReply)
    case ResponsesApi => ResponsesInvoke(req, resp)
  }

  /** `openai(env).stream`: a chat-completions model passes the vendor's
      chunks `chat` through; every other model translates the Responses
      events `events`. The abort signal is first seen at `abortAt`. */
  method Stream(req: ChatRequest, chat: seq<Chunk>, events: seq<ResponsesEvent>, abortAt: Option<nat>) returns (o: Outcome)
    ensures req.model in OldModels ==> o == PassThrough(chat, abortAt, 0)
    ensures req.model !in OldModels && ResponsesPre(req).Failure? ==> o == Outcome([], Some(ResponsesPre(req).error))
    ensures req.model !in OldModels && ResponsesPre(req).Success? ==> o == ResponsesTranslate(None, events, abortAt, 0)
  {
    if RouteModel(req.model) == ChatCompletionsApi {
      o := PassThroughStream(chat, abortAt);
    } else {
      o := ResponsesStream(req, events, abortAt);
    }
  }
}
