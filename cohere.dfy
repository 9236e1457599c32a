/** The Cohere adapter: role and finish-reason mappings, the chat request
    (history plus last message), the completion built from a chat reply,
    and the chunk stream built from the chat stream's events. */
module Cohere {
  import opened Wrappers
  import opened Contract

  // ---------------------------------------------------------------- mappings

  datatype CohereRole = UserMessage | Chatbot | SystemMessage | ToolMessage

  /** A role's name on the wire. */
  function RoleName(role: Role): string {
    match role
    case System => "system"
    case User => "user"
    case Assistant => "assistant"
    case Tool => "tool"
    case Function => "function"
    case Developer => "developer"
  }

  /** `roleOpenaiToCohere`: user, assistant, system and tool have a Cohere
      counterpart; every other role throws. */
  function CohereRoleOf(role: Role): (r: Result<CohereRole, Error>)
    ensures r.Failure? <==> role == Function || role == Developer
    ensures r.Failure? ==> r.error == Error(NoStatus, "Unsupported role: " + RoleName(role))
    ensures role == User ==> r == Success(UserMessage)
    ensures role == Assistant ==> r == Success(Chatbot)
    ensures role == System ==> r == Success(SystemMessage)
    ensures role == Tool ==> r == Success(ToolMessage)
  {
    match role
    case User => Success(UserMessage)
    case Assistant => Success(Chatbot)
    case System => Success(SystemMessage)
    case Tool => Success(ToolMessage)
    case _ => Failure(Error(NoStatus, "Unsupported role: " + RoleName(role)))
  }

  /** `finishReasonCohereToOpenAI`: `'MAX_TOKENS'` is a length stop,
      `'ERROR_TOXIC'` a content-filter stop, and every other reason
      (unknown and missing ones included) a plain stop. */
  function FinishOf(reason: Option<string>): (r: FinishReason)
    ensures r == Length <==> reason == Some("MAX_TOKENS")
    ensures r == ContentFilter <==> reason == Some("ERROR_TOXIC")
    ensures r != ToolCalls
  {
    match reason
    case Some("MAX_TOKENS") => Length
    case Some("ERROR_TOXIC") => ContentFilter
    case _ => Stop
  }

  // ---------------------------------------------------------------- request

  /** A chat-history entry; the content is passed on as it is. */
  datatype CohereMessage = CohereMessage(role: CohereRole, message: Content)

  datatype CohereRequest = CohereRequest(
    model: string,
    chatHistory: seq<CohereMessage>,
    message: Content,
    temperature: Option<real>,
    maxTokens: Option<int>)

  function HistoryEntry(m: Message): (r: Result<CohereMessage, Error>)
    ensures r.Success? <==> CohereRoleOf(m.role).Success?
    ensures r.Success? ==> r.value == CohereMessage(CohereRoleOf(m.role).value, m.content)
    ensures r.Failure? ==> r.error == CohereRoleOf(m.role).error
  {
    match CohereRoleOf(m.role)
    case Failure(e) => Failure(e)
    case Success(role) => Success(CohereMessage(role, m.content))
  }

  /** `parseRequest`: every message but the last goes, role-mapped and in
      order, into the history (`slice(0, -1)`, empty for an empty list); the
      last message's content is the message, and missing when there is no
      message. */
  function ParseRequest(req: ChatRequest): (r: Result<CohereRequest, Error>)
    ensures var n := if |req.messages| == 0 then 0 else |req.messages| - 1;
      r.Success? <==> forall i :: 0 <= i < n ==> CohereRoleOf(req.messages[i].role).Success?
    ensures var n := if |req.messages| == 0 then 0 else |req.messages| - 1;
      r.Failure? ==> exists i :: 0 <= i < n && HistoryEntry(req.messages[i]) == Failure(r.error)
    ensures var n := if |req.messages| == 0 then 0 else |req.messages| - 1;
      r.Success? ==>
        && |r.value.chatHistory| == n
        && (forall i :: 0 <= i < n ==> r.value.chatHistory[i] == CohereMessage(CohereRoleOf(req.messages[i].role).value, req.messages[i].content))
    ensures r.Success? ==> r.value.message == (if |req.messages| == 0 then Absent else req.messages[|req.messages| - 1].content)
    ensures r.Success? ==> r.value.model == req.model && r.value.temperature == req.temperature && r.value.maxTokens == req.maxCompletionTokens
  {
    var n := if |req.messages| == 0 then 0 else |req.messages| - 1;
    var message := if |req.messages| == 0 then Absent else req.messages[|req.messages| - 1].content;
    match MapAll(req.messages[..n], HistoryEntry)
    case Failure(e) => Failure(e)
    case Success(history) => Success(CohereRequest(req.model, history, message, req.temperature, req.maxCompletionTokens))
  }

  /** The last message's role is never mapped, so a request whose only
      unsupported role is on its last message is accepted. */
  lemma {:induction false} LastRoleUnchecked(req: ChatRequest)
    requires |req.messages| > 0
    requires forall i :: 0 <= i < |req.messages| - 1 ==> req.messages[i].role == User
    ensures ParseRequest(req).Success?
  {
  }

  // ---------------------------------------------------------------- response

  /** `meta.billedUnits`, each count possibly missing. */
  datatype BilledUnits = BilledUnits(inputTokens: Option<int>, outputTokens: Option<int>)

  /** A count is truthy when present and not zero. */
  predicate TruthyCount(n: Option<int>) {
    n.Some? && n.value != 0
  }

  /** Both billed counts are truthy. */
  predicate Billed(b: Option<BilledUnits>) {
    b.Some? && TruthyCount(b.value.inputTokens) && TruthyCount(b.value.outputTokens)
  }

  function BilledUsage(b: Option<BilledUnits>): (u: Usage)
    requires Billed(b)
    ensures u.promptTokens == b.value.inputTokens.value && u.completionTokens == b.value.outputTokens.value
    ensures u.totalTokens == u.promptTokens + u.completionTokens
  {
    var i, o := b.value.inputTokens.value, b.value.outputTokens.value;
    Usage(i, o, i + o)
  }

  /** A non-streamed chat reply. */
  datatype CohereReply = CohereReply(
    generationId: Option<string>,
    text: string,
    finishReason: Option<string>,
    billedUnits: Option<BilledUnits>)

  /** `parseResponse`: the id is `generationId` when there is one and a
      `chatcmpl-` UUID otherwise; one choice at index 0 with the text and the
      mapped finish reason; usage only when both billed counts are truthy,
      totalling them. */
  function ParseResponse(resp: CohereReply, model: string, uuid: string, now: int): (c: Completion)
    ensures c.id == (if resp.generationId.Some? then resp.generationId.value else "chatcmpl-" + uuid)
    ensures c.model == model && c.created == now
    ensures c.choices == [Choice(0, ReplyMessage(Some(resp.text), None), FinishOf(resp.finishReason))]
    ensures c.usage.Some? <==> Billed(resp.billedUnits)
    ensures c.usage.Some? ==>
      && c.usage.value.promptTokens == resp.billedUnits.value.inputTokens.value
      && c.usage.value.completionTokens == resp.billedUnits.value.outputTokens.value
      && c.usage.value.totalTokens == c.usage.value.promptTokens + c.usage.value.completionTokens
  {
    var id := match resp.generationId
      case Some(g) => g
      case None => "chatcmpl-" + uuid;
    var usage := if Billed(resp.billedUnits) then Some(BilledUsage(resp.billedUnits)) else None;
    Completion(id, now, model, [Choice(0, ReplyMessage(Some(resp.text), None), FinishOf(resp.finishReason))], usage)
  }

  /** `invoke`: the request, then the reply; a message with an unsupported
      role fails the call before anything is sent. */
  function Invoke(req: ChatRequest, resp: CohereReply, uuid: string, now: int): (r: Result<Completion, Error>)
    ensures r.Failure? <==> ParseRequest(req).Failure?
    ensures r.Failure? ==> r.error == ParseRequest(req).error
    ensures r.Success? ==> r.value == ParseResponse(resp, req.model, uuid, now)
  {
    match ParseRequest(req)
    case Failure(e) => Failure(e)
    case Success(_) => Success(ParseResponse(resp, req.model, uuid, now))
  }

  // ---------------------------------------------------------------- stream

  /** A chat stream event; `OtherEvent` is every event type the adapter
      ignores. */
  datatype CohereEvent =
    | StreamStart(generationId: string)
    | TextGeneration(text: string)
    | StreamEnd(finishReason: Option<string>, billedUnits: Option<BilledUnits>)
    | OtherEvent(kind: string)

  const BilledUnitsNotFound := Error(NoStatus, "Billed units not found")

  /** The chunks one event yields and the current id, or the error it
      throws. */
  function Step(model: string, now: int, id: string, e: CohereEvent): Result<(string, seq<Chunk>), Error> {
    match e
    case StreamStart(g) => Success((g, [Chunk(g, now, model, [ChunkChoice(0, Delta(false, Some(""), None), None)], None)]))
    case TextGeneration(t) => Success((id, [Chunk(id, now, model, [ChunkChoice(0, Delta(false, Some(t), None), None)], None)]))
    case StreamEnd(reason, billed) =>
      if !Billed(billed) then Failure(BilledUnitsNotFound)
      else Success((id, [Chunk(id, now, model, [ChunkChoice(0, Delta(false, Some(""), None), Some(FinishOf(reason)))], Some(BilledUsage(billed)))]))
    case OtherEvent(_) => Success((id, []))
  }

  /** The outcome of the stream loop over `events` with current id `id`. */
  function Translate(model: string, now: int, id: string, events: seq<CohereEvent>): Outcome
    decreases |events|
  {
    if |events| == 0 then Outcome([], None)
    else
      match Step(model, now, id, events[0])
      case Failure(e) => Outcome([], Some(e))
      case Success((next, out)) => Prepend(out, Translate(model, now, next, events[1..]))
  }

  /** `stream`: the request, then the loop over the events, starting from
      a `chatcmpl-` UUID as id. */
  method Stream(req: ChatRequest, uuid: string, now: int, events: seq<CohereEvent>) returns (o: Outcome)
    ensures ParseRequest(req).Failure? ==> o == Outcome([], Some(ParseRequest(req).error))
    ensures ParseRequest(req).Success? ==> o == Translate(req.model, now, "chatcmpl-" + uuid, events)
  {
    var parsed := ParseRequest(req);
    if parsed.Failure? {
      return Outcome([], Some(parsed.error));
    }
    o := StreamEvents(req.model, now, "chatcmpl-" + uuid, events);
  }

  /** One step of `Translate` at position `i` of `events`. */
  lemma {:induction false} Unfold(model: string, now: int, id: string, events: seq<CohereEvent>, i: nat)
    requires i < |events|
    ensures var step := Step(model, now, id, events[i]);
      Translate(model, now, id, events[i..])
        == if step.Failure? then Outcome([], Some(step.error))
           else Prepend(step.value.1, Translate(model, now, step.value.0, events[i + 1..]))
  {
    assert events[i..][1..] == events[i + 1..];
  }

  /** The `for await` loop of `stream`, which reassigns `id` on
      `stream-start`. */
  method StreamEvents(model: string, now: int, initialId: string, events: seq<CohereEvent>) returns (o: Outcome)
    ensures o == Translate(model, now, initialId, events)
  {
    var id := initialId;
    var chunks: seq<Chunk> := [];
    var i := 0;
    while i < |events|
      invariant 0 <= i <= |events|
      invariant Translate(model, now, initialId, events) == Prepend(chunks, Translate(model, now, id, events[i..]))
    {
      Unfold(model, now, id, events, i);
      var step := Step(model, now, id, events[i]);
      if step.Failure? {
        return Outcome(chunks, Some(step.error));
      }
      var (next, out) := step.value;
      PrependTwice(chunks, out, Translate(model, now, next, events[i + 1..]));
      id, chunks := next, chunks + out;
      i := i + 1;
    }
    assert events[i..] == [];
    return Outcome(chunks, None);
  }

  /** The text the events carry: the `text-generation` texts, joined. */
  function GeneratedText(events: seq<CohereEvent>): string
    decreases |events|
  {
    if |events| == 0 then ""
    else (if events[0].TextGeneration? then events[0].text else "") + GeneratedText(events[1..])
  }

  /** A client joining the chunk texts of a stream that completes reads
      exactly the generated text. */
  lemma {:induction false} TranslateText(model: string, now: int, id: string, events: seq<CohereEvent>)
    ensures var o := Translate(model, now, id, events);
      o.failure.None? ==> StreamedText(o.chunks) == GeneratedText(events)
    decreases |events|
  {
    if |events| > 0 {
      match Step(model, now, id, events[0]) {
        case Failure(_) =>
        case Success((next, out)) =>
          TranslateText(model, now, next, events[1..]);
          var rest := Translate(model, now, next, events[1..]);
          StreamedTextAppend(out, rest.chunks);
          if out != [] {
            assert StreamedText(out) == ChunkText(out[0]) + StreamedText([]);
          }
      }
    }
  }

  /** Every chunk has one choice at index 0; a chunk carries usage exactly
      when it carries a finish reason (the `stream-end` chunk, whatever
      `include_usage` says), and that usage totals two non-zero counts. */
  predicate ChunkRule(c: Chunk) {
    && |c.choices| == 1 && c.choices[0].index == 0
    && (c.usage.Some? <==> c.choices[0].finishReason.Some?)
    && (c.usage.Some? ==>
          && c.usage.value.promptTokens != 0 && c.usage.value.completionTokens != 0
          && c.usage.value.totalTokens == c.usage.value.promptTokens + c.usage.value.completionTokens)
  }

  /** Every chunk keeps `ChunkRule`, and its id is the starting id or the
      `generationId` of a `stream-start` event of the stream. */
  lemma {:induction false} TranslateChunks(model: string, now: int, id: string, events: seq<CohereEvent>)
    ensures forall c :: c in Translate(model, now, id, events).chunks ==> ChunkRule(c)
    ensures forall c :: c in Translate(model, now, id, events).chunks ==> c.id == id || StreamStart(c.id) in events
    decreases |events|
  {
    if |events| > 0 {
      match Step(model, now, id, events[0]) {
        case Failure(_) =>
        case Success((next, out)) =>
          TranslateChunks(model, now, next, events[1..]);
          var rest := Translate(model, now, next, events[1..]);
          var all := Translate(model, now, id, events).chunks;
          assert all == out + rest.chunks;
          assert next == id || events[0] == StreamStart(next);
          assert forall c :: c in out ==> ChunkRule(c) && (c.id == id || events[0] == StreamStart(c.id));
          forall c | c in rest.chunks ensures c.id == id || StreamStart(c.id) in events {
            if StreamStart(c.id) in events[1..] {
              assert events == [events[0]] + events[1..];
            }
          }
      }
    }
  }

  /** The id the loop holds after `events`, having held `id` before them. */
  function IdAfter(id: string, events: seq<CohereEvent>): string
    decreases |events|
  {
    if |events| == 0 then id
    else IdAfter(if events[0].StreamStart? then events[0].generationId else id, events[1..])
  }

  /** Events without a `stream-start` leave the id as it was. */
  lemma {:induction false} IdAfterNoStart(id: string, events: seq<CohereEvent>)
    requires forall l :: 0 <= l < |events| ==> !events[l].StreamStart?
    ensures IdAfter(id, events) == id
    decreases |events|
  {
    if |events| > 0 {
      assert forall l :: 0 <= l < |events[1..]| ==> events[1..][l] == events[l + 1];
      IdAfterNoStart(id, events[1..]);
    }
  }

  /** After the events the id is the `generationId` of the latest
      `stream-start`. */
  lemma {:induction false} IdAfterLatest(id: string, events: seq<CohereEvent>, j: nat)
    requires j < |events| && events[j].StreamStart?
    requires forall l :: j < l < |events| ==> !events[l].StreamStart?
    ensures IdAfter(id, events) == events[j].generationId
    decreases |events|
  {
    var next := if events[0].StreamStart? then events[0].generationId else id;
    assert forall l :: 0 <= l < |events[1..]| ==> events[1..][l] == events[l + 1];
    if j == 0 {
      IdAfterNoStart(next, events[1..]);
    } else {
      IdAfterLatest(next, events[1..], j - 1);
    }
  }

  /** Translating `a + b` translates `a`; when that does not throw, `b`
      follows with the id `a` leaves behind. */
  lemma {:induction false} TranslateAppend(model: string, now: int, id: string, a: seq<CohereEvent>, b: seq<CohereEvent>)
    ensures var oa := Translate(model, now, id, a);
      oa.failure.Some? ==> Translate(model, now, id, a + b) == oa
    ensures var oa := Translate(model, now, id, a);
      oa.failure.None? ==> Translate(model, now, id, a + b) == Prepend(oa.chunks, Translate(model, now, IdAfter(id, a), b))
    decreases |a|
  {
    if |a| == 0 {
      assert a + b == b;
      var ob := Translate(model, now, id, b);
      assert [] + ob.chunks == ob.chunks;
    } else {
      assert (a + b)[0] == a[0];
      assert (a + b)[1..] == a[1..] + b;
      match Step(model, now, id, a[0]) {
        case Failure(_) =>
        case Success((next, out)) =>
          TranslateAppend(model, now, next, a[1..], b);
          var rest := Translate(model, now, next, a[1..]);
          if rest.failure.None? {
            PrependTwice(out, rest.chunks, Translate(model, now, IdAfter(next, a[1..]), b));
          }
      }
    }
  }

  /** What event `k` does once the events before it have been translated
      without a throw: the one chunk it adds under the id held at that
      point (a `stream-start` first switching to its own id), or the error
      it throws. */
  lemma {:induction false} EventChunks(model: string, now: int, id: string, events: seq<CohereEvent>, k: nat)
    requires k < |events|
    requires Translate(model, now, id, events[..k]).failure.None?
    ensures var before := Translate(model, now, id, events[..k]).chunks;
      var after := Translate(model, now, id, events[..k + 1]);
      var held := IdAfter(id, events[..k]);
      var e := events[k];
      && (e.StreamStart? ==>
            after == Outcome(before + [Chunk(e.generationId, now, model, [ChunkChoice(0, Delta(false, Some(""), None), None)], None)], None))
      && (e.TextGeneration? ==>
            after == Outcome(before + [Chunk(held, now, model, [ChunkChoice(0, Delta(false, Some(e.text), None), None)], None)], None))
      && (e.StreamEnd? && !Billed(e.billedUnits) ==> after == Outcome(before, Some(BilledUnitsNotFound)))
      && (e.StreamEnd? && Billed(e.billedUnits) ==>
            after == Outcome(before + [Chunk(held, now, model, [ChunkChoice(0, Delta(false, Some(""), None), Some(FinishOf(e.finishReason)))],
                                             Some(BilledUsage(e.billedUnits)))], None))
      && (e.OtherEvent? ==> after == Outcome(before, None))
  {
    assert events[..k + 1] == events[..k] + [events[k]];
    TranslateAppend(model, now, id, events[..k], [events[k]]);
    var before := Translate(model, now, id, events[..k]).chunks;
    var held := IdAfter(id, events[..k]);
    assert [events[k]][1..] == [];
    match Step(model, now, held, events[k]) {
      case Failure(_) =>
        assert before + [] == before;
      case Success((_, out)) =>
    }
  }

  /** A `stream-end` whose billed counts are missing or zero makes the
      stream throw `Billed units not found` right after the chunks of the
      events before it, whatever follows. */
  lemma {:induction false} EndWithoutBilling(model: string, now: int, id: string, events: seq<CohereEvent>, k: nat)
    requires k < |events| && events[k].StreamEnd? && !Billed(events[k].billedUnits)
    requires Translate(model, now, id, events[..k]).failure.None?
    ensures Translate(model, now, id, events) == Outcome(Translate(model, now, id, events[..k]).chunks, Some(BilledUnitsNotFound))
  {
    EventChunks(model, now, id, events, k);
    TranslateAppend(model, now, id, events[..k + 1], events[k + 1..]);
    assert events[..k + 1] + events[k + 1..] == events;
  }

  /** A billed `stream-end` yields its one chunk, whatever `include_usage`
      says: after the chunks of the events before it, under the
      `generationId` of the latest `stream-start`, with the mapped finish
      reason and the billed usage. */
  lemma {:induction false} StreamEndChunk(model: string, now: int, id: string, events: seq<CohereEvent>, j: nat, k: nat)
    requires j < k < |events| && events[j].StreamStart? && events[k].StreamEnd? && Billed(events[k].billedUnits)
    requires forall l :: j < l < k ==> !events[l].StreamStart?
    requires Translate(model, now, id, events[..k]).failure.None?
    ensures var o := Translate(model, now, id, events);
      var n := |Translate(model, now, id, events[..k]).chunks|;
      var e := events[k];
      n < |o.chunks| &&
      o.chunks[n] == Chunk(events[j].generationId, now, model,
                           [ChunkChoice(0, Delta(false, Some(""), None), Some(FinishOf(e.finishReason)))],
                           Some(BilledUsage(e.billedUnits)))
  {
    var prefix := events[..k];
    assert forall l :: 0 <= l < |prefix| ==> prefix[l] == events[l];
    IdAfterLatest(id, prefix, j);
    EventChunks(model, now, id, events, k);
    TranslateAppend(model, now, id, events[..k + 1], events[k + 1..]);
    assert events[..k + 1] + events[k + 1..] == events;
  }

  // ---------------------------------------------------------------- descriptor

  /** The `cohere` adapter. */
  const Descriptor: Adapter :=
    Adapter("cohere", ["COHERE_API_KEY"],
            [ "command-r", "command-r-plus", "command-nightly", "command-light-nightly", "command",
              "command-r-08-2024", "command-r-plus-08-2024", "command-light" ])
}
