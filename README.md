# openai-api-proxy, modelled in Dafny

openai-api-proxy is a gateway that offers one OpenAI-style chat-completions
API and forwards each request to one of several vendor back ends:
OpenAI, Anthropic and Anthropic on Vertex, Google Gemini, Cohere, Azure
OpenAI, Ollama, Groq, Cerebras, OpenRouter, Bailian, DeepSeek, Moonshot,
Grok and Lingyiwanwu. Each back end is an *adapter*. An adapter has a
name, the environment variables it needs (`requiredEnv`), the model ids
it serves (`supportModels`), and `invoke` and `stream` operations. Those
operations translate the request into the vendor's format. They translate
the vendor's reply, or its stream of events, back into
`chat.completion` objects and `chat.completion.chunk` sequences.

The model covers these parts:

* the request and reply contract shared by all adapters (`contract.dfy`);
* the translation layer of the four vendors that need one: Anthropic
  (`anthropic.dfy`), OpenAI, both pass-through and Responses API
  (`openai.dfy`), Google (`google.dfy`) and Cohere (`cohere.dfy`);
* the adapters that only configure the OpenAI pass-through
  (`providers.dfy`). This covers Azure's `model:deployment` list, Ollama's
  model list, the `/`-stripping `pre` hooks, the Groq and Cerebras alias
  maps that rewrite the shared request object in place, and the
  comma-separated model lists of OpenRouter and Bailian;
* the adapter registry with its dispatch and listing rules
  (`registry.dfy`);
* the three HTTP front ends: the root app in `src/index.ts`
  (`gateway.dfy`), the OpenAI-style router (`openai_router.dfy`) and the
  Ollama-style router (`ollama_router.dfy`).

Three support modules hold JavaScript library semantics that the
translations depend on. `jsstring.dfy` covers `split`, `trim`,
`startsWith` and lodash `toString` of a number. `base64.dfy` covers
`btoa` and base64 as in section 4 of RFC 4648. `wrappers.dfy` covers
`Option`, `Result`, `map`-with-throw and `filter`.

A stream is modelled as an `Outcome`: the chunks yielded, plus the error
thrown after them, if any. Each streaming adapter has three parts:

* a step function for one vendor event;
* a recursive `Translate` fold over the event sequence;
* a method with the source's `for await` loop. Its invariant ties the
  chunks yielded so far to the fold.

Lemmas about the folds state what a client receives. For example, the
concatenated deltas equal the vendor's text, and each stream obeys its
own rules for finish reasons and usage chunks.

## Model

| member | source | states |
|---|---|---|
| Wrappers.MapAll | src/llm/anthropic.ts:71-107 | mapping with a throwing callback succeeds iff every element converts; results are in input order; a failure is the first failing element's error |
| Wrappers.Filter | src/api/common.ts:34 | `filter` keeps exactly the elements satisfying the predicate |
| Wrappers.FilterCounts | src/api/common.ts:34 | `filter` keeps every occurrence of a value that passes and no occurrence of one that fails |
| Wrappers.FilterIsSubsequence | src/api/common.ts:34 | `filter` keeps the input order (its result is a subsequence) |
| JsString.Split | src/llm/anthropic.ts:53-54 | `split` on one character yields at least one part, no part holds the separator, and there are two or more parts iff the separator occurs |
| JsString.JoinSplit | src/llm/azure.ts:24 | joining the parts of a split with the separator gives back the string |
| JsString.SplitJoin | src/llm/azure.ts:24 | splitting a join of separator-free parts gives back the parts |
| JsString.SplitAtFirst | src/llm/anthropic.ts:53 | the first part of a split ends at the first separator |
| JsString.Trim | src/llm/openrouter.ts:15 | `trim` removes exactly the leading and trailing white space and leaves a substring |
| JsString.TrimIdempotent | src/llm/bailian.ts:15 | trimming twice is trimming once |
| JsString.Decimal | src/llm/google.ts:107 | `toString` of a counter is a non-empty digit string that denotes the counter, has no leading zero, and is one digit iff the counter is below 10 |
| JsString.DecimalInjective | src/llm/google.ts:107 | different counters give different strings, so tool-call ids are distinct |
| Base64.Encode | src/llm/anthropic.ts:44 | the encoding has length 4 * ceil(n / 3) over the base64 alphabet and `=` |
| Base64.DecodeEncode | src/llm/anthropic.ts:38-45 | decoding the encoding of any byte string gives the bytes back |
| Base64.Latin1 | src/llm/anthropic.ts:41-43 | `String.fromCharCode` per byte gives one character per byte with the byte's code |
| Base64.Btoa | src/llm/anthropic.ts:44 | `btoa` succeeds iff every character code is below 256 |
| Base64.BtoaLatin1 | src/llm/anthropic.ts:41-44 | `btoa` of the byte-wise string is the base64 encoding of the bytes |
| Contract.FirstSystem | src/llm/anthropic.ts:126 | `find` returns the first system message, or none when there is none |
| Anthropic.ConvertToolChoice | src/llm/anthropic.ts:13-36 | no Anthropic tool choice iff the option is missing or `'none'` |
| Anthropic.ConvertToolChoiceOrigin | src/llm/anthropic.ts:13-36 | `auto` maps to `auto`, `required` to `any` and a named function to that tool; nothing else is produced |
| Anthropic.DataUrlHeader | src/llm/anthropic.ts:53-54 | the header of a `data:` URL always has a part after `:`, so reading the media type never fails |
| Anthropic.DataUrlSource | src/llm/anthropic.ts:52-55 | a `data:` URL's data is present iff the URL has a comma, and it holds no comma |
| Anthropic.DataUrlRoundTrip | src/llm/anthropic.ts:52-55 | `data:<type>;base64,<data>` gives back exactly `<type>` and `<data>` |
| Anthropic.ArrayBufferToBase64 | src/llm/anthropic.ts:38-45 | the loop and `btoa` give the base64 encoding of the buffer, which decodes back to the bytes |
| Anthropic.ImageSourceOf | src/llm/anthropic.ts:47-66 | `data:` URLs are split locally; any other URL fails iff the fetch fails, and its data decodes to the fetched body with a non-empty media type |
| Anthropic.ConvertPart | src/llm/anthropic.ts:84-103 | text to a text block, an image URL to an image block, and any other part to a 400 error naming its type |
| Anthropic.ConvertMessage | src/llm/anthropic.ts:72-106 | falsy content is a 400 `content is required`; string content is kept; parts convert one by one in order, keeping the role |
| Anthropic.ConvertMessages | src/llm/anthropic.ts:68-108 | succeeds iff every message converts; one result per message in order; a failure is some message's error |
| Anthropic.ModelMaxTokens | src/llm/anthropic.ts:110-115 | the default is 4096 exactly for models starting with `claude-3-`, and 8192 for every other model |
| Anthropic.ListedMaxTokens | src/llm/anthropic.ts:110-115 | of the listed Anthropic and Vertex models, the two Claude 4 models default to 8192 and the seven Claude 3 models to 4096 |
| Anthropic.StopSequences | src/llm/anthropic.ts:125 | a string stop becomes a one-element list and a list is kept |
| Anthropic.ParseRequest | src/llm/anthropic.ts:122-155 | only user and assistant messages are sent, in order; the first system content, model, stream flag, stop, temperature, user and tools are carried over; `max_tokens` defaults to 4096 for `claude-3-` models and to 8192 otherwise |
| Anthropic.ConversationIsSubsequence | src/llm/anthropic.ts:128-132 | the messages sent are a subsequence of the request's messages |
| Anthropic.ParseResponse | src/llm/anthropic.ts:156-193 | one choice per content block, each at index 0 with finish `stop`; text blocks carry content and tool-use blocks carry one tool call; usage total is input plus output |
| Anthropic.Invoke | src/llm/anthropic.ts:194-199 | fails exactly with the request translation's error, otherwise returns the translated reply |
| Anthropic.Stream | src/llm/anthropic.ts:200-259 | a request that fails to translate yields nothing and throws its error; otherwise the outcome is the fold of the events |
| Anthropic.TranslateEvents | src/llm/anthropic.ts:207-258 | the event loop computes exactly the fold of the events |
| Anthropic.Unfold | src/llm/anthropic.ts:209-258 | one loop iteration is one step: a throwing step ends the stream, otherwise its chunks come before the rest |
| Anthropic.TranslateText | src/llm/anthropic.ts:217-256 | a stream that does not throw has one chunk per text delta or message delta, and its text is the concatenated text deltas (the content of each chunk is stated by Anthropic.EventChunks) |
| Anthropic.TranslateFinishAndUsage | src/llm/anthropic.ts:234-256 | with `include_usage` no chunk carries a finish reason and the usage chunk has no choices and a balanced total; without it no chunk carries usage |
| Anthropic.DeltaBeforeStart | src/llm/anthropic.ts:211-216 | a delta before `message_start` throws the read-of-undefined error and yields nothing |
| Anthropic.StartAfterLatest | src/llm/anthropic.ts:208-218 | after a stream prefix, the loop holds the message of the latest `message_start` in it |
| Anthropic.TranslateAppend | src/llm/anthropic.ts:209-258 | a stream is its first part followed by its second part run from the message the first part leaves held; nothing follows a throw |
| Anthropic.EventChunks | src/llm/anthropic.ts:217-256 | after a prefix that does not throw, each event adds: nothing for `message_start` and other events; `Unsupported delta type` for a non-text delta; the read-of-undefined `id` error for a delta before any start; for a text delta one chunk with the held message's id and model, the event's index and its text; for `message_delta` the usage-only chunk with `include_usage` and the index-0 `stop` chunk without it |
| Anthropic.UsageChunkEnds | src/llm/anthropic.ts:234-244 | with `include_usage`, the stream through a `message_delta` ends with its usage chunk, after one chunk per earlier text or message delta |
| Anthropic.MessageDeltaUsage | src/llm/anthropic.ts:234-244 | with `include_usage`, the chunk of a `message_delta` in a whole stream has no choices, the latest start's id and model, prompt tokens from the start, completion tokens from the delta, and their sum as total |
| Anthropic.DescriptorModelsDistinct | src/llm/anthropic.ts:298-308 | the Anthropic model ids are pairwise distinct |
| OpenAi.SentRequest | src/llm/openai.ts:24-38 | the pass-through sends `pre(req)`, or `req` without a hook, with `stream` forced to the call's kind |
| OpenAi.PassThroughStream | src/llm/openai.ts:32-45 | the pass-through loop computes the abort-aware pass-through outcome |
| OpenAi.PassThroughPrefix | src/llm/openai.ts:39-44 | without abort every vendor chunk is forwarded unchanged; an abort first seen at chunk k forwards the first k chunks and throws `Aborted` |
| OpenAi.InputPartOf | src/llm/openai.ts:59-82 | text, image (detail defaulting to `auto`) and file parts map to Responses input parts; any other part throws `Unsupported content type` |
| OpenAi.InputMessageOf | src/llm/openai.ts:54-83 | a message keeps its role; string content is kept; parts convert one by one; missing content throws |
| OpenAi.ResponsesPre | src/llm/openai.ts:50-89 | the Responses request has one input per message in order, with model, temperature, top_p and max output tokens copied; it fails iff a message fails |
| OpenAi.ResponsesPreKeepsRoles | src/llm/openai.ts:54-55 | every input keeps its message's role |
| OpenAi.ResponsesCompletion | src/llm/openai.ts:97-113 | the completion copies id, creation time, model and `output_text` into one `stop` choice, with no usage |
| OpenAi.ResponsesInvoke | src/llm/openai.ts:94-114 | fails exactly with the request translation's error, otherwise returns the translated response |
| OpenAi.ResponsesStream | src/llm/openai.ts:115-188 | a request that fails to translate throws before any chunk; otherwise the outcome is the abort-aware fold of the events |
| OpenAi.ResponsesEvents | src/llm/openai.ts:121-187 | the event loop computes exactly the fold of the events |
| OpenAi.ResponsesUnfold | src/llm/openai.ts:122-187 | one loop iteration without abort is one step of the fold |
| OpenAi.ResponsesChoiceIndices | src/llm/openai.ts:126-183 | every chunk has one choice; without a throw there is one chunk per created, delta or completed event, with the event's sequence number as choice index |
| OpenAi.ResponseAfterLatest | src/llm/openai.ts:121-127 | after a stream prefix, the loop holds the response of the latest `response.created` in it |
| OpenAi.ResponsesAppend | src/llm/openai.ts:122-187 | a stream is its first part followed by its second part run from the response the first part leaves held, with sequence positions continuing; nothing follows a throw |
| OpenAi.ResponsesEventChunks | src/llm/openai.ts:123-186 | after a prefix that does not throw, each event adds: `Aborted` at the abort position; for `response.created` one chunk with its id, time, model, sequence number and `output_text`; for a delta before any created event the read-of-undefined `created_at` error, otherwise one chunk with the item id, the held response's time and model and the delta; for `response.completed` the read-of-undefined `input_tokens` error without usage, otherwise a `stop` chunk with the output text and the three usage counts; for `error` an error with the event's code as status and its message; nothing for other events |
| OpenAi.CompletedChunk | src/llm/openai.ts:162-183 | in a whole stream, the chunk of a `response.completed` with usage sits after the chunks of the events before it, with finish `stop`, the full `output_text` and the vendor's usage counts |
| OpenAi.ResponsesStreamedText | src/llm/openai.ts:126-183 | a client joining the chunk texts of a stream that does not throw reads every created and completed response's `output_text` and every delta, in event order |
| OpenAi.CompletedRepeatsText | src/llm/openai.ts:162-174 | for the stream created (empty text), one delta carrying the text, completed: the joined chunk texts are the text twice |
| OpenAi.RouteModel | src/llm/openai.ts:274-283 | a model goes to chat completions iff it is one of the older models, and to the Responses API otherwise |
| OpenAi.Invoke | src/llm/openai.ts:288 | old models return the chat-completions reply; other models go through the Responses translation |
| OpenAi.Stream | src/llm/openai.ts:289 | old models stream by pass-through; other models stream through the Responses translation |
| Google.ClientConfig | src/llm/google.ts:8-23 | a response format other than `json_schema` throws; otherwise the schema, model, temperature, top_p and max tokens are copied |
| Google.PartsTextOfTexts | src/llm/google.ts:30 | system text parts are joined with no separator |
| Google.SystemInstruction | src/llm/google.ts:25-31 | there is no instruction iff the first system content is falsy; a string is sent as is and parts are joined |
| Google.PartOf | src/llm/google.ts:60-81 | text to text; an image URL to file data typed `image/png`; a file to its data typed by its file name; anything else throws |
| Google.RoleOf | src/llm/google.ts:56 | only assistant messages get role `model`; every other role becomes `user` |
| Google.ContentOf | src/llm/google.ts:53-83 | string content is one text part; parts convert one by one in order; missing content throws |
| Google.ToolsOf | src/llm/google.ts:33-49 | no tools iff the request has none; otherwise one declaration tool holding all functions |
| Google.ParseRequest | src/llm/google.ts:24-86 | every message, the system one included, becomes one content in order, next to the system instruction and tools; it fails iff some message fails |
| Google.SystemSentTwice | src/llm/google.ts:25-59 | a system message is sent both as the system instruction and as a `user` content |
| Google.NumberedCalls | src/llm/google.ts:104-114 | function calls become tool calls with ids `"0"`, `"1"`, and so on, which are pairwise distinct, keeping name and arguments |
| Google.NumberCalls | src/llm/google.ts:91-114 | the counter loop computes the numbered tool calls |
| Google.ParseResponse | src/llm/google.ts:87-126 | one `stop` choice with the response text and numbered calls, and usage copied from `usageMetadata`; a missing `usageMetadata` throws |
| Google.Invoke | src/llm/google.ts:146-149 | the format check comes first, then request translation, then response translation |
| Google.Stream | src/llm/google.ts:150-203 | format and request errors throw before any chunk; otherwise the outcome is that of the vendor chunk loop |
| Google.StreamLoop | src/llm/google.ts:161-202 | the loop yields one chunk per vendor chunk and then the terminal chunk |
| Google.VendorChunksText | src/llm/google.ts:161-176 | the streamed text is the concatenated vendor texts |
| Google.StreamShape | src/llm/google.ts:161-202 | an empty stream throws `No response from google`; otherwise chunk k is vendor chunk k's translation and one terminal chunk follows, all with one id; with `include_usage` the terminal chunk has no choices and the three counts of the last vendor chunk's `usageMetadata`, which throws when missing; without it the terminal chunk is the index-0 `stop` chunk |
| Cohere.CohereRoleOf | src/llm/cohere.ts:6-20 | user, assistant, system and tool map to their Cohere roles; any other role throws `Unsupported role` |
| Cohere.FinishOf | src/llm/cohere.ts:22-42 | `MAX_TOKENS` maps to `length`, `ERROR_TOXIC` to `content_filter`, and every other reason to `stop` |
| Cohere.HistoryEntry | src/llm/cohere.ts:53-59 | a history entry has the mapped role and the message content |
| Cohere.ParseRequest | src/llm/cohere.ts:50-64 | all messages but the last form the history in order, and the last is the message; only history roles are checked |
| Cohere.LastRoleUnchecked | src/llm/cohere.ts:53-60 | the last message's role is never checked |
| Cohere.BilledUsage | src/llm/cohere.ts:88-93 | usage is the billed input and output tokens and their sum |
| Cohere.ParseResponse | src/llm/cohere.ts:66-96 | id is the generation id or a fresh `chatcmpl-` id; one choice with the mapped finish reason; usage iff both billed counts are truthy |
| Cohere.Invoke | src/llm/cohere.ts:111-115 | fails exactly with the request translation's error, otherwise returns the translated reply |
| Cohere.Stream | src/llm/cohere.ts:116-168 | a request error throws before any chunk; otherwise the outcome is the fold of the events, starting from a `chatcmpl-` id |
| Cohere.StreamEvents | src/llm/cohere.ts:129-167 | the event loop computes exactly the fold of the events |
| Cohere.Unfold | src/llm/cohere.ts:129-167 | one loop iteration is one step of the fold |
| Cohere.TranslateText | src/llm/cohere.ts:136-146 | the streamed text is the concatenated generated text |
| Cohere.TranslateChunks | src/llm/cohere.ts:129-167 | every chunk has one choice at index 0, and it carries usage iff it carries a finish reason, with non-zero counts and a balanced total; its id is the initial id or a `stream-start` generation id |
| Cohere.IdAfterLatest | src/llm/cohere.ts:121-131 | after a stream prefix, the id in use is the `generationId` of the latest `stream-start` in it |
| Cohere.TranslateAppend | src/llm/cohere.ts:129-167 | a stream is its first part followed by its second part run under the id the first part leaves in use; nothing follows a throw |
| Cohere.EventChunks | src/llm/cohere.ts:130-166 | after a prefix that does not throw, each event adds: for `stream-start` an empty-text chunk under its `generationId`; for `text-generation` a chunk with its text under the id in use; for an unbilled `stream-end` the `Billed units not found` error; for a billed one a chunk with the mapped finish reason and billed usage; nothing for other events |
| Cohere.StreamEndChunk | src/llm/cohere.ts:147-165 | in a whole stream, the chunk of a billed `stream-end` sits after the chunks of the events before it, under the latest `stream-start`'s `generationId`, with the mapped finish reason and the billed usage, whatever `include_usage` says |
| Cohere.EndWithoutBilling | src/llm/cohere.ts:147-150 | a `stream-end` without billed units, anywhere after a prefix that does not throw, ends the stream with the prefix's chunks and `Billed units not found`, whatever follows |
| Providers.SlashPre | src/llm/azure.ts:16-20 | the Azure and Ollama hook sends the second `/`-segment of the model with `stream` off and nothing else changed; there is no model iff the id has no `/` |
| Providers.SlashPrePrefix | src/llm/ollama.ts:12-16 | a `prefix/model` id is sent as `model` |
| Providers.EnvList | src/llm/openrouter.ts:15-21 | an unset variable gives the defaults; a set one gives its comma-separated entries, each trimmed |
| Providers.EnvListTrimmed | src/llm/bailian.ts:15 | every listed entry is already trimmed |
| Providers.EnvListRoundTrip | src/llm/openrouter.ts:15 | a variable holding trimmed, comma-free ids joined by commas lists exactly those ids |
| Providers.EnvListOfSplit | src/llm/bailian.ts:15 | a variable whose split parts are trimmed lists exactly those parts |
| Providers.AzureEntries | src/llm/azure.ts:24 | the entries are never empty; an unset variable gives one empty entry |
| Providers.EntryModel | src/llm/azure.ts:25-30 | an entry's model is the text before its first `:`, or the whole entry |
| Providers.AzureModelIds | src/llm/azure.ts:24-31 | one `azure/<model>` id per entry, in order |
| Providers.AzureSupportModels | src/llm/azure.ts:24-31 | the loop computes the ids and the model-to-deployment map |
| Providers.DeploymentKeys | src/llm/azure.ts:25-28 | the map has a key iff some entry with `:` names that model |
| Providers.DeploymentLastWins | src/llm/azure.ts:26-27 | a model's deployment is the one given by its last `model:deployment` entry |
| Providers.AzureUnset | src/llm/azure.ts:24 | an unset model list lists just `azure/` and maps no deployment |
| Providers.AzureRoute | src/llm/azure.ts:8-20 | a listed Azure id reaches the vendor as its model name, which has a deployment when its entry named one |
| Providers.OllamaModels | src/llm/ollama.ts:20-22 | one `ollama/<entry>` id per comma-separated entry; unset, just `ollama/` |
| Providers.OllamaRoundTrip | src/llm/ollama.ts:12-22 | a listed Ollama id reaches the vendor as its entry |
| Providers.Keys | src/llm/groq.ts:33 | `Object.keys` lists the alias names in order |
| Providers.AliasOf | src/llm/groq.ts:27 | a lookup succeeds iff the model is an alias name, and then gives that alias's target |
| Providers.AliasPre | src/llm/groq.ts:26-29 | the hook rewrites the model of the shared request object in place, leaves every other field as it was, and returns the same object |
| Providers.AliasDropsPrefix | src/llm/groq.ts:6-19 | when every alias is `prefix + target`, the rewritten model is the id without the prefix |
| Providers.GroqPreDropsPrefix | src/llm/groq.ts:6-29 | every listed Groq model reaches the vendor without its `groq/` prefix |
| Providers.CerebrasTargets | src/llm/cerebras.ts:5-18 | the two Cerebras ids map to `llama-3-70b` and `llama-3-8b` |
| Registry.Registered | src/api/common.ts:17-33 | fifteen adapters are registered |
| Registry.RegisteredNamesFixed | src/api/common.ts:18-33 | their names are fixed and in registration order, whatever the environment |
| Registry.RequiredEnvFixed | src/api/common.ts:18-34 | their required variables are fixed, and each adapter needs at least one |
| Registry.GetModels | src/api/common.ts:17-35 | the active adapters are exactly the registered ones whose variables are all set, in registration order |
| Registry.GetModelsMonotone | src/api/common.ts:34 | setting more variables never deactivates an adapter or reorders the active ones |
| Registry.GetModelsEmpty | src/api/common.ts:34 | an environment that sets no required variable activates no adapter |
| Registry.Find | src/api/openai/index.ts:38 | `find` returns the first adapter supporting the model, or none iff none supports it |
| Registry.Dispatch | src/api/openai/index.ts:37-41 | a model is rejected with 400 `Model <id> not supported` iff no active adapter supports it; otherwise an active supporting adapter serves it |
| Registry.DispatchedAliasResolves | src/api/openai/index.ts:38-41 | a model dispatched to Groq or Cerebras always has an alias target |
| Registry.ApiKey | src/index.ts:42-44 | a key is configured iff `API_KEY` is set and non-empty |
| Registry.BearerCarriesKey | src/index.ts:41-49 | the only accepted header is `Bearer ` followed by the configured key |
| Registry.AllModels | src/index.ts:79 | the listed models are exactly the models of the active adapters |
| Registry.AllModelsAppend | src/index.ts:79 | the `flatMap` of two adapter lists one after the other is the two `flatMap`s one after the other |
| Registry.AllModelsAt | src/index.ts:79 | the models of adapter k appear whole, repeats included, after those of the adapters before it and before those after it |
| Registry.ListedIffDispatched | src/index.ts:62-79 | a model is listed iff the chat route dispatches it |
| Registry.Entries | src/index.ts:82-90 | one model entry per id, in order, with the given owner and time |
| Registry.Uniq | src/index.ts:79 | lodash `uniq` keeps each value once, loses none, and orders the values by where each first occurs in the input |
| Registry.UniqIsSubsequence | src/index.ts:79 | the result of `uniq` is a subsequence of its input |
| Registry.UniqOfDistinct | src/index.ts:79 | `uniq` of a duplicate-free list is the list |
| Gateway.GetModels | src/index.ts:17-25 | the root app activates, in order, those of its five adapters whose variables are set |
| Gateway.ThrownStatus | src/index.ts:50-57 | an error is re-thrown with its own status, or with 500 when it has none |
| Gateway.ModelIds | src/index.ts:79 | the listing has no duplicates, is a subsequence of the adapters' models, and holds exactly the dispatchable models |
| Gateway.ModelIdsOrder | src/index.ts:79 | the listing holds every model of an active adapter, ordered by where each first occurs among the adapters' models |
| Gateway.Handle | src/index.ts:41-92 | an unauthorized request gets 401; chat completions dispatch, stream or invoke; the model list is the unique ids owned by `system` |
| Gateway.EntriesHold | src/index.ts:82-90 | a page built from a list of ids has an entry for a model exactly when the model is in the list |
| Gateway.ListedIffServed | src/index.ts:58-92 | a model is on the list page iff the chat route does not reject it as unsupported |
| Gateway.OnlyApiKeyListsNothing | src/index.ts:78-92 | with only `API_KEY` set, the list is empty |
| Gateway.AnthropicKeyActivatesAnthropic | src/index.ts:17-25 | with the Anthropic key set, exactly the Anthropic adapter is active |
| Gateway.PageIds | src/index.ts:79-91 | the page ids are the unique model ids in order |
| Gateway.AnthropicKeyListsAnthropic | src/index.ts:78-92 | with the Anthropic key set, the page lists exactly the Anthropic models |
| OpenAiRouter.Frames | src/api/openai/index.ts:44-60 | one event per chunk, then one `{error}` event iff the stream threw; nothing follows the error |
| OpenAiRouter.FramesRoundTrip | src/api/openai/index.ts:48-59 | a client reading the events recovers the chunks and the error message |
| OpenAiRouter.ModelEntries | src/api/openai/index.ts:65-80 | one entry per model of each active adapter, in order, without removing duplicates |
| OpenAiRouter.ModelEntriesAppend | src/api/openai/index.ts:68-76 | the entries of two adapter lists one after the other are the two entry lists one after the other |
| OpenAiRouter.ModelEntriesSplit | src/api/openai/index.ts:68-76 | the entries of adapter k come whole, between those of the adapters before and after it |
| OpenAiRouter.ModelEntriesAt | src/api/openai/index.ts:68-76 | model j of adapter k is the entry at the number of models before adapter k plus j, owned by adapter k's name |
| OpenAiRouter.EntriesOwnedBySupporter | src/api/openai/index.ts:68-76 | every entry is owned by an active adapter that supports its model |
| OpenAiRouter.FirstEntryOwnedByDispatched | src/api/openai/index.ts:37-80 | the first entry of a dispatchable model is owned by the adapter that dispatch picks |
| OpenAiRouter.Handle | src/api/openai/index.ts:14-80 | preflight always answers ok; otherwise an unauthorized request gets 401, chat dispatches, and models lists per-adapter entries |
| OpenAiRouter.EntryIffDispatched | src/api/openai/index.ts:33-80 | a model has an entry iff dispatch serves it |
| OpenAiRouter.ListingAgreesWithDispatch | src/api/openai/index.ts:33-80 | a model is on the page iff the chat route does not reject it as unsupported |
| OpenAiRouter.PreflightIgnoresKey | src/api/openai/index.ts:15-17 | the preflight reply does not depend on the key or the header |
| OllamaRouter.PathAuthorizedIsKey | src/api/ollama/index.ts:12-23 | the path segment is accepted iff it equals the non-empty `API_KEY` |
| OllamaRouter.ConvertChunk | src/api/ollama/index.ts:89-103 | a chunk with choices gives its model, time, first delta, finish reason, `done` iff `stop`, and the token counts; a chunk without choices throws |
| OllamaRouter.ConvertCompletion | src/api/ollama/index.ts:105-119 | a completion gives its model, time in milliseconds, first message, finish reason, `done` iff `stop`, and the token counts; no choices throws |
| OllamaRouter.ChunkAndCompletionAgree | src/api/ollama/index.ts:89-119 | a chunk and a completion with the same data convert alike except the time: the chunk's seconds are used as milliseconds |
| OllamaRouter.Frames | src/api/ollama/index.ts:53-70 | the stream holds lines, with at most one final error frame |
| OllamaRouter.FramesOfChoiceChunks | src/api/ollama/index.ts:57-59 | when every chunk has choices, there is one line per chunk and then the error frame iff the stream threw |
| OllamaRouter.ChoicelessChunkEndsStream | src/api/ollama/index.ts:57-69 | the first chunk without choices, such as a usage-only chunk, ends the stream with an error frame |
| OllamaRouter.TagList | src/api/ollama/index.ts:75-87 | one tag per model of each active adapter, in order |
| OllamaRouter.TagIffDispatched | src/api/ollama/index.ts:45-87 | a model has a tag iff dispatch serves it |
| OllamaRouter.Handle | src/api/ollama/index.ts:7-87 | a wrong path key gets 401; health answers `Ollama is running`; chat dispatches and converts; tags lists the models |
| OllamaRouter.WrongKeyUnauthorized | src/api/ollama/index.ts:12-23 | any path key other than the configured one gets 401 on every route |
| OllamaRouter.OnlyApiKeyListsNoTags | src/api/ollama/index.ts:75-87 | with only `API_KEY` set, there are no tags |

## Behaviour worth knowing

* Missing usage does not raise an error of its own.
  - Google throws a read-of-undefined error.
  - Cohere's non-streaming reply leaves usage out when a billed count is
    falsy.
  - The Responses API reply never carries usage.
* With `include_usage`, the Anthropic and Google streams emit the
  usage-only chunk in place of the `stop` chunk; no chunk carries a finish
  reason.
* Cohere sends usage on its finish chunk whatever `include_usage` says.
* Google and the Responses API copy the vendor's total instead of summing
  the counts.
* The Responses `completed` chunk repeats the whole output text.
* An abort in the OpenAI pass-through and Responses loops throws
  `Aborted`, which the routers forward as an error event.
* Cohere rejects the `function` and `developer` roles, but only in the
  history. The last message's role is never checked.
* The Ollama router converts a chunk's `created`, which is in seconds, as
  if it were milliseconds. It converts a completion's `created` correctly.

## Left out

- Vendor SDK and network calls are left out. Each vendor's reply, event
  sequence or chunk sequence is an input of the member that translates it.
- `fetch` of an image URL is a `fetch` parameter returning the body bytes
  and `content-type`. `mime.getType` is a `mimeOf` parameter.
- `Date.now` and `crypto.randomUUID` are parameters. A stream takes one
  `now` for all its chunks, while the source reads the clock per chunk.
- `new Date(...).toISOString()` is left out. The Ollama reply keeps the
  millisecond number that the source formats.
- The abort signal is an optional index: the position of the first event
  at which the loop sees the signal set. For Anthropic and Cohere the
  signal closes the vendor connection, which shows only as a shorter event
  sequence.
- Anthropic.ConvertMessages: when several messages fail, it reports the
  first in message order. `Promise.all` rejects with whichever fetch fails
  first in time.
- JSON schemas, tool parameters and tool arguments are opaque values.
  The model never inspects them.
- HTTP plumbing is left out: Hono routing, headers, CORS, JSON and SSE
  byte framing, and `serializeError`. Replies are datatypes, and stream
  events are frames holding chunks or error messages.
- Vertex and Google service-account authentication is left out. The
  `claude/web` client is not part of this model.
- `base.ts` appears only as the shape of an adapter (name, required
  variables, model ids). DeepSeek, Moonshot, Grok, Lingyiwanwu and the
  OpenRouter and Bailian defaults are constant data.
- TypeScript casts that let extra fields through are left out, such as
  `it as MessageParam` for string content. Only the fields the model
  names are carried.
- Providers.AliasPre: requires that the model is an alias name. In the
  source, any other model would make the hook set `model` to `undefined`.
  That path is unreachable because the routers only dispatch listed models
  (Registry.DispatchedAliasResolves).
- Providers.SlashPre: an id without `/` is `None` rather than a request
  with an undefined model. The vendor's reaction to that request is
  outside the model.
- Anthropic.TranslateText and Anthropic.TranslateFinishAndUsage: state
  counts, text and the finish and usage rules over the whole stream, not
  the content of each chunk; that content is stated event by event by
  Anthropic.EventChunks and Anthropic.MessageDeltaUsage.
- Cohere.TranslateChunks: states the shape rules every chunk obeys, not
  which chunk each event adds; that is stated by Cohere.EventChunks and
  Cohere.StreamEndChunk.
- OpenAi.CompletedRepeatsText: is stated for one three-event stream; the
  general statements are OpenAi.ResponsesStreamedText and
  OpenAi.CompletedChunk.
