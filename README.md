# OpenAI-compatible chat shim: request adapter model

This project models the request-adapter logic of `OpenWebUI_G4F.py`, a small HTTP
service that exposes `GET /v1/models` and `POST /v1/chat/completions` in the
OpenAI shape. It forwards chat requests to the `g4f` aggregation library and
reshapes what comes back. The model covers:

- the model registry: the ordered list of advertised models and the model → provider map;
- the bearer check shared by both endpoints;
- the validation pipeline of the chat endpoint, in its order. First authorization (401).
  Then the body: invalid JSON or a non-object gives a generic 500. Then the `model`/`stream`
  defaults. Then an unknown model (400), then a missing provider (500), then the upstream
  call, where a raising call gives a fixed-text 500;
- the two output framings. A non-streaming request gets one `chat.completion` object whose
  content is the joined fragments. A streaming request gets one `chat.completion.chunk`
  event per fragment, a stop chunk, then `data: [DONE]`.

The handlers are total functions (`Adapter.ListModels`, `Adapter.ChatCompletions`). The
`message_stream` generator loop is a method (`Streaming.MessageStream`) proved against the
function `Streaming.StreamEvents` that the handler uses. The `g4f` call is a parameter
`CompletionParams -> Upstream`: it either raises or yields a finite fragment sequence. The
handler returns the response together with the call it made, if any, so "no upstream call"
can be stated. `uuid4()` and `time.time()` are a parameter `stamps: nat -> Stamp`: the i-th
envelope built for a request uses `stamps(i)`. `API_KEY` and the registry are parameters;
`Registry.Default` holds the shipped table. The source fixes `API_KEY = None`, so as shipped
authorization is always skipped. The model covers both the configured and the unconfigured key.

Files: `wrappers.dfy` (Option, Result), `json.dfy` (parsed payload values, `dict.get`,
Python truthiness), `registry.dfy`, `auth.dfy`, `envelopes.dfy` (response datatypes,
`''.join`), `streaming.dfy`, `adapter.dfy`.

## Model

| member | source | states |
|---|---|---|
| `Registry.DefaultResolvesExactlyAdvertised` | OpenWebUI_G4F.py:14-85 | in the shipped registry a model has a non-empty provider exactly when it is advertised, so the 400 check and the provider check accept the same names |
| `Registry.DefaultIsConsistent` | OpenWebUI_G4F.py:14-38 | every advertised model of the shipped registry has a non-empty provider; the default model "gpt-4o-mini" is advertised and served by DDG |
| `Registry.DefaultIsExact` | OpenWebUI_G4F.py:14-38 | the shipped list has no duplicates and the provider map's keys are exactly the advertised models |
| `Registry.ConsistentResolves` | OpenWebUI_G4F.py:80-85 | in a consistent registry, any model that passes the 400 check also passes the provider check |
| `Auth.Authorized` | OpenWebUI_G4F.py:43-45 | a request passes exactly when no key is configured (None or empty) or the header is exactly "Bearer " + key |
| `Auth.OpenAccess` | OpenWebUI_G4F.py:43 | with no key configured every header, or none, is accepted |
| `Auth.ExactlyOneBearer` | OpenWebUI_G4F.py:64-66 | with a configured key exactly one header value is accepted, and a missing header is refused |
| `Auth.SchemeIsCaseSensitive` | OpenWebUI_G4F.py:65 | "bearer <key>" in lower case is refused: the whole header is compared exactly |
| `Json.Get` | OpenWebUI_G4F.py:69-78 | Python's field lookup with a default; no contract of its own: NullModelIsNotDefaulted, DefaultsApplied and OnlyForwardedFieldsMatter carry its properties for the request |
| `Json.Truthy` | OpenWebUI_G4F.py:100 | Python truthiness of the `stream` value; no contract of its own: ChatCompletions, NonStreamingResponse and StreamingResponse state that it alone picks the framing |
| `Envelopes.Join` | OpenWebUI_G4F.py:131 | the in-order concatenation of the fragments; no contract of its own: JoinAppend, JoinPlacesFragments and StreamTextIsJoin carry its properties |
| `Envelopes.ContentChunk` | OpenWebUI_G4F.py:103-114 | the chunk for one fragment; no contract of its own: StreamingResponse states its fields |
| `Envelopes.StopChunk` | OpenWebUI_G4F.py:115-126 | the closing chunk; no contract of its own: StreamingResponse and StreamIsTerminatedOnce state its fields and position |
| `Envelopes.CompletionEnvelope` | OpenWebUI_G4F.py:131-150 | the non-streaming completion object; no contract of its own: NonStreamingResponse and HelloExample state its fields |
| `Envelopes.JoinAppend` | OpenWebUI_G4F.py:131 | joining fragments distributes over splitting the fragment sequence, so their order is kept |
| `Envelopes.JoinPlacesFragments` | OpenWebUI_G4F.py:131 | each fragment appears unchanged in the joined content, at the offset given by the fragments before it |
| `Streaming.StreamEvents` | OpenWebUI_G4F.py:101-127 | the events the generator yields; no contract of its own: MessageStream is proved equal to it, and StreamEventsShape, StreamIsTerminatedOnce and StreamTextIsJoin carry its properties |
| `Streaming.MessageStream` | OpenWebUI_G4F.py:101-127 | the generator yields the stream events: the i-th event carries the i-th fragment with no finish reason, then a stop chunk with empty delta, then `[DONE]`; there are \|fragments\| + 2 events |
| `Streaming.ContentTextIsJoin` | OpenWebUI_G4F.py:102-114 | concatenating the deltas of the content chunks gives the joined fragments |
| `Streaming.StreamTextIsJoin` | OpenWebUI_G4F.py:101-131 | the text a streaming client reassembles equals the non-streaming content for the same fragments |
| `Streaming.StreamEventsShape` | OpenWebUI_G4F.py:101-127 | the stream holds \|fragments\| + 2 events: content chunks in fragment order, the stop chunk, then `[DONE]` |
| `Streaming.StreamIsTerminatedOnce` | OpenWebUI_G4F.py:115-127 | `[DONE]` occurs only as the last event and the stop chunk only right after the last fragment |
| `Adapter.DetailNamesModel` | OpenWebUI_G4F.py:80-85 | the 400 text "Model '<m>' is not available." and the 500 text "No provider found for model '<m>'." each determine the string model they name; a null model and the string "None" share the 400 text |
| `Adapter.ChatCompletions` | OpenWebUI_G4F.py:61-161 | the upstream call happens exactly for requests that pass every check; without a call the response is an error; an unauthorized request gets 401 "Unauthorized"; after a call the response is an error exactly when the call raised, and then it is the fixed-text 500; otherwise it streams exactly when the forwarded stream value is truthy |
| `Adapter.ListModels` | OpenWebUI_G4F.py:41-59 | the listing is refused with 401 "Unauthorized" exactly when the bearer check fails; otherwise one card per advertised model, in order, with object "model", created 0, owner "organization-owner", no permissions, inside an object "list" |
| `Adapter.ListingIsRegistry` | OpenWebUI_G4F.py:47-58 | the ids of an authorized listing are exactly the registry's models, in order |
| `Adapter.UnauthorizedNeverCallsUpstream` | OpenWebUI_G4F.py:41-68 | an unauthorized request gets 401 "Unauthorized" from both endpoints before its body is looked at, and makes no upstream call |
| `Adapter.UpstreamCalledIffAdmitted` | OpenWebUI_G4F.py:64-95 | the upstream call happens exactly when authorization, body, model and provider checks all pass, and it receives only the model, messages, raw stream flag and resolved provider |
| `Adapter.RejectedMeansFailed` | OpenWebUI_G4F.py:64-85 | a request that fails any check before the upstream call gets an error response |
| `Adapter.MalformedBodyIsInternalError` | OpenWebUI_G4F.py:68-161 | a body that is not valid JSON, or not a JSON object, gives 500 with the fixed internal-error text |
| `Adapter.UnknownModelIsBadRequest` | OpenWebUI_G4F.py:80-81 | a requested model that is not an advertised string gives 400 "Model '<m>' is not available." and no upstream call |
| `Adapter.NullModelIsNotDefaulted` | OpenWebUI_G4F.py:70-81 | an explicit `"model": null` is not replaced by the default and is refused as "Model 'None' is not available." |
| `Adapter.DefaultsApplied` | OpenWebUI_G4F.py:70-151 | absent `model` and `stream` mean "gpt-4o-mini" and false: the call goes to DDG with stream false, and the answer is a completion object or the upstream 500 |
| `Adapter.NoProviderUnreachable` | OpenWebUI_G4F.py:80-85 | with a consistent registry the "No provider found" error never occurs |
| `Adapter.DefaultNeverLacksProvider` | OpenWebUI_G4F.py:14-85 | the shipped registry never produces the "No provider found" error |
| `Adapter.MissingProviderIsServerError` | OpenWebUI_G4F.py:70-85 | an advertised model with no or an empty provider, whether sent or taken as the default "gpt-4o-mini", gives 500 "No provider found for model '<m>'." and no upstream call |
| `Adapter.UpstreamFailureIsOpaque` | OpenWebUI_G4F.py:94-98 | a raising upstream call gives 500 with the fixed text whatever message the exception carries, so that message is dropped, for streaming and non-streaming requests alike |
| `Adapter.OnlyForwardedFieldsMatter` | OpenWebUI_G4F.py:69-92 | payloads that agree on `model`, `messages` and `stream` are handled identically: temperature, top_p, n, max_tokens, stop and the penalties have no effect |
| `Adapter.NonStreamingResponse` | OpenWebUI_G4F.py:130-151 | without streaming the response is one "chat.completion" object with id "chatcmpl-<uuid>", the requested model, one assistant message holding the in-order concatenation of the fragments, finish reason "stop", index 0 and zero usage |
| `Adapter.StreamingResponse` | OpenWebUI_G4F.py:100-129 | with streaming the response is \|fragments\| + 2 events: a "chat.completion.chunk" per fragment in order with a null finish reason, a stop chunk with empty delta, then `[DONE]`; the deltas rejoin to the non-streaming content |
| `Adapter.HelloExample` | OpenWebUI_G4F.py:130-151 | fragments "Hel" and "lo!" give a completion whose content is "Hello!" |
| `Adapter.HelloStreamExample` | OpenWebUI_G4F.py:100-129 | the same fragments streamed give "Hel", "lo!", a stop chunk and `[DONE]` |

## Left out

- FastAPI routing, header extraction, `StreamingResponse`/`JSONResponse` transmission and the uvicorn start-up: framework plumbing.
- The `g4f.ChatCompletion.create` call: a foreign library, modelled as a parameter that either raises or yields a finite fragment sequence.
- `request.json()` parsing: the body arrives already parsed; invalid JSON is `None`.
- `json.dumps` serialisation: events and envelopes are structured values. The `Done` event stands for the literal frame `data: [DONE]` followed by a blank line.
- `uuid.uuid4()` and `time.time()`: nondeterministic, passed in as `stamps`.
- Logging: a side effect with no observable contract.
- A fragment source that raises part-way through being consumed. During streaming the source gives this no defined behaviour. During `''.join` it would fall into the generic internal-error handler. Only a call that raises at once is modelled.
- Adapter.DetailText: renders the 400 detail only for string, null and boolean model values. Python's `str` of a number, list or object is not modelled, and the result is `None` there.
- Numbers in the payload are reals, so JSON `1` and `1.0` are not told apart. Only their truthiness is used. Python's JSON parser also accepts `NaN`, `Infinity` and `-Infinity`, which a real cannot express; all three are truthy, so for example `"stream": NaN` streams in the service but has no counterpart in the model.
