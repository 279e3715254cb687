/**
 * The two HTTP handlers, `GET /v1/models` and `POST /v1/chat/completions`,
 * as total functions of their inputs. The aggregation library is a
 * parameter: given the forwarded parameters it either raises or yields a
 * finite sequence of text fragments. The handler reports which call, if any,
 * it made, together with the response.
 */
module Adapter {
  import opened Wrappers
  import opened Json
  import opened Registry
  import opened Auth
  import opened Envelopes
  import opened Streaming

  /** The `detail` of an error response. */
  datatype Detail =
    | Fixed(text: string)
    | ModelNotAvailable(requested: Value)
    | NoProviderFor(advertised: string)

  datatype HttpError = HttpError(status: int, detail: Detail)

  const UpstreamErrorText: string := "Error occurred while processing the completion request."
  const InternalErrorText: string := "An internal server error occurred. Please try again later."

  function Unauthorized(): HttpError { HttpError(401, Fixed("Unauthorized")) }
  function UpstreamError(): HttpError { HttpError(500, Fixed(UpstreamErrorText)) }
  function InternalError(): HttpError { HttpError(500, Fixed(InternalErrorText)) }

  /** The detail text as the service writes it; None where Python's string conversion of the model is not modelled. */
  function DetailText(d: Detail): Option<string>
  {
    match d
    case Fixed(text) => Some(text)
    case ModelNotAvailable(model) =>
      (match PyStr(model)
       case Some(s) => Some("Model '" + s + "' is not available.")
       case None => None)
    case NoProviderFor(model) => Some("No provider found for model '" + model + "'.")
  }

  /** A text made of a fixed prefix, a name and a fixed suffix gives the name back. */
  lemma {:induction false} WrappedNameIsUnique(prefix: string, a: string, b: string, suffix: string)
    requires prefix + a + suffix == prefix + b + suffix
    ensures a == b
  {
    var ta, tb := prefix + a + suffix, prefix + b + suffix;
    assert |a| == |b|;
    assert a == ta[|prefix|..|prefix| + |a|];
    assert b == tb[|prefix|..|prefix| + |b|];
  }

  /**
   * Both error texts that carry a model name identify it: two different
   * string models never get the same 400 or 500 detail. A non-string model
   * may share its text with a string: null and the string "None" both give
   * "Model 'None' is not available.".
   */
  lemma DetailNamesModel(a: string, b: string)
    ensures DetailText(ModelNotAvailable(JStr(a))) == DetailText(ModelNotAvailable(JStr(b))) ==> a == b
    ensures DetailText(NoProviderFor(a)) == DetailText(NoProviderFor(b)) ==> a == b
    ensures DetailText(ModelNotAvailable(JNull)) == DetailText(ModelNotAvailable(JStr("None")))
  {
    if DetailText(ModelNotAvailable(JStr(a))) == DetailText(ModelNotAvailable(JStr(b))) {
      WrappedNameIsUnique("Model '", a, b, "' is not available.");
    }
    if DetailText(NoProviderFor(a)) == DetailText(NoProviderFor(b)) {
      WrappedNameIsUnique("No provider found for model '", a, b, "'.");
    }
  }

  /** What is handed to the aggregation library: nothing else from the payload. */
  datatype CompletionParams = CompletionParams(model: string, messages: Value, stream: Value, provider: string)

  /** The aggregation library's behaviour for one call: it raises an exception with some message, or yields fragments. */
  datatype Upstream = Raises(message: string) | Yields(fragments: seq<string>)

  datatype ChatResponse =
    | Failed(error: HttpError)
    | Completed(completion: Completion)
    | Stream(events: seq<Event>)

  /** The response, and the upstream call made on the way to it (None when there was none). */
  datatype Handled = Handled(call: Option<CompletionParams>, response: ChatResponse)

  /** The messages, model and stream fields of the payload, each with its default when absent. */
  function Messages(data: map<string, Value>): Value { Get(data, "messages", JNull) }
  function RequestedModel(data: map<string, Value>): Value { Get(data, "model", JStr(DefaultModel)) }
  function RequestedStream(data: map<string, Value>): Value { Get(data, "stream", JBool(false)) }

  /** `GET /v1/models`. */
  function ListModels(apiKey: Option<string>, header: Option<string>, reg: Registry): (r: Result<ModelList, HttpError>)
    ensures r.Failure? <==> !Authorized(apiKey, header)
    ensures r.Failure? ==> r.error == HttpError(401, Fixed("Unauthorized"))
    ensures r.Success? ==>
      && r.value.objectKind == "list"
      && |r.value.data| == |reg.models|
      && forall i :: 0 <= i < |reg.models| ==>
           && r.value.data[i].id == reg.models[i]
           && r.value.data[i].objectKind == "model"
           && r.value.data[i].created == 0
           && r.value.data[i].ownedBy == "organization-owner"
           && r.value.data[i].permission == []
  {
    if !Authorized(apiKey, header) then
      Failure(Unauthorized())
    else
      Success(ModelList(seq(|reg.models|, i requires 0 <= i < |reg.models| => ModelCardFor(reg.models[i])), "list"))
  }

  /** The ids of a model list, in order. */
  function Ids(cards: seq<ModelCard>): (ids: seq<string>)
    ensures |ids| == |cards|
  {
    seq(|cards|, i requires 0 <= i < |cards| => cards[i].id)
  }

  /** The listing gives back exactly the registry's models, in registry order. */
  lemma ListingIsRegistry(apiKey: Option<string>, header: Option<string>, reg: Registry)
    requires Authorized(apiKey, header)
    ensures ListModels(apiKey, header, reg).Success?
    ensures Ids(ListModels(apiKey, header, reg).value.data) == reg.models
  {
  }

  /**
   * `POST /v1/chat/completions`. `body` is None when the request body is not
   * valid JSON; `stamps(i)` is the id and time read for the i-th envelope.
   */
  function ChatCompletions(
    apiKey: Option<string>, header: Option<string>, body: Option<Value>,
    reg: Registry, upstream: CompletionParams -> Upstream, stamps: nat -> Stamp): (h: Handled)
    ensures h.call.Some? <==> Admitted(apiKey, header, body, reg)
    ensures h.call.None? ==> h.response.Failed?
    ensures !Authorized(apiKey, header) ==> h.response == Failed(HttpError(401, Fixed("Unauthorized")))
    ensures h.call.Some? ==> (h.response.Failed? <==> upstream(h.call.value).Raises?)
    ensures h.call.Some? && h.response.Failed? ==> h.response.error == HttpError(500, Fixed(UpstreamErrorText))
    ensures h.call.Some? && !h.response.Failed? ==>
      (h.response.Stream? <==> Truthy(h.call.value.stream))
  {
    if !Authorized(apiKey, header) then
      Handled(None, Failed(Unauthorized()))
    else if body.None? || !body.value.JObj? then
      // the body is not JSON, or it is JSON but not an object, so looking up its fields raises
      Handled(None, Failed(InternalError()))
    else
      var data := body.value.fields;
      var model := RequestedModel(data);
      var stream := RequestedStream(data);
      if !(model.JStr? && Advertised(reg, model.s)) then
        Handled(None, Failed(HttpError(400, ModelNotAvailable(model))))
      else
        match ResolveProvider(reg, model.s)
        case None =>
          Handled(None, Failed(HttpError(500, NoProviderFor(model.s))))
        case Some(provider) =>
          var params := CompletionParams(model.s, Messages(data), stream, provider);
          match upstream(params)
          case Raises(_) =>
            Handled(Some(params), Failed(UpstreamError()))
          case Yields(fragments) =>
            if Truthy(stream) then
              Handled(Some(params), Stream(StreamEvents(fragments, model.s, stamps)))
            else
              Handled(Some(params), Completed(CompletionEnvelope(model.s, stamps(0), fragments)))
  }

  /** The request passes authorization and validation and reaches the upstream call. */
  predicate Admitted(apiKey: Option<string>, header: Option<string>, body: Option<Value>, reg: Registry)
  {
    && Authorized(apiKey, header)
    && body.Some? && body.value.JObj?
    && RequestedModel(body.value.fields).JStr?
    && Advertised(reg, RequestedModel(body.value.fields).s)
    && ResolveProvider(reg, RequestedModel(body.value.fields).s).Some?
  }

  /** Authorization comes first: an unauthorized request is refused before its body is looked at. */
  lemma UnauthorizedNeverCallsUpstream(
    apiKey: Option<string>, header: Option<string>, body: Option<Value>,
    reg: Registry, upstream: CompletionParams -> Upstream, stamps: nat -> Stamp)
    requires !Authorized(apiKey, header)
    ensures ChatCompletions(apiKey, header, body, reg, upstream, stamps)
      == Handled(None, Failed(HttpError(401, Fixed("Unauthorized"))))
    ensures ListModels(apiKey, header, reg) == Failure(HttpError(401, Fixed("Unauthorized")))
  {
  }

  /**
   * The upstream call happens exactly for admitted requests, and it receives
   * the requested model, the messages, the raw stream flag and the resolved
   * provider.
   */
  lemma UpstreamCalledIffAdmitted(
    apiKey: Option<string>, header: Option<string>, body: Option<Value>,
    reg: Registry, upstream: CompletionParams -> Upstream, stamps: nat -> Stamp)
    ensures var h := ChatCompletions(apiKey, header, body, reg, upstream, stamps);
      (h.call.Some? <==> Admitted(apiKey, header, body, reg))
      && (h.call.Some? ==>
            var data := body.value.fields;
            h.call.value == CompletionParams(
              RequestedModel(data).s, Messages(data), RequestedStream(data),
              ResolveProvider(reg, RequestedModel(data).s).value))
  {
  }

  /** A request that skips validation never gets a success response either. */
  lemma RejectedMeansFailed(
    apiKey: Option<string>, header: Option<string>, body: Option<Value>,
    reg: Registry, upstream: CompletionParams -> Upstream, stamps: nat -> Stamp)
    requires !Admitted(apiKey, header, body, reg)
    ensures ChatCompletions(apiKey, header, body, reg, upstream, stamps).response.Failed?
  {
  }

  /** A body that is not valid JSON, or not a JSON object, is a generic 500 with the fixed message. */
  lemma MalformedBodyIsInternalError(
    apiKey: Option<string>, header: Option<string>, body: Option<Value>,
    reg: Registry, upstream: CompletionParams -> Upstream, stamps: nat -> Stamp)
    requires Authorized(apiKey, header)
    requires body.None? || !body.value.JObj?
    ensures ChatCompletions(apiKey, header, body, reg, upstream, stamps)
      == Handled(None, Failed(HttpError(500, Fixed(InternalErrorText))))
  {
  }

  /** An unadvertised model is a 400 naming that model, with no upstream call. */
  lemma UnknownModelIsBadRequest(
    apiKey: Option<string>, header: Option<string>, data: map<string, Value>,
    reg: Registry, upstream: CompletionParams -> Upstream, stamps: nat -> Stamp)
    requires Authorized(apiKey, header)
    requires !(RequestedModel(data).JStr? && Advertised(reg, RequestedModel(data).s))
    ensures var h := ChatCompletions(apiKey, header, Some(JObj(data)), reg, upstream, stamps);
      && h == Handled(None, Failed(HttpError(400, ModelNotAvailable(RequestedModel(data)))))
      && (RequestedModel(data).JStr? ==>
            DetailText(h.response.error.detail)
              == Some("Model '" + RequestedModel(data).s + "' is not available."))
  {
  }

  /** An explicit `"model": null` is not replaced by the default: it is refused as "Model 'None'". */
  lemma NullModelIsNotDefaulted(
    apiKey: Option<string>, header: Option<string>, data: map<string, Value>,
    upstream: CompletionParams -> Upstream, stamps: nat -> Stamp)
    requires Authorized(apiKey, header)
    requires Field(data, "model") == Some(JNull)
    ensures var h := ChatCompletions(apiKey, header, Some(JObj(data)), Default, upstream, stamps);
      && h.call.None?
      && h.response == Failed(HttpError(400, ModelNotAvailable(JNull)))
      && DetailText(h.response.error.detail) == Some("Model 'None' is not available.")
  {
    assert "Model '" + "None" + "' is not available." == "Model 'None' is not available.";
  }

  /**
   * Absent `model` and `stream` fields default to "gpt-4o-mini" and false:
   * with the shipped registry the call goes to the DDG provider and the
   * answer, if any, is a single completion object.
   */
  lemma DefaultsApplied(
    apiKey: Option<string>, header: Option<string>, data: map<string, Value>,
    upstream: CompletionParams -> Upstream, stamps: nat -> Stamp)
    requires Authorized(apiKey, header)
    requires Field(data, "model").None? && Field(data, "stream").None?
    ensures var h := ChatCompletions(apiKey, header, Some(JObj(data)), Default, upstream, stamps);
      && h.call == Some(CompletionParams("gpt-4o-mini", Messages(data), JBool(false), "DDG"))
      && (h.response.Completed? || h.response == Failed(UpstreamError()))
  {
    DefaultIsConsistent();
  }

  /** With a consistent registry the "No provider found" branch is never taken. */
  lemma NoProviderUnreachable(
    apiKey: Option<string>, header: Option<string>, body: Option<Value>,
    reg: Registry, upstream: CompletionParams -> Upstream, stamps: nat -> Stamp)
    requires Consistent(reg)
    ensures var h := ChatCompletions(apiKey, header, body, reg, upstream, stamps);
      !(h.response.Failed? && h.response.error.detail.NoProviderFor?)
  {
    if Authorized(apiKey, header) && body.Some? && body.value.JObj? {
      var model := RequestedModel(body.value.fields);
      if model.JStr? && Advertised(reg, model.s) {
        ConsistentResolves(reg, model.s);
      }
    }
  }

  /** The shipped registry never produces the "No provider found" error. */
  lemma DefaultNeverLacksProvider(
    apiKey: Option<string>, header: Option<string>, body: Option<Value>,
    upstream: CompletionParams -> Upstream, stamps: nat -> Stamp)
    ensures var h := ChatCompletions(apiKey, header, body, Default, upstream, stamps);
      !(h.response.Failed? && h.response.error.detail.NoProviderFor?)
  {
    DefaultIsConsistent();
    NoProviderUnreachable(apiKey, header, body, Default, upstream, stamps);
  }

  /** For an advertised model without a provider, sent or defaulted, the branch is a 500 naming the model. */
  lemma MissingProviderIsServerError(
    apiKey: Option<string>, header: Option<string>, data: map<string, Value>, model: string,
    reg: Registry, upstream: CompletionParams -> Upstream, stamps: nat -> Stamp)
    requires Authorized(apiKey, header)
    requires RequestedModel(data) == JStr(model)
    requires Advertised(reg, model) && (model !in reg.providers || reg.providers[model] == "")
    ensures var h := ChatCompletions(apiKey, header, Some(JObj(data)), reg, upstream, stamps);
      && h == Handled(None, Failed(HttpError(500, NoProviderFor(model))))
      && DetailText(h.response.error.detail) == Some("No provider found for model '" + model + "'.")
  {
  }

  /**
   * A raising upstream call is a 500 with the fixed message, whether or not
   * the request streams: the exception's own message is dropped.
   */
  lemma UpstreamFailureIsOpaque(
    apiKey: Option<string>, header: Option<string>, body: Option<Value>,
    reg: Registry, upstream: CompletionParams -> Upstream, stamps: nat -> Stamp)
    requires Admitted(apiKey, header, body, reg)
    requires upstream(ChatCompletions(apiKey, header, body, reg, upstream, stamps).call.value).Raises?
    ensures ChatCompletions(apiKey, header, body, reg, upstream, stamps).response
      == Failed(HttpError(500, Fixed("Error occurred while processing the completion request.")))
  {
    UpstreamCalledIffAdmitted(apiKey, header, body, reg, upstream, stamps);
  }

  /**
   * Sampling parameters (`temperature`, `top_p`, `n`, `max_tokens`, `stop`,
   * the penalties) and any other field have no effect: two payloads that
   * agree on `model`, `messages` and `stream` are handled identically.
   */
  lemma OnlyForwardedFieldsMatter(
    apiKey: Option<string>, header: Option<string>, d1: map<string, Value>, d2: map<string, Value>,
    reg: Registry, upstream: CompletionParams -> Upstream, stamps: nat -> Stamp)
    requires Field(d1, "model") == Field(d2, "model")
    requires Field(d1, "messages") == Field(d2, "messages")
    requires Field(d1, "stream") == Field(d2, "stream")
    ensures ChatCompletions(apiKey, header, Some(JObj(d1)), reg, upstream, stamps)
      == ChatCompletions(apiKey, header, Some(JObj(d2)), reg, upstream, stamps)
  {
    assert RequestedModel(d1) == RequestedModel(d2);
    assert RequestedStream(d1) == RequestedStream(d2);
    assert Messages(d1) == Messages(d2);
  }

  /**
   * Without streaming the answer is one `chat.completion` object whose
   * content is the in-order concatenation of the fragments, from the
   * assistant, finished with "stop", at index 0, with zero usage.
   */
  lemma NonStreamingResponse(
    apiKey: Option<string>, header: Option<string>, body: Option<Value>,
    reg: Registry, upstream: CompletionParams -> Upstream, stamps: nat -> Stamp, fragments: seq<string>)
    requires Admitted(apiKey, header, body, reg)
    requires !Truthy(RequestedStream(body.value.fields))
    requires upstream(ChatCompletions(apiKey, header, body, reg, upstream, stamps).call.value) == Yields(fragments)
    ensures var h := ChatCompletions(apiKey, header, body, reg, upstream, stamps);
      && h.response.Completed?
      && h.response.completion.objectKind == "chat.completion"
      && h.response.completion.id == "chatcmpl-" + stamps(0).uuid
      && h.response.completion.model == RequestedModel(body.value.fields).s
      && h.response.completion.choices == [Choice(Message("assistant", Join(fragments)), "stop", 0)]
      && h.response.completion.usage == Usage(0, 0, 0)
  {
    UpstreamCalledIffAdmitted(apiKey, header, body, reg, upstream, stamps);
  }

  /**
   * With streaming the answer is |fragments| + 2 events: one content chunk
   * per fragment in order, one stop chunk, then `[DONE]`; a client that
   * concatenates the deltas gets the same text as the non-streaming content.
   */
  lemma StreamingResponse(
    apiKey: Option<string>, header: Option<string>, body: Option<Value>,
    reg: Registry, upstream: CompletionParams -> Upstream, stamps: nat -> Stamp, fragments: seq<string>)
    requires Admitted(apiKey, header, body, reg)
    requires Truthy(RequestedStream(body.value.fields))
    requires upstream(ChatCompletions(apiKey, header, body, reg, upstream, stamps).call.value) == Yields(fragments)
    ensures var h := ChatCompletions(apiKey, header, body, reg, upstream, stamps);
      var model := RequestedModel(body.value.fields).s;
      && h.response.Stream?
      && |h.response.events| == |fragments| + 2
      && (forall i :: 0 <= i < |fragments| ==>
            h.response.events[i] == Data(Chunk("chatcmpl-" + stamps(i).uuid, "chat.completion.chunk",
              stamps(i).created, model, [ChunkChoice(Content(fragments[i]), 0, None)])))
      && h.response.events[|fragments|] == Data(Chunk("chatcmpl-" + stamps(|fragments|).uuid,
            "chat.completion.chunk", stamps(|fragments|).created, model, [ChunkChoice(EmptyDelta, 0, Some("stop"))]))
      && h.response.events[|fragments| + 1] == Done
      && DeltaText(h.response.events) == Join(fragments)
  {
    var h := ChatCompletions(apiKey, header, body, reg, upstream, stamps);
    var model := RequestedModel(body.value.fields).s;
    UpstreamCalledIffAdmitted(apiKey, header, body, reg, upstream, stamps);
    assert h.response == Stream(StreamEvents(fragments, model, stamps));
    StreamEventsShape(fragments, model, stamps);
    StreamTextIsJoin(fragments, model, stamps);
  }

  /** The worked example: fragments "Hel" and "lo!" give the content "Hello!". */
  lemma HelloExample(messages: Value, stamps: nat -> Stamp)
    ensures var data := map["model" := JStr("gpt-4o-mini"), "messages" := messages, "stream" := JBool(false)];
      var h := ChatCompletions(None, None, Some(JObj(data)), Default, p => Yields(["Hel", "lo!"]), stamps);
      h.response.Completed? && h.response.completion.choices[0].message.content == "Hello!"
  {
    DefaultIsConsistent();
    assert Join(["Hel", "lo!"]) == "Hello!" by {
      assert ["Hel", "lo!"][..1] == ["Hel"];
      assert ["Hel"][..0] == [];
    }
  }

  /** The same request streamed: two content events "Hel" and "lo!", one stop event, then `[DONE]`. */
  lemma HelloStreamExample(messages: Value, stamps: nat -> Stamp)
    ensures var data := map["model" := JStr("gpt-4o-mini"), "messages" := messages, "stream" := JBool(true)];
      var h := ChatCompletions(None, None, Some(JObj(data)), Default, p => Yields(["Hel", "lo!"]), stamps);
      && h.response.Stream?
      && |h.response.events| == 4
      && DeltaOf(h.response.events[0]) == "Hel"
      && DeltaOf(h.response.events[1]) == "lo!"
      && IsStop(h.response.events[2])
      && h.response.events[3] == Done
  {
    var data := map["model" := JStr("gpt-4o-mini"), "messages" := messages, "stream" := JBool(true)];
    var upstream: CompletionParams -> Upstream := p => Yields(["Hel", "lo!"]);
    var h := ChatCompletions(None, None, Some(JObj(data)), Default, upstream, stamps);
    DefaultIsConsistent();
    assert RequestedModel(data) == JStr("gpt-4o-mini");
    assert RequestedStream(data) == JBool(true);
    assert h.response == Stream(StreamEvents(["Hel", "lo!"], "gpt-4o-mini", stamps));
    StreamEventsShape(["Hel", "lo!"], "gpt-4o-mini", stamps);
  }
}
