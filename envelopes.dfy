/**
 * The response shapes of the OpenAI-compatible surface: the model list,
 * the single `chat.completion` object and the `chat.completion.chunk`
 * events of a stream. JSON serialisation is not modelled; each envelope is
 * a structured value with the fields the service writes.
 */
module Envelopes {
  import opened Wrappers

  /** The random id and the whole-second clock reading taken while building one envelope. */
  datatype Stamp = Stamp(uuid: string, created: int)

  // Model listing
  datatype ModelCard = ModelCard(id: string, objectKind: string, created: int, ownedBy: string, permission: seq<string>)
  datatype ModelList = ModelList(data: seq<ModelCard>, objectKind: string)

  // Non-streaming completion
  datatype Message = Message(role: string, content: string)
  datatype Choice = Choice(message: Message, finishReason: string, index: int)
  datatype Usage = Usage(promptTokens: int, completionTokens: int, totalTokens: int)
  datatype Completion = Completion(
    id: string, objectKind: string, created: int, model: string, choices: seq<Choice>, usage: Usage)

  // Streaming chunks
  datatype Delta = Content(text: string) | EmptyDelta
  datatype ChunkChoice = ChunkChoice(delta: Delta, index: int, finishReason: Option<string>)
  datatype Chunk = Chunk(id: string, objectKind: string, created: int, model: string, choices: seq<ChunkChoice>)

  /** One server-sent event: a `data: <chunk>` frame, or the final `data: [DONE]` frame. */
  datatype Event = Data(chunk: Chunk) | Done

  function EnvelopeId(stamp: Stamp): string
  {
    "chatcmpl-" + stamp.uuid
  }

  function ModelCardFor(id: string): ModelCard
  {
    ModelCard(id, "model", 0, "organization-owner", [])
  }

  /** The fragments concatenated in order, written as a fold from the right end. */
  function Join(fragments: seq<string>): string
  {
    if fragments == [] then "" else Join(fragments[..|fragments| - 1]) + fragments[|fragments| - 1]
  }

  /** Joining is compatible with splitting the fragment sequence anywhere. */
  lemma {:induction false} JoinAppend(a: seq<string>, b: seq<string>)
    ensures Join(a + b) == Join(a) + Join(b)
  {
    if b == [] {
      assert a + b == a;
    } else {
      var n := |b| - 1;
      var ab := a + b;
      assert ab[..|ab| - 1] == a + b[..n];
      assert ab[|ab| - 1] == b[n];
      calc {
        Join(ab);
        Join(a + b[..n]) + b[n];
        { JoinAppend(a, b[..n]); }
        Join(a) + Join(b[..n]) + b[n];
        Join(a) + (Join(b[..n]) + b[n]);
        Join(a) + Join(b);
      }
    }
  }

  /** The joined text has the summed length, and each fragment sits at its offset. */
  lemma {:induction false} JoinPlacesFragments(fragments: seq<string>, k: nat)
    requires k < |fragments|
    ensures var at := |Join(fragments[..k])|;
      at + |fragments[k]| <= |Join(fragments)| && Join(fragments)[at..at + |fragments[k]|] == fragments[k]
  {
    assert fragments == fragments[..k] + [fragments[k]] + fragments[k + 1..];
    JoinAppend(fragments[..k] + [fragments[k]], fragments[k + 1..]);
    JoinAppend(fragments[..k], [fragments[k]]);
    assert ([] + [fragments[k]])[..0] == [];
    assert [fragments[k]][..0] == [];
  }

  /** The chunk carrying one fragment as an incremental delta. */
  function ContentChunk(model: string, stamp: Stamp, text: string): Chunk
  {
    Chunk(EnvelopeId(stamp), "chat.completion.chunk", stamp.created, model,
      [ChunkChoice(Content(text), 0, None)])
  }

  /** The chunk that closes a stream: empty delta, finish reason "stop". */
  function StopChunk(model: string, stamp: Stamp): Chunk
  {
    Chunk(EnvelopeId(stamp), "chat.completion.chunk", stamp.created, model,
      [ChunkChoice(EmptyDelta, 0, Some("stop"))])
  }

  /** The single completion object returned when the request does not stream. */
  function CompletionEnvelope(model: string, stamp: Stamp, fragments: seq<string>): Completion
  {
    Completion(EnvelopeId(stamp), "chat.completion", stamp.created, model,
      [Choice(Message("assistant", Join(fragments)), "stop", 0)],
      Usage(0, 0, 0))
  }
}
