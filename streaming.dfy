/**
 * The `message_stream` generator: one content chunk per upstream fragment,
 * in order, then the stop chunk, then the `[DONE]` frame.
 */
module Streaming {
  import opened Wrappers
  import opened Envelopes

  /** The content events for the given fragments; the i-th uses the i-th stamp. */
  function ContentEvents(fragments: seq<string>, model: string, stamps: nat -> Stamp): (events: seq<Event>)
    ensures |events| == |fragments|
  {
    seq(|fragments|, i requires 0 <= i < |fragments| => Data(ContentChunk(model, stamps(i), fragments[i])))
  }

  /** Everything the generator yields when the fragment source is exhausted normally. */
  function StreamEvents(fragments: seq<string>, model: string, stamps: nat -> Stamp): seq<Event>
  {
    ContentEvents(fragments, model, stamps) + [Data(StopChunk(model, stamps(|fragments|))), Done]
  }

  /** The text a client reassembles: the delta contents of the events, in order. */
  function DeltaText(events: seq<Event>): string
  {
    if events == [] then "" else DeltaText(events[..|events| - 1]) + DeltaOf(events[|events| - 1])
  }

  function DeltaOf(e: Event): string
  {
    if e.Data? && |e.chunk.choices| > 0 && e.chunk.choices[0].delta.Content? then
      e.chunk.choices[0].delta.text
    else
      ""
  }

  /** The generator loop, emitting events one at a time into `events`. */
  method MessageStream(fragments: seq<string>, model: string, stamps: nat -> Stamp) returns (events: seq<Event>)
    ensures events == StreamEvents(fragments, model, stamps)
    ensures |events| == |fragments| + 2
    ensures forall i :: 0 <= i < |fragments| ==>
      events[i] == Data(ContentChunk(model, stamps(i), fragments[i]))
    ensures events[|fragments|] == Data(StopChunk(model, stamps(|fragments|)))
    ensures events[|fragments| + 1] == Done
  {
    events := [];
    for i := 0 to |fragments|
      invariant events == ContentEvents(fragments[..i], model, stamps)
    {
      events := events + [Data(ContentChunk(model, stamps(i), fragments[i]))];
    }
    assert fragments[..|fragments|] == fragments;
    events := events + [Data(StopChunk(model, stamps(|fragments|)))];
    events := events + [Done];
  }

  /** Reassembling the content events gives back exactly the joined fragments. */
  lemma {:induction false} ContentTextIsJoin(fragments: seq<string>, model: string, stamps: nat -> Stamp)
    ensures DeltaText(ContentEvents(fragments, model, stamps)) == Join(fragments)
  {
    if fragments != [] {
      var n := |fragments| - 1;
      var events := ContentEvents(fragments, model, stamps);
      assert events[..n] == ContentEvents(fragments[..n], model, stamps);
      assert events[n] == Data(ContentChunk(model, stamps(n), fragments[n]));
      assert DeltaOf(events[n]) == fragments[n];
      ContentTextIsJoin(fragments[..n], model, stamps);
    }
  }

  /**
   * The text a streaming client reassembles equals the content of the
   * non-streaming response for the same fragments: the stop chunk and the
   * `[DONE]` frame add nothing.
   */
  lemma {:induction false} StreamTextIsJoin(fragments: seq<string>, model: string, stamps: nat -> Stamp)
    ensures DeltaText(StreamEvents(fragments, model, stamps)) == Join(fragments)
  {
    var content := ContentEvents(fragments, model, stamps);
    var stop := Data(StopChunk(model, stamps(|fragments|)));
    var all := content + [stop, Done];
    assert all[..|all| - 1] == content + [stop];
    assert (content + [stop])[..|content|] == content;
    ContentTextIsJoin(fragments, model, stamps);
  }

  /** The events in order: one content chunk per fragment, the stop chunk, then `[DONE]`. */
  lemma StreamEventsShape(fragments: seq<string>, model: string, stamps: nat -> Stamp)
    ensures var events := StreamEvents(fragments, model, stamps);
      && |events| == |fragments| + 2
      && (forall i :: 0 <= i < |fragments| ==> events[i] == Data(ContentChunk(model, stamps(i), fragments[i])))
      && events[|fragments|] == Data(StopChunk(model, stamps(|fragments|)))
      && events[|fragments| + 1] == Done
  {
  }

  /** A chunk that finishes the completion. */
  predicate IsStop(e: Event)
  {
    e.Data? && |e.chunk.choices| > 0 && e.chunk.choices[0].finishReason == Some("stop")
  }

  /** Exactly one stop chunk and exactly one `[DONE]` frame, both after every content chunk. */
  lemma StreamIsTerminatedOnce(fragments: seq<string>, model: string, stamps: nat -> Stamp)
    ensures var events := StreamEvents(fragments, model, stamps);
      && (forall i :: 0 <= i < |events| ==> (events[i] == Done <==> i == |events| - 1))
      && (forall i :: 0 <= i < |events| ==>
            (IsStop(events[i]) <==> i == |fragments|))
  {
    var events := StreamEvents(fragments, model, stamps);
    forall i | 0 <= i < |events|
      ensures IsStop(events[i]) <==> i == |fragments|
    {
      if i < |fragments| {
        assert events[i] == Data(ContentChunk(model, stamps(i), fragments[i]));
      }
    }
  }
}
