/**
 * The webhook dispatcher: `validate_webhook` around `handle_call`, as one step over the
 * `conversations` map that also yields the HTTP response and the collaborator calls made.
 */
module Orchestrator {
  import opened Wrappers
  import opened Events
  import opened Pipeline

  /** The `answer.streaming` command returned for a new call. */
  datatype StreamCommand = StreamCommand(
    clientState: string, commandId: CallId, enable: bool,
    track: string, intervals: int, format: string, channels: int)

  /** The JSON body: a `status`, an `error` (its message is not modelled), or the streaming command. */
  datatype Body = Status(status: string) | Failed | Streaming(command: StreamCommand)

  datatype Response = Response(code: int, body: Body)

  /**
   * What the foreign calls do on this delivery, supplied by the caller: whether the signature
   * verifies, whether answering succeeds, whether the greeting is synthesised, uploaded and played,
   * the transcription (None when it raises), the completion (None when it raises), and whether
   * the reply is synthesised and played.
   */
  datatype Outcomes = Outcomes(
    signatureValid: bool, answered: bool, greeted: bool,
    transcript: Option<string>, reply: Option<string>, played: bool)

  /** The new map, the response and the calls made, in order. */
  datatype Outcome = Outcome(store: Store, response: Response, calls: seq<Call>)

  function Ok(status: string): Response
  {
    Response(200, Status(status))
  }

  const GreetingText: string := "Hello! How can I help you today?"

  /** `call.initiated` / `call.received`: answer, then reset the history and ask for inbound streaming. */
  function Start(store: Store, id: CallId, env: Outcomes): Outcome
  {
    if env.answered then
      Outcome(store[id := []],
              Response(200, Streaming(StreamCommand("streaming", id, true, "inbound", 2, "raw", 1))),
              [Answer(id)])
    else
      Outcome(store, Response(500, Failed), [Answer(id)])
  }

  /** `media.streaming`: run the turn pipeline on a non-empty chunk and speak a non-empty reply. */
  function Media(store: Store, id: CallId, chunk: Option<string>, env: Outcomes): Outcome
  {
    if !Truthy(chunk) then Outcome(store, Ok("processing"), [])
    else
      var t := AudioTurn(store, chunk.value, id, env.transcript, env.reply);
      // a failed synthesis or playback is logged and swallowed, so env.played is never consulted
      Outcome(t.store, Ok("processing"), t.calls + if Truthy(t.reply) then [PlayReply(id, t.reply.value)] else [])
  }

  /** `del conversations[id]` when present. */
  function Forget(store: Store, id: CallId): Store
  {
    if id in store then store - {id} else store
  }

  /** `handle_call` on a classified event. */
  function Dispatch(store: Store, ev: Event, env: Outcomes): (r: Outcome)
    // only the call the event names can change
    ensures forall k :: k in store && Some(k) != CallOf(ev) ==> k in r.store && r.store[k] == store[k]
    ensures forall k :: k in r.store && Some(k) != CallOf(ev) ==> k in store
    // every delivery is acknowledged; only answering and the greeting report an error
    ensures r.response.code == 200 || (r.response == Response(500, Failed) && (ev.CallInitiated? || ev.CallReceived? || ev.CallAnswered?))
    ensures (ev.CallInitiated? || ev.CallReceived?) ==>
      && r.calls == [Answer(ev.id)]
      && (env.answered ==>
            && r.store == store[ev.id := []]
            && r.response == Response(200, Streaming(StreamCommand("streaming", ev.id, true, "inbound", 2, "raw", 1))))
      && (!env.answered ==> r.store == store && r.response == Response(500, Failed))
    ensures ev.CallAnswered? ==>
      && r.store == store
      && r.calls == [PlayGreeting(ev.id, GreetingText)]
      && r.response == if env.greeted then Ok("greeting sent") else Response(500, Failed)
    ensures ev.StreamingStarted? ==> r == Outcome(store, Ok("streaming active"), [])
    ensures ev.MediaStreaming? ==> r.response == Ok("processing")
    ensures ev.MediaStreaming? && !Truthy(ev.chunk) ==> r.store == store && r.calls == []
    ensures ev.MediaStreaming? && Truthy(ev.chunk) ==>
      var t := AudioTurn(store, ev.chunk.value, ev.id, env.transcript, env.reply);
      r.store == t.store && t.calls <= r.calls
    ensures ev.StreamingStopped? ==> r == Outcome(store - {ev.id}, Ok("streaming ended"), [])
    ensures ev.CallHangup? ==> r == Outcome(store - {ev.id}, Ok("call ended"), [])
    ensures ev.PlaybackEnded? ==> r == Outcome(store, Ok("playback ended"), [])
    ensures (ev.Other? || ev.Missing?) ==> r == Outcome(store, Ok("unhandled event"), [])
  {
    match ev
    case CallInitiated(id) => Start(store, id, env)
    case CallReceived(id) => Start(store, id, env)
    case CallAnswered(id) =>
      Outcome(store, if env.greeted then Ok("greeting sent") else Response(500, Failed), [PlayGreeting(id, GreetingText)])
    case StreamingStarted => Outcome(store, Ok("streaming active"), [])
    case MediaStreaming(id, chunk) => Media(store, id, chunk, env)
    case StreamingStopped(id) => Outcome(Forget(store, id), Ok("streaming ended"), [])
    case CallHangup(id) => Outcome(Forget(store, id), Ok("call ended"), [])
    case PlaybackEnded(_) => Outcome(store, Ok("playback ended"), [])
    case _ => Outcome(store, Ok("unhandled event"), [])
  }

  /** The `/webhook` route: signature check first, then the dispatcher on the classified body. */
  function Deliver(store: Store, raw: RawEvent, env: Outcomes): (r: Outcome)
    ensures !env.signatureValid ==> r == Outcome(store, Response(401, Status("unauthorized")), [])
    ensures env.signatureValid ==> r == Dispatch(store, Classify(raw), env)
  {
    if !env.signatureValid then Outcome(store, Response(401, Status("unauthorized")), [])
    else Dispatch(store, Classify(raw), env)
  }

  predicate PlaysReply(calls: seq<Call>)
  {
    exists i :: 0 <= i < |calls| && calls[i].PlayReply?
  }

  /**
   * A reply is played exactly when a non-empty chunk transcribes to non-empty text and the
   * completion returns non-empty text; it is then the last call, on the event's call, and its
   * text is the assistant turn now at the end of that call's history. With a chunk, the calls
   * are exactly the turn's calls followed by that one playback, if any.
   */
  lemma PlaybackOnlyAfterReply(store: Store, ev: Event, env: Outcomes)
    ensures var r := Dispatch(store, ev, env);
      PlaysReply(r.calls) <==> ev.MediaStreaming? && Truthy(ev.chunk) && Truthy(env.transcript) && Truthy(env.reply)
    ensures var r := Dispatch(store, ev, env);
      PlaysReply(r.calls) ==>
        && r.calls[|r.calls| - 1] == PlayReply(ev.id, env.reply.value)
        && ev.id in r.store && |r.store[ev.id]| >= 2
        && r.store[ev.id][|r.store[ev.id]| - 1] == Turn(Assistant, env.reply.value)
    ensures ev.MediaStreaming? && Truthy(ev.chunk) ==>
      var r := Dispatch(store, ev, env);
      var t := AudioTurn(store, ev.chunk.value, ev.id, env.transcript, env.reply);
      r.calls == t.calls + if Truthy(env.transcript) && Truthy(env.reply) then [PlayReply(ev.id, env.reply.value)] else []
  {
    var r := Dispatch(store, ev, env);
    if ev.MediaStreaming? && Truthy(ev.chunk) {
      var t := AudioTurn(store, ev.chunk.value, ev.id, env.transcript, env.reply);
      if Truthy(env.transcript) && Truthy(env.reply) {
        assert r.calls == t.calls + [PlayReply(ev.id, env.reply.value)];
        assert r.calls[2].PlayReply?;
      } else {
        assert r.calls == t.calls;
        assert forall i :: 0 <= i < |r.calls| ==> !r.calls[i].PlayReply?;
      }
    } else {
      assert forall i :: 0 <= i < |r.calls| ==> !r.calls[i].PlayReply?;
    }
  }

  /**
   * Whether the reply was played successfully never changes the map, the response or the calls.
   * This holds by construction, since `played` is never read: the lemma only records that the
   * playback exception is caught and logged.
   */
  lemma PlaybackFailureIgnored(store: Store, ev: Event, env: Outcomes)
    ensures Dispatch(store, ev, env.(played := false)) == Dispatch(store, ev, env.(played := true))
  {
  }

  /** Ending a call twice is the same as ending it once. */
  lemma EndIdempotent(store: Store, id: CallId, env: Outcomes)
    ensures var once := Dispatch(store, CallHangup(id), env);
      Dispatch(once.store, CallHangup(id), env) == once
    ensures var once := Dispatch(store, StreamingStopped(id), env);
      Dispatch(once.store, StreamingStopped(id), env) == once
  {
  }

  /** Every delivery keeps every stored history well formed. */
  lemma DeliverKeepsWellFormed(store: Store, raw: RawEvent, env: Outcomes)
    requires WellFormedStore(store)
    ensures WellFormedStore(Deliver(store, raw, env).store)
  {
  }
}
