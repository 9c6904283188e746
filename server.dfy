/**
 * The Flask application's state and handlers: one `conversations` map, changed in place
 * by `process_audio_chunk` and `handle_call`, behind the `validate_webhook` decorator.
 */
module WebhookServer {
  import opened Wrappers
  import opened Events
  import opened Pipeline
  import opened Orchestrator

  class Server {
    /** Call id to its ordered `{role, content}` turns. */
    var conversations: Store

    /** The process starts with no conversations. */
    constructor ()
      ensures conversations == map[]
    {
      conversations := map[];
    }

    /** `process_audio_chunk`: the value returned is None on silence and on every failure. */
    method ProcessAudioChunk(audio: string, id: CallId, transcript: Option<string>, reply: Option<string>)
      returns (aiResponse: Option<string>, calls: seq<Call>)
      modifies this
      ensures TurnResult(conversations, aiResponse, calls) == AudioTurn(old(conversations), audio, id, transcript, reply)
    {
      calls := [Transcribe(audio)];
      if !Truthy(transcript) {
        return None, calls;
      }
      var conversation := if id in conversations then conversations[id] else [];
      conversation := conversation + [Turn(User, transcript.value)];
      // the list `get` returns is the stored one: the append shows in the map at once
      if id in conversations {
        conversations := conversations[id := conversation];
      }
      calls := calls + [Complete([SystemTurn] + conversation)];
      if reply.None? {
        return None, calls;
      }
      conversation := conversation + [Turn(Assistant, reply.value)];
      conversations := conversations[id := conversation];
      aiResponse := reply;
    }

    /** The `call.initiated` / `call.received` branch. */
    method StartCall(id: CallId, env: Outcomes) returns (resp: Response, calls: seq<Call>)
      modifies this
      ensures Outcome(conversations, resp, calls) == Dispatch(old(conversations), CallInitiated(id), env)
      ensures Outcome(conversations, resp, calls) == Dispatch(old(conversations), CallReceived(id), env)
    {
      calls := [Answer(id)];
      if !env.answered {
        return Response(500, Failed), calls;
      }
      conversations := conversations[id := []];
      resp := Response(200, Streaming(StreamCommand("streaming", id, true, "inbound", 2, "raw", 1)));
    }

    /** `handle_call` on a classified event. */
    method HandleCall(ev: Event, env: Outcomes) returns (resp: Response, calls: seq<Call>)
      modifies this
      ensures Outcome(conversations, resp, calls) == Dispatch(old(conversations), ev, env)
    {
      calls := [];
      match ev {
        case CallInitiated(id) =>
          resp, calls := StartCall(id, env);
        case CallReceived(id) =>
          resp, calls := StartCall(id, env);
        case CallAnswered(id) =>
          calls := [PlayGreeting(id, GreetingText)];
          resp := if env.greeted then Ok("greeting sent") else Response(500, Failed);
        case StreamingStarted =>
          resp := Ok("streaming active");
        case MediaStreaming(id, chunk) =>
          if Truthy(chunk) {
            var aiResponse;
            aiResponse, calls := ProcessAudioChunk(chunk.value, id, env.transcript, env.reply);
            if Truthy(aiResponse) {
              // a failed synthesis or playback is logged and the branch still answers 200
              calls := calls + [PlayReply(id, aiResponse.value)];
            }
          }
          resp := Ok("processing");
        case StreamingStopped(id) =>
          if id in conversations {
            conversations := conversations - {id};
          }
          resp := Ok("streaming ended");
        case CallHangup(id) =>
          if id in conversations {
            conversations := conversations - {id};
          }
          resp := Ok("call ended");
        case PlaybackEnded(_) =>
          resp := Ok("playback ended");
        case Other(_) =>
          resp := Ok("unhandled event");
        case Missing =>
          resp := Ok("unhandled event");
      }
    }

    /** The `/webhook` route: an unverifiable signature is refused before the body is read. */
    method Webhook(raw: RawEvent, env: Outcomes) returns (resp: Response, calls: seq<Call>)
      modifies this
      ensures Outcome(conversations, resp, calls) == Deliver(old(conversations), raw, env)
    {
      if !env.signatureValid {
        return Response(401, Status("unauthorized")), [];
      }
      resp, calls := HandleCall(Classify(raw), env);
    }
  }
}
