# Telnyx / OpenAI call webhook — conversation state machine

A Dafny model of the webhook dispatcher of a phone assistant (`app.py`). The provider posts
call events to `/webhook`; the dispatcher keeps one in-memory map, `conversations`, from a
call's `call_control_id` to its ordered `{role, content}` turns. It answers new calls and asks
for inbound streaming, plays a greeting when the call is answered, and turns each audio chunk
into a user turn followed by an assistant turn. The reply is then spoken back. The entry goes
away on `streaming.stopped` or `call.hangup`.

Every foreign call is an input (`Orchestrator.Outcomes`). That covers the signature check, answering,
the greeting, transcription, the chat completion and the reply playback. What the dispatcher
asks of those services comes out as a log of `Pipeline.Call` values. So "no playback was
attempted" and "the completion saw this history" can be stated.

Files:

- `wrappers.dfy`: `Option`, and `Truthy`, Python's truth test on an optional string.
- `events.dfy`: the closed event type and the classifier for `data.event_type`.
- `pipeline.dfy`: turns, the map, and `AudioTurn`, the model of `process_audio_chunk`.
- `orchestrator.dfy`: `Dispatch` (`handle_call`) and `Deliver` (signature check, then `Dispatch`).
- `traces.dfy`: runs of many deliveries and the invariants they keep.
- `server.dfy`: class `Server`, whose field `conversations` its methods update in place.
  Each method is proved equal to the matching function.

The code behaves as follows, and the model follows it:

- A repeated `call.initiated` / `call.received` resets the history to `[]`. It is not an idempotent create.
- There is no in-flight flag and no per-call exclusion.
- Only the empty transcript counts as silence. Whitespace-only text becomes a turn.
- A failed completion on a known call leaves the new user turn in the history. This is the
  in-place append through the list `get` returned. On an unknown call nothing is stored.
- A body without `event_type` is answered 200 "unhandled event", not 400.
- `media.streaming` for an unknown id creates its entry once a turn completes.

## Model

| member | source | states |
|---|---|---|
| `Events.Classify` | app.py:111-275 | The event kind is the exact `event_type` string: one of the eight recognised kinds, `Other` for anything else, `Missing` when absent. Events that name a call carry its `call_control_id`; `media.streaming` carries the chunk. |
| `Events.ClassifyRaw` | app.py:111-112 | Round trip: classifying the body an event describes gives that event back. |
| `Pipeline.AudioTurn` | app.py:63-103 | Transcription is always tried. A failed or empty transcript leaves the map alone and returns None. Otherwise the completion request is the system instruction, then the stored history in order, then the new user turn. On success the entry becomes the old history (or `[]`) plus exactly user then assistant, and the reply is returned. On completion failure the user turn stays only if the id was already stored; otherwise nothing is stored. |
| `Pipeline.AudioTurnKeepsWellFormed` | app.py:77-97 | A turn, finished or cut short, keeps every history free of system turns, with each assistant turn right after a user turn. |
| `Orchestrator.Dispatch` | app.py:105-275 | Only the call the event names can change. Start events call answer. On success the entry is reset to `[]`, replacing any history, and the reply is 200 with command `streaming`, that id, enable, `inbound`, 2, `raw`, 1. On answer failure the reply is 500 and the map is unchanged. `call.answered` plays the greeting once, leaves the map alone and returns 200 or 500. The ended events remove exactly that key and return 200 "streaming ended" / "call ended". `streaming.started`, `call.playback.ended`, unknown and missing kinds change nothing and call nothing. `media.streaming` always returns 200 "processing"; with no chunk it changes and calls nothing. |
| `Orchestrator.Deliver` | app.py:46-61 | A signature that does not verify gives 401 "unauthorized" with no change and no calls. Otherwise the step is `Dispatch` on the classified body. |
| `Orchestrator.PlaybackOnlyAfterReply` | app.py:225-249 | A reply is played exactly when the chunk, the transcript and the completion are all non-empty. With a chunk, the calls are exactly the turn's calls, followed by that one playback when a reply is played. The played text is the assistant turn now ending the history. |
| `Orchestrator.PlaybackFailureIgnored` | app.py:246-249 | Whether playback fails changes neither the map, the response nor the calls. |
| `Orchestrator.EndIdempotent` | app.py:251-263 | A second `call.hangup` or `streaming.stopped` for the same id changes nothing more. |
| `Orchestrator.DeliverKeepsWellFormed` | app.py:105-275 | Every delivery keeps the map's histories well formed. |
| `Traces.RunKeepsWellFormed` | app.py:105-275 | Well-formed histories stay well formed over any sequence of deliveries. |
| `Traces.RunLeavesOtherCalls` | app.py:105-275 | A call that no verified delivery names keeps its presence and its history over any sequence of deliveries. |
| `Traces.DeliverAppendOnly` | app.py:77-97 | One delivery that neither starts nor ends call `x` keeps `x` stored and its old history a prefix of the new one. |
| `Traces.RunAppendOnly` | app.py:77-97 | Over any run with no start or end event for `x`, `x` stays stored and its history only grows at the end. |
| `Traces.HangupThenTurnStartsFresh` | app.py:258-263 | After a hangup the id is gone. A completed turn on it then holds exactly the new user and assistant turns, not the earlier history. |
| `WebhookServer.Server.constructor` | app.py:34 | The map starts empty. |
| `WebhookServer.Server.ProcessAudioChunk` | app.py:63-103 | The in-place update, including the aliased append before the completion, leaves the map, the return value and the calls exactly as `AudioTurn` says. |
| `WebhookServer.Server.StartCall` | app.py:112-149 | The start branch updates the map and answers as `Dispatch` says for both start kinds. |
| `WebhookServer.Server.HandleCall` | app.py:105-275 | The in-place dispatcher leaves the map, the response and the calls exactly as `Dispatch` says. |
| `WebhookServer.Server.Webhook` | app.py:46-61 | The decorated route behaves exactly as `Deliver` says. |

## Left out

- Ed25519 signature verification: only its pass or fail outcome is an input.
- The OpenAI transcription, completion and speech calls: their results are inputs. Their model
  parameters are not modelled: `whisper-1`, `gpt-4-turbo-preview`, `max_tokens=50`, the
  temperature and penalties, `tts-1` and `alloy`.
- The Telnyx answer and playback calls, the media upload and the temporary greeting file. The
  greeting is one call (`PlayGreeting`) that succeeds or fails as a whole. The model does not say
  which sub-step failed.
- The text of error messages in 401 and 500 bodies. The caller number at line 115, which is only logged.
- A `call_control_id` missing from the payload: the `KeyError` escapes to the framework's own error response.
- A chunk that is not a string, and a completion whose content is not a string.
- Flask routing, JSON decoding, the `/test` echo endpoint, logging, and process start-up.
- Concurrent requests: each delivery is one atomic step, so interleavings are not modelled. A `call.hangup` that arrives during the completion (app.py:81) is undone by the store at app.py:97. Two chunks for one call can interleave their appends through the shared list (app.py:77-78).
