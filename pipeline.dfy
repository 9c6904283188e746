/**
 * The conversation turn pipeline (`process_audio_chunk`): transcribe a chunk, append the
 * caller's words to the call's history, ask for a reply with the whole history as context,
 * and append the reply.
 */
module Pipeline {
  import opened Wrappers
  import opened Events

  datatype Role = System | User | Assistant

  /** One `{role, content}` entry of a history or of a generation request. */
  datatype Turn = Turn(role: Role, content: string)

  /** The `conversations` dictionary. */
  type Store = map<CallId, seq<Turn>>

  /** What the dispatcher asks of the provider and the speech/language services. */
  datatype Call =
    | Answer(id: CallId)                  // answer the call
    | PlayGreeting(id: CallId, text: string)  // synthesise, upload and play the greeting
    | Transcribe(audio: string)           // speech to text
    | Complete(messages: seq<Turn>)       // chat completion
    | PlayReply(id: CallId, text: string)     // synthesise and play a reply on the caller's leg

  const SystemInstruction: string :=
    "You are a helpful AI assistant handling a phone call. Keep responses concise, natural, and brief. Aim for responses under 15 words when possible."

  const SystemTurn: Turn := Turn(System, SystemInstruction)

  /** `conversations.get(id, [])`. */
  function Prior(store: Store, id: CallId): seq<Turn>
  {
    if id in store then store[id] else []
  }

  /** The new map, the value returned (None for every failure or silence) and the calls made. */
  datatype TurnResult = TurnResult(store: Store, reply: Option<string>, calls: seq<Call>)

  /**
   * One audio chunk for call `id`. `transcript` and `reply` are what the transcription and
   * completion services return, None when they raise. When `id` is already stored, the list
   * the code appends to is the stored list itself, so a failed completion leaves the user
   * turn behind; when it is not, the list is fresh and nothing is stored.
   */
  function AudioTurn(store: Store, audio: string, id: CallId, transcript: Option<string>, reply: Option<string>): (r: TurnResult)
    ensures |r.calls| >= 1 && r.calls[0] == Transcribe(audio)
    ensures !Truthy(transcript) ==> r.store == store && r.reply == None && r.calls == [Transcribe(audio)]
    ensures Truthy(transcript) ==>
      && |r.calls| == 2 && r.calls[1].Complete?
      && var m := r.calls[1].messages;
      && |m| == |Prior(store, id)| + 2
      && m[0] == SystemTurn
      && m[1..|m| - 1] == Prior(store, id)
      && m[|m| - 1] == Turn(User, transcript.value)
    ensures Truthy(transcript) && reply.Some? ==>
      && r.reply == reply
      && r.store == store[id := Prior(store, id) + [Turn(User, transcript.value), Turn(Assistant, reply.value)]]
    ensures Truthy(transcript) && reply.None? ==>
      && r.reply == None
      && r.store == if id in store then store[id := store[id] + [Turn(User, transcript.value)]] else store
  {
    if !Truthy(transcript) then TurnResult(store, None, [Transcribe(audio)])
    else
      var conversation := Prior(store, id) + [Turn(User, transcript.value)];
      var calls := [Transcribe(audio), Complete([SystemTurn] + conversation)];
      match reply
      case None => TurnResult(if id in store then store[id := conversation] else store, None, calls)
      case Some(text) =>
        assert conversation + [Turn(Assistant, text)]
            == Prior(store, id) + [Turn(User, transcript.value), Turn(Assistant, text)];
        TurnResult(store[id := conversation + [Turn(Assistant, text)]], reply, calls)
  }

  /** A stored history holds no system turns, and every assistant turn answers the user turn just before it. */
  predicate WellFormed(h: seq<Turn>)
  {
    forall i {:trigger h[i]} :: 0 <= i < |h| ==> h[i].role != System && (h[i].role == Assistant ==> 0 < i && h[i - 1].role == User)
  }

  predicate WellFormedStore(store: Store)
  {
    forall id :: id in store ==> WellFormed(store[id])
  }

  /** A turn, complete or cut short by a failed completion, keeps every stored history well formed. */
  lemma AudioTurnKeepsWellFormed(store: Store, audio: string, id: CallId, transcript: Option<string>, reply: Option<string>)
    requires WellFormedStore(store)
    ensures WellFormedStore(AudioTurn(store, audio, id, transcript, reply).store)
  {
  }
}
