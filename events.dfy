/**
 * The webhook body as the dispatcher sees it, and its classification into a closed
 * set of event kinds (the `match` on `data.event_type` in `handle_call`).
 */
module Events {
  import opened Wrappers

  /** The provider-assigned `call_control_id`. */
  type CallId = string

  /** The eight recognised event kinds, an unrecognised kind, and a body with no `event_type`. */
  datatype Event =
    | CallInitiated(id: CallId)
    | CallReceived(id: CallId)
    | CallAnswered(id: CallId)
    | StreamingStarted
    | MediaStreaming(id: CallId, chunk: Option<string>)
    | StreamingStopped(id: CallId)
    | CallHangup(id: CallId)
    | PlaybackEnded(id: CallId)
    | Other(kind: string)
    | Missing

  /**
   * The fields of a decoded body the dispatcher reads: `data.event_type` (absent when
   * the body has none), `data.payload.call_control_id` and `data.payload.chunk`.
   */
  datatype RawEvent = RawEvent(eventType: Option<string>, callControlId: CallId, chunk: Option<string>)

  const KnownKinds: set<string> :=
    {"call.initiated", "call.received", "call.answered", "streaming.started",
     "media.streaming", "streaming.stopped", "call.hangup", "call.playback.ended"}

  /** The `event_type` string an event carries. */
  function Kind(ev: Event): Option<string>
  {
    match ev
    case CallInitiated(_) => Some("call.initiated")
    case CallReceived(_) => Some("call.received")
    case CallAnswered(_) => Some("call.answered")
    case StreamingStarted => Some("streaming.started")
    case MediaStreaming(_, _) => Some("media.streaming")
    case StreamingStopped(_) => Some("streaming.stopped")
    case CallHangup(_) => Some("call.hangup")
    case PlaybackEnded(_) => Some("call.playback.ended")
    case Other(k) => Some(k)
    case Missing => None
  }

  /** The call an event names, for the kinds whose branch reads `call_control_id`. */
  function CallOf(ev: Event): Option<CallId>
  {
    match ev
    case StreamingStarted => None
    case Other(_) => None
    case Missing => None
    case _ => Some(ev.id)
  }

  /** Classification: exact string match on the event type; anything else is `Other`. */
  function Classify(raw: RawEvent): (ev: Event)
    ensures Kind(ev) == raw.eventType
    ensures ev.Missing? <==> raw.eventType.None?
    ensures ev.Other? <==> raw.eventType.Some? && raw.eventType.value !in KnownKinds
    ensures CallOf(ev).Some? ==> CallOf(ev) == Some(raw.callControlId)
    ensures ev.MediaStreaming? ==> ev.chunk == raw.chunk
  {
    match raw.eventType
    case None => Missing
    case Some(t) =>
      if t == "call.initiated" then CallInitiated(raw.callControlId)
      else if t == "call.received" then CallReceived(raw.callControlId)
      else if t == "call.answered" then CallAnswered(raw.callControlId)
      else if t == "streaming.started" then StreamingStarted
      else if t == "media.streaming" then MediaStreaming(raw.callControlId, raw.chunk)
      else if t == "streaming.stopped" then StreamingStopped(raw.callControlId)
      else if t == "call.hangup" then CallHangup(raw.callControlId)
      else if t == "call.playback.ended" then PlaybackEnded(raw.callControlId)
      else Other(t)
  }

  /** A body that carries exactly what the event says. */
  function Raw(ev: Event): RawEvent
  {
    RawEvent(Kind(ev),
             match CallOf(ev) case Some(id) => id case None => "",
             if ev.MediaStreaming? then ev.chunk else None)
  }

  /** Classification recovers every event whose `Other` kind is really unrecognised. */
  lemma ClassifyRaw(ev: Event)
    requires ev.Other? ==> ev.kind !in KnownKinds
    ensures Classify(Raw(ev)) == ev
  {
  }
}
