// Wire-level vocabulary of the call relay: the already-parsed frames that
// arrive from the telephony media stream and from the realtime AI endpoint,
// and the commands the relay sends to either side.

module Messages {

  datatype Option<T> = None | Some(value: T)

  /** The label every playback mark carries (main.py:234, 237). */
  const MarkName: string := "responsePart"

  /** Python truthiness of an optional string: present and not empty.
      The relay tests `stream_sid`, `last_assistant_item` and the delta's
      `item_id` this way, so an empty id counts as unset. */
  predicate IsSet(o: Option<string>)
  {
    o.Some? && o.value != ""
  }

  /** A frame from the telephony media stream, after JSON decoding.
      `MalformedFrame` stands for a text frame whose handling raises: one
      that is not JSON or has no `event`, a `start` without
      `start.streamSid`, or, while the AI connection is open, a `media`
      without `media.timestamp` or `media.payload`. A media frame that the
      closed connection makes the relay ignore is a `MediaFrame` whatever
      its fields. */
  datatype TwilioFrame =
    | MediaFrame(timestamp: int, payload: string)
    | StartFrame(streamSid: string)
    | MarkFrame(name: string)
    | OtherFrame(event: string)
    | MalformedFrame

  /** An event from the AI endpoint, after JSON decoding.
      `AudioDelta` is an event of type `response.audio.delta`; `delta` is None
      when the event has no `delta` key. `OtherEvent` is any other type.
      `MalformedEvent` stands for a message that is not JSON, has no `type`,
      or whose delta is not base64. */
  datatype AiEvent =
    | AudioDelta(delta: Option<string>, itemId: Option<string>)
    | SpeechStarted
    | OtherEvent(kind: string)
    | MalformedEvent

  /** Commands sent out. `Append` and `Truncate` go to the AI endpoint,
      `Media`, `Mark` and `Clear` to the telephony side. A `None` stream id
      is sent as JSON null. */
  datatype Command =
    | Append(audio: string)
    | Media(sid: Option<string>, payload: string)
    | Mark(markSid: string, name: string)
    | Truncate(item: string, contentIndex: int, audioEndMs: int)
    | Clear(clearSid: Option<string>)

  /** One message as seen by the relay, in the order the two pumps happened
      to receive them. A telephony frame carries whether the AI connection
      was open when the frame was handled. */
  datatype Inbound =
    | FromTwilio(frame: TwilioFrame, aiOpen: bool)
    | FromAi(event: AiEvent)
}
