// Reference semantics of the per-call relay state (main.py:126-237): the
// five variables the closures of `handle_media_stream` share, and the effect
// of one inbound message on them as a pure function. The Session class in
// RelaySession is proved to follow these functions step by step.

module Relay {
  import opened Messages

  /** The connection-specific state of main.py:126-130. */
  datatype State = State(
    streamSid: Option<string>,
    latestMediaTimestamp: int,
    lastAssistantItem: Option<string>,
    markQueue: seq<string>,
    responseStart: Option<int>)

  /** What one message does: the next state, the commands sent while
      handling it, and whether it stopped the pump that received it. */
  datatype Step = Step(state: State, emitted: seq<Command>, halted: bool)

  /** The mark queue holds only `responsePart` tokens (main.py:237) and is
      empty whenever no reply start is recorded. */
  ghost predicate QueueInvariant(s: State)
  {
    && (forall i | 0 <= i < |s.markQueue| :: s.markQueue[i] == MarkName)
    && (s.markQueue != [] ==> s.responseStart.Some?)
  }

  /** The state a call starts in (main.py:126-130). */
  function Initial(): State
  {
    State(None, 0, None, [], None)
  }

  function Unchanged(s: State): Step
  {
    Step(s, [], false)
  }

  // ---------------------------------------------------------------------
  // Telephony side: receive_from_twilio (main.py:132-153)

  /** A `media` frame (main.py:138-144): only while the AI connection is open
      is the clock advanced and the audio forwarded. */
  function OnMedia(s: State, timestamp: int, payload: string, aiOpen: bool): Step
  {
    if aiOpen then Step(s.(latestMediaTimestamp := timestamp), [Append(payload)], false)
    else Unchanged(s)
  }

  /** A `start` frame (main.py:145-150). The assignments to the reply-tracking
      variables at lines 148 and 150 bind locals of the closure, since its
      `nonlocal` (line 134) names only the stream id and the clock. */
  function OnStart(s: State, sid: string): Step
  {
    Step(s.(streamSid := Some(sid), latestMediaTimestamp := 0), [], false)
  }

  /** A `mark` acknowledgment (main.py:151-153): drop the oldest token. */
  function OnMarkAck(s: State): Step
  {
    if s.markQueue != [] then Step(s.(markQueue := s.markQueue[1..]), [], false)
    else Unchanged(s)
  }

  /** Dispatch of one telephony frame. A malformed frame raises an exception
      that receive_from_twilio does not catch, which ends the session. */
  function TwilioStep(s: State, frame: TwilioFrame, aiOpen: bool): Step
  {
    match frame
    case MediaFrame(ts, payload) => OnMedia(s, ts, payload, aiOpen)
    case StartFrame(sid) => OnStart(s, sid)
    case MarkFrame(_) => OnMarkAck(s)
    case OtherFrame(_) => Unchanged(s)
    case MalformedFrame => Step(s, [], true)
  }

  // ---------------------------------------------------------------------
  // AI side: send_to_twilio, send_mark, handle_speech_started_event
  // (main.py:159-237)

  /** send_mark (main.py:229-237): only with a set stream id. */
  function SendMark(s: State): Step
  {
    if IsSet(s.streamSid) then
      Step(s.(markQueue := s.markQueue + [MarkName]), [Mark(s.streamSid.value, MarkName)], false)
    else Unchanged(s)
  }

  /** A `response.audio.delta` event carrying a delta (main.py:168-188). */
  function OnAudioDelta(s: State, payload: string, itemId: Option<string>): Step
  {
    var anchored := s.(
      responseStart := if s.responseStart.None? then Some(s.latestMediaTimestamp) else s.responseStart,
      lastAssistantItem := if IsSet(itemId) then itemId else s.lastAssistantItem);
    var mark := SendMark(anchored);
    Step(mark.state, [Media(s.streamSid, payload)] + mark.emitted, false)
  }

  /** handle_speech_started_event (main.py:199-227): the barge-in. */
  function HandleSpeechStarted(s: State): Step
  {
    if s.markQueue != [] && s.responseStart.Some? then
      var elapsed := s.latestMediaTimestamp - s.responseStart.value;
      var truncate := if IsSet(s.lastAssistantItem) then [Truncate(s.lastAssistantItem.value, 0, elapsed)] else [];
      Step(s.(markQueue := [], lastAssistantItem := None, responseStart := None),
           truncate + [Clear(s.streamSid)], false)
    else Unchanged(s)
  }

  /** An `input_audio_buffer.speech_started` event (main.py:191-195). */
  function OnSpeechStarted(s: State): Step
  {
    if IsSet(s.lastAssistantItem) then HandleSpeechStarted(s) else Unchanged(s)
  }

  /** Dispatch of one AI event. A failing event is caught at main.py:196,
      outside the loop, so it ends the AI-side pump. */
  function AiStep(s: State, event: AiEvent): Step
  {
    match event
    case AudioDelta(delta, itemId) =>
      if delta.Some? then OnAudioDelta(s, delta.value, itemId) else Unchanged(s)
    case SpeechStarted => OnSpeechStarted(s)
    case OtherEvent(_) => Unchanged(s)
    case MalformedEvent => Step(s, [], true)
  }

  // ---------------------------------------------------------------------
  // Both pumps over one interleaving of their inputs (main.py:136, 163, 239)

  /** The effect of delivering one message to whichever pump reads it:
      the next state, the commands sent, whether the AI-side pump is still
      reading, and whether the session has ended. */
  datatype Progress = Progress(state: State, emitted: seq<Command>, aiAlive: bool, ended: bool)

  function Deliver(s: State, aiAlive: bool, m: Inbound): Progress
  {
    match m
    case FromTwilio(frame, aiOpen) =>
      var step := TwilioStep(s, frame, aiOpen);
      Progress(step.state, step.emitted, aiAlive, step.halted)
    case FromAi(event) =>
      if !aiAlive then Progress(s, [], false, false)
      else
        var step := AiStep(s, event);
        Progress(step.state, step.emitted, !step.halted, false)
  }

  /** The state and the whole command log at the end of a run. */
  datatype Outcome = Outcome(state: State, log: seq<Command>)

  /** Messages handled one at a time in the order given, until the script
      runs out or a telephony frame ends the session (main.py:136, 163, 239);
      `sent` is the log so far. */
  function Replay(s: State, aiAlive: bool, script: seq<Inbound>, sent: seq<Command>): Outcome
    decreases |script|
  {
    if script == [] then Outcome(s, sent)
    else
      var p := Deliver(s, aiAlive, script[0]);
      if p.ended then Outcome(p.state, sent + p.emitted)
      else Replay(p.state, p.aiAlive, script[1..], sent + p.emitted)
  }

  // ---------------------------------------------------------------------
  // Reading the command log

  /** The number of `mark` commands sent after the last `clear` of a log
      (in the whole log if it has none). */
  function MarksSinceLastClear(log: seq<Command>): nat
  {
    if log == [] then 0
    else if log[|log| - 1].Clear? then 0
    else (if log[|log| - 1].Mark? then 1 else 0) + MarksSinceLastClear(log[..|log| - 1])
  }

  /** Sending a command other than `clear` adds one to the count for a mark
      and nothing otherwise. */
  lemma AppendNonClear(log: seq<Command>, c: Command)
    requires !c.Clear?
    ensures MarksSinceLastClear(log + [c]) == MarksSinceLastClear(log) + (if c.Mark? then 1 else 0)
  {
    assert (log + [c])[..|log|] == log;
  }
}
