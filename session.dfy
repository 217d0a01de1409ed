// The per-call relay of main.py:110-239 as an object: the five variables the
// closures of `handle_media_stream` capture become fields, every outbound
// send is appended to `log`, and each handler is a method that updates the
// fields in place, one inbound message at a time.

module RelaySession {
  import opened Messages
  import opened Relay

  class Session {
    var streamSid: Option<string>
    var latestMediaTimestamp: int
    var lastAssistantItem: Option<string>
    var markQueue: seq<string>
    var responseStartTimestamp: Option<int>
    /** Every command sent to either side, in sending order. */
    var log: seq<Command>
    /** Acknowledgments that removed a token since the last `clear`. */
    ghost var acked: nat

    /** The fields as a value of the reference semantics. */
    function View(): State
      reads this
    {
      State(streamSid, latestMediaTimestamp, lastAssistantItem, markQueue, responseStartTimestamp)
    }

    /** The queue invariant, and the queue's length is the number of marks
        sent since the last clear minus the acknowledgments that removed one. */
    ghost predicate Valid()
      reads this
    {
      && QueueInvariant(View())
      && |markQueue| + acked == MarksSinceLastClear(log)
    }

    /** The connection-specific state at main.py:126-130. */
    constructor ()
      ensures Valid()
      ensures View() == Initial() && log == []
    {
      streamSid := None;
      latestMediaTimestamp := 0;
      lastAssistantItem := None;
      markQueue := [];
      responseStartTimestamp := None;
      log := [];
      acked := 0;
    }

    /** A telephony `media` frame (main.py:138-144). */
    method OnMedia(timestamp: int, payload: string, aiOpen: bool)
      requires Valid()
      modifies this
      ensures Valid()
      ensures aiOpen ==>
                View() == old(View()).(latestMediaTimestamp := timestamp) &&
                log == old(log) + [Append(payload)]
      ensures !aiOpen ==> View() == old(View()) && log == old(log)
    {
      if aiOpen {
        latestMediaTimestamp := timestamp;
        AppendNonClear(log, Append(payload));
        log := log + [Append(payload)];
      }
    }

    /** A telephony `start` frame (main.py:145-150). Only the stream id and
        the clock are shared here (line 134); the two other resets bind
        variables local to the handler, so the reply being tracked, its
        start and the mark queue survive a restart. */
    method OnStart(sid: string)
      requires Valid()
      modifies this
      ensures Valid()
      ensures View() == old(View()).(streamSid := Some(sid), latestMediaTimestamp := 0)
      ensures log == old(log)
    {
      streamSid := Some(sid);
      latestMediaTimestamp := 0;
    }

    /** A telephony `mark` acknowledgment (main.py:151-153): the oldest token
        leaves the queue; an acknowledgment with none pending does nothing. */
    method OnMark()
      requires Valid()
      modifies this
      ensures Valid()
      ensures old(markQueue) != [] ==> View() == old(View()).(markQueue := old(markQueue)[1..])
      ensures old(markQueue) == [] ==> View() == old(View())
      ensures log == old(log)
    {
      if markQueue != [] {
        markQueue := markQueue[1..];
        acked := acked + 1;
      }
    }

    /** send_mark (main.py:229-237): with a set stream id, one `mark` goes to
        the telephony side and one token joins the queue; otherwise nothing.
        Its one caller records the reply start first (main.py:179-188). */
    method SendMark()
      requires Valid() && responseStartTimestamp.Some?
      modifies this
      ensures Valid()
      ensures IsSet(streamSid) ==>
                View() == old(View()).(markQueue := old(markQueue) + [MarkName]) &&
                log == old(log) + [Mark(streamSid.value, MarkName)]
      ensures !IsSet(streamSid) ==> View() == old(View()) && log == old(log)
    {
      if IsSet(streamSid) {
        AppendNonClear(log, Mark(streamSid.value, MarkName));
        log := log + [Mark(streamSid.value, MarkName)];
        markQueue := markQueue + [MarkName];
      }
    }

    /** An AI `response.audio.delta` event carrying a delta (main.py:168-188):
        one `media` with the current stream id, the reply start recorded only
        if none was, the item id taken only when one is given, then send_mark. */
    method OnAudioDelta(payload: string, itemId: Option<string>)
      requires Valid()
      modifies this
      ensures Valid()
      ensures streamSid == old(streamSid) && latestMediaTimestamp == old(latestMediaTimestamp)
      ensures responseStartTimestamp ==
                (if old(responseStartTimestamp).None? then Some(old(latestMediaTimestamp))
                 else old(responseStartTimestamp))
      ensures lastAssistantItem == (if IsSet(itemId) then itemId else old(lastAssistantItem))
      ensures IsSet(streamSid) ==>
                markQueue == old(markQueue) + [MarkName] &&
                log == old(log) + [Media(streamSid, payload), Mark(streamSid.value, MarkName)]
      ensures !IsSet(streamSid) ==>
                markQueue == old(markQueue) &&
                log == old(log) + [Media(streamSid, payload)]
    {
      AppendNonClear(log, Media(streamSid, payload));
      log := log + [Media(streamSid, payload)];
      if responseStartTimestamp.None? {
        responseStartTimestamp := Some(latestMediaTimestamp);
      }
      if IsSet(itemId) {
        lastAssistantItem := itemId;
      }
      SendMark();
    }

    /** handle_speech_started_event (main.py:199-227): with tokens pending
        and a reply start recorded, truncate the item at the telephony time
        elapsed since that start (not clamped), clear the telephony buffer,
        and forget the reply; otherwise nothing. */
    method HandleSpeechStarted()
      requires Valid()
      modifies this
      ensures Valid()
      ensures old(markQueue) != [] && old(responseStartTimestamp).Some? ==>
                && View() == old(View()).(markQueue := [], lastAssistantItem := None, responseStart := None)
                && log == old(log)
                          + (if IsSet(old(lastAssistantItem))
                             then [Truncate(old(lastAssistantItem).value, 0,
                                            latestMediaTimestamp - old(responseStartTimestamp).value)]
                             else [])
                          + [Clear(streamSid)]
      ensures !(old(markQueue) != [] && old(responseStartTimestamp).Some?) ==>
                View() == old(View()) && log == old(log)
    {
      if markQueue != [] && responseStartTimestamp.Some? {
        var elapsed := latestMediaTimestamp - responseStartTimestamp.value;
        if IsSet(lastAssistantItem) {
          log := log + [Truncate(lastAssistantItem.value, 0, elapsed)];
        }
        log := log + [Clear(streamSid)];
        markQueue := [];
        acked := 0;
        lastAssistantItem := None;
        responseStartTimestamp := None;
      }
    }

    /** An AI `input_audio_buffer.speech_started` event (main.py:191-195).
        It interrupts exactly when an item is tracked, tokens are pending
        and a reply start is recorded: then one truncate at the elapsed
        telephony time and one clear are sent and the reply is forgotten. */
    method OnSpeechStarted()
      requires Valid()
      modifies this
      ensures Valid()
      ensures IsSet(old(lastAssistantItem)) && old(markQueue) != [] && old(responseStartTimestamp).Some? ==>
                && View() == old(View()).(markQueue := [], lastAssistantItem := None, responseStart := None)
                && log == old(log) + [Truncate(old(lastAssistantItem).value, 0,
                                               latestMediaTimestamp - old(responseStartTimestamp).value),
                                      Clear(streamSid)]
      ensures !(IsSet(old(lastAssistantItem)) && old(markQueue) != [] && old(responseStartTimestamp).Some?) ==>
                View() == old(View()) && log == old(log)
    {
      if IsSet(lastAssistantItem) {
        HandleSpeechStarted();
      }
    }

    /** One iteration of receive_from_twilio's loop (main.py:136-153).
        `proceed` is false when the frame ends the session. */
    method ReceiveFromTwilio(frame: TwilioFrame, aiOpen: bool) returns (proceed: bool)
      requires Valid()
      modifies this
      ensures Valid()
      ensures View() == TwilioStep(old(View()), frame, aiOpen).state
      ensures log == old(log) + TwilioStep(old(View()), frame, aiOpen).emitted
      ensures proceed == !TwilioStep(old(View()), frame, aiOpen).halted
    {
      proceed := true;
      match frame
      case MediaFrame(ts, payload) =>
        OnMedia(ts, payload, aiOpen);
      case StartFrame(sid) =>
        OnStart(sid);
      case MarkFrame(_) =>
        OnMark();
      case OtherFrame(_) =>
      case MalformedFrame =>
        proceed := false;
    }

    /** One iteration of send_to_twilio's loop (main.py:163-195).
        `proceed` is false when the event ends the AI-side pump. */
    method SendToTwilio(event: AiEvent) returns (proceed: bool)
      requires Valid()
      modifies this
      ensures Valid()
      ensures View() == AiStep(old(View()), event).state
      ensures log == old(log) + AiStep(old(View()), event).emitted
      ensures proceed == !AiStep(old(View()), event).halted
    {
      proceed := true;
      match event
      case AudioDelta(delta, itemId) =>
        if delta.Some? {
          OnAudioDelta(delta.value, itemId);
        }
      case SpeechStarted =>
        OnSpeechStarted();
      case OtherEvent(_) =>
      case MalformedEvent =>
        proceed := false;
    }

    /** Hands one message to the pump that reads it; the AI-side pump reads
        nothing once it has stopped. */
    method Dispatch(m: Inbound, aiAlive: bool) returns (stillAlive: bool, ended: bool)
      requires Valid()
      modifies this
      ensures Valid()
      ensures View() == Deliver(old(View()), aiAlive, m).state
      ensures log == old(log) + Deliver(old(View()), aiAlive, m).emitted
      ensures stillAlive == Deliver(old(View()), aiAlive, m).aiAlive
      ensures ended == Deliver(old(View()), aiAlive, m).ended
    {
      stillAlive, ended := aiAlive, false;
      match m
      case FromTwilio(frame, aiOpen) =>
        var proceed := ReceiveFromTwilio(frame, aiOpen);
        ended := !proceed;
      case FromAi(event) =>
        if aiAlive {
          stillAlive := SendToTwilio(event);
        } else {
          stillAlive := false;
        }
    }

    /** Both pumps (main.py:136, 163, 239) over one interleaving of their
        inputs, each message handled to completion before the next. */
    method Run(script: seq<Inbound>)
      requires Valid()
      modifies this
      ensures Valid()
      ensures Outcome(View(), log) == Replay(old(View()), true, script, old(log))
    {
      ghost var whole := Replay(View(), true, script, log);
      var i := 0;
      var aiAlive := true;
      while i < |script|
        invariant 0 <= i <= |script|
        invariant Valid()
        invariant Replay(View(), aiAlive, script[i..], log) == whole
      {
        assert script[i..][0] == script[i] && script[i..][1..] == script[i + 1..];
        var ended;
        aiAlive, ended := Dispatch(script[i], aiAlive);
        if ended {
          return;
        }
        i := i + 1;
      }
    }
  }

  /** A caller of the class: a call starts on stream abc, a reply chunk for
      item x1 is played at telephony time 0, the caller is heard at 1200 ms
      and barges in. The reply is truncated at 1200 ms and the telephony
      buffer cleared. */
  method BargeInCall() returns (sent: seq<Command>)
    ensures sent == [Media(Some("abc"), "out"), Mark("abc", MarkName), Append("in"),
                     Truncate("x1", 0, 1200), Clear(Some("abc"))]
  {
    var call := new Session();
    call.OnStart("abc");
    call.OnAudioDelta("out", Some("x1"));
    call.OnMedia(1200, "in", true);
    call.OnSpeechStarted();
    assert call.lastAssistantItem == None && call.markQueue == [];
    sent := call.log;
  }
}
