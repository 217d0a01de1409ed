# Call relay state machine

A Dafny model of the per-call relay in `main.py` of an AI phone assistant.
The relay sits between a telephony media stream and a realtime speech AI
endpoint. For each call, `handle_media_stream` captures five variables in
closures:

- the telephony stream id;
- the telephony clock (`latest_media_timestamp`);
- the AI reply item being played;
- the telephony time at which that reply started playing;
- a FIFO queue of playback `mark` tokens.

Two pumps update these variables one message at a time:

- **Telephony pump** (`receive_from_twilio`). It forwards caller audio to the
  AI endpoint, captures the stream id on `start`, and pops a token on each
  `mark` acknowledgment.
- **AI pump** (`send_to_twilio`). It forwards reply audio to the telephony
  side with a `mark` after each chunk, and anchors the reply start on the
  telephony clock.

When the caller starts speaking over a reply (barge-in),
`handle_speech_started_event` does three things:

- tells the AI endpoint how much of the reply was heard (`truncate`);
- flushes the telephony buffer (`clear`);
- forgets the reply.

The model has four modules:

- `Messages` (messages.dfy): the already-parsed inbound frames and events, and
  the outbound commands `Append`, `Media`, `Mark`, `Truncate` and `Clear`.
- `Relay` (relay.dfy): the reference semantics, as pure functions. `State`
  holds the five shared variables. One function per message kind gives the
  next state and the commands sent. `Deliver` and `Replay` run one
  interleaving of both pumps' inputs.
- `RelaySession` (session.dfy): the relay as it is written, a `Session` class.
  The five variables and a command `log` are fields. There is one method per
  message kind, and the methods update the fields in place. `Run` is the loop
  that feeds both pumps. Each method's contract gives its whole new state. The
  dispatchers and `Run` are proved equal to the reference semantics. `Valid()`
  is the object invariant: the queue invariant, and the queue's length equals
  the marks logged since the last `clear` minus the acknowledgments that
  removed a token.
- `RelayProperties` (properties.dfy): lemmas over whole runs. They cover the
  queue invariant, which pump writes which variable, the order of commands,
  and when the truncation point can be negative.

The reference functions follow the source line by line and carry no
contract of their own; their rows in the table below say what each one
does. The `Session` methods are proved equal to them, and the lemmas are
stated about them.

External effects become parameters:

- Whether the AI connection is open (`openai_ws.open`) is a flag carried by
  each telephony frame.
- Sends are appended to the log.
- An absent string is `None`. The source tests strings by truthiness, so an
  empty id counts as unset (`IsSet`).

## Behaviour of the code as written

Several behaviours of the code are easy to miss on a first reading. The
model follows the code in each case below.

- A `start` frame resets only the stream id and the clock. Only those two
  are declared `nonlocal` in the telephony handler (main.py:134). The
  assignments at main.py:148 and main.py:150 therefore bind locals. The
  tracked reply item, its start time and the mark queue survive a restart.
  `RestartMidReplyTruncatesNegative` shows the consequence: a restart in the
  middle of a reply, followed by a barge-in, yields a truncate at -500 ms.
- The truncation point is not clamped at zero (main.py:204).
  `SteadyClockTruncatesNonNegative` proves when it is non-negative anyway:
  while the clock only moves forward and no restart arrives.
  `SteadyCallTruncatesNonNegative` applies this to a whole call that opens
  with its start frame.
- The interruption is gated on a non-empty mark queue (main.py:203).
- The clock advances only while the AI connection is open (main.py:138).
  Such a frame is otherwise ignored.
- A `mark` is sent only when the stream id is set (main.py:230).
- A failing AI event ends the AI pump rather than being skipped
  (main.py:162, 196). Examples: no `type`, bad JSON, bad base64.
- A telephony frame that fails to parse ends the session. Its exception is
  not `WebSocketDisconnect`, so it escapes the pump (main.py:135, 154).

## Model

| member | source | states |
|---|---|---|
| Relay.OnMedia | main.py:138-144 | reference step of a media frame: with the AI connection open the clock becomes the timestamp and one append of the payload is sent; with it closed nothing happens |
| Relay.OnStart | main.py:145-150 | reference step of a start frame: only the stream id and the clock are reset; the reply-tracking variables keep their values |
| Relay.OnMarkAck | main.py:151-153 | reference step of a mark acknowledgment: the oldest token is dropped if there is one |
| Relay.TwilioStep | main.py:136-153 | dispatch of one telephony frame by event; an unrecognised event does nothing and a malformed frame stops the session |
| Relay.SendMark | main.py:229-237 | with a set stream id, one mark for that stream is sent and one token queued; otherwise nothing |
| Relay.OnAudioDelta | main.py:168-188 | one media message for the current stream, the reply start taken from the clock if none is recorded, the item id taken if set, then send_mark |
| Relay.HandleSpeechStarted | main.py:199-227 | with tokens pending and a reply start recorded, a truncate (if an item is set) at clock minus start and a clear, then the reply is forgotten |
| Relay.OnSpeechStarted | main.py:191-195 | the barge-in runs only while an item is tracked |
| Relay.AiStep | main.py:163-197 | dispatch of one AI event by type; a delta-less audio event or another type does nothing and a failing event stops the AI pump |
| Relay.Deliver | main.py:136-239 | a message goes to the pump that reads it; a stopped AI pump reads nothing; a stopping telephony frame ends the session |
| Relay.Replay | main.py:136-239 | messages handled one at a time in order until the script runs out or the session ends, the log growing by each message's commands |
| RelaySession.Session.constructor | main.py:126-130 | a new call has no stream id, clock 0, no tracked item, an empty mark queue, no reply start, and nothing sent |
| RelaySession.Session.OnMedia | main.py:138-144 | with the AI connection open, the clock becomes the frame's timestamp and exactly one append with the same payload is sent; with it closed nothing changes and nothing is sent; no other variable changes |
| RelaySession.Session.OnStart | main.py:145-150 | the stream id becomes the frame's id and the clock 0; the tracked item, the reply start and the mark queue are unchanged (locals at lines 148, 150); nothing is sent |
| RelaySession.Session.OnMark | main.py:151-153 | on a non-empty queue exactly the oldest token is removed; on an empty queue nothing changes; nothing is sent |
| RelaySession.Session.SendMark | main.py:229-237 | with a set stream id, exactly one mark named responsePart for that stream is sent and one token is appended; otherwise nothing changes; requires the reply start to be recorded, which its one caller does first |
| RelaySession.Session.OnAudioDelta | main.py:168-188 | one media message with the current stream id and the delta's payload, then one mark iff the stream id is set; the reply start is set to the clock only if it was unset; the tracked item is replaced only by a non-empty item id |
| RelaySession.Session.HandleSpeechStarted | main.py:199-227 | with tokens pending and a reply start recorded, sends a truncate of the tracked item (if set) at index 0 and clock minus reply start, then a clear for the stream, and empties the queue, item and start; otherwise nothing |
| RelaySession.Session.OnSpeechStarted | main.py:191-195 | interrupts exactly when the item is set, the queue is non-empty and the start is recorded, sending exactly [truncate, clear] and resetting the queue, item and start; otherwise changes nothing and sends nothing |
| RelaySession.Session.ReceiveFromTwilio | main.py:132-153 | one telephony frame has the effect of the reference step, and a malformed frame ends the session |
| RelaySession.Session.SendToTwilio | main.py:159-197 | one AI event has the effect of the reference step; an event without a delta or of another type does nothing; a failing event ends the AI pump |
| RelaySession.Session.Dispatch | main.py:239 | a message goes to the pump that reads it; a stopped AI pump reads nothing; the effect is the reference semantics' Deliver |
| RelaySession.Session.Run | main.py:132-239 | running both pumps over a script of messages leaves the fields and the log exactly as the reference Replay says, keeping the object invariant |
| RelaySession.BargeInCall | main.py:132-237 | a caller driving the class through start abc, a delta for x1, media at 1200 and a barge-in gets exactly [media, mark, append, truncate(x1, 0, 1200), clear(abc)] sent |
| RelayProperties.SpeechStartedInterruptsExactly | main.py:191-227 | both directions of the interruption condition on the reference semantics, with the exact commands sent and the resets |
| RelayProperties.PendingTokenImpliesAnchor | main.py:203 | under the queue invariant, the barge-in sends something iff the queue is non-empty; the reply-start test never decides |
| RelayProperties.IgnoredMessagesChangeNothing | main.py:138-153 | a media frame with the AI connection closed, an unrecognised frame or event, or a delta-less audio event changes no state and sends nothing |
| RelayProperties.InitialQueueInvariant | main.py:129-130 | a new call satisfies the queue invariant |
| RelayProperties.DeliverKeepsQueueInvariant | main.py:152-237 | every message keeps the queue holding only responsePart tokens and empty whenever no reply start is recorded |
| RelayProperties.ReplayKeepsQueueInvariant | main.py:152-237 | every state reached by any interleaving of messages satisfies the queue invariant |
| RelayProperties.TelephonyOwnsClockAndStream | main.py:134-150 | after any run, the clock and stream id are what the telephony frames alone make them (the last accepted timestamp, 0 after a start), so the AI pump never writes them |
| RelayProperties.TelephonyKeepsReplyTracking | main.py:134-153 | a run of telephony frames alone never changes the tracked item or the reply start; the queue only loses its oldest tokens (FIFO) |
| RelayProperties.DeliverOrdersMarks | main.py:177-188 | the commands one message sends place each mark right after a media message for the same stream, and never start with a mark |
| RelayProperties.ReplayOrdersMarks | main.py:177-188 | in every run's log, each mark comes directly after the media message it accompanies, with the same stream id |
| RelayProperties.DeliverKeepsAnchored | main.py:139-204 | while the clock moves forward with no restart, a recorded reply start stays at or before the clock, and any truncate sent is non-negative |
| RelayProperties.SteadyClockTruncatesNonNegative | main.py:203-218 | while the clock only moves forward and no restart arrives, every truncation point sent in a run is non-negative |
| RelayProperties.TelephonyStepKeepsReplyTracking | main.py:136-153 | one telephony frame leaves the tracked item and the reply start unchanged and at most removes the oldest token of the queue |
| RelayProperties.SteadyCallTruncatesNonNegative | main.py:126-218 | a whole call from the initial state that opens with its start frame and then keeps a forward-moving clock with no second start sends no negative truncation point |
| RelayProperties.RestartMidReplyTruncatesNegative | main.py:134-150 | start, media at 500, a reply delta, a second start and a barge-in produce a truncate at -500 ms, since the restart leaves the reply start stale |
| RelayProperties.BargeInScenario | main.py:132-237 | start abc, a delta for item x1 at clock 0, media at 1200 and a barge-in send truncate(x1, 0, 1200) and clear(abc), leaving no item, no start and an empty queue |

## Left out

- HTTP routes and call-setup markup (main.py:92-108): web framework calls.
- Connection setup and teardown (main.py:114-123, 154-157, 239). The accept,
  the connect, `asyncio.gather`, and closing the AI socket on disconnect are
  transport. The code binds the AI connection as `mn` but uses `openai_ws`;
  the model assumes one AI connection whose open flag each frame reports.
- Concurrency. Each message is handled to completion before the next, in an
  order the script fixes. The source awaits inside a handler (main.py:177,
  188, 218, 220, 236), so the other pump could interleave there; that is not
  modelled.
- Session configuration and the initial greeting (main.py:241-278): fixed
  payloads, with a floating-point temperature.
- JSON parsing (main.py:137, 164) and the base64 round trip (main.py:169).
  Messages arrive already parsed. The audio payload passes through unchanged.
  Parse failures are the malformed frame and malformed event constructors.
- Logging, `LOG_EVENT_TYPES` and `SHOW_TIMING_MATH` (main.py:79-85, 165-166,
  181-182, 205-210): output only.
- Environment and configuration loading (main.py:12-16, 89-90).
- Failed sends on either connection, and errors raised by a send after the
  socket closed. These are transport errors.
- A media frame without `payload` while the AI connection is open: the
  source sets the clock (main.py:139) before the lookup of the payload
  fails (main.py:142). The model's malformed frame ends the session with the
  clock unchanged; since nothing runs after that, only the final clock
  value differs.
