// Properties of the relay over whole runs: what a single message does to the
// shared state, which side owns which variable, the invariant of the mark
// queue, the order of outbound commands, and when the truncation point can
// be negative.

module RelayProperties {
  import opened Messages
  import opened Relay

  // ---------------------------------------------------------------------
  // The barge-in decision (main.py:191-227)

  /** A speech-started event interrupts exactly when an item is tracked,
      tokens are pending and a reply start is recorded; it then sends one
      truncate at the unclamped elapsed telephony time and one clear, and
      forgets the reply. Otherwise it sends nothing and changes nothing. */
  lemma SpeechStartedInterruptsExactly(s: State)
    ensures var r := AiStep(s, SpeechStarted);
            var fires := IsSet(s.lastAssistantItem) && s.markQueue != [] && s.responseStart.Some?;
            && !r.halted
            && (fires ==>
                  && r.emitted == [Truncate(s.lastAssistantItem.value, 0,
                                            s.latestMediaTimestamp - s.responseStart.value),
                                   Clear(s.streamSid)]
                  && r.state == s.(markQueue := [], lastAssistantItem := None, responseStart := None))
            && (!fires ==> r.emitted == [] && r.state == s)
  {
  }

  /** Under the queue invariant the reply-start test of main.py:203 never
      decides anything: a pending token implies a recorded start. */
  lemma PendingTokenImpliesAnchor(s: State)
    requires QueueInvariant(s)
    ensures (HandleSpeechStarted(s).emitted != []) <==> s.markQueue != []
  {
  }

  /** Messages the relay reads but does not act on: a media frame while the
      AI connection is closed, a telephony frame of another kind, an audio
      event without a delta, an AI event of another type, and anything sent
      to an AI-side pump that has stopped. */
  ghost predicate Ignored(m: Inbound, aiAlive: bool)
  {
    match m
    case FromTwilio(MediaFrame(_, _), aiOpen) => !aiOpen
    case FromTwilio(OtherFrame(_), _) => true
    case FromTwilio(_, _) => false
    case FromAi(AudioDelta(None, _)) => true
    case FromAi(OtherEvent(_)) => true
    case FromAi(_) => !aiAlive
  }

  /** An ignored message changes no state and sends nothing
      (main.py:138, 145, 151, 168, 191). */
  lemma IgnoredMessagesChangeNothing(s: State, aiAlive: bool, m: Inbound)
    requires Ignored(m, aiAlive)
    ensures Deliver(s, aiAlive, m) == Progress(s, [], aiAlive, false)
  {
  }

  // ---------------------------------------------------------------------
  // The queue invariant (main.py:152-153, 179-188, 225, 237)

  lemma DeliverKeepsQueueInvariant(s: State, aiAlive: bool, m: Inbound)
    requires QueueInvariant(s)
    ensures QueueInvariant(Deliver(s, aiAlive, m).state)
  {
  }

  /** Every state a call reaches satisfies the queue invariant. */
  lemma {:induction false} ReplayKeepsQueueInvariant(s: State, aiAlive: bool, script: seq<Inbound>, sent: seq<Command>)
    requires QueueInvariant(s)
    ensures QueueInvariant(Replay(s, aiAlive, script, sent).state)
    decreases |script|
  {
    if script != [] {
      var p := Deliver(s, aiAlive, script[0]);
      DeliverKeepsQueueInvariant(s, aiAlive, script[0]);
      if !p.ended {
        ReplayKeepsQueueInvariant(p.state, p.aiAlive, script[1..], sent + p.emitted);
      }
    }
  }

  lemma InitialQueueInvariant()
    ensures QueueInvariant(Initial())
  {
  }

  // ---------------------------------------------------------------------
  // Which side writes which variable (main.py:134, 161, 201)

  /** The telephony clock as the telephony frames alone determine it: an
      accepted media frame sets it, a start frame resets it to 0, and a
      malformed frame ends the session. */
  function ClockAfter(t: int, script: seq<Inbound>): int
    decreases |script|
  {
    if script == [] then t
    else
      match script[0]
      case FromTwilio(MediaFrame(ts, _), aiOpen) => ClockAfter(if aiOpen then ts else t, script[1..])
      case FromTwilio(StartFrame(_), _) => ClockAfter(0, script[1..])
      case FromTwilio(MalformedFrame, _) => t
      case FromTwilio(_, _) => ClockAfter(t, script[1..])
      case FromAi(_) => ClockAfter(t, script[1..])
  }

  /** The stream id as the telephony frames alone determine it. */
  function StreamAfter(sid: Option<string>, script: seq<Inbound>): Option<string>
    decreases |script|
  {
    if script == [] then sid
    else
      match script[0]
      case FromTwilio(StartFrame(id), _) => StreamAfter(Some(id), script[1..])
      case FromTwilio(MalformedFrame, _) => sid
      case FromTwilio(_, _) => StreamAfter(sid, script[1..])
      case FromAi(_) => StreamAfter(sid, script[1..])
  }

  /** The clock and the stream id are written only by the telephony pump:
      at the end of any run they are what the telephony frames make them,
      whatever the AI side sent in between. In particular, after a run of
      media frames the clock holds the last accepted frame's timestamp. */
  lemma {:induction false} TelephonyOwnsClockAndStream(s: State, aiAlive: bool, script: seq<Inbound>, sent: seq<Command>)
    ensures Replay(s, aiAlive, script, sent).state.latestMediaTimestamp == ClockAfter(s.latestMediaTimestamp, script)
    ensures Replay(s, aiAlive, script, sent).state.streamSid == StreamAfter(s.streamSid, script)
    decreases |script|
  {
    if script != [] {
      var p := Deliver(s, aiAlive, script[0]);
      if !p.ended {
        TelephonyOwnsClockAndStream(p.state, p.aiAlive, script[1..], sent + p.emitted);
      }
    }
  }

  /** Only telephony frames in a script. */
  ghost predicate TelephonyOnly(script: seq<Inbound>)
  {
    forall i | 0 <= i < |script| :: script[i].FromTwilio?
  }

  /** The rest of a telephony-only script is telephony-only. */
  lemma TelephonyOnlyTail(script: seq<Inbound>)
    requires script != [] && TelephonyOnly(script)
    ensures TelephonyOnly(script[1..])
  {
    forall i | 0 <= i < |script[1..]| ensures script[1..][i].FromTwilio? {
      assert script[1..][i] == script[i + 1];
    }
  }

  /** One telephony frame leaves the tracked item and the reply start alone
      and at most removes the oldest token of the queue. */
  lemma TelephonyStepKeepsReplyTracking(s: State, aiAlive: bool, m: Inbound)
    requires m.FromTwilio?
    ensures var p := Deliver(s, aiAlive, m);
            && p.state.lastAssistantItem == s.lastAssistantItem
            && p.state.responseStart == s.responseStart
            && (p.state.markQueue == s.markQueue || (s.markQueue != [] && p.state.markQueue == s.markQueue[1..]))
  {
  }

  /** The telephony pump never writes the reply-tracking variables: a start
      frame leaves the tracked item, the reply start and the commands sent
      alone (main.py:134, 148, 150), and acknowledgments only ever remove the
      oldest tokens of the queue (main.py:153). */
  lemma {:induction false} TelephonyKeepsReplyTracking(s: State, aiAlive: bool, script: seq<Inbound>, sent: seq<Command>)
    requires TelephonyOnly(script)
    ensures Replay(s, aiAlive, script, sent).state.lastAssistantItem == s.lastAssistantItem
    ensures Replay(s, aiAlive, script, sent).state.responseStart == s.responseStart
    ensures var q := Replay(s, aiAlive, script, sent).state.markQueue;
            |q| <= |s.markQueue| && q == s.markQueue[|s.markQueue| - |q|..]
    decreases |script|
  {
    if script != [] {
      var p := Deliver(s, aiAlive, script[0]);
      assert script[0].FromTwilio?;
      TelephonyStepKeepsReplyTracking(s, aiAlive, script[0]);
      if !p.ended {
        TelephonyOnlyTail(script);
        assert Replay(s, aiAlive, script, sent) == Replay(p.state, p.aiAlive, script[1..], sent + p.emitted);
        TelephonyKeepsReplyTracking(p.state, p.aiAlive, script[1..], sent + p.emitted);
        var q := Replay(p.state, p.aiAlive, script[1..], sent + p.emitted).state.markQueue;
        if p.state.markQueue != s.markQueue {
          assert s.markQueue[|s.markQueue| - |q|..] == s.markQueue[1..][|p.state.markQueue| - |q|..];
        }
      }
    }
  }

  // ---------------------------------------------------------------------
  // Order of outbound commands (main.py:177, 188, 218, 220, 236)

  /** Every `mark` in a log comes right after a `media` for the same stream. */
  ghost predicate MarksFollowMedia(log: seq<Command>)
  {
    forall i | 0 <= i < |log| && log[i].Mark? :: 0 < i && log[i - 1].Media? && log[i - 1].sid == Some(log[i].markSid)
  }

  lemma ConcatMarksFollowMedia(a: seq<Command>, b: seq<Command>)
    requires MarksFollowMedia(a) && MarksFollowMedia(b)
    requires b != [] ==> !b[0].Mark?
    ensures MarksFollowMedia(a + b)
  {
    forall i | 0 <= i < |a + b| && (a + b)[i].Mark?
      ensures 0 < i && (a + b)[i - 1].Media? && (a + b)[i - 1].sid == Some((a + b)[i].markSid)
    {
      if i >= |a| {
        assert (a + b)[i] == b[i - |a|];
        assert i - |a| > 0;
        assert (a + b)[i - 1] == b[i - 1 - |a|];
      }
    }
  }

  /** One message sends a well-ordered batch that does not begin with a mark. */
  lemma DeliverOrdersMarks(s: State, aiAlive: bool, m: Inbound)
    ensures var e := Deliver(s, aiAlive, m).emitted;
            MarksFollowMedia(e) && (e != [] ==> !e[0].Mark?)
  {
  }

  /** In every run each `mark` is sent directly after the `media` it
      accompanies, with the same stream id. */
  lemma {:induction false} ReplayOrdersMarks(s: State, aiAlive: bool, script: seq<Inbound>, sent: seq<Command>)
    requires MarksFollowMedia(sent)
    ensures MarksFollowMedia(Replay(s, aiAlive, script, sent).log)
    decreases |script|
  {
    if script != [] {
      var p := Deliver(s, aiAlive, script[0]);
      DeliverOrdersMarks(s, aiAlive, script[0]);
      ConcatMarksFollowMedia(sent, p.emitted);
      if !p.ended {
        ReplayOrdersMarks(p.state, p.aiAlive, script[1..], sent + p.emitted);
      }
    }
  }

  // ---------------------------------------------------------------------
  // The truncation point (main.py:204, 216)

  /** No truncate in a log names a negative playback offset. */
  ghost predicate TruncationsNonNegative(log: seq<Command>)
  {
    forall i | 0 <= i < |log| && log[i].Truncate? :: log[i].audioEndMs >= 0
  }

  /** A recorded reply start is not later than the telephony clock. */
  ghost predicate Anchored(s: State)
  {
    s.responseStart.Some? ==> s.responseStart.value <= s.latestMediaTimestamp
  }

  /** The telephony clock only moves forward from `t` and the stream is not
      restarted. */
  ghost predicate SteadyClock(t: int, script: seq<Inbound>)
    decreases |script|
  {
    if script == [] then true
    else
      match script[0]
      case FromTwilio(MediaFrame(ts, _), aiOpen) =>
        (aiOpen ==> t <= ts) && SteadyClock(if aiOpen then ts else t, script[1..])
      case FromTwilio(StartFrame(_), _) => false
      case FromTwilio(_, _) => SteadyClock(t, script[1..])
      case FromAi(_) => SteadyClock(t, script[1..])
  }

  lemma DeliverKeepsAnchored(s: State, aiAlive: bool, m: Inbound)
    requires Anchored(s) && SteadyClock(s.latestMediaTimestamp, [m])
    ensures Anchored(Deliver(s, aiAlive, m).state)
    ensures TruncationsNonNegative(Deliver(s, aiAlive, m).emitted)
  {
  }

  lemma ConcatNonNegative(a: seq<Command>, b: seq<Command>)
    requires TruncationsNonNegative(a) && TruncationsNonNegative(b)
    ensures TruncationsNonNegative(a + b)
  {
    forall i | 0 <= i < |a + b| && (a + b)[i].Truncate? ensures (a + b)[i].audioEndMs >= 0 {
      if i >= |a| {
        assert (a + b)[i] == b[i - |a|];
      }
    }
  }

  /** While the clock only moves forward and no restart arrives, every
      truncation point sent is non-negative, although main.py:204 does not
      clamp it. */
  lemma {:induction false} SteadyClockTruncatesNonNegative(s: State, aiAlive: bool, script: seq<Inbound>, sent: seq<Command>)
    requires Anchored(s) && SteadyClock(s.latestMediaTimestamp, script)
    requires TruncationsNonNegative(sent)
    ensures TruncationsNonNegative(Replay(s, aiAlive, script, sent).log)
    decreases |script|
  {
    if script != [] {
      var p := Deliver(s, aiAlive, script[0]);
      assert SteadyClock(s.latestMediaTimestamp, [script[0]]) by {
        assert [script[0]][1..] == [];
      }
      DeliverKeepsAnchored(s, aiAlive, script[0]);
      ConcatNonNegative(sent, p.emitted);
      if !p.ended {
        assert SteadyClock(p.state.latestMediaTimestamp, script[1..]);
        SteadyClockTruncatesNonNegative(p.state, p.aiAlive, script[1..], sent + p.emitted);
      }
    }
  }

  /** A whole call that begins with its start frame and then keeps a clock
      that only moves forward, with no second start, sends no negative
      truncation point. */
  lemma SteadyCallTruncatesNonNegative(sid: string, script: seq<Inbound>)
    requires SteadyClock(0, script)
    ensures TruncationsNonNegative(Replay(Initial(), true, [FromTwilio(StartFrame(sid), true)] + script, []).log)
  {
    var started := Initial().(streamSid := Some(sid));
    var whole := [FromTwilio(StartFrame(sid), true)] + script;
    assert whole[0] == FromTwilio(StartFrame(sid), true) && whole[1..] == script;
    var p := Deliver(Initial(), true, whole[0]);
    assert p.state == started && p.emitted == [] && p.aiAlive && !p.ended;
    assert [] + p.emitted == [];
    assert Replay(Initial(), true, whole, []) == Replay(started, true, script, []);
    SteadyClockTruncatesNonNegative(started, true, script, []);
  }

  /** A restart in the middle of a reply resets the clock but not the reply
      start (main.py:134, 148-149), so the next barge-in sends a negative
      truncation point. */
  lemma RestartMidReplyTruncatesNegative()
    ensures var script := [
              FromTwilio(StartFrame("CA1"), true),
              FromTwilio(MediaFrame(500, "in"), true),
              FromAi(AudioDelta(Some("out"), Some("item1"))),
              FromTwilio(StartFrame("CA2"), true),
              FromAi(SpeechStarted)];
            Replay(Initial(), true, script, []).log ==
              [Append("in"), Media(Some("CA1"), "out"), Mark("CA1", MarkName),
               Truncate("item1", 0, -500), Clear(Some("CA2"))]
  {
  }

  // ---------------------------------------------------------------------
  // A whole call

  /** A call that starts, plays part of a reply and is interrupted after
      1200 ms of telephony time: the reply item is truncated at 1200 ms, the
      telephony buffer is cleared, and the reply is forgotten. */
  lemma BargeInScenario()
    ensures var script := [
              FromTwilio(StartFrame("abc"), true),
              FromAi(AudioDelta(Some("out"), Some("x1"))),
              FromTwilio(MediaFrame(1200, "in"), true),
              FromAi(SpeechStarted)];
            var r := Replay(Initial(), true, script, []);
            && r.log == [Media(Some("abc"), "out"), Mark("abc", MarkName), Append("in"),
                         Truncate("x1", 0, 1200), Clear(Some("abc"))]
            && r.state == State(Some("abc"), 1200, None, [], None)
  {
  }
}
