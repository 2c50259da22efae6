/** The live voice session of `useLiveAgent` as an event-driven state
    machine. Each callback of the hook (`startAgent`, the channel's `onopen`,
    `onmessage`, `onclose` and `onerror`, a playback source's `onended`, and
    `stopAgent`) is one atomic step over an immutable session record; the
    browser and SDK objects behind the refs are reduced to what the logic
    observes of them. */
module LiveAgent {
  import opened Wrappers
  import opened Types
  import AudioCodec

  datatype Status = Idle | Connecting | Listening | Processing | Speaking | Error

  /** A reading of the output audio clock (`AudioContext.currentTime`), in seconds. */
  type Time = t: real | t >= 0.0

  /** What `startAgent` hands to the service: the instruction and the voice. */
  datatype SessionConfig = SessionConfig(systemInstruction: string, voice: Voice)

  /** A buffer source scheduled on the output clock. */
  datatype Segment = Segment(start: real, duration: real)

  function End(g: Segment): real { g.start + g.duration }

  predicate Disjoint(a: Segment, b: Segment) {
    End(a) <= b.start || End(b) <= a.start
  }

  /** The parts of a server message the handler reads. `audio` is the inline
      data of the first part of the model turn, `""` when there is none (the
      handler tests it for truthiness). */
  datatype ServerMessage = ServerMessage(
    inputTranscription: Option<string>,
    outputTranscription: Option<string>,
    turnComplete: bool,
    audio: string,
    interrupted: bool)

  /** The hook's state and refs. `playing` is the set of in-flight buffer
      sources, keyed by an identity drawn from `nextSegment`; `channel` is
      the pending session (`sessionPromiseRef`), `microphone` whether a
      capture stream is held (`mediaStreamRef`). */
  datatype Session = Session(
    status: Status,
    userTranscript: string,
    agentTranscript: string,
    fullTranscript: seq<string>,
    nextStartTime: real,
    playing: map<nat, Segment>,
    nextSegment: nat,
    channel: Option<SessionConfig>,
    microphone: bool)

  /** The hook as first rendered. */
  const Init := Session(Idle, "", "", [], 0.0, map[], 0, None, false)

  datatype Event =
    | Start(config: SessionConfig)        // startAgent with the API key present
    | StartFailed(config: SessionConfig)  // startAgent when the API key is missing
    | Open(micGranted: bool)              // onopen; whether getUserMedia resolves
    | Message(msg: ServerMessage, now: Time)  // onmessage at output clock `now`
    | SegmentEnded(id: nat)               // onended of a buffer source
    | Close                               // onclose
    | ChannelError                        // onerror
    | Stop                                // stopAgent called by the page

  function Later(a: real, b: real): (m: real)
    ensures m >= a && m >= b
    ensures m == a || m == b
  {
    if a >= b then a else b
  }

  function YouLine(text: string): string { "You: " + text }
  function AgentLine(text: string): string { "Agent: " + text }

  /** `stopAgent`: release the channel, the microphone and every source,
      rewind the playback clock and clear both partial transcripts. */
  function Teardown(s: Session): (r: Session)
    ensures r.status == Idle
    ensures r.userTranscript == "" && r.agentTranscript == ""
    ensures r.playing == map[] && r.nextStartTime == 0.0
    ensures r.channel.None? && !r.microphone
    ensures r.fullTranscript == s.fullTranscript && r.nextSegment == s.nextSegment
  {
    s.(status := Idle, userTranscript := "", agentTranscript := "",
       nextStartTime := 0.0, playing := map[], channel := None, microphone := false)
  }

  /** The transcript half of `onmessage`: each fragment joins its own
      buffer, and a completed turn moves both buffers into the history. */
  function Transcribe(s: Session, m: ServerMessage): (r: Session)
    ensures r.status == s.status && r.playing == s.playing
    ensures r.nextStartTime == s.nextStartTime && r.nextSegment == s.nextSegment
    ensures r.channel == s.channel && r.microphone == s.microphone
    ensures !m.turnComplete ==>
              && r.fullTranscript == s.fullTranscript
              && r.userTranscript == s.userTranscript + m.inputTranscription.GetOr("")
              && r.agentTranscript == s.agentTranscript + m.outputTranscription.GetOr("")
    ensures m.turnComplete ==>
              && r.userTranscript == "" && r.agentTranscript == ""
              && |r.fullTranscript| == |s.fullTranscript| + 2
              && r.fullTranscript[..|s.fullTranscript|] == s.fullTranscript
              && r.fullTranscript[|s.fullTranscript|]
                   == YouLine(s.userTranscript + m.inputTranscription.GetOr(""))
              && r.fullTranscript[|s.fullTranscript| + 1]
                   == AgentLine(s.agentTranscript + m.outputTranscription.GetOr(""))
  {
    var user := s.userTranscript + m.inputTranscription.GetOr("");
    var agent := s.agentTranscript + m.outputTranscription.GetOr("");
    if m.turnComplete then
      s.(fullTranscript := s.fullTranscript + [YouLine(user), AgentLine(agent)],
         userTranscript := "", agentTranscript := "")
    else
      s.(userTranscript := user, agentTranscript := agent)
  }

  /** The playback length of an audio payload decoded as 24 kHz mono PCM;
      `None` where `atob` or `decodeAudioData` throws. */
  function SegmentDuration(data: string): (d: Option<real>)
    ensures d.Some? <==>
              && AudioCodec.DecodeBytes(data).Some?
              && AudioCodec.DecodeAudioData(AudioCodec.DecodeBytes(data).value, 1).Some?
    ensures d.Some? ==> d.value > 0.0
  {
    match AudioCodec.DecodeBytes(data)
    case None => None
    case Some(bytes) =>
      match AudioCodec.DecodeAudioData(bytes, 1)
      case None => None
      case Some(channels) =>
        Some(AudioCodec.FrameDuration(|channels[0]|, AudioCodec.OutputSampleRate))
  }

  /** Start a decoded segment at the playback clock and advance the clock
      past it. */
  function Enqueue(s: Session, duration: real): (r: Session)
    requires duration > 0.0
    ensures r.playing.Keys == s.playing.Keys + {s.nextSegment}
    ensures r.nextSegment > s.nextSegment
    ensures r.nextStartTime > s.nextStartTime
  {
    s.(playing := s.playing[s.nextSegment := Segment(s.nextStartTime, duration)],
       nextStartTime := s.nextStartTime + duration,
       nextSegment := s.nextSegment + 1)
  }

  /** Barge-in: stop and forget every in-flight source and rewind the clock. */
  function Flush(s: Session): (r: Session)
    ensures r.playing == map[] && r.nextStartTime == 0.0
    ensures r.status == s.status
    ensures r.userTranscript == s.userTranscript && r.agentTranscript == s.agentTranscript
    ensures r.fullTranscript == s.fullTranscript
    ensures r.(playing := s.playing, nextStartTime := s.nextStartTime) == s
  {
    s.(playing := map[], nextStartTime := 0.0)
  }

  /** `onmessage`: transcripts first, then audio, then interruption. When the
      payload cannot be decoded the handler throws after marking the agent
      as speaking and moving the clock, and the rest of it is skipped. */
  function Receive(s: Session, m: ServerMessage, now: Time): (r: Session)
    ensures r.fullTranscript == Transcribe(s, m).fullTranscript
    ensures r.userTranscript == Transcribe(s, m).userTranscript
    ensures r.agentTranscript == Transcribe(s, m).agentTranscript
    ensures r.channel == s.channel && r.microphone == s.microphone
    ensures m.audio == "" ==> r.status == s.status
    ensures m.audio != "" ==> r.status == Speaking
  {
    var t := Transcribe(s, m);
    if m.audio == "" then
      if m.interrupted then Flush(t) else t
    else
      var speaking := t.(status := Speaking, nextStartTime := Later(t.nextStartTime, now));
      match SegmentDuration(m.audio)
      case None => speaking
      case Some(d) =>
        var queued := Enqueue(speaking, d);
        if m.interrupted then Flush(queued) else queued
  }

  /** `onended`: forget the source; once none is left, go back to listening. */
  function EndSegment(s: Session, id: nat): (r: Session)
    ensures r.playing.Keys == s.playing.Keys - {id}
    ensures r.status == (if r.playing == map[] then Listening else s.status)
  {
    var rest := s.playing - {id};
    s.(playing := rest, status := if rest == map[] then Listening else s.status)
  }

  /** One callback of the hook. */
  function Step(s: Session, e: Event): (r: Session)
    ensures r.status == Processing ==> s.status == Processing
    ensures !(e.Start? || e.StartFailed?) ==> s.fullTranscript <= r.fullTranscript
    ensures (e.Start? || e.StartFailed?) ==>
              r.fullTranscript == (if s.status == Idle then [] else s.fullTranscript)
  {
    match e
    case Start(config) =>
      if s.status != Idle then s
      else s.(status := Connecting, fullTranscript := [], channel := Some(config))
    case StartFailed(_) =>
      if s.status != Idle then s
      else s.(status := Error, fullTranscript := [])
    case Open(granted) =>
      if granted then s.(microphone := true, status := Listening) else s
    case Message(m, now) => Receive(s, m, now)
    case SegmentEnded(id) => EndSegment(s, id)
    case Close => Teardown(s)
    case ChannelError => Teardown(s.(status := Error))
    case Stop => Teardown(s)
  }

  /** The session after a sequence of callbacks. */
  function Run(s: Session, events: seq<Event>): Session
    decreases |events|
  {
    if events == [] then s else Run(Step(s, events[0]), events[1..])
  }

  lemma {:induction false} RunConcat(s: Session, a: seq<Event>, b: seq<Event>)
    ensures Run(s, a + b) == Run(Run(s, a), b)
    decreases |a|
  {
    if a == [] {
      assert a + b == b;
    } else {
      assert (a + b)[0] == a[0];
      assert (a + b)[1..] == a[1..] + b;
      RunConcat(Step(s, a[0]), a[1..], b);
    }
  }

  // ---------------------------------------------------------------------
  // Starting

  /** A start is ignored unless the agent is idle, whether or not it would
      have failed. */
  lemma StartIgnoredUnlessIdle(s: Session, c: SessionConfig)
    requires s.status != Idle
    ensures Step(s, Start(c)) == s && Step(s, StartFailed(c)) == s
  {
  }

  /** An accepted start connects with the given configuration and empties the
      history; only the status, history and channel change. */
  lemma StartConnects(s: Session, c: SessionConfig)
    requires s.status == Idle
    ensures Step(s, Start(c)).status == Connecting
    ensures Step(s, Start(c)).fullTranscript == []
    ensures Step(s, Start(c)).channel == Some(c)
    ensures Step(s, Start(c)).(status := s.status, fullTranscript := s.fullTranscript,
                               channel := s.channel) == s
  {
  }

  /** Without an API key the start throws: the history is emptied and the
      agent is left in `error`. */
  lemma StartWithoutKeyErrs(s: Session, c: SessionConfig)
    requires s.status == Idle
    ensures Step(s, StartFailed(c)).status == Error
    ensures Step(s, StartFailed(c)).fullTranscript == []
    ensures Step(s, StartFailed(c)).channel == s.channel
  {
  }

  /** Once the microphone is granted the agent listens; a refused microphone
      leaves everything as it was. */
  lemma OpenListens(s: Session)
    ensures Step(s, Open(true)).status == Listening && Step(s, Open(true)).microphone
    ensures Step(s, Open(false)) == s
  {
  }

  // ---------------------------------------------------------------------
  // Status

  /** No callback ever sets `processing`: from the initial state it is never
      reached. */
  lemma {:induction false} NeverProcessing(s: Session, events: seq<Event>)
    requires s.status != Processing
    ensures Run(s, events).status != Processing
    decreases |events|
  {
    if events != [] {
      NeverProcessing(Step(s, events[0]), events[1..]);
    }
  }

  lemma InitNeverProcessing(events: seq<Event>)
    ensures Run(Init, events).status != Processing
  {
    NeverProcessing(Init, events);
  }

  /** The status after a step, by event: what each callback sets. */
  lemma StatusByEvent(s: Session, e: Event)
    ensures e.Open? && e.micGranted ==> Step(s, e).status == Listening
    ensures e.Message? && e.msg.audio != "" ==> Step(s, e).status == Speaking
    ensures e.Message? && e.msg.audio == "" ==> Step(s, e).status == s.status
    ensures e.SegmentEnded? ==>
              Step(s, e).status == (if s.playing.Keys <= {e.id} then Listening else s.status)
    ensures e.Close? || e.ChannelError? || e.Stop? ==> Step(s, e).status == Idle
  {
    if e.SegmentEnded? {
      var r := Step(s, e);
      if s.playing.Keys <= {e.id} {
        assert r.playing.Keys == {};
      } else {
        var k :| k in s.playing.Keys && k != e.id;
        assert k in r.playing.Keys;
      }
    }
  }

  // ---------------------------------------------------------------------
  // Teardown

  /** Stopping twice is stopping once, and any teardown after a stop changes
      nothing. */
  lemma TeardownIdempotent(s: Session)
    ensures Teardown(Teardown(s)) == Teardown(s)
    ensures Step(Step(s, Stop), Stop) == Step(s, Stop)
    ensures Step(Step(s, Stop), Close) == Step(s, Stop)
    ensures Step(Step(s, Stop), ChannelError) == Step(s, Stop)
  {
  }

  /** A channel error ends `idle`, not `error`: the teardown that follows
      overrides the error status. A close ends the same way. */
  lemma ChannelErrorEndsIdle(s: Session)
    ensures Step(s, ChannelError) == Step(s, Close) == Step(s, Stop)
    ensures Step(s, ChannelError).status == Idle
    ensures Step(s, ChannelError).fullTranscript == s.fullTranscript
  {
  }

  // ---------------------------------------------------------------------
  // Transcripts

  predicate MidTurn(events: seq<Event>) {
    forall i :: 0 <= i < |events| ==> events[i].Message? && !events[i].msg.turnComplete
  }

  /** The input fragments of a run of messages, in arrival order. */
  function InputFragments(events: seq<Event>): string
    requires MidTurn(events)
  {
    if events == [] then ""
    else events[0].msg.inputTranscription.GetOr("") + InputFragments(events[1..])
  }

  /** The output fragments of a run of messages, in arrival order. */
  function OutputFragments(events: seq<Event>): string
    requires MidTurn(events)
  {
    if events == [] then ""
    else events[0].msg.outputTranscription.GetOr("") + OutputFragments(events[1..])
  }

  /** Within a turn, each buffer is the concatenation of its fragments in
      arrival order, and the history does not change. */
  lemma {:induction false} FragmentsAccumulate(s: Session, events: seq<Event>)
    requires MidTurn(events)
    ensures Run(s, events).userTranscript == s.userTranscript + InputFragments(events)
    ensures Run(s, events).agentTranscript == s.agentTranscript + OutputFragments(events)
    ensures Run(s, events).fullTranscript == s.fullTranscript
    decreases |events|
  {
    if events != [] {
      var t := Step(s, events[0]);
      assert MidTurn(events[1..]) by {
        forall i | 0 <= i < |events[1..]|
          ensures events[1..][i].Message? && !events[1..][i].msg.turnComplete
        {
          assert events[1..][i] == events[i + 1];
        }
      }
      FragmentsAccumulate(t, events[1..]);
      var m := events[0].msg;
      assert t.userTranscript == s.userTranscript + m.inputTranscription.GetOr("");
      assert t.agentTranscript == s.agentTranscript + m.outputTranscription.GetOr("");
    }
  }

  /** A completed turn appends exactly two lines, the user's then the agent's,
      each including this message's fragment (even when empty), and clears
      both buffers. */
  lemma TurnComplete(s: Session, m: ServerMessage, now: Time)
    requires m.turnComplete
    ensures Step(s, Message(m, now)).fullTranscript
              == s.fullTranscript
                 + [YouLine(s.userTranscript + m.inputTranscription.GetOr("")),
                    AgentLine(s.agentTranscript + m.outputTranscription.GetOr(""))]
    ensures Step(s, Message(m, now)).userTranscript == ""
    ensures Step(s, Message(m, now)).agentTranscript == ""
  {
  }

  /** A whole turn: the fragments of the messages before the completing one,
      then its own, end up in the two new history lines. */
  lemma WholeTurn(s: Session, events: seq<Event>, last: ServerMessage, now: Time)
    requires MidTurn(events) && last.turnComplete
    ensures Run(s, events + [Message(last, now)]).fullTranscript
              == s.fullTranscript
                 + [YouLine(s.userTranscript + InputFragments(events)
                            + last.inputTranscription.GetOr("")),
                    AgentLine(s.agentTranscript + OutputFragments(events)
                              + last.outputTranscription.GetOr(""))]
  {
    RunConcat(s, events, [Message(last, now)]);
    FragmentsAccumulate(s, events);
    TurnComplete(Run(s, events), last, now);
  }

  function Said(input: string, turnComplete: bool): ServerMessage {
    ServerMessage(Some(input), None, turnComplete, "", false)
  }

  /** "Hel" then "lo" with the turn complete is finalised as one line. */
  lemma HelloExample()
    ensures Run(Init, [Message(Said("Hel", false), 0.0), Message(Said("lo", true), 0.0)]).fullTranscript
              == ["You: Hello", "Agent: "]
  {
    var a := Step(Init, Message(Said("Hel", false), 0.0));
    assert a.userTranscript == "Hel";
    var b := Step(a, Message(Said("lo", true), 0.0));
    assert b.userTranscript == "";
    assert b.fullTranscript == [YouLine("Hel" + "lo"), AgentLine("" + "")];
    assert "Hel" + "lo" == "Hello";
    assert YouLine("Hello") == "You: Hello";
    assert AgentLine("" + "") == "Agent: ";
  }

  /** Every callback but a start keeps the history as a prefix, so over any
      run without a start the history only grows. */
  lemma {:induction false} HistoryOnlyGrows(s: Session, events: seq<Event>)
    requires forall i :: 0 <= i < |events| ==> !events[i].Start? && !events[i].StartFailed?
    ensures s.fullTranscript <= Run(s, events).fullTranscript
    decreases |events|
  {
    if events != [] {
      var t := Step(s, events[0]);
      HistoryOnlyGrows(t, events[1..]);
    }
  }

  predicate IsYouLine(line: string) { |line| >= 5 && line[..5] == "You: " }
  predicate IsAgentLine(line: string) { |line| >= 7 && line[..7] == "Agent: " }

  lemma LinesTagged(user: string, agent: string)
    ensures IsYouLine(YouLine(user)) && IsAgentLine(AgentLine(agent))
  {
    assert YouLine(user)[..5] == "You: ";
    assert AgentLine(agent)[..7] == "Agent: ";
  }

  /** The history is a sequence of whole turns: a "You: " line, then the
      "Agent: " line of the same turn. */
  predicate Paired(h: seq<string>) {
    && |h| % 2 == 0
    && forall i :: 0 <= i < |h| ==> if i % 2 == 0 then IsYouLine(h[i]) else IsAgentLine(h[i])
  }

  /** A finished turn appended to whole turns leaves whole turns. */
  lemma PairedAppend(h: seq<string>, user: string, agent: string)
    requires Paired(h)
    ensures Paired(h + [YouLine(user), AgentLine(agent)])
  {
    var r := h + [YouLine(user), AgentLine(agent)];
    LinesTagged(user, agent);
    forall i | 0 <= i < |r|
      ensures if i % 2 == 0 then IsYouLine(r[i]) else IsAgentLine(r[i])
    {
      if i < |h| {
        assert r[i] == h[i];
      }
    }
  }

  /** What one callback does to the history: keeps it, empties it, or
      appends a finished turn. */
  lemma StepHistory(s: Session, e: Event)
    ensures var r := Step(s, e).fullTranscript;
            || r == s.fullTranscript
            || r == []
            || (e.Message? && r == s.fullTranscript
                  + [YouLine(s.userTranscript + e.msg.inputTranscription.GetOr("")),
                     AgentLine(s.agentTranscript + e.msg.outputTranscription.GetOr(""))])
  {
    match e
    case Message(m, now) =>
      assert Step(s, e).fullTranscript == Transcribe(s, m).fullTranscript;
    case _ =>
  }

  /** Every callback keeps the history made of whole turns. */
  lemma StepKeepsPaired(s: Session, e: Event)
    requires Paired(s.fullTranscript)
    ensures Paired(Step(s, e).fullTranscript)
  {
    StepHistory(s, e);
    if e.Message? {
      PairedAppend(s.fullTranscript, s.userTranscript + e.msg.inputTranscription.GetOr(""),
                   s.agentTranscript + e.msg.outputTranscription.GetOr(""));
    }
  }

  lemma {:induction false} RunKeepsPaired(s: Session, events: seq<Event>)
    requires Paired(s.fullTranscript)
    ensures Paired(Run(s, events).fullTranscript)
    decreases |events|
  {
    if events != [] {
      StepKeepsPaired(s, events[0]);
      RunKeepsPaired(Step(s, events[0]), events[1..]);
    }
  }

  /** From the first render, the history always alternates user and agent
      lines, starting with the user. */
  lemma InitPaired(events: seq<Event>)
    ensures Paired(Run(Init, events).fullTranscript)
  {
    RunKeepsPaired(Init, events);
  }

  // ---------------------------------------------------------------------
  // Playback scheduling

  /** In-flight sources never overlap, each ends by the playback clock, and
      each identity is below the next one to be drawn. */
  predicate Gapless(s: Session) {
    && (forall id :: id in s.playing ==>
          id < s.nextSegment && s.playing[id].duration > 0.0
          && End(s.playing[id]) <= s.nextStartTime)
    && (forall a, b :: a in s.playing && b in s.playing && a != b ==>
          Disjoint(s.playing[a], s.playing[b]))
  }

  /** A decoded segment starts at `max(next, now)` and the clock moves to its
      end; the agent is speaking. */
  lemma AudioSchedules(s: Session, m: ServerMessage, now: Time)
    requires m.audio != "" && SegmentDuration(m.audio).Some? && !m.interrupted
    ensures var r := Step(s, Message(m, now));
            var d := SegmentDuration(m.audio).value;
            && r.playing == s.playing[s.nextSegment := Segment(Later(s.nextStartTime, now), d)]
            && r.nextStartTime == Later(s.nextStartTime, now) + d
            && r.nextSegment == s.nextSegment + 1
            && r.status == Speaking
  {
  }

  predicate Rewinds(e: Event) {
    e.Close? || e.ChannelError? || e.Stop? || (e.Message? && e.msg.interrupted)
  }

  /** Apart from a teardown or a barge-in, no callback moves the clock back. */
  lemma ClockNeverRewinds(s: Session, e: Event)
    requires !Rewinds(e)
    ensures Step(s, e).nextStartTime >= s.nextStartTime
  {
  }

  lemma {:induction false} RunClockNeverRewinds(s: Session, events: seq<Event>)
    requires forall i :: 0 <= i < |events| ==> !Rewinds(events[i])
    ensures Run(s, events).nextStartTime >= s.nextStartTime
    decreases |events|
  {
    if events != [] {
      ClockNeverRewinds(s, events[0]);
      RunClockNeverRewinds(Step(s, events[0]), events[1..]);
    }
  }

  /** Two segments scheduled with no teardown or barge-in between them play
      back to back: the second starts no earlier than the first ends. */
  lemma ConsecutiveSegmentsDoNotOverlap(
    s: Session, first: ServerMessage, t1: Time, between: seq<Event>, second: ServerMessage, t2: Time)
    requires first.audio != "" && SegmentDuration(first.audio).Some? && !first.interrupted
    requires second.audio != "" && SegmentDuration(second.audio).Some? && !second.interrupted
    requires forall i :: 0 <= i < |between| ==> !Rewinds(between[i])
    ensures var a := Step(s, Message(first, t1));
            var b := Run(a, between);
            var c := Step(b, Message(second, t2));
            && s.nextSegment in a.playing && b.nextSegment in c.playing
            && c.playing[b.nextSegment].start >= End(a.playing[s.nextSegment])
  {
    var a := Step(s, Message(first, t1));
    AudioSchedules(s, first, t1);
    var b := Run(a, between);
    RunClockNeverRewinds(a, between);
    AudioSchedules(b, second, t2);
  }

  lemma EnqueueKeepsGapless(s: Session, d: real)
    requires Gapless(s) && d > 0.0
    ensures Gapless(Enqueue(s, d))
  {
    var r := Enqueue(s, d);
    var g := Segment(s.nextStartTime, d);
    forall a, b | a in r.playing && b in r.playing && a != b
      ensures Disjoint(r.playing[a], r.playing[b])
    {
      if a == s.nextSegment {
        assert End(r.playing[b]) <= g.start;
      } else if b == s.nextSegment {
        assert End(r.playing[a]) <= g.start;
      }
    }
  }

  /** Every callback keeps in-flight sources disjoint and behind the clock. */
  lemma StepKeepsGapless(s: Session, e: Event)
    requires Gapless(s)
    ensures Gapless(Step(s, e))
  {
    match e
    case Message(m, now) =>
      var t := Transcribe(s, m);
      if m.audio != "" {
        var speaking := t.(status := Speaking, nextStartTime := Later(t.nextStartTime, now));
        assert Gapless(speaking);
        if SegmentDuration(m.audio).Some? {
          EnqueueKeepsGapless(speaking, SegmentDuration(m.audio).value);
        }
      }
    case SegmentEnded(id) =>
      var r := Step(s, e);
      assert forall k :: k in r.playing ==> k in s.playing && r.playing[k] == s.playing[k];
    case _ =>
  }

  lemma {:induction false} RunKeepsGapless(s: Session, events: seq<Event>)
    requires Gapless(s)
    ensures Gapless(Run(s, events))
    decreases |events|
  {
    if events != [] {
      StepKeepsGapless(s, events[0]);
      RunKeepsGapless(Step(s, events[0]), events[1..]);
    }
  }

  /** From the initial state, in-flight sources never overlap. */
  lemma InitGapless(events: seq<Event>)
    ensures Gapless(Run(Init, events))
  {
    RunKeepsGapless(Init, events);
  }

  /** Barge-in stops every source and rewinds the clock, but keeps the
      partial transcripts. */
  lemma BargeInFlushes(s: Session, m: ServerMessage, now: Time)
    requires m.interrupted && (m.audio == "" || SegmentDuration(m.audio).Some?)
    ensures Step(s, Message(m, now)).playing == map[]
    ensures Step(s, Message(m, now)).nextStartTime == 0.0
    ensures Step(s, Message(m, now)).userTranscript == Transcribe(s, m).userTranscript
    ensures Step(s, Message(m, now)).agentTranscript == Transcribe(s, m).agentTranscript
  {
  }

  /** After a barge-in the next segment starts right away, at the clock's
      current reading. */
  lemma BargeInRestartsAtNow(s: Session, m: ServerMessage, now: Time, next: ServerMessage, t: Time)
    requires m.interrupted && m.audio == ""
    requires next.audio != "" && SegmentDuration(next.audio).Some? && !next.interrupted
    ensures var a := Step(s, Message(m, now));
            var b := Step(a, Message(next, t));
            a.nextSegment in b.playing && b.playing[a.nextSegment].start == t
  {
    var a := Step(s, Message(m, now));
    AudioSchedules(a, next, t);
  }

  /** A source's end forgets it, and the last one to end returns the agent to
      listening. */
  lemma LastSegmentEndListens(s: Session, id: nat)
    requires s.playing.Keys == {id}
    ensures Step(s, SegmentEnded(id)).status == Listening
    ensures Step(s, SegmentEnded(id)).playing == map[]
  {
    StatusByEvent(s, SegmentEnded(id));
  }

  /** `stopAgent` stops every source and clears the set, so the `onended`
      of a source it stopped turns the idle session back to listening. */
  lemma StoppedSourceEndingListens(s: Session, id: nat)
    ensures Step(s, Stop).status == Idle
    ensures Step(Step(s, Stop), SegmentEnded(id)).status == Listening
  {
    StatusByEvent(s, Stop);
    StatusByEvent(Step(s, Stop), SegmentEnded(id));
  }

  // ---------------------------------------------------------------------
  // The turn lines as the handler reads them

  /** The transcript half of `onmessage` as written: the turn lines read the
      buffers through the closure of the `startAgent` call that opened the
      channel, so `seenUser` and `seenAgent` are the buffers as they were
      when Start was pressed, not the fragments received since. */
  function TranscribeAsWritten(s: Session, m: ServerMessage, seenUser: string, seenAgent: string): (r: Session)
    ensures !m.turnComplete ==> r == Transcribe(s, m)
    ensures m.turnComplete ==>
              && r.fullTranscript
                   == s.fullTranscript
                      + [YouLine(seenUser + m.inputTranscription.GetOr("")),
                         AgentLine(seenAgent + m.outputTranscription.GetOr(""))]
              && r.userTranscript == "" && r.agentTranscript == ""
  {
    if m.turnComplete then
      s.(fullTranscript := s.fullTranscript
                           + [YouLine(seenUser + m.inputTranscription.GetOr("")),
                              AgentLine(seenAgent + m.outputTranscription.GetOr(""))],
         userTranscript := "", agentTranscript := "")
    else Transcribe(s, m)
  }

  /** A turn spoken as "Hel" then "lo" is finalised as "You: lo" when read
      through the closure of a start pressed with empty buffers, and as
      "You: Hello" when the current buffers are read. */
  lemma StaleTurnDropsEarlierFragments()
    ensures var a := Transcribe(Init, Said("Hel", false));
            && TranscribeAsWritten(a, Said("lo", true), "", "").fullTranscript
                 == ["You: lo", "Agent: "]
            && Transcribe(a, Said("lo", true)).fullTranscript == ["You: Hello", "Agent: "]
  {
    var a := Transcribe(Init, Said("Hel", false));
    assert a.userTranscript == "Hel";
    assert "" + "lo" == "lo" && "" + "" == "";
    assert YouLine("lo") == "You: lo";
    assert "Hel" + "lo" == "Hello";
    assert YouLine("Hello") == "You: Hello";
    assert AgentLine("") == "Agent: ";
  }

  // ---------------------------------------------------------------------
  // The microphone after a stop

  /** The microphone is held only while a channel is pending. */
  predicate MicrophoneOwned(s: Session) {
    s.microphone ==> s.channel.Some?
  }

  /** As written, `onopen` acquires the microphone whatever happened since the
      start: a stop whose close arrives before the microphone is granted
      leaves the microphone held, with no channel, and the agent listening. */
  lemma MicrophoneHeldAfterStop(c: SessionConfig)
    ensures var r := Run(Init, [Start(c), Stop, Close, Open(true)]);
            r.microphone && r.channel.None? && r.status == Listening && !MicrophoneOwned(r)
  {
    var a := Step(Init, Start(c));
    var b := Step(a, Stop);
    var d := Step(b, Close);
    var r := Step(d, Open(true));
    assert Run(Init, [Start(c), Stop, Close, Open(true)]) == r by {
      assert [Start(c), Stop, Close, Open(true)][1..] == [Stop, Close, Open(true)];
      assert [Stop, Close, Open(true)][1..] == [Close, Open(true)];
      assert [Close, Open(true)][1..] == [Open(true)];
    }
  }

  /** The hook with `onopen` ignoring a channel that is no longer pending. */
  function GuardedStep(s: Session, e: Event): (r: Session)
    ensures !(e.Open? && s.channel.None?) ==> r == Step(s, e)
    ensures MicrophoneOwned(s) ==> MicrophoneOwned(r)
  {
    if e.Open? && s.channel.None? then s else Step(s, e)
  }

  function GuardedRun(s: Session, events: seq<Event>): Session
    decreases |events|
  {
    if events == [] then s else GuardedRun(GuardedStep(s, events[0]), events[1..])
  }

  /** With the guard, no run from the initial state holds the microphone
      without a channel. */
  lemma {:induction false} GuardedRunKeepsMicrophoneOwned(s: Session, events: seq<Event>)
    requires MicrophoneOwned(s)
    ensures MicrophoneOwned(GuardedRun(s, events))
    decreases |events|
  {
    if events != [] {
      GuardedRunKeepsMicrophoneOwned(GuardedStep(s, events[0]), events[1..]);
    }
  }

  // ---------------------------------------------------------------------
  // A start from the error state

  /** `startAgent` with its guard admitting `error` as well as `idle`, the
      two states in which the page offers Start. */
  function RestartingStep(s: Session, e: Event): (r: Session)
    ensures !((e.Start? || e.StartFailed?) && s.status == Error) ==> r == Step(s, e)
    ensures e.Start? && (s.status == Idle || s.status == Error) ==>
              r.status == Connecting && r.fullTranscript == [] && r.channel == Some(e.config)
    ensures e.StartFailed? && (s.status == Idle || s.status == Error) ==>
              r.status == Error && r.fullTranscript == []
  {
    if (e.Start? || e.StartFailed?) && s.status == Error then Step(s.(status := Idle), e)
    else Step(s, e)
  }
}
