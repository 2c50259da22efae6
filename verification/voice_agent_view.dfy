/** The voice-agent page: the new-agent form with its voice choices, and the
    agent console (`AgentInterface`, in both its page-local and its shared
    form) that labels the session's status, offers Start or Stop, and
    styles the finished transcript lines. */
module VoiceAgentView {
  import opened Wrappers
  import opened Types
  import Text
  import App
  import LiveAgent
  import ChatInterface

  /** The voices the form offers, in menu order. */
  const Voices: seq<Voice> := [Zephyr, Puck, Charon, Kore, Fenrir]

  const DefaultVoice: Voice := Zephyr

  /** The menu offers every voice exactly once, and the default is among
      them, first. */
  lemma VoicesOfferEveryVoiceOnce(v: Voice)
    ensures v in Voices && multiset(Voices)[v] == 1
    ensures |Voices| == 5 && Voices[0] == DefaultVoice
  {
  }

  // ---------------------------------------------------------------------
  // The new-agent form

  datatype AgentForm = AgentForm(name: string, systemInstruction: string, voice: Voice, error: string)

  /** The form as first shown: empty fields and the default voice. */
  const NewAgentForm := AgentForm("", "", DefaultVoice, "")

  const MissingFields := "Name and System Instruction are required."

  /** `handleSave`: both fields are checked trimmed and emitted as typed. */
  function HandleSave(f: AgentForm): (r: Result<VoiceAgentDraft, string>)
    ensures r.Failure? <==> Text.Trim(f.name) == "" || Text.Trim(f.systemInstruction) == ""
    ensures r.Failure? ==> r.error == MissingFields
    ensures r.Success? ==> r.value == VoiceAgentDraft(f.name, f.systemInstruction, f.voice)
  {
    if Text.Trim(f.name) == "" || Text.Trim(f.systemInstruction) == "" then Failure(MissingFields)
    else Success(VoiceAgentDraft(f.name, f.systemInstruction, f.voice))
  }

  /** A whitespace-only name or instruction is rejected; anything else is
      accepted. */
  lemma SaveAcceptedIff(f: AgentForm)
    ensures HandleSave(f).Success? <==> !Text.Blank(f.name) && !Text.Blank(f.systemInstruction)
  {
    Text.TrimEmptyIffBlank(f.name);
    Text.TrimEmptyIffBlank(f.systemInstruction);
  }

  /** The page's save: a rejected form shows the message and stays open; an
      accepted one is added and the dialog closes. The result is the list
      owner's state, the form, and whether the dialog is open. */
  function Submit(s: App.AppState, f: AgentForm, now: nat, createdAt: string): (r: (App.AppState, AgentForm, bool))
    ensures HandleSave(f).Failure? ==> r == (s, f.(error := MissingFields), true)
    ensures HandleSave(f).Success? ==> r == (App.AddVoiceAgent(s, HandleSave(f).value, now, createdAt), f, false)
  {
    match HandleSave(f)
    case Failure(message) => (s, f.(error := message), true)
    case Success(draft) => (App.AddVoiceAgent(s, draft, now, createdAt), f, false)
  }

  /** An agent saved from the form is stored last with the name, instruction
      and voice as typed and chosen, and no knowledge base. */
  lemma SubmittedAgentStored(s: App.AppState, f: AgentForm, now: nat, createdAt: string)
    requires !Text.Blank(f.name) && !Text.Blank(f.systemInstruction)
    ensures var r := Submit(s, f, now, createdAt);
            && !r.2
            && |r.0.voiceAgents| == |s.voiceAgents| + 1
            && var a := r.0.voiceAgents[|s.voiceAgents|];
               a.name == f.name && a.systemInstruction == f.systemInstruction
               && a.voice == f.voice && a.knowledgeBaseId.None?
  {
    SaveAcceptedIff(f);
  }

  // ---------------------------------------------------------------------
  // The agent console

  /** The status indicator's text. */
  function StatusLabel(status: LiveAgent.Status): (r: string)
    ensures r == "Idle" <==> status == LiveAgent.Idle || status == LiveAgent.Processing
  {
    match status
    case Connecting => "Connecting..."
    case Listening => "Listening"
    case Speaking => "Speaking"
    case Error => "Error! Please restart."
    case _ => "Idle"
  }

  /** Two statuses share a label exactly when both are idle or processing:
      the indicator tells every other status apart. */
  lemma LabelsTellStatusesApart(a: LiveAgent.Status, b: LiveAgent.Status)
    ensures StatusLabel(a) == StatusLabel(b) <==>
              a == b || (a in {LiveAgent.Idle, LiveAgent.Processing} && b in {LiveAgent.Idle, LiveAgent.Processing})
  {
    if a != b && StatusLabel(a) == StatusLabel(b) {
      assert |StatusLabel(a)| == |StatusLabel(b)|;
    }
  }

  /** Whether the console offers Start rather than Stop. */
  predicate ShowsStart(status: LiveAgent.Status) {
    status == LiveAgent.Idle || status == LiveAgent.Error
  }

  /** What the session is asked for: the agent's instruction and voice. */
  function ConfigOf(agent: VoiceAgent): LiveAgent.SessionConfig {
    LiveAgent.SessionConfig(agent.systemInstruction, agent.voice)
  }

  /** The button's click: `startAgent` (which fails without an API key) when
      Start is shown, `stopAgent` otherwise. */
  function Press(s: LiveAgent.Session, agent: VoiceAgent, apiKey: bool): (e: LiveAgent.Event)
    ensures e.Stop? <==> !ShowsStart(s.status)
    ensures e.Start? <==> ShowsStart(s.status) && apiKey
    ensures (e.Start? || e.StartFailed?) ==> e.config == ConfigOf(agent)
  {
    if ShowsStart(s.status) then
      if apiKey then LiveAgent.Start(ConfigOf(agent)) else LiveAgent.StartFailed(ConfigOf(agent))
    else LiveAgent.Stop
  }

  /** From idle, the button opens a session with the agent's instruction and
      voice (or fails to, without a key); in any active state it ends the
      session. */
  lemma PressTogglesSession(s: LiveAgent.Session, agent: VoiceAgent, apiKey: bool)
    ensures var r := LiveAgent.Step(s, Press(s, agent, apiKey));
            && (s.status == LiveAgent.Idle && apiKey ==>
                  r.status == LiveAgent.Connecting && r.channel == Some(ConfigOf(agent)))
            && (s.status == LiveAgent.Idle && !apiKey ==> r.status == LiveAgent.Error)
            && (!ShowsStart(s.status) ==> r == LiveAgent.Teardown(s))
  {
  }

  /** The shared console computes the agent's knowledge context and passes
      it to `startAgent` as a third argument, which the hook does not take. */
  function PressWithContext(s: LiveAgent.Session, agent: VoiceAgent, kbs: seq<KnowledgeBase>,
                            apiKey: bool): (r: (LiveAgent.Event, Option<string>))
    ensures r.0 == Press(s, agent, apiKey)
    ensures r.1 == ChatInterface.KnowledgeContext(agent.knowledgeBaseId, kbs)
  {
    (Press(s, agent, apiKey), ChatInterface.KnowledgeContext(agent.knowledgeBaseId, kbs))
  }

  /** The context is dropped: whatever knowledge bases are stored, the
      session opened is the same, and carries only the instruction and the
      voice. */
  lemma KnowledgeContextDropped(s: LiveAgent.Session, agent: VoiceAgent,
                                kbs: seq<KnowledgeBase>, other: seq<KnowledgeBase>, apiKey: bool)
    ensures PressWithContext(s, agent, kbs, apiKey).0 == PressWithContext(s, agent, other, apiKey).0
    ensures LiveAgent.Step(s, PressWithContext(s, agent, kbs, apiKey).0)
              == LiveAgent.Step(s, Press(s, agent, apiKey))
  {
  }

  /** `line.startsWith('You:')`, which picks the user's colour. */
  predicate StyledAsUser(line: string) {
    |line| >= 4 && line[..4] == "You:"
  }

  /** In every session reached from the first render, the finished lines
      alternate between the user's colour and the agent's, starting with the
      user's. */
  lemma HistoryStyledByTurn(events: seq<LiveAgent.Event>)
    ensures var h := LiveAgent.Run(LiveAgent.Init, events).fullTranscript;
            |h| % 2 == 0 && forall i :: 0 <= i < |h| ==> (StyledAsUser(h[i]) <==> i % 2 == 0)
  {
    var h := LiveAgent.Run(LiveAgent.Init, events).fullTranscript;
    LiveAgent.InitPaired(events);
    forall i | 0 <= i < |h|
      ensures StyledAsUser(h[i]) <==> i % 2 == 0
    {
      StyleOfTaggedLine(h[i]);
    }
  }

  /** A user line takes the user's colour and an agent line does not. */
  lemma StyleOfTaggedLine(line: string)
    ensures LiveAgent.IsYouLine(line) ==> StyledAsUser(line)
    ensures LiveAgent.IsAgentLine(line) ==> !StyledAsUser(line)
  {
    if LiveAgent.IsYouLine(line) {
      assert line[..4] == line[..5][..4];
    }
    if LiveAgent.IsAgentLine(line) {
      assert line[0] == line[..7][0] == 'A';
    }
  }

  // ---------------------------------------------------------------------
  // Start offered in the error state

  /** As written, the console offers Start in the error state but the hook
      ignores a start there, so every further press leaves the session as
      it is. */
  function PressAll(s: LiveAgent.Session, agent: VoiceAgent, keys: seq<bool>): LiveAgent.Session
    decreases |keys|
  {
    if keys == [] then s else PressAll(LiveAgent.Step(s, Press(s, agent, keys[0])), agent, keys[1..])
  }

  lemma {:induction false} StuckInError(s: LiveAgent.Session, agent: VoiceAgent, keys: seq<bool>)
    requires s.status == LiveAgent.Error
    ensures ShowsStart(s.status)
    ensures PressAll(s, agent, keys) == s
    decreases |keys|
  {
    if keys != [] {
      LiveAgent.StartIgnoredUnlessIdle(s, ConfigOf(agent));
      StuckInError(s, agent, keys[1..]);
    }
  }

  /** A missing API key leaves the console stuck: after the failed start,
      pressing Start again, even with a key, never connects. */
  lemma MissingKeyIsPermanent(agent: VoiceAgent, keys: seq<bool>)
    ensures var failed := LiveAgent.Step(LiveAgent.Init, Press(LiveAgent.Init, agent, false));
            failed.status == LiveAgent.Error && PressAll(failed, agent, keys) == failed
  {
    var failed := LiveAgent.Step(LiveAgent.Init, Press(LiveAgent.Init, agent, false));
    StuckInError(failed, agent, keys);
  }

  /** With the start guard admitting the error state, every press of a
      shown Start button starts a session. */
  lemma StartButtonAlwaysStarts(s: LiveAgent.Session, agent: VoiceAgent, apiKey: bool)
    requires ShowsStart(s.status)
    ensures var r := LiveAgent.RestartingStep(s, Press(s, agent, apiKey));
            && r.fullTranscript == []
            && (apiKey ==> r.status == LiveAgent.Connecting && r.channel == Some(ConfigOf(agent)))
            && (!apiKey ==> r.status == LiveAgent.Error)
  {
  }
}
