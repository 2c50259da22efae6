/** The top-level page: the three lists it owns, their add/update/delete
    operations (with the knowledge-base deletion clearing references to it),
    and the choice of page for the current view. `Date.now()` and the ISO
    timestamp are passed in. */
module App {
  import opened Wrappers
  import opened Types
  import Lists
  import Text

  datatype View = Dashboard | KnowledgeBases | Chatbots | VoiceAgents

  /** The string each member of the `View` enum stands for at run time. */
  function ViewValue(v: View): string {
    match v
    case Dashboard => "DASHBOARD"
    case KnowledgeBases => "KNOWLEDGE_BASES"
    case Chatbots => "CHATBOTS"
    case VoiceAgents => "VOICE_AGENTS"
  }

  datatype Page = DashboardPage | KnowledgeBasePage | ChatbotsPage | VoiceAgentPage

  datatype AppState = AppState(
    currentView: string,
    knowledgeBases: seq<KnowledgeBase>,
    chatbots: seq<Chatbot>,
    voiceAgents: seq<VoiceAgent>)

  /** `renderView`: the page for the current view, the dashboard otherwise. */
  function RenderView(view: string): (p: Page)
    ensures p == KnowledgeBasePage <==> view == ViewValue(KnowledgeBases)
    ensures p == ChatbotsPage <==> view == ViewValue(Chatbots)
    ensures p == VoiceAgentPage <==> view == ViewValue(VoiceAgents)
    ensures p == DashboardPage <==>
              view != ViewValue(KnowledgeBases) && view != ViewValue(Chatbots)
              && view != ViewValue(VoiceAgents)
  {
    if view == "DASHBOARD" then DashboardPage
    else if view == "KNOWLEDGE_BASES" then KnowledgeBasePage
    else if view == "CHATBOTS" then ChatbotsPage
    else if view == "VOICE_AGENTS" then VoiceAgentPage
    else DashboardPage
  }

  /** Every view is shown on its own page, and the dashboard is the only one
      shown for anything else. */
  lemma RenderViewIsInjectiveOnViews(v: View, w: View)
    ensures RenderView(ViewValue(v)) == RenderView(ViewValue(w)) <==> v == w
  {
  }

  /** The id a new record gets: its prefix and the timestamp in decimal. */
  function NewId(prefix: string, now: nat): string {
    prefix + Text.Digits(now)
  }

  /** Records created at different milliseconds get different ids. */
  lemma NewIdInjective(prefix: string, m: nat, n: nat)
    requires NewId(prefix, m) == NewId(prefix, n)
    ensures m == n
  {
    assert NewId(prefix, m)[|prefix|..] == Text.Digits(m);
    assert NewId(prefix, n)[|prefix|..] == Text.Digits(n);
    Text.DigitsInjective(m, n);
  }

  // ---------------------------------------------------------------------
  // Knowledge bases

  function AddKnowledgeBase(s: AppState, kb: KnowledgeBaseDraft, now: nat, createdAt: string): (r: AppState)
    ensures |r.knowledgeBases| == |s.knowledgeBases| + 1
    ensures r.knowledgeBases[..|s.knowledgeBases|] == s.knowledgeBases
    ensures r.knowledgeBases[|s.knowledgeBases|]
              == KnowledgeBase(NewId("kb", now), kb.name, kb.sources, kb.totalSize, createdAt)
    ensures r.(knowledgeBases := s.knowledgeBases) == s
  {
    var newKb := KnowledgeBase(NewId("kb", now), kb.name, kb.sources, kb.totalSize, createdAt);
    s.(knowledgeBases := s.knowledgeBases + [newKb])
  }

  function UpdateKnowledgeBase(s: AppState, kb: KnowledgeBase): (r: AppState)
    ensures |r.knowledgeBases| == |s.knowledgeBases|
    ensures forall i :: 0 <= i < |s.knowledgeBases| ==>
              r.knowledgeBases[i] == (if s.knowledgeBases[i].id == kb.id then kb else s.knowledgeBases[i])
    ensures r.(knowledgeBases := s.knowledgeBases) == s
  {
    s.(knowledgeBases := Lists.Replace(s.knowledgeBases, KnowledgeBaseKey, kb))
  }

  /** Clear the knowledge-base reference of every chatbot that points at `id`. */
  function DetachChatbots(bots: seq<Chatbot>, id: string): (r: seq<Chatbot>)
    ensures |r| == |bots|
    ensures forall i :: 0 <= i < |r| ==> r[i].knowledgeBaseId != Some(id)
    ensures forall i :: 0 <= i < |r| && bots[i].knowledgeBaseId != Some(id) ==> r[i] == bots[i]
    ensures forall i :: 0 <= i < |r| && bots[i].knowledgeBaseId == Some(id) ==> r[i].knowledgeBaseId.None?
    ensures forall i :: 0 <= i < |r| ==> r[i].(knowledgeBaseId := bots[i].knowledgeBaseId) == bots[i]
  {
    if bots == [] then []
    else
      var b := bots[0];
      [if b.knowledgeBaseId == Some(id) then b.(knowledgeBaseId := None) else b]
        + DetachChatbots(bots[1..], id)
  }

  /** Clear the knowledge-base reference of every voice agent that points at `id`. */
  function DetachVoiceAgents(agents: seq<VoiceAgent>, id: string): (r: seq<VoiceAgent>)
    ensures |r| == |agents|
    ensures forall i :: 0 <= i < |r| ==> r[i].knowledgeBaseId != Some(id)
    ensures forall i :: 0 <= i < |r| && agents[i].knowledgeBaseId != Some(id) ==> r[i] == agents[i]
    ensures forall i :: 0 <= i < |r| && agents[i].knowledgeBaseId == Some(id) ==> r[i].knowledgeBaseId.None?
    ensures forall i :: 0 <= i < |r| ==> r[i].(knowledgeBaseId := agents[i].knowledgeBaseId) == agents[i]
  {
    if agents == [] then []
    else
      var a := agents[0];
      [if a.knowledgeBaseId == Some(id) then a.(knowledgeBaseId := None) else a]
        + DetachVoiceAgents(agents[1..], id)
  }

  /** `deleteKnowledgeBase`: remove it and every reference to it. */
  function DeleteKnowledgeBase(s: AppState, id: string): (r: AppState)
    ensures forall i :: 0 <= i < |r.knowledgeBases| ==> r.knowledgeBases[i].id != id
    ensures forall i :: 0 <= i < |r.chatbots| ==> r.chatbots[i].knowledgeBaseId != Some(id)
    ensures forall i :: 0 <= i < |r.voiceAgents| ==> r.voiceAgents[i].knowledgeBaseId != Some(id)
    ensures r.currentView == s.currentView
  {
    s.(knowledgeBases := Lists.RemoveAll(s.knowledgeBases, KnowledgeBaseKey, id),
       chatbots := DetachChatbots(s.chatbots, id),
       voiceAgents := DetachVoiceAgents(s.voiceAgents, id))
  }

  /** Deletion keeps every other knowledge base, in order, and leaves every
      bot and agent that pointed elsewhere exactly as it was. */
  lemma DeleteKnowledgeBaseKeepsOthers(s: AppState, id: string, a: seq<KnowledgeBase>, b: seq<KnowledgeBase>)
    requires s.knowledgeBases == a + b
    ensures DeleteKnowledgeBase(s, id).knowledgeBases
              == Lists.RemoveAll(a, KnowledgeBaseKey, id) + Lists.RemoveAll(b, KnowledgeBaseKey, id)
    ensures forall i :: 0 <= i < |s.chatbots| && s.chatbots[i].knowledgeBaseId != Some(id) ==>
              DeleteKnowledgeBase(s, id).chatbots[i] == s.chatbots[i]
    ensures forall i :: 0 <= i < |s.voiceAgents| && s.voiceAgents[i].knowledgeBaseId != Some(id) ==>
              DeleteKnowledgeBase(s, id).voiceAgents[i] == s.voiceAgents[i]
  {
    Lists.RemoveAllConcat(a, b, KnowledgeBaseKey, id);
  }

  /** Every knowledge-base reference names a stored knowledge base. */
  predicate References(s: AppState) {
    && (forall i :: 0 <= i < |s.chatbots| && s.chatbots[i].knowledgeBaseId.Some? ==>
          exists j :: 0 <= j < |s.knowledgeBases|
            && s.knowledgeBases[j].id == s.chatbots[i].knowledgeBaseId.value)
    && (forall i :: 0 <= i < |s.voiceAgents| && s.voiceAgents[i].knowledgeBaseId.Some? ==>
          exists j :: 0 <= j < |s.knowledgeBases|
            && s.knowledgeBases[j].id == s.voiceAgents[i].knowledgeBaseId.value)
  }

  /** The cascade is what keeps references resolving across a deletion. */
  lemma DeleteKnowledgeBaseKeepsReferences(s: AppState, id: string)
    requires References(s)
    ensures References(DeleteKnowledgeBase(s, id))
  {
    var r := DeleteKnowledgeBase(s, id);
    forall i | 0 <= i < |r.chatbots| && r.chatbots[i].knowledgeBaseId.Some?
      ensures exists j :: 0 <= j < |r.knowledgeBases| && r.knowledgeBases[j].id == r.chatbots[i].knowledgeBaseId.value
    {
      var k := r.chatbots[i].knowledgeBaseId.value;
      assert s.chatbots[i].knowledgeBaseId != Some(id);
      var j :| 0 <= j < |s.knowledgeBases| && s.knowledgeBases[j].id == k;
      assert s.knowledgeBases[j] in r.knowledgeBases;
      var j' :| 0 <= j' < |r.knowledgeBases| && r.knowledgeBases[j'] == s.knowledgeBases[j];
    }
    forall i | 0 <= i < |r.voiceAgents| && r.voiceAgents[i].knowledgeBaseId.Some?
      ensures exists j :: 0 <= j < |r.knowledgeBases| && r.knowledgeBases[j].id == r.voiceAgents[i].knowledgeBaseId.value
    {
      var k := r.voiceAgents[i].knowledgeBaseId.value;
      assert s.voiceAgents[i].knowledgeBaseId != Some(id);
      var j :| 0 <= j < |s.knowledgeBases| && s.knowledgeBases[j].id == k;
      assert s.knowledgeBases[j] in r.knowledgeBases;
      var j' :| 0 <= j' < |r.knowledgeBases| && r.knowledgeBases[j'] == s.knowledgeBases[j];
    }
  }

  /** Updating a knowledge base keeps every id in place, so references keep
      resolving. */
  lemma UpdateKnowledgeBaseKeepsReferences(s: AppState, kb: KnowledgeBase)
    requires References(s)
    ensures References(UpdateKnowledgeBase(s, kb))
  {
    var r := UpdateKnowledgeBase(s, kb);
    assert forall j :: 0 <= j < |s.knowledgeBases| ==> r.knowledgeBases[j].id == s.knowledgeBases[j].id;
  }

  /** Adding then deleting a fresh knowledge base gives back the lists, as
      long as no other record carried its id. */
  lemma DeleteUndoesAddKnowledgeBase(s: AppState, kb: KnowledgeBaseDraft, now: nat, createdAt: string)
    requires forall j :: 0 <= j < |s.knowledgeBases| ==> s.knowledgeBases[j].id != NewId("kb", now)
    requires forall i :: 0 <= i < |s.chatbots| ==> s.chatbots[i].knowledgeBaseId != Some(NewId("kb", now))
    requires forall i :: 0 <= i < |s.voiceAgents| ==> s.voiceAgents[i].knowledgeBaseId != Some(NewId("kb", now))
    ensures DeleteKnowledgeBase(AddKnowledgeBase(s, kb, now, createdAt), NewId("kb", now)) == s
  {
    var id := NewId("kb", now);
    var added := AddKnowledgeBase(s, kb, now, createdAt);
    var newKb := added.knowledgeBases[|s.knowledgeBases|];
    assert added.knowledgeBases == s.knowledgeBases + [newKb];
    Lists.RemoveAllConcat(s.knowledgeBases, [newKb], KnowledgeBaseKey, id);
    assert Lists.RemoveAll([newKb], KnowledgeBaseKey, id) == [];
    assert Lists.Count(s.knowledgeBases, KnowledgeBaseKey, id) == 0 by {
      CountZero(s.knowledgeBases, KnowledgeBaseKey, id);
    }
    var r := DeleteKnowledgeBase(added, id);
    assert r.chatbots == s.chatbots;
    assert r.voiceAgents == s.voiceAgents;
  }

  lemma {:induction false} CountZero<T>(xs: seq<T>, key: T -> string, id: string)
    requires forall j :: 0 <= j < |xs| ==> key(xs[j]) != id
    ensures Lists.Count(xs, key, id) == 0
  {
    if xs != [] {
      assert forall j :: 0 <= j < |xs[1..]| ==> key(xs[1..][j]) != id by {
        forall j | 0 <= j < |xs[1..]| ensures key(xs[1..][j]) != id {
          assert xs[1..][j] == xs[j + 1];
        }
      }
      CountZero(xs[1..], key, id);
    }
  }

  // ---------------------------------------------------------------------
  // Chatbots

  /** A new chatbot starts with no conversations counted. */
  function AddChatbot(s: AppState, bot: ChatbotDraft, now: nat, createdAt: string): (r: AppState)
    ensures |r.chatbots| == |s.chatbots| + 1
    ensures r.chatbots[..|s.chatbots|] == s.chatbots
    ensures var b := r.chatbots[|s.chatbots|];
            && b.id == NewId("cb", now) && b.createdAt == createdAt && b.usage == 0
            && b.name == bot.name && b.systemPrompt == bot.systemPrompt
            && b.knowledgeBaseId == bot.knowledgeBaseId && b.useThinkingMode == bot.useThinkingMode
    ensures r.(chatbots := s.chatbots) == s
  {
    var newBot := Chatbot(NewId("cb", now), bot.name, bot.systemPrompt, bot.knowledgeBaseId,
                          bot.useThinkingMode, createdAt, 0);
    s.(chatbots := s.chatbots + [newBot])
  }

  function UpdateChatbot(s: AppState, bot: Chatbot): (r: AppState)
    ensures |r.chatbots| == |s.chatbots|
    ensures forall i :: 0 <= i < |s.chatbots| ==>
              r.chatbots[i] == (if s.chatbots[i].id == bot.id then bot else s.chatbots[i])
    ensures r.(chatbots := s.chatbots) == s
  {
    s.(chatbots := Lists.Replace(s.chatbots, ChatbotKey, bot))
  }

  function DeleteChatbot(s: AppState, id: string): (r: AppState)
    ensures forall i :: 0 <= i < |r.chatbots| ==> r.chatbots[i].id != id
    ensures forall i :: 0 <= i < |s.chatbots| && s.chatbots[i].id != id ==> s.chatbots[i] in r.chatbots
    ensures r.(chatbots := s.chatbots) == s
  {
    s.(chatbots := Lists.RemoveAll(s.chatbots, ChatbotKey, id))
  }

  /** After an update of a stored chatbot, looking its id up finds the new
      record. */
  lemma FindAfterUpdateChatbot(s: AppState, bot: Chatbot)
    requires exists i :: 0 <= i < |s.chatbots| && s.chatbots[i].id == bot.id
    ensures Lists.Find(UpdateChatbot(s, bot).chatbots, ChatbotKey, bot.id) == Some(bot)
  {
    var r := UpdateChatbot(s, bot).chatbots;
    var f := Lists.Find(r, ChatbotKey, bot.id);
    var i :| 0 <= i < |s.chatbots| && s.chatbots[i].id == bot.id;
    assert ChatbotKey(r[i]) == bot.id;
    var k :| 0 <= k < |r| && r[k] == f.value;
    assert s.chatbots[k].id == bot.id;
  }

  /** After a deletion, looking the id up finds nothing. */
  lemma FindAfterDeleteChatbot(s: AppState, id: string)
    ensures Lists.Find(DeleteChatbot(s, id).chatbots, ChatbotKey, id).None?
  {
  }

  // ---------------------------------------------------------------------
  // Voice agents

  /** A new voice agent carries no knowledge-base reference: the draft the
      form emits has none. */
  function AddVoiceAgent(s: AppState, agent: VoiceAgentDraft, now: nat, createdAt: string): (r: AppState)
    ensures |r.voiceAgents| == |s.voiceAgents| + 1
    ensures r.voiceAgents[..|s.voiceAgents|] == s.voiceAgents
    ensures r.voiceAgents[|s.voiceAgents|]
              == VoiceAgent(NewId("va", now), agent.name, agent.systemInstruction, agent.voice, None, createdAt)
    ensures r.(voiceAgents := s.voiceAgents) == s
  {
    var newAgent := VoiceAgent(NewId("va", now), agent.name, agent.systemInstruction, agent.voice, None, createdAt);
    s.(voiceAgents := s.voiceAgents + [newAgent])
  }

  function UpdateVoiceAgent(s: AppState, agent: VoiceAgent): (r: AppState)
    ensures |r.voiceAgents| == |s.voiceAgents|
    ensures forall i :: 0 <= i < |s.voiceAgents| ==>
              r.voiceAgents[i] == (if s.voiceAgents[i].id == agent.id then agent else s.voiceAgents[i])
    ensures r.(voiceAgents := s.voiceAgents) == s
  {
    s.(voiceAgents := Lists.Replace(s.voiceAgents, VoiceAgentKey, agent))
  }

  function DeleteVoiceAgent(s: AppState, id: string): (r: AppState)
    ensures forall i :: 0 <= i < |r.voiceAgents| ==> r.voiceAgents[i].id != id
    ensures forall i :: 0 <= i < |s.voiceAgents| && s.voiceAgents[i].id != id ==> s.voiceAgents[i] in r.voiceAgents
    ensures r.(voiceAgents := s.voiceAgents) == s
  {
    s.(voiceAgents := Lists.RemoveAll(s.voiceAgents, VoiceAgentKey, id))
  }

  /** Deleting bots and agents, and adding or updating bots and agents, never
      touches the knowledge bases, so references keep resolving as long as a
      new or updated record's reference does. */
  lemma DeleteChatbotKeepsReferences(s: AppState, id: string)
    requires References(s)
    ensures References(DeleteChatbot(s, id))
  {
    var r := DeleteChatbot(s, id);
    forall i | 0 <= i < |r.chatbots| && r.chatbots[i].knowledgeBaseId.Some?
      ensures exists j :: 0 <= j < |r.knowledgeBases| && r.knowledgeBases[j].id == r.chatbots[i].knowledgeBaseId.value
    {
      assert r.chatbots[i] in s.chatbots;
      var k :| 0 <= k < |s.chatbots| && s.chatbots[k] == r.chatbots[i];
    }
  }

  /** The mock data the page starts from. */
  function Seed(createdAt: string): AppState {
    AppState(
      ViewValue(Dashboard),
      [KnowledgeBase("kb1", "Product FAQs", [], 12000, createdAt),
       KnowledgeBase("kb2", "Internal Docs", [], 56000, createdAt)],
      [Chatbot("cb1", "Customer Support Bot", "You are a helpful customer support agent.",
               Some("kb1"), false, createdAt, 150),
       Chatbot("cb2", "Developer Assistant", "You are an expert developer assistant.",
               Some("kb2"), true, createdAt, 88)],
      [VoiceAgent("va1", "Coffee Shop Barista", "You are a cheerful barista at a coffee shop.",
                  Zephyr, None, createdAt)])
  }

  /** The seed data's references resolve, and deleting the first knowledge
      base detaches the bot that used it and only that one. */
  lemma SeedDeleteExample(createdAt: string)
    ensures References(Seed(createdAt))
    ensures var r := DeleteKnowledgeBase(Seed(createdAt), "kb1");
            && |r.knowledgeBases| == 1 && r.knowledgeBases[0].id == "kb2"
            && r.chatbots[0].knowledgeBaseId.None?
            && r.chatbots[1] == Seed(createdAt).chatbots[1]
  {
    var s := Seed(createdAt);
    assert s.knowledgeBases[0].id == "kb1";
    assert s.knowledgeBases[1].id == "kb2";
    assert "kb1" != "kb2" by { assert "kb1"[2] != "kb2"[2]; }
    var r := DeleteKnowledgeBase(s, "kb1");
    assert Lists.RemoveAll(s.knowledgeBases, KnowledgeBaseKey, "kb1") == [s.knowledgeBases[1]] by {
      assert s.knowledgeBases[1..] == [s.knowledgeBases[1]];
      assert [s.knowledgeBases[1]][1..] == [];
    }
  }
}
