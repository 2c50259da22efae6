/** The records the suite stores and passes between its pages, with the
    "draft" shapes (`Omit<…, 'id' | 'createdAt' …>`) that forms emit before
    the list owner assigns an id and a timestamp. */
module Types {
  import opened Wrappers

  /** The five prebuilt voices of the live audio service. */
  datatype Voice = Zephyr | Puck | Charon | Kore | Fenrir

  datatype SourceKind = Url | File

  /** `size` is in bytes (file size) or UTF-16 units (pasted URL summary). */
  datatype KnowledgeSource = KnowledgeSource(
    id: string,
    kind: SourceKind,
    name: string,
    content: string,
    size: nat)

  datatype KnowledgeBase = KnowledgeBase(
    id: string,
    name: string,
    sources: seq<KnowledgeSource>,
    totalSize: nat,
    createdAt: string)

  datatype Chatbot = Chatbot(
    id: string,
    name: string,
    systemPrompt: string,
    knowledgeBaseId: Option<string>,
    useThinkingMode: bool,
    createdAt: string,
    usage: nat)

  /** The stored agent also carries a knowledge-base reference: the list
      owner seeds and clears it although the declared record omits it. */
  datatype VoiceAgent = VoiceAgent(
    id: string,
    name: string,
    systemInstruction: string,
    voice: Voice,
    knowledgeBaseId: Option<string>,
    createdAt: string)

  datatype Role = User | Model

  datatype ChatMessage = ChatMessage(id: string, role: Role, text: string)

  datatype KnowledgeBaseDraft = KnowledgeBaseDraft(
    name: string,
    sources: seq<KnowledgeSource>,
    totalSize: nat)

  datatype ChatbotDraft = ChatbotDraft(
    name: string,
    systemPrompt: string,
    knowledgeBaseId: Option<string>,
    useThinkingMode: bool)

  datatype VoiceAgentDraft = VoiceAgentDraft(
    name: string,
    systemInstruction: string,
    voice: Voice)

  function KnowledgeBaseKey(kb: KnowledgeBase): string { kb.id }
  function ChatbotKey(bot: Chatbot): string { bot.id }
  function VoiceAgentKey(agent: VoiceAgent): string { agent.id }
}
