/** The chat window: the knowledge context a bot's conversation is grounded
    in, and the send transition, split at its single `await` into the part
    before the request (guard, interaction callback, user message) and the
    part after the reply (model message). `Date.now()` is passed in at each
    part. */
module ChatInterface {
  import opened Wrappers
  import opened Types
  import Text
  import Lists
  import GeminiService

  datatype Chat = Chat(messages: seq<ChatMessage>, input: string, isLoading: bool)

  const EmptyChat := Chat([], "", false)

  /** The optional `onInteraction` prop: absent, present, or present but
      throwing when called. */
  datatype Interaction = Absent | Present | Throws

  const ContextSeparator := "\n\n"

  function Contents(sources: seq<KnowledgeSource>): (r: seq<string>)
    ensures |r| == |sources|
    ensures forall i :: 0 <= i < |r| ==> r[i] == sources[i].content
  {
    if sources == [] then [] else [sources[0].content] + Contents(sources[1..])
  }

  /** A knowledge base's context: its sources' contents joined by a blank
      line. */
  function ContextOf(kb: KnowledgeBase): string {
    Text.Join(Contents(kb.sources), ContextSeparator)
  }

  /** The context of the knowledge base with id `knowledgeBaseId`, or `None`
      when no stored knowledge base carries that id (a missing id matches
      none). */
  function KnowledgeContext(knowledgeBaseId: Option<string>, kbs: seq<KnowledgeBase>): (r: Option<string>)
    ensures knowledgeBaseId.None? ==> r.None?
    ensures r.None? <==>
              knowledgeBaseId.None?
              || forall j :: 0 <= j < |kbs| ==> kbs[j].id != knowledgeBaseId.value
    ensures r.Some? ==>
              (exists j :: 0 <= j < |kbs| && kbs[j].id == knowledgeBaseId.value && r.value == ContextOf(kbs[j]))
    ensures knowledgeBaseId.Some? && Lists.Find(kbs, KnowledgeBaseKey, knowledgeBaseId.value).Some? ==>
              r == Some(ContextOf(Lists.Find(kbs, KnowledgeBaseKey, knowledgeBaseId.value).value))
  {
    match knowledgeBaseId
    case None => None
    case Some(id) =>
      match Lists.Find(kbs, KnowledgeBaseKey, id)
      case None => None
      case Some(kb) => Some(ContextOf(kb))
  }

  /** A knowledge base without sources grounds nothing: its context is empty,
      so the question goes out without a context header. */
  lemma EmptyKnowledgeBaseAddsNoContext(id: string, kbs: seq<KnowledgeBase>, prompt: string)
    requires Lists.Find(kbs, KnowledgeBaseKey, id).Some?
    requires Lists.Find(kbs, KnowledgeBaseKey, id).value.sources == []
    ensures KnowledgeContext(Some(id), kbs) == Some("")
    ensures GeminiService.FullPrompt(prompt, KnowledgeContext(Some(id), kbs)) == prompt
  {
  }

  /** A single source's content is the whole context. */
  lemma SingleSourceContext(kb: KnowledgeBase)
    requires |kb.sources| == 1
    ensures ContextOf(kb) == kb.sources[0].content
  {
  }

  /** Each further source adds a blank line and its content to the context. */
  lemma ContextGrowsBySource(kb: KnowledgeBase, source: KnowledgeSource)
    requires kb.sources != []
    ensures ContextOf(kb.(sources := kb.sources + [source]))
              == ContextOf(kb) + ContextSeparator + source.content
  {
    ContentsSnoc(kb.sources, source);
    Text.JoinSnoc(Contents(kb.sources), source.content, ContextSeparator);
  }

  lemma ContentsSnoc(sources: seq<KnowledgeSource>, source: KnowledgeSource)
    ensures Contents(sources + [source]) == Contents(sources) + [source.content]
  {
    var l, r := Contents(sources + [source]), Contents(sources) + [source.content];
    assert |l| == |r|;
    forall k | 0 <= k < |l|
      ensures l[k] == r[k]
    {
    }
  }

  /** The question and history a send hands to the service. */
  datatype Pending = Pending(prompt: string, history: seq<ChatMessage>)

  /** The first half of `handleSend`, up to the request. */
  datatype SendStart =
    | Ignored              // blank input or a request already in flight
    | Threw                // `onInteraction` threw: the send stops there
    | Sent(chat: Chat, pending: Pending)

  function BeginSend(c: Chat, onInteraction: Interaction, now: nat): (r: SendStart)
    ensures r.Ignored? <==> Text.Trim(c.input) == "" || c.isLoading
    ensures r.Threw? <==> !r.Ignored? && onInteraction == Throws
    ensures r.Sent? ==>
              && r.chat.messages == c.messages + [ChatMessage(Text.Digits(now), User, c.input)]
              && r.chat.input == "" && r.chat.isLoading
              && r.pending == Pending(c.input, c.messages)
  {
    if Text.Trim(c.input) == "" || c.isLoading then Ignored
    else if onInteraction == Throws then Threw
    else
      Sent(Chat(c.messages + [ChatMessage(Text.Digits(now), User, c.input)], "", true),
           Pending(c.input, c.messages))
  }

  /** The second half: the reply joins the conversation at `later + 1`. */
  function FinishSend(c: Chat, reply: string, later: nat): (r: Chat)
    ensures r.messages == c.messages + [ChatMessage(Text.Digits(later + 1), Model, reply)]
    ensures r.input == c.input && !r.isLoading
  {
    c.(messages := c.messages + [ChatMessage(Text.Digits(later + 1), Model, reply)], isLoading := false)
  }

  /** A whole send with the service as a parameter: the chat afterwards, and
      whether `onInteraction` was called (it ran when the send got past the
      guard, even when it threw). */
  function HandleSend(c: Chat, bot: Chatbot, kbs: seq<KnowledgeBase>, onInteraction: Interaction,
                      service: GeminiService.Request -> Option<string>, now: nat, later: nat): (r: (Chat, bool))
    ensures r.1 <==> !(Text.Trim(c.input) == "" || c.isLoading) && onInteraction != Absent
  {
    match BeginSend(c, onInteraction, now)
    case Ignored => (c, false)
    case Threw => (c, true)
    case Sent(chat, pending) =>
      var reply := GeminiService.GetResponse(service, pending.prompt, pending.history,
                                             bot.systemPrompt, KnowledgeContext(bot.knowledgeBaseId, kbs),
                                             bot.useThinkingMode);
      (FinishSend(chat, reply, later), onInteraction == Present)
  }

  /** A blank input or a request in flight makes a send do nothing. */
  lemma SendIgnored(c: Chat, bot: Chatbot, kbs: seq<KnowledgeBase>, onInteraction: Interaction,
                    service: GeminiService.Request -> Option<string>, now: nat, later: nat)
    requires Text.Blank(c.input) || c.isLoading
    ensures HandleSend(c, bot, kbs, onInteraction, service, now, later) == (c, false)
  {
    Text.TrimEmptyIffBlank(c.input);
  }

  /** An accepted send adds exactly two messages, the user's input as typed
      and then the service's reply (or the apology), asks the service with
      the conversation as it was before this send, clears the input and ends
      not loading. */
  lemma SendAppendsExchange(c: Chat, bot: Chatbot, kbs: seq<KnowledgeBase>, onInteraction: Interaction,
                            service: GeminiService.Request -> Option<string>, now: nat, later: nat)
    requires !Text.Blank(c.input) && !c.isLoading && onInteraction != Throws
    ensures var r := HandleSend(c, bot, kbs, onInteraction, service, now, later).0;
            var request := GeminiService.ResponseRequest(c.input, c.messages, bot.systemPrompt,
                                                         KnowledgeContext(bot.knowledgeBaseId, kbs), bot.useThinkingMode);
            && r.messages == c.messages
                 + [ChatMessage(Text.Digits(now), User, c.input)]
                 + [ChatMessage(Text.Digits(later + 1), Model,
                                service(request).GetOr(GeminiService.ResponseApology))]
            && r.input == "" && !r.isLoading
  {
    Text.TrimEmptyIffBlank(c.input);
    var start := BeginSend(c, onInteraction, now);
    assert start.Sent?;
    var context := KnowledgeContext(bot.knowledgeBaseId, kbs);
    var request := GeminiService.ResponseRequest(c.input, c.messages, bot.systemPrompt, context, bot.useThinkingMode);
    var reply := GeminiService.GetResponse(service, c.input, c.messages, bot.systemPrompt, context, bot.useThinkingMode);
    assert reply == service(request).GetOr(GeminiService.ResponseApology);
    var r := FinishSend(start.chat, reply, later);
    assert HandleSend(c, bot, kbs, onInteraction, service, now, later).0 == r;
  }
}
