/** The chatbot page: the create/edit form, the save that adds a new bot or
    merges the form over the bot being edited, each card's knowledge-base
    label, the embed snippet, and the Test chat with its usage count. */
module ChatbotsView {
  import opened Wrappers
  import opened Types
  import Text
  import Lists
  import App
  import ChatInterface
  import ChatbotPublicPage
  import GeminiService

  // ---------------------------------------------------------------------
  // The form

  datatype BotForm = BotForm(
    name: string,
    systemPrompt: string,
    knowledgeBaseId: Option<string>,
    useThinkingMode: bool,
    error: string)

  const MissingFields := "Name and System Prompt are required."

  /** The effect on `initialData`: the edited bot's fields, or an empty form;
      the error is cleared either way. */
  function InitForm(initial: Option<Chatbot>): (f: BotForm)
    ensures f.error == ""
    ensures initial.None? ==> f == BotForm("", "", None, false, "")
    ensures initial.Some? ==>
              && f.name == initial.value.name && f.systemPrompt == initial.value.systemPrompt
              && f.knowledgeBaseId == initial.value.knowledgeBaseId
              && f.useThinkingMode == initial.value.useThinkingMode
  {
    match initial
    case None => BotForm("", "", None, false, "")
    case Some(b) => BotForm(b.name, b.systemPrompt, b.knowledgeBaseId, b.useThinkingMode, "")
  }

  /** The option the knowledge-base menu shows: `knowledgeBaseId || 'none'`. */
  function SelectValue(id: Option<string>): string {
    match id
    case None => "none"
    case Some(v) => if v == "" then "none" else v
  }

  /** The id a menu choice sets: "none" clears it. */
  function OnSelect(value: string): Option<string> {
    if value == "none" then None else Some(value)
  }

  /** Choosing the option shown keeps the form's id exactly when the id is
      not one the menu cannot tell from "no knowledge base"; and the menu
      shows whichever option was chosen. */
  lemma SelectRoundTrip(id: Option<string>, value: string)
    ensures OnSelect(SelectValue(id)) == id <==> id != Some("") && id != Some("none")
    ensures value != "" ==> SelectValue(OnSelect(value)) == value
  {
  }

  /** `handleSave` of the form: name and prompt are checked trimmed and
      emitted as typed, with the menu's id and the thinking flag. */
  function HandleSave(f: BotForm): (r: Result<ChatbotDraft, string>)
    ensures r.Failure? <==> Text.Trim(f.name) == "" || Text.Trim(f.systemPrompt) == ""
    ensures r.Failure? ==> r.error == MissingFields
    ensures r.Success? ==>
              r.value == ChatbotDraft(f.name, f.systemPrompt, f.knowledgeBaseId, f.useThinkingMode)
  {
    if Text.Trim(f.name) == "" || Text.Trim(f.systemPrompt) == "" then Failure(MissingFields)
    else Success(ChatbotDraft(f.name, f.systemPrompt, f.knowledgeBaseId, f.useThinkingMode))
  }

  /** A whitespace-only name or prompt is rejected; anything else is
      accepted. */
  lemma SaveAcceptedIff(f: BotForm)
    ensures HandleSave(f).Success? <==> !Text.Blank(f.name) && !Text.Blank(f.systemPrompt)
  {
    Text.TrimEmptyIffBlank(f.name);
    Text.TrimEmptyIffBlank(f.systemPrompt);
  }

  // ---------------------------------------------------------------------
  // Saving

  /** `{...editingBot, ...data}`: the form's fields over the edited bot. */
  function Merge(bot: Chatbot, d: ChatbotDraft): (r: Chatbot)
    ensures r.id == bot.id && r.createdAt == bot.createdAt && r.usage == bot.usage
    ensures r.name == d.name && r.systemPrompt == d.systemPrompt
    ensures r.knowledgeBaseId == d.knowledgeBaseId && r.useThinkingMode == d.useThinkingMode
  {
    bot.(name := d.name, systemPrompt := d.systemPrompt,
         knowledgeBaseId := d.knowledgeBaseId, useThinkingMode := d.useThinkingMode)
  }

  /** Saving an edit form left as it opened gives the bot back unchanged. */
  lemma UntouchedEditKeepsBot(bot: Chatbot)
    requires !Text.Blank(bot.name) && !Text.Blank(bot.systemPrompt)
    ensures HandleSave(InitForm(Some(bot))).Success?
    ensures Merge(bot, HandleSave(InitForm(Some(bot))).value) == bot
  {
    SaveAcceptedIff(InitForm(Some(bot)));
  }

  /** The dialog: whether it is open, and the bot being edited. */
  datatype Dialog = Dialog(isOpen: bool, editing: Option<Chatbot>)

  const Closed := Dialog(false, None)

  function OpenCreate(): Dialog { Dialog(true, None) }

  function OpenEdit(bot: Chatbot): Dialog { Dialog(true, Some(bot)) }

  /** `handleSave` of the page: update the merge when editing, add
      otherwise; then close the dialog. */
  function SaveBot(s: App.AppState, d: Dialog, draft: ChatbotDraft, now: nat, createdAt: string): (r: (App.AppState, Dialog))
    ensures r.1 == Closed
    ensures d.editing.Some? ==> r.0 == App.UpdateChatbot(s, Merge(d.editing.value, draft))
    ensures d.editing.None? ==> r.0 == App.AddChatbot(s, draft, now, createdAt)
  {
    match d.editing
    case Some(bot) => (App.UpdateChatbot(s, Merge(bot, draft)), Closed)
    case None => (App.AddChatbot(s, draft, now, createdAt), Closed)
  }

  /** The whole save from the form: a rejected form shows the message and
      changes nothing else. */
  function Submit(s: App.AppState, d: Dialog, f: BotForm, now: nat, createdAt: string): (r: (App.AppState, Dialog, BotForm))
    ensures HandleSave(f).Failure? ==> r == (s, d, f.(error := MissingFields))
    ensures HandleSave(f).Success? ==>
              (r.0, r.1) == SaveBot(s, d, HandleSave(f).value, now, createdAt) && r.2 == f
  {
    match HandleSave(f)
    case Failure(message) => (s, d, f.(error := message))
    case Success(draft) =>
      var (t, e) := SaveBot(s, d, draft, now, createdAt);
      (t, e, f)
  }

  /** Saving an edit of a stored bot keeps the number of bots, and the bot
      found under its id afterwards keeps its id, creation time and usage
      and takes the form's fields. */
  lemma EditSaveKeepsIdentity(s: App.AppState, bot: Chatbot, f: BotForm, now: nat, createdAt: string)
    requires exists i :: 0 <= i < |s.chatbots| && s.chatbots[i].id == bot.id
    requires !Text.Blank(f.name) && !Text.Blank(f.systemPrompt)
    ensures var r := Submit(s, OpenEdit(bot), f, now, createdAt).0;
            && |r.chatbots| == |s.chatbots|
            && var found := Lists.Find(r.chatbots, ChatbotKey, bot.id);
               && found.Some?
               && found.value.id == bot.id && found.value.createdAt == bot.createdAt
               && found.value.usage == bot.usage
               && found.value.name == f.name && found.value.systemPrompt == f.systemPrompt
               && found.value.knowledgeBaseId == f.knowledgeBaseId
               && found.value.useThinkingMode == f.useThinkingMode
  {
    SaveAcceptedIff(f);
    var merged := Merge(bot, HandleSave(f).value);
    App.FindAfterUpdateChatbot(s, merged);
  }

  /** Saving a new bot adds one, last, with no uses. */
  lemma CreateSaveAppends(s: App.AppState, f: BotForm, now: nat, createdAt: string)
    requires !Text.Blank(f.name) && !Text.Blank(f.systemPrompt)
    ensures var r := Submit(s, OpenCreate(), f, now, createdAt);
            && r.1 == Closed
            && |r.0.chatbots| == |s.chatbots| + 1
            && r.0.chatbots[..|s.chatbots|] == s.chatbots
            && r.0.chatbots[|s.chatbots|].usage == 0
            && r.0.chatbots[|s.chatbots|].name == f.name
  {
    SaveAcceptedIff(f);
  }

  // ---------------------------------------------------------------------
  // The card

  /** The card's knowledge-base line: the name of the first stored base
      with the bot's id, or "None" when there is none or its name is empty. */
  function KnowledgeBaseLabel(kbs: seq<KnowledgeBase>, bot: Chatbot): (r: string)
    ensures r != "None" ==>
              (exists j :: 0 <= j < |kbs| && Some(kbs[j].id) == bot.knowledgeBaseId && kbs[j].name == r)
    ensures r != ""
    ensures bot.knowledgeBaseId.None? ==> r == "None"
    ensures bot.knowledgeBaseId.Some? && Lists.Find(kbs, KnowledgeBaseKey, bot.knowledgeBaseId.value).None? ==>
              r == "None"
    ensures bot.knowledgeBaseId.Some? && Lists.Find(kbs, KnowledgeBaseKey, bot.knowledgeBaseId.value).Some?
            && Lists.Find(kbs, KnowledgeBaseKey, bot.knowledgeBaseId.value).value.name == "" ==>
              r == "None"
    ensures bot.knowledgeBaseId.Some? && Lists.Find(kbs, KnowledgeBaseKey, bot.knowledgeBaseId.value).Some?
            && Lists.Find(kbs, KnowledgeBaseKey, bot.knowledgeBaseId.value).value.name != "" ==>
              r == Lists.Find(kbs, KnowledgeBaseKey, bot.knowledgeBaseId.value).value.name
  {
    match bot.knowledgeBaseId
    case None => "None"
    case Some(id) =>
      match Lists.Find(kbs, KnowledgeBaseKey, id)
      case None => "None"
      case Some(kb) => if kb.name == "" then "None" else kb.name
  }

  /** Once a knowledge base is deleted, the cards of the bots that used it
      read "None". */
  lemma DeletedKnowledgeBaseReadsNone(s: App.AppState, id: string, i: nat)
    requires i < |s.chatbots| && s.chatbots[i].knowledgeBaseId == Some(id)
    ensures var r := App.DeleteKnowledgeBase(s, id);
            i < |r.chatbots| && KnowledgeBaseLabel(r.knowledgeBases, r.chatbots[i]) == "None"
  {
  }

  // ---------------------------------------------------------------------
  // The embed snippet

  const EmbedPrefix := "<script>\n    window.geminiChatbotConfig = {\n        botId: \""
  /** The tag that loads the widget, the snippet's last line. */
  const LoaderTag := "<script src=\"/chatbot-loader.js\" async defer></script>"
  const EmbedSuffix :=
    "\",\n        // Optional: If hosting the suite on a different domain, specify it here.\n"
    + "        // domain: \"https://your-suite-domain.com\" \n    };\n</script>\n"
    + LoaderTag

  /** The snippet for a bot: its id can be read back from a fixed place in
      the configuration, and the snippet ends by loading the widget. */
  function EmbedCode(botId: string): (e: string)
    ensures |e| == |EmbedPrefix| + |botId| + |EmbedSuffix|
    ensures e[|EmbedPrefix|..|EmbedPrefix| + |botId|] == botId
    ensures e[|e| - |LoaderTag|..] == LoaderTag
  {
    var e := EmbedPrefix + botId + EmbedSuffix;
    assert e[|e| - |LoaderTag|..] == EmbedSuffix[|EmbedSuffix| - |LoaderTag|..];
    e
  }

  /** Different bots get different snippets. */
  lemma EmbedCodeInjective(a: string, b: string)
    requires EmbedCode(a) == EmbedCode(b)
    ensures a == b
  {
    assert EmbedCode(a)[|EmbedPrefix|..|EmbedPrefix| + |a|] == a;
    assert EmbedCode(b)[|EmbedPrefix|..|EmbedPrefix| + |b|] == b;
  }

  // ---------------------------------------------------------------------
  // The Test chat

  /** A send in the Test chat as the page is mounted: the list owner renders
      the page without `incrementChatbotUsage`, so the `onInteraction` the
      page passes throws when it is called. The result is the list owner's
      state and the chat. */
  function TestSendAsWritten(s: App.AppState, bot: Chatbot, c: ChatInterface.Chat,
                             service: GeminiService.Request -> Option<string>,
                             now: nat, later: nat): (r: (App.AppState, ChatInterface.Chat))
    ensures r == (s, c)
  {
    (s, ChatInterface.HandleSend(c, bot, s.knowledgeBases, ChatInterface.Throws, service, now, later).0)
  }

  /** The same accepted send is lost as mounted and answered once the
      counter is passed in: the two differ by the exchange and the use. */
  lemma TestChatLosesEverySend(s: App.AppState, bot: Chatbot, c: ChatInterface.Chat,
                               service: GeminiService.Request -> Option<string>, now: nat, later: nat)
    requires !Text.Blank(c.input) && !c.isLoading
    ensures TestSendAsWritten(s, bot, c, service, now, later) == (s, c)
    ensures |TestSend(s, bot, c, service, now, later).1.messages| == |c.messages| + 2
  {
    TestSendCountsAndAnswers(s, bot, c, service, now, later);
  }

  /** A send with the usage counter passed in: the chat runs as on the
      stand-alone page and the bot's uses go up when `onInteraction` runs. */
  function TestSend(s: App.AppState, bot: Chatbot, c: ChatInterface.Chat,
                    service: GeminiService.Request -> Option<string>,
                    now: nat, later: nat): (r: (App.AppState, ChatInterface.Chat))
    ensures r.0.knowledgeBases == s.knowledgeBases && r.0.voiceAgents == s.voiceAgents
    ensures r.0.(chatbots := s.chatbots) == s
  {
    var (chat, called) := ChatInterface.HandleSend(c, bot, s.knowledgeBases, ChatInterface.Present,
                                                   service, now, later);
    (if called then s.(chatbots := ChatbotPublicPage.IncrementUsage(s.chatbots, Some(bot))) else s, chat)
  }

  /** Wired up, a blank or overlapping Test send changes nothing. */
  lemma TestSendIgnored(s: App.AppState, bot: Chatbot, c: ChatInterface.Chat,
                        service: GeminiService.Request -> Option<string>, now: nat, later: nat)
    requires Text.Blank(c.input) || c.isLoading
    ensures TestSend(s, bot, c, service, now, later) == (s, c)
  {
    ChatInterface.SendIgnored(c, bot, s.knowledgeBases, ChatInterface.Present, service, now, later);
  }

  /** Wired up, an accepted Test send gets its exchange and counts one use
      per stored bot with the tested bot's id. */
  lemma TestSendCountsAndAnswers(s: App.AppState, bot: Chatbot, c: ChatInterface.Chat,
                                 service: GeminiService.Request -> Option<string>, now: nat, later: nat)
    requires !Text.Blank(c.input) && !c.isLoading
    ensures var r := TestSend(s, bot, c, service, now, later);
            && |r.1.messages| == |c.messages| + 2
            && r.1.messages[..|c.messages|] == c.messages
            && r.1.messages[|c.messages|].text == c.input
            && ChatbotPublicPage.TotalUsage(r.0.chatbots)
                 == ChatbotPublicPage.TotalUsage(s.chatbots) + ChatbotPublicPage.Matching(s.chatbots, bot.id)
  {
    Text.TrimEmptyIffBlank(c.input);
    var sent := ChatInterface.HandleSend(c, bot, s.knowledgeBases, ChatInterface.Present, service, now, later);
    assert sent.1;
    assert TestSend(s, bot, c, service, now, later)
             == (s.(chatbots := ChatbotPublicPage.IncrementUsage(s.chatbots, Some(bot))), sent.0);
    ChatInterface.SendAppendsExchange(c, bot, s.knowledgeBases, ChatInterface.Present, service, now, later);
    var request := GeminiService.ResponseRequest(c.input, c.messages, bot.systemPrompt,
                                                 ChatInterface.KnowledgeContext(bot.knowledgeBaseId, s.knowledgeBases),
                                                 bot.useThinkingMode);
    ExchangeShape(c.messages, ChatMessage(Text.Digits(now), User, c.input),
                  ChatMessage(Text.Digits(later + 1), Model, service(request).GetOr(GeminiService.ResponseApology)));
    ChatbotPublicPage.IncrementAddsOnePerMatch(s.chatbots, bot);
  }

  lemma ExchangeShape(before: seq<ChatMessage>, u: ChatMessage, m: ChatMessage)
    ensures var after := before + [u] + [m];
            |after| == |before| + 2 && after[..|before|] == before && after[|before|] == u
  {
    var after := before + [u] + [m];
    assert after[..|before|] == before;
  }
}
