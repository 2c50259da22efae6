/** The text-generation requests the suite builds: the history in the
    service's content shape, the question wrapped with the knowledge
    context, the model and thinking budget picked by the bot's flag, and a
    fixed apology when the call fails. The service itself is a parameter:
    `None` stands for a call that throws (including a missing API key). */
module GeminiService {
  import opened Wrappers
  import opened Types

  datatype Part = Part(text: string)

  datatype Content = Content(role: Role, parts: seq<Part>)

  datatype Config = Config(thinkingBudget: Option<nat>, systemInstruction: string)

  datatype Request = Request(model: string, contents: seq<Content>, config: Config)

  const ProModel := "gemini-2.5-pro"
  const FlashModel := "gemini-2.5-flash"
  const ThinkingBudget: nat := 32768

  const ResponseApology := "Sorry, I encountered an error. Please try again."
  const AssistantApology := "Apologies, I'm having trouble connecting. Please check your setup."
  const AssistantInstruction :=
    "You are a helpful assistant for a user building chatbots. Be concise and helpful."

  /** One message in the service's shape: its role, and its text as the only part. */
  function FormatMessage(m: ChatMessage): Content {
    Content(m.role, [Part(m.text)])
  }

  /** `formatHistory`. */
  function FormatHistory(history: seq<ChatMessage>): (r: seq<Content>)
    ensures |r| == |history|
    ensures forall i :: 0 <= i < |r| ==>
              r[i].role == history[i].role && |r[i].parts| == 1 && r[i].parts[0].text == history[i].text
  {
    if history == [] then [] else [FormatMessage(history[0])] + FormatHistory(history[1..])
  }

  /** The role and text of each formatted entry, read back. */
  function Unformat(contents: seq<Content>): (r: seq<(Role, string)>)
    requires forall i :: 0 <= i < |contents| ==> |contents[i].parts| >= 1
    ensures |r| == |contents|
  {
    if contents == [] then []
    else [(contents[0].role, contents[0].parts[0].text)] + Unformat(contents[1..])
  }

  function RolesAndTexts(history: seq<ChatMessage>): (r: seq<(Role, string)>)
    ensures |r| == |history|
  {
    if history == [] then [] else [(history[0].role, history[0].text)] + RolesAndTexts(history[1..])
  }

  /** Formatting loses nothing a message says: its role and text, in order. */
  lemma {:induction false} UnformatFormatHistory(history: seq<ChatMessage>)
    ensures Unformat(FormatHistory(history)) == RolesAndTexts(history)
  {
    if history != [] {
      assert FormatHistory(history)[1..] == FormatHistory(history[1..]);
      UnformatFormatHistory(history[1..]);
    }
  }

  /** Formatting a longer history formats the earlier part the same way. */
  lemma {:induction false} FormatHistoryAppend(a: seq<ChatMessage>, b: seq<ChatMessage>)
    ensures FormatHistory(a + b) == FormatHistory(a) + FormatHistory(b)
  {
    if a == [] {
      assert a + b == b;
    } else {
      assert (a + b)[1..] == a[1..] + b;
      FormatHistoryAppend(a[1..], b);
    }
  }

  const ContextHeader := "CONTEXT:\n"
  const QuestionHeader := "\n\nQUESTION:\n"

  /** The question, with the knowledge context in front of it when there is
      a non-empty one. */
  function FullPrompt(prompt: string, context: Option<string>): (r: string)
    ensures |r| >= |prompt| && r[|r| - |prompt|..] == prompt
    ensures context.None? || context.value == "" ==> r == prompt
    ensures context.Some? && context.value != "" ==>
              && |r| == |ContextHeader| + |context.value| + |QuestionHeader| + |prompt|
              && r[..|ContextHeader|] == ContextHeader
              && r[|ContextHeader|..|ContextHeader| + |context.value|] == context.value
    ensures context.Some? && context.value != "" ==>
              r == ContextHeader + context.value + QuestionHeader + prompt
  {
    if context.Some? && context.value != "" then
      var r := ContextHeader + context.value + QuestionHeader + prompt;
      assert r[|r| - |prompt|..] == prompt;
      assert r[..|ContextHeader|] == ContextHeader;
      assert r[|ContextHeader|..|ContextHeader| + |context.value|] == context.value;
      r
    else prompt
  }

  /** Different contexts give different prompts for the same question. */
  lemma FullPromptSeparatesContexts(prompt: string, c: string, d: string)
    requires c != "" && d != "" && c != d
    ensures FullPrompt(prompt, Some(c)) != FullPrompt(prompt, Some(d))
  {
    var p, q := FullPrompt(prompt, Some(c)), FullPrompt(prompt, Some(d));
    if |c| == |d| {
      assert p[|ContextHeader|..|ContextHeader| + |c|] == c;
      assert q[|ContextHeader|..|ContextHeader| + |d|] == d;
    }
  }

  /** The model and configuration the thinking flag selects. */
  function ConfigFor(useThinkingMode: bool, systemInstruction: string): (r: (string, Config))
    ensures r.1.systemInstruction == systemInstruction
    ensures useThinkingMode <==> r.0 == ProModel
    ensures useThinkingMode ==> r.1.thinkingBudget == Some(ThinkingBudget)
    ensures !useThinkingMode ==> r.0 == FlashModel && r.1.thinkingBudget.None?
  {
    if useThinkingMode then (ProModel, Config(Some(ThinkingBudget), systemInstruction))
    else (FlashModel, Config(None, systemInstruction))
  }

  /** The request `getResponse` sends. */
  function ResponseRequest(prompt: string, history: seq<ChatMessage>, systemInstruction: string,
                           context: Option<string>, useThinkingMode: bool): (r: Request)
    ensures |r.contents| == |history| + 1
    ensures r.contents[..|history|] == FormatHistory(history)
    ensures r.contents[|history|] == Content(User, [Part(FullPrompt(prompt, context))])
    ensures r.config.systemInstruction == systemInstruction
    ensures (r.model, r.config) == ConfigFor(useThinkingMode, systemInstruction)
  {
    var (model, config) := ConfigFor(useThinkingMode, systemInstruction);
    var contents := FormatHistory(history) + [Content(User, [Part(FullPrompt(prompt, context))])];
    assert contents[..|history|] == FormatHistory(history);
    Request(model, contents, config)
  }

  /** The request `getAssistantResponse` sends. */
  function AssistantRequest(prompt: string, history: seq<ChatMessage>): (r: Request)
    ensures r.model == FlashModel && r.config == Config(None, AssistantInstruction)
    ensures |r.contents| == |history| + 1
    ensures r.contents[..|history|] == FormatHistory(history)
    ensures r.contents[|history|] == Content(User, [Part(prompt)])
  {
    var contents := FormatHistory(history) + [Content(User, [Part(prompt)])];
    assert contents[..|history|] == FormatHistory(history);
    Request(FlashModel, contents, Config(None, AssistantInstruction))
  }

  /** `getResponse`: the service's reply, or the apology if it fails. */
  function GetResponse(service: Request -> Option<string>, prompt: string, history: seq<ChatMessage>,
                       systemInstruction: string, context: Option<string>, useThinkingMode: bool): (r: string)
    ensures var reply := service(ResponseRequest(prompt, history, systemInstruction, context, useThinkingMode));
            r == reply.GetOr(ResponseApology)
  {
    match service(ResponseRequest(prompt, history, systemInstruction, context, useThinkingMode))
    case Some(text) => text
    case None => ResponseApology
  }

  /** `getAssistantResponse`: the service's reply, or its own apology. */
  function GetAssistantResponse(service: Request -> Option<string>, prompt: string,
                                history: seq<ChatMessage>): (r: string)
    ensures var reply := service(AssistantRequest(prompt, history));
            r == reply.GetOr(AssistantApology)
  {
    match service(AssistantRequest(prompt, history))
    case Some(text) => text
    case None => AssistantApology
  }

  /** A failing service never surfaces as an error: each function answers
      with its own apology, and the two apologies differ. */
  lemma FailureGivesApology(prompt: string, history: seq<ChatMessage>, systemInstruction: string,
                            context: Option<string>, useThinkingMode: bool)
    ensures GetResponse(_ => None, prompt, history, systemInstruction, context, useThinkingMode)
              == ResponseApology
    ensures GetAssistantResponse(_ => None, prompt, history) == AssistantApology
    ensures ResponseApology != AssistantApology
  {
    assert |ResponseApology| != |AssistantApology|;
  }
}
