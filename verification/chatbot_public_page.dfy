/** The stand-alone chatbot page: the bot named by `botId` is looked up in
    the stored chatbots, and each accepted chat send counts one use of it. */
module ChatbotPublicPage {
  import opened Wrappers
  import opened Types
  import PublicPage
  import Lists

  const MissingId := "Error: No bot ID provided in the URL."
  const Noun := "Chatbot"

  /** The lookup effect over the stored chatbots. */
  function FindBot(p: PublicPage.Page<Chatbot>, botId: Option<string>, chatbots: seq<Chatbot>): (r: PublicPage.Page<Chatbot>)
    ensures botId.None? || botId.value == "" ==> !r.isLoading && r.error == MissingId
    ensures botId.Some? && botId.value != "" && chatbots == [] ==> r == p
    ensures r.item.Some? && r.item != p.item ==>
              botId.Some? && r.item.value in chatbots && r.item.value.id == botId.value
  {
    PublicPage.Lookup(p, botId, chatbots, ChatbotKey, MissingId, Noun)
  }

  /** An unknown id ends loading with an error that quotes it. */
  lemma UnknownBotQuotesId(p: PublicPage.Page<Chatbot>, id: string, chatbots: seq<Chatbot>)
    requires id != "" && chatbots != []
    requires forall j :: 0 <= j < |chatbots| ==> chatbots[j].id != id
    ensures !FindBot(p, Some(id), chatbots).isLoading
    ensures FindBot(p, Some(id), chatbots).error == PublicPage.NotFound(Noun, id)
  {
  }

  /** A stored bot requested by its id is shown once the list has loaded:
      the first stored bot with that id, as `find` returns it. */
  lemma StoredBotShown(chatbots: seq<Chatbot>, i: nat)
    requires i < |chatbots| && chatbots[i].id != ""
    ensures var s := PublicPage.Render(FindBot(PublicPage.Loading(), Some(chatbots[i].id), chatbots));
            && s.Content? && s.item.id == chatbots[i].id
            && Some(s.item) == Lists.Find(chatbots, ChatbotKey, chatbots[i].id)
  {
  }

  /** `handleInteraction`: one more use for every stored bot with the page
      bot's id; nothing without a bot. */
  function IncrementUsage(chatbots: seq<Chatbot>, bot: Option<Chatbot>): (r: seq<Chatbot>)
    ensures bot.None? ==> r == chatbots
    ensures |r| == |chatbots|
    ensures forall i :: 0 <= i < |r| ==>
              if bot.Some? && chatbots[i].id == bot.value.id
              then r[i] == chatbots[i].(usage := chatbots[i].usage + 1)
              else r[i] == chatbots[i]
  {
    match bot
    case None => chatbots
    case Some(b) =>
      if chatbots == [] then []
      else
        var c := chatbots[0];
        [if c.id == b.id then c.(usage := c.usage + 1) else c] + IncrementUsage(chatbots[1..], bot)
  }

  /** The uses counted over all stored bots. */
  function TotalUsage(chatbots: seq<Chatbot>): nat {
    if chatbots == [] then 0 else chatbots[0].usage + TotalUsage(chatbots[1..])
  }

  function Matching(chatbots: seq<Chatbot>, id: string): nat {
    if chatbots == [] then 0 else (if chatbots[0].id == id then 1 else 0) + Matching(chatbots[1..], id)
  }

  /** Each interaction adds exactly one use per bot with the id: with ids
      unique, exactly one use in all. */
  lemma {:induction false} IncrementAddsOnePerMatch(chatbots: seq<Chatbot>, bot: Chatbot)
    ensures TotalUsage(IncrementUsage(chatbots, Some(bot))) == TotalUsage(chatbots) + Matching(chatbots, bot.id)
  {
    if chatbots != [] {
      var r := IncrementUsage(chatbots, Some(bot));
      assert r[1..] == IncrementUsage(chatbots[1..], Some(bot));
      IncrementAddsOnePerMatch(chatbots[1..], bot);
    }
  }
}
