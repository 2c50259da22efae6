/** The stand-alone voice-agent page: the agent named by `agentId` is looked
    up in the stored voice agents. */
module VoiceAgentPublicPage {
  import opened Wrappers
  import opened Types
  import PublicPage
  import Lists

  const MissingId := "Error: No agent ID provided in the URL."
  const Noun := "Voice agent"

  /** The lookup effect over the stored voice agents. */
  function FindAgent(p: PublicPage.Page<VoiceAgent>, agentId: Option<string>, agents: seq<VoiceAgent>): (r: PublicPage.Page<VoiceAgent>)
    ensures agentId.None? || agentId.value == "" ==> !r.isLoading && r.error == MissingId
    ensures agentId.Some? && agentId.value != "" && agents == [] ==> r == p
    ensures r.item.Some? && r.item != p.item ==>
              agentId.Some? && r.item.value in agents && r.item.value.id == agentId.value
  {
    PublicPage.Lookup(p, agentId, agents, VoiceAgentKey, MissingId, Noun)
  }

  /** An unknown id ends loading with an error that quotes it. */
  lemma UnknownAgentQuotesId(p: PublicPage.Page<VoiceAgent>, id: string, agents: seq<VoiceAgent>)
    requires id != "" && agents != []
    requires forall j :: 0 <= j < |agents| ==> agents[j].id != id
    ensures !FindAgent(p, Some(id), agents).isLoading
    ensures FindAgent(p, Some(id), agents).error == PublicPage.NotFound(Noun, id)
  {
  }

  /** A stored agent requested by its id is shown once the list has loaded:
      the first stored agent with that id, as `find` returns it. */
  lemma StoredAgentShown(agents: seq<VoiceAgent>, i: nat)
    requires i < |agents| && agents[i].id != ""
    ensures var s := PublicPage.Render(FindAgent(PublicPage.Loading(), Some(agents[i].id), agents));
            && s.Content? && s.item.id == agents[i].id
            && Some(s.item) == Lists.Find(agents, VoiceAgentKey, agents[i].id)
  {
  }
}
