/** Custom agents: a user's saved system prompt together with a provider, a model and a
    credential. The repository is a map from agent id to agent; a lookup finds an agent
    only for its owner. Access to a credential is decided by the credentials service,
    which is a parameter here. */
module ChatHubAgents {
  import opened Common

  /** A stored agent (ChatHubAgent). */
  datatype Agent = Agent(
    id: string,
    name: string,
    description: Option<string>,
    systemPrompt: string,
    ownerId: string,
    credentialId: Option<string>,
    provider: Option<Provider>,
    model: Option<string>)

  /** An agent as the model list shows it. */
  datatype AgentModelEntry = AgentModelEntry(name: string, description: Option<string>, model: ConversationModel)

  /** `getAgentsByUserIdAsModels`: one entry per agent, in order, selecting the agent. */
  function AgentsAsModels(agents: seq<Agent>): (r: seq<AgentModelEntry>)
    ensures |r| == |agents|
    ensures forall i | 0 <= i < |r| ::
      r[i].name == agents[i].name && r[i].description == agents[i].description
      && r[i].model.AgentModel? && r[i].model.agentId == agents[i].id
  {
    if agents == [] then []
    else [AgentModelEntry(agents[0].name, agents[0].description, AgentModel(agents[0].id))] + AgentsAsModels(agents[1..])
  }

  /** Every entry of the list selects the custom-agent provider, and distinct agents give
      entries that select distinct agents. */
  lemma AgentModelsDistinct(agents: seq<Agent>)
    requires forall i, j | 0 <= i < j < |agents| :: agents[i].id != agents[j].id
    ensures var r := AgentsAsModels(agents);
      (forall i | 0 <= i < |r| :: r[i].model.Provider() == CustomAgent)
      && forall i, j | 0 <= i < j < |r| :: r[i].model != r[j].model
  {
  }

  /** The data `createAgent` takes. */
  datatype NewAgent = NewAgent(
    name: string,
    description: Option<string>,
    systemPrompt: string,
    credentialId: string,
    provider: Option<Provider>,
    model: string)

  /** The fields `updateAgent` takes, each possibly left out. */
  datatype AgentUpdates = AgentUpdates(
    name: Option<string>,
    description: Field<string>,
    systemPrompt: Option<string>,
    credentialId: Field<string>,
    provider: Option<Provider>,
    model: Field<string>)

  /** The partial record `updateAgent` hands to the repository: a field is present exactly
      when the update provides it. */
  datatype AgentPatch = AgentPatch(
    name: Option<string>,
    description: Field<string>,
    systemPrompt: Option<string>,
    credentialId: Field<string>,
    provider: Option<Provider>,
    model: Field<string>)

  /** The partial record with exactly the fields of the update. */
  function Provided(updates: AgentUpdates): AgentPatch {
    AgentPatch(updates.name, updates.description, updates.systemPrompt, updates.credentialId,
               updates.provider, updates.model)
  }

  /** Fill the partial record field by field, copying only what the update provides. */
  method UpdateData(updates: AgentUpdates) returns (patch: AgentPatch)
    ensures patch == Provided(updates)
    ensures patch.name.Some? <==> updates.name.Some?
    ensures updates.name.Some? ==> patch.name == updates.name
    ensures patch.description.Absent? <==> updates.description.Absent?
    ensures !updates.description.Absent? ==> patch.description == updates.description
    ensures patch.systemPrompt.Some? <==> updates.systemPrompt.Some?
    ensures updates.systemPrompt.Some? ==> patch.systemPrompt == updates.systemPrompt
    ensures patch.credentialId.Absent? <==> updates.credentialId.Absent?
    ensures !updates.credentialId.Absent? ==> patch.credentialId == updates.credentialId
    ensures patch.provider.Some? <==> updates.provider.Some?
    ensures updates.provider.Some? ==> patch.provider == updates.provider
    ensures patch.model.Absent? <==> updates.model.Absent?
    ensures !updates.model.Absent? ==> patch.model == updates.model
  {
    patch := AgentPatch(None, Absent, None, Absent, None, Absent);
    if updates.name.Some? {
      patch := patch.(name := updates.name);
    }
    if !updates.description.Absent? {
      patch := patch.(description := updates.description);
    }
    if updates.systemPrompt.Some? {
      patch := patch.(systemPrompt := updates.systemPrompt);
    }
    if !updates.credentialId.Absent? {
      patch := patch.(credentialId := updates.credentialId);
    }
    if updates.provider.Some? {
      patch := patch.(provider := updates.provider);
    }
    if !updates.model.Absent? {
      patch := patch.(model := updates.model);
    }
  }

  /** The repository's update with a partial record: present fields are written, the rest
      are kept. */
  function Patched(agent: Agent, patch: AgentPatch): (a: Agent)
    ensures a.id == agent.id && a.ownerId == agent.ownerId
    ensures a.name == patch.name.GetOr(agent.name)
    ensures a.systemPrompt == patch.systemPrompt.GetOr(agent.systemPrompt)
    ensures patch.description.Absent? ==> a.description == agent.description
    ensures patch.credentialId.Absent? ==> a.credentialId == agent.credentialId
    ensures patch.provider.None? ==> a.provider == agent.provider
    ensures patch.model.Absent? ==> a.model == agent.model
    ensures patch.description.Value? ==> a.description == Some(patch.description.v)
    ensures patch.credentialId.Value? ==> a.credentialId == Some(patch.credentialId.v)
    ensures patch.model.Value? ==> a.model == Some(patch.model.v)
    ensures patch.provider.Some? ==> a.provider == patch.provider
    ensures patch.description.Null? ==> a.description == None
    ensures patch.credentialId.Null? ==> a.credentialId == None
    ensures patch.model.Null? ==> a.model == None
  {
    agent.(name := patch.name.GetOr(agent.name),
           description := patch.description.Over(agent.description),
           systemPrompt := patch.systemPrompt.GetOr(agent.systemPrompt),
           credentialId := patch.credentialId.Over(agent.credentialId),
           provider := if patch.provider.Some? then patch.provider else agent.provider,
           model := patch.model.Over(agent.model))
  }

  /** Applying the same update twice stores what applying it once does. */
  lemma PatchIdempotent(agent: Agent, patch: AgentPatch)
    ensures Patched(Patched(agent, patch), patch) == Patched(agent, patch)
  {
  }

  /** An update that provides nothing changes nothing. */
  lemma EmptyPatchKeeps(agent: Agent)
    ensures Patched(agent, AgentPatch(None, Absent, None, Absent, None, Absent)) == agent
  {
  }

  /** The agent service over its repository. */
  class AgentStore {
    var agents: map<string, Agent>

    /** Agents are stored under their own ids. */
    ghost predicate Valid()
      reads this
    {
      forall id | id in agents :: agents[id].id == id
    }

    constructor(agents: map<string, Agent>)
      requires forall id | id in agents :: agents[id].id == id
      ensures this.agents == agents && Valid()
    {
      this.agents := agents;
    }

    /** The repository's `getOneById(id, userId)`: the agent, when the user owns it. */
    function FindOwned(id: string, userId: string): (r: Option<Agent>)
      reads this
      ensures r.Some? <==> id in agents && agents[id].ownerId == userId
      ensures r.Some? ==> r.value == agents[id]
    {
      if id in agents && agents[id].ownerId == userId then Some(agents[id]) else None
    }

    /** `getAgentById`. */
    function GetAgentById(id: string, userId: string): (r: Result<Agent>)
      reads this
      ensures r.Err? <==> FindOwned(id, userId).None?
      ensures r.Err? ==> r.error == NotFound("Chat agent not found")
      ensures r.Ok? ==> r.value == agents[id] && r.value.ownerId == userId
      ensures Valid() && r.Ok? ==> r.value.id == id
    {
      match FindOwned(id, userId)
      case None => Err(NotFound("Chat agent not found"))
      case Some(agent) => Ok(agent)
    }

    /** `createAgent`: the credential check comes first; the new agent, owned by the acting
        user and stored under the fresh id, has no description unless one is given. */
    method CreateAgent(userId: string, data: NewAgent, id: string, ensureCredentialById: string -> Option<Error>)
      returns (r: Result<Agent>)
      requires Valid() && id !in agents
      modifies this
      ensures Valid()
      ensures ensureCredentialById(data.credentialId).Some? ==>
        r == Err(ensureCredentialById(data.credentialId).value) && agents == old(agents)
      ensures ensureCredentialById(data.credentialId).None? ==>
        && r == Ok(Agent(id, data.name, data.description, data.systemPrompt, userId,
                         Some(data.credentialId), data.provider, Some(data.model)))
        && agents == old(agents)[id := r.value]
    {
      var denied := ensureCredentialById(data.credentialId);
      if denied.Some? {
        return Err(denied.value);
      }
      var agent := Agent(id, data.name, data.description, data.systemPrompt, userId,
                         Some(data.credentialId), data.provider, Some(data.model));
      agents := agents[id := agent];
      return Ok(agent);
    }

    /** `updateAgent`: NotFound before anything else; the credential check only for a
        credential id that is given and not null; then only the provided fields change. */
    method UpdateAgent(id: string, userId: string, updates: AgentUpdates,
                       ensureCredentialById: string -> Option<Error>)
      returns (r: Result<Agent>)
      requires Valid()
      modifies this
      ensures Valid()
      ensures old(FindOwned(id, userId)).None? ==>
        r == Err(NotFound("Chat agent not found")) && agents == old(agents)
      ensures old(FindOwned(id, userId)).Some? && updates.credentialId.Value?
              && ensureCredentialById(updates.credentialId.v).Some? ==>
        r == Err(ensureCredentialById(updates.credentialId.v).value) && agents == old(agents)
      ensures r.Ok? ==>
        && old(FindOwned(id, userId)).Some?
        && agents == old(agents)[id := r.value]
        && r.value == Patched(old(agents)[id], Provided(updates))
      ensures r.Err? ==> agents == old(agents)
      ensures (old(FindOwned(id, userId)).Some?
               && (updates.credentialId.Value? ==> ensureCredentialById(updates.credentialId.v).None?)) ==> r.Ok?
    {
      var existingAgent := FindOwned(id, userId);
      if existingAgent.None? {
        return Err(NotFound("Chat agent not found"));
      }
      if updates.credentialId.Value? {
        var denied := ensureCredentialById(updates.credentialId.v);
        if denied.Some? {
          return Err(denied.value);
        }
      }
      var updateData := UpdateData(updates);
      var agent := Patched(agents[id], updateData);
      agents := agents[id := agent];
      return Ok(agent);
    }

    /** `deleteAgent`: NotFound before anything else, then the agent is removed. */
    method DeleteAgent(id: string, userId: string) returns (r: Result<()>)
      requires Valid()
      modifies this
      ensures Valid()
      ensures old(FindOwned(id, userId)).None? ==> r == Err(NotFound("Chat agent not found")) && agents == old(agents)
      ensures old(FindOwned(id, userId)).Some? ==> r == Ok(()) && agents == old(agents) - {id}
    {
      var existingAgent := FindOwned(id, userId);
      if existingAgent.None? {
        return Err(NotFound("Chat agent not found"));
      }
      agents := agents - {id};
      return Ok(());
    }
  }
}
