/** The pure decisions inside the chat-hub service: which credential a model uses, which
    output of an execution is the reply, which nodes of a workflow are language models, and
    the validation of workflows and session updates. Repositories and lookups are given as
    values or functions; PROVIDER_CREDENTIAL_TYPE_MAP and PROVIDER_NODE_TYPE_MAP are tables. */
module ChatHubService {
  import opened Common

  // ---------------------------------------------------------------------------------
  // pickCredentialId and getModelWithCredentials

  /** The id stored under the provider's credential type; none for the providers without a
      language model node. */
  function PickCredentialId(provider: Provider, credentials: NodeCredentials,
                            credentialTypes: ProviderTable<string>): (r: Option<string>)
    ensures !provider.IsLlm() ==> r.None?
    ensures provider.IsLlm() && credentialTypes.Get(provider) !in credentials ==> r.None?
    ensures provider.IsLlm() && credentialTypes.Get(provider) in credentials ==>
      r == credentials[credentialTypes.Get(provider)].id
  {
    if provider == N8n || provider == CustomAgent then None
    else
      var credentialType := credentialTypes.Get(provider);
      if credentialType in credentials then credentials[credentialType].id else None
  }

  /** `{[PROVIDER_CREDENTIAL_TYPE_MAP[provider]]: {id, name: ''}}`. */
  function CredentialsFor(provider: LlmProvider, id: string, credentialTypes: ProviderTable<string>)
    : (c: NodeCredentials)
    ensures c.Keys == {credentialTypes.Get(provider)}
  {
    map[credentialTypes.Get(provider) := CredentialRef(Some(id), "")]
  }

  /** The credentials the service builds for a provider are the ones it later picks. */
  lemma PickBuiltCredentials(provider: LlmProvider, id: string, credentialTypes: ProviderTable<string>)
    ensures PickCredentialId(provider, CredentialsFor(provider, id, credentialTypes), credentialTypes) == Some(id)
  {
  }

  /** A model together with the credential it runs with (ModelWithCredentials). */
  datatype ModelWithCredentials = ModelWithCredentials(model: ConversationModel, credentialId: Option<string>)

  function GetModelWithCredentials(selectedModel: ConversationModel, credentials: NodeCredentials,
                                   credentialTypes: ProviderTable<string>): (r: ModelWithCredentials)
    ensures r.model == selectedModel
    ensures r.credentialId.Some? ==> selectedModel.BaseModel?
    ensures selectedModel.BaseModel? ==>
      r.credentialId == PickCredentialId(selectedModel.llm, credentials, credentialTypes)
  {
    var provider := selectedModel.Provider();
    ModelWithCredentials(selectedModel,
      if provider != N8n then PickCredentialId(provider, credentials, credentialTypes) else None)
  }

  // ---------------------------------------------------------------------------------
  // getAIOutput

  /** One output item of a node run. */
  datatype Item = Item(json: map<string, Param>)

  /** One run of a node: `data.main` holds its output branches, a branch may be null. */
  datatype TaskRun = TaskRun(main: Option<seq<Option<seq<Item>>>>)

  /** A branch carries a reply when its first item's `output` is a non-empty string. */
  function BranchOutput(branch: Option<seq<Item>>): Option<string> {
    if branch.Some? && |branch.value| > 0 && "output" in branch.value[0].json
       && branch.value[0].json["output"].Truthy() && branch.value[0].json["output"].PString?
    then Some(branch.value[0].json["output"].s)
    else None
  }

  /** The output of the first branch that carries one. */
  function FirstOutput(branches: seq<Option<seq<Item>>>): (r: Option<string>)
    ensures r.Some? ==> r.value != ""
    ensures r.None? <==> forall i | 0 <= i < |branches| :: BranchOutput(branches[i]).None?
    ensures r.Some? ==> exists i | 0 <= i < |branches| ::
      BranchOutput(branches[i]) == r && forall j | 0 <= j < i :: BranchOutput(branches[j]).None?
  {
    if branches == [] then None
    else if BranchOutput(branches[0]).Some? then BranchOutput(branches[0])
    else
      var r := FirstOutput(branches[1..]);
      assert forall i | 0 < i < |branches| :: branches[1..][i - 1] == branches[i];
      r
  }

  /** The reply of an execution: from the last run of the node, the first branch output. */
  function AIOutput(runData: map<string, seq<TaskRun>>, nodeName: string): Option<string> {
    if nodeName !in runData || |runData[nodeName]| == 0 then None
    else
      var mainOutputs := runData[nodeName][|runData[nodeName]| - 1].main;
      if mainOutputs.None? then None else FirstOutput(mainOutputs.value)
  }

  /** `getAIOutput`: scan the branches of the node's last run and return the first output. */
  method GetAIOutput(runData: map<string, seq<TaskRun>>, nodeName: string) returns (r: Option<string>)
    ensures r == AIOutput(runData, nodeName)
    ensures r.Some? ==> r.value != ""
    ensures r.Some? ==> nodeName in runData && |runData[nodeName]| > 0
  {
    if nodeName !in runData || |runData[nodeName]| == 0 {
      return None;
    }
    var agent := runData[nodeName];
    var runIndex := |agent| - 1;
    var mainOutputs := agent[runIndex].main;
    if mainOutputs.Some? {
      var branches := mainOutputs.value;
      for i := 0 to |branches|
        invariant forall j | 0 <= j < i :: BranchOutput(branches[j]).None?
      {
        var branch := branches[i];
        if branch.Some? && |branch.value| > 0 && "output" in branch.value[0].json
           && branch.value[0].json["output"].Truthy() {
          if branch.value[0].json["output"].PString? {
            return Some(branch.value[0].json["output"].s);
          }
        }
      }
    }
    return None;
  }

  // ---------------------------------------------------------------------------------
  // findSupportedLLMNodes

  /** The first provider of the table, in its entry order, whose node type is `nodeType`. */
  function ProviderOfType(nodeTypes: ProviderTable<NodeTypeRef>, nodeType: string): (r: Option<LlmProvider>)
    ensures r.Some? ==> nodeTypes.Get(r.value).name == nodeType
    ensures r.None? <==>
      nodeTypes.openai.name != nodeType && nodeTypes.anthropic.name != nodeType
      && nodeTypes.google.name != nodeType
    ensures r == Some(Anthropic) ==> nodeTypes.openai.name != nodeType
    ensures r == Some(Google) ==> nodeTypes.openai.name != nodeType && nodeTypes.anthropic.name != nodeType
  {
    var entries := nodeTypes.Entries();
    assert entries[1..] == [(Anthropic, nodeTypes.anthropic), (Google, nodeTypes.google)];
    assert entries[1..][1..] == [(Google, nodeTypes.google)];
    assert entries[1..][1..][1..] == [];
    assert FindEntry(entries[1..][1..], nodeType)
      == if nodeTypes.google.name == nodeType then Some(Google) else None;
    assert FindEntry(entries[1..], nodeType)
      == if nodeTypes.anthropic.name == nodeType then Some(Anthropic) else FindEntry(entries[1..][1..], nodeType);
    assert FindEntry(entries, nodeType)
      == if nodeTypes.openai.name == nodeType then Some(OpenAI) else FindEntry(entries[1..], nodeType);
    FindEntry(entries, nodeType)
  }

  /** `entries.find(([_, {name}]) => name === nodeType)`. */
  function FindEntry(entries: seq<(LlmProvider, NodeTypeRef)>, nodeType: string): Option<LlmProvider> {
    if entries == [] then None
    else if entries[0].1.name == nodeType then Some(entries[0].0)
    else FindEntry(entries[1..], nodeType)
  }

  /** A language model node, with the provider its type belongs to. */
  datatype LlmNode = LlmNode(node: Node, provider: LlmProvider)

  /** The `reduce` of `findSupportedLLMNodes`: the nodes of a supported type, in workflow
      order, each with its provider. */
  function FindSupportedLLMNodes(nodes: seq<Node>, nodeTypes: ProviderTable<NodeTypeRef>): (r: seq<LlmNode>)
    ensures |r| <= |nodes|
    ensures forall i | 0 <= i < |r| ::
      r[i].node in nodes && ProviderOfType(nodeTypes, r[i].node.nodeType) == Some(r[i].provider)
  {
    if nodes == [] then []
    else
      var rest := FindSupportedLLMNodes(nodes[1..], nodeTypes);
      var supported := ProviderOfType(nodeTypes, nodes[0].nodeType);
      assert forall n | n in nodes[1..] :: n in nodes;
      if supported.Some? then [LlmNode(nodes[0], supported.value)] + rest else rest
  }

  /** Every node of a supported type is found. */
  lemma {:induction false} SupportedNodesFound(nodes: seq<Node>, nodeTypes: ProviderTable<NodeTypeRef>, n: Node)
    requires n in nodes && ProviderOfType(nodeTypes, n.nodeType).Some?
    ensures exists i | 0 <= i < |FindSupportedLLMNodes(nodes, nodeTypes)| ::
      FindSupportedLLMNodes(nodes, nodeTypes)[i] == LlmNode(n, ProviderOfType(nodeTypes, n.nodeType).value)
  {
    var r := FindSupportedLLMNodes(nodes, nodeTypes);
    var rest := FindSupportedLLMNodes(nodes[1..], nodeTypes);
    if n == nodes[0] {
      assert r[0] == LlmNode(n, ProviderOfType(nodeTypes, n.nodeType).value);
    } else {
      assert n in nodes[1..];
      SupportedNodesFound(nodes[1..], nodeTypes, n);
      var i :| 0 <= i < |rest| && rest[i] == LlmNode(n, ProviderOfType(nodeTypes, n.nodeType).value);
      if ProviderOfType(nodeTypes, nodes[0].nodeType).Some? {
        assert r[i + 1] == rest[i];
      }
    }
  }

  /** The first node found is the workflow's first node of a supported type, and there is
      one exactly when some node has a supported type. */
  lemma {:induction false} FirstSupportedNode(nodes: seq<Node>, nodeTypes: ProviderTable<NodeTypeRef>)
    ensures FindSupportedLLMNodes(nodes, nodeTypes) == [] <==>
      forall i | 0 <= i < |nodes| :: ProviderOfType(nodeTypes, nodes[i].nodeType).None?
    ensures FindSupportedLLMNodes(nodes, nodeTypes) != [] ==> exists k | 0 <= k < |nodes| ::
      && nodes[k] == FindSupportedLLMNodes(nodes, nodeTypes)[0].node
      && forall j | 0 <= j < k :: ProviderOfType(nodeTypes, nodes[j].nodeType).None?
  {
    if nodes != [] {
      FirstSupportedNode(nodes[1..], nodeTypes);
      assert forall i | 0 < i < |nodes| :: nodes[1..][i - 1] == nodes[i];
      if ProviderOfType(nodeTypes, nodes[0].nodeType).None? {
        var r := FindSupportedLLMNodes(nodes, nodeTypes);
        if r != [] {
          var k :| 0 <= k < |nodes[1..]| && nodes[1..][k] == r[0].node
            && forall j | 0 <= j < k :: ProviderOfType(nodeTypes, nodes[1..][j].nodeType).None?;
          assert nodes[k + 1] == r[0].node;
        }
      }
    }
  }

  // ---------------------------------------------------------------------------------
  // resolveFromN8nWorkflow

  /** `(node.parameters?.model as INodeParameters)?.value`. */
  function ModelValue(node: Node): Option<Param> {
    if "model" in node.parameters && node.parameters["model"].PObject?
       && "value" in node.parameters["model"].fields
    then Some(node.parameters["model"].fields["value"])
    else None
  }

  /** A literal model name: a non-empty string that is not an expression (`=...`). */
  predicate IsLiteralModel(value: Option<Param>) {
    value.Some? && value.value.PString? && |value.value.s| > 0 && value.value.s[0] != '='
  }

  /** What title generation runs with: credentials, model, and the credential id. */
  datatype Resolution = Resolution(credentials: NodeCredentials, model: ConversationModel, credentialId: string)

  /** `resolveFromN8nWorkflow`: the workflow's first language model node decides the model
      and the credentials. `ensureCredentials` is the credentials service, returning the id
      of a usable credential or an error. */
  function ResolveFromN8nWorkflow(workflow: Option<Workflow>, nodeTypes: ProviderTable<NodeTypeRef>,
                                  credentialTypes: ProviderTable<string>,
                                  ensureCredentials: (LlmProvider, NodeCredentials) -> Result<string>)
    : (r: Result<Resolution>)
    ensures workflow.None? ==> r == Err(BadRequest("Workflow not found for title generation"))
    ensures workflow.Some? && FindSupportedLLMNodes(workflow.value.nodes, nodeTypes) == [] ==>
      r == Err(BadRequest("No supported Model nodes found in workflow for title generation"))
    ensures workflow.Some? && FindSupportedLLMNodes(workflow.value.nodes, nodeTypes) != [] ==>
      r == ResolveModelNode(FindSupportedLLMNodes(workflow.value.nodes, nodeTypes)[0],
                            credentialTypes, ensureCredentials)
  {
    if workflow.None? then Err(BadRequest("Workflow not found for title generation"))
    else
      var modelNodes := FindSupportedLLMNodes(workflow.value.nodes, nodeTypes);
      if |modelNodes| == 0 then
        Err(BadRequest("No supported Model nodes found in workflow for title generation"))
      else ResolveModelNode(modelNodes[0], credentialTypes, ensureCredentials)
  }

  /** The checks `resolveFromN8nWorkflow` makes of the model node it picked: a model value
      that is set, a literal name rather than an expression, credentials on the node, and
      credentials the user may use. */
  function ResolveModelNode(modelNode: LlmNode, credentialTypes: ProviderTable<string>,
                            ensureCredentials: (LlmProvider, NodeCredentials) -> Result<string>)
    : (r: Result<Resolution>)
    ensures var value := ModelValue(modelNode.node);
      (value.None? || !value.value.Truthy()) ==>
        r == Err(BadRequest("No model set on Model node \"" + modelNode.node.name + "\" for title generation"))
    ensures var value := ModelValue(modelNode.node);
      (value.Some? && value.value.Truthy() && !IsLiteralModel(value)) ==>
        r == Err(BadRequest("Invalid model set on Model node \"" + modelNode.node.name + "\" for title generation"))
    ensures IsLiteralModel(ModelValue(modelNode.node)) && modelNode.node.credentials.None? ==>
      r == Err(BadRequest("No credentials found on Model node \"" + modelNode.node.name + "\" for title generation"))
    ensures IsLiteralModel(ModelValue(modelNode.node)) && modelNode.node.credentials.Some?
            && ensureCredentials(modelNode.provider, modelNode.node.credentials.value).Err? ==>
      r == Err(ensureCredentials(modelNode.provider, modelNode.node.credentials.value).error)
    ensures r.Ok? ==>
      var value := ModelValue(modelNode.node);
      && IsLiteralModel(value)
      && modelNode.node.credentials.Some?
      && ensureCredentials(modelNode.provider, modelNode.node.credentials.value) == Ok(r.value.credentialId)
      && r.value.model == BaseModel(modelNode.provider, value.value.s)
      && r.value.credentials == CredentialsFor(modelNode.provider, r.value.credentialId, credentialTypes)
  {
    var llmModel := ModelValue(modelNode.node);
    if llmModel.None? || !llmModel.value.Truthy() then
      Err(BadRequest("No model set on Model node \"" + modelNode.node.name + "\" for title generation"))
    else if !llmModel.value.PString? || |llmModel.value.s| == 0 || llmModel.value.s[0] == '=' then
      Err(BadRequest("Invalid model set on Model node \"" + modelNode.node.name + "\" for title generation"))
    else if modelNode.node.credentials.None? then
      Err(BadRequest("No credentials found on Model node \"" + modelNode.node.name + "\" for title generation"))
    else
      match ensureCredentials(modelNode.provider, modelNode.node.credentials.value)
      case Err(e) => Err(e)
      case Ok(credentialId) =>
        Ok(Resolution(CredentialsFor(modelNode.provider, credentialId, credentialTypes),
                      BaseModel(modelNode.provider, llmModel.value.s), credentialId))
  }

  /** Title generation accepts the first model node exactly when its model value is a
      literal name, it has credentials and the credentials service accepts them; the model
      node chosen is the first one of a supported type, and the credential the resolution
      builds is the one the service later picks for that model. */
  lemma TitleModelAccepted(workflow: Workflow, nodeTypes: ProviderTable<NodeTypeRef>,
                           credentialTypes: ProviderTable<string>,
                           ensureCredentials: (LlmProvider, NodeCredentials) -> Result<string>)
    requires FindSupportedLLMNodes(workflow.nodes, nodeTypes) != []
    ensures var modelNode := FindSupportedLLMNodes(workflow.nodes, nodeTypes)[0];
      var r := ResolveFromN8nWorkflow(Some(workflow), nodeTypes, credentialTypes, ensureCredentials);
      && (r.Ok? <==>
            IsLiteralModel(ModelValue(modelNode.node)) && modelNode.node.credentials.Some?
            && ensureCredentials(modelNode.provider, modelNode.node.credentials.value).Ok?)
      && (r.Ok? ==> PickCredentialId(modelNode.provider, r.value.credentials, credentialTypes)
                      == Some(r.value.credentialId))
      && (exists k | 0 <= k < |workflow.nodes| :: workflow.nodes[k] == modelNode.node
            && ProviderOfType(nodeTypes, workflow.nodes[k].nodeType) == Some(modelNode.provider)
            && forall j | 0 <= j < k :: ProviderOfType(nodeTypes, workflow.nodes[j].nodeType).None?)
  {
    var modelNode := FindSupportedLLMNodes(workflow.nodes, nodeTypes)[0];
    var r := ResolveFromN8nWorkflow(Some(workflow), nodeTypes, credentialTypes, ensureCredentials);
    FirstSupportedNode(workflow.nodes, nodeTypes);
    if r.Ok? {
      PickBuiltCredentials(modelNode.provider, r.value.credentialId, credentialTypes);
    }
  }

  // ---------------------------------------------------------------------------------
  // prepareCustomAgentWorkflow

  /** `nodes.filter((node) => node.type === nodeType)`. */
  function NodesOfType(nodes: seq<Node>, nodeType: string): (r: seq<Node>)
    ensures |r| <= |nodes|
    ensures forall n :: n in r <==> n in nodes && n.nodeType == nodeType
  {
    if nodes == [] then []
    else
      var rest := NodesOfType(nodes[1..], nodeType);
      assert forall n | n in nodes :: n == nodes[0] || n in nodes[1..];
      if nodes[0].nodeType == nodeType then [nodes[0]] + rest else rest
  }

  /** When the filter finds exactly one node, that node is the only one of its type. */
  lemma SingleOfType(nodes: seq<Node>, nodeType: string)
    requires |NodesOfType(nodes, nodeType)| == 1
    ensures var only := NodesOfType(nodes, nodeType)[0];
      only in nodes && only.nodeType == nodeType
      && forall i | 0 <= i < |nodes| && nodes[i].nodeType == nodeType :: nodes[i] == only
  {
    var r := NodesOfType(nodes, nodeType);
    forall i | 0 <= i < |nodes| && nodes[i].nodeType == nodeType
      ensures nodes[i] == r[0]
    {
      assert nodes[i] in r;
    }
  }

  /** The node types a custom agent workflow is checked against. */
  datatype ChatNodeTypes = ChatNodeTypes(chatTrigger: string, respondToChat: string)

  /** A custom agent workflow, ready to run: the stored workflow as is, and its seed. */
  datatype PreparedRun = PreparedRun(workflow: Workflow, seed: ExecutionSeed)

  /** `prepareCustomAgentWorkflow`: a workflow runs as a custom agent when it has exactly
      one chat trigger and no "Respond to Chat" node; it is seeded at that trigger. */
  function PrepareCustomAgentWorkflow(workflow: Option<Workflow>, types: ChatNodeTypes,
                                      userId: string, sessionId: string, message: string)
    : (r: Result<PreparedRun>)
    ensures r.Ok? <==>
      workflow.Some? && |NodesOfType(workflow.value.nodes, types.chatTrigger)| == 1
      && forall n | n in workflow.value.nodes :: n.nodeType != types.respondToChat
    ensures workflow.None? ==> r == Err(BadRequest("Workflow not found"))
    ensures workflow.Some? && |NodesOfType(workflow.value.nodes, types.chatTrigger)| != 1 ==>
      r == Err(BadRequest("Workflow must have exactly one chat trigger"))
    ensures workflow.Some? && |NodesOfType(workflow.value.nodes, types.chatTrigger)| == 1
            && (exists n | n in workflow.value.nodes :: n.nodeType == types.respondToChat) ==>
      r == Err(BadRequest("Respond to Chat nodes are not supported in custom agent workflows"))
    ensures r.Err? ==> r.error.BadRequest?
    ensures r.Ok? ==>
      var trigger := NodesOfType(workflow.value.nodes, types.chatTrigger)[0];
      && r.value.workflow == workflow.value
      && r.value.seed == SendMessageSeed(trigger, sessionId, message, userId)
      && trigger in workflow.value.nodes && trigger.nodeType == types.chatTrigger
  {
    if workflow.None? then Err(BadRequest("Workflow not found"))
    else
      var chatTriggers := NodesOfType(workflow.value.nodes, types.chatTrigger);
      if |chatTriggers| != 1 then Err(BadRequest("Workflow must have exactly one chat trigger"))
      else
        var chatResponseNodes := NodesOfType(workflow.value.nodes, types.respondToChat);
        if |chatResponseNodes| > 0 then
          assert chatResponseNodes[0] in chatResponseNodes;
          Err(BadRequest("Respond to Chat nodes are not supported in custom agent workflows"))
        else
          Ok(PreparedRun(workflow.value, SendMessageSeed(chatTriggers[0], sessionId, message, userId)))
  }

  // ---------------------------------------------------------------------------------
  // updateSession

  /** The fields `updateSession` accepts. */
  datatype SessionUpdates = SessionUpdates(
    title: Option<string>,
    credentialId: Field<string>,
    provider: Option<Provider>,
    model: Field<string>,
    workflowId: Field<string>,
    agentId: Field<string>,
    agentName: Field<string>)

  /** A truthy string field: set to a non-empty string. */
  predicate Given(f: Field<string>) {
    f.Value? && f.v != ""
  }

  /** The name a workflow's agent shows: the trigger's `agentName` parameter when it is a
      non-empty string, else the workflow's name. */
  function AgentNameOf(workflow: Workflow, trigger: Node): string {
    if "agentName" in trigger.parameters && trigger.parameters["agentName"].PString?
       && |trigger.parameters["agentName"].s| > 0
    then trigger.parameters["agentName"].s
    else workflow.name
  }

  /** `updateSession`: check the session, the workflow (with its one chat trigger) and the
      agent named by the update, fill in the agent name, then null out the fields the
      provider does not use. `findWorkflow` and `findAgentName` are the lookups for the
      acting user. A missing agent makes the agent lookup itself throw its NotFound, so
      the service's own "Agent not found" check after it is never reached. */
  method UpdateSession(sessionExists: bool, updates: SessionUpdates, chatTriggerType: string,
                       findWorkflow: string -> Option<Workflow>, findAgentName: string -> Option<string>)
    returns (r: Result<SessionUpdates>)
    ensures !sessionExists ==> r == Err(NotFound("Session not found"))
    ensures sessionExists && Given(updates.workflowId) && findWorkflow(updates.workflowId.v).None? ==>
      r == Err(BadRequest("Workflow not found"))
    ensures sessionExists && Given(updates.workflowId) && findWorkflow(updates.workflowId.v).Some?
            && |NodesOfType(findWorkflow(updates.workflowId.v).value.nodes, chatTriggerType)| != 1 ==>
      r == Err(BadRequest("Workflow must have exactly one chat trigger"))
    ensures sessionExists && Given(updates.agentId) && findAgentName(updates.agentId.v).None?
            && (Given(updates.workflowId) ==>
                  findWorkflow(updates.workflowId.v).Some?
                  && |NodesOfType(findWorkflow(updates.workflowId.v).value.nodes, chatTriggerType)| == 1) ==>
      r == Err(NotFound("Chat agent not found"))
    ensures r.Ok? <==>
      && sessionExists
      && (Given(updates.workflowId) ==>
            findWorkflow(updates.workflowId.v).Some?
            && |NodesOfType(findWorkflow(updates.workflowId.v).value.nodes, chatTriggerType)| == 1)
      && (Given(updates.agentId) ==> findAgentName(updates.agentId.v).Some?)
    ensures r.Ok? ==> r.value.title == updates.title && r.value.provider == updates.provider
    ensures r.Ok? && updates.provider == Some(N8n) ==>
      && r.value.model == Null && r.value.credentialId == Null && r.value.agentId == Null
      && r.value.workflowId == updates.workflowId
    ensures r.Ok? && updates.provider == Some(CustomAgent) ==>
      && r.value.model == Null && r.value.credentialId == Null && r.value.workflowId == Null
      && r.value.agentId == updates.agentId
    ensures r.Ok? && updates.provider.Some? && updates.provider.value.IsLlm() ==>
      && r.value.workflowId == Null && r.value.agentId == Null && r.value.agentName == Null
      && r.value.model == updates.model && r.value.credentialId == updates.credentialId
    ensures r.Ok? && updates.provider.None? ==>
      && r.value.model == updates.model && r.value.credentialId == updates.credentialId
      && r.value.workflowId == updates.workflowId && r.value.agentId == updates.agentId
    ensures r.Ok? && !(updates.provider.Some? && updates.provider.value.IsLlm()) ==>
      r.value.agentName ==
        if Given(updates.agentId) then Value(findAgentName(updates.agentId.v).value)
        else if Given(updates.workflowId) then
          var w := findWorkflow(updates.workflowId.v).value;
          Value(AgentNameOf(w, NodesOfType(w.nodes, chatTriggerType)[0]))
        else updates.agentName
  {
    if !sessionExists {
      return Err(NotFound("Session not found"));
    }
    var u := updates;
    if Given(u.workflowId) {
      var workflow := findWorkflow(u.workflowId.v);
      if workflow.None? {
        return Err(BadRequest("Workflow not found"));
      }
      var chatTriggers := NodesOfType(workflow.value.nodes, chatTriggerType);
      if |chatTriggers| != 1 {
        return Err(BadRequest("Workflow must have exactly one chat trigger"));
      }
      u := u.(agentName := Value(AgentNameOf(workflow.value, chatTriggers[0])));
    }
    if Given(u.agentId) {
      var agentName := findAgentName(u.agentId.v);
      if agentName.None? {
        return Err(NotFound("Chat agent not found"));
      }
      u := u.(agentName := Value(agentName.value));
    }
    if u.provider == Some(N8n) {
      u := u.(model := Null, credentialId := Null, agentId := Null);
    } else if u.provider == Some(CustomAgent) {
      u := u.(model := Null, credentialId := Null, workflowId := Null);
    } else if u.provider.Some? {
      u := u.(workflowId := Null, agentId := Null, agentName := Null);
    }
    return Ok(u);
  }
}
