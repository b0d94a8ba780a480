/** The chat-turn workflows the server synthesises: a six-node reply workflow (trigger,
    agent, model, memory, restore memory, clear memory) and a three-node title workflow,
    each with its connection map and a one-entry execution seed. Node names, node types,
    the title prompt and `getMaxContextWindowTokens` come from files outside this model and
    are parameters, as are the UUIDs of the nodes. */
module ChatHubWorkflow {
  import opened Common
  import ChatHubHistory
  import ChatHubService

  /** NODE_NAMES. */
  datatype NodeNames = NodeNames(
    chatTrigger: string, replyAgent: string, chatModel: string, memory: string,
    restoreChatMemory: string, clearChatMemory: string, titleGeneratorAgent: string)

  /** The node names are pairwise different, as the constants are. */
  predicate DistinctNames(n: NodeNames) {
    && n.chatTrigger != n.replyAgent && n.chatTrigger != n.chatModel && n.chatTrigger != n.memory
    && n.chatTrigger != n.restoreChatMemory && n.chatTrigger != n.clearChatMemory
    && n.chatTrigger != n.titleGeneratorAgent
    && n.replyAgent != n.chatModel && n.replyAgent != n.memory && n.replyAgent != n.restoreChatMemory
    && n.replyAgent != n.clearChatMemory && n.replyAgent != n.titleGeneratorAgent
    && n.chatModel != n.memory && n.chatModel != n.restoreChatMemory && n.chatModel != n.clearChatMemory
    && n.chatModel != n.titleGeneratorAgent
    && n.memory != n.restoreChatMemory && n.memory != n.clearChatMemory && n.memory != n.titleGeneratorAgent
    && n.restoreChatMemory != n.clearChatMemory && n.restoreChatMemory != n.titleGeneratorAgent
    && n.clearChatMemory != n.titleGeneratorAgent
  }

  /** The constants the builders use: node names, node types and the title prompt. */
  datatype Constants = Constants(
    names: NodeNames,
    chatTriggerType: string,
    agentType: string,
    memoryBufferWindowType: string,
    memoryManagerType: string,
    modelTypes: ProviderTable<NodeTypeRef>,
    titlePrompt: string)

  /** NodeConnectionTypes used here. */
  datatype ConnectionType = Main | AiLanguageModel | AiMemory

  /** One connection: the target node, the input type and the input index. */
  datatype Connection = Connection(node: string, connectionType: ConnectionType, index: nat)

  /** IConnections: source node name, then output type, then output index. */
  type Connections = map<string, map<ConnectionType, seq<seq<Connection>>>>

  /** A built workflow: nodes, connections and the execution seed. */
  datatype BuiltWorkflow = BuiltWorkflow(nodes: seq<Node>, connections: Connections, seed: ExecutionSeed)

  /** The UUIDs a reply workflow takes: one per node, and the trigger's webhook id. */
  datatype ChatNodeIds = ChatNodeIds(
    trigger: string, webhook: string, agent: string, model: string,
    memory: string, restore: string, clear: string)

  /** The UUIDs a title workflow takes. */
  datatype TitleNodeIds = TitleNodeIds(trigger: string, webhook: string, agent: string, model: string)

  // ---------------------------------------------------------------------------------
  // Nodes

  function ChatTriggerNode(c: Constants, id: string, webhookId: string): (n: Node) {
    Node(id, c.names.chatTrigger, c.chatTriggerType, 1.4, (0, 0), map[], None, Some(webhookId))
  }

  /** The expression reading the trigger's `chatInput`. */
  function ChatInputExpression(c: Constants): string {
    "={{ $('" + c.names.chatTrigger + "').item.json.chatInput }}"
  }

  /** The agent options: streaming, then the optional token budget and system message
      (an `undefined` option is a missing key). */
  function AgentOptions(enableStreaming: bool, maxTokensFromMemory: Option<int>, systemMessage: Option<string>)
    : (o: map<string, Param>)
    ensures "enableStreaming" in o && o["enableStreaming"] == PBool(enableStreaming)
    ensures "maxTokensFromMemory" in o <==> maxTokensFromMemory.Some?
    ensures maxTokensFromMemory.Some? ==> o["maxTokensFromMemory"] == PNumber(maxTokensFromMemory.value)
    ensures "systemMessage" in o <==> systemMessage.Some?
    ensures systemMessage.Some? ==> o["systemMessage"] == PString(systemMessage.value)
  {
    var base := map["enableStreaming" := PBool(enableStreaming)];
    var withTokens := if maxTokensFromMemory.Some? then base["maxTokensFromMemory" := PNumber(maxTokensFromMemory.value)] else base;
    if systemMessage.Some? then withTokens["systemMessage" := PString(systemMessage.value)] else withTokens
  }

  function AgentNode(c: Constants, id: string, name: string, options: map<string, Param>): Node {
    Node(id, name, c.agentType, 3.0, (600, 0),
         map["promptType" := PString("define"), "text" := PString(ChatInputExpression(c)),
             "options" := PObject(options)],
         None, None)
  }

  /** `buildToolsAgentNode`: a streaming agent whose token budget is the model's context
      window for a language model provider, and absent otherwise. */
  function ToolsAgentNode(c: Constants, id: string, model: ConversationModel, systemMessage: Option<string>,
                          maxContextWindowTokens: (LlmProvider, string) -> int): Node {
    AgentNode(c, id, c.names.replyAgent,
      AgentOptions(true,
        if model.BaseModel? then Some(maxContextWindowTokens(model.llm, model.model)) else None,
        systemMessage))
  }

  /** `buildModelNode`: a resource-locator model parameter by id; anthropic also records the
      model as `cachedResultName`. Workflows of n8n and custom agents have no model node. */
  function ModelNode(c: Constants, id: string, credentials: NodeCredentials, conversationModel: ConversationModel)
    : (r: Result<Node>)
    ensures r.Err? <==> !conversationModel.BaseModel?
    ensures r.Err? ==> r.error == Operational("Custom agent workflows do not require a model node")
  {
    match conversationModel
    case N8nModel(_) => Err(Operational("Custom agent workflows do not require a model node"))
    case AgentModel(_) => Err(Operational("Custom agent workflows do not require a model node"))
    case BaseModel(provider, model) =>
      var locator := map["__rl" := PBool(true), "mode" := PString("id"), "value" := PString(model)];
      var modelParam := match provider
        case OpenAI => locator
        case Anthropic => locator["cachedResultName" := PString(model)]
        case Google => locator;
      Ok(Node(id, c.names.chatModel, c.modelTypes.Get(provider).name, c.modelTypes.Get(provider).version,
              (600, 300), map["model" := PObject(modelParam), "options" := PObject(map[])],
              Some(credentials), None))
  }

  function MemoryNode(c: Constants, id: string, contextWindowLength: int): Node {
    Node(id, c.names.memory, c.memoryBufferWindowType, 1.3, (480, 208),
         map["sessionIdType" := PString("customKey"),
             "sessionKey" := PString("={{ $('" + c.names.chatTrigger + "').item.json.sessionId }}"),
             "contextWindowLength" := PNumber(contextWindowLength)],
         None, None)
  }

  /** A MessageRecord of the memory manager. */
  datatype MemoryRecord = MemoryRecord(recordType: string, message: string, hideFromUI: bool)

  /** `typeMap[message.type] || 'system'`. */
  function RecordType(t: MessageType): string {
    match t
    case Human => "user"
    case AI => "ai"
    case System => "system"
    case OtherType(_) => "system"
  }

  /** The history as memory records: messages without content are dropped, the rest keep
      their order. */
  function RestoreRecords(history: seq<ChatHubHistory.StoredMessage>): (r: seq<MemoryRecord>)
    ensures |r| <= |history|
    ensures forall i | 0 <= i < |r| :: !r[i].hideFromUI && r[i].message != ""
  {
    if history == [] then []
    else
      var m := history[0];
      (if |m.content| > 0 then [MemoryRecord(RecordType(m.messageType), m.content, false)] else [])
      + RestoreRecords(history[1..])
  }

  /** Restoring distributes over concatenation and keeps exactly the messages with content,
      which with the single-message case determines it as a filter followed by a map. */
  lemma {:induction false} RestoreRecordsAppend(a: seq<ChatHubHistory.StoredMessage>, b: seq<ChatHubHistory.StoredMessage>)
    ensures RestoreRecords(a + b) == RestoreRecords(a) + RestoreRecords(b)
  {
    if a == [] {
      assert a + b == b;
    } else {
      assert (a + b)[1..] == a[1..] + b;
      RestoreRecordsAppend(a[1..], b);
    }
  }

  /** The records of a single message. */
  lemma RestoreRecordsSingle(m: ChatHubHistory.StoredMessage)
    ensures RestoreRecords([m]) ==
      if m.content == "" then [] else [MemoryRecord(RecordType(m.messageType), m.content, false)]
  {
    assert [m][1..] == [];
  }

  /** A record for every message with content: as many records as such messages, and
      history types map human to user, ai to ai and everything else to system. */
  lemma {:induction false} RestoreRecordsCount(history: seq<ChatHubHistory.StoredMessage>)
    ensures |RestoreRecords(history)| == |NonEmpty(history)|
    ensures forall i | 0 <= i < |RestoreRecords(history)| ::
      RestoreRecords(history)[i] ==
        MemoryRecord(RecordType(NonEmpty(history)[i].messageType), NonEmpty(history)[i].content, false)
  {
    if history != [] {
      RestoreRecordsCount(history[1..]);
    }
  }

  /** The messages with content, in order. */
  function NonEmpty(history: seq<ChatHubHistory.StoredMessage>): seq<ChatHubHistory.StoredMessage> {
    if history == [] then []
    else (if |history[0].content| > 0 then [history[0]] else []) + NonEmpty(history[1..])
  }

  function RecordParam(r: MemoryRecord): Param {
    PObject(map["type" := PString(r.recordType), "message" := PString(r.message), "hideFromUI" := PBool(r.hideFromUI)])
  }

  function RecordParams(records: seq<MemoryRecord>): (ps: seq<Param>)
    ensures |ps| == |records|
    ensures forall i | 0 <= i < |ps| :: ps[i] == RecordParam(records[i])
  {
    if records == [] then [] else [RecordParam(records[0])] + RecordParams(records[1..])
  }

  /** `buildRestoreMemoryNode`: insert the history into memory, overriding what is there. */
  function RestoreMemoryNode(c: Constants, id: string, history: seq<ChatHubHistory.StoredMessage>): Node {
    Node(id, c.names.restoreChatMemory, c.memoryManagerType, 1.1, (224, 0),
         map["mode" := PString("insert"), "insertMode" := PString("override"),
             "messages" := PObject(map["messageValues" := PArray(RecordParams(RestoreRecords(history)))])],
         None, None)
  }

  /** `buildClearMemoryNode`: delete all of memory. */
  function ClearMemoryNode(c: Constants, id: string): Node {
    Node(id, c.names.clearChatMemory, c.memoryManagerType, 1.1, (976, 0),
         map["mode" := PString("delete"), "deleteMode" := PString("all")], None, None)
  }

  /** `buildTitleGeneratorAgentNode`: a non-streaming agent prompted with the title prompt. */
  function TitleGeneratorAgentNode(c: Constants, id: string): Node {
    AgentNode(c, id, c.names.titleGeneratorAgent, AgentOptions(false, None, Some(c.titlePrompt)))
  }

  // ---------------------------------------------------------------------------------
  // Workflows

  function ChatConnections(n: NodeNames): Connections {
    map[
      n.chatTrigger := map[Main := [[Connection(n.restoreChatMemory, Main, 0)]]],
      n.restoreChatMemory := map[Main := [[Connection(n.replyAgent, Main, 0)]]],
      n.chatModel := map[AiLanguageModel := [[Connection(n.replyAgent, AiLanguageModel, 0)]]],
      n.memory := map[AiMemory := [[Connection(n.replyAgent, AiMemory, 0),
                                    Connection(n.restoreChatMemory, AiMemory, 0),
                                    Connection(n.clearChatMemory, AiMemory, 0)]]],
      n.replyAgent := map[Main := [[Connection(n.clearChatMemory, Main, 0)]]]
    ]
  }

  /** `buildChatWorkflow`. */
  function BuildChatWorkflow(c: Constants, ids: ChatNodeIds, userId: string, sessionId: string,
                             history: seq<ChatHubHistory.StoredMessage>, humanMessage: string,
                             credentials: NodeCredentials, model: ConversationModel,
                             systemMessage: Option<string>,
                             maxContextWindowTokens: (LlmProvider, string) -> int)
    : (r: Result<BuiltWorkflow>)
    ensures r.Err? <==> !model.BaseModel?
  {
    var chatTriggerNode := ChatTriggerNode(c, ids.trigger, ids.webhook);
    var toolsAgentNode := ToolsAgentNode(c, ids.agent, model, systemMessage, maxContextWindowTokens);
    match ModelNode(c, ids.model, credentials, model)
    case Err(e) => Err(e)
    case Ok(modelNode) =>
      var memoryNode := MemoryNode(c, ids.memory, 20);
      var restoreMemoryNode := RestoreMemoryNode(c, ids.restore, history);
      var clearMemoryNode := ClearMemoryNode(c, ids.clear);
      Ok(BuiltWorkflow(
        [chatTriggerNode, toolsAgentNode, modelNode, memoryNode, restoreMemoryNode, clearMemoryNode],
        ChatConnections(c.names),
        SendMessageSeed(chatTriggerNode, sessionId, humanMessage, userId)))
  }

  function TitleConnections(n: NodeNames): Connections {
    map[
      n.chatTrigger := map[Main := [[Connection(n.titleGeneratorAgent, Main, 0)]]],
      n.chatModel := map[AiLanguageModel := [[Connection(n.titleGeneratorAgent, AiLanguageModel, 0)]]]
    ]
  }

  /** `buildTitleGenerationWorkflow`. */
  function BuildTitleGenerationWorkflow(c: Constants, ids: TitleNodeIds, userId: string, sessionId: string,
                                        credentials: NodeCredentials, model: ConversationModel,
                                        humanMessage: string)
    : (r: Result<BuiltWorkflow>)
    ensures r.Err? <==> !model.BaseModel?
  {
    var chatTriggerNode := ChatTriggerNode(c, ids.trigger, ids.webhook);
    var titleGeneratorAgentNode := TitleGeneratorAgentNode(c, ids.agent);
    match ModelNode(c, ids.model, credentials, model)
    case Err(e) => Err(e)
    case Ok(modelNode) =>
      Ok(BuiltWorkflow(
        [chatTriggerNode, titleGeneratorAgentNode, modelNode],
        TitleConnections(c.names),
        SendMessageSeed(chatTriggerNode, sessionId, humanMessage, userId)))
  }

  // ---------------------------------------------------------------------------------
  // Properties

  /** The names of the nodes a source output of one type feeds, at output index 0. */
  function Targets(conns: Connections, source: string, t: ConnectionType): seq<string> {
    if source in conns && t in conns[source] && |conns[source][t]| > 0
    then TargetNames(conns[source][t][0], t)
    else []
  }

  /** The target names of one output's connections, keeping only those of input type `t`. */
  function TargetNames(cs: seq<Connection>, t: ConnectionType): seq<string> {
    if cs == [] then []
    else (if cs[0].connectionType == t then [cs[0].node] else []) + TargetNames(cs[1..], t)
  }

  function NodeNamesOf(nodes: seq<Node>): (names: seq<string>)
    ensures |names| == |nodes|
    ensures forall i | 0 <= i < |nodes| :: names[i] == nodes[i].name
  {
    if nodes == [] then [] else [nodes[0].name] + NodeNamesOf(nodes[1..])
  }

  /** Every source and every target of the connections is a node of the workflow, every
      connection enters at input 0 with the type of the output it leaves, and each output
      has a single index. */
  ghost predicate WellWired(w: BuiltWorkflow) {
    forall source | source in w.connections ::
      source in NodeNamesOf(w.nodes) && OutputsWired(w.connections[source], NodeNamesOf(w.nodes))
  }

  ghost predicate OutputsWired(outputs: map<ConnectionType, seq<seq<Connection>>>, names: seq<string>) {
    forall t | t in outputs :: |outputs[t]| == 1 && ConnectionsWired(outputs[t][0], t, names)
  }

  ghost predicate ConnectionsWired(cs: seq<Connection>, t: ConnectionType, names: seq<string>) {
    forall k | 0 <= k < |cs| :: cs[k].node in names && cs[k].connectionType == t && cs[k].index == 0
  }

  /** The reply workflow is built exactly for a language model. Its six nodes come in the
      order trigger, agent, model, memory, restore, clear, with their types; the seed is the
      one `sendMessage` item at the trigger; and the wiring is closed over its nodes. */
  lemma ChatWorkflowShape(c: Constants, ids: ChatNodeIds, userId: string, sessionId: string,
                          history: seq<ChatHubHistory.StoredMessage>, humanMessage: string,
                          credentials: NodeCredentials, model: ConversationModel,
                          systemMessage: Option<string>, maxContextWindowTokens: (LlmProvider, string) -> int)
    requires model.BaseModel? && DistinctNames(c.names)
    ensures var r := BuildChatWorkflow(c, ids, userId, sessionId, history, humanMessage, credentials,
                                       model, systemMessage, maxContextWindowTokens);
      var n := c.names;
      && r.Ok?
      && NodeNamesOf(r.value.nodes) == [n.chatTrigger, n.replyAgent, n.chatModel, n.memory,
                                        n.restoreChatMemory, n.clearChatMemory]
      && r.value.nodes[0].nodeType == c.chatTriggerType
      && r.value.nodes[1].nodeType == c.agentType
      && r.value.nodes[2].nodeType == c.modelTypes.Get(model.llm).name
      && r.value.nodes[3].nodeType == c.memoryBufferWindowType
      && r.value.nodes[4].nodeType == c.memoryManagerType
      && r.value.nodes[5].nodeType == c.memoryManagerType
      && r.value.seed == SendMessageSeed(r.value.nodes[0], sessionId, humanMessage, userId)
      && WellWired(r.value)
  {
    var r := BuildChatWorkflow(c, ids, userId, sessionId, history, humanMessage, credentials,
                               model, systemMessage, maxContextWindowTokens);
    var names := NodeNamesOf(r.value.nodes);
    assert names == [c.names.chatTrigger, c.names.replyAgent, c.names.chatModel, c.names.memory,
                     c.names.restoreChatMemory, c.names.clearChatMemory];
    ChatWired(c.names, r.value);
  }

  lemma ChatWired(n: NodeNames, w: BuiltWorkflow)
    requires DistinctNames(n)
    requires w.connections == ChatConnections(n)
    requires NodeNamesOf(w.nodes) == [n.chatTrigger, n.replyAgent, n.chatModel, n.memory,
                                      n.restoreChatMemory, n.clearChatMemory]
    ensures WellWired(w)
  {
    var names := NodeNamesOf(w.nodes);
    var conns := ChatConnections(n);
    assert conns.Keys == {n.chatTrigger, n.restoreChatMemory, n.chatModel, n.memory, n.replyAgent};
    OneOutputWired(Main, [Connection(n.restoreChatMemory, Main, 0)], names);
    OneOutputWired(Main, [Connection(n.replyAgent, Main, 0)], names);
    OneOutputWired(AiLanguageModel, [Connection(n.replyAgent, AiLanguageModel, 0)], names);
    OneOutputWired(AiMemory, [Connection(n.replyAgent, AiMemory, 0), Connection(n.restoreChatMemory, AiMemory, 0),
                              Connection(n.clearChatMemory, AiMemory, 0)], names);
    OneOutputWired(Main, [Connection(n.clearChatMemory, Main, 0)], names);
  }

  /** An output map with one type and one list of well-formed connections is wired. */
  lemma OneOutputWired(t: ConnectionType, cs: seq<Connection>, names: seq<string>)
    requires forall k | 0 <= k < |cs| :: cs[k].node in names && cs[k].connectionType == t && cs[k].index == 0
    ensures OutputsWired(map[t := [cs]], names)
  {
  }

  /** The data path of the reply workflow runs trigger, restore, agent, clear; the model
      feeds the agent; memory feeds agent, restore and clear. */
  lemma ChatWorkflowWiring(n: NodeNames)
    requires DistinctNames(n)
    ensures var conns := ChatConnections(n);
      && Targets(conns, n.chatTrigger, Main) == [n.restoreChatMemory]
      && Targets(conns, n.restoreChatMemory, Main) == [n.replyAgent]
      && Targets(conns, n.replyAgent, Main) == [n.clearChatMemory]
      && Targets(conns, n.chatModel, AiLanguageModel) == [n.replyAgent]
      && Targets(conns, n.memory, AiMemory) == [n.replyAgent, n.restoreChatMemory, n.clearChatMemory]
      && Targets(conns, n.chatModel, Main) == [] && Targets(conns, n.memory, Main) == []
  {
    var conns := ChatConnections(n);
    var mem := [Connection(n.replyAgent, AiMemory, 0), Connection(n.restoreChatMemory, AiMemory, 0),
                Connection(n.clearChatMemory, AiMemory, 0)];
    assert conns[n.memory][AiMemory][0] == mem;
    assert mem[1..][1..][1..] == [];
    assert TargetNames(mem[1..][1..], AiMemory) == [n.clearChatMemory];
    assert TargetNames(mem[1..], AiMemory) == [n.restoreChatMemory, n.clearChatMemory];
    SingleTarget(n.restoreChatMemory, Main);
    SingleTarget(n.replyAgent, Main);
    SingleTarget(n.clearChatMemory, Main);
    SingleTarget(n.replyAgent, AiLanguageModel);
  }

  lemma SingleTarget(node: string, t: ConnectionType)
    ensures TargetNames([Connection(node, t, 0)], t) == [node]
  {
    assert [Connection(node, t, 0)][1..] == [];
  }

  /** The title workflow is built exactly for a language model: trigger, title agent and
      model, the trigger feeding the agent and the model attached as its language model. */
  lemma TitleWorkflowShape(c: Constants, ids: TitleNodeIds, userId: string, sessionId: string,
                           credentials: NodeCredentials, model: ConversationModel, humanMessage: string)
    requires model.BaseModel? && DistinctNames(c.names)
    ensures var r := BuildTitleGenerationWorkflow(c, ids, userId, sessionId, credentials, model, humanMessage);
      var n := c.names;
      && r.Ok?
      && NodeNamesOf(r.value.nodes) == [n.chatTrigger, n.titleGeneratorAgent, n.chatModel]
      && Targets(r.value.connections, n.chatTrigger, Main) == [n.titleGeneratorAgent]
      && Targets(r.value.connections, n.chatModel, AiLanguageModel) == [n.titleGeneratorAgent]
      && r.value.seed == SendMessageSeed(r.value.nodes[0], sessionId, humanMessage, userId)
      && WellWired(r.value)
  {
    var r := BuildTitleGenerationWorkflow(c, ids, userId, sessionId, credentials, model, humanMessage);
    assert NodeNamesOf(r.value.nodes) == [c.names.chatTrigger, c.names.titleGeneratorAgent, c.names.chatModel];
    SingleTarget(c.names.titleGeneratorAgent, Main);
    SingleTarget(c.names.titleGeneratorAgent, AiLanguageModel);
    TitleWired(c.names, r.value);
  }

  lemma TitleWired(n: NodeNames, w: BuiltWorkflow)
    requires DistinctNames(n)
    requires w.connections == TitleConnections(n)
    requires NodeNamesOf(w.nodes) == [n.chatTrigger, n.titleGeneratorAgent, n.chatModel]
    ensures WellWired(w)
  {
    var names := NodeNamesOf(w.nodes);
    assert w.connections.Keys == {n.chatTrigger, n.chatModel};
    OneOutputWired(Main, [Connection(n.titleGeneratorAgent, Main, 0)], names);
    OneOutputWired(AiLanguageModel, [Connection(n.titleGeneratorAgent, AiLanguageModel, 0)], names);
  }

  /** The reply agent streams and the title agent does not; the token budget is present
      exactly for a language model, as that model's context window. */
  lemma AgentOptionsBehave(c: Constants, id: string, model: ConversationModel, systemMessage: Option<string>,
                           maxContextWindowTokens: (LlmProvider, string) -> int)
    ensures var reply := ToolsAgentNode(c, id, model, systemMessage, maxContextWindowTokens).parameters["options"].fields;
      && reply["enableStreaming"] == PBool(true)
      && ("maxTokensFromMemory" in reply <==> model.BaseModel?)
      && (model.BaseModel? ==> reply["maxTokensFromMemory"] == PNumber(maxContextWindowTokens(model.llm, model.model)))
      && ("systemMessage" in reply <==> systemMessage.Some?)
    ensures var title := TitleGeneratorAgentNode(c, id).parameters["options"].fields;
      && title["enableStreaming"] == PBool(false)
      && "maxTokensFromMemory" !in title
      && title["systemMessage"] == PString(c.titlePrompt)
  {
  }

  /** The model node names the model by id, under the provider's node type and version;
      only anthropic also caches the model's name. Reading the model back as title
      generation does gives the model. */
  lemma ModelNodeSwitch(c: Constants, id: string, credentials: NodeCredentials, provider: LlmProvider, model: string)
    ensures var r := ModelNode(c, id, credentials, BaseModel(provider, model));
      && r.Ok?
      && r.value.name == c.names.chatModel && r.value.position == (600, 300)
      && r.value.nodeType == c.modelTypes.Get(provider).name
      && r.value.typeVersion == c.modelTypes.Get(provider).version
      && r.value.credentials == Some(credentials)
      && ("cachedResultName" in r.value.parameters["model"].fields <==> provider == Anthropic)
      && (provider == Anthropic ==> r.value.parameters["model"].fields["cachedResultName"] == PString(model))
      && ChatHubService.ModelValue(r.value) == Some(PString(model))
      && (ChatHubService.IsLiteralModel(ChatHubService.ModelValue(r.value)) <==> model != "" && model[0] != '=')
  {
  }
}
