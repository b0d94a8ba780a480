/** Types shared by the chat-hub client and server: providers, the conversation model
    selector, message kinds, error results and the fields of a chat message. */
module Common {

  datatype Option<+T> = None | Some(value: T) {
    /** `x ?? fallback` in the source, for a nullable value. */
    function GetOr(fallback: T): T {
      match this
      case Some(v) => v
      case None => fallback
    }
  }

  /** The typed errors the services throw: NotFoundError, BadRequestError, OperationalError,
      and a plain Error thrown by the client store. */
  datatype Error =
    | NotFound(message: string)
    | BadRequest(message: string)
    | Operational(message: string)
    | ClientError(message: string)

  datatype Result<+T> = Ok(value: T) | Err(error: Error)

  /** A field of a partial update: left out (`undefined`), set to null, or set to a value. */
  datatype Field<+T> = Absent | Null | Value(v: T) {
    /** The stored value after the update: kept when left out. */
    function Over(current: Option<T>): Option<T> {
      match this
      case Absent => current
      case Null => None
      case Value(v) => Some(v)
    }
  }

  /** Message ids are UUID v4 strings, so never empty: every truthiness test on an id in the
      source is a null test. */
  type Id = s: string | s != "" witness "id"

  datatype Provider = OpenAI | Anthropic | Google | N8n | CustomAgent {
    /** The three providers that are backed by a language-model node. */
    predicate IsLlm() { this != N8n && this != CustomAgent }

    function Name(): string {
      match this
      case OpenAI => "openai"
      case Anthropic => "anthropic"
      case Google => "google"
      case N8n => "n8n"
      case CustomAgent => "custom-agent"
    }
  }

  type LlmProvider = p: Provider | p.IsLlm() witness OpenAI

  /** The conversation model selector, a closed sum over the providers. */
  datatype ConversationModel =
    | BaseModel(llm: LlmProvider, model: string)
    | N8nModel(workflowId: string)
    | AgentModel(agentId: string)
  {
    function Provider(): (p: Provider)
      ensures p.IsLlm() <==> BaseModel?
    {
      match this
      case BaseModel(llm, _) => llm
      case N8nModel(_) => N8n
      case AgentModel(_) => CustomAgent
    }
  }

  /** `type` of a message; the server also stores kinds other than these three. */
  datatype MessageType = Human | AI | System | OtherType(name: string)

  /** Per-provider values, indexed by the three language-model providers. */
  datatype ProviderTable<T> = ProviderTable(openai: T, anthropic: T, google: T) {
    function Get(p: LlmProvider): T {
      match p
      case OpenAI => openai
      case Anthropic => anthropic
      case Google => google
    }

    /** `Object.entries` of the table, in declaration order. */
    function Entries(): seq<(LlmProvider, T)> {
      [(OpenAI, openai), (Anthropic, anthropic), (Google, google)]
    }
  }

  /** One entry of INodeCredentials: credential type name to `{id, name}`. */
  datatype CredentialRef = CredentialRef(id: Option<string>, name: string)
  type NodeCredentials = map<string, CredentialRef>

  /** A message as the client store holds it (ChatMessage). Timestamps are integers;
      fields the store always writes as null (provider, workflowId, executionId, turnId)
      and the constant `state` and `runIndex` are not represented. */
  datatype ChatMessage = ChatMessage(
    id: Id,
    sessionId: string,
    messageType: MessageType,
    name: string,
    content: string,
    model: Option<string>,
    createdAt: int,
    previousMessageId: Option<Id>,
    retryOfMessageId: Option<Id>,
    revisionOfMessageId: Option<Id>)

  /** A messages record is keyed by the ids of its messages. */
  ghost predicate WellKeyed(messages: map<Id, ChatMessage>) {
    forall id | id in messages :: messages[id].id == id
  }

  /** No element occurs twice. */
  predicate NoDup<T(==)>(s: seq<T>) {
    forall i, j | 0 <= i < j < |s| :: s[i] != s[j]
  }

  /** A conversation summary (ChatHubSessionDto); `lastMessageAt` is a timestamp. */
  datatype SessionDto = SessionDto(id: string, title: string, lastMessageAt: Option<int>)

  /** A node parameter value: JSON-like. A parameter that is `undefined` in the source is a
      key missing from its object. */
  datatype Param =
    | PNull
    | PBool(b: bool)
    | PNumber(n: int)
    | PString(s: string)
    | PArray(items: seq<Param>)
    | PObject(fields: map<string, Param>)
  {
    /** JavaScript truthiness of the value. */
    predicate Truthy() {
      match this
      case PNull => false
      case PBool(b) => b
      case PNumber(n) => n != 0
      case PString(s) => s != ""
      case _ => true
    }
  }

  /** A node type name with its version (an entry of PROVIDER_NODE_TYPE_MAP). */
  datatype NodeTypeRef = NodeTypeRef(name: string, version: real)

  /** A workflow node (INode), with the fields the chat hub reads or writes. */
  datatype Node = Node(
    id: string,
    name: string,
    nodeType: string,
    typeVersion: real,
    position: (int, int),
    parameters: map<string, Param>,
    credentials: Option<NodeCredentials>,
    webhookId: Option<string>)

  /** A stored workflow: its id, name and nodes. */
  datatype Workflow = Workflow(id: string, name: string, nodes: seq<Node>)

  /** The one entry of a seeded execution stack: the trigger node, fed the item
      `{sessionId, action: 'sendMessage', chatInput}`. */
  datatype StackEntry = StackEntry(node: Node, sessionId: string, action: string, chatInput: string)

  /** The seeded execution data: its node execution stack and `manualData.userId`; every
      other part (run data, context, waiting executions) starts empty. */
  datatype ExecutionSeed = ExecutionSeed(stack: seq<StackEntry>, userId: string)

  /** The seed every chat execution starts from. */
  function SendMessageSeed(trigger: Node, sessionId: string, chatInput: string, userId: string): (s: ExecutionSeed)
    ensures |s.stack| == 1 && s.stack[0].node == trigger && s.stack[0].action == "sendMessage"
    ensures s.stack[0].sessionId == sessionId && s.stack[0].chatInput == chatInput && s.userId == userId
  {
    ExecutionSeed([StackEntry(trigger, sessionId, "sendMessage", chatInput)], userId)
  }
}
