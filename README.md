# Chat hub core of n8n, modelled in Dafny

This project models the deterministic core of n8n's chat hub. A conversation is stored
as a flat map of messages. Every message has a `previousMessageId` back-link, and its
`retryOfMessageId` and `revisionOfMessageId` links record where the conversation branches.

The model covers these parts:

- **Branch navigation on the client** (`ChatUtils`, `ChatOrder`, `MessageDag`):
  - the children index and the sibling order;
  - the active chain: pick an anchor, find its latest-created descendant, walk back to the root;
  - date bucketing and grouping of sessions;
  - the "first available model" picker.
- **The client store** (`ChatStore`): a class holding `streamingMessageId`, the messages
  of each session and the session list. It folds stream chunks (begin / item / end / error)
  into that state. It also covers the local parts of send, edit, regenerate, rename and delete.
- **Server-side history and decisions** (`ChatHubHistory`, `ChatHubService`):
  - history: the cycle-guarded back-walk of `buildMessageHistory`;
  - regenerate rules: truncation after the last human message, and the retry root;
  - edit rules: the revision root;
  - stop and cancel: `stopGeneration` and the aggregator's save callbacks;
  - selectors and validation: credential selection, the AI-output scan of an execution,
    model-node search, title-model validation, custom-agent workflow validation, and the
    provider-dependent field clearing of `updateSession`.
- **The workflow builder** (`ChatHubWorkflow`): the reply workflow and the title workflow
  with their nodes, connections and one-entry execution seed, and every `build*Node` helper.
- **Custom agents** (`ChatHubAgents`): the agent service over a repository modelled as a
  map held by a class, plus the field-by-field partial update.
- **Mocked data-store paging** (`DataStoreApi`): `fetchDataStores` and
  `fetchDataStoreMetadata`, with JavaScript's `slice` semantics.

`Common` holds the shared types:

- messages, providers and models;
- error kinds: `NotFound`, `BadRequest`, an operational error, and a client-side thrown error;
- `Result` and `Option`;
- node parameters and workflow nodes.

Modelling conventions:

- **Ids:** message ids are non-empty strings. The source's truthiness tests on ids are then
  exactly null tests.
- **Time:** timestamps are integers, and the calendar day of a timestamp is a function parameter
  `dayOf`. The current time is a parameter `now`.
- **Constants:** these are parameters: node names, node type names, the provider-to-node-type
  and provider-to-credential-type tables, and the title prompt. The node names are assumed pairwise
  distinct where wiring is proved.
- **Services:** services whose code is not part of this model are total function parameters.
  These are the credential checks, the workflow and agent lookups, and the model context-window
  table.
- **Preconditions of the client walks:** the walks of `computeActiveChain` terminate on every
  conversation whose back-links are closed and acyclic. They can loop forever on a cycle
  below the anchor (chat.utils.ts:104-114) or on a dangling link on the walked path
  (chat.utils.ts:124-132). Closed and acyclic links are sufficient, not necessary: a
  dangling link the walks never reach does no harm. The model assumes the sufficient
  condition as the precondition `MessageDag.Rooted`: every message reaches a root by
  following stored back-links. Under it, both loops are proved to terminate.
  - The descendant search ends by the decreasing measure (unpushed messages, stack size).
  - The back-walk follows the lineage.
- **Server history walk:** `buildMessageHistory` needs no such precondition. Its `visited`
  set and its stop at a missing id make it total, and it is modelled that way.

## Model

| member | source | states |
|---|---|---|
| MessageDag.LineageShape | packages/frontend/editor-ui/src/features/ai/chatHub/chat.utils.ts:121-132 | on rooted back-links the path to a message starts at a root, ends at the message, stays in the store, and each element links back to the one before it |
| MessageDag.LineageNoDup | packages/frontend/editor-ui/src/features/ai/chatHub/chat.utils.ts:121-132 | the path from the root to a message never repeats an id |
| MessageDag.LineagePrefix | packages/frontend/editor-ui/src/features/ai/chatHub/chat.utils.ts:121-132 | every prefix of a message's path is the path of the prefix's last message |
| MessageDag.RootPathUnique | packages/frontend/editor-ui/src/features/ai/chatHub/chat.utils.ts:124-132 | the path found by following back-links does not depend on the step budget once it suffices |
| MessageDag.ReplyDescends | packages/frontend/editor-ui/src/features/ai/chatHub/chat.utils.ts:104-114 | a reply to a descendant of the anchor is itself a descendant and never the anchor |
| MessageDag.DescendantsClosed | packages/frontend/editor-ui/src/features/ai/chatHub/chat.utils.ts:104-114 | a set holding the anchor and closed under replies holds every descendant of the anchor |
| MessageDag.BackWalkShape | packages/cli/src/modules/chat-hub/chat-hub.service.ts:1503-1514 | the guarded walk is empty exactly for a null or already-visited start; otherwise it ends at the start, repeats nothing, avoids visited ids, and each later element is stored and links back to the one before |
| MessageDag.BackWalkIsLineage | packages/cli/src/modules/chat-hub/chat-hub.service.ts:1503-1514 | on rooted back-links the server's guarded walk from a stored message is the client's root-to-message path |
| ChatOrder.ComparatorIsOrder | packages/frontend/editor-ui/src/features/ai/chatHub/chat.utils.ts:137-149 | on distinct ids the sibling comparator is a strict total order: creation time ascending, ties broken by id ascending |
| ChatOrder.StrLessTotal | packages/frontend/editor-ui/src/features/ai/chatHub/chat.utils.ts:148 | JavaScript string comparison orders any two distinct ids one way or the other |
| ChatOrder.StrLessTransitive | packages/frontend/editor-ui/src/features/ai/chatHub/chat.utils.ts:148 | JavaScript string comparison is transitive |
| ChatOrder.SortIds | packages/frontend/editor-ui/src/features/ai/chatHub/chat.utils.ts:169-177 | sorting keeps exactly the same ids (a permutation) |
| ChatOrder.SortIdsSorted | packages/frontend/editor-ui/src/features/ai/chatHub/chat.utils.ts:169-177 | sorting distinct stored ids orders them strictly by the sibling comparator |
| ChatUtils.ChildrenIndexPartition | packages/frontend/editor-ui/src/features/ai/chatHub/chat.utils.ts:156-166 | each message sits in exactly one group, the one keyed by its previousMessageId (null for roots), and once there |
| ChatUtils.ComputeMessagesByPreviousId | packages/frontend/editor-ui/src/features/ai/chatHub/chat.utils.ts:151-180 | the result is a children index of the messages (non-empty, duplicate-free groups of exactly the replies) and every group is sorted by creation time, then id |
| ChatUtils.GroupByPrevious | packages/frontend/editor-ui/src/features/ai/chatHub/chat.utils.ts:156-166 | the grouping loop builds a children index |
| ChatUtils.SortGroups | packages/frontend/editor-ui/src/features/ai/chatHub/chat.utils.ts:169-177 | the sorting loop keeps the keys and sorts every group |
| ChatUtils.LatestDescendant | packages/frontend/editor-ui/src/features/ai/chatHub/chat.utils.ts:101-118 | the stack search terminates on rooted messages and returns the latest-created message among the anchor and all its descendants |
| ChatUtils.SearchDone | packages/frontend/editor-ui/src/features/ai/chatHub/chat.utils.ts:104-114 | when the stack is empty the popped messages are exactly the anchor's descendants |
| ChatUtils.WalkBack | packages/frontend/editor-ui/src/features/ai/chatHub/chat.utils.ts:121-132 | the back-walk with its visited set returns the messages on the path from the root to the latest message |
| ChatUtils.ComputeActiveChain | packages/frontend/editor-ui/src/features/ai/chatHub/chat.utils.ts:79-135 | the chain is empty exactly when there are no messages; otherwise some anchor (the given message if stored, else a latest-created message) and its latest descendant give a chain that is that descendant's root path: stored, root first, each element replying to the one before, no id repeated |
| ChatUtils.LatestIsLeaf | packages/frontend/editor-ui/src/features/ai/chatHub/chat.utils.ts:101-118 | when replies are always newer than what they reply to, the chosen latest descendant has no replies |
| ChatUtils.RelativeDateByDistance | packages/frontend/editor-ui/src/features/ai/chatHub/chat.utils.ts:22-41 | a date is Today at day distance 0, Yesterday at 1, This week at 2..7 or in the future, Older beyond 7 |
| ChatUtils.NoDateIsToday | packages/frontend/editor-ui/src/features/ai/chatHub/chat.utils.ts:22-24 | a conversation without a last message counts as today's |
| ChatUtils.RelativeDateMonotone | packages/frontend/editor-ui/src/features/ai/chatHub/chat.utils.ts:22-41 | among past dates, a later date never falls into an older bucket |
| ChatUtils.SessionsPartition | packages/frontend/editor-ui/src/features/ai/chatHub/chat.utils.ts:48-56 | the four buckets together hold exactly the sessions |
| ChatUtils.SortNewestFirstSorted | packages/frontend/editor-ui/src/features/ai/chatHub/chat.utils.ts:61-76 | the in-group sort puts sessions newest first |
| ChatUtils.GroupConversationsByDate | packages/frontend/editor-ui/src/features/ai/chatHub/chat.utils.ts:43-77 | the loop fills the group map by date bucket, and the result is the fixed-order assembly of those groups |
| ChatUtils.GroupingStep | packages/frontend/editor-ui/src/features/ai/chatHub/chat.utils.ts:48-56 | adding one session appends it to its own bucket and to no other |
| ChatUtils.GroupedConversationsShape | packages/frontend/editor-ui/src/features/ai/chatHub/chat.utils.ts:59-76 | groups come in the order Today, Yesterday, This week, Older with empty groups omitted; each group holds exactly its bucket's sessions, newest first; together the groups hold every session once |
| ChatUtils.FindOneFromModelsResponse | packages/frontend/editor-ui/src/features/ai/chatHub/chat.utils.ts:10-20 | nothing exactly when every provider's list is empty; otherwise the first provider in order with a non-empty list, and its first model |
| ChatStore.WithConversation | packages/frontend/editor-ui/src/features/ai/chatHub/chat.store.ts:37-53 | the session gets an empty conversation if it had none; everything else is unchanged |
| ChatStore.WithMessage | packages/frontend/editor-ui/src/features/ai/chatHub/chat.store.ts:55-59 | the message is stored under its id in its session, which is created if missing; other messages, sessions and the streaming flag are unchanged |
| ChatStore.Appended | packages/frontend/editor-ui/src/features/ai/chatHub/chat.store.ts:61-69 | an unknown message raises "Message with ID … not found in session …" after creating the conversation; otherwise only that message changes, its content becoming old content + chunk |
| ChatStore.Begun | packages/frontend/editor-ui/src/features/ai/chatHub/chat.store.ts:90-119 | a begin adds an empty AI message replying to the target with the given retry link, and marks it as streaming; the session's other messages, other conversations and the session list are unchanged |
| ChatStore.Ended | packages/frontend/editor-ui/src/features/ai/chatHub/chat.store.ts:132-134 | an end clears the streaming flag and keeps all messages |
| ChatStore.OnStreamEffects | packages/frontend/editor-ui/src/features/ai/chatHub/chat.store.ts:136-167 | begin, item, end and error chunks each have exactly the effect of their handler; an item appends its content or ''; an error appends "Error: <content or Unknown error>" and then stops streaming |
| ChatStore.FeedAppend | packages/frontend/editor-ui/src/features/ai/chatHub/chat.store.ts:136-167 | folding a stream in two parts is folding it in one |
| ChatStore.FeedItems | packages/frontend/editor-ui/src/features/ai/chatHub/chat.store.ts:150-152 | a run of item chunks appends the concatenation of their contents and leaves the streaming flag alone |
| ChatStore.FeedItemsFrame | packages/frontend/editor-ui/src/features/ai/chatHub/chat.store.ts:150-152 | a run of item chunks keeps the session's message ids, its other messages and the session list |
| ChatStore.StreamedReply | packages/frontend/editor-ui/src/features/ai/chatHub/chat.store.ts:90-167 | a begin, items and an end leave a finished AI reply whose content is the concatenation of the items and nothing streaming; the reply id is the only new message id, and the session's other messages and the session list are unchanged |
| ChatStore.SendEffects | packages/frontend/editor-ui/src/features/ai/chatHub/chat.store.ts:179-247 | the human message is added; without a model or credentials an AI reply with the "select a model" error follows it and no request is made; otherwise a stream bound to the reply id is opened; no other message changes |
| ChatStore.EditEffects | packages/frontend/editor-ui/src/features/ai/chatHub/chat.store.ts:249-297 | the new human message is a revision of the edited one and replies to what it replied to; a stream for the reply is opened |
| ChatStore.RegenerateEffects | packages/frontend/editor-ui/src/features/ai/chatHub/chat.store.ts:299-327 | the session's conversation is ensured and nothing else changes; a retried message that is unknown or replies to nothing then throws "No previous message to base regeneration on"; otherwise the reply, once begun, is a sibling of the retried message with it as retry link |
| ChatStore.Renamed | packages/frontend/editor-ui/src/features/ai/chatHub/chat.store.ts:329-335 | the session with the id is replaced and every other entry kept in place |
| ChatStore.RenameIdempotent | packages/frontend/editor-ui/src/features/ai/chatHub/chat.store.ts:329-335 | renaming twice equals renaming once |
| ChatStore.Deleted | packages/frontend/editor-ui/src/features/ai/chatHub/chat.store.ts:337-341 | exactly the sessions with the id are removed |
| ChatStore.DeletedAppend | packages/frontend/editor-ui/src/features/ai/chatHub/chat.store.ts:340 | the filter distributes over concatenation, so the kept sessions stay in their order |
| ChatStore.DeletedSingle | packages/frontend/editor-ui/src/features/ai/chatHub/chat.store.ts:340 | one session is dropped when it has the id and kept otherwise |
| ChatStore.DeleteIdempotent | packages/frontend/editor-ui/src/features/ai/chatHub/chat.store.ts:337-341 | deleting twice equals deleting once |
| ChatStore.DeleteAbsent | packages/frontend/editor-ui/src/features/ai/chatHub/chat.store.ts:337-341 | deleting an absent session keeps the list |
| ChatStore.ChatStore.constructor | packages/frontend/editor-ui/src/features/ai/chatHub/chat.store.ts:30-35 | the store starts with nothing streaming, no conversations and no sessions |
| ChatStore.ChatStore.EnsureConversation | packages/frontend/editor-ui/src/features/ai/chatHub/chat.store.ts:37-53 | the new state is the old one with the session's conversation ensured, and that conversation is returned |
| ChatStore.ChatStore.AddMessage | packages/frontend/editor-ui/src/features/ai/chatHub/chat.store.ts:55-59 | the new state is the old one with the message stored |
| ChatStore.ChatStore.AppendMessage | packages/frontend/editor-ui/src/features/ai/chatHub/chat.store.ts:61-69 | new state and raised error are those of the append |
| ChatStore.ChatStore.OnBeginMessage | packages/frontend/editor-ui/src/features/ai/chatHub/chat.store.ts:90-119 | the new state is the old one with the reply begun |
| ChatStore.ChatStore.OnChunk | packages/frontend/editor-ui/src/features/ai/chatHub/chat.store.ts:121-129 | the new state is the old one with the chunk appended |
| ChatStore.ChatStore.OnEndMessage | packages/frontend/editor-ui/src/features/ai/chatHub/chat.store.ts:132-134 | streaming ends and messages are kept |
| ChatStore.ChatStore.OnStreamMessage | packages/frontend/editor-ui/src/features/ai/chatHub/chat.store.ts:136-167 | the new state and error are the dispatch of the chunk |
| ChatStore.ChatStore.OnStreamDone | packages/frontend/editor-ui/src/features/ai/chatHub/chat.store.ts:169-172 | streaming ends and messages are kept |
| ChatStore.ChatStore.OnStreamError | packages/frontend/editor-ui/src/features/ai/chatHub/chat.store.ts:175-177 | streaming ends and messages are kept |
| ChatStore.ChatStore.SendMessage | packages/frontend/editor-ui/src/features/ai/chatHub/chat.store.ts:179-247 | the new state and the opened stream are those of a send |
| ChatStore.ChatStore.EditMessage | packages/frontend/editor-ui/src/features/ai/chatHub/chat.store.ts:249-297 | the new state and the opened stream are those of an edit |
| ChatStore.ChatStore.RegenerateMessage | packages/frontend/editor-ui/src/features/ai/chatHub/chat.store.ts:299-327 | the new state and the stream or error are those of a regeneration |
| ChatStore.ChatStore.RenameSession | packages/frontend/editor-ui/src/features/ai/chatHub/chat.store.ts:329-335 | only the session list changes, by the rename |
| ChatStore.ChatStore.DeleteSession | packages/frontend/editor-ui/src/features/ai/chatHub/chat.store.ts:337-341 | only the session list changes, by the deletion |
| ChatHubHistory.BuildMessageHistory | packages/cli/src/modules/chat-hub/chat-hub.service.ts:1497-1516 | the loop with its visited set computes the history: the guarded back-walk from the start id, keeping stored messages |
| ChatHubHistory.HistoryEmpty | packages/cli/src/modules/chat-hub/chat-hub.service.ts:1501-1515 | a null start id, or one absent from the map, gives an empty history |
| ChatHubHistory.HistoryShape | packages/cli/src/modules/chat-hub/chat-hub.service.ts:1503-1515 | the history holds stored messages root first, each replying to the one before, with no id repeated, ending at the start id when it is stored |
| ChatHubHistory.HistoryIsLineage | packages/cli/src/modules/chat-hub/chat-hub.service.ts:1497-1516 | on rooted back-links the history is the message's path from its root |
| ChatHubHistory.LastHumanAt | packages/cli/src/modules/chat-hub/chat-hub.service.ts:553-556 | the index of the last human message; none exactly when there is no human message |
| ChatHubHistory.LastHumanIndex | packages/cli/src/modules/chat-hub/chat-hub.service.ts:553-562 | on distinct ids, the last element of the human filter is the message at that index, and indexOf finds it there |
| ChatHubHistory.RegenerateAIMessage | packages/cli/src/modules/chat-hub/chat-hub.service.ts:532-618 | an unknown session or message is NotFound; a non-AI target is "Can only retry AI messages"; a history without a human message is "No human message found to base the retry on"; otherwise the history is cut right after its last human message, whose content and id are resent, and the retry root is the target's own retry link or its id |
| ChatHubHistory.RetryFromHistory | packages/cli/src/modules/chat-hub/chat-hub.service.ts:553-567 | the truncation to the last human message and the retry root, from a given history |
| ChatHubHistory.KeepThrough | packages/cli/src/modules/chat-hub/chat-hub.service.ts:559-562 | the splice keeps the history up to and including the message, or everything when the message is absent |
| ChatHubHistory.RetryPlanShape | packages/cli/src/modules/chat-hub/chat-hub.service.ts:559-562 | the kept history still ends at the last human message and stays a chain of stored messages |
| ChatHubHistory.RootsAreStable | packages/cli/src/modules/chat-hub/chat-hub.service.ts:474-567 | retrying a retry, or revising a revision, points at the same original message; this follows directly from the `??` fallbacks that pick the link |
| ChatHubHistory.EditMessage | packages/cli/src/modules/chat-hub/chat-hub.service.ts:449-530 | an unknown message is NotFound; a message that is neither human nor AI is rejected; an AI message only has its content replaced; a human edit saves a new human message replying to the same message, with the revision root as revision link, over the history that precedes it |
| ChatHubHistory.RevisionIsSibling | packages/cli/src/modules/chat-hub/chat-hub.service.ts:471-479 | a revision keeps the edited message's revision root, and its history ends at the message the edit replies to |
| ChatHubHistory.StopGeneration | packages/cli/src/modules/chat-hub/chat-hub.service.ts:805-826 | checked in this order: an unknown session is NotFound "Chat session not found", an unknown message NotFound "Chat message not found", a non-AI message BadRequest "Can only stop AI messages", one without an execution BadRequest "Message is not associated with a workflow execution", one not running BadRequest "Can only stop messages that are currently running"; only a running AI message with an execution is marked cancelled, and nothing else changes |
| ChatHubHistory.OnEndSave | packages/cli/src/modules/chat-hub/chat-hub.service.ts:860-865 | the finished reply gets its content and status; other messages are unchanged |
| ChatHubHistory.OnErrorSave | packages/cli/src/modules/chat-hub/chat-hub.service.ts:866-897 | the failed reply gets its content; its status becomes failed unless it was cancelled, which it stays |
| ChatHubHistory.StopThenErrorStaysCancelled | packages/cli/src/modules/chat-hub/chat-hub.service.ts:805-897 | a stopped reply whose stream then errors is still cancelled; this follows directly from the error save keeping a cancelled status |
| ChatHubService.PickCredentialId | packages/cli/src/modules/chat-hub/chat-hub.service.ts:366-375 | none for n8n and custom-agent; otherwise the id stored under the provider's credential type, or none if there is none |
| ChatHubService.PickBuiltCredentials | packages/cli/src/modules/chat-hub/chat-hub.service.ts:366-375 | picking from credentials built for a provider gives back their id |
| ChatHubService.GetModelWithCredentials | packages/cli/src/modules/chat-hub/chat-hub.service.ts:1328-1340 | the model is kept, and a credential id is attached only to a language-model selection |
| ChatHubService.GetAIOutput | packages/cli/src/modules/chat-hub/chat-hub.service.ts:345-364 | the first non-empty string output among the branches of the node's last run, or nothing |
| ChatHubService.FirstOutput | packages/cli/src/modules/chat-hub/chat-hub.service.ts:354-363 | nothing exactly when no branch carries an output; otherwise the first branch's output that does |
| ChatHubService.ProviderOfType | packages/cli/src/modules/chat-hub/chat-hub.service.ts:1164-1178 | the provider whose model node type is the node's type, in table order, or none when no provider's is |
| ChatHubService.FindSupportedLLMNodes | packages/cli/src/modules/chat-hub/chat-hub.service.ts:1164-1178 | only nodes of a supported type, each with its provider |
| ChatHubService.SupportedNodesFound | packages/cli/src/modules/chat-hub/chat-hub.service.ts:1164-1178 | every node of a supported type is found |
| ChatHubService.FirstSupportedNode | packages/cli/src/modules/chat-hub/chat-hub.service.ts:1164-1178 | the search is empty exactly when no node is supported; otherwise its first entry is the first supported node of the workflow |
| ChatHubService.ResolveFromN8nWorkflow | packages/cli/src/modules/chat-hub/chat-hub.service.ts:1092-1162 | a missing workflow and a workflow without supported model nodes are rejected; otherwise the first model node decides |
| ChatHubService.ResolveModelNode | packages/cli/src/modules/chat-hub/chat-hub.service.ts:1115-1161 | a missing model value, a non-literal one and missing credentials are rejected with the node's name; a credential error is passed on; success means a literal model, whose credentials are built for the checked id |
| ChatHubService.TitleModelAccepted | packages/cli/src/modules/chat-hub/chat-hub.service.ts:1123-1161 | title resolution succeeds exactly when the first supported node has a non-empty model value not starting with '=' and credentials that pass the check; the resolved credentials pick back the resolved id |
| ChatHubService.NodesOfType | packages/cli/src/modules/chat-hub/chat-hub.service.ts:720-722 | exactly the workflow's nodes of the type |
| ChatHubService.SingleOfType | packages/cli/src/modules/chat-hub/chat-hub.service.ts:720-726 | when exactly one node has the type, it is every node of that type |
| ChatHubService.PrepareCustomAgentWorkflow | packages/cli/src/modules/chat-hub/chat-hub.service.ts:703-783 | success exactly for a found workflow with one chat trigger and no respond-to-chat node; each failure has its message; the run is seeded at the trigger with the sendMessage item |
| ChatHubService.UpdateSession | packages/cli/src/modules/chat-hub/chat-hub.service.ts:1539-1614 | a missing session is NotFound; a missing or mis-triggered workflow and a missing agent are rejected; on success n8n clears model, credential and agent, custom-agent clears model, credential and workflow, a language model clears workflow, agent and agent name, and the agent name comes from the agent or the workflow's trigger |
| ChatHubWorkflow.AgentOptions | packages/cli/src/modules/chat-hub/chat-hub-workflow.service.ts:340-346 | streaming is always set; the token budget and the system message are present exactly when given |
| ChatHubWorkflow.AgentOptionsBehave | packages/cli/src/modules/chat-hub/chat-hub-workflow.service.ts:335-486 | the reply agent streams and has a token budget exactly for a language model; the title agent does not stream, has no budget and carries the title prompt |
| ChatHubWorkflow.ModelNode | packages/cli/src/modules/chat-hub/chat-hub-workflow.service.ts:357-406 | building a model node fails exactly for the n8n and custom-agent providers |
| ChatHubWorkflow.ModelNodeSwitch | packages/cli/src/modules/chat-hub/chat-hub-workflow.service.ts:357-406 | a language model's node has the provider's type and version and the credentials; only anthropic also sets cachedResultName; the model value is the model name |
| ChatHubWorkflow.RestoreRecords | packages/cli/src/modules/chat-hub/chat-hub-workflow.service.ts:428-446 | no more records than messages, none hidden and none empty |
| ChatHubWorkflow.RestoreRecordsCount | packages/cli/src/modules/chat-hub/chat-hub-workflow.service.ts:428-446 | the records are the non-empty messages in order, each with its mapped type and content |
| ChatHubWorkflow.RestoreRecordsSingle | packages/cli/src/modules/chat-hub/chat-hub-workflow.service.ts:428-446 | human maps to user, ai to ai, system and anything else to system; empty content is dropped |
| ChatHubWorkflow.RestoreRecordsAppend | packages/cli/src/modules/chat-hub/chat-hub-workflow.service.ts:428-446 | restoring a concatenated history concatenates the records |
| ChatHubWorkflow.BuildChatWorkflow | packages/cli/src/modules/chat-hub/chat-hub-workflow.service.ts:141-249 | the reply workflow fails exactly when no language model is selected |
| ChatHubWorkflow.ChatWorkflowShape | packages/cli/src/modules/chat-hub/chat-hub-workflow.service.ts:141-249 | six nodes in the order trigger, agent, model, memory, restore, clear with their types; a one-entry seed at the trigger carrying session, sendMessage and the human message; every connection joins nodes of the workflow |
| ChatHubWorkflow.ChatWorkflowWiring | packages/cli/src/modules/chat-hub/chat-hub-workflow.service.ts:174-209 | the main path is trigger → restore → agent → clear; the model feeds the agent; memory feeds agent, restore and clear; model and memory have no main output |
| ChatHubWorkflow.BuildTitleGenerationWorkflow | packages/cli/src/modules/chat-hub/chat-hub-workflow.service.ts:251-321 | the title workflow fails exactly when no language model is selected |
| ChatHubWorkflow.TitleWorkflowShape | packages/cli/src/modules/chat-hub/chat-hub-workflow.service.ts:251-321 | three nodes trigger, title agent, model; trigger → title agent, model → title agent as language model; seed at the trigger; every connection joins nodes of the workflow |
| ChatHubAgents.AgentsAsModels | packages/cli/src/modules/chat-hub/chat-hub-agent.service.ts:21-34 | one entry per agent in the same order, with its name and description, selecting that agent |
| ChatHubAgents.AgentModelsDistinct | packages/cli/src/modules/chat-hub/chat-hub-agent.service.ts:25-32 | every entry has the custom-agent provider and distinct agents give distinct entries |
| ChatHubAgents.UpdateData | packages/cli/src/modules/chat-hub/chat-hub-agent.service.ts:102-109 | the partial update holds a field exactly when the update provides it, with the provided value |
| ChatHubAgents.Patched | packages/cli/src/modules/chat-hub/chat-hub-agent.service.ts:102-111 | a provided name, system prompt or provider is written; a provided description, credential id or model is written, and a provided null clears it; id, owner and every field left out stay as they were |
| ChatHubAgents.PatchIdempotent | packages/cli/src/modules/chat-hub/chat-hub-agent.service.ts:102-111 | applying the same update twice stores what applying it once does |
| ChatHubAgents.EmptyPatchKeeps | packages/cli/src/modules/chat-hub/chat-hub-agent.service.ts:102-111 | an update providing nothing changes nothing |
| ChatHubAgents.AgentStore.FindOwned | packages/cli/src/modules/chat-hub/chat-hub-agent.service.ts:41 | an agent is found exactly when it is stored and owned by the user |
| ChatHubAgents.AgentStore.GetAgentById | packages/cli/src/modules/chat-hub/chat-hub-agent.service.ts:40-46 | NotFound exactly when the user has no agent with that id; otherwise that agent, which in a valid store carries the id it was looked up by |
| ChatHubAgents.AgentStore.CreateAgent | packages/cli/src/modules/chat-hub/chat-hub-agent.service.ts:48-77 | a refused credential leaves the repository unchanged; otherwise the new agent, owned by the acting user and without a description unless given, is stored under the fresh id |
| ChatHubAgents.AgentStore.UpdateAgent | packages/cli/src/modules/chat-hub/chat-hub-agent.service.ts:79-115 | NotFound before any change; the credential check only for a given id; on success only the provided fields of that agent change |
| ChatHubAgents.AgentStore.DeleteAgent | packages/cli/src/modules/chat-hub/chat-hub-agent.service.ts:117-127 | NotFound before any change; otherwise exactly that agent is removed |
| DataStoreApi.SliceBound | packages/frontend/editor-ui/src/features/dataStore/datastore.api.ts:419 | a slice bound in range is kept, one beyond the list is clamped to its length, and a negative one counts back from the end, floored at 0 |
| DataStoreApi.JsSlice | packages/frontend/editor-ui/src/features/dataStore/datastore.api.ts:419 | the slice is the contiguous window between the clamped bounds, empty when they cross |
| DataStoreApi.FetchDataStores | packages/frontend/editor-ui/src/features/dataStore/datastore.api.ts:400-428 | the count is always the number of stores |
| DataStoreApi.PageWindow | packages/frontend/editor-ui/src/features/dataStore/datastore.api.ts:413-419 | with page and page size from 1 up, the stores from (page-1)*pageSize, at most pageSize of them, clamped to the list |
| DataStoreApi.PageSizeOnly | packages/frontend/editor-ui/src/features/dataStore/datastore.api.ts:421-426 | with only a page size, the first pageSize stores |
| DataStoreApi.NoPaging | packages/frontend/editor-ui/src/features/dataStore/datastore.api.ts:427 | without paging options every store is returned unchanged |
| DataStoreApi.StoreOnItsPage | packages/frontend/editor-ui/src/features/dataStore/datastore.api.ts:413-419 | the store at index i is on page i / pageSize + 1 at position i % pageSize |
| DataStoreApi.FetchDataStoreMetadata | packages/frontend/editor-ui/src/features/dataStore/datastore.api.ts:431-466 | id, name and columns are kept; either the store comes back as it is, or only its content changes and totalRows is the full row count |
| DataStoreApi.MetadataPage | packages/frontend/editor-ui/src/features/dataStore/datastore.api.ts:445-454 | paged metadata reports the full row count and the rows of the page, all other fields unchanged |
| DataStoreApi.MetadataDefault | packages/frontend/editor-ui/src/features/dataStore/datastore.api.ts:438-454 | without options, the first 100 rows with the full count |
| DataStoreApi.MetadataUnpaged | packages/frontend/editor-ui/src/features/dataStore/datastore.api.ts:456-465 | without a page size the store is returned as it is |

## Left out

- Vue and Pinia reactivity, and every API call of the client store. These include the
  fetch of the session list after a finished stream and the request that `sendMessage`,
  `editMessage` and `regenerateMessage` send. Each of those methods returns the stream
  binding it would open, and the chunks are fed separately through `OnStreamMessage`.
- ChatStore.EnsureConversation: the throw after the conversation is created
  (chat.store.ts:47-50) cannot be reached. It is not modelled.
- ChatStore.Feed: the fold stops at the first chunk whose handler throws. What the
  streaming API does with later chunks after a callback throws is not part of this model.
- ChatOrder.SortIds: stability is not stated. The comparator never returns 0 on distinct
  ids, so stability does not matter for the children index.
- ChatUtils.ComputeActiveChain: it states that some latest-created message is the anchor
  when the given one is absent. It does not pin down which tied message the sort-then-pop
  at chat.utils.ts:90-92 leaves last; that comparator answers 1 both ways on a tie, so the
  choice depends on the engine's sort. Among descendants the source keeps the first one
  popped (the strict `>` at chat.utils.ts:107), which the model does not pin down either.
- ChatUtils.ComputeActiveChain: it requires `MessageDag.Rooted`, so conversations with a
  dangling link or a cycle that the walks never reach are outside the model, although the
  source handles them.
- ChatUtils.GroupConversationsByDate: `lastMessageAt` is an integer timestamp. Parsing the
  ISO text and the local calendar are the `dayOf` parameter. The in-group sort is an
  insertion sort. Like JavaScript's `sort`, it is stable, so ties keep their input order.
  Only the newest-first order and the permutation are proved.
- ChatUtils: a message's `createdAt` is an integer here. In the source it is an ISO-8601
  string compared with `<` and `>` (chat.utils.ts:91, 107 and 145). Such strings order like
  the instants they denote only when they share one format and one time zone, which the
  model takes for granted.
- FindOneFromModelsResponse: the provider order of the response schema is the `providers`
  parameter.
- The clock is left out. `now` and `dayOf` are parameters.
- UUID generation is left out. Fresh ids are parameters.
- `getMaxContextWindowTokens` (context limits) is a function parameter.
- NODE_NAMES, the node types and the provider type tables are parameters. The wiring lemmas
  assume the node names are pairwise distinct, which the source's constants are.
- Foreign services are function parameters or are left out:
  - The credential checks (`ensureCredentials`, `ensureCredentialById`) are parameters.
  - The workflow and agent lookups of `updateSession` are parameters.
  - Stopping an execution (`executionService.stop`) is not modelled.
  - The chunk aggregator is not part of this model; only its save callbacks are.
- ChatHubHistory.StopGeneration: an `executionId` is an integer, with 0 read as falsy like
  the source's `!message.executionId`.
- Number parameters of nodes are integers. Node type versions are reals.
- DataStoreApi.FetchDataStores and DataStoreApi.FetchDataStoreMetadata: `page` and
  `pageSize` are integers. A fractional page, which `slice` truncates, and NaN, which is
  falsy, are not represented.
- ChatOrder.StrLess: ids are compared by Unicode scalar value. This agrees with
  JavaScript's UTF-16 code-unit order on text within the Basic Multilingual Plane, such as
  UUIDs. It differs for characters outside it, which JavaScript compares by surrogate.
- The database, ORM and transaction plumbing is not modelled. Repositories are maps or
  parameters. Saving and deleting workflow entities in `createChatWorkflow` and
  `createTitleGenerationWorkflow` is not modelled, nor is `deleteChatWorkflow`.
- HTTP streaming and the execution engine are not modelled: response interception, the
  JSON transform, execution, and waiting for results.
- Remote model listing is not modelled: `getModels` and the `fetch*Models` calls.
- `sendHumanMessage`, `prepareBaseChatWorkflow`, `prepareChatAgentWorkflow`,
  `ensurePreviousMessage`, `resolveFromCustomAgent`, `generateSessionTitle` and
  `runTitleWorkflowAndGetTitle` are not modelled. They chain database reads, saves and
  executions around the modelled decisions and the workflow builders.
- The session-creation path of `getChatSession` is not modelled. The modelled operations
  receive the session or none.
- RegenerateAIMessage and EditMessage: a message id from another session is treated like a
  missing one, as `getChatMessage` does by filtering on the session.
- ChatHubService.UpdateSession: a missing agent gives `NotFound("Chat agent not found")`.
  The agent lookup (chat-hub-agent.service.ts:41-45) throws that before the check at
  chat-hub.service.ts:1590-1592, so that check's own message never appears.
- ChatHubAgents.AgentStore.CreateAgent: it requires the fresh id to be unused, as UUIDs are.
- DataStoreApi.FetchDataStores: the `setTimeout` delay is left out, and the mock list is
  the `stores` parameter. The `projectId` filter is commented out in the source, so the
  list is never filtered.
- A chunk's node metadata is not modelled. Only its type and content matter to the store.
- Options left undefined in the source are missing keys in the parameter maps.
