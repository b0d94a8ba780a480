/** The client chat store: the per-session message records, the id of the message being
    streamed, and the session list. Every operation is first stated as a function on a
    `StoreState` value; the `ChatStore` class holds the same state in fields and its
    methods change them as the store does, each proved to agree with its function. */
module ChatStore {
  import opened Common

  /** A conversation of the store (ChatConversation): its messages by id. */
  datatype Conversation = Conversation(messages: map<Id, ChatMessage>)

  /** The credentials a request carries; the store passes them on unread. */
  type Credentials = NodeCredentials

  /** The state the store keeps. */
  datatype StoreState = StoreState(
    streamingMessageId: Option<Id>,
    conversationsBySession: map<string, Conversation>,
    sessions: seq<SessionDto>)
  {
    /** `isResponding`: a message is being streamed. */
    predicate IsResponding() {
      streamingMessageId.Some?
    }
  }

  /** The messages of a session; none when the session has no conversation yet. */
  function MessagesIn(s: StoreState, sessionId: string): map<Id, ChatMessage> {
    if sessionId in s.conversationsBySession then s.conversationsBySession[sessionId].messages
    else map[]
  }

  /** What an operation leaves behind, and the error it throws, if any. A thrown error does
      not undo what the operation changed before it. */
  datatype Outcome = Outcome(state: StoreState, error: Option<Error>)

  // ---------------------------------------------------------------------------------
  // ensureConversation, addMessage, appendMessage

  /** `ensureConversation`: the session has a conversation afterwards, an empty one when it
      had none; nothing else changes. */
  function WithConversation(s: StoreState, sessionId: string): (t: StoreState)
    ensures sessionId in t.conversationsBySession
    ensures sessionId in s.conversationsBySession ==> t == s
    ensures sessionId !in s.conversationsBySession ==>
      t.conversationsBySession[sessionId] == Conversation(map[])
    ensures t.conversationsBySession.Keys == s.conversationsBySession.Keys + {sessionId}
    ensures forall k | k in s.conversationsBySession ::
      t.conversationsBySession[k] == s.conversationsBySession[k]
    ensures MessagesIn(t, sessionId) == MessagesIn(s, sessionId)
    ensures t.streamingMessageId == s.streamingMessageId && t.sessions == s.sessions
  {
    if sessionId in s.conversationsBySession then s
    else s.(conversationsBySession := s.conversationsBySession[sessionId := Conversation(map[])])
  }

  /** `addMessage`: the message is stored under its id in its session's conversation,
      which is created when missing; every other message and session is as it was. */
  function WithMessage(s: StoreState, sessionId: string, message: ChatMessage): (t: StoreState)
    ensures t.conversationsBySession.Keys == s.conversationsBySession.Keys + {sessionId}
    ensures MessagesIn(t, sessionId).Keys == MessagesIn(s, sessionId).Keys + {message.id}
    ensures MessagesIn(t, sessionId)[message.id] == message
    ensures forall id | id in MessagesIn(s, sessionId) && id != message.id ::
      MessagesIn(t, sessionId)[id] == MessagesIn(s, sessionId)[id]
    ensures forall k | k in s.conversationsBySession && k != sessionId ::
      t.conversationsBySession[k] == s.conversationsBySession[k]
    ensures t.streamingMessageId == s.streamingMessageId && t.sessions == s.sessions
  {
    var e := WithConversation(s, sessionId);
    var messages := e.conversationsBySession[sessionId].messages;
    e.(conversationsBySession :=
         e.conversationsBySession[sessionId := Conversation(messages[message.id := message])])
  }

  /** The error `appendMessage` throws for an unknown message. */
  function MessageNotFound(sessionId: string, messageId: Id): Error {
    ClientError("Message with ID " + messageId + " not found in session " + sessionId)
  }

  /** `appendMessage`: the chunk is added to the end of the message's content. For an
      unknown message it throws, after the conversation has been created. */
  function Appended(s: StoreState, sessionId: string, messageId: Id, chunk: string): (o: Outcome)
    ensures o.error.None? <==> messageId in MessagesIn(s, sessionId)
    ensures o.error.Some? ==>
      o.state == WithConversation(s, sessionId) && o.error.value == MessageNotFound(sessionId, messageId)
    ensures o.error.None? ==>
      var old' := MessagesIn(s, sessionId);
      var new' := MessagesIn(o.state, sessionId);
      && o.state.conversationsBySession.Keys == s.conversationsBySession.Keys
      && new'.Keys == old'.Keys
      && new'[messageId] == old'[messageId].(content := old'[messageId].content + chunk)
      && (forall id | id in old' && id != messageId :: new'[id] == old'[id])
      && (forall k | k in s.conversationsBySession && k != sessionId ::
            o.state.conversationsBySession[k] == s.conversationsBySession[k])
      && o.state.streamingMessageId == s.streamingMessageId && o.state.sessions == s.sessions
  {
    var e := WithConversation(s, sessionId);
    var messages := e.conversationsBySession[sessionId].messages;
    if messageId !in messages then Outcome(e, Some(MessageNotFound(sessionId, messageId)))
    else
      var m := messages[messageId];
      Outcome(e.(conversationsBySession := e.conversationsBySession[sessionId :=
                   Conversation(messages[messageId := m.(content := m.content + chunk)])]), None)
  }

  // ---------------------------------------------------------------------------------
  // The stream handlers

  /** The kinds of structured chunk the stream delivers. */
  datatype ChunkKind = Begin | Item | End | ErrorChunk

  /** A structured chunk; its node metadata is not represented. */
  datatype StructuredChunk = StructuredChunk(kind: ChunkKind, content: Option<string>)

  /** The empty AI message a begin chunk adds. */
  function BeginMessage(sessionId: string, messageId: Id, replyToMessageId: Id,
                        retryOfMessageId: Option<Id>, now: int): ChatMessage {
    ChatMessage(messageId, sessionId, AI, "AI", "", None, now,
                Some(replyToMessageId), retryOfMessageId, None)
  }

  /** `onBeginMessage`: the message becomes the streaming one and is added, empty. Nothing
      else changes: no other message, no other conversation, not the session list. */
  function Begun(s: StoreState, sessionId: string, messageId: Id, replyToMessageId: Id,
                 retryOfMessageId: Option<Id>, now: int): (t: StoreState)
    ensures t.IsResponding() && t.streamingMessageId == Some(messageId)
    ensures messageId in MessagesIn(t, sessionId)
    ensures MessagesIn(t, sessionId)[messageId].content == ""
    ensures MessagesIn(t, sessionId)[messageId].previousMessageId == Some(replyToMessageId)
    ensures MessagesIn(t, sessionId)[messageId].retryOfMessageId == retryOfMessageId
    ensures MessagesIn(t, sessionId)[messageId].messageType == AI
    ensures t.conversationsBySession.Keys == s.conversationsBySession.Keys + {sessionId}
    ensures MessagesIn(t, sessionId).Keys == MessagesIn(s, sessionId).Keys + {messageId}
    ensures forall id | id in MessagesIn(s, sessionId) && id != messageId ::
      MessagesIn(t, sessionId)[id] == MessagesIn(s, sessionId)[id]
    ensures forall k | k in s.conversationsBySession && k != sessionId ::
      t.conversationsBySession[k] == s.conversationsBySession[k]
    ensures t.sessions == s.sessions
  {
    WithMessage(s.(streamingMessageId := Some(messageId)), sessionId,
                BeginMessage(sessionId, messageId, replyToMessageId, retryOfMessageId, now))
  }

  /** `onEndMessage`, `onStreamDone` and `onStreamError`: nothing is streaming any more. */
  function Ended(s: StoreState): (t: StoreState)
    ensures !t.IsResponding()
    ensures t.conversationsBySession == s.conversationsBySession && t.sessions == s.sessions
  {
    s.(streamingMessageId := None)
  }

  /** The text an error chunk appends. */
  function ErrorText(content: Option<string>): string {
    "Error: " + content.GetOr("Unknown error")
  }

  /** `onStreamMessage`: dispatch one chunk of the reply `messageId`. */
  function OnStream(s: StoreState, sessionId: string, chunk: StructuredChunk, messageId: Id,
                    replyToMessageId: Id, retryOfMessageId: Option<Id>, now: int): Outcome
  {
    match chunk.kind
    case Begin => Outcome(Begun(s, sessionId, messageId, replyToMessageId, retryOfMessageId, now), None)
    case Item => Appended(s, sessionId, messageId, chunk.content.GetOr(""))
    case End => Outcome(Ended(s), None)
    case ErrorChunk =>
      var o := Appended(s, sessionId, messageId, ErrorText(chunk.content));
      if o.error.Some? then o else Outcome(Ended(o.state), None)
  }

  /** What each kind of chunk does: a begin chunk adds the empty reply and starts streaming;
      an item appends its content, or nothing when it has none; an end stops streaming; an
      error chunk appends the error text and then stops streaming. Appending to an unknown
      message throws, and an error chunk then leaves the streaming id as it was. */
  lemma OnStreamEffects(s: StoreState, sessionId: string, chunk: StructuredChunk, messageId: Id,
                        replyToMessageId: Id, retryOfMessageId: Option<Id>, now: int)
    ensures var o := OnStream(s, sessionId, chunk, messageId, replyToMessageId, retryOfMessageId, now);
      && (chunk.kind == Begin ==>
            o.error.None? && o.state == Begun(s, sessionId, messageId, replyToMessageId, retryOfMessageId, now))
      && (chunk.kind == Item ==> o == Appended(s, sessionId, messageId, chunk.content.GetOr("")))
      && (chunk.kind == End ==> o.error.None? && o.state == Ended(s) && !o.state.IsResponding())
      && (chunk.kind == ErrorChunk ==>
            var a := Appended(s, sessionId, messageId, ErrorText(chunk.content));
            && (o.error.None? <==> messageId in MessagesIn(s, sessionId))
            && (o.error.None? ==> o.state == Ended(a.state) && !o.state.IsResponding())
            && (o.error.Some? ==> o.state.streamingMessageId == s.streamingMessageId))
  {
  }

  /** Where the chunks of a request go: `onStreamMessage(sessionId, chunk, messageId,
      replyToMessageId, retryOfMessageId)`. */
  datatype StreamBinding = StreamBinding(sessionId: string, messageId: Id, replyToMessageId: Id,
                                         retryOfMessageId: Option<Id>)

  /** The chunks of one request handed to `onStreamMessage` in order, up to the first one
      that throws. */
  function Feed(s: StoreState, b: StreamBinding, chunks: seq<StructuredChunk>, now: int): Outcome
    decreases |chunks|
  {
    if chunks == [] then Outcome(s, None)
    else
      var o := OnStream(s, b.sessionId, chunks[0], b.messageId, b.replyToMessageId, b.retryOfMessageId, now);
      if o.error.Some? then o else Feed(o.state, b, chunks[1..], now)
  }

  /** The contents of item chunks, `content ?? ''` each, one after the other. */
  function ItemText(chunks: seq<StructuredChunk>): string {
    if chunks == [] then "" else chunks[0].content.GetOr("") + ItemText(chunks[1..])
  }

  lemma {:induction false} FeedAppend(s: StoreState, b: StreamBinding, xs: seq<StructuredChunk>,
                                      ys: seq<StructuredChunk>, now: int)
    ensures var o := Feed(s, b, xs, now);
      Feed(s, b, xs + ys, now) == if o.error.Some? then o else Feed(o.state, b, ys, now)
    decreases |xs|
  {
    if xs != [] {
      assert (xs + ys)[0] == xs[0] && (xs + ys)[1..] == xs[1..] + ys;
      var o := OnStream(s, b.sessionId, xs[0], b.messageId, b.replyToMessageId, b.retryOfMessageId, now);
      assert Feed(s, b, xs + ys, now) == if o.error.Some? then o else Feed(o.state, b, xs[1..] + ys, now);
      assert Feed(s, b, xs, now) == if o.error.Some? then o else Feed(o.state, b, xs[1..], now);
      if o.error.None? {
        FeedAppend(o.state, b, xs[1..], ys, now);
      }
    } else {
      assert xs + ys == ys;
    }
  }

  /** Item chunks for a stored message add their contents to its end, one after the other,
      and change nothing else of it. */
  lemma {:induction false} FeedItems(s: StoreState, b: StreamBinding, items: seq<StructuredChunk>, now: int)
    requires b.messageId in MessagesIn(s, b.sessionId)
    requires forall i | 0 <= i < |items| :: items[i].kind == Item
    ensures var o := Feed(s, b, items, now);
      var m := MessagesIn(s, b.sessionId)[b.messageId];
      && o.error.None?
      && b.messageId in MessagesIn(o.state, b.sessionId)
      && MessagesIn(o.state, b.sessionId)[b.messageId] == m.(content := m.content + ItemText(items))
      && o.state.streamingMessageId == s.streamingMessageId
    decreases |items|
  {
    var m := MessagesIn(s, b.sessionId)[b.messageId];
    if items != [] {
      var text := items[0].content.GetOr("");
      var o := OnStream(s, b.sessionId, items[0], b.messageId, b.replyToMessageId, b.retryOfMessageId, now);
      ItemStep(s, b, items[0], now);
      assert Feed(s, b, items, now) == Feed(o.state, b, items[1..], now);
      FeedItems(o.state, b, items[1..], now);
      assert ItemText(items) == text + ItemText(items[1..]);
      assert m.content + (text + ItemText(items[1..])) == (m.content + text) + ItemText(items[1..]);
    } else {
      assert m.content + "" == m.content;
    }
  }

  /** Item chunks for a stored message leave the session's other messages, its set of
      message ids and the session list as they were. */
  lemma {:induction false} FeedItemsFrame(s: StoreState, b: StreamBinding, items: seq<StructuredChunk>, now: int)
    requires b.messageId in MessagesIn(s, b.sessionId)
    requires forall i | 0 <= i < |items| :: items[i].kind == Item
    ensures var o := Feed(s, b, items, now);
      && MessagesIn(o.state, b.sessionId).Keys == MessagesIn(s, b.sessionId).Keys
      && (forall id | id in MessagesIn(s, b.sessionId) && id != b.messageId ::
            MessagesIn(o.state, b.sessionId)[id] == MessagesIn(s, b.sessionId)[id])
      && o.state.sessions == s.sessions
    decreases |items|
  {
    if items != [] {
      var o := OnStream(s, b.sessionId, items[0], b.messageId, b.replyToMessageId, b.retryOfMessageId, now);
      ItemStep(s, b, items[0], now);
      assert Feed(s, b, items, now) == Feed(o.state, b, items[1..], now);
      FeedItemsFrame(o.state, b, items[1..], now);
    }
  }

  /** One item chunk for a stored message appends its content and changes nothing else. */
  lemma ItemStep(s: StoreState, b: StreamBinding, item: StructuredChunk, now: int)
    requires b.messageId in MessagesIn(s, b.sessionId) && item.kind == Item
    ensures var o := OnStream(s, b.sessionId, item, b.messageId, b.replyToMessageId, b.retryOfMessageId, now);
      var m := MessagesIn(s, b.sessionId)[b.messageId];
      && o.error.None?
      && b.messageId in MessagesIn(o.state, b.sessionId)
      && MessagesIn(o.state, b.sessionId)[b.messageId] == m.(content := m.content + item.content.GetOr(""))
      && MessagesIn(o.state, b.sessionId).Keys == MessagesIn(s, b.sessionId).Keys
      && (forall id | id in MessagesIn(s, b.sessionId) && id != b.messageId ::
            MessagesIn(o.state, b.sessionId)[id] == MessagesIn(s, b.sessionId)[id])
      && o.state.streamingMessageId == s.streamingMessageId
      && o.state.sessions == s.sessions
  {
  }

  /** A well-formed reply stream (begin, items, end) leaves one AI message under the reply
      id whose content is the items' contents in order, linked to the message it replies
      to, with nothing streaming afterwards. The session's other messages and the session
      list are as they were. */
  lemma StreamedReply(s: StoreState, b: StreamBinding, items: seq<StructuredChunk>, now: int,
                      beginContent: Option<string>, endContent: Option<string>)
    requires forall i | 0 <= i < |items| :: items[i].kind == Item
    ensures var o := Feed(s, b, [StructuredChunk(Begin, beginContent)] + items
                                   + [StructuredChunk(End, endContent)], now);
      && o.error.None? && !o.state.IsResponding()
      && b.messageId in MessagesIn(o.state, b.sessionId)
      && MessagesIn(o.state, b.sessionId)[b.messageId]
           == BeginMessage(b.sessionId, b.messageId, b.replyToMessageId, b.retryOfMessageId, now)
                .(content := ItemText(items))
      && MessagesIn(o.state, b.sessionId).Keys == MessagesIn(s, b.sessionId).Keys + {b.messageId}
      && (forall id | id in MessagesIn(s, b.sessionId) && id != b.messageId ::
            MessagesIn(o.state, b.sessionId)[id] == MessagesIn(s, b.sessionId)[id])
      && o.state.sessions == s.sessions
  {
    var begin := [StructuredChunk(Begin, beginContent)];
    var end := [StructuredChunk(End, endContent)];
    var s1 := Begun(s, b.sessionId, b.messageId, b.replyToMessageId, b.retryOfMessageId, now);
    assert Feed(s, b, begin, now) == Outcome(s1, None);
    assert begin + items + end == begin + (items + end);
    FeedAppend(s, b, begin, items + end, now);
    FeedAppend(s1, b, items, end, now);
    FeedItems(s1, b, items, now);
    FeedItemsFrame(s1, b, items, now);
    var s2 := Feed(s1, b, items, now).state;
    assert Feed(s2, b, end, now) == Outcome(Ended(s2), None);
    assert "" + ItemText(items) == ItemText(items);
  }

  // ---------------------------------------------------------------------------------
  // sendMessage, editMessage, regenerateMessage

  /** `model?.model ?? null`: only a base model names a model. */
  function ModelName(model: Option<ConversationModel>): Option<string> {
    if model.Some? && model.value.BaseModel? then Some(model.value.model) else None
  }

  /** The text of the reply `sendMessage` adds when no model or credentials are chosen. */
  const SelectModelError := "**ERROR:** Select a model to start a conversation."

  /** The state after a send, and the stream binding of the request it makes, if any. */
  datatype SendOutcome = SendOutcome(state: StoreState, stream: Option<StreamBinding>)

  function Sent(s: StoreState, sessionId: string, previousMessageId: Option<Id>, message: string,
                model: Option<ConversationModel>, credentials: Option<Credentials>,
                messageId: Id, replyId: Id, now: int): SendOutcome
  {
    var human := ChatMessage(messageId, sessionId, Human, "User", message, ModelName(model), now,
                             previousMessageId, None, None);
    var s1 := WithMessage(s, sessionId, human);
    if model.None? || credentials.None? then
      var reply := ChatMessage(replyId, sessionId, AI, "AI", SelectModelError, None, now,
                               Some(messageId), None, None);
      SendOutcome(WithMessage(s1, sessionId, reply), None)
    else
      SendOutcome(s1, Some(StreamBinding(sessionId, replyId, messageId, None)))
  }

  /** A send stores the human message under its id, replying to `previousMessageId`.
      Without a model or credentials it also stores the error reply to it and makes no
      request; otherwise the request's reply answers the human message and is no retry.
      No other message changes. */
  lemma SendEffects(s: StoreState, sessionId: string, previousMessageId: Option<Id>, message: string,
                    model: Option<ConversationModel>, credentials: Option<Credentials>,
                    messageId: Id, replyId: Id, now: int)
    requires messageId != replyId
    ensures var o := Sent(s, sessionId, previousMessageId, message, model, credentials, messageId, replyId, now);
      var ms := MessagesIn(o.state, sessionId);
      && messageId in ms
      && ms[messageId].messageType == Human && ms[messageId].content == message
      && ms[messageId].previousMessageId == previousMessageId
      && ms[messageId].model == ModelName(model)
      && (o.stream.None? <==> model.None? || credentials.None?)
      && (o.stream.None? ==>
            && replyId in ms && ms[replyId].messageType == AI
            && ms[replyId].content == SelectModelError
            && ms[replyId].previousMessageId == Some(messageId)
            && ms.Keys == MessagesIn(s, sessionId).Keys + {messageId, replyId})
      && (o.stream.Some? ==>
            && o.stream.value == StreamBinding(sessionId, replyId, messageId, None)
            && ms.Keys == MessagesIn(s, sessionId).Keys + {messageId})
      && (forall id | id in MessagesIn(s, sessionId) && id != messageId && id != replyId ::
            ms[id] == MessagesIn(s, sessionId)[id])
      && o.state.streamingMessageId == s.streamingMessageId
  {
  }

  /** `editMessage`: a new human message that revises `editId` and replies to what the
      edited message replied to, so the two are siblings. */
  function Edited(s: StoreState, sessionId: string, editId: Id, message: string,
                  messageId: Id, replyId: Id, now: int): SendOutcome
  {
    var e := WithConversation(s, sessionId);
    var messages := e.conversationsBySession[sessionId].messages;
    var previousMessageId := if editId in messages then messages[editId].previousMessageId else None;
    var human := ChatMessage(messageId, sessionId, Human, "User", message, None, now,
                             previousMessageId, None, Some(editId));
    SendOutcome(WithMessage(e, sessionId, human), Some(StreamBinding(sessionId, replyId, messageId, None)))
  }

  lemma EditEffects(s: StoreState, sessionId: string, editId: Id, message: string,
                    messageId: Id, replyId: Id, now: int)
    ensures var o := Edited(s, sessionId, editId, message, messageId, replyId, now);
      var before := MessagesIn(s, sessionId);
      var ms := MessagesIn(o.state, sessionId);
      && messageId in ms
      && ms[messageId].messageType == Human && ms[messageId].content == message
      && ms[messageId].revisionOfMessageId == Some(editId)
      && ms[messageId].retryOfMessageId.None?
      && ms[messageId].previousMessageId
           == (if editId in before then before[editId].previousMessageId else None)
      && ms.Keys == before.Keys + {messageId}
      && (forall id | id in before && id != messageId :: ms[id] == before[id])
      && o.stream == Some(StreamBinding(sessionId, replyId, messageId, None))
  {
  }

  /** The error `regenerateMessage` throws when there is nothing to answer. */
  const NoPreviousMessage := ClientError("No previous message to base regeneration on")

  /** `regenerateMessage`: the state after it (the conversation is ensured first) and the
      stream binding of its request, or the error it throws. */
  datatype RegenerateOutcome = RegenerateOutcome(state: StoreState, stream: Result<StreamBinding>)

  function Regenerated(s: StoreState, sessionId: string, retryId: Id, replyId: Id): RegenerateOutcome {
    var e := WithConversation(s, sessionId);
    var messages := e.conversationsBySession[sessionId].messages;
    var previousMessageId := if retryId in messages then messages[retryId].previousMessageId else None;
    if previousMessageId.None? then RegenerateOutcome(e, Err(NoPreviousMessage))
    else RegenerateOutcome(e, Ok(StreamBinding(sessionId, replyId, previousMessageId.value, Some(retryId))))
  }

  /** A regeneration needs the retried message to be stored and to reply to something;
      otherwise it throws. Its reply, once begun, is a sibling of the retried message that
      records it as the message it retries. Before the reply begins, and when it throws,
      the only change is that the session's conversation is ensured. */
  lemma RegenerateEffects(s: StoreState, sessionId: string, retryId: Id, replyId: Id, now: int)
    ensures var o := Regenerated(s, sessionId, retryId, replyId);
      var before := MessagesIn(s, sessionId);
      && o.state == WithConversation(s, sessionId)
      && MessagesIn(o.state, sessionId) == before
      && o.state.streamingMessageId == s.streamingMessageId
      && (o.stream.Err? <==> retryId !in before || before[retryId].previousMessageId.None?)
      && (o.stream.Err? ==> o.stream.error == NoPreviousMessage)
      && (o.stream.Ok? ==>
            var b := o.stream.value;
            var t := Begun(o.state, b.sessionId, b.messageId, b.replyToMessageId, b.retryOfMessageId, now);
            && MessagesIn(t, sessionId)[replyId].previousMessageId == before[retryId].previousMessageId
            && MessagesIn(t, sessionId)[replyId].retryOfMessageId == Some(retryId)
            && t.IsResponding())
  {
  }

  // ---------------------------------------------------------------------------------
  // renameSession, deleteSession

  /** The session list after a rename: the sessions with that id replaced by the updated
      session the server returned, in place. */
  function Renamed(sessions: seq<SessionDto>, sessionId: string, updated: SessionDto): (r: seq<SessionDto>)
    ensures |r| == |sessions|
    ensures forall i | 0 <= i < |r| ::
      r[i] == if sessions[i].id == sessionId then updated else sessions[i]
  {
    if sessions == [] then []
    else [if sessions[0].id == sessionId then updated else sessions[0]] + Renamed(sessions[1..], sessionId, updated)
  }

  /** Renaming twice with the same answer is renaming once, as long as the server keeps the
      session's id. */
  lemma RenameIdempotent(sessions: seq<SessionDto>, sessionId: string, updated: SessionDto)
    requires updated.id == sessionId
    ensures Renamed(Renamed(sessions, sessionId, updated), sessionId, updated)
      == Renamed(sessions, sessionId, updated)
  {
  }

  /** The session list after a delete: every session with that id gone, the others kept in
      order. */
  function Deleted(sessions: seq<SessionDto>, sessionId: string): (r: seq<SessionDto>)
    ensures forall i | 0 <= i < |r| :: r[i].id != sessionId
    ensures forall x {:trigger multiset(r)[x]} :: multiset(r)[x] == if x.id == sessionId then 0 else multiset(sessions)[x]
  {
    if sessions == [] then []
    else
      assert sessions == [sessions[0]] + sessions[1..];
      (if sessions[0].id == sessionId then [] else [sessions[0]]) + Deleted(sessions[1..], sessionId)
  }

  /** Deleting distributes over concatenation: the kept sessions stay in their order. */
  lemma {:induction false} DeletedAppend(a: seq<SessionDto>, b: seq<SessionDto>, sessionId: string)
    ensures Deleted(a + b, sessionId) == Deleted(a, sessionId) + Deleted(b, sessionId)
  {
    if a == [] {
      assert a + b == b;
    } else {
      assert (a + b)[0] == a[0] && (a + b)[1..] == a[1..] + b;
      DeletedAppend(a[1..], b, sessionId);
    }
  }

  /** One session is dropped when it has the id and kept otherwise. */
  lemma DeletedSingle(x: SessionDto, sessionId: string)
    ensures Deleted([x], sessionId) == if x.id == sessionId then [] else [x]
  {
    assert [x][1..] == [];
  }

  /** Deleting from a session list without that id leaves it as it is. */
  lemma {:induction false} DeleteAbsent(sessions: seq<SessionDto>, sessionId: string)
    requires forall i | 0 <= i < |sessions| :: sessions[i].id != sessionId
    ensures Deleted(sessions, sessionId) == sessions
  {
    if sessions != [] {
      DeleteAbsent(sessions[1..], sessionId);
      assert sessions == [sessions[0]] + sessions[1..];
    }
  }

  /** Deleting twice is deleting once. */
  lemma DeleteIdempotent(sessions: seq<SessionDto>, sessionId: string)
    ensures Deleted(Deleted(sessions, sessionId), sessionId) == Deleted(sessions, sessionId)
  {
    DeleteAbsent(Deleted(sessions, sessionId), sessionId);
  }

  // ---------------------------------------------------------------------------------
  // The store

  class ChatStore {
    var streamingMessageId: Option<Id>
    var conversationsBySession: map<string, Conversation>
    var sessions: seq<SessionDto>

    function State(): StoreState
      reads this
    {
      StoreState(streamingMessageId, conversationsBySession, sessions)
    }

    constructor()
      ensures State() == StoreState(None, map[], [])
    {
      streamingMessageId := None;
      conversationsBySession := map[];
      sessions := [];
    }

    predicate IsResponding()
      reads this
    {
      State().IsResponding()
    }

    method EnsureConversation(sessionId: string) returns (conversation: Conversation)
      modifies this
      ensures State() == WithConversation(old(State()), sessionId)
      ensures conversation == conversationsBySession[sessionId]
    {
      if sessionId !in conversationsBySession {
        conversationsBySession := conversationsBySession[sessionId := Conversation(map[])];
      }
      conversation := conversationsBySession[sessionId];
    }

    method AddMessage(sessionId: string, message: ChatMessage)
      modifies this
      ensures State() == WithMessage(old(State()), sessionId, message)
    {
      var conversation := EnsureConversation(sessionId);
      conversationsBySession := conversationsBySession[sessionId :=
        Conversation(conversation.messages[message.id := message])];
    }

    method AppendMessage(sessionId: string, messageId: Id, chunk: string) returns (error: Option<Error>)
      modifies this
      ensures Outcome(State(), error) == Appended(old(State()), sessionId, messageId, chunk)
    {
      var conversation := EnsureConversation(sessionId);
      if messageId !in conversation.messages {
        return Some(MessageNotFound(sessionId, messageId));
      }
      var message := conversation.messages[messageId];
      conversationsBySession := conversationsBySession[sessionId :=
        Conversation(conversation.messages[messageId := message.(content := message.content + chunk)])];
      error := None;
    }

    method OnBeginMessage(sessionId: string, messageId: Id, replyToMessageId: Id,
                          retryOfMessageId: Option<Id>, now: int)
      modifies this
      ensures State() == Begun(old(State()), sessionId, messageId, replyToMessageId, retryOfMessageId, now)
    {
      streamingMessageId := Some(messageId);
      AddMessage(sessionId, BeginMessage(sessionId, messageId, replyToMessageId, retryOfMessageId, now));
    }

    method OnChunk(sessionId: string, messageId: Id, chunk: string) returns (error: Option<Error>)
      modifies this
      ensures Outcome(State(), error) == Appended(old(State()), sessionId, messageId, chunk)
    {
      error := AppendMessage(sessionId, messageId, chunk);
    }

    method OnEndMessage()
      modifies this
      ensures State() == Ended(old(State()))
    {
      streamingMessageId := None;
    }

    method OnStreamMessage(sessionId: string, chunk: StructuredChunk, messageId: Id,
                           replyToMessageId: Id, retryOfMessageId: Option<Id>, now: int)
      returns (error: Option<Error>)
      modifies this
      ensures Outcome(State(), error)
        == OnStream(old(State()), sessionId, chunk, messageId, replyToMessageId, retryOfMessageId, now)
    {
      match chunk.kind
      case Begin =>
        OnBeginMessage(sessionId, messageId, replyToMessageId, retryOfMessageId, now);
        error := None;
      case Item =>
        error := OnChunk(sessionId, messageId, chunk.content.GetOr(""));
      case End =>
        OnEndMessage();
        error := None;
      case ErrorChunk =>
        error := OnChunk(sessionId, messageId, ErrorText(chunk.content));
        if error.None? {
          OnEndMessage();
        }
    }

    /** `onStreamDone`; the session list it then fetches is not part of this model. */
    method OnStreamDone()
      modifies this
      ensures State() == Ended(old(State()))
    {
      streamingMessageId := None;
    }

    method OnStreamError()
      modifies this
      ensures State() == Ended(old(State()))
    {
      streamingMessageId := None;
    }

    /** `sendMessage`, with the two fresh UUIDs and the clock as parameters; it returns where
      the request it makes will stream its reply. */
    method SendMessage(sessionId: string, previousMessageId: Option<Id>, message: string,
                       model: Option<ConversationModel>, credentials: Option<Credentials>,
                       messageId: Id, replyId: Id, now: int)
      returns (stream: Option<StreamBinding>)
      modifies this
      ensures SendOutcome(State(), stream)
        == Sent(old(State()), sessionId, previousMessageId, message, model, credentials, messageId, replyId, now)
    {
      AddMessage(sessionId, ChatMessage(messageId, sessionId, Human, "User", message, ModelName(model),
                                        now, previousMessageId, None, None));
      if model.None? || credentials.None? {
        AddMessage(sessionId, ChatMessage(replyId, sessionId, AI, "AI", SelectModelError, None, now,
                                          Some(messageId), None, None));
        return None;
      }
      stream := Some(StreamBinding(sessionId, replyId, messageId, None));
    }

    method EditMessage(sessionId: string, editId: Id, message: string, messageId: Id, replyId: Id, now: int)
      returns (stream: Option<StreamBinding>)
      modifies this
      ensures SendOutcome(State(), stream) == Edited(old(State()), sessionId, editId, message, messageId, replyId, now)
    {
      var conversation := EnsureConversation(sessionId);
      var previousMessageId := if editId in conversation.messages
        then conversation.messages[editId].previousMessageId else None;
      AddMessage(sessionId, ChatMessage(messageId, sessionId, Human, "User", message, None, now,
                                        previousMessageId, None, Some(editId)));
      stream := Some(StreamBinding(sessionId, replyId, messageId, None));
    }

    method RegenerateMessage(sessionId: string, retryId: Id, replyId: Id)
      returns (stream: Result<StreamBinding>)
      modifies this
      ensures RegenerateOutcome(State(), stream) == Regenerated(old(State()), sessionId, retryId, replyId)
    {
      var conversation := EnsureConversation(sessionId);
      var previousMessageId := if retryId in conversation.messages
        then conversation.messages[retryId].previousMessageId else None;
      if previousMessageId.None? {
        return Err(NoPreviousMessage);
      }
      stream := Ok(StreamBinding(sessionId, replyId, previousMessageId.value, Some(retryId)));
    }

    /** `renameSession`, given the session the server answered with. */
    method RenameSession(sessionId: string, updated: SessionDto)
      modifies this
      ensures State() == old(State()).(sessions := Renamed(old(sessions), sessionId, updated))
    {
      sessions := Renamed(sessions, sessionId, updated);
    }

    /** `deleteSession`, once the server has deleted it. */
    method DeleteSession(sessionId: string)
      modifies this
      ensures State() == old(State()).(sessions := Deleted(old(sessions), sessionId))
    {
      sessions := Deleted(sessions, sessionId);
    }
  }
}
