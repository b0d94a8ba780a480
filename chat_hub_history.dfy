/** The server's view of a conversation: the history it replays to the model (a guarded
    walk back along `previousMessageId`), and the rules that decide how a regeneration,
    an edit and a stop request act on the stored messages. The message repository of one
    session is a map from message id to the stored message. */
module ChatHubHistory {
  import opened Common
  import opened MessageDag

  /** ChatHubMessageStatus: 'running', 'success', 'error' (here `Failed`) and 'cancelled'. */
  datatype MessageStatus = Running | Success | Failed | Cancelled

  /** The execution a message is associated with. */
  datatype ExecutionRef = ExecutionRef(id: int, workflowId: string)

  /** A stored message (ChatHubMessage), with the fields these rules read. */
  datatype StoredMessage = StoredMessage(
    id: Id,
    messageType: MessageType,
    content: string,
    previousMessageId: Option<Id>,
    retryOfMessageId: Option<Id>,
    revisionOfMessageId: Option<Id>,
    status: Option<MessageStatus>,
    executionId: Option<int>,
    execution: Option<ExecutionRef>)

  /** The record `Object.fromEntries(messages.map(m => [m.id, m]))` is keyed by id. */
  ghost predicate Keyed(messages: map<Id, StoredMessage>) {
    forall id | id in messages :: messages[id].id == id
  }

  /** The back-links of the stored messages. */
  function HistoryLinks(messages: map<Id, StoredMessage>): (links: Links)
    ensures links.Keys == messages.Keys
    ensures forall id | id in links :: links[id] == messages[id].previousMessageId
  {
    MessageDag.LinksBy(messages, (m: StoredMessage) => m.previousMessageId)
  }

  /** `ids.flatMap(id => messages[id] ?? [])`: the stored messages of `ids`, in order. */
  function Present(messages: map<Id, StoredMessage>, ids: seq<Id>): seq<StoredMessage> {
    if ids == [] then []
    else (if ids[0] in messages then [messages[ids[0]]] else []) + Present(messages, ids[1..])
  }

  /** The history `buildMessageHistory` returns. */
  function History(messages: map<Id, StoredMessage>, lastMessageId: Option<Id>): seq<StoredMessage> {
    Present(messages, BackWalk(HistoryLinks(messages), lastMessageId, {}))
  }

  // ---------------------------------------------------------------------------------
  // buildMessageHistory

  /** Walk back from `lastMessageId`, prepending each id, until there is no id or the id was
      already visited; then keep the ids that name stored messages. */
  method BuildMessageHistory(messages: map<Id, StoredMessage>, lastMessageId: Option<Id>)
    returns (history: seq<StoredMessage>)
    ensures history == History(messages, lastMessageId)
  {
    if lastMessageId.None? {
      return [];
    }
    ghost var links := HistoryLinks(messages);
    var visited: set<Id> := {};
    var historyIds: seq<Id> := [];
    var current := lastMessageId;
    while current.Some? && current.value !in visited
      invariant BackWalk(links, lastMessageId, {}) == BackWalk(links, current, visited) + historyIds
      decreases links.Keys - visited, if current.Some? then 1 else 0
    {
      var id := current.value;
      assert id in links ==> links.Keys - (visited + {id}) < links.Keys - visited;
      assert BackWalk(links, current, visited)
        == BackWalk(links, if id in messages then messages[id].previousMessageId else None, visited + {id}) + [id];
      historyIds := [id] + historyIds;
      visited := visited + {id};
      current := if id in messages then messages[id].previousMessageId else None;
    }
    assert BackWalk(links, current, visited) == [];
    assert historyIds == BackWalk(links, lastMessageId, {});
    history := PresentOf(messages, historyIds);
  }

  /** The `flatMap` of the history ids. */
  method PresentOf(messages: map<Id, StoredMessage>, ids: seq<Id>) returns (r: seq<StoredMessage>)
    ensures r == Present(messages, ids)
  {
    r := [];
    var i := |ids|;
    while i > 0
      invariant 0 <= i <= |ids|
      invariant r == Present(messages, ids[i..])
    {
      i := i - 1;
      assert ids[i..][1..] == ids[i + 1..];
      if ids[i] in messages {
        r := [messages[ids[i]]] + r;
      }
    }
  }

  /** Ids that all name stored messages come out one for one. */
  lemma {:induction false} PresentStored(messages: map<Id, StoredMessage>, ids: seq<Id>)
    requires forall i | 0 <= i < |ids| :: ids[i] in messages
    ensures |Present(messages, ids)| == |ids|
    ensures forall i | 0 <= i < |ids| :: Present(messages, ids)[i] == messages[ids[i]]
  {
    if ids != [] {
      PresentStored(messages, ids[1..]);
    }
  }

  /** No start id, or a start id that is not stored, gives an empty history. */
  lemma HistoryEmpty(messages: map<Id, StoredMessage>, lastMessageId: Option<Id>)
    requires lastMessageId.None? || lastMessageId.value !in messages
    ensures History(messages, lastMessageId) == []
  {
    if lastMessageId.Some? {
      var links := HistoryLinks(messages);
      assert BackWalk(links, lastMessageId, {}) == BackWalk(links, None, {lastMessageId.value}) + [lastMessageId.value];
      assert BackWalk(links, None, {lastMessageId.value}) == [];
      assert BackWalk(links, lastMessageId, {}) == [lastMessageId.value];
      assert [lastMessageId.value][1..] == [];
      assert Present(messages, [lastMessageId.value]) == [];
    }
  }

  /** The history runs root to leaf: every message replies to the one before it, no message
      occurs twice, each is the stored message, and it ends at `lastMessageId` when that is
      stored. */
  lemma HistoryShape(messages: map<Id, StoredMessage>, lastMessageId: Option<Id>)
    requires Keyed(messages)
    ensures var h := History(messages, lastMessageId);
      && (forall i | 0 <= i < |h| :: h[i].id in messages && messages[h[i].id] == h[i])
      && (forall i | 0 < i < |h| :: h[i].previousMessageId == Some(h[i - 1].id))
      && (forall i, j | 0 <= i < j < |h| :: h[i].id != h[j].id)
      && (lastMessageId.Some? && lastMessageId.value in messages ==>
            h != [] && h[|h| - 1].id == lastMessageId.value)
  {
    var v := StoredPart(messages, lastMessageId);
    StoredShape(messages, v);
  }

  /** The ids of a history: a chain of stored ids, each message replying to the one before,
      with no id twice, ending at `lastMessageId` when that is stored. */
  lemma StoredPart(messages: map<Id, StoredMessage>, lastMessageId: Option<Id>) returns (v: seq<Id>)
    ensures History(messages, lastMessageId) == Present(messages, v)
    ensures forall i | 0 <= i < |v| :: v[i] in messages
    ensures forall i | 0 < i < |v| :: messages[v[i]].previousMessageId == Some(v[i - 1])
    ensures NoDup(v)
    ensures lastMessageId.Some? && lastMessageId.value in messages ==>
      v != [] && v[|v| - 1] == lastMessageId.value
  {
    var links := HistoryLinks(messages);
    var w := BackWalk(links, lastMessageId, {});
    BackWalkShape(links, lastMessageId, {});
    if w == [] {
      v := [];
    } else {
      v := if w[0] in messages then w else w[1..];
      if w[0] !in messages {
        assert w == [w[0]] + w[1..];
        assert Present(messages, w) == Present(messages, w[1..]);
      }
      StoredWalkShape(messages, w, v);
    }
  }

  /** The stored part `v` of a walk `w`: every id is stored, each message replies to the one
      before, no id repeats, and the walk's last stored id closes it. */
  lemma StoredWalkShape(messages: map<Id, StoredMessage>, w: seq<Id>, v: seq<Id>)
    requires w != [] && v == if w[0] in messages then w else w[1..]
    requires NoDup(w)
    requires forall i | 0 < i < |w| :: w[i] in messages && messages[w[i]].previousMessageId == Some(w[i - 1])
    ensures forall i | 0 <= i < |v| :: v[i] in messages
    ensures forall i | 0 < i < |v| :: messages[v[i]].previousMessageId == Some(v[i - 1])
    ensures NoDup(v)
    ensures w[|w| - 1] in messages ==> v != [] && v[|v| - 1] == w[|w| - 1]
  {
    if w[0] !in messages {
      assert forall i | 0 <= i < |v| :: v[i] == w[i + 1];
    }
  }

  /** The messages of a chain of stored ids form the same chain. */
  lemma StoredShape(messages: map<Id, StoredMessage>, v: seq<Id>)
    requires Keyed(messages)
    requires forall i | 0 <= i < |v| :: v[i] in messages
    requires forall i | 0 < i < |v| :: messages[v[i]].previousMessageId == Some(v[i - 1])
    requires NoDup(v)
    ensures var h := Present(messages, v);
      && |h| == |v|
      && (forall i | 0 <= i < |h| :: h[i].id == v[i] && h[i].id in messages && messages[h[i].id] == h[i])
      && (forall i | 0 < i < |h| :: h[i].previousMessageId == Some(h[i - 1].id))
      && (forall i, j | 0 <= i < j < |h| :: h[i].id != h[j].id)
  {
    PresentStored(messages, v);
  }

  /** On a conversation whose links all lead to a root, the history of a stored message is
      its lineage, starting at a root. */
  lemma HistoryIsLineage(messages: map<Id, StoredMessage>, lastMessageId: Id)
    requires Keyed(messages) && Rooted(HistoryLinks(messages)) && lastMessageId in messages
    ensures var h := History(messages, Some(lastMessageId));
      var path := Lineage(HistoryLinks(messages), lastMessageId);
      && |h| == |path| && (forall i | 0 <= i < |h| :: h[i].id == path[i])
      && h[0].previousMessageId.None?
  {
    var links := HistoryLinks(messages);
    var path := Lineage(links, lastMessageId);
    BackWalkIsLineage(links, lastMessageId, {});
    LineageShape(links, lastMessageId);
    PresentStored(messages, path);
  }

  // ---------------------------------------------------------------------------------
  // regenerateAIMessage

  /** What a regeneration replays: the history up to and including the last human message,
      that message's text, the message the new reply answers, and the retry root. */
  datatype RetryPlan = RetryPlan(history: seq<StoredMessage>, message: string,
                                 previousMessageId: Id, retryOfMessageId: Id)

  /** `history.filter(m => m.type === 'human')`. */
  function HumansOf(h: seq<StoredMessage>): (r: seq<StoredMessage>)
    ensures forall i | 0 <= i < |r| :: r[i].messageType == Human && r[i] in h
    ensures r == [] <==> forall i | 0 <= i < |h| :: h[i].messageType != Human
  {
    if h == [] then []
    else
      var init := HumansOf(h[..|h| - 1]);
      assert forall i | 0 <= i < |init| :: init[i] in h;
      assert forall i | 0 <= i < |h| - 1 :: h[..|h| - 1][i] == h[i];
      if h[|h| - 1].messageType == Human then init + [h[|h| - 1]] else init
  }

  /** `history.indexOf(x)`: the first position of `x`, or -1. */
  function IndexOf(h: seq<StoredMessage>, x: StoredMessage): (r: int)
    ensures -1 <= r < |h|
    ensures r == -1 <==> x !in h
    ensures r >= 0 ==> h[r] == x && forall j | 0 <= j < r :: h[j] != x
  {
    if h == [] then -1
    else if h[0] == x then 0
    else var k := IndexOf(h[1..], x); if k == -1 then -1 else k + 1
  }

  /** The position of the last human message of a history, if there is one. */
  function LastHumanAt(h: seq<StoredMessage>): (r: Option<nat>)
    ensures r.None? <==> forall i | 0 <= i < |h| :: h[i].messageType != Human
    ensures r.Some? ==> r.value < |h| && h[r.value].messageType == Human
    ensures r.Some? ==> forall j | r.value < j < |h| :: h[j].messageType != Human
  {
    if h == [] then None
    else if h[|h| - 1].messageType == Human then Some(|h| - 1)
    else
      var init := h[..|h| - 1];
      assert forall i | 0 <= i < |init| :: init[i] == h[i];
      LastHumanAt(init)
  }

  /** The message `filter(...).pop()` returns is the last human message of the history. */
  lemma {:induction false} LastHuman(h: seq<StoredMessage>)
    requires HumansOf(h) != []
    ensures LastHumanAt(h).Some? && h[LastHumanAt(h).value] == HumansOf(h)[|HumansOf(h)| - 1]
  {
    var init := h[..|h| - 1];
    if h[|h| - 1].messageType == Human {
      assert HumansOf(h) == HumansOf(init) + [h[|h| - 1]];
      assert LastHumanAt(h) == Some(|h| - 1);
    } else {
      assert HumansOf(h) == HumansOf(init);
      assert LastHumanAt(h) == LastHumanAt(init);
      LastHuman(init);
      var k := LastHumanAt(init).value;
      assert init[k] == h[k];
    }
  }

  /** In a history without repeated messages, `filter(...).pop()` finds a message exactly
      when the history holds a human message, and `indexOf` then finds it at the position
      of the last human message. */
  lemma LastHumanIndex(h: seq<StoredMessage>)
    requires forall i, j | 0 <= i < j < |h| :: h[i].id != h[j].id
    ensures HumansOf(h) == [] <==> LastHumanAt(h).None?
    ensures LastHumanAt(h).Some? ==>
      var k := LastHumanAt(h).value;
      HumansOf(h)[|HumansOf(h)| - 1] == h[k] && IndexOf(h, h[k]) == k
  {
    if HumansOf(h) != [] {
      LastHuman(h);
      var k := LastHumanAt(h).value;
      var r := IndexOf(h, h[k]);
      assert h[r] == h[k];
    }
  }

  /** No message occurs twice in a history. */
  lemma HistoryDistinct(messages: map<Id, StoredMessage>, lastMessageId: Option<Id>)
    requires Keyed(messages)
    ensures var h := History(messages, lastMessageId);
      forall i, j | 0 <= i < j < |h| :: h[i].id != h[j].id
  {
    HistoryShape(messages, lastMessageId);
  }

  /** `messageToRetry.retryOfMessageId ?? messageToRetry.id`. */
  function RetryRoot(m: StoredMessage): Id {
    m.retryOfMessageId.GetOr(m.id)
  }

  /** `messageToEdit.revisionOfMessageId ?? messageToEdit.id`. */
  function RevisionRoot(m: StoredMessage): Id {
    m.revisionOfMessageId.GetOr(m.id)
  }

  /** Retrying a retry points at the same original as retrying the original did, so all
      retries of a message share one root; revisions likewise. */
  lemma RootsAreStable(original: StoredMessage, retry: StoredMessage, revision: StoredMessage)
    requires original.retryOfMessageId.None? && original.revisionOfMessageId.None?
    requires retry.retryOfMessageId == Some(RetryRoot(original))
    requires revision.revisionOfMessageId == Some(RevisionRoot(original))
    ensures RetryRoot(retry) == original.id && RetryRoot(original) == original.id
    ensures RevisionRoot(revision) == original.id && RevisionRoot(original) == original.id
  {
  }

  /** The decisions of `regenerateAIMessage`: look up the session and the message, accept
      only AI messages, build the history up to the message's parent, find its last human
      message, drop what follows it, and name the retry root. `session` is the session's
      messages, or None when the user has no such session. */
  method RegenerateAIMessage(session: Option<map<Id, StoredMessage>>, retryId: Id)
    returns (r: Result<RetryPlan>)
    requires session.Some? ==> Keyed(session.value)
    ensures session.None? ==> r == Err(NotFound("Chat session not found"))
    ensures session.Some? && retryId !in session.value ==> r == Err(NotFound("Chat message not found"))
    ensures session.Some? && retryId in session.value ==>
      var m := session.value[retryId];
      var h := History(session.value, m.previousMessageId);
      && (m.messageType != AI ==> r == Err(BadRequest("Can only retry AI messages")))
      && (m.messageType == AI && LastHumanAt(h).None? ==>
            r == Err(BadRequest("No human message found to base the retry on")))
      && (m.messageType == AI && LastHumanAt(h).Some? ==>
            var k := LastHumanAt(h).value;
            r == Ok(RetryPlan(h[..k + 1], h[k].content, h[k].id, RetryRoot(m))))
    ensures r.Err? ==> r.error.NotFound? || r.error.BadRequest?
  {
    if session.None? {
      return Err(NotFound("Chat session not found"));
    }
    var messages := session.value;
    if retryId !in messages {
      return Err(NotFound("Chat message not found"));
    }
    var messageToRetry := messages[retryId];
    if messageToRetry.messageType != AI {
      return Err(BadRequest("Can only retry AI messages"));
    }
    var history := BuildMessageHistory(messages, messageToRetry.previousMessageId);
    HistoryDistinct(messages, messageToRetry.previousMessageId);
    r := RetryFromHistory(history, messageToRetry);
  }

  /** `history.filter(m => m.type === 'human').pop()`: the last human message. */
  method LastHumanMessage(history: seq<StoredMessage>) returns (found: Option<StoredMessage>)
    ensures found.None? <==> LastHumanAt(history).None?
    ensures found.Some? ==> found.value == history[LastHumanAt(history).value]
  {
    var humans := HumansOf(history);
    if humans == [] {
      return None;
    }
    LastHuman(history);
    return Some(humans[|humans| - 1]);
  }

  /** `history.splice(history.indexOf(m) + 1)` when `m` occurs: keep the history up to and
      including its first occurrence of `m`. */
  method KeepThrough(history: seq<StoredMessage>, m: StoredMessage) returns (kept: seq<StoredMessage>)
    ensures m !in history ==> kept == history
    ensures m in history ==> kept == history[..IndexOf(history, m) + 1] && kept[|kept| - 1] == m
  {
    kept := history;
    var index := IndexOf(history, m);
    if index != -1 {
      kept := history[..index + 1];
    }
  }

  /** The part of `regenerateAIMessage` after the history is built: take the last human
      message, cut the history after it, and name the retry root. */
  method RetryFromHistory(history: seq<StoredMessage>, messageToRetry: StoredMessage)
    returns (r: Result<RetryPlan>)
    requires forall i, j | 0 <= i < j < |history| :: history[i].id != history[j].id
    ensures LastHumanAt(history).None? ==>
      r == Err(BadRequest("No human message found to base the retry on"))
    ensures LastHumanAt(history).Some? ==>
      var k := LastHumanAt(history).value;
      r == Ok(RetryPlan(history[..k + 1], history[k].content, history[k].id, RetryRoot(messageToRetry)))
  {
    var lastHumanMessage := LastHumanMessage(history);
    if lastHumanMessage.None? {
      return Err(BadRequest("No human message found to base the retry on"));
    }
    var message := lastHumanMessage.value;
    ghost var k := LastHumanAt(history).value;
    assert IndexOf(history, message) == k by { LastHumanIndex(history); }
    var kept := KeepThrough(history, message);
    var retryOfMessageId := RetryRoot(messageToRetry);
    r := Ok(RetryPlan(kept, message.content, message.id, retryOfMessageId));
  }

  /** The plan of a regeneration replays a history that ends at a human message, answers
      that message, and holds the history's messages up to it, each replying to the one
      before. */
  lemma RetryPlanShape(messages: map<Id, StoredMessage>, m: StoredMessage, k: nat)
    requires Keyed(messages)
    requires k < |History(messages, m.previousMessageId)|
    ensures var h := History(messages, m.previousMessageId);
      var kept := h[..k + 1];
      && kept[|kept| - 1] == h[k]
      && (forall i | 0 < i < |kept| :: kept[i].previousMessageId == Some(kept[i - 1].id))
      && (forall i | 0 <= i < |kept| :: kept[i].id in messages && messages[kept[i].id] == kept[i])
  {
    HistoryShape(messages, m.previousMessageId);
  }

  // ---------------------------------------------------------------------------------
  // editMessage

  /** What an edit does: an AI message gets its content replaced in place, with no reply;
      a human message gets a new revision, saved as `saved`, answered over `history`. */
  datatype EditPlan =
    | ContentUpdate(messages: map<Id, StoredMessage>)
    | Revision(history: seq<StoredMessage>, saved: StoredMessage)

  /** The decisions of `editMessage` on the session's messages: `messageId` is the id of the
      new human message, `message` its text. */
  method EditMessage(messages: map<Id, StoredMessage>, editId: Id, messageId: Id, message: string)
    returns (r: Result<EditPlan>)
    ensures editId !in messages ==> r == Err(NotFound("Chat message not found"))
    ensures editId in messages ==>
      var m := messages[editId];
      && (m.messageType != AI && m.messageType != Human ==>
            r == Err(BadRequest("Only human and AI messages can be edited")))
      && (m.messageType == AI ==>
            r == Ok(ContentUpdate(messages[editId := m.(content := message)])))
      && (m.messageType == Human ==>
            r == Ok(Revision(History(messages, m.previousMessageId),
                             StoredMessage(messageId, Human, message, m.previousMessageId, None,
                                           Some(RevisionRoot(m)), Some(Success), None, None))))
  {
    if editId !in messages {
      return Err(NotFound("Chat message not found"));
    }
    var messageToEdit := messages[editId];
    if messageToEdit.messageType != AI && messageToEdit.messageType != Human {
      return Err(BadRequest("Only human and AI messages can be edited"));
    }
    if messageToEdit.messageType == AI {
      return Ok(ContentUpdate(messages[editId := messageToEdit.(content := message)]));
    }
    var history := BuildMessageHistory(messages, messageToEdit.previousMessageId);
    var revisionOfMessageId := RevisionRoot(messageToEdit);
    r := Ok(Revision(history, StoredMessage(messageId, Human, message, messageToEdit.previousMessageId,
                                            None, Some(revisionOfMessageId), Some(Success), None, None)));
  }

  /** A revision of a human message is its sibling: it answers the same message, it shares
      the original's revision root, and the history replayed to the model ends at the
      message both answer (or is empty when they start the conversation). */
  lemma RevisionIsSibling(messages: map<Id, StoredMessage>, edited: StoredMessage, saved: StoredMessage)
    requires Keyed(messages)
    requires saved.previousMessageId == edited.previousMessageId
    requires saved.revisionOfMessageId == Some(RevisionRoot(edited))
    ensures RevisionRoot(saved) == RevisionRoot(edited)
    ensures var h := History(messages, saved.previousMessageId);
      && (saved.previousMessageId.Some? && saved.previousMessageId.value in messages ==>
            h != [] && h[|h| - 1].id == saved.previousMessageId.value)
      && (saved.previousMessageId.None? ==> h == [])
  {
    HistoryShape(messages, saved.previousMessageId);
    if saved.previousMessageId.None? {
      HistoryEmpty(messages, None);
    }
  }

  // ---------------------------------------------------------------------------------
  // stopGeneration and the stream callbacks

  /** A message is tied to a workflow execution when it has a (truthy, so non-zero)
      execution id and the execution is still stored. */
  predicate LinkedToExecution(m: StoredMessage) {
    m.executionId.Some? && m.executionId.value != 0 && m.execution.Some?
  }

  /** `stopGeneration`: checks in order that the session and the message exist, that it is
      an AI message, that it has an execution and that it is running; then the message is
      marked cancelled (stopping the execution itself is not part of this model). */
  function StopGeneration(session: Option<map<Id, StoredMessage>>, messageId: Id)
    : (r: Result<map<Id, StoredMessage>>)
    ensures session.None? ==> r == Err(NotFound("Chat session not found"))
    ensures session.Some? && messageId !in session.value ==> r == Err(NotFound("Chat message not found"))
    ensures session.Some? && messageId in session.value && session.value[messageId].messageType != AI ==>
      r == Err(BadRequest("Can only stop AI messages"))
    ensures (&& session.Some? && messageId in session.value
             && session.value[messageId].messageType == AI
             && !LinkedToExecution(session.value[messageId]))
      ==> r == Err(BadRequest("Message is not associated with a workflow execution"))
    ensures (&& session.Some? && messageId in session.value
             && session.value[messageId].messageType == AI
             && LinkedToExecution(session.value[messageId])
             && session.value[messageId].status != Some(Running))
      ==> r == Err(BadRequest("Can only stop messages that are currently running"))
    ensures r.Err? ==> r.error.NotFound? || r.error.BadRequest?
    ensures r.Ok? <==>
      && session.Some? && messageId in session.value
      && session.value[messageId].messageType == AI
      && LinkedToExecution(session.value[messageId])
      && session.value[messageId].status == Some(Running)
    ensures r.Ok? ==>
      && r.value.Keys == session.value.Keys
      && r.value[messageId] == session.value[messageId].(status := Some(Cancelled))
      && forall id | id in session.value && id != messageId :: r.value[id] == session.value[id]
  {
    if session.None? then Err(NotFound("Chat session not found"))
    else if messageId !in session.value then Err(NotFound("Chat message not found"))
    else
      var message := session.value[messageId];
      if message.messageType != AI then Err(BadRequest("Can only stop AI messages"))
      else if !LinkedToExecution(message) then
        Err(BadRequest("Message is not associated with a workflow execution"))
      else if message.status != Some(Running) then
        Err(BadRequest("Can only stop messages that are currently running"))
      else Ok(session.value[messageId := message.(status := Some(Cancelled))])
  }

  /** The `onEnd` callback: the final content and status are written to the stored message;
      a message that is not stored is left alone, as an update of no row. */
  function OnEndSave(messages: map<Id, StoredMessage>, id: Id, content: string, status: Option<MessageStatus>)
    : (r: map<Id, StoredMessage>)
    ensures r.Keys == messages.Keys
    ensures id in messages ==> r[id] == messages[id].(content := content, status := status)
    ensures forall x | x in messages && x != id :: r[x] == messages[x]
  {
    if id !in messages then messages
    else messages[id := messages[id].(content := content, status := status)]
  }

  /** The `onError` callback: the content generated so far is written, and the message is
      marked as errored unless a stop request has already marked it cancelled. */
  function OnErrorSave(messages: map<Id, StoredMessage>, id: Id, content: string): (r: map<Id, StoredMessage>)
    ensures r.Keys == messages.Keys
    ensures id in messages ==> r[id].content == content
    ensures id in messages ==>
      r[id].status == if messages[id].status == Some(Cancelled) then Some(Cancelled) else Some(Failed)
    ensures id in messages ==> r[id] == messages[id].(content := content, status := r[id].status)
    ensures forall x | x in messages && x != id :: r[x] == messages[x]
  {
    if id !in messages then messages
    else
      var updated := messages[id].(content := content);
      if updated.status == Some(Cancelled) then messages[id := updated]
      else messages[id := updated.(status := Some(Failed))]
  }

  /** A stopped generation stays cancelled when its stream then fails, and keeps what was
      generated up to then. */
  lemma StopThenErrorStaysCancelled(session: Option<map<Id, StoredMessage>>, messageId: Id, content: string)
    requires StopGeneration(session, messageId).Ok?
    ensures var after := OnErrorSave(StopGeneration(session, messageId).value, messageId, content);
      && after[messageId].status == Some(Cancelled)
      && after[messageId].content == content
  {
  }
}
