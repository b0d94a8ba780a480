/** Branch navigation over a conversation's messages (the client's chat utilities): the
    children index, the active chain of a branch, the relative-date grouping of sessions
    and the first-available-model picker. */
module ChatUtils {
  import opened Common
  import opened MessageDag
  import opened ChatOrder

  /** `GroupedMessages`: for each `previousMessageId` (None for roots), the ids of the
      messages that reply to it. */
  type ChildrenIndex = map<Option<Id>, seq<Id>>

  /** `idx` lists every message exactly once, under its own `previousMessageId`, and has
      no empty entry. */
  ghost predicate IsChildrenIndex(messages: map<Id, ChatMessage>, idx: ChildrenIndex) {
    && (forall k | k in idx :: idx[k] != [] && NoDup(idx[k]))
    && (forall k, i | k in idx && 0 <= i < |idx[k]| ::
          idx[k][i] in messages && messages[idx[k][i]].previousMessageId == k)
    && (forall id | id in messages ::
          messages[id].previousMessageId in idx && id in idx[messages[id].previousMessageId])
  }

  /** Each message sits in exactly one group, the one keyed by its `previousMessageId`,
      and only once there. */
  lemma ChildrenIndexPartition(messages: map<Id, ChatMessage>, idx: ChildrenIndex, id: Id)
    requires IsChildrenIndex(messages, idx) && id in messages
    ensures var k := messages[id].previousMessageId;
      && k in idx && id in idx[k]
      && (forall k' | k' in idx && id in idx[k'] :: k' == k)
      && |set i | 0 <= i < |idx[k]| && idx[k][i] == id| == 1
  {
    var k := messages[id].previousMessageId;
    var g := idx[k];
    var i0 :| 0 <= i0 < |g| && g[i0] == id;
    assert (set i | 0 <= i < |g| && g[i] == id) == {i0};
  }

  // ---------------------------------------------------------------------------------
  // computeMessagesByPreviousId

  /** The children index of a messages record, each group sorted by creation time and then
      id. The record is keyed by message id, as the store always writes it. */
  method ComputeMessagesByPreviousId(messages: map<Id, ChatMessage>) returns (idx: ChildrenIndex)
    requires WellKeyed(messages)
    ensures IsChildrenIndex(messages, idx)
    ensures forall k | k in idx :: SortedIds(messages, idx[k])
  {
    var groups := GroupByPrevious(messages);
    idx := SortGroups(messages, groups);
    forall k | k in idx
      ensures idx[k] != [] && NoDup(idx[k]) && SortedIds(messages, idx[k])
      ensures forall i | 0 <= i < |idx[k]| ::
        idx[k][i] in messages && messages[idx[k][i]].previousMessageId == k
      ensures forall id | id in messages && messages[id].previousMessageId == k :: id in idx[k]
    {
      KeyedGroup(messages, groups[k]);
      SortIdsSorted(messages, groups[k]);
      SameElements(idx[k], groups[k]);
      forall i | 0 <= i < |idx[k]|
        ensures idx[k][i] in messages && messages[idx[k][i]].previousMessageId == k
      {
        assert idx[k][i] in groups[k];
      }
    }
  }

  /** The first loop of `computeMessagesByPreviousId`: push every message id onto the entry
      of its `previousMessageId` (null for a root). */
  method GroupByPrevious(messages: map<Id, ChatMessage>) returns (groups: ChildrenIndex)
    requires WellKeyed(messages)
    ensures IsChildrenIndex(messages, groups)
  {
    groups := map[];
    var remaining := messages.Keys;
    while remaining != {}
      invariant remaining <= messages.Keys
      invariant forall k | k in groups :: groups[k] != [] && NoDup(groups[k])
      invariant forall k, i | k in groups && 0 <= i < |groups[k]| ::
        groups[k][i] in messages && groups[k][i] !in remaining
        && messages[groups[k][i]].previousMessageId == k
      invariant forall id | id in messages && id !in remaining ::
        messages[id].previousMessageId in groups && id in groups[messages[id].previousMessageId]
      decreases remaining
    {
      var id :| id in remaining;
      var message := messages[id];
      var key := message.previousMessageId;
      var entry := if key in groups then groups[key] else [];
      entry := entry + [message.id];
      groups := groups[key := entry];
      remaining := remaining - {id};
    }
  }

  /** The second loop of `computeMessagesByPreviousId`: replace every entry by its sorted
      copy. */
  method SortGroups(messages: map<Id, ChatMessage>, groups: ChildrenIndex) returns (idx: ChildrenIndex)
    requires forall k, i | k in groups && 0 <= i < |groups[k]| :: groups[k][i] in messages
    ensures idx.Keys == groups.Keys
    ensures forall k | k in idx :: idx[k] == SortIds(messages, groups[k])
  {
    idx := groups;
    var keys := groups.Keys;
    while keys != {}
      invariant keys <= groups.Keys && idx.Keys == groups.Keys
      invariant forall k | k in idx && k !in keys :: idx[k] == SortIds(messages, groups[k])
      invariant forall k | k in keys :: idx[k] == groups[k]
      decreases keys
    {
      var key :| key in keys;
      idx := idx[key := SortIds(messages, groups[key])];
      keys := keys - {key};
    }
  }

  lemma KeyedGroup(messages: map<Id, ChatMessage>, g: seq<Id>)
    requires WellKeyed(messages) && forall i | 0 <= i < |g| :: g[i] in messages
    ensures KeyedIds(messages, g)
  {
  }

  /** Two lists with the same multiset have the same elements. */
  lemma SameElements<T>(a: seq<T>, b: seq<T>)
    requires multiset(a) == multiset(b)
    ensures |a| == |b|
    ensures forall x :: x in a <==> x in b
  {
    assert |multiset(a)| == |a| && |multiset(b)| == |b|;
    forall x
      ensures x in a <==> x in b
    {
      assert x in a <==> x in multiset(a);
      assert x in b <==> x in multiset(b);
    }
  }

  // ---------------------------------------------------------------------------------
  // computeActiveChain

  /** The message the navigation starts from: `messageId` when it is stored, otherwise a
      message with the greatest creation time. */
  ghost predicate IsAnchor(messages: map<Id, ChatMessage>, messageId: Option<Id>, a: Id) {
    && a in messages
    && if messageId.Some? && messageId.value in messages then a == messageId.value
       else forall x | x in messages :: messages[x].createdAt <= messages[a].createdAt
  }

  /** `l` is the latest-created message among `a` and its descendants. */
  ghost predicate IsLatestDescendant(messages: map<Id, ChatMessage>, a: Id, l: Id)
    requires Rooted(LinksOf(messages))
  {
    && DescendsFrom(LinksOf(messages), a, l)
    && forall d | d in messages && DescendsFrom(LinksOf(messages), a, d) ::
         messages[d].createdAt <= messages[l].createdAt
  }

  /** The messages of a path of stored ids. */
  function MessagesOn(messages: map<Id, ChatMessage>, path: seq<Id>): (ms: seq<ChatMessage>)
    requires forall i | 0 <= i < |path| :: path[i] in messages
    ensures |ms| == |path| && forall i | 0 <= i < |path| :: ms[i] == messages[path[i]]
  {
    seq(|path|, i requires 0 <= i < |path| => messages[path[i]])
  }

  /** A non-empty record has a message with the greatest creation time. */
  lemma {:induction false} LatestExists(messages: map<Id, ChatMessage>, keys: set<Id>)
    requires keys <= messages.Keys && keys != {}
    ensures exists a :: a in keys && forall x | x in keys :: messages[x].createdAt <= messages[a].createdAt
    decreases keys
  {
    var k :| k in keys;
    if keys - {k} != {} {
      LatestExists(messages, keys - {k});
      var a :| a in keys - {k} && forall x | x in keys - {k} :: messages[x].createdAt <= messages[a].createdAt;
      if messages[k].createdAt > messages[a].createdAt {
        assert forall x | x in keys :: messages[x].createdAt <= messages[k].createdAt;
      } else {
        assert forall x | x in keys :: messages[x].createdAt <= messages[a].createdAt;
      }
    } else {
      assert keys == {k};
    }
  }

  /** `responsesByMessageId.get(id) ?? []`. */
  function Replies(idx: ChildrenIndex, id: Id): seq<Id> {
    if Some(id) in idx then idx[Some(id)] else []
  }

  ghost function Elems(s: seq<Id>): set<Id> {
    set x | x in s
  }

  /** The state of the descendant search: every id ever pushed descends from the anchor
      and was pushed as a reply to a popped message; every reply to a popped message was
      pushed; what is pushed and not popped is on the stack, once. */
  ghost predicate SearchState(links: Links, anchor: Id, stack: seq<Id>,
                              pushed: set<Id>, popped: set<Id>)
    requires Rooted(links)
  {
    && pushed <= links.Keys && anchor in pushed && popped <= pushed
    && (forall x | x in pushed :: DescendsFrom(links, anchor, x))
    && (forall x | x in pushed && x != anchor :: links[x].Some? && links[x].value in popped)
    && (forall c | c in links && links[c].Some? && links[c].value in popped :: c in pushed)
    && (forall i | 0 <= i < |stack| :: stack[i] in pushed && stack[i] !in popped)
    && (forall x | x in pushed && x !in popped :: x in stack)
    && NoDup(stack)
  }

  /** `rs` lists the replies to `id`, each once. */
  ghost predicate RepliesOf(links: Links, id: Id, rs: seq<Id>) {
    && NoDup(rs)
    && (forall i | 0 <= i < |rs| :: rs[i] in links && links[rs[i]] == Some(id))
    && (forall c | c in links && links[c] == Some(id) :: c in rs)
  }

  /** The children index gives the replies of every message. */
  lemma RepliesFromIndex(messages: map<Id, ChatMessage>, idx: ChildrenIndex, id: Id)
    requires IsChildrenIndex(messages, idx)
    ensures RepliesOf(LinksOf(messages), id, Replies(idx, id))
  {
    var links := LinksOf(messages);
    forall c | c in links && links[c] == Some(id)
      ensures c in Replies(idx, id)
    {
      assert c in idx[messages[c].previousMessageId];
    }
  }

  /** The replies of the message on top of the stack descend from the anchor and have
      never been pushed. */
  lemma RepliesFresh(links: Links, anchor: Id, stack: seq<Id>, pushed: set<Id>, popped: set<Id>,
                     rs: seq<Id>)
    requires Rooted(links) && SearchState(links, anchor, stack, pushed, popped) && stack != []
    requires RepliesOf(links, stack[|stack| - 1], rs)
    ensures stack[|stack| - 1] in pushed && stack[|stack| - 1] !in popped
    ensures forall i | 0 <= i < |rs| :: rs[i] !in pushed && DescendsFrom(links, anchor, rs[i])
  {
    var id := stack[|stack| - 1];
    forall i | 0 <= i < |rs|
      ensures rs[i] !in pushed && DescendsFrom(links, anchor, rs[i])
    {
      ReplyDescends(links, anchor, id, rs[i]);
    }
  }

  /** Popping the top of the stack and pushing its replies keeps the search state. */
  lemma SearchStep(links: Links, anchor: Id, stack: seq<Id>, pushed: set<Id>, popped: set<Id>,
                   rs: seq<Id>)
    requires Rooted(links) && SearchState(links, anchor, stack, pushed, popped) && stack != []
    requires RepliesOf(links, stack[|stack| - 1], rs)
    ensures forall i | 0 <= i < |rs| :: rs[i] in links && rs[i] !in pushed
    ensures SearchState(links, anchor, stack[..|stack| - 1] + rs, pushed + Elems(rs),
                        popped + {stack[|stack| - 1]})
  {
    RepliesFresh(links, anchor, stack, pushed, popped, rs);
    var id := stack[|stack| - 1];
    var pushed' := pushed + Elems(rs);
    var popped' := popped + {id};
    StackStep(stack, pushed, popped, rs);
    forall c | c in links && links[c].Some? && links[c].value in popped'
      ensures c in pushed'
    {
      if links[c].value == id {
        assert c in rs;
      }
    }
  }

  /** The stack part of a search step: what is pushed and not popped is on the new stack,
      once. */
  lemma StackStep(stack: seq<Id>, pushed: set<Id>, popped: set<Id>, rs: seq<Id>)
    requires stack != [] && popped <= pushed && NoDup(stack) && NoDup(rs)
    requires forall i | 0 <= i < |stack| :: stack[i] in pushed && stack[i] !in popped
    requires forall x | x in pushed && x !in popped :: x in stack
    requires forall i | 0 <= i < |rs| :: rs[i] !in pushed
    ensures var id := stack[|stack| - 1];
      var stack' := stack[..|stack| - 1] + rs;
      && (forall i | 0 <= i < |stack'| ::
            stack'[i] in pushed + Elems(rs) && stack'[i] !in popped + {id})
      && (forall x | x in pushed + Elems(rs) && x !in popped + {id} :: x in stack')
      && NoDup(stack')
  {
    var id := stack[|stack| - 1];
    var rest := stack[..|stack| - 1];
    assert stack == rest + [id];
    var stack' := rest + rs;
    forall i | 0 <= i < |stack'|
      ensures stack'[i] in pushed + Elems(rs) && stack'[i] !in popped + {id}
    {
      if i < |rest| {
        assert stack'[i] == stack[i];
      } else {
        assert stack'[i] == rs[i - |rest|];
      }
    }
    forall x | x in pushed + Elems(rs) && x !in popped + {id}
      ensures x in stack'
    {
      if x in pushed {
        assert x in stack && x != id;
        assert x in rest;
      } else {
        assert x in rs;
      }
    }
    forall i, j | 0 <= i < j < |stack'|
      ensures stack'[i] != stack'[j]
    {
      if i < |rest| && j >= |rest| {
        assert stack'[i] in pushed;
        assert stack'[j] == rs[j - |rest|];
      } else if i < |rest| {
        assert stack'[i] == stack[i] && stack'[j] == stack[j];
      } else {
        assert stack'[i] == rs[i - |rest|] && stack'[j] == rs[j - |rest|];
      }
    }
  }

  /** `for (const x of items) stack.push(x)`. */
  method PushAll(stack: seq<Id>, items: seq<Id>) returns (r: seq<Id>)
    ensures r == stack + items
  {
    r := stack;
    for j := 0 to |items|
      invariant r == stack + items[..j]
    {
      assert items[..j + 1] == items[..j] + [items[j]];
      r := r + [items[j]];
    }
    assert items[..|items|] == items;
  }

  /** Pushing a fresh id shrinks the set of ids never pushed. */
  lemma PushShrinks(keys: set<Id>, pushed: set<Id>, rs: seq<Id>)
    requires rs != [] ==> rs[0] in keys && rs[0] !in pushed
    ensures rs != [] ==> keys - (pushed + Elems(rs)) < keys - pushed
    ensures rs == [] ==> keys - (pushed + Elems(rs)) == keys - pushed
  {
    if rs != [] {
      assert rs[0] in keys - pushed;
    }
  }

  /** `best` is a popped message with the greatest creation time, once anything is popped. */
  ghost predicate IsBest(messages: map<Id, ChatMessage>, popped: set<Id>, best: Option<Id>) {
    && (best.None? <==> popped == {})
    && (best.Some? ==> best.value in popped && best.value in messages)
    && (best.Some? ==>
          forall x | x in popped :: x in messages && messages[x].createdAt <= messages[best.value].createdAt)
  }

  /** Keeping the first message seen with a strictly greater creation time keeps the
      greatest one. */
  lemma BestStep(messages: map<Id, ChatMessage>, popped: set<Id>, best: Option<Id>, id: Id)
    requires IsBest(messages, popped, best) && id in messages
    ensures IsBest(messages, popped + {id},
      if best.None? || messages[id].createdAt > messages[best.value].createdAt then Some(id) else best)
  {
  }

  /** One round of the descendant search: pop the top of the stack, keep it when it is
      newer than the best so far, and push its replies. */
  method Visit(messages: map<Id, ChatMessage>, idx: ChildrenIndex, ghost links: Links, anchor: Id,
               stack: seq<Id>, best: Option<Id>, ghost pushed: set<Id>, ghost popped: set<Id>)
    returns (stack': seq<Id>, best': Option<Id>, ghost pushed': set<Id>, ghost popped': set<Id>)
    requires links == LinksOf(messages) && Rooted(links) && IsChildrenIndex(messages, idx)
    requires SearchState(links, anchor, stack, pushed, popped) && IsBest(messages, popped, best)
    requires stack != []
    ensures SearchState(links, anchor, stack', pushed', popped') && IsBest(messages, popped', best')
    ensures links.Keys - pushed' < links.Keys - pushed
      || (links.Keys - pushed' == links.Keys - pushed && |stack'| < |stack|)
  {
    var id := stack[|stack| - 1];
    var responses := Replies(idx, id);
    RepliesFromIndex(messages, idx, id);
    SearchStep(links, anchor, stack, pushed, popped, responses);
    BestStep(messages, popped, best, id);
    PushShrinks(links.Keys, pushed, responses);
    best' := best;
    if best.None? || messages[id].createdAt > messages[best.value].createdAt {
      best' := Some(id);
    }
    popped' := popped + {id};
    stack' := PushAll(stack[..|stack| - 1], responses);
    pushed' := pushed + Elems(responses);
  }

  /** The descendant search: a depth-first walk from `anchor` over the children index that
      keeps the first message with the greatest creation time. It has no visited set, so it
      relies on the links being acyclic. */
  method LatestDescendant(messages: map<Id, ChatMessage>, idx: ChildrenIndex, anchor: Id)
    returns (latest: Id)
    requires Rooted(LinksOf(messages)) && IsChildrenIndex(messages, idx)
    requires anchor in messages
    ensures IsLatestDescendant(messages, anchor, latest)
  {
    ghost var links := LinksOf(messages);
    LineageShape(links, anchor);
    var stack := [anchor];
    var best: Option<Id> := None;
    ghost var pushed := {anchor};
    ghost var popped: set<Id> := {};
    while stack != []
      invariant SearchState(links, anchor, stack, pushed, popped)
      invariant IsBest(messages, popped, best)
      decreases links.Keys - pushed, |stack|
    {
      stack, best, pushed, popped := Visit(messages, idx, links, anchor, stack, best, pushed, popped);
    }
    SearchDone(links, anchor, pushed, popped);
    latest := best.value;
  }

  /** When the stack is empty every descendant of the anchor has been popped. */
  lemma SearchDone(links: Links, anchor: Id, pushed: set<Id>, popped: set<Id>)
    requires Rooted(links) && SearchState(links, anchor, [], pushed, popped)
    ensures popped != {} && popped <= links.Keys
    ensures forall x | x in popped :: DescendsFrom(links, anchor, x)
    ensures forall d | d in links && DescendsFrom(links, anchor, d) :: d in popped
  {
    assert pushed == popped;
    DescendantsClosed(links, anchor, popped);
  }

  /** The walk back from `latest` to the root, prepending each message; it stops at a
      message already visited. It spins forever on a link to a missing message, which
      the precondition rules out. */
  method WalkBack(messages: map<Id, ChatMessage>, latest: Id) returns (chain: seq<ChatMessage>)
    requires Rooted(LinksOf(messages)) && latest in messages
    ensures chain == MessagesOn(messages, Lineage(LinksOf(messages), latest))
  {
    ghost var links := LinksOf(messages);
    ghost var path := Lineage(links, latest);
    LineageShape(links, latest);
    LineageNoDup(links, latest);
    chain := [];
    var current: Option<Id> := Some(latest);
    var visited: set<Id> := {};
    ghost var k := |path|;
    while current.Some? && current.value !in visited
      invariant 0 <= k <= |path|
      invariant current == if k > 0 then Some(path[k - 1]) else None
      invariant visited == set i | k <= i < |path| :: path[i]
      invariant chain == MessagesOn(messages, path[k..])
      decreases k
    {
      var id := current.value;
      if id in messages {
        var m := messages[id];
        chain := [m] + chain;
        visited := visited + {id};
        current := m.previousMessageId;
        k := k - 1;
      }
    }
  }

  /** The active chain of the conversation: root to leaf, through the latest-created
      descendant of the anchor. Requires the links to be closed and acyclic and `idx` to be
      the children index of `messages`. */
  method ComputeActiveChain(messages: map<Id, ChatMessage>, idx: ChildrenIndex, messageId: Option<Id>)
    returns (chain: seq<ChatMessage>)
    requires WellKeyed(messages) && Rooted(LinksOf(messages)) && IsChildrenIndex(messages, idx)
    ensures chain == [] <==> |messages| == 0
    ensures |messages| > 0 ==>
      exists a, l :: IsAnchor(messages, messageId, a) && IsLatestDescendant(messages, a, l)
        && chain == MessagesOn(messages, Lineage(LinksOf(messages), l))
    ensures forall i | 0 <= i < |chain| :: chain[i].id in messages && messages[chain[i].id] == chain[i]
    ensures chain != [] ==> chain[0].previousMessageId.None?
    ensures forall i | 0 < i < |chain| :: chain[i].previousMessageId == Some(chain[i - 1].id)
    ensures forall i, j | 0 <= i < j < |chain| :: chain[i].id != chain[j].id
  {
    var anchor: Id;
    if messageId.Some? && messageId.value in messages {
      anchor := messageId.value;
    } else {
      if |messages| == 0 {
        return [];
      }
      LatestExists(messages, messages.Keys);
      anchor :| anchor in messages &&
        forall x | x in messages :: messages[x].createdAt <= messages[anchor].createdAt;
    }
    var latest := LatestDescendant(messages, idx, anchor);
    chain := WalkBack(messages, latest);
    ChainShape(messages, latest, chain);
  }

  lemma ChainShape(messages: map<Id, ChatMessage>, latest: Id, chain: seq<ChatMessage>)
    requires WellKeyed(messages) && Rooted(LinksOf(messages)) && latest in messages
    requires chain == MessagesOn(messages, Lineage(LinksOf(messages), latest))
    ensures chain != []
    ensures forall i | 0 <= i < |chain| :: chain[i].id in messages && messages[chain[i].id] == chain[i]
    ensures chain[0].previousMessageId.None?
    ensures forall i | 0 < i < |chain| :: chain[i].previousMessageId == Some(chain[i - 1].id)
    ensures forall i, j | 0 <= i < j < |chain| :: chain[i].id != chain[j].id
  {
    var links := LinksOf(messages);
    var path := Lineage(links, latest);
    LineageShape(links, latest);
    LineageNoDup(links, latest);
    assert forall i | 0 <= i < |chain| :: chain[i].id == path[i];
  }

  /** When every reply is created after the message it answers, the chain ends at a
      message nobody has replied to. */
  lemma LatestIsLeaf(messages: map<Id, ChatMessage>, a: Id, l: Id)
    requires Rooted(LinksOf(messages)) && IsLatestDescendant(messages, a, l)
    requires forall c | c in messages && messages[c].previousMessageId.Some? ::
      messages[c].previousMessageId.value in messages &&
      messages[messages[c].previousMessageId.value].createdAt < messages[c].createdAt
    ensures forall c | c in messages :: messages[c].previousMessageId != Some(l)
  {
    var links := LinksOf(messages);
    forall c | c in messages
      ensures messages[c].previousMessageId != Some(l)
    {
      if messages[c].previousMessageId == Some(l) {
        ReplyDescends(links, a, l, c);
      }
    }
  }

  // ---------------------------------------------------------------------------------
  // getRelativeDate and groupConversationsByDate

  /** The four session groups, in display order. */
  datatype RelativeDate = Today | Yesterday | ThisWeek | Older {
    function Label(): string {
      match this
      case Today => "Today"
      case Yesterday => "Yesterday"
      case ThisWeek => "This week"
      case Older => "Older"
    }

    function Rank(): nat {
      match this
      case Today => 0
      case Yesterday => 1
      case ThisWeek => 2
      case Older => 3
    }
  }

  const GroupOrder: seq<RelativeDate> := [Today, Yesterday, ThisWeek, Older]

  /** The group of a conversation last active at `date` (now when there is none), seen at
      `now`. Times are integer timestamps; `dayOf` gives the local calendar day number of a
      timestamp, so the day before `d` is `d - 1`. A date after today falls in This week. */
  function GetRelativeDate(dayOf: int -> int, now: int, date: Option<int>): RelativeDate {
    var today := dayOf(now);
    var day := dayOf(date.GetOr(now));
    if day == today then Today
    else if day == today - 1 then Yesterday
    else if day >= today - 7 then ThisWeek
    else Older
  }

  /** A conversation without a last message is today's. */
  lemma NoDateIsToday(dayOf: int -> int, now: int)
    ensures GetRelativeDate(dayOf, now, None) == Today
  {
  }

  /** For dates up to today, a later calendar day never falls in a later group: the groups
      run from newest to oldest. */
  lemma RelativeDateMonotone(dayOf: int -> int, now: int, t1: int, t2: int)
    requires dayOf(t1) <= dayOf(t2) <= dayOf(now)
    ensures GetRelativeDate(dayOf, now, Some(t2)).Rank() <= GetRelativeDate(dayOf, now, Some(t1)).Rank()
  {
  }

  /** The group the day difference from today selects: today, the day before, the six days
      before that or any later day, and everything earlier. */
  lemma RelativeDateByDistance(dayOf: int -> int, now: int, t: int)
    ensures var d := dayOf(now) - dayOf(t); var r := GetRelativeDate(dayOf, now, Some(t));
      && (r == Today <==> d == 0)
      && (r == Yesterday <==> d == 1)
      && (r == ThisWeek <==> (2 <= d <= 7 || d < 0))
      && (r == Older <==> d > 7)
  {
  }

  /** The sort key of a session: its last message time, now when it has none. */
  function Timestamp(now: int, session: SessionDto): int {
    session.lastMessageAt.GetOr(now)
  }

  function Bucket(dayOf: int -> int, now: int, session: SessionDto): RelativeDate {
    GetRelativeDate(dayOf, now, session.lastMessageAt)
  }

  /** The sessions of group `g`, in input order. */
  function SessionsIn(dayOf: int -> int, now: int, sessions: seq<SessionDto>, g: RelativeDate)
    : (r: seq<SessionDto>)
    ensures forall i | 0 <= i < |r| :: Bucket(dayOf, now, r[i]) == g
  {
    if sessions == [] then []
    else
      var last := sessions[|sessions| - 1];
      assert sessions == sessions[..|sessions| - 1] + [last];
      SessionsIn(dayOf, now, sessions[..|sessions| - 1], g)
        + (if Bucket(dayOf, now, last) == g then [last] else [])
  }

  /** The four groups split the sessions: together they hold every session exactly as often
      as the input does. */
  lemma SessionsPartition(dayOf: int -> int, now: int, sessions: seq<SessionDto>)
    ensures multiset(SessionsIn(dayOf, now, sessions, Today)) + multiset(SessionsIn(dayOf, now, sessions, Yesterday))
      + multiset(SessionsIn(dayOf, now, sessions, ThisWeek)) + multiset(SessionsIn(dayOf, now, sessions, Older))
      == multiset(sessions)
  {
    var all := multiset(SessionsIn(dayOf, now, sessions, Today)) + multiset(SessionsIn(dayOf, now, sessions, Yesterday))
      + multiset(SessionsIn(dayOf, now, sessions, ThisWeek)) + multiset(SessionsIn(dayOf, now, sessions, Older));
    forall x
      ensures all[x] == multiset(sessions)[x]
    {
      SessionsInCount(dayOf, now, sessions, Today, x);
      SessionsInCount(dayOf, now, sessions, Yesterday, x);
      SessionsInCount(dayOf, now, sessions, ThisWeek, x);
      SessionsInCount(dayOf, now, sessions, Older, x);
    }
  }

  /** Group `g` holds each session of that group as often as the input does, and no other. */
  lemma {:induction false} SessionsInCount(dayOf: int -> int, now: int, sessions: seq<SessionDto>,
                                           g: RelativeDate, x: SessionDto)
    ensures multiset(SessionsIn(dayOf, now, sessions, g))[x]
      == if Bucket(dayOf, now, x) == g then multiset(sessions)[x] else 0
  {
    if sessions != [] {
      var init := sessions[..|sessions| - 1];
      var last := sessions[|sessions| - 1];
      SessionsInCount(dayOf, now, init, g, x);
      assert sessions == init + [last];
      var tail := if Bucket(dayOf, now, last) == g then [last] else [];
      assert SessionsIn(dayOf, now, sessions, g) == SessionsIn(dayOf, now, init, g) + tail;
      assert multiset(SessionsIn(dayOf, now, sessions, g))
        == multiset(SessionsIn(dayOf, now, init, g)) + multiset(tail);
      assert multiset(sessions) == multiset(init) + multiset{last};
    }
  }

  /** Sessions newest first. */
  ghost predicate NewestFirst(now: int, s: seq<SessionDto>) {
    forall i, j | 0 <= i < j < |s| :: Timestamp(now, s[i]) >= Timestamp(now, s[j])
  }

  /** Insert `x` in front of the first session that is not newer than it. */
  function InsertNewest(now: int, x: SessionDto, s: seq<SessionDto>): (r: seq<SessionDto>)
    ensures multiset(r) == multiset(s) + multiset{x}
  {
    if s == [] then [x]
    else if Timestamp(now, x) >= Timestamp(now, s[0]) then [x] + s
    else
      assert s == [s[0]] + s[1..];
      [s[0]] + InsertNewest(now, x, s[1..])
  }

  /** The `sessions.sort(...)` of a group: newest first, ties in input order. */
  function SortNewestFirst(now: int, s: seq<SessionDto>): (r: seq<SessionDto>)
    ensures multiset(r) == multiset(s)
  {
    if s == [] then []
    else
      assert s == [s[0]] + s[1..];
      InsertNewest(now, s[0], SortNewestFirst(now, s[1..]))
  }

  lemma {:induction false} InsertNewestSorted(now: int, x: SessionDto, s: seq<SessionDto>)
    requires NewestFirst(now, s)
    ensures NewestFirst(now, InsertNewest(now, x, s))
  {
    if s != [] && Timestamp(now, x) < Timestamp(now, s[0]) {
      var t := InsertNewest(now, x, s[1..]);
      InsertNewestSorted(now, x, s[1..]);
      forall j | 0 <= j < |t|
        ensures Timestamp(now, s[0]) >= Timestamp(now, t[j])
      {
        assert t[j] in multiset(t);
        if t[j] != x {
          assert t[j] in multiset(s[1..]);
          var k :| 0 <= k < |s[1..]| && s[1..][k] == t[j];
          assert s[k + 1] == t[j];
        }
      }
    }
  }

  /** A sorted group is newest first and holds the same sessions. */
  lemma {:induction false} SortNewestFirstSorted(now: int, s: seq<SessionDto>)
    ensures NewestFirst(now, SortNewestFirst(now, s))
  {
    if s != [] {
      SortNewestFirstSorted(now, s[1..]);
      InsertNewestSorted(now, s[0], SortNewestFirst(now, s[1..]));
    }
  }

  datatype GroupedConversations = GroupedConversations(group: RelativeDate, sessions: seq<SessionDto>)

  /** `groups.get(g) ?? []`. */
  function GroupOf(groups: map<RelativeDate, seq<SessionDto>>, g: RelativeDate): seq<SessionDto> {
    if g in groups then groups[g] else []
  }

  /** The `groupOrder.flatMap(...)` step: one entry per group of `order` that has sessions,
      its sessions sorted newest first. */
  function Assemble(now: int, groups: map<RelativeDate, seq<SessionDto>>, order: seq<RelativeDate>)
    : seq<GroupedConversations>
  {
    if order == [] then []
    else
      var ss := GroupOf(groups, order[0]);
      (if |ss| > 0 then [GroupedConversations(order[0], SortNewestFirst(now, ss))] else [])
        + Assemble(now, groups, order[1..])
  }

  /** The groups map the grouping loop builds: each group that has sessions, to its
      sessions in input order. */
  function Grouping(dayOf: int -> int, now: int, sessions: seq<SessionDto>): map<RelativeDate, seq<SessionDto>> {
    map g | g in GroupOrder && SessionsIn(dayOf, now, sessions, g) != [] :: SessionsIn(dayOf, now, sessions, g)
  }

  /** Every group of the grouping map holds that group's sessions. */
  lemma GroupingAt(dayOf: int -> int, now: int, sessions: seq<SessionDto>, g: RelativeDate)
    ensures GroupOf(Grouping(dayOf, now, sessions), g) == SessionsIn(dayOf, now, sessions, g)
  {
    assert GroupOrder[g.Rank()] == g;
  }

  /** Pushing one more session onto its group's entry extends the grouping map. */
  lemma GroupingStep(dayOf: int -> int, now: int, sessions: seq<SessionDto>, x: SessionDto)
    ensures var before := Grouping(dayOf, now, sessions);
      var b := Bucket(dayOf, now, x);
      Grouping(dayOf, now, sessions + [x]) == before[b := GroupOf(before, b) + [x]]
  {
    var before := Grouping(dayOf, now, sessions);
    var after := Grouping(dayOf, now, sessions + [x]);
    var b := Bucket(dayOf, now, x);
    assert (sessions + [x])[..|sessions|] == sessions;
    forall g
      ensures SessionsIn(dayOf, now, sessions + [x], g)
        == SessionsIn(dayOf, now, sessions, g) + (if b == g then [x] else [])
    {
    }
    forall g
      ensures g in after <==> g in before[b := GroupOf(before, b) + [x]]
      ensures g in after ==> after[g] == before[b := GroupOf(before, b) + [x]][g]
    {
      assert GroupOrder[g.Rank()] == g;
      GroupingAt(dayOf, now, sessions, g);
    }
  }

  /** The session groups, in the fixed order Today, Yesterday, This week, Older. */
  method GroupConversationsByDate(dayOf: int -> int, now: int, sessions: seq<SessionDto>)
    returns (result: seq<GroupedConversations>)
    ensures result == Assemble(now, Grouping(dayOf, now, sessions), GroupOrder)
  {
    var groups: map<RelativeDate, seq<SessionDto>> := map[];
    for i := 0 to |sessions|
      invariant groups == Grouping(dayOf, now, sessions[..i])
    {
      assert sessions[..i + 1] == sessions[..i] + [sessions[i]];
      GroupingStep(dayOf, now, sessions[..i], sessions[i]);
      var session := sessions[i];
      var group := GetRelativeDate(dayOf, now, session.lastMessageAt);
      if group !in groups {
        groups := groups[group := []];
      }
      groups := groups[group := groups[group] + [session]];
    }
    assert sessions[..|sessions|] == sessions;
    result := Assemble(now, groups, GroupOrder);
  }

  /** All sessions of a grouping, group after group. */
  function AllSessions(r: seq<GroupedConversations>): seq<SessionDto> {
    if r == [] then [] else r[0].sessions + AllSessions(r[1..])
  }

  /** Every entry of `Assemble` is a group of `order` that has sessions, with those
      sessions sorted newest first. */
  lemma {:induction false} AssembleEntries(now: int, groups: map<RelativeDate, seq<SessionDto>>,
                                           order: seq<RelativeDate>)
    ensures forall i | 0 <= i < |Assemble(now, groups, order)| ::
      && Assemble(now, groups, order)[i].group in order
      && Assemble(now, groups, order)[i].group in groups
      && groups[Assemble(now, groups, order)[i].group] != []
      && Assemble(now, groups, order)[i].sessions
           == SortNewestFirst(now, groups[Assemble(now, groups, order)[i].group])
  {
    if order != [] {
      AssembleEntries(now, groups, order[1..]);
      var r := Assemble(now, groups, order);
      var tail := Assemble(now, groups, order[1..]);
      var ss := GroupOf(groups, order[0]);
      var head := if |ss| > 0 then [GroupedConversations(order[0], SortNewestFirst(now, ss))] else [];
      assert r == head + tail;
      forall i | |head| <= i < |r|
        ensures r[i].group in order
      {
        assert r[i] == tail[i - |head|];
        var k :| 0 <= k < |order[1..]| && order[1..][k] == tail[i - |head|].group;
        assert order[k + 1] == r[i].group;
      }
    }
  }

  /** A bound below every rank of `order` is a bound below every group of `Assemble`. */
  lemma {:induction false} AssembleAbove(now: int, groups: map<RelativeDate, seq<SessionDto>>,
                                         order: seq<RelativeDate>, lo: int)
    requires forall k | 0 <= k < |order| :: lo < order[k].Rank()
    ensures forall i | 0 <= i < |Assemble(now, groups, order)| ::
      lo < Assemble(now, groups, order)[i].group.Rank()
  {
    if order != [] {
      AssembleAbove(now, groups, order[1..], lo);
      var ss := GroupOf(groups, order[0]);
      var tail := Assemble(now, groups, order[1..]);
      if |ss| > 0 {
        assert Assemble(now, groups, order) == [GroupedConversations(order[0], SortNewestFirst(now, ss))] + tail;
      } else {
        assert Assemble(now, groups, order) == tail;
      }
    }
  }

  /** When `order` is strictly increasing in rank, so are the groups of `Assemble`. */
  lemma {:induction false} AssembleOrdered(now: int, groups: map<RelativeDate, seq<SessionDto>>,
                                           order: seq<RelativeDate>)
    requires forall i, j | 0 <= i < j < |order| :: order[i].Rank() < order[j].Rank()
    ensures forall i, j | 0 <= i < j < |Assemble(now, groups, order)| ::
      Assemble(now, groups, order)[i].group.Rank() < Assemble(now, groups, order)[j].group.Rank()
  {
    if order != [] {
      AssembleOrdered(now, groups, order[1..]);
      AssembleAbove(now, groups, order[1..], order[0].Rank());
      var r := Assemble(now, groups, order);
      var tail := Assemble(now, groups, order[1..]);
      var ss := GroupOf(groups, order[0]);
      if |ss| > 0 {
        assert r == [GroupedConversations(order[0], SortNewestFirst(now, ss))] + tail;
        assert forall j | 0 < j < |r| :: r[j] == tail[j - 1];
      } else {
        assert r == tail;
      }
    }
  }

  /** The grouped sessions: groups in the order Today, Yesterday, This week, Older, empty
      groups left out, every group newest first and holding exactly the sessions whose date
      falls in it; together the groups hold every session once. */
  lemma GroupedConversationsShape(dayOf: int -> int, now: int, sessions: seq<SessionDto>)
    ensures var r := Assemble(now, Grouping(dayOf, now, sessions), GroupOrder);
      && (forall i, j | 0 <= i < j < |r| :: r[i].group.Rank() < r[j].group.Rank())
      && (forall i | 0 <= i < |r| :: r[i].sessions != [] && NewestFirst(now, r[i].sessions)
            && multiset(r[i].sessions) == multiset(SessionsIn(dayOf, now, sessions, r[i].group)))
      && (forall i, k | 0 <= i < |r| && 0 <= k < |r[i].sessions| ::
            Bucket(dayOf, now, r[i].sessions[k]) == r[i].group)
      && multiset(AllSessions(r)) == multiset(sessions)
  {
    AssembleOrdered(now, Grouping(dayOf, now, sessions), GroupOrder);
    GroupedEntries(dayOf, now, sessions);
    SessionsPartition(dayOf, now, sessions);
    AllSessionsOfGrouping(dayOf, now, sessions);
  }

  lemma GroupedEntries(dayOf: int -> int, now: int, sessions: seq<SessionDto>)
    ensures var r := Assemble(now, Grouping(dayOf, now, sessions), GroupOrder);
      forall i | 0 <= i < |r| ::
        && r[i].sessions != [] && NewestFirst(now, r[i].sessions)
        && multiset(r[i].sessions) == multiset(SessionsIn(dayOf, now, sessions, r[i].group))
        && forall k | 0 <= k < |r[i].sessions| :: Bucket(dayOf, now, r[i].sessions[k]) == r[i].group
  {
    var r := Assemble(now, Grouping(dayOf, now, sessions), GroupOrder);
    forall i | 0 <= i < |r|
      ensures r[i].sessions != [] && NewestFirst(now, r[i].sessions)
      ensures multiset(r[i].sessions) == multiset(SessionsIn(dayOf, now, sessions, r[i].group))
      ensures forall k | 0 <= k < |r[i].sessions| :: Bucket(dayOf, now, r[i].sessions[k]) == r[i].group
    {
      GroupedEntry(dayOf, now, sessions, i);
    }
  }

  /** One entry of the grouped sessions. */
  lemma GroupedEntry(dayOf: int -> int, now: int, sessions: seq<SessionDto>, i: nat)
    requires i < |Assemble(now, Grouping(dayOf, now, sessions), GroupOrder)|
    ensures var e := Assemble(now, Grouping(dayOf, now, sessions), GroupOrder)[i];
      && e.sessions != [] && NewestFirst(now, e.sessions)
      && multiset(e.sessions) == multiset(SessionsIn(dayOf, now, sessions, e.group))
      && forall k | 0 <= k < |e.sessions| :: Bucket(dayOf, now, e.sessions[k]) == e.group
  {
    var groups := Grouping(dayOf, now, sessions);
    AssembleEntries(now, groups, GroupOrder);
    var e := Assemble(now, groups, GroupOrder)[i];
    var g := e.group;
    var ss := SessionsIn(dayOf, now, sessions, g);
    GroupingAt(dayOf, now, sessions, g);
    assert groups[g] == ss;
    SortNewestFirstSorted(now, ss);
    SameElements(e.sessions, ss);
    forall k | 0 <= k < |e.sessions|
      ensures Bucket(dayOf, now, e.sessions[k]) == g
    {
      assert e.sessions[k] in ss;
    }
  }

  lemma AllSessionsOfGrouping(dayOf: int -> int, now: int, sessions: seq<SessionDto>)
    ensures multiset(AllSessions(Assemble(now, Grouping(dayOf, now, sessions), GroupOrder)))
      == multiset(SessionsIn(dayOf, now, sessions, Today)) + multiset(SessionsIn(dayOf, now, sessions, Yesterday))
      + multiset(SessionsIn(dayOf, now, sessions, ThisWeek)) + multiset(SessionsIn(dayOf, now, sessions, Older))
  {
    var groups := Grouping(dayOf, now, sessions);
    var o3 := [Older];
    var o2 := [ThisWeek, Older];
    var o1 := [Yesterday, ThisWeek, Older];
    assert GroupOrder[1..] == o1 && o1[1..] == o2 && o2[1..] == o3 && o3[1..] == [];
    AllSessionsAppend(now, groups, o3);
    AllSessionsAppend(now, groups, o2);
    AllSessionsAppend(now, groups, o1);
    AllSessionsAppend(now, groups, GroupOrder);
    GroupingAt(dayOf, now, sessions, Today);
    GroupingAt(dayOf, now, sessions, Yesterday);
    GroupingAt(dayOf, now, sessions, ThisWeek);
    GroupingAt(dayOf, now, sessions, Older);
  }

  /** One step of `Assemble`, seen through `AllSessions`: the first group's sessions (sorted,
      so the same multiset) followed by the rest. */
  lemma AllSessionsAppend(now: int, groups: map<RelativeDate, seq<SessionDto>>, order: seq<RelativeDate>)
    requires order != []
    ensures multiset(AllSessions(Assemble(now, groups, order)))
      == multiset(GroupOf(groups, order[0])) + multiset(AllSessions(Assemble(now, groups, order[1..])))
  {
    var ss := GroupOf(groups, order[0]);
    var tail := Assemble(now, groups, order[1..]);
    if |ss| > 0 {
      var head := GroupedConversations(order[0], SortNewestFirst(now, ss));
      assert Assemble(now, groups, order) == [head] + tail;
      assert ([head] + tail)[1..] == tail;
    } else {
      assert Assemble(now, groups, order) == tail;
    }
  }

  // ---------------------------------------------------------------------------------
  // findOneFromModelsResponse

  /** `{ model, provider, workflowId: null }`. */
  datatype PickedModel = PickedModel(model: string, provider: Provider, workflowId: Option<string>)

  /** The first provider, in schema order `providers`, whose model list (the model names of
      `response`) is not empty, with its first model; None when every list is empty. */
  method FindOneFromModelsResponse(providers: seq<Provider>, response: Provider -> seq<string>)
    returns (r: Option<PickedModel>)
    ensures r.None? <==> forall i | 0 <= i < |providers| :: response(providers[i]) == []
    ensures r.Some? ==> exists i | 0 <= i < |providers| ::
      && response(providers[i]) != []
      && (forall j | 0 <= j < i :: response(providers[j]) == [])
      && r.value == PickedModel(response(providers[i])[0], providers[i], None)
  {
    for i := 0 to |providers|
      invariant forall j | 0 <= j < i :: response(providers[j]) == []
    {
      var provider := providers[i];
      if |response(provider)| > 0 {
        return Some(PickedModel(response(provider)[0], provider, None));
      }
    }
    return None;
  }
}
