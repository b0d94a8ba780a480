/** The message DAG of a conversation: a flat map from message id to the id the message
    replies to (`previousMessageId`). Both the client's branch navigator and the server's
    history builder walk these back-links; this module holds what they share. */
module MessageDag {
  import opened Common

  /** The back-link of every stored message. */
  type Links = map<Id, Option<Id>>

  /** The back-links of a record of messages of any kind, `prev` reading a message's
      `previousMessageId`. */
  function LinksBy<M>(messages: map<Id, M>, prev: M -> Option<Id>): (links: Links)
    ensures links.Keys == messages.Keys
    ensures forall id | id in links :: links[id] == prev(messages[id])
  {
    map id | id in messages :: prev(messages[id])
  }

  /** The back-links of a client messages record. */
  function LinksOf(messages: map<Id, ChatMessage>): (links: Links)
    ensures links.Keys == messages.Keys
    ensures forall id | id in links :: links[id] == messages[id].previousMessageId
  {
    LinksBy(messages, (m: ChatMessage) => m.previousMessageId)
  }

  /** Follow back-links from `id` for at most `fuel` messages: `Some(root .. id)` when a
      root is reached through stored messages only. */
  function RootPath(links: Links, id: Id, fuel: nat): Option<seq<Id>>
    decreases fuel
  {
    if fuel == 0 || id !in links then None
    else match links[id]
      case None => Some([id])
      case Some(p) =>
        match RootPath(links, p, fuel - 1)
        case None => None
        case Some(path) => Some(path + [id])
  }

  /** The back-links are closed (every `previousMessageId` is a stored message) and
      acyclic: from every message they lead to a root. */
  ghost predicate Rooted(links: Links) {
    forall id | id in links :: exists fuel: nat :: RootPath(links, id, fuel).Some?
  }

  /** The path does not depend on the fuel, once there is enough of it. */
  lemma {:induction false} RootPathUnique(links: Links, id: Id, f1: nat, f2: nat)
    requires RootPath(links, id, f1).Some? && RootPath(links, id, f2).Some?
    ensures RootPath(links, id, f1) == RootPath(links, id, f2)
    decreases f1
  {
    if links[id].Some? {
      RootPathUnique(links, links[id].value, f1 - 1, f2 - 1);
    }
  }

  /** A path found by `RootPath` runs through stored messages only. */
  lemma {:induction false} RootPathStored(links: Links, id: Id, fuel: nat)
    requires RootPath(links, id, fuel).Some?
    ensures forall i | 0 <= i < |RootPath(links, id, fuel).value| :: RootPath(links, id, fuel).value[i] in links
    decreases fuel
  {
    if links[id].Some? {
      RootPathStored(links, links[id].value, fuel - 1);
    }
  }

  /** The ids from the root down to `id`. */
  ghost function Lineage(links: Links, id: Id): (path: seq<Id>)
    requires Rooted(links) && id in links
    ensures exists fuel: nat :: RootPath(links, id, fuel) == Some(path)
    ensures forall i | 0 <= i < |path| :: path[i] in links
  {
    var fuel: nat :| RootPath(links, id, fuel).Some?;
    RootPathStored(links, id, fuel);
    RootPath(links, id, fuel).value
  }

  /** One back-link step of the lineage. */
  lemma LineageStep(links: Links, id: Id)
    requires Rooted(links) && id in links
    ensures links[id].None? ==> Lineage(links, id) == [id]
    ensures links[id].Some? ==>
      links[id].value in links && Lineage(links, id) == Lineage(links, links[id].value) + [id]
  {
    var fuel: nat :| RootPath(links, id, fuel) == Some(Lineage(links, id));
    if links[id].Some? {
      var p := links[id].value;
      assert RootPath(links, p, fuel - 1).Some?;
      var g: nat :| RootPath(links, p, g) == Some(Lineage(links, p));
      RootPathUnique(links, p, fuel - 1, g);
    }
  }

  /** The lineage starts at a root, ends at `id`, and each element's back-link is the
      element before it. */
  lemma {:induction false} LineageShape(links: Links, id: Id)
    requires Rooted(links) && id in links
    ensures var path := Lineage(links, id);
      && |path| > 0 && path[|path| - 1] == id
      && (forall i | 0 <= i < |path| :: path[i] in links)
      && links[path[0]].None?
      && (forall i | 0 < i < |path| :: links[path[i]] == Some(path[i - 1]))
    decreases |Lineage(links, id)|
  {
    LineageStep(links, id);
    if links[id].Some? {
      LineageShape(links, links[id].value);
    }
  }

  /** Every prefix of a lineage is the lineage of its last element. */
  lemma {:induction false} LineagePrefix(links: Links, id: Id, i: nat)
    requires Rooted(links) && id in links && i < |Lineage(links, id)|
    ensures Lineage(links, id)[i] in links
    ensures Lineage(links, Lineage(links, id)[i]) == Lineage(links, id)[..i + 1]
    decreases |Lineage(links, id)|
  {
    var path := Lineage(links, id);
    LineageStep(links, id);
    LineageShape(links, id);
    if i == |path| - 1 {
      assert path[..i + 1] == path;
    } else {
      var p := links[id].value;
      LineagePrefix(links, p, i);
      assert path[i] == Lineage(links, p)[i];
      assert path[..i + 1] == Lineage(links, p)[..i + 1];
    }
  }

  /** A lineage never repeats an id. */
  lemma LineageNoDup(links: Links, id: Id)
    requires Rooted(links) && id in links
    ensures NoDup(Lineage(links, id))
  {
    var path := Lineage(links, id);
    forall i, j | 0 <= i < j < |path|
      ensures path[i] != path[j]
    {
      LineagePrefix(links, id, i);
      LineagePrefix(links, id, j);
    }
  }

  /** `d` is `a` or one of its descendants. */
  ghost predicate DescendsFrom(links: Links, a: Id, d: Id)
    requires Rooted(links)
  {
    d in links && a in Lineage(links, d)
  }

  /** A reply to a descendant of `a` is a descendant of `a`, and never `a` itself. */
  lemma ReplyDescends(links: Links, a: Id, s: Id, c: Id)
    requires Rooted(links) && DescendsFrom(links, a, s)
    requires c in links && links[c] == Some(s)
    ensures DescendsFrom(links, a, c) && c != a
  {
    LineageStep(links, c);
    var i :| 0 <= i < |Lineage(links, s)| && Lineage(links, s)[i] == a;
    LineagePrefix(links, s, i);
  }

  /** A set that holds `a` and every reply to its members holds every descendant of `a`. */
  lemma DescendantsClosed(links: Links, a: Id, s: set<Id>)
    requires Rooted(links) && a in s
    requires forall c | c in links && links[c].Some? && links[c].value in s :: c in s
    ensures forall d | d in links && DescendsFrom(links, a, d) :: d in s
  {
    forall d | d in links && DescendsFrom(links, a, d)
      ensures d in s
    {
      DescendantInClosed(links, a, s, d);
    }
  }

  lemma {:induction false} DescendantInClosed(links: Links, a: Id, s: set<Id>, d: Id)
    requires Rooted(links) && a in s
    requires forall c | c in links && links[c].Some? && links[c].value in s :: c in s
    requires d in links && DescendsFrom(links, a, d)
    ensures d in s
    decreases |Lineage(links, d)|
  {
    LineageStep(links, d);
    if d != a {
      var p := links[d].value;
      assert a in Lineage(links, p);
      DescendantInClosed(links, a, s, p);
    }
  }

  /** The walk of the server's history builder: take `current`, mark it visited, step to its
      back-link (to nothing when `current` is not stored), and stop at nothing or at an id
      already visited. The ids come out root first. */
  function BackWalk(links: Links, current: Option<Id>, visited: set<Id>): seq<Id>
    decreases links.Keys - visited, if current.Some? then 1 else 0
  {
    if current.None? || current.value in visited then []
    else
      var id := current.value;
      var next := if id in links then links[id] else None;
      assert id in links ==> (links.Keys - (visited + {id})) < (links.Keys - visited);
      assert id !in links ==> (links.Keys - (visited + {id})) == (links.Keys - visited);
      BackWalk(links, next, visited + {id}) + [id]
  }

  /** The walk ends at its start, repeats nothing, avoids `visited`, and every element
      after the first is stored and links back to the element before it. */
  lemma {:induction false} BackWalkShape(links: Links, current: Option<Id>, visited: set<Id>)
    ensures var w := BackWalk(links, current, visited);
      && (w == [] <==> current.None? || current.value in visited)
      && (w != [] ==> w[|w| - 1] == current.value)
      && NoDup(w)
      && (forall i | 0 <= i < |w| :: w[i] !in visited)
      && (forall i | 0 < i < |w| :: w[i] in links && links[w[i]] == Some(w[i - 1]))
    decreases links.Keys - visited, if current.Some? then 1 else 0
  {
    if current.Some? && current.value !in visited {
      var id := current.value;
      var next := if id in links then links[id] else None;
      assert id in links ==> (links.Keys - (visited + {id})) < (links.Keys - visited);
      assert id !in links ==> (links.Keys - (visited + {id})) == (links.Keys - visited);
      BackWalkShape(links, next, visited + {id});
      var rest := BackWalk(links, next, visited + {id});
      var w := BackWalk(links, current, visited);
      assert w == rest + [id];
      forall i | 0 < i < |w|
        ensures w[i] in links && links[w[i]] == Some(w[i - 1])
      {
        if i == |w| - 1 {
          assert rest != [] && rest[|rest| - 1] == next.value;
        }
      }
    }
  }

  /** Only the first id of a walk can be missing from the store. */
  lemma BackWalkStoredTail(links: Links, current: Option<Id>, visited: set<Id>, i: nat)
    requires 0 < i < |BackWalk(links, current, visited)|
    ensures BackWalk(links, current, visited)[i] in links
  {
    BackWalkShape(links, current, visited);
  }

  /** On a rooted conversation the walk from a stored message is its lineage, provided
      no id of the lineage has been visited. */
  lemma {:induction false} BackWalkIsLineage(links: Links, id: Id, visited: set<Id>)
    requires Rooted(links) && id in links
    requires forall i | 0 <= i < |Lineage(links, id)| :: Lineage(links, id)[i] !in visited
    ensures BackWalk(links, Some(id), visited) == Lineage(links, id)
    decreases |Lineage(links, id)|
  {
    LineageStep(links, id);
    LineageShape(links, id);
    LineageNoDup(links, id);
    var path := Lineage(links, id);
    assert id !in visited by { assert path[|path| - 1] == id; }
    if links[id].Some? {
      var p := links[id].value;
      var pp := Lineage(links, p);
      forall i | 0 <= i < |pp|
        ensures pp[i] !in visited + {id}
      {
        assert pp[i] == path[i];
        assert path[|path| - 1] == id;
      }
      BackWalkIsLineage(links, p, visited + {id});
    }
  }
}
