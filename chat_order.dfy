/** The order of sibling messages (`sortByRunThenTime`): creation time first, then id.
    Ids are compared as JavaScript compares strings, here character by character (Unicode
    scalar values), which agrees with JavaScript's UTF-16 code-unit order on ids within the
    Basic Multilingual Plane, such as UUIDs. */
module ChatOrder {
  import opened Common

  /** JavaScript's `a < b` on strings: lexicographic, a proper prefix comes first. */
  predicate StrLess(a: string, b: string) {
    if a == [] then b != []
    else if b == [] then false
    else if a[0] != b[0] then a[0] < b[0]
    else StrLess(a[1..], b[1..])
  }

  lemma {:induction false} StrLessIrreflexive(a: string)
    ensures !StrLess(a, a)
  {
    if a != [] {
      StrLessIrreflexive(a[1..]);
    }
  }

  lemma {:induction false} StrLessAsymmetric(a: string, b: string)
    ensures !(StrLess(a, b) && StrLess(b, a))
  {
    if a != [] && b != [] && a[0] == b[0] {
      StrLessAsymmetric(a[1..], b[1..]);
    }
  }

  lemma {:induction false} StrLessTransitive(a: string, b: string, c: string)
    requires StrLess(a, b) && StrLess(b, c)
    ensures StrLess(a, c)
  {
    if a != [] && b != [] && c != [] && a[0] == b[0] && b[0] == c[0] {
      StrLessTransitive(a[1..], b[1..], c[1..]);
    }
  }

  lemma {:induction false} StrLessTotal(a: string, b: string)
    requires a != b
    ensures StrLess(a, b) || StrLess(b, a)
  {
    if a != [] && b != [] && a[0] == b[0] {
      assert a == [a[0]] + a[1..] && b == [b[0]] + b[1..];
      StrLessTotal(a[1..], b[1..]);
    }
  }

  /** The sibling comparator: negative when `a` sorts first. It never answers 0. */
  function SortByRunThenTime(a: ChatMessage, b: ChatMessage): int {
    if a.createdAt != b.createdAt then
      (if a.createdAt < b.createdAt then -1 else 1)
    else if StrLess(a.id, b.id) then -1 else 1
  }

  /** `a` sorts strictly before `b`. */
  predicate Before(a: ChatMessage, b: ChatMessage) {
    SortByRunThenTime(a, b) < 0
  }

  /** On messages with distinct ids the comparator is a strict total order: exactly one
      of two messages comes first, and the order is transitive. The order is creation
      time ascending with ties broken by id ascending. */
  lemma ComparatorIsOrder(a: ChatMessage, b: ChatMessage, c: ChatMessage)
    ensures a.id != b.id ==> (Before(a, b) <==> !Before(b, a))
    ensures a.id != b.id ==> (Before(a, b) <==>
      a.createdAt < b.createdAt || (a.createdAt == b.createdAt && StrLess(a.id, b.id)))
    ensures Before(a, b) && Before(b, c) ==> Before(a, c)
    ensures !Before(a, a)
  {
    StrLessIrreflexive(a.id);
    StrLessAsymmetric(a.id, b.id);
    if a.id != b.id {
      StrLessTotal(a.id, b.id);
    }
    if Before(a, b) && Before(b, c) && a.createdAt == b.createdAt && b.createdAt == c.createdAt {
      StrLessTransitive(a.id, b.id, c.id);
    }
  }

  /** Ids that all name stored messages, each stored under its own id. */
  ghost predicate KeyedIds(m: map<Id, ChatMessage>, ids: seq<Id>) {
    forall i | 0 <= i < |ids| :: ids[i] in m && m[ids[i]].id == ids[i]
  }

  /** The ids, in the order of their messages. */
  ghost predicate SortedIds(m: map<Id, ChatMessage>, ids: seq<Id>)
    requires forall i | 0 <= i < |ids| :: ids[i] in m
  {
    forall i, j | 0 <= i < j < |ids| :: Before(m[ids[i]], m[ids[j]])
  }

  /** Insert `x` into an id list sorted by message order. */
  function InsertId(m: map<Id, ChatMessage>, x: Id, s: seq<Id>): (r: seq<Id>)
    requires x in m && forall i | 0 <= i < |s| :: s[i] in m
    ensures multiset(r) == multiset(s) + multiset{x}
    ensures forall i | 0 <= i < |r| :: r[i] in m
  {
    if s == [] then [x]
    else if Before(m[x], m[s[0]]) then [x] + s
    else
      assert s == [s[0]] + s[1..];
      [s[0]] + InsertId(m, x, s[1..])
  }

  lemma {:induction false} InsertIdSorted(m: map<Id, ChatMessage>, x: Id, s: seq<Id>)
    requires KeyedIds(m, s) && x in m && m[x].id == x && x !in s
    requires SortedIds(m, s)
    ensures SortedIds(m, InsertId(m, x, s))
  {
    if s == [] {
    } else if Before(m[x], m[s[0]]) {
      forall j | 0 < j < |s|
        ensures Before(m[x], m[s[j]])
      {
        ComparatorIsOrder(m[x], m[s[0]], m[s[j]]);
      }
      ConsSorted(m, x, s);
    } else {
      assert s[0] != x;
      ComparatorIsOrder(m[x], m[s[0]], m[x]);
      InsertIdSorted(m, x, s[1..]);
      assert forall k | 0 <= k < |s[1..]| :: s[1..][k] == s[k + 1];
      InsertIdAbove(m, m[s[0]], x, s[1..]);
      ConsSorted(m, s[0], InsertId(m, x, s[1..]));
    }
  }

  /** A message before every element of a sorted list can go in front of it. */
  lemma ConsSorted(m: map<Id, ChatMessage>, h: Id, t: seq<Id>)
    requires h in m && forall i | 0 <= i < |t| :: t[i] in m
    requires SortedIds(m, t) && forall i | 0 <= i < |t| :: Before(m[h], m[t[i]])
    ensures SortedIds(m, [h] + t)
  {
    assert forall i | 0 < i < |[h] + t| :: ([h] + t)[i] == t[i - 1];
  }

  /** A message before `x` and before every element of `s` is before every element of the
      insertion. */
  lemma {:induction false} InsertIdAbove(m: map<Id, ChatMessage>, b: ChatMessage, x: Id, s: seq<Id>)
    requires x in m && forall i | 0 <= i < |s| :: s[i] in m
    requires Before(b, m[x]) && forall i | 0 <= i < |s| :: Before(b, m[s[i]])
    ensures forall i | 0 <= i < |InsertId(m, x, s)| :: Before(b, m[InsertId(m, x, s)[i]])
  {
    if s != [] && !Before(m[x], m[s[0]]) {
      InsertIdAbove(m, b, x, s[1..]);
      assert InsertId(m, x, s) == [s[0]] + InsertId(m, x, s[1..]);
    }
  }

  /** The ids sorted by the sibling comparator (the `.sort(sortByRunThenTime)` step). */
  function SortIds(m: map<Id, ChatMessage>, ids: seq<Id>): (r: seq<Id>)
    requires forall i | 0 <= i < |ids| :: ids[i] in m
    ensures multiset(r) == multiset(ids)
    ensures forall i | 0 <= i < |r| :: r[i] in m
  {
    if ids == [] then []
    else
      assert ids == [ids[0]] + ids[1..];
      InsertId(m, ids[0], SortIds(m, ids[1..]))
  }

  /** Sorting distinct stored ids orders them strictly by creation time, then id, and
      keeps exactly the same ids. */
  lemma {:induction false} SortIdsSorted(m: map<Id, ChatMessage>, ids: seq<Id>)
    requires KeyedIds(m, ids) && NoDup(ids)
    ensures SortedIds(m, SortIds(m, ids))
    ensures KeyedIds(m, SortIds(m, ids)) && NoDup(SortIds(m, ids))
  {
    var r := SortIds(m, ids);
    if ids != [] {
      var rest := SortIds(m, ids[1..]);
      SortIdsSorted(m, ids[1..]);
      assert ids[0] !in ids[1..];
      assert ids[0] !in multiset(ids[1..]);
      assert ids[0] !in rest;
      InsertIdSorted(m, ids[0], rest);
    }
    forall i | 0 <= i < |r|
      ensures r[i] in m && m[r[i]].id == r[i]
    {
      assert r[i] in multiset(ids);
    }
    forall i, j | 0 <= i < j < |r|
      ensures r[i] != r[j]
    {
      ComparatorIsOrder(m[r[i]], m[r[i]], m[r[i]]);
    }
  }
}
