/** The worklist's orderings: one comparator for every key and direction, and the arrangement it determines. */
module Sorting {
  import opened Items
  import Scoring

  datatype SortKey =
    | ByRank | ByPriority | ByImpact | ByRelevance | ByEngagement | ByUrgency | ByUpdated
    | Unregistered(name: string)
  {
    predicate Registered() { !Unregistered? }
  }

  function CmpInt(a: int, b: int): int { if a < b then -1 else if a > b then 1 else 0 }

  function CmpReal(a: real, b: real): int { if a < b then -1 else if a > b then 1 else 0 }

  /** Strings compare character by character, a proper prefix first. */
  function CmpString(a: string, b: string): int {
    if a == [] || b == [] then CmpInt(|a|, |b|)
    else if a[0] != b[0] then (if a[0] < b[0] then -1 else 1)
    else CmpString(a[1..], b[1..])
  }

  /** The registered comparators, ascending. */
  function Compare(key: SortKey, a: WorkItem, b: WorkItem): int {
    match key
    case ByRank => CmpReal(a.meta.rank, b.meta.rank)
    case ByImpact => CmpReal(a.meta.impact, b.meta.impact)
    case ByRelevance => CmpReal(a.meta.relevance, b.meta.relevance)
    case ByEngagement => CmpReal(a.meta.engagement, b.meta.engagement)
    case ByUrgency => CmpReal(a.meta.urgency, b.meta.urgency)
    case ByPriority => CmpInt(Scoring.PriorityWeight(a.meta.priority), Scoring.PriorityWeight(b.meta.priority))
    case ByUpdated => CmpInt(a.githubUpdatedAt, b.githubUpdatedAt)
    case Unregistered(_) => 0
  }

  /** Unread replies first; then the key in its direction; then the latest update; then the id. */
  function Order(key: SortKey, desc: bool, a: WorkItem, b: WorkItem): int {
    if HasUnreadReply(a) != HasUnreadReply(b) then (if HasUnreadReply(a) then -1 else 1)
    else
      var c := if desc then -Compare(key, a, b) else Compare(key, a, b);
      if c != 0 then c
      else
        var t := CmpInt(b.githubUpdatedAt, a.githubUpdatedAt);
        if t != 0 then t else CmpString(a.id, b.id)
  }

  // -------------------------------------------------------------------------
  // A total order, strict on different ids
  // -------------------------------------------------------------------------

  lemma {:induction false} StringsFlip(a: string, b: string)
    ensures CmpString(a, b) == -CmpString(b, a)
    ensures CmpString(a, b) == 0 <==> a == b
  {
    if a != [] && b != [] && a[0] == b[0] {
      StringsFlip(a[1..], b[1..]);
      assert a == [a[0]] + a[1..] && b == [b[0]] + b[1..];
    }
  }

  lemma {:induction false} StringsChain(a: string, b: string, c: string)
    requires CmpString(a, b) <= 0 && CmpString(b, c) <= 0
    ensures CmpString(a, c) <= 0
  {
    if a != [] && b != [] && c != [] && a[0] == b[0] == c[0] {
      StringsChain(a[1..], b[1..], c[1..]);
    }
  }

  lemma CompareChain(key: SortKey, a: WorkItem, b: WorkItem, c: WorkItem)
    ensures Compare(key, a, b) == -Compare(key, b, a)
    ensures Compare(key, a, b) <= 0 && Compare(key, b, c) <= 0 ==>
      Compare(key, a, c) <= 0 && (Compare(key, a, c) == 0 ==> Compare(key, a, b) == Compare(key, b, c) == 0)
  {
    hide Scoring.PriorityWeight;
  }

  lemma OrderFlips(key: SortKey, desc: bool, a: WorkItem, b: WorkItem)
    ensures Order(key, desc, a, b) == -Order(key, desc, b, a)
    ensures Order(key, desc, a, b) == 0 ==> a.id == b.id
    ensures Order(key, desc, a, a) == 0
  {
    hide Compare, CmpString, HasUnreadReply;
    CompareChain(key, a, b, b);
    CompareChain(key, a, a, a);
    StringsFlip(a.id, b.id);
    StringsFlip(a.id, a.id);
  }

  lemma OrderChains(key: SortKey, desc: bool, a: WorkItem, b: WorkItem, c: WorkItem)
    requires Order(key, desc, a, b) <= 0 && Order(key, desc, b, c) <= 0
    ensures Order(key, desc, a, c) <= 0
  {
    hide Compare, CmpString, HasUnreadReply;
    CompareChain(key, a, b, c);
    CompareChain(key, b, a, a);
    CompareChain(key, c, b, a);
    CompareChain(key, c, a, a);
    if a.githubUpdatedAt == b.githubUpdatedAt == c.githubUpdatedAt {
      if CmpString(a.id, b.id) <= 0 && CmpString(b.id, c.id) <= 0 {
        StringsChain(a.id, b.id, c.id);
      }
    }
  }

  predicate Before(key: SortKey, desc: bool, a: WorkItem, b: WorkItem) { Order(key, desc, a, b) < 0 }

  /** For every key and direction the comparator is a strict total order on items with different ids. */
  lemma StrictTotalOrder(key: SortKey, desc: bool, a: WorkItem, b: WorkItem, c: WorkItem)
    ensures !Before(key, desc, a, a)
    ensures Before(key, desc, a, b) && Before(key, desc, b, c) ==> Before(key, desc, a, c)
    ensures a.id != b.id ==> Before(key, desc, a, b) != Before(key, desc, b, a)
  {
    hide Order;
    OrderFlips(key, desc, a, b);
    OrderFlips(key, desc, b, c);
    OrderFlips(key, desc, a, c);
    if Before(key, desc, a, b) && Before(key, desc, b, c) {
      OrderChains(key, desc, a, b, c);
      if Order(key, desc, a, c) == 0 {
        OrderChains(key, desc, c, a, b);
      }
    }
  }

  // -------------------------------------------------------------------------
  // The order on the items' own fields
  // -------------------------------------------------------------------------

  /** High above medium above low above none. */
  predicate HigherPriority(a: Priority, b: Priority) {
    match a
    case PriorityHigh => b != PriorityHigh
    case PriorityMedium => b == PriorityLow || b == PriorityNone
    case PriorityLow => b == PriorityNone
    case PriorityNone => false
  }

  /** `a` has the higher value of the key. */
  predicate Higher(key: SortKey, a: WorkItem, b: WorkItem) {
    match key
    case ByRank => a.meta.rank > b.meta.rank
    case ByPriority => HigherPriority(a.meta.priority, b.meta.priority)
    case ByImpact => a.meta.impact > b.meta.impact
    case ByRelevance => a.meta.relevance > b.meta.relevance
    case ByEngagement => a.meta.engagement > b.meta.engagement
    case ByUrgency => a.meta.urgency > b.meta.urgency
    case ByUpdated => a.githubUpdatedAt > b.githubUpdatedAt
    case Unregistered(_) => false
  }

  /** `a` is before `b` in the dictionary: a proper prefix, or smaller at the first difference. */
  ghost predicate DictionaryBefore(a: string, b: string) {
    exists k :: 0 <= k <= |a| && k < |b| && a[..k] == b[..k] && (k == |a| || a[k] < b[k])
  }

  lemma PrefixHeads(a: string, b: string, k: nat)
    requires k <= |a| && k <= |b| && a[..k] == b[..k]
    ensures k > 0 ==> a[0] == b[0]
  {
    assert k > 0 ==> a[..k][0] == a[0] && b[..k][0] == b[0];
  }

  lemma {:induction false} CmpStringMeaning(a: string, b: string)
    ensures CmpString(a, b) < 0 <==> DictionaryBefore(a, b)
  {
    if a == [] || b == [] {
      if a == [] && b != [] {
        assert a[..0] == b[..0];
      }
    } else if a[0] != b[0] {
      if a[0] < b[0] {
        assert a[..0] == b[..0];
      }
      if DictionaryBefore(a, b) {
        var k :| 0 <= k <= |a| && k < |b| && a[..k] == b[..k] && (k == |a| || a[k] < b[k]);
        PrefixHeads(a, b, k);
      }
    } else {
      CmpStringMeaning(a[1..], b[1..]);
      if DictionaryBefore(a[1..], b[1..]) {
        var k :| 0 <= k <= |a[1..]| && k < |b[1..]| && a[1..][..k] == b[1..][..k] && (k == |a[1..]| || a[1..][k] < b[1..][k]);
        assert a[..k + 1] == [a[0]] + a[1..][..k] && b[..k + 1] == [b[0]] + b[1..][..k];
      }
      if DictionaryBefore(a, b) {
        var k :| 0 <= k <= |a| && k < |b| && a[..k] == b[..k] && (k == |a| || a[k] < b[k]);
        assert a[1..][..k - 1] == a[..k][1..] && b[1..][..k - 1] == b[..k][1..];
      }
    }
  }

  lemma CompareHigher(key: SortKey, a: WorkItem, b: WorkItem)
    ensures Compare(key, a, b) > 0 <==> Higher(key, a, b)
    ensures Compare(key, a, b) < 0 <==> Higher(key, b, a)
  {
  }

  /**
   * An item comes before another if and only if it alone has an unread reply; or both or neither have and it is
   * higher by the key, lower when ascending; or, level there, it was updated later; or, level there too, its id
   * is before the other's in the dictionary.
   */
  lemma BeforeWritten(key: SortKey, desc: bool, a: WorkItem, b: WorkItem)
    ensures Before(key, desc, a, b) <==>
      || (HasUnreadReply(a) && !HasUnreadReply(b))
      || ((HasUnreadReply(a) <==> HasUnreadReply(b))
          && (|| (if desc then Higher(key, a, b) else Higher(key, b, a))
              || (!Higher(key, a, b) && !Higher(key, b, a)
                  && (a.githubUpdatedAt > b.githubUpdatedAt
                      || (a.githubUpdatedAt == b.githubUpdatedAt && DictionaryBefore(a.id, b.id))))))
  {
    CmpStringMeaning(a.id, b.id);
    CompareHigher(key, a, b);
    hide Compare, CmpString, HasUnreadReply, DictionaryBefore, Higher;
  }

  // -------------------------------------------------------------------------
  // The arrangement of a stable sort
  // -------------------------------------------------------------------------

  predicate Sorted(key: SortKey, desc: bool, s: seq<WorkItem>) {
    forall i, j :: 0 <= i < j < |s| ==> Order(key, desc, s[i], s[j]) <= 0
  }

  /** Puts `x` behind every item that does not come after it. */
  function Insert(key: SortKey, desc: bool, s: seq<WorkItem>, x: WorkItem): seq<WorkItem> {
    if s == [] || Order(key, desc, s[|s| - 1], x) <= 0 then s + [x]
    else Insert(key, desc, s[..|s| - 1], x) + [s[|s| - 1]]
  }

  /** The result of a stable sort by the comparator. */
  function Arranged(key: SortKey, desc: bool, s: seq<WorkItem>): seq<WorkItem> {
    if s == [] then [] else Insert(key, desc, Arranged(key, desc, s[..|s| - 1]), s[|s| - 1])
  }

  lemma {:induction false} InsertPermutes(key: SortKey, desc: bool, s: seq<WorkItem>, x: WorkItem)
    ensures multiset(Insert(key, desc, s, x)) == multiset(s) + multiset{x}
  {
    hide Order;
    if s != [] && Order(key, desc, s[|s| - 1], x) > 0 {
      InsertPermutes(key, desc, s[..|s| - 1], x);
      assert s == s[..|s| - 1] + [s[|s| - 1]];
    }
  }

  lemma SortedAppend(key: SortKey, desc: bool, s: seq<WorkItem>, x: WorkItem)
    requires Sorted(key, desc, s) && forall y :: y in s ==> Order(key, desc, y, x) <= 0
    ensures Sorted(key, desc, s + [x])
  {
    hide Order;
  }

  lemma SortedPrefix(key: SortKey, desc: bool, s: seq<WorkItem>, n: nat)
    requires Sorted(key, desc, s) && n <= |s|
    ensures Sorted(key, desc, s[..n])
    ensures n < |s| ==> forall y :: y in s[..n] ==> Order(key, desc, y, s[n]) <= 0
  {
    hide Order;
  }

  lemma {:induction false} InsertSorts(key: SortKey, desc: bool, s: seq<WorkItem>, x: WorkItem)
    requires Sorted(key, desc, s)
    ensures Sorted(key, desc, Insert(key, desc, s, x))
  {
    hide Order, Sorted;
    if s == [] {
      SortedAppend(key, desc, s, x);
    } else {
      var front, last := s[..|s| - 1], s[|s| - 1];
      SortedPrefix(key, desc, s, |s| - 1);
      assert forall y :: y in s ==> y in front || y == last;
      if Order(key, desc, last, x) <= 0 {
        forall y | y in front
          ensures Order(key, desc, y, x) <= 0
        {
          OrderChains(key, desc, y, last, x);
        }
        SortedAppend(key, desc, s, x);
      } else {
        OrderFlips(key, desc, last, x);
        InsertSorts(key, desc, front, x);
        InsertPermutes(key, desc, front, x);
        var r := Insert(key, desc, front, x);
        forall y | y in r
          ensures Order(key, desc, y, last) <= 0
        {
          assert y in multiset(r);
        }
        SortedAppend(key, desc, r, last);
      }
    }
  }

  lemma SortedEmpty(key: SortKey, desc: bool)
    ensures Sorted(key, desc, [])
  {
  }

  /** Sorting permutes the items and leaves them in order. */
  lemma {:induction false} ArrangedMeaning(key: SortKey, desc: bool, s: seq<WorkItem>)
    ensures multiset(Arranged(key, desc, s)) == multiset(s)
    ensures Sorted(key, desc, Arranged(key, desc, s))
  {
    hide Order, Insert, Sorted;
    if s == [] {
      SortedEmpty(key, desc);
    } else {
      ArrangedMeaning(key, desc, s[..|s| - 1]);
      InsertPermutes(key, desc, Arranged(key, desc, s[..|s| - 1]), s[|s| - 1]);
      InsertSorts(key, desc, Arranged(key, desc, s[..|s| - 1]), s[|s| - 1]);
      assert s == s[..|s| - 1] + [s[|s| - 1]];
    }
  }

  lemma ArrangedLength(key: SortKey, desc: bool, s: seq<WorkItem>)
    ensures |Arranged(key, desc, s)| == |s|
  {
    hide Arranged;
    ArrangedMeaning(key, desc, s);
    assert |multiset(Arranged(key, desc, s))| == |multiset(s)|;
  }

  /** The items that tie with `y`, in the order they stand. */
  function Ties(key: SortKey, desc: bool, s: seq<WorkItem>, y: WorkItem): seq<WorkItem> {
    if s == [] then []
    else Ties(key, desc, s[..|s| - 1], y) + (if Order(key, desc, s[|s| - 1], y) == 0 then [s[|s| - 1]] else [])
  }

  lemma TiesAppend(key: SortKey, desc: bool, s: seq<WorkItem>, x: WorkItem, y: WorkItem)
    ensures Ties(key, desc, s + [x], y) == Ties(key, desc, s, y) + (if Order(key, desc, x, y) == 0 then [x] else [])
  {
    hide Order;
    assert (s + [x])[..|s|] == s;
  }

  /** Two items of different standing cannot both tie with a third. */
  lemma NotBoth(key: SortKey, desc: bool, a: WorkItem, y: WorkItem, b: WorkItem)
    requires Order(key, desc, a, b) > 0 && Order(key, desc, y, b) == 0
    ensures Order(key, desc, a, y) != 0
  {
    hide Order;
    if Order(key, desc, a, y) == 0 {
      OrderChains(key, desc, a, y, b);
    }
  }

  lemma {:induction false} InsertTies(key: SortKey, desc: bool, s: seq<WorkItem>, x: WorkItem, y: WorkItem)
    ensures Ties(key, desc, Insert(key, desc, s, x), y) == Ties(key, desc, s + [x], y)
  {
    hide Order, Ties;
    if s != [] && Order(key, desc, s[|s| - 1], x) > 0 {
      var front, last := s[..|s| - 1], s[|s| - 1];
      assert s == front + [last];
      InsertTies(key, desc, front, x, y);
      TiesAppend(key, desc, front, x, y);
      TiesAppend(key, desc, front, last, y);
      TiesAppend(key, desc, s, x, y);
      TiesAppend(key, desc, Insert(key, desc, front, x), last, y);
      if Order(key, desc, x, y) == 0 {
        OrderFlips(key, desc, x, y);
        NotBoth(key, desc, last, y, x);
      }
    }
  }

  /** Sorting is stable: items that tie keep the order they came in. */
  lemma {:induction false} ArrangedStable(key: SortKey, desc: bool, s: seq<WorkItem>, y: WorkItem)
    ensures Ties(key, desc, Arranged(key, desc, s), y) == Ties(key, desc, s, y)
  {
    hide Order, Insert, Sorted;
    if s != [] {
      var front, last := s[..|s| - 1], s[|s| - 1];
      ArrangedStable(key, desc, front, y);
      var a := Arranged(key, desc, front);
      InsertTies(key, desc, a, last, y);
      assert (a + [last])[..|a|] == a;
    }
  }

  /** Sort: an unknown key is refused, otherwise the first `n` items are put in order where they are. */
  method Sort(items: array<WorkItem>, n: nat, key: SortKey, desc: bool) returns (ok: bool)
    requires n <= items.Length
    modifies items
    ensures ok <==> key.Registered()
    ensures items[..n] == if ok then Arranged(key, desc, old(items[..n])) else old(items[..n])
    ensures items[n..] == old(items[n..])
  {
    hide Order, Arranged, Sorted;
    ok := key.Registered();
    if !ok {
      return;
    }
    var sorted := Arranged(key, desc, items[..n]);
    ArrangedLength(key, desc, items[..n]);
    forall i | 0 <= i < n {
      items[i] := sorted[i];
    }
    assert items[..n] == sorted;
  }

  // -------------------------------------------------------------------------
  // One canonical order
  // -------------------------------------------------------------------------

  predicate UniqueIds(s: seq<WorkItem>) { forall i, j :: 0 <= i < j < |s| ==> s[i].id != s[j].id }

  lemma SortedTail(key: SortKey, desc: bool, s: seq<WorkItem>)
    requires s != [] && Sorted(key, desc, s)
    ensures Sorted(key, desc, s[1..])
  {
    hide Order;
  }

  lemma UniqueTail(s: seq<WorkItem>)
    requires s != [] && UniqueIds(s)
    ensures UniqueIds(s[1..])
  {
  }

  lemma SameHead(key: SortKey, desc: bool, a: seq<WorkItem>, b: seq<WorkItem>)
    requires a != [] && b != [] && multiset(a) == multiset(b) && UniqueIds(a)
    requires Sorted(key, desc, a) && Sorted(key, desc, b)
    ensures a[0] == b[0]
  {
    hide Order;
    assert a[0] in multiset(b) && b[0] in multiset(a);
    var i :| 0 <= i < |b| && b[i] == a[0];
    var j :| 0 <= j < |a| && a[j] == b[0];
    OrderFlips(key, desc, a[0], b[0]);
    OrderFlips(key, desc, a[0], a[0]);
    OrderFlips(key, desc, b[0], b[0]);
  }

  /** With different ids there is one sorted arrangement only, whoever computes it. */
  lemma {:induction false} SortedIsUnique(key: SortKey, desc: bool, a: seq<WorkItem>, b: seq<WorkItem>)
    requires multiset(a) == multiset(b) && UniqueIds(a)
    requires Sorted(key, desc, a) && Sorted(key, desc, b)
    ensures a == b
  {
    hide Sorted, UniqueIds;
    assert |a| == |multiset(a)| == |multiset(b)| == |b|;
    if a != [] {
      SameHead(key, desc, a, b);
      SortedTail(key, desc, a);
      SortedTail(key, desc, b);
      UniqueTail(a);
      assert multiset(a[1..]) == multiset(a) - multiset{a[0]} by { assert a == [a[0]] + a[1..]; }
      assert multiset(b[1..]) == multiset(b) - multiset{b[0]} by { assert b == [b[0]] + b[1..]; }
      SortedIsUnique(key, desc, a[1..], b[1..]);
      assert a == [a[0]] + a[1..] && b == [b[0]] + b[1..];
    }
  }

  lemma TwiceInMultiset(s: seq<WorkItem>, i: nat, j: nat)
    requires i < j < |s| && s[i] == s[j]
    ensures multiset(s)[s[i]] >= 2
  {
    assert s == s[..i] + [s[i]] + s[i + 1..j] + [s[j]] + s[j + 1..];
  }

  lemma {:induction false} OnceInUnique(s: seq<WorkItem>, x: WorkItem)
    requires UniqueIds(s)
    ensures multiset(s)[x] <= 1
  {
    if s != [] {
      OnceInUnique(s[1..], x);
      assert s == [s[0]] + s[1..];
      if x == s[0] {
        assert x !in s[1..];
      }
    }
  }

  lemma {:induction false} UniqueIdsPermute(a: seq<WorkItem>, b: seq<WorkItem>)
    requires multiset(a) == multiset(b) && UniqueIds(a)
    ensures UniqueIds(b)
  {
    forall i, j | 0 <= i < j < |b|
      ensures b[i].id != b[j].id
    {
      if b[i] == b[j] {
        TwiceInMultiset(b, i, j);
        OnceInUnique(a, b[i]);
      } else {
        assert b[i] in multiset(a) && b[j] in multiset(a);
      }
    }
  }

  /** The arrangement does not depend on the order the items came in. */
  lemma ArrangedIsCanonical(key: SortKey, desc: bool, a: seq<WorkItem>, b: seq<WorkItem>)
    requires multiset(a) == multiset(b) && UniqueIds(a)
    ensures Arranged(key, desc, a) == Arranged(key, desc, b)
  {
    hide Order, Sorted, Arranged, UniqueIds;
    ArrangedMeaning(key, desc, a);
    ArrangedMeaning(key, desc, b);
    UniqueIdsPermute(a, Arranged(key, desc, a));
    SortedIsUnique(key, desc, Arranged(key, desc, a), Arranged(key, desc, b));
  }

  // -------------------------------------------------------------------------
  // The shortlist
  // -------------------------------------------------------------------------

  /** The agent's list: all items, or the best-ranked `limit` of them when there are more. */
  function Shortlist(items: seq<WorkItem>, limit: int): seq<WorkItem> {
    if 0 < limit < |items| then
      ArrangedLength(ByRank, true, items);
      Arranged(ByRank, true, items)[..limit]
    else items
  }

  /**
   * A list of no more items than the limit, or without one, comes as it is; a longer one has exactly `limit` items,
   * and every one of them comes before every item left out.
   */
  lemma ShortlistKeepsTheBest(items: seq<WorkItem>, limit: int)
    requires UniqueIds(items)
    ensures limit <= 0 || |items| <= limit ==> Shortlist(items, limit) == items
    ensures 0 < limit <= |items| ==> |Shortlist(items, limit)| == limit
    ensures forall x :: x in Shortlist(items, limit) ==> x in items
    ensures forall x, y :: x in Shortlist(items, limit) && y in items && y !in Shortlist(items, limit) ==> Before(ByRank, true, x, y)
  {
    hide Order, Arranged;
    if limit <= 0 || |items| <= limit {
      return;
    }
    var all := Arranged(ByRank, true, items);
    ArrangedMeaning(ByRank, true, items);
    assert |all| == |multiset(all)| == |multiset(items)| == |items|;
    UniqueIdsPermute(items, all);
    forall x | x in Shortlist(items, limit)
      ensures x in items
    {
      assert x in multiset(all);
    }
    forall x, y | x in Shortlist(items, limit) && y in items && y !in Shortlist(items, limit)
      ensures Before(ByRank, true, x, y)
    {
      assert y in multiset(all);
      var i :| 0 <= i < limit && all[i] == x;
      var j :| 0 <= j < |all| && all[j] == y;
      assert i < j;
      OrderFlips(ByRank, true, x, y);
    }
  }

  /** Read off the fields: an item left out has no unread reply that a kept one lacks, and, level there, no higher rank. */
  lemma ShortlistByRank(items: seq<WorkItem>, limit: int, x: WorkItem, y: WorkItem)
    requires 0 < limit < |items| && UniqueIds(items)
    requires x in Shortlist(items, limit) && y in items && y !in Shortlist(items, limit)
    ensures HasUnreadReply(y) ==> HasUnreadReply(x)
    ensures (HasUnreadReply(x) <==> HasUnreadReply(y)) ==> x.meta.rank >= y.meta.rank
  {
    hide Shortlist, UniqueIds, HasUnreadReply, DictionaryBefore, Before;
    ShortlistKeepsTheBest(items, limit);
    BeforeWritten(ByRank, true, x, y);
  }
}
