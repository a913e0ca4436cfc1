/** The read path of the worklist: rescore, drop what is hidden or done, sort. */
module Resolving {
  import opened Options
  import opened Items
  import opened Scoring
  import opened Sorting
  import opened WorklistStore

  datatype View = Processing | Ready(items: seq<WorkItem>) | BackfillFailed | UnknownSort

  /** An agent's item scored for now, its write, hide and completion times kept; a user's item verbatim. */
  function Rescored(w: WorkItem, now: int): WorkItem {
    if w.meta.origin == OriginUser then w
    else w.(meta := Score(w, now).(updatedAt := w.meta.updatedAt, hiddenAt := w.meta.hiddenAt, completedAt := w.meta.completedAt))
  }

  predicate Visible(w: WorkItem) { w.meta.hiddenAt == 0 && w.meta.completedAt == 0 }

  function RescoredAll(s: seq<WorkItem>, now: int): seq<WorkItem> {
    seq(|s|, i requires 0 <= i < |s| => Rescored(s[i], now))
  }

  function VisibleOf(s: seq<WorkItem>): seq<WorkItem> {
    if s == [] then [] else VisibleOf(s[..|s| - 1]) + (if Visible(s[|s| - 1]) then [s[|s| - 1]] else [])
  }

  function ViewOf(items: seq<WorkItem>, backfilled: bool, now: int, key: SortKey, desc: bool): View {
    if items == [] then (if backfilled then Processing else BackfillFailed)
    else if !key.Registered() then UnknownSort
    else Ready(Arranged(key, desc, VisibleOf(RescoredAll(items, now))))
  }

  /** The rescoring loop over the same array. */
  method Rescore(items: array<WorkItem>, now: int)
    modifies items
    ensures items[..] == RescoredAll(old(items[..]), now)
  {
    hide Score;
    ghost var loaded := items[..];
    for i := 0 to items.Length
      invariant forall k :: 0 <= k < i ==> items[k] == Rescored(loaded[k], now)
      invariant forall k :: i <= k < items.Length ==> items[k] == loaded[k]
    {
      if items[i].meta.origin != OriginUser {
        var hidden, completed := items[i].meta.hiddenAt, items[i].meta.completedAt;
        var scored := ComputeScore(items[i], now);
        scored := scored.(updatedAt := items[i].meta.updatedAt);
        scored := scored.(hiddenAt := hidden);
        scored := scored.(completedAt := completed);
        items[i] := items[i].(meta := scored);
      }
    }
    assert items[..] == RescoredAll(loaded, now);
  }

  lemma VisibleNone()
    ensures VisibleOf([]) == []
  {
  }

  lemma VisibleNext(s: seq<WorkItem>, i: nat)
    requires i < |s|
    ensures VisibleOf(s[..i + 1]) == VisibleOf(s[..i]) + (if Visible(s[i]) then [s[i]] else [])
  {
    assert s[..i + 1][..i] == s[..i];
  }

  /** The filter over items[:0]: the visible items move to the front in order. */
  method KeepVisible(items: array<WorkItem>) returns (n: nat)
    modifies items
    ensures n <= items.Length && items[..n] == VisibleOf(old(items[..]))
  {
    hide VisibleOf;
    VisibleNone();
    ghost var before := items[..];
    n := 0;
    assert before[..0] == [];
    for i := 0 to items.Length
      invariant n <= i
      invariant items[..n] == VisibleOf(before[..i])
      invariant forall k :: i <= k < items.Length ==> items[k] == before[k]
    {
      VisibleNext(before, i);
      var it := items[i];
      ghost var kept := items[..n];
      if it.meta.hiddenAt == 0 && it.meta.completedAt == 0 {
        items[n] := it;
        n := n + 1;
        assert items[..n] == kept + [it];
      }
    }
    assert before[..items.Length] == before;
  }

  method Finish(items: array<WorkItem>, n: nat, key: SortKey, desc: bool) returns (view: View)
    requires n <= items.Length
    modifies items
    ensures view == if key.Registered() then Ready(Arranged(key, desc, old(items[..n]))) else UnknownSort
  {
    var ok := Sort(items, n, key, desc);
    view := if ok then Ready(items[..n]) else UnknownSort;
  }

  /** Works in place on the store's copy; an empty worklist asks for a backfill, `backfilled` being its answer. */
  method Resolve(store: MemoryStore, backfilled: bool, now: int, owner: string, key: SortKey, desc: bool) returns (view: View)
    ensures view == ViewOf(ItemsOf(store.Contents(), owner), backfilled, now, key, desc)
    ensures store.Contents() == old(store.Contents())
  {
    hide RescoredAll, VisibleOf, Arranged;
    var items := store.List(owner);
    if items.Length == 0 {
      return if backfilled then Processing else BackfillFailed;
    }
    Rescore(items, now);
    var n := KeepVisible(items);
    view := Finish(items, n, key, desc);
  }

  // -------------------------------------------------------------------------
  // What the view shows
  // -------------------------------------------------------------------------

  /** The items a view is to show, in stored order. */
  function Shown(s: seq<WorkItem>, now: int): seq<WorkItem> { VisibleOf(RescoredAll(s, now)) }

  lemma RescoredKeeps(w: WorkItem, now: int)
    ensures var r := Rescored(w, now);
      && r.id == w.id && r.owner == w.owner && r.thread == w.thread && r.threadReadAt == w.threadReadAt
      && r.githubUpdatedAt == w.githubUpdatedAt && r.signals == w.signals && r.meta.origin == w.meta.origin
      && (Visible(r) <==> Visible(w))
  {
    hide Relevance, Urgency, Impact, Engagement, Blend, Band, AxesOf;
  }

  /** A user's item is read verbatim; an agent's is scored for now and keeps its write, hide and completion times. */
  lemma RescoredWritten(w: WorkItem, now: int)
    ensures var r := Rescored(w, now);
      && (w.meta.origin == OriginUser ==> r == w)
      && (w.meta.origin != OriginUser ==>
          && r.meta.rank == Score(w, now).rank && r.meta.priority == Score(w, now).priority
          && r.meta.relevance == Score(w, now).relevance && r.meta.impact == Score(w, now).impact
          && r.meta.engagement == Score(w, now).engagement && r.meta.urgency == Score(w, now).urgency
          && r.meta.scoredAt == now && r.meta.updatedAt == w.meta.updatedAt
          && r.meta.hiddenAt == w.meta.hiddenAt && r.meta.completedAt == w.meta.completedAt)
  {
    hide AxesOf, Blend, Band;
  }

  /** An empty list asks for a backfill, before the key is looked at; an unknown key is refused; anything else is ready. */
  lemma ViewWritten(items: seq<WorkItem>, backfilled: bool, now: int, key: SortKey, desc: bool)
    ensures var view := ViewOf(items, backfilled, now, key, desc);
      && (view == Processing <==> items == [] && backfilled)
      && (view == BackfillFailed <==> items == [] && !backfilled)
      && (view == UnknownSort <==> items != [] && key.Unregistered?)
      && (view.Ready? <==> items != [] && !key.Unregistered?)
  {
    hide Arranged;
  }

  lemma {:induction false} VisibleOfMeaning(s: seq<WorkItem>, w: WorkItem)
    ensures w in VisibleOf(s) <==> w in s && Visible(w)
  {
    if s != [] {
      VisibleOfMeaning(s[..|s| - 1], w);
      assert s == s[..|s| - 1] + [s[|s| - 1]];
    }
  }

  /** A ready view shows exactly the stored items that are neither hidden nor completed, each as often as it is stored, rescored, in the requested order. */
  lemma ViewMeaning(items: seq<WorkItem>, backfilled: bool, now: int, key: SortKey, desc: bool)
    requires items != [] && key.Registered()
    ensures var view := ViewOf(items, backfilled, now, key, desc);
      && view.Ready? && Sorted(key, desc, view.items)
      && multiset(view.items) == multiset(Shown(items, now))
      && (forall w :: w in items && w.meta.hiddenAt == 0 && w.meta.completedAt == 0 ==> Rescored(w, now) in view.items)
      && (forall r :: r in view.items ==>
            exists w :: w in items && w.meta.hiddenAt == 0 && w.meta.completedAt == 0 && r == Rescored(w, now))
  {
    hide Arranged, Rescored, Order;
    var all := RescoredAll(items, now);
    var out := Arranged(key, desc, VisibleOf(all));
    ArrangedMeaning(key, desc, VisibleOf(all));
    forall w | w in items && Visible(w)
      ensures Rescored(w, now) in out
    {
      var i :| 0 <= i < |items| && items[i] == w;
      assert all[i] == Rescored(w, now);
      RescoredKeeps(w, now);
      VisibleOfMeaning(all, Rescored(w, now));
      assert Rescored(w, now) in multiset(out);
    }
    forall r | r in out
      ensures exists w :: w in items && Visible(w) && r == Rescored(w, now)
    {
      assert r in multiset(VisibleOf(all));
      VisibleOfMeaning(all, r);
      var i :| 0 <= i < |all| && all[i] == r;
      RescoredKeeps(items[i], now);
    }
  }

  // -------------------------------------------------------------------------
  // One canonical answer
  // -------------------------------------------------------------------------

  lemma {:induction false} VisibleOfSplits(a: seq<WorkItem>, b: seq<WorkItem>)
    ensures VisibleOf(a + b) == VisibleOf(a) + VisibleOf(b)
  {
    hide Visible;
    if b == [] {
      assert a + b == a;
    } else {
      VisibleOfSplits(a, b[..|b| - 1]);
      assert (a + b)[..|a + b| - 1] == a + b[..|b| - 1];
    }
  }

  lemma RescoredAllSplits(a: seq<WorkItem>, b: seq<WorkItem>, now: int)
    ensures RescoredAll(a + b, now) == RescoredAll(a, now) + RescoredAll(b, now)
  {
    hide Rescored;
  }

  lemma ShownSplits(a: seq<WorkItem>, b: seq<WorkItem>, now: int)
    ensures Shown(a + b, now) == Shown(a, now) + Shown(b, now)
  {
    hide RescoredAll, VisibleOf;
    RescoredAllSplits(a, b, now);
    VisibleOfSplits(RescoredAll(a, now), RescoredAll(b, now));
  }

  lemma ShownOne(w: WorkItem, now: int)
    ensures Shown([w], now) == if Visible(Rescored(w, now)) then [Rescored(w, now)] else []
  {
    hide Rescored, Visible;
    var one := [Rescored(w, now)];
    assert RescoredAll([w], now) == one;
    assert one[..|one| - 1] == [] && VisibleOf(one[..|one| - 1]) == [];
  }

  lemma TakeOut(s: seq<WorkItem>, j: nat, now: int)
    requires j < |s|
    ensures multiset(s[..j] + s[j + 1..]) == multiset(s) - multiset{s[j]}
    ensures multiset(Shown(s, now)) == multiset(Shown(s[..j] + s[j + 1..], now)) + multiset(Shown([s[j]], now))
  {
    hide Shown;
    var x, y, w := s[..j], s[j + 1..], s[j];
    assert s == x + ([w] + y);
    ShownSplits(x, [w] + y, now);
    ShownSplits([w], y, now);
    ShownSplits(x, y, now);
    assert multiset(s) == multiset(x) + multiset{w} + multiset(y);
    assert multiset(x + y) == multiset(x) + multiset(y);
    assert Shown(s, now) == Shown(x, now) + (Shown([w], now) + Shown(y, now));
  }

  lemma {:induction false} ShownPermutes(a: seq<WorkItem>, b: seq<WorkItem>, now: int)
    requires multiset(a) == multiset(b)
    ensures multiset(Shown(a, now)) == multiset(Shown(b, now))
    decreases |a|
  {
    hide Shown;
    assert |a| == |multiset(a)| == |multiset(b)| == |b|;
    if a == [] {
      assert a == b;
    } else {
      assert a[0] in multiset(b);
      var j :| 0 <= j < |b| && b[j] == a[0];
      TakeOut(a, 0, now);
      TakeOut(b, j, now);
      ShownPermutes(a[..0] + a[1..], b[..j] + b[j + 1..], now);
    }
  }

  lemma UniqueAppend(s: seq<WorkItem>, x: WorkItem)
    requires UniqueIds(s) && forall w :: w in s ==> w.id != x.id
    ensures UniqueIds(s + [x])
  {
  }

  lemma FromStored(s: seq<WorkItem>, now: int, r: WorkItem) returns (w: WorkItem)
    requires r in Shown(s, now)
    ensures w in s && r.id == w.id
  {
    hide Rescored, VisibleOf;
    VisibleOfMeaning(RescoredAll(s, now), r);
    var i :| 0 <= i < |s| && RescoredAll(s, now)[i] == r;
    RescoredKeeps(s[i], now);
    w := s[i];
  }

  lemma UniqueFront(s: seq<WorkItem>)
    requires UniqueIds(s) && s != []
    ensures UniqueIds(s[..|s| - 1])
    ensures forall w :: w in s[..|s| - 1] ==> w.id != s[|s| - 1].id
  {
  }

  lemma {:induction false} ShownUnique(s: seq<WorkItem>, now: int)
    requires UniqueIds(s)
    ensures UniqueIds(Shown(s, now))
  {
    if s == [] {
      VisibleNone();
    } else {
      hide Rescored, Visible, Shown, UniqueIds;
      var front, last := s[..|s| - 1], s[|s| - 1];
      assert s == front + [last];
      UniqueFront(s);
      ShownUnique(front, now);
      ShownSplits(front, [last], now);
      ShownOne(last, now);
      RescoredKeeps(last, now);
      forall r | r in Shown(front, now)
        ensures r.id != last.id
      {
        var _ := FromStored(front, now, r);
      }
      UniqueAppend(Shown(front, now), Rescored(last, now));
      assert Shown(front, now) + [] == Shown(front, now);
    }
  }

  /** The view does not depend on the order in which the items were stored. */
  lemma ViewIsCanonical(a: seq<WorkItem>, b: seq<WorkItem>, backfilled: bool, now: int, key: SortKey, desc: bool)
    requires multiset(a) == multiset(b) && UniqueIds(a)
    ensures ViewOf(a, backfilled, now, key, desc) == ViewOf(b, backfilled, now, key, desc)
  {
    hide Arranged, UniqueIds, VisibleOf, RescoredAll;
    assert |a| == |multiset(a)| == |multiset(b)| == |b|;
    ShownPermutes(a, b, now);
    ShownUnique(a, now);
    ArrangedIsCanonical(key, desc, Shown(a, now), Shown(b, now));
  }

  /** Between two reads of an unchanged agent item its rank and priority never fall. */
  lemma ReadsOnlyRaise(w: WorkItem, earlier: int, later: int)
    requires earlier <= later
    ensures Rescored(w, earlier).meta.rank <= Rescored(w, later).meta.rank
    ensures PriorityWeight(Rescored(w, earlier).meta.priority) <= PriorityWeight(Rescored(w, later).meta.priority)
  {
    hide Score;
    RankNeverFalls(w, earlier, later);
  }
}
