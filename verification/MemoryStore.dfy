/** The in-memory worklist store: an array per owner with an index, standing in for a map keyed by item id. */
module WorklistStore {
  import opened Options
  import opened Items
  import opened Sorting

  /** Every owner's items, in the order they were first stored. */
  type Store = map<string, seq<WorkItem>>

  function ItemsOf(store: Store, owner: string): seq<WorkItem> { if owner in store then store[owner] else [] }

  function Ids(s: seq<WorkItem>): seq<string> { seq(|s|, i requires 0 <= i < |s| => s[i].id) }

  /** The last position of the id, or -1. */
  function LastIndex(s: seq<WorkItem>, id: string): (i: int)
    ensures -1 <= i < |s|
    ensures i >= 0 ==> s[i].id == id
    ensures forall k :: i < k < |s| ==> s[k].id != id
  {
    if s == [] then -1
    else if s[|s| - 1].id == id then |s| - 1
    else LastIndex(s[..|s| - 1], id)
  }

  function Lookup(s: seq<WorkItem>, id: string): Option<WorkItem> {
    if LastIndex(s, id) >= 0 then Some(s[LastIndex(s, id)]) else None
  }

  /** One write: over the stored item of that id, or at the end. */
  function Put(s: seq<WorkItem>, w: WorkItem): seq<WorkItem> {
    if LastIndex(s, w.id) >= 0 then s[LastIndex(s, w.id) := w] else s + [w]
  }

  /** A batch of writes, each re-scoped to the owner. */
  function PutAll(s: seq<WorkItem>, owner: string, batch: seq<WorkItem>): seq<WorkItem> {
    if batch == [] then s
    else Put(PutAll(s, owner, batch[..|batch| - 1]), batch[|batch| - 1].(owner := owner))
  }

  function Upserted(store: Store, owner: string, batch: seq<WorkItem>): Store {
    store[owner := PutAll(ItemsOf(store, owner), owner, batch)]
  }

  method Copy(src: array<WorkItem>, n: nat) returns (out: array<WorkItem>)
    requires n <= src.Length
    ensures fresh(out) && out[..] == src[..n]
  {
    out := new WorkItem[n](i requires 0 <= i < n <= src.Length reads src => src[i]);
  }

  method Append(src: array<WorkItem>, w: WorkItem) returns (out: array<WorkItem>)
    ensures fresh(out) && out[..] == src[..] + [w]
  {
    var n := src.Length;
    out := new WorkItem[n + 1](i requires 0 <= i <= n == src.Length reads src => if i < n then src[i] else w);
  }

  lemma Override(store: Store, owner: string, s: seq<WorkItem>)
    ensures (store - {owner})[owner := s] == store[owner := s]
  {
  }

  lemma PutNone(s: seq<WorkItem>, owner: string)
    ensures PutAll(s, owner, []) == s
  {
  }

  lemma PutNext(s: seq<WorkItem>, owner: string, batch: seq<WorkItem>, k: nat)
    requires k < |batch|
    ensures PutAll(s, owner, batch[..k + 1]) == Put(PutAll(s, owner, batch[..k]), batch[k].(owner := owner))
  {
    assert batch[..k + 1][..k] == batch[..k];
  }

  lemma PutCases(s: seq<WorkItem>, w: WorkItem)
    ensures Put(s, w) == if LastIndex(s, w.id) >= 0 then s[LastIndex(s, w.id) := w] else s + [w]
  {
  }

  // -------------------------------------------------------------------------
  // The index of the loop
  // -------------------------------------------------------------------------

  /** The index map of the loop: exactly the last positions. */
  predicate IndexedAt(index: map<string, int>, s: seq<WorkItem>, id: string) {
    (id in index <==> LastIndex(s, id) >= 0) && (id in index ==> index[id] == LastIndex(s, id))
  }

  ghost predicate Indexes(index: map<string, int>, s: seq<WorkItem>) { forall id :: IndexedAt(index, s, id) }

  lemma IndexAt(index: map<string, int>, s: seq<WorkItem>, id: string)
    requires Indexes(index, s)
    ensures IndexedAt(index, s, id)
  {
  }

  lemma IndexAppend(index: map<string, int>, s: seq<WorkItem>, w: WorkItem)
    requires Indexes(index, s)
    ensures Indexes(index[w.id := |s|], s + [w])
  {
    var index', t := index[w.id := |s|], s + [w];
    assert t[..|s|] == s;
    forall id
      ensures IndexedAt(index', t, id)
    {
      IndexAt(index, s, id);
    }
  }

  lemma SameIdsSameIndex(s: seq<WorkItem>, t: seq<WorkItem>, id: string)
    requires Ids(s) == Ids(t)
    ensures LastIndex(s, id) == LastIndex(t, id)
  {
    assert |s| == |Ids(s)| == |Ids(t)| == |t|;
    forall k | 0 <= k < |s|
      ensures s[k].id == t[k].id
    {
      assert Ids(s)[k] == Ids(t)[k];
    }
  }

  lemma IndexReplace(index: map<string, int>, s: seq<WorkItem>, w: WorkItem)
    requires Indexes(index, s) && LastIndex(s, w.id) >= 0
    ensures Indexes(index, s[LastIndex(s, w.id) := w])
  {
    var t := s[LastIndex(s, w.id) := w];
    assert Ids(t) == Ids(s);
    forall id
      ensures IndexedAt(index, t, id)
    {
      IndexAt(index, s, id);
      SameIdsSameIndex(s, t, id);
    }
  }

  // -------------------------------------------------------------------------
  // The store
  // -------------------------------------------------------------------------

  /** Each owner's items are an array, written in place; what leaves the store is a copy. */
  class MemoryStore {
    var items: map<string, array<WorkItem>>

    /** No two owners share an array. */
    ghost predicate Valid()
      reads this
    {
      forall a, b :: a in items && b in items && a != b ==> items[a] != items[b]
    }

    ghost function Repr(): set<object>
      reads this
    {
      var arrays: set<object> := items.Values;
      {this} + arrays
    }

    ghost function Contents(): Store
      reads this, items.Values
    {
      map owner | owner in items :: items[owner][..]
    }

    constructor ()
      ensures Valid() && Contents() == map[] && fresh(Repr())
    {
      items := map[];
    }

    /** A copy of the owner's items. */
    method List(owner: string) returns (out: array<WorkItem>)
      ensures fresh(out) && out[..] == ItemsOf(Contents(), owner)
    {
      if owner !in items {
        out := new WorkItem[0];
      } else {
        var src := items[owner];
        out := Copy(src, src.Length);
        assert out[..] == src[..];
      }
    }

    /** A copy of every owner's items. */
    method All() returns (out: map<string, array<WorkItem>>)
      ensures out.Keys == items.Keys
      ensures forall o :: o in out ==> fresh(out[o]) && out[o][..] == Contents()[o]
      ensures forall a, b :: a in out && b in out && a != b ==> out[a] != out[b]
    {
      out := map[];
      var rest := items.Keys;
      while rest != {}
        invariant rest <= items.Keys && out.Keys == items.Keys - rest
        invariant forall o :: o in out ==> fresh(out[o]) && out[o][..] == items[o][..]
        invariant forall a, b :: a in out && b in out && a != b ==> out[a] != out[b]
        decreases rest
      {
        var owner :| owner in rest;
        rest := rest - {owner};
        var src := items[owner];
        var copy := Copy(src, src.Length);
        out := out[owner := copy];
      }
    }

    /** Writes over the stored items where they are, and moves to a longer array to append. */
    method Upsert(owner: string, batch: seq<WorkItem>)
      requires Valid()
      modifies this, if owner in items then {items[owner]} else {}
      ensures Valid() && Contents() == Upserted(old(Contents()), owner, batch)
      ensures fresh(Repr() - old(Repr()))
    {
      hide Put, PutAll, LastIndex, Indexes;
      var existing;
      if owner in items {
        existing := items[owner];
      } else {
        existing := new WorkItem[0];
      }
      ghost var was := existing[..];
      var index := IndexOf(existing);
      PutNone(was, owner);
      assert batch[..0] == [];
      for k := 0 to |batch|
        invariant items == old(items)
        invariant fresh(existing) || (owner in items && existing == items[owner])
        invariant Indexes(index, existing[..])
        invariant existing[..] == PutAll(was, owner, batch[..k])
      {
        var it := batch[k].(owner := owner);
        PutNext(was, owner, batch, k);
        IndexAt(index, existing[..], it.id);
        PutCases(existing[..], it);
        if it.id in index {
          IndexReplace(index, existing[..], it);
          ghost var before := existing[..];
          existing[index[it.id]] := it;
          assert existing[..] == before[index[it.id] := it];
        } else {
          IndexAppend(index, existing[..], it);
          index := index[it.id := existing.Length];
          existing := Append(existing, it);
        }
      }
      assert batch[..|batch|] == batch;
      ghost var others := old(Contents()) - {owner};
      assert Contents() - {owner} == others;
      Install(owner, existing);
      Override(old(Contents()), owner, existing[..]);
    }

    /** Stores the owner's array; the other owners keep theirs. */
    method Install(owner: string, a: array<WorkItem>)
      requires Valid() && forall o :: o in items && items[o] == a ==> o == owner
      modifies this`items
      ensures Valid() && items == old(items)[owner := a]
      ensures Contents() == (old(Contents()) - {owner})[owner := a[..]]
    {
      items := items[owner := a];
    }

    /** The index of the last position of each id. */
    method IndexOf(existing: array<WorkItem>) returns (index: map<string, int>)
      ensures Indexes(index, existing[..])
    {
      index := map[];
      for i := 0 to existing.Length
        invariant Indexes(index, existing[..i])
      {
        assert existing[..i + 1] == existing[..i] + [existing[i]];
        IndexAppend(index, existing[..i], existing[i]);
        index := index[existing[i].id := i];
      }
      assert existing[..existing.Length] == existing[..];
    }
  }

  // -------------------------------------------------------------------------
  // Upsert is map override
  // -------------------------------------------------------------------------

  lemma PutLookup(s: seq<WorkItem>, w: WorkItem, id: string)
    ensures Lookup(Put(s, w), id) == if id == w.id then Some(w) else Lookup(s, id)
  {
    if LastIndex(s, w.id) >= 0 {
      assert Ids(Put(s, w)) == Ids(s);
      SameIdsSameIndex(s, Put(s, w), id);
    } else {
      assert (s + [w])[..|s|] == s;
    }
  }

  /** For every id the last item of the batch wins, re-scoped to the owner; the other ids keep their item. */
  lemma {:induction false} UpsertOverrides(s: seq<WorkItem>, owner: string, batch: seq<WorkItem>, id: string)
    ensures Lookup(PutAll(s, owner, batch), id) ==
      match Lookup(batch, id)
      case Some(w) => Some(w.(owner := owner))
      case None => Lookup(s, id)
  {
    if batch != [] {
      var front, last := batch[..|batch| - 1], batch[|batch| - 1];
      UpsertOverrides(s, owner, front, id);
      PutLookup(PutAll(s, owner, front), last.(owner := owner), id);
    }
  }

  /** Each id where it appears first. */
  function FirstAppearances(ids: seq<string>): seq<string> {
    if ids == [] then []
    else
      var front := FirstAppearances(ids[..|ids| - 1]);
      if ids[|ids| - 1] in ids[..|ids| - 1] then front else front + [ids[|ids| - 1]]
  }

  lemma {:induction false} SameMembers(ids: seq<string>, id: string)
    ensures id in FirstAppearances(ids) <==> id in ids
  {
    if ids != [] {
      SameMembers(ids[..|ids| - 1], id);
      assert ids == ids[..|ids| - 1] + [ids[|ids| - 1]];
    }
  }

  lemma InIds(s: seq<WorkItem>, id: string)
    ensures id in Ids(s) <==> LastIndex(s, id) >= 0
  {
    hide LastIndex;
    assert LastIndex(s, id) >= 0 ==> Ids(s)[LastIndex(s, id)] == id;
  }

  lemma PutIds(s: seq<WorkItem>, w: WorkItem)
    ensures Ids(Put(s, w)) == if w.id in Ids(s) then Ids(s) else Ids(s) + [w.id]
  {
    hide LastIndex;
    InIds(s, w.id);
  }

  lemma {:induction false} DistinctAppearOnce(s: seq<WorkItem>)
    requires UniqueIds(s)
    ensures FirstAppearances(Ids(s)) == Ids(s)
  {
    if s != [] {
      var front, last := s[..|s| - 1], s[|s| - 1];
      DistinctAppearOnce(front);
      assert Ids(s)[..|s| - 1] == Ids(front);
      assert Ids(s) == Ids(front) + [last.id];
      assert last.id !in Ids(front);
    }
  }

  lemma AppearNext(ids: seq<string>, id: string)
    ensures FirstAppearances(ids + [id]) == if id in ids then FirstAppearances(ids) else FirstAppearances(ids) + [id]
  {
    assert (ids + [id])[..|ids|] == ids;
  }

  /** Stored ids keep their positions; new ids follow in the order of their first appearance in the batch. */
  lemma {:induction false} UpsertKeepsPositions(s: seq<WorkItem>, owner: string, batch: seq<WorkItem>)
    requires UniqueIds(s)
    ensures Ids(PutAll(s, owner, batch)) == FirstAppearances(Ids(s) + Ids(batch))
  {
    hide Put, FirstAppearances, UniqueIds;
    if batch == [] {
      DistinctAppearOnce(s);
      assert Ids(s) + Ids(batch) == Ids(s);
    } else {
      var front, last := batch[..|batch| - 1], batch[|batch| - 1];
      UpsertKeepsPositions(s, owner, front);
      PutIds(PutAll(s, owner, front), last.(owner := owner));
      SameMembers(Ids(s) + Ids(front), last.id);
      AppearNext(Ids(s) + Ids(front), last.id);
      assert Ids(batch) == Ids(front) + [last.id];
      assert Ids(s) + Ids(batch) == Ids(s) + Ids(front) + [last.id];
    }
  }

  /** The ids of a list differ exactly when the list is its own first appearances. */
  lemma {:induction false} FirstAppearancesDiffer(ids: seq<string>)
    ensures forall i, j :: 0 <= i < j < |FirstAppearances(ids)| ==> FirstAppearances(ids)[i] != FirstAppearances(ids)[j]
  {
    if ids != [] {
      FirstAppearancesDiffer(ids[..|ids| - 1]);
      SameMembers(ids[..|ids| - 1], ids[|ids| - 1]);
    }
  }

  // -------------------------------------------------------------------------
  // What every store keeps
  // -------------------------------------------------------------------------

  predicate Owned(s: seq<WorkItem>, owner: string) { forall w :: w in s ==> w.owner == owner }

  predicate WellKept(store: Store) {
    forall owner :: owner in store ==> UniqueIds(store[owner]) && Owned(store[owner], owner)
  }

  lemma {:induction false} PutAllOwned(s: seq<WorkItem>, owner: string, batch: seq<WorkItem>)
    requires Owned(s, owner)
    ensures Owned(PutAll(s, owner, batch), owner)
  {
    if batch != [] {
      PutAllOwned(s, owner, batch[..|batch| - 1]);
    }
  }

  lemma PutAllUnique(s: seq<WorkItem>, owner: string, batch: seq<WorkItem>)
    requires UniqueIds(s)
    ensures UniqueIds(PutAll(s, owner, batch))
  {
    UpsertKeepsPositions(s, owner, batch);
    FirstAppearancesDiffer(Ids(s) + Ids(batch));
    var r := PutAll(s, owner, batch);
    forall i, j | 0 <= i < j < |r|
      ensures r[i].id != r[j].id
    {
      assert Ids(r)[i] != Ids(r)[j];
    }
  }

  /** Any batch keeps the store well: different ids, every item its owner's; nobody else's items change. */
  lemma UpsertKeepsWell(store: Store, owner: string, batch: seq<WorkItem>)
    requires WellKept(store)
    ensures WellKept(Upserted(store, owner, batch))
    ensures forall other :: other != owner ==> ItemsOf(Upserted(store, owner, batch), other) == ItemsOf(store, other)
  {
    PutAllUnique(ItemsOf(store, owner), owner, batch);
    PutAllOwned(ItemsOf(store, owner), owner, batch);
    hide PutAll, UniqueIds, Owned;
  }

  // -------------------------------------------------------------------------
  // A list is the caller's own
  // -------------------------------------------------------------------------

  function UpsertedAll(store: Store, writes: seq<(string, seq<WorkItem>)>): Store {
    if writes == [] then store
    else Upserted(UpsertedAll(store, writes[..|writes| - 1]), writes[|writes| - 1].0, writes[|writes| - 1].1)
  }

  /** A list handed out before any number of writes still reads as it did. */
  method ListBeforeWrites(store: MemoryStore, owner: string, writes: seq<(string, seq<WorkItem>)>) returns (list: array<WorkItem>)
    requires store.Valid()
    modifies store.Repr()
    ensures fresh(list) && list[..] == ItemsOf(old(store.Contents()), owner)
    ensures store.Valid() && store.Contents() == UpsertedAll(old(store.Contents()), writes)
  {
    list := store.List(owner);
    ghost var handed := list[..];
    assert writes[..0] == [];
    for k := 0 to |writes|
      invariant store.Valid() && fresh(store.Repr() - old(store.Repr())) && list !in store.Repr()
      invariant store.Contents() == UpsertedAll(old(store.Contents()), writes[..k])
      invariant list[..] == handed
    {
      assert writes[..k + 1][..k] == writes[..k];
      store.Upsert(writes[k].0, writes[k].1);
    }
    assert writes[..|writes|] == writes;
  }

  /** Overwriting items of a list writes nothing to the store. */
  method ListThenOverwrite(store: MemoryStore, owner: string, w: WorkItem) returns (list: array<WorkItem>)
    ensures store.Contents() == old(store.Contents())
    ensures forall k :: 0 <= k < list.Length ==> list[k] == w
  {
    list := store.List(owner);
    for i := 0 to list.Length
      invariant forall k :: 0 <= k < i ==> list[k] == w
    {
      list[i] := w;
    }
  }
}
