/** What any run of the worklist handlers keeps of every item. */
module Evolution {
  import opened Options
  import opened Items
  import opened Scoring
  import opened Sorting
  import opened WorklistStore
  import opened Handlers
  import Resolving

  function ItemAt(store: Store, owner: string, id: string): Option<WorkItem> { Lookup(ItemsOf(store, owner), id) }

  /** The item of (owner, id) after an action, from that item alone. */
  function NextItem(cfg: Setup, prior: Option<WorkItem>, a: Action, owner: string, id: string): Option<WorkItem> {
    if a.owner != owner then prior
    else
      match a
      case Ingest(_, now, batch) =>
        (match Lookup(batch, id)
         case None => prior
         case Some(w) => Some(Merged(cfg.bots, prior, owner, now, w)))
      case _ =>
        if a.id != id || prior.None? || Edit(cfg, a, prior.value).None? then prior
        else Some(Edit(cfg, a, prior.value).value.(owner := owner))
  }

  lemma MergeAllIds(bots: set<string>, existing: seq<WorkItem>, owner: string, now: int, batch: seq<WorkItem>)
    ensures Ids(MergeAll(bots, existing, owner, now, batch)) == Ids(batch)
  {
    hide Score, HiddenAfter, Lookup;
  }

  lemma MergeAllLookup(bots: set<string>, existing: seq<WorkItem>, owner: string, now: int, batch: seq<WorkItem>, id: string)
    ensures Lookup(MergeAll(bots, existing, owner, now, batch), id) ==
      match Lookup(batch, id)
      case None => None
      case Some(w) => Some(Merged(bots, Lookup(existing, id), owner, now, w))
  {
    hide LastIndex, Score, HiddenAfter;
    MergeAllIds(bots, existing, owner, now, batch);
    SameIdsSameIndex(batch, MergeAll(bots, existing, owner, now, batch), id);
  }

  lemma EditKeepsId(cfg: Setup, a: Action, w: WorkItem)
    requires Edit(cfg, a, w).Some?
    ensures Edit(cfg, a, w).value.id == w.id
  {
    hide Score, Trim;
  }

  lemma LookupOne(w: WorkItem, id: string)
    ensures Lookup([w], id) == if w.id == id then Some(w) else None
  {
    assert [w][..0] == [];
  }

  lemma LookupEmpty(id: string)
    ensures Lookup([], id).None?
  {
  }

  lemma LookupId(s: seq<WorkItem>, id: string)
    ensures Lookup(s, id).Some? ==> Lookup(s, id).value.id == id
  {
  }

  lemma MergedOwner(cfg: Setup, a: Action, s: seq<WorkItem>, id: string)
    requires a.Ingest?
    ensures Lookup(a.batch, id).Some? ==>
      Merged(cfg.bots, Lookup(s, id), a.owner, a.now, Lookup(a.batch, id).value).owner == a.owner
  {
    hide Lookup, Score, HiddenAfter;
  }

  /** Every action acts item by item: the named owner's items as described, everyone else's not at all. */
  lemma StepAt(cfg: Setup, store: Store, a: Action, owner: string, id: string)
    ensures ItemAt(Apply(cfg, store, a), owner, id) == NextItem(cfg, ItemAt(store, owner, id), a, owner, id)
  {
    hide Merged, MergeAll, PutAll, Lookup, Edit;
    if a.owner == owner {
      var s := ItemsOf(store, owner);
      if a.Ingest? {
        MergeAllLookup(cfg.bots, s, owner, a.now, a.batch, id);
        UpsertOverrides(s, owner, MergeAll(cfg.bots, s, owner, a.now, a.batch), id);
        LookupEmpty(id);
        MergedOwner(cfg, a, s, id);
      } else if Lookup(s, a.id).Some? && Edit(cfg, a, Lookup(s, a.id).value).Some? {
        var w := Edit(cfg, a, Lookup(s, a.id).value).value;
        EditKeepsId(cfg, a, Lookup(s, a.id).value);
        LookupId(s, a.id);
        UpsertOverrides(s, owner, [w], id);
        LookupOne(w, id);
      }
    }
  }

  // -------------------------------------------------------------------------
  // One action
  // -------------------------------------------------------------------------

  /** How much of the item survives from `w` to `w'`, whatever happens in between. */
  predicate Preserved(w: WorkItem, w': WorkItem) {
    && w'.id == w.id
    && w.thread <= w'.thread
    && (w.signals.proposed.Some? ==> w'.signals.proposed.Some?)
    && (w.signals.research.Some? ==> w'.signals.research.Some?)
  }

  lemma NextPreserves(cfg: Setup, prior: Option<WorkItem>, a: Action, owner: string, id: string)
    requires prior.Some? && prior.value.id == id
    ensures var next := NextItem(cfg, prior, a, owner, id); next.Some? && Preserved(prior.value, next.value)
  {
    hide Score, Trim, HiddenAfter, Lookup;
    if a.Ingest? {
      LookupId(a.batch, id);
    }
  }

  /** Exactly which actions change what the user and the model put on an item. */
  lemma NextChanges(cfg: Setup, w: WorkItem, a: Action, owner: string, id: string)
    requires w.id == id
    ensures var w' := NextItem(cfg, Some(w), a, owner, id).value;
      && (w'.thread != w.thread <==> a.owner == owner && (a.Post? || a.Append?) && a.id == id && Edit(cfg, a, w).Some?)
      && (w'.thread != w.thread ==>
          w'.thread == w.thread + [Message(if a.Post? then RoleUser else RoleAgent, Trim(a.content), a.now)])
      && (w'.threadReadAt != w.threadReadAt ==> a == Action.MarkRead(owner, id, w'.threadReadAt))
      && (w'.meta.hiddenAt != w.meta.hiddenAt ==>
          || (w'.meta.hiddenAt != 0 && a == Action.Hide(owner, id, w'.meta.hiddenAt))
          || (w'.meta.hiddenAt == 0 && a.Ingest? && a.owner == owner
              && Lookup(a.batch, id).Some? && Lookup(a.batch, id).value.githubUpdatedAt > w.meta.hiddenAt))
      && (w'.signals.research != w.signals.research ==> a.SetResearch? && a.owner == owner && a.id == id && w'.signals.research == Some(a.adjustment))
      && (w'.signals.proposed != w.signals.proposed ==>
          && a.Ingest? && a.owner == owner && Lookup(a.batch, id).Some?
          && Lookup(a.batch, id).value.signals.proposed == w'.signals.proposed)
  {
    hide Score, Trim, Lookup;
  }

  /** An item only ever enters the store through an ingest, with an empty conversation and agent provenance. */
  lemma NewItemsAreClean(cfg: Setup, a: Action, owner: string, id: string)
    ensures var next := NextItem(cfg, None, a, owner, id);
      next.Some? ==>
        var w := next.value;
        && a.Ingest? && a.owner == owner == w.owner
        && w.thread == [] && w.threadReadAt == 0 && w.meta.hiddenAt == 0 && w.signals.research.None? && w.meta.origin == OriginAgent
        && (w.signals.reviewRequestedByBot <==> w.signals.reviewRequestedBy in cfg.bots)
  {
    hide Trim, Lookup;
  }

  /** A reply shows as unread unless the receipt is already later, a user's turn changes nothing, and reading clears all but later replies. */
  lemma UnreadCue(cfg: Setup, a: Action, w: WorkItem)
    requires Edit(cfg, a, w).Some?
    ensures var w' := Edit(cfg, a, w).value;
      && (a.Append? ==> (HasUnreadReply(w') <==> a.now > w.threadReadAt))
      && (a.Post? || a.SetResearch? || a.Hide? ==> (HasUnreadReply(w') <==> HasUnreadReply(w)))
      && (a.MarkRead? && (forall m :: m in w.thread ==> m.at <= a.now) ==> !HasUnreadReply(w'))
  {
    hide Trim, Score;
    var w' := Edit(cfg, a, w).value;
    if a.Append? || a.Post? {
      assert w'.thread[..|w'.thread| - 1] == w.thread;
    } else if a.MarkRead? {
      hide Unread;
      UnreadMeaning(w'.thread, w'.threadReadAt);
    }
  }

  /** What a handler stores is already scored: reading it back at the instant of the write changes nothing. */
  lemma ReadAfterWrite(bots: set<string>, prior: Option<WorkItem>, owner: string, w: WorkItem, adjustment: Research, now: int)
    ensures Resolving.Rescored(Merged(bots, prior, owner, now, w), now) == Merged(bots, prior, owner, now, w)
    ensures Resolving.Rescored(Researched(w, adjustment, now), now) == Researched(w, adjustment, now)
  {
    hide AxesOf, Blend, Band;
  }

  /** A research write-back drops a stored completion; the other single-item actions keep it. */
  lemma CompletionAfterEdit(cfg: Setup, w: WorkItem, a: Action)
    requires Edit(cfg, a, w).Some?
    ensures Edit(cfg, a, w).value.meta.completedAt == if a.SetResearch? then 0 else w.meta.completedAt
  {
    hide Trim;
  }

  lemma LookupMember(s: seq<WorkItem>, id: string, w: WorkItem)
    requires UniqueIds(s)
    ensures w in s && w.id == id <==> Lookup(s, id) == Some(w)
  {
    if w in s && w.id == id {
      var k :| 0 <= k < |s| && s[k] == w;
      assert LastIndex(s, id) == k;
    }
  }

  /** In a well kept store an id is on its owner's view exactly when its item is neither hidden nor completed, and then as its rescore. */
  lemma OnView(store: Store, owner: string, id: string, now: int, key: SortKey, desc: bool)
    requires WellKept(store) && ItemAt(store, owner, id).Some? && key.Registered()
    ensures var w, view := ItemAt(store, owner, id).value, Resolving.ViewOf(ItemsOf(store, owner), true, now, key, desc);
      && view.Ready?
      && ((exists r :: r in view.items && r.id == id) <==> w.meta.hiddenAt == 0 && w.meta.completedAt == 0)
      && forall r :: r in view.items && r.id == id ==> r == Resolving.Rescored(w, now)
  {
    hide WellKept, Lookup, UniqueIds, Resolving.ViewOf, Resolving.Rescored, Sorted;
    var items := ItemsOf(store, owner);
    KeptUnique(store, owner);
    LookupId(items, id);
    var w := ItemAt(store, owner, id).value;
    LookupMember(items, id, w);
    Resolving.ViewMeaning(items, true, now, key, desc);
    Resolving.RescoredKeeps(w, now);
    var view := Resolving.ViewOf(items, true, now, key, desc);
    forall r | r in view.items && r.id == id
      ensures Resolving.Visible(w) && r == Resolving.Rescored(w, now)
    {
      var v :| v in items && Resolving.Visible(v) && r == Resolving.Rescored(v, now);
      Resolving.RescoredKeeps(v, now);
      LookupMember(items, id, v);
    }
  }

  /**
   * So after a research write-back the item is on its owner's list, at any later read, if and only if it is not
   * hidden: one that was closed comes back.
   */
  lemma ResearchRevives(cfg: Setup, store: Store, a: Action, now: int, key: SortKey, desc: bool)
    requires WellKept(store) && a.SetResearch? && a.id != "" && ItemAt(store, a.owner, a.id).Some? && key.Registered()
    ensures var view := Resolving.ViewOf(ItemsOf(Apply(cfg, store, a), a.owner), true, now, key, desc);
      && view.Ready?
      && ((exists r :: r in view.items && r.id == a.id) <==> ItemAt(store, a.owner, a.id).value.meta.hiddenAt == 0)
  {
    hide WellKept, Apply, Lookup, Resolving.ViewOf, ItemsOf;
    StepAt(cfg, store, a, a.owner, a.id);
    ApplyKeepsWell(cfg, store, a);
    OnView(Apply(cfg, store, a), a.owner, a.id, now, key, desc);
  }

  // -------------------------------------------------------------------------
  // What each action leaves in the store
  // -------------------------------------------------------------------------

  /** After an ingest the stored item is the last one posted under its id, with what only ZZ decides carried over or stamped. */
  lemma StoredAfterIngest(cfg: Setup, store: Store, a: Action, id: string, w: WorkItem)
    requires a.Ingest? && Lookup(a.batch, id) == Some(w)
    ensures var prior, next := ItemAt(store, a.owner, id), ItemAt(Apply(cfg, store, a), a.owner, id);
      && next.Some?
      && var n := next.value;
         && n.id == id && n.owner == a.owner && n.githubUpdatedAt == w.githubUpdatedAt
         && n.meta.completedAt == w.meta.completedAt
         && n.meta.hiddenAt ==
              (if prior.None? || w.githubUpdatedAt > prior.value.meta.hiddenAt then 0 else prior.value.meta.hiddenAt)
         && n.meta.origin == OriginAgent && n.meta.scoredAt == n.meta.updatedAt == n.updatedAt == a.now
         && n.createdAt == (if w.createdAt != 0 then w.createdAt else a.now)
         && n.thread == (if prior.None? then [] else prior.value.thread)
         && n.threadReadAt == (if prior.None? then 0 else prior.value.threadReadAt)
         && n.signals == w.signals.(
              research := if prior.None? then None else prior.value.signals.research,
              proposed := if w.signals.proposed.Some? || prior.None? then w.signals.proposed else prior.value.signals.proposed,
              reviewRequestedByBot := w.signals.reviewRequestedBy in cfg.bots)
  {
    StepAt(cfg, store, a, a.owner, id);
    LookupId(a.batch, id);
    hide Apply, Lookup, ItemsOf, AxesOf, Blend, Band;
  }

  /**
   * So an item posted as completed is on its owner's view at no read, and one posted open, though it was closed
   * before, exactly when the stored item is not hidden.
   */
  lemma PostedOnView(cfg: Setup, store: Store, a: Action, id: string, w: WorkItem, now: int, key: SortKey, desc: bool)
    requires WellKept(store) && a.Ingest? && Lookup(a.batch, id) == Some(w) && key.Registered()
    ensures var after := Apply(cfg, store, a); var view := Resolving.ViewOf(ItemsOf(after, a.owner), true, now, key, desc);
      && view.Ready? && ItemAt(after, a.owner, id).Some?
      && (w.meta.completedAt != 0 ==> forall r :: r in view.items ==> r.id != id)
      && (w.meta.completedAt == 0 ==>
            ((exists r :: r in view.items && r.id == id) <==> ItemAt(after, a.owner, id).value.meta.hiddenAt == 0))
  {
    hide WellKept, Apply, Lookup, Resolving.ViewOf, ItemsOf;
    StoredAfterIngest(cfg, store, a, id, w);
    ApplyKeepsWell(cfg, store, a);
    OnView(Apply(cfg, store, a), a.owner, id, now, key, desc);
  }

  /** What a single-item action makes of the stored item it names. */
  lemma StoredAfterEdit(cfg: Setup, store: Store, a: Action)
    requires !a.Ingest? && a.id != "" && ItemAt(store, a.owner, a.id).Some?
    ensures var w, next := ItemAt(store, a.owner, a.id).value, ItemAt(Apply(cfg, store, a), a.owner, a.id);
      && next.Some?
      && var n := next.value;
         match a
         case Post(_, _, content, now) =>
           if cfg.enabled && Trim(content) != "" then
             n == w.(thread := w.thread + [Message(RoleUser, Trim(content), now)], owner := a.owner)
           else n == w
         case Append(_, _, content, now) =>
           if Trim(content) != "" then n == w.(thread := w.thread + [Message(RoleAgent, Trim(content), now)], owner := a.owner)
           else n == w
         case MarkRead(_, _, now) => n == w.(threadReadAt := now, owner := a.owner)
         case Hide(_, _, now) => n == w.(meta := w.meta.(hiddenAt := now), owner := a.owner)
         case SetResearch(_, _, adjustment, now) =>
           && n.signals == w.signals.(research := Some(adjustment))
           && n.meta.hiddenAt == w.meta.hiddenAt && n.meta.completedAt == 0 && n.meta.origin == OriginAgent
           && n.meta.scoredAt == n.meta.updatedAt == n.updatedAt == now
           && n == w.(signals := n.signals, meta := n.meta, updatedAt := now, owner := a.owner)
         case Ingest(_, _, _) => true
  {
    StepAt(cfg, store, a, a.owner, a.id);
    hide Apply, Lookup, ItemsOf, Trim, AxesOf, Blend, Band;
  }

  // -------------------------------------------------------------------------
  // Runs
  // -------------------------------------------------------------------------

  /** Stores reached from the empty one have different ids per owner and only the owner's items. */
  lemma {:induction false} RunsStayWell(cfg: Setup, store: Store, actions: seq<Action>)
    requires WellKept(store)
    ensures WellKept(ApplyAll(cfg, store, actions))
    decreases |actions|
  {
    hide WellKept;
    if actions != [] {
      ApplyKeepsWell(cfg, store, actions[0]);
      RunsStayWell(cfg, Apply(cfg, store, actions[0]), actions[1..]);
    }
  }

  /** Over any run an item is never removed, its conversation only grows at the end, and a proposal or research is never lost. */
  lemma {:induction false} NothingIsLost(cfg: Setup, store: Store, actions: seq<Action>, owner: string, id: string)
    requires ItemAt(store, owner, id).Some?
    ensures var last := ItemAt(ApplyAll(cfg, store, actions), owner, id);
      last.Some? && Preserved(ItemAt(store, owner, id).value, last.value)
    decreases |actions|
  {
    hide Apply, NextItem, Lookup, ItemsOf;
    if actions != [] {
      StepAt(cfg, store, actions[0], owner, id);
      LookupId(ItemsOf(store, owner), id);
      NextPreserves(cfg, ItemAt(store, owner, id), actions[0], owner, id);
      NothingIsLost(cfg, Apply(cfg, store, actions[0]), actions[1..], owner, id);
    }
  }

  predicate Reads(a: Action, owner: string, id: string) { a.MarkRead? && a.owner == owner && a.id == id }

  predicate Hides(a: Action, owner: string, id: string) { a.Hide? && a.owner == owner && a.id == id }

  /** The action is an ingest that shows an update of the item later than `at`. */
  predicate Unhides(a: Action, owner: string, id: string, at: int) {
    a.Ingest? && a.owner == owner && Lookup(a.batch, id).Some? && Lookup(a.batch, id).value.githubUpdatedAt > at
  }

  /** Over any run without a MarkRead of the item its read receipt stands. */
  lemma {:induction false} ReadReceiptStands(cfg: Setup, store: Store, actions: seq<Action>, owner: string, id: string)
    requires ItemAt(store, owner, id).Some? && forall a :: a in actions ==> !Reads(a, owner, id)
    ensures var last := ItemAt(ApplyAll(cfg, store, actions), owner, id);
      last.Some? && last.value.threadReadAt == ItemAt(store, owner, id).value.threadReadAt
    decreases |actions|
  {
    hide Apply, NextItem, Lookup, ItemsOf;
    if actions != [] {
      StepAt(cfg, store, actions[0], owner, id);
      LookupId(ItemsOf(store, owner), id);
      NextPreserves(cfg, ItemAt(store, owner, id), actions[0], owner, id);
      NextChanges(cfg, ItemAt(store, owner, id).value, actions[0], owner, id);
      assert actions[0] in actions;
      ReadReceiptStands(cfg, Apply(cfg, store, actions[0]), actions[1..], owner, id);
    }
  }

  /** A hidden item stays hidden, since the same instant, over any run that neither hides it again nor ingests a later update. */
  lemma {:induction false} HiddenStaysHidden(cfg: Setup, store: Store, actions: seq<Action>, owner: string, id: string)
    requires ItemAt(store, owner, id).Some? && ItemAt(store, owner, id).value.meta.hiddenAt != 0
    requires forall a :: a in actions ==>
      !Hides(a, owner, id) && !Unhides(a, owner, id, ItemAt(store, owner, id).value.meta.hiddenAt)
    ensures var last := ItemAt(ApplyAll(cfg, store, actions), owner, id);
      last.Some? && last.value.meta.hiddenAt == ItemAt(store, owner, id).value.meta.hiddenAt
    decreases |actions|
  {
    hide Apply, NextItem, Lookup, ItemsOf;
    if actions != [] {
      StepAt(cfg, store, actions[0], owner, id);
      LookupId(ItemsOf(store, owner), id);
      NextPreserves(cfg, ItemAt(store, owner, id), actions[0], owner, id);
      NextChanges(cfg, ItemAt(store, owner, id).value, actions[0], owner, id);
      assert actions[0] in actions;
      HiddenStaysHidden(cfg, Apply(cfg, store, actions[0]), actions[1..], owner, id);
    }
  }

  /** The action may change the item's completion: it posts it anew or writes its research. */
  predicate Recompletes(a: Action, owner: string, id: string) {
    a.owner == owner && ((a.Ingest? && Lookup(a.batch, id).Some?) || (a.SetResearch? && a.id == id))
  }

  lemma NextCompletion(cfg: Setup, w: WorkItem, a: Action, owner: string, id: string)
    requires w.id == id && !Recompletes(a, owner, id)
    ensures NextItem(cfg, Some(w), a, owner, id).value.meta.completedAt == w.meta.completedAt
  {
    hide Score, Trim, Lookup;
  }

  /** A completed item is on its owner's view at no read of any run that neither posts it anew nor writes its research. */
  lemma {:induction false} CompletedStaysOff(cfg: Setup, store: Store, actions: seq<Action>, owner: string, id: string,
    now: int, key: SortKey, desc: bool)
    requires WellKept(store) && ItemAt(store, owner, id).Some? && ItemAt(store, owner, id).value.meta.completedAt != 0
    requires key.Registered() && forall a :: a in actions ==> !Recompletes(a, owner, id)
    ensures var view := Resolving.ViewOf(ItemsOf(ApplyAll(cfg, store, actions), owner), true, now, key, desc);
      view.Ready? && forall r :: r in view.items ==> r.id != id
    decreases |actions|
  {
    hide Apply, NextItem, Lookup, ItemsOf, WellKept, Resolving.ViewOf;
    if actions == [] {
      OnView(store, owner, id, now, key, desc);
    } else {
      StepAt(cfg, store, actions[0], owner, id);
      LookupId(ItemsOf(store, owner), id);
      NextPreserves(cfg, ItemAt(store, owner, id), actions[0], owner, id);
      assert actions[0] in actions;
      NextCompletion(cfg, ItemAt(store, owner, id).value, actions[0], owner, id);
      ApplyKeepsWell(cfg, store, actions[0]);
      CompletedStaysOff(cfg, Apply(cfg, store, actions[0]), actions[1..], owner, id, now, key, desc);
    }
  }

  /** Items of an owner no action names are untouched by any run. */
  lemma {:induction false} OthersUntouched(cfg: Setup, store: Store, actions: seq<Action>, owner: string)
    requires forall a :: a in actions ==> a.owner != owner
    ensures ItemsOf(ApplyAll(cfg, store, actions), owner) == ItemsOf(store, owner)
    decreases |actions|
  {
    if actions != [] {
      hide PutAll, MergeAll, Lookup, Edit;
      OthersUntouched(cfg, Apply(cfg, store, actions[0]), actions[1..], owner);
    }
  }

  // -------------------------------------------------------------------------
  // Ingesting twice
  // -------------------------------------------------------------------------

  lemma SameItems(a: seq<WorkItem>, b: seq<WorkItem>)
    requires UniqueIds(a) && Ids(a) == Ids(b) && forall id :: Lookup(a, id) == Lookup(b, id)
    ensures a == b
  {
    assert |a| == |Ids(a)| == |Ids(b)| == |b|;
    forall k | 0 <= k < |a|
      ensures a[k] == b[k]
    {
      assert Ids(a)[k] == Ids(b)[k];
      SameIdsSameIndex(a, b, a[k].id);
      assert LastIndex(a, a[k].id) == k;
      assert Lookup(a, a[k].id) == Lookup(b, a[k].id);
    }
  }

  /** Merging what the first merge stored changes nothing. */
  lemma MergeTwice(bots: set<string>, prior: Option<WorkItem>, owner: string, now: int, w: WorkItem)
    ensures Merged(bots, Some(Merged(bots, prior, owner, now, w)), owner, now, w) == Merged(bots, prior, owner, now, w)
  {
    hide Score;
  }

  lemma {:induction false} AgainAppearsNothing(ids: seq<string>, more: seq<string>)
    requires forall id :: id in more ==> id in ids
    ensures FirstAppearances(ids + more) == FirstAppearances(ids)
  {
    if more == [] {
      assert ids + more == ids;
    } else {
      AgainAppearsNothing(ids, more[..|more| - 1]);
      AppearNext(ids + more[..|more| - 1], more[|more| - 1]);
      assert ids + more == ids + more[..|more| - 1] + [more[|more| - 1]];
    }
  }

  lemma IngestIds(cfg: Setup, store: Store, a: Action)
    requires a.Ingest? && a.batch != [] && UniqueIds(ItemsOf(store, a.owner))
    ensures Ids(ItemsOf(Apply(cfg, store, a), a.owner)) == FirstAppearances(Ids(ItemsOf(store, a.owner)) + Ids(a.batch))
  {
    hide Merged, MergeAll, PutAll, Lookup, UniqueIds, FirstAppearances;
    var s := ItemsOf(store, a.owner);
    MergeAllIds(cfg.bots, s, a.owner, a.now, a.batch);
    UpsertKeepsPositions(s, a.owner, MergeAll(cfg.bots, s, a.owner, a.now, a.batch));
  }

  lemma ApplyElsewhere(cfg: Setup, store: Store, a: Action)
    requires a.Ingest? && a.batch != []
    ensures Apply(cfg, store, a) == store[a.owner := ItemsOf(Apply(cfg, store, a), a.owner)]
  {
    hide MergeAll, PutAll;
  }

  lemma IdsAgain(s1: seq<WorkItem>, ids: seq<string>, more: seq<string>)
    requires UniqueIds(s1) && Ids(s1) == FirstAppearances(ids + more)
    ensures FirstAppearances(Ids(s1) + more) == Ids(s1)
  {
    hide FirstAppearances, Ids, UniqueIds;
    forall id | id in more
      ensures id in Ids(s1)
    {
      SameMembers(ids + more, id);
    }
    AgainAppearsNothing(Ids(s1), more);
    DistinctAppearOnce(s1);
  }

  lemma LookupTwice(cfg: Setup, store: Store, a: Action, id: string)
    requires a.Ingest?
    ensures var once := Apply(cfg, store, a); ItemAt(Apply(cfg, once, a), a.owner, id) == ItemAt(once, a.owner, id)
  {
    hide Apply, Merged, Lookup, ItemsOf;
    var once := Apply(cfg, store, a);
    StepAt(cfg, store, a, a.owner, id);
    StepAt(cfg, once, a, a.owner, id);
    if Lookup(a.batch, id).Some? {
      MergeTwice(cfg.bots, ItemAt(store, a.owner, id), a.owner, a.now, Lookup(a.batch, id).value);
    }
  }

  /** Posting the same batch again at the same clock reading is a no-op. */
  lemma IngestTwiceIsOnce(cfg: Setup, store: Store, a: Action)
    requires WellKept(store) && a.Ingest?
    ensures Apply(cfg, Apply(cfg, store, a), a) == Apply(cfg, store, a)
  {
    if a.batch != [] {
      var once := Apply(cfg, store, a);
      var twice := Apply(cfg, once, a);
      hide Apply, Lookup, UniqueIds, FirstAppearances, WellKept, Ids;
      ApplyKeepsWell(cfg, store, a);
      KeptUnique(store, a.owner);
      KeptUnique(once, a.owner);
      IngestIds(cfg, store, a);
      IngestIds(cfg, once, a);
      IdsAgain(ItemsOf(once, a.owner), Ids(ItemsOf(store, a.owner)), Ids(a.batch));
      forall id
        ensures Lookup(ItemsOf(once, a.owner), id) == Lookup(ItemsOf(twice, a.owner), id)
      {
        LookupTwice(cfg, store, a, id);
      }
      SameItems(ItemsOf(once, a.owner), ItemsOf(twice, a.owner));
      ApplyElsewhere(cfg, store, a);
      ApplyElsewhere(cfg, once, a);
    }
  }
}
