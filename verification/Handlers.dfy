/** The handlers that write work items: ingest, conversation, research and hide, as transitions of the store. */
module Handlers {
  import opened Options
  import opened Items
  import opened Scoring
  import opened Sorting
  import opened WorklistStore

  /** A clock reading; the zero time is never read. */
  type Clock = n: int | 0 < n witness 1

  datatype Setup = Setup(bots: set<string>, enabled: bool)

  datatype Action =
    | Ingest(owner: string, now: Clock, batch: seq<WorkItem>)
    | Post(owner: string, id: string, content: string, now: Clock)
    | Append(owner: string, id: string, content: string, now: Clock)
    | MarkRead(owner: string, id: string, now: Clock)
    | SetResearch(owner: string, id: string, adjustment: Research, now: Clock)
    | Hide(owner: string, id: string, now: Clock)

  // -------------------------------------------------------------------------
  // What each action does to an item
  // -------------------------------------------------------------------------

  /** HiddenAfter: a hidden item stays hidden until GitHub shows a later update. */
  function HiddenAfter(prevHiddenAt: int, updatedAt: int): int {
    if prevHiddenAt == 0 || updatedAt > prevHiddenAt then 0 else prevHiddenAt
  }

  predicate White(c: char) {
    var n := c as int;
    || 9 <= n <= 13 || n == 0x20 || n == 0x85 || n == 0xA0 || n == 0x1680 || 0x2000 <= n <= 0x200A
    || n == 0x2028 || n == 0x2029 || n == 0x202F || n == 0x205F || n == 0x3000
  }

  /** strings.TrimSpace */
  function Trim(s: string): string {
    if s == "" then ""
    else if White(s[0]) then Trim(s[1..])
    else if White(s[|s| - 1]) then Trim(s[..|s| - 1])
    else s
  }

  /** White space: tab to carriage return, space, next line, no-break space and the spaces of Unicode. */
  predicate AllSpace(s: string) {
    forall c :: c in s ==>
      c as int in {0x09, 0x0A, 0x0B, 0x0C, 0x0D, 0x20, 0x85, 0xA0, 0x1680, 0x2000, 0x2001, 0x2002, 0x2003, 0x2004, 0x2005,
                   0x2006, 0x2007, 0x2008, 0x2009, 0x200A, 0x2028, 0x2029, 0x202F, 0x205F, 0x3000}
  }

  lemma WhiteIsSpace(c: char)
    ensures White(c) <==> AllSpace([c])
  {
    assert c in [c];
  }

  lemma SpaceJoins(a: string, b: string)
    ensures AllSpace(a + b) <==> AllSpace(a) && AllSpace(b)
  {
    assert forall c :: c in a + b <==> c in a || c in b;
  }

  lemma TrimStep(s: string)
    ensures Trim("") == ""
    ensures s != "" && White(s[0]) ==> Trim(s) == Trim(s[1..])
    ensures s != "" && !White(s[0]) && White(s[|s| - 1]) ==> Trim(s) == Trim(s[..|s| - 1])
    ensures s != "" && !White(s[0]) && !White(s[|s| - 1]) ==> Trim(s) == s
  {
    hide White;
  }

  lemma {:induction false} TrimEnds(s: string)
    ensures Trim(s) != "" ==> !White(Trim(s)[0]) && !White(Trim(s)[|Trim(s)| - 1])
    decreases |s|
  {
    hide White, Trim;
    TrimStep(s);
    if s != "" && White(s[0]) {
      TrimEnds(s[1..]);
    } else if s != "" && White(s[|s| - 1]) {
      TrimEnds(s[..|s| - 1]);
    }
  }

  lemma WrapLeft(c: char, l: string, t: string, r: string)
    ensures [c] + (l + t + r) == ([c] + l) + t + r
  {
  }

  lemma WrapRight(c: char, l: string, t: string, r: string)
    ensures (l + t + r) + [c] == l + t + (r + [c])
  {
  }

  lemma {:induction false} TrimMiddle(s: string) returns (left: string, right: string)
    ensures s == left + Trim(s) + right && AllSpace(left) && AllSpace(right)
    decreases |s|
  {
    assert AllSpace("");
    hide White, Trim, AllSpace;
    TrimStep(s);
    left, right := "", "";
    if s != "" && White(s[0]) {
      var l, r := TrimMiddle(s[1..]);
      WhiteIsSpace(s[0]);
      SpaceJoins([s[0]], l);
      WrapLeft(s[0], l, Trim(s[1..]), r);
      assert s == [s[0]] + s[1..];
      left, right := [s[0]] + l, r;
    } else if s != "" && White(s[|s| - 1]) {
      var l, r := TrimMiddle(s[..|s| - 1]);
      WhiteIsSpace(s[|s| - 1]);
      SpaceJoins(r, [s[|s| - 1]]);
      WrapRight(s[|s| - 1], l, Trim(s[..|s| - 1]), r);
      assert s == s[..|s| - 1] + [s[|s| - 1]];
      left, right := l, r + [s[|s| - 1]];
    } else {
      assert s == "" + s + "";
    }
  }

  /** Trimming takes white space off both ends, all of it and nothing else. */
  lemma TrimMeaning(s: string) returns (left: string, right: string)
    ensures s == left + Trim(s) + right && AllSpace(left) && AllSpace(right)
    ensures Trim(s) != "" ==> !AllSpace([Trim(s)[0]]) && !AllSpace([Trim(s)[|Trim(s)| - 1]])
  {
    hide White, Trim, AllSpace;
    left, right := TrimMiddle(s);
    TrimEnds(s);
    if Trim(s) != "" {
      WhiteIsSpace(Trim(s)[0]);
      WhiteIsSpace(Trim(s)[|Trim(s)| - 1]);
    }
  }

  /** The posted signals with the stored research, the proposal kept unless a new one came, and the bot flag. */
  function CarriedSignals(bots: set<string>, prior: Option<WorkItem>, s: Signals): Signals {
    s.(research := if prior.Some? then prior.value.signals.research else None,
       proposed := if s.proposed.Some? || prior.None? then s.proposed else prior.value.signals.proposed,
       reviewRequestedByBot := s.reviewRequestedBy in bots)
  }

  /** The posted item before it is scored. */
  function Carried(bots: set<string>, prior: Option<WorkItem>, owner: string, w: WorkItem): WorkItem {
    w.(owner := owner, signals := CarriedSignals(bots, prior, w.signals), meta := w.meta.(origin := OriginAgent))
  }

  /** The item to store for a posted one, given the item stored under its id before. */
  function Merged(bots: set<string>, prior: Option<WorkItem>, owner: string, now: int, w: WorkItem): WorkItem {
    var hidden := if prior.Some? then prior.value.meta.hiddenAt else 0;
    var meta := Score(Carried(bots, prior, owner, w), now);
    Carried(bots, prior, owner, w).(
      meta := meta.(completedAt := w.meta.completedAt, hiddenAt := HiddenAfter(hidden, w.githubUpdatedAt), updatedAt := now),
      thread := if prior.Some? then prior.value.thread else [],
      threadReadAt := if prior.Some? then prior.value.threadReadAt else 0,
      createdAt := if w.createdAt == 0 then now else w.createdAt,
      updatedAt := now)
  }

  function Say(w: WorkItem, role: Role, text: string, now: int): WorkItem {
    w.(thread := w.thread + [Message(role, text, now)])
  }

  /** Set: the adjustment is stored and the item scored anew; only the hidden state survives. */
  function Researched(w: WorkItem, adjustment: Research, now: int): WorkItem {
    var adjusted := w.(signals := w.signals.(research := Some(adjustment)));
    adjusted.(meta := Score(adjusted, now).(hiddenAt := w.meta.hiddenAt, origin := OriginAgent, updatedAt := now), updatedAt := now)
  }

  /** What the single-item actions make of the item they name, None when they refuse. */
  function Edit(cfg: Setup, a: Action, w: WorkItem): Option<WorkItem> {
    match a
    case Ingest(_, _, _) => None
    case Post(_, id, content, now) =>
      if !cfg.enabled || id == "" || Trim(content) == "" then None else Some(Say(w, RoleUser, Trim(content), now))
    case Append(_, id, content, now) =>
      if id == "" || Trim(content) == "" then None else Some(Say(w, RoleAgent, Trim(content), now))
    case MarkRead(_, id, now) => if id == "" then None else Some(w.(threadReadAt := now))
    case SetResearch(_, id, adjustment, now) => if id == "" then None else Some(Researched(w, adjustment, now))
    case Hide(_, id, now) => if id == "" then None else Some(w.(meta := w.meta.(hiddenAt := now)))
  }

  // -------------------------------------------------------------------------
  // What each action does to the store
  // -------------------------------------------------------------------------

  function MergeAll(bots: set<string>, existing: seq<WorkItem>, owner: string, now: int, batch: seq<WorkItem>): seq<WorkItem> {
    seq(|batch|, k requires 0 <= k < |batch| => Merged(bots, Lookup(existing, batch[k].id), owner, now, batch[k]))
  }

  function Apply(cfg: Setup, store: Store, a: Action): Store {
    match a
    case Ingest(owner, now, batch) =>
      if batch == [] then store
      else Upserted(store, owner, MergeAll(cfg.bots, ItemsOf(store, owner), owner, now, batch))
    case _ =>
      var w := Lookup(ItemsOf(store, a.owner), a.id);
      if w.Some? && Edit(cfg, a, w.value).Some? then Upserted(store, a.owner, [Edit(cfg, a, w.value).value]) else store
  }

  function ApplyAll(cfg: Setup, store: Store, actions: seq<Action>): Store
    decreases |actions|
  {
    if actions == [] then store else ApplyAll(cfg, Apply(cfg, store, actions[0]), actions[1..])
  }

  lemma ApplyKeepsWell(cfg: Setup, store: Store, a: Action)
    requires WellKept(store)
    ensures WellKept(Apply(cfg, store, a))
  {
    hide WellKept, Upserted, MergeAll, Lookup, Edit;
    if a.Ingest? {
      UpsertKeepsWell(store, a.owner, MergeAll(cfg.bots, ItemsOf(store, a.owner), a.owner, a.now, a.batch));
    } else if Lookup(ItemsOf(store, a.owner), a.id).Some? && Edit(cfg, a, Lookup(ItemsOf(store, a.owner), a.id).value).Some? {
      UpsertKeepsWell(store, a.owner, [Edit(cfg, a, Lookup(ItemsOf(store, a.owner), a.id).value).value]);
    }
  }

  datatype Status = Accepted | Done | NotFound | BadRequest | Unavailable | NotStarted

  /** The assistant's queue as the thread handler sees it; `calls` remembers what the store held at each call. */
  class ConverseEnqueuer {
    const store: MemoryStore
    ghost var calls: seq<(string, string, Store)>

    constructor (store: MemoryStore)
      ensures this.store == store && calls == []
    {
      this.store := store;
      calls := [];
    }

    /** `started` is the orchestrator's answer. */
    method Converse(owner: string, id: string, started: bool) returns (ok: bool)
      modifies this
      ensures ok == started && calls == old(calls) + [(owner, id, store.Contents())]
    {
      calls := calls + [(owner, id, store.Contents())];
      ok := started;
    }
  }

  // -------------------------------------------------------------------------
  // The lookup maps of Ingest
  // -------------------------------------------------------------------------

  lemma MergeNone(bots: set<string>, existing: seq<WorkItem>, owner: string, now: int)
    ensures MergeAll(bots, existing, owner, now, []) == []
  {
  }

  lemma KeptUnique(store: Store, owner: string)
    requires WellKept(store)
    ensures UniqueIds(ItemsOf(store, owner))
  {
  }

  function Get<T>(m: map<string, T>, id: string): Option<T> { if id in m then Some(m[id]) else None }

  function GetOr<T>(m: map<string, T>, id: string, zero: T): T { if id in m then m[id] else zero }

  function HiddenOf(w: WorkItem): Option<int> { if w.meta.hiddenAt != 0 then Some(w.meta.hiddenAt) else None }

  function ThreadOf(w: WorkItem): Option<seq<Message>> { if |w.thread| > 0 then Some(w.thread) else None }

  function ReadAtOf(w: WorkItem): Option<int> { if w.threadReadAt != 0 then Some(w.threadReadAt) else None }

  function ResearchOf(w: WorkItem): Option<Research> { w.signals.research }

  function ProposedOf(w: WorkItem): Option<AxisProposal> { w.signals.proposed }

  function Field<T>(w: Option<WorkItem>, f: WorkItem -> Option<T>): Option<T> { if w.Some? then f(w.value) else None }

  /** The map holds what the listed items say, by id. */
  ghost predicate Recalls<T(!new)>(m: map<string, T>, s: seq<WorkItem>, f: WorkItem -> Option<T>) {
    forall id :: Get(m, id) == Field(Lookup(s, id), f)
  }

  lemma RecallNothing<T(!new)>(f: WorkItem -> Option<T>)
    ensures Recalls(map[], [], f)
  {
  }

  lemma RecallAt<T(!new)>(m: map<string, T>, s: seq<WorkItem>, f: WorkItem -> Option<T>, id: string)
    requires Recalls(m, s, f)
    ensures Get(m, id) == Field(Lookup(s, id), f)
  {
  }

  /** With different ids one more item adds its own entry and shadows nothing. */
  lemma RecallStep<T(!new)>(m: map<string, T>, s: seq<WorkItem>, i: nat, f: WorkItem -> Option<T>)
    requires i < |s| && UniqueIds(s) && Recalls(m, s[..i], f)
    ensures Recalls(if f(s[i]).Some? then m[s[i].id := f(s[i]).value] else m, s[..i + 1], f)
  {
    var m' := if f(s[i]).Some? then m[s[i].id := f(s[i]).value] else m;
    assert s[..i + 1][..i] == s[..i];
    forall id
      ensures Get(m', id) == Field(Lookup(s[..i + 1], id), f)
    {
      RecallAt(m, s[..i], f, id);
      assert LastIndex(s[..i], s[i].id) == -1;
    }
  }

  // -------------------------------------------------------------------------
  // The handlers
  // -------------------------------------------------------------------------

  class WorklistHandlers {
    const store: MemoryStore
    const enqueuer: ConverseEnqueuer
    const cfg: Setup

    ghost predicate Valid()
      reads store, store.items.Values
    {
      store.Valid() && WellKept(store.Contents()) && enqueuer.store == store
    }

    constructor (store: MemoryStore, enqueuer: ConverseEnqueuer, botReviewers: seq<string>, enabled: bool)
      ensures this.store == store && this.enqueuer == enqueuer && cfg.enabled == enabled
      ensures forall login :: login in cfg.bots <==> login in botReviewers && login != ""
    {
      this.store := store;
      this.enqueuer := enqueuer;
      var bots: set<string> := {};
      for i := 0 to |botReviewers|
        invariant forall login :: login in bots <==> login in botReviewers[..i] && login != ""
      {
        if botReviewers[i] != "" {
          bots := bots + {botReviewers[i]};
        }
      }
      cfg := Setup(bots, enabled);
    }

    /** The search loop of findItem. */
    method FindItem(owner: string, id: string) returns (found: Option<WorkItem>)
      requires Valid()
      ensures found == Lookup(ItemsOf(store.Contents(), owner), id)
    {
      var items := store.List(owner);
      for i := 0 to items.Length
        invariant forall k :: 0 <= k < i ==> items[k].id != id
      {
        if items[i].id == id {
          return Some(items[i]);
        }
      }
      found := None;
    }

    /** Saves one edited item. */
    method Save(a: Action, w: WorkItem)
      requires Valid() && !a.Ingest? && Lookup(ItemsOf(store.Contents(), a.owner), a.id).Some?
      requires Edit(cfg, a, Lookup(ItemsOf(store.Contents(), a.owner), a.id).value) == Some(w)
      modifies store.Repr()
      ensures Valid() && fresh(store.Repr() - old(store.Repr()))
      ensures store.Contents() == Apply(cfg, old(store.Contents()), a)
    {
      hide Upserted, Lookup, Edit, WellKept;
      ApplyKeepsWell(cfg, store.Contents(), a);
      store.Upsert(a.owner, [w]);
    }

    /** The message is saved before the turn is started, so a failed start does not take it back. */
    method Post(owner: string, id: string, content: string, now: Clock, started: bool) returns (status: Status)
      requires Valid()
      modifies store.Repr(), enqueuer
      ensures Valid() && fresh(store.Repr() - old(store.Repr()))
      ensures store.Contents() == Apply(cfg, old(store.Contents()), Action.Post(owner, id, content, now))
      ensures status ==
        if !cfg.enabled then Unavailable
        else if id == "" || Trim(content) == "" then BadRequest
        else if Lookup(ItemsOf(old(store.Contents()), owner), id).None? then NotFound
        else if started then Accepted else NotStarted
      ensures enqueuer.calls ==
        if status.Accepted? || status.NotStarted? then old(enqueuer.calls) + [(owner, id, store.Contents())] else old(enqueuer.calls)
    {
      hide WellKept, Upserted, Lookup, Trim;
      if !cfg.enabled {
        return Unavailable;
      }
      var text := Trim(content);
      if id == "" || text == "" {
        return BadRequest;
      }
      var found := FindItem(owner, id);
      if found.None? {
        return NotFound;
      }
      var item := found.value.(thread := found.value.thread + [Message(RoleUser, text, now)]);
      Save(Action.Post(owner, id, content, now), item);
      var ok := enqueuer.Converse(owner, id, started);
      status := if ok then Accepted else NotStarted;
    }

    method Append(owner: string, id: string, content: string, now: Clock) returns (status: Status)
      requires Valid()
      modifies store.Repr()
      ensures Valid() && fresh(store.Repr() - old(store.Repr()))
      ensures store.Contents() == Apply(cfg, old(store.Contents()), Action.Append(owner, id, content, now))
      ensures status ==
        if id == "" || Trim(content) == "" then BadRequest
        else if Lookup(ItemsOf(old(store.Contents()), owner), id).None? then NotFound else Done
    {
      hide WellKept, Upserted, Lookup, Trim;
      var text := Trim(content);
      if id == "" || text == "" {
        return BadRequest;
      }
      var found := FindItem(owner, id);
      if found.None? {
        return NotFound;
      }
      var item := found.value.(thread := found.value.thread + [Message(RoleAgent, text, now)]);
      Save(Action.Append(owner, id, content, now), item);
      status := Done;
    }

    method MarkRead(owner: string, id: string, now: Clock) returns (status: Status)
      requires Valid()
      modifies store.Repr()
      ensures Valid() && fresh(store.Repr() - old(store.Repr()))
      ensures store.Contents() == Apply(cfg, old(store.Contents()), Action.MarkRead(owner, id, now))
      ensures status ==
        if id == "" then BadRequest else if Lookup(ItemsOf(old(store.Contents()), owner), id).None? then NotFound else Done
    {
      hide WellKept, Upserted, Lookup;
      if id == "" {
        return BadRequest;
      }
      var found := FindItem(owner, id);
      if found.None? {
        return NotFound;
      }
      Save(Action.MarkRead(owner, id, now), found.value.(threadReadAt := now));
      status := Done;
    }

    method SetResearch(owner: string, id: string, adjustment: Research, now: Clock) returns (status: Status)
      requires Valid()
      modifies store.Repr()
      ensures Valid() && fresh(store.Repr() - old(store.Repr()))
      ensures store.Contents() == Apply(cfg, old(store.Contents()), Action.SetResearch(owner, id, adjustment, now))
      ensures status ==
        if id == "" then BadRequest else if Lookup(ItemsOf(old(store.Contents()), owner), id).None? then NotFound else Done
    {
      hide WellKept, Upserted, Lookup, Score;
      if id == "" {
        return BadRequest;
      }
      var found := FindItem(owner, id);
      if found.None? {
        return NotFound;
      }
      var item := found.value;
      var hidden := item.meta.hiddenAt;
      item := item.(signals := item.signals.(research := Some(adjustment)));
      var meta := ComputeScore(item, now);
      meta := meta.(hiddenAt := hidden);
      meta := meta.(origin := OriginAgent);
      meta := meta.(updatedAt := now);
      item := item.(meta := meta, updatedAt := now);
      Save(Action.SetResearch(owner, id, adjustment, now), item);
      status := Done;
    }

    /** Redirects whatever happens, so it reports nothing. */
    method Hide(owner: string, id: string, now: Clock)
      requires Valid()
      modifies store.Repr()
      ensures Valid() && fresh(store.Repr() - old(store.Repr()))
      ensures store.Contents() == Apply(cfg, old(store.Contents()), Action.Hide(owner, id, now))
    {
      hide WellKept, Upserted, Lookup;
      if id == "" {
        return;
      }
      var found := FindItem(owner, id);
      if found.Some? {
        var item := found.value;
        Save(Action.Hide(owner, id, now), item.(meta := item.meta.(hiddenAt := now)));
      }
    }

    /** Restores what only ZZ may decide about an item's signals. */
    method Carry(s: Signals, ghost prior: Option<WorkItem>, prevResearch: Option<Research>, prevProposed: Option<AxisProposal>)
      returns (signals: Signals)
      requires prevResearch == Field(prior, ResearchOf) && prevProposed == Field(prior, ProposedOf)
      ensures signals == CarriedSignals(cfg.bots, prior, s)
    {
      signals := s.(research := prevResearch);
      if signals.proposed.None? {
        signals := signals.(proposed := prevProposed);
      }
      signals := signals.(reviewRequestedByBot := signals.reviewRequestedBy in cfg.bots);
    }

    /** The loop body of Ingest, for one item. */
    method Decorate(owner: string, now: Clock, w: WorkItem, ghost prior: Option<WorkItem>, prevHidden: map<string, int>,
      prevThread: map<string, seq<Message>>, prevReadAt: map<string, int>, prevResearch: map<string, Research>,
      prevProposed: map<string, AxisProposal>) returns (it: WorkItem)
      requires Get(prevHidden, w.id) == Field(prior, HiddenOf) && Get(prevThread, w.id) == Field(prior, ThreadOf)
      requires Get(prevReadAt, w.id) == Field(prior, ReadAtOf)
      requires Get(prevResearch, w.id) == Field(prior, ResearchOf) && Get(prevProposed, w.id) == Field(prior, ProposedOf)
      ensures it == Merged(cfg.bots, prior, owner, now, w)
    {
      hide Score, HiddenAfter, CarriedSignals;
      it := w.(owner := owner);
      it := it.(meta := it.meta.(origin := OriginAgent));
      var signals := Carry(w.signals, prior, Get(prevResearch, w.id), Get(prevProposed, w.id));
      it := it.(signals := signals);
      assert it == Carried(cfg.bots, prior, owner, w);
      hide Carried;
      var completedAt := it.meta.completedAt;
      var meta := ComputeScore(it, now);
      meta := meta.(completedAt := completedAt);
      meta := meta.(hiddenAt := HiddenAfter(GetOr(prevHidden, it.id, 0), it.githubUpdatedAt));
      it := it.(thread := GetOr(prevThread, it.id, []));
      it := it.(threadReadAt := GetOr(prevReadAt, it.id, 0));
      if it.createdAt == 0 {
        it := it.(createdAt := now);
      }
      it := it.(updatedAt := now);
      it := it.(meta := meta.(updatedAt := now));
    }

    /** The two loops of Ingest: the lookup maps over the listed items, then the posted items, in place. */
    method MergeInPlace(owner: string, now: Clock, listed: array<WorkItem>, req: array<WorkItem>)
      requires req != listed && UniqueIds(listed[..])
      modifies req
      ensures req[..] == MergeAll(cfg.bots, listed[..], owner, now, old(req[..]))
    {
      hide Lookup, Score, HiddenAfter, Recalls, UniqueIds, Merged;
      ghost var existing := listed[..];
      var prevHidden: map<string, int> := map[];
      var prevThread: map<string, seq<Message>> := map[];
      var prevReadAt: map<string, int> := map[];
      var prevResearch: map<string, Research> := map[];
      var prevProposed: map<string, AxisProposal> := map[];
      assert existing[..0] == [];
      RecallNothing(HiddenOf);
      RecallNothing(ThreadOf);
      RecallNothing(ReadAtOf);
      RecallNothing(ResearchOf);
      RecallNothing(ProposedOf);
      for i := 0 to listed.Length
        modifies {}
        invariant Recalls(prevHidden, existing[..i], HiddenOf)
        invariant Recalls(prevThread, existing[..i], ThreadOf)
        invariant Recalls(prevReadAt, existing[..i], ReadAtOf)
        invariant Recalls(prevResearch, existing[..i], ResearchOf)
        invariant Recalls(prevProposed, existing[..i], ProposedOf)
      {
        var it := listed[i];
        RecallStep(prevHidden, existing, i, HiddenOf);
        RecallStep(prevThread, existing, i, ThreadOf);
        RecallStep(prevReadAt, existing, i, ReadAtOf);
        RecallStep(prevResearch, existing, i, ResearchOf);
        RecallStep(prevProposed, existing, i, ProposedOf);
        if it.meta.hiddenAt != 0 {
          prevHidden := prevHidden[it.id := it.meta.hiddenAt];
        }
        if |it.thread| > 0 {
          prevThread := prevThread[it.id := it.thread];
        }
        if it.threadReadAt != 0 {
          prevReadAt := prevReadAt[it.id := it.threadReadAt];
        }
        if it.signals.research.Some? {
          prevResearch := prevResearch[it.id := it.signals.research.value];
        }
        if it.signals.proposed.Some? {
          prevProposed := prevProposed[it.id := it.signals.proposed.value];
        }
      }
      assert existing[..|existing|] == existing;
      var i := 0;
      while i < req.Length
        modifies req
        invariant 0 <= i <= req.Length
        invariant forall k :: 0 <= k < i ==> req[k] == Merged(cfg.bots, Lookup(existing, old(req[k]).id), owner, now, old(req[k]))
        invariant forall k :: i <= k < req.Length ==> req[k] == old(req[k])
      {
        var it := req[i];
        RecallAt(prevHidden, existing, HiddenOf, it.id);
        RecallAt(prevThread, existing, ThreadOf, it.id);
        RecallAt(prevReadAt, existing, ReadAtOf, it.id);
        RecallAt(prevResearch, existing, ResearchOf, it.id);
        RecallAt(prevProposed, existing, ProposedOf, it.id);
        req[i] := Decorate(owner, now, it, Lookup(existing, it.id), prevHidden, prevThread, prevReadAt, prevResearch, prevProposed);
        i := i + 1;
      }
    }

    /** Merges the posted items with what is stored, in place, and writes them. */
    method Ingest(owner: string, now: Clock, req: array<WorkItem>) returns (status: Status)
      requires Valid() && req !in store.Repr()
      modifies store.Repr(), req
      ensures Valid() && fresh(store.Repr() - old(store.Repr()))
      ensures status == if req.Length == 0 then BadRequest else Done
      ensures store.Contents() == Apply(cfg, old(store.Contents()), Action.Ingest(owner, now, old(req[..])))
      ensures req[..] == MergeAll(cfg.bots, ItemsOf(old(store.Contents()), owner), owner, now, old(req[..]))
    {
      hide WellKept, Upserted, UniqueIds, MergeAll;
      if req.Length == 0 {
        MergeNone(cfg.bots, ItemsOf(store.Contents(), owner), owner, now);
        return BadRequest;
      }
      var existing := store.List(owner);
      ApplyKeepsWell(cfg, store.Contents(), Action.Ingest(owner, now, req[..]));
      KeptUnique(store.Contents(), owner);
      MergeInPlace(owner, now, existing, req);
      store.Upsert(owner, req[..]);
      status := Done;
    }

    /** The agent's read: one item by id, the best-ranked shortlist sorted in the list's own copy, or everything. */
    method List(owner: string, id: string, limit: int) returns (out: seq<WorkItem>)
      requires Valid()
      ensures store.Contents() == old(store.Contents())
      ensures var all := ItemsOf(store.Contents(), owner);
        out == if id == "" then Shortlist(all, limit)
               else match Lookup(all, id) case None => [] case Some(w) => [w]
    {
      hide WellKept, Lookup, Arranged;
      if id != "" {
        var found := FindItem(owner, id);
        return if found.Some? then [found.value] else [];
      }
      var items := store.List(owner);
      ghost var all := items[..];
      var n := items.Length;
      if limit > 0 && limit < n {
        assert items[..n] == all;
        var _ := Sort(items, n, ByRank, true);
        ArrangedLength(ByRank, true, all);
        assert items[..n][..limit] == items[..limit];
        n := limit;
      }
      out := items[..n];
    }
  }
}
