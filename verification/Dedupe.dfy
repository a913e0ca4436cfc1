/** What the in-flight index and the Active query mean in every reachable state. */
module Dedupe {
  import opened Options
  import opened Jobs
  import opened Registry
  import opened Protocol
  import opened Invariant
  import opened Runs

  predicate SameWork(a: Job, b: Job) { a.user == b.user && a.typ == b.typ && a.item == b.item }

  /** In every reachable state: the index is exact, no key is active twice, the queue holds distinct pending jobs. */
  lemma IndexIsExact(cfg: Config, es: seq<Event>)
    requires Run(cfg, es)
    ensures var sh := Reached(cfg, es).sh;
      && (forall id :: id in sh.jobs && sh.jobs[id].Active() ==> KeyOf(sh.jobs[id]) in sh.inflight)
      && (forall k :: k in sh.inflight ==> exists id :: id in sh.jobs && sh.jobs[id].Active() && KeyOf(sh.jobs[id]) == k)
      && (forall a, b :: a in sh.jobs && b in sh.jobs && sh.jobs[a].Active() && sh.jobs[b].Active() && SameWork(sh.jobs[a], sh.jobs[b]) ==> a == b)
      && |sh.queue| <= cfg.depth
      && (forall i, j :: 0 <= i < j < |sh.queue| ==> sh.queue[i] != sh.queue[j])
      && (forall id :: id in sh.queue ==> id in sh.jobs && sh.jobs[id].state.Pending?)
  {
    Reachable(cfg, es);
    var s := Reached(cfg, es);
    forall id | id in s.sh.queue ensures id in s.sh.jobs && s.sh.jobs[id].state.Pending? {
      assert Agrees(s.pc[id], s.sh.jobs[id]);
    }
  }

  /** A request is deduplicated exactly when its own (owner, type, item) is already active, slash-free owners given. */
  lemma DedupeIsExact(cfg: Config, es: seq<Event>, t: JobType, user: string, item: string, id: JobId)
    requires Run(cfg, es) && PolicyOf(t).Some? && !Reached(cfg, es).sh.closed
    requires SlashFree(user)
    requires forall k :: k in Reached(cfg, es).sh.jobs ==> SlashFree(Reached(cfg, es).sh.jobs[k].user)
    ensures var sh := Reached(cfg, es).sh;
      Enqueue(sh, cfg.depth, t, user, item, id).1.Duplicate? <==>
      exists k :: k in sh.jobs && sh.jobs[k].Active() && sh.jobs[k].user == user && sh.jobs[k].typ == t && sh.jobs[k].item == item
  {
    Reachable(cfg, es);
    hide Key, TypeName;
    var sh := Reached(cfg, es).sh;
    if Key(user, t, item) in sh.inflight {
      var k :| k in sh.jobs && sh.jobs[k].Active() && KeyOf(sh.jobs[k]) == Key(user, t, item);
      assert GoodRecord(k, sh.jobs[k]);
      KeyInjective(user, t, item, sh.jobs[k].user, sh.jobs[k].typ, sh.jobs[k].item);
    }
  }

  lemma RecordsAndIndex(cfg: Config, s: State)
    requires Inv(cfg, s)
    ensures RecordsOk(s.pc, s.sh.jobs) && IndexOk(s.sh.inflight, s.sh.jobs)
  {
  }

  ghost predicate KeyIsActive(sh: Shared, key: string) {
    exists k :: k in sh.jobs && sh.jobs[k].Active() && KeyOf(sh.jobs[k]) == key
  }

  /** `id` is the one active job of the key. */
  ghost predicate SoleHolder(sh: Shared, key: string, id: JobId) {
    && id in sh.jobs && sh.jobs[id].Active() && KeyOf(sh.jobs[id]) == key
    && forall k :: k in sh.jobs && sh.jobs[k].Active() && KeyOf(sh.jobs[k]) == key ==> k == id
  }

  lemma Listed(t: JobType)
    ensures PolicyOf(t).Some? <==> t in {Ingest, Enrich, Rank, Converse, Research}
  {
  }

  lemma QueueFits(cfg: Config, s: State)
    requires Inv(cfg, s)
    ensures |s.sh.queue| <= cfg.depth
  {
  }

  /**
   * What a caller learns from enqueue's verdict in any reachable state: a refusal without a record changes
   * nothing; otherwise one record is added and every other kept. Accepted, nobody held the key and the new job
   * alone does, at the end of the queue; duplicate, somebody holds it already; with a full queue nobody does.
   */
  lemma VerdictsMean(cfg: Config, es: seq<Event>, t: JobType, user: string, item: string, id: JobId)
    requires Run(cfg, es) && id !in Reached(cfg, es).sh.jobs
    ensures var sh := Reached(cfg, es).sh; var (sh', verdict) := Enqueue(sh, cfg.depth, t, user, item, id);
      var key := Key(user, t, item);
      && (verdict.UnknownType? <==> t !in {Ingest, Enrich, Rank, Converse, Research})
      && (verdict.Closed? <==> t in {Ingest, Enrich, Rank, Converse, Research} && sh.closed)
      && (verdict.Duplicate? <==> t in {Ingest, Enrich, Rank, Converse, Research} && !sh.closed && KeyIsActive(sh, key))
      && (verdict.UnknownType? || verdict.Closed? || verdict.Duplicate? ==> sh' == sh)
      && (verdict.Accepted? || verdict.QueueFull? ==>
          && sh'.jobs.Keys == sh.jobs.Keys + {id} && (forall k :: k in sh.jobs ==> sh'.jobs[k] == sh.jobs[k])
          && !sh.closed && sh'.completions == sh.completions && sh'.closed == sh.closed && !KeyIsActive(sh, key))
      && (verdict.Accepted? ==> SoleHolder(sh', key, id) && sh'.queue == sh.queue + [id] && |sh'.queue| <= cfg.depth)
      && (verdict.Duplicate? ==> exists k :: SoleHolder(sh, key, k))
      && (verdict.Accepted? ==> |sh.queue| < cfg.depth)
      && (verdict.QueueFull? ==> !KeyIsActive(sh', key) && sh'.queue == sh.queue && |sh.queue| == cfg.depth)
  {
    hide Key, TypeName, Run, Reached, Inv, GoodRecord, PolicyOf;
    Listed(t);
    Reachable(cfg, es);
    var s := Reached(cfg, es);
    RecordsAndIndex(cfg, s);
    QueueFits(cfg, s);
    var key := Key(user, t, item);
    assert key in s.sh.inflight <==> KeyIsActive(s.sh, key);
    if key in s.sh.inflight {
      var k :| k in s.sh.jobs && s.sh.jobs[k].Active() && KeyOf(s.sh.jobs[k]) == key;
      assert SoleHolder(s.sh, key, k);
    }
  }

  ghost predicate SomePipelineKey(sh: Shared, u: string) {
    exists t :: Pipeline(t) && Key(u, t, "") in sh.inflight
  }

  lemma ActiveHasKey(jobs: map<JobId, Job>, u: string, id: JobId)
    requires id in jobs && GoodRecord(id, jobs[id]) && CountsAsActive(jobs[id], u)
    ensures Pipeline(jobs[id].typ) && Key(u, jobs[id].typ, "") in ActiveKeys(jobs)
  {
    hide Key, TypeName;
    assert KeyOf(jobs[id]) in ActiveKeys(jobs);
  }

  lemma KeyHasActive(jobs: map<JobId, Job>, u: string, t: JobType, id: JobId)
    requires id in jobs && GoodRecord(id, jobs[id]) && jobs[id].Active() && !Shadowed(u)
    requires Pipeline(t) && KeyOf(jobs[id]) == Key(u, t, "")
    ensures CountsAsActive(jobs[id], u)
  {
    hide Key, TypeName, Shadows;
    PipelineKeyClash(u, t, jobs[id].user, jobs[id].typ, jobs[id].item);
  }

  /** Active(u) is exactly "one of u's three pipeline keys is in flight", for every owner that is not shadowed. */
  lemma ActiveMatchesIndex(cfg: Config, es: seq<Event>, u: string)
    requires Run(cfg, es) && !Shadowed(u)
    ensures PipelineActive(Reached(cfg, es).sh, u) <==> SomePipelineKey(Reached(cfg, es).sh, u)
  {
    hide Key, TypeName, Shadowed, Shadows, Reached, Run, Pipeline, CountsAsActive, GoodRecord, Inv;
    Reachable(cfg, es);
    var sh := Reached(cfg, es).sh;
    RecordsAndIndex(cfg, Reached(cfg, es));
    if PipelineActive(sh, u) {
      var id :| id in sh.jobs && CountsAsActive(sh.jobs[id], u);
      ActiveHasKey(sh.jobs, u, id);
    }
    if SomePipelineKey(sh, u) {
      var t :| Pipeline(t) && Key(u, t, "") in sh.inflight;
      var id :| id in sh.jobs && sh.jobs[id].Active() && KeyOf(sh.jobs[id]) == Key(u, t, "");
      KeyHasActive(sh.jobs, u, t, id);
    }
  }

  lemma FirstRequest(cfg: Config, call: Call, t: JobType, v: string, item: string)
    requires cfg.Valid() && Wanted(call) == Some((t, v, item)) && PolicyOf(t).Some?
    ensures var sh := Step(cfg, Init(cfg), Request(call, 0)).sh;
      sh.inflight == {Key(v, t, item)} && sh.jobs.Keys == {0} && sh.jobs[0].typ == t
  {
    hide Key, TypeName;
  }

  /** For a shadowed owner the two differ: one accepted per-item request of another owner is enough. */
  lemma ActiveMissesIndexWhenShadowed(cfg: Config, u: string) returns (es: seq<Event>)
    requires cfg.Valid() && Shadowed(u)
    ensures Run(cfg, es)
    ensures !PipelineActive(Reached(cfg, es).sh, u) && SomePipelineKey(Reached(cfg, es).sh, u)
  {
    var v, t :| Shadows(v, t, u);
    var item := ShadowItem(v, t, u);
    var call := if t.Converse? then AskConverse(v, item) else AskResearch(v, item);
    es := [Request(call, 0)];
    var s := Init(cfg);
    FirstRequest(cfg, call, t, v, item);
    assert CanRun(cfg, s, es) && After(cfg, s, es) == Step(cfg, s, es[0]) by {
      assert es[1..] == [];
    }
    hide Step, Key, TypeName, Shadows;
    var sh := Reached(cfg, es).sh;
    assert Key(v, t, item) in sh.inflight;
    assert Pipeline(Ingest) && Key(u, Ingest, "") in sh.inflight;
  }

  lemma ShadowHasSlash(v: string, t: JobType, u: string)
    requires Shadows(v, t, u)
    ensures '/' in u
  {
    var p := v + "/" + TypeName(t) + "/";
    assert p <= u + "/";
    assert |v| + 1 < |p| <= |u| + 1;
    assert (u + "/")[|v|] == p[|v|] == '/';
    assert u[|v|] == '/';
  }

  /** A slash-free owner is never shadowed. */
  lemma SlashFreeIsNotShadowed(u: string)
    requires SlashFree(u)
    ensures !Shadowed(u)
  {
    if Shadowed(u) {
      var v, t :| Shadows(v, t, u);
      ShadowHasSlash(v, t, u);
    }
  }
}
