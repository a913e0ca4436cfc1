/** How many records each stage of a user's pipeline can have. */
module Pipelines {
  import opened Options
  import opened Jobs
  import opened Registry
  import opened Protocol
  import opened Invariant
  import opened Runs
  import opened Hops
  import Finalisation

  ghost function Records(s: State, t: JobType, u: string): set<JobId> {
    set id | id in s.sh.jobs && s.sh.jobs[id].typ == t && s.sh.jobs[id].user == u
  }

  ghost function SucceededJobs(s: State, t: JobType, u: string): set<JobId> {
    set id | id in Records(s, t, u) && s.sh.jobs[id].state.Succeeded?
  }

  /** The succeeded jobs that have already handed over to the next stage. */
  ghost function HandedOver(s: State, t: JobType, u: string): set<JobId> {
    set id | id in SucceededJobs(s, t, u) && id in s.pc && !s.pc[id].Chaining?
  }

  /** The EnsureBackfill calls made for the user. */
  function Backfills(es: seq<Event>, u: string): nat {
    if es == [] then 0 else
    Backfills(Front(es), u) + (if Last(es).Request? && Last(es).call == EnsureBackfill(u) then 1 else 0)
  }

  lemma HandedAt(cfg: Config, s: State, e: Event, t: JobType, u: string, id: JobId)
    requires Inv(cfg, s) && Enabled(cfg, s, e) && id in HandedOver(s, t, u)
    ensures id in HandedOver(Step(cfg, s, e), t, u)
  {
    hide Step, Enabled, Inv, Shape, Mover, GoodRecord;
    InvShape(cfg, s);
    Known(cfg, s, id);
    Finalisation.TerminalStays(cfg, s, e, id);
    HopAt(cfg, s, e, id);
  }

  lemma HandedStays(cfg: Config, s: State, e: Event, t: JobType, u: string)
    requires Inv(cfg, s) && Enabled(cfg, s, e)
    ensures HandedOver(s, t, u) <= HandedOver(Step(cfg, s, e), t, u)
  {
    hide Step, Enabled, Inv, HandedOver;
    forall id | id in HandedOver(s, t, u) ensures id in HandedOver(Step(cfg, s, e), t, u) {
      HandedAt(cfg, s, e, t, u, id);
    }
  }

  /** The record an event may add, with its type and user. */
  function Added(s: State, e: Event): Option<(JobType, string, JobId)> {
    match e
    case Request(call, k) =>
      (match Wanted(call)
       case None => None
       case Some((t, u, _)) => Some((t, u, k)))
    case Chain(j, k) =>
      if j in s.sh.jobs && NextStage(s.sh.jobs[j].typ).Some? then
        Some((NextStage(s.sh.jobs[j].typ).value, s.sh.jobs[j].user, k))
      else None
    case _ => None
  }

  /** The most a set of records may grow by. */
  function Extra(s: State, e: Event, t: JobType, u: string): set<JobId> {
    match Added(s, e)
    case None => {}
    case Some((r, v, k)) => if r == t && v == u then {k} else {}
  }

  lemma SubmitAddsOne(s: State, s': State, r: JobType, v: string, k: JobId, t: JobType, u: string)
    requires Submitted(s, s', r, v, k)
    ensures Records(s', t, u) <= Records(s, t, u) + (if r == t && v == u then {k} else {})
  {
  }

  /** The events that enqueue nothing rewrite records within their type and user. */
  lemma QuietRecords(cfg: Config, s: State, e: Event, t: JobType, u: string)
    requires Shape(s) && Enabled(cfg, s, e) && !e.Request? && !e.Chain?
    ensures Records(Step(cfg, s, e), t, u) == Records(s, t, u)
  {
    hide Step, Enabled, Shape, PcOf;
    if e.Start? || e.SetHandle? || e.Conclude? {
      RewriteRecords(cfg, s, e);
    } else {
      KeepTable(cfg, s, e);
    }
  }

  lemma SameTables(s: State, s': State, t: JobType, u: string)
    requires s'.sh == s.sh
    ensures Records(s', t, u) == Records(s, t, u)
  {
  }

  /** No event adds a record of a type and user but the one it is about. */
  lemma RecordsStep(cfg: Config, s: State, e: Event, t: JobType, u: string)
    requires Shape(s) && Enabled(cfg, s, e)
    ensures Records(Step(cfg, s, e), t, u) <= Records(s, t, u) + Extra(s, e, t, u)
  {
    hide Submit, Move, Records, Submitted, Shape, NextStage;
    match e
    case Request(call, k) =>
      if Wanted(call).Some? {
        var (r, user, item) := Wanted(call).value;
        SubmitShape(cfg, s, r, user, item, k);
        SubmitAddsOne(s, Submit(cfg, s, r, user, item, k), r, user, k, t, u);
      }
    case Chain(j, k) =>
      var p := AfterChain(PcOf(s, j).who);
      var s1 := Move(s, j, p);
      MoveSh(s, j, p);
      SameTables(s, s1, t, u);
      if j in s.sh.jobs && NextStage(s.sh.jobs[j].typ).Some? {
        var r, user := NextStage(s.sh.jobs[j].typ).value, s.sh.jobs[j].user;
        SubmitShape(cfg, s1, r, user, "", k);
        SubmitAddsOne(s1, Submit(cfg, s1, r, user, "", k), r, user, k, t, u);
      }
    case _ =>
      hide Step, Enabled;
      QuietRecords(cfg, s, e, t, u);
  }

  lemma CardLe<T>(a: set<T>, b: set<T>)
    requires a <= b
    ensures |a| <= |b|
  {
    assert b == a + (b - a);
  }

  /** No request asks for a later stage; a chaining job of the stage before it does. */
  lemma OnlyChainAdds(s: State, e: Event, t: JobType, u: string)
    requires NextStage(t).Some? && Extra(s, e, NextStage(t).value, u) != {}
    ensures e.Chain? && e.id in s.sh.jobs && s.sh.jobs[e.id].typ == t && s.sh.jobs[e.id].user == u
  {
  }

  /** The event that adds a record of a later stage moves the predecessor among those handed over. */
  lemma ChainHands(cfg: Config, s: State, e: Event, t: JobType, u: string)
    requires Inv(cfg, s) && Enabled(cfg, s, e) && NextStage(t).Some?
    requires Extra(s, e, NextStage(t).value, u) != {}
    ensures e.Chain? && e.id !in HandedOver(s, t, u) && e.id in HandedOver(Step(cfg, s, e), t, u)
  {
    hide Inv, Step, Shape, Extra;
    OnlyChainAdds(s, e, t, u);
    Known(cfg, s, e.id);
    InvShape(cfg, s);
    Finalisation.TerminalStays(cfg, s, e, e.id);
    HopAt(cfg, s, e, e.id);
  }

  lemma CardUnion<T>(a: set<T>, b: set<T>)
    ensures |a + b| <= |a| + |b|
  {
  }

  /** A stage never has more records than its predecessor has handed over. */
  lemma StageStep(cfg: Config, s: State, e: Event, t: JobType, u: string)
    requires Inv(cfg, s) && Enabled(cfg, s, e) && NextStage(t).Some?
    requires |Records(s, NextStage(t).value, u)| <= |HandedOver(s, t, u)|
    ensures |Records(Step(cfg, s, e), NextStage(t).value, u)| <= |HandedOver(Step(cfg, s, e), t, u)|
  {
    hide Inv, Shape, Step, Records, HandedOver;
    var next := NextStage(t).value;
    var s' := Step(cfg, s, e);
    InvShape(cfg, s);
    HandedStays(cfg, s, e, t, u);
    RecordsStep(cfg, s, e, next, u);
    CardLe(HandedOver(s, t, u), HandedOver(s', t, u));
    CardLe(Records(s', next, u), Records(s, next, u) + Extra(s, e, next, u));
    if Extra(s, e, next, u) != {} {
      ChainHands(cfg, s, e, t, u);
      CardLe(HandedOver(s, t, u) + {e.id}, HandedOver(s', t, u));
      CardUnion(Records(s, next, u), Extra(s, e, next, u));
    } else {
      assert Records(s, next, u) + {} == Records(s, next, u);
    }
  }

  lemma {:induction false} StageBound(cfg: Config, es: seq<Event>, t: JobType, u: string)
    requires Run(cfg, es) && NextStage(t).Some?
    ensures |Records(Reached(cfg, es), NextStage(t).value, u)| <= |HandedOver(Reached(cfg, es), t, u)|
    decreases |es|
  {
    if es != [] {
      LastStep(cfg, es);
      StageBound(cfg, Front(es), t, u);
      Reachable(cfg, Front(es));
      hide Inv, Step, Enabled, Reached, Records, HandedOver;
      StageStep(cfg, Reached(cfg, Front(es)), Last(es), t, u);
    } else {
      assert Records(Reached(cfg, es), NextStage(t).value, u) == {};
    }
  }

  lemma IngestStep(cfg: Config, s: State, e: Event, u: string)
    requires Shape(s) && Enabled(cfg, s, e)
    ensures |Records(Step(cfg, s, e), Ingest, u)| <= |Records(s, Ingest, u)| + (if e.Request? && e.call == EnsureBackfill(u) then 1 else 0)
  {
    hide Step, Enabled, Records, Shape;
    RecordsStep(cfg, s, e, Ingest, u);
    CardLe(Records(Step(cfg, s, e), Ingest, u), Records(s, Ingest, u) + Extra(s, e, Ingest, u));
    CardUnion(Records(s, Ingest, u), Extra(s, e, Ingest, u));
  }

  lemma {:induction false} IngestBound(cfg: Config, es: seq<Event>, u: string)
    requires Run(cfg, es)
    ensures |Records(Reached(cfg, es), Ingest, u)| <= Backfills(es, u)
    decreases |es|
  {
    if es != [] {
      hide Inv, Step, Enabled, Reached, Records, Shape;
      LastStep(cfg, es);
      IngestBound(cfg, Front(es), u);
      Reachable(cfg, Front(es));
      InvShape(cfg, Reached(cfg, Front(es)));
      IngestStep(cfg, Reached(cfg, Front(es)), Last(es), u);
    } else {
      assert Records(Reached(cfg, es), Ingest, u) == {};
    }
  }

  /**
   * For every user and run: llm-rank records <= succeeded enrich jobs <= enrich records <= succeeded ingest
   * jobs <= ingest records <= EnsureBackfill calls, whatever was deduplicated, refused or failed.
   */
  lemma PipelineIsConserved(cfg: Config, es: seq<Event>, u: string)
    requires Run(cfg, es)
    ensures var s := Reached(cfg, es);
      && |Records(s, Rank, u)| <= |SucceededJobs(s, Enrich, u)| <= |Records(s, Enrich, u)|
      && |Records(s, Enrich, u)| <= |SucceededJobs(s, Ingest, u)| <= |Records(s, Ingest, u)| <= Backfills(es, u)
      && |Records(s, Ingest, u) + Records(s, Enrich, u) + Records(s, Rank, u)| <= 3 * Backfills(es, u)
  {
    var s := Reached(cfg, es);
    StageBound(cfg, es, Enrich, u);
    StageBound(cfg, es, Ingest, u);
    IngestBound(cfg, es, u);
    CardLe(HandedOver(s, Enrich, u), SucceededJobs(s, Enrich, u));
    CardLe(SucceededJobs(s, Enrich, u), Records(s, Enrich, u));
    CardLe(HandedOver(s, Ingest, u), SucceededJobs(s, Ingest, u));
    CardLe(SucceededJobs(s, Ingest, u), Records(s, Ingest, u));
    hide Reached, Records, SucceededJobs, HandedOver;
    CardUnion(Records(s, Ingest, u), Records(s, Enrich, u));
    CardUnion(Records(s, Ingest, u) + Records(s, Enrich, u), Records(s, Rank, u));
  }

  /** The work is in hand, or its refusal is on record, or the orchestrator is closed. */
  ghost predicate Delivered(s: State, t: JobType, u: string, item: string, k: JobId) {
    || s.sh.closed
    || (exists id :: id in s.sh.jobs && s.sh.jobs[id].Active() && KeyOf(s.sh.jobs[id]) == Key(u, t, item))
    || (k in s.sh.jobs && s.sh.jobs[k].typ == t && s.sh.jobs[k].user == u && s.sh.jobs[k].err == "queue full")
  }

  lemma SubmitDelivers(cfg: Config, s: State, t: JobType, u: string, item: string, k: JobId)
    requires PolicyOf(t).Some?
    requires forall key :: key in s.sh.inflight ==> key in ActiveKeys(s.sh.jobs)
    ensures Delivered(Submit(cfg, s, t, u, item, k), t, u, item, k)
  {
    hide Key, TypeName;
    var s' := Submit(cfg, s, t, u, item, k);
    if Enqueue(s.sh, cfg.depth, t, u, item, k).1.Accepted? {
      assert s'.sh.jobs[k].Active() && KeyOf(s'.sh.jobs[k]) == Key(u, t, item);
    } else if Enqueue(s.sh, cfg.depth, t, u, item, k).1.Duplicate? {
      assert Key(u, t, item) in ActiveKeys(s'.sh.jobs);
    }
  }

  lemma ChainingJob(cfg: Config, s: State, id: JobId)
    requires Inv(cfg, s) && PcOf(s, id).Chaining?
    ensures id in s.sh.jobs && id in s.pc && s.pc[id].Chaining?
    ensures s.sh.jobs[id].state.Succeeded? && NextStage(s.sh.jobs[id].typ).Some?
  {
    Known(cfg, s, id);
  }

  lemma InflightIsActive(cfg: Config, s: State)
    requires Inv(cfg, s)
    ensures s.sh.inflight == ActiveKeys(s.sh.jobs)
  {
  }

  /** A successful stage that hands over leaves its user's next stage active, refused on record, or the orchestrator closed. */
  lemma StageIsHandedOver(cfg: Config, es: seq<Event>, id: JobId, newId: JobId)
    requires Run(cfg, es) && Enabled(cfg, Reached(cfg, es), Chain(id, newId))
    ensures var s := Reached(cfg, es);
      && id in s.sh.jobs && s.sh.jobs[id].state.Succeeded? && NextStage(s.sh.jobs[id].typ).Some?
      && Delivered(Step(cfg, s, Chain(id, newId)), NextStage(s.sh.jobs[id].typ).value, s.sh.jobs[id].user, "", newId)
  {
    hide Inv, Run, Reached, Submit, Move, Delivered, ActiveKeys;
    var s := Reached(cfg, es);
    Reachable(cfg, es);
    ChainingJob(cfg, s, id);
    var p := AfterChain(s.pc[id].who);
    MoveSh(s, id, p);
    InflightIsActive(cfg, s);
    var job := s.sh.jobs[id];
    SubmitDelivers(cfg, Move(s, id, p), NextStage(job.typ).value, job.user, "", newId);
  }
}
