/** Left to itself the orchestrator finishes every job, and Stop drains it completely. */
module Liveness {
  import opened Options
  import opened Jobs
  import opened Registry
  import opened Protocol
  import opened Invariant
  import opened Runs
  import opened Hops
  import opened Sums

  // -------------------------------------------------------------------------
  // The work a state still holds
  // -------------------------------------------------------------------------

  function Distance(p: PC): nat {
    match p
    case InQueue => 11
    case Taken => 10
    case Begun => 9
    case Cleared => 8
    case Dispatched(_) => 7
    case Placed(_) => 6
    case Launching => 6
    case Armed(_) => 5
    case Finishing(_, _, _) => 4
    case Chaining(_) => 3
    case Deregistering => 2
    case Settled => 0
    case Rejected => 0
  }

  /** The whole cost of a job of this type: its own steps and those of the stages it may chain to. */
  function Full(t: JobType): nat {
    match t
    case Ingest => 99
    case Enrich => 66
    case _ => 33
  }

  /** What the job may still enqueue. */
  function Owed(t: JobType, p: PC): nat {
    if NextStage(t).Some? && Distance(p) >= 3 then Full(NextStage(t).value) else 0
  }

  function Weight(t: JobType, p: PC): nat { 3 * Distance(p) + Owed(t, p) }

  function Load(s: State): map<JobId, nat> {
    map id | id in s.pc && id in s.sh.jobs :: Weight(s.sh.jobs[id].typ, s.pc[id])
  }

  function Watches(watch: map<JobId, Watch>): map<JobId, nat> {
    map id | id in watch :: if watch[id].Watching? then 1 else 0
  }

  function StopLoad(p: StopPhase): nat {
    match p
    case AwaitWorkers => 2
    case AwaitLaunches => 1
    case _ => 0
  }

  /** The work left in the state. */
  ghost function Work(s: State): nat {
    Total(Load(s)) + Total(Watches(s.watch)) + |s.callbacks| + s.idle + StopLoad(s.stop)
  }

  /** What a step may do outside the job table. */
  predicate Rest(s: State, s': State) {
    s'.idle <= s.idle + 1 && s'.callbacks == s.callbacks && s'.stop == s.stop
  }

  lemma MoveRest(s: State, s1: State, id: JobId, p: PC)
    requires s1.idle == s.idle && s1.callbacks == s.callbacks && s1.stop == s.stop
    ensures Rest(s, Move(s1, id, p))
  {
  }

  lemma SubmitRest(cfg: Config, s: State, t: JobType, user: string, item: string, k: JobId)
    ensures var s' := Submit(cfg, s, t, user, item, k); s'.idle == s.idle && s'.callbacks == s.callbacks && s'.stop == s.stop
  {
    hide Enqueue;
  }

  lemma SelfRest(s: State)
    ensures Rest(s, s)
  {
  }

  lemma WorkerRest(cfg: Config, s: State, e: Event)
    requires Enabled(cfg, s, e) && (e.Start? || e.Credit? || e.Dispatch? || e.SetHandle? || e.Arm? || e.Spawn?)
    ensures Rest(s, Step(cfg, s, e))
  {
    hide Move, Begin, Place, Register, Issue, HandleOf, Rest;
    var id := e.id;
    match e
    case Start(_) => MoveRest(s, s.(sh := Begin(s.sh, id)), id, Begun);
    case Credit(_, Denied(msg)) => MoveRest(s, s, id, Finishing(NO_HANDLE, Err(msg), Worker));
    case Credit(_, Minted) => MoveRest(s, s, id, Cleared);
    case Credit(_, Ticketed(ticket, now)) =>
      if id in s.sh.jobs {
        var t := Ticket(id, s.sh.jobs[id].typ, s.sh.jobs[id].user, now + TICKET_TTL);
        MoveRest(s, s.(tickets := Issue(s.tickets, ticket, t, now), drawn := s.drawn + {ticket}), id, Cleared);
      } else {
        MoveRest(s, s, id, Cleared);
        assert Rest(s, s) by { SelfRest(s); }
      }
    case Dispatch(_, h, o) => MoveRest(s, s, id, if o.Ok? then Dispatched(h) else Finishing(h, o, Worker));
    case SetHandle(_) => MoveRest(s, s.(sh := Place(s.sh, id, HandleOf(PcOf(s, id)))), id, Placed(HandleOf(PcOf(s, id))));
    case Arm(_) =>
      MoveRest(s, s.(sh := Register(s.sh, id), buffer := s.buffer[id := None], watch := s.watch[id := Watching]),
               id, Armed(HandleOf(PcOf(s, id))));
    case Spawn(_) => MoveRest(s, s, id, Launching);
  }

  lemma AwaiterRest(cfg: Config, s: State, e: Event)
    requires Enabled(cfg, s, e) && (e.LaunchReturn? || e.WakeByCallback? || e.WakeByWatch? || e.Conclude? || e.Unregister? || e.Chain?)
    ensures Rest(s, Step(cfg, s, e))
  {
    hide Move, Finalize, Deregister, HandleOf, KeyOf, AfterFinish, NextStage, Submit, AfterChain;
    var id := e.id;
    SelfRest(s);
    match e
    case LaunchReturn(_, h, o) => MoveRest(s, s, id, Finishing(h, o, Runner));
    case WakeByCallback(_) =>
      MoveRest(s, s.(buffer := s.buffer[id := None]), id, Finishing(HandleOf(PcOf(s, id)), s.buffer[id].value, Watcher));
    case WakeByWatch(_) =>
      MoveRest(s, s.(watch := s.watch[id := Received]), id, Finishing(HandleOf(PcOf(s, id)), s.watch[id].outcome, Watcher));
    case Conclude(_) =>
      if id in s.sh.jobs {
        var Finishing(h, o, who) := s.pc[id];
        var job := s.sh.jobs[id];
        MoveRest(s, s.(sh := Finalize(s.sh, id, KeyOf(job), h, o)), id, AfterFinish(job.typ, o, who));
      }
    case Unregister(_) => MoveRest(s, s.(sh := Deregister(s.sh, id)), id, Settled);
    case Chain(_, k) =>
      var p := AfterChain(s.pc[id].who);
      MoveRest(s, s, id, p);
      if id in s.sh.jobs && NextStage(s.sh.jobs[id].typ).Some? {
        SubmitRest(cfg, Move(s, id, p), NextStage(s.sh.jobs[id].typ).value, s.sh.jobs[id].user, "", k);
      }
  }

  // -------------------------------------------------------------------------
  // Every step of its own uses up work
  // -------------------------------------------------------------------------

  lemma HopLightens(e: Event, t: JobType, p: PC, q: PC)
    requires Hop(e, p, q) && !e.Chain?
    ensures Weight(t, q) + 3 <= Weight(t, p)
  {
  }

  /** Off the two enqueueing events the job table keeps its domain and its types. */
  lemma SameJobs(cfg: Config, s: State, e: Event)
    requires Shape(s) && Enabled(cfg, s, e) && !e.Request? && !e.Chain?
    ensures var s' := Step(cfg, s, e);
      s'.sh.jobs.Keys == s.sh.jobs.Keys && forall k :: k in s.sh.jobs ==> s'.sh.jobs[k].typ == s.sh.jobs[k].typ
  {
    hide Step, Enabled, Shape, PcOf;
    if e.Start? || e.SetHandle? || e.Conclude? {
      RewriteRecords(cfg, s, e);
      assert NextRecord(s, e, e.id, s.sh.jobs[e.id]).typ == s.sh.jobs[e.id].typ;
    } else {
      KeepTable(cfg, s, e);
    }
  }

  lemma SameTypes(cfg: Config, s: State, e: Event)
    requires Inv(cfg, s) && Enabled(cfg, s, e) && !e.Request? && !e.Chain?
    ensures var s' := Step(cfg, s, e);
      && s'.pc.Keys == s.pc.Keys == s.sh.jobs.Keys == s'.sh.jobs.Keys
      && (forall k :: k in s.sh.jobs ==> s'.sh.jobs[k].typ == s.sh.jobs[k].typ)
      && (forall k :: k in s.pc && Mover(s, e) != Some(k) ==> s'.pc[k] == s.pc[k])
  {
    hide Step, Enabled, Inv, Hop, Mover;
    StepKeeps(cfg, s, e);
    InvShape(cfg, s);
    InvShape(cfg, Step(cfg, s, e));
    StepHops(cfg, s, e);
    SameJobs(cfg, s, e);
  }

  /** An event that hops one job and adds no record takes three off the job table. */
  lemma LoadDrops(cfg: Config, s: State, e: Event)
    requires Inv(cfg, s) && Enabled(cfg, s, e) && Mover(s, e).Some? && !e.Chain? && !e.Request?
    ensures Total(Load(Step(cfg, s, e))) + 3 <= Total(Load(s))
  {
    hide Step, Enabled, Inv, Hop, Weight, Mover, Shape;
    var s' := Step(cfg, s, e);
    var id := Mover(s, e).value;
    InvShape(cfg, s);
    HopAt(cfg, s, e, id);
    SameTypes(cfg, s, e);
    HopLightens(e, s.sh.jobs[id].typ, s.pc[id], s'.pc[id]);
    var w := Weight(s'.sh.jobs[id].typ, s'.pc[id]);
    assert Load(s') == Load(s)[id := w];
    TotalSet(Load(s), id, w);
  }

  lemma SubmitAdds(cfg: Config, s: State, t: JobType, user: string, item: string, k: JobId)
    requires k !in s.pc && k !in s.sh.jobs
    ensures Total(Load(Submit(cfg, s, t, user, item, k))) <= Total(Load(s)) + Full(t)
  {
    hide Submit;
    var s' := Submit(cfg, s, t, user, item, k);
    SubmitShape(cfg, s, t, user, item, k);
    if k in s'.pc {
      var w := Weight(t, s'.pc[k]);
      assert Load(s') == Load(s)[k := w];
      TotalSet(Load(s), k, w);
    }
  }

  lemma MoveLoad(s: State, id: JobId, q: PC)
    requires id in s.pc && id in s.sh.jobs
    ensures Total(Load(Move(s, id, q))) + Weight(s.sh.jobs[id].typ, s.pc[id]) == Total(Load(s)) + Weight(s.sh.jobs[id].typ, q)
  {
    hide Weight;
    var w := Weight(s.sh.jobs[id].typ, q);
    assert Load(Move(s, id, q)) == Load(s)[id := w];
    TotalSet(Load(s), id, w);
  }

  lemma MoveTables(s: State, id: JobId, q: PC)
    ensures Move(s, id, q).sh == s.sh && Move(s, id, q).pc == s.pc[id := q]
  {
  }

  lemma ChainWeights(t: JobType, p: PC)
    requires p.Chaining? && NextStage(t).Some?
    ensures Weight(t, AfterChain(p.who)) + Full(NextStage(t).value) + 3 <= Weight(t, p)
  {
  }

  /** Handing over to the next stage pays for the new job out of what was owed. */
  lemma ChainDrops(cfg: Config, s: State, id: JobId, newId: JobId)
    requires Inv(cfg, s) && PcOf(s, id).Chaining? && newId !in s.sh.jobs
    ensures Total(Load(DoChain(cfg, s, id, newId))) + 3 <= Total(Load(s))
  {
    hide Inv, Load, Submit, GoodRecord, Total, Weight, Full, Move;
    Known(cfg, s, id);
    NewId(cfg, s, newId);
    var job, q := s.sh.jobs[id], AfterChain(s.pc[id].who);
    MoveLoad(s, id, q);
    MoveTables(s, id, q);
    SubmitAdds(cfg, Move(s, id, q), NextStage(job.typ).value, job.user, "", newId);
    ChainWeights(job.typ, s.pc[id]);
  }

  /** Arming starts one watch; no other event adds one, and a returning watch is done. */
  lemma WatchSum(s: State, e: Event)
    requires e.AwaitReturn? ==> e.id in s.watch && s.watch[e.id].Watching?
    ensures Total(Watches(NextWatch(s, e))) <= Total(Watches(s.watch)) + (if e.Arm? then 1 else 0)
    ensures e.AwaitReturn? ==> Total(Watches(NextWatch(s, e))) < Total(Watches(s.watch))
  {
    var w := NextWatch(s, e);
    match e
    case Arm(id) =>
      assert Watches(w) == Watches(s.watch)[id := 1];
      TotalSet(Watches(s.watch), id, 1);
    case AwaitReturn(id, o) =>
      assert Watches(w) == Watches(s.watch)[id := 0];
      TotalSet(Watches(s.watch), id, 0);
    case WakeByWatch(id) =>
      assert Watches(w) == Watches(s.watch)[id := 0];
      TotalSet(Watches(s.watch), id, 0);
    case _ =>
  }

  lemma ChainWorks(cfg: Config, s: State, id: JobId, newId: JobId)
    requires Inv(cfg, s) && Enabled(cfg, s, Chain(id, newId))
    ensures Work(Step(cfg, s, Chain(id, newId))) < Work(s)
  {
    hide Inv, Load, Watches, DoChain, Total;
    ChainDrops(cfg, s, id, newId);
    StepChannels(cfg, s, Chain(id, newId));
    AwaiterRest(cfg, s, Chain(id, newId));
  }

  lemma TakeWorks(cfg: Config, s: State)
    requires Inv(cfg, s) && Enabled(cfg, s, Take)
    ensures Work(DoTake(s)) < Work(s)
  {
    hide Inv, Load, Total, Watches;
    LoadDrops(cfg, s, Take);
  }

  lemma HopWorks(cfg: Config, s: State, e: Event)
    requires Inv(cfg, s) && Enabled(cfg, s, e) && Mover(s, e).Some? && !e.Chain? && !e.Take? && !e.Request?
    ensures Work(Step(cfg, s, e)) < Work(s)
  {
    hide Inv, Load, Watches, Step, Total, Enabled;
    LoadDrops(cfg, s, e);
    StepChannels(cfg, s, e);
    WatchSum(s, e);
    if e.LaunchReturn? || e.WakeByCallback? || e.WakeByWatch? || e.Conclude? || e.Unregister? {
      AwaiterRest(cfg, s, e);
    } else {
      WorkerRest(cfg, s, e);
    }
  }

  /** The events that hop no job: a watch or callback goes through, a worker leaves, Stop moves on. */
  lemma RestWorks(cfg: Config, s: State, e: Event)
    requires Enabled(cfg, s, e)
    requires e.AwaitReturn? || e.CallbackSend? || e.WorkerExit? || e.WorkersGone? || e.StopReturn?
    ensures Work(Step(cfg, s, e)) < Work(s)
  {
    hide Total, Watches;
    if e.AwaitReturn? {
      WatchSum(s, e);
    }
    assert Load(Step(cfg, s, e)) == Load(s);
  }

  /** Every one of the orchestrator's own events strictly lowers the work left. */
  lemma StepWorks(cfg: Config, s: State, e: Event)
    requires Inv(cfg, s) && Enabled(cfg, s, e) && !e.External()
    ensures Work(Step(cfg, s, e)) < Work(s)
  {
    hide Inv, Work, DoChain;
    match e
    case Chain(id, newId) => ChainWorks(cfg, s, id, newId);
    case Take => TakeWorks(cfg, s);
    case AwaitReturn(_, _) | CallbackSend(_, _) | WorkerExit | WorkersGone | StopReturn => RestWorks(cfg, s, e);
    case _ =>
      hide Step, Enabled;
      HopWorks(cfg, s, e);
  }

  /** With no requests, callbacks or Stop calls every run is finite: it has at most Work(s) events. */
  lemma {:induction false} RunsAreBounded(cfg: Config, s: State, es: seq<Event>)
    requires Inv(cfg, s) && CanRun(cfg, s, es)
    requires forall e :: e in es ==> !e.External()
    ensures |es| <= Work(s)
    decreases |es|
  {
    hide Inv, Step, Enabled, Work;
    if es != [] {
      assert es[0] in es;
      StepKeeps(cfg, s, es[0]);
      StepWorks(cfg, s, es[0]);
      RunsAreBounded(cfg, Step(cfg, s, es[0]), es[1..]);
    }
  }
}
