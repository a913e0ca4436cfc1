/** Progress, quiescence and what Stop guarantees. */
module Stopping {
  import opened Options
  import opened Jobs
  import opened Registry
  import opened Protocol
  import opened Invariant
  import opened Runs
  import opened Hops
  import opened Finalisation
  import Liveness

  predicate Live(p: PC) { !p.Settled? && !p.Rejected? }

  /** An id no record or ticket has yet. */
  lemma {:induction false} FreshId(used: set<nat>) returns (id: nat)
    ensures forall k :: k in used ==> k < id
    decreases |used|
  {
    if used == {} {
      id := 0;
    } else {
      var k :| k in used;
      var rest := FreshId(used - {k});
      id := if k < rest then rest else k + 1;
      assert forall j :: j in used ==> j == k || j in used - {k};
    }
  }

  lemma ArmedWatch(cfg: Config, s: State, id: JobId)
    requires Inv(cfg, s) && id in s.pc && s.pc[id].Armed?
    ensures id in s.watch && !s.watch[id].Received?
  {
    assert id in s.buffer.Keys && s.buffer.Keys == s.watch.Keys;
  }

  /** A job off the queue can always take its next step. */
  lemma NextMove(cfg: Config, s: State, id: JobId) returns (e: Event)
    requires Inv(cfg, s) && id in s.pc && Live(s.pc[id]) && !s.pc[id].InQueue?
    ensures Enabled(cfg, s, e) && !e.External()
  {
    hide Inv, GoodRecord;
    match s.pc[id]
    case Taken => e := Start(id);
    case Begun =>
      var ticket := FreshId(s.drawn);
      e := Credit(id, if cfg.pulls then Ticketed(ticket, 0) else Minted);
    case Cleared => e := if cfg.async then Dispatch(id, NO_HANDLE, Ok) else Spawn(id);
    case Launching => e := LaunchReturn(id, NO_HANDLE, Ok);
    case Dispatched(_) => e := SetHandle(id);
    case Placed(_) => e := Arm(id);
    case Armed(_) =>
      ArmedWatch(cfg, s, id);
      e := if s.watch[id].Watching? then AwaitReturn(id, Ok) else WakeByWatch(id);
    case Finishing(_, _, _) => e := Conclude(id);
    case Chaining(_) =>
      var newId := FreshId(s.sh.jobs.Keys);
      e := Chain(id, newId);
    case Deregistering => e := Unregister(id);
  }

  /** A queued job with no other job under way can be taken: the queue holds it and some worker is idle. */
  lemma QueueHasIt(cfg: Config, s: State, id: JobId)
    requires cfg.Valid() && Inv(cfg, s) && id in s.pc && s.pc[id].InQueue?
    requires forall k :: k in s.pc && Live(s.pc[k]) ==> s.pc[k].InQueue?
    ensures s.sh.queue != [] && s.idle > 0
  {
    assert id in s.sh.queue;
    assert forall k :: k in s.pc ==> !OnWorker(s.pc[k]);
    assert Busy(s.pc) == {};
  }

  lemma QueueHead(cfg: Config, s: State)
    requires Inv(cfg, s) && s.sh.queue != []
    ensures s.sh.queue[0] in s.pc && s.pc[s.sh.queue[0]].InQueue?
  {
    assert s.sh.queue[0] in s.sh.queue;
  }

  /** With no job left a waiting Stop can move on, or a worker can leave. */
  lemma StopMove(cfg: Config, s: State) returns (e: Event)
    requires Inv(cfg, s) && (s.stop.AwaitWorkers? || s.stop.AwaitLaunches?)
    requires forall k :: k in s.pc ==> !Live(s.pc[k])
    ensures Enabled(cfg, s, e) && !e.External()
  {
    hide RecordsOk, QueueOk, IndexOk, RegisteredOk, ChannelsOk, TicketsOk;
    if s.sh.queue != [] {
      QueueHead(cfg, s);
    }
    assert forall k :: k in s.pc ==> !OnAwaiter(s.pc[k]) && !OnWorker(s.pc[k]);
    assert Busy(s.pc) == {};
    e := if s.stop.AwaitLaunches? then StopReturn else if s.idle > 0 then WorkerExit else WorkersGone;
  }

  /** While a job is live, or Stop is waiting, some step of the orchestrator's own is possible. */
  lemma Progress(cfg: Config, s: State, id: JobId) returns (e: Event)
    requires cfg.Valid() && Inv(cfg, s)
    requires (id in s.pc && Live(s.pc[id])) || s.stop.AwaitWorkers? || s.stop.AwaitLaunches?
    ensures Enabled(cfg, s, e) && !e.External()
  {
    hide Inv, OnAwaiter, Busy;
    if live :| live in s.pc && Live(s.pc[live]) && !s.pc[live].InQueue? {
      e := NextMove(cfg, s, live);
    } else if queued :| queued in s.pc && s.pc[queued].InQueue? {
      QueueHasIt(cfg, s, queued);
      e := Take;
    } else {
      e := StopMove(cfg, s);
    }
  }

  /** Everything is over: all jobs terminal, nothing queued, in flight or registered. */
  ghost predicate Drained(s: State) {
    && s.sh.queue == [] && s.sh.inflight == {} && s.sh.completions == {}
    && (forall id :: id in s.sh.jobs ==> s.sh.jobs[id].Terminal())
  }

  lemma NoLiveMeansDrained(cfg: Config, s: State)
    requires Inv(cfg, s) && forall id :: id in s.pc ==> !Live(s.pc[id])
    ensures Drained(s)
  {
    hide ChannelsOk, TicketsOk, WorkersOk, StopOk, Key, KeyOf, GoodRecord;
    if s.sh.queue != [] {
      QueueHead(cfg, s);
    }
    forall id | id in s.sh.jobs ensures s.sh.jobs[id].Terminal() {
      assert Agrees(s.pc[id], s.sh.jobs[id]);
    }
    assert ActiveKeys(s.sh.jobs) == {};
    assert s.sh.completions == {};
  }

  /** A state with no step of its own left is drained, and a Stop called before it has returned. */
  lemma QuiescentMeansDone(cfg: Config, s: State)
    requires cfg.Valid() && Inv(cfg, s)
    requires forall e :: Enabled(cfg, s, e) ==> e.External()
    ensures Drained(s) && (s.sh.closed ==> s.stop.StopDone?)
  {
    forall id | id in s.pc ensures !Live(s.pc[id]) {
      if Live(s.pc[id]) {
        var e := Progress(cfg, s, id);
      }
    }
    NoLiveMeansDrained(cfg, s);
    if s.stop.AwaitWorkers? || s.stop.AwaitLaunches? {
      var e := Progress(cfg, s, 0);
    }
  }

  lemma StopSettles(cfg: Config, es: seq<Event>, id: JobId)
    requires Run(cfg, es) && Reached(cfg, es).stop.StopDone? && id in Reached(cfg, es).pc
    ensures !Live(Reached(cfg, es).pc[id])
  {
    Reachable(cfg, es);
    var s := Reached(cfg, es);
    hide IndexOk, RegisteredOk, ChannelsOk, TicketsOk, RecordsOk, Reached;
    assert id !in s.sh.queue && (id in Busy(s.pc) ==> |Busy(s.pc)| > 0);
  }

  /** When the Stop that closed the queue has returned the orchestrator is drained and every worker gone. */
  lemma StopDrains(cfg: Config, es: seq<Event>)
    requires Run(cfg, es) && Reached(cfg, es).stop.StopDone?
    ensures Drained(Reached(cfg, es)) && Reached(cfg, es).exited == cfg.workers
  {
    Reachable(cfg, es);
    forall id | id in Reached(cfg, es).pc ensures !Live(Reached(cfg, es).pc[id]) {
      StopSettles(cfg, es, id);
    }
    NoLiveMeansDrained(cfg, Reached(cfg, es));
    hide RecordsOk, QueueOk, IndexOk, RegisteredOk, ChannelsOk, TicketsOk, Reached, Drained;
  }

  // -------------------------------------------------------------------------
  // The closed queue
  // -------------------------------------------------------------------------

  /** Only a submission adds to the queue and only Take removes from it. */
  lemma QueueSteps(cfg: Config, s: State, e: Event)
    requires Enabled(cfg, s, e) && !e.Request? && !e.Chain? && !e.Take? && !e.CloseQueue?
    ensures Step(cfg, s, e).sh.queue == s.sh.queue && Step(cfg, s, e).sh.closed == s.sh.closed
  {
    hide Key, KeyOf, TypeName, PolicyOf, Issue, NextStage, OnWorker, HandleOf, OnAwaiter, Registry.Concluded;
  }

  lemma ClosedSubmit(cfg: Config, s: State, t: JobType, user: string, item: string, k: JobId)
    requires s.sh.closed
    ensures Submit(cfg, s, t, user, item, k) == s
  {
    hide Key, TypeName, PolicyOf;
  }

  /** Once the queue is closed nothing is sent on it and no record is added: it only drains from the front. */
  lemma ClosedOnlyDrains(cfg: Config, s: State, e: Event)
    requires Shape(s) && Enabled(cfg, s, e) && s.sh.closed
    ensures var s' := Step(cfg, s, e);
      && s'.sh.closed && s'.sh.jobs.Keys == s.sh.jobs.Keys
      && (s'.sh.queue == s.sh.queue || (s.sh.queue != [] && s'.sh.queue == s.sh.queue[1..]))
  {
    hide Submit, Shape, NextStage;
    match e
    case Request(call, k) =>
      if Wanted(call).Some? {
        var (t, user, item) := Wanted(call).value;
        ClosedSubmit(cfg, s, t, user, item, k);
      }
    case Chain(j, k) =>
      if j in s.sh.jobs && NextStage(s.sh.jobs[j].typ).Some? {
        ClosedSubmit(cfg, Move(s, j, AfterChain(s.pc[j].who)), NextStage(s.sh.jobs[j].typ).value, s.sh.jobs[j].user, "", k);
      }
    case Take =>
    case _ =>
      hide Step, Enabled;
      QueueSteps(cfg, s, e);
      Liveness.SameJobs(cfg, s, e);
  }

  lemma {:induction false} StaysClosed(cfg: Config, s: State, es: seq<Event>)
    requires Inv(cfg, s) && CanRun(cfg, s, es) && s.sh.closed
    ensures After(cfg, s, es).sh.closed
    decreases |es|
  {
    if es != [] {
      hide Inv, Shape, Step, Enabled;
      InvShape(cfg, s);
      ClosedOnlyDrains(cfg, s, es[0]);
      StepKeeps(cfg, s, es[0]);
      StaysClosed(cfg, Step(cfg, s, es[0]), es[1..]);
    }
  }

  // -------------------------------------------------------------------------
  // Stop is reached
  // -------------------------------------------------------------------------

  ghost predicate Quiescent(cfg: Config, s: State) { forall e :: Enabled(cfg, s, e) ==> e.External() }

  predicate OwnEvents(es: seq<Event>) { forall e :: e in es ==> !e.External() }

  /** However the goroutines interleave, a run of their own steps ends within Work(s) events, drained; and a Stop under way has returned. */
  lemma RunsEndDrained(cfg: Config, s: State, es: seq<Event>)
    requires cfg.Valid() && Inv(cfg, s) && CanRun(cfg, s, es) && OwnEvents(es)
    ensures |es| <= Liveness.Work(s)
    ensures Quiescent(cfg, After(cfg, s, es)) ==>
      Drained(After(cfg, s, es)) && (s.sh.closed ==> After(cfg, s, es).stop.StopDone?)
  {
    hide Inv, Drained, Enabled;
    Liveness.RunsAreBounded(cfg, s, es);
    AfterKeeps(cfg, s, es);
    if Quiescent(cfg, After(cfg, s, es)) {
      QuiescentMeansDone(cfg, After(cfg, s, es));
      if s.sh.closed {
        StaysClosed(cfg, s, es);
      }
    }
  }

  /** Such a run to the end exists from every state that satisfies the invariant. */
  lemma {:induction false} RunToEnd(cfg: Config, s: State) returns (es: seq<Event>)
    requires cfg.Valid() && Inv(cfg, s)
    ensures CanRun(cfg, s, es) && OwnEvents(es) && Quiescent(cfg, After(cfg, s, es))
    decreases Liveness.Work(s)
  {
    hide Inv, Enabled, Step;
    es := [];
    if e: Event :| Enabled(cfg, s, e) && !e.External() {
      StepKeeps(cfg, s, e);
      Liveness.StepWorks(cfg, s, e);
      var rest := RunToEnd(cfg, Step(cfg, s, e));
      es := [e] + rest;
      assert es[0] == e && es[1..] == rest;
    }
  }

  // -------------------------------------------------------------------------
  // What was queued when Stop closed the queue is still run
  // -------------------------------------------------------------------------

  lemma {:induction false} TimesSplit(a: seq<Event>, b: seq<Event>, m: Landmark, id: JobId)
    ensures Times(a + b, m, id) == Times(a, m, id) + Times(b, m, id)
    decreases |b|
  {
    if b == [] {
      assert a + b == a;
    } else {
      assert Front(a + b) == a + Front(b) && Last(a + b) == Last(b);
      TimesSplit(a, Front(b), m, id);
    }
  }

  lemma {:induction false} TimesMember(es: seq<Event>, m: Landmark, id: JobId)
    requires Times(es, m, id) > 0
    ensures exists e :: e in es && Marks(e, m, id)
  {
    if Marks(Last(es), m, id) {
      assert Last(es) in es;
    } else {
      TimesMember(Front(es), m, id);
      var e :| e in Front(es) && Marks(e, m, id);
      assert e in es;
    }
  }

  lemma AcceptedStep(cfg: Config, s: State, e: Event, id: JobId)
    requires Shape(s) && Enabled(cfg, s, e) && id in s.pc && !s.pc[id].Rejected?
    ensures id in Step(cfg, s, e).pc && !Step(cfg, s, e).pc[id].Rejected?
  {
    hide Step, Enabled, Shape, Mover;
    HopAt(cfg, s, e, id);
  }

  /** An accepted job never turns into a refused one. */
  lemma {:induction false} AcceptedStays(cfg: Config, s: State, es: seq<Event>, id: JobId)
    requires Inv(cfg, s) && CanRun(cfg, s, es) && id in s.pc && !s.pc[id].Rejected?
    ensures id in After(cfg, s, es).pc && !After(cfg, s, es).pc[id].Rejected?
    decreases |es|
  {
    if es != [] {
      hide Inv, Shape, Step, Enabled;
      InvShape(cfg, s);
      AcceptedStep(cfg, s, es[0], id);
      StepKeeps(cfg, s, es[0]);
      AcceptedStays(cfg, Step(cfg, s, es[0]), es[1..], id);
    }
  }

  /** A landmark passed by the end but not before the close was passed after it. */
  lemma LandmarkAfter(cfg: Config, before: seq<Event>, after: seq<Event>, m: Landmark, id: JobId)
    requires Run(cfg, before + [CloseQueue] + after) && Run(cfg, before)
    requires !HasPassed(Reached(cfg, before), m, id) && HasPassed(Reached(cfg, before + [CloseQueue] + after), m, id)
    ensures exists e :: e in after && Marks(e, m, id)
  {
    hide HasPassed, Reached, Run;
    PassedOnce(cfg, before, m, id);
    PassedOnce(cfg, before + [CloseQueue] + after, m, id);
    TimesSplit(before + [CloseQueue], after, m, id);
    TimesSplit(before, [CloseQueue], m, id);
    assert Front([CloseQueue]) == [];
    TimesMember(after, m, id);
  }

  lemma QueuedCounter(cfg: Config, s: State, id: JobId)
    requires Inv(cfg, s) && id in s.sh.queue
    ensures id in s.pc && s.pc[id].InQueue?
  {
  }

  /** Every id queued when Stop closed the queue is started and finalised before that Stop returns. */
  lemma QueuedAtCloseIsRun(cfg: Config, before: seq<Event>, after: seq<Event>, id: JobId)
    requires Run(cfg, before + [CloseQueue] + after)
    requires Reached(cfg, before + [CloseQueue] + after).stop.StopDone?
    requires id in Reached(cfg, before).sh.queue
    ensures Start(id) in after && Conclude(id) in after
  {
    hide Inv, Step, Enabled;
    var es := before + [CloseQueue] + after;
    assert es == before + ([CloseQueue] + after);
    RunSplits(cfg, Init(cfg), before, [CloseQueue] + after);
    Reachable(cfg, before);
    QueuedCounter(cfg, Reached(cfg, before), id);
    AcceptedStays(cfg, Reached(cfg, before), [CloseQueue] + after, id);
    StopSettles(cfg, es, id);
    LandmarkAfter(cfg, before, after, Started, id);
    LandmarkAfter(cfg, before, after, Concluded, id);
  }
}
