/** Exactly-once finalisation, where the outcome comes from, and what later events cannot change. */
module Finalisation {
  import opened Options
  import opened Jobs
  import opened Registry
  import opened Protocol
  import opened Invariant
  import opened Runs
  import opened Hops

  // -------------------------------------------------------------------------
  // Each landmark of a job is passed once
  // -------------------------------------------------------------------------

  datatype Landmark = Started | Credited | Concluded

  predicate MarkKind(e: Event, m: Landmark) {
    match m
    case Started => e.Start?
    case Credited => e.Credit?
    case Concluded => e.Conclude?
  }

  /** The event takes job `id` past the landmark. */
  predicate Marks(e: Event, m: Landmark, id: JobId) { MarkKind(e, m) && e.id == id }

  predicate Passed(m: Landmark, p: PC) {
    match m
    case Started => !p.InQueue? && !p.Taken? && !p.Rejected?
    case Credited => !BeforeCredit(p)
    case Concluded => p.Chaining? || p.Deregistering? || p.Settled?
  }

  function Times(es: seq<Event>, m: Landmark, id: JobId): nat {
    if es == [] then 0 else Times(Front(es), m, id) + (if Marks(Last(es), m, id) then 1 else 0)
  }

  predicate HasPassed(s: State, m: Landmark, id: JobId) { id in s.pc && Passed(m, s.pc[id]) }

  lemma HopPasses(e: Event, p: PC, q: PC, m: Landmark)
    requires Hop(e, p, q)
    ensures Passed(m, q) <==> Passed(m, p) || MarkKind(e, m)
    ensures MarkKind(e, m) ==> !Passed(m, p)
  {
  }

  lemma NewbornPassesNone(p: PC, m: Landmark)
    requires p.InQueue? || p.Rejected?
    ensures !Passed(m, p)
  {
  }

  lemma StepPasses(cfg: Config, s: State, e: Event, m: Landmark, id: JobId)
    requires Shape(s) && Enabled(cfg, s, e)
    ensures HasPassed(Step(cfg, s, e), m, id) <==> HasPassed(s, m, id) || Marks(e, m, id)
    ensures Marks(e, m, id) ==> !HasPassed(s, m, id)
  {
    hide Step, Enabled, Shape, Hop, Passed;
    HopAt(cfg, s, e, id);
    if id !in s.pc && id in Step(cfg, s, e).pc {
      NewbornPassesNone(Step(cfg, s, e).pc[id], m);
    }
    if Mover(s, e) == Some(id) {
      HopPasses(e, s.pc[id], Step(cfg, s, e).pc[id], m);
    }
  }

  /** In any run a job is started, handed its credential and finalised once if it has got that far, and never otherwise. */
  lemma {:induction false} PassedOnce(cfg: Config, es: seq<Event>, m: Landmark, id: JobId)
    requires Run(cfg, es)
    ensures Times(es, m, id) == if HasPassed(Reached(cfg, es), m, id) then 1 else 0
    decreases |es|
  {
    if es != [] {
      LastStep(cfg, es);
      PassedOnce(cfg, Front(es), m, id);
      Reachable(cfg, Front(es));
      InvShape(cfg, Reached(cfg, Front(es)));
      hide Inv, Reached, Run, HasPassed, Marks, Step, Enabled, Shape;
      StepPasses(cfg, Reached(cfg, Front(es)), Last(es), m, id);
    }
  }

  // -------------------------------------------------------------------------
  // After the end: nothing changes the record, nothing frees a live key
  // -------------------------------------------------------------------------

  lemma TerminalStays(cfg: Config, s: State, e: Event, id: JobId)
    requires Inv(cfg, s) && Enabled(cfg, s, e) && id in s.sh.jobs && s.sh.jobs[id].Terminal()
    ensures id in Step(cfg, s, e).sh.jobs && Step(cfg, s, e).sh.jobs[id] == s.sh.jobs[id]
  {
    Known(cfg, s, id);
    InvShape(cfg, s);
    RecordAt(cfg, s, e, id);
    hide Inv, Step, Shape, GoodRecord;
  }

  /** A terminal record keeps its state, error and handle for the rest of any run. */
  lemma {:induction false} TerminalForever(cfg: Config, s: State, es: seq<Event>, id: JobId)
    requires Inv(cfg, s) && CanRun(cfg, s, es) && id in s.sh.jobs && s.sh.jobs[id].Terminal()
    ensures id in After(cfg, s, es).sh.jobs && After(cfg, s, es).sh.jobs[id] == s.sh.jobs[id]
    decreases |es|
  {
    if es != [] {
      StepKeeps(cfg, s, es[0]);
      TerminalStays(cfg, s, es[0], id);
      hide Inv, Step, Enabled;
      TerminalForever(cfg, Step(cfg, s, es[0]), es[1..], id);
    }
  }

  lemma ActiveStays(cfg: Config, s: State, e: Event, id: JobId)
    requires Inv(cfg, s) && Enabled(cfg, s, e) && id in s.sh.jobs && s.sh.jobs[id].Active() && e != Conclude(id)
    ensures var s' := Step(cfg, s, e); id in s'.sh.jobs && s'.sh.jobs[id].Active() && KeyOf(s'.sh.jobs[id]) == KeyOf(s.sh.jobs[id])
  {
    InvShape(cfg, s);
    RecordAt(cfg, s, e, id);
    hide Inv, Step, Shape, TypeName, Enabled;
  }

  /** Until a job's own finalisation its dedupe key stays taken, whatever other jobs, callbacks and watches do. */
  lemma {:induction false} KeyHeld(cfg: Config, s: State, es: seq<Event>, id: JobId)
    requires Inv(cfg, s) && CanRun(cfg, s, es) && id in s.sh.jobs && s.sh.jobs[id].Active() && Conclude(id) !in es
    ensures var s' := After(cfg, s, es); id in s'.sh.jobs && s'.sh.jobs[id].Active() && KeyOf(s.sh.jobs[id]) in s'.sh.inflight
    decreases |es|
  {
    if es == [] {
      hide TypeName;
      assert KeyOf(s.sh.jobs[id]) in ActiveKeys(s.sh.jobs);
    } else {
      StepKeeps(cfg, s, es[0]);
      ActiveStays(cfg, s, es[0], id);
      hide Inv, Step, Enabled, Key;
      KeyHeld(cfg, Step(cfg, s, es[0]), es[1..], id);
    }
  }

  // -------------------------------------------------------------------------
  // Where the outcome of a job comes from
  // -------------------------------------------------------------------------

  /** The first callback value accepted by the job's completion channel. */
  function FirstSend(es: seq<Event>, id: JobId): Option<Outcome> {
    if es == [] then None
    else if FirstSend(Front(es), id).Some? then FirstSend(Front(es), id)
    else if Last(es).CallbackSend? && Last(es).id == id then Some(Last(es).outcome)
    else None
  }

  /** The run contains a reason to finish the job with this handle and outcome. */
  predicate Justified(es: seq<Event>, id: JobId, h: Handle, o: Outcome) {
    || (o.Err? && h == NO_HANDLE && Credit(id, Denied(o.msg)) in es)
    || (o.Err? && Dispatch(id, h, o) in es)
    || LaunchReturn(id, h, o) in es
    || (Dispatch(id, h, Ok) in es && WakeByCallback(id) in es && FirstSend(es, id) == Some(o))
    || (Dispatch(id, h, Ok) in es && WakeByWatch(id) in es && AwaitReturn(id, o) in es)
  }

  predicate Records(job: Job, h: Handle, o: Outcome) {
    && job.handle == h
    && (match o
        case Ok => job.state.Succeeded? && job.err == ""
        case Err(msg) => job.state.Failed? && job.err == msg)
  }

  ghost predicate Accounted(es: seq<Event>, id: JobId, job: Job) {
    exists h, o :: Justified(es, id, h, o) && Records(job, h, o)
  }

  /** What the history says about the channels of job `id` ... */
  predicate ChannelOrigin(es: seq<Event>, s: State, id: JobId) {
    && (id !in s.buffer ==> FirstSend(es, id).None?)
    && (id in s.watch && s.watch[id].Returned? ==> AwaitReturn(id, s.watch[id].outcome) in es)
    && (id in s.pc && s.pc[id].Armed? ==> id in s.buffer && s.buffer[id] == FirstSend(es, id))
  }

  /** ... about its program counter ... */
  predicate CounterOrigin(es: seq<Event>, id: JobId, p: PC) {
    match p
    case Dispatched(h) => Dispatch(id, h, Ok) in es
    case Placed(h) => Dispatch(id, h, Ok) in es
    case Armed(h) => Dispatch(id, h, Ok) in es
    case Finishing(h, o, _) => Justified(es, id, h, o)
    case _ => true
  }

  /** ... and about its record. */
  ghost predicate RecordOrigin(es: seq<Event>, s: State, id: JobId) {
    id in s.sh.jobs ==>
      && (s.sh.jobs[id].Active() ==> s.sh.jobs[id].err == "")
      && (HasPassed(s, Concluded, id) ==> Accounted(es, id, s.sh.jobs[id]))
  }

  ghost predicate Origin(es: seq<Event>, s: State, id: JobId) {
    && ChannelOrigin(es, s, id)
    && (id in s.pc ==> CounterOrigin(es, id, s.pc[id]))
    && RecordOrigin(es, s, id)
  }

  lemma JustifiedGrows(es: seq<Event>, id: JobId, h: Handle, o: Outcome)
    requires es != [] && Justified(Front(es), id, h, o)
    ensures Justified(es, id, h, o)
  {
    assert es == Front(es) + [Last(es)];
  }

  lemma CounterGrows(es: seq<Event>, id: JobId, p: PC)
    requires es != [] && CounterOrigin(Front(es), id, p)
    ensures CounterOrigin(es, id, p)
  {
    assert es == Front(es) + [Last(es)];
    if p.Finishing? {
      JustifiedGrows(es, id, p.handle, p.outcome);
    }
  }

  /** A callback is sent only on an armed job's channel, and a job is armed once. */
  lemma InvSends(cfg: Config, s: State, e: Event)
    requires Inv(cfg, s) && Enabled(cfg, s, e)
    ensures e.CallbackSend? ==> e.id in s.buffer
    ensures e.Arm? ==> e.id !in s.buffer
  {
    hide IndexOk, RecordsOk, QueueOk, TicketsOk, WorkersOk, StopOk;
  }

  lemma BufferOrigin(es: seq<Event>, s: State, id: JobId)
    requires es != [] && (Last(es).CallbackSend? ==> Last(es).id in s.buffer) && (Last(es).Arm? ==> Last(es).id !in s.buffer)
    requires id !in s.buffer ==> FirstSend(Front(es), id).None?
    ensures id !in NextBuffer(s, Last(es)) ==> FirstSend(es, id).None?
    ensures Last(es) == Arm(id) ==> FirstSend(es, id).None?
    ensures id in s.buffer && s.buffer[id] == FirstSend(Front(es), id) && Last(es) != WakeByCallback(id)
      ==> id in NextBuffer(s, Last(es)) && NextBuffer(s, Last(es))[id] == FirstSend(es, id)
  {
  }

  lemma WatchOrigin(es: seq<Event>, s: State, id: JobId)
    requires es != []
    requires id in s.watch && s.watch[id].Returned? ==> AwaitReturn(id, s.watch[id].outcome) in Front(es)
    ensures var w := NextWatch(s, Last(es)); id in w && w[id].Returned? ==> AwaitReturn(id, w[id].outcome) in es
  {
    assert es == Front(es) + [Last(es)];
    assert Last(es) in es;
  }

  /** Arming empties the channel; only waking by callback lets an armed job's channel fall behind. */
  lemma ArmedHop(cfg: Config, s: State, e: Event, id: JobId)
    requires Shape(s) && Enabled(cfg, s, e)
    ensures id in Step(cfg, s, e).pc && Step(cfg, s, e).pc[id].Armed? ==>
      e == Arm(id) || (id in s.pc && s.pc[id].Armed? && e != WakeByCallback(id))
  {
    HopAt(cfg, s, e, id);
    hide Step, Shape, Enabled;
  }

  lemma StepChannelOrigin(cfg: Config, es: seq<Event>, s: State, id: JobId)
    requires es != [] && Inv(cfg, s) && Enabled(cfg, s, Last(es)) && ChannelOrigin(Front(es), s, id)
    ensures ChannelOrigin(es, Step(cfg, s, Last(es)), id)
  {
    var e := Last(es);
    InvShape(cfg, s);
    ArmedHop(cfg, s, e, id);
    StepChannels(cfg, s, e);
    InvSends(cfg, s, e);
    hide Step, Inv, Shape, FirstSend, Enabled;
    BufferOrigin(es, s, id);
    WatchOrigin(es, s, id);
    hide NextWatch;
  }

  lemma HopOrigin(es: seq<Event>, id: JobId, p: PC, q: PC)
    requires es != [] && Hop(Last(es), p, q) && CounterOrigin(Front(es), id, p)
    requires Last(es).Take? || Last(es).id == id
    requires Last(es).WakeByCallback? && q.Finishing? ==> FirstSend(Front(es), id) == Some(q.outcome)
    requires Last(es).WakeByWatch? && q.Finishing? ==> AwaitReturn(id, q.outcome) in Front(es)
    ensures CounterOrigin(es, id, q)
  {
    assert es == Front(es) + [Last(es)];
    assert Last(es) in es;
  }

  lemma StepCounterOrigin(cfg: Config, es: seq<Event>, s: State, id: JobId)
    requires es != [] && Inv(cfg, s) && Enabled(cfg, s, Last(es)) && Origin(Front(es), s, id)
    ensures id in Step(cfg, s, Last(es)).pc ==> CounterOrigin(es, id, Step(cfg, s, Last(es)).pc[id])
  {
    var e := Last(es);
    InvShape(cfg, s);
    HopAt(cfg, s, e, id);
    if Mover(s, e) == Some(id) {
      if e.WakeByCallback? || e.WakeByWatch? {
        WakeOutcome(cfg, s, e);
      }
      hide Inv, Shape, Step, CounterOrigin, Hop, RecordOrigin;
      HopOrigin(es, id, s.pc[id], Step(cfg, s, e).pc[id]);
    } else if id in s.pc {
      hide Inv, Shape, Step, Hop, RecordOrigin;
      CounterGrows(es, id, s.pc[id]);
    }
  }

  lemma StepNoError(cfg: Config, s: State, e: Event, id: JobId)
    requires Shape(s) && Enabled(cfg, s, e)
    requires id in s.sh.jobs && s.sh.jobs[id].Active() ==> s.sh.jobs[id].err == ""
    requires id in s.sh.jobs && e == Start(id) ==> s.sh.jobs[id].Active()
    ensures id in Step(cfg, s, e).sh.jobs && Step(cfg, s, e).sh.jobs[id].Active() ==> Step(cfg, s, e).sh.jobs[id].err == ""
  {
    RecordAt(cfg, s, e, id);
    hide Step, Shape, Enabled;
  }

  /** The finish section records the handle and outcome its goroutine brought. */
  lemma ConcludeRecords(cfg: Config, s: State, id: JobId, h: Handle, o: Outcome, who: Who)
    requires Shape(s) && id in s.sh.jobs && s.pc[id] == Finishing(h, o, who) && s.sh.jobs[id].err == ""
    ensures id in Step(cfg, s, Conclude(id)).sh.jobs && Records(Step(cfg, s, Conclude(id)).sh.jobs[id], h, o)
  {
    hide KeyOf, AfterFinish;
  }

  lemma FinishingAt(cfg: Config, s: State, id: JobId)
    requires Enabled(cfg, s, Conclude(id)) && id in s.pc
    ensures s.pc[id].Finishing?
  {
  }

  lemma ConcludeAccounted(cfg: Config, es: seq<Event>, s: State, id: JobId)
    requires es != [] && Last(es) == Conclude(id) && Shape(s) && id in s.sh.jobs && s.pc[id].Finishing? && s.sh.jobs[id].err == ""
    requires Justified(Front(es), id, s.pc[id].handle, s.pc[id].outcome)
    ensures var s' := Step(cfg, s, Last(es)); id in s'.sh.jobs && Accounted(es, id, s'.sh.jobs[id])
  {
    var Finishing(h, o, who) := s.pc[id];
    ConcludeRecords(cfg, s, id, h, o, who);
    JustifiedGrows(es, id, h, o);
    hide Step, Shape, Justified, Records;
  }

  lemma AccountedGrows(es: seq<Event>, id: JobId, job: Job)
    requires es != [] && Accounted(Front(es), id, job)
    ensures Accounted(es, id, job)
  {
    hide Justified, Records;
    var h, o :| Justified(Front(es), id, h, o) && Records(job, h, o);
    JustifiedGrows(es, id, h, o);
  }

  /** A finished job is terminal; one about to finish is active and justified. */
  lemma ReadyToConclude(cfg: Config, es: seq<Event>, s: State, id: JobId)
    requires Inv(cfg, s) && Origin(es, s, id) && id in s.sh.jobs
    ensures id in s.pc
    ensures s.pc[id].Finishing? ==> s.sh.jobs[id].err == "" && Justified(es, id, s.pc[id].handle, s.pc[id].outcome)
    ensures HasPassed(s, Concluded, id) ==> s.sh.jobs[id].Terminal() && Accounted(es, id, s.sh.jobs[id])
  {
    Known(cfg, s, id);
    InvShape(cfg, s);
    hide Inv, Accounted, Justified, ChannelOrigin;
  }

  lemma KeptAccounted(cfg: Config, es: seq<Event>, s: State, id: JobId)
    requires es != [] && Inv(cfg, s) && Enabled(cfg, s, Last(es)) && id in s.sh.jobs && s.sh.jobs[id].Terminal()
    requires Accounted(Front(es), id, s.sh.jobs[id])
    ensures var s' := Step(cfg, s, Last(es)); id in s'.sh.jobs && Accounted(es, id, s'.sh.jobs[id])
  {
    hide Inv, Step, Enabled, Accounted;
    TerminalStays(cfg, s, Last(es), id);
    AccountedGrows(es, id, s.sh.jobs[id]);
  }

  lemma StepAccounted(cfg: Config, es: seq<Event>, s: State, id: JobId)
    requires es != [] && Inv(cfg, s) && Enabled(cfg, s, Last(es)) && Origin(Front(es), s, id) && id in s.sh.jobs
    ensures var s' := Step(cfg, s, Last(es));
      HasPassed(s', Concluded, id) ==> id in s'.sh.jobs && Accounted(es, id, s'.sh.jobs[id])
  {
    hide Inv, Step, Enabled, Shape, Origin, Justified, Accounted, HasPassed;
    var e := Last(es);
    InvShape(cfg, s);
    ReadyToConclude(cfg, Front(es), s, id);
    if HasPassed(s, Concluded, id) {
      KeptAccounted(cfg, es, s, id);
    }
    StepPasses(cfg, s, e, Concluded, id);
    if e == Conclude(id) {
      FinishingAt(cfg, s, id);
      ConcludeAccounted(cfg, es, s, id);
    }
  }

  lemma StepRecordOrigin(cfg: Config, es: seq<Event>, s: State, id: JobId)
    requires es != [] && Inv(cfg, s) && Enabled(cfg, s, Last(es)) && Origin(Front(es), s, id)
    ensures RecordOrigin(es, Step(cfg, s, Last(es)), id)
  {
    var e := Last(es);
    InvShape(cfg, s);
    if id in s.sh.jobs {
      Known(cfg, s, id);
      StepAccounted(cfg, es, s, id);
    } else {
      StepPasses(cfg, s, e, Concluded, id);
    }
    StepNoError(cfg, s, e, id);
    hide Inv, Step, ChannelOrigin, FirstSend, Justified, TypeName, PolicyOf, Accounted;
  }

  /** The history explains every job of every reachable state. */
  lemma {:induction false} OriginHolds(cfg: Config, es: seq<Event>, id: JobId)
    requires Run(cfg, es)
    ensures Origin(es, Reached(cfg, es), id)
    decreases |es|
  {
    if es != [] {
      LastStep(cfg, es);
      OriginHolds(cfg, Front(es), id);
      Reachable(cfg, Front(es));
      var s := Reached(cfg, Front(es));
      hide Inv, Reached, Run, Step, Enabled, RecordOrigin, CounterOrigin, ChannelOrigin;
      StepChannelOrigin(cfg, es, s, id);
      StepCounterOrigin(cfg, es, s, id);
      StepRecordOrigin(cfg, es, s, id);
    }
  }

  /**
   * Every job that left the queue and is terminal was finalised exactly once, with the credential or
   * dispatch error, the launch result, the first callback value its channel accepted, or the watch's value;
   * a job refused because the queue was full was never started.
   */
  lemma FinalisedOnce(cfg: Config, es: seq<Event>, id: JobId)
    requires Run(cfg, es) && id in Reached(cfg, es).sh.jobs
    ensures var job := Reached(cfg, es).sh.jobs[id];
      && Times(es, Concluded, id) <= 1
      && (Times(es, Concluded, id) == 1 ==> job.Terminal() && Accounted(es, id, job))
      && (Times(es, Concluded, id) == 0 && job.Terminal() ==> job.err == "queue full" && job.state.Failed? && Times(es, Started, id) == 0)
  {
    PassedOnce(cfg, es, Concluded, id);
    PassedOnce(cfg, es, Started, id);
    OriginHolds(cfg, es, id);
    Reachable(cfg, es);
    Known(cfg, Reached(cfg, es), id);
    hide Inv, Reached, Run, ChannelOrigin, CounterOrigin, Accounted, Times;
  }

  /** The job's handle has been recorded and its watch not yet finished. */
  predicate Watched(p: PC) { p.Placed? || p.Armed? || (p.Finishing? && p.who.Watcher?) }

  /** A watched job shows its handle. */
  predicate Shows(s: State, id: JobId) {
    id in s.pc && id in s.sh.jobs && Watched(s.pc[id]) ==> s.sh.jobs[id].handle == s.pc[id].handle
  }

  lemma StepShows(cfg: Config, s: State, e: Event, id: JobId)
    requires Shape(s) && Enabled(cfg, s, e) && Shows(s, id)
    ensures Shows(Step(cfg, s, e), id)
  {
    HopAt(cfg, s, e, id);
    RecordAt(cfg, s, e, id);
    hide Step, Enabled, Shape;
  }

  /** From setHandle until its finish section a running async job's record shows where it was dispatched. */
  lemma {:induction false} RunningShowsHandle(cfg: Config, es: seq<Event>, id: JobId)
    requires Run(cfg, es)
    ensures Shows(Reached(cfg, es), id)
    decreases |es|
  {
    if es != [] {
      LastStep(cfg, es);
      RunningShowsHandle(cfg, Front(es), id);
      Reachable(cfg, Front(es));
      InvShape(cfg, Reached(cfg, Front(es)));
      hide Inv, Reached, Run, Shows, Step, Enabled, Shape;
      StepShows(cfg, Reached(cfg, Front(es)), Last(es), id);
    }
  }

  /** A job is handed at most one credential, so at most one ticket is ever issued for it. */
  lemma OneTicketPerJob(cfg: Config, es: seq<Event>, id: JobId)
    requires Run(cfg, es)
    ensures Times(es, Credited, id) <= 1
  {
    PassedOnce(cfg, es, Credited, id);
  }
}
