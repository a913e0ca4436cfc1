/** The effect of each event on the program counters and job records, as a table. */
module Hops {
  import opened Options
  import opened Jobs
  import opened Registry
  import opened Protocol
  import opened Invariant

  /** The job whose program counter the event moves, if any. */
  function Mover(s: State, e: Event): Option<JobId> {
    match e
    case Request(_, _) | CallbackLookup(_, _) | Redeem(_, _) | CloseQueue => None
    case AwaitReturn(_, _) | CallbackSend(_, _) | WorkerExit | WorkersGone | StopReturn => None
    case Take => if s.sh.queue == [] then None else Some(s.sh.queue[0])
    case _ => Some(e.id)
  }

  /** The move itself. */
  predicate Hop(e: Event, p: PC, q: PC) {
    match e
    case Take => p.InQueue? && q.Taken?
    case Start(_) => p.Taken? && q.Begun?
    case Credit(_, c) => p.Begun? && q == (if c.Denied? then Finishing(NO_HANDLE, Err(c.msg), Worker) else Cleared)
    case Dispatch(_, h, o) => p.Cleared? && q == (if o.Ok? then Dispatched(h) else Finishing(h, o, Worker))
    case SetHandle(_) => p.Dispatched? && q == Placed(p.handle)
    case Arm(_) => p.Placed? && q == Armed(p.handle)
    case Spawn(_) => p.Cleared? && q.Launching?
    case LaunchReturn(_, h, o) => p.Launching? && q == Finishing(h, o, Runner)
    case WakeByCallback(_) | WakeByWatch(_) => p.Armed? && q.Finishing? && q.handle == p.handle && q.who.Watcher?
    case Conclude(_) => p.Finishing? && (q == Chaining(p.who) || q == AfterChain(p.who)) && (q.Chaining? ==> p.outcome.Ok?)
    case Chain(_, _) => p.Chaining? && q == AfterChain(p.who)
    case Unregister(_) => p.Deregistering? && q.Settled?
    case _ => false
  }

  /** What the table needs of the state it starts from. */
  ghost predicate Shape(s: State) {
    && s.pc.Keys == s.sh.jobs.Keys
    && (s.sh.queue != [] ==> PcOf(s, s.sh.queue[0]).InQueue?)
  }

  lemma InvShape(cfg: Config, s: State)
    requires Inv(cfg, s)
    ensures Shape(s)
  {
    assert s.sh.queue != [] ==> s.sh.queue[0] in s.sh.queue;
  }

  /** s' differs from s in the counters of at most these jobs. */
  ghost predicate Elsewhere(s: State, s': State, mover: Option<JobId>) {
    && (forall id :: id in s.pc && mover != Some(id) ==> id in s'.pc && s'.pc[id] == s.pc[id])
    && (forall id :: id in s'.pc && id !in s.pc ==> s'.pc[id].InQueue? || s'.pc[id].Rejected?)
  }

  /** A new record is a pending job that is queued, or a failed one when the queue is full. */
  predicate NewbornRecord(job: Job, p: PC) {
    || (p.InQueue? && job.state.Pending? && job.err == "")
    || (p.Rejected? && job.state.Failed? && job.err == "queue full")
  }

  /** A submission adds the record `k`, queued or refused, or changes nothing in the tables. */
  predicate Submitted(s: State, s': State, t: JobType, user: string, k: JobId) {
    || (s'.pc == s.pc && s'.sh.jobs == s.sh.jobs)
    || (&& k in s'.pc && k in s'.sh.jobs
        && s'.pc == s.pc[k := s'.pc[k]] && s'.sh.jobs == s.sh.jobs[k := s'.sh.jobs[k]]
        && NewbornRecord(s'.sh.jobs[k], s'.pc[k]) && s'.sh.jobs[k].typ == t && s'.sh.jobs[k].user == user)
  }

  lemma SubmitShape(cfg: Config, s: State, t: JobType, user: string, item: string, k: JobId)
    ensures Submitted(s, Submit(cfg, s, t, user, item, k), t, user, k)
  {
    hide Key, TypeName, PolicyOf;
  }

  lemma SubmitElsewhere(cfg: Config, s: State, t: JobType, user: string, item: string, k: JobId)
    requires k !in s.pc
    ensures Elsewhere(s, Submit(cfg, s, t, user, item, k), None)
  {
    SubmitShape(cfg, s, t, user, item, k);
    hide Submit;
  }

  lemma MoveElsewhere(s: State, s1: State, id: JobId, p: PC)
    requires id in s.pc && s1.pc == s.pc
    ensures Elsewhere(s, Move(s1, id, p), Some(id)) && id in Move(s1, id, p).pc && Move(s1, id, p).pc[id] == p
  {
  }

  lemma ChainHops(cfg: Config, s: State, id: JobId, newId: JobId)
    requires Shape(s) && PcOf(s, id).Chaining? && newId !in s.sh.jobs
    ensures var s' := DoChain(cfg, s, id, newId);
      Elsewhere(s, s', Some(id)) && id in s'.pc && s'.pc[id] == AfterChain(s.pc[id].who)
  {
    hide Enqueue, Submit, NextStage;
    var s1 := Move(s, id, AfterChain(s.pc[id].who));
    MoveElsewhere(s, s, id, AfterChain(s.pc[id].who));
    var next := NextStage(s.sh.jobs[id].typ);
    if next.Some? {
      SubmitElsewhere(cfg, s1, next.value, s.sh.jobs[id].user, "", newId);
    }
  }

  ghost predicate Hopped(cfg: Config, s: State, e: Event) {
    var s', mover := Step(cfg, s, e), Mover(s, e);
    && Elsewhere(s, s', mover)
    && (mover.Some? ==> mover.value in s.pc && mover.value in s'.pc && Hop(e, s.pc[mover.value], s'.pc[mover.value]))
  }

  lemma WorkerHops(cfg: Config, s: State, e: Event)
    requires Shape(s) && Enabled(cfg, s, e)
    requires e.Start? || e.Credit? || e.Dispatch? || e.SetHandle? || e.Arm?
    ensures Hopped(cfg, s, e)
  {
    hide Move, Elsewhere, Begin, Place, Register, Issue;
    var id := e.id;
    match e
    case Start(_) => MoveElsewhere(s, s.(sh := Begin(s.sh, id)), id, Begun);
    case Credit(_, Denied(msg)) => MoveElsewhere(s, s, id, Finishing(NO_HANDLE, Err(msg), Worker));
    case Credit(_, Minted) => MoveElsewhere(s, s, id, Cleared);
    case Credit(_, Ticketed(ticket, now)) =>
      var t := Ticket(id, s.sh.jobs[id].typ, s.sh.jobs[id].user, now + TICKET_TTL);
      MoveElsewhere(s, s.(tickets := Issue(s.tickets, ticket, t, now), drawn := s.drawn + {ticket}), id, Cleared);
    case Dispatch(_, h, o) => MoveElsewhere(s, s, id, if o.Ok? then Dispatched(h) else Finishing(h, o, Worker));
    case SetHandle(_) =>
      var h := HandleOf(PcOf(s, id));
      MoveElsewhere(s, s.(sh := Place(s.sh, id, h)), id, Placed(h));
    case Arm(_) =>
      MoveElsewhere(s, s.(sh := Register(s.sh, id), buffer := s.buffer[id := None], watch := s.watch[id := Watching]),
                    id, Armed(HandleOf(PcOf(s, id))));
  }

  lemma AwaiterHops(cfg: Config, s: State, e: Event)
    requires Shape(s) && Enabled(cfg, s, e)
    requires e.Spawn? || e.LaunchReturn? || e.WakeByCallback? || e.WakeByWatch?
    ensures Hopped(cfg, s, e)
  {
    hide Move, Elsewhere;
    var id := e.id;
    match e
    case Spawn(_) => MoveElsewhere(s, s, id, Launching);
    case LaunchReturn(_, h, o) => MoveElsewhere(s, s, id, Finishing(h, o, Runner));
    case WakeByCallback(_) =>
      MoveElsewhere(s, s.(buffer := s.buffer[id := None]), id, Finishing(HandleOf(PcOf(s, id)), s.buffer[id].value, Watcher));
    case WakeByWatch(_) =>
      MoveElsewhere(s, s.(watch := s.watch[id := Received]), id, Finishing(HandleOf(PcOf(s, id)), s.watch[id].outcome, Watcher));
  }

  lemma EndHops(cfg: Config, s: State, e: Event)
    requires Shape(s) && Enabled(cfg, s, e) && (e.Conclude? || e.Unregister?)
    ensures Hopped(cfg, s, e)
  {
    hide Move, Elsewhere, Finalize, Deregister, NextStage, KeyOf;
    var id := e.id;
    match e
    case Conclude(_) =>
      var Finishing(h, o, who) := s.pc[id];
      var job := s.sh.jobs[id];
      MoveElsewhere(s, s.(sh := Finalize(s.sh, id, KeyOf(job), h, o)), id, AfterFinish(job.typ, o, who));
    case Unregister(_) => MoveElsewhere(s, s.(sh := Deregister(s.sh, id)), id, Settled);
  }

  /** Every enabled event hops at most one job, as the table says, and may add one new record. */
  lemma StepHops(cfg: Config, s: State, e: Event)
    requires Shape(s) && Enabled(cfg, s, e)
    ensures Hopped(cfg, s, e)
  {
    hide Enqueue, Submit, Move;
    match e
    case Request(call, k) =>
      if Wanted(call).Some? {
        var (t, user, item) := Wanted(call).value;
        SubmitElsewhere(cfg, s, t, user, item, k);
      }
    case Chain(j, k) => ChainHops(cfg, s, j, k);
    case Start(_) | Credit(_, _) | Dispatch(_, _, _) | SetHandle(_) | Arm(_) => WorkerHops(cfg, s, e);
    case Spawn(_) | LaunchReturn(_, _, _) | WakeByCallback(_) | WakeByWatch(_) => AwaiterHops(cfg, s, e);
    case Conclude(_) | Unregister(_) => EndHops(cfg, s, e);
    case _ =>
  }

  /** The table, read off for one job. */
  lemma HopAt(cfg: Config, s: State, e: Event, id: JobId)
    requires Shape(s) && Enabled(cfg, s, e)
    ensures Mover(s, e) == Some(id) ==> id in s.pc && id in Step(cfg, s, e).pc && Hop(e, s.pc[id], Step(cfg, s, e).pc[id])
    ensures Mover(s, e) != Some(id) && id in s.pc ==> id in Step(cfg, s, e).pc && Step(cfg, s, e).pc[id] == s.pc[id]
    ensures id !in s.pc && id in Step(cfg, s, e).pc ==> Step(cfg, s, e).pc[id].InQueue? || Step(cfg, s, e).pc[id].Rejected?
  {
    StepHops(cfg, s, e);
    hide Step, Enabled, Shape, Hop, Mover;
  }

  // -------------------------------------------------------------------------
  // Records
  // -------------------------------------------------------------------------

  /** The record of `id` after the event. */
  function NextRecord(s: State, e: Event, id: JobId, job: Job): Job {
    match e
    case Start(k) => if k == id then job.(state := JobState.Running) else job
    case SetHandle(k) => if k == id then job.(handle := HandleOf(PcOf(s, k))) else job
    case Conclude(k) =>
      (match PcOf(s, k)
       case Finishing(h, o, _) => if k == id then Registry.Concluded(job, h, o) else job
       case _ => job)
    case _ => job
  }

  ghost predicate OnlyNew(s: State, s': State) {
    && (forall id :: id in s.sh.jobs ==> id in s'.sh.jobs && s'.sh.jobs[id] == s.sh.jobs[id])
    && (forall id :: id in s'.sh.jobs && id !in s.sh.jobs ==> id in s'.pc && NewbornRecord(s'.sh.jobs[id], s'.pc[id]))
  }

  lemma SubmitOnlyNew(cfg: Config, s: State, t: JobType, user: string, item: string, k: JobId)
    requires k !in s.sh.jobs
    ensures OnlyNew(s, Submit(cfg, s, t, user, item, k))
  {
    SubmitShape(cfg, s, t, user, item, k);
    hide Submit, NewbornRecord;
  }

  lemma MoveSh(s: State, id: JobId, p: PC)
    ensures Move(s, id, p).sh == s.sh
  {
  }

  /** The three events that rewrite a record. */
  lemma RewriteRecords(cfg: Config, s: State, e: Event)
    requires Shape(s) && Enabled(cfg, s, e) && (e.Start? || e.SetHandle? || e.Conclude?)
    ensures e.id in s.sh.jobs
    ensures Step(cfg, s, e).sh.jobs == s.sh.jobs[e.id := NextRecord(s, e, e.id, s.sh.jobs[e.id])]
  {
    hide Move, KeyOf, NextStage, Registry.Concluded, AfterFinish;
    var id := e.id;
    match e
    case Start(_) => MoveSh(s.(sh := Begin(s.sh, id)), id, Begun);
    case SetHandle(_) =>
      var h := HandleOf(PcOf(s, id));
      MoveSh(s.(sh := Place(s.sh, id, h)), id, Placed(h));
    case Conclude(_) =>
      var Finishing(h, o, who) := s.pc[id];
      var job := s.sh.jobs[id];
      MoveSh(s.(sh := Finalize(s.sh, id, KeyOf(job), h, o)), id, AfterFinish(job.typ, o, who));
  }

  lemma KeepOnWorker(cfg: Config, s: State, e: Event)
    requires Shape(s) && Enabled(cfg, s, e) && (e.Credit? || e.Dispatch? || e.Arm? || e.Spawn?)
    ensures Step(cfg, s, e).sh.jobs == s.sh.jobs
  {
    hide Move, Issue, HandleOf;
    var id := e.id;
    match e
    case Credit(_, Denied(msg)) => MoveSh(s, id, Finishing(NO_HANDLE, Err(msg), Worker));
    case Credit(_, Minted) => MoveSh(s, id, Cleared);
    case Credit(_, Ticketed(ticket, now)) =>
      var t := Ticket(id, s.sh.jobs[id].typ, s.sh.jobs[id].user, now + TICKET_TTL);
      MoveSh(s.(tickets := Issue(s.tickets, ticket, t, now), drawn := s.drawn + {ticket}), id, Cleared);
    case Dispatch(_, h, o) => MoveSh(s, id, if o.Ok? then Dispatched(h) else Finishing(h, o, Worker));
    case Arm(_) =>
      MoveSh(s.(sh := Register(s.sh, id), buffer := s.buffer[id := None], watch := s.watch[id := Watching]),
             id, Armed(HandleOf(PcOf(s, id))));
    case Spawn(_) => MoveSh(s, id, Launching);
  }

  lemma KeepOnAwaiter(cfg: Config, s: State, e: Event)
    requires Enabled(cfg, s, e) && (e.LaunchReturn? || e.WakeByCallback? || e.WakeByWatch? || e.Unregister?)
    ensures Step(cfg, s, e).sh.jobs == s.sh.jobs
  {
    hide Move, HandleOf;
    var id := e.id;
    match e
    case LaunchReturn(_, h, o) => MoveSh(s, id, Finishing(h, o, Runner));
    case WakeByCallback(_) =>
      MoveSh(s.(buffer := s.buffer[id := None]), id, Finishing(HandleOf(PcOf(s, id)), s.buffer[id].value, Watcher));
    case WakeByWatch(_) =>
      MoveSh(s.(watch := s.watch[id := Received]), id, Finishing(HandleOf(PcOf(s, id)), s.watch[id].outcome, Watcher));
    case Unregister(_) => MoveSh(s.(sh := Deregister(s.sh, id)), id, Settled);
  }

  function NextBuffer(s: State, e: Event): map<JobId, Option<Outcome>> {
    match e
    case Arm(id) => s.buffer[id := None]
    case CallbackSend(id, o) => if id in s.buffer && s.buffer[id].None? then s.buffer[id := Some(o)] else s.buffer
    case WakeByCallback(id) => s.buffer[id := None]
    case _ => s.buffer
  }

  function NextWatch(s: State, e: Event): map<JobId, Watch> {
    match e
    case Arm(id) => s.watch[id := Watching]
    case AwaitReturn(id, o) => s.watch[id := Returned(o)]
    case WakeByWatch(id) => s.watch[id := Received]
    case _ => s.watch
  }

  lemma KeepOtherwise(cfg: Config, s: State, e: Event)
    requires Enabled(cfg, s, e) && Mover(s, e).None? && !e.Request?
    ensures Step(cfg, s, e).sh.jobs == s.sh.jobs && Step(cfg, s, e).watch == NextWatch(s, e) && Step(cfg, s, e).buffer == NextBuffer(s, e)
    ensures !e.Redeem? ==> Step(cfg, s, e).tickets == s.tickets && Step(cfg, s, e).drawn == s.drawn
  {
    hide DoRequest, DoStart, DoCredit, DoDispatch, DoSetHandle, DoArm, DoWakeByCallback, DoWakeByWatch, DoConclude, DoChain, DoTake, Move;
    match e
    case CallbackLookup(id, o) => assert Step(cfg, s, e) == DoLookup(s, id, o);
    case Redeem(ticket, _) => assert Step(cfg, s, e) == s.(tickets := s.tickets - {ticket});
    case CloseQueue => assert Step(cfg, s, e) == s.(sh := Close(s.sh), stop := AwaitWorkers);
    case AwaitReturn(id, o) => assert Step(cfg, s, e) == s.(watch := s.watch[id := Returned(o)]);
    case CallbackSend(id, o) => assert Step(cfg, s, e) == DoSend(s, id, o);
    case WorkerExit => assert Step(cfg, s, e) == if s.idle == 0 then s else s.(idle := s.idle - 1, exited := s.exited + 1);
    case WorkersGone => assert Step(cfg, s, e) == s.(stop := AwaitLaunches);
    case StopReturn => assert Step(cfg, s, e) == s.(stop := StopDone);
    case Take =>
  }

  lemma TakeKeepsTable(cfg: Config, s: State)
    ensures Step(cfg, s, Take).sh.jobs == s.sh.jobs
    ensures Step(cfg, s, Take).buffer == s.buffer && Step(cfg, s, Take).watch == s.watch
    ensures Step(cfg, s, Take).tickets == s.tickets && Step(cfg, s, Take).drawn == s.drawn
  {
  }

  /** The other events leave the existing records alone. */
  lemma KeepTable(cfg: Config, s: State, e: Event)
    requires Shape(s) && Enabled(cfg, s, e)
    requires !e.Request? && !e.Chain? && !e.Start? && !e.SetHandle? && !e.Conclude?
    ensures Step(cfg, s, e).sh.jobs == s.sh.jobs
  {
    hide Step, Enabled, Shape;
    match e
    case Credit(_, _) | Dispatch(_, _, _) | Arm(_) | Spawn(_) => KeepOnWorker(cfg, s, e);
    case LaunchReturn(_, _, _) | WakeByCallback(_) | WakeByWatch(_) | Unregister(_) => KeepOnAwaiter(cfg, s, e);
    case Take => TakeKeepsTable(cfg, s);
    case _ => KeepOtherwise(cfg, s, e);
  }

  lemma GrowTable(cfg: Config, s: State, e: Event)
    requires Shape(s) && Enabled(cfg, s, e) && (e.Request? || e.Chain?)
    ensures OnlyNew(s, Step(cfg, s, e))
  {
    hide Enqueue, Submit, Move, NextStage, HandleOf;
    match e
    case Request(call, k) =>
      if Wanted(call).Some? {
        var (t, user, item) := Wanted(call).value;
        SubmitOnlyNew(cfg, s, t, user, item, k);
      }
    case Chain(j, k) =>
      var p := AfterChain(s.pc[j].who);
      MoveSh(s, j, p);
      var next := NextStage(s.sh.jobs[j].typ);
      if next.Some? {
        SubmitOnlyNew(cfg, Move(s, j, p), next.value, s.sh.jobs[j].user, "", k);
      }
  }

  /** Every enabled event changes at most the record the table names, and may add a new record. */
  lemma RecordAt(cfg: Config, s: State, e: Event, id: JobId)
    requires Shape(s) && Enabled(cfg, s, e)
    ensures id in s.sh.jobs ==> id in Step(cfg, s, e).sh.jobs && Step(cfg, s, e).sh.jobs[id] == NextRecord(s, e, id, s.sh.jobs[id])
    ensures id !in s.sh.jobs && id in Step(cfg, s, e).sh.jobs ==>
      id in Step(cfg, s, e).pc && NewbornRecord(Step(cfg, s, e).sh.jobs[id], Step(cfg, s, e).pc[id])
  {
    if e.Request? || e.Chain? {
      GrowTable(cfg, s, e);
    } else if e.Start? || e.SetHandle? || e.Conclude? {
      RewriteRecords(cfg, s, e);
    } else {
      KeepTable(cfg, s, e);
    }
    hide Step, Enabled, Shape, PcOf, Registry.Concluded;
  }

  // -------------------------------------------------------------------------
  // Channels
  // -------------------------------------------------------------------------

  lemma SubmitChannels(cfg: Config, s: State, t: JobType, user: string, item: string, k: JobId)
    ensures var s' := Submit(cfg, s, t, user, item, k);
      s'.buffer == s.buffer && s'.watch == s.watch && s'.tickets == s.tickets && s'.drawn == s.drawn && s'.callbacks == s.callbacks
  {
    hide Enqueue;
  }

  lemma MoveChannels(s: State, id: JobId, p: PC)
    ensures var s' := Move(s, id, p);
      s'.buffer == s.buffer && s'.watch == s.watch && s'.tickets == s.tickets && s'.drawn == s.drawn && s'.callbacks == s.callbacks
  {
  }

  lemma WorkerChannels(cfg: Config, s: State, e: Event)
    requires Enabled(cfg, s, e) && (e.Start? || e.Credit? || e.Dispatch? || e.SetHandle? || e.Arm? || e.Spawn?)
    ensures Step(cfg, s, e).buffer == NextBuffer(s, e) && Step(cfg, s, e).watch == NextWatch(s, e)
    ensures !e.Credit? ==> Step(cfg, s, e).tickets == s.tickets && Step(cfg, s, e).drawn == s.drawn
  {
    hide Move, Begin, Place, Register, Issue, HandleOf;
    var id := e.id;
    match e
    case Start(_) => MoveChannels(s.(sh := Begin(s.sh, id)), id, Begun);
    case Credit(_, Denied(msg)) => MoveChannels(s, id, Finishing(NO_HANDLE, Err(msg), Worker));
    case Credit(_, Minted) => MoveChannels(s, id, Cleared);
    case Credit(_, Ticketed(ticket, now)) =>
      if id in s.sh.jobs {
        var t := Ticket(id, s.sh.jobs[id].typ, s.sh.jobs[id].user, now + TICKET_TTL);
        MoveChannels(s.(tickets := Issue(s.tickets, ticket, t, now), drawn := s.drawn + {ticket}), id, Cleared);
      }
    case Dispatch(_, h, o) => MoveChannels(s, id, if o.Ok? then Dispatched(h) else Finishing(h, o, Worker));
    case SetHandle(_) => MoveChannels(s.(sh := Place(s.sh, id, HandleOf(PcOf(s, id)))), id, Placed(HandleOf(PcOf(s, id))));
    case Arm(_) =>
      MoveChannels(s.(sh := Register(s.sh, id), buffer := s.buffer[id := None], watch := s.watch[id := Watching]),
                   id, Armed(HandleOf(PcOf(s, id))));
    case Spawn(_) => MoveChannels(s, id, Launching);
  }

  lemma AwaiterChannels(cfg: Config, s: State, e: Event)
    requires Enabled(cfg, s, e) && (e.LaunchReturn? || e.WakeByCallback? || e.WakeByWatch? || e.Conclude? || e.Unregister?)
    ensures Step(cfg, s, e).buffer == NextBuffer(s, e) && Step(cfg, s, e).watch == NextWatch(s, e)
    ensures Step(cfg, s, e).tickets == s.tickets && Step(cfg, s, e).drawn == s.drawn
  {
    hide Move, Finalize, Deregister, HandleOf, KeyOf, AfterFinish;
    var id := e.id;
    match e
    case LaunchReturn(_, h, o) => MoveChannels(s, id, Finishing(h, o, Runner));
    case WakeByCallback(_) =>
      MoveChannels(s.(buffer := s.buffer[id := None]), id, Finishing(HandleOf(PcOf(s, id)), s.buffer[id].value, Watcher));
    case WakeByWatch(_) =>
      MoveChannels(s.(watch := s.watch[id := Received]), id, Finishing(HandleOf(PcOf(s, id)), s.watch[id].outcome, Watcher));
    case Conclude(_) =>
      if id in s.sh.jobs {
        var Finishing(h, o, who) := s.pc[id];
        var job := s.sh.jobs[id];
        MoveChannels(s.(sh := Finalize(s.sh, id, KeyOf(job), h, o)), id, AfterFinish(job.typ, o, who));
      }
    case Unregister(_) => MoveChannels(s.(sh := Deregister(s.sh, id)), id, Settled);
  }

  lemma SubmissionChannels(cfg: Config, s: State, e: Event)
    requires Enabled(cfg, s, e) && (e.Request? || e.Chain?)
    ensures Step(cfg, s, e).buffer == NextBuffer(s, e) && Step(cfg, s, e).watch == NextWatch(s, e)
    ensures Step(cfg, s, e).tickets == s.tickets && Step(cfg, s, e).drawn == s.drawn
  {
    hide Submit, NextStage, AfterChain, Move;
    match e
    case Request(call, k) =>
      if Wanted(call).Some? {
        var (t, user, item) := Wanted(call).value;
        SubmitChannels(cfg, s, t, user, item, k);
      }
    case Chain(j, k) =>
      var p := AfterChain(s.pc[j].who);
      MoveChannels(s, j, p);
      if j in s.sh.jobs && NextStage(s.sh.jobs[j].typ).Some? {
        SubmitChannels(cfg, Move(s, j, p), NextStage(s.sh.jobs[j].typ).value, s.sh.jobs[j].user, "", k);
      }
  }

  /** The completion buffers and watch channels change only as listed, the tickets only by issue and redemption. */
  lemma StepChannels(cfg: Config, s: State, e: Event)
    requires Enabled(cfg, s, e)
    ensures Step(cfg, s, e).buffer == NextBuffer(s, e) && Step(cfg, s, e).watch == NextWatch(s, e)
    ensures !e.Credit? && !e.Redeem? ==> Step(cfg, s, e).tickets == s.tickets && Step(cfg, s, e).drawn == s.drawn
  {
    hide Step, Enabled;
    match e
    case Request(_, _) | Chain(_, _) => SubmissionChannels(cfg, s, e);
    case Start(_) | Credit(_, _) | Dispatch(_, _, _) | SetHandle(_) | Arm(_) | Spawn(_) => WorkerChannels(cfg, s, e);
    case LaunchReturn(_, _, _) | WakeByCallback(_) | WakeByWatch(_) | Conclude(_) | Unregister(_) => AwaiterChannels(cfg, s, e);
    case Take => TakeKeepsTable(cfg, s);
    case _ => KeepOtherwise(cfg, s, e);
  }

  /** The outcome a woken job carries is the one it received. */
  lemma WakeOutcome(cfg: Config, s: State, e: Event)
    requires Shape(s) && Enabled(cfg, s, e) && (e.WakeByCallback? || e.WakeByWatch?)
    ensures e.id in Step(cfg, s, e).pc && Step(cfg, s, e).pc[e.id].Finishing?
    ensures e.WakeByCallback? ==> e.id in s.buffer && s.buffer[e.id] == Some(Step(cfg, s, e).pc[e.id].outcome)
    ensures e.WakeByWatch? ==> e.id in s.watch && s.watch[e.id] == Returned(Step(cfg, s, e).pc[e.id].outcome)
  {
  }
}
