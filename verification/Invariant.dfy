/** The whole-system invariant of the protocol, and that every step keeps it. */
module Invariant {
  import opened Options
  import opened Jobs
  import opened Registry
  import opened Protocol

  // -------------------------------------------------------------------------
  // The parts
  // -------------------------------------------------------------------------

  predicate GoodRecord(id: JobId, job: Job) {
    && job.id == id && job.user != ""
    && PolicyOf(job.typ).Some? && job.provider == PolicyOf(job.typ).value.provider
    && (job.item == "" <==> Pipeline(job.typ))
  }

  /** What the program counter says about the recorded state of the job. */
  predicate Agrees(p: PC, job: Job) {
    match p
    case InQueue | Taken => job.state.Pending?
    case Begun | Cleared | Launching | Dispatched(_) | Placed(_) | Armed(_) => job.state.Running?
    case Finishing(_, o, who) => job.state.Running? && (who.Worker? ==> o.Err?)
    case Chaining(who) => job.state.Succeeded? && !who.Worker? && NextStage(job.typ).Some?
    case Deregistering | Settled => job.Terminal()
    case Rejected => job.state.Failed? && job.err == "queue full"
  }

  ghost predicate RecordsOk(pc: map<JobId, PC>, jobs: map<JobId, Job>) {
    && pc.Keys == jobs.Keys
    && forall id :: id in jobs ==> GoodRecord(id, jobs[id]) && Agrees(pc[id], jobs[id])
  }

  ghost predicate QueueOk(depth: nat, queue: seq<JobId>, pc: map<JobId, PC>) {
    && |queue| <= depth
    && (forall i, j :: 0 <= i < j < |queue| ==> queue[i] != queue[j])
    && (forall id :: id in queue <==> id in pc && pc[id].InQueue?)
  }

  ghost predicate IndexOk(inflight: set<string>, jobs: map<JobId, Job>) {
    inflight == ActiveKeys(jobs) && OneActivePerKey(jobs)
  }

  /** The job has registered a completion channel and not yet removed it. */
  predicate Registered(p: PC) {
    match p
    case Armed(_) | Deregistering => true
    case Finishing(_, _, who) => who.Watcher?
    case Chaining(who) => who.Watcher?
    case _ => false
  }

  ghost predicate RegisteredOk(completions: set<JobId>, pc: map<JobId, PC>) {
    forall id :: id in completions <==> id in pc && Registered(pc[id])
  }

  ghost predicate ChannelsOk(pc: map<JobId, PC>, buffer: map<JobId, Option<Outcome>>, watch: map<JobId, Watch>,
                             callbacks: multiset<(JobId, Outcome)>)
  {
    && buffer.Keys == watch.Keys
    && (forall id :: id in buffer ==> id in pc && (Registered(pc[id]) || pc[id].Settled?))
    && (forall id :: id in pc && Registered(pc[id]) ==> id in buffer)
    && (forall id :: id in pc && pc[id].Armed? && id in watch ==> !watch[id].Received?)
    && (forall c :: c in callbacks ==> c.0 in buffer)
  }

  ghost function Busy(pc: map<JobId, PC>): set<JobId> { set id | id in pc && OnWorker(pc[id]) }

  ghost predicate WorkersOk(cfg: Config, s: State) {
    && s.idle + s.exited + |Busy(s.pc)| == cfg.workers
    && (s.exited > 0 ==> s.sh.closed && s.sh.queue == [])
  }

  ghost predicate NoAwaiter(pc: map<JobId, PC>) { forall id :: id in pc ==> !OnAwaiter(pc[id]) }

  ghost predicate StopOk(cfg: Config, s: State) {
    && (s.sh.closed <==> !s.stop.Open?)
    && (s.stop.AwaitLaunches? || s.stop.StopDone? ==> s.exited == cfg.workers)
    && (s.stop.StopDone? ==> NoAwaiter(s.pc))
  }

  /** A program counter from which the job has not yet been handed a credential. */
  predicate BeforeCredit(p: PC) { p.InQueue? || p.Taken? || p.Begun? || p.Rejected? }

  predicate TicketOk(pc: map<JobId, PC>, jobs: map<JobId, Job>, t: Ticket) {
    && t.jobId in jobs && t.jobId in pc && !BeforeCredit(pc[t.jobId])
    && t.typ == jobs[t.jobId].typ && t.user == jobs[t.jobId].user
  }

  ghost predicate TicketsOk(pc: map<JobId, PC>, jobs: map<JobId, Job>, tickets: map<TicketId, Ticket>, drawn: set<TicketId>) {
    && tickets.Keys <= drawn
    && (forall k :: k in tickets ==> TicketOk(pc, jobs, tickets[k]))
    && (forall j, k :: j in tickets && k in tickets && tickets[j].jobId == tickets[k].jobId ==> j == k)
  }

  ghost predicate Inv(cfg: Config, s: State) {
    && RecordsOk(s.pc, s.sh.jobs)
    && QueueOk(cfg.depth, s.sh.queue, s.pc)
    && IndexOk(s.sh.inflight, s.sh.jobs)
    && RegisteredOk(s.sh.completions, s.pc)
    && ChannelsOk(s.pc, s.buffer, s.watch, s.callbacks)
    && WorkersOk(cfg, s)
    && StopOk(cfg, s)
    && TicketsOk(s.pc, s.sh.jobs, s.tickets, s.drawn)
  }

  // -------------------------------------------------------------------------
  // Counting the busy workers
  // -------------------------------------------------------------------------

  lemma BusyRest(pc: map<JobId, PC>, id: JobId)
    ensures |Busy(pc)| == |Busy(pc) - {id}| + (if id in pc && OnWorker(pc[id]) then 1 else 0)
  {
    if id in pc && OnWorker(pc[id]) {
      assert Busy(pc) == Busy(pc) - {id} + {id};
    } else {
      assert Busy(pc) == Busy(pc) - {id};
    }
  }

  lemma BusyUpdate(pc: map<JobId, PC>, id: JobId, p: PC)
    ensures |Busy(pc[id := p])| + (if id in pc && OnWorker(pc[id]) then 1 else 0) == |Busy(pc)| + (if OnWorker(p) then 1 else 0)
  {
    assert Busy(pc[id := p]) - {id} == Busy(pc) - {id};
    BusyRest(pc, id);
    BusyRest(pc[id := p], id);
  }

  // -------------------------------------------------------------------------
  // Moving one job keeps each part
  // -------------------------------------------------------------------------

  lemma RecordsMove(pc: map<JobId, PC>, jobs: map<JobId, Job>, id: JobId, p: PC, job: Job)
    requires RecordsOk(pc, jobs) && GoodRecord(id, job) && Agrees(p, job)
    ensures RecordsOk(pc[id := p], jobs[id := job])
  {
  }

  lemma QueueMove(depth: nat, queue: seq<JobId>, pc: map<JobId, PC>, id: JobId, p: PC)
    requires QueueOk(depth, queue, pc) && !p.InQueue? && (id in pc ==> !pc[id].InQueue?)
    ensures QueueOk(depth, queue, pc[id := p])
  {
  }

  lemma RegisteredMove(completions: set<JobId>, pc: map<JobId, PC>, id: JobId, p: PC)
    requires RegisteredOk(completions, pc)
    ensures RegisteredOk(if Registered(p) then completions + {id} else completions - {id}, pc[id := p])
  {
  }

  lemma RegisteredSame(completions: set<JobId>, pc: map<JobId, PC>, id: JobId, p: PC)
    requires RegisteredOk(completions, pc) && id in pc && (Registered(p) <==> Registered(pc[id]))
    ensures RegisteredOk(completions, pc[id := p])
  {
  }

  lemma IndexSame(inflight: set<string>, jobs: map<JobId, Job>, id: JobId, job: Job)
    requires IndexOk(inflight, jobs) && id in jobs
    requires jobs[id].Active() == job.Active() && KeyOf(jobs[id]) == KeyOf(job)
    ensures IndexOk(inflight, jobs[id := job])
  {
    ActiveKeysSame(jobs, id, job);
  }

  lemma IndexRemove(inflight: set<string>, jobs: map<JobId, Job>, id: JobId, job: Job)
    requires IndexOk(inflight, jobs) && id in jobs && jobs[id].Active() && !job.Active()
    ensures IndexOk(inflight - {KeyOf(jobs[id])}, jobs[id := job])
  {
    ActiveKeysRemove(jobs, id, job);
  }

  lemma IndexAdd(inflight: set<string>, jobs: map<JobId, Job>, id: JobId, job: Job)
    requires IndexOk(inflight, jobs) && id !in jobs
    requires job.Active() ==> KeyOf(job) !in inflight
    ensures IndexOk(if job.Active() then inflight + {KeyOf(job)} else inflight, jobs[id := job])
  {
    if job.Active() {
      ActiveKeysAdd(jobs, id, job);
    } else {
      ActiveKeysSame(jobs, id, job);
    }
  }

  /** The moves that leave the channels alone: a job enters a registered stretch only through Arm. */
  lemma ChannelsMove(pc: map<JobId, PC>, buffer: map<JobId, Option<Outcome>>, watch: map<JobId, Watch>,
                     callbacks: multiset<(JobId, Outcome)>, id: JobId, p: PC)
    requires ChannelsOk(pc, buffer, watch, callbacks)
    requires if id in pc && Registered(pc[id]) then Registered(p) || p.Settled? else !Registered(p)
    requires id in pc ==> !pc[id].Settled?
    requires !p.Armed?
    ensures ChannelsOk(pc[id := p], buffer, watch, callbacks)
  {
  }

  lemma StopMove(cfg: Config, s: State, id: JobId, p: PC)
    requires WorkersOk(cfg, s) && StopOk(cfg, s) && id in s.pc
    requires OnWorker(s.pc[id]) || (OnAwaiter(p) ==> OnAwaiter(s.pc[id]))
    ensures s.stop.StopDone? ==> NoAwaiter(s.pc[id := p])
  {
    if OnWorker(s.pc[id]) {
      assert id in Busy(s.pc);
    }
  }

  lemma TicketsMove(pc: map<JobId, PC>, jobs: map<JobId, Job>, tickets: map<TicketId, Ticket>, drawn: set<TicketId>,
                    id: JobId, p: PC, job: Job)
    requires TicketsOk(pc, jobs, tickets, drawn)
    requires id in pc && !BeforeCredit(pc[id]) ==> !BeforeCredit(p)
    requires id in jobs ==> jobs[id].typ == job.typ && jobs[id].user == job.user
    ensures TicketsOk(pc[id := p], jobs[id := job], tickets, drawn)
  {
    forall k | k in tickets ensures TicketOk(pc[id := p], jobs[id := job], tickets[k]) {
      assert TicketOk(pc, jobs, tickets[k]);
    }
  }

  /** A move that takes no worker, and starts nothing a finished Stop would have waited for. */
  predicate CalmMove(before: PC, p: PC) {
    && !before.InQueue? && !p.InQueue?
    && (OnWorker(p) ==> OnWorker(before))
    && (OnWorker(before) || (OnAwaiter(p) ==> OnAwaiter(before)))
  }

  lemma Known(cfg: Config, s: State, id: JobId)
    requires Inv(cfg, s) && id in s.pc
    ensures id in s.sh.jobs && GoodRecord(id, s.sh.jobs[id]) && Agrees(s.pc[id], s.sh.jobs[id])
  {
  }

  /** A calm move keeps the invariant once the parts it touches are shown. */
  lemma MoveKeeps(cfg: Config, s: State, id: JobId, p: PC, s': State)
    requires Inv(cfg, s) && id in s.pc && CalmMove(s.pc[id], p)
    requires id in s'.sh.jobs && GoodRecord(id, s'.sh.jobs[id]) && Agrees(p, s'.sh.jobs[id])
    requires s'.sh.jobs == s.sh.jobs[id := s'.sh.jobs[id]]
    requires s'.sh.queue == s.sh.queue && s'.sh.closed == s.sh.closed
    requires s'.pc == s.pc[id := p] && s'.idle == Move(s, id, p).idle
    requires s'.exited == s.exited && s'.stop == s.stop
    requires IndexOk(s'.sh.inflight, s'.sh.jobs)
    requires RegisteredOk(s'.sh.completions, s'.pc)
    requires ChannelsOk(s'.pc, s'.buffer, s'.watch, s'.callbacks)
    requires TicketsOk(s'.pc, s'.sh.jobs, s'.tickets, s'.drawn)
    ensures Inv(cfg, s')
  {
    hide RecordsOk, QueueOk, IndexOk, RegisteredOk, ChannelsOk, TicketsOk, NoAwaiter, ActiveKeys, OneActivePerKey, Busy;
    Known(cfg, s, id);
    RecordsMove(s.pc, s.sh.jobs, id, p, s'.sh.jobs[id]);
    QueueMove(cfg.depth, s.sh.queue, s.pc, id, p);
    BusyUpdate(s.pc, id, p);
    StopMove(cfg, s, id, p);
  }

  /** A calm move inside or outside the registered stretch, the record keeping its key and activity. */
  lemma PlainMoveKeeps(cfg: Config, s: State, id: JobId, p: PC, job: Job)
    requires Inv(cfg, s) && id in s.pc && CalmMove(s.pc[id], p)
    requires !s.pc[id].Settled? && !p.Armed?
    requires Registered(s.pc[id]) <==> Registered(p)
    requires !BeforeCredit(s.pc[id]) ==> !BeforeCredit(p)
    requires GoodRecord(id, job) && Agrees(p, job)
    requires KeyOf(s.sh.jobs[id]) == KeyOf(job) && s.sh.jobs[id].Active() == job.Active()
    requires s.sh.jobs[id].typ == job.typ && s.sh.jobs[id].user == job.user
    ensures Inv(cfg, Move(s.(sh := s.sh.(jobs := s.sh.jobs[id := job])), id, p))
  {
    hide RecordsOk, QueueOk, IndexOk, RegisteredOk, ChannelsOk, TicketsOk, NoAwaiter, ActiveKeys, OneActivePerKey, Busy;
    Known(cfg, s, id);
    IndexSame(s.sh.inflight, s.sh.jobs, id, job);
    RegisteredSame(s.sh.completions, s.pc, id, p);
    ChannelsMove(s.pc, s.buffer, s.watch, s.callbacks, id, p);
    TicketsMove(s.pc, s.sh.jobs, s.tickets, s.drawn, id, p, job);
    MoveKeeps(cfg, s, id, p, Move(s.(sh := s.sh.(jobs := s.sh.jobs[id := job])), id, p));
  }

  lemma StayMoveKeeps(cfg: Config, s: State, id: JobId, p: PC)
    requires Inv(cfg, s) && id in s.pc && CalmMove(s.pc[id], p)
    requires !s.pc[id].Settled? && !p.Armed?
    requires Registered(s.pc[id]) <==> Registered(p)
    requires !BeforeCredit(s.pc[id]) ==> !BeforeCredit(p)
    requires id in s.sh.jobs && Agrees(p, s.sh.jobs[id])
    ensures Inv(cfg, Move(s, id, p))
  {
    hide RecordsOk, QueueOk, IndexOk, RegisteredOk, ChannelsOk, TicketsOk, NoAwaiter, ActiveKeys, OneActivePerKey, Busy;
    Known(cfg, s, id);
    PlainMoveKeeps(cfg, s, id, p, s.sh.jobs[id]);
    assert s.sh.jobs[id := s.sh.jobs[id]] == s.sh.jobs;
    assert s.sh.(jobs := s.sh.jobs) == s.sh && s.(sh := s.sh) == s;
  }

  // -------------------------------------------------------------------------
  // Every event keeps the invariant
  // -------------------------------------------------------------------------

  lemma NewId(cfg: Config, s: State, id: JobId)
    requires Inv(cfg, s) && id !in s.sh.jobs
    ensures id !in s.pc
  {
  }

  lemma StopNew(cfg: Config, s: State, id: JobId, p: PC)
    requires StopOk(cfg, s) && !OnAwaiter(p)
    ensures s.stop.StopDone? ==> NoAwaiter(s.pc[id := p])
  {
  }

  lemma RegisteredNew(completions: set<JobId>, pc: map<JobId, PC>, id: JobId, p: PC)
    requires RegisteredOk(completions, pc) && id !in pc && !Registered(p)
    ensures RegisteredOk(completions, pc[id := p])
  {
  }

  /** A new record keeps every part but the queue, whatever its state. */
  lemma NewRecord(cfg: Config, s: State, id: JobId, p: PC, job: Job)
    requires Inv(cfg, s) && id !in s.sh.jobs && (p.InQueue? || p.Rejected?)
    requires GoodRecord(id, job) && Agrees(p, job)
    requires job.Active() ==> KeyOf(job) !in s.sh.inflight
    ensures id !in s.pc
    ensures var pc, jobs := s.pc[id := p], s.sh.jobs[id := job];
      && RecordsOk(pc, jobs)
      && IndexOk(if job.Active() then s.sh.inflight + {KeyOf(job)} else s.sh.inflight, jobs)
      && RegisteredOk(s.sh.completions, pc)
      && ChannelsOk(pc, s.buffer, s.watch, s.callbacks)
      && TicketsOk(pc, jobs, s.tickets, s.drawn)
      && |Busy(pc)| == |Busy(s.pc)|
      && (s.stop.StopDone? ==> NoAwaiter(pc))
  {
    NewId(cfg, s, id);
    hide RecordsOk, QueueOk, IndexOk, RegisteredOk, ChannelsOk, TicketsOk, NoAwaiter, ActiveKeys, OneActivePerKey, Busy;
    BusyUpdate(s.pc, id, p);
    RecordsMove(s.pc, s.sh.jobs, id, p, job);
    IndexAdd(s.sh.inflight, s.sh.jobs, id, job);
    RegisteredNew(s.sh.completions, s.pc, id, p);
    ChannelsMove(s.pc, s.buffer, s.watch, s.callbacks, id, p);
    TicketsMove(s.pc, s.sh.jobs, s.tickets, s.drawn, id, p, job);
    StopNew(cfg, s, id, p);
  }

  lemma QueuePush(depth: nat, queue: seq<JobId>, pc: map<JobId, PC>, id: JobId)
    requires QueueOk(depth, queue, pc) && id !in pc && |queue| < depth
    ensures QueueOk(depth, queue + [id], pc[id := InQueue])
  {
  }

  lemma SubmitKeeps(cfg: Config, s: State, t: JobType, user: string, item: string, id: JobId)
    requires Inv(cfg, s) && id !in s.sh.jobs
    requires user != "" && PolicyOf(t).Some? && (item == "" <==> Pipeline(t))
    ensures Inv(cfg, Submit(cfg, s, t, user, item, id))
  {
    hide RecordsOk, QueueOk, IndexOk, RegisteredOk, ChannelsOk, TicketsOk, NoAwaiter, ActiveKeys, OneActivePerKey, Busy;
    var job := Job(id, t, PolicyOf(t).value.provider, user, item, Pending, NO_HANDLE, "");
    if !s.sh.closed && KeyOf(job) !in s.sh.inflight {
      if |s.sh.queue| < cfg.depth {
        NewRecord(cfg, s, id, InQueue, job);
        QueuePush(cfg.depth, s.sh.queue, s.pc, id);
      } else {
        NewRecord(cfg, s, id, Rejected, job.(state := Failed, err := "queue full"));
        QueueMove(cfg.depth, s.sh.queue, s.pc, id, Rejected);
      }
    }
  }

  lemma QueuePop(depth: nat, queue: seq<JobId>, pc: map<JobId, PC>)
    requires QueueOk(depth, queue, pc) && queue != []
    ensures QueueOk(depth, queue[1..], pc[queue[0] := Taken])
  {
    var id := queue[0];
    forall j ensures j in queue[1..] <==> j in pc[id := Taken] && pc[id := Taken][j].InQueue? {
      assert j in queue <==> j == id || j in queue[1..];
    }
  }

  lemma TakeKeeps(cfg: Config, s: State)
    requires Inv(cfg, s) && s.idle > 0 && s.sh.queue != []
    ensures Inv(cfg, DoTake(s))
  {
    var id := s.sh.queue[0];
    var job := s.sh.jobs[id];
    assert s.sh.jobs[id := job] == s.sh.jobs;
    QueuePop(cfg.depth, s.sh.queue, s.pc);
    RecordsMove(s.pc, s.sh.jobs, id, Taken, job);
    RegisteredSame(s.sh.completions, s.pc, id, Taken);
    ChannelsMove(s.pc, s.buffer, s.watch, s.callbacks, id, Taken);
    TicketsMove(s.pc, s.sh.jobs, s.tickets, s.drawn, id, Taken, job);
    BusyUpdate(s.pc, id, Taken);
  }

  lemma StartKeeps(cfg: Config, s: State, id: JobId)
    requires Inv(cfg, s) && PcOf(s, id).Taken?
    ensures Inv(cfg, DoStart(s, id))
  {
    Known(cfg, s, id);
    hide RecordsOk, QueueOk, IndexOk, RegisteredOk, ChannelsOk, TicketsOk, NoAwaiter, ActiveKeys, OneActivePerKey, Busy;
    PlainMoveKeeps(cfg, s, id, Begun, s.sh.jobs[id].(state := JobState.Running));
  }

  lemma SetHandleKeeps(cfg: Config, s: State, id: JobId)
    requires Inv(cfg, s) && PcOf(s, id).Dispatched?
    ensures Inv(cfg, DoSetHandle(s, id))
  {
    Known(cfg, s, id);
    hide RecordsOk, QueueOk, IndexOk, RegisteredOk, ChannelsOk, TicketsOk, NoAwaiter, ActiveKeys, OneActivePerKey, Busy;
    var h := HandleOf(PcOf(s, id));
    PlainMoveKeeps(cfg, s, id, Placed(h), s.sh.jobs[id].(handle := h));
  }

  lemma IssueKeeps(pc: map<JobId, PC>, jobs: map<JobId, Job>, tickets: map<TicketId, Ticket>, drawn: set<TicketId>,
                   id: JobId, ticket: TicketId, t: Ticket, now: int)
    requires TicketsOk(pc, jobs, tickets, drawn) && id in pc && id in jobs && BeforeCredit(pc[id]) && ticket !in drawn
    requires t.jobId == id && t.typ == jobs[id].typ && t.user == jobs[id].user
    ensures TicketsOk(pc[id := Cleared], jobs, Issue(tickets, ticket, t, now), drawn + {ticket})
  {
    var after := Issue(tickets, ticket, t, now);
    forall k | k in after ensures TicketOk(pc[id := Cleared], jobs, after[k]) && k in drawn + {ticket} {
      if k != ticket {
        assert k in tickets && TicketOk(pc, jobs, tickets[k]);
      }
    }
    forall j, k | j in after && k in after && after[j].jobId == after[k].jobId ensures j == k {
      assert j != ticket ==> j in tickets && TicketOk(pc, jobs, tickets[j]);
      assert k != ticket ==> k in tickets && TicketOk(pc, jobs, tickets[k]);
    }
  }

  lemma CreditKeeps(cfg: Config, s: State, id: JobId, c: Credential)
    requires Inv(cfg, s) && PcOf(s, id).Begun? && Grantable(cfg, s, c)
    ensures Inv(cfg, DoCredit(s, id, c))
  {
    hide RecordsOk, QueueOk, IndexOk, RegisteredOk, ChannelsOk, TicketsOk, NoAwaiter, ActiveKeys, OneActivePerKey, Busy;
    Known(cfg, s, id);
    match c
    case Denied(msg) => StayMoveKeeps(cfg, s, id, Finishing(NO_HANDLE, Err(msg), Worker));
    case Minted => StayMoveKeeps(cfg, s, id, Cleared);
    case Ticketed(ticket, now) =>
      StayMoveKeeps(cfg, s, id, Cleared);
      var t := Ticket(id, s.sh.jobs[id].typ, s.sh.jobs[id].user, now + TICKET_TTL);
      IssueKeeps(s.pc, s.sh.jobs, s.tickets, s.drawn, id, ticket, t, now);
  }

  lemma ChannelsArm(pc: map<JobId, PC>, buffer: map<JobId, Option<Outcome>>, watch: map<JobId, Watch>,
                    callbacks: multiset<(JobId, Outcome)>, id: JobId, p: PC)
    requires ChannelsOk(pc, buffer, watch, callbacks) && p.Armed?
    ensures ChannelsOk(pc[id := p], buffer[id := None], watch[id := Watching], callbacks)
  {
  }

  lemma ArmKeeps(cfg: Config, s: State, id: JobId)
    requires Inv(cfg, s) && PcOf(s, id).Placed?
    ensures Inv(cfg, DoArm(s, id))
  {
    hide RecordsOk, QueueOk, IndexOk, RegisteredOk, ChannelsOk, TicketsOk, NoAwaiter, ActiveKeys, OneActivePerKey, Busy;
    Known(cfg, s, id);
    var p := Armed(HandleOf(PcOf(s, id)));
    var s' := DoArm(s, id);
    var job := s.sh.jobs[id];
    assert s.sh.jobs[id := job] == s.sh.jobs;
    RegisteredMove(s.sh.completions, s.pc, id, p);
    ChannelsArm(s.pc, s.buffer, s.watch, s.callbacks, id, p);
    TicketsMove(s.pc, s.sh.jobs, s.tickets, s.drawn, id, p, job);
    MoveKeeps(cfg, s, id, p, s');
  }

  lemma UnregisterKeeps(cfg: Config, s: State, id: JobId)
    requires Inv(cfg, s) && PcOf(s, id).Deregistering?
    ensures Inv(cfg, Step(cfg, s, Unregister(id)))
  {
    hide RecordsOk, QueueOk, IndexOk, RegisteredOk, ChannelsOk, TicketsOk, NoAwaiter, ActiveKeys, OneActivePerKey, Busy;
    Known(cfg, s, id);
    var s' := Step(cfg, s, Unregister(id));
    assert s.sh.jobs[id := s.sh.jobs[id]] == s.sh.jobs;
    RegisteredMove(s.sh.completions, s.pc, id, Settled);
    ChannelsMove(s.pc, s.buffer, s.watch, s.callbacks, id, Settled);
    TicketsMove(s.pc, s.sh.jobs, s.tickets, s.drawn, id, Settled, s.sh.jobs[id]);
    MoveKeeps(cfg, s, id, Settled, s');
  }

  /** Emptying a channel of a job that no longer waits on it. */
  lemma ChannelsReceive(pc: map<JobId, PC>, buffer: map<JobId, Option<Outcome>>, watch: map<JobId, Watch>,
                        callbacks: multiset<(JobId, Outcome)>, id: JobId,
                        buffer': map<JobId, Option<Outcome>>, watch': map<JobId, Watch>)
    requires ChannelsOk(pc, buffer, watch, callbacks)
    requires buffer'.Keys == buffer.Keys && watch'.Keys == watch.Keys
    requires forall k :: k in watch && k != id ==> watch'[k] == watch[k]
    requires id in pc ==> !pc[id].Armed?
    ensures ChannelsOk(pc, buffer', watch', callbacks)
  {
  }

  lemma ChannelsAnswer(pc: map<JobId, PC>, buffer: map<JobId, Option<Outcome>>, watch: map<JobId, Watch>,
                       callbacks: multiset<(JobId, Outcome)>, id: JobId, o: Outcome)
    requires ChannelsOk(pc, buffer, watch, callbacks) && id in watch
    ensures ChannelsOk(pc, buffer, watch[id := Returned(o)], callbacks)
  {
  }

  lemma ChannelsCall(pc: map<JobId, PC>, buffer: map<JobId, Option<Outcome>>, watch: map<JobId, Watch>,
                     callbacks: multiset<(JobId, Outcome)>, completions: set<JobId>, id: JobId, o: Outcome)
    requires ChannelsOk(pc, buffer, watch, callbacks) && RegisteredOk(completions, pc) && id in completions
    ensures ChannelsOk(pc, buffer, watch, callbacks + multiset{(id, o)})
  {
  }

  lemma WakeByCallbackKeeps(cfg: Config, s: State, id: JobId)
    requires Inv(cfg, s) && Enabled(cfg, s, WakeByCallback(id))
    ensures Inv(cfg, DoWakeByCallback(s, id))
  {
    hide RecordsOk, QueueOk, IndexOk, RegisteredOk, ChannelsOk, TicketsOk, NoAwaiter, ActiveKeys, OneActivePerKey, Busy;
    Known(cfg, s, id);
    var p := Finishing(HandleOf(PcOf(s, id)), s.buffer[id].value, Watcher);
    StayMoveKeeps(cfg, s, id, p);
    ChannelsMove(s.pc, s.buffer, s.watch, s.callbacks, id, p);
    ChannelsReceive(s.pc[id := p], s.buffer, s.watch, s.callbacks, id, s.buffer[id := None], s.watch);
  }

  lemma WakeByWatchKeeps(cfg: Config, s: State, id: JobId)
    requires Inv(cfg, s) && Enabled(cfg, s, WakeByWatch(id))
    ensures Inv(cfg, DoWakeByWatch(s, id))
  {
    hide RecordsOk, QueueOk, IndexOk, RegisteredOk, ChannelsOk, TicketsOk, NoAwaiter, ActiveKeys, OneActivePerKey, Busy;
    Known(cfg, s, id);
    var p := Finishing(HandleOf(PcOf(s, id)), s.watch[id].outcome, Watcher);
    StayMoveKeeps(cfg, s, id, p);
    ChannelsMove(s.pc, s.buffer, s.watch, s.callbacks, id, p);
    ChannelsReceive(s.pc[id := p], s.buffer, s.watch, s.callbacks, id, s.buffer, s.watch[id := Received]);
  }

  lemma ConcludeKeeps(cfg: Config, s: State, id: JobId)
    requires Inv(cfg, s) && PcOf(s, id).Finishing?
    ensures Inv(cfg, DoConclude(s, id))
  {
    hide RecordsOk, QueueOk, IndexOk, RegisteredOk, ChannelsOk, TicketsOk, NoAwaiter, ActiveKeys, OneActivePerKey, Busy;
    Known(cfg, s, id);
    var Finishing(h, o, who) := s.pc[id];
    var job := s.sh.jobs[id];
    var p, job' := AfterFinish(job.typ, o, who), Concluded(job, h, o);
    IndexRemove(s.sh.inflight, s.sh.jobs, id, job');
    RegisteredSame(s.sh.completions, s.pc, id, p);
    ChannelsMove(s.pc, s.buffer, s.watch, s.callbacks, id, p);
    TicketsMove(s.pc, s.sh.jobs, s.tickets, s.drawn, id, p, job');
    MoveKeeps(cfg, s, id, p, DoConclude(s, id));
  }

  lemma ChainKeeps(cfg: Config, s: State, id: JobId, newId: JobId)
    requires Inv(cfg, s) && PcOf(s, id).Chaining? && newId !in s.sh.jobs
    ensures Inv(cfg, DoChain(cfg, s, id, newId))
  {
    hide RecordsOk, QueueOk, IndexOk, RegisteredOk, ChannelsOk, TicketsOk, NoAwaiter, ActiveKeys, OneActivePerKey, Busy;
    Known(cfg, s, id);
    var job := s.sh.jobs[id];
    var s' := Move(s, id, AfterChain(s.pc[id].who));
    StayMoveKeeps(cfg, s, id, AfterChain(s.pc[id].who));
    SubmitKeeps(cfg, s', NextStage(job.typ).value, job.user, "", newId);
  }

  lemma LookupKeeps(cfg: Config, s: State, id: JobId, o: Outcome)
    requires Inv(cfg, s)
    ensures Inv(cfg, DoLookup(s, id, o))
  {
    hide RecordsOk, QueueOk, IndexOk, RegisteredOk, ChannelsOk, TicketsOk, NoAwaiter, ActiveKeys, OneActivePerKey, Busy;
    if id in s.sh.completions {
      ChannelsCall(s.pc, s.buffer, s.watch, s.callbacks, s.sh.completions, id, o);
    }
  }

  lemma ChannelsSend(pc: map<JobId, PC>, buffer: map<JobId, Option<Outcome>>, watch: map<JobId, Watch>,
                     callbacks: multiset<(JobId, Outcome)>, id: JobId, o: Outcome)
    requires ChannelsOk(pc, buffer, watch, callbacks)
    ensures ChannelsOk(pc, if id in buffer && buffer[id].None? then buffer[id := Some(o)] else buffer, watch, callbacks - multiset{(id, o)})
  {
  }

  lemma SendKeeps(cfg: Config, s: State, id: JobId, o: Outcome)
    requires Inv(cfg, s)
    ensures Inv(cfg, DoSend(s, id, o))
  {
    hide RecordsOk, QueueOk, IndexOk, RegisteredOk, ChannelsOk, TicketsOk, NoAwaiter, ActiveKeys, OneActivePerKey, Busy;
    ChannelsSend(s.pc, s.buffer, s.watch, s.callbacks, id, o);
  }

  lemma AwaitReturnKeeps(cfg: Config, s: State, id: JobId, o: Outcome)
    requires Inv(cfg, s) && Enabled(cfg, s, AwaitReturn(id, o))
    ensures Inv(cfg, Step(cfg, s, AwaitReturn(id, o)))
  {
    hide RecordsOk, QueueOk, IndexOk, RegisteredOk, ChannelsOk, TicketsOk, NoAwaiter, ActiveKeys, OneActivePerKey, Busy;
    ChannelsAnswer(s.pc, s.buffer, s.watch, s.callbacks, id, o);
  }

  lemma RedeemKeeps(cfg: Config, s: State, ticket: TicketId)
    requires Inv(cfg, s)
    ensures Inv(cfg, s.(tickets := s.tickets - {ticket}))
  {
    assert TicketsOk(s.pc, s.sh.jobs, s.tickets - {ticket}, s.drawn);
  }

  /** Stop, the workers leaving, and the two waits of Stop. */
  lemma StopKeeps(cfg: Config, s: State, e: Event)
    requires Inv(cfg, s) && Enabled(cfg, s, e)
    requires e.CloseQueue? || e.WorkerExit? || e.WorkersGone? || e.StopReturn?
    ensures Inv(cfg, Step(cfg, s, e))
  {
    hide RecordsOk, QueueOk, IndexOk, RegisteredOk, ChannelsOk, TicketsOk, ActiveKeys, OneActivePerKey, Busy;
  }

  /** Every enabled event keeps the whole invariant. */
  lemma StepKeeps(cfg: Config, s: State, e: Event)
    requires Inv(cfg, s) && Enabled(cfg, s, e)
    ensures Inv(cfg, Step(cfg, s, e))
  {
    hide RecordsOk, QueueOk, IndexOk, RegisteredOk, ChannelsOk, TicketsOk, NoAwaiter, ActiveKeys, OneActivePerKey, Busy;
    match e
    case Request(call, id) =>
      if Wanted(call).Some? {
        var (t, user, item) := Wanted(call).value;
        SubmitKeeps(cfg, s, t, user, item, id);
      }
    case CallbackLookup(id, o) => LookupKeeps(cfg, s, id, o);
    case Redeem(ticket, _) => RedeemKeeps(cfg, s, ticket);
    case Take => TakeKeeps(cfg, s);
    case Start(id) => StartKeeps(cfg, s, id);
    case Credit(id, c) => CreditKeeps(cfg, s, id, c);
    case Dispatch(id, h, o) =>
      Known(cfg, s, id);
      StayMoveKeeps(cfg, s, id, if o.Ok? then Dispatched(h) else Finishing(h, o, Worker));
    case SetHandle(id) => SetHandleKeeps(cfg, s, id);
    case Arm(id) => ArmKeeps(cfg, s, id);
    case Spawn(id) =>
      Known(cfg, s, id);
      StayMoveKeeps(cfg, s, id, Launching);
    case LaunchReturn(id, h, o) =>
      Known(cfg, s, id);
      StayMoveKeeps(cfg, s, id, Finishing(h, o, Runner));
    case AwaitReturn(id, o) => AwaitReturnKeeps(cfg, s, id, o);
    case CallbackSend(id, o) => SendKeeps(cfg, s, id, o);
    case WakeByCallback(id) => WakeByCallbackKeeps(cfg, s, id);
    case WakeByWatch(id) => WakeByWatchKeeps(cfg, s, id);
    case Conclude(id) => ConcludeKeeps(cfg, s, id);
    case Chain(id, newId) => ChainKeeps(cfg, s, id, newId);
    case Unregister(id) => UnregisterKeeps(cfg, s, id);
    case _ => StopKeeps(cfg, s, e);
  }
}
