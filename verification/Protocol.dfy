/**
 * The orchestrator as a transition system. Every lock section, channel operation and
 * goroutine hand-over is one event; the launcher's answers, the drawn ids and the clock
 * are carried by the event, so a run is a sequence of events.
 */
module Protocol {
  import opened Options
  import opened Jobs
  import opened Registry

  /** Which goroutine is in charge of a job: a dispatch worker, the callback/watch race, or a blocking launch. */
  datatype Who = Worker | Watcher | Runner

  /** The program counter of one job record. */
  datatype PC =
    | InQueue
    | Taken
    | Begun
    | Cleared
    | Launching
    | Dispatched(handle: Handle)
    | Placed(handle: Handle)
    | Armed(handle: Handle)
    | Finishing(handle: Handle, outcome: Outcome, who: Who)
    | Chaining(who: Who)
    | Deregistering
    | Settled
    | Rejected

  /** The exported request methods and their arguments. */
  datatype Call =
    | EnsureBackfill(owner: string)
    | AskConverse(owner: string, item: string)
    | AskResearch(owner: string, item: string)

  /** What a request enqueues; empty arguments are refused before the lock. */
  function Wanted(c: Call): Option<(JobType, string, string)> {
    match c
    case EnsureBackfill(u) => if u == "" then None else Some((Ingest, u, ""))
    case AskConverse(u, i) => if u == "" || i == "" then None else Some((Converse, u, i))
    case AskResearch(u, i) => if u == "" || i == "" then None else Some((Research, u, i))
  }

  datatype Ticket = Ticket(jobId: JobId, typ: JobType, user: string, expires: int)

  const TICKET_TTL := 300_000_000_000 // nanoseconds

  /** The answer of dispatchCredential. */
  datatype Credential = Minted | Ticketed(ticket: TicketId, now: int) | Denied(msg: string)

  datatype Watch = Watching | Returned(outcome: Outcome) | Received

  datatype StopPhase = Open | AwaitWorkers | AwaitLaunches | StopDone

  datatype Config = Config(workers: nat, depth: nat, async: bool, pulls: bool)
  {
    predicate Valid() { 0 < workers && 0 < depth }
  }

  datatype State = State(
    sh: Shared,
    pc: map<JobId, PC>,
    buffer: map<JobId, Option<Outcome>>,  // the one-slot completion channel of each armed job
    watch: map<JobId, Watch>,
    callbacks: multiset<(JobId, Outcome)>, // CompleteJob calls between lookup and send
    idle: nat,
    exited: nat,
    stop: StopPhase,
    tickets: map<TicketId, Ticket>,
    drawn: set<TicketId>)                     // every ticket id ever issued

  datatype Event =
    | Request(call: Call, id: JobId)
    | CallbackLookup(id: JobId, outcome: Outcome)
    | Redeem(ticket: TicketId, now: int)
    | CloseQueue
    | Take
    | Start(id: JobId)
    | Credit(id: JobId, cred: Credential)
    | Dispatch(id: JobId, handle: Handle, outcome: Outcome)
    | SetHandle(id: JobId)
    | Arm(id: JobId)
    | Spawn(id: JobId)
    | LaunchReturn(id: JobId, handle: Handle, outcome: Outcome)
    | AwaitReturn(id: JobId, outcome: Outcome)
    | CallbackSend(id: JobId, outcome: Outcome)
    | WakeByCallback(id: JobId)
    | WakeByWatch(id: JobId)
    | Conclude(id: JobId)
    | Chain(id: JobId, newId: JobId)
    | Unregister(id: JobId)
    | WorkerExit
    | WorkersGone
    | StopReturn
  {
    /** Requests, callbacks, redemptions and Stop come from outside; the rest is the orchestrator's own work. */
    predicate External() { Request? || CallbackLookup? || Redeem? || CloseQueue? }
  }

  function Init(cfg: Config): State {
    State(FRESH, map[], map[], map[], multiset{}, cfg.workers, 0, Open, map[], {})
  }

  /** The job holds a dispatch worker. */
  predicate OnWorker(p: PC) {
    match p
    case Taken | Begun | Cleared | Dispatched(_) | Placed(_) => true
    case Finishing(_, _, who) => who.Worker?
    case Chaining(who) => who.Worker?
    case _ => false
  }

  /** The job is counted by the awaiters wait group. */
  predicate OnAwaiter(p: PC) {
    match p
    case Launching | Armed(_) | Deregistering => true
    case Finishing(_, _, who) => !who.Worker?
    case Chaining(who) => !who.Worker?
    case _ => false
  }

  function AfterChain(who: Who): PC { if who.Watcher? then Deregistering else Settled }

  function AfterFinish(t: JobType, o: Outcome, who: Who): PC {
    if o.Ok? && NextStage(t).Some? then Chaining(who) else AfterChain(who)
  }

  function PcOf(s: State, id: JobId): PC { if id in s.pc then s.pc[id] else Settled }

  function HandleOf(p: PC): Handle {
    match p
    case Dispatched(h) => h
    case Placed(h) => h
    case Armed(h) => h
    case Finishing(h, _, _) => h
    case _ => NO_HANDLE
  }

  /** A pull launcher is handed a fresh ticket, any other the minted token; either may fail. */
  predicate Grantable(cfg: Config, s: State, c: Credential) {
    match c
    case Minted => !cfg.pulls
    case Ticketed(ticket, _) => cfg.pulls && ticket !in s.drawn
    case Denied(_) => true
  }

  predicate Enabled(cfg: Config, s: State, e: Event) {
    match e
    case Request(_, id) => id !in s.sh.jobs
    case CallbackLookup(_, _) => true
    case Redeem(_, _) => true
    case CloseQueue => !s.sh.closed
    case Take => s.idle > 0 && s.sh.queue != []
    case Start(id) => PcOf(s, id).Taken?
    case Credit(id, c) => PcOf(s, id).Begun? && Grantable(cfg, s, c)
    case Dispatch(id, _, _) => cfg.async && PcOf(s, id).Cleared?
    case SetHandle(id) => PcOf(s, id).Dispatched?
    case Arm(id) => PcOf(s, id).Placed?
    case Spawn(id) => !cfg.async && PcOf(s, id).Cleared?
    case LaunchReturn(id, _, _) => PcOf(s, id).Launching?
    case AwaitReturn(id, _) => id in s.watch && s.watch[id].Watching?
    case CallbackSend(id, o) => (id, o) in s.callbacks
    case WakeByCallback(id) => PcOf(s, id).Armed? && id in s.buffer && s.buffer[id].Some?
    case WakeByWatch(id) => PcOf(s, id).Armed? && id in s.watch && s.watch[id].Returned?
    case Conclude(id) => PcOf(s, id).Finishing?
    case Chain(id, newId) => PcOf(s, id).Chaining? && newId !in s.sh.jobs
    case Unregister(id) => PcOf(s, id).Deregistering?
    case WorkerExit => s.idle > 0 && s.sh.closed && s.sh.queue == []
    case WorkersGone => s.stop.AwaitWorkers? && s.exited == cfg.workers
    case StopReturn => s.stop.AwaitLaunches? && forall id :: id in s.pc ==> !OnAwaiter(s.pc[id])
  }

  /** Moves the job's program counter; a worker that lets go of its job is idle again. */
  function Move(s: State, id: JobId, p: PC): State {
    s.(pc := s.pc[id := p], idle := if OnWorker(PcOf(s, id)) && !OnWorker(p) then s.idle + 1 else s.idle)
  }

  /** enqueue, for a request or for the next stage of a pipeline. */
  function Submit(cfg: Config, s: State, t: JobType, user: string, item: string, id: JobId): State {
    var (sh, verdict) := Enqueue(s.sh, cfg.depth, t, user, item, id);
    match verdict
    case Accepted => s.(sh := sh, pc := s.pc[id := InQueue])
    case QueueFull => s.(sh := sh, pc := s.pc[id := Rejected])
    case _ => s
  }

  function DoRequest(cfg: Config, s: State, call: Call, id: JobId): State {
    match Wanted(call)
    case None => s
    case Some((t, user, item)) => Submit(cfg, s, t, user, item, id)
  }

  function DoLookup(s: State, id: JobId, o: Outcome): State {
    if id in s.sh.completions then s.(callbacks := s.callbacks + multiset{(id, o)}) else s
  }

  function DoTake(s: State): State {
    if s.sh.queue == [] || s.idle == 0 then s else
    s.(sh := s.sh.(queue := s.sh.queue[1..]), pc := s.pc[s.sh.queue[0] := Taken], idle := s.idle - 1)
  }

  function DoStart(s: State, id: JobId): State { Move(s.(sh := Begin(s.sh, id)), id, Begun) }

  /** issueTicket under its lock: expired tickets are dropped, the new one stored. */
  function Issue(tickets: map<TicketId, Ticket>, ticket: TicketId, t: Ticket, now: int): map<TicketId, Ticket> {
    (map k | k in tickets && now <= tickets[k].expires :: tickets[k])[ticket := t]
  }

  function DoCredit(s: State, id: JobId, c: Credential): State {
    match c
    case Denied(msg) => Move(s, id, Finishing(NO_HANDLE, Err(msg), Worker))
    case Minted => Move(s, id, Cleared)
    case Ticketed(ticket, now) =>
      if id !in s.sh.jobs then s else
      var t := Ticket(id, s.sh.jobs[id].typ, s.sh.jobs[id].user, now + TICKET_TTL);
      Move(s.(tickets := Issue(s.tickets, ticket, t, now), drawn := s.drawn + {ticket}), id, Cleared)
  }

  function DoDispatch(s: State, id: JobId, h: Handle, o: Outcome): State {
    Move(s, id, if o.Ok? then Dispatched(h) else Finishing(h, o, Worker))
  }

  function DoSetHandle(s: State, id: JobId): State {
    var h := HandleOf(PcOf(s, id));
    Move(s.(sh := Place(s.sh, id, h)), id, Placed(h))
  }

  function DoArm(s: State, id: JobId): State {
    Move(s.(sh := Register(s.sh, id), buffer := s.buffer[id := None], watch := s.watch[id := Watching]),
         id, Armed(HandleOf(PcOf(s, id))))
  }

  function DoSend(s: State, id: JobId, o: Outcome): State {
    s.(callbacks := s.callbacks - multiset{(id, o)},
       buffer := if id in s.buffer && s.buffer[id].None? then s.buffer[id := Some(o)] else s.buffer)
  }

  function DoWakeByCallback(s: State, id: JobId): State {
    if id in s.buffer && s.buffer[id].Some? then
      Move(s.(buffer := s.buffer[id := None]), id, Finishing(HandleOf(PcOf(s, id)), s.buffer[id].value, Watcher))
    else s
  }

  function DoWakeByWatch(s: State, id: JobId): State {
    if id in s.watch && s.watch[id].Returned? then
      Move(s.(watch := s.watch[id := Received]), id, Finishing(HandleOf(PcOf(s, id)), s.watch[id].outcome, Watcher))
    else s
  }

  function DoConclude(s: State, id: JobId): State {
    match PcOf(s, id)
    case Finishing(h, o, who) =>
      if id !in s.sh.jobs then s else
      var job := s.sh.jobs[id];
      Move(s.(sh := Finalize(s.sh, id, KeyOf(job), h, o)), id, AfterFinish(job.typ, o, who))
    case _ => s
  }

  function DoChain(cfg: Config, s: State, id: JobId, newId: JobId): State {
    match PcOf(s, id)
    case Chaining(who) =>
      var s' := Move(s, id, AfterChain(who));
      if id !in s.sh.jobs || NextStage(s.sh.jobs[id].typ).None? then s' else
      Submit(cfg, s', NextStage(s.sh.jobs[id].typ).value, s.sh.jobs[id].user, "", newId)
    case _ => s
  }

  function Step(cfg: Config, s: State, e: Event): State {
    match e
    case Request(call, id) => DoRequest(cfg, s, call, id)
    case CallbackLookup(id, o) => DoLookup(s, id, o)
    case Redeem(ticket, _) => s.(tickets := s.tickets - {ticket})
    case CloseQueue => s.(sh := Close(s.sh), stop := AwaitWorkers)
    case Take => DoTake(s)
    case Start(id) => DoStart(s, id)
    case Credit(id, c) => DoCredit(s, id, c)
    case Dispatch(id, h, o) => DoDispatch(s, id, h, o)
    case SetHandle(id) => DoSetHandle(s, id)
    case Arm(id) => DoArm(s, id)
    case Spawn(id) => Move(s, id, Launching)
    case LaunchReturn(id, h, o) => Move(s, id, Finishing(h, o, Runner))
    case AwaitReturn(id, o) => s.(watch := s.watch[id := Returned(o)])
    case CallbackSend(id, o) => DoSend(s, id, o)
    case WakeByCallback(id) => DoWakeByCallback(s, id)
    case WakeByWatch(id) => DoWakeByWatch(s, id)
    case Conclude(id) => DoConclude(s, id)
    case Chain(id, newId) => DoChain(cfg, s, id, newId)
    case Unregister(id) => Move(s.(sh := Deregister(s.sh, id)), id, Settled)
    case WorkerExit => if s.idle == 0 then s else s.(idle := s.idle - 1, exited := s.exited + 1)
    case WorkersGone => s.(stop := AwaitLaunches)
    case StopReturn => s.(stop := StopDone)
  }

  // -------------------------------------------------------------------------
  // Runs
  // -------------------------------------------------------------------------

  /** Whether the events can happen in this order from `s`, and where they lead. */
  predicate CanRun(cfg: Config, s: State, es: seq<Event>)
    decreases |es|
  {
    es == [] || (Enabled(cfg, s, es[0]) && CanRun(cfg, Step(cfg, s, es[0]), es[1..]))
  }

  function After(cfg: Config, s: State, es: seq<Event>): State
    decreases |es|
  {
    if es == [] then s else After(cfg, Step(cfg, s, es[0]), es[1..])
  }

  lemma {:induction false} RunSplits(cfg: Config, s: State, a: seq<Event>, b: seq<Event>)
    ensures CanRun(cfg, s, a + b) <==> CanRun(cfg, s, a) && CanRun(cfg, After(cfg, s, a), b)
    ensures After(cfg, s, a + b) == After(cfg, After(cfg, s, a), b)
    decreases |a|
  {
    if a == [] {
      assert a + b == b;
    } else {
      assert (a + b)[0] == a[0] && (a + b)[1..] == a[1..] + b;
      RunSplits(cfg, Step(cfg, s, a[0]), a[1..], b);
    }
  }
}
