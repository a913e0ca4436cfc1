/** What can happen: every answer of callbacks, watches and launchers is possible, and the record takes it. */
module Outcomes {
  import opened Options
  import opened Jobs
  import opened Registry
  import opened Protocol
  import opened Invariant
  import opened Runs
  import opened Hops
  import opened Finalisation
  import Pipelines
  import Stopping
  import Tickets

  // -------------------------------------------------------------------------
  // Going on with a run
  // -------------------------------------------------------------------------

  /** The events can happen in this order from `s` and lead to `s'`. */
  predicate Leads(cfg: Config, s: State, es: seq<Event>, s': State) { CanRun(cfg, s, es) && After(cfg, s, es) == s' }

  lemma LeadsOn(cfg: Config, s: State, e: Event, es: seq<Event>, s': State)
    requires Enabled(cfg, s, e) && Leads(cfg, Step(cfg, s, e), es, s')
    ensures Leads(cfg, s, [e] + es, s')
  {
    hide Step, Enabled;
    assert ([e] + es)[0] == e && ([e] + es)[1..] == es;
  }

  lemma LeadsNowhere(cfg: Config, s: State)
    ensures Leads(cfg, s, [], s)
  {
  }

  lemma LeadsThere(cfg: Config, s: State, es: seq<Event>)
    requires CanRun(cfg, s, es)
    ensures Leads(cfg, s, es, After(cfg, s, es))
  {
  }

  lemma LeadsTwo(cfg: Config, s: State, a: Event, b: Event)
    requires Enabled(cfg, s, a) && Enabled(cfg, Step(cfg, s, a), b)
    ensures Leads(cfg, s, [a, b], Step(cfg, Step(cfg, s, a), b))
  {
    hide Step, Enabled, Leads;
    var s1 := Step(cfg, s, a);
    var s2 := Step(cfg, s1, b);
    LeadsNowhere(cfg, s2);
    LeadsOn(cfg, s1, b, [], s2);
    assert [b] + [] == [b];
    LeadsOn(cfg, s, a, [b], s2);
    assert [a] + [b] == [a, b];
  }

  lemma LeadsJoin(cfg: Config, s: State, a: seq<Event>, s1: State, b: seq<Event>, s2: State)
    requires Leads(cfg, s, a, s1) && Leads(cfg, s1, b, s2)
    ensures Leads(cfg, s, a + b, s2)
  {
    RunSplits(cfg, s, a, b);
  }

  lemma RunLeads(cfg: Config, es: seq<Event>, more: seq<Event>, s': State)
    requires Run(cfg, es) && Leads(cfg, Reached(cfg, es), more, s')
    ensures Run(cfg, es + more) && Reached(cfg, es + more) == s'
  {
    RunSplits(cfg, Init(cfg), es, more);
  }

  // -------------------------------------------------------------------------
  // The callback and the watch
  // -------------------------------------------------------------------------

  /** A lookup and its send, with nothing in between: the first value stays in the channel, nothing else changes. */
  lemma CallAndSend(cfg: Config, s: State, id: JobId, o: Outcome)
    requires id in s.sh.completions && id in s.buffer
    ensures Leads(cfg, s, [CallbackLookup(id, o), CallbackSend(id, o)],
      s.(buffer := s.buffer[id := if s.buffer[id].None? then Some(o) else s.buffer[id]]))
  {
    var s1 := Step(cfg, s, CallbackLookup(id, o));
    assert s1 == s.(callbacks := s.callbacks + multiset{(id, o)});
    assert s1.callbacks - multiset{(id, o)} == s.callbacks;
    LeadsTwo(cfg, s, CallbackLookup(id, o), CallbackSend(id, o));
    assert s.buffer[id].Some? ==> s.buffer[id := s.buffer[id]] == s.buffer;
  }

  /** A job holds a completion channel from arming up to its deregistration. */
  predicate HoldsChannel(s: State, id: JobId) {
    id in s.pc && (s.pc[id].Armed? || s.pc[id].Deregistering?
                   || (s.pc[id].Finishing? && s.pc[id].who == Watcher) || (s.pc[id].Chaining? && s.pc[id].who == Watcher))
  }

  /** CompleteJob for any other job, known or not, changes nothing. */
  lemma CallbackElsewhere(cfg: Config, s: State, id: JobId, o: Outcome)
    requires Inv(cfg, s) && !HoldsChannel(s, id)
    ensures Enabled(cfg, s, CallbackLookup(id, o)) && Step(cfg, s, CallbackLookup(id, o)) == s
  {
    hide RecordsOk, QueueOk, IndexOk, ChannelsOk, WorkersOk, StopOk, TicketsOk;
  }

  /** What an armed job brings to its finish: its channels, and a record without an error. */
  lemma ArmedJob(cfg: Config, es: seq<Event>, id: JobId)
    requires Run(cfg, es) && id in Reached(cfg, es).pc && Reached(cfg, es).pc[id].Armed?
    ensures var s := Reached(cfg, es);
      && id in s.sh.jobs && s.sh.jobs[id].err == "" && id in s.sh.completions
      && id in s.buffer && s.buffer[id] == FirstSend(es, id)
      && id in s.watch && !s.watch[id].Received?
  {
    Reachable(cfg, es);
    OriginHolds(cfg, es, id);
    Known(cfg, Reached(cfg, es), id);
    hide Run, Reached, FirstSend, Accounted, CounterOrigin, QueueOk, IndexOk, WorkersOk, StopOk, TicketsOk;
  }

  lemma ConcludeLeads(cfg: Config, s: State, e: Event, id: JobId, h: Handle, o: Outcome, who: Who)
    requires Enabled(cfg, s, e) && Shape(Step(cfg, s, e))
    requires var s1 := Step(cfg, s, e);
      id in s1.pc && s1.pc[id] == Finishing(h, o, who) && id in s1.sh.jobs && s1.sh.jobs[id].err == ""
    ensures var s2 := Step(cfg, Step(cfg, s, e), Conclude(id));
      Leads(cfg, s, [e, Conclude(id)], s2) && id in s2.sh.jobs && Records(s2.sh.jobs[id], h, o)
  {
    var s1 := Step(cfg, s, e);
    assert Enabled(cfg, s1, Conclude(id));
    ConcludeRecords(cfg, s1, id, h, o, who);
    hide Step, Enabled, Records, Shape, Leads;
    LeadsTwo(cfg, s, e, Conclude(id));
  }

  /** The moves of a wake-up, keeping the records. */
  lemma WakeMoves(cfg: Config, s: State, e: Event, id: JobId, h: Handle, o: Outcome)
    requires Shape(s) && id in s.pc && s.pc[id] == Armed(h)
    requires (e == WakeByCallback(id) && id in s.buffer && s.buffer[id] == Some(o))
          || (e == WakeByWatch(id) && id in s.watch && s.watch[id] == Returned(o))
    ensures Enabled(cfg, s, e)
    ensures var s1 := Step(cfg, s, e); Shape(s1) && s1.sh == s.sh && id in s1.pc && s1.pc[id] == Finishing(h, o, Watcher)
  {
  }

  /** Whoever is received first finalises the job, with its value. */
  lemma WakeRecords(cfg: Config, s: State, e: Event, id: JobId, h: Handle, o: Outcome)
    requires Shape(s) && id in s.pc && s.pc[id] == Armed(h) && id in s.sh.jobs && s.sh.jobs[id].err == ""
    requires (e == WakeByCallback(id) && id in s.buffer && s.buffer[id] == Some(o))
          || (e == WakeByWatch(id) && id in s.watch && s.watch[id] == Returned(o))
    ensures var s2 := Step(cfg, Step(cfg, s, e), Conclude(id));
      Leads(cfg, s, [e, Conclude(id)], s2) && id in s2.sh.jobs && Records(s2.sh.jobs[id], h, o)
  {
    WakeMoves(cfg, s, e, id, h, o);
    hide Step, Enabled, Shape, Records, Leads;
    ConcludeLeads(cfg, s, e, id, h, o, Watcher);
  }

  lemma ShapeIgnoresChannels(s: State, buffer: map<JobId, Option<Outcome>>, watch: map<JobId, Watch>)
    requires Shape(s)
    ensures Shape(s.(buffer := buffer, watch := watch))
  {
  }

  /** From an armed job with an empty channel: one callback, or one and then another, and the first is recorded. */
  lemma CallbackLeads(cfg: Config, s: State, id: JobId, h: Handle, o: Outcome, again: Outcome)
    requires Shape(s) && id in s.pc && s.pc[id] == Armed(h) && id in s.sh.jobs && s.sh.jobs[id].err == ""
    requires id in s.sh.completions && id in s.buffer && s.buffer[id].None?
    ensures var s1 := s.(buffer := s.buffer[id := Some(o)]); var s2 := Step(cfg, Step(cfg, s1, WakeByCallback(id)), Conclude(id));
      && Leads(cfg, s, [CallbackLookup(id, o), CallbackSend(id, o)] + [WakeByCallback(id), Conclude(id)], s2)
      && Leads(cfg, s, [CallbackLookup(id, o), CallbackSend(id, o)] + [CallbackLookup(id, again), CallbackSend(id, again)]
                       + [WakeByCallback(id), Conclude(id)], s2)
      && id in s2.sh.jobs && Records(s2.sh.jobs[id], h, o)
  {
    hide Shape, Step, Enabled, Records, Leads;
    var first, second := [CallbackLookup(id, o), CallbackSend(id, o)], [CallbackLookup(id, again), CallbackSend(id, again)];
    var wake := [WakeByCallback(id), Conclude(id)];
    var s1 := s.(buffer := s.buffer[id := Some(o)]);
    CallAndSend(cfg, s, id, o);
    CallAndSend(cfg, s1, id, again);
    assert s1.buffer[id := s1.buffer[id]] == s1.buffer;
    ShapeIgnoresChannels(s, s1.buffer, s.watch);
    WakeRecords(cfg, s1, WakeByCallback(id), id, h, o);
    var s2 := Step(cfg, Step(cfg, s1, WakeByCallback(id)), Conclude(id));
    LeadsJoin(cfg, s, first, s1, wake, s2);
    LeadsJoin(cfg, s, first, s1, second, s1);
    LeadsJoin(cfg, s, first + second, s1, wake, s2);
  }

  /**
   * In any run a callback that comes to an armed job before any other can be accepted and finalise the job
   * with its value, whatever the watch has returned; any further callbacks before the wake-up change nothing.
   */
  lemma CallbackWins(cfg: Config, es: seq<Event>, id: JobId, h: Handle, o: Outcome, again: Outcome)
    requires Run(cfg, es) && id in Reached(cfg, es).pc && Reached(cfg, es).pc[id] == Armed(h) && FirstSend(es, id).None?
    ensures var more := es + [CallbackLookup(id, o), CallbackSend(id, o), WakeByCallback(id), Conclude(id)];
      Run(cfg, more) && id in Reached(cfg, more).sh.jobs && Records(Reached(cfg, more).sh.jobs[id], h, o)
    ensures var more := es + [CallbackLookup(id, o), CallbackSend(id, o), CallbackLookup(id, again), CallbackSend(id, again),
                              WakeByCallback(id), Conclude(id)];
      Run(cfg, more) && id in Reached(cfg, more).sh.jobs && Records(Reached(cfg, more).sh.jobs[id], h, o)
  {
    hide Run, Reached, Inv, Shape, Step, Enabled, FirstSend, Records, Leads;
    var s := Reached(cfg, es);
    Reachable(cfg, es);
    InvShape(cfg, s);
    ArmedJob(cfg, es, id);
    CallbackLeads(cfg, s, id, h, o, again);
    var first, second := [CallbackLookup(id, o), CallbackSend(id, o)], [CallbackLookup(id, again), CallbackSend(id, again)];
    var wake := [WakeByCallback(id), Conclude(id)];
    var s2 := Step(cfg, Step(cfg, s.(buffer := s.buffer[id := Some(o)]), WakeByCallback(id)), Conclude(id));
    RunLeads(cfg, es, first + wake, s2);
    assert es + (first + wake) == es + [CallbackLookup(id, o), CallbackSend(id, o), WakeByCallback(id), Conclude(id)];
    RunLeads(cfg, es, first + second + wake, s2);
    assert es + (first + second + wake) == es + [CallbackLookup(id, o), CallbackSend(id, o), CallbackLookup(id, again),
                                                 CallbackSend(id, again), WakeByCallback(id), Conclude(id)];
  }

  lemma WatchLeads(cfg: Config, s: State, id: JobId, h: Handle, o: Outcome)
    requires Shape(s) && id in s.pc && s.pc[id] == Armed(h) && id in s.sh.jobs && s.sh.jobs[id].err == ""
    requires id in s.watch && s.watch[id] == Watching
    ensures var s1 := s.(watch := s.watch[id := Returned(o)]); var s2 := Step(cfg, Step(cfg, s1, WakeByWatch(id)), Conclude(id));
      && Leads(cfg, s, [AwaitReturn(id, o)] + [WakeByWatch(id), Conclude(id)], s2)
      && id in s2.sh.jobs && Records(s2.sh.jobs[id], h, o)
  {
    var e, s1 := AwaitReturn(id, o), s.(watch := s.watch[id := Returned(o)]);
    assert Enabled(cfg, s, e) && Step(cfg, s, e) == s1;
    hide Shape, Step, Enabled, Records, Leads;
    ShapeIgnoresChannels(s, s.buffer, s1.watch);
    WakeRecords(cfg, s1, WakeByWatch(id), id, h, o);
    LeadsOn(cfg, s, e, [WakeByWatch(id), Conclude(id)], Step(cfg, Step(cfg, s1, WakeByWatch(id)), Conclude(id)));
  }

  /** A watch still out can return anything, and finalise the job with it, whatever callback waits in the channel. */
  lemma WatchWins(cfg: Config, es: seq<Event>, id: JobId, h: Handle, o: Outcome)
    requires Run(cfg, es) && id in Reached(cfg, es).pc && Reached(cfg, es).pc[id] == Armed(h)
    requires id in Reached(cfg, es).watch && Reached(cfg, es).watch[id] == Watching
    ensures var more := es + [AwaitReturn(id, o), WakeByWatch(id), Conclude(id)];
      Run(cfg, more) && id in Reached(cfg, more).sh.jobs && Records(Reached(cfg, more).sh.jobs[id], h, o)
  {
    hide Run, Reached, Inv, Shape, Step, Enabled, FirstSend, Records, Leads;
    var s := Reached(cfg, es);
    Reachable(cfg, es);
    InvShape(cfg, s);
    ArmedJob(cfg, es, id);
    WatchLeads(cfg, s, id, h, o);
    var s1 := s.(watch := s.watch[id := Returned(o)]);
    RunLeads(cfg, es, [AwaitReturn(id, o)] + [WakeByWatch(id), Conclude(id)],
             Step(cfg, Step(cfg, s1, WakeByWatch(id)), Conclude(id)));
    assert es + ([AwaitReturn(id, o)] + [WakeByWatch(id), Conclude(id)]) == es + [AwaitReturn(id, o), WakeByWatch(id), Conclude(id)];
  }

  /** A watch that has returned can still lose to a callback and still win against one: its value can be recorded. */
  lemma ReturnedWatchWins(cfg: Config, es: seq<Event>, id: JobId, h: Handle, o: Outcome)
    requires Run(cfg, es) && id in Reached(cfg, es).pc && Reached(cfg, es).pc[id] == Armed(h)
    requires id in Reached(cfg, es).watch && Reached(cfg, es).watch[id] == Returned(o)
    ensures var more := es + [WakeByWatch(id), Conclude(id)];
      Run(cfg, more) && id in Reached(cfg, more).sh.jobs && Records(Reached(cfg, more).sh.jobs[id], h, o)
  {
    hide Run, Reached, Inv, Shape, Step, Enabled, FirstSend, Records, Leads;
    var s := Reached(cfg, es);
    Reachable(cfg, es);
    InvShape(cfg, s);
    ArmedJob(cfg, es, id);
    WakeRecords(cfg, s, WakeByWatch(id), id, h, o);
    RunLeads(cfg, es, [WakeByWatch(id), Conclude(id)], Step(cfg, Step(cfg, s, WakeByWatch(id)), Conclude(id)));
  }

  // -------------------------------------------------------------------------
  // Stages are handed over
  // -------------------------------------------------------------------------

  predicate Chained(t: JobType) { t == Ingest || t == Enrich }

  /** The stage a succeeded job of the type must be followed by. */
  function Follower(t: JobType): JobType { if t == Ingest then Enrich else Rank }

  /** A successful finish of an ingest or enrich job owes the next stage; of any other job it owes nothing. */
  lemma SuccessOwesStage(cfg: Config, s: State, id: JobId)
    requires Inv(cfg, s) && id in s.pc && s.pc[id].Finishing? && id in s.sh.jobs
    ensures var s' := Step(cfg, s, Conclude(id));
      id in s'.pc && (s'.pc[id].Chaining? <==> s.pc[id].outcome.Ok? && Chained(s.sh.jobs[id].typ))
  {
    hide Inv, Finalize, KeyOf;
  }

  ghost predicate DoneWith(s: State, id: JobId) {
    id in s.sh.jobs && Chained(s.sh.jobs[id].typ) && s.sh.jobs[id].state.Succeeded? && !(id in s.pc && s.pc[id].Chaining?)
  }

  /** The event that leaves a succeeded stage done with is its own Chain step. */
  lemma OnlyChainIsDone(cfg: Config, s: State, e: Event, id: JobId)
    requires Inv(cfg, s) && Enabled(cfg, s, e) && DoneWith(Step(cfg, s, e), id) && !DoneWith(s, id)
    ensures e.Chain? && e.id == id && id in s.sh.jobs
    ensures Step(cfg, s, e).sh.jobs[id] == s.sh.jobs[id]
  {
    hide Inv, Step, Shape, Enabled, GoodRecord;
    InvShape(cfg, s);
    RecordAt(cfg, s, e, id);
    HopAt(cfg, s, e, id);
    if id in s.sh.jobs {
      Known(cfg, s, id);
      if e == Conclude(id) {
        FinishingAt(cfg, s, id);
        SuccessOwesStage(cfg, s, id);
      }
    }
  }

  lemma DoneTyp(s: State, id: JobId)
    requires DoneWith(s, id)
    ensures id in s.sh.jobs && s.sh.jobs[id].Terminal() && NextStage(s.sh.jobs[id].typ) == Some(Follower(s.sh.jobs[id].typ))
  {
  }

  lemma NotAtStart(cfg: Config, id: JobId)
    ensures !DoneWith(Reached(cfg, []), id)
  {
  }

  /**
   * In any run, when a succeeded ingest (enrich) job no longer owes its next stage, the run contains its Chain
   * step, and that step left the user's enrich (rank) work active, refused on record, or the orchestrator closed.
   */
  lemma {:induction false} SuccessIsHandedOver(cfg: Config, es: seq<Event>, id: JobId)
    returns (before: seq<Event>, newId: JobId, after: seq<Event>)
    requires Run(cfg, es) && DoneWith(Reached(cfg, es), id)
    ensures es == before + [Chain(id, newId)] + after && Run(cfg, before + [Chain(id, newId)])
    ensures var job := Reached(cfg, es).sh.jobs[id];
      Pipelines.Delivered(Reached(cfg, before + [Chain(id, newId)]), Follower(job.typ), job.user, "", newId)
    decreases |es|
  {
    NotAtStart(cfg, id);
    hide Inv, Run, Reached, Step, Enabled, DoneWith, Pipelines.Delivered;
    var front, e := Front(es), Last(es);
    LastStep(cfg, es);
    Reachable(cfg, front);
    var s := Reached(cfg, front);
    assert es == front + [e];
    if DoneWith(s, id) {
      var rest;
      before, newId, rest := SuccessIsHandedOver(cfg, front, id);
      after := rest + [e];
      DoneTyp(s, id);
      TerminalStays(cfg, s, e, id);
    } else {
      OnlyChainIsDone(cfg, s, e, id);
      before, newId, after := front, e.newId, [];
      Pipelines.StageIsHandedOver(cfg, front, id, newId);
      DoneTyp(Reached(cfg, es), id);
    }
  }

  // -------------------------------------------------------------------------
  // Every other answer
  // -------------------------------------------------------------------------

  /** A credential that cannot be had fails the job with that error and no handle. */
  lemma CredentialCanFail(cfg: Config, s: State, id: JobId, msg: string)
    requires Shape(s) && id in s.pc && s.pc[id] == Begun && id in s.sh.jobs && s.sh.jobs[id].err == ""
    ensures var e := Credit(id, Denied(msg)); var s2 := Step(cfg, Step(cfg, s, e), Conclude(id));
      Leads(cfg, s, [e, Conclude(id)], s2) && id in s2.sh.jobs && Records(s2.sh.jobs[id], NO_HANDLE, Err(msg))
  {
    var e := Credit(id, Denied(msg));
    assert Enabled(cfg, s, e) && Step(cfg, s, e).sh == s.sh && Shape(Step(cfg, s, e));
    assert Step(cfg, s, e).pc[id] == Finishing(NO_HANDLE, Err(msg), Worker);
    hide Step, Enabled, Shape, Records, Leads;
    ConcludeLeads(cfg, s, e, id, NO_HANDLE, Err(msg), Worker);
  }

  /** A push launcher's job goes on with the token, a pull launcher's with any ticket not issued before, good for five minutes. */
  lemma CredentialCanBeHad(cfg: Config, s: State, id: JobId, ticket: TicketId, now: int)
    requires id in s.pc && s.pc[id] == Begun && id in s.sh.jobs && ticket !in s.drawn
    ensures var c := if cfg.pulls then Ticketed(ticket, now) else Minted;
      && Enabled(cfg, s, Credit(id, c))
      && var s1 := Step(cfg, s, Credit(id, c));
         && id in s1.pc && s1.pc[id] == Cleared && s1.sh == s.sh
         && (cfg.pulls ==>
             && ticket in s1.tickets
             && s1.tickets[ticket] == Ticket(id, s.sh.jobs[id].typ, s.sh.jobs[id].user, now + 300_000_000_000))
  {
  }

  /** Issuing a ticket and presenting it, with nothing in between. */
  lemma IssueAndRedeem(cfg: Config, s: State, id: JobId, ticket: TicketId, now: int, later: int)
    requires cfg.pulls && id in s.pc && s.pc[id] == Begun && id in s.sh.jobs && ticket !in s.drawn
    ensures var e := Credit(id, Ticketed(ticket, now)); var s1 := Step(cfg, s, e); var s2 := s1.(tickets := s1.tickets - {ticket});
      Leads(cfg, s, [e], s1) && Leads(cfg, s, [e, Redeem(ticket, later)], s2) && s1.sh == s.sh
      && ticket in s1.tickets && s1.tickets[ticket].jobId == id && s1.tickets[ticket].expires == now + 300_000_000_000
  {
    var e := Credit(id, Ticketed(ticket, now));
    CredentialCanBeHad(cfg, s, id, ticket, now);
    var s1 := Step(cfg, s, e);
    assert Step(cfg, s1, Redeem(ticket, later)) == s1.(tickets := s1.tickets - {ticket});
    hide Step;
    LeadsTwo(cfg, s, e, Redeem(ticket, later));
    LeadsNowhere(cfg, s1);
    LeadsOn(cfg, s, e, [], s1);
    assert [e] + [] == [e];
  }

  /**
   * In any run a ticket can be issued to a job that asks for its credential, and be presented at any time after: up to
   * five minutes on it yields its job's claims, later nothing, and it is spent either way.
   */
  lemma TicketCanBeRedeemed(cfg: Config, es: seq<Event>, id: JobId, ticket: TicketId, now: int, later: int)
    requires Run(cfg, es) && cfg.pulls && id in Reached(cfg, es).pc && Reached(cfg, es).pc[id] == Begun
    requires ticket !in Reached(cfg, es).drawn
    ensures var issued := es + [Credit(id, Ticketed(ticket, now))]; var spent := es + [Credit(id, Ticketed(ticket, now)), Redeem(ticket, later)];
      && Run(cfg, issued) && Run(cfg, spent) && id in Reached(cfg, es).sh.jobs
      && Tickets.Redeeming(Reached(cfg, issued).tickets, ticket, later) ==
           (if later <= now + 300_000_000_000 then Tickets.Token(Tickets.Pushed(Reached(cfg, es).sh.jobs[id])) else Tickets.Expired)
      && Reached(cfg, spent) == Reached(cfg, issued).(tickets := Reached(cfg, issued).tickets - {ticket})
      && Tickets.Redeeming(Reached(cfg, spent).tickets, ticket, later) == Tickets.UnknownOrSpent
  {
    hide Run, Reached, Inv, Step, Enabled, Leads, Tickets.Pushed;
    var s, e := Reached(cfg, es), Credit(id, Ticketed(ticket, now));
    Reachable(cfg, es);
    Known(cfg, s, id);
    IssueAndRedeem(cfg, s, id, ticket, now, later);
    var s1 := Step(cfg, s, e);
    RunLeads(cfg, es, [e], s1);
    RunLeads(cfg, es, [e, Redeem(ticket, later)], s1.(tickets := s1.tickets - {ticket}));
    Tickets.RedeemedIsPushed(cfg, es + [e], ticket, later);
  }

  /** A failing dispatch fails the job with its error and the handle it returned. */
  lemma DispatchCanFail(cfg: Config, s: State, id: JobId, h: Handle, msg: string)
    requires Shape(s) && cfg.async && id in s.pc && s.pc[id] == Cleared && id in s.sh.jobs && s.sh.jobs[id].err == ""
    ensures var e := Dispatch(id, h, Err(msg)); var s2 := Step(cfg, Step(cfg, s, e), Conclude(id));
      Leads(cfg, s, [e, Conclude(id)], s2) && id in s2.sh.jobs && Records(s2.sh.jobs[id], h, Err(msg))
  {
    var e := Dispatch(id, h, Err(msg));
    assert Enabled(cfg, s, e) && Step(cfg, s, e).sh == s.sh && Shape(Step(cfg, s, e));
    assert Step(cfg, s, e).pc[id] == Finishing(h, Err(msg), Worker);
    hide Step, Enabled, Shape, Records, Leads;
    ConcludeLeads(cfg, s, e, id, h, Err(msg), Worker);
  }

  /** A succeeding dispatch arms the job: its handle is on record, its channel empty and its watch out. */
  lemma DispatchCanArm(cfg: Config, s: State, id: JobId, h: Handle)
    requires Shape(s) && cfg.async && id in s.pc && s.pc[id] == Cleared && id in s.sh.jobs
    ensures var s1 := Step(cfg, s, Dispatch(id, h, Ok)); var s2 := Step(cfg, s1, SetHandle(id)); var s3 := Step(cfg, s2, Arm(id));
      && Enabled(cfg, s, Dispatch(id, h, Ok)) && Enabled(cfg, s1, SetHandle(id)) && Enabled(cfg, s2, Arm(id))
      && id in s3.sh.jobs && s3.sh.jobs[id] == s.sh.jobs[id].(handle := h) && id in s3.sh.completions
      && id in s3.pc && s3.pc[id] == Armed(h) && id in s3.buffer && s3.buffer[id] == None && id in s3.watch && s3.watch[id] == Watching
  {
    hide Shape, OnWorker;
    var s1 := Step(cfg, s, Dispatch(id, h, Ok));
    assert s1.pc[id] == Dispatched(h) && s1.sh == s.sh;
    var s2 := Step(cfg, s1, SetHandle(id));
    assert s2.pc[id] == Placed(h) && s2.sh.jobs[id] == s.sh.jobs[id].(handle := h);
  }

  /** A blocking launch can return anything, and the job is finalised with it. */
  lemma LaunchCanReturn(cfg: Config, s: State, id: JobId, h: Handle, o: Outcome)
    requires Shape(s) && !cfg.async && id in s.pc && s.pc[id] == Cleared && id in s.sh.jobs && s.sh.jobs[id].err == ""
    ensures Enabled(cfg, s, Spawn(id))
    ensures var s1 := Step(cfg, s, Spawn(id)); var e := LaunchReturn(id, h, o); var s3 := Step(cfg, Step(cfg, s1, e), Conclude(id));
      Leads(cfg, s1, [e, Conclude(id)], s3) && id in s3.sh.jobs && Records(s3.sh.jobs[id], h, o)
  {
    var s1 := Step(cfg, s, Spawn(id));
    assert s1.pc[id] == Launching && s1.sh == s.sh && Shape(s1);
    var e := LaunchReturn(id, h, o);
    assert Enabled(cfg, s1, e) && Step(cfg, s1, e).sh == s.sh && Shape(Step(cfg, s1, e));
    assert Step(cfg, s1, e).pc[id] == Finishing(h, o, Runner);
    hide Step, Enabled, Shape, Records, Leads;
    ConcludeLeads(cfg, s1, e, id, h, o, Runner);
  }

  lemma HeadJob(s: State)
    requires Shape(s) && s.sh.queue != []
    ensures s.sh.queue[0] in s.pc && s.sh.queue[0] in s.sh.jobs
  {
  }

  /** An idle worker takes the head of the queue and sets it running. */
  lemma HeadCanStart(cfg: Config, s: State)
    requires Inv(cfg, s) && s.sh.queue != [] && s.idle > 0
    ensures var id := s.sh.queue[0]; var s1 := Step(cfg, s, Take); var s2 := Step(cfg, s1, Start(id));
      && Enabled(cfg, s, Take) && Enabled(cfg, s1, Start(id))
      && id in s.sh.jobs && id in s2.pc && s2.pc[id] == Begun && s2.sh.queue == s.sh.queue[1..]
      && id in s2.sh.jobs && s2.sh.jobs[id] == s.sh.jobs[id].(state := JobState.Running)
  {
    hide Inv, Shape, OnWorker;
    InvShape(cfg, s);
    HeadJob(s);
    Known(cfg, s, s.sh.queue[0]);
  }

  /** The job is between its take and its hand-over, or failed there: launching, awaited and settled jobs are not. */
  predicate AtDispatch(p: PC) {
    p.Taken? || p.Begun? || p.Cleared? || p.Dispatched? || p.Placed? || ((p.Finishing? || p.Chaining?) && p.who == Worker)
  }

  lemma IdleWorker(cfg: Config, s: State)
    requires WorkersOk(cfg, s) && s.sh.queue != [] && |set id | id in s.pc && AtDispatch(s.pc[id])| < cfg.workers
    ensures s.idle > 0
  {
    assert Busy(s.pc) == set id | id in s.pc && AtDispatch(s.pc[id]);
  }

  /** However many jobs are awaited none holds a worker: the queue's head can be taken while fewer jobs are at dispatch than there are workers. */
  lemma AwaitedHoldNoWorker(cfg: Config, es: seq<Event>)
    requires Run(cfg, es) && Reached(cfg, es).sh.queue != []
    requires |set id | id in Reached(cfg, es).pc && AtDispatch(Reached(cfg, es).pc[id])| < cfg.workers
    ensures Enabled(cfg, Reached(cfg, es), Take)
  {
    hide Reached, Run, WorkersOk, RecordsOk, QueueOk, IndexOk, RegisteredOk, ChannelsOk, TicketsOk, StopOk, AtDispatch;
    Reachable(cfg, es);
    IdleWorker(cfg, Reached(cfg, es));
  }

  // -------------------------------------------------------------------------
  // Requests and Stop
  // -------------------------------------------------------------------------

  /** The job a request asks for, None when it is refused before the lock. */
  function Asked(call: Call, id: JobId): Option<Job> {
    match call
    case EnsureBackfill(u) =>
      if u == "" then None else Some(Job(id, Ingest, "github", u, "", JobState.Pending, NO_HANDLE, ""))
    case AskConverse(u, i) =>
      if u == "" || i == "" then None else Some(Job(id, Converse, "github", u, i, JobState.Pending, NO_HANDLE, ""))
    case AskResearch(u, i) =>
      if u == "" || i == "" then None else Some(Job(id, Research, "", u, i, JobState.Pending, NO_HANDLE, ""))
  }

  lemma AskedIsWanted(call: Call, id: JobId)
    ensures Asked(call, id).None? <==> Wanted(call).None?
    ensures Wanted(call).Some? ==>
      var (t, u, i) := Wanted(call).value;
      PolicyOf(t).Some? && Asked(call, id).value == Job(id, t, PolicyOf(t).value.provider, u, i, JobState.Pending, NO_HANDLE, "")
  {
  }

  lemma SubmitAddsJob(cfg: Config, s: State, t: JobType, u: string, i: string, id: JobId)
    requires id !in s.sh.jobs && PolicyOf(t).Some? && !s.sh.closed && Key(u, t, i) !in s.sh.inflight
    ensures var job := Job(id, t, PolicyOf(t).value.provider, u, i, JobState.Pending, NO_HANDLE, "");
      var s' := Submit(cfg, s, t, u, i, id);
      if |s.sh.queue| < cfg.depth then
        && s'.sh.jobs == s.sh.jobs[id := job] && s'.sh.queue == s.sh.queue + [id]
        && s'.sh.inflight == s.sh.inflight + {Key(u, t, i)}
      else
        && s'.sh.jobs == s.sh.jobs[id := job.(state := JobState.Failed, err := "queue full")]
        && s'.sh.queue == s.sh.queue && s'.sh.inflight == s.sh.inflight
  {
    hide Key, PolicyOf;
  }

  /**
   * Any request under a fresh id is possible at any time. With empty arguments it changes nothing; to an open
   * orchestrator where nobody holds the job's key it adds exactly that job, queued, or failed when the queue is full.
   */
  lemma RequestAdds(cfg: Config, s: State, call: Call, id: JobId)
    requires id !in s.sh.jobs
    ensures Enabled(cfg, s, Request(call, id))
    ensures Asked(call, id).None? ==> Step(cfg, s, Request(call, id)) == s
    ensures Asked(call, id).Some? && !s.sh.closed && KeyOf(Asked(call, id).value) !in s.sh.inflight ==>
      var job, s' := Asked(call, id).value, Step(cfg, s, Request(call, id));
      if |s.sh.queue| < cfg.depth then
        && s'.sh.jobs == s.sh.jobs[id := job] && s'.sh.queue == s.sh.queue + [id]
        && s'.sh.inflight == s.sh.inflight + {KeyOf(job)}
      else
        && s'.sh.jobs == s.sh.jobs[id := job.(state := JobState.Failed, err := "queue full")]
        && s'.sh.queue == s.sh.queue && s'.sh.inflight == s.sh.inflight
  {
    hide Submit, Key, PolicyOf;
    AskedIsWanted(call, id);
    if Asked(call, id).Some? && !s.sh.closed && KeyOf(Asked(call, id).value) !in s.sh.inflight {
      var (t, u, i) := Wanted(call).value;
      SubmitAddsJob(cfg, s, t, u, i, id);
    }
  }

  lemma CloseIsPossible(cfg: Config, s: State)
    requires !s.sh.closed
    ensures Enabled(cfg, s, CloseQueue) && Step(cfg, s, CloseQueue).sh.closed
  {
  }

  /** From any reachable open state Stop can be called, and the orchestrator's own steps alone bring it to return. */
  lemma StopCanReturn(cfg: Config, es: seq<Event>) returns (rest: seq<Event>)
    requires Run(cfg, es) && !Reached(cfg, es).sh.closed
    ensures Stopping.OwnEvents(rest) && Run(cfg, es + [CloseQueue] + rest)
    ensures Reached(cfg, es + [CloseQueue] + rest).stop.StopDone? && Stopping.Drained(Reached(cfg, es + [CloseQueue] + rest))
  {
    var s := Reached(cfg, es);
    hide Reached, Inv, Step, Enabled, Leads, CanRun;
    Reachable(cfg, es);
    CloseIsPossible(cfg, s);
    StepKeeps(cfg, s, CloseQueue);
    var s1 := Step(cfg, s, CloseQueue);
    rest := Stopping.RunToEnd(cfg, s1);
    var s2 := After(cfg, s1, rest);
    Stopping.RunsEndDrained(cfg, s1, rest);
    LeadsThere(cfg, s1, rest);
    LeadsOn(cfg, s, CloseQueue, rest, s2);
    RunLeads(cfg, es, [CloseQueue] + rest, s2);
    assert es + ([CloseQueue] + rest) == es + [CloseQueue] + rest;
  }
}
