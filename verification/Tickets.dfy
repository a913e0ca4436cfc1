/** Single-use redemption tickets: what a redeemed token says, and that it is had only once. */
module Tickets {
  import opened Options
  import opened Jobs
  import opened Registry
  import opened Protocol
  import opened Invariant
  import opened Runs
  import opened Hops

  /** The claims a push dispatch mints for the job; a type without a policy would get the empty one. */
  function Pushed(job: Job): Claims {
    match PolicyOf(job.typ)
    case None => Claims(RuntimeOf(job.id), job.user, [], job.id, "")
    case Some(pol) => Claims(RuntimeOf(job.id), job.user, pol.scopes, job.id, pol.provider)
  }

  datatype Redemption = Token(claims: Claims) | UnknownOrSpent | Expired | UnknownJobType | MintFailed

  /** RedeemTicket's answer when the minter works; the ticket itself is consumed whatever the answer. */
  function Redeeming(tickets: map<TicketId, Ticket>, ticket: TicketId, now: int): Redemption {
    if ticket !in tickets then UnknownOrSpent
    else
      var t := tickets[ticket];
      if t.expires < now then Expired
      else
        match PolicyOf(t.typ)
        case None => UnknownJobType
        case Some(pol) => Token(Claims(RuntimeOf(t.jobId), t.user, pol.scopes, t.jobId, pol.provider))
  }

  /** A redeemed token carries exactly the claims a push dispatch of a tracked job would carry. */
  lemma RedeemedIsPushed(cfg: Config, es: seq<Event>, ticket: TicketId, now: int)
    requires Run(cfg, es)
    ensures var s := Reached(cfg, es);
      match Redeeming(s.tickets, ticket, now)
      case Token(c) =>
        && ticket in s.tickets && s.tickets[ticket].jobId == c.jobId && now <= s.tickets[ticket].expires
        && c.jobId in s.sh.jobs && c == Pushed(s.sh.jobs[c.jobId])
        && c.subject == RuntimeOf(c.jobId) && c.user == s.sh.jobs[c.jobId].user && c.scopes == [SignalsRead, MetadataWrite]
        && c.provider == (if s.sh.jobs[c.jobId].typ in {Ingest, Enrich, Converse} then "github" else "")
      case UnknownOrSpent => ticket !in s.tickets
      case Expired => ticket in s.tickets && s.tickets[ticket].expires < now
      case UnknownJobType | MintFailed => false
  {
    Reachable(cfg, es);
    var s := Reached(cfg, es);
    if ticket in s.tickets {
      var id := s.tickets[ticket].jobId;
      assert TicketOk(s.pc, s.sh.jobs, s.tickets[ticket]);
      Known(cfg, s, id);
    }
    hide Inv, Reached, Agrees;
  }

  // -------------------------------------------------------------------------
  // Single use
  // -------------------------------------------------------------------------

  predicate Redeems(s: State, e: Event, ticket: TicketId) {
    e.Redeem? && e.ticket == ticket && Redeeming(s.tickets, ticket, e.now).Token?
  }

  /** The successful redemptions of the ticket in a run from `s`. */
  function Successes(cfg: Config, s: State, es: seq<Event>, ticket: TicketId): nat
    decreases |es|
  {
    if es == [] then 0 else
    (if Redeems(s, es[0], ticket) then 1 else 0) + Successes(cfg, Step(cfg, s, es[0]), es[1..], ticket)
  }

  /** The ticket was issued and is gone. */
  predicate Spent(s: State, ticket: TicketId) { ticket in s.drawn && ticket !in s.tickets }

  lemma SpentStays(cfg: Config, s: State, e: Event, ticket: TicketId)
    requires Enabled(cfg, s, e) && Spent(s, ticket)
    ensures Spent(Step(cfg, s, e), ticket)
  {
    if !e.Credit? && !e.Redeem? {
      hide Step, Enabled;
      StepChannels(cfg, s, e);
    }
  }

  lemma SpentFails(s: State, e: Event, ticket: TicketId)
    ensures Spent(s, ticket) ==> !Redeems(s, e, ticket)
  {
  }

  lemma {:induction false} SpentNeverRedeems(cfg: Config, s: State, es: seq<Event>, ticket: TicketId)
    requires CanRun(cfg, s, es) && Spent(s, ticket)
    ensures Successes(cfg, s, es, ticket) == 0
    decreases |es|
  {
    if es != [] {
      hide Step, Enabled, Spent;
      SpentStays(cfg, s, es[0], ticket);
      SpentNeverRedeems(cfg, Step(cfg, s, es[0]), es[1..], ticket);
      assert Spent(s, ticket) ==> !Redeems(s, es[0], ticket) by { SpentFails(s, es[0], ticket); }
    }
  }

  /** In any run a ticket redeems successfully at most once. */
  lemma {:induction false} RedeemsOnce(cfg: Config, s: State, es: seq<Event>, ticket: TicketId)
    requires Inv(cfg, s) && CanRun(cfg, s, es)
    ensures Successes(cfg, s, es, ticket) <= 1
    decreases |es|
  {
    if es != [] {
      hide Enabled, RecordsOk, QueueOk, IndexOk, RegisteredOk, ChannelsOk, WorkersOk, StopOk;
      StepKeeps(cfg, s, es[0]);
      if Redeems(s, es[0], ticket) {
        assert Spent(Step(cfg, s, es[0]), ticket);
        SpentNeverRedeems(cfg, Step(cfg, s, es[0]), es[1..], ticket);
      } else {
        RedeemsOnce(cfg, Step(cfg, s, es[0]), es[1..], ticket);
      }
    }
  }

  /** No event of the run redeems the ticket, and none reads a clock past its expiry while issuing. */
  predicate LeftAlone(es: seq<Event>, ticket: TicketId, expires: int) {
    forall e :: e in es ==>
      && !(e.Redeem? && e.ticket == ticket)
      && (e.Credit? && e.cred.Ticketed? ==> e.cred.now <= expires)
  }

  /** The credential step issues a fresh ticket for its job, or touches no ticket. */
  lemma CreditTickets(cfg: Config, s: State, e: Event)
    requires Shape(s) && Enabled(cfg, s, e) && e.Credit?
    ensures !e.cred.Ticketed? ==> Step(cfg, s, e).tickets == s.tickets
    ensures e.cred.Ticketed? ==> e.id in s.sh.jobs && e.cred.ticket !in s.drawn
    ensures e.cred.Ticketed? ==>
      var t := Ticket(e.id, s.sh.jobs[e.id].typ, s.sh.jobs[e.id].user, e.cred.now + TICKET_TTL);
      Step(cfg, s, e).tickets == Issue(s.tickets, e.cred.ticket, t, e.cred.now)
  {
    hide Move, Issue;
    var id := e.id;
    match e.cred
    case Denied(msg) => MoveChannels(s, id, Finishing(NO_HANDLE, Err(msg), Worker));
    case Minted => MoveChannels(s, id, Cleared);
    case Ticketed(ticket, now) =>
      var t := Ticket(id, s.sh.jobs[id].typ, s.sh.jobs[id].user, now + TICKET_TTL);
      MoveChannels(s.(tickets := Issue(s.tickets, ticket, t, now), drawn := s.drawn + {ticket}), id, Cleared);
  }

  lemma TicketStandsOnce(cfg: Config, s: State, e: Event, ticket: TicketId)
    requires Shape(s) && Enabled(cfg, s, e) && ticket in s.tickets && ticket in s.drawn
    requires LeftAlone([e], ticket, s.tickets[ticket].expires)
    ensures ticket in Step(cfg, s, e).tickets && Step(cfg, s, e).tickets[ticket] == s.tickets[ticket]
  {
    assert e in [e];
    if e.Redeem? {
    } else {
      hide Step, Enabled, Shape, LeftAlone;
      if e.Credit? {
        CreditTickets(cfg, s, e);
      } else {
        StepChannels(cfg, s, e);
      }
    }
  }

  lemma LiveTicketRedeems(cfg: Config, s: State, ticket: TicketId, now: int)
    requires Inv(cfg, s) && ticket in s.tickets
    ensures ticket in s.drawn
    ensures now <= s.tickets[ticket].expires ==> Redeeming(s.tickets, ticket, now).Token?
  {
    hide QueueOk, IndexOk, RegisteredOk, ChannelsOk, WorkersOk, StopOk;
    Known(cfg, s, s.tickets[ticket].jobId);
  }

  /** An issued ticket stays, unchanged, until it is redeemed or out of time: its first redemption by then succeeds. */
  lemma {:induction false} TicketStands(cfg: Config, s: State, es: seq<Event>, ticket: TicketId, now: int)
    requires Inv(cfg, s) && CanRun(cfg, s, es) && ticket in s.tickets && LeftAlone(es, ticket, s.tickets[ticket].expires)
    requires now <= s.tickets[ticket].expires
    ensures Redeeming(After(cfg, s, es).tickets, ticket, now).Token?
    decreases |es|
  {
    hide Step, Enabled, Inv, Redeeming, Shape;
    LiveTicketRedeems(cfg, s, ticket, now);
    if es != [] {
      StepKeeps(cfg, s, es[0]);
      InvShape(cfg, s);
      TicketStandsOnce(cfg, s, es[0], ticket);
      TicketStands(cfg, Step(cfg, s, es[0]), es[1..], ticket, now);
    }
  }

  // -------------------------------------------------------------------------
  // The opportunistic purge cannot be observed
  // -------------------------------------------------------------------------

  /** The operations on the ticket table, in lock order, with the clock readings they use. */
  datatype Op = IssueOp(ticket: TicketId, t: Ticket, now: int) | RedeemOp(ticket: TicketId, now: int)

  function Apply(tickets: map<TicketId, Ticket>, op: Op, purge: bool): map<TicketId, Ticket> {
    match op
    case IssueOp(k, t, now) => if purge then Issue(tickets, k, t, now) else tickets[k := t]
    case RedeemOp(k, _) => tickets - {k}
  }

  /** What a redemption hands out: the ticket's token, or nothing. */
  function Handed(tickets: map<TicketId, Ticket>, op: Op): (r: Option<Claims>)
    ensures op.RedeemOp? ==> forall c :: r == Some(c) <==> Redeeming(tickets, op.ticket, op.now) == Token(c)
  {
    match op
    case IssueOp(_, _, _) => None
    case RedeemOp(k, now) =>
      match Redeeming(tickets, k, now)
      case Token(c) => Some(c)
      case _ => None
  }

  function Answers(tickets: map<TicketId, Ticket>, ops: seq<Op>, purge: bool): seq<Option<Claims>>
    decreases |ops|
  {
    if ops == [] then [] else [Handed(tickets, ops[0])] + Answers(Apply(tickets, ops[0], purge), ops[1..], purge)
  }

  /** A redemption reads the clock no earlier than the issues before it did. */
  predicate Monotone(ops: seq<Op>) {
    forall i, j :: 0 <= i < j < |ops| && ops[i].IssueOp? && ops[j].RedeemOp? ==> ops[i].now <= ops[j].now
  }

  /** `p` lacks of `q` only tickets that expired before `from`. */
  ghost predicate Lags(p: map<TicketId, Ticket>, q: map<TicketId, Ticket>, from: int) {
    && (forall k :: k in p ==> k in q && p[k] == q[k])
    && (forall k :: k in q && k !in p ==> q[k].expires < from)
  }

  lemma {:induction false} LaggingAnswersAlike(p: map<TicketId, Ticket>, q: map<TicketId, Ticket>, ops: seq<Op>, from: int)
    requires Lags(p, q, from) && Monotone(ops)
    requires forall j :: 0 <= j < |ops| && ops[j].RedeemOp? ==> from <= ops[j].now
    ensures Answers(p, ops, true) == Answers(q, ops, false)
    decreases |ops|
  {
    if ops != [] {
      var op := ops[0];
      var from' := if op.IssueOp? && from < op.now then op.now else from;
      assert Lags(Apply(p, op, true), Apply(q, op, false), from');
      assert forall j :: 0 <= j < |ops[1..]| ==> ops[1..][j] == ops[j + 1];
      LaggingAnswersAlike(Apply(p, op, true), Apply(q, op, false), ops[1..], from');
      assert Handed(p, op) == Handed(q, op);
    }
  }

  lemma {:induction false} LowerBound(ops: seq<Op>) returns (from: int)
    ensures forall j :: 0 <= j < |ops| ==> from <= ops[j].now
  {
    if ops == [] {
      from := 0;
    } else {
      var rest := LowerBound(ops[1..]);
      from := if rest < ops[0].now then rest else ops[0].now;
      assert forall j :: 1 <= j < |ops| ==> ops[j] == ops[1..][j - 1];
    }
  }

  /** Dropping expired tickets at every issue changes no redemption's success, failure or claims. */
  lemma PurgeIsInvisibleToOps(ops: seq<Op>)
    requires Monotone(ops)
    ensures Answers(map[], ops, true) == Answers(map[], ops, false)
  {
    var from := LowerBound(ops);
    LaggingAnswersAlike(map[], map[], ops, from);
  }

  // -------------------------------------------------------------------------
  // The operations of a run
  // -------------------------------------------------------------------------

  /** The operation an event performs on the ticket table. */
  function TicketOp(s: State, e: Event): Option<Op> {
    match e
    case Credit(id, Ticketed(k, now)) =>
      if id in s.sh.jobs then Some(IssueOp(k, Ticket(id, s.sh.jobs[id].typ, s.sh.jobs[id].user, now + TICKET_TTL), now)) else None
    case Redeem(k, now) => Some(RedeemOp(k, now))
    case _ => None
  }

  function TicketOps(cfg: Config, s: State, es: seq<Event>): seq<Op>
    decreases |es|
  {
    if es == [] then []
    else
      var rest := TicketOps(cfg, Step(cfg, s, es[0]), es[1..]);
      match TicketOp(s, es[0]) case None => rest case Some(op) => [op] + rest
  }

  /** What the run's issues and redemptions hand out, in order. */
  function RunAnswers(cfg: Config, s: State, es: seq<Event>): seq<Option<Claims>>
    decreases |es|
  {
    if es == [] then []
    else
      var rest := RunAnswers(cfg, Step(cfg, s, es[0]), es[1..]);
      match TicketOp(s, es[0]) case None => rest case Some(op) => [Handed(s.tickets, op)] + rest
  }

  function Folded(tickets: map<TicketId, Ticket>, ops: seq<Op>, purge: bool): map<TicketId, Ticket>
    decreases |ops|
  {
    if ops == [] then tickets else Folded(Apply(tickets, ops[0], purge), ops[1..], purge)
  }

  lemma StepFolds(cfg: Config, s: State, e: Event)
    requires Shape(s) && Enabled(cfg, s, e)
    ensures Step(cfg, s, e).tickets ==
      match TicketOp(s, e)
      case None => s.tickets
      case Some(op) => Apply(s.tickets, op, true)
  {
    if e.Redeem? {
    } else {
      hide Step, Enabled, Shape, Issue;
      if e.Credit? {
        CreditTickets(cfg, s, e);
      } else {
        StepChannels(cfg, s, e);
      }
    }
  }

  /** The ticket table of a run is the fold of the run's operations, and its answers are theirs. */
  lemma {:induction false} RunFolds(cfg: Config, s: State, es: seq<Event>)
    requires Inv(cfg, s) && CanRun(cfg, s, es)
    ensures After(cfg, s, es).tickets == Folded(s.tickets, TicketOps(cfg, s, es), true)
    ensures RunAnswers(cfg, s, es) == Answers(s.tickets, TicketOps(cfg, s, es), true)
    decreases |es|
  {
    hide Step, Enabled, Inv, Shape, TicketOp, Apply, Handed;
    if es != [] {
      StepKeeps(cfg, s, es[0]);
      InvShape(cfg, s);
      StepFolds(cfg, s, es[0]);
      RunFolds(cfg, Step(cfg, s, es[0]), es[1..]);
    }
  }

  /** In any run whose clock is monotone the purge changes no redemption: the answers are those of a table never purged. */
  lemma PurgeIsInvisible(cfg: Config, es: seq<Event>)
    requires Run(cfg, es) && Monotone(TicketOps(cfg, Init(cfg), es))
    ensures Reached(cfg, es).tickets == Folded(map[], TicketOps(cfg, Init(cfg), es), true)
    ensures RunAnswers(cfg, Init(cfg), es) == Answers(map[], TicketOps(cfg, Init(cfg), es), false)
  {
    hide Inv, CanRun, After, TicketOps, RunAnswers, Answers, Folded, Monotone;
    InitOk(cfg);
    RunFolds(cfg, Init(cfg), es);
    PurgeIsInvisibleToOps(TicketOps(cfg, Init(cfg), es));
  }
}
