/**
 * The orchestrator object with its own fields: every method is one lock section (or channel
 * operation) of the program, proved to change the state as the Registry functions say.
 */
module OrchestratorObject {
  import opened Options
  import opened Jobs
  import opened Registry
  import opened Protocol
  import Tickets

  /** A tracked job; the table holds references, and the methods update them in place. */
  class JobRecord {
    const id: JobId
    const typ: JobType
    const provider: string
    const user: string
    const item: string
    var state: JobState
    var handle: Handle
    var err: string

    constructor (id: JobId, typ: JobType, provider: string, user: string, item: string)
      ensures Value() == Job(id, typ, provider, user, item, JobState.Pending, NO_HANDLE, "")
    {
      this.id, this.typ, this.provider, this.user, this.item := id, typ, provider, user, item;
      state, handle, err := JobState.Pending, NO_HANDLE, "";
    }

    function Value(): Job
      reads this
    {
      Job(id, typ, provider, user, item, state, handle, err)
    }
  }

  /** A completion channel of capacity one. */
  class Completion {
    var signal: Option<Outcome>

    constructor ()
      ensures signal == None
    {
      signal := None;
    }

    /** The non-blocking send: a second signal is dropped. */
    method Send(o: Outcome)
      modifies this
      ensures signal == if old(signal).None? then Some(o) else old(signal)
    {
      if signal.None? {
        signal := Some(o);
      }
    }
  }

  /** The key is built the same way in enqueue and in run. */
  method DedupeKey(user: string, t: JobType, item: string) returns (key: string)
    ensures key == Key(user, t, item)
  {
    key := user + "/" + TypeName(t);
    if item != "" {
      key := key + ("/" + item);
    }
  }

  /** enqueue branch by branch. */
  lemma EnqueueCases(sh: Shared, depth: nat, t: JobType, user: string, item: string, id: JobId)
    ensures var r := Registry.Enqueue(sh, depth, t, user, item, id);
      if PolicyOf(t).None? then r == (sh, UnknownType)
      else if sh.closed then r == (sh, Closed)
      else if Key(user, t, item) in sh.inflight then r == (sh, Duplicate)
      else
        var job := Job(id, t, PolicyOf(t).value.provider, user, item, JobState.Pending, NO_HANDLE, "");
        if |sh.queue| < depth then
          r == (sh.(jobs := sh.jobs[id := job], queue := sh.queue + [id], inflight := sh.inflight + {Key(user, t, item)}), Accepted)
        else r == (sh.(jobs := sh.jobs[id := job.(state := JobState.Failed, err := "queue full")]), QueueFull)
  {
    hide Key;
  }

  lemma StagePolicies()
    ensures PolicyOf(Enrich).Some? && PolicyOf(Enrich).value.provider == "github"
    ensures PolicyOf(Rank).Some? && PolicyOf(Rank).value.provider == ""
  {
  }

  class Orchestrator {
    const depth: nat
    var queue: seq<JobId>
    var jobs: map<JobId, JobRecord>
    var inflight: set<string>
    var completions: map<JobId, Completion>
    var closed: bool
    var tickets: map<TicketId, Ticket>

    /** No two ids share a record. */
    ghost predicate Valid()
      reads this
    {
      forall a, b :: a in jobs && b in jobs && a != b ==> jobs[a] != jobs[b]
    }

    ghost function Snapshot(): Shared
      reads this, jobs.Values
    {
      Shared(map id | id in jobs :: jobs[id].Value(), inflight, queue, completions.Keys, closed)
    }

    constructor (depth: nat)
      ensures Valid() && Snapshot() == FRESH && tickets == map[] && this.depth == depth
    {
      this.depth := depth;
      queue, jobs, inflight, completions, closed, tickets := [], map[], {}, map[], false, map[];
    }

    method Enqueue(t: JobType, user: string, item: string, id: JobId) returns (verdict: Verdict)
      requires Valid() && id !in jobs
      modifies this
      ensures Valid() && tickets == old(tickets) && completions == old(completions)
      ensures Snapshot() == Registry.Enqueue(old(Snapshot()), depth, t, user, item, id).0
      ensures verdict == Registry.Enqueue(old(Snapshot()), depth, t, user, item, id).1
    {
      hide TypeName, Key, Registry.Enqueue, Valid, Snapshot;
      EnqueueCases(Snapshot(), depth, t, user, item, id);
      SnapshotFields();
      var pol := PolicyOf(t);
      if pol.None? {
        return UnknownType;
      }
      var key := DedupeKey(user, t, item);
      if closed {
        return Closed;
      }
      if key in inflight {
        return Duplicate;
      }
      AddRecord(id, t, pol.value.provider, user, item);
      if |queue| < depth {
        Push(id, key);
        verdict := Accepted;
      } else {
        FailFull(id);
        verdict := QueueFull;
      }
    }

    lemma SnapshotFields()
      ensures Snapshot().closed == closed && Snapshot().inflight == inflight && Snapshot().queue == queue
      ensures Snapshot().completions == completions.Keys && Snapshot().jobs.Keys == jobs.Keys
    {
    }

    /** The send on the queue and the mark in the in-flight index. */
    method Push(id: JobId, key: string)
      requires Valid()
      modifies this`queue, this`inflight
      ensures Valid()
      ensures var was := old(Snapshot()); Snapshot() == was.(queue := was.queue + [id], inflight := was.inflight + {key})
    {
      queue := queue + [id];
      inflight := inflight + {key};
    }

    method AddRecord(id: JobId, t: JobType, provider: string, user: string, item: string)
      requires Valid() && id !in jobs
      modifies this`jobs
      ensures Valid() && id in jobs && fresh(jobs[id]) && jobs == old(jobs)[id := jobs[id]]
      ensures var was := old(Snapshot());
        Snapshot() == was.(jobs := was.jobs[id := Job(id, t, provider, user, item, JobState.Pending, NO_HANDLE, "")])
    {
      var job := new JobRecord(id, t, provider, user, item);
      ghost var was := Snapshot().jobs;
      jobs := jobs[id := job];
      assert Snapshot().jobs == was[id := job.Value()];
    }

    /** The queue is full: the record is kept, failed. */
    method FailFull(id: JobId)
      requires Valid() && id in jobs
      modifies jobs[id]
      ensures Valid()
      ensures var was := old(Snapshot());
        Snapshot() == was.(jobs := was.jobs[id := was.jobs[id].(state := JobState.Failed, err := "queue full")])
    {
      ghost var was := Snapshot().jobs;
      jobs[id].state := JobState.Failed;
      jobs[id].err := "queue full";
      assert Snapshot().jobs == was[id := jobs[id].Value()];
    }

    /** EnsureBackfill: false is the empty-owner error. */
    method EnsureBackfill(owner: string, id: JobId) returns (ok: bool, verdict: Verdict)
      requires Valid() && id !in jobs
      modifies this
      ensures Valid() && ok == (owner != "")
      ensures if ok then (Snapshot(), verdict) == Registry.Enqueue(old(Snapshot()), depth, Ingest, owner, "", id)
              else Snapshot() == old(Snapshot())
    {
      ok, verdict := owner != "", Closed;
      if ok {
        verdict := Enqueue(Ingest, owner, "", id);
      }
    }

    /** The first lock section of run; the key is worked out here and used again by finish. */
    method Begin(id: JobId) returns (found: bool, key: string)
      requires Valid()
      modifies jobs.Values
      ensures Valid() && jobs == old(jobs)
      ensures found == (id in jobs) && Snapshot() == Registry.Begin(old(Snapshot()), id)
      ensures found ==> key == KeyOf(Snapshot().jobs[id])
    {
      if id !in jobs {
        return false, "";
      }
      var job := jobs[id];
      ghost var was := Snapshot().jobs;
      job.state := JobState.Running;
      assert Snapshot().jobs == was[id := job.Value()];
      found := true;
      key := DedupeKey(job.user, job.typ, job.item);
    }

    method SetHandle(id: JobId, h: Handle)
      requires Valid()
      modifies jobs.Values
      ensures Valid() && jobs == old(jobs) && Snapshot() == Place(old(Snapshot()), id, h)
    {
      if id in jobs {
        ghost var was := Snapshot().jobs;
        jobs[id].handle := h;
        assert Snapshot().jobs == was[id := jobs[id].Value()];
      }
    }

    /** The lock section of finish. */
    method Finalize(id: JobId, key: string, h: Handle, o: Outcome)
      requires Valid()
      modifies this, jobs.Values
      ensures Valid() && jobs == old(jobs) && tickets == old(tickets) && completions == old(completions)
      ensures Snapshot() == Registry.Finalize(old(Snapshot()), id, key, h, o)
    {
      if id !in jobs {
        return;
      }
      var job := jobs[id];
      ghost var was := Snapshot().jobs;
      job.handle := h;
      if o.Err? {
        job.state := JobState.Failed;
        job.err := o.msg;
      } else {
        job.state := JobState.Succeeded;
      }
      inflight := inflight - {key};
      assert Snapshot().jobs == was[id := job.Value()];
    }

    /** The record `k` is that of the user's next stage: queued and holding its key, or refused on record. */
    ghost predicate IsNext(k: JobId, t: JobType, provider: string, user: string, room: bool)
      reads this, jobs.Values
    {
      && k in Snapshot().jobs
      && (room ==>
          && Snapshot().jobs[k] == Job(k, t, provider, user, "", JobState.Pending, NO_HANDLE, "")
          && queue != [] && queue[|queue| - 1] == k && Key(user, t, "") in inflight)
      && (!room ==> Snapshot().jobs[k] == Job(k, t, provider, user, "", JobState.Failed, NO_HANDLE, "queue full"))
    }

    /** The outcome is a success of a tracked job of this type. */
    static predicate Owes(o: Outcome, jobs: map<JobId, JobRecord>, id: JobId, t: JobType) {
      o == Ok && id in jobs && jobs[id].typ == t
    }

    lemma StoredTyp(id: JobId)
      requires id in jobs
      ensures id in Snapshot().jobs && Snapshot().jobs[id].typ == jobs[id].typ && Snapshot().jobs[id].user == jobs[id].user
    {
    }

    /** finish: record the outcome, and on success enqueue the next stage under `newId`. */
    method Finish(id: JobId, key: string, h: Handle, o: Outcome, newId: JobId)
      requires Valid() && newId !in jobs
      modifies this, jobs.Values
      ensures Valid()
      ensures var mid := Registry.Finalize(old(Snapshot()), id, key, h, o);
        Snapshot() ==
          if o.Ok? && id in old(jobs) && NextStage(mid.jobs[id].typ).Some? then
            Registry.Enqueue(mid, depth, NextStage(mid.jobs[id].typ).value, mid.jobs[id].user, "", newId).0
          else mid
      ensures Owes(o, old(jobs), id, Ingest) && !old(closed) && Key(old(jobs)[id].user, Enrich, "") !in old(inflight) - {key} ==>
        IsNext(newId, Enrich, "github", old(jobs)[id].user, |old(queue)| < depth)
      ensures Owes(o, old(jobs), id, Enrich) && !old(closed) && Key(old(jobs)[id].user, Rank, "") !in old(inflight) - {key} ==>
        IsNext(newId, Rank, "", old(jobs)[id].user, |old(queue)| < depth)
      ensures o.Err? || id !in old(jobs) || (old(jobs)[id].typ != Ingest && old(jobs)[id].typ != Enrich) ==>
        Snapshot().jobs.Keys == old(Snapshot()).jobs.Keys && queue == old(queue)
    {
      hide TypeName, Key, Registry.Enqueue, Valid, Snapshot, PolicyOf;
      ghost var mid := Registry.Finalize(Snapshot(), id, key, h, o);
      SnapshotFields();
      Finalize(id, key, h, o);
      SnapshotFields();
      if o.Err? || id !in jobs {
        return;
      }
      var next := NextStage(jobs[id].typ);
      StoredTyp(id);
      if next.Some? {
        EnqueueCases(mid, depth, next.value, jobs[id].user, "", newId);
        StagePolicies();
        var _ := Enqueue(next.value, jobs[id].user, "", newId);
        SnapshotFields();
      }
    }

    method RegisterCompletion(id: JobId) returns (ch: Completion)
      requires Valid()
      modifies this
      ensures Valid() && jobs == old(jobs) && fresh(ch) && ch.signal.None?
      ensures completions == old(completions)[id := ch] && Snapshot() == Register(old(Snapshot()), id)
    {
      ch := new Completion();
      completions := completions[id := ch];
    }

    method DeregisterCompletion(id: JobId)
      requires Valid()
      modifies this
      ensures Valid() && jobs == old(jobs)
      ensures completions == old(completions) - {id} && Snapshot() == Deregister(old(Snapshot()), id)
    {
      completions := completions - {id};
    }

    /** CompleteJob: an empty message is success; a job without a registered channel is ignored. */
    method CompleteJob(id: JobId, errMsg: string)
      requires Valid()
      modifies completions.Values
      ensures Valid() && Snapshot() == old(Snapshot())
      ensures forall k :: k in completions && (id !in completions || completions[k] != completions[id]) ==>
        completions[k].signal == old(completions[k].signal)
      ensures id in completions ==>
        completions[id].signal ==
          if old(completions[id].signal).Some? then old(completions[id].signal)
          else Some(if errMsg == "" then Ok else Err("runtime reported failure: " + errMsg))
    {
      if id !in completions {
        return;
      }
      completions[id].Send(if errMsg == "" then Ok else Err("runtime reported failure: " + errMsg));
    }

    /** The first section of Stop; false when the queue was closed before. */
    method CloseQueue() returns (first: bool)
      requires Valid()
      modifies this`closed
      ensures Valid() && first == !old(closed) && Snapshot() == Close(old(Snapshot()))
    {
      first := !closed;
      closed := true;
    }

    /** Active: whether some pipeline job of the owner is pending or running. */
    method Active(owner: string) returns (active: bool)
      requires Valid()
      ensures active <==> PipelineActive(Snapshot(), owner)
    {
      var rest := jobs.Keys;
      while rest != {}
        invariant rest <= jobs.Keys
        invariant forall id :: id in jobs && id !in rest ==> !CountsAsActive(jobs[id].Value(), owner)
        decreases rest
      {
        var id :| id in rest;
        rest := rest - {id};
        var j := jobs[id];
        if j.user != owner || j.typ == Converse || j.typ == Research {
          continue;
        }
        if j.state == JobState.Pending || j.state == JobState.Running {
          assert CountsAsActive(Snapshot().jobs[id], owner);
          return true;
        }
      }
      active := false;
    }

    /** issueTicket under its lock. */
    method IssueTicket(ticket: TicketId, jobId: JobId, typ: JobType, user: string, now: int)
      modifies this`tickets
      ensures tickets == Issue(old(tickets), ticket, Ticket(jobId, typ, user, now + TICKET_TTL), now)
      ensures ticket in tickets && tickets[ticket] == Ticket(jobId, typ, user, now + 300_000_000_000)
      ensures forall k :: k in tickets && k != ticket ==> k in old(tickets) && tickets[k] == old(tickets)[k]
      ensures forall k :: k in old(tickets) && k != ticket ==> (k in tickets <==> old(tickets)[k].expires >= now)
    {
      var rest := tickets.Keys;
      while rest != {}
        invariant rest <= tickets.Keys
        invariant tickets == map k | k in old(tickets) && (k in rest || now <= old(tickets)[k].expires) :: old(tickets)[k]
        decreases rest
      {
        var k :| k in rest;
        rest := rest - {k};
        if tickets[k].expires < now {
          tickets := tickets - {k};
        }
      }
      tickets := tickets[ticket := Ticket(jobId, typ, user, now + TICKET_TTL)];
    }

    /** RedeemTicket: the ticket is consumed before anything about it is checked; `minted` is the minter's answer. */
    method RedeemTicket(ticket: TicketId, now: int, minted: bool) returns (r: Tickets.Redemption)
      modifies this`tickets
      ensures tickets == old(tickets) - {ticket}
      ensures var live := Tickets.Redeeming(old(tickets), ticket, now);
        r == if live.Token? && !minted then Tickets.MintFailed else live
    {
      if ticket !in tickets {
        return Tickets.UnknownOrSpent;
      }
      var t := tickets[ticket];
      tickets := tickets - {ticket};
      if t.expires < now {
        return Tickets.Expired;
      }
      var pol := PolicyOf(t.typ);
      if pol.None? {
        return Tickets.UnknownJobType;
      }
      if !minted {
        return Tickets.MintFailed;
      }
      r := Tickets.Token(Claims(RuntimeOf(t.jobId), t.user, pol.value.scopes, t.jobId, pol.value.provider));
    }
  }
}
