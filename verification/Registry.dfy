/** The mutex-protected state of the orchestrator and what each lock section does to it. */
module Registry {
  import opened Options
  import opened Jobs

  datatype Shared = Shared(
    jobs: map<JobId, Job>,
    inflight: set<string>,
    queue: seq<JobId>,
    completions: set<JobId>,
    closed: bool)

  const FRESH := Shared(map[], {}, [], {}, false)

  datatype Verdict = Accepted | Duplicate | Closed | QueueFull | UnknownType

  /** The body of enqueue under the lock, with `id` the drawn job id. */
  function Enqueue(sh: Shared, depth: nat, t: JobType, user: string, item: string, id: JobId): (r: (Shared, Verdict))
  {
    match PolicyOf(t)
    case None => (sh, UnknownType)
    case Some(pol) =>
      if sh.closed then (sh, Closed)
      else if Key(user, t, item) in sh.inflight then (sh, Duplicate)
      else
        var job := Job(id, t, pol.provider, user, item, Pending, NO_HANDLE, "");
        if |sh.queue| < depth then
          (sh.(jobs := sh.jobs[id := job], queue := sh.queue + [id], inflight := sh.inflight + {KeyOf(job)}), Accepted)
        else
          (sh.(jobs := sh.jobs[id := job.(state := Failed, err := "queue full")]), QueueFull)
  }

  /** The first lock section of run: a taken job becomes running. */
  function Begin(sh: Shared, id: JobId): Shared {
    if id in sh.jobs then sh.(jobs := sh.jobs[id := sh.jobs[id].(state := Running)]) else sh
  }

  function Place(sh: Shared, id: JobId, h: Handle): Shared {
    if id in sh.jobs then sh.(jobs := sh.jobs[id := sh.jobs[id].(handle := h)]) else sh
  }

  /** A job with its terminal outcome recorded; a success keeps the error text it had. */
  function Concluded(job: Job, h: Handle, o: Outcome): Job {
    match o
    case Ok => job.(handle := h, state := Succeeded)
    case Err(msg) => job.(handle := h, state := Failed, err := msg)
  }

  /** The lock section of finish. */
  function Finalize(sh: Shared, id: JobId, key: string, h: Handle, o: Outcome): Shared {
    if id in sh.jobs then
      sh.(jobs := sh.jobs[id := Concluded(sh.jobs[id], h, o)], inflight := sh.inflight - {key})
    else sh
  }

  function Register(sh: Shared, id: JobId): Shared { sh.(completions := sh.completions + {id}) }

  function Deregister(sh: Shared, id: JobId): Shared { sh.(completions := sh.completions - {id}) }

  function Close(sh: Shared): Shared { sh.(closed := true) }

  predicate CountsAsActive(job: Job, user: string) {
    job.user == user && !PerItem(job.typ) && job.Active()
  }

  /** Active: some pipeline job of `user` is pending or running. */
  ghost predicate PipelineActive(sh: Shared, user: string) {
    exists id :: id in sh.jobs && CountsAsActive(sh.jobs[id], user)
  }

  // -------------------------------------------------------------------------
  // The in-flight index as a function of the job table
  // -------------------------------------------------------------------------

  function ActiveKeys(jobs: map<JobId, Job>): set<string> {
    set id | id in jobs && jobs[id].Active() :: KeyOf(jobs[id])
  }

  ghost predicate OneActivePerKey(jobs: map<JobId, Job>) {
    forall a, b :: a in jobs && b in jobs && jobs[a].Active() && jobs[b].Active() && KeyOf(jobs[a]) == KeyOf(jobs[b])
      ==> a == b
  }

  lemma ActiveKeysAdd(jobs: map<JobId, Job>, id: JobId, job: Job)
    requires id !in jobs && job.Active() && KeyOf(job) !in ActiveKeys(jobs) && OneActivePerKey(jobs)
    ensures ActiveKeys(jobs[id := job]) == ActiveKeys(jobs) + {KeyOf(job)}
    ensures OneActivePerKey(jobs[id := job])
  {
    var after := jobs[id := job];
    forall k ensures k in ActiveKeys(after) <==> k in ActiveKeys(jobs) + {KeyOf(job)} {
      if k in ActiveKeys(jobs) {
        var a :| a in jobs && jobs[a].Active() && KeyOf(jobs[a]) == k;
        assert after[a] == jobs[a];
      }
      if k == KeyOf(job) {
        assert after[id] == job;
      }
    }
    forall a | a in jobs && jobs[a].Active() ensures KeyOf(jobs[a]) in ActiveKeys(jobs) {}
  }

  lemma ActiveKeysRemove(jobs: map<JobId, Job>, id: JobId, job: Job)
    requires id in jobs && jobs[id].Active() && !job.Active() && OneActivePerKey(jobs)
    ensures ActiveKeys(jobs[id := job]) == ActiveKeys(jobs) - {KeyOf(jobs[id])}
    ensures OneActivePerKey(jobs[id := job])
  {
    var after := jobs[id := job];
    forall k ensures k in ActiveKeys(after) <==> k in ActiveKeys(jobs) - {KeyOf(jobs[id])} {
      if k in ActiveKeys(jobs) && k != KeyOf(jobs[id]) {
        var a :| a in jobs && jobs[a].Active() && KeyOf(jobs[a]) == k;
        assert after[a] == jobs[a];
      }
    }
  }

  lemma ActiveKeysSame(jobs: map<JobId, Job>, id: JobId, job: Job)
    requires id in jobs ==> jobs[id].Active() == job.Active() && KeyOf(jobs[id]) == KeyOf(job)
    requires id !in jobs ==> !job.Active()
    requires OneActivePerKey(jobs)
    ensures ActiveKeys(jobs[id := job]) == ActiveKeys(jobs)
    ensures OneActivePerKey(jobs[id := job])
  {
    var after := jobs[id := job];
    forall k ensures k in ActiveKeys(after) <==> k in ActiveKeys(jobs) {
      if k in ActiveKeys(jobs) {
        var a :| a in jobs && jobs[a].Active() && KeyOf(jobs[a]) == k;
        assert a in after && after[a].Active() && KeyOf(after[a]) == k;
      }
      if k in ActiveKeys(after) {
        var a :| a in after && after[a].Active() && KeyOf(after[a]) == k;
        assert a in jobs && jobs[a].Active() && KeyOf(jobs[a]) == k;
      }
    }
  }
}
