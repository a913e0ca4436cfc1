/** Job records, the runtime-type policy and the dedupe key of the orchestrator. */
module Jobs {
  import opened Options

  /** A job id: the value of the twelve random bytes newID draws. */
  type JobId = nat

  /** A ticket id: the value of the thirty-two random bytes newTicketID draws. */
  type TicketId = nat

  datatype JobType = Ingest | Enrich | Rank | Converse | Research | Unlisted(name: string)

  datatype JobState = Pending | Running | Succeeded | Failed

  datatype Handle = Handle(kind: string, ref: string)

  const NO_HANDLE := Handle("", "")

  /** A Go error value: nil, or a message. */
  datatype Outcome = Ok | Err(msg: string)

  datatype Job = Job(
    id: JobId,
    typ: JobType,
    provider: string,
    user: string,
    item: string,
    state: JobState,
    handle: Handle,
    err: string)
  {
    predicate Active() { state.Pending? || state.Running? }

    predicate Terminal() { state.Succeeded? || state.Failed? }
  }

  datatype Scope = SignalsRead | MetadataWrite

  datatype Policy = Policy(provider: string, scopes: seq<Scope>)

  function PolicyOf(t: JobType): Option<Policy> {
    match t
    case Ingest | Enrich | Converse => Some(Policy("github", [SignalsRead, MetadataWrite]))
    case Rank | Research => Some(Policy("", [SignalsRead, MetadataWrite]))
    case Unlisted(_) => None
  }

  /** The whole-worklist stages; the other listed types are per-item. */
  predicate Pipeline(t: JobType) { t.Ingest? || t.Enrich? || t.Rank? }

  predicate PerItem(t: JobType) { t.Converse? || t.Research? }

  function NextStage(t: JobType): Option<JobType> {
    match t
    case Ingest => Some(Enrich)
    case Enrich => Some(Rank)
    case _ => None
  }

  function TypeName(t: JobType): string {
    match t
    case Ingest => "github-ingest"
    case Enrich => "github-enrich"
    case Rank => "llm-rank"
    case Converse => "github-converse"
    case Research => "github-research"
    case Unlisted(name) => name
  }

  /** The in-flight index key: owner "/" type, and "/" item when there is one. */
  function Key(user: string, t: JobType, item: string): string {
    user + "/" + TypeName(t) + (if item != "" then "/" + item else "")
  }

  function KeyOf(job: Job): string { Key(job.user, job.typ, job.item) }

  /** The subject "runtime-<job id>" of a job token. */
  datatype Subject = RuntimeOf(job: JobId)

  /** The claims a minted job token carries. */
  datatype Claims = Claims(subject: Subject, user: string, scopes: seq<Scope>, jobId: JobId, provider: string)

  // -------------------------------------------------------------------------
  // Key injectivity
  // -------------------------------------------------------------------------

  predicate SlashFree(s: string) { '/' !in s }

  lemma TypeNames(a: JobType, b: JobType)
    requires !a.Unlisted? && !b.Unlisted?
    ensures SlashFree(TypeName(a)) && TypeName(a) != ""
    ensures TypeName(a) == TypeName(b) ==> a == b
  {
    assert TypeName(Ingest)[7] == 'i' && TypeName(Enrich)[7] == 'e';
    assert TypeName(Converse)[7] == 'c' && TypeName(Research)[7] == 'r';
    assert |TypeName(Rank)| == 8;
  }

  /** The names the job types go by. */
  lemma NamesWritten()
    ensures TypeName(Ingest) == "github-ingest" && TypeName(Enrich) == "github-enrich" && TypeName(Rank) == "llm-rank"
    ensures TypeName(Converse) == "github-converse" && TypeName(Research) == "github-research"
  {
  }

  /** The keys: owner, slash, type, and slash and item for a per-item job. */
  lemma KeysWritten(u: string, t: JobType, i: string)
    ensures Key(u, t, "") == u + "/" + TypeName(t)
    ensures i != "" ==> Key(u, t, i) == u + "/" + TypeName(t) + "/" + i
  {
    hide TypeName;
  }

  /** Cutting at the first slash is unique. */
  lemma FirstSlash(a: string, x: string, b: string, y: string)
    requires SlashFree(a) && SlashFree(b)
    requires a + "/" + x == b + "/" + y
    ensures a == b && x == y
  {
    var s := a + "/" + x;
    assert s == b + "/" + y;
    assert s[|a|] == '/' && s[|b|] == '/';
    assert forall k :: 0 <= k < |a| ==> s[k] == a[k];
    assert forall k :: 0 <= k < |b| ==> s[k] == b[k];
    assert |a| == |b|;
    assert a == s[..|a|] && b == s[..|b|];
    assert x == s[|a| + 1..] && y == s[|b| + 1..];
  }

  /** Cutting at the last slash is unique. */
  lemma LastSlash(x: string, a: string, y: string, b: string)
    requires SlashFree(a) && SlashFree(b)
    requires x + "/" + a == y + "/" + b
    ensures x == y && a == b
  {
    var s := x + "/" + a;
    assert s == y + "/" + b;
    assert s[|x|] == '/' && s[|y|] == '/';
    assert forall k :: |x| < k < |s| ==> s[k] == a[k - |x| - 1];
    assert forall k :: |y| < k < |s| ==> s[k] == b[k - |y| - 1];
    assert |x| == |y|;
    assert x == s[..|x|] && y == s[..|y|];
    assert a == s[|x| + 1..] && b == s[|y| + 1..];
  }

  /** The part of a key after the owner: the type name and the item, if any. */
  function Tail(name: string, item: string): string {
    name + (if item != "" then "/" + item else "")
  }

  lemma TailInjective(a: string, i: string, b: string, j: string)
    requires SlashFree(a) && SlashFree(b) && Tail(a, i) == Tail(b, j)
    ensures a == b && i == j
  {
    if i != "" && j != "" {
      assert Tail(a, i) == a + "/" + i && Tail(b, j) == b + "/" + j;
      FirstSlash(a, i, b, j);
    } else {
      assert (a + "/" + i)[|a|] == '/' && (b + "/" + j)[|b|] == '/';
      assert i == "" ==> Tail(a, i) == a;
      assert j == "" ==> Tail(b, j) == b;
    }
  }

  lemma KeyTail(u: string, t: JobType, i: string)
    ensures Key(u, t, i) == u + "/" + Tail(TypeName(t), i)
  {
    assert u + "/" + Tail(TypeName(t), i)
        == u + "/" + TypeName(t) + (if i != "" then "/" + i else "");
  }

  /** Item ids may hold slashes; owners without one make the key injective. */
  lemma KeyInjective(u: string, t: JobType, i: string, v: string, r: JobType, j: string)
    requires SlashFree(u) && SlashFree(v) && !t.Unlisted? && !r.Unlisted?
    requires Key(u, t, i) == Key(v, r, j)
    ensures u == v && t == r && i == j
  {
    TypeNames(t, r);
    TypeNames(r, t);
    var a, b := TypeName(t), TypeName(r);
    KeyTail(u, t, i);
    KeyTail(v, r, j);
    FirstSlash(u, Tail(a, i), v, Tail(b, j));
    TailInjective(a, i, b, j);
  }

  predicate Shadows(v: string, t: JobType, u: string) {
    v != "" && PerItem(t) && v + "/" + TypeName(t) + "/" <= u + "/"
  }

  /** Owner names under which some per-item key of another owner reads as a pipeline key. */
  ghost predicate Shadowed(u: string) {
    exists v, t :: Shadows(v, t, u)
  }

  /** A prefix ending in a slash cannot reach into a slash-free last segment. */
  lemma PrefixBeforeLast(u: string, a: string, p: string, j: string)
    requires SlashFree(a) && u + "/" + a == p + "/" + j
    ensures p + "/" <= u + "/"
  {
    var k := u + "/" + a;
    assert k == p + "/" + j;
    assert k[|p|] == '/';
    assert forall n :: |u| < n < |k| ==> k[n] == a[n - |u| - 1];
    assert |p| <= |u|;
    assert u + "/" == k[..|u| + 1] && p + "/" == k[..|p| + 1];
  }

  /** A per-item key can equal a pipeline key of `u` only when `u` is shadowed. */
  lemma PipelineKeyClash(u: string, t: JobType, v: string, r: JobType, j: string)
    requires Pipeline(t) && !r.Unlisted? && v != ""
    requires j == "" <==> Pipeline(r)
    requires Key(u, t, "") == Key(v, r, j)
    ensures (u == v && t == r && j == "") || Shadows(v, r, u)
  {
    TypeNames(t, r);
    TypeNames(r, t);
    var a, b := TypeName(t), TypeName(r);
    KeyTail(u, t, "");
    KeyTail(v, r, j);
    assert Tail(a, "") == a;
    if j == "" {
      assert Tail(b, j) == b;
      LastSlash(u, a, v, b);
    } else {
      assert u + "/" + a == (v + "/" + b) + "/" + j;
      PrefixBeforeLast(u, a, v + "/" + b, j);
    }
  }

  /** A shadowed owner does clash: this item makes the per-item key equal the ingest key. */
  lemma ShadowItem(v: string, t: JobType, u: string) returns (item: string)
    requires Shadows(v, t, u)
    ensures item != "" && Key(v, t, item) == Key(u, Ingest, "")
    ensures u != v
  {
    var p := v + "/" + TypeName(t) + "/";
    var k := u + "/" + TypeName(Ingest);
    assert p <= u + "/" <= k;
    item := k[|p|..];
    assert k == p + item;
  }
}
