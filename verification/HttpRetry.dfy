/** The retry transport: one loop, two budgets, and a rule about repeating writes. */
module HttpRetry {
  import opened Backoff

  // -------------------------------------------------------------------------
  // Outcomes of one send
  // -------------------------------------------------------------------------

  /** One error of a wrapped chain, as errors.As sees it. */
  datatype Link = DnsError | OpError(op: string) | OtherError

  /** A Retry-After header: an integer number of seconds, or a date this many nanoseconds ahead. */
  datatype RetryAfter = Seconds(secs: int) | Date(until: int)

  datatype Header = Absent | Present(value: RetryAfter)

  datatype Outcome =
    | Failure(chain: seq<Link>)
    | NoResponse
    | Response(status: int, header: Header)

  const TOO_MANY_REQUESTS := 429
  const BAD_GATEWAY := 502
  const SERVICE_UNAVAILABLE := 503
  const GATEWAY_TIMEOUT := 504

  predicate IsIdempotent(verb: string) { verb == "GET" || verb == "HEAD" || verb == "OPTIONS" }

  predicate IsUnavailable(code: int) { code == TOO_MANY_REQUESTS || code == BAD_GATEWAY || code == SERVICE_UNAVAILABLE }

  predicate DialFirst(chain: seq<Link>) {
    if chain == [] then false
    else if chain[0].OpError? then chain[0].op == "dial"
    else DialFirst(chain[1..])
  }

  /** A DNS error anywhere in the chain, or else a first operation error that is a dial. */
  predicate IsConnectionError(chain: seq<Link>) { DnsError in chain || DialFirst(chain) }

  predicate ShouldRetry(verb: string, o: Outcome) {
    match o
    case Failure(chain) => IsConnectionError(chain) || IsIdempotent(verb)
    case NoResponse => false
    case Response(status, _) =>
      if IsUnavailable(status) then true
      else if status == GATEWAY_TIMEOUT then IsIdempotent(verb)
      else false
  }

  /** Which budget a retryable outcome draws on. */
  datatype Class = Transient | RateLimited

  function ClassOf(o: Outcome): Class {
    if o.Response? && IsUnavailable(o.status) then RateLimited else Transient
  }

  // -------------------------------------------------------------------------
  // The wait before a retry
  // -------------------------------------------------------------------------

  const MAX_RETRY_AFTER := 30_000_000_000
  const SECOND := 1_000_000_000

  /** retryAfter on a present header; the product of seconds and time.Second is an int64. */
  function HeaderDelay(r: RetryAfter): int {
    match r
    case Seconds(secs) => Wrap64(Max(secs, 0) * SECOND)
    case Date(until) => Max(until, 0)
  }

  /** waitBeforeRetry's delay: the header, capped, wins over the backoff. */
  function Wait(o: Outcome, backoff: int): int {
    if o.Response? && o.header.Present? then Min(HeaderDelay(o.header.value), MAX_RETRY_AFTER) else backoff
  }

  /** The wrapped value is the residue, less 2^64 when its top bit is set. */
  lemma WrapResidue(x: int)
    ensures Wrap64(x) == if x % TWO64 < TWO63 then x % TWO64 else x % TWO64 - TWO64
  {
    var h, r := x / TWO64, x % TWO64;
    assert x == h * TWO64 + r;
  }

  /**
   * A Retry-After of `secs` seconds is waited out up to the cap if and only if the product of seconds and
   * nanoseconds fits 63 bits, or exceeds them by so much that its residue is a long positive wait again.
   */
  lemma RetryAfterHonoured(secs: int, status: int, backoff: int)
    requires 0 <= secs < TWO63
    ensures Wait(Response(status, Present(Seconds(secs))), backoff) == Min(secs * SECOND, MAX_RETRY_AFTER)
       <==> secs * SECOND < TWO63 || MAX_RETRY_AFTER <= secs * SECOND % TWO64 < TWO63
  {
    var x := secs * SECOND;
    if x < TWO63 {
      WrapSmall(x);
    } else {
      WrapResidue(x);
    }
  }

  /** The first headers past the range are all cut short; up to 18446744073 seconds the request is repeated at once. */
  lemma RetryAfterOverflows(secs: int, status: int, backoff: int)
    requires 9_223_372_037 <= secs <= 18_446_744_103
    ensures Wait(Response(status, Present(Seconds(secs))), backoff) < MAX_RETRY_AFTER
    ensures Wait(Response(status, Present(Seconds(secs))), backoff) < 0 <==> secs <= 18_446_744_073
  {
  }

  // -------------------------------------------------------------------------
  // RoundTrip
  // -------------------------------------------------------------------------

  datatype Transport = Transport(
    attempts: int, baseBackoff: int, maxBackoff: int,
    rlAttempts: int, rlBase: int, rlMax: int)

  /** What the environment answers: the k-th send's outcome, whether the body can be rewound and the wait completes after it, and the draw. */
  datatype World = World(outcome: nat -> Outcome, rewinds: nat -> bool, survives: nat -> bool, draw: nat -> nat)

  datatype Result = Returned(outcome: Outcome) | Cancelled

  function Budget(t: Transport, c: Class): nat { Max(if c.Transient? then t.attempts else t.rlAttempts, 1) }

  /** The sends among the first n whose outcome drew on the class. */
  function Uses(w: World, c: Class, n: nat): (r: nat)
    ensures r <= n
  {
    if n == 0 then 0 else Uses(w, c, n - 1) + (if ClassOf(w.outcome(n - 1)) == c then 1 else 0)
  }

  /** The reply to send k is returned as it is: it is not retryable, or its class is used up, or the body cannot be sent again. */
  predicate Ends(t: Transport, verb: string, w: World, k: nat) {
    var o := w.outcome(k);
    || !ShouldRetry(verb, o)
    || Uses(w, ClassOf(o), k + 1) >= Budget(t, ClassOf(o))
    || !w.rewinds(k)
  }

  function BaseOf(t: Transport, c: Class): int { if c.Transient? then t.baseBackoff else t.rlBase }

  function CapOf(t: Transport, c: Class): int { if c.Transient? then t.maxBackoff else t.rlMax }

  /** A cap of -2 or less would ask the random generator for an empty range. */
  predicate Sane(t: Transport) { t.maxBackoff >= -1 && t.rlMax >= -1 }

  /** The backoff of the given attempt, with the draw brought into the range the generator is asked for. */
  function DelayOf(base: int, cap: int, attempt: int, draw: nat): (d: int)
    requires attempt >= 1 && cap >= -1
    ensures 0 <= d <= Max(cap, 0)
  {
    JitterBounds(base, cap, attempt, draw % (Half(CappedDelay(base, cap, attempt)) + 1));
    JitteredBackoff(base, cap, attempt, draw % (Half(CappedDelay(base, cap, attempt)) + 1))
  }

  /** The delay after send k: its class has been used Uses(..., k) times before, so this is that attempt plus one. */
  function Delay(t: Transport, w: World, k: nat): int
    requires Sane(t)
  {
    var o := w.outcome(k);
    var c := ClassOf(o);
    Wait(o, DelayOf(BaseOf(t, c), CapOf(t, c), Uses(w, c, k) + 1, w.draw(k)))
  }

  /** A cancellation is noticed only while a positive delay is being waited out. */
  predicate IsCancelled(t: Transport, w: World, k: nat)
    requires Sane(t)
  {
    Delay(t, w, k) > 0 && !w.survives(k)
  }

  predicate Stops(t: Transport, verb: string, w: World, k: nat)
    requires Sane(t)
  {
    Ends(t, verb, w, k) || IsCancelled(t, w, k)
  }

  /** The time waited after the first n sends. */
  function Waited(t: Transport, w: World, n: nat): nat
    requires Sane(t)
  {
    if n == 0 then 0 else Waited(t, w, n - 1) + Max(Delay(t, w, n - 1), 0)
  }

  /** waitBeforeRetry: false when the context was cancelled during the wait. */
  method WaitBeforeRetry(o: Outcome, base: int, cap: int, attempt: int, draw: nat, survives: bool) returns (ok: bool, wait: int)
    requires attempt >= 1 && cap >= -1
    ensures wait == Max(Wait(o, DelayOf(base, cap, attempt, draw)), 0)
    ensures ok == (wait <= 0 || survives)
  {
    wait := DelayOf(base, cap, attempt, draw);
    if o.Response? && o.header.Present? {
      wait := HeaderDelay(o.header.value);
      if wait > MAX_RETRY_AFTER {
        wait := MAX_RETRY_AFTER;
      }
    }
    if wait <= 0 {
      return true, 0;
    }
    ok := survives;
  }

  /** `n` sends are what RoundTrip makes: none but the last stops the loop. */
  predicate Sends(t: Transport, verb: string, w: World, n: nat)
    requires Sane(t)
  {
    n >= 1 && (forall k :: 0 <= k < n - 1 ==> !Stops(t, verb, w, k)) && Stops(t, verb, w, n - 1)
  }

  lemma NothingUsed(t: Transport, w: World)
    requires Sane(t)
    ensures Uses(w, Transient, 0) == Uses(w, RateLimited, 0) == Waited(t, w, 0) == 0
  {
  }

  lemma OneMore(t: Transport, w: World, n: nat)
    requires Sane(t)
    ensures Uses(w, ClassOf(w.outcome(n)), n + 1) == Uses(w, ClassOf(w.outcome(n)), n) + 1
    ensures forall c :: c != ClassOf(w.outcome(n)) ==> Uses(w, c, n + 1) == Uses(w, c, n)
    ensures Waited(t, w, n + 1) == Waited(t, w, n) + Max(Delay(t, w, n), 0)
  {
    hide Delay;
  }

  /**
   * RoundTrip, with the number of sends and the time waited out: it stops at the first send that
   * ends the loop or whose wait is cancelled, and returns that send's outcome unless cancelled.
   */
  method RoundTrip(t: Transport, verb: string, w: World) returns (result: Result, sends: nat, waited: nat)
    requires Sane(t)
    ensures Sends(t, verb, w, sends)
    ensures result == if Ends(t, verb, w, sends - 1) then Returned(w.outcome(sends - 1)) else Cancelled
    ensures waited == Waited(t, w, sends - 1)
  {
    hide ShouldRetry, DelayOf, Wait, Uses, Waited, IsUnavailable;
    NothingUsed(t, w);
    var transientLeft := t.attempts - 1;
    if transientLeft < 0 {
      transientLeft := 0;
    }
    var rateLimitLeft := t.rlAttempts - 1;
    if rateLimitLeft < 0 {
      rateLimitLeft := 0;
    }
    sends, waited := 0, 0;
    while true
      invariant transientLeft >= 0 && rateLimitLeft >= 0
      invariant transientLeft == Budget(t, Transient) - 1 - Uses(w, Transient, sends)
      invariant rateLimitLeft == Budget(t, RateLimited) - 1 - Uses(w, RateLimited, sends)
      invariant forall k :: 0 <= k < sends ==> !Stops(t, verb, w, k)
      invariant waited == Waited(t, w, sends)
      decreases transientLeft + rateLimitLeft
    {
      OneMore(t, w, sends);
      var o := w.outcome(sends);
      sends := sends + 1;
      if !ShouldRetry(verb, o) {
        return Returned(o), sends, waited;
      }
      var left, total, base, cap;
      var limited := o.Response? && IsUnavailable(o.status);
      if limited {
        left, total, base, cap := rateLimitLeft, t.rlAttempts, t.rlBase, t.rlMax;
      } else {
        left, total, base, cap := transientLeft, t.attempts, t.baseBackoff, t.maxBackoff;
      }
      if left <= 0 {
        return Returned(o), sends, waited;
      }
      var attempt := total - left;
      if limited {
        rateLimitLeft := rateLimitLeft - 1;
      } else {
        transientLeft := transientLeft - 1;
      }
      if !w.rewinds(sends - 1) {
        return Returned(o), sends, waited;
      }
      var ok, wait := WaitBeforeRetry(o, base, cap, attempt, w.draw(sends - 1), w.survives(sends - 1));
      if !ok {
        return Cancelled, sends, waited;
      }
      waited := waited + wait;
    }
  }

  // -------------------------------------------------------------------------
  // What the loop guarantees
  // -------------------------------------------------------------------------

  lemma {:induction false} UsesSum(w: World, n: nat)
    ensures Uses(w, Transient, n) + Uses(w, RateLimited, n) == n
  {
    if n > 0 {
      UsesSum(w, n - 1);
    }
  }

  lemma {:induction false} UsesBounded(t: Transport, verb: string, w: World, c: Class, n: nat)
    requires Sane(t) && forall k :: 0 <= k < n ==> !Stops(t, verb, w, k)
    ensures Uses(w, c, n) <= Budget(t, c) - 1
  {
    hide ShouldRetry;
    if n > 0 {
      UsesBounded(t, verb, w, c, n - 1);
      assert !Stops(t, verb, w, n - 1);
    }
  }

  /** Neither budget consumes the other, and together they bound the sends. */
  lemma SendsBounded(t: Transport, verb: string, w: World, n: nat)
    requires Sane(t) && Sends(t, verb, w, n)
    ensures n <= Budget(t, Transient) + Budget(t, RateLimited) - 1
    ensures Uses(w, Transient, n - 1) <= Budget(t, Transient) - 1 && Uses(w, RateLimited, n - 1) <= Budget(t, RateLimited) - 1
  {
    UsesBounded(t, verb, w, Transient, n - 1);
    UsesBounded(t, verb, w, RateLimited, n - 1);
    UsesSum(w, n - 1);
  }

  /** Without cancellation and rewind failure: the first outcome that is not retryable or whose class has then occurred max(budget, 1) times. */
  lemma FirstDecisiveOutcome(t: Transport, verb: string, w: World, n: nat)
    requires Sane(t) && Sends(t, verb, w, n)
    requires forall k :: w.rewinds(k) && w.survives(k)
    ensures var o := w.outcome(n - 1); !ShouldRetry(verb, o) || Uses(w, ClassOf(o), n) == Budget(t, ClassOf(o))
    ensures forall k :: 0 <= k < n - 1 ==>
      ShouldRetry(verb, w.outcome(k)) && Uses(w, ClassOf(w.outcome(k)), k + 1) < Budget(t, ClassOf(w.outcome(k)))
  {
    hide ShouldRetry;
    UsesBounded(t, verb, w, ClassOf(w.outcome(n - 1)), n - 1);
    assert w.rewinds(n - 1) && w.survives(n - 1);
    forall k | 0 <= k < n - 1
      ensures ShouldRetry(verb, w.outcome(k)) && Uses(w, ClassOf(w.outcome(k)), k + 1) < Budget(t, ClassOf(w.outcome(k)))
    {
      assert !Stops(t, verb, w, k);
    }
  }

  // -------------------------------------------------------------------------
  // The law of repeating, on the outcomes' own fields
  // -------------------------------------------------------------------------

  /** The request was refused or never arrived: a DNS error, a first operation error that is a dial, or status 429, 502 or 503. */
  ghost predicate NeverProcessed(o: Outcome) {
    match o
    case Failure(chain) =>
      || DnsError in chain
      || exists i :: 0 <= i < |chain| && chain[i] == OpError("dial") && forall j :: 0 <= j < i ==> !chain[j].OpError?
    case NoResponse => false
    case Response(status, _) => status == 429 || status == 502 || status == 503
  }

  /** It may have been processed, and sending it again is for methods without effect only. */
  predicate Ambiguous(o: Outcome) { o.Failure? || (o.Response? && o.status == 504) }

  predicate WithoutEffect(verb: string) { verb == "GET" || verb == "HEAD" || verb == "OPTIONS" }

  lemma {:induction false} DialFirstMeaning(chain: seq<Link>)
    ensures DialFirst(chain) <==>
      exists i :: 0 <= i < |chain| && chain[i] == OpError("dial") && forall j :: 0 <= j < i ==> !chain[j].OpError?
  {
    if chain != [] && !chain[0].OpError? {
      var rest := chain[1..];
      DialFirstMeaning(rest);
      if DialFirst(rest) {
        var i :| 0 <= i < |rest| && rest[i] == OpError("dial") && forall j :: 0 <= j < i ==> !rest[j].OpError?;
        assert chain[i + 1] == OpError("dial") && forall j :: 0 <= j < i + 1 ==> !chain[j].OpError?;
      }
      if i :| 0 <= i < |chain| && chain[i] == OpError("dial") && forall j :: 0 <= j < i ==> !chain[j].OpError? {
        assert rest[i - 1] == OpError("dial") && forall j :: 0 <= j < i - 1 ==> rest[j] == chain[j + 1];
      }
    }
  }

  /** An outcome is retried if and only if it was never processed, or is ambiguous and the method without effect. */
  lemma RetryLaw(verb: string, o: Outcome)
    ensures ShouldRetry(verb, o) <==> NeverProcessed(o) || (Ambiguous(o) && WithoutEffect(verb))
  {
    if o.Failure? {
      DialFirstMeaning(o.chain);
      hide DialFirst;
    }
  }

  /** How many of the first n sends were answered 429, 502 or 503. */
  function Unavailable(w: World, n: nat): (r: nat)
    ensures r <= n
  {
    if n == 0 then 0
    else
      var o := w.outcome(n - 1);
      Unavailable(w, n - 1) + (if o.Response? && (o.status == 429 || o.status == 502 || o.status == 503) then 1 else 0)
  }

  lemma {:induction false} UsesCount(w: World, n: nat)
    ensures Uses(w, RateLimited, n) == Unavailable(w, n) && Uses(w, Transient, n) == n - Unavailable(w, n)
  {
    if n > 0 {
      UsesCount(w, n - 1);
    }
  }

  /** How many of the first n sends the server processed. */
  function Processed(served: nat -> bool, n: nat): nat {
    if n == 0 then 0 else Processed(served, n - 1) + (if served(n - 1) then 1 else 0)
  }

  lemma {:induction false} NoneProcessed(w: World, served: nat -> bool, n: nat)
    requires forall k :: 0 <= k < n ==> !served(k)
    ensures Processed(served, n) == 0
  {
    if n > 0 {
      NoneProcessed(w, served, n - 1);
    }
  }

  /**
   * A request whose method is not GET, HEAD or OPTIONS is processed at most once over the whole loop, whichever
   * way it exits, if a connection-phase error and a 429, 502 or 503 mean it was not processed: only after those
   * is it ever sent again.
   */
  lemma AtMostOnce(t: Transport, verb: string, w: World, served: nat -> bool, n: nat)
    requires Sane(t) && verb != "GET" && verb != "HEAD" && verb != "OPTIONS" && Sends(t, verb, w, n)
    requires forall k :: 0 <= k < n && NeverProcessed(w.outcome(k)) ==> !served(k)
    ensures Processed(served, n) <= 1
    ensures forall k :: 0 <= k < n - 1 ==> NeverProcessed(w.outcome(k))
  {
    hide ShouldRetry, NeverProcessed;
    forall k | 0 <= k < n - 1
      ensures NeverProcessed(w.outcome(k))
    {
      assert !Stops(t, verb, w, k);
      RetryLaw(verb, w.outcome(k));
    }
    NoneProcessed(w, served, n - 1);
  }

  /**
   * What may be sent again is: an outcome never processed, for any method, and a 504 or another failure, for GET,
   * HEAD and OPTIONS, is the last one only when its budget is used up, the body cannot be rewound or a wait of some
   * length is cancelled. Any other outcome is the last one at once.
   */
  lemma RetriesWhatItMay(t: Transport, verb: string, w: World, n: nat)
    requires Sane(t) && Sends(t, verb, w, n)
    ensures var o := w.outcome(n - 1);
      NeverProcessed(o) || (Ambiguous(o) && (verb == "GET" || verb == "HEAD" || verb == "OPTIONS")) ==>
        || !w.rewinds(n - 1)
        || (Delay(t, w, n - 1) > 0 && !w.survives(n - 1))
        || (if o.Response? && (o.status == 429 || o.status == 502 || o.status == 503)
            then Unavailable(w, n) == Max(t.rlAttempts, 1)
            else n - Unavailable(w, n) == Max(t.attempts, 1))
    ensures forall k :: 0 <= k < n - 1 ==>
      && (NeverProcessed(w.outcome(k)) || (Ambiguous(w.outcome(k)) && (verb == "GET" || verb == "HEAD" || verb == "OPTIONS")))
      && w.rewinds(k) && (Delay(t, w, k) > 0 ==> w.survives(k))
  {
    hide ShouldRetry, NeverProcessed, Delay;
    var o := w.outcome(n - 1);
    UsesCount(w, n);
    UsesBounded(t, verb, w, ClassOf(o), n - 1);
    RetryLaw(verb, o);
    forall k | 0 <= k < n - 1
      ensures NeverProcessed(w.outcome(k)) || (Ambiguous(w.outcome(k)) && WithoutEffect(verb))
      ensures w.rewinds(k) && (Delay(t, w, k) > 0 ==> w.survives(k))
    {
      assert !Stops(t, verb, w, k);
      RetryLaw(verb, w.outcome(k));
    }
  }

  lemma DelayOfBounds(base: int, cap: int, attempt: int, draw: nat)
    requires attempt >= 1 && cap >= -1
    ensures var full := CappedDelay(base, cap, attempt); Half(full) <= DelayOf(base, cap, attempt, draw) <= Max(full, 0)
  {
    JitterBounds(base, cap, attempt, draw % (Half(CappedDelay(base, cap, attempt)) + 1));
    hide CappedDelay;
  }

  /** Every delay from half to all of the capped exponential is drawn by some draw, rounding aside. */
  lemma JitterSpreads(base: int, cap: int, attempt: int, d: int)
    requires attempt >= 1 && cap >= -1
    requires var half := Half(CappedDelay(base, cap, attempt)); half <= d <= half + half
    ensures DelayOf(base, cap, attempt, d - Half(CappedDelay(base, cap, attempt))) == d
    ensures CappedDelay(base, cap, attempt) >= 0 ==> 2 * Half(CappedDelay(base, cap, attempt)) >= CappedDelay(base, cap, attempt) - 1
  {
    hide CappedDelay;
    JitterBounds(base, cap, attempt, 0);
  }

  /**
   * The wait after send k, from the header and the schedule of its own class: a date or a number of seconds up to
   * 30 s, otherwise between half and all of the exponential, capped, of the class's base and cap.
   */
  lemma DelayMeaning(t: Transport, w: World, k: nat)
    requires Sane(t)
    ensures var o := w.outcome(k);
      var limited := o.Response? && (o.status == 429 || o.status == 502 || o.status == 503);
      var full := if limited then CappedDelay(t.rlBase, t.rlMax, Unavailable(w, k) + 1)
                  else CappedDelay(t.baseBackoff, t.maxBackoff, k - Unavailable(w, k) + 1);
      if o.Response? && o.header.Present? then
        match o.header.value
        case Date(until) => Delay(t, w, k) == Min(Max(until, 0), 30_000_000_000)
        case Seconds(secs) => secs <= 9_223_372_036 ==> Delay(t, w, k) == Min(Max(secs, 0) * 1_000_000_000, 30_000_000_000)
      else Half(full) <= Delay(t, w, k) <= Max(full, 0)
  {
    UsesCount(w, k);
    hide Uses, Unavailable;
    var o := w.outcome(k);
    if o.Response? && o.header.Present? {
      if o.header.value.Seconds? && o.header.value.secs <= 9_223_372_036 {
        WrapSmall(Max(o.header.value.secs, 0) * SECOND);
      }
    } else {
      var c := ClassOf(o);
      DelayOfBounds(BaseOf(t, c), CapOf(t, c), Uses(w, c, k) + 1, w.draw(k));
    }
  }

  /** The cap on any one wait: the larger of the two backoff caps and the Retry-After cap. */
  function WaitCap(t: Transport): int { Max(Max(t.maxBackoff, t.rlMax), MAX_RETRY_AFTER) }

  lemma CapIsPositive(t: Transport)
    ensures WaitCap(t) >= MAX_RETRY_AFTER
  {
  }

  lemma DelayBounded(t: Transport, w: World, k: nat)
    requires Sane(t)
    ensures Delay(t, w, k) <= WaitCap(t)
  {
    hide DelayOf, HeaderDelay;
  }

  lemma {:induction false} WaitedBounded(t: Transport, w: World, n: nat)
    requires Sane(t)
    ensures Waited(t, w, n) <= n * WaitCap(t)
  {
    if n > 0 {
      WaitedBounded(t, w, n - 1);
      DelayBounded(t, w, n - 1);
      assert n * WaitCap(t) == (n - 1) * WaitCap(t) + WaitCap(t);
    }
  }

  /** The total wait over one request: the retries both budgets allow, each at most the cap. */
  lemma TotalWaitBounded(t: Transport, verb: string, w: World, n: nat)
    requires Sane(t) && Sends(t, verb, w, n)
    ensures Waited(t, w, n - 1) <= (Budget(t, Transient) + Budget(t, RateLimited) - 2) * WaitCap(t)
  {
    hide Waited, Budget, Uses, Stops, WaitCap;
    SendsBounded(t, verb, w, n);
    WaitedBounded(t, w, n - 1);
    CapIsPositive(t);
    TimesGrows(n - 1, Budget(t, Transient) + Budget(t, RateLimited) - 2, WaitCap(t));
  }

  /** Wrap's policy. */
  const DEFAULT := Transport(3, DEFAULT_BASE, DEFAULT_MAX, 8, RATE_LIMIT_BASE, RATE_LIMIT_MAX)

  /** WrapN's: the same knobs for both classes. */
  function WrapN(attempts: int, base: int, cap: int): Transport { Transport(attempts, base, cap, attempts, base, cap) }

  /** By default a request is sent at most ten times: three for transient failures, eight for an unavailable server, one shared. */
  lemma DefaultSends(verb: string, w: World, n: nat)
    requires Sends(DEFAULT, verb, w, n)
    ensures n <= 10 && Unavailable(w, n) <= 8 && n - Unavailable(w, n) <= 3
    ensures Waited(DEFAULT, w, n - 1) <= 9 * 30_000_000_000
  {
    hide Stops, Waited;
    SendsBounded(DEFAULT, verb, w, n);
    UsesCount(w, n);
    UsesCount(w, n - 1);
    TotalWaitBounded(DEFAULT, verb, w, n);
  }
}
