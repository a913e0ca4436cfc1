/** The injection contract: what launchers put in a runtime's environment or task metadata, and what the runtime reads back. */
module Contract {
  import opened Options
  import Backoff

  datatype EnvKey =
    | JobType | BaseURL | Token | Provider | GitHubBaseURL | EnrichLimit | ItemID
    | AIEndpoint | AIModel | DispatchedAt | AIToken | Ticket

  /** Go's int, 64 bits wide. */
  type GoInt = n: int | -0x8000_0000_0000_0000 <= n < 0x8000_0000_0000_0000

  predicate IsInt64(n: int) { -0x8000_0000_0000_0000 <= n < 0x8000_0000_0000_0000 }

  /** The fields that travel; an instant counts nanoseconds from the zero time, so 0 is unset. */
  datatype RunParams = RunParams(
    jobType: string, baseURL: string, token: string, provider: string, gitHubBaseURL: string, itemID: string,
    aiEndpoint: string, aiModel: string, aiToken: string, enrichLimit: GoInt, dispatchedAt: int)

  datatype Decoded = Params(p: RunParams) | InvalidLimit(value: string) | MissingRequired | RedeemFailed
  {
    predicate Failed() { !Params? }
  }

  // -------------------------------------------------------------------------
  // Decimal numbers
  // -------------------------------------------------------------------------

  predicate Digit(c: char) { '0' <= c <= '9' }

  function DigitValue(c: char): nat
    requires Digit(c)
  {
    c as int - '0' as int
  }

  function Digits(n: nat): (s: string)
    ensures s != "" && forall c :: c in s ==> Digit(c)
  {
    var last := ('0' as int + n % 10) as char;
    if n < 10 then [last] else Digits(n / 10) + [last]
  }

  function Value(s: string): nat
    requires forall c :: c in s ==> Digit(c)
  {
    if s == "" then 0 else 10 * Value(s[..|s| - 1]) + DigitValue(s[|s| - 1])
  }

  /** strconv.Itoa and FormatInt in base 10 */
  function FormatInt(n: int): string { if n < 0 then "-" + Digits(-n) else Digits(n) }

  /** strconv.Atoi and ParseInt in base 10 for 64 bits: an optional sign, digits only, in range. */
  function ParseInt(s: string): Option<int> {
    var body := if s != "" && (s[0] == '-' || s[0] == '+') then s[1..] else s;
    if body == "" || exists c :: c in body && !Digit(c) then None
    else
      var n: int := if s[0] == '-' then -(Value(body) as int) else Value(body);
      if IsInt64(n) then Some(n) else None
  }

  lemma {:induction false} ValueOfDigits(n: nat)
    ensures Value(Digits(n)) == n
  {
    if n >= 10 {
      ValueOfDigits(n / 10);
      var s := Digits(n);
      assert s[..|s| - 1] == Digits(n / 10);
    } else {
      assert Digits(n)[..0] == "";
    }
  }

  lemma ParseDigits(s: string)
    requires s != "" && forall c :: c in s ==> Digit(c)
    ensures ParseInt(s) == if IsInt64(Value(s)) then Some(Value(s)) else None
    ensures ParseInt("-" + s) == if IsInt64(-(Value(s) as int)) then Some(-(Value(s) as int)) else None
  {
    hide Value;
    assert s[0] in s;
    assert ("-" + s)[1..] == s;
  }

  /** Parsing undoes formatting exactly for the numbers that fit 64 bits. */
  lemma ParseUndoesFormat(n: int)
    ensures ParseInt(FormatInt(n)) == if IsInt64(n) then Some(n) else None
  {
    hide Digits, Value, ParseInt;
    var m: nat := if n < 0 then -n else n;
    ValueOfDigits(m);
    ParseDigits(Digits(m));
  }

  /** Decimal digits, the last one last. */
  lemma DigitsWritten(n: nat, d: nat)
    requires d < 10
    ensures FormatInt(10 * n + d) == (if n == 0 then "" else FormatInt(n)) + ["0123456789"[d]]
    ensures n > 0 ==> FormatInt(-(n as int)) == "-" + FormatInt(n)
  {
    assert (10 * n + d) / 10 == n && (10 * n + d) % 10 == d;
  }

  /** What is not an optional sign and then digits only is refused. */
  lemma ParseRefuses(s: string, c: char)
    requires |s| == 0 || (|s| == 1 && (s[0] == '-' || s[0] == '+'))
          || (c in s[1..] && !('0' <= c <= '9')) || !(s[0] == '-' || s[0] == '+' || '0' <= s[0] <= '9')
    ensures ParseInt(s).None?
  {
    hide Value;
    if |s| > 0 && s[0] != '-' && s[0] != '+' {
      var d := if '0' <= s[0] <= '9' then c else s[0];
      assert s == [s[0]] + s[1..];
      assert d in s && !Digit(d);
    } else if |s| > 0 {
      assert |s| == 1 ==> s[1..] == "";
      assert |s| > 1 ==> c in s[1..] && !Digit(c);
    }
  }

  // -------------------------------------------------------------------------
  // The dispatch time
  // -------------------------------------------------------------------------

  const NANOS_PER_MILLI := 1_000_000
  const UNIX_EPOCH := 62_135_596_800_000 * NANOS_PER_MILLI

  /** Whole milliseconds since 1970, rounded down. */
  function Millis(t: int): int { (t - UNIX_EPOCH) / NANOS_PER_MILLI }

  function FromMillis(ms: int): int { ms * NANOS_PER_MILLI + UNIX_EPOCH }

  /** The instant cut to the millisecond. */
  function ToMilli(t: int): int { FromMillis(Millis(t)) }

  /** UnixMilli is computed in 64 bits. */
  function DispatchedAtValue(t: int): string { if t == 0 then "" else FormatInt(Backoff.Wrap64(Millis(t))) }

  function DispatchedAtFromValue(v: string): int {
    if v == "" then 0
    else match ParseInt(v) case None => 0 case Some(ms) => FromMillis(ms)
  }

  lemma MillisBounds(t: int)
    ensures ToMilli(t) <= t < ToMilli(t) + NANOS_PER_MILLI
    ensures ToMilli(0) == 0
  {
  }

  lemma FormatNonEmpty(n: int)
    ensures FormatInt(n) != ""
  {
  }

  lemma WrapFits(n: int)
    ensures IsInt64(Backoff.Wrap64(n))
    ensures Backoff.Wrap64(n) == n <==> IsInt64(n)
  {
  }

  /** The dispatch time comes back cut to the millisecond, exactly when its Unix milliseconds fit 64 bits. */
  lemma DispatchTimeRoundTrip(t: int)
    ensures DispatchedAtFromValue(DispatchedAtValue(t)) == ToMilli(t) <==> IsInt64(Millis(t))
  {
    MillisBounds(t);
    var ms := Backoff.Wrap64(Millis(t));
    WrapFits(Millis(t));
    ParseUndoesFormat(ms);
    FormatNonEmpty(ms);
    hide ParseInt, FormatInt;
  }

  /** The value is the number of whole milliseconds since 1970, which began 62135596800 seconds after the zero time. */
  lemma DispatchWritten(t: int)
    requires t != 0 && IsInt64((t - 62_135_596_800_000_000_000) / 1_000_000)
    ensures DispatchedAtValue(t) == FormatInt((t - 62_135_596_800_000_000_000) / 1_000_000)
  {
    WrapFits(Millis(t));
    hide FormatInt, Backoff.Wrap64;
  }

  // -------------------------------------------------------------------------
  // Env and ParamsFromEnv
  // -------------------------------------------------------------------------

  type Environment = map<EnvKey, string>

  /** os.Getenv: an absent variable reads as empty. */
  function Getenv(env: Environment, k: EnvKey): string { if k in env then env[k] else "" }

  /** What each variable of the contract says about the parameters; "" is never emitted. */
  function Emitted(p: RunParams, k: EnvKey): string {
    match k
    case JobType => p.jobType
    case BaseURL => p.baseURL
    case Token => p.token
    case Provider => p.provider
    case GitHubBaseURL => p.gitHubBaseURL
    case EnrichLimit => if p.enrichLimit > 0 then FormatInt(p.enrichLimit) else ""
    case ItemID => p.itemID
    case AIEndpoint => p.aiEndpoint
    case AIModel => p.aiModel
    case DispatchedAt => DispatchedAtValue(p.dispatchedAt)
    case AIToken => ""
    case Ticket => ""
  }

  predicate AlwaysEmitted(k: EnvKey) { k == JobType || k == BaseURL || k == Token }

  /** The order in which Env deals with the variables. */
  function Turn(k: EnvKey): nat {
    match k
    case JobType | BaseURL | Token => 0
    case Provider => 1
    case GitHubBaseURL => 2
    case EnrichLimit => 3
    case ItemID => 4
    case AIEndpoint => 5
    case AIModel => 6
    case DispatchedAt => 7
    case AIToken | Ticket => 8
  }

  /** The variables dealt with so far stand as the contract says, the others are unset. */
  ghost predicate Filled(env: Environment, p: RunParams, turn: nat) {
    forall k :: (k in env <==> Turn(k) < turn && (AlwaysEmitted(k) || Emitted(p, k) != "")) && (k in env ==> env[k] == Emitted(p, k))
  }

  /** An optional variable is set only when it says something. */
  method SetIfAny(env: Environment, k: EnvKey, v: string, ghost p: RunParams) returns (r: Environment)
    requires 0 < Turn(k) < 8 && Filled(env, p, Turn(k)) && v == Emitted(p, k)
    ensures Filled(r, p, Turn(k) + 1)
  {
    hide Emitted;
    r := env;
    if v != "" {
      r := r[k := v];
    }
  }

  lemma FilledStart(p: RunParams)
    ensures Filled(map[JobType := p.jobType, BaseURL := p.baseURL, Token := p.token], p, 1)
  {
    hide DispatchedAtValue, FormatInt;
  }

  lemma FilledAll(env: Environment, p: RunParams)
    requires Filled(env, p, 8)
    ensures forall k :: Getenv(env, k) == Emitted(p, k)
    ensures forall k :: k in env <==> AlwaysEmitted(k) || Emitted(p, k) != ""
  {
    assert Emitted(p, AIToken) == Emitted(p, Ticket) == "";
    hide Emitted;
  }

  lemma EnvWritten(env: Environment, p: RunParams)
    requires forall k :: Getenv(env, k) == Emitted(p, k)
    requires forall k :: k in env <==> AlwaysEmitted(k) || Emitted(p, k) != ""
    ensures AIToken !in env && Ticket !in env
    ensures JobType in env && env[JobType] == p.jobType && BaseURL in env && env[BaseURL] == p.baseURL
    ensures Token in env && env[Token] == p.token
    ensures Getenv(env, Provider) == p.provider && Getenv(env, GitHubBaseURL) == p.gitHubBaseURL && Getenv(env, ItemID) == p.itemID
    ensures Getenv(env, AIEndpoint) == p.aiEndpoint && Getenv(env, AIModel) == p.aiModel
    ensures Getenv(env, EnrichLimit) == (if p.enrichLimit > 0 then FormatInt(p.enrichLimit) else "")
    ensures Getenv(env, DispatchedAt) == DispatchedAtValue(p.dispatchedAt)
  {
    hide DispatchedAtValue, FormatInt;
    assert Getenv(env, JobType) == Emitted(p, JobType) && Getenv(env, BaseURL) == Emitted(p, BaseURL);
    assert Getenv(env, Token) == Emitted(p, Token);
  }

  /** Fills the map: three variables always, the others only when they say something, the secrets never. */
  method Env(p: RunParams) returns (env: Environment)
    ensures forall k :: Getenv(env, k) == Emitted(p, k)
    ensures forall k :: k in env <==> AlwaysEmitted(k) || Emitted(p, k) != ""
    ensures AIToken !in env && Ticket !in env
    ensures JobType in env && env[JobType] == p.jobType && BaseURL in env && env[BaseURL] == p.baseURL
    ensures Token in env && env[Token] == p.token
    ensures Getenv(env, Provider) == p.provider && Getenv(env, GitHubBaseURL) == p.gitHubBaseURL && Getenv(env, ItemID) == p.itemID
    ensures Getenv(env, AIEndpoint) == p.aiEndpoint && Getenv(env, AIModel) == p.aiModel
    ensures Getenv(env, EnrichLimit) == (if p.enrichLimit > 0 then FormatInt(p.enrichLimit) else "")
    ensures Getenv(env, DispatchedAt) == DispatchedAtValue(p.dispatchedAt)
  {
    hide DispatchedAtValue, FormatInt, Filled;
    env := map[JobType := p.jobType, BaseURL := p.baseURL, Token := p.token];
    FilledStart(p);
    env := SetIfAny(env, Provider, p.provider, p);
    env := SetIfAny(env, GitHubBaseURL, p.gitHubBaseURL, p);
    env := SetIfAny(env, EnrichLimit, if p.enrichLimit > 0 then FormatInt(p.enrichLimit) else "", p);
    env := SetIfAny(env, ItemID, p.itemID, p);
    env := SetIfAny(env, AIEndpoint, p.aiEndpoint, p);
    env := SetIfAny(env, AIModel, p.aiModel, p);
    env := SetIfAny(env, DispatchedAt, DispatchedAtValue(p.dispatchedAt), p);
    FilledAll(env, p);
    hide Emitted, AlwaysEmitted;
    EnvWritten(env, p);
  }

  function Required(p: RunParams): Decoded {
    if p.baseURL == "" || p.token == "" || p.jobType == "" then MissingRequired else Params(p)
  }

  function ParseLimit(v: string): Option<GoInt> {
    match ParseInt(v) case None => None case Some(n) => Some(n)
  }

  function ParamsFromEnv(getenv: EnvKey -> string): Decoded {
    var p := RunParams(
      getenv(JobType), getenv(BaseURL), getenv(Token), getenv(Provider), getenv(GitHubBaseURL), getenv(ItemID),
      getenv(AIEndpoint), getenv(AIModel), getenv(AIToken), 0, DispatchedAtFromValue(getenv(DispatchedAt)));
    var v := getenv(EnrichLimit);
    if v == "" then Required(p)
    else match ParseLimit(v) case None => InvalidLimit(v) case Some(n) => Required(p.(enrichLimit := n))
  }

  /** What is left of the parameters after the trip: a floored limit, a time in milliseconds, the token from outside. */
  function Travelled(p: RunParams, aiToken: string): RunParams {
    p.(aiToken := aiToken, enrichLimit := if p.enrichLimit > 0 then p.enrichLimit else 0, dispatchedAt := ToMilli(p.dispatchedAt))
  }

  lemma LimitFits(n: GoInt)
    ensures IsInt64(n)
  {
  }

  /**
   * Decoding inverts encoding on every parameter record whose required fields are set, with the model token
   * taken from the surrounding environment; with a required field empty it fails.
   */
  lemma DecodeInvertsEncode(p: RunParams, getenv: EnvKey -> string)
    requires IsInt64(Millis(p.dispatchedAt))
    requires forall k :: k != AIToken && k != Ticket ==> getenv(k) == Emitted(p, k)
    ensures ParamsFromEnv(getenv) ==
      if p.baseURL == "" || p.token == "" || p.jobType == "" then MissingRequired
      else Params(Travelled(p, getenv(AIToken)))
  {
    DispatchTimeRoundTrip(p.dispatchedAt);
    ParseUndoesFormat(p.enrichLimit);
    FormatNonEmpty(p.enrichLimit);
    hide DispatchedAtValue, DispatchedAtFromValue, ParseInt, FormatInt, Millis, ToMilli, IsInt64;
    LimitFits(p.enrichLimit);
  }

  /** A limit that is not a 64-bit number is an error, whatever else is set; a malformed time is not. */
  lemma MalformedVariables(getenv: EnvKey -> string)
    ensures getenv(EnrichLimit) != "" && ParseInt(getenv(EnrichLimit)).None? ==>
      ParamsFromEnv(getenv) == InvalidLimit(getenv(EnrichLimit))
    ensures ParamsFromEnv(getenv).Params? && ParseInt(getenv(DispatchedAt)).None? ==> ParamsFromEnv(getenv).p.dispatchedAt == 0
  {
    hide ParseInt;
  }

  // -------------------------------------------------------------------------
  // The pull path
  // -------------------------------------------------------------------------

  datatype JobSpec = JobSpec(jobType: string, provider: string, itemID: string, dispatchedAt: int)

  /** A metadata value is a string, or something else that is printed. */
  datatype MetaValue = Text(text: string) | Other(printed: string)
  {
    function Printed(): string { match this case Text(t) => t case Other(p) => p }
  }

  /** What the task metadata says under each key. */
  function Described(spec: JobSpec, ticket: string, k: EnvKey): string {
    match k
    case JobType => spec.jobType
    case Ticket => ticket
    case Provider => spec.provider
    case ItemID => spec.itemID
    case DispatchedAt => DispatchedAtValue(spec.dispatchedAt)
    case _ => ""
  }

  /** taskMetadata: the job type and ticket always, the optional values only when set. */
  method TaskMetadata(spec: JobSpec, ticket: string) returns (m: map<EnvKey, MetaValue>)
    ensures forall k :: k in m <==> k == JobType || k == Ticket || Described(spec, ticket, k) != ""
    ensures forall k :: k in m ==> m[k].Printed() == Described(spec, ticket, k)
    ensures Token !in m && AIToken !in m && BaseURL !in m
    ensures JobType in m && m[JobType] == Text(spec.jobType) && Ticket in m && m[Ticket] == Text(ticket)
    ensures if spec.provider != "" then Provider in m && m[Provider] == Text(spec.provider) else Provider !in m
    ensures if spec.itemID != "" then ItemID in m && m[ItemID] == Text(spec.itemID) else ItemID !in m
  {
    hide DispatchedAtValue;
    m := map[JobType := Text(spec.jobType), Ticket := Text(ticket)];
    if spec.provider != "" {
      m := m[Provider := Text(spec.provider)];
    }
    if spec.itemID != "" {
      m := m[ItemID := Text(spec.itemID)];
    }
    var v := DispatchedAtValue(spec.dispatchedAt);
    if v != "" {
      m := m[DispatchedAt := Text(v)];
    }
  }

  /** Metadata first, the process environment behind it. */
  function Base(metadata: map<EnvKey, MetaValue>, env: EnvKey -> string, k: EnvKey): string {
    if k in metadata then metadata[k].Printed() else env(k)
  }

  /** `redeem` is the web tier's answer to the one ticket exchange this call makes, None when it fails. */
  function ParamsFromTask(metadata: map<EnvKey, MetaValue>, env: EnvKey -> string, redeem: string -> Option<string>): Decoded {
    var ticket := Base(metadata, env, Ticket);
    if Base(metadata, env, Token) == "" && ticket != "" then
      (if Base(metadata, env, BaseURL) == "" then RedeemFailed
       else match redeem(ticket)
         case None => RedeemFailed
         case Some(token) =>
           if token == "" then RedeemFailed
           else ParamsFromEnv(k => if k == Token then token else Base(metadata, env, k)))
    else ParamsFromEnv(k => Base(metadata, env, k))
  }

  /** The settings a substrate forwards to its runtimes. */
  datatype Static = Static(baseURL: string, gitHubBaseURL: string, aiEndpoint: string, aiModel: string)

  /** runtimespec.Env: the parameters a push launcher encodes. */
  function PushParams(opts: Static, spec: JobSpec, token: string): RunParams {
    RunParams(spec.jobType, opts.baseURL, token, spec.provider, opts.gitHubBaseURL, spec.itemID,
              opts.aiEndpoint, opts.aiModel, "", 0, spec.dispatchedAt)
  }

  /** A durable agent's own environment: the static settings and the model token, nothing per job. */
  predicate Deployment(env: EnvKey -> string, opts: Static) {
    && env(BaseURL) == opts.baseURL && env(GitHubBaseURL) == opts.gitHubBaseURL
    && env(AIEndpoint) == opts.aiEndpoint && env(AIModel) == opts.aiModel
    && env(JobType) == env(Token) == env(Provider) == env(EnrichLimit) == env(ItemID) == env(DispatchedAt) == env(Ticket) == ""
  }

  /** The metadata of a pull dispatch, as TaskMetadata fills it. */
  ghost predicate TaskFor(m: map<EnvKey, MetaValue>, spec: JobSpec, ticket: string) {
    && (forall k :: k in m <==> k == JobType || k == Ticket || Described(spec, ticket, k) != "")
    && (forall k :: k in m ==> m[k].Printed() == Described(spec, ticket, k))
  }

  lemma PushDispatch(opts: Static, spec: JobSpec, token: string)
    ensures PushParams(opts, spec, token).dispatchedAt == spec.dispatchedAt
  {
  }

  lemma BaseOf(opts: Static, spec: JobSpec, ticket: string, m: map<EnvKey, MetaValue>, env: EnvKey -> string)
    requires TaskFor(m, spec, ticket) && Deployment(env, opts) && ticket != ""
    ensures Base(m, env, Ticket) == ticket && Base(m, env, Token) == "" && Base(m, env, BaseURL) == opts.baseURL
    ensures Base(m, env, AIToken) == env(AIToken)
    ensures forall token: string :: Emitted(PushParams(opts, spec, token), Token) == token
    ensures forall k, token: string :: k != AIToken && k != Token && k != Ticket ==> Base(m, env, k) == Emitted(PushParams(opts, spec, token), k)
  {
    hide DispatchedAtValue, FormatInt;
  }

  /**
   * A pull runtime that redeems its ticket for a token reads the parameters a push runtime given that token
   * reads, for every job; one whose redemption yields nothing fails.
   */
  lemma PullEqualsPush(opts: Static, spec: JobSpec, ticket: string, m: map<EnvKey, MetaValue>, env: EnvKey -> string,
    pushEnv: EnvKey -> string, token: string, redeem: string -> Option<string>)
    requires TaskFor(m, spec, ticket) && Deployment(env, opts) && ticket != "" && IsInt64(Millis(spec.dispatchedAt))
    requires pushEnv(AIToken) == env(AIToken)
    requires forall k :: k != AIToken ==> pushEnv(k) == Emitted(PushParams(opts, spec, token), k)
    ensures redeem(ticket) == Some(token) && token != "" && opts.baseURL != "" ==>
      ParamsFromTask(m, env, redeem) == ParamsFromEnv(pushEnv)
    ensures redeem(ticket).None? || redeem(ticket) == Some("") || opts.baseURL == "" ==> ParamsFromTask(m, env, redeem) == RedeemFailed
  {
    hide Emitted, ParamsFromEnv, Travelled, PushParams, TaskFor, Deployment, Base, IsInt64, Millis;
    BaseOf(opts, spec, ticket, m, env);
    if redeem(ticket) == Some(token) && token != "" && opts.baseURL != "" {
      var getenv := (k: EnvKey) => if k == Token then token else Base(m, env, k);
      assert ParamsFromTask(m, env, redeem) == ParamsFromEnv(getenv);
      PushDispatch(opts, spec, token);
      DecodeInvertsEncode(PushParams(opts, spec, token), getenv);
      DecodeInvertsEncode(PushParams(opts, spec, token), pushEnv);
    }
  }

  /** Task metadata wins over the environment, and with a token at hand no ticket is redeemed. */
  lemma MetadataFirst(m: map<EnvKey, MetaValue>, env: EnvKey -> string, redeem: string -> Option<string>, seen: EnvKey -> string)
    requires forall k :: seen(k) == (if k in m then m[k].Printed() else env(k))
    requires seen(Token) != "" || seen(Ticket) == ""
    ensures ParamsFromTask(m, env, redeem) == ParamsFromEnv(seen)
  {
    hide ParseInt, DispatchedAtFromValue;
  }
}
