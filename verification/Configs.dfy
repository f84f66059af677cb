/** Check configurations (`internal/monitor/http_config.go`, `ping_config.go`): validated construction, partial
  * update and projection to jobs. */
module Configs {
  import opened Domain
  import opened Jobs
  import opened Text
  import opened ValueObjects

  const DEFAULT_PING_PORT: Port := 443

  datatype PingConfig = PingConfig(
    id: Id,
    monitorID: Id,
    port: Port,
    isEnabled: bool,
    interval: Duration,
    timeout: Duration,
    maxAttempts: int)
  {
    function ToJob(host: Host): CheckJob {
      CheckJob(JobBase(monitorID, id, interval, timeout, maxAttempts), PingProbe(host, port))
    }
  }

  datatype CreatePingInput = CreatePingInput(
    port: Port,
    isEnabled: Option<bool>,
    interval: int,
    timeout: int,
    maxAttempts: int)

  datatype UpdatePingInput = UpdatePingInput(
    port: Option<Port>,
    isEnabled: Option<bool>,
    interval: Option<int>,
    timeout: Option<int>,
    maxAttempts: Option<int>)

  datatype HTTPConfig = HTTPConfig(
    id: Id,
    monitorID: Id,
    scheme: Scheme,
    path: Path,
    verb: Method,
    isEnabled: bool,
    interval: Duration,
    timeout: Duration,
    maxAttempts: int,
    keywords: Strings)
  {
    function ToJob(host: Host): CheckJob {
      CheckJob(JobBase(monitorID, id, interval, timeout, maxAttempts), HTTPProbe(scheme, host, path, verb, keywords))
    }

    /** What a monitor may use only once. */
    function Key(): (Scheme, Path, Method) {
      (scheme, path, verb)
    }
  }

  datatype CreateHTTPInput = CreateHTTPInput(
    scheme: string,
    path: string,
    verb: string,
    isEnabled: Option<bool>,
    interval: int,
    timeout: int,
    maxAttempts: int,
    keywords: Strings)

  datatype UpdateHTTPInput = UpdateHTTPInput(
    scheme: Option<string>,
    verb: Option<string>,
    path: Option<string>,
    isEnabled: Option<bool>,
    interval: Option<int>,
    timeout: Option<int>,
    maxAttempts: Option<int>,
    keywords: Option<Strings>)

  function ParseScheme(s: string): Result<Scheme> {
    var t := Lower(Trim(s, IsSpace));
    if t == "http" then Ok(SchemeHTTP) else if t == "https" then Ok(SchemeHTTPS) else Err(InvalidScheme)
  }

  function ParseMethod(s: string): Result<Method> {
    var t := Upper(Trim(s, IsSpace));
    if t == "GET" then Ok(MethodGET) else if t == "HEAD" then Ok(MethodHEAD) else Err(MethodNotAllowed)
  }

  /** A partial update's field: kept when absent, otherwise what `parsed` makes of it. */
  function Kept<T>(given: bool, kept: T, parsed: Result<T>): Result<T> {
    if given then parsed else Ok(kept)
  }

  // ---- ping --------------------------------------------------------------------------------------

  function NewPingConfig(id: Id, monitorID: Id, input: CreatePingInput): Result<PingConfig> {
    var interval :- NewInterval(input.interval);
    var timeout :- NewTimeout(input.timeout);
    var maxAttempts :- NewMaxAttempts(input.maxAttempts);
    Ok(PingConfig(id, monitorID, if input.port != 0 then input.port else DEFAULT_PING_PORT,
                  input.isEnabled.GetOr(true), interval, timeout, maxAttempts))
  }

  const DEFAULT_PING := CreatePingInput(0, None, 0, 0, 0)

  function UpdatePing(cfg: PingConfig, input: UpdatePingInput): Result<PingConfig> {
    if input.port == Some(0) then Err(InvalidPort)
    else
      var interval :- Kept(input.interval.Some?, cfg.interval, NewInterval(input.interval.GetOr(0)));
      var timeout :- Kept(input.timeout.Some?, cfg.timeout, NewTimeout(input.timeout.GetOr(0)));
      var maxAttempts :- Kept(input.maxAttempts.Some?, cfg.maxAttempts, NewMaxAttempts(input.maxAttempts.GetOr(0)));
      Ok(cfg.(port := input.port.GetOr(cfg.port), isEnabled := input.isEnabled.GetOr(cfg.isEnabled),
              interval := interval, timeout := timeout, maxAttempts := maxAttempts))
  }

  // ---- http --------------------------------------------------------------------------------------

  function NewHTTPConfig(id: Id, monitorID: Id, input: CreateHTTPInput): Result<HTTPConfig> {
    var interval :- NewInterval(input.interval);
    var timeout :- NewTimeout(input.timeout);
    var maxAttempts :- NewMaxAttempts(input.maxAttempts);
    var scheme :- ParseScheme(input.scheme);
    var verb :- ParseMethod(input.verb);
    var path :- NewPath(input.path);
    if verb.MethodHEAD? && input.keywords.Elems() != [] then Err(KeywordsRequireGET)
    else
      Ok(HTTPConfig(id, monitorID, scheme, path, verb, input.isEnabled.GetOr(true), interval, timeout, maxAttempts,
                    input.keywords))
  }

  function UpdateHTTP(cfg: HTTPConfig, input: UpdateHTTPInput): Result<HTTPConfig> {
    var scheme :- Kept(input.scheme.Some?, cfg.scheme, ParseScheme(input.scheme.GetOr("")));
    var verb :- Kept(input.verb.Some?, cfg.verb, ParseMethod(input.verb.GetOr("")));
    var interval :- Kept(input.interval.Some?, cfg.interval, NewInterval(input.interval.GetOr(0)));
    var timeout :- Kept(input.timeout.Some?, cfg.timeout, NewTimeout(input.timeout.GetOr(0)));
    var maxAttempts :- Kept(input.maxAttempts.Some?, cfg.maxAttempts, NewMaxAttempts(input.maxAttempts.GetOr(0)));
    var path :- Kept(input.path.Some?, cfg.path, NewPath(input.path.GetOr("")));
    var keywords := input.keywords.GetOr(cfg.keywords);
    if verb.MethodHEAD? && keywords.Elems() != [] then Err(KeywordsRequireGET)
    else
      Ok(cfg.(scheme := scheme, verb := verb, path := path, isEnabled := input.isEnabled.GetOr(cfg.isEnabled),
              interval := interval, timeout := timeout, maxAttempts := maxAttempts, keywords := keywords))
  }

  // ---- what every configuration keeps ------------------------------------------------------------

  /** Interval and timeout are whole seconds and at least their minimums. */
  predicate SoundPace(interval: Duration, timeout: Duration) {
    && WholeSeconds(interval) && interval >= MIN_INTERVAL * SECOND
    && WholeSeconds(timeout) && timeout >= MIN_TIMEOUT * SECOND
  }

  /** What holds of a ping config whatever second counts were given. */
  predicate ShapedPing(cfg: PingConfig) {
    cfg.port != 0 && cfg.maxAttempts >= MIN_ATTEMPTS && IsInt64(cfg.interval) && IsInt64(cfg.timeout)
  }

  predicate PacedPing(cfg: PingConfig) {
    SoundPace(cfg.interval, cfg.timeout)
  }

  /** What holds of an HTTP config whatever second counts were given: among others, a HEAD check has no keywords, and
    * the path is in normal form. */
  predicate ShapedHTTP(cfg: HTTPConfig) {
    && cfg.maxAttempts >= MIN_ATTEMPTS && IsInt64(cfg.interval) && IsInt64(cfg.timeout)
    && CanonicalPath(cfg.path.value)
    && (cfg.verb.MethodHEAD? ==> cfg.keywords.Elems() == [])
  }

  predicate PacedHTTP(cfg: HTTPConfig) {
    SoundPace(cfg.interval, cfg.timeout)
  }

  /** Second counts whose nanoseconds fit an int64. */
  predicate Fits(seconds: int) {
    seconds <= MAX_SECONDS
  }

  /** A second count as asked for: zero asks for the default. */
  function Asked(seconds: int, default: int): int {
    if seconds == 0 then default else seconds
  }

  lemma NewPaceIsSound(interval: int, timeout: int)
    ensures NewInterval(interval).Ok? ==>
              var d := NewInterval(interval).value;
              && IsInt64(d)
              && (Seconds(d) == Asked(interval, DEFAULT_INTERVAL) <==> Fits(interval))
              && (Fits(interval) ==> WholeSeconds(d) && d >= MIN_INTERVAL * SECOND)
    ensures NewTimeout(timeout).Ok? ==>
              var d := NewTimeout(timeout).value;
              && IsInt64(d)
              && (Seconds(d) == Asked(timeout, DEFAULT_TIMEOUT) <==> Fits(timeout))
              && (Fits(timeout) ==> WholeSeconds(d) && d >= MIN_TIMEOUT * SECOND)
  {
    SecondsRoundTrip(if interval <= 0 then DEFAULT_INTERVAL else interval);
    SecondsRoundTrip(if timeout <= 0 then DEFAULT_TIMEOUT else timeout);
  }

  predicate PingInputFits(input: CreatePingInput) {
    Fits(input.interval) && Fits(input.timeout)
  }

  predicate PingUpdateFits(input: UpdatePingInput) {
    Fits(input.interval.GetOr(0)) && Fits(input.timeout.GetOr(0))
  }

  predicate HTTPInputFits(input: CreateHTTPInput) {
    Fits(input.interval) && Fits(input.timeout)
  }

  predicate HTTPUpdateFits(input: UpdateHTTPInput) {
    Fits(input.interval.GetOr(0)) && Fits(input.timeout.GetOr(0))
  }

  /** A created ping config is well shaped; it has the seconds asked for exactly when they fit, and then a sound
    * pace. */
  lemma NewPingIsSound(id: Id, monitorID: Id, input: CreatePingInput)
    requires NewPingConfig(id, monitorID, input).Ok?
    ensures var c := NewPingConfig(id, monitorID, input).value;
            && ShapedPing(c) && c.id == id && c.monitorID == monitorID
            && (PingInputFits(input) <==>
                  && Seconds(c.interval) == Asked(input.interval, DEFAULT_INTERVAL)
                  && Seconds(c.timeout) == Asked(input.timeout, DEFAULT_TIMEOUT))
            && (PingInputFits(input) ==> PacedPing(c))
  {
    NewPaceIsSound(input.interval, input.timeout);
  }

  lemma UpdatedPingIsSound(cfg: PingConfig, input: UpdatePingInput)
    requires ShapedPing(cfg) && UpdatePing(cfg, input).Ok?
    ensures var c := UpdatePing(cfg, input).value;
            && ShapedPing(c) && c.id == cfg.id && c.monitorID == cfg.monitorID
            && (PingUpdateFits(input) && PacedPing(cfg) ==> PacedPing(c))
  {
    NewPaceIsSound(input.interval.GetOr(0), input.timeout.GetOr(0));
  }

  /** The same of an HTTP config. */
  lemma NewHTTPIsSound(id: Id, monitorID: Id, input: CreateHTTPInput)
    requires NewHTTPConfig(id, monitorID, input).Ok?
    ensures var c := NewHTTPConfig(id, monitorID, input).value;
            && ShapedHTTP(c) && c.id == id && c.monitorID == monitorID
            && (HTTPInputFits(input) <==>
                  && Seconds(c.interval) == Asked(input.interval, DEFAULT_INTERVAL)
                  && Seconds(c.timeout) == Asked(input.timeout, DEFAULT_TIMEOUT))
            && (HTTPInputFits(input) ==> PacedHTTP(c))
  {
    NewPaceIsSound(input.interval, input.timeout);
    PathIsCanonical(input.path);
  }

  lemma UpdatedHTTPIsSound(cfg: HTTPConfig, input: UpdateHTTPInput)
    requires ShapedHTTP(cfg) && UpdateHTTP(cfg, input).Ok?
    ensures var c := UpdateHTTP(cfg, input).value;
            && ShapedHTTP(c) && c.id == cfg.id && c.monitorID == cfg.monitorID
            && (HTTPUpdateFits(input) && PacedHTTP(cfg) ==> PacedHTTP(c))
  {
    NewPaceIsSound(input.interval.GetOr(0), input.timeout.GetOr(0));
    if input.path.Some? && NewPath(input.path.value).Ok? {
      PathIsCanonical(input.path.value);
    }
  }

  // ---- what a creation does ----------------------------------------------------------------------

  /** A ping config is created from whatever pace is accepted: on the port given, 443 if none is, and enabled unless
    * it is asked not to be. */
  lemma NewPingExactly(id: Id, monitorID: Id, input: CreatePingInput)
    ensures NewPingConfig(id, monitorID, input).Ok? <==>
              && (input.interval == 0 || input.interval >= 10) && (input.timeout == 0 || input.timeout >= 2)
              && input.maxAttempts >= 0
    ensures NewPingConfig(id, monitorID, input).Ok? ==>
              var c := NewPingConfig(id, monitorID, input).value;
              && c.id == id && c.monitorID == monitorID
              && c.port == (if input.port == 0 then 443 else input.port)
              && (c.isEnabled <==> input.isEnabled != Some(false))
              && Ok(c.interval) == NewInterval(input.interval) && Ok(c.timeout) == NewTimeout(input.timeout)
              && c.maxAttempts == (if input.maxAttempts == 0 then 3 else input.maxAttempts)
  {
  }

  /** An HTTP config is created when every field is accepted and a HEAD check has no keywords; it has the fields as they
    * are parsed, the keywords as they are given, and is enabled unless it is asked not to be. */
  lemma NewHTTPExactly(id: Id, monitorID: Id, input: CreateHTTPInput)
    ensures NewHTTPConfig(id, monitorID, input).Ok? <==>
              && (input.interval == 0 || input.interval >= 10) && (input.timeout == 0 || input.timeout >= 2)
              && input.maxAttempts >= 0
              && ParseScheme(input.scheme).Ok? && ParseMethod(input.verb).Ok? && NewPath(input.path).Ok?
              && !(ParseMethod(input.verb) == Ok(MethodHEAD) && input.keywords.Elems() != [])
    ensures NewHTTPConfig(id, monitorID, input).Ok? ==>
              var c := NewHTTPConfig(id, monitorID, input).value;
              && c.id == id && c.monitorID == monitorID
              && Ok(c.scheme) == ParseScheme(input.scheme) && Ok(c.verb) == ParseMethod(input.verb)
              && Ok(c.path) == NewPath(input.path)
              && (c.isEnabled <==> input.isEnabled != Some(false))
              && Ok(c.interval) == NewInterval(input.interval) && Ok(c.timeout) == NewTimeout(input.timeout)
              && c.maxAttempts == (if input.maxAttempts == 0 then 3 else input.maxAttempts)
              && c.keywords == input.keywords
  {
  }

  // ---- what an update does -----------------------------------------------------------------------

  /** A field of an update: taken over, as parsed, when given, and kept when not. */
  predicate Takes<T(==), U>(given: Option<U>, parsed: Result<T>, kept: T, taken: T) {
    if given.Some? then parsed == Ok(taken) else taken == kept
  }

  /** An update of a ping config is accepted exactly when every field given is; it touches no other field, and doing
    * it again changes nothing. */
  lemma PingUpdateExactly(cfg: PingConfig, input: UpdatePingInput)
    ensures UpdatePing(cfg, input).Ok? <==>
              && input.port != Some(0)
              && (input.interval.Some? ==> NewInterval(input.interval.value).Ok?)
              && (input.timeout.Some? ==> NewTimeout(input.timeout.value).Ok?)
              && (input.maxAttempts.Some? ==> NewMaxAttempts(input.maxAttempts.value).Ok?)
    ensures UpdatePing(cfg, input).Ok? ==>
              var c := UpdatePing(cfg, input).value;
              && c.id == cfg.id && c.monitorID == cfg.monitorID
              && Takes(input.port, Ok(input.port.GetOr(0)), cfg.port, c.port)
              && Takes(input.isEnabled, Ok(input.isEnabled.GetOr(true)), cfg.isEnabled, c.isEnabled)
              && Takes(input.interval, NewInterval(input.interval.GetOr(0)), cfg.interval, c.interval)
              && Takes(input.timeout, NewTimeout(input.timeout.GetOr(0)), cfg.timeout, c.timeout)
              && Takes(input.maxAttempts, NewMaxAttempts(input.maxAttempts.GetOr(0)), cfg.maxAttempts, c.maxAttempts)
              && UpdatePing(c, input) == Ok(c)
  {
  }

  /** The keywords and method an update leaves; the two must go together whichever of them it gives. */
  predicate HeadWithKeywords(cfg: HTTPConfig, input: UpdateHTTPInput) {
    && Kept(input.verb.Some?, cfg.verb, ParseMethod(input.verb.GetOr(""))) == Ok(MethodHEAD)
    && input.keywords.GetOr(cfg.keywords).Elems() != []
  }

  /** An update of an HTTP config is accepted exactly when every field given is and the outcome is not HEAD with
    * keywords. */
  lemma HTTPUpdateExactly(cfg: HTTPConfig, input: UpdateHTTPInput)
    ensures UpdateHTTP(cfg, input).Ok? <==>
              && (input.scheme.Some? ==> ParseScheme(input.scheme.value).Ok?)
              && (input.verb.Some? ==> ParseMethod(input.verb.value).Ok?)
              && (input.interval.Some? ==> NewInterval(input.interval.value).Ok?)
              && (input.timeout.Some? ==> NewTimeout(input.timeout.value).Ok?)
              && (input.maxAttempts.Some? ==> NewMaxAttempts(input.maxAttempts.value).Ok?)
              && (input.path.Some? ==> NewPath(input.path.value).Ok?)
              && !HeadWithKeywords(cfg, input)
  {
  }

  /** An update takes over, as parsed, exactly the fields given, and doing it again changes nothing. */
  lemma HTTPUpdateTakes(cfg: HTTPConfig, input: UpdateHTTPInput)
    requires UpdateHTTP(cfg, input).Ok?
    ensures var c := UpdateHTTP(cfg, input).value;
            && c.id == cfg.id && c.monitorID == cfg.monitorID
            && Takes(input.scheme, ParseScheme(input.scheme.GetOr("")), cfg.scheme, c.scheme)
            && Takes(input.verb, ParseMethod(input.verb.GetOr("")), cfg.verb, c.verb)
            && Takes(input.path, NewPath(input.path.GetOr("")), cfg.path, c.path)
            && Takes(input.isEnabled, Ok(input.isEnabled.GetOr(true)), cfg.isEnabled, c.isEnabled)
            && Takes(input.interval, NewInterval(input.interval.GetOr(0)), cfg.interval, c.interval)
            && Takes(input.timeout, NewTimeout(input.timeout.GetOr(0)), cfg.timeout, c.timeout)
            && Takes(input.maxAttempts, NewMaxAttempts(input.maxAttempts.GetOr(0)), cfg.maxAttempts, c.maxAttempts)
            && Takes(input.keywords, Ok(input.keywords.GetOr(NilSlice)), cfg.keywords, c.keywords)
    ensures UpdateHTTP(UpdateHTTP(cfg, input).value, input) == UpdateHTTP(cfg, input)
  {
  }
}
