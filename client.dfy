/** The Client of client.go: its configuration and functional options, the
    cached access token and its renewal, and the request pipeline with its
    retry loop.

    The clock, the token endpoint, the transport, the rate limiter and the
    parse of the request URL are inputs, one record per invocation
    (`FetchEnv`, `AttemptEnv`); JSON decoding is a function parameter. Times
    and durations are integers counting nanoseconds, as `time.Duration` does. */
module Client {
  import opened Wrappers
  import opened Http
  import opened Errors
  import opened Retry

  const Millisecond: int := 1_000_000
  const Second: int := 1000 * Millisecond

  const DefaultRetryAttempts: nat := 3
  const DefaultRetryDelay: int := 700 * Millisecond
  const DefaultBaseURL: string := "https://api.chartmetric.com/api"
  const DefaultTimeout: int := 10 * Second
  const DefaultRateLimit: int := 1

  /** A fetched token is treated as expired this long before the server says. */
  const ExpiryAllowance: int := 5 * Second

  // ---------------------------------------------------------------------------
  // Configuration and options

  /** The transport (`*http.Client`); only its timeout is modelled. */
  datatype HttpClient = HttpClient(timeout: int)

  /** The configuration fields of a Client. */
  datatype Settings = Settings(
    refreshToken: string,
    httpClient: HttpClient,
    baseURL: string,
    rateLimit: int,   // steady rate of the limiter, requests per second
    burst: int,       // burst size of the limiter
    retryAttempts: nat,
    retryDelay: int)

  /** What NewClient sets before it applies any option. */
  function Defaults(refreshToken: string): Settings {
    Settings(refreshToken, HttpClient(DefaultTimeout), DefaultBaseURL,
      DefaultRateLimit, DefaultRateLimit, DefaultRetryAttempts, DefaultRetryDelay)
  }

  datatype ClientOption =
    | WithHTTPClient(httpClient: HttpClient)
    | WithBaseURL(baseURL: string)
    | WithRateLimitPerSec(perSec: int)
    | WithRetryAttempts(attempts: nat)
    | WithRetryDelay(delay: int)

  /** The part of the configuration an option sets. */
  datatype Aspect = Transport | BaseURL | RateLimit | Attempts | Delay

  function AspectOf(o: ClientOption): Aspect {
    match o
    case WithHTTPClient(_) => Transport
    case WithBaseURL(_) => BaseURL
    case WithRateLimitPerSec(_) => RateLimit
    case WithRetryAttempts(_) => Attempts
    case WithRetryDelay(_) => Delay
  }

  /** a and b have the same fields of aspect k. */
  predicate Agree(k: Aspect, a: Settings, b: Settings) {
    match k
    case Transport => a.httpClient == b.httpClient
    case BaseURL => a.baseURL == b.baseURL
    case RateLimit => a.rateLimit == b.rateLimit && a.burst == b.burst
    case Attempts => a.retryAttempts == b.retryAttempts
    case Delay => a.retryDelay == b.retryDelay
  }

  /** What one option does to the configuration: it sets its own aspect,
      whatever was there, and nothing else. */
  function ApplyOption(s: Settings, o: ClientOption): (r: Settings)
    ensures r.refreshToken == s.refreshToken
    ensures forall k: Aspect | k != AspectOf(o) :: Agree(k, r, s)
    ensures o.WithHTTPClient? ==> r.httpClient == o.httpClient
    ensures o.WithBaseURL? ==> r.baseURL == o.baseURL
    ensures o.WithRateLimitPerSec? ==> r.rateLimit == o.perSec && r.burst == o.perSec
    ensures o.WithRetryAttempts? ==> r.retryAttempts == o.attempts
    ensures o.WithRetryDelay? ==> r.retryDelay == o.delay
  {
    match o
    case WithHTTPClient(h) => s.(httpClient := h)
    case WithBaseURL(u) => s.(baseURL := u)
    case WithRateLimitPerSec(n) => s.(rateLimit := n, burst := n)
    case WithRetryAttempts(n) => s.(retryAttempts := n)
    case WithRetryDelay(d) => s.(retryDelay := d)
  }

  /** An option sets its aspect to the same value whatever the configuration it is applied to. */
  lemma SetsOwnAspect(s: Settings, t: Settings, o: ClientOption)
    ensures Agree(AspectOf(o), ApplyOption(s, o), ApplyOption(t, o))
  {
  }

  /** The options applied in order, the first one first: the refresh token
      is never changed, and the last option decides its own aspect. */
  function ApplyOptions(s: Settings, options: seq<ClientOption>): (r: Settings)
    ensures r.refreshToken == s.refreshToken
    ensures options == [] ==> r == s
    ensures options != [] ==>
              var last := options[|options| - 1];
              Agree(AspectOf(last), r, ApplyOption(s, last))
  {
    if options == [] then s
    else
      var last := options[|options| - 1];
      var prefix := ApplyOptions(s, options[..|options| - 1]);
      SetsOwnAspect(prefix, s, last);
      ApplyOption(prefix, last)
  }

  /** An aspect no option sets keeps the value it had. */
  lemma {:induction false} UnsetAspectKept(s: Settings, options: seq<ClientOption>, k: Aspect)
    requires forall j | 0 <= j < |options| :: AspectOf(options[j]) != k
    ensures Agree(k, ApplyOptions(s, options), s)
    ensures ApplyOptions(s, options).refreshToken == s.refreshToken
  {
    if options != [] {
      UnsetAspectKept(s, options[..|options| - 1], k);
    }
  }

  /** A later option overrides an earlier one: an aspect ends up as the last
      option that sets it leaves it. */
  lemma {:induction false} LastOptionWins(s: Settings, options: seq<ClientOption>, i: nat)
    requires i < |options|
    requires forall j | i < j < |options| :: AspectOf(options[j]) != AspectOf(options[i])
    ensures Agree(AspectOf(options[i]), ApplyOptions(s, options), ApplyOption(s, options[i]))
  {
    var n := |options| - 1;
    var prefix := ApplyOptions(s, options[..n]);
    if i < n {
      LastOptionWins(s, options[..n], i);
      assert Agree(AspectOf(options[i]), ApplyOptions(s, options), prefix);
    } else {
      SetsOwnAspect(prefix, s, options[i]);
    }
  }

  // ---------------------------------------------------------------------------
  // Token endpoint and response classification

  /** The decoded body of the token endpoint's response. */
  datatype TokenResponse = TokenResponse(token: string, expiresIn: int)

  /** The cached bearer token; replaced whole, never updated. */
  datatype AccessToken = AccessToken(value: string, expiresAt: int)

  /** What the transport did with one request: it failed, or a response came
      back whose body could (Ok) or could not (Err) be read. */
  datatype Exchange =
    | SendFailed(reason: string)
    | Received(status: int, body: Result<Bytes, string>)

  /** The world as one invocation of fetchAccessToken sees it: whether the
      request could be built, the transport's outcome and the clock when the
      response is handled. */
  datatype FetchEnv = FetchEnv(requestError: Option<string>, exchange: Exchange, clock: int)

  /** The mapping of a response to the caller's result, shared by request and
      fetchAccessToken: 429 and 503 are reported before the body is read, any
      other status outside 2xx is a permanent error with the code and the
      body, a 2xx status gives the body bytes unchanged. */
  function Classify(status: int, body: Result<Bytes, string>): (r: Result<Bytes, Error>)
    ensures status == 429 ==> r == Err(RateLimitExceeded)
    ensures status == 503 ==> r == Err(TemporarilyUnavailable)
    ensures r.Ok? <==> IsStatusSuccess(status) && body.Ok?
    ensures r.Ok? ==> r.value == body.value
    ensures status != 429 && status != 503 && !IsStatusSuccess(status) && body.Ok? ==>
              r == Err(NonSuccess(status, body.value))
    ensures r.Err? ==> (Retryable(r.error) <==> status == 429 || status == 503)
  {
    if status == 429 then Err(RateLimitExceeded)
    else if status == 503 then Err(TemporarilyUnavailable)
    else if body.Err? then
      Err(Wrapped("read response body", Wrapped("copy bytes from response body", Failed(body.error))))
    else if !IsStatusSuccess(status) then Err(NonSuccess(status, body.value))
    else Ok(body.value)
  }

  /** The transport's outcome as the caller of `httpClient.Do` reports it. */
  function Receive(ex: Exchange): (r: Result<Bytes, Error>)
    ensures ex.SendFailed? ==> r.Err? && !Retryable(r.error)
    ensures ex.Received? ==> r == Classify(ex.status, ex.body)
  {
    match ex
    case SendFailed(reason) => Err(Wrapped("http client do", Failed(reason)))
    case Received(status, body) => Classify(status, body)
  }

  /** fetchAccessToken: one exchange with the token endpoint. The new token
      expires `expires_in` seconds after the clock, less the allowance. */
  function FetchAccessToken(s: Settings, env: FetchEnv, tokenJson: Bytes -> Result<TokenResponse, string>)
    : (r: Result<AccessToken, Error>)
    ensures r.Ok? <==>
              && env.requestError.None?
              && Receive(env.exchange).Ok?
              && tokenJson(Receive(env.exchange).value).Ok?
    ensures r.Ok? ==>
              var t := tokenJson(Receive(env.exchange).value).value;
              && r.value.value == t.token
              && r.value.expiresAt == env.clock + t.expiresIn * Second - 5 * Second
    ensures r.Err? ==>
              (Retryable(r.error) <==>
                 && env.requestError.None?
                 && env.exchange.Received?
                 && (env.exchange.status == 429 || env.exchange.status == 503))
  {
    if env.requestError.Some? then
      Err(Wrapped("new request", Failed(env.requestError.value)))
    else
      match Receive(env.exchange)
      case Err(e) => Err(e)
      case Ok(bytes) =>
        match tokenJson(bytes)
        case Err(why) => Err(Wrapped("json unmarshal", Failed(why)))
        case Ok(t) => Ok(AccessToken(t.token, env.clock + t.expiresIn * Second - ExpiryAllowance))
  }

  /** What each invocation of fetchAccessToken would return, in turn. */
  function FetchResults(s: Settings, fetches: seq<FetchEnv>, tokenJson: Bytes -> Result<TokenResponse, string>)
    : (results: seq<Result<AccessToken, Error>>)
    ensures |results| == |fetches|
    ensures forall i | 0 <= i < |fetches| :: results[i] == FetchAccessToken(s, fetches[i], tokenJson)
  {
    seq(|fetches|, i requires 0 <= i < |fetches| => FetchAccessToken(s, fetches[i], tokenJson))
  }

  // ---------------------------------------------------------------------------
  // Token cache

  /** The cached token must be renewed: there is none, or the clock is past
      its expiry (`time.After`). A token is still good at its expiry instant. */
  predicate NeedsFetch(cached: Option<AccessToken>, now: int): (needed: bool)
    ensures !needed <==> cached.Some? && now <= cached.value.expiresAt
  {
    cached.None? || now > cached.value.expiresAt
  }

  /** A token that needs renewing at one time needs it at every later time. */
  lemma StaysExpired(cached: Option<AccessToken>, now: int, later: int)
    requires NeedsFetch(cached, now) && now <= later
    ensures NeedsFetch(cached, later)
  {
  }

  /** What resolveAccessToken returns, what it leaves in the cache, and how
      many times it invoked fetchAccessToken. */
  datatype Resolution = Resolution(result: Result<string, Error>, cache: Option<AccessToken>, fetches: nat)

  /** resolveAccessToken, as a function of the cache and the clock: reuse
      the cached token while it is valid; otherwise fetch, under the retry
      policy, and store the fetched token whole, or leave the cache alone if
      fetching failed. */
  function Resolve(cached: Option<AccessToken>, now: int, s: Settings, fetches: seq<FetchEnv>,
                   tokenJson: Bytes -> Result<TokenResponse, string>): (res: Resolution)
    requires 1 <= s.retryAttempts <= |fetches|
    ensures res.fetches > 0 <==> NeedsFetch(cached, now)
    ensures res.fetches <= s.retryAttempts
    ensures !NeedsFetch(cached, now) ==> res.result == Ok(cached.value.value) && res.cache == cached
    ensures res.result.Err? ==> res.cache == cached
    ensures res.result.Ok? ==> res.cache.Some? && res.result.value == res.cache.value.value
    ensures NeedsFetch(cached, now) && res.result.Ok? ==>
              FetchAccessToken(s, fetches[res.fetches - 1], tokenJson) == Ok(res.cache.value)
    ensures res.result.Err? ==>
              && FetchAccessToken(s, fetches[0], tokenJson).Err?
              && (Retryable(res.result.error) <==> Retryable(FetchAccessToken(s, fetches[0], tokenJson).error))
  {
    if !NeedsFetch(cached, now) then
      Resolution(Ok(cached.value.value), cached, 0)
    else
      var runs := Run(s.retryAttempts, FetchResults(s, fetches, tokenJson));
      match Outcome(s.retryAttempts, runs)
      case Err(e) => Resolution(Err(Wrapped("fetch access token", e)), cached, |runs|)
      case Ok(t) => Resolution(Ok(t.value), Some(t), |runs|)
  }

  /** An expired or missing token is fetched under the retry policy: the
      fetches made are the policy's run over what each fetch returns, and
      resolution fails iff that run does, with the run's error wrapped. */
  lemma ResolveRetriesFetch(cached: Option<AccessToken>, now: int, s: Settings, fetches: seq<FetchEnv>,
                            tokenJson: Bytes -> Result<TokenResponse, string>)
    requires 1 <= s.retryAttempts <= |fetches|
    requires NeedsFetch(cached, now)
    ensures var res := Resolve(cached, now, s, fetches, tokenJson);
      var runs := Run(s.retryAttempts, FetchResults(s, fetches, tokenJson));
      && res.fetches == |runs|
      && (res.result.Err? <==> Outcome(s.retryAttempts, runs).Err?)
      && (res.result.Err? ==> res.result.error == Wrapped("fetch access token", Outcome(s.retryAttempts, runs).error))
      && (res.result.Ok? ==> res.cache == Some(Outcome(s.retryAttempts, runs).value))
  {
  }

  /** A token fetched at time T with `expires_in` 3600 is returned at once,
      and reused without a fetch up to T + 3595 s; one nanosecond later it is
      renewed. */
  lemma TokenReusedUntilAllowance(s: Settings, t: int, body: Bytes, fetches: seq<FetchEnv>, later: seq<FetchEnv>,
                                  tokenJson: Bytes -> Result<TokenResponse, string>, now: int)
    requires 1 <= s.retryAttempts <= |fetches| && s.retryAttempts <= |later|
    requires fetches[0] == FetchEnv(None, Received(200, Ok(body)), t)
    requires tokenJson(body) == Ok(TokenResponse("t", 3600))
    requires now <= t + 3595 * Second
    ensures var first := Resolve(None, t, s, fetches, tokenJson);
      && first.result == Ok("t") && first.fetches == 1
      && Resolve(first.cache, now, s, later, tokenJson) == Resolution(Ok("t"), first.cache, 0)
      && Resolve(first.cache, t + 3595 * Second + 1, s, later, tokenJson).fetches > 0
  {
    var first := Resolve(None, t, s, fetches, tokenJson);
    var runs := Run(s.retryAttempts, FetchResults(s, fetches, tokenJson));
    assert FetchAccessToken(s, fetches[0], tokenJson) == Ok(AccessToken("t", t + 3595 * Second));
    assert runs[0] == Ok(AccessToken("t", t + 3595 * Second));
    assert |runs| == 1;
  }

  // ---------------------------------------------------------------------------
  // One request attempt

  /** A request as an endpoint asks for it. */
  datatype Call = Call(httpMethod: string, path: string, query: map<string, QueryValue>, body: Option<Payload>)

  /** The world as one invocation of request sees it: the clock when the token
      is checked, what the token fetches meet, whether the URL parses (and the
      query it already carries), the rate limiter's verdict (None: permit
      granted) and the transport's outcome. */
  datatype AttemptEnv = AttemptEnv(
    now: int,
    fetches: seq<FetchEnv>,
    newRequest: Result<Values, string>,
    wait: Option<string>,
    exchange: Exchange)

  /** The externally visible steps of request, in the order they happen. */
  datatype Step = TokenFetch | LimiterWait | Send(req: HttpRequest)

  datatype Attempted = Attempted(result: Result<Bytes, Error>, cache: Option<AccessToken>, trace: seq<Step>)

  /** The Authorization header value of section 2.1 of RFC 6750. */
  function Bearer(token: string): string {
    "Bearer " + token
  }

  predicate IsBearer(h: string) {
    |h| >= 7 && h[..7] == "Bearer "
  }

  function Rank(st: Step): nat {
    match st
    case TokenFetch => 0
    case LimiterWait => 1
    case Send(_) => 2
  }

  /** Token fetches first, then at most one limiter wait, then at most one send. */
  predicate Ordered(trace: seq<Step>) {
    forall i, j | 0 <= i < j < |trace| ::
      Rank(trace[i]) < Rank(trace[j]) || (trace[i].TokenFetch? && trace[j].TokenFetch?)
  }

  /** The trace ends with a send (by Ordered, the only place one can be). */
  predicate Sent(trace: seq<Step>) {
    |trace| > 0 && trace[|trace| - 1].Send?
  }

  /** A sent request does what the call asked, with a bearer token. */
  ghost predicate Conforms(req: HttpRequest, s: Settings, call: Call) {
    && req.httpMethod == call.httpMethod
    && req.url == s.baseURL + call.path
    && Carries(req.query, call.query)
    && req.body == BuildJSONBody(call.body)
    && "Authorization" in req.header
    && IsBearer(req.header["Authorization"])
    && "Content-Type" in req.header
    && req.header["Content-Type"] == "application/json"
  }

  ghost predicate SentAs(steps: seq<Step>, s: Settings, call: Call) {
    forall i | 0 <= i < |steps| && steps[i].Send? :: Conforms(steps[i].req, s, call)
  }

  lemma SentAsAppend(steps: seq<Step>, more: seq<Step>, s: Settings, call: Call)
    requires SentAs(steps, s, call) && SentAs(more, s, call)
    ensures SentAs(steps + more, s, call)
  {
    forall i | 0 <= i < |steps + more| && (steps + more)[i].Send?
      ensures Conforms((steps + more)[i].req, s, call)
    {
      if i >= |steps| {
        assert (steps + more)[i] == more[i - |steps|];
      }
    }
  }

  /** The request `request` sends once it holds a token and the URL parsed. */
  function Prepared(s: Settings, call: Call, token: string, urlQuery: Values): HttpRequest {
    HttpRequest(call.httpMethod, s.baseURL + call.path, AddedQuery(urlQuery, call.query),
      map["Authorization" := Bearer(token), "Content-Type" := "application/json"],
      BuildJSONBody(call.body))
  }

  /** request once resolveAccessToken has given `res`: abort on a token
      failure, build the request, wait for the rate limiter (aborting on
      failure), send, and classify the response. */
  function Finish(res: Resolution, env: AttemptEnv, s: Settings, call: Call): (a: Attempted)
    ensures a.cache == res.cache
  {
    var fetchSteps := seq(res.fetches, _ => TokenFetch);
    if res.result.Err? then
      Attempted(Err(Wrapped("resolve access token", res.result.error)), res.cache, fetchSteps)
    else if env.newRequest.Err? then
      Attempted(Err(Wrapped("new request", Failed(env.newRequest.error))), res.cache, fetchSteps)
    else
      var req := Prepared(s, call, res.result.value, env.newRequest.value);
      if env.wait.Some? then
        Attempted(Err(Wrapped("rate limiter wait", Failed(env.wait.value))), res.cache, fetchSteps + [LimiterWait])
      else
        Attempted(Receive(env.exchange), res.cache, fetchSteps + [LimiterWait, Send(req)])
  }

  /** request, as a function of the cache: resolve the token, then finish. */
  function Attempt(cached: Option<AccessToken>, env: AttemptEnv, s: Settings, call: Call,
                   tokenJson: Bytes -> Result<TokenResponse, string>): (a: Attempted)
    requires 1 <= s.retryAttempts <= |env.fetches|
    ensures a.cache == Resolve(cached, env.now, s, env.fetches, tokenJson).cache
  {
    Finish(Resolve(cached, env.now, s, env.fetches, tokenJson), env, s, call)
  }

  lemma FinishSteps(res: Resolution, env: AttemptEnv, s: Settings, call: Call)
    ensures var a := Finish(res, env, s, call);
      && Ordered(a.trace)
      && res.fetches <= |a.trace|
      && (forall i | 0 <= i < |a.trace| :: a.trace[i].TokenFetch? <==> i < res.fetches)
      && (LimiterWait in a.trace <==> res.result.Ok? && env.newRequest.Ok?)
      && (Sent(a.trace) <==> LimiterWait in a.trace && env.wait.None?)
  {
    var a := Finish(res, env, s, call);
    var fetchSteps := seq(res.fetches, _ => TokenFetch);
    if res.result.Err? || env.newRequest.Err? {
      assert a.trace == fetchSteps;
    } else if env.wait.Some? {
      assert a.trace == fetchSteps + [LimiterWait];
      assert a.trace[res.fetches] == LimiterWait;
    } else {
      var req := Prepared(s, call, res.result.value, env.newRequest.value);
      assert a.trace == fetchSteps + [LimiterWait, Send(req)];
      assert a.trace[res.fetches] == LimiterWait;
    }
  }

  /** The steps of an attempt: the token fetches first, then the limiter wait
      if the token and the URL were good, then the send if the limiter
      granted a permit. */
  lemma AttemptSteps(cached: Option<AccessToken>, env: AttemptEnv, s: Settings, call: Call,
                     tokenJson: Bytes -> Result<TokenResponse, string>)
    requires 1 <= s.retryAttempts <= |env.fetches|
    ensures var a := Attempt(cached, env, s, call, tokenJson);
      var res := Resolve(cached, env.now, s, env.fetches, tokenJson);
      && Ordered(a.trace)
      && res.fetches <= |a.trace|
      && (forall i | 0 <= i < |a.trace| :: a.trace[i].TokenFetch? <==> i < res.fetches)
      && (LimiterWait in a.trace <==> res.result.Ok? && env.newRequest.Ok?)
      && (Sent(a.trace) <==> LimiterWait in a.trace && env.wait.None?)
  {
    FinishSteps(Resolve(cached, env.now, s, env.fetches, tokenJson), env, s, call);
  }

  lemma FinishSendsBearer(res: Resolution, env: AttemptEnv, s: Settings, call: Call)
    requires res.result.Ok? ==> res.cache.Some? && res.result.value == res.cache.value.value
    ensures var a := Finish(res, env, s, call);
      forall i | 0 <= i < |a.trace| && a.trace[i].Send? ::
        && env.newRequest.Ok? && a.cache.Some?
        && a.trace[i].req == Prepared(s, call, a.cache.value.value, env.newRequest.value)
        && a.trace[i].req.header["Authorization"] == Bearer(a.cache.value.value)
  {
    var a := Finish(res, env, s, call);
    var fetchSteps := seq(res.fetches, _ => TokenFetch);
    if res.result.Ok? && env.newRequest.Ok? && env.wait.None? {
      var req := Prepared(s, call, res.result.value, env.newRequest.value);
      assert a.trace == fetchSteps + [LimiterWait, Send(req)];
    } else {
      assert a.trace == fetchSteps || a.trace == fetchSteps + [LimiterWait];
    }
  }

  /** A request an attempt sends is the prepared one, carrying the token the
      attempt left in the cache as its bearer token. */
  lemma AttemptSendsBearer(cached: Option<AccessToken>, env: AttemptEnv, s: Settings, call: Call,
                           tokenJson: Bytes -> Result<TokenResponse, string>)
    requires 1 <= s.retryAttempts <= |env.fetches|
    ensures var a := Attempt(cached, env, s, call, tokenJson);
      forall i | 0 <= i < |a.trace| && a.trace[i].Send? ::
        && env.newRequest.Ok? && a.cache.Some?
        && a.trace[i].req == Prepared(s, call, a.cache.value.value, env.newRequest.value)
        && a.trace[i].req.header["Authorization"] == Bearer(a.cache.value.value)
  {
    FinishSendsBearer(Resolve(cached, env.now, s, env.fetches, tokenJson), env, s, call);
  }

  lemma FinishResult(res: Resolution, env: AttemptEnv, s: Settings, call: Call)
    ensures var a := Finish(res, env, s, call);
      && (res.result.Err? ==> a.result == Err(Wrapped("resolve access token", res.result.error)))
      && (Sent(a.trace) ==> a.result == Receive(env.exchange))
      && (!Sent(a.trace) ==> a.result.Err?)
      && (a.result.Ok? ==>
            && env.exchange.Received? && IsStatusSuccess(env.exchange.status)
            && env.exchange.body.Ok? && a.result.value == env.exchange.body.value)
  {
  }

  /** The result of an attempt: a token failure is reported wrapped, an
      unsent request is an error, and a sent one gives the classification of
      its response, whose success is a 2xx status with the body unchanged. */
  lemma AttemptResult(cached: Option<AccessToken>, env: AttemptEnv, s: Settings, call: Call,
                      tokenJson: Bytes -> Result<TokenResponse, string>)
    requires 1 <= s.retryAttempts <= |env.fetches|
    ensures var a := Attempt(cached, env, s, call, tokenJson);
      var res := Resolve(cached, env.now, s, env.fetches, tokenJson);
      && (res.result.Err? ==> a.result == Err(Wrapped("resolve access token", res.result.error)))
      && (Sent(a.trace) ==> a.result == Receive(env.exchange))
      && (!Sent(a.trace) ==> a.result.Err?)
      && (a.result.Ok? ==>
            && env.exchange.Received? && IsStatusSuccess(env.exchange.status)
            && env.exchange.body.Ok? && a.result.value == env.exchange.body.value)
  {
    FinishResult(Resolve(cached, env.now, s, env.fetches, tokenJson), env, s, call);
  }

  /** A token fetch that ran out of attempts on 429 or 503 fails the attempt
      with an error the request's own retry policy retries: the wrapping
      keeps the transient errors visible to `errors.Is`. */
  lemma TransientTokenFailureIsRetried(cached: Option<AccessToken>, env: AttemptEnv, s: Settings, call: Call,
                                       tokenJson: Bytes -> Result<TokenResponse, string>)
    requires 1 <= s.retryAttempts <= |env.fetches|
    requires Resolve(cached, env.now, s, env.fetches, tokenJson).result.Err?
    requires env.fetches[0].requestError.None? && env.fetches[0].exchange.Received?
    requires env.fetches[0].exchange.status == 429
    ensures Attempt(cached, env, s, call, tokenJson).result.Err?
    ensures Retryable(Attempt(cached, env, s, call, tokenJson).result.error)
    ensures !Sent(Attempt(cached, env, s, call, tokenJson).trace)
  {
    AttemptResult(cached, env, s, call, tokenJson);
    AttemptSteps(cached, env, s, call, tokenJson);
  }

  /** Every request an attempt sends does what the call asked. */
  lemma AttemptConforms(cached: Option<AccessToken>, env: AttemptEnv, s: Settings, call: Call,
                        tokenJson: Bytes -> Result<TokenResponse, string>)
    requires 1 <= s.retryAttempts <= |env.fetches|
    ensures SentAs(Attempt(cached, env, s, call, tokenJson).trace, s, call)
  {
    var res := Resolve(cached, env.now, s, env.fetches, tokenJson);
    if res.result.Ok? && env.newRequest.Ok? && env.wait.None? {
      PreparedConforms(s, call, res.result.value, env.newRequest.value);
    }
  }

  lemma PreparedConforms(s: Settings, call: Call, token: string, urlQuery: Values)
    ensures Conforms(Prepared(s, call, token, urlQuery), s, call)
  {
    AddedQueryFacts(urlQuery, call.query);
  }

  /** How an endpoint finishes: a failed request is returned wrapped without
      decoding anything; a body that does not decode is a permanent error;
      otherwise the decoded value. */
  function DecodeResponse<T>(out: Result<Bytes, Error>, decode: Bytes -> Result<T, string>): (r: Result<T, Error>)
    ensures out.Err? ==> r == Err(Wrapped("request with retry", out.error))
    ensures r.Ok? <==> out.Ok? && decode(out.value).Ok?
    ensures r.Ok? ==> r.value == decode(out.value).value
    ensures r.Err? ==> (Retryable(r.error) <==> out.Err? && Retryable(out.error))
  {
    match out
    case Err(e) => Err(Wrapped("request with retry", e))
    case Ok(bytes) =>
      match decode(bytes)
      case Err(why) => Err(Wrapped("json unmarshal", Failed(why)))
      case Ok(v) => Ok(v)
  }

  // ---------------------------------------------------------------------------
  // A request under the retry policy

  /** The attempt records can serve every invocation the retry policy may
      make, and every token fetch within each. */
  predicate Covers(attempts: nat, envs: seq<AttemptEnv>) {
    && 1 <= attempts <= |envs|
    && forall i | 0 <= i < |envs| :: attempts <= |envs[i].fetches|
  }

  /** The cache the i-th attempt starts from. */
  function CacheBefore(cached: Option<AccessToken>, all: seq<Attempted>, i: nat): Option<AccessToken>
    requires i <= |all|
  {
    if i == 0 then cached else all[i - 1].cache
  }

  /** One attempt per record, each starting from the cache the attempt
      before it left. */
  function Thread(cached: Option<AccessToken>, envs: seq<AttemptEnv>,
                  step: (Option<AccessToken>, AttemptEnv) --> Attempted): (all: seq<Attempted>)
    requires forall c, e | e in envs :: step.requires(c, e)
    ensures |all| == |envs|
    decreases |envs|
  {
    if envs == [] then []
    else
      var n := |envs| - 1;
      assert forall e | e in envs[..n] :: e in envs;
      var prev := Thread(cached, envs[..n], step);
      prev + [step(CacheBefore(cached, prev, n), envs[n])]
  }

  lemma {:induction false} ThreadAt(cached: Option<AccessToken>, envs: seq<AttemptEnv>,
                                    step: (Option<AccessToken>, AttemptEnv) --> Attempted, i: nat)
    requires forall c, e | e in envs :: step.requires(c, e)
    requires i < |envs|
    ensures var all := Thread(cached, envs, step);
      step.requires(CacheBefore(cached, all, i), envs[i]) &&
      all[i] == step(CacheBefore(cached, all, i), envs[i])
    decreases |envs|
  {
    var all := Thread(cached, envs, step);
    var n := |envs| - 1;
    assert forall e | e in envs[..n] :: e in envs;
    var prev := Thread(cached, envs[..n], step);
    assert all == prev + [step(CacheBefore(cached, prev, n), envs[n])];
    if i < n {
      ThreadAt(cached, envs[..n], step, i);
      assert all[i] == prev[i];
      assert CacheBefore(cached, all, i) == CacheBefore(cached, prev, i);
    }
  }

  /** request on a record, as a function of the cache it starts from. */
  function AttemptStep(s: Settings, call: Call, tokenJson: Bytes -> Result<TokenResponse, string>)
    : (Option<AccessToken>, AttemptEnv) --> Attempted
  {
    (c: Option<AccessToken>, e: AttemptEnv) requires 1 <= s.retryAttempts <= |e.fetches| =>
      Attempt(c, e, s, call, tokenJson)
  }

  /** The attempts request would make if it were invoked once per record. */
  function AttemptsFrom(cached: Option<AccessToken>, envs: seq<AttemptEnv>, s: Settings, call: Call,
                        tokenJson: Bytes -> Result<TokenResponse, string>): (all: seq<Attempted>)
    requires 1 <= s.retryAttempts
    requires forall i | 0 <= i < |envs| :: s.retryAttempts <= |envs[i].fetches|
    ensures |all| == |envs|
  {
    Thread(cached, envs, AttemptStep(s, call, tokenJson))
  }

  /** The i-th attempt is request invoked on the i-th record with the cache
      the attempt before it left. */
  lemma AttemptAt(cached: Option<AccessToken>, envs: seq<AttemptEnv>, s: Settings, call: Call,
                  tokenJson: Bytes -> Result<TokenResponse, string>, i: nat)
    requires 1 <= s.retryAttempts
    requires forall j | 0 <= j < |envs| :: s.retryAttempts <= |envs[j].fetches|
    requires i < |envs|
    ensures var all := AttemptsFrom(cached, envs, s, call, tokenJson);
      all[i] == Attempt(CacheBefore(cached, all, i), envs[i], s, call, tokenJson)
  {
    ThreadAt(cached, envs, AttemptStep(s, call, tokenJson), i);
  }

  function ResultsOf(all: seq<Attempted>): (results: seq<Result<Bytes, Error>>)
    ensures |results| == |all|
    ensures forall i | 0 <= i < |all| :: results[i] == all[i].result
  {
    seq(|all|, i requires 0 <= i < |all| => all[i].result)
  }

  /** The steps of the attempts, one attempt after the other. */
  function Traces(all: seq<Attempted>): seq<Step> {
    if all == [] then [] else Traces(all[..|all| - 1]) + all[|all| - 1].trace
  }

  /** Every request sent by the first n attempts does what the call asked. */
  lemma {:induction false} TracesConform(cached: Option<AccessToken>, envs: seq<AttemptEnv>, s: Settings, call: Call,
                                         tokenJson: Bytes -> Result<TokenResponse, string>, n: nat)
    requires 1 <= s.retryAttempts
    requires forall i | 0 <= i < |envs| :: s.retryAttempts <= |envs[i].fetches|
    requires n <= |envs|
    ensures SentAs(Traces(AttemptsFrom(cached, envs, s, call, tokenJson)[..n]), s, call)
  {
    var all := AttemptsFrom(cached, envs, s, call, tokenJson);
    if n > 0 {
      TracesConform(cached, envs, s, call, tokenJson, n - 1);
      assert all[..n][..n - 1] == all[..n - 1];
      AttemptAt(cached, envs, s, call, tokenJson, n - 1);
      AttemptConforms(CacheBefore(cached, all, n - 1), envs[n - 1], s, call, tokenJson);
      SentAsAppend(Traces(all[..n - 1]), all[n - 1].trace, s, call);
    }
  }

  /** What requestWithRetry returns, the result of each invocation of
      request, the cache it leaves and everything it did. */
  datatype Retried = Retried(result: Result<Bytes, Error>, runs: seq<Result<Bytes, Error>>,
                             cache: Option<AccessToken>, trace: seq<Step>)

  /** requestWithRetry, as a function of the cache: request is invoked under
      the retry policy, each invocation starting from the cache the previous
      one left; the outcome is the policy's. */
  function RequestRun(cached: Option<AccessToken>, envs: seq<AttemptEnv>, s: Settings, call: Call,
                      tokenJson: Bytes -> Result<TokenResponse, string>): (rr: Retried)
    requires Covers(s.retryAttempts, envs)
    ensures IsRun(s.retryAttempts, rr.runs) && rr.result == Outcome(s.retryAttempts, rr.runs)
  {
    var all := AttemptsFrom(cached, envs, s, call, tokenJson);
    var runs := Run(s.retryAttempts, ResultsOf(all));
    Retried(Outcome(s.retryAttempts, runs), runs, all[|runs| - 1].cache, Traces(all[..|runs|]))
  }

  /** Every request sent by any invocation does what the call asked. */
  lemma RequestRunConforms(cached: Option<AccessToken>, envs: seq<AttemptEnv>, s: Settings, call: Call,
                           tokenJson: Bytes -> Result<TokenResponse, string>)
    requires Covers(s.retryAttempts, envs)
    ensures SentAs(RequestRun(cached, envs, s, call, tokenJson).trace, s, call)
  {
    var all := AttemptsFrom(cached, envs, s, call, tokenJson);
    TracesConform(cached, envs, s, call, tokenJson, |RequestRun(cached, envs, s, call, tokenJson).runs|);
  }

  /** The invocations made are the first attempts, in order, and the cache
      is the one the last of them left. */
  lemma RequestRunMade(cached: Option<AccessToken>, envs: seq<AttemptEnv>, s: Settings, call: Call,
                       tokenJson: Bytes -> Result<TokenResponse, string>)
    requires Covers(s.retryAttempts, envs)
    ensures var all := AttemptsFrom(cached, envs, s, call, tokenJson);
      var rr := RequestRun(cached, envs, s, call, tokenJson);
      && |rr.runs| <= |all|
      && (forall i | 0 <= i < |rr.runs| :: rr.runs[i] == all[i].result)
      && rr.cache == all[|rr.runs| - 1].cache
  {
  }

  /** One more invocation that agrees with the next attempt extends the
      results and the steps of those made so far. */
  lemma MadeOneMore(all: seq<Attempted>, runs: seq<Result<Bytes, Error>>, steps: seq<Step>, x: Attempted)
    requires |runs| < |all| && all[|runs|] == x
    requires forall i | 0 <= i < |runs| :: runs[i] == all[i].result
    requires steps == Traces(all[..|runs|])
    ensures forall i | 0 <= i < |runs| + 1 :: (runs + [x.result])[i] == all[i].result
    ensures steps + x.trace == Traces(all[..|runs| + 1])
  {
    assert all[..|runs| + 1][..|runs|] == all[..|runs|];
  }

  /** The invocations made agree with the attempts and follow the policy:
      they are the run `RequestRun` describes. */
  lemma RequestRunOf(cached: Option<AccessToken>, envs: seq<AttemptEnv>, s: Settings, call: Call,
                     tokenJson: Bytes -> Result<TokenResponse, string>, runs: seq<Result<Bytes, Error>>)
    requires Covers(s.retryAttempts, envs) && IsRun(s.retryAttempts, runs)
    requires forall i | 0 <= i < |runs| :: runs[i] == AttemptsFrom(cached, envs, s, call, tokenJson)[i].result
    ensures var all := AttemptsFrom(cached, envs, s, call, tokenJson);
      RequestRun(cached, envs, s, call, tokenJson) ==
        Retried(Outcome(s.retryAttempts, runs), runs, all[|runs| - 1].cache, Traces(all[..|runs|]))
  {
    var all := AttemptsFrom(cached, envs, s, call, tokenJson);
    assert runs == ResultsOf(all)[..|runs|];
    RunIsUnique(s.retryAttempts, ResultsOf(all), runs);
  }

  /** With a valid token cached, a well-formed URL and a permit, an attempt
      fetches nothing, waits once, sends the prepared request once and
      returns the classified response; the cache is kept. */
  lemma CachedTokenAttempt(t: AccessToken, env: AttemptEnv, s: Settings, call: Call,
                           tokenJson: Bytes -> Result<TokenResponse, string>)
    requires 1 <= s.retryAttempts <= |env.fetches|
    requires env.now <= t.expiresAt && env.newRequest.Ok? && env.wait.None?
    ensures Attempt(Some(t), env, s, call, tokenJson) ==
              Attempted(Receive(env.exchange), Some(t),
                        [LimiterWait, Send(Prepared(s, call, t.value, env.newRequest.value))])
  {
    var res := Resolve(Some(t), env.now, s, env.fetches, tokenJson);
    assert res == Resolution(Ok(t.value), Some(t), 0);
    assert seq(0, _ => TokenFetch) == [];
  }

  /** While the cached token stays valid, every attempt reuses it: each one
      waits once, sends the prepared request once and keeps the cache. */
  lemma {:induction false} CachedTokenAttempts(t: AccessToken, envs: seq<AttemptEnv>, s: Settings, call: Call,
                                               tokenJson: Bytes -> Result<TokenResponse, string>, n: nat)
    requires 1 <= s.retryAttempts
    requires forall i | 0 <= i < |envs| :: s.retryAttempts <= |envs[i].fetches|
    requires n <= |envs|
    requires forall i | 0 <= i < n :: envs[i].now <= t.expiresAt && envs[i].newRequest.Ok? && envs[i].wait.None?
    ensures var all := AttemptsFrom(Some(t), envs, s, call, tokenJson);
      forall i | 0 <= i < n ::
        all[i] == Attempted(Receive(envs[i].exchange), Some(t),
                            [LimiterWait, Send(Prepared(s, call, t.value, envs[i].newRequest.value))])
  {
    if n > 0 {
      CachedTokenAttempts(t, envs, s, call, tokenJson, n - 1);
      AttemptAt(Some(t), envs, s, call, tokenJson, n - 1);
      CachedTokenAttempt(t, envs[n - 1], s, call, tokenJson);
    }
  }

  /** With a valid token cached and three attempts, two rate-limited
      responses and then a success: the request is sent three times, with
      no token fetch, and returns the third response's body. */
  lemma RateLimitedTwiceThenSucceeds(t: AccessToken, envs: seq<AttemptEnv>, s: Settings, call: Call,
                                     tokenJson: Bytes -> Result<TokenResponse, string>, body: Bytes)
    requires s.retryAttempts == 3 && |envs| == 3 && Covers(3, envs)
    requires forall i | 0 <= i < 3 :: envs[i].now <= t.expiresAt && envs[i].newRequest.Ok? && envs[i].wait.None?
    requires envs[0].exchange.Received? && envs[0].exchange.status == 429
    requires envs[1].exchange.Received? && envs[1].exchange.status == 429
    requires envs[2].exchange == Received(200, Ok(body))
    ensures var rr := RequestRun(Some(t), envs, s, call, tokenJson);
      && |rr.runs| == 3 && rr.result == Ok(body) && rr.cache == Some(t)
      && rr.trace == [LimiterWait, Send(Prepared(s, call, t.value, envs[0].newRequest.value)),
                      LimiterWait, Send(Prepared(s, call, t.value, envs[1].newRequest.value)),
                      LimiterWait, Send(Prepared(s, call, t.value, envs[2].newRequest.value))]
  {
    var all := AttemptsFrom(Some(t), envs, s, call, tokenJson);
    CachedTokenAttempts(t, envs, s, call, tokenJson, 3);
    var results := ResultsOf(all);
    assert results == [Err(RateLimitExceeded), Err(RateLimitExceeded), Ok(body)];
    Retry.ThirdAttemptSucceeds(body);
    RequestRunOf(Some(t), envs, s, call, tokenJson, results);
    TracesOfThree(all);
  }

  /** The trace of three invocations is their traces in order. */
  lemma TracesOfThree(all: seq<Attempted>)
    requires 3 <= |all|
    ensures Traces(all[..3]) == all[0].trace + all[1].trace + all[2].trace
  {
    assert all[..3][..2] == all[..2] && all[..2][..1] == all[..1] && all[..1][..0] == [];
    assert Traces(all[..1]) == all[0].trace;
  }

  /** A 404 to a request sent with a valid cached token is returned after
      one invocation, whatever attempts remain, and the cache is kept. */
  lemma NotFoundIsNotRetried(cached: Option<AccessToken>, envs: seq<AttemptEnv>, s: Settings, call: Call,
                             tokenJson: Bytes -> Result<TokenResponse, string>, body: Bytes)
    requires Covers(s.retryAttempts, envs)
    requires !NeedsFetch(cached, envs[0].now) && envs[0].newRequest.Ok? && envs[0].wait.None?
    requires envs[0].exchange == Received(404, Ok(body))
    ensures var rr := RequestRun(cached, envs, s, call, tokenJson);
      && rr.runs == [Err(NonSuccess(404, body))]
      && rr.result == Err(AllAttemptsFailed([NonSuccess(404, body)]))
      && rr.cache == cached
  {
    var all := AttemptsFrom(cached, envs, s, call, tokenJson);
    AttemptAt(cached, envs, s, call, tokenJson, 0);
    assert all[0].result == Err(NonSuccess(404, body)) && all[0].cache == cached;
    PermanentErrorIsNotRetried(s.retryAttempts, ResultsOf(all), NonSuccess(404, body));
    RequestRunOf(cached, envs, s, call, tokenJson, [Err(NonSuccess(404, body))]);
  }

  // ---------------------------------------------------------------------------
  // The client

  class Client {
    var refreshToken: string
    var accessToken: Option<AccessToken>
    var httpClient: HttpClient
    var baseURL: string
    var rateLimit: int
    var burst: int
    var retryAttempts: nat
    var retryDelay: int

    function Config(): Settings
      reads this`refreshToken, this`httpClient, this`baseURL, this`rateLimit, this`burst,
            this`retryAttempts, this`retryDelay
    {
      Settings(refreshToken, httpClient, baseURL, rateLimit, burst, retryAttempts, retryDelay)
    }

    /** The attempt records cover every invocation the retry policy may make. */
    predicate Ready(envs: seq<AttemptEnv>)
      reads this`retryAttempts
    {
      Covers(retryAttempts, envs)
    }

    /** NewClient: the defaults, then each option in order; no token yet. */
    constructor (refreshToken: string, options: seq<ClientOption>)
      ensures Config() == ApplyOptions(Defaults(refreshToken), options)
      ensures accessToken == None
    {
      this.refreshToken := refreshToken;
      httpClient := HttpClient(DefaultTimeout);
      baseURL := DefaultBaseURL;
      rateLimit, burst := DefaultRateLimit, DefaultRateLimit;
      retryAttempts := DefaultRetryAttempts;
      retryDelay := DefaultRetryDelay;
      accessToken := None;
      new;
      var i := 0;
      while i < |options|
        invariant 0 <= i <= |options|
        invariant Config() == ApplyOptions(Defaults(refreshToken), options[..i])
        invariant accessToken == None
      {
        Apply(options[i]);
        assert options[..i + 1][..i] == options[..i];
        i := i + 1;
      }
      assert options[..|options|] == options;
    }

    /** One option closure applied to the client. */
    method Apply(o: ClientOption)
      modifies this
      ensures Config() == ApplyOption(old(Config()), o)
      ensures accessToken == old(accessToken)
    {
      match o
      case WithHTTPClient(h) => httpClient := h;
      case WithBaseURL(u) => baseURL := u;
      case WithRateLimitPerSec(n) => rateLimit, burst := n, n;
      case WithRetryAttempts(n) => retryAttempts := n;
      case WithRetryDelay(d) => retryDelay := d;
    }

    /** resolveAccessToken: returns the token to send and how many times it
        invoked fetchAccessToken; only the cache changes. */
    method ResolveAccessToken(now: int, fetches: seq<FetchEnv>, tokenJson: Bytes -> Result<TokenResponse, string>)
      returns (r: Result<string, Error>, fetched: nat)
      requires 1 <= retryAttempts <= |fetches|
      modifies this`accessToken
      ensures Resolution(r, accessToken, fetched) == Resolve(old(accessToken), now, Config(), fetches, tokenJson)
    {
      if accessToken.None? || now > accessToken.value.expiresAt {
        var runs := Run(retryAttempts, FetchResults(Config(), fetches, tokenJson));
        var fetchedToken := Outcome(retryAttempts, runs);
        if fetchedToken.Err? {
          return Err(Wrapped("fetch access token", fetchedToken.error)), |runs|;
        }
        accessToken := Some(fetchedToken.value);
        fetched := |runs|;
      } else {
        fetched := 0;
      }
      r := Ok(accessToken.value.value);
    }

    /** request: one attempt of the pipeline. */
    method Request(env: AttemptEnv, call: Call, tokenJson: Bytes -> Result<TokenResponse, string>)
      returns (r: Result<Bytes, Error>, trace: seq<Step>)
      requires 1 <= retryAttempts <= |env.fetches|
      modifies this`accessToken
      ensures Attempted(r, accessToken, trace) == Attempt(old(accessToken), env, Config(), call, tokenJson)
    {
      var token, fetched := ResolveAccessToken(env.now, env.fetches, tokenJson);
      r, trace := Finishing(Resolution(token, accessToken, fetched), env, call);
    }

    /** The rest of request once the token is resolved: build the request,
        wait on the limiter, send it and classify the response. */
    method Finishing(res: Resolution, env: AttemptEnv, call: Call)
      returns (r: Result<Bytes, Error>, trace: seq<Step>)
      requires res.cache == accessToken
      ensures Attempted(r, accessToken, trace) == Finish(res, env, Config(), call)
    {
      trace := seq(res.fetches, _ => TokenFetch);
      if res.result.Err? {
        return Err(Wrapped("resolve access token", res.result.error)), trace;
      }
      var jsonBody := BuildJSONBody(call.body);
      if env.newRequest.Err? {
        return Err(Wrapped("new request", Failed(env.newRequest.error))), trace;
      }
      var req := HttpRequest(call.httpMethod, baseURL + call.path, env.newRequest.value, map[], jsonBody);
      req := req.(header := req.header["Authorization" := Bearer(res.result.value)]);
      req := req.(header := req.header["Content-Type" := "application/json"]);
      req := AddQueryParams(req, call.query);
      assert req == Prepared(Config(), call, res.result.value, env.newRequest.value);
      trace := trace + [LimiterWait];
      if env.wait.Some? {
        return Err(Wrapped("rate limiter wait", Failed(env.wait.value))), trace;
      }
      trace := trace + [Send(req)];
      r := Receive(env.exchange);
    }

    /** The operation requestWithRetry hands to the retry wrapper: request,
        here on the n-th record, from the cache the invocations before it
        left. */
    method Invoke(envs: seq<AttemptEnv>, n: nat, call: Call, tokenJson: Bytes -> Result<TokenResponse, string>,
                  ghost before: Option<AccessToken>)
      returns (res: Result<Bytes, Error>, trace: seq<Step>)
      requires Ready(envs) && n < |envs|
      requires accessToken == CacheBefore(before, AttemptsFrom(before, envs, Config(), call, tokenJson), n)
      modifies this`accessToken
      ensures Attempted(res, accessToken, trace) == AttemptsFrom(before, envs, Config(), call, tokenJson)[n]
    {
      AttemptAt(before, envs, Config(), call, tokenJson, n);
      res, trace := Request(envs[n], call, tokenJson);
    }

    /** requestWithRetry: request under the retry policy. `runs` lists what
        each invocation returned, `steps` everything they did. */
    method RequestWithRetry(envs: seq<AttemptEnv>, call: Call, tokenJson: Bytes -> Result<TokenResponse, string>)
      returns (r: Result<Bytes, Error>, runs: seq<Result<Bytes, Error>>, steps: seq<Step>)
      requires Ready(envs)
      modifies this`accessToken
      ensures Retried(r, runs, accessToken, steps) == RequestRun(old(accessToken), envs, Config(), call, tokenJson)
    {
      ghost var all := AttemptsFrom(accessToken, envs, Config(), call, tokenJson);
      var res, trace := Invoke(envs, 0, call, tokenJson, accessToken);
      MadeOneMore(all, [], [], Attempted(res, accessToken, trace));
      runs, steps := [res], trace;
      while Continues(retryAttempts, |runs|, res)
        invariant 1 <= |runs| <= retryAttempts
        invariant res == runs[|runs| - 1]
        invariant forall i | 0 <= i < |runs| :: runs[i] == all[i].result
        invariant forall i | 0 <= i < |runs| - 1 :: Continues(retryAttempts, i + 1, runs[i])
        invariant accessToken == all[|runs| - 1].cache
        invariant steps == Traces(all[..|runs|])
        decreases retryAttempts - |runs|
      {
        res, trace := Invoke(envs, |runs|, call, tokenJson, old(accessToken));
        MadeOneMore(all, runs, steps, Attempted(res, accessToken, trace));
        ContinuesOneMore(retryAttempts, runs, res);
        runs, steps := runs + [res], steps + trace;
      }
      RequestRunOf(old(accessToken), envs, Config(), call, tokenJson, runs);
      r := Outcome(retryAttempts, runs);
    }

    /** GetAny: a GET of any path; the body comes back unchanged, an error
        wrapped. */
    method GetAny(envs: seq<AttemptEnv>, path: string, queryParams: map<string, QueryValue>,
                  tokenJson: Bytes -> Result<TokenResponse, string>)
      returns (r: Result<Bytes, Error>, runs: seq<Result<Bytes, Error>>, steps: seq<Step>)
      requires Ready(envs)
      modifies this`accessToken
      ensures var rr := RequestRun(old(accessToken), envs, Config(), Call("GET", path, queryParams, None), tokenJson);
        && runs == rr.runs && steps == rr.trace && accessToken == rr.cache
        && (rr.result.Ok? ==> r == rr.result)
        && (rr.result.Err? ==> r == Err(Wrapped("request with retry", rr.result.error)))
    {
      var data;
      data, runs, steps := RequestWithRetry(envs, Call("GET", path, queryParams, None), tokenJson);
      if data.Err? {
        return Err(Wrapped("request with retry", data.error)), runs, steps;
      }
      r := data;
    }
  }
}
