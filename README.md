# Chartmetric Go client: a Dafny model of its core

This project models the core of the Chartmetric API client for Go and proves properties of that model:

- **The `Client` configuration.** Its defaults and functional options (`NewClient`, `With…`).
- **The access-token cache.** `resolveAccessToken` reuses a token until it expires. Otherwise it fetches a new one through `fetchAccessToken`, with a five-second allowance.
- **The request pipeline `request`.** It resolves the token, builds the request with a bearer `Authorization` header and the query parameters, waits for the rate limiter, sends, and classifies the response.
- **The retry policy of `requestWithRetry`.** It applies to both layers: around `request`, and around the token fetch.
- **The HTTP helpers.** `isStatusSuccess`, `buildJSONBody` and `addQueryParams`.
- **The chart endpoints.** Their query-parameter maps and paths.
- **`GetTrackIDs`.** Its path and its first-element selection.
- **The `Limit` and `Offset` pagination options.**
- **The `Date` type.** Its `"YYYY-MM-DD"` JSON form.

Everything outside the package's own code is an input of the model:

- the clock;
- the token endpoint and the transport;
- the rate limiter's verdict;
- the parse of the request URL;
- JSON decoding.

One record per invocation describes what that invocation meets (`Client.FetchEnv`, `Client.AttemptEnv`). Decoders and `url.PathEscape` are function parameters. Times are integers counting nanoseconds, as `time.Duration` does.

Modules, one per Go file plus shared helpers:

| file | models |
|---|---|
| `client.dfy` | client.go: `Client` class, options, token cache, one request attempt |
| `retry.dfy` | the retry policy handed to the retry wrapper in client.go |
| `errors.dfy` | the client's error values and `errors.Is` over them |
| `http.dfy` | http.go and the request values shared by the rest |
| `chart.dfy` | chart.go endpoints |
| `track.dfy` | track.go |
| `params.dfy` | params.go |
| `date.dfy` | date.go |
| `decimal.dfy`, `paths.dfy`, `wrappers.dfy` | digit text, `/`-separated paths, `Option`/`Result` |

Three behaviours of the code are worth stating outright:

- **`fetchAccessToken` does not wait on the rate limiter** (client.go:195-238). Only `request` does (client.go:144). A token fetch is therefore not throttled. In `Client.Attempt`, only the request's own send is preceded by a `LimiterWait` step.
- **A token fetch that ran out of attempts on 429 or 503 makes the request's error retryable.** The fetch error is wrapped with `%w` twice: by "fetch access token" and by "resolve access token". The retry wrapper's error list reports `errors.Is` for any of its elements (`Errors.IsInList`). So the request's own retry policy retries it (`Client.TransientTokenFailureIsRetried`).
- **A failed run returns every attempt's error, not only the last.** The retry wrapper's list is modelled as `AllAttemptsFailed`.

## Model

| member | source | states |
|---|---|---|
| Client.ApplyOption | client.go:60-97 | each option sets exactly its own field; `WithRateLimitPerSec(n)` sets both rate and burst to n; nothing else changes |
| Client.SetsOwnAspect | client.go:60-97 | what an option sets does not depend on the configuration it is applied to |
| Client.UnsetAspectKept | client.go:41-58 | a field no option touches keeps its default, and the refresh token is never changed |
| Client.ApplyOptions | client.go:53-55 | the options applied in order never change the refresh token, and the last option sets its own aspect as it would alone |
| Client.LastOptionWins | client.go:53-55 | options apply in order: a field ends up as the last option that sets it leaves it |
| Client.Client.constructor | client.go:41-58 | `NewClient` gives the defaults (10 s timeout, the production base URL, 1 request/s with burst 1, 3 attempts, 700 ms delay), then applies each option in order; there is no token yet |
| Client.Client.Apply | client.go:53-55 | running one option closure changes the client's configuration as `ApplyOption` says and leaves the cached token alone |
| Client.Classify | client.go:154-170 | 429 and 503 map to the two transient errors before the body is read; any other status outside 2xx is a permanent error carrying code and body; 2xx returns the body bytes unchanged; an error is retryable iff the status is 429 or 503 |
| Client.Receive | client.go:148-151 | a transport failure is a permanent error; a response is classified |
| Client.FetchAccessToken | client.go:195-238 | the fetch succeeds iff the request builds, the response classifies as success and the body decodes; the token expires `expires_in` seconds after the clock less 5 s; its error is retryable iff the status was 429 or 503 |
| Client.NeedsFetch | client.go:174 | the cached token is reused iff there is one and the clock is not after its expiry (the expiry instant itself still reuses it) |
| Client.StaysExpired | client.go:174 | a token that needs renewing at one time needs it at every later time |
| Client.Resolve | client.go:173-193 | a fetch happens iff there is no token or the clock is past its expiry; otherwise the cached value is returned; a failed fetch leaves the cache as it was; a successful one replaces it with the last fetch's token and returns its value; at most `retryAttempts` fetches |
| Client.ResolveRetriesFetch | client.go:175-189 | an expired or missing token is fetched under the retry policy: the fetches made are the policy's run over what each fetch returns; resolution fails iff that run does, with its error wrapped as "fetch access token", and otherwise caches the run's token |
| Client.TokenReusedUntilAllowance | client.go:174-192 | a token fetched at T with `expires_in` 3600 is reused without a fetch through T + 3595 s and fetched again right after |
| Client.Client.ResolveAccessToken | client.go:173-193 | returns and stores exactly what `Resolve` gives for the old cache; only the cache changes |
| Client.Attempt | client.go:124-171 | the cache after an attempt is the one token resolution leaves, whatever the request then meets |
| Client.AttemptSteps | client.go:124-148 | steps are ordered as token fetches, then the limiter wait, then the send; the wait happens iff the token resolved and the request built; the send happens iff the limiter then granted a permit |
| Client.AttemptSendsBearer | client.go:135-148 | the request sent is the prepared one and carries `Authorization: Bearer <cached token>` |
| Client.AttemptResult | client.go:124-171 | a token failure is returned wrapped; an attempt that did not send is an error; a sent one returns the classified response; success implies a 2xx status and the body unchanged |
| Client.TransientTokenFailureIsRetried | client.go:125-128 | a token fetch that failed on 429 fails the attempt, before any send, with an error the request's retry policy retries |
| Client.AttemptConforms | client.go:135-142 | a sent request has the call's method, base URL + path, the call's body, the bearer header, the JSON content type and every query parameter |
| Client.PreparedConforms | client.go:139-142 | the built request carries the bearer header, the content type and the query parameters |
| Client.Client.Request | client.go:124-171 | returns, stores and does exactly what `Attempt` gives for the old cache |
| Client.Client.Finishing | client.go:126-171 | given the resolved token, the result and steps are exactly `Finish`'s: the token error wrapped, the request built with the bearer header, the limiter wait, the send and the classified response |
| Client.AttemptAt | client.go:110-114 | the i-th invocation of request is `Attempt` on the i-th record, starting from the cache the invocation before it left |
| Client.RequestRun | client.go:110-122 | the invocations made follow the retry policy with `retryAttempts`; the result is the policy's outcome |
| Client.RequestRunConforms | client.go:110-142 | every request sent in any invocation has the call's method, base URL + path and body, the bearer header, the JSON content type and every query parameter |
| Client.RequestRunMade | client.go:110-122 | the invocations made are the first attempts in order, each from the cache the one before it left; the cache at the end is the one the last invocation left |
| Client.RequestRunOf | client.go:110-122 | any list of invocation results that agrees with the attempts and follows the policy is the run `RequestRun` describes |
| Client.RateLimitedTwiceThenSucceeds | client.go:110-122 | with a valid token and three attempts, 429, 429, 200 sends the request three times, with no token fetch, and returns the third body |
| Client.NotFoundIsNotRetried | client.go:118-120 | a 404 is returned after one invocation, as a one-element error list, and the cache is kept |
| Client.CachedTokenAttempt | client.go:124-148 | with a valid cached token, a well-formed URL and a permit, an attempt fetches nothing, waits once, sends the prepared request once, keeps the cache and returns the classified response |
| Client.CachedTokenAttempts | client.go:110-148 | while the cached token stays valid, each of the first n invocations is such an attempt |
| Client.TracesOfThree | client.go:110-114 | the steps of three invocations are each invocation's steps in order |
| Client.Client.Invoke | client.go:111-113 | the n-th invocation returns, stores and does exactly what the n-th attempt does from the cache the invocations before it left |
| Client.Client.RequestWithRetry | client.go:110-122 | returns, stores and does exactly what `RequestRun` gives for the cache before the call |
| Client.Client.GetAny | client.go:101-108 | a GET under the retry policy, as `RequestRun` describes it; the body is returned unchanged and an error wrapped |
| Client.DecodeResponse | chart.go:85-95 | a failed request is returned wrapped without decoding; a decode failure is a permanent error; otherwise the decoded value |
| Errors.IsInList | client.go:118-120 | `errors.Is` on the retry wrapper's error list finds a target iff one of the attempts' errors is or wraps it |
| Errors.IsTransitive | client.go:118-120 | wrapping by `%w` or in a retry list never hides an error from `errors.Is` |
| Errors.Retryable | client.go:118-120 | only the rate-limit and unavailable errors are retried, through any wrapping; permanent errors are not |
| Retry.Outcome | client.go:110-122 | the run succeeds iff its last invocation did, with that value; a failed run's error is the list of every attempt's error, in order, and is retryable iff the first attempt's was |
| Retry.FailedRunIsEveryError | client.go:110-122 | to `errors.Is`, a failed run's error is each attempt's error, the last one included |
| Retry.Run | client.go:110-122 | the invocations made are a prefix of the possible results, at most `attempts` long; all but the last failed retryably; the last stops the policy |
| Retry.RunIsUnique | client.go:110-122 | the results of the invocations determine the run |
| Retry.ThirdAttemptSucceeds | client.go:111-121 | 429, 429, 200 succeeds with three attempts and ends in a retryable error with two |
| Retry.PermanentErrorIsNotRetried | client.go:118-120 | a permanent error (a 404, say) ends the run after one invocation |
| Http.FormatValue | http.go:47 | the `%v` text of a query value: strings as they are; integers as their shortest decimal text, which reads back as the same number; booleans as `true`/`false`; any other kind as the text given for it |
| Decimal.FormatInt | http.go:47 | the decimal text of an integer reads back as that integer, has no leading zero and starts with '-' iff the integer is negative |
| Decimal.DigitsUnique | http.go:47 | a digit string with no leading zero is the shortest spelling of the number it reads as |
| Decimal.CanonicalIsUnique | http.go:47 | any shortest decimal text that reads as i is `FormatInt(i)`: the text is determined by the number |
| Http.BuildJSONBody | http.go:11-22 | a nil body becomes the empty body, and any other body its JSON payload |
| Http.IsStatusSuccess | http.go:34-38 | true iff the status is in the 2xx class |
| Http.AddQueryParams | http.go:40-51 | an empty map leaves the request unchanged; otherwise the query keeps every value already on the URL and gains each key's `%v` text; nothing else changes |
| Http.AddAppends | http.go:47 | `url.Values.Add`: the key gains the text after its earlier values; every other key is unchanged |
| Http.AddedQueryFacts | http.go:45-50 | the merged query's keys are the URL's plus the map's; old values stay a prefix; untouched keys are unchanged; each map key ends with its value |
| Chart.CountriesPath | chart.go:69 | the path splits into `charts`, the platform and `countries` |
| Chart.CountriesQuery | chart.go:71-83 | nil params give no map; otherwise `chart_type`, `type` and `duration` are present iff their field is non-empty, with that value, and no other key is |
| Chart.BuildCountriesQuery | chart.go:71-83 | the guarded inserts build the map `CountriesQuery` describes |
| Chart.GetChartCountries | chart.go:68-96 | a GET of the countries path with that query, run as `RequestRun` describes, with runs, steps and the final cache as it gives them; the result is the decoded list, or the request error wrapped without decoding |
| Chart.DateText | chart.go:178 | a date parameter's text parses back to the date |
| Chart.TracksSpotifyQuery | chart.go:177-187 | `date`, `country_code`, `type` and `interval` are always present; `offset` and `latest` are present iff set; no other key is |
| Chart.BuildTracksSpotifyQuery | chart.go:177-187 | the inserts build the map `TracksSpotifyQuery` describes |
| Chart.GetChartTracksSpotify | chart.go:174-200 | a GET of `/charts/spotify` with that query, run as `RequestRun` describes, and the decoded list or the wrapped error |
| Chart.ArtistsSpotifyQuery | chart.go:275-284 | `date`, `type` and `interval` are always present; `offset` and `latest` iff set; never `country_code` |
| Chart.BuildArtistsSpotifyQuery | chart.go:275-284 | the inserts build the map `ArtistsSpotifyQuery` describes |
| Chart.GetChartArtistsSpotify | chart.go:272-297 | a GET of `/charts/spotify/artists` with that query, run as `RequestRun` describes, and the decoded list or the wrapped error |
| Chart.ChartPath | chart.go:375 | `/charts/<platform>/<type>`, the TikTok path here and the Apple Music path at chart.go:493: it splits into `charts`, the platform and the chart type |
| Chart.TikTokHead | chart.go:377-387 | `date` always; `interval`, `type` (the user type) and `limit` iff set |
| Chart.TikTokTail | chart.go:388-399 | `offset`, `latest`, `country_chart` and `code2` (the country code) are added iff set; other keys are kept |
| Chart.TikTokQuery | chart.go:377-399 | `date` always; every other key iff its field is set; no other key |
| Chart.BuildTikTokQuery | chart.go:377-399 | the inserts build the map `TikTokQuery` describes |
| Chart.GetChartEntriesTikTok | chart.go:374-412 | a GET of `ChartPath("tiktok", chart type)` with that query, run as `RequestRun` describes, and the decoded list or the wrapped error |
| Chart.AppleMusicQuery | chart.go:495-512 | `country_code` and `date` always; `type`, `city_id`, `genre`, `offset` and `latest` iff set; no other key |
| Chart.BuildAppleMusicQuery | chart.go:495-512 | the inserts build the map `AppleMusicQuery` describes |
| Chart.GetChartEntriesAppleMusic | chart.go:492-525 | a GET of `ChartPath("applemusic", chart type)` (chart.go:493) with that query, run as `RequestRun` describes, and the decoded list or the wrapped error |
| Paths.SplitJoin | track.go:53 | splitting a joined path gives back its segments when none holds a `/` |
| Track.TrackIDsPath | track.go:53 | the path splits into `track`, the platform, the escaped id and `get-ids` |
| Track.SelectFirst | track.go:65-69 | an empty list is an error naming platform and id, never retried; otherwise the first element |
| Track.TrackIDsResult | track.go:56-69 | a request error is returned wrapped without decoding; success iff the body decodes to a non-empty list, giving its first element |
| Track.GetTrackIDs | track.go:52-70 | a GET of the track path with no query parameters and no body, run as `RequestRun` describes, and the result `TrackIDsResult` describes |
| Params.ApplyParam | params.go:6-17 | `Limit(n)` sets `limit` and `Offset(n)` sets `offset` to n; every other key is unchanged |
| Params.LaterParamWins | params.go:8 | the same option twice leaves the later number; with equal numbers it is idempotent |
| Params.ParamsCommute | params.go:6-17 | `Limit` and `Offset` commute |
| Params.QueryParams.Apply | params.go:7-9 | one option closure writes the caller's map as `ApplyParam` says |
| Dates.Format | date.go:9 | a date with a four-digit year formats as ten characters, `YYYY-MM-DD` |
| Dates.Parse | date.go:22 | only canonical text is accepted: the parsed date has a four-digit year and formats back to the input |
| Dates.ParseFormat | date.go:22 | formatting then parsing gives back the date |
| Dates.ParseIffFormatted | date.go:22 | `Parse(s) == d` iff d has a four-digit year and formats as s |
| Dates.TrimQuotes | date.go:17 | the result neither starts nor ends with `"` |
| Dates.TrimLeading | date.go:17 | it drops exactly the leading run of `"` |
| Dates.TrimTrailing | date.go:17 | it drops exactly the trailing run of `"` |
| Dates.TrimQuotesOfQuoted | date.go:17 | any number of quotes around a text is removed, and the text comes back whole |
| Dates.DecodeText | date.go:18-28 | empty or `null` is a no-op; a parsed date is canonical; a parse error is permanent |
| Dates.QuotesIgnored | date.go:17-21 | decoding does not depend on how many quotes surround the value |
| Dates.Quoted | date.go:37 | `%q` of the date text: the text between two quote characters |
| Dates.Marshal | date.go:32-38 | the JSON text is the formatted date between quotes, 12 characters for a four-digit year |
| Dates.MarshalRoundTrip | date.go:16-38 | unmarshalling what `MarshalJSON` writes gives the same date |
| Dates.Date.constructor | date.go:12-14 | the zero `Date` is January 1 of year 1 |
| Dates.Date.UnmarshalJSON | date.go:16-30 | empty or `null` leaves the date unchanged with no error; a well-formed value replaces it; anything else is an error that leaves it unchanged |
| Dates.Date.MarshalJSON | date.go:32-34 | for a four-digit year, its output decodes back to the date |
| Dates.Date.String | date.go:36-38 | for a four-digit year, twelve characters: a quote, the formatted date, a quote |

## Left out

- **Network I/O.** `http.NewRequestWithContext`, `http.Client.Do`, the response body read and its close are not modelled. Their outcomes are inputs: the URL parse is `newRequest`/`requestError`, the transport's result is `Exchange`.
- **The rate limiter's token bucket.** The limiter's rate and burst are kept as configuration. Each wait is an input that either grants a permit or fails. `WithRateLimitPerSec` replaces the limiter, and that is modelled only as setting the two numbers.
- **The `*http.Client`.** It is kept only as its timeout, which nothing in the model enforces.
- **Retry delay and cancellation.** The delay between retries and context cancellation are not modelled, nor is the run being cut short by a cancelled context.
- Client.Client.RequestWithRetry: requires at least one attempt. `Attempts(0)` means "retry until success" to the retry wrapper and is not modelled. The same holds for `Client.Client.ResolveAccessToken`, `Client.Client.Request` and the endpoint methods.
- Client.FetchAccessToken: `expires_in` times one second is computed on unbounded integers. The source's `time.Duration` is 64 bits wide and can overflow for absurd `expires_in` values.
- Client.FetchAccessToken: the token request itself is not recorded in the trace. It is a POST to base URL + `/token` with the refresh-token payload and no `Authorization` header. Only its outcome is modelled, so `Http.Payload` and a `JsonBody` request body are produced by no modelled call: they appear only in the contract of `Http.BuildJSONBody`.
- **JSON encoding and decoding.** Decoding is a function parameter. The `json marshal` error branch of `buildJSONBody` cannot occur for the two bodies the package sends (nil and the refresh-token object), so it is not modelled.
- Http.FormatValue: query values of a kind other than string, int and bool (floats, slices, nil, named types passed to `Client.Client.GetAny` and merged by `Http.AddQueryParams`) are `QueryValue.Other`, whose `%v` text is an input; how `fmt` formats them is not modelled.
- **`url.Values.Encode` and `url.PathEscape`.** The sent query is the `url.Values` map itself. Because every map key is added once, the order in which Go iterates the map does not matter. `url.PathEscape` is a function parameter of `GetTrackIDs`.
- **Error message texts.** Errors are modelled by their structure: the wrapping context, the sentinel errors, the status and body of a non-success response. Messages from outside the package are an opaque `Failed(reason)`.
- **Concurrency.** Concurrent use of one client is not modelled. The source does not lock the token cache.
- **Endpoint shape.** The endpoint methods of `*Client` in chart.go and track.go are module-level methods that take the client, because a Dafny class cannot gain methods in another module.
- Chart.DateText: a `time.Time` parameter is modelled as its calendar day. The time of day and the location do not affect the `2006-01-02` text, except through the calendar day they fall on.
- **Go's time layouts.** Only `2006-01-02` is modelled. A `Date`'s time of day and location are not modelled, and the JSON text is taken as a string of characters.
- **Out-of-scope files.** The response record types of chart.go and track.go, the enumeration constants, common.go (`Optional` is `Option`) and the test harness are not part of this model.
