/** chart.go: the chart endpoints. Each one builds its query-parameter map
    by guarded inserts, then issues a GET through the retry pipeline and
    decodes the list it returns. The response records are a type parameter
    and their decoding a function parameter; a date parameter is the
    calendar day `time.Time.Format(DateFormat)` writes. */
module Chart {
  import opened Wrappers
  import opened Http
  import opened Errors
  import opened Paths
  import opened Dates
  import opened Client

  /** The map with `key` set when the value is set, and otherwise as it was. */
  function Put(m: map<string, QueryValue>, key: string, v: Option<QueryValue>): map<string, QueryValue> {
    if v.Some? then m[key := v.value] else m
  }

  function IntValue(o: Option<int>): Option<QueryValue> {
    if o.Some? then Some(Int(o.value)) else None
  }

  function BoolValue(o: Option<bool>): Option<QueryValue> {
    if o.Some? then Some(Bool(o.value)) else None
  }

  /** A string selector whose empty value means unset. */
  function NonEmpty(s: string): Option<QueryValue> {
    if s != "" then Some(Str(s)) else None
  }

  function StrValue(o: Option<string>): Option<QueryValue> {
    if o.Some? then Some(Str(o.value)) else None
  }

  /** The text of a date query parameter: names the `params.Date.Format(DateFormat)`
      call of each chart endpoint, which is `Dates.Format` of the calendar day. */
  function DateText(d: Day): (s: string)
    ensures 0 <= d.year <= 9999 ==> Parse(s) == Some(d)
  {
    if 0 <= d.year <= 9999 then ParseFormat(d); Format(d) else Format(d)
  }

  // ---------------------------------------------------------------------------
  // GetChartCountries

  /** The three optional selectors; the empty string means unset. */
  datatype CountriesParams = CountriesParams(chartType: string, subType: string, duration: string)

  function CountriesPath(platform: string): (path: string)
    ensures '/' !in platform ==> Split(path) == ["", "charts", platform, "countries"]
  {
    var path := "/charts/" + platform + "/countries";
    assert Join([platform, "countries"]) == platform + "/countries";
    assert Join(["charts", platform, "countries"]) == "charts/" + platform + "/countries";
    assert Join(["", "charts", platform, "countries"]) == path;
    Segments(path, ["", "charts", platform, "countries"]);
    path
  }

  /** No params give no map at all; otherwise each key is present exactly
      when its field is non-empty, and holds that field. */
  function CountriesQuery(params: Option<CountriesParams>): (q: Option<map<string, QueryValue>>)
    ensures q.None? <==> params.None?
    ensures q.Some? ==>
              var p := params.value;
              && q.value.Keys <= {"chart_type", "type", "duration"}
              && ("chart_type" in q.value <==> p.chartType != "")
              && ("type" in q.value <==> p.subType != "")
              && ("duration" in q.value <==> p.duration != "")
              && (p.chartType != "" ==> q.value["chart_type"] == Str(p.chartType))
              && (p.subType != "" ==> q.value["type"] == Str(p.subType))
              && (p.duration != "" ==> q.value["duration"] == Str(p.duration))
  {
    match params
    case None => None
    case Some(p) =>
      var m := Put(map[], "chart_type", NonEmpty(p.chartType));
      var m := Put(m, "type", NonEmpty(p.subType));
      Some(Put(m, "duration", NonEmpty(p.duration)))
  }

  method BuildCountriesQuery(params: Option<CountriesParams>) returns (q: Option<map<string, QueryValue>>)
    ensures q == CountriesQuery(params)
  {
    if params.None? {
      return None;
    }
    var p := params.value;
    var m: map<string, QueryValue> := map[];
    if p.chartType != "" {
      m := m["chart_type" := Str(p.chartType)];
    }
    if p.subType != "" {
      m := m["type" := Str(p.subType)];
    }
    if p.duration != "" {
      m := m["duration" := Str(p.duration)];
    }
    q := Some(m);
  }

  /** GetChartCountries. A nil map and an empty one leave the request URL
      alike, so both are sent as the empty map. */
  method GetChartCountries(c: Client, envs: seq<AttemptEnv>, platform: string, params: Option<CountriesParams>,
                           tokenJson: Bytes -> Result<TokenResponse, string>,
                           decode: Bytes -> Result<seq<string>, string>)
    returns (r: Result<seq<string>, Error>, runs: seq<Result<Bytes, Error>>, steps: seq<Step>)
    requires c.Ready(envs)
    modifies c`accessToken
    ensures var rr := RequestRun(old(c.accessToken), envs, c.Config(), Call("GET", CountriesPath(platform), CountriesQuery(params).GetOr(map[]), None), tokenJson);
      && runs == rr.runs && steps == rr.trace && c.accessToken == rr.cache
      && r == DecodeResponse(rr.result, decode)
  {
    var path := "/charts/" + platform + "/countries";
    var queryParams := BuildCountriesQuery(params);
    var data;
    data, runs, steps := c.RequestWithRetry(envs, Call("GET", path, queryParams.GetOr(map[]), None), tokenJson);
    r := DecodeResponse(data, decode);
  }

  // ---------------------------------------------------------------------------
  // GetChartTracksSpotify

  datatype TracksSpotifyParams = TracksSpotifyParams(
    date: Day,
    countryCode: string,
    chartType: string,
    interval: string,
    offset: Option<int>,
    latest: Option<bool>)

  const TracksSpotifyPath: string := "/charts/spotify"

  /** date, country_code, type and interval always; offset and latest when set. */
  function TracksSpotifyQuery(p: TracksSpotifyParams): (q: map<string, QueryValue>)
    ensures q.Keys <= {"date", "country_code", "type", "interval", "offset", "latest"}
    ensures "date" in q && q["date"] == Str(DateText(p.date))
    ensures "country_code" in q && q["country_code"] == Str(p.countryCode)
    ensures "type" in q && q["type"] == Str(p.chartType)
    ensures "interval" in q && q["interval"] == Str(p.interval)
    ensures "offset" in q <==> p.offset.Some?
    ensures p.offset.Some? ==> q["offset"] == Int(p.offset.value)
    ensures "latest" in q <==> p.latest.Some?
    ensures p.latest.Some? ==> q["latest"] == Bool(p.latest.value)
  {
    var m := map["date" := Str(DateText(p.date)), "country_code" := Str(p.countryCode),
                 "type" := Str(p.chartType), "interval" := Str(p.interval)];
    Put(Put(m, "offset", IntValue(p.offset)), "latest", BoolValue(p.latest))
  }

  method BuildTracksSpotifyQuery(p: TracksSpotifyParams) returns (q: map<string, QueryValue>)
    ensures q == TracksSpotifyQuery(p)
  {
    q := map[];
    q := q["date" := Str(DateText(p.date))];
    q := q["country_code" := Str(p.countryCode)];
    q := q["type" := Str(p.chartType)];
    q := q["interval" := Str(p.interval)];
    if p.offset.Some? {
      q := q["offset" := Int(p.offset.value)];
    }
    if p.latest.Some? {
      q := q["latest" := Bool(p.latest.value)];
    }
  }

  method GetChartTracksSpotify<T>(c: Client, envs: seq<AttemptEnv>, p: TracksSpotifyParams,
                                  tokenJson: Bytes -> Result<TokenResponse, string>,
                                  decode: Bytes -> Result<seq<T>, string>)
    returns (r: Result<seq<T>, Error>, runs: seq<Result<Bytes, Error>>, steps: seq<Step>)
    requires c.Ready(envs)
    modifies c`accessToken
    ensures var rr := RequestRun(old(c.accessToken), envs, c.Config(), Call("GET", TracksSpotifyPath, TracksSpotifyQuery(p), None), tokenJson);
      && runs == rr.runs && steps == rr.trace && c.accessToken == rr.cache
      && r == DecodeResponse(rr.result, decode)
  {
    var queryParams := BuildTracksSpotifyQuery(p);
    var data;
    data, runs, steps := c.RequestWithRetry(envs, Call("GET", TracksSpotifyPath, queryParams, None), tokenJson);
    r := DecodeResponse(data, decode);
  }

  // ---------------------------------------------------------------------------
  // GetChartArtistsSpotify

  datatype ArtistsSpotifyParams = ArtistsSpotifyParams(
    date: Day,
    chartType: string,
    interval: string,
    offset: Option<int>,
    latest: Option<bool>)

  const ArtistsSpotifyPath: string := "/charts/spotify/artists"

  /** date, type and interval always; offset and latest when set; never a
      country code. */
  function ArtistsSpotifyQuery(p: ArtistsSpotifyParams): (q: map<string, QueryValue>)
    ensures q.Keys <= {"date", "type", "interval", "offset", "latest"}
    ensures "country_code" !in q
    ensures "date" in q && q["date"] == Str(DateText(p.date))
    ensures "type" in q && q["type"] == Str(p.chartType)
    ensures "interval" in q && q["interval"] == Str(p.interval)
    ensures "offset" in q <==> p.offset.Some?
    ensures p.offset.Some? ==> q["offset"] == Int(p.offset.value)
    ensures "latest" in q <==> p.latest.Some?
    ensures p.latest.Some? ==> q["latest"] == Bool(p.latest.value)
  {
    var m := map["date" := Str(DateText(p.date)), "type" := Str(p.chartType), "interval" := Str(p.interval)];
    Put(Put(m, "offset", IntValue(p.offset)), "latest", BoolValue(p.latest))
  }

  method BuildArtistsSpotifyQuery(p: ArtistsSpotifyParams) returns (q: map<string, QueryValue>)
    ensures q == ArtistsSpotifyQuery(p)
  {
    q := map[];
    q := q["date" := Str(DateText(p.date))];
    q := q["type" := Str(p.chartType)];
    q := q["interval" := Str(p.interval)];
    if p.offset.Some? {
      q := q["offset" := Int(p.offset.value)];
    }
    if p.latest.Some? {
      q := q["latest" := Bool(p.latest.value)];
    }
  }

  method GetChartArtistsSpotify<T>(c: Client, envs: seq<AttemptEnv>, p: ArtistsSpotifyParams,
                                   tokenJson: Bytes -> Result<TokenResponse, string>,
                                   decode: Bytes -> Result<seq<T>, string>)
    returns (r: Result<seq<T>, Error>, runs: seq<Result<Bytes, Error>>, steps: seq<Step>)
    requires c.Ready(envs)
    modifies c`accessToken
    ensures var rr := RequestRun(old(c.accessToken), envs, c.Config(), Call("GET", ArtistsSpotifyPath, ArtistsSpotifyQuery(p), None), tokenJson);
      && runs == rr.runs && steps == rr.trace && c.accessToken == rr.cache
      && r == DecodeResponse(rr.result, decode)
  {
    var queryParams := BuildArtistsSpotifyQuery(p);
    var data;
    data, runs, steps := c.RequestWithRetry(envs, Call("GET", ArtistsSpotifyPath, queryParams, None), tokenJson);
    r := DecodeResponse(data, decode);
  }

  // ---------------------------------------------------------------------------
  // GetChartEntriesTikTok

  datatype TikTokParams = TikTokParams(
    chartType: string,
    date: Day,
    interval: Option<string>,
    userType: Option<string>,
    limit: Option<int>,
    offset: Option<int>,
    latest: Option<bool>,
    countryChart: Option<bool>,
    countryCode: Option<string>)

  /** The path of a platform's chart of one type, `/charts/<platform>/<type>`. */
  function ChartPath(platform: string, chartType: string): (path: string)
    ensures '/' !in platform && '/' !in chartType ==> Split(path) == ["", "charts", platform, chartType]
  {
    var path := "/charts/" + platform + "/" + chartType;
    assert Join([platform, chartType]) == platform + "/" + chartType;
    assert Join(["charts", platform, chartType]) == "charts/" + platform + "/" + chartType;
    assert Join(["", "charts", platform, chartType]) == path;
    Segments(path, ["", "charts", platform, chartType]);
    path
  }

  /** The first inserts: date always; interval, type (the user type) and
      limit when set. */
  function TikTokHead(p: TikTokParams): (q: map<string, QueryValue>)
    ensures q.Keys <= {"date", "interval", "type", "limit"}
    ensures "date" in q && q["date"] == Str(DateText(p.date))
    ensures "interval" in q <==> p.interval.Some?
    ensures p.interval.Some? ==> q["interval"] == Str(p.interval.value)
    ensures "type" in q <==> p.userType.Some?
    ensures p.userType.Some? ==> q["type"] == Str(p.userType.value)
    ensures "limit" in q <==> p.limit.Some?
    ensures p.limit.Some? ==> q["limit"] == Int(p.limit.value)
  {
    var m := map["date" := Str(DateText(p.date))];
    var m := Put(Put(m, "interval", StrValue(p.interval)), "type", StrValue(p.userType));
    Put(m, "limit", IntValue(p.limit))
  }

  /** The remaining inserts on a map: offset, latest, country_chart and
      code2 (the country code) when set; the other keys are kept. */
  function TikTokTail(p: TikTokParams, m: map<string, QueryValue>): (q: map<string, QueryValue>)
    ensures q.Keys <= m.Keys + {"offset", "latest", "country_chart", "code2"}
    ensures forall k | k in m && k !in {"offset", "latest", "country_chart", "code2"} :: k in q && q[k] == m[k]
    ensures "offset" in q <==> "offset" in m || p.offset.Some?
    ensures p.offset.Some? ==> q["offset"] == Int(p.offset.value)
    ensures "latest" in q <==> "latest" in m || p.latest.Some?
    ensures p.latest.Some? ==> q["latest"] == Bool(p.latest.value)
    ensures "country_chart" in q <==> "country_chart" in m || p.countryChart.Some?
    ensures p.countryChart.Some? ==> q["country_chart"] == Bool(p.countryChart.value)
    ensures "code2" in q <==> "code2" in m || p.countryCode.Some?
    ensures p.countryCode.Some? ==> q["code2"] == Str(p.countryCode.value)
  {
    var m := Put(Put(m, "offset", IntValue(p.offset)), "latest", BoolValue(p.latest));
    Put(Put(m, "country_chart", BoolValue(p.countryChart)), "code2", StrValue(p.countryCode))
  }

  /** date always; every other key when its field is set. */
  function TikTokQuery(p: TikTokParams): (q: map<string, QueryValue>)
    ensures q.Keys <= {"date", "interval", "type", "limit", "offset", "latest", "country_chart", "code2"}
    ensures "date" in q && q["date"] == Str(DateText(p.date))
    ensures "interval" in q <==> p.interval.Some?
    ensures p.interval.Some? ==> q["interval"] == Str(p.interval.value)
    ensures "type" in q <==> p.userType.Some?
    ensures p.userType.Some? ==> q["type"] == Str(p.userType.value)
    ensures "limit" in q <==> p.limit.Some?
    ensures p.limit.Some? ==> q["limit"] == Int(p.limit.value)
    ensures "offset" in q <==> p.offset.Some?
    ensures p.offset.Some? ==> q["offset"] == Int(p.offset.value)
    ensures "latest" in q <==> p.latest.Some?
    ensures p.latest.Some? ==> q["latest"] == Bool(p.latest.value)
    ensures "country_chart" in q <==> p.countryChart.Some?
    ensures p.countryChart.Some? ==> q["country_chart"] == Bool(p.countryChart.value)
    ensures "code2" in q <==> p.countryCode.Some?
    ensures p.countryCode.Some? ==> q["code2"] == Str(p.countryCode.value)
  {
    TikTokTail(p, TikTokHead(p))
  }

  method BuildTikTokQuery(p: TikTokParams) returns (q: map<string, QueryValue>)
    ensures q == TikTokQuery(p)
  {
    q := map[];
    q := q["date" := Str(DateText(p.date))];
    if p.interval.Some? {
      q := q["interval" := Str(p.interval.value)];
    }
    if p.userType.Some? {
      q := q["type" := Str(p.userType.value)];
    }
    if p.limit.Some? {
      q := q["limit" := Int(p.limit.value)];
    }
    ghost var head := q;
    assert head == TikTokHead(p);
    if p.offset.Some? {
      q := q["offset" := Int(p.offset.value)];
    }
    if p.latest.Some? {
      q := q["latest" := Bool(p.latest.value)];
    }
    ghost var middle := q;
    assert middle == Put(Put(head, "offset", IntValue(p.offset)), "latest", BoolValue(p.latest));
    if p.countryChart.Some? {
      q := q["country_chart" := Bool(p.countryChart.value)];
    }
    ghost var third := q;
    assert third == Put(middle, "country_chart", BoolValue(p.countryChart));
    if p.countryCode.Some? {
      q := q["code2" := Str(p.countryCode.value)];
    }
    assert q == Put(third, "code2", StrValue(p.countryCode));
  }

  method GetChartEntriesTikTok<T>(c: Client, envs: seq<AttemptEnv>, p: TikTokParams,
                                  tokenJson: Bytes -> Result<TokenResponse, string>,
                                  decode: Bytes -> Result<seq<T>, string>)
    returns (r: Result<seq<T>, Error>, runs: seq<Result<Bytes, Error>>, steps: seq<Step>)
    requires c.Ready(envs)
    modifies c`accessToken
    ensures var rr := RequestRun(old(c.accessToken), envs, c.Config(), Call("GET", ChartPath("tiktok", p.chartType), TikTokQuery(p), None), tokenJson);
      && runs == rr.runs && steps == rr.trace && c.accessToken == rr.cache
      && r == DecodeResponse(rr.result, decode)
  {
    var path := ChartPath("tiktok", p.chartType);
    var queryParams := BuildTikTokQuery(p);
    var data;
    data, runs, steps := c.RequestWithRetry(envs, Call("GET", path, queryParams, None), tokenJson);
    r := DecodeResponse(data, decode);
  }

  // ---------------------------------------------------------------------------
  // GetChartEntriesAppleMusic

  datatype AppleMusicParams = AppleMusicParams(
    chartType: string,
    tracksType: Option<string>,
    countryCode: string,
    cityId: Option<string>,
    date: Day,
    genre: Option<string>,
    offset: Option<int>,
    latest: Option<bool>)

  /** country_code and date always; type, city_id, genre, offset and latest
      when set. */
  function AppleMusicQuery(p: AppleMusicParams): (q: map<string, QueryValue>)
    ensures q.Keys <= {"type", "country_code", "city_id", "date", "genre", "offset", "latest"}
    ensures "country_code" in q && q["country_code"] == Str(p.countryCode)
    ensures "date" in q && q["date"] == Str(DateText(p.date))
    ensures "type" in q <==> p.tracksType.Some?
    ensures p.tracksType.Some? ==> q["type"] == Str(p.tracksType.value)
    ensures "city_id" in q <==> p.cityId.Some?
    ensures p.cityId.Some? ==> q["city_id"] == Str(p.cityId.value)
    ensures "genre" in q <==> p.genre.Some?
    ensures p.genre.Some? ==> q["genre"] == Str(p.genre.value)
    ensures "offset" in q <==> p.offset.Some?
    ensures p.offset.Some? ==> q["offset"] == Int(p.offset.value)
    ensures "latest" in q <==> p.latest.Some?
    ensures p.latest.Some? ==> q["latest"] == Bool(p.latest.value)
  {
    var m := Put(map[], "type", StrValue(p.tracksType));
    var m := Put(m["country_code" := Str(p.countryCode)], "city_id", StrValue(p.cityId));
    var m := Put(m["date" := Str(DateText(p.date))], "genre", StrValue(p.genre));
    Put(Put(m, "offset", IntValue(p.offset)), "latest", BoolValue(p.latest))
  }

  method BuildAppleMusicQuery(p: AppleMusicParams) returns (q: map<string, QueryValue>)
    ensures q == AppleMusicQuery(p)
  {
    q := map[];
    if p.tracksType.Some? {
      q := q["type" := Str(p.tracksType.value)];
    }
    q := q["country_code" := Str(p.countryCode)];
    if p.cityId.Some? {
      q := q["city_id" := Str(p.cityId.value)];
    }
    q := q["date" := Str(DateText(p.date))];
    if p.genre.Some? {
      q := q["genre" := Str(p.genre.value)];
    }
    if p.offset.Some? {
      q := q["offset" := Int(p.offset.value)];
    }
    if p.latest.Some? {
      q := q["latest" := Bool(p.latest.value)];
    }
  }

  method GetChartEntriesAppleMusic<T>(c: Client, envs: seq<AttemptEnv>, p: AppleMusicParams,
                                      tokenJson: Bytes -> Result<TokenResponse, string>,
                                      decode: Bytes -> Result<seq<T>, string>)
    returns (r: Result<seq<T>, Error>, runs: seq<Result<Bytes, Error>>, steps: seq<Step>)
    requires c.Ready(envs)
    modifies c`accessToken
    ensures var rr := RequestRun(old(c.accessToken), envs, c.Config(), Call("GET", ChartPath("applemusic", p.chartType), AppleMusicQuery(p), None), tokenJson);
      && runs == rr.runs && steps == rr.trace && c.accessToken == rr.cache
      && r == DecodeResponse(rr.result, decode)
  {
    var path := ChartPath("applemusic", p.chartType);
    var queryParams := BuildAppleMusicQuery(p);
    var data;
    data, runs, steps := c.RequestWithRetry(envs, Call("GET", path, queryParams, None), tokenJson);
    r := DecodeResponse(data, decode);
  }
}
