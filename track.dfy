/** track.go: GetTrackIDs, the cross-platform identifiers of one track. The
    identifier records are a type parameter, their decoding and
    `url.PathEscape` function parameters. */
module Track {
  import opened Wrappers
  import opened Http
  import opened Errors
  import opened Paths
  import opened Client

  /** The endpoint path, with the track's id already path-escaped. */
  function TrackIDsPath(platform: string, escapedID: string): (path: string)
    ensures '/' !in platform && '/' !in escapedID ==>
              Split(path) == ["", "track", platform, escapedID, "get-ids"]
  {
    var path := "/track/" + platform + "/" + escapedID + "/get-ids";
    var parts := ["", "track", platform, escapedID, "get-ids"];
    assert Join(parts[3..]) == escapedID + "/get-ids";
    assert Join(parts[2..]) == platform + "/" + escapedID + "/get-ids";
    assert Join(parts[1..]) == "track/" + platform + "/" + escapedID + "/get-ids";
    assert Join(parts) == path;
    Segments(path, parts);
    path
  }

  /** The first identifier record, or an error naming the platform and id
      when the list is empty. */
  function SelectFirst<T>(platform: string, id: string, ids: seq<T>): (r: Result<T, Error>)
    ensures r.Ok? <==> |ids| > 0
    ensures r.Ok? ==> r.value == ids[0]
    ensures r.Err? ==> r.error == NoTrackIDs(platform, id) && !Retryable(r.error)
  {
    if |ids| == 0 then Err(NoTrackIDs(platform, id)) else Ok(ids[0])
  }

  /** What GetTrackIDs returns once the request is done. */
  function TrackIDsResult<T>(out: Result<Bytes, Error>, decode: Bytes -> Result<seq<T>, string>,
                             platform: string, id: string): (r: Result<T, Error>)
    ensures out.Err? ==> r == Err(Wrapped("request with retry", out.error))
    ensures r.Ok? <==> out.Ok? && decode(out.value).Ok? && |decode(out.value).value| > 0
    ensures r.Ok? ==> r.value == decode(out.value).value[0]
    ensures out.Ok? && decode(out.value) == Ok([]) ==> r == Err(NoTrackIDs(platform, id))
  {
    match DecodeResponse(out, decode)
    case Err(e) => Err(e)
    case Ok(ids) => SelectFirst(platform, id, ids)
  }

  /** GetTrackIDs: a GET with no query parameters and no body. */
  method GetTrackIDs<T>(c: Client, envs: seq<AttemptEnv>, platform: string, id: string,
                        pathEscape: string -> string,
                        tokenJson: Bytes -> Result<TokenResponse, string>,
                        decode: Bytes -> Result<seq<T>, string>)
    returns (r: Result<T, Error>, runs: seq<Result<Bytes, Error>>, steps: seq<Step>)
    requires c.Ready(envs)
    modifies c`accessToken
    ensures var rr := RequestRun(old(c.accessToken), envs, c.Config(),
                                 Call("GET", TrackIDsPath(platform, pathEscape(id)), map[], None), tokenJson);
      && runs == rr.runs && steps == rr.trace && c.accessToken == rr.cache
      && r == TrackIDsResult(rr.result, decode, platform, id)
  {
    var path := "/track/" + platform + "/" + pathEscape(id) + "/get-ids";
    var data;
    data, runs, steps := c.RequestWithRetry(envs, Call("GET", path, map[], None), tokenJson);
    if data.Err? {
      return Err(Wrapped("request with retry", data.error)), runs, steps;
    }
    var response := decode(data.value);
    if response.Err? {
      return Err(Wrapped("json unmarshal", Failed(response.error))), runs, steps;
    }
    if |response.value| == 0 {
      return Err(NoTrackIDs(platform, id)), runs, steps;
    }
    r := Ok(response.value[0]);
  }
}
