/** The request values shared by the client and the endpoints, and the
    helpers of http.go: the JSON body of a request, the success test on a
    status code, and the merge of a query-parameter map into a request's
    URL query. */
module Http {
  import opened Wrappers
  import Decimal

  newtype byte = x: int | 0 <= x < 256

  type Bytes = seq<byte>

  /** A URL query as `url.Values` holds it: each key with its values, in order. */
  type Values = map<string, seq<string>>

  /** A value in a query-parameter map (`map[string]any`). The string-kinded
      enumerations of the API are `Str`. Any other kind a caller of `GetAny`
      may pass (a float, a slice, nil, a named type) is `Other`, given by the
      text `%v` writes for it. */
  datatype QueryValue = Str(s: string) | Int(i: int) | Bool(b: bool) | Other(text: string)

  /** The text `fmt.Sprintf("%v", val)` gives a query value. */
  function FormatValue(v: QueryValue): (text: string)
    ensures v.Str? ==> text == v.s
    ensures v.Int? ==> Decimal.ParseInt(text) == Some(v.i) && Decimal.Canonical(text)
    ensures v.Bool? ==> (text == "true" <==> v.b) && (text == "false" <==> !v.b)
    ensures v.Other? ==> text == v.text
  {
    match v
    case Str(s) => s
    case Int(i) => Decimal.FormatInt(i)
    case Bool(b) => if b then "true" else "false"
    case Other(t) => t
  }

  /** The only request payload of the modelled core: the token endpoint's
      JSON object `{"refreshtoken": …}`. */
  datatype Payload = RefreshTokenPayload(refreshToken: string)

  datatype Body = NoBody | JsonBody(payload: Payload)

  datatype HttpRequest = HttpRequest(
    httpMethod: string,
    url: string,
    query: Values,
    header: map<string, string>,
    body: Body)

  /** buildJSONBody: a nil body becomes the empty body, with no error; any
      other body is sent as its JSON encoding. */
  function BuildJSONBody(body: Option<Payload>): (r: Body)
    ensures r == NoBody <==> body == None
    ensures body.Some? ==> r == JsonBody(body.value)
  {
    match body
    case None => NoBody
    case Some(p) => JsonBody(p)
  }

  /** isStatusSuccess: the status is of the 2xx class (section 15.3 of RFC 9110). */
  function IsStatusSuccess(status: int): (ok: bool)
    ensures ok <==> status / 100 == 2
  {
    status >= 200 && status < 300
  }

  function Lookup(q: Values, key: string): seq<string> {
    if key in q then q[key] else []
  }

  /** `url.Values.Add`: one more value after those the key already has. */
  function Add(q: Values, key: string, text: string): Values {
    q[key := Lookup(q, key) + [text]]
  }

  /** The key gains the text after the values it had; no other key changes. */
  lemma AddAppends(q: Values, key: string, text: string)
    ensures var r := Add(q, key, text);
      && r.Keys == q.Keys + {key}
      && |r[key]| > 0 && r[key][|r[key]| - 1] == text && r[key][..|r[key]| - 1] == Lookup(q, key)
      && forall k | k in q && k != key :: r[k] == q[k]
  {
  }

  /** The query `addQueryParams` leaves on a request whose URL query was `q`. */
  function AddedQuery(q: Values, params: map<string, QueryValue>): Values {
    map k | k in q.Keys + params.Keys ::
      Lookup(q, k) + (if k in params then [FormatValue(params[k])] else [])
  }

  /** Every key of the map is in the query, its last value the key's `%v` text. */
  ghost predicate Carries(query: Values, params: map<string, QueryValue>) {
    forall k | k in params ::
      k in query && |query[k]| > 0 && query[k][|query[k]| - 1] == FormatValue(params[k])
  }

  lemma AddedNothing(q: Values)
    ensures AddedQuery(q, map[]) == q
  {
    assert forall k | k in q :: AddedQuery(q, map[])[k] == q[k];
  }

  lemma AddedOneMore(q: Values, m: map<string, QueryValue>, k: string, v: QueryValue)
    requires k !in m
    ensures AddedQuery(q, m[k := v]) == Add(AddedQuery(q, m), k, FormatValue(v))
  {
    var a, b := AddedQuery(q, m[k := v]), Add(AddedQuery(q, m), k, FormatValue(v));
    assert a.Keys == b.Keys;
    forall j | j in a
      ensures a[j] == b[j]
    {
      if j == k {
        assert a[j] == Lookup(q, k) + [FormatValue(v)];
      }
    }
  }

  /** What the merged query keeps and what it gains. */
  lemma AddedQueryFacts(q: Values, params: map<string, QueryValue>)
    ensures AddedQuery(q, params).Keys == q.Keys + params.Keys
    ensures forall k | k in q :: q[k] <= AddedQuery(q, params)[k]
    ensures forall k | k in q && k !in params :: AddedQuery(q, params)[k] == q[k]
    ensures Carries(AddedQuery(q, params), params)
  {
    var r := AddedQuery(q, params);
    forall k | k in q
      ensures q[k] <= r[k]
    {
      assert r[k] == q[k] + (if k in params then [FormatValue(params[k])] else []);
    }
  }

  lemma MovedOutOfTodo(params: map<string, QueryValue>, todo: set<string>, k: string)
    requires k in todo && todo <= params.Keys
    ensures k !in params - todo
    ensures (params - todo)[k := params[k]] == params - (todo - {k})
  {
  }

  /** addQueryParams: an empty map leaves the request as it is; otherwise each
      key of the map gains its `%v` text after the values already on the URL,
      and the rest of the request is unchanged. */
  method AddQueryParams(req: HttpRequest, params: map<string, QueryValue>) returns (r: HttpRequest)
    ensures |params| == 0 ==> r == req
    ensures r == req.(query := AddedQuery(req.query, params))
    ensures r.query.Keys == req.query.Keys + params.Keys
    ensures forall k | k in req.query :: req.query[k] <= r.query[k]
    ensures forall k | k in req.query && k !in params :: r.query[k] == req.query[k]
    ensures Carries(r.query, params)
  {
    if |params| == 0 {
      AddedNothing(req.query);
      return req;
    }
    var q := req.query;
    var todo := params.Keys;
    AddedNothing(req.query);
    assert params - todo == map[];
    while todo != {}
      invariant todo <= params.Keys
      invariant q == AddedQuery(req.query, params - todo)
      decreases |todo|
    {
      var k :| k in todo;
      MovedOutOfTodo(params, todo, k);
      AddedOneMore(req.query, params - todo, k, params[k]);
      q := Add(q, k, FormatValue(params[k]));
      todo := todo - {k};
    }
    assert params - todo == params;
    r := req.(query := q);
    AddedQueryFacts(req.query, params);
  }
}
