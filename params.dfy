/** params.go: pagination options that each write one key of a caller's
    query-parameter map in place. */
module Params {
  import opened Http

  datatype ParamOption = Limit(n: int) | Offset(n: int)

  function Key(o: ParamOption): string {
    match o
    case Limit(_) => "limit"
    case Offset(_) => "offset"
  }

  /** The map after one option: its key holds the option's number and every
      other key is as it was. */
  function ApplyParam(m: map<string, QueryValue>, o: ParamOption): (r: map<string, QueryValue>)
    ensures o.Limit? ==> "limit" in r && r["limit"] == Int(o.n)
    ensures o.Offset? ==> "offset" in r && r["offset"] == Int(o.n)
    ensures r.Keys == m.Keys + {Key(o)}
    ensures forall k | k in m && k != Key(o) :: r[k] == m[k]
  {
    m[Key(o) := Int(o.n)]
  }

  /** Applying options of the same kind twice leaves the later number; with
      equal numbers a second application changes nothing. */
  lemma LaterParamWins(m: map<string, QueryValue>, first: ParamOption, second: ParamOption)
    requires Key(first) == Key(second)
    ensures ApplyParam(ApplyParam(m, first), second) == ApplyParam(m, second)
    ensures first == second ==> ApplyParam(ApplyParam(m, first), second) == ApplyParam(m, first)
  {
  }

  /** Limit and Offset write different keys, so their order does not matter. */
  lemma ParamsCommute(m: map<string, QueryValue>, a: ParamOption, b: ParamOption)
    requires Key(a) != Key(b)
    ensures ApplyParam(ApplyParam(m, a), b) == ApplyParam(ApplyParam(m, b), a)
  {
  }

  /** The caller's map, which the option closures write into. */
  class QueryParams {
    var entries: map<string, QueryValue>

    constructor ()
      ensures entries == map[]
    {
      entries := map[];
    }

    /** Runs one option closure on the map. */
    method Apply(o: ParamOption)
      modifies this
      ensures entries == ApplyParam(old(entries), o)
    {
      match o
      case Limit(n) => entries := entries["limit" := Int(n)];
      case Offset(n) => entries := entries["offset" := Int(n)];
    }
  }
}
