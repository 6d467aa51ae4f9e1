/**
 * The requests the API layer hands to its repository adapter: an endpoint path (with its query, when
 * the source interpolates one), a parameter dictionary and the paging the call asks for.
 */
module Requests {
  import opened Wrappers

  /** A value of a `Params` dictionary: a string, a flag, a number, a list of ids or a nested dictionary. */
  datatype ParamValue =
    | PText(s: string)
    | PFlag(b: bool)
    | PNumber(n: int)
    | PTextList(items: seq<string>)
    | PDict(entries: map<string, ParamValue>)

  /** Swift's `Params`, a `[String: Any]` dictionary. */
  type Params = map<string, ParamValue>

  /** How a list call pages: an explicit page, no pagination at all, or the adapter's own default. */
  datatype Paging = Paged(currentPage: int, pageSize: int) | SkipPagination | AdapterDefault

  /** One call on the repository adapter. */
  datatype Call =
    | GetObjects(endpoint: string, parameters: Params, paging: Paging, keyPath: Option<string>)
    | GetObject(endpoint: string, parameters: Params)
    | PerformAction(endpoint: string, parameters: Params)

  /** A one-entry dictionary when the value is present, an empty one when it is nil (`params[key] = value`). */
  function Entry(key: string, value: Option<ParamValue>): (r: Params)
    ensures key in r <==> value.Some?
    ensures value.Some? ==> r[key] == value.value
    ensures forall k | k in r :: k == key
  {
    if value.Some? then map[key := value.value] else map[]
  }

  /** `"\(endpoint)?\(key)=\(value)"`: a path with a one-item query. */
  function WithQuery(endpoint: string, key: string, value: string): (r: string)
    ensures |r| == |endpoint| + |key| + |value| + 2
    ensures endpoint <= r && r[|endpoint|] == '?'
    ensures r[|r| - |value|..] == value
  {
    endpoint + "?" + key + "=" + value
  }

  /** The value a query path carries, when the path is `endpoint` with a query on `key`. */
  function QueryValue(path: string, endpoint: string, key: string): (r: Option<string>)
    ensures r.Some? ==> |r.value| <= |path|
  {
    var prefix := endpoint + "?" + key + "=";
    if prefix <= path then Some(path[|prefix|..]) else None
  }

  /** Reading the query back gives the value that was interpolated. */
  lemma QueryValueOfWithQuery(endpoint: string, key: string, value: string)
    ensures QueryValue(WithQuery(endpoint, key, value), endpoint, key) == Some(value)
  {
    var prefix := endpoint + "?" + key + "=";
    assert WithQuery(endpoint, key, value) == prefix + value;
  }

  /** Two query paths on the same endpoint and key are equal only for equal values. */
  lemma WithQueryInjective(endpoint: string, key: string, a: string, b: string)
    requires WithQuery(endpoint, key, a) == WithQuery(endpoint, key, b)
    ensures a == b
  {
    QueryValueOfWithQuery(endpoint, key, a);
    QueryValueOfWithQuery(endpoint, key, b);
  }

  /** A path that carries a query on `endpoint` starts with `endpoint`. */
  lemma QueryValueHasEndpoint(path: string, endpoint: string, key: string)
    requires QueryValue(path, endpoint, key).Some?
    ensures endpoint <= path
  {
    var prefix := endpoint + "?" + key + "=";
    assert path[..|endpoint|] == prefix[..|endpoint|];
  }

  /** `if let v = value { params[key] = v }`: sets the key when the value is present, else leaves the dictionary as it was. */
  function Extend(p: Params, key: string, value: Option<ParamValue>): (r: Params)
    ensures r.Keys == p.Keys + (if value.Some? then {key} else {})
    ensures forall k | k in p && k != key :: r[k] == p[k]
    ensures value.Some? ==> r[key] == value.value
  {
    if value.Some? then p[key := value.value] else p
  }

  /** The endpoint of a call, whatever its kind. */
  function EndpointOf(c: Call): string {
    match c
    case GetObjects(e, _, _, _) => e
    case GetObject(e, _) => e
    case PerformAction(e, _) => e
  }
}
