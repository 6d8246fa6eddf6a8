/** The endpoint configuration types: the HTTP method, a request, the
    dependency an endpoint may declare, an endpoint and the whole set. */
module Yarn {

  /** A header or body mapping. */
  type ReqHash = map<string, string>

  /** The closed set of methods a configuration may name. */
  datatype ConfigMethod = GET | POST

  /** The text rendering of a method. */
  function ToString(m: ConfigMethod): (s: string)
    ensures m == GET ==> s == "GET"
    ensures m == POST ==> s == "POST"
  {
    match m
    case GET => "GET"
    case POST => "POST"
  }

  /** Reading a method name back, as the configuration is deserialised:
      exactly the two variant names are accepted. */
  function FromString(s: string): (r: Option<ConfigMethod>)
    ensures r.Some? <==> s == "GET" || s == "POST"
  {
    if s == "GET" then Some(GET)
    else if s == "POST" then Some(POST)
    else None
  }

  datatype Option<T> = None | Some(value: T)

  /** Distinct methods render to distinct strings. */
  lemma ToStringInjective(m1: ConfigMethod, m2: ConfigMethod)
    ensures ToString(m1) == ToString(m2) <==> m1 == m2
  {
  }

  /** Reading back the rendering of a method gives that method, and only a
      rendering reads back as a method. */
  lemma ParseRendering(m: ConfigMethod, s: string)
    ensures FromString(ToString(m)) == Some(m)
    ensures FromString(s) == Some(m) ==> ToString(m) == s
  {
  }

  /** A request: where it goes, its optional headers, its method and its
      optional body. An absent mapping is distinct from an empty one. */
  datatype Request = Request(
    url: string,
    headers: Option<ReqHash>,
    httpMethod: ConfigMethod,
    body: Option<ReqHash>)

  /** A dependency: the call whose JSON response feeds the endpoint's
      request, and the dotted paths to extract from it. Its request is a
      plain Request, which cannot itself declare a dependency. */
  datatype Depends = Depends(
    name: string,
    headerFields: seq<string>,
    bodyFields: seq<string>,
    request: Request)

  /** A monitored endpoint. `interval` is the polling interval the status
      table shows for it. */
  datatype Api = Api(
    name: string,
    dependsOn: Option<Depends>,
    request: Request,
    expectedStatus: nat,
    cronExpression: string,
    systemNotify: bool,
    notifyType: string,
    interval: nat)

  /** All endpoints, keyed by name, in the order they are iterated. */
  datatype ApisConfig = ApisConfig(requests: seq<(string, Api)>) {

    /** A key names at most one endpoint. */
    predicate Valid()
    {
      forall i, j :: 0 <= i < j < |requests| ==> requests[i].0 != requests[j].0
    }

    /** The endpoint stored under `key`, if any (the first one, should the
        keys not be distinct). */
    function Get(key: string): (r: Option<Api>)
      ensures r.Some? <==> exists i :: 0 <= i < |requests| && requests[i].0 == key
      decreases |requests|
    {
      if |requests| == 0 then None
      else if requests[0].0 == key then Some(requests[0].1)
      else ApisConfig(requests[1..]).Get(key)
    }
  }

  /** Under distinct keys, looking up an entry's key finds that entry's
      endpoint. */
  lemma {:induction false} GetFindsEntry(c: ApisConfig, i: nat)
    requires c.Valid() && i < |c.requests|
    ensures c.Get(c.requests[i].0) == Some(c.requests[i].1)
    decreases i
  {
    if i > 0 {
      var tail := ApisConfig(c.requests[1..]);
      assert tail.requests[i - 1] == c.requests[i];
      assert c.requests[0].0 != c.requests[i].0;
      GetFindsEntry(tail, i - 1);
    }
  }
}
