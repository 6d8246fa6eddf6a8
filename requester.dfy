/** Issuing a request and resolving an endpoint's dependency: the
    dependency is called, and the declared header and body fields are read
    out of its JSON response by dotted path. */
module Requester {
  import opened Json
  import opened Strings
  import opened Yarn
  import opened Notify
  import opened Http

  /** The call made for `request` with the given headers and body: POST
      exactly when the request says POST, and a JSON body exactly when one
      is given. */
  function RequestApi(request: Request, headers: ReqHash, body: Option<ReqHash>): (call: Outbound<ReqHash>)
    ensures call.verb == "POST" <==> request.httpMethod == POST
    ensures call.verb == "GET" <==> request.httpMethod == GET
    ensures call.body.Some? <==> body.Some?
    ensures call.body == body && call.url == request.url && call.headers == headers
  {
    Outbound(MethodBytes(request.httpMethod), request.url, headers, body)
  }

  /** The value at a path of object keys, indexing one key at a time; a
      missing key or a non-object anywhere on the way gives Null. This is
      the reference definition the extraction is proved against. */
  function Lookup(v: Json, path: seq<string>): Json
    decreases |path|
  {
    if |path| == 0 then v else Lookup(Index(v, path[0]), path[1..])
  }

  /** Every prefix of `path` leads to an object holding the next key. */
  predicate PathResolves(v: Json, path: seq<string>)
    decreases |path|
  {
    |path| == 0 || (v.Obj? && path[0] in v.fields && PathResolves(v.fields[path[0]], path[1..]))
  }

  /** The nested value a resolving path reaches. */
  function Reach(v: Json, path: seq<string>): Json
    requires PathResolves(v, path)
    decreases |path|
  {
    if |path| == 0 then v else Reach(v.fields[path[0]], path[1..])
  }

  /** The field lookup as written: index by `fields[start]`, then stop at
      the last segment or go on with the next one. */
  function GetField(value: Json, fields: seq<string>, size: nat, start: nat): (r: Json)
    requires size == |fields| && start < size
    ensures r == Lookup(value, fields[start..])
    decreases size - start
  {
    var next := Index(value, fields[start]);
    if start == size - 1 then next else GetField(next, fields, size, start + 1)
  }

  /** Extracting a dotted path from a response: split on '.', which always
      gives at least one segment, then look up from the first segment. */
  function Extract(result: Json, dotted: string): (r: Json)
    ensures r == Lookup(result, Split(dotted, '.'))
  {
    var fields := Split(dotted, '.');
    GetField(result, fields, |fields|, 0)
  }

  /** Null stays Null whatever keys follow. */
  lemma {:induction false} LookupNull(path: seq<string>)
    ensures Lookup(Null, path) == Null
    decreases |path|
  {
    if |path| > 0 {
      LookupNull(path[1..]);
    }
  }

  /** On a resolving path the lookup reaches the nested value. */
  lemma {:induction false} LookupResolved(v: Json, path: seq<string>)
    requires PathResolves(v, path)
    ensures Lookup(v, path) == Reach(v, path)
    decreases |path|
  {
    if |path| > 0 {
      LookupResolved(v.fields[path[0]], path[1..]);
    }
  }

  /** On a path that does not resolve the lookup gives Null. */
  lemma {:induction false} LookupUnresolved(v: Json, path: seq<string>)
    requires !PathResolves(v, path)
    ensures Lookup(v, path) == Null
    decreases |path|
  {
    if v.Obj? && path[0] in v.fields {
      LookupUnresolved(v.fields[path[0]], path[1..]);
    } else {
      LookupNull(path[1..]);
    }
  }

  /** A path without a dot is a direct key lookup. */
  lemma OneSegment(result: Json, key: string)
    requires '.' !in key
    ensures Extract(result, key) == Index(result, key)
  {
    SplitPiece(key, '.');
  }

  /** A dotted path made of the keys `segments` gives the nested value
      when it resolves, and Null when it does not. */
  lemma ExtractNested(result: Json, segments: seq<string>)
    requires |segments| >= 1
    requires forall i :: 0 <= i < |segments| ==> '.' !in segments[i]
    ensures PathResolves(result, segments) ==> Extract(result, Join(segments, '.')) == Reach(result, segments)
    ensures !PathResolves(result, segments) ==> Extract(result, Join(segments, '.')) == Null
  {
    SplitJoin(segments, '.');
    if PathResolves(result, segments) {
      LookupResolved(result, segments);
    } else {
      LookupUnresolved(result, segments);
    }
  }

  /** The entry recorded for one declared field: empty when the field is
      Null or absent, otherwise the full dotted path mapped to the
      rendered value. */
  function FieldEntry(result: Json, path: string, render: Json -> string): (m: ReqHash)
    ensures m == map[] <==> Extract(result, path) == Null
    ensures m != map[] ==> m.Keys == {path} && m[path] == render(Extract(result, path))
  {
    var field := Extract(result, path);
    if field == Null then map[]
    else
      var m := map[path := render(field)];
      assert path in m;
      m
  }

  /** In terms of the response: the entry for a dotted path of keys holds
      the rendered nested value exactly when the path resolves to a
      non-Null value. */
  lemma EntryOfNestedPath(result: Json, segments: seq<string>, render: Json -> string)
    requires |segments| >= 1
    requires forall i :: 0 <= i < |segments| ==> '.' !in segments[i]
    ensures var path := Join(segments, '.');
      if PathResolves(result, segments) && Reach(result, segments) != Null
      then FieldEntry(result, path, render) == map[path := render(Reach(result, segments))]
      else FieldEntry(result, path, render) == map[]
  {
    ExtractNested(result, segments);
  }

  /** A token nested one object deep is found under its dotted path. */
  lemma NestedTokenFound(render: Json -> string)
    ensures FieldEntry(Obj(map["auth" := Obj(map["token" := Str("abc123")])]), "auth.token", render)
         == map["auth.token" := render(Str("abc123"))]
  {
    var inner := Obj(map["token" := Str("abc123")]);
    var response := Obj(map["auth" := inner]);
    var segments := ["auth", "token"];
    assert Join(segments[1..], '.') == "token";
    assert Join(segments, '.') == "auth" + "." + "token" == "auth.token";
    assert PathResolves(inner, segments[1..]);
    assert PathResolves(response, segments);
    assert Reach(response, segments) == Reach(inner, segments[1..]) == Str("abc123");
    EntryOfNestedPath(response, segments, render);
  }

  /** A dotted path through a key the response lacks gives an empty entry. */
  lemma MissingKeyEmpty(render: Json -> string)
    ensures FieldEntry(Obj(map["auth" := Obj(map["token" := Str("abc123")])]), "auth.expiry", render) == map[]
  {
    var inner := Obj(map["token" := Str("abc123")]);
    var response := Obj(map["auth" := inner]);
    var segments := ["auth", "expiry"];
    assert Join(segments[1..], '.') == "expiry";
    assert Join(segments, '.') == "auth" + "." + "expiry" == "auth.expiry";
    assert "expiry" !in inner.fields;
    assert !PathResolves(inner, segments[1..]);
    EntryOfNestedPath(response, segments, render);
  }

  /** One entry per declared path, in declaration order, pushed even when
      the field is absent. */
  method ExtractEntries(result: Json, paths: seq<string>, render: Json -> string) returns (entries: seq<ReqHash>)
    ensures |entries| == |paths|
    ensures forall i :: 0 <= i < |paths| ==> entries[i] == FieldEntry(result, paths[i], render)
  {
    entries := [];
    for i := 0 to |paths|
      invariant |entries| == i
      invariant forall j :: 0 <= j < i ==> entries[j] == FieldEntry(result, paths[j], render)
    {
      var field := Extract(result, paths[i]);
      var values: ReqHash := map[];
      if field != Null {
        values := values[paths[i] := render(field)];
      }
      entries := entries + [values];
    }
  }

  /** The dependency call: its own request with its own headers (none
      when it declares none) and its own body. */
  function DependencyCall(depends: Depends): (call: Outbound<ReqHash>)
    ensures call.url == depends.request.url
    ensures call.verb == "POST" <==> depends.request.httpMethod == POST
    ensures depends.request.headers.None? ==> call.headers == map[]
    ensures depends.request.headers.Some? ==> call.headers == depends.request.headers.value
    ensures call.body == depends.request.body
  {
    var headers := match depends.request.headers
      case Some(h) => h
      case None => map[];
    RequestApi(depends.request, headers, depends.request.body)
  }

  /** What the dependency call came back with: a transport failure, or a
      response whose body parsed as JSON. */
  datatype DependencyResponse = TransportFailure | Response(body: Json)

  const DependsBodyKey: string := "depends_body"
  const DependsHeadersKey: string := "depends_headers"
  const DependsFailureMessage: string := "Error to request depends"

  /** Resolve a dependency: `call` is the dependency call made, and
      `response` is what it came back with. On success the result holds the header entries and the body entries
      under their two keys and nothing is notified; on a transport failure
      the result is empty and one error notification is emitted when
      `systemNotify` is set. */
  method GetDependsResult(depends: Depends, systemNotify: bool, response: DependencyResponse, render: Json -> string)
    returns (call: Outbound<ReqHash>, results: map<string, seq<ReqHash>>, notes: seq<Notification>)
    ensures call == DependencyCall(depends)
    ensures response.Response? ==> results.Keys == {DependsBodyKey, DependsHeadersKey} && notes == []
    ensures response.Response? ==>
      && |results[DependsHeadersKey]| == |depends.headerFields|
      && (forall i :: 0 <= i < |depends.headerFields| ==>
            results[DependsHeadersKey][i] == FieldEntry(response.body, depends.headerFields[i], render))
      && |results[DependsBodyKey]| == |depends.bodyFields|
      && (forall i :: 0 <= i < |depends.bodyFields| ==>
            results[DependsBodyKey][i] == FieldEntry(response.body, depends.bodyFields[i], render))
    ensures response.TransportFailure? ==> results == map[]
    ensures response.TransportFailure? && systemNotify ==> notes == [Notification(depends.name, ErrorIcon, DependsFailureMessage)]
    ensures response.TransportFailure? && !systemNotify ==> notes == []
  {
    var headers: ReqHash := map[];
    if depends.request.headers.Some? {
      headers := depends.request.headers.value;
    }
    call := RequestApi(depends.request, headers, depends.request.body);
    match response
    case Response(result) =>
      var dependsHeaders := ExtractEntries(result, depends.headerFields, render);
      var dependsBody := ExtractEntries(result, depends.bodyFields, render);
      results := map[];
      results := results[DependsBodyKey := dependsBody];
      results := results[DependsHeadersKey := dependsHeaders];
      notes := [];
    case TransportFailure =>
      notes := [];
      if systemNotify {
        notes := notes + [Notification(depends.name, ErrorIcon, DependsFailureMessage)];
      }
      results := map[];
  }
}
