/** src/nerdgraph/graphql.ts: path lookup in a response, request building,
    strict unmarshalling of the response envelope, HTTP status
    classification, and the status-parse-unmarshal pipeline of one post. */
module GraphQL {
  import opened Base
  import opened Strings
  import opened Json
  import opened TypeHelper

  /** `JSON.parse` of a response body; `None` when it does not parse. */
  type Parser = string -> Option<Json>

  // ---------------------------------------------------------------------------
  // findByPath

  /** The three outcomes of a path walk. */
  datatype PathResolution =
    | Found(value: Json)   // the own property at the last segment, whatever it is
    | Missing              // some segment is not an own property: `null`
    | NotObject            // the walk reached a non-object: `false`
  {
    /** The JavaScript value `findByPath` returns for this outcome. */
    function JsValue(): Json
    {
      match this
      case Found(v) => v
      case Missing => JNull
      case NotObject => JBool(false)
    }
  }

  const NullToObject := TypeError("Cannot convert undefined or null to object")

  /** `findByPathHelper(val, arr, index)`. `typeof null` is 'object', so a
      `null` reached before the path ends makes `Object.hasOwn` throw. */
  function FindByPathHelper(val: Json, arr: seq<string>, index: nat): Result<PathResolution>
    requires index <= |arr|
    decreases |arr| - index
  {
    if index == |arr| then Ok(NotObject)
    else if TypeOf(val) == "object" then
      if val.JNull? then Err(NullToObject)
      else
        match OwnProperty(val, arr[index])
        case None => Ok(Missing)
        case Some(child) =>
          if index == |arr| - 1 then Ok(Found(child))
          else FindByPathHelper(child, arr, index + 1)
    else Ok(NotObject)
  }

  /** `findByPath(d, propPath)`. */
  function FindByPath(d: Json, propPath: string): Result<PathResolution>
  {
    FindByPathHelper(d, Split(propPath, '.'), 0)
  }

  /** One segment: the own property of an object or array, `Missing` when it
      has none, `NotObject` for a primitive, and a TypeError for `null`. */
  lemma FindByPathSegment(d: Json, key: string)
    requires '.' !in key
    ensures FindByPath(d, key) ==
      if TypeOf(d) != "object" then Ok(NotObject)
      else if d.JNull? then Err(NullToObject)
      else match OwnProperty(d, key)
        case Some(v) => Ok(Found(v))
        case None => Ok(Missing)
  {
    SplitJoin([key], '.');
  }

  /** The walk goes on past the first segments with what they found: a longer
      path resolves from the value at its prefix, and a prefix that ends
      `Missing`, `NotObject` or in an error ends the longer walk the same way. */
  lemma FindByPathConcat(d: Json, p: string, q: string)
    ensures FindByPath(d, p + "." + q) ==
      match FindByPath(d, p)
      case Ok(Found(w)) => FindByPath(w, q)
      case other => other
  {
    SplitConcat(p, q, '.');
    assert p + "." + q == p + ['.'] + q;
    HelperPrefix(d, Split(p, '.'), Split(q, '.'), 0);
  }

  lemma {:induction false} HelperShift(v: Json, a: seq<string>, b: seq<string>, j: nat)
    requires j <= |b|
    ensures FindByPathHelper(v, a + b, |a| + j) == FindByPathHelper(v, b, j)
    decreases |b| - j
  {
    if j < |b| {
      assert (a + b)[|a| + j] == b[j];
      match OwnProperty(v, b[j])
      case None =>
      case Some(child) =>
        if j < |b| - 1 {
          HelperShift(child, a, b, j + 1);
        }
    }
  }

  lemma {:induction false} HelperPrefix(v: Json, a: seq<string>, b: seq<string>, i: nat)
    requires i < |a| && |b| >= 1
    ensures FindByPathHelper(v, a + b, i) ==
      match FindByPathHelper(v, a, i)
      case Ok(Found(w)) => FindByPathHelper(w, b, 0)
      case other => other
    decreases |a| - i
  {
    assert (a + b)[i] == a[i];
    if TypeOf(v) == "object" && !v.JNull? {
      match OwnProperty(v, a[i])
      case None =>
      case Some(child) =>
        if i == |a| - 1 {
          HelperShift(child, a, b, 0);
        } else {
          HelperPrefix(child, a, b, i + 1);
        }
    }
  }

  /** Array elements are reachable by their decimal index, and `length` is an own key. */
  lemma FindByPathArray(xs: seq<Json>, i: nat)
    requires i < |xs|
    ensures FindByPath(JArr(xs), NatToString(i)) == Ok(Found(xs[i]))
    ensures FindByPath(JArr(xs), "length") == Ok(Found(JNum(|xs|)))
  {
    assert forall k :: 0 <= k < |NatToString(i)| ==> NatToString(i)[k] != '.';
    CanonicalIndexOfNat(i);
    FindByPathSegment(JArr(xs), NatToString(i));
    FindByPathSegment(JArr(xs), "length");
  }

  /** `findByPath(d, path)` as the caller sees it, for a literal path given
      as its keys: the thrown error, or the value (`null` for a missing key,
      `false` for a walk into a non-object). `FindValueIsFindByPath` ties it
      to the walk of the dotted path. */
  function FindValue(d: Json, path: seq<string>): Result<Json>
  {
    var found :- FindByPathHelper(d, path, 0);
    Ok(found.JsValue())
  }

  /** The value `{s0: {s1: ... {sn: v}}}` nested along a path of keys. */
  function Nest(segs: seq<string>, v: Json): Json
    requires |segs| >= 1
  {
    if |segs| == 1 then JObj(map[segs[0] := v])
    else JObj(map[segs[0] := Nest(segs[1..], v)])
  }

  /** A dotted path of dot-free keys finds the value nested along it. */
  lemma FindByPathNest(segs: seq<string>, v: Json)
    requires |segs| >= 1
    requires forall i :: 0 <= i < |segs| ==> '.' !in segs[i]
    ensures FindByPath(Nest(segs, v), Join(segs, '.')) == Ok(Found(v))
  {
    SplitJoin(segs, '.');
    assert segs[0..] == segs;
    HelperNest(segs, 0, v);
  }

  lemma {:induction false} HelperNest(segs: seq<string>, i: nat, v: Json)
    requires i < |segs|
    ensures FindByPathHelper(Nest(segs[i..], v), segs, i) == Ok(Found(v))
    decreases |segs| - i
  {
    assert segs[i..][0] == segs[i];
    if i < |segs| - 1 {
      assert segs[i..][1..] == segs[i + 1..];
      HelperNest(segs, i + 1, v);
    }
  }

  /** A dotted path of dot-free keys is walked key by key. */
  lemma FindByPathSegments(d: Json, segs: seq<string>)
    requires |segs| >= 1
    requires forall i :: 0 <= i < |segs| ==> '.' !in segs[i]
    ensures FindByPath(d, Join(segs, '.')) == FindByPathHelper(d, segs, 0)
  {
    SplitJoin(segs, '.');
  }

  /** For a path of dot-free keys, the walk by keys is `findByPath` of the
      dotted path. */
  lemma FindValueIsFindByPath(d: Json, path: seq<string>)
    requires |path| >= 1
    requires forall i :: 0 <= i < |path| ==> '.' !in path[i]
    ensures FindValue(d, path) ==
      match FindByPath(d, Join(path, '.'))
      case Ok(found) => Ok(found.JsValue())
      case Err(e) => Err(e)
  {
    FindByPathSegments(d, path);
  }

  /** The walk by keys finds the value nested along them. */
  lemma FindValueNest(path: seq<string>, v: Json)
    requires |path| >= 1
    ensures FindValue(Nest(path, v), path) == Ok(v)
  {
    assert path[0..] == path;
    HelperNest(path, 0, v);
  }

  // ---------------------------------------------------------------------------
  // newGraphQLRequest

  /** One entry `name: [type, value]` of the variables record, in key order. */
  datatype Var = Var(name: string, typ: string, value: Json)

  datatype GraphQLRequest = GraphQLRequest(query: string, variables: map<string, Json>)

  /** The keys of a record are distinct. */
  predicate DistinctNames(vars: seq<Var>)
  {
    forall i, j :: 0 <= i < j < |vars| ==> vars[i].name != vars[j].name
  }

  function Keyword(mutation: bool): string
  {
    if mutation then "mutation" else "query"
  }

  /** The declaration `$name: Type` of one variable. */
  function Declaration(v: Var): string
  {
    "$" + v.name + ": " + v.typ
  }

  /** The declarations joined by commas, accumulated left to right as the
      `reduce` does. */
  function Declarations(vars: seq<Var>): string
  {
    if |vars| == 0 then ""
    else if |vars| == 1 then Declaration(vars[0])
    else Declarations(vars[..|vars| - 1]) + "," + Declaration(vars[|vars| - 1])
  }

  /** The values, keyed by name. */
  function VarMap(vars: seq<Var>): map<string, Json>
  {
    if |vars| == 0 then map[]
    else VarMap(vars[..|vars| - 1])[vars[|vars| - 1].name := vars[|vars| - 1].value]
  }

  /** The request text: keyword, the parenthesised declarations when there
      are variables, then the query body. */
  function RequestText(query: string, vars: seq<Var>, mutation: bool): string
  {
    Keyword(mutation) + (if |vars| == 0 then "" else "(" + Declarations(vars) + ")") + query
  }

  /** `newGraphQLRequest(query, variables, mutation)`. */
  method NewGraphQLRequest(query: string, variables: seq<Var>, mutation: bool) returns (req: GraphQLRequest)
    requires DistinctNames(variables)
    ensures req.query == RequestText(query, variables, mutation)
    ensures req.variables == VarMap(variables)
  {
    var vars: map<string, Json> := map[];
    var varSpec := "";
    for index := 0 to |variables|
      invariant varSpec == Declarations(variables[..index])
      invariant vars == VarMap(variables[..index])
    {
      var str := varSpec;
      if index > 0 {
        str := str + ",";
      }
      var v := variables[index];
      vars := vars[v.name := v.value];
      varSpec := str + "$" + v.name + ": " + v.typ;
      assert variables[..index + 1][..index] == variables[..index];
    }
    assert variables[..|variables|] == variables;
    if |variables| > 0 {
      varSpec := "(" + varSpec + ")";
    }
    req := GraphQLRequest(Keyword(mutation) + varSpec + query, vars);
  }

  /** Without variables there are no parentheses and the variables are `{}`. */
  lemma RequestWithoutVariables(query: string, mutation: bool)
    ensures RequestText(query, [], mutation) == (if mutation then "mutation" else "query") + query
    ensures VarMap([]) == map[]
  {
  }

  /** With variables, the text between the keyword and the body is
      `(` + the comma-separated declarations + `)`, one per variable, in order,
      provided names and types hold no comma. */
  lemma {:induction false} DeclarationsInOrder(vars: seq<Var>)
    requires |vars| >= 1
    requires forall i :: 0 <= i < |vars| ==> ',' !in vars[i].name && ',' !in vars[i].typ
    ensures |Split(Declarations(vars), ',')| == |vars|
    ensures forall i :: 0 <= i < |vars| ==> Split(Declarations(vars), ',')[i] == Declaration(vars[i])
  {
    var n := |vars|;
    if n == 1 {
      SplitJoin([Declaration(vars[0])], ',');
    } else {
      DeclarationsInOrder(vars[..n - 1]);
      SplitConcat(Declarations(vars[..n - 1]), Declaration(vars[n - 1]), ',');
      assert Declarations(vars) == Declarations(vars[..n - 1]) + [','] + Declaration(vars[n - 1]);
      SplitJoin([Declaration(vars[n - 1])], ',');
    }
  }

  /** The variables map binds exactly the declared names, each to its value. */
  lemma {:induction false} VarMapBindsEachName(vars: seq<Var>)
    requires DistinctNames(vars)
    ensures forall k :: k in VarMap(vars) <==> exists i :: 0 <= i < |vars| && vars[i].name == k
    ensures forall i :: 0 <= i < |vars| ==> VarMap(vars)[vars[i].name] == vars[i].value
  {
    if |vars| > 0 {
      var n := |vars|;
      var prev := vars[..n - 1];
      VarMapBindsEachName(prev);
      assert forall i :: 0 <= i < n - 1 ==> prev[i] == vars[i];
      forall k | k in VarMap(vars)
        ensures exists i :: 0 <= i < n && vars[i].name == k
      {
        if k != vars[n - 1].name {
          var i :| 0 <= i < n - 1 && prev[i].name == k;
          assert vars[i].name == k;
        }
      }
    }
  }

  // ---------------------------------------------------------------------------
  // Unmarshalling the response envelope

  datatype Location = Location(line: int, column: int)

  datatype GraphQLError = GraphQLError(message: string, locations: seq<Location>, path: seq<string>)

  datatype GraphQLResponse = GraphQLResponse(data: Json, errors: seq<GraphQLError>)

  /** `unmarshalGraphQLErrorLocation`: an object with numeric `line` and `column`. */
  function UnmarshalLocation(obj: Json): (r: Result<Location>)
    ensures r.Ok? <==> obj.JObj? && Get(obj, "line").JNum? && Get(obj, "column").JNum?
    ensures r.Ok? ==> r.value == Location(Get(obj, "line").n, Get(obj, "column").n)
    ensures !obj.JObj? ==> r == Err(GraphQLResponseError("Invalid GraphQL error location"))
  {
    if !IsObjectAsIndexableObject(obj) then Err(GraphQLResponseError("Invalid GraphQL error location"))
    else if !IsNumber(Get(obj, "line")) then Err(GraphQLResponseError("Invalid GraphQL error location line"))
    else if !IsNumber(Get(obj, "column")) then Err(GraphQLResponseError("Invalid GraphQL error location column"))
    else Ok(Location(Get(obj, "line").n, Get(obj, "column").n))
  }

  /** `unmarshalGraphQLError`: an object with a non-empty string `message`;
      `locations` is unmarshalled strictly when it is an array and is `[]`
      otherwise; `path` is kept when it is a string array and is `[]` otherwise. */
  function UnmarshalError(obj: Json): (r: Result<GraphQLError>)
    ensures r.Ok? <==>
      obj.JObj? && IsNotEmptyString(Get(obj, "message")) &&
      (Get(obj, "locations").JArr? ==> forall i :: 0 <= i < |Get(obj, "locations").items| ==> UnmarshalLocation(Get(obj, "locations").items[i]).Ok?)
    ensures r.Ok? ==> r.value.message == Get(obj, "message").s
    ensures r.Ok? ==> (if Get(obj, "locations").JArr? then |r.value.locations| == |Get(obj, "locations").items| else r.value.locations == [])
    ensures r.Ok? && Get(obj, "locations").JArr? ==>
      forall i :: 0 <= i < |r.value.locations| ==> UnmarshalLocation(Get(obj, "locations").items[i]) == Ok(r.value.locations[i])
    ensures r.Ok? ==> r.value.path == (if IsStringArray(Get(obj, "path")) then StringsOf(Get(obj, "path")) else [])
    ensures !obj.JObj? ==> r == Err(GraphQLResponseError("Invalid GraphQL error"))
  {
    if !IsObjectAsIndexableObject(obj) then Err(GraphQLResponseError("Invalid GraphQL error"))
    else if !IsNotEmptyString(Get(obj, "message")) then Err(GraphQLResponseError("Invalid GraphQL error message"))
    else
      var locations :- if IsArray(Get(obj, "locations")) then MapResult(Get(obj, "locations").items, UnmarshalLocation) else Ok([]);
      var path := if IsStringArray(Get(obj, "path")) then StringsOf(Get(obj, "path")) else [];
      Ok(GraphQLError(Get(obj, "message").s, locations, path))
  }

  /** `unmarshalGraphQLResponse`: an object; `data` is copied when defined and
      is `null` otherwise; `errors` is unmarshalled strictly when it is an
      array, one error per element, and is `[]` otherwise. */
  function UnmarshalResponse(obj: Json): (r: Result<GraphQLResponse>)
    ensures r.Ok? <==>
      obj.JObj? &&
      (Get(obj, "errors").JArr? ==> forall i :: 0 <= i < |Get(obj, "errors").items| ==> UnmarshalError(Get(obj, "errors").items[i]).Ok?)
    ensures r.Ok? ==> r.value.data == (if Get(obj, "data").JUndef? then JNull else Get(obj, "data"))
    ensures r.Ok? ==> (if Get(obj, "errors").JArr? then |r.value.errors| == |Get(obj, "errors").items| else r.value.errors == [])
    ensures r.Ok? && Get(obj, "errors").JArr? ==>
      forall i :: 0 <= i < |r.value.errors| ==> UnmarshalError(Get(obj, "errors").items[i]) == Ok(r.value.errors[i])
    ensures !obj.JObj? ==> r == Err(GraphQLResponseError("Invalid GraphQL response"))
  {
    if !IsObjectAsIndexableObject(obj) then Err(GraphQLResponseError("Invalid GraphQL response"))
    else
      var data := if IsDefined(Get(obj, "data")) then Get(obj, "data") else JNull;
      var errors :- if IsArray(Get(obj, "errors")) then MapResult(Get(obj, "errors").items, UnmarshalError) else Ok([]);
      Ok(GraphQLResponse(data, errors))
  }

  // Marshalling, the inverse of the above on well-formed values.

  function MarshalLocation(l: Location): Json
  {
    JObj(map["line" := JNum(l.line), "column" := JNum(l.column)])
  }

  function MarshalError(e: GraphQLError): Json
  {
    JObj(map[
      "message" := JStr(e.message),
      "locations" := JArr(seq(|e.locations|, i requires 0 <= i < |e.locations| => MarshalLocation(e.locations[i]))),
      "path" := StringArray(e.path)])
  }

  function MarshalResponse(resp: GraphQLResponse): Json
  {
    JObj(map[
      "data" := resp.data,
      "errors" := JArr(seq(|resp.errors|, i requires 0 <= i < |resp.errors| => MarshalError(resp.errors[i])))])
  }

  /** Every error message of a response that the unmarshaller can produce is non-empty. */
  predicate WellFormedResponse(resp: GraphQLResponse)
  {
    resp.data != JUndef && forall i :: 0 <= i < |resp.errors| ==> resp.errors[i].message != ""
  }

  lemma LocationRoundTrip(l: Location)
    ensures UnmarshalLocation(MarshalLocation(l)) == Ok(l)
  {
  }

  lemma ErrorRoundTrip(e: GraphQLError)
    requires e.message != ""
    ensures UnmarshalError(MarshalError(e)) == Ok(e)
  {
    var obj := MarshalError(e);
    var locs := Get(obj, "locations").items;
    forall i | 0 <= i < |locs|
      ensures UnmarshalLocation(locs[i]) == Ok(e.locations[i])
    {
      LocationRoundTrip(e.locations[i]);
    }
    StringArrayRoundTrip(e.path, Get(obj, "path"));
    var r := UnmarshalError(obj);
    assert r.Ok?;
    assert r.value.locations == e.locations;
  }

  /** Unmarshalling undoes marshalling on every response it could have produced. */
  lemma ResponseRoundTrip(resp: GraphQLResponse)
    requires WellFormedResponse(resp)
    ensures UnmarshalResponse(MarshalResponse(resp)) == Ok(resp)
  {
    var obj := MarshalResponse(resp);
    var errs := Get(obj, "errors").items;
    forall i | 0 <= i < |errs|
      ensures UnmarshalError(errs[i]) == Ok(resp.errors[i])
    {
      ErrorRoundTrip(resp.errors[i]);
    }
    var r := UnmarshalResponse(obj);
    assert r.Ok?;
    assert r.value.errors == resp.errors;
  }

  // ---------------------------------------------------------------------------
  // raiseForStatus and the client pipeline

  /** What the transport returns for one post. */
  datatype HttpPostResponse = HttpPostResponse(url: string, status: int, message: string, body: string)

  function StatusError(response: HttpPostResponse, kind: string): Error
  {
    HttpError(response.status,
      IntToString(response.status) + " " + kind + ": " + response.message + " for url: " + response.url)
  }

  /** `raiseForStatus`: client errors (400-499), server errors (500-599) and
      statuses outside 100-599 raise an HttpError carrying the status. */
  function RaiseForStatus(response: HttpPostResponse): (r: Result<()>)
    ensures r.Err? <==> !(100 <= response.status < 400)
    ensures r.Err? ==> r.error.HttpError? && r.error.status == response.status
  {
    if 400 <= response.status < 500 then Err(StatusError(response, "Client Error"))
    else if 500 <= response.status < 600 then Err(StatusError(response, "Server Error"))
    else if response.status < 100 || response.status > 599 then Err(StatusError(response, "Invalid Status"))
    else Ok(())
  }

  /** The headers of every post: JSON content negotiation, then the caller's
      headers, which win on a clash. */
  function PostHeaders(headers: map<string, string>): (h: map<string, string>)
    ensures h.Keys == headers.Keys + {"Content-Type", "Accept", "Accept-Charset"}
    ensures forall k :: k in headers ==> h[k] == headers[k]
    ensures "Content-Type" !in headers ==> h["Content-Type"] == "application/json"
    ensures "Accept" !in headers ==> h["Accept"] == "application/json"
    ensures "Accept-Charset" !in headers ==> h["Accept-Charset"] == "utf-8"
  {
    map["Content-Type" := "application/json", "Accept" := "application/json", "Accept-Charset" := "utf-8"] + headers
  }

  /** What `GraphQLClientImpl.query` hands to the transport. */
  datatype Post = Post(url: string, headers: map<string, string>, payload: GraphQLRequest)

  function PostFor(url: string, headers: map<string, string>, payload: GraphQLRequest): Post
  {
    Post(url, PostHeaders(headers), payload)
  }

  /** The rest of `GraphQLClientImpl.query` once the transport has answered:
      the status check, then `JSON.parse` (given as `parse`), then strict
      unmarshalling of the envelope. */
  function Receive(response: HttpPostResponse, parse: Parser): Result<GraphQLResponse>
  {
    var _ :- RaiseForStatus(response);
    match parse(response.body)
    case None => Err(GraphQLResponseError("Failed to parse JSON response for query: \"" + response.body + "\""))
    case Some(json) => UnmarshalResponse(json)
  }

  /** A bad status raises its HttpError before the body is read; an
      unparsable body raises a GraphQLResponseError; otherwise the result is
      the unmarshalled envelope. */
  lemma ReceiveStages(response: HttpPostResponse, parse: Parser)
    ensures !(100 <= response.status < 400) ==>
      Receive(response, parse).Err? && Receive(response, parse).error == RaiseForStatus(response).error
    ensures 100 <= response.status < 400 && parse(response.body).None? ==>
      Receive(response, parse).Err? && Receive(response, parse).error.GraphQLResponseError?
    ensures 100 <= response.status < 400 && parse(response.body).Some? ==>
      Receive(response, parse) == UnmarshalResponse(parse(response.body).value)
  {
  }
}
