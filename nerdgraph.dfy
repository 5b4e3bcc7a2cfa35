/** src/nerdgraph/nerdgraph.ts: region selection and the paginating query
    loop of the Nerdgraph client. The injected GraphQL client is the finite
    list of its successive answers, one consumed per post. */
module Nerdgraph {
  import opened Base
  import opened Strings
  import opened Json
  import opened TypeHelper
  import opened GraphQL

  /** The request sent for a page, given the variables. */
  type RequestFor = Json -> Post

  /** The cursor of the next page read from a page's data. */
  type CursorFrom = Json -> Result<Option<string>>

  // ---------------------------------------------------------------------------
  // Regions

  datatype Region = US | EU

  /** The GraphQL endpoint of each region. */
  function Endpoint(region: Region): string
  {
    match region
    case US => "https://api.newrelic.com/graphql"
    case EU => "https://api.eu.newrelic.com/graphql"
  }

  /** `toRegion(region)`: no region or an empty one is US; otherwise the
      upper-cased text picks US or EU, and anything else is US. */
  function ToRegion(region: Option<string>): (r: Region)
    ensures region.None? || region == Some("") ==> r == US
  {
    if region.None? || region.value == "" then US
    else
      var upperRegion := ToUpperAscii(region.value);
      if upperRegion == "US" then US
      else if upperRegion == "EU" then EU
      else US
  }

  /** EU is chosen exactly for "EU" in any letter case. */
  lemma ToRegionEU(region: Option<string>)
    ensures ToRegion(region) == EU <==> region.Some? && region.value in {"EU", "Eu", "eU", "eu"}
  {
    if region.Some? && |region.value| == 2 && ToUpperAscii(region.value) == "EU" {
      var s := region.value;
      assert UpperChar(s[0]) == 'E' && UpperChar(s[1]) == 'U';
      assert s[0] in {'E', 'e'} && s[1] in {'U', 'u'};
      assert s == [s[0], s[1]];
    }
  }

  // ---------------------------------------------------------------------------
  // Setting the cursor variable

  /** `variables[v.name] = [v.typ, v.value]`: an existing entry keeps its
      position and takes the new type and value; a new one goes last. */
  function SetVar(vars: seq<Var>, v: Var): (r: seq<Var>)
    ensures v in r
    ensures forall x :: x in r ==> x == v || x in vars
  {
    if |vars| == 0 then [v]
    else if vars[|vars| - 1].name == v.name then vars[..|vars| - 1] + [v]
    else SetVar(vars[..|vars| - 1], v) + [vars[|vars| - 1]]
  }

  /** Setting a variable binds its name to the new value and nothing else changes. */
  lemma {:induction false} SetVarBinds(vars: seq<Var>, v: Var)
    ensures VarMap(SetVar(vars, v)) == VarMap(vars)[v.name := v.value]
  {
    var n := |vars|;
    if n > 0 {
      var init := vars[..n - 1];
      if vars[n - 1].name == v.name {
        assert (init + [v])[..n - 1] == init;
      } else {
        SetVarBinds(init, v);
        var r := SetVar(init, v) + [vars[n - 1]];
        assert r[..|r| - 1] == SetVar(init, v);
      }
    }
  }

  lemma {:induction false} SetVarDistinct(vars: seq<Var>, v: Var)
    requires DistinctNames(vars)
    ensures DistinctNames(SetVar(vars, v))
  {
    var n := |vars|;
    if n > 0 {
      var init := vars[..n - 1];
      if vars[n - 1].name != v.name {
        SetVarDistinct(init, v);
        var s := SetVar(init, v);
        forall i | 0 <= i < |s|
          ensures s[i].name != vars[n - 1].name
        {
          assert s[i] in s;
          if s[i] != v {
            var j :| 0 <= j < |init| && init[j] == s[i];
          }
        }
      }
    }
  }

  /** Setting the same variable twice leaves only the second value. */
  lemma {:induction false} SetVarTwice(vars: seq<Var>, x: Var, y: Var)
    requires x.name == y.name
    ensures SetVar(SetVar(vars, x), y) == SetVar(vars, y)
  {
    var n := |vars|;
    if n > 0 {
      var init := vars[..n - 1];
      if vars[n - 1].name == x.name {
        assert (init + [x])[..n - 1] == init;
      } else {
        SetVarTwice(init, x, y);
        var r := SetVar(init, x) + [vars[n - 1]];
        assert r[..|r| - 1] == SetVar(init, x);
      }
    } else {
      assert [x][..0] == [];
    }
  }

  // ---------------------------------------------------------------------------
  // One query

  /** The arguments of `NerdgraphClient.query`. `endpointOverride` stands
      for the NERDGRAPH_ENDPOINT environment variable ("" when unset). */
  datatype QueryArgs = QueryArgs(
    apiKey: string,
    query: string,
    variables: seq<Var>,
    mutation: bool,
    nextCursorPath: Option<string>,
    region: Region,
    headers: map<string, string>,
    endpointOverride: string)

  /** Whether the cursor path is set (neither `null` nor `''`). */
  predicate Paginates(a: QueryArgs)
  {
    a.nextCursorPath.Some? && a.nextCursorPath.value != ""
  }

  function CursorVar(cursor: Json): Var
  {
    Var("cursor", "String", cursor)
  }

  /** The variables of the request that carries `cursor`. */
  function VarsAt(a: QueryArgs, cursor: Json): seq<Var>
  {
    if Paginates(a) then SetVar(a.variables, CursorVar(cursor)) else a.variables
  }

  /** The post that carries `cursor`. */
  function PostAt(a: QueryArgs, cursor: Json): Post
  {
    var url := if a.endpointOverride != "" then a.endpointOverride else Endpoint(a.region);
    var vars := VarsAt(a, cursor);
    PostFor(url, map["API-Key" := a.apiKey] + a.headers,
      GraphQLRequest(RequestText(a.query, vars, a.mutation), VarMap(vars)))
  }

  /** Every post goes to the override url when one is set and to the
      region's endpoint otherwise; it carries the API key unless the caller's
      headers replace it, and the caller's headers as given; its variables are
      the caller's with `cursor` bound to the current cursor when the query
      paginates. */
  lemma PostAtShape(a: QueryArgs, cursor: Json)
    ensures var p := PostAt(a, cursor);
      && p.url == (if a.endpointOverride != "" then a.endpointOverride else Endpoint(a.region))
      && (forall k :: k in a.headers ==> k in p.headers && p.headers[k] == a.headers[k])
      && ("API-Key" !in a.headers ==> "API-Key" in p.headers && p.headers["API-Key"] == a.apiKey)
      && (Paginates(a) ==> p.payload.variables == VarMap(a.variables)["cursor" := cursor])
      && (!Paginates(a) ==> p.payload.variables == VarMap(a.variables))
  {
    if Paginates(a) {
      SetVarBinds(a.variables, CursorVar(cursor));
    }
  }

  /** What follows a page: `Ok(None)` stops the loop, `Ok(Some(c))` asks for
      the page after cursor `c`. */
  function NextCursor(a: QueryArgs, data: Json): Result<Option<string>>
  {
    if !Paginates(a) then Ok(None)
    else
      var path := a.nextCursorPath.value;
      var found :- FindByPath(data, path);
      var nextCursor := found.JsValue();
      if nextCursor == JBool(false) then Err(NerdgraphError("Expected value at path " + path + " but found none"))
      else if nextCursor == JNull then Ok(None)
      else if !IsString(nextCursor) then Err(NerdgraphError("Expected string at path " + path + " but found " + TypeOf(nextCursor)))
      else Ok(Some(nextCursor.s))
  }

  /** Without a cursor path the loop stops after one page. Otherwise a path
      walk that throws rethrows; a cursor that resolves to `false` raises;
      `null` (or a missing key) stops the loop; a string goes on with that
      string; anything else raises. */
  lemma NextCursorCases(a: QueryArgs, data: Json)
    ensures !Paginates(a) ==> NextCursor(a, data) == Ok(None)
    ensures Paginates(a) && FindByPath(data, a.nextCursorPath.value).Err? ==>
      NextCursor(a, data) == Err(FindByPath(data, a.nextCursorPath.value).error)
    ensures Paginates(a) && FindByPath(data, a.nextCursorPath.value).Ok? ==>
      var c := FindByPath(data, a.nextCursorPath.value).value.JsValue();
      && (NextCursor(a, data) == Ok(None) <==> c == JNull)
      && (forall s :: NextCursor(a, data) == Ok(Some(s)) <==> c == JStr(s))
      && (NextCursor(a, data).Err? <==> !c.JNull? && !c.JStr?)
  {
  }

  /** The outcome of a query and the posts it sent. */
  datatype Outcome = Outcome(results: Result<seq<Json>>, sent: seq<Post>)

  /** `results` and `sent` before the rest of a run. */
  function Prepend(results: seq<Json>, sent: seq<Post>, rest: Outcome): Outcome
  {
    Outcome(if rest.results.Ok? then Ok(results + rest.results.value) else rest.results, sent + rest.sent)
  }

  lemma PrependPrepend(r1: seq<Json>, s1: seq<Post>, r2: seq<Json>, s2: seq<Post>, rest: Outcome)
    ensures Prepend(r1, s1, Prepend(r2, s2, rest)) == Prepend(r1 + r2, s1 + s2, rest)
  {
    if rest.results.Ok? {
      assert r1 + (r2 + rest.results.value) == (r1 + r2) + rest.results.value;
    }
    assert s1 + (s2 + rest.sent) == (s1 + s2) + rest.sent;
  }

  /** A paginated run from the `k`-th reply on, with `cursor` as the current
      cursor: `post` builds the post carrying a cursor, `next` reads the
      cursor that follows a page, `failure` is raised for a page with errors,
      and `received` is what the GraphQL client made of each reply. */
  function Pages(post: RequestFor, next: CursorFrom, failure: Error,
                 received: seq<Result<GraphQLResponse>>, cursor: Json, k: nat): Outcome
    decreases |received| - k
  {
    if k >= |received| then Outcome(Err(NoReply), [post(cursor)])
    else
      match received[k]
      case Err(e) => Outcome(Err(e), [post(cursor)])
      case Ok(response) =>
        if |response.errors| > 0 then Outcome(Err(failure), [post(cursor)])
        else
          match next(response.data)
          case Err(e) => Outcome(Err(e), [post(cursor)])
          case Ok(None) => Outcome(Ok([response.data]), [post(cursor)])
          case Ok(Some(c)) => Prepend([response.data], [post(cursor)], Pages(post, next, failure, received, JStr(c), k + 1))
  }

  function PostFn(a: QueryArgs): RequestFor
  {
    cursor => PostAt(a, cursor)
  }

  function NextFn(a: QueryArgs): CursorFrom
  {
    data => NextCursor(a, data)
  }

  function PageErrors(a: QueryArgs): Error
  {
    NerdgraphError("Errors returned on GraphQL post for query: " + a.query)
  }

  /** The run of a whole query over the successive answers of the GraphQL
      client: from the first answer, with a `null` cursor. */
  function QueryOutcome(a: QueryArgs, answers: seq<Result<GraphQLResponse>>): Outcome
  {
    Pages(PostFn(a), NextFn(a), PageErrors(a), answers, JNull, 0)
  }

  /** The post of one iteration of the query loop: the endpoint, the API key
      header merged with the caller's, and the request built from the
      variables as they stand. */
  method PostOfIteration(a: QueryArgs, variables: seq<Var>, cursor: Json) returns (p: Post)
    requires variables == VarsAt(a, cursor) && DistinctNames(variables)
    ensures p == PostFn(a)(cursor)
  {
    var url := if a.endpointOverride != "" then a.endpointOverride else Endpoint(a.region);
    var request := NewGraphQLRequest(a.query, variables, a.mutation);
    p := PostFor(url, map["API-Key" := a.apiKey] + a.headers, request);
  }

  /** One pass of the query loop with the variables as they stand: the post,
      then either the error that ends the run, or the page's data together
      with the cursor that follows it (`None` ends the run). The contract is
      the first step of `Pages` from this cursor. */
  method QueryPage(a: QueryArgs, answers: seq<Result<GraphQLResponse>>, variables: seq<Var>, cursor: Json, k: nat)
    returns (p: Post, page: Result<(Json, Option<string>)>)
    requires variables == VarsAt(a, cursor) && DistinctNames(variables)
    ensures var rest := Pages(PostFn(a), NextFn(a), PageErrors(a), answers, cursor, k);
      && (page.Err? ==> rest == Outcome(Err(page.error), [p]))
      && (page.Ok? && page.value.1.None? ==> rest == Outcome(Ok([page.value.0]), [p]))
      && (page.Ok? && page.value.1.Some? ==>
            k < |answers| && rest == Prepend([page.value.0], [p], Pages(PostFn(a), NextFn(a), PageErrors(a), answers, JStr(page.value.1.value), k + 1)))
  {
    p := PostOfIteration(a, variables, cursor);
    if k >= |answers| {
      return p, Err(NoReply);
    }
    var response := answers[k];
    if response.Err? {
      return p, Err(response.error);
    }
    var data := response.value.data;
    if |response.value.errors| > 0 {
      return p, Err(NerdgraphError("Errors returned on GraphQL post for query: " + a.query));
    }
    var nextPage := NextCursor(a, data);
    assert nextPage == NextFn(a)(data);
    if nextPage.Err? {
      return p, Err(nextPage.error);
    }
    page := Ok((data, nextPage.value));
  }

  /** `NerdgraphClientImpl.query`: posts the request, raises on a page with
      errors, collects each page's data, and repeats with the cursor found in
      the page until the cursor is `null`. The injected GraphQL client answers
      the `k`-th post with `answers[k]`; running out of answers is `NoReply`. */
  method Query(a: QueryArgs, answers: seq<Result<GraphQLResponse>>)
    returns (r: Result<seq<Json>>, sent: seq<Post>)
    requires DistinctNames(a.variables)
    ensures Outcome(r, sent) == QueryOutcome(a, answers)
  {
    var results: seq<Json> := [];
    sent := [];
    var done := false;
    var nextCursor := JNull;
    var variables := a.variables;
    var k := 0;
    ghost var previous: Option<Json> := None;
    ghost var whole := QueryOutcome(a, answers);
    assert [] + whole.sent == whole.sent;
    assert whole.results.Ok? ==> [] + whole.results.value == whole.results.value;
    while !done
      invariant k <= |answers|
      invariant nextCursor == JNull || nextCursor.JStr?
      invariant variables == if previous.None? then a.variables else SetVar(a.variables, CursorVar(previous.value))
      invariant previous.Some? ==> Paginates(a)
      invariant !done ==> whole == Prepend(results, sent, Pages(PostFn(a), NextFn(a), PageErrors(a), answers, nextCursor, k))
      invariant done ==> whole == Outcome(Ok(results), sent)
      decreases |answers| - k + (if done then 0 else 1)
    {
      if Paginates(a) {
        if previous.Some? {
          SetVarTwice(a.variables, CursorVar(previous.value), CursorVar(nextCursor));
        }
        variables := SetVar(variables, CursorVar(nextCursor));
        previous := Some(nextCursor);
        SetVarDistinct(a.variables, CursorVar(nextCursor));
      }
      var p, page := QueryPage(a, answers, variables, nextCursor, k);
      if page.Err? {
        sent := sent + [p];
        return Err(page.error), sent;
      }
      var (data, nextPage) := page.value;
      PrependPrepend(results, sent, [data], [p],
        if nextPage.None? then Outcome(Ok([]), [])
        else Pages(PostFn(a), NextFn(a), PageErrors(a), answers, JStr(nextPage.value), k + 1));
      results := results + [data];
      sent := sent + [p];
      k := k + 1;
      if nextPage.None? {
        nextCursor := JNull;
        done := true;
      } else {
        nextCursor := JStr(nextPage.value);
      }
    }
    r := Ok(results);
  }

  // ---------------------------------------------------------------------------
  // Properties of a run

  /** A run sends at least one post, the first one carrying the starting cursor. */
  lemma {:induction false} PagesSent(post: RequestFor, next: CursorFrom, failure: Error,
                                      received: seq<Result<GraphQLResponse>>, cursor: Json, k: nat)
    ensures var o := Pages(post, next, failure, received, cursor, k);
      |o.sent| >= 1 && o.sent[0] == post(cursor)
    decreases |received| - k
  {
    if k < |received| && received[k].Ok? {
      var response := received[k].value;
      if |response.errors| == 0 && next(response.data).Ok? && next(response.data).value.Some? {
        PagesSent(post, next, failure, received, JStr(next(response.data).value.value), k + 1);
      }
    }
  }

  /** A successful run returns one result per post, each the data of an
      error-free page, and consumes no more replies than there are. */
  lemma {:induction false} PagesSuccessPages(post: RequestFor, next: CursorFrom, failure: Error,
                                              received: seq<Result<GraphQLResponse>>, cursor: Json, k: nat)
    requires Pages(post, next, failure, received, cursor, k).results.Ok?
    ensures var o := Pages(post, next, failure, received, cursor, k);
      && |o.sent| >= 1 && |o.results.value| == |o.sent| && k + |o.sent| <= |received|
      && forall i :: 0 <= i < |o.sent| ==> received[k + i] == Ok(GraphQLResponse(o.results.value[i], []))
    decreases |received| - k
  {
    var o := Pages(post, next, failure, received, cursor, k);
    var response := received[k].value;
    var n := next(response.data);
    assert received[k] == Ok(GraphQLResponse(response.data, []));
    if n.value.Some? {
      var rest := Pages(post, next, failure, received, JStr(n.value.value), k + 1);
      assert o == Prepend([response.data], [post(cursor)], rest);
      PagesSuccessPages(post, next, failure, received, JStr(n.value.value), k + 1);
      forall i | 1 <= i < |o.sent|
        ensures received[k + i] == Ok(GraphQLResponse(o.results.value[i], []))
      {
        assert o.results.value[i] == rest.results.value[i - 1];
        assert k + i == (k + 1) + (i - 1);
      }
    }
  }

  /** In a successful run the first post carries the starting cursor, each
      later post the cursor read from the page before it, and the last page
      is followed by no cursor. */
  lemma {:induction false} PagesSuccessCursors(post: RequestFor, next: CursorFrom, failure: Error,
                                                received: seq<Result<GraphQLResponse>>, cursor: Json, k: nat)
    requires Pages(post, next, failure, received, cursor, k).results.Ok?
    ensures var o := Pages(post, next, failure, received, cursor, k);
      && |o.results.value| == |o.sent| >= 1
      && o.sent[0] == post(cursor)
      && (forall i :: 0 <= i < |o.sent| - 1 ==>
            next(o.results.value[i]).Ok? && next(o.results.value[i]).value.Some? &&
            o.sent[i + 1] == post(JStr(next(o.results.value[i]).value.value)))
      && next(o.results.value[|o.sent| - 1]) == Ok(None)
    decreases |received| - k
  {
    var o := Pages(post, next, failure, received, cursor, k);
    var response := received[k].value;
    var n := next(response.data);
    if n.value.Some? {
      var rest := Pages(post, next, failure, received, JStr(n.value.value), k + 1);
      assert o == Prepend([response.data], [post(cursor)], rest);
      PagesSuccessCursors(post, next, failure, received, JStr(n.value.value), k + 1);
      forall i | 1 <= i < |o.sent| - 1
        ensures next(o.results.value[i]).Ok? && next(o.results.value[i]).value.Some?
        ensures o.sent[i + 1] == post(JStr(next(o.results.value[i]).value.value))
      {
        assert o.results.value[i] == rest.results.value[i - 1];
        assert o.sent[i + 1] == rest.sent[i];
      }
      assert o.results.value[|o.sent| - 1] == rest.results.value[|rest.sent| - 1];
    }
  }

  /** A reply after which the run goes on: an error-free page followed by a cursor. */
  predicate Continues(next: CursorFrom, reply: Result<GraphQLResponse>)
  {
    reply.Ok? && |reply.value.errors| == 0 && next(reply.value.data).Ok? && next(reply.value.data).value.Some?
  }

  /** When the replies from `k` up to `j` each continue the run and the
      reply at `j` carries GraphQL errors, the run ends with `failure`. */
  lemma {:induction false} PagesErrorsRaise(post: RequestFor, next: CursorFrom, failure: Error,
                                             received: seq<Result<GraphQLResponse>>, cursor: Json, k: nat, j: nat)
    requires k <= j < |received|
    requires forall i :: k <= i < j ==> Continues(next, received[i])
    requires received[j].Ok? && |received[j].value.errors| > 0
    ensures Pages(post, next, failure, received, cursor, k).results == Err(failure)
    decreases j - k
  {
    if k < j {
      assert Continues(next, received[k]);
      var c := next(received[k].value.data).value.value;
      var rest := Pages(post, next, failure, received, JStr(c), k + 1);
      PagesErrorsRaise(post, next, failure, received, JStr(c), k + 1, j);
      assert Pages(post, next, failure, received, cursor, k) == Prepend([received[k].value.data], [post(cursor)], rest);
    }
  }

  /** A query whose answers before the `j`-th are error-free pages naming a
      next cursor, and whose `j`-th answer carries GraphQL errors, raises
      "Errors returned on GraphQL post for query: " followed by the query. */
  lemma QueryErrorsRaise(a: QueryArgs, answers: seq<Result<GraphQLResponse>>, j: nat)
    requires j < |answers|
    requires forall i :: 0 <= i < j ==>
      (answers[i].Ok? && |answers[i].value.errors| == 0
       && NextCursor(a, answers[i].value.data).Ok? && NextCursor(a, answers[i].value.data).value.Some?)
    requires answers[j].Ok? && |answers[j].value.errors| > 0
    ensures QueryOutcome(a, answers).results == Err(NerdgraphError("Errors returned on GraphQL post for query: " + a.query))
  {
    forall i | 0 <= i < j
      ensures Continues(NextFn(a), answers[i])
    {
      assert NextFn(a)(answers[i].value.data) == NextCursor(a, answers[i].value.data);
    }
    PagesErrorsRaise(PostFn(a), NextFn(a), PageErrors(a), answers, JNull, 0, j);
  }

  /** A successful query: one payload per post, each the data of an
      error-free answer; the first post sends `cursor = null` when the query
      paginates, each later one the cursor string read at the cursor path of
      the page before it, and the last page's cursor is `null` or missing. */
  lemma QuerySuccess(a: QueryArgs, answers: seq<Result<GraphQLResponse>>)
    requires QueryOutcome(a, answers).results.Ok?
    ensures var o := QueryOutcome(a, answers);
      && |o.results.value| == |o.sent| >= 1 && |o.sent| <= |answers|
      && (forall i :: 0 <= i < |o.sent| ==> answers[i] == Ok(GraphQLResponse(o.results.value[i], [])))
      && o.sent[0] == PostAt(a, JNull)
      && (forall i :: 0 <= i < |o.sent| - 1 ==>
            NextCursor(a, o.results.value[i]).Ok? && NextCursor(a, o.results.value[i]).value.Some? &&
            o.sent[i + 1] == PostAt(a, JStr(NextCursor(a, o.results.value[i]).value.value)))
      && NextCursor(a, o.results.value[|o.sent| - 1]) == Ok(None)
  {
    PagesSuccessPages(PostFn(a), NextFn(a), PageErrors(a), answers, JNull, 0);
    PagesSuccessCursors(PostFn(a), NextFn(a), PageErrors(a), answers, JNull, 0);
    var o := QueryOutcome(a, answers);
    assert forall i :: 0 <= i < |o.sent| ==> answers[0 + i] == answers[i];
  }

  /** Without a cursor path a query sends exactly one post and, when it
      succeeds, returns exactly one payload. */
  lemma NoCursorSinglePage(a: QueryArgs, answers: seq<Result<GraphQLResponse>>)
    requires !Paginates(a)
    ensures |QueryOutcome(a, answers).sent| == 1
    ensures QueryOutcome(a, answers).results.Ok? ==> |QueryOutcome(a, answers).results.value| == 1
  {
    if |answers| > 0 && answers[0].Ok? && |answers[0].value.errors| == 0 {
      assert NextFn(a)(answers[0].value.data) == Ok(None);
    }
  }

  /** The first post of a paginating query sends `cursor = null`. */
  lemma FirstCursorIsNull(a: QueryArgs, answers: seq<Result<GraphQLResponse>>)
    requires Paginates(a)
    ensures "cursor" in QueryOutcome(a, answers).sent[0].payload.variables
    ensures QueryOutcome(a, answers).sent[0].payload.variables["cursor"] == JNull
  {
    PagesSent(PostFn(a), NextFn(a), PageErrors(a), answers, JNull, 0);
    PostAtShape(a, JNull);
  }
}
