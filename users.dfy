/** src/nerdgraph/users.ts: the users client. Each lookup is one Nerdgraph
    query followed by cardinality and shape checks on the pages it returns. */
module Users {
  import opened Base
  import opened Strings
  import opened Json
  import opened TypeHelper
  import opened GraphQL
  import opened Nerdgraph
  import opened Clients

  /** The fields of `UsersClientImpl` other than the Nerdgraph client. */
  datatype UsersConfig = UsersConfig(apiKey: string, region: Region)

  /** `isUserSearchResult`: an object with string `authenticationDomainId` and `id`. */
  function IsUserSearchResult(obj: Json): (r: bool)
    ensures r <==> obj.JObj? && Get(obj, "authenticationDomainId").JStr? && Get(obj, "id").JStr?
  {
    IsObjectAsIndexableObject(obj) && IsString(Get(obj, "authenticationDomainId")) && IsString(Get(obj, "id"))
  }

  /** `isUserEntity`: an object with string `guid` and `name`. */
  function IsUserEntity(obj: Json): (r: bool)
    ensures r <==> obj.JObj? && Get(obj, "guid").JStr? && Get(obj, "name").JStr?
  {
    IsObjectAsIndexableObject(obj) && IsString(Get(obj, "guid")) && IsString(Get(obj, "name"))
  }

  /** `customerAdministration.users.items`, by keys. */
  const UserItemsPath: seq<string> := ["customerAdministration", "users", "items"]

  /** `actor.entitySearch.results.entities`, by keys. */
  const UserEntitiesPath: seq<string> := ["actor", "entitySearch", "results", "entities"]

  function ResultCountError(results: seq<Json>): Error
  {
    NerdgraphError("Expected exactly one result but found " + NatToString(|results|))
  }

  // ---------------------------------------------------------------------------
  // getUserIdByEmail

  /** The query of `getUserIdByEmail`: a read with the domain and the email
      as variables. */
  function UserIdCall(cfg: UsersConfig, domain: string, email: string): NerdgraphCall
  {
    NerdgraphCall(cfg.apiKey, UserIdByEmailQuery,
      [Var("authenticationDomainId", "ID", JStr(domain)), Var("email", "String", JStr(email))],
      false, None, cfg.region)
  }

  /** The checks `getUserIdByEmail` applies to the pages of its query. It
      raises unless exactly one page came back; no items (`null`, missing or
      `[]`) is no user; the single item must be a search result of the
      requested domain, and its `id` is the answer. Everything else raises. */
  function UserIdOf(domain: string, results: seq<Json>): (r: Result<Option<string>>)
    ensures |results| != 1 ==> r == Err(ResultCountError(results))
    ensures r == Ok(None) <==>
      |results| == 1 && FindValue(results[0], UserItemsPath) in {Ok(JNull), Ok(JArr([]))}
    ensures r.Ok? && r.value.Some? <==>
      && |results| == 1 && FindValue(results[0], UserItemsPath).Ok?
      && var items := FindValue(results[0], UserItemsPath).value;
      && items.JArr? && |items.items| == 1
      && IsUserSearchResult(items.items[0])
      && Get(items.items[0], "authenticationDomainId") == JStr(domain)
    ensures r.Ok? && r.value.Some? ==>
      r.value.value == Get(FindValue(results[0], UserItemsPath).value.items[0], "id").s
  {
    if |results| != 1 then Err(ResultCountError(results))
    else
      var items :- FindValue(results[0], UserItemsPath);
      if items == JNull then Ok(None)
      else if !IsArray(items) then Err(NerdgraphError("Expected users items array but found " + TypeOf(items)))
      else if |items.items| == 0 then Ok(None)
      else if |items.items| > 1 then Err(NerdgraphError("Expected exactly one user but found " + NatToString(|items.items|)))
      else
        var user := items.items[0];
        if !IsUserSearchResult(user) then Err(NerdgraphError("Expected user search result but found incompatible result"))
        else if domain != Get(user, "authenticationDomainId").s then
          Err(NerdgraphError("Expected authentication domain ID " + domain + " but found " + Get(user, "authenticationDomainId").s))
        else Ok(Some(Get(user, "id").s))
  }

  /** `getUserIdByEmail(authenticationDomainId, email)`. */
  function GetUserIdByEmail(env: Env, log: seq<Call>, cfg: UsersConfig, domain: string, email: string): Traced<Option<string>>
  {
    var log' := log + [Query(UserIdCall(cfg, domain, email))];
    match env.nerdgraph(log')
    case Err(e) => Traced(Err(e), log')
    case Ok(results) => Traced(UserIdOf(domain, results), log')
  }

  /** The search result the users query lists for a user. */
  function SearchResultJson(domain: string, id: string): Json
  {
    JObj(map["authenticationDomainId" := JStr(domain), "id" := JStr(id)])
  }

  /** A page listing one search result of the requested domain yields its id. */
  lemma UserIdRoundTrip(domain: string, id: string)
    ensures UserIdOf(domain, [Nest(UserItemsPath, JArr([SearchResultJson(domain, id)]))]) == Ok(Some(id))
  {
    var user := SearchResultJson(domain, id);
    FindValueNest(UserItemsPath, JArr([user]));
    assert FindValue(Nest(UserItemsPath, JArr([user])), UserItemsPath) == Ok(JArr([user]));
    assert IsUserSearchResult(user) && Get(user, "authenticationDomainId") == JStr(domain);
  }

  /** A search result of another domain raises. */
  lemma UserIdOtherDomain(domain: string, other: string, id: string)
    requires other != domain
    ensures UserIdOf(domain, [Nest(UserItemsPath, JArr([SearchResultJson(other, id)]))]).Err?
  {
    FindValueNest(UserItemsPath, JArr([SearchResultJson(other, id)]));
  }

  // ---------------------------------------------------------------------------
  // getUserById

  /** The text `userId` takes in a template literal. */
  function IdText(id: UserId): string
  {
    match id
    case NumId(n) => IntToString(n)
    case StrId(s) => s
  }

  /** The entity search of `getUserById`, with the id written in literally. */
  function SearchText(id: UserId): string
  {
    "type = 'USER' and tags.userId = '" + IdText(id) + "'"
  }

  /** The query of `getUserById`: a read of the search text, without variables. */
  function UserByIdCall(cfg: UsersConfig, id: UserId): NerdgraphCall
  {
    NerdgraphCall(cfg.apiKey, UserByIdQuery(SearchText(id)), [], false, None, cfg.region)
  }

  /** The search text tells ids apart exactly as their text does. */
  lemma SearchTextEmbedsId(a: UserId, b: UserId)
    ensures SearchText(a) == SearchText(b) <==> IdText(a) == IdText(b)
  {
    var prefix := "type = 'USER' and tags.userId = '";
    if SearchText(a) == SearchText(b) {
      var n := |prefix|;
      assert |IdText(a)| == |IdText(b)|;
      assert IdText(a) == SearchText(a)[n..n + |IdText(a)|];
      assert IdText(b) == SearchText(b)[n..n + |IdText(b)|];
    }
  }

  /** The checks `getUserById` applies to the pages of its query: the same
      cardinality rules as the id lookup, and the single entity must have a
      string `guid` and `name`. */
  function UserEntityOf(results: seq<Json>): (r: Result<Option<UserEntity>>)
    ensures |results| != 1 ==> r == Err(ResultCountError(results))
    ensures r == Ok(None) <==>
      |results| == 1 && FindValue(results[0], UserEntitiesPath) in {Ok(JNull), Ok(JArr([]))}
    ensures r.Ok? && r.value.Some? <==>
      && |results| == 1 && FindValue(results[0], UserEntitiesPath).Ok?
      && var entities := FindValue(results[0], UserEntitiesPath).value;
      && entities.JArr? && |entities.items| == 1 && IsUserEntity(entities.items[0])
    ensures r.Ok? && r.value.Some? ==>
      var user := FindValue(results[0], UserEntitiesPath).value.items[0];
      r.value.value == UserEntity(Get(user, "guid").s, Get(user, "name").s)
  {
    if |results| != 1 then Err(ResultCountError(results))
    else
      var entities :- FindValue(results[0], UserEntitiesPath);
      if entities == JNull then Ok(None)
      else if !IsArray(entities) then
        Err(NerdgraphError("Expected entity search results entities array but found " + TypeOf(entities)))
      else if |entities.items| == 0 then Ok(None)
      else if |entities.items| > 1 then
        Err(NerdgraphError("Expected exactly one user entity but found " + NatToString(|entities.items|)))
      else
        var user := entities.items[0];
        if !IsUserEntity(user) then Err(NerdgraphError("Expected user entity but found incompatible result"))
        else Ok(Some(UserEntity(Get(user, "guid").s, Get(user, "name").s)))
  }

  /** `getUserById(userId)`. */
  function GetUserById(env: Env, log: seq<Call>, cfg: UsersConfig, id: UserId): Traced<Option<UserEntity>>
  {
    var log' := log + [Query(UserByIdCall(cfg, id))];
    match env.nerdgraph(log')
    case Err(e) => Traced(Err(e), log')
    case Ok(results) => Traced(UserEntityOf(results), log')
  }

  /** The entity the search lists for a user. */
  function UserEntityJson(u: UserEntity): Json
  {
    JObj(map["guid" := JStr(u.guid), "name" := JStr(u.name)])
  }

  /** A page listing one user entity yields that user. */
  lemma UserEntityRoundTrip(u: UserEntity)
    ensures UserEntityOf([Nest(UserEntitiesPath, JArr([UserEntityJson(u)]))]) == Ok(Some(u))
  {
    var user := UserEntityJson(u);
    FindValueNest(UserEntitiesPath, JArr([user]));
    assert FindValue(Nest(UserEntitiesPath, JArr([user])), UserEntitiesPath) == Ok(JArr([user]));
    assert IsUserEntity(user);
  }

  // ---------------------------------------------------------------------------
  // getUserByEmail

  /** `getUserByEmail(authenticationDomainId, email)`: the id lookup, then
      the lookup by that id unless there is none. */
  function GetUserByEmail(env: Env, log: seq<Call>, cfg: UsersConfig, domain: string, email: string): Traced<Option<UserEntity>>
  {
    var ids := GetUserIdByEmail(env, log, cfg, domain, email);
    match ids.result
    case Err(e) => Traced(Err(e), ids.log)
    case Ok(None) => Traced(Ok(None), ids.log)
    case Ok(Some(userId)) => GetUserById(env, ids.log, cfg, StrId(userId))
  }

  /** `getUserByEmail` first asks for the id by domain and email. When there
      is no such id it answers `null` without a second query; otherwise its
      second and last query searches for that id, written literally into
      the search text, with no variables, and its answer is that lookup's. */
  lemma GetUserByEmailCalls(env: Env, log: seq<Call>, cfg: UsersConfig, domain: string, email: string)
    ensures var t := GetUserByEmail(env, log, cfg, domain, email);
      var first := log + [Query(UserIdCall(cfg, domain, email))];
      && first <= t.log
      && (t.log == first <==> !(GetUserIdByEmail(env, log, cfg, domain, email).result.Ok? &&
                                GetUserIdByEmail(env, log, cfg, domain, email).result.value.Some?))
      && (GetUserIdByEmail(env, log, cfg, domain, email).result == Ok(None) ==> t.result == Ok(None))
      && (forall id :: GetUserIdByEmail(env, log, cfg, domain, email).result == Ok(Some(id)) ==>
            && t.log == first + [Query(NerdgraphCall(cfg.apiKey, UserByIdQuery(SearchText(StrId(id))), [], false, None, cfg.region))]
            && t.result == GetUserById(env, first, cfg, StrId(id)).result)
  {
  }
}
