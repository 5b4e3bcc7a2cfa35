/** src/nerdgraph/teams.ts: the teams client. It finds a team by name across
    the pages of an entity search, lists a team's members through the users
    client, adds and removes members, diffs a wanted member list against the
    current one, and creates, updates and deletes teams, re-reading what the
    server reports after each mutation. Every operation threads the call
    history of the injected clients (see `Clients`). */
module Teams {
  import opened Base
  import opened Strings
  import opened Json
  import opened TypeHelper
  import opened GraphQL
  import opened Nerdgraph
  import opened Clients
  import opened TeamTypes
  import opened Membership

  /** The fields of `TeamsClientImpl` other than the two injected clients. */
  datatype TeamsConfig = TeamsConfig(orgId: string, apiKey: string, region: Region)

  /** Whether the calls appended to `log` to make `log'` are all reads. */
  predicate ReadsOnly(log: seq<Call>, log': seq<Call>)
  {
    log <= log' && forall k :: |log| <= k < |log'| ==> !IsMutation(log'[k])
  }

  lemma ReadsOnlyTransitive(a: seq<Call>, b: seq<Call>, c: seq<Call>)
    requires ReadsOnly(a, b) && ReadsOnly(b, c)
    ensures ReadsOnly(a, c)
  {
    forall k | |a| <= k < |c|
      ensures !IsMutation(c[k])
    {
      if k < |b| {
        assert c[k] == b[k];
      }
    }
  }

  // ---------------------------------------------------------------------------
  // Error messages

  const EntitiesArrayExpected: string := "Expected entity management entity search entities array but found "
  const ItemsArrayExpected: string := "Expected entity management collection elements items array but found "
  const NotUserItem: string := "Expected user item but found incompatible result"
  const InvalidUserId: string := "Invalid userId returned for collection: "
  const IdsArrayExpected: string := "Expected added user IDs array but found "
  const AddDiffer: string := "Expected the set of users to add and the set of users added to be equal but they differ"
  const UpdatedEntityExpected: string := "Expected updated team entity but found incompatible result"
  const GuidExpected: string := "Expected team entity GUID but found "
  const RemoveDiffer: string := "Expected the set of users to remove and the set of users removed to be equal but they differ"

  // ---------------------------------------------------------------------------
  // getTeamByName

  /** `actor.entityManagement.entitySearch.entities`, by keys. */
  const EntitiesPath: seq<string> := ["actor", "entityManagement", "entitySearch", "entities"]

  /** The entity search of `getTeamByName`: a paginated read without variables. */
  function TeamsCall(cfg: TeamsConfig): NerdgraphCall
  {
    NerdgraphCall(cfg.apiKey, TeamsQuery, [], false,
      Some("actor.entityManagement.entitySearch.nextCursor"), cfg.region)
  }

  /** The test the inner loop of `getTeamByName` applies to an entity. */
  predicate NamedEntity(entity: Json, name: string)
  {
    IsObjectAsIndexableObject(entity) && Get(entity, "name") == JStr(name)
  }

  /** The position of the first entity from `j` on named `name`, if any. */
  function FirstNamed(entities: seq<Json>, name: string, j: nat): (r: Option<nat>)
    requires j <= |entities|
    ensures r.Some? ==> j <= r.value < |entities| && NamedEntity(entities[r.value], name)
    ensures r.Some? ==> forall k :: j <= k < r.value ==> !NamedEntity(entities[k], name)
    ensures r.None? <==> forall k :: j <= k < |entities| ==> !NamedEntity(entities[k], name)
    decreases |entities| - j
  {
    if j == |entities| then None
    else if NamedEntity(entities[j], name) then Some(j)
    else FirstNamed(entities, name, j + 1)
  }

  /** A page the search passes over: no entities, or none named `name`. */
  predicate PassedOver(page: Json, name: string)
  {
    var entities := FindValue(page, EntitiesPath);
    entities == Ok(JNull) || (entities.Ok? && entities.value.JArr? && FirstNamed(entities.value.items, name, 0).None?)
  }

  /** What `getTeamByName` makes of one page: the team found on it, or
      `None` to go on with the next page. Entities that are absent or `null`
      are passed over, entities that are not an array raise, and the first
      entity named `name` is unmarshalled, so whatever is found carries the
      requested name. */
  function SearchPage(name: string, page: Json): (r: Result<Option<TeamEntity>>)
    ensures r == Ok(None) <==> PassedOver(page, name)
    ensures r.Ok? && r.value.Some? ==> r.value.value.name == name
  {
    var entities :- FindValue(page, EntitiesPath);
    if entities == JNull then Ok(None)
    else if !IsArray(entities) then
      Err(NerdgraphError(EntitiesArrayExpected + TypeOf(entities)))
    else
      match FirstNamed(entities.items, name, 0)
      case Some(j) =>
        var team :- UnmarshalTeamEntity(entities.items[j]);
        Ok(Some(team))
      case None => Ok(None)
  }

  /** The search `getTeamByName` runs over the pages from `i` on, pages in
      order: the first page on which it finds a team or fails decides. */
  function TeamInPages(name: string, pages: seq<Json>, i: nat): (r: Result<Option<TeamEntity>>)
    requires i <= |pages|
    ensures r.Ok? && r.value.Some? ==> r.value.value.name == name
    decreases |pages| - i
  {
    if i == |pages| then Ok(None)
    else
      var found :- SearchPage(name, pages[i]);
      if found.Some? then Ok(found) else TeamInPages(name, pages, i + 1)
  }

  /** `getTeamByName(name)` as a function of the injected client. */
  function TeamByName(env: Env, log: seq<Call>, cfg: TeamsConfig, name: string): (t: Traced<Option<TeamEntity>>)
    ensures t.result.Ok? && t.result.value.Some? ==> t.result.value.value.name == name
  {
    var log' := log + [Query(TeamsCall(cfg))];
    match env.nerdgraph(log')
    case Err(e) => Traced(Err(e), log')
    case Ok(results) => Traced(TeamInPages(name, results, 0), log')
  }

  /** `getTeamByName(name)`: the nested loops over pages and entities. */
  method GetTeamByName(env: Env, log: seq<Call>, cfg: TeamsConfig, name: string) returns (t: Traced<Option<TeamEntity>>)
    ensures t == TeamByName(env, log, cfg, name)
  {
    var calls := log + [Query(TeamsCall(cfg))];
    var answer := env.nerdgraph(calls);
    if answer.Err? {
      return Traced(Err(answer.error), calls);
    }
    var results := answer.value;
    for i := 0 to |results|
      invariant TeamInPages(name, results, i) == TeamInPages(name, results, 0)
    {
      var found := FindValue(results[i], EntitiesPath);
      if found.Err? {
        TeamInPagesDecided(name, results, i, Err(found.error));
        return Traced(Err(found.error), calls);
      }
      var entities := found.value;
      if entities == JNull {
        TeamInPagesNext(name, results, i);
        continue;
      }
      if !IsArray(entities) {
        TeamInPagesDecided(name, results, i, Err(NerdgraphError(EntitiesArrayExpected + TypeOf(entities))));
        return Traced(Err(NerdgraphError(EntitiesArrayExpected + TypeOf(entities))), calls);
      }
      for j := 0 to |entities.items|
        invariant FirstNamed(entities.items, name, j) == FirstNamed(entities.items, name, 0)
      {
        var entity := entities.items[j];
        if IsObjectAsIndexableObject(entity) && Get(entity, "name") == JStr(name) {
          assert FirstNamed(entities.items, name, 0) == Some(j);
          var team := UnmarshalTeamEntity(entity);
          if team.Err? {
            TeamInPagesDecided(name, results, i, Err(team.error));
            return Traced(Err(team.error), calls);
          }
          TeamInPagesDecided(name, results, i, Ok(Some(team.value)));
          return Traced(Ok(Some(team.value)), calls);
        }
      }
      assert PassedOver(results[i], name);
      TeamInPagesNext(name, results, i);
    }
    return Traced(Ok(None), calls);
  }

  /** A page passed over hands the search on to the next page. */
  lemma TeamInPagesNext(name: string, pages: seq<Json>, i: nat)
    requires i < |pages| && PassedOver(pages[i], name)
    ensures TeamInPages(name, pages, i) == TeamInPages(name, pages, i + 1)
  {
    assert SearchPage(name, pages[i]) == Ok(None);
  }

  /** A page that raises or finds the team decides the search. */
  lemma TeamInPagesDecided(name: string, pages: seq<Json>, i: nat, r: Result<Option<TeamEntity>>)
    requires i < |pages| && SearchPage(name, pages[i]) == r
    requires r.Err? || r.value.Some?
    ensures TeamInPages(name, pages, i) == r
  {
  }

  /** Steps that each leave the outcome unchanged leave it unchanged
      across the whole range. */
  lemma {:induction false} TeamInPagesChain(name: string, pages: seq<Json>, i: nat, k: nat)
    requires i <= k <= |pages|
    requires forall m :: i <= m < k ==> TeamInPages(name, pages, m) == TeamInPages(name, pages, m + 1)
    ensures TeamInPages(name, pages, i) == TeamInPages(name, pages, k)
    decreases k - i
  {
    if i < k {
      TeamInPagesChain(name, pages, i + 1, k);
    }
  }

  /** Pages passed over do not change the outcome of the search. */
  lemma TeamInPagesSkips(name: string, pages: seq<Json>, i: nat, k: nat)
    requires i <= k <= |pages|
    requires forall m :: i <= m < k ==> PassedOver(pages[m], name)
    ensures TeamInPages(name, pages, i) == TeamInPages(name, pages, k)
  {
    forall m | i <= m < k
      ensures TeamInPages(name, pages, m) == TeamInPages(name, pages, m + 1)
    {
      TeamInPagesNext(name, pages, m);
    }
    TeamInPagesChain(name, pages, i, k);
  }

  /** When every page is passed over, there is no such team. */
  lemma NoNamedTeam(name: string, pages: seq<Json>)
    requires forall m :: 0 <= m < |pages| ==> PassedOver(pages[m], name)
    ensures TeamInPages(name, pages, 0) == Ok(None)
  {
    TeamInPagesSkips(name, pages, 0, |pages|);
  }

  /** A page listing a well-formed team after entities of other names
      yields that team. */
  lemma SearchPageFinds(t: TeamEntity, others: seq<Json>)
    requires WellFormedTeam(t)
    requires forall k :: 0 <= k < |others| ==> !NamedEntity(others[k], t.name)
    ensures SearchPage(t.name, Nest(EntitiesPath, JArr(others + [TeamEntityJson(t)]))) == Ok(Some(t))
  {
    var entities := others + [TeamEntityJson(t)];
    FindValueNest(EntitiesPath, JArr(entities));
    assert FindValue(Nest(EntitiesPath, JArr(entities)), EntitiesPath) == Ok(JArr(entities));
    TeamEntityJsonFields(t);
    assert NamedEntity(entities[|others|], t.name);
    assert FirstNamed(entities, t.name, 0) == Some(|others|);
    TeamEntityRoundTrip(t);
  }

  /** A well-formed team listed after entities of other names, on a page
      after pages that are passed over, is the one found. */
  lemma TeamByNameRoundTrip(t: TeamEntity, before: seq<Json>, others: seq<Json>, after: seq<Json>)
    requires WellFormedTeam(t)
    requires forall m :: 0 <= m < |before| ==> PassedOver(before[m], t.name)
    requires forall k :: 0 <= k < |others| ==> !NamedEntity(others[k], t.name)
    ensures TeamInPages(t.name, before + [Nest(EntitiesPath, JArr(others + [TeamEntityJson(t)]))] + after, 0) == Ok(Some(t))
  {
    var page := Nest(EntitiesPath, JArr(others + [TeamEntityJson(t)]));
    var pages := before + [page] + after;
    forall m | 0 <= m < |before|
      ensures PassedOver(pages[m], t.name)
    {
      assert pages[m] == before[m];
    }
    TeamInPagesSkips(t.name, pages, 0, |before|);
    assert pages[|before|] == page;
    SearchPageFinds(t, others);
  }

  /** `getTeamByName` only reads. */
  lemma TeamByNameReads(env: Env, log: seq<Call>, cfg: TeamsConfig, name: string)
    ensures ReadsOnly(log, TeamByName(env, log, cfg, name).log)
  {
  }
  // ---------------------------------------------------------------------------
  // getTeamMembers

  /** `actor.entityManagement.collectionElements.items`, by keys. */
  const ItemsPath: seq<string> := ["actor", "entityManagement", "collectionElements", "items"]

  /** The membership query of `getTeamMembers`: a paginated read of the
      team's membership collection. */
  function MembersCall(cfg: TeamsConfig, team: TeamEntity): NerdgraphCall
  {
    NerdgraphCall(cfg.apiKey, TeamMembersQuery, [Var("collectionId", "ID!", JStr(team.membershipId))], false,
      Some("actor.entityManagement.collectionElements.nextCursor"), cfg.region)
  }

  /** The inner loop of `getTeamMembers` over the items of one page from
      item `j` on, with `members` found so far: each item must have a
      numeric `userId`, which must resolve to a user through the users
      client; the users found are appended in item order. */
  function LookUpItems(env: Env, log: seq<Call>, items: seq<Json>, j: nat, members: seq<UserEntity>): Traced<seq<UserEntity>>
    requires j <= |items|
    decreases |items| - j
  {
    if j == |items| then Traced(Ok(members), log)
    else if !IsUserItem(items[j]) then
      Traced(Err(NerdgraphError(NotUserItem)), log)
    else
      var userId := Get(items[j], "userId").n;
      var log' := log + [UserById(NumId(userId))];
      match env.users(log')
      case Err(e) => Traced(Err(e), log')
      case Ok(None) => Traced(Err(NerdgraphError(InvalidUserId + IntToString(userId))), log')
      case Ok(Some(user)) => LookUpItems(env, log', items, j + 1, members + [user])
  }

  /** The outer loop of `getTeamMembers` from page `i` on: pages without
      items are passed over and items that are not an array raise. */
  function MembersOfPages(env: Env, log: seq<Call>, pages: seq<Json>, i: nat, members: seq<UserEntity>): Traced<seq<UserEntity>>
    requires i <= |pages|
    decreases |pages| - i
  {
    if i == |pages| then Traced(Ok(members), log)
    else
      match FindValue(pages[i], ItemsPath)
      case Err(e) => Traced(Err(e), log)
      case Ok(items) =>
        if items == JNull then MembersOfPages(env, log, pages, i + 1, members)
        else if !IsArray(items) then
          Traced(Err(NerdgraphError(ItemsArrayExpected + TypeOf(items))), log)
        else
          var found := LookUpItems(env, log, items.items, 0, members);
          if found.result.Err? then found
          else MembersOfPages(env, found.log, pages, i + 1, found.result.value)
  }

  /** `getTeamMembers(teamEntity)` as a function of the injected clients. */
  function TeamMembers(env: Env, log: seq<Call>, cfg: TeamsConfig, team: TeamEntity): Traced<seq<UserEntity>>
  {
    var log' := log + [Query(MembersCall(cfg, team))];
    match env.nerdgraph(log')
    case Err(e) => Traced(Err(e), log')
    case Ok(results) => MembersOfPages(env, log', results, 0, [])
  }

  /** The inner loop of `getTeamMembers`, pushing each user found. */
  method PushItemUsers(env: Env, log: seq<Call>, items: seq<Json>, members: seq<UserEntity>) returns (t: Traced<seq<UserEntity>>)
    ensures t == LookUpItems(env, log, items, 0, members)
  {
    var calls := log;
    var found := members;
    for j := 0 to |items|
      invariant LookUpItems(env, calls, items, j, found) == LookUpItems(env, log, items, 0, members)
    {
      var item := items[j];
      if !IsUserItem(item) {
        return Traced(Err(NerdgraphError(NotUserItem)), calls);
      }
      var userId := Get(item, "userId").n;
      calls := calls + [UserById(NumId(userId))];
      var user := env.users(calls);
      if user.Err? {
        return Traced(Err(user.error), calls);
      }
      if user.value.None? {
        return Traced(Err(NerdgraphError(InvalidUserId + IntToString(userId))), calls);
      }
      found := found + [user.value.value];
    }
    return Traced(Ok(found), calls);
  }

  /** `getTeamMembers(teamEntity)`: the loop over pages. */
  method GetTeamMembers(env: Env, log: seq<Call>, cfg: TeamsConfig, team: TeamEntity) returns (t: Traced<seq<UserEntity>>)
    ensures t == TeamMembers(env, log, cfg, team)
  {
    var calls := log + [Query(MembersCall(cfg, team))];
    var answer := env.nerdgraph(calls);
    if answer.Err? {
      return Traced(Err(answer.error), calls);
    }
    var results := answer.value;
    var members: seq<UserEntity> := [];
    for i := 0 to |results|
      invariant MembersOfPages(env, calls, results, i, members) == TeamMembers(env, log, cfg, team)
    {
      var found := FindValue(results[i], ItemsPath);
      if found.Err? {
        return Traced(Err(found.error), calls);
      }
      var items := found.value;
      if items == JNull {
        continue;
      }
      if !IsArray(items) {
        return Traced(Err(NerdgraphError(ItemsArrayExpected + TypeOf(items))), calls);
      }
      var pushed := PushItemUsers(env, calls, items.items, members);
      if pushed.result.Err? {
        return pushed;
      }
      calls, members := pushed.log, pushed.result.value;
    }
    return Traced(Ok(members), calls);
  }
  /** A page whose items `getTeamMembers` can take: none, or user items only. */
  predicate ListsUserItems(page: Json)
  {
    var items := FindValue(page, ItemsPath);
    items == Ok(JNull) || (items.Ok? && items.value.JArr? && forall k :: 0 <= k < |items.value.items| ==> IsUserItem(items.value.items[k]))
  }

  /** The user ids of a list of user items, in order. */
  function ItemIds(items: seq<Json>): (ids: seq<int>)
    requires forall k :: 0 <= k < |items| ==> IsUserItem(items[k])
    ensures |ids| == |items|
    ensures forall k :: 0 <= k < |items| ==> JNum(ids[k]) == Get(items[k], "userId")
  {
    seq(|items|, k requires 0 <= k < |items| && IsUserItem(items[k]) => Get(items[k], "userId").n)
  }

  /** The user ids the pages from `i` on list, pages in order and items in order. */
  function PageUserIds(pages: seq<Json>, i: nat): seq<int>
    requires i <= |pages|
    requires forall m :: i <= m < |pages| ==> ListsUserItems(pages[m])
    decreases |pages| - i
  {
    if i == |pages| then []
    else
      assert ListsUserItems(pages[i]);
      var items := FindValue(pages[i], ItemsPath).value;
      (if items == JNull then [] else ItemIds(items.items)) + PageUserIds(pages, i + 1)
  }

  /** The lookups of a list of user ids, in order. */
  function Lookups(ids: seq<int>): (calls: seq<Call>)
    ensures |calls| == |ids|
    ensures forall k :: 0 <= k < |ids| ==> calls[k] == UserById(NumId(ids[k]))
  {
    seq(|ids|, k requires 0 <= k < |ids| => UserById(NumId(ids[k])))
  }

  /** A reference definition of the member lookup: the user ids looked up one
      after the other, each of which must resolve to a user. */
  function LookUpIds(env: Env, log: seq<Call>, ids: seq<int>, members: seq<UserEntity>): Traced<seq<UserEntity>>
    decreases |ids|
  {
    if ids == [] then Traced(Ok(members), log)
    else
      var log' := log + [UserById(NumId(ids[0]))];
      match env.users(log')
      case Err(e) => Traced(Err(e), log')
      case Ok(None) => Traced(Err(NerdgraphError(InvalidUserId + IntToString(ids[0]))), log')
      case Ok(Some(user)) => LookUpIds(env, log', ids[1..], members + [user])
  }

  /** A successful lookup makes one call per id, in order, and appends one
      user per id to the members found before. */
  lemma {:induction false} LookUpIdsCalls(env: Env, log: seq<Call>, ids: seq<int>, members: seq<UserEntity>)
    ensures var t := LookUpIds(env, log, ids, members);
      t.result.Ok? ==>
        && t.log == log + Lookups(ids)
        && |t.result.value| == |members| + |ids|
        && t.result.value[..|members|] == members
    decreases |ids|
  {
    if ids != [] {
      var log' := log + [UserById(NumId(ids[0]))];
      if env.users(log').Ok? && env.users(log').value.Some? {
        var user := env.users(log').value.value;
        LookUpIdsCalls(env, log', ids[1..], members + [user]);
        var t := LookUpIds(env, log', ids[1..], members + [user]);
        if t.result.Ok? {
          assert Lookups(ids) == [UserById(NumId(ids[0]))] + Lookups(ids[1..]);
          assert t.result.value[..|members|] == (t.result.value[..|members| + 1])[..|members|];
        }
      }
    }
  }

  /** A successful inner loop means every item from `j` on was a user item. */
  lemma {:induction false} LookUpItemsOk(env: Env, log: seq<Call>, items: seq<Json>, j: nat, members: seq<UserEntity>)
    requires j <= |items|
    ensures LookUpItems(env, log, items, j, members).result.Ok? ==> forall k :: j <= k < |items| ==> IsUserItem(items[k])
    decreases |items| - j
  {
    if j < |items| && IsUserItem(items[j]) {
      var log' := log + [UserById(NumId(Get(items[j], "userId").n))];
      if env.users(log').Ok? && env.users(log').value.Some? {
        LookUpItemsOk(env, log', items, j + 1, members + [env.users(log').value.value]);
      }
    }
  }

  /** A successful outer loop means every page from `i` on was one it can take. */
  lemma {:induction false} MembersOfPagesOk(env: Env, log: seq<Call>, pages: seq<Json>, i: nat, members: seq<UserEntity>)
    requires i <= |pages|
    ensures MembersOfPages(env, log, pages, i, members).result.Ok? ==> forall m :: i <= m < |pages| ==> ListsUserItems(pages[m])
    decreases |pages| - i
  {
    if i < |pages| {
      var items := FindValue(pages[i], ItemsPath);
      if items == Ok(JNull) {
        MembersOfPagesOk(env, log, pages, i + 1, members);
      } else if items.Ok? && items.value.JArr? {
        var found := LookUpItems(env, log, items.value.items, 0, members);
        LookUpItemsOk(env, log, items.value.items, 0, members);
        if found.result.Ok? {
          MembersOfPagesOk(env, found.log, pages, i + 1, found.result.value);
        }
      }
    }
  }

  /** The inner loop over user items, followed by further lookups, is the
      lookup of their ids followed by those. */
  lemma {:induction false} LookUpItemsByIds(env: Env, log: seq<Call>, items: seq<Json>, j: nat, members: seq<UserEntity>, rest: seq<int>)
    requires j <= |items|
    requires forall k :: 0 <= k < |items| ==> IsUserItem(items[k])
    ensures var found := LookUpItems(env, log, items, j, members);
      (if found.result.Err? then found else LookUpIds(env, found.log, rest, found.result.value))
        == LookUpIds(env, log, ItemIds(items)[j..] + rest, members)
    decreases |items| - j
  {
    var ids := ItemIds(items)[j..] + rest;
    if j == |items| {
      assert ids == rest;
    } else {
      assert ids[0] == Get(items[j], "userId").n && ids[1..] == ItemIds(items)[j + 1..] + rest;
      var log' := log + [UserById(NumId(ids[0]))];
      if env.users(log').Ok? && env.users(log').value.Some? {
        LookUpItemsByIds(env, log', items, j + 1, members + [env.users(log').value.value], rest);
      }
    }
  }

  /** On pages it can take, the outer loop is the lookup of the ids the
      pages list, in order. */
  lemma {:induction false} MembersByIds(env: Env, log: seq<Call>, pages: seq<Json>, i: nat, members: seq<UserEntity>)
    requires i <= |pages|
    requires forall m :: i <= m < |pages| ==> ListsUserItems(pages[m])
    ensures MembersOfPages(env, log, pages, i, members) == LookUpIds(env, log, PageUserIds(pages, i), members)
    decreases |pages| - i
  {
    if i < |pages| {
      var items := FindValue(pages[i], ItemsPath).value;
      if items == JNull {
        assert PageUserIds(pages, i) == PageUserIds(pages, i + 1);
        MembersByIds(env, log, pages, i + 1, members);
      } else {
        var found := LookUpItems(env, log, items.items, 0, members);
        LookUpItemsByIds(env, log, items.items, 0, members, PageUserIds(pages, i + 1));
        assert ItemIds(items.items)[0..] == ItemIds(items.items);
        if found.result.Ok? {
          MembersByIds(env, found.log, pages, i + 1, found.result.value);
        }
      }
    }
  }

  /** `getTeamMembers` succeeds only on pages it can take; it then looks up
      each listed user id once, in page and item order, after its one
      membership query, and returns one member per id. */
  lemma TeamMembersCalls(env: Env, log: seq<Call>, cfg: TeamsConfig, team: TeamEntity)
    ensures var t := TeamMembers(env, log, cfg, team);
      var log' := log + [Query(MembersCall(cfg, team))];
      t.result.Ok? ==>
        && env.nerdgraph(log').Ok?
        && var pages := env.nerdgraph(log').value;
        && (forall m :: 0 <= m < |pages| ==> ListsUserItems(pages[m]))
        && t == LookUpIds(env, log', PageUserIds(pages, 0), [])
        && t.log == log' + Lookups(PageUserIds(pages, 0))
        && |t.result.value| == |PageUserIds(pages, 0)|
  {
    var log' := log + [Query(MembersCall(cfg, team))];
    if env.nerdgraph(log').Ok? {
      var pages := env.nerdgraph(log').value;
      MembersOfPagesOk(env, log', pages, 0, []);
      if TeamMembers(env, log, cfg, team).result.Ok? {
        MembersByIds(env, log', pages, 0, []);
        LookUpIdsCalls(env, log', PageUserIds(pages, 0), []);
      }
    }
  }

  /** `getTeamMembers` only reads. */
  lemma TeamMembersReads(env: Env, log: seq<Call>, cfg: TeamsConfig, team: TeamEntity)
    ensures TeamMembers(env, log, cfg, team).result.Ok? ==> ReadsOnly(log, TeamMembers(env, log, cfg, team).log)
  {
    TeamMembersCalls(env, log, cfg, team);
  }
  // ---------------------------------------------------------------------------
  // addMembers / removeMembers

  /** The mutation of `addMembers` (variable `userIds`) or `removeMembers`
      (variable `userGuids`) on the team's membership collection. */
  function MembersMutationCall(cfg: TeamsConfig, document: Document, idsVar: string, team: TeamEntity, guids: seq<string>): NerdgraphCall
  {
    NerdgraphCall(cfg.apiKey, document,
      [Var("collectionId", "ID!", JStr(team.membershipId)), Var(idsVar, "[ID!]!", StringArray(guids))],
      true, None, cfg.region)
  }

  function AddMembersCall(cfg: TeamsConfig, team: TeamEntity, guids: seq<string>): NerdgraphCall
  {
    MembersMutationCall(cfg, AddMembersMutation, "userIds", team, guids)
  }

  function RemoveMembersCall(cfg: TeamsConfig, team: TeamEntity, guids: seq<string>): NerdgraphCall
  {
    MembersMutationCall(cfg, RemoveMembersMutation, "userGuids", team, guids)
  }

  /** The checks `addMembers` and `removeMembers` apply to the pages of their
      mutation: exactly one page, whose field `key` is a string array equal
      to the requested GUIDs as a multiset (`arraysEqual`, see
      `Util.ArraysEqual`); that array is the answer. `what` names the
      mutation in the count error and `differ` is the mismatch error. */
  function ChangedIds(results: seq<Json>, key: string, what: string, differ: string, guids: seq<string>): (r: Result<seq<string>>)
    ensures |results| != 1 ==> r == Err(NerdgraphError("Expected one " + what + " result but found " + NatToString(|results|)))
    ensures r.Ok? <==>
      && |results| == 1 && FindValue(results[0], [key]).Ok?
      && IsStringArray(FindValue(results[0], [key]).value)
      && multiset(StringsOf(FindValue(results[0], [key]).value)) == multiset(guids)
    ensures r.Ok? ==> r.value == StringsOf(FindValue(results[0], [key]).value) && multiset(r.value) == multiset(guids)
  {
    if |results| != 1 then Err(NerdgraphError("Expected one " + what + " result but found " + NatToString(|results|)))
    else
      var ids :- FindValue(results[0], [key]);
      if !IsStringArray(ids) then Err(NerdgraphError(IdsArrayExpected + TypeOf(ids)))
      else if multiset(StringsOf(ids)) != multiset(guids) then Err(NerdgraphError(differ))
      else Ok(StringsOf(ids))
  }

  /** A single page reporting the requested GUIDs in any order is accepted
      and answers that order; any other multiset is refused. */
  lemma ChangedIdsAccepts(key: string, what: string, differ: string, guids: seq<string>, reported: seq<string>)
    ensures var r := ChangedIds([JObj(map[key := StringArray(reported)])], key, what, differ, guids);
      && (multiset(reported) == multiset(guids) ==> r == Ok(reported))
      && (multiset(reported) != multiset(guids) ==> r == Err(NerdgraphError(differ)))
  {
    var page := JObj(map[key := StringArray(reported)]);
    assert page == Nest([key], StringArray(reported));
    FindValueNest([key], StringArray(reported));
    assert FindValue(page, [key]) == Ok(StringArray(reported));
    StringArrayRoundTrip(reported, StringArray(reported));
  }

  /** `addMembers(teamEntity, userGuids)`: one mutation, whose success
      reports exactly the requested GUIDs. */
  function AddMembers(env: Env, log: seq<Call>, cfg: TeamsConfig, team: TeamEntity, guids: seq<string>): (t: Traced<seq<string>>)
    ensures t.log == log + [Query(AddMembersCall(cfg, team, guids))]
    ensures t.result.Ok? ==> multiset(t.result.value) == multiset(guids)
  {
    var log' := log + [Query(AddMembersCall(cfg, team, guids))];
    match env.nerdgraph(log')
    case Err(e) => Traced(Err(e), log')
    case Ok(results) =>
      Traced(ChangedIds(results, "entityManagementAddCollectionMembers", "add member",
        AddDiffer, guids), log')
  }

  /** `removeMembers(teamEntity, userGuids)`: one mutation, whose success
      reports exactly the requested GUIDs. */
  function RemoveMembers(env: Env, log: seq<Call>, cfg: TeamsConfig, team: TeamEntity, guids: seq<string>): (t: Traced<seq<string>>)
    ensures t.log == log + [Query(RemoveMembersCall(cfg, team, guids))]
    ensures t.result.Ok? ==> multiset(t.result.value) == multiset(guids)
  {
    var log' := log + [Query(RemoveMembersCall(cfg, team, guids))];
    match env.nerdgraph(log')
    case Err(e) => Traced(Err(e), log')
    case Ok(results) =>
      Traced(ChangedIds(results, "entityManagementRemoveCollectionMembers", "remove member",
        RemoveDiffer, guids), log')
  }
  // ---------------------------------------------------------------------------
  // updateMembership

  /** The GUIDs of a list of users. */
  function Guids(users: seq<UserEntity>): (guids: seq<string>)
    ensures |guids| == |users|
    ensures forall k :: 0 <= k < |users| ==> guids[k] == users[k].guid
  {
    seq(|users|, k requires 0 <= k < |users| => users[k].guid)
  }

  /** The lookups of the wanted emails from `i` on through the users
      client, one after the other; an email without a user is passed over,
      and `guids` collects the GUIDs found, in order. */
  function ResolvedGuids(env: Env, log: seq<Call>, emails: seq<string>, i: nat, guids: seq<string>): Traced<seq<string>>
    requires i <= |emails|
    decreases |emails| - i
  {
    if i == |emails| then Traced(Ok(guids), log)
    else
      var log' := log + [UserByEmail(emails[i])];
      match env.users(log')
      case Err(e) => Traced(Err(e), log')
      case Ok(None) => ResolvedGuids(env, log', emails, i + 1, guids)
      case Ok(Some(user)) => ResolvedGuids(env, log', emails, i + 1, guids + [user.guid])
  }

  /** Looking up emails only reads. */
  lemma {:induction false} ResolvedGuidsReads(env: Env, log: seq<Call>, emails: seq<string>, i: nat, guids: seq<string>)
    requires i <= |emails|
    ensures ReadsOnly(log, ResolvedGuids(env, log, emails, i, guids).log)
    decreases |emails| - i
  {
    if i < |emails| {
      var log' := log + [UserByEmail(emails[i])];
      assert ReadsOnly(log, log');
      match env.users(log')
      case Err(e) =>
      case Ok(None) =>
        ResolvedGuidsReads(env, log', emails, i + 1, guids);
        ReadsOnlyTransitive(log, log', ResolvedGuids(env, log', emails, i + 1, guids).log);
      case Ok(Some(user)) =>
        ResolvedGuidsReads(env, log', emails, i + 1, guids + [user.guid]);
        ReadsOnlyTransitive(log, log', ResolvedGuids(env, log', emails, i + 1, guids + [user.guid]).log);
    }
  }

  /** The mutations `updateMembership` ends with: the add call when there
      is anybody to add, then the remove call when there is anybody to
      remove; each must succeed. */
  function ApplyDiff(env: Env, log: seq<Call>, cfg: TeamsConfig, team: TeamEntity, d: MembershipResult): Traced<MembershipResult>
  {
    var added := if |d.usersAdded| > 0 then AddMembers(env, log, cfg, team, d.usersAdded) else Traced(Ok([]), log);
    if added.result.Err? then Traced(Err(added.result.error), added.log)
    else
      var removed := if |d.usersRemoved| > 0 then RemoveMembers(env, added.log, cfg, team, d.usersRemoved) else Traced(Ok([]), added.log);
      if removed.result.Err? then Traced(Err(removed.result.error), removed.log)
      else Traced(Ok(d), removed.log)
  }

  /** `updateMembership(teamEntity, members)` as a function of the injected
      clients: the current members, the lookups of the wanted emails, their
      diff, and the mutations that apply it. */
  function MembershipUpdate(env: Env, log: seq<Call>, cfg: TeamsConfig, team: TeamEntity, emails: seq<string>): Traced<MembershipResult>
  {
    var current := TeamMembers(env, log, cfg, team);
    if current.result.Err? then Traced(Err(current.result.error), current.log)
    else
      var resolved := ResolvedGuids(env, current.log, emails, 0, []);
      if resolved.result.Err? then Traced(Err(resolved.result.error), resolved.log)
      else ApplyDiff(env, resolved.log, cfg, team, Diff(Guids(current.result.value), resolved.result.value))
  }

  /** `updateMembership(teamEntity, members)`: the loop over the wanted
      emails, pushing onto `usersToAdd` and splicing `usersToRemove`. */
  method UpdateMembership(env: Env, log: seq<Call>, cfg: TeamsConfig, team: TeamEntity, members: seq<string>)
    returns (t: Traced<MembershipResult>)
    ensures t == MembershipUpdate(env, log, cfg, team, members)
  {
    var current := GetTeamMembers(env, log, cfg, team);
    if current.result.Err? {
      return Traced(Err(current.result.error), current.log);
    }
    var currentGuids := Guids(current.result.value);
    var calls := current.log;
    var usersToAdd: seq<string> := [];
    var usersToRemove := currentGuids;
    ghost var resolved: seq<string> := [];
    for i := 0 to |members|
      invariant ResolvedGuids(env, calls, members, i, resolved) == ResolvedGuids(env, current.log, members, 0, [])
      invariant MembershipResult(usersToAdd, usersToRemove) == Diff(currentGuids, resolved)
    {
      calls := calls + [UserByEmail(members[i])];
      var user := env.users(calls);
      if user.Err? {
        return Traced(Err(user.error), calls);
      }
      if user.value.None? {
        continue;
      }
      var guid := user.value.value.guid;
      var index := IndexOf(usersToRemove, guid);
      if index == -1 {
        usersToAdd := usersToAdd + [guid];
      } else {
        usersToRemove := usersToRemove[..index] + usersToRemove[index + 1..];
      }
      assert (resolved + [guid])[..|resolved|] == resolved;
      resolved := resolved + [guid];
    }
    if |usersToAdd| > 0 {
      var added := AddMembers(env, calls, cfg, team, usersToAdd);
      calls := added.log;
      if added.result.Err? {
        return Traced(Err(added.result.error), calls);
      }
    }
    if |usersToRemove| > 0 {
      var removed := RemoveMembers(env, calls, cfg, team, usersToRemove);
      calls := removed.log;
      if removed.result.Err? {
        return Traced(Err(removed.result.error), calls);
      }
    }
    return Traced(Ok(MembershipResult(usersToAdd, usersToRemove)), calls);
  }

  /** The closing mutations succeed only by sending the add call when
      somebody is to be added and the remove call when somebody is to be
      removed, each once, in that order. */
  lemma ApplyDiffCalls(env: Env, log: seq<Call>, cfg: TeamsConfig, team: TeamEntity, d: MembershipResult)
    ensures var t := ApplyDiff(env, log, cfg, team, d);
      t.result.Ok? ==>
        && t.result.value == d
        && t.log == log
             + (if |d.usersAdded| > 0 then [Query(AddMembersCall(cfg, team, d.usersAdded))] else [])
             + (if |d.usersRemoved| > 0 then [Query(RemoveMembersCall(cfg, team, d.usersRemoved))] else [])
  {
    var added := if |d.usersAdded| > 0 then AddMembers(env, log, cfg, team, d.usersAdded) else Traced(Ok([]), log);
    var log1 := log + (if |d.usersAdded| > 0 then [Query(AddMembersCall(cfg, team, d.usersAdded))] else []);
    assert added.log == log1;
    if added.result.Ok? {
      var removed := if |d.usersRemoved| > 0 then RemoveMembers(env, log1, cfg, team, d.usersRemoved) else Traced(Ok([]), log1);
      assert removed.log == log1 + (if |d.usersRemoved| > 0 then [Query(RemoveMembersCall(cfg, team, d.usersRemoved))] else []);
    }
  }

  /** A successful `updateMembership` returns the diff of the current
      members' GUIDs and the resolved ones; until then it only reads, and
      it then sends the add mutation only when somebody is to be added and
      the remove mutation only when somebody is to be removed, each once. */
  lemma MembershipUpdateCalls(env: Env, log: seq<Call>, cfg: TeamsConfig, team: TeamEntity, emails: seq<string>)
    ensures var t := MembershipUpdate(env, log, cfg, team, emails);
      var current := TeamMembers(env, log, cfg, team);
      t.result.Ok? ==>
        && current.result.Ok?
        && var resolved := ResolvedGuids(env, current.log, emails, 0, []);
        && resolved.result.Ok?
        && var d := Diff(Guids(current.result.value), resolved.result.value);
        && t.result.value == d
        && ReadsOnly(log, resolved.log)
        && t.log == resolved.log
             + (if |d.usersAdded| > 0 then [Query(AddMembersCall(cfg, team, d.usersAdded))] else [])
             + (if |d.usersRemoved| > 0 then [Query(RemoveMembersCall(cfg, team, d.usersRemoved))] else [])
  {
    var current := TeamMembers(env, log, cfg, team);
    if current.result.Ok? {
      TeamMembersReads(env, log, cfg, team);
      var resolved := ResolvedGuids(env, current.log, emails, 0, []);
      ResolvedGuidsReads(env, current.log, emails, 0, []);
      ReadsOnlyTransitive(log, current.log, resolved.log);
      if resolved.result.Ok? {
        ApplyDiffCalls(env, resolved.log, cfg, team, Diff(Guids(current.result.value), resolved.result.value));
      }
    }
  }

  /** When the wanted emails resolve to exactly the current members (as a
      multiset), `updateMembership` sends no mutation at all. */
  lemma SameMembersNoMutation(env: Env, log: seq<Call>, cfg: TeamsConfig, team: TeamEntity, emails: seq<string>)
    requires var current := TeamMembers(env, log, cfg, team);
      && current.result.Ok?
      && var resolved := ResolvedGuids(env, current.log, emails, 0, []);
      && resolved.result.Ok?
      && multiset(resolved.result.value) == multiset(Guids(current.result.value))
    ensures var t := MembershipUpdate(env, log, cfg, team, emails);
      t.result == Ok(MembershipResult([], [])) && ReadsOnly(log, t.log)
  {
    var current := TeamMembers(env, log, cfg, team);
    var resolved := ResolvedGuids(env, current.log, emails, 0, []);
    NoChangeNoDiff(Guids(current.result.value), resolved.result.value);
    MembershipUpdateCalls(env, log, cfg, team, emails);
  }
  // ---------------------------------------------------------------------------
  // createTeam / updateTeam / removeTeam

  /** The variables `createTeam` and `updateTeam` share: name, description,
      aliases, the tags as `{ key, values }` entries, and the resources of
      the given input type. */
  function TeamVars(name: string, description: string, aliases: seq<string>, tags: map<string, seq<string>>,
                    resources: seq<TeamResource>, resourcesType: string, orgId: Option<string>): seq<Var>
  {
    [Var("teamName", "String!", JStr(name)),
     Var("teamDescription", "String", JStr(description)),
     Var("teamAliases", "[String!]", StringArray(aliases))]
    + (if orgId.Some? then [Var("orgId", "ID!", JStr(orgId.value))] else [])
    + [Var("tags", "[EntityManagementTagInput!]", TagInputs(tags)),
       Var("resources", resourcesType, ResourcesJson(resources))]
  }

  /** The mutation of `createTeam`, scoped to the organization. */
  function CreateTeamCall(cfg: TeamsConfig, name: string, description: string, aliases: seq<string>,
                          tags: map<string, seq<string>>, resources: seq<TeamResource>): NerdgraphCall
  {
    NerdgraphCall(cfg.apiKey, CreateTeamMutation,
      TeamVars(name, description, aliases, tags, resources, "[EntityManagementTeamResourceCreateInput!]", Some(cfg.orgId)),
      true, None, cfg.region)
  }

  /** The mutation of `updateTeam`, aimed at the fetched team's id. */
  function UpdateTeamCall(cfg: TeamsConfig, team: TeamEntity, name: string, description: string, aliases: seq<string>,
                          tags: map<string, seq<string>>, resources: seq<TeamResource>): NerdgraphCall
  {
    NerdgraphCall(cfg.apiKey, UpdateTeamMutation,
      [Var("teamId", "ID!", JStr(team.id))]
      + TeamVars(name, description, aliases, tags, resources, "[EntityManagementTeamResourceUpdateInput!]", None),
      true, None, cfg.region)
  }

  /** The mutation of `removeTeam`, aimed at the fetched team's id. */
  function DeleteTeamCall(cfg: TeamsConfig, team: TeamEntity): NerdgraphCall
  {
    NerdgraphCall(cfg.apiKey, DeleteTeamMutation, [Var("teamId", "ID!", JStr(team.id))], true, None, cfg.region)
  }

  /** `createTeam` and `removeTeam` read the GUID the mutation reports:
      exactly one page, and a non-empty string at `path`. */
  function ReportedGuid(results: seq<Json>, path: seq<string>, what: string): (r: Result<string>)
    ensures |results| != 1 ==> r == Err(NerdgraphError("Expected one " + what + " result but found " + NatToString(|results|)))
    ensures r.Ok? <==> |results| == 1 && FindValue(results[0], path).Ok? && IsNotEmptyString(FindValue(results[0], path).value)
    ensures r.Ok? ==> JStr(r.value) == FindValue(results[0], path).value
  {
    if |results| != 1 then Err(NerdgraphError("Expected one " + what + " result but found " + NatToString(|results|)))
    else
      var guid :- FindValue(results[0], path);
      if !IsNotEmptyString(guid) then Err(NerdgraphError(GuidExpected + ToJsString(guid)))
      else Ok(guid.s)
  }

  /** `entityManagementCreateTeam.entity.id`, by keys. */
  const CreatedIdPath: seq<string> := ["entityManagementCreateTeam", "entity", "id"]

  /** `entityManagementDelete.id`, by keys. */
  const DeletedIdPath: seq<string> := ["entityManagementDelete", "id"]

  /** `entityManagementUpdateTeam.entity`, by keys. */
  const UpdatedEntityPath: seq<string> := ["entityManagementUpdateTeam", "entity"]

  function NotFound(name: string): Error
  {
    NerdgraphError("Team not found: " + name)
  }

  /** The membership update that ends `createTeam` and `updateTeam`: it
      answers the team it was given, or the update's error. */
  function WithMembers(env: Env, log: seq<Call>, cfg: TeamsConfig, team: TeamEntity, members: seq<string>): (t: Traced<TeamEntity>)
    ensures var m := MembershipUpdate(env, log, cfg, team, members);
      && t.log == m.log
      && (t.result.Ok? <==> m.result.Ok?)
      && (t.result.Ok? ==> t.result.value == team)
  {
    var m := MembershipUpdate(env, log, cfg, team, members);
    if m.result.Err? then Traced(Err(m.result.error), m.log) else Traced(Ok(team), m.log)
  }

  /** The end of `createTeam`, once the mutation reported `guid`: the team
      is read back by name, must carry that GUID, and gets its members. */
  function CreatedTeam(env: Env, log: seq<Call>, cfg: TeamsConfig, name: string, guid: string, members: seq<string>)
    : (t: Traced<TeamEntity>)
    ensures t.result.Ok? ==>
      && TeamByName(env, log, cfg, name).result == Ok(Some(t.result.value))
      && t.result.value.id == guid && t.result.value.name == name
  {
    var found := TeamByName(env, log, cfg, name);
    match found.result
    case Err(e) => Traced(Err(e), found.log)
    case Ok(None) => Traced(Err(NotFound(name)), found.log)
    case Ok(Some(team)) =>
      if team.id != guid then
        Traced(Err(NerdgraphError("Expected created team entity GUID " + guid
          + " to match fetched team entity GUID " + team.id)), found.log)
      else WithMembers(env, found.log, cfg, team, members)
  }

  /** `createTeam(name, members, description, aliases, tags, resources)`:
      the mutation, the GUID it reports, then `CreatedTeam`. */
  function CreateTeam(env: Env, log: seq<Call>, cfg: TeamsConfig, name: string, members: seq<string>, description: string,
                      aliases: seq<string>, tags: map<string, seq<string>>, resources: seq<TeamResource>): Traced<TeamEntity>
  {
    var log' := log + [Query(CreateTeamCall(cfg, name, description, aliases, tags, resources))];
    match env.nerdgraph(log')
    case Err(e) => Traced(Err(e), log')
    case Ok(results) =>
      match ReportedGuid(results, CreatedIdPath, "create team")
      case Err(e) => Traced(Err(e), log')
      case Ok(guid) => CreatedTeam(env, log', cfg, name, guid, members)
  }

  /** The update mutation's answer: exactly one page, an object at
      `entityManagementUpdateTeam.entity`, read as a team entity. */
  function UpdatedEntity(results: seq<Json>): (r: Result<TeamEntity>)
    ensures |results| != 1 ==> r == Err(NerdgraphError("Expected one update team result but found " + NatToString(|results|)))
    ensures r.Ok? <==>
      && |results| == 1 && FindValue(results[0], UpdatedEntityPath).Ok?
      && FindValue(results[0], UpdatedEntityPath).value.JObj?
      && UnmarshalTeamEntity(FindValue(results[0], UpdatedEntityPath).value).Ok?
    ensures r.Ok? ==> r == UnmarshalTeamEntity(FindValue(results[0], UpdatedEntityPath).value)
  {
    if |results| != 1 then Err(NerdgraphError("Expected one update team result but found " + NatToString(|results|)))
    else
      var entity :- FindValue(results[0], UpdatedEntityPath);
      if !IsObjectAsIndexableObject(entity) then Err(NerdgraphError(UpdatedEntityExpected))
      else UnmarshalTeamEntity(entity)
  }

  /** The end of `updateTeam`, once `team` was found by name: the update
      mutation on its id, the entity it reports, and that entity's members. */
  function UpdateFoundTeam(env: Env, log: seq<Call>, cfg: TeamsConfig, team: TeamEntity, name: string, members: seq<string>,
                           description: string, aliases: seq<string>, tags: map<string, seq<string>>,
                           resources: seq<TeamResource>): (t: Traced<TeamEntity>)
    ensures var log' := log + [Query(UpdateTeamCall(cfg, team, name, description, aliases, tags, resources))];
      t.result.Ok? ==> env.nerdgraph(log').Ok? && UpdatedEntity(env.nerdgraph(log').value) == Ok(t.result.value)
  {
    var log' := log + [Query(UpdateTeamCall(cfg, team, name, description, aliases, tags, resources))];
    match env.nerdgraph(log')
    case Err(e) => Traced(Err(e), log')
    case Ok(results) =>
      match UpdatedEntity(results)
      case Err(e) => Traced(Err(e), log')
      case Ok(updated) => WithMembers(env, log', cfg, updated, members)
  }

  /** `updateTeam(name, members, description, aliases, tags, resources)`:
      the team is looked up by name first, then `UpdateFoundTeam`. */
  function UpdateTeam(env: Env, log: seq<Call>, cfg: TeamsConfig, name: string, members: seq<string>, description: string,
                      aliases: seq<string>, tags: map<string, seq<string>>, resources: seq<TeamResource>): Traced<TeamEntity>
  {
    var found := TeamByName(env, log, cfg, name);
    match found.result
    case Err(e) => Traced(Err(e), found.log)
    case Ok(None) => Traced(Err(NotFound(name)), found.log)
    case Ok(Some(team)) => UpdateFoundTeam(env, found.log, cfg, team, name, members, description, aliases, tags, resources)
  }

  /** `removeTeam(name)`: the team is looked up by name, deleted by its id,
      and the GUID the deletion reports must be that id. */
  function RemoveTeam(env: Env, log: seq<Call>, cfg: TeamsConfig, name: string): Traced<string>
  {
    var found := TeamByName(env, log, cfg, name);
    match found.result
    case Err(e) => Traced(Err(e), found.log)
    case Ok(None) => Traced(Err(NotFound(name)), found.log)
    case Ok(Some(team)) =>
      var log' := found.log + [Query(DeleteTeamCall(cfg, team))];
      match env.nerdgraph(log')
      case Err(e) => Traced(Err(e), log')
      case Ok(results) =>
        match ReportedGuid(results, DeletedIdPath, "delete team")
        case Err(e) => Traced(Err(e), log')
        case Ok(guid) =>
          if team.id != guid then
            Traced(Err(NerdgraphError("Expected deleted team entity GUID " + guid
              + " to match fetched team entity GUID " + team.id)), log')
          else Traced(Ok(guid), log')
  }

  /** A created team is the one re-read by name right after the mutation:
      it has the requested name and the GUID the mutation reported. */
  lemma CreateTeamIdentity(env: Env, log: seq<Call>, cfg: TeamsConfig, name: string, members: seq<string>, description: string,
                           aliases: seq<string>, tags: map<string, seq<string>>, resources: seq<TeamResource>)
    ensures var t := CreateTeam(env, log, cfg, name, members, description, aliases, tags, resources);
      var log' := log + [Query(CreateTeamCall(cfg, name, description, aliases, tags, resources))];
      t.result.Ok? ==>
        && t.result.value.name == name
        && env.nerdgraph(log').Ok?
        && ReportedGuid(env.nerdgraph(log').value, CreatedIdPath, "create team") == Ok(t.result.value.id)
        && TeamByName(env, log', cfg, name).result == Ok(Some(t.result.value))
  {
    var log' := log + [Query(CreateTeamCall(cfg, name, description, aliases, tags, resources))];
    var t := CreateTeam(env, log, cfg, name, members, description, aliases, tags, resources);
    if t.result.Ok? {
      var guid := ReportedGuid(env.nerdgraph(log').value, CreatedIdPath, "create team").value;
      assert t == CreatedTeam(env, log', cfg, name, guid, members);
    }
  }

  /** Updating or removing a team that is not found raises "Team not found"
      and sends no mutation. */
  lemma MissingTeamNoMutation(env: Env, log: seq<Call>, cfg: TeamsConfig, name: string, members: seq<string>, description: string,
                              aliases: seq<string>, tags: map<string, seq<string>>, resources: seq<TeamResource>)
    requires TeamByName(env, log, cfg, name).result == Ok(None)
    ensures var u := UpdateTeam(env, log, cfg, name, members, description, aliases, tags, resources);
      u.result == Err(NotFound(name)) && ReadsOnly(log, u.log)
    ensures var r := RemoveTeam(env, log, cfg, name);
      r.result == Err(NotFound(name)) && ReadsOnly(log, r.log)
  {
    TeamByNameReads(env, log, cfg, name);
  }

  /** An update is aimed at the team found by name, and answers the entity
      the update mutation reports. */
  lemma UpdateTeamTarget(env: Env, log: seq<Call>, cfg: TeamsConfig, name: string, members: seq<string>, description: string,
                         aliases: seq<string>, tags: map<string, seq<string>>, resources: seq<TeamResource>)
    ensures var t := UpdateTeam(env, log, cfg, name, members, description, aliases, tags, resources);
      var found := TeamByName(env, log, cfg, name);
      t.result.Ok? ==>
        && found.result.Ok? && found.result.value.Some?
        && var log' := found.log + [Query(UpdateTeamCall(cfg, found.result.value.value, name, description, aliases, tags, resources))];
        && env.nerdgraph(log').Ok?
        && UpdatedEntity(env.nerdgraph(log').value) == Ok(t.result.value)
  {
    var t := UpdateTeam(env, log, cfg, name, members, description, aliases, tags, resources);
    var found := TeamByName(env, log, cfg, name);
    if t.result.Ok? {
      assert found.result.Ok? && found.result.value.Some?;
      assert t == UpdateFoundTeam(env, found.log, cfg, found.result.value.value, name, members, description, aliases, tags, resources);
    }
  }

  /** A removal deletes the team found by name, and answers its id, which
      the deletion reported back; the deletion is its last call. */
  lemma RemoveTeamIdentity(env: Env, log: seq<Call>, cfg: TeamsConfig, name: string)
    ensures var t := RemoveTeam(env, log, cfg, name);
      var found := TeamByName(env, log, cfg, name);
      t.result.Ok? ==>
        && found.result.Ok? && found.result.value.Some?
        && t.result.value == found.result.value.value.id
        && t.log == found.log + [Query(DeleteTeamCall(cfg, found.result.value.value))]
        && env.nerdgraph(t.log).Ok?
        && ReportedGuid(env.nerdgraph(t.log).value, DeletedIdPath, "delete team") == Ok(t.result.value)
  {
  }

  /** A successful membership update only appends to the history. */
  lemma MembershipUpdateExtends(env: Env, log: seq<Call>, cfg: TeamsConfig, team: TeamEntity, emails: seq<string>)
    ensures var t := MembershipUpdate(env, log, cfg, team, emails);
      t.result.Ok? ==> log <= t.log
  {
    MembershipUpdateCalls(env, log, cfg, team, emails);
  }

  /** A successful create, update or remove only appends to the history,
      and appends at least its own mutation. */
  lemma CreateTeamExtends(env: Env, log: seq<Call>, cfg: TeamsConfig, name: string, members: seq<string>, description: string,
                          aliases: seq<string>, tags: map<string, seq<string>>, resources: seq<TeamResource>)
    ensures var t := CreateTeam(env, log, cfg, name, members, description, aliases, tags, resources);
      t.result.Ok? ==> log + [Query(CreateTeamCall(cfg, name, description, aliases, tags, resources))] <= t.log
  {
    var log' := log + [Query(CreateTeamCall(cfg, name, description, aliases, tags, resources))];
    var t := CreateTeam(env, log, cfg, name, members, description, aliases, tags, resources);
    if t.result.Ok? {
      var guid := ReportedGuid(env.nerdgraph(log').value, CreatedIdPath, "create team").value;
      assert t == CreatedTeam(env, log', cfg, name, guid, members);
      var found := TeamByName(env, log', cfg, name);
      TeamByNameReads(env, log', cfg, name);
      assert t == WithMembers(env, found.log, cfg, found.result.value.value, members);
      MembershipUpdateExtends(env, found.log, cfg, found.result.value.value, members);
    }
  }

  lemma UpdateTeamExtends(env: Env, log: seq<Call>, cfg: TeamsConfig, name: string, members: seq<string>, description: string,
                          aliases: seq<string>, tags: map<string, seq<string>>, resources: seq<TeamResource>)
    ensures var t := UpdateTeam(env, log, cfg, name, members, description, aliases, tags, resources);
      var found := TeamByName(env, log, cfg, name);
      t.result.Ok? ==>
        && found.result.Ok? && found.result.value.Some? && log <= found.log
        && found.log + [Query(UpdateTeamCall(cfg, found.result.value.value, name, description, aliases, tags, resources))] <= t.log
  {
    var t := UpdateTeam(env, log, cfg, name, members, description, aliases, tags, resources);
    var found := TeamByName(env, log, cfg, name);
    TeamByNameReads(env, log, cfg, name);
    if t.result.Ok? {
      var team := found.result.value.value;
      assert t == UpdateFoundTeam(env, found.log, cfg, team, name, members, description, aliases, tags, resources);
      var log' := found.log + [Query(UpdateTeamCall(cfg, team, name, description, aliases, tags, resources))];
      var updated := UpdatedEntity(env.nerdgraph(log').value).value;
      assert t == WithMembers(env, log', cfg, updated, members);
      MembershipUpdateExtends(env, log', cfg, updated, members);
    }
  }

  lemma RemoveTeamExtends(env: Env, log: seq<Call>, cfg: TeamsConfig, name: string)
    ensures var t := RemoveTeam(env, log, cfg, name);
      t.result.Ok? ==> log < t.log
  {
    TeamByNameReads(env, log, cfg, name);
    RemoveTeamIdentity(env, log, cfg, name);
  }
}
