/** The records of src/nerdgraph/teams.ts and their strict unmarshalling
    from the untyped values of a Nerdgraph response: tags, team resources and
    team entities, plus the user items of a team's membership collection.
    Each unmarshalling function has a marshalling inverse, the JSON the
    Nerdgraph API sends for the record, and the two are tied by round-trip
    lemmas. */
module TeamTypes {
  import opened Base
  import opened Strings
  import opened Json
  import opened TypeHelper

  datatype Tag = Tag(key: string, values: seq<string>)

  /** `TeamResource`; a missing title is `null`. */
  datatype TeamResource = TeamResource(typ: string, title: Option<string>, content: string)

  /** `TeamEntity`; `membership.id` is `membershipId`. */
  datatype TeamEntity = TeamEntity(
    id: string,
    name: string,
    description: string,
    aliases: seq<string>,
    resources: seq<TeamResource>,
    membershipId: string,
    tags: seq<Tag>)

  // ---------------------------------------------------------------------------
  // unmarshalTags

  /** What one tag item must look like: an object with a non-empty `key`
      and string-array `values`. */
  predicate IsTagItem(item: Json)
  {
    item.JObj? && Get(item, "key").JStr? && |Get(item, "key").s| > 0 && IsStringArray(Get(item, "values"))
  }

  /** The callback of the `map` in `unmarshalTags`. */
  function UnmarshalTag(item: Json): (r: Result<Tag>)
    ensures r.Ok? <==> IsTagItem(item)
    ensures r.Ok? ==> r.value == Tag(Get(item, "key").s, StringsOf(Get(item, "values")))
    ensures !item.JObj? ==> r == Err(NerdgraphError("Invalid tag item"))
  {
    if !IsObjectAsIndexableObject(item) then Err(NerdgraphError("Invalid tag item"))
    else if !IsNotEmptyString(Get(item, "key")) then Err(NerdgraphError("Invalid tag item key"))
    else if !IsStringArray(Get(item, "values")) then Err(NerdgraphError("Invalid tag item values"))
    else Ok(Tag(Get(item, "key").s, StringsOf(Get(item, "values"))))
  }

  /** `unmarshalTags(obj)`: a non-array raises; otherwise every item is
      unmarshalled in order and the first bad item raises. */
  function UnmarshalTags(obj: Json): (r: Result<seq<Tag>>)
    ensures !obj.JArr? ==> r == Err(NerdgraphError("Invalid tags"))
    ensures r.Ok? <==> obj.JArr? && forall i :: 0 <= i < |obj.items| ==> IsTagItem(obj.items[i])
    ensures r.Ok? ==> |r.value| == |obj.items|
    ensures r.Ok? ==> forall i :: 0 <= i < |obj.items| ==> r.value[i] == UnmarshalTag(obj.items[i]).value
  {
    if !IsArray(obj) then Err(NerdgraphError("Invalid tags"))
    else MapResult(obj.items, UnmarshalTag)
  }

  function TagJson(t: Tag): Json
  {
    JObj(map["key" := JStr(t.key), "values" := StringArray(t.values)])
  }

  function TagsJson(tags: seq<Tag>): (v: Json)
    ensures v.JArr? && |v.items| == |tags|
    ensures forall i :: 0 <= i < |tags| ==> v.items[i] == TagJson(tags[i])
  {
    JArr(seq(|tags|, i requires 0 <= i < |tags| => TagJson(tags[i])))
  }

  /** A tag with a non-empty key reads back as itself. */
  lemma TagRoundTrip(t: Tag)
    requires t.key != ""
    ensures UnmarshalTag(TagJson(t)) == Ok(t)
  {
    var item := TagJson(t);
    assert Get(item, "key") == JStr(t.key);
    StringArrayRoundTrip(t.values, JNull);
  }

  /** Tags with non-empty keys read back as themselves. */
  lemma TagsRoundTrip(tags: seq<Tag>)
    requires forall i :: 0 <= i < |tags| ==> tags[i].key != ""
    ensures UnmarshalTags(TagsJson(tags)) == Ok(tags)
  {
    var v := TagsJson(tags);
    forall i | 0 <= i < |tags|
      ensures UnmarshalTag(v.items[i]) == Ok(tags[i])
    {
      TagRoundTrip(tags[i]);
    }
    var r := UnmarshalTags(v);
    assert r.Ok?;
    assert r.value == tags;
  }

  // ---------------------------------------------------------------------------
  // unmarshalTeamResource

  /** What a team resource must look like: an object with a non-empty
      `type` and a non-empty `content`. */
  predicate IsResourceItem(obj: Json)
  {
    obj.JObj? && Get(obj, "type").JStr? && |Get(obj, "type").s| > 0
      && Get(obj, "content").JStr? && |Get(obj, "content").s| > 0
  }

  /** `unmarshalTeamResource(obj)`: `type` and `content` are checked in
      that order, and `title` is kept only when it is a string. */
  function UnmarshalTeamResource(obj: Json): (r: Result<TeamResource>)
    ensures r.Ok? <==> IsResourceItem(obj)
    ensures r.Ok? ==> r.value == TeamResource(Get(obj, "type").s,
      if Get(obj, "title").JStr? then Some(Get(obj, "title").s) else None,
      Get(obj, "content").s)
    ensures !obj.JObj? ==> r == Err(NerdgraphError("Invalid team resource"))
  {
    if !IsObjectAsIndexableObject(obj) then Err(NerdgraphError("Invalid team resource"))
    else if !IsNotEmptyString(Get(obj, "type")) then Err(NerdgraphError("Invalid team resource type"))
    else
      var title := if IsString(Get(obj, "title")) then Some(Get(obj, "title").s) else None;
      if !IsNotEmptyString(Get(obj, "content")) then Err(NerdgraphError("Invalid team resource content"))
      else Ok(TeamResource(Get(obj, "type").s, title, Get(obj, "content").s))
  }

  /** The object the API takes and returns for a resource; no title is `null`. */
  function ResourceJson(r: TeamResource): Json
  {
    JObj(map[
      "type" := JStr(r.typ),
      "title" := (if r.title.Some? then JStr(r.title.value) else JNull),
      "content" := JStr(r.content)])
  }

  function ResourcesJson(rs: seq<TeamResource>): (v: Json)
    ensures v.JArr? && |v.items| == |rs|
    ensures forall i :: 0 <= i < |rs| ==> v.items[i] == ResourceJson(rs[i])
  {
    JArr(seq(|rs|, i requires 0 <= i < |rs| => ResourceJson(rs[i])))
  }

  predicate WellFormedResource(r: TeamResource)
  {
    r.typ != "" && r.content != ""
  }

  /** A resource with a type and content reads back as itself. */
  lemma ResourceRoundTrip(r: TeamResource)
    requires WellFormedResource(r)
    ensures UnmarshalTeamResource(ResourceJson(r)) == Ok(r)
  {
  }

  /** A list of such resources reads back as itself. */
  lemma ResourcesRoundTrip(rs: seq<TeamResource>)
    requires forall i :: 0 <= i < |rs| ==> WellFormedResource(rs[i])
    ensures MapResult(ResourcesJson(rs).items, UnmarshalTeamResource) == Ok(rs)
    ensures ResourceList(ResourcesJson(rs)) == Ok(rs)
  {
    var v := ResourcesJson(rs);
    forall i | 0 <= i < |rs|
      ensures UnmarshalTeamResource(v.items[i]) == Ok(rs[i])
    {
      ResourceRoundTrip(rs[i]);
    }
    var r := MapResult(v.items, UnmarshalTeamResource);
    assert r.Ok?;
    assert |r.value| == |rs|;
    assert forall i :: 0 <= i < |rs| ==> r.value[i] == rs[i];
    assert r.value == rs;
  }

  // ---------------------------------------------------------------------------
  // unmarshalTeamEntity

  /** `Array.isArray(v) ? v.map(unmarshalTeamResource) : []`: strict when
      `v` is an array, no resources otherwise. */
  function ResourceList(v: Json): (r: Result<seq<TeamResource>>)
    ensures !v.JArr? ==> r == Ok([])
    ensures v.JArr? ==> r == MapResult(v.items, UnmarshalTeamResource)
  {
    if IsArray(v) then MapResult(v.items, UnmarshalTeamResource) else Ok([])
  }

  /** The resources of an entity. */
  function EntityResources(obj: Json): (r: Result<seq<TeamResource>>)
    ensures !Get(obj, "resources").JArr? ==> r == Ok([])
    ensures Get(obj, "resources").JArr? ==> r == MapResult(Get(obj, "resources").items, UnmarshalTeamResource)
  {
    ResourceList(Get(obj, "resources"))
  }

  /** `unmarshalTeamEntity(obj)`. The checks run in the source's order:
      object, `id`, `name`, then the resources (strict when `resources` is
      an array), then `membership.id`, then the tags. `description` and
      `aliases` fall back to `''` and `[]` when they have the wrong shape. */
  function UnmarshalTeamEntity(obj: Json): (r: Result<TeamEntity>)
    ensures r.Ok? <==>
      && obj.JObj?
      && Get(obj, "id").JStr? && |Get(obj, "id").s| > 0
      && Get(obj, "name").JStr? && |Get(obj, "name").s| > 0
      && EntityResources(obj).Ok?
      && Get(obj, "membership").JObj?
      && Get(Get(obj, "membership"), "id").JStr? && |Get(Get(obj, "membership"), "id").s| > 0
      && UnmarshalTags(Get(obj, "tags")).Ok?
    ensures r.Ok? ==>
      && r.value.id == Get(obj, "id").s
      && r.value.name == Get(obj, "name").s
      && r.value.description == (if Get(obj, "description").JStr? then Get(obj, "description").s else "")
      && r.value.aliases == (if IsStringArray(Get(obj, "aliases")) then StringsOf(Get(obj, "aliases")) else [])
      && r.value.resources == EntityResources(obj).value
      && r.value.membershipId == Get(Get(obj, "membership"), "id").s
      && r.value.tags == UnmarshalTags(Get(obj, "tags")).value
  {
    if !IsObjectAsIndexableObject(obj) then Err(NerdgraphError("Invalid team entity"))
    else if !IsNotEmptyString(Get(obj, "id")) then Err(NerdgraphError("Invalid team entity id"))
    else if !IsNotEmptyString(Get(obj, "name")) then Err(NerdgraphError("Invalid team entity name"))
    else
      var description := if IsString(Get(obj, "description")) then Get(obj, "description").s else "";
      var aliases := if IsStringArray(Get(obj, "aliases")) then StringsOf(Get(obj, "aliases")) else [];
      var resources :- EntityResources(obj);
      var membership := Get(obj, "membership");
      if !IsObjectAsIndexableObject(membership) || !IsNotEmptyString(Get(membership, "id")) then
        Err(NerdgraphError("Invalid team entity membership"))
      else
        var tags :- UnmarshalTags(Get(obj, "tags"));
        Ok(TeamEntity(Get(obj, "id").s, Get(obj, "name").s, description, aliases, resources, Get(membership, "id").s, tags))
  }

  /** The entity object the API returns for a team. */
  function TeamEntityJson(t: TeamEntity): Json
  {
    JObj(map[
      "id" := JStr(t.id),
      "name" := JStr(t.name),
      "description" := JStr(t.description),
      "aliases" := StringArray(t.aliases),
      "resources" := ResourcesJson(t.resources),
      "membership" := JObj(map["id" := JStr(t.membershipId)]),
      "tags" := TagsJson(t.tags)])
  }

  /** The entities `unmarshalTeamEntity` accepts back unchanged. */
  predicate WellFormedTeam(t: TeamEntity)
  {
    && t.id != "" && t.name != "" && t.membershipId != ""
    && (forall i :: 0 <= i < |t.resources| ==> WellFormedResource(t.resources[i]))
    && (forall i :: 0 <= i < |t.tags| ==> t.tags[i].key != "")
  }

  /** The fields of the entity object. */
  lemma TeamEntityJsonFields(t: TeamEntity)
    ensures var obj := TeamEntityJson(t);
      && obj.JObj?
      && Get(obj, "id") == JStr(t.id) && Get(obj, "name") == JStr(t.name)
      && Get(obj, "description") == JStr(t.description)
      && Get(obj, "aliases") == StringArray(t.aliases)
      && Get(obj, "resources") == ResourcesJson(t.resources)
      && Get(obj, "membership") == JObj(map["id" := JStr(t.membershipId)])
      && Get(obj, "tags") == TagsJson(t.tags)
  {
  }

  /** An object whose fields hold a well-formed entity's values reads back as that entity. */
  lemma UnmarshalTeamEntityFields(obj: Json, t: TeamEntity)
    requires WellFormedTeam(t)
    requires obj.JObj?
    requires Get(obj, "id") == JStr(t.id) && Get(obj, "name") == JStr(t.name)
    requires Get(obj, "description") == JStr(t.description)
    requires Get(obj, "aliases") == StringArray(t.aliases)
    requires Get(obj, "resources") == ResourcesJson(t.resources)
    requires Get(obj, "membership") == JObj(map["id" := JStr(t.membershipId)])
    requires Get(obj, "tags") == TagsJson(t.tags)
    ensures UnmarshalTeamEntity(obj) == Ok(t)
  {
    StringArrayRoundTrip(t.aliases, JNull);
    TagsRoundTrip(t.tags);
    ResourcesRoundTrip(t.resources);
    assert EntityResources(obj) == Ok(t.resources);
  }

  /** A well-formed team entity reads back as itself. */
  lemma TeamEntityRoundTrip(t: TeamEntity)
    requires WellFormedTeam(t)
    ensures UnmarshalTeamEntity(TeamEntityJson(t)) == Ok(t)
  {
    TeamEntityJsonFields(t);
    UnmarshalTeamEntityFields(TeamEntityJson(t), t);
  }

  // ---------------------------------------------------------------------------
  // isUserItem

  /** `isUserItem`: an object with a numeric `userId`. */
  function IsUserItem(obj: Json): (r: bool)
    ensures r <==> obj.JObj? && Get(obj, "userId").JNum?
  {
    IsObjectAsIndexableObject(obj) && IsNumber(Get(obj, "userId"))
  }

  // ---------------------------------------------------------------------------
  // Tag inputs

  /** The keys of a set in code-point order. */
  function SortedKeys(ks: set<string>): (r: seq<string>)
    ensures |r| == |ks|
    ensures forall k :: k in r <==> k in ks
    decreases |ks|
  {
    if ks == {} then []
    else
      LeastExists(ks);
      StrLeAntisymmetricAll();
      var k :| IsLeast(k, ks);
      [k] + SortedKeys(ks - {k})
  }

  /** The entries of a tag map as tags, in code-point order of the keys:
      every key once, each with its values, and nothing else. */
  function TagEntries(tags: map<string, seq<string>>): (r: seq<Tag>)
    ensures |r| == |tags.Keys|
    ensures forall i :: 0 <= i < |r| ==> r[i].key in tags && r[i].values == tags[r[i].key]
    ensures forall k :: k in tags ==> exists i :: 0 <= i < |r| && r[i].key == k
  {
    var keys := SortedKeys(tags.Keys);
    var r := seq(|keys|, i requires 0 <= i < |keys| => Tag(keys[i], tags[keys[i]]));
    assert forall k :: k in tags ==> exists i :: 0 <= i < |r| && r[i].key == k by {
      forall k | k in tags
        ensures exists i :: 0 <= i < |r| && r[i].key == k
      {
        var i :| 0 <= i < |keys| && keys[i] == k;
        assert r[i].key == k;
      }
    }
    r
  }

  /** `Object.entries(tags).map(([key, values]) => ({ key, values }))`: one
      tag input per entry. The model's objects keep no insertion order, so
      the entries come in code-point order of the keys. */
  function TagInputs(tags: map<string, seq<string>>): Json
  {
    TagsJson(TagEntries(tags))
  }
}
