/** The orchestrator: team definitions read from files, and the three loops
    that create, update and remove one team per added, modified and deleted
    file. File contents come from an injected reader, which answers `None`
    when a file cannot be read or is not JSON. */
module Action {
  import opened Base
  import opened Json
  import opened TypeHelper
  import opened Clients
  import opened TeamTypes
  import opened Teams
  import opened Paths
  import opened Inputs

  /** Reads and parses a definition file; `None` when it cannot be read or parsed. */
  type Reader = string -> Option<Json>

  /** What is done for one file, given the calls made so far. */
  type Step<T> = (seq<Call>, string) -> Traced<T>

  // ---------------------------------------------------------------------------
  // Team definitions

  datatype TeamDefinition = TeamDefinition(
    description: string,
    aliases: seq<string>,
    members: seq<string>,
    contacts: seq<TeamResource>,
    links: seq<TeamResource>,
    tags: map<string, seq<string>>)

  /** `newTeamDefinition()`: every field at its default. */
  function NewTeamDefinition(): TeamDefinition
  {
    TeamDefinition("", [], [], [], [], map[])
  }

  const InvalidDefinition: string := "Invalid team definition"

  /** `unmarshalTeamDefinition(obj)`: an object is required; `contacts` and
      `links` are read strictly when they are arrays, contacts first; every
      other field of the wrong shape keeps its default. */
  function UnmarshalTeamDefinition(obj: Json): (r: Result<TeamDefinition>)
    ensures !obj.JObj? ==> r == Err(DefinitionError(InvalidDefinition))
    ensures r.Ok? <==> obj.JObj? && ResourceList(Get(obj, "contacts")).Ok? && ResourceList(Get(obj, "links")).Ok?
    ensures obj.JObj? && ResourceList(Get(obj, "contacts")).Err? ==> r == Err(ResourceList(Get(obj, "contacts")).error)
    ensures obj.JObj? && ResourceList(Get(obj, "contacts")).Ok? && ResourceList(Get(obj, "links")).Err? ==>
      r == Err(ResourceList(Get(obj, "links")).error)
    ensures r.Ok? ==>
      && r.value.contacts == ResourceList(Get(obj, "contacts")).value
      && r.value.links == ResourceList(Get(obj, "links")).value
    ensures r.Ok? ==>
      && (IsStringArray(Get(obj, "members")) ==> StringArray(r.value.members) == Get(obj, "members"))
      && (!IsStringArray(Get(obj, "members")) ==> r.value.members == [])
      && (Get(obj, "description").JStr? ==> JStr(r.value.description) == Get(obj, "description"))
      && (!Get(obj, "description").JStr? ==> r.value.description == "")
      && (IsStringArray(Get(obj, "aliases")) ==> StringArray(r.value.aliases) == Get(obj, "aliases"))
      && (!IsStringArray(Get(obj, "aliases")) ==> r.value.aliases == [])
    ensures r.Ok? ==>
      && (IsStringMapStringArray(Get(obj, "tags")) ==>
            r.value.tags.Keys == Get(obj, "tags").fields.Keys
            && forall k :: k in r.value.tags ==> StringArray(r.value.tags[k]) == Get(obj, "tags").fields[k])
      && (!IsStringMapStringArray(Get(obj, "tags")) ==> r.value.tags == map[])
  {
    if !IsObjectAsIndexableObject(obj) then Err(DefinitionError(InvalidDefinition))
    else
      var contacts :- ResourceList(Get(obj, "contacts"));
      var links :- ResourceList(Get(obj, "links"));
      StringArrayRoundTrip([], Get(obj, "members"));
      StringArrayRoundTrip([], Get(obj, "aliases"));
      Ok(TeamDefinition(
        if IsString(Get(obj, "description")) then Get(obj, "description").s else "",
        if IsStringArray(Get(obj, "aliases")) then StringsOf(Get(obj, "aliases")) else [],
        if IsStringArray(Get(obj, "members")) then StringsOf(Get(obj, "members")) else [],
        contacts,
        links,
        if IsStringMapStringArray(Get(obj, "tags")) then StringMapOf(Get(obj, "tags")) else map[]))
  }

  /** The definition file that holds `d`. */
  function TeamDefinitionJson(d: TeamDefinition): (obj: Json)
    ensures obj.JObj?
    ensures Get(obj, "description") == JStr(d.description)
    ensures Get(obj, "aliases") == StringArray(d.aliases) && Get(obj, "members") == StringArray(d.members)
    ensures Get(obj, "contacts") == ResourcesJson(d.contacts) && Get(obj, "links") == ResourcesJson(d.links)
    ensures Get(obj, "tags") == StringMapJson(d.tags)
  {
    JObj(map[
      "description" := JStr(d.description),
      "aliases" := StringArray(d.aliases),
      "members" := StringArray(d.members),
      "contacts" := ResourcesJson(d.contacts),
      "links" := ResourcesJson(d.links),
      "tags" := StringMapJson(d.tags)])
  }

  /** An object whose fields carry a definition's values reads back as that
      definition. */
  lemma DefinitionFromFields(obj: Json, d: TeamDefinition)
    requires obj.JObj?
    requires Get(obj, "description") == JStr(d.description)
    requires Get(obj, "aliases") == StringArray(d.aliases)
    requires Get(obj, "members") == StringArray(d.members)
    requires ResourceList(Get(obj, "contacts")) == Ok(d.contacts)
    requires ResourceList(Get(obj, "links")) == Ok(d.links)
    requires Get(obj, "tags") == StringMapJson(d.tags)
    ensures UnmarshalTeamDefinition(obj) == Ok(d)
  {
    StringArrayRoundTrip(d.members, JNull);
    StringArrayRoundTrip(d.aliases, JNull);
  }

  /** A definition whose resources all have a type and content reads back
      from its file as itself. */
  lemma TeamDefinitionRoundTrip(d: TeamDefinition)
    requires forall i :: 0 <= i < |d.contacts| ==> WellFormedResource(d.contacts[i])
    requires forall i :: 0 <= i < |d.links| ==> WellFormedResource(d.links[i])
    ensures UnmarshalTeamDefinition(TeamDefinitionJson(d)) == Ok(d)
  {
    ResourcesRoundTrip(d.contacts);
    ResourcesRoundTrip(d.links);
    DefinitionFromFields(TeamDefinitionJson(d), d);
  }

  // ---------------------------------------------------------------------------
  // One file

  /** The resources a definition gives its team: the contacts, then the links. */
  function DefinitionResources(d: TeamDefinition): (r: seq<TeamResource>)
    ensures |r| == |d.contacts| + |d.links|
    ensures r[..|d.contacts|] == d.contacts && r[|d.contacts|..] == d.links
  {
    d.contacts + d.links
  }

  /** Reading, parsing and unmarshalling the definition in `file`. */
  function ReadDefinition(read: Reader, file: string): Result<TeamDefinition>
  {
    match read(file)
    case None => Err(FileError(file))
    case Some(data) => UnmarshalTeamDefinition(data)
  }

  /** One iteration of `processFilesAdded`: the team named after the file
      is created from its definition. */
  function CreateFromFile(env: Env, cfg: TeamsConfig, read: Reader, log: seq<Call>, file: string)
    : Traced<TeamEntity>
  {
    match ReadDefinition(read, file)
    case Err(e) => Traced(Err(e), log)
    case Ok(d) =>
      CreateTeam(env, log, cfg, TeamName(file), d.members, d.description, d.aliases, d.tags, DefinitionResources(d))
  }

  /** One iteration of `processFilesModified`. */
  function UpdateFromFile(env: Env, cfg: TeamsConfig, read: Reader, log: seq<Call>, file: string)
    : Traced<TeamEntity>
  {
    match ReadDefinition(read, file)
    case Err(e) => Traced(Err(e), log)
    case Ok(d) =>
      UpdateTeam(env, log, cfg, TeamName(file), d.members, d.description, d.aliases, d.tags, DefinitionResources(d))
  }

  /** One iteration of `processFilesDeleted`: the file is not read. */
  function RemoveForFile(env: Env, cfg: TeamsConfig, log: seq<Call>, file: string): Traced<string>
  {
    RemoveTeam(env, log, cfg, TeamName(file))
  }

  function CreateStep(env: Env, cfg: TeamsConfig, read: Reader): Step<TeamEntity>
  {
    (log, file) => CreateFromFile(env, cfg, read, log, file)
  }

  function UpdateStep(env: Env, cfg: TeamsConfig, read: Reader): Step<TeamEntity>
  {
    (log, file) => UpdateFromFile(env, cfg, read, log, file)
  }

  function RemoveStep(env: Env, cfg: TeamsConfig): Step<string>
  {
    (log, file) => RemoveForFile(env, cfg, log, file)
  }

  // ---------------------------------------------------------------------------
  // The file loops

  /** `t` with `done` in front of its results. */
  function Prepend<T>(done: seq<T>, t: Traced<seq<T>>): Traced<seq<T>>
  {
    if t.result.Err? then t else Traced(Ok(done + t.result.value), t.log)
  }

  /** The loop of a `processFiles*` method: one step per file, in order,
      each given the history the previous one left, stopping at the first
      error. */
  function EachFile<T>(step: Step<T>, log: seq<Call>, files: seq<string>): Traced<seq<T>>
    decreases |files|
  {
    if |files| == 0 then Traced(Ok([]), log)
    else
      var first := step(log, files[0]);
      if first.result.Err? then Traced(Err(first.result.error), first.log)
      else Prepend([first.result.value], EachFile(step, first.log, files[1..]))
  }

  /** The history before each step of `EachFile` and after the last one,
      had every step succeeded. */
  function FileLogs<T>(step: Step<T>, log: seq<Call>, files: seq<string>): (logs: seq<seq<Call>>)
    ensures |logs| == |files| + 1 && logs[0] == log
    ensures forall k :: 0 <= k < |files| ==> logs[k + 1] == step(logs[k], files[k]).log
    decreases |files|
  {
    if |files| == 0 then [log]
    else
      var rest := FileLogs(step, step(log, files[0]).log, files[1..]);
      assert forall k :: 1 <= k < |files| ==> files[k] == files[1..][k - 1];
      [log] + rest
  }

  /** A successful loop made exactly one step per file, in file order, each
      from the history the previous step left; the results are those of the
      steps, in the same order. */
  lemma {:induction false} EachFileSteps<T>(step: Step<T>, log: seq<Call>, files: seq<string>)
    ensures var t := EachFile(step, log, files);
      var logs := FileLogs(step, log, files);
      t.result.Ok? ==>
        && |t.result.value| == |files|
        && t.log == logs[|files|]
        && forall k :: 0 <= k < |files| ==> step(logs[k], files[k]).result == Ok(t.result.value[k])
    decreases |files|
  {
    if |files| > 0 {
      var first := step(log, files[0]);
      if first.result.Ok? {
        EachFileSteps(step, first.log, files[1..]);
        var t := EachFile(step, log, files);
        var rest := EachFile(step, first.log, files[1..]);
        var logs := FileLogs(step, log, files);
        assert logs[1..] == FileLogs(step, first.log, files[1..]);
        if t.result.Ok? {
          assert t.result.value == [first.result.value] + rest.result.value;
          forall k | 1 <= k < |files|
            ensures step(logs[k], files[k]).result == Ok(t.result.value[k])
          {
            assert files[k] == files[1..][k - 1];
            assert logs[k] == logs[1..][k - 1];
          }
        }
      }
    }
  }

  /** `t` is the failure of step `k`, every step before it having succeeded. */
  ghost predicate StopsAt<T>(step: Step<T>, logs: seq<seq<Call>>, files: seq<string>, k: int,
                             t: Traced<seq<T>>)
    requires |logs| == |files| + 1
  {
    && 0 <= k < |files|
    && (forall j :: 0 <= j < k ==> step(logs[j], files[j]).result.Ok?)
    && step(logs[k], files[k]).result.Err?
    && t == Traced(Err(step(logs[k], files[k]).result.error), logs[k + 1])
  }

  /** A failing loop failed at some file, after every file before it
      succeeded, and made no step after it. */
  lemma {:induction false} EachFileStops<T>(step: Step<T>, log: seq<Call>, files: seq<string>)
    ensures var t := EachFile(step, log, files);
      t.result.Err? ==> exists k :: StopsAt(step, FileLogs(step, log, files), files, k, t)
    decreases |files|
  {
    if |files| > 0 {
      var first := step(log, files[0]);
      var t := EachFile(step, log, files);
      var logs := FileLogs(step, log, files);
      if first.result.Err? {
        assert StopsAt(step, logs, files, 0, t);
      } else if t.result.Err? {
        EachFileStops(step, first.log, files[1..]);
        var rest := FileLogs(step, first.log, files[1..]);
        assert logs[1..] == rest;
        var k :| StopsAt(step, rest, files[1..], k, EachFile(step, first.log, files[1..]));
        assert files[1..][k] == files[k + 1];
        forall j | 0 <= j < k + 1
          ensures step(logs[j], files[j]).result.Ok?
        {
          if j > 0 {
            assert files[j] == files[1..][j - 1];
          }
        }
        assert StopsAt(step, logs, files, k + 1, t);
      }
    }
  }

  /** Every successful step only appends to the history. */
  ghost predicate Extending<T>(step: Step<T>)
  {
    forall log, file :: step(log, file).result.Ok? ==> log <= step(log, file).log
  }

  /** A successful loop of such steps only appends to the history. */
  lemma {:induction false} EachFileExtends<T>(step: Step<T>, log: seq<Call>, files: seq<string>)
    requires Extending(step)
    ensures var t := EachFile(step, log, files); t.result.Ok? ==> log <= t.log
    decreases |files|
  {
    if |files| > 0 {
      var first := step(log, files[0]);
      if first.result.Ok? {
        EachFileExtends(step, first.log, files[1..]);
      }
    }
  }

  /** The steps of the three loops only append to the history. */
  lemma StepsExtend(env: Env, cfg: TeamsConfig, read: Reader)
    ensures Extending(CreateStep(env, cfg, read))
    ensures Extending(UpdateStep(env, cfg, read))
    ensures Extending(RemoveStep(env, cfg))
  {
    forall log, file | CreateFromFile(env, cfg, read, log, file).result.Ok?
      ensures log <= CreateFromFile(env, cfg, read, log, file).log
    {
      var d := ReadDefinition(read, file).value;
      CreateTeamExtends(env, log, cfg, TeamName(file), d.members, d.description, d.aliases, d.tags, DefinitionResources(d));
    }
    forall log, file | UpdateFromFile(env, cfg, read, log, file).result.Ok?
      ensures log <= UpdateFromFile(env, cfg, read, log, file).log
    {
      var d := ReadDefinition(read, file).value;
      UpdateTeamExtends(env, log, cfg, TeamName(file), d.members, d.description, d.aliases, d.tags, DefinitionResources(d));
    }
    forall log, file | RemoveForFile(env, cfg, log, file).result.Ok?
      ensures log <= RemoveForFile(env, cfg, log, file).log
    {
      RemoveTeamExtends(env, log, cfg, TeamName(file));
    }
  }

  /** The loop shared by the three `processFiles*` methods. An empty list
      returns at once, with no call. */
  method ProcessFiles<T>(step: Step<T>, log: seq<Call>, files: seq<string>)
    returns (t: Traced<seq<T>>)
    ensures t == EachFile(step, log, files)
  {
    if |files| == 0 {
      return Traced(Ok([]), log);
    }
    var done: seq<T> := [];
    var calls := log;
    assert files[0..] == files;
    var whole := EachFile(step, log, files);
    if whole.result.Ok? {
      assert [] + whole.result.value == whole.result.value;
    }
    assert Prepend(done, whole) == whole;
    for i := 0 to |files|
      invariant EachFile(step, log, files) == Prepend(done, EachFile(step, calls, files[i..]))
    {
      var r := step(calls, files[i]);
      assert files[i..][0] == files[i] && files[i..][1..] == files[i + 1..];
      if r.result.Err? {
        return Traced(Err(r.result.error), r.log);
      }
      var rest := EachFile(step, r.log, files[i + 1..]);
      if rest.result.Ok? {
        assert done + ([r.result.value] + rest.result.value) == (done + [r.result.value]) + rest.result.value;
      }
      done := done + [r.result.value];
      calls := r.log;
    }
    assert done + [] == done;
    return Traced(Ok(done), calls);
  }

  /** `processFilesAdded(filesAdded)`. */
  method ProcessFilesAdded(env: Env, cfg: TeamsConfig, read: Reader, log: seq<Call>, filesAdded: seq<string>)
    returns (t: Traced<seq<TeamEntity>>)
    ensures t == EachFile(CreateStep(env, cfg, read), log, filesAdded)
  {
    t := ProcessFiles(CreateStep(env, cfg, read), log, filesAdded);
  }

  /** `processFilesModified(filesModified)`. */
  method ProcessFilesModified(env: Env, cfg: TeamsConfig, read: Reader, log: seq<Call>, filesModified: seq<string>)
    returns (t: Traced<seq<TeamEntity>>)
    ensures t == EachFile(UpdateStep(env, cfg, read), log, filesModified)
  {
    t := ProcessFiles(UpdateStep(env, cfg, read), log, filesModified);
  }

  /** `processFilesDeleted(filesDeleted)`. */
  method ProcessFilesDeleted(env: Env, cfg: TeamsConfig, log: seq<Call>, filesDeleted: seq<string>)
    returns (t: Traced<seq<string>>)
    ensures t == EachFile(RemoveStep(env, cfg), log, filesDeleted)
  {
    t := ProcessFiles(RemoveStep(env, cfg), log, filesDeleted);
  }

  /** Each team `processFilesAdded` returns was created under its file's
      name, in file order. */
  lemma AddedTeamsNamed(env: Env, cfg: TeamsConfig, read: Reader, log: seq<Call>, files: seq<string>)
    ensures var t := EachFile(CreateStep(env, cfg, read), log, files);
      t.result.Ok? ==> |t.result.value| == |files| && forall k :: 0 <= k < |files| ==> t.result.value[k].name == TeamName(files[k])
  {
    var step := CreateStep(env, cfg, read);
    var logs := FileLogs(step, log, files);
    EachFileSteps(step, log, files);
    var t := EachFile(step, log, files);
    if t.result.Ok? {
      forall k | 0 <= k < |files|
        ensures t.result.value[k].name == TeamName(files[k])
      {
        var d := ReadDefinition(read, files[k]).value;
        CreateTeamIdentity(env, logs[k], cfg, TeamName(files[k]), d.members, d.description, d.aliases, d.tags,
          DefinitionResources(d));
      }
    }
  }

  /** `id` is the id of the team found under `name`. */
  predicate RemovedAs(env: Env, log: seq<Call>, cfg: TeamsConfig, name: string, id: string)
  {
    var found := TeamByName(env, log, cfg, name).result;
    found.Ok? && found.value.Some? && found.value.value.id == id
  }

  /** Each id `processFilesDeleted` returns is that of the team found under
      its file's name, in file order. */
  lemma DeletedTeamsNamed(env: Env, cfg: TeamsConfig, log: seq<Call>, files: seq<string>)
    ensures var t := EachFile(RemoveStep(env, cfg), log, files);
      var logs := FileLogs(RemoveStep(env, cfg), log, files);
      t.result.Ok? ==> |t.result.value| == |files| && forall k :: 0 <= k < |files| ==>
        RemovedAs(env, logs[k], cfg, TeamName(files[k]), t.result.value[k])
  {
    var step := RemoveStep(env, cfg);
    var logs := FileLogs(step, log, files);
    EachFileSteps(step, log, files);
    var t := EachFile(step, log, files);
    if t.result.Ok? {
      forall k | 0 <= k < |files|
        ensures RemovedAs(env, logs[k], cfg, TeamName(files[k]), t.result.value[k])
      {
        assert step(logs[k], files[k]).result == Ok(t.result.value[k]);
        RemoveTeamIdentity(env, logs[k], cfg, TeamName(files[k]));
      }
    }
  }

  // ---------------------------------------------------------------------------
  // run

  /** What one run did: the teams created, the teams updated and the ids of
      the teams removed. */
  datatype Synced = Synced(created: seq<TeamEntity>, updated: seq<TeamEntity>, removed: seq<string>)

  /** `run()`: the added files, then the modified files, then the deleted
      files; the first error ends the run. */
  function Sync(env: Env, cfg: TeamsConfig, read: Reader, log: seq<Call>, inputs: Inputs): Traced<Synced>
  {
    var added := EachFile(CreateStep(env, cfg, read), log, inputs.filesAdded);
    if added.result.Err? then Traced(Err(added.result.error), added.log)
    else
      var modified := EachFile(UpdateStep(env, cfg, read), added.log, inputs.filesModified);
      if modified.result.Err? then Traced(Err(modified.result.error), modified.log)
      else
        var deleted := EachFile(RemoveStep(env, cfg), modified.log, inputs.filesDeleted);
        if deleted.result.Err? then Traced(Err(deleted.result.error), deleted.log)
        else Traced(Ok(Synced(added.result.value, modified.result.value, deleted.result.value)), deleted.log)
  }

  method Run(env: Env, cfg: TeamsConfig, read: Reader, log: seq<Call>, inputs: Inputs)
    returns (t: Traced<Synced>)
    ensures t == Sync(env, cfg, read, log, inputs)
  {
    var added := ProcessFilesAdded(env, cfg, read, log, inputs.filesAdded);
    if added.result.Err? {
      return Traced(Err(added.result.error), added.log);
    }
    var modified := ProcessFilesModified(env, cfg, read, added.log, inputs.filesModified);
    if modified.result.Err? {
      return Traced(Err(modified.result.error), modified.log);
    }
    var deleted := ProcessFilesDeleted(env, cfg, modified.log, inputs.filesDeleted);
    if deleted.result.Err? {
      return Traced(Err(deleted.result.error), deleted.log);
    }
    return Traced(Ok(Synced(added.result.value, modified.result.value, deleted.result.value)), deleted.log);
  }

  /** A successful run made every call for the added files before any call
      for the modified files, and those before any call for the deleted
      files; it returns one result per file of each list. */
  lemma RunOrder(env: Env, cfg: TeamsConfig, read: Reader, log: seq<Call>, inputs: Inputs)
    ensures var t := Sync(env, cfg, read, log, inputs);
      var added := EachFile(CreateStep(env, cfg, read), log, inputs.filesAdded);
      var modified := EachFile(UpdateStep(env, cfg, read), added.log, inputs.filesModified);
      var deleted := EachFile(RemoveStep(env, cfg), modified.log, inputs.filesDeleted);
      t.result.Ok? ==>
        && log <= added.log <= modified.log <= deleted.log == t.log
        && |t.result.value.created| == |inputs.filesAdded|
        && |t.result.value.updated| == |inputs.filesModified|
        && |t.result.value.removed| == |inputs.filesDeleted|
  {
    var added := EachFile(CreateStep(env, cfg, read), log, inputs.filesAdded);
    var modified := EachFile(UpdateStep(env, cfg, read), added.log, inputs.filesModified);
    var deleted := EachFile(RemoveStep(env, cfg), modified.log, inputs.filesDeleted);
    StepsExtend(env, cfg, read);
    EachFileExtends(CreateStep(env, cfg, read), log, inputs.filesAdded);
    EachFileExtends(UpdateStep(env, cfg, read), added.log, inputs.filesModified);
    EachFileExtends(RemoveStep(env, cfg), modified.log, inputs.filesDeleted);
    EachFileSteps(CreateStep(env, cfg, read), log, inputs.filesAdded);
    EachFileSteps(UpdateStep(env, cfg, read), added.log, inputs.filesModified);
    EachFileSteps(RemoveStep(env, cfg), modified.log, inputs.filesDeleted);
  }
}
