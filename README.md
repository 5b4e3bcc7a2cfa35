# Teams sync action, modelled in Dafny

This project models the core of a GitHub Action that keeps New Relic teams in
step with a directory of JSON team definitions. For every changed file, the
action creates, updates or deletes the team named after the file. It talks to
the New Relic GraphQL API (Nerdgraph) through a teams client and a users
client. The model follows the source layer by layer:

- `Base`, `Strings`, `Json`: the JavaScript values and string built-ins the
  source relies on. These are `JSON.parse` values, `split`, `join`, `trim`,
  ASCII `toUpperCase`, decimal keys and code-point order.
- `TypeHelper` (`src/util/type-helper.ts`): the runtime shape checks.
- `Util` (`src/util/util.ts`): `arraysEqual`, and the `Context` singleton
  cache as a class with a `map` field.
- `GraphQL` (`src/nerdgraph/graphql.ts`): `findByPath`, request building,
  strict unmarshalling of the response envelope, status classification, and
  the status-parse-unmarshal pipeline of one post.
- `Nerdgraph` (`src/nerdgraph/nerdgraph.ts`): region selection and the
  paginating query loop.
- `Clients`: the calls the domain clients make, and the injected clients
  that answer them.
- `Users` (`src/nerdgraph/users.ts`): user lookups by email and by id.
- `TeamTypes`, `Membership`, `Teams` (`src/nerdgraph/teams.ts`):
  - the team records and their unmarshalling;
  - finding a team by name across pages;
  - listing members;
  - the membership diff and its mutations;
  - create, update and remove.
- `Paths`: `basename(file, extname(file))` of `node:path` (POSIX).
- `Inputs` (`src/inputs.ts`): the action inputs and the file-list parsing.
- `Action` (`src/action.ts`): team definitions, the three file loops and
  `run`.

Injected dependencies are values:

- The Nerdgraph client and the users client are functions from the call
  history to an answer (`Clients.Env`). Every domain operation returns its
  result together with the history it leaves (`Clients.Traced`). This lets
  the lemmas state which calls were made, in which order, and that the read
  paths send no mutation.
- The GraphQL client of the paginating loop is the list of its successive
  answers.
- The file reader of the action is a function from a file name to the parsed
  JSON, or `None`.

Loops the source runs are `method`s with `while`/`for` loops, proved equal to
a specification function. These are the page loops, the member loops, the
membership loop, the request builder, `arraysEqual` and the three
`processFiles*` loops. The properties are proved about those functions.

## Model

| member | source | states |
|---|---|---|
| Base.MapResult | src/nerdgraph/teams.ts:148-150 | A throwing `map` succeeds iff every element does, gives one result per element in order, and otherwise fails with the error of the first failing element, every element before it having succeeded |
| Strings.JoinSplit | src/inputs.ts:27 | Joining the pieces of a one-character `split` with the same separator gives the string back |
| Strings.SplitJoin | src/inputs.ts:27 | Splitting a join of separator-free pieces recovers the pieces |
| Strings.Trim | src/inputs.ts:27 | `trim` returns the slice of the input left after its leading and trailing whitespace are dropped: only whitespace before and after it, and it neither starts nor ends with whitespace |
| Strings.TrimTrimmed | src/inputs.ts:27 | Trimming an already trimmed string is the identity |
| Strings.ToUpperAscii | src/nerdgraph/nerdgraph.ts:35 | Upper-casing keeps the length and maps each character |
| Strings.CanonicalIndexOfNat | src/nerdgraph/graphql.ts:40-71 | The decimal key of `n` names array index `n`, so `findByPath` reaches array elements by index |
| TypeHelper.IsDefined | src/util/type-helper.ts:5-7 | Only `undefined` fails |
| TypeHelper.IsObject | src/util/type-helper.ts:9-11 | True exactly for non-null, non-array objects |
| TypeHelper.IsObjectAsIndexableObject | src/util/type-helper.ts:13-17 | The same test as `isObject` |
| TypeHelper.IsString | src/util/type-helper.ts:19-21 | True exactly for strings |
| TypeHelper.IsNotEmptyString | src/util/type-helper.ts:23-25 | True exactly for strings with at least one character |
| TypeHelper.IsNumber | src/util/type-helper.ts:27-29 | True exactly for numbers (the model has no NaN) |
| TypeHelper.IsStringArray | src/util/type-helper.ts:31-33 | True exactly for arrays whose elements are all strings, the empty array included |
| TypeHelper.IsStringMapStringArray | src/util/type-helper.ts:35-39 | True exactly for objects whose every value is a string array |
| TypeHelper.StringArrayRoundTrip | src/util/type-helper.ts:31-33 | A string array and the strings read from it determine each other |
| TypeHelper.StringMapJson | src/util/type-helper.ts:35-39 | The object built from a string-array map passes the check and reads back as the map |
| Util.SortSorted | src/util/util.ts:6-7 | `sort` on a copy yields lexicographic code-point order |
| Util.Sort | src/util/util.ts:6-7 | Sorting is a permutation |
| Util.SortedUnique | src/util/util.ts:6-13 | Two sorted arrays with the same elements are equal, so comparing sorted copies position by position compares multisets |
| Util.SortEqualIffPermutation | src/util/util.ts:6-13 | Two arrays sort to the same array iff they are permutations of each other |
| Util.SamePositions | src/util/util.ts:9-15 | The comparison loop returns true iff the arrays are equal |
| Util.ArraysEqual | src/util/util.ts:1-16 | `arraysEqual` is true iff the arrays hold the same elements with the same multiplicities |
| Util.Context.constructor | src/util/util.ts:21-23 | The cache starts empty |
| Util.Context.Singleton | src/util/util.ts:25-32 | A truthy cached value is returned without calling the factory; otherwise the factory's value is stored under the key and returned; other keys are unchanged |
| Util.SingletonIsStable | src/util/util.ts:25-32 | Once a truthy value is cached, a later request for its key returns the same value |
| GraphQL.FindByPathSegment | src/nerdgraph/graphql.ts:40-75 | One key gives the own property, `Missing` when absent, `NotObject` for a primitive, and a TypeError for `null` |
| GraphQL.FindByPathConcat | src/nerdgraph/graphql.ts:40-75 | A longer path resolves from the value found at its prefix, and a prefix that does not end in a value ends the longer walk the same way |
| GraphQL.FindByPathArray | src/nerdgraph/graphql.ts:40-71 | Array elements are found by decimal index, and `length` is an own key |
| GraphQL.FindByPathNest | src/nerdgraph/graphql.ts:40-75 | A dotted path of dot-free keys finds the value nested along it |
| GraphQL.FindValueIsFindByPath | src/nerdgraph/graphql.ts:73-75 | The key-by-key lookup the clients use is `findByPath` of the dotted path |
| GraphQL.FindValueNest | src/nerdgraph/graphql.ts:40-75 | The key-by-key lookup finds the value nested along the keys |
| GraphQL.NewGraphQLRequest | src/nerdgraph/graphql.ts:77-106 | The request loop builds the keyword, the declarations and the body, and maps each variable name to its value |
| GraphQL.RequestWithoutVariables | src/nerdgraph/graphql.ts:77-106 | Without variables there are no parentheses and the variables are `{}` |
| GraphQL.DeclarationsInOrder | src/nerdgraph/graphql.ts:84-96 | With variables, the declarations are the `$name: Type` of each variable, comma-separated in order |
| GraphQL.VarMapBindsEachName | src/nerdgraph/graphql.ts:84-96 | The variables record binds exactly the declared names, each to its value |
| GraphQL.UnmarshalLocation | src/nerdgraph/graphql.ts:115-137 | Succeeds iff the object has numeric `line` and `column`, and returns them; a non-object raises |
| GraphQL.UnmarshalError | src/nerdgraph/graphql.ts:147-171 | Succeeds iff the object has a non-empty `message` and an array `locations` unmarshals entirely; the message is kept, each location is the unmarshalled element at its index, and the string-array `path` is kept; a non-array `locations` or non-string-array `path` is empty |
| GraphQL.UnmarshalResponse | src/nerdgraph/graphql.ts:180-198 | Succeeds iff the object's `errors`, when an array, all unmarshal; each error is the unmarshalled element at its index, a non-array `errors` is empty, and `data` is kept when defined and is `null` otherwise |
| GraphQL.LocationRoundTrip | src/nerdgraph/graphql.ts:115-137 | A location reads back as itself |
| GraphQL.ErrorRoundTrip | src/nerdgraph/graphql.ts:147-171 | An error with a non-empty message reads back as itself |
| GraphQL.ResponseRoundTrip | src/nerdgraph/graphql.ts:180-198 | Every response the unmarshaller can produce reads back as itself |
| GraphQL.RaiseForStatus | src/nerdgraph/graphql.ts:223-244 | Raises exactly for statuses outside 100-399, with an HttpError carrying the status |
| GraphQL.PostHeaders | src/nerdgraph/graphql.ts:281-288 | The JSON content-negotiation headers are added, and the caller's headers override them |
| GraphQL.ReceiveStages | src/nerdgraph/graphql.ts:292-311 | A bad status raises before the body is read, an unparsable body raises a GraphQLResponseError, otherwise the envelope is unmarshalled |
| Nerdgraph.ToRegion | src/nerdgraph/nerdgraph.ts:30-43 | No region or an empty region is US |
| Nerdgraph.ToRegionEU | src/nerdgraph/nerdgraph.ts:30-43 | EU is chosen exactly for "EU" in any letter case; everything else is US |
| Nerdgraph.SetVarBinds | src/nerdgraph/nerdgraph.ts:84-86 | Setting `cursor` binds it to the new value, and nothing else changes |
| Nerdgraph.SetVarDistinct | src/nerdgraph/nerdgraph.ts:84-86 | Setting a variable keeps the names distinct |
| Nerdgraph.SetVarTwice | src/nerdgraph/nerdgraph.ts:84-86 | Setting the same variable twice leaves only the second value |
| Nerdgraph.PostAtShape | src/nerdgraph/nerdgraph.ts:88-95 | Each post goes to the override or the region's endpoint and carries the API key unless the caller's headers replace it; its variables are the caller's, with `cursor` bound when the query paginates |
| Nerdgraph.NextCursorCases | src/nerdgraph/nerdgraph.ts:106-121 | Without a cursor path the loop stops; a `false` cursor raises, `null` stops, a string continues, anything else raises |
| Nerdgraph.PostOfIteration | src/nerdgraph/nerdgraph.ts:88-95 | The post one iteration sends is the specification's post for the current cursor |
| Nerdgraph.QueryPage | src/nerdgraph/nerdgraph.ts:84-121 | One iteration is the first step of the specified run: the error that ends it, the last page, or a page followed by the run from the next cursor |
| Nerdgraph.Query | src/nerdgraph/nerdgraph.ts:70-125 | The loop returns exactly the outcome and the posts of the specified paginated run |
| Nerdgraph.PagesSent | src/nerdgraph/nerdgraph.ts:83-122 | A run sends at least one post, and the first carries the starting cursor |
| Nerdgraph.PagesSuccessPages | src/nerdgraph/nerdgraph.ts:97-104 | A successful run returns one payload per post, each the data of an answer without errors |
| Nerdgraph.PagesSuccessCursors | src/nerdgraph/nerdgraph.ts:106-121 | In a successful run each later post carries the cursor the previous page named, and the last page names none |
| Nerdgraph.PagesErrorsRaise | src/nerdgraph/nerdgraph.ts:97-102 | When every earlier reply is an error-free page naming a next cursor and the next reply carries GraphQL errors, the run ends with the page-errors failure |
| Nerdgraph.QueryErrorsRaise | src/nerdgraph/nerdgraph.ts:97-102 | A query whose first answer that does not carry on is one with GraphQL errors raises `NerdgraphError("Errors returned on GraphQL post for query: " + query)` |
| Nerdgraph.QuerySuccess | src/nerdgraph/nerdgraph.ts:70-125 | A successful query starts with `cursor = null`, chains each page's cursor into the next post, ends on a page without a cursor, and returns each page's data in order |
| Nerdgraph.NoCursorSinglePage | src/nerdgraph/nerdgraph.ts:84-116 | Without a cursor path a query sends one post and returns at most one page |
| Nerdgraph.FirstCursorIsNull | src/nerdgraph/nerdgraph.ts:81-86 | The first post of a paginating query sends `cursor = null` |
| Users.IsUserSearchResult | src/nerdgraph/users.ts:10-18 | An object with string `authenticationDomainId` and `id` |
| Users.IsUserEntity | src/nerdgraph/users.ts:20-24 | An object with string `guid` and `name` |
| Users.UserIdOf | src/nerdgraph/users.ts:84-126 | Raises unless there is one page; no items is no user; one search result of the requested domain yields its id; everything else raises |
| Users.UserIdRoundTrip | src/nerdgraph/users.ts:90-126 | A page listing one search result of the domain yields its id |
| Users.UserIdOtherDomain | src/nerdgraph/users.ts:120-124 | A search result of another domain raises |
| Users.SearchTextEmbedsId | src/nerdgraph/users.ts:129-150 | The search text of `getUserById` tells ids apart exactly as their text does |
| Users.UserEntityOf | src/nerdgraph/users.ts:152-191 | Raises unless there is one page; no entities is no user; one entity with string `guid` and `name` is that user; everything else raises |
| Users.UserEntityRoundTrip | src/nerdgraph/users.ts:158-191 | A page listing one user entity yields that user |
| Users.GetUserByEmailCalls | src/nerdgraph/users.ts:194-205 | The email lookup asks for the id first; no id answers `null` with no second query; otherwise one id search follows, and its answer is the result |
| TeamTypes.UnmarshalTag | src/nerdgraph/teams.ts:45-62 | A tag item succeeds iff it is an object with a non-empty `key` and string-array `values`, and keeps them |
| TeamTypes.UnmarshalTags | src/nerdgraph/teams.ts:40-63 | A non-array raises "Invalid tags"; otherwise it succeeds iff every item does, one tag per item in order |
| TeamTypes.TagRoundTrip | src/nerdgraph/teams.ts:45-61 | One tag with a non-empty key, written as a tag item, reads back as itself |
| TeamTypes.TagsRoundTrip | src/nerdgraph/teams.ts:40-63 | Tags with non-empty keys read back as themselves |
| TeamTypes.UnmarshalTeamResource | src/nerdgraph/teams.ts:73-97 | Succeeds iff the object has a non-empty `type` and `content`; a missing or non-string title is `null` |
| TeamTypes.ResourceRoundTrip | src/nerdgraph/teams.ts:73-97 | A resource with a type and content reads back as itself |
| TeamTypes.ResourcesRoundTrip | src/nerdgraph/teams.ts:148-150 | A list of such resources reads back as itself, both through the strict `map` and through the `Array.isArray(...) ? ... : []` reading |
| TeamTypes.ResourceList | src/action.ts:57-65 | A non-array is no resources; an array is unmarshalled strictly, element by element |
| TeamTypes.UnmarshalTeamEntity | src/nerdgraph/teams.ts:113-165 | The entity checks run in the source's order; it succeeds exactly when they all pass, and keeps the checked fields |
| TeamTypes.TeamEntityRoundTrip | src/nerdgraph/teams.ts:113-165 | A well-formed team entity reads back as itself |
| TeamTypes.IsUserItem | src/nerdgraph/teams.ts:167-169 | An object with a numeric `userId` |
| TeamTypes.TagEntries | src/nerdgraph/teams.ts:535-537 | The tag inputs hold exactly one entry per key of the tags map, with that key's values |
| Membership.IndexOf | src/nerdgraph/teams.ts:479-485 | `indexOf` is -1 iff the value is absent, and otherwise the first position of the value |
| Membership.Splice | src/nerdgraph/teams.ts:484 | `splice(i, 1)` removes one copy of the element at `i` |
| Membership.DiffAccounts | src/nerdgraph/teams.ts:466-486 | Every resolved GUID is either added or removes one copy of itself from the current members, so resolved + removed == added + current as multisets |
| Membership.DiffApart | src/nerdgraph/teams.ts:466-486 | No GUID is both added and removed |
| Membership.NoChangeNoDiff | src/nerdgraph/teams.ts:466-486 | When the resolved GUIDs are the current ones as a multiset, nothing is added or removed |
| Teams.ReadsOnlyTransitive | src/nerdgraph/teams.ts:462-497 | Appending reads to reads is reads |
| Teams.FirstNamed | src/nerdgraph/teams.ts:286-290 | The first entity named `name` on a page, or none if there is no such entity |
| Teams.SearchPage | src/nerdgraph/teams.ts:270-293 | A page yields no team iff it lists no entities or none with the name; a team found carries the requested name |
| Teams.TeamByName | src/nerdgraph/teams.ts:230-294 | A team found by name carries that name |
| Teams.GetTeamByName | src/nerdgraph/teams.ts:230-294 | The nested page and entity loops return exactly the specified search over the pages of the one query |
| Teams.TeamInPagesSkips | src/nerdgraph/teams.ts:270-293 | Pages that are passed over do not change the outcome of the search |
| Teams.NoNamedTeam | src/nerdgraph/teams.ts:270-294 | When every page is passed over, there is no team |
| Teams.SearchPageFinds | src/nerdgraph/teams.ts:270-293 | A page listing a well-formed team after entities of other names yields that team |
| Teams.TeamByNameRoundTrip | src/nerdgraph/teams.ts:270-293 | That team is found whatever passed-over pages come before its page and whatever pages come after |
| Teams.TeamByNameReads | src/nerdgraph/teams.ts:230-294 | `getTeamByName` sends no mutation |
| Teams.PushItemUsers | src/nerdgraph/teams.ts:342-358 | The inner member loop returns exactly the specified lookup of its items |
| Teams.GetTeamMembers | src/nerdgraph/teams.ts:296-362 | The page loop returns exactly the specified member listing |
| Teams.LookUpIdsCalls | src/nerdgraph/teams.ts:342-358 | A successful lookup makes one id call per id, in order, and adds one user per id |
| Teams.MembersByIds | src/nerdgraph/teams.ts:326-361 | On pages it can take, the member loop is the lookup of the ids listed, in page and item order |
| Teams.TeamMembersCalls | src/nerdgraph/teams.ts:296-362 | A successful listing saw only user items; it looked each id up once, in order, after its one query, and returns one member per id |
| Teams.TeamMembersReads | src/nerdgraph/teams.ts:296-362 | `getTeamMembers` sends no mutation |
| Teams.ChangedIds | src/nerdgraph/teams.ts:386-410 | One page is required, and the ids it reports must be the requested ones in any order; otherwise it raises |
| Teams.ChangedIdsAccepts | src/nerdgraph/teams.ts:386-410 | A single page reporting the requested GUIDs in any order is accepted |
| Teams.AddMembers | src/nerdgraph/teams.ts:364-411 | One add mutation is sent, and success reports exactly the requested GUIDs |
| Teams.RemoveMembers | src/nerdgraph/teams.ts:413-460 | One remove mutation is sent, and success reports exactly the requested GUIDs |
| Teams.ResolvedGuidsReads | src/nerdgraph/teams.ts:470-476 | Resolving the wanted emails sends no mutation |
| Teams.UpdateMembership | src/nerdgraph/teams.ts:462-497 | The membership loop returns exactly the specified update |
| Teams.ApplyDiffCalls | src/nerdgraph/teams.ts:488-496 | The add mutation is sent only when somebody is added, and the remove mutation only when somebody is removed, each once, in that order |
| Teams.MembershipUpdateCalls | src/nerdgraph/teams.ts:462-497 | A successful update returns the diff of the current and the resolved GUIDs; it only reads before its closing mutations |
| Teams.SameMembersNoMutation | src/nerdgraph/teams.ts:462-497 | When the wanted members are already the members, no mutation is sent |
| Teams.ReportedGuid | src/nerdgraph/teams.ts:545-561 | One page is required, and the reported id must be a non-empty string, which is returned |
| Teams.UpdatedEntity | src/nerdgraph/teams.ts:644-659 | One page is required; the reported entity must be an object and is unmarshalled |
| Teams.CreatedTeam | src/nerdgraph/teams.ts:563-577 | The created team is the one re-read by name; its id is the reported id |
| Teams.CreateTeamIdentity | src/nerdgraph/teams.ts:499-578 | A created team carries the requested name and the id the mutation reported, and it is the team found by that name right after the mutation |
| Teams.MissingTeamNoMutation | src/nerdgraph/teams.ts:588-592 | Updating or removing a missing team raises "Team not found" and sends no mutation |
| Teams.UpdateTeamTarget | src/nerdgraph/teams.ts:580-664 | An update is aimed at the team found by name and returns the entity the mutation reports |
| Teams.RemoveTeamIdentity | src/nerdgraph/teams.ts:666-711 | A removal deletes the team found by name and returns the id the delete mutation reports |
| Teams.CreateTeamExtends | src/nerdgraph/teams.ts:499-578 | A successful create sends its create mutation right after the calls before it |
| Teams.UpdateTeamExtends | src/nerdgraph/teams.ts:580-664 | A successful update finds the team first, then sends its update mutation |
| Teams.RemoveTeamExtends | src/nerdgraph/teams.ts:666-711 | A successful removal only appends calls |
| Teams.MembershipUpdateExtends | src/nerdgraph/teams.ts:462-497 | A successful membership update only appends calls |
| Paths.BaseName | src/action.ts:121 | The last segment holds no `/` |
| Paths.SegmentName | src/action.ts:121 | A segment is its name followed by its extension |
| Paths.TeamName | src/action.ts:121 | The last segment of a file is its team name followed by `extname` |
| Paths.TeamNameOfFile | src/action.ts:121 | The file `dir/name.ext` names the team `name`, whatever the directory |
| Paths.TeamNameWithoutExtension | src/action.ts:121 | A file whose last segment has no `.` names the team after the whole segment |
| Inputs.FileList | src/inputs.ts:25-33 | An empty input is no files; otherwise there is one file per comma-separated piece, trimmed and comma-free |
| Inputs.FileListOfJoin | src/inputs.ts:25-33 | A comma-joined list of trimmed, comma-free names parses back to the list |
| Inputs.FileListRoundTrip | src/inputs.ts:25-33 | The parsed list joins and parses back to itself |
| Inputs.GetInputs | src/inputs.ts:13-35 | The inputs record carries the organization, the key, the region chosen from the region input, and the three parsed file lists |
| Action.UnmarshalTeamDefinition | src/action.ts:38-72 | A non-object raises "Invalid team definition"; it succeeds iff the array `contacts` and `links` unmarshal, contacts first; each other field is read when well typed and defaulted otherwise |
| Action.TeamDefinitionJson | src/action.ts:18-25 | The definition file holds each field of the definition under its own key |
| Action.TeamDefinitionRoundTrip | src/action.ts:38-72 | A definition whose resources have a type and content reads back from its file as itself |
| Action.DefinitionResources | src/action.ts:130 | The resources given to the team are the contacts followed by the links |
| Action.FileLogs | src/action.ts:115-134 | The call history before each step of the loop, each step starting from the previous step's history |
| Action.EachFileSteps | src/action.ts:115-136 | A successful loop made one step per file, in file order, and returns each step's result in order |
| Action.EachFileStops | src/action.ts:115-134 | A failing loop failed at one file after every earlier file succeeded, and made no later step |
| Action.EachFileExtends | src/action.ts:115-136 | A loop of steps that only append calls only appends calls |
| Action.StepsExtend | src/action.ts:115-189 | The create, update and remove steps only append calls |
| Action.ProcessFiles | src/action.ts:107-137 | The loop returns exactly the specified fold over the files; an empty list returns at once |
| Action.ProcessFilesAdded | src/action.ts:107-137 | Creates one team per added file, as specified |
| Action.ProcessFilesModified | src/action.ts:139-169 | Updates one team per modified file, as specified |
| Action.ProcessFilesDeleted | src/action.ts:171-189 | Removes one team per deleted file, as specified |
| Action.AddedTeamsNamed | src/action.ts:121-131 | Each team created for an added file carries that file's team name, in file order |
| Action.DeletedTeamsNamed | src/action.ts:180-185 | Each id returned for a deleted file is that of the team found under the file's name, in file order |
| Action.Run | src/action.ts:99-105 | `run` processes the added files, then the modified files, then the deleted files, and stops at the first error |
| Action.RunOrder | src/action.ts:99-105 | Every call for added files comes before any for modified files, and those before any for deleted files; a successful run returns one result per file of each list |

## Left out

- Transport and I/O are not modelled. This covers the HTTP post, the body's JSON text, `readFile`, `join(workspace, file)`, environment variables, the `@actions/core` logging, `main` and the application configuration. Each is a parameter or an injected value.
- `async`/`await` is left out: every call completes before the next one starts, as the source awaits each in turn.
- The GraphQL query documents are opaque constructors (`Clients.Document`), not their text.
- Numbers are integers. Floating point, `NaN` and exponent notation are not modelled.
- Objects are maps, so key order is lost. `Object.entries(tags)` is modelled in ascending key order. The contracts about tags hold for any order.
- `toUpperCase` is modelled on ASCII letters only.
- `getInput` trims its value and enforces `required`; that is the `@actions/core` library and is not modelled. `Inputs.GetInputs` takes the values as returned.
- Inputs.FileList: `split(/\s*,\s*/u)` followed by `trim` is modelled as a split on `,` followed by `trim` of each piece. Both remove the same whitespace around each comma, but the model does not prove that equivalence.
- Paths.TeamName: only POSIX paths are modelled, not Windows separators.
- The error text of a failed `JSON.parse` is not kept. An unreadable or unparsable definition file is one `FileError` carrying the file name.
- Paths and keys looked up with `findByPath` are given as key lists (`GraphQL.FindValue`). `GraphQL.FindValueIsFindByPath` ties the two for dot-free keys.
- Nerdgraph.SetVarBinds: `query` assigns `variables.cursor` on the caller's own variables object, so the caller sees the last cursor afterwards; the model builds a new variable list instead. Every caller passes a fresh object literal, so nothing reads that change.
- Action.Run: the clients are passed in rather than built through the `Context` singletons.
- `teams.ts` calls `getUserByEmail(email)` with one argument, while `users.ts` declares it with an authentication domain as well. The users client is therefore modelled as answering an email lookup directly (`Clients.UserByEmail`), and the two-step lookup of `users.ts` is modelled on its own in `Users`.
- Strings are sequences of Unicode code points (Dafny `char`), not of UTF-16 code units. Lengths and the default `sort()` order of strings outside the Basic Multilingual Plane differ from JavaScript's: JavaScript sorts U+1F600 before U+FF01, the model after it. `arraysEqual` gives the same answer under either order (`Util.SortEqualIffPermutation`).
- Errors carry only their message. `NerdgraphError` does not keep the GraphQL `errors` array it is given in `src/nerdgraph/nerdgraph.ts:21-27` and `:97-101`, and `GraphQLResponseError` does not keep the offending value it is given in `src/nerdgraph/graphql.ts`. Only the message of an error is ever read.
- Users.UserEntityOf: returns a fresh `UserEntity(guid, name)` where `getUserById` returns the whole entity object (`src/nerdgraph/users.ts:189`). Only `guid` is ever read from it.
