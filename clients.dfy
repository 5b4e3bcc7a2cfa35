/** The clients the domain layers are given instead of building their own:
    the Nerdgraph client (`NerdgraphClient.query`) and the users client
    (`UsersClient`) that the teams client calls. Each is an oracle that
    answers the last call of the history of calls made so far, so a later
    answer may depend on an earlier mutation. Every domain operation returns
    the history it extended, which is how the model states which calls an
    operation makes, in which order, and which it never makes. */
module Clients {
  import opened Base
  import opened Json
  import opened GraphQL
  import opened Nerdgraph

  /** The GraphQL documents the domain clients send. Their text is not part
      of the model: each is an opaque constant, except that the lookup of a
      user by id carries the entity-search text it embeds the id into. */
  datatype Document =
    | UserIdByEmailQuery
    | UserByIdQuery(search: string)
    | TeamsQuery
    | TeamMembersQuery
    | AddMembersMutation
    | RemoveMembersMutation
    | CreateTeamMutation
    | UpdateTeamMutation
    | DeleteTeamMutation

  /** The arguments of one `NerdgraphClient.query` call: API key, document,
      variables in key order, the mutation flag, the cursor path and the
      region. Callers in the domain layers pass no extra headers. */
  datatype NerdgraphCall = NerdgraphCall(
    apiKey: string,
    document: Document,
    variables: seq<Var>,
    mutation: bool,
    nextCursorPath: Option<string>,
    region: Region)

  /** `number | string`, the id type of `getUserById`. */
  datatype UserId = NumId(n: int) | StrId(s: string)

  datatype UserEntity = UserEntity(guid: string, name: string)

  datatype Call =
    | Query(call: NerdgraphCall)
    | UserById(id: UserId)
    | UserByEmail(email: string)

  /** The injected clients: `nerdgraph` answers a history ending in a
      `Query` with the pages `NerdgraphClient.query` resolves to (or its
      exception), `users` a history ending in a user lookup. */
  datatype Env = Env(
    nerdgraph: seq<Call> -> Result<seq<Json>>,
    users: seq<Call> -> Result<Option<UserEntity>>)

  /** The outcome of an operation and the call history after it. */
  datatype Traced<T> = Traced(result: Result<T>, log: seq<Call>)

  /** Whether a call changes server state. */
  predicate IsMutation(c: Call)
  {
    c.Query? && c.call.mutation
  }
}
