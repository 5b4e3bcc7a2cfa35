/** Failure-compatible wrappers shared by every layer of the model, and the
    error taxonomy of the system: every exception the source throws becomes an
    `Err` carrying one of these values. */
module Base {

  datatype Option<+T> = None | Some(value: T)

  /** The exceptions the source raises.
      - HttpError: `HttpError` from `raiseForStatus`, carrying the status and
        the message naming the status class, the server's message and the url.
      - GraphQLResponseError: a malformed response envelope or an unparsable body.
      - NerdgraphError: every domain error of the Nerdgraph, users and teams clients.
      - TypeError: what the JavaScript runtime throws when `Object.hasOwn` is
        applied to `null` during a path walk.
      - DefinitionError: the plain `Error` of the orchestrator for a team
        definition that is not an object.
      - FileError: reading or parsing a team definition file failed; the text
        of that exception is the runtime's own.
      - NoReply: the model's finite list of answers ran out. */
  datatype Error =
    | HttpError(status: int, message: string)
    | GraphQLResponseError(reason: string)
    | NerdgraphError(reason: string)
    | TypeError(reason: string)
    | DefinitionError(reason: string)
    | FileError(file: string)
    | NoReply

  datatype Result<+T> = Ok(value: T) | Err(error: Error) {

    predicate IsFailure() {
      Err?
    }

    function PropagateFailure<U>(): Result<U>
      requires Err?
    {
      Err(error)
    }

    function Extract(): T
      requires Ok?
    {
      value
    }
  }

  /** `xs.map(f)` where `f` may throw: the first exception stops the map. */
  function MapResult<X, Y>(xs: seq<X>, f: X -> Result<Y>): (r: Result<seq<Y>>)
    ensures r.Ok? <==> forall i :: 0 <= i < |xs| ==> f(xs[i]).Ok?
    ensures r.Ok? ==> |r.value| == |xs| && forall i :: 0 <= i < |xs| ==> r.value[i] == f(xs[i]).value
    ensures r.Err? ==> exists i :: 0 <= i < |xs| && f(xs[i]).Err? && r.error == f(xs[i]).error
                                   && forall j :: 0 <= j < i ==> f(xs[j]).Ok?
  {
    if |xs| == 0 then Ok([])
    else
      var head :- f(xs[0]);
      var tail :- MapResult(xs[1..], f);
      Ok([head] + tail)
  }
}
