/** Values shared by every part of the log-listing model: the ways a request
    fails, results that carry them, JSON-like documents, decoded query
    parameters and the routines of other libraries the helpers call. */
module Base {

  datatype Option<+T> = None | Some(value: T)

  /** How a request on the listing path fails, classified as the HTTP layer
      reports it. */
  datatype Error =
    | Unprocessable(message: string)   // HTTPUnprocessableEntity, status 422
    | BadRequest(message: string)      // falcon.HTTPBadRequest, status 400
    | Unauthorized(message: string)    // falcon.HTTPUnauthorized, status 401
    | AssertFail                       // a Python `assert` that does not hold
    | Uncaught                         // a KeyError, IndexError or TypeError that no handler catches
    | RepositoryError(cause: string)   // RepositoryException wrapping a backend failure

  datatype Result<+T> = Ok(value: T) | Err(error: Error) {
    predicate IsFailure() { Err? }
    function PropagateFailure<U>(): Result<U> requires Err? { Err(error) }
    function Extract(): T requires Ok? { value }
  }

  /** What a routine outside this model gives back: a value, or the text of
      the exception it raised. */
  datatype Raising<+T> = Returned(value: T) | Raised(message: string)

  /** JSON-like trees: search requests, search responses and response bodies. */
  datatype Json =
    | JNull
    | JInt(i: int)
    | JStr(s: string)
    | JList(items: seq<Json>)
    | JObj(fields: map<string, Json>)

  /** One decoded query-string parameter. Falcon gives a single string, or a
      list when the parameter is repeated or its value holds commas. */
  datatype ParamVal = Str(s: string) | Lst(items: seq<string>)

  type Params = map<string, ParamVal>

  /** What `get_query_param` can hand back: the parameter's text, or the
      caller's default, which is `None`, a string or an int. */
  datatype Scalar = SNone | SStr(s: string) | SInt(i: int)

  /** Routines of other libraries that the helpers call:
      `metric_validation.validate_dimension_key` and
      `validate_dimension_value` (None when the name or value is accepted,
      otherwise the text of the exception they raise), and oslo's ISO-8601
      parsing normalised to UTC, as seconds since the epoch. */
  datatype Collaborators = Collaborators(
    validateDimensionKey: string -> Option<string>,
    validateDimensionValue: (string, string) -> Option<string>,
    parseIsoTime: ParamVal -> Raising<real>)

  /** Applying a step that can fail to each element in order, stopping at the
      first failure: the shape of every `for x in xs: ... result.append(...)`
      loop on the listing path whose body may raise. */
  function MapResult<A, B>(f: A -> Result<B>, xs: seq<A>): (r: Result<seq<B>>)
    ensures r.Ok? <==> forall i :: 0 <= i < |xs| ==> f(xs[i]).Ok?
    ensures r.Ok? ==> |r.value| == |xs| && forall i :: 0 <= i < |xs| ==> r.value[i] == f(xs[i]).value
    ensures r.Err? ==> exists k :: 0 <= k < |xs| && f(xs[k]).Err? && r.error == f(xs[k]).error
                                   && forall i :: 0 <= i < k ==> f(xs[i]).Ok?
  {
    if |xs| == 0 then Ok([])
    else
      var init := MapResult(f, xs[..|xs| - 1]);
      var last := f(xs[|xs| - 1]);
      if init.Err? then Err(init.error)
      else if last.Err? then Err(last.error)
      else Ok(init.value + [last.value])
  }

  /** The outcome of the loop is decided by its first failing element. */
  lemma FirstFailureDecides<A, B>(f: A -> Result<B>, xs: seq<A>, k: int)
    requires 0 <= k < |xs| && f(xs[k]).Err?
    requires forall i :: 0 <= i < k ==> f(xs[i]).Ok?
    ensures MapResult(f, xs) == Err(f(xs[k]).error)
  {
  }
}
