/** Values exchanged between sessions, the dispatchers and the processors:
    the JSON-like payloads of the stratum protocol, requests, responses and the
    outcome of one step of a worker thread. */
module Messages {

  datatype Option<+T> = None | Some(value: T)

  /** The optional value as a sequence of zero or one elements. */
  function AsSeq<T>(o: Option<T>): (s: seq<T>)
    ensures |s| <= 1
    ensures o.Some? <==> |s| == 1
    ensures o.Some? ==> s[0] == o.value
  {
    match o
    case None => []
    case Some(v) => [v]
  }

  /** JSON values as they occur in ids, params and results. */
  datatype Json =
    | JNull
    | JInt(i: int)
    | JStr(s: string)
    | JList(items: seq<Json>)

  /** A request dictionary `{id, method, params}`. `id == None` and
      `params == None` stand for a dictionary that lacks that key. */
  datatype Request = Request(id: Option<Json>, methodName: string, params: Option<seq<Json>>)

  /** A response dictionary. `id == JNull` stands for a missing id or an id of
      None (both read as None by `response.get('id')`); the other fields are
      None when the key is absent. */
  datatype Response = Response(
    id: Json,
    methodName: Option<string>,
    params: Option<seq<Json>>,
    result: Option<Json>,
    error: Option<Json>)

  /** How one step of a worker thread ended: normally, by an exception, or in
      a branch whose result is computed from state outside this model. The
      loops of the request dispatcher and of the processors print such an
      exception and go on with the next request; the loop of the response
      dispatcher has no handler, so there the exception ends the thread. */
  datatype Outcome = Completed | Raised(exception: string) | Unmodelled

  /** The parameters a request carries, with the `[]` default of `request.get('params', [])`. */
  function ParamsOrEmpty(r: Request): seq<Json>
  {
    if r.params.Some? then r.params.value else []
  }
}
