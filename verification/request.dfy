/**
 * `check_result` and `make_request` of cocapi/client/api.py: the parameter
 * filter applied before a request and the status classification applied to
 * its response. The HTTP exchange itself is a function parameter.
 */
module Request {
  import opened Wrappers
  import opened Json
  import opened Exceptions
  import opened Endpoints

  /** What the client reads from a response: its status, url, and decoded body (`None` when decoding raised). */
  datatype Response = Response(status: int, url: string, body: Option<Json>)

  /** aiohttp's `ClientResponse.ok`. */
  predicate IsOk(r: Response) {
    r.status < 400
  }

  datatype RequestFailure =
    | TransportFailed              // the session raised before a response arrived
    | UndecodableBody              // `response.json()` raised
    | BodyNotAnObject              // `json.get(...)` on a body that is not a dict
    | Rejected(error: RequestError)

  /** The class `check_result` raises for a non-ok status, read off its `match`. */
  function StatusClass(status: int): RequestErrorClass {
    match status
    case 400 => IncorrectParameters
    case 403 => AccessDenied
    case 404 => ResourceNotFound
    case 429 => TooManyRequests
    case 503 => ServiceUnavailable
    case _ => UnknownError
  }

  /** The data an `UnknownError` carries: four fields read with `dict.get`. */
  function ErrorData(fields: map<string, Json>): (d: Json)
    ensures d.JObj? && d.fields.Keys == {"error", "description", "reason", "message"}
    ensures forall k :: k in d.fields ==> d.fields[k] == Get(fields, k)
  {
    JObj(map["error" := Get(fields, "error"), "description" := Get(fields, "description"),
             "reason" := Get(fields, "reason"), "message" := Get(fields, "message")])
  }

  /**
   * `check_result`: the body is decoded first; an ok response comes back as
   * it is, any other raises the class its status selects.
   */
  function CheckResult(r: Response): (out: Result<Response, RequestFailure>)
    ensures out.Success? <==> r.body.Some? && IsOk(r)
    ensures out.Success? ==> out.value == r
    ensures r.body.None? ==> out == Failure(UndecodableBody)
    ensures out.Failure? && out.error.Rejected? ==>
      out.error.error.cls == StatusClass(r.status) && out.error.error.response == ResponseInfo(r.status, r.url)
    ensures r.body.Some? && !IsOk(r) && StatusClass(r.status) != UnknownError ==>
      out == Failure(Rejected(NewRequestError(StatusClass(r.status), ResponseInfo(r.status, r.url), JNull)))
    ensures r.body.Some? && !IsOk(r) && StatusClass(r.status) == UnknownError ==>
      (if r.body.value.JObj?
       then out == Failure(Rejected(NewRequestError(UnknownError, ResponseInfo(r.status, r.url), ErrorData(r.body.value.fields))))
       else out == Failure(BodyNotAnObject))
  {
    if r.body.None? then Failure(UndecodableBody)
    else if IsOk(r) then Success(r)
    else
      var info := ResponseInfo(r.status, r.url);
      var cls := StatusClass(r.status);
      if cls != UnknownError then Failure(Rejected(NewRequestError(cls, info, JNull)))
      else if r.body.value.JObj? then Failure(Rejected(NewRequestError(UnknownError, info, ErrorData(r.body.value.fields))))
      else Failure(BodyNotAnObject)
  }

  /**
   * The classification agrees with the taxonomy: a status that is some
   * subclass's `CODE` (other than 500) raises that subclass, every other
   * status raises `UnknownError`.
   */
  lemma StatusClassMatchesCode(status: int, c: RequestErrorClass)
    requires c != UnknownError
    ensures StatusClass(status) == c <==> Code(c) == Some(status)
  {
  }

  lemma StatusClassOtherwiseUnknown(status: int)
    requires forall c :: c != UnknownError ==> Code(c) != Some(status)
    ensures StatusClass(status) == UnknownError
  {
    assert Code(IncorrectParameters) != Some(status);
    assert Code(AccessDenied) != Some(status);
    assert Code(ResourceNotFound) != Some(status);
    assert Code(TooManyRequests) != Some(status);
    assert Code(ServiceUnavailable) != Some(status);
  }

  /** A raised error keeps the response's status as its class's code, except for the catch-all. */
  lemma RejectionCarriesCode(r: Response)
    requires CheckResult(r).Failure? && CheckResult(r).error.Rejected?
    ensures var e := CheckResult(r).error.error;
      e.cls == UnknownError || Code(e.cls) == Some(r.status)
  {
  }

  /** The `params` dict with its `None` values dropped. */
  function FilterParams(params: map<string, Json>): (f: map<string, Json>)
    ensures forall k :: k in f <==> k in params && params[k] != JNull
    ensures forall k :: k in f ==> f[k] == params[k]
  {
    map k | k in params && params[k] != JNull :: params[k]
  }

  /** Filtering twice is filtering once. */
  lemma FilterParamsIdempotent(params: map<string, Json>)
    ensures FilterParams(FilterParams(params)) == FilterParams(params)
  {
  }

  /** A request as it leaves the client: method, url, and the query parameters if any were given. */
  datatype Outgoing = Outgoing(httpMethod: string, url: string, params: Option<map<string, Json>>)

  /** A request sent and what came of it. */
  datatype Exchange = Exchange(sent: Outgoing, result: Result<Response, RequestFailure>)

  /**
   * `make_request`: filter the parameters if present, send through the
   * transport (`None` when it raised), then check the response.
   */
  function MakeRequest(send: Outgoing -> Option<Response>, m: BoundMethod, params: Option<map<string, Json>>): (x: Exchange)
    ensures x.sent.httpMethod == m.httpMethod && x.sent.url == m.url
    ensures params.None? ==> x.sent.params.None?
    ensures params.Some? ==> x.sent.params == Some(FilterParams(params.value))
    ensures send(x.sent).None? ==> x.result == Failure(TransportFailed)
    ensures send(x.sent).Some? ==> x.result == CheckResult(send(x.sent).value)
  {
    var out := Outgoing(m.httpMethod, m.url, if params.Some? then Some(FilterParams(params.value)) else None);
    match send(out)
    case None => Exchange(out, Failure(TransportFailed))
    case Some(resp) => Exchange(out, CheckResult(resp))
  }
}
